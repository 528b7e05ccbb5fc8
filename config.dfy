/** The settings that are comma-separated lists: the administrator ids, the whitelisted
    users and the allowed chat types. Loading the settings from the environment is not
    modelled; each parser takes the raw setting text. */
module Config {
  import opened Text

  /** Each part stripped, the parts left empty dropped, in their original order. */
  function StrippedPieces(parts: seq<string>): (pieces: seq<string>)
    ensures |pieces| <= |parts|
    ensures forall p | p in pieces :: p != [] && !IsSpace(p[0]) && !IsSpace(p[|p| - 1])
  {
    if parts == [] then []
    else
      StripEnds(parts[0]);
      var rest := StrippedPieces(parts[1..]);
      if Strip(parts[0]) != [] then [Strip(parts[0])] + rest else rest
  }

  /** `[x.strip() for x in setting.split(',') if x.strip()]`: the non-empty pieces between
      commas, without surrounding whitespace; never more than the commas plus one. */
  function Pieces(setting: string): (pieces: seq<string>)
    ensures |pieces| <= CountChar(setting, ',') + 1
    ensures forall p | p in pieces :: p != [] && !IsSpace(p[0]) && !IsSpace(p[|p| - 1])
  {
    SplitCount(setting, ',');
    StrippedPieces(Split(setting, ','))
  }

  /** Digits, with single underscores allowed between two digits, as `int()` reads them:
      digits at both ends and no two underscores in a row. */
  predicate DigitGroups(d: string) {
    && d != [] && IsDigit(d[0]) && IsDigit(d[|d| - 1])
    && (forall i :: 0 <= i < |d| ==> IsDigit(d[i]) || d[i] == '_')
    && !Contains(d, "__")
  }

  /** The text after an optional sign. */
  function Unsigned(s: string): string {
    if s != [] && (s[0] == '+' || s[0] == '-') then s[1..] else s
  }

  /** A piece `int()` accepts: an optional sign, then digit groups. */
  predicate IsIntText(s: string) { DigitGroups(Unsigned(s)) }

  /** The value of digits among which underscores may stand: the underscores are skipped. */
  function GroupedValue(d: string): nat
    requires forall i :: 0 <= i < |d| ==> IsDigit(d[i]) || d[i] == '_'
  {
    if d == [] then 0
    else if d[|d| - 1] == '_' then GroupedValue(d[..|d| - 1])
    else 10 * GroupedValue(d[..|d| - 1]) + DigitValue(d[|d| - 1])
  }

  /** Without underscores, the value is the plain decimal value. */
  lemma {:induction false} GroupedValueOfDigits(d: string)
    requires AllDigits(d)
    ensures GroupedValue(d) == DecimalValue(d)
  {
    if d != [] {
      GroupedValueOfDigits(d[..|d| - 1]);
    }
  }

  /** The value `int()` gives an accepted piece. */
  function IntValue(s: string): int
    requires IsIntText(s)
  {
    var magnitude: int := GroupedValue(Unsigned(s));
    if s[0] == '-' then -magnitude else magnitude
  }

  /** A parsed id list, or the first piece `int()` refuses (the source raises there). */
  datatype IdList = Ids(ids: seq<int>) | NotANumber(piece: string)

  /** `pieces[k]` is the first piece `int()` refuses. */
  predicate FirstRefused(pieces: seq<string>, k: int) {
    0 <= k < |pieces| && !IsIntText(pieces[k]) && forall i :: 0 <= i < k ==> IsIntText(pieces[i])
  }

  /** `int()` applied to each piece in order; the first piece it refuses ends the parse. */
  function ParseIds(pieces: seq<string>): (r: IdList)
    ensures r.Ids? <==> (forall i :: 0 <= i < |pieces| ==> IsIntText(pieces[i]))
    ensures r.Ids? ==> |r.ids| == |pieces|
    ensures r.NotANumber? ==> exists k :: FirstRefused(pieces, k) && pieces[k] == r.piece
  {
    if pieces == [] then Ids([])
    else if !IsIntText(pieces[0]) then
      assert FirstRefused(pieces, 0);
      NotANumber(pieces[0])
    else
      var rest := ParseIds(pieces[1..]);
      if rest.NotANumber? then
        assert exists k :: FirstRefused(pieces, k) && pieces[k] == rest.piece by {
          var k :| FirstRefused(pieces[1..], k) && pieces[1..][k] == rest.piece;
          assert pieces[k + 1] == pieces[1..][k];
          forall i | 0 <= i < k + 1 ensures IsIntText(pieces[i]) {
            if i > 0 {
              assert pieces[i] == pieces[1..][i - 1];
            }
          }
          assert FirstRefused(pieces, k + 1);
        }
        assert exists i :: 0 <= i < |pieces| && !IsIntText(pieces[i]);
        rest
      else
        Ids([IntValue(pieces[0])] + rest.ids)
  }

  /** Each parsed id is the value of the piece at the same position. */
  lemma {:induction false} ParseIdsValues(pieces: seq<string>)
    requires ParseIds(pieces).Ids?
    ensures forall i :: 0 <= i < |pieces| ==> ParseIds(pieces).ids[i] == IntValue(pieces[i])
  {
    if pieces != [] {
      ParseIdsValues(pieces[1..]);
      var ids := ParseIds(pieces).ids;
      var rest := ParseIds(pieces[1..]).ids;
      assert ids == [IntValue(pieces[0])] + rest;
      forall i | 1 <= i < |pieces| ensures ids[i] == IntValue(pieces[i]) {
        assert ids[i] == rest[i - 1] && pieces[i] == pieces[1..][i - 1];
      }
    }
  }

  /** `get_admin_ids` and `get_whitelist_users`, which follow the same rule: a blank
      setting gives no ids; otherwise every piece is read as an integer, in order. */
  function ParseIdList(setting: string): (r: IdList)
    ensures Strip(setting) == [] ==> r == Ids([])
    ensures Strip(setting) != [] ==> (r.Ids? <==> forall p | p in Pieces(setting) :: IsIntText(p))
    ensures r.Ids? ==> |r.ids| <= CountChar(setting, ',') + 1
    ensures r.NotANumber? ==> exists k :: FirstRefused(Pieces(setting), k) && Pieces(setting)[k] == r.piece
  {
    if Strip(setting) == [] then Ids([]) else ParseIds(Pieces(setting))
  }

  const DefaultChatTypes: seq<string> := ["private", "group"]

  /** `get_allowed_chat_types`: the default pair for a blank setting, otherwise the
      setting's pieces, however few. */
  function AllowedChatTypes(setting: string): (types: seq<string>)
    ensures Strip(setting) == [] ==> types == DefaultChatTypes
    ensures Strip(setting) != [] ==> types == Pieces(setting)
    ensures |types| <= CountChar(setting, ',') + 1 || Strip(setting) == []
  {
    if Strip(setting) == [] then DefaultChatTypes else Pieces(setting)
  }

  /** A setting of commas only is not blank, so it gives no chat types at all rather than
      the default pair. */
  lemma CommasOnlyGiveNoChatTypes()
    ensures AllowedChatTypes(",") == []
  {
    assert Strip(",") != [] by {
      StripEmptyIffBlank(",");
      assert !IsSpace(","[0]);
    }
    assert Split(",", ',') == ["", ""] by {
      assert IndexOf(",", ',') == 0;
      assert ","[1..] == "";
    }
    assert Strip("") == "";
  }

  /** The numerals of a list of natural numbers. */
  function Numerals(ids: seq<nat>): (r: seq<string>)
    ensures |r| == |ids|
    ensures forall i :: 0 <= i < |ids| ==> r[i] == NatToString(ids[i])
  {
    if ids == [] then [] else [NatToString(ids[0])] + Numerals(ids[1..])
  }

  /** A word with no whitespace at its ends has nothing to strip. */
  lemma StripNumeralFree(s: string)
    requires s != [] && !IsSpace(s[0]) && !IsSpace(s[|s| - 1])
    ensures Strip(s) == s
  {
    assert TrimLeft(s) == s;
    assert TrimRight(s) == s;
  }

  /** A numeral has no surrounding whitespace to strip. */
  lemma StripNumeral(s: string)
    requires s != [] && AllDigits(s)
    ensures Strip(s) == s
  {
    assert !IsSpace(s[0]) && !IsSpace(s[|s| - 1]);
    assert TrimLeft(s) == s;
    assert TrimRight(s) == s;
  }

  /** Pieces that are already non-empty and stripped pass through unchanged. */
  lemma {:induction false} CleanPiecesKept(parts: seq<string>)
    requires forall p | p in parts :: p != [] && !IsSpace(p[0]) && !IsSpace(p[|p| - 1])
    ensures StrippedPieces(parts) == parts
  {
    if parts != [] {
      StripNumeralFree(parts[0]);
      CleanPiecesKept(parts[1..]);
    }
  }

  lemma StrippedNumerals(ids: seq<nat>)
    ensures StrippedPieces(Numerals(ids)) == Numerals(ids)
  {
    forall p | p in Numerals(ids) ensures p != [] && !IsSpace(p[0]) && !IsSpace(p[|p| - 1]) {
      var i :| 0 <= i < |ids| && Numerals(ids)[i] == p;
      assert AllDigits(p);
    }
    CleanPiecesKept(Numerals(ids));
  }

  /** Every numeral reads back as its number. */
  lemma NumeralRoundTrip(n: nat)
    ensures IsIntText(NatToString(n)) && IntValue(NatToString(n)) == n
  {
    var s := NatToString(n);
    assert Unsigned(s) == s by {
      assert IsDigit(s[0]);
    }
    assert '_' !in s;
    MissingCharNotContained(s, "__", '_');
    DecimalValueOfNatToString(n);
    GroupedValueOfDigits(s);
  }

  /** A readable piece in front of a parsed list adds its value in front of the ids. */
  lemma ParseCons(first: string, rest: seq<string>, vs: seq<int>)
    requires IsIntText(first) && ParseIds(rest) == Ids(vs)
    ensures ParseIds([first] + rest) == Ids([IntValue(first)] + vs)
  {
    assert ([first] + rest)[1..] == rest;
  }

  lemma {:induction false} ParseNumerals(ids: seq<nat>)
    ensures ParseIds(Numerals(ids)) == Ids(ids)
    decreases |ids|
  {
    if ids != [] {
      NumeralRoundTrip(ids[0]);
      ParseNumerals(ids[1..]);
      ParseCons(NatToString(ids[0]), Numerals(ids[1..]), ids[1..]);
      assert [ids[0]] + ids[1..] == ids;
    }
  }

  /** The setting written from a non-empty list of ids begins with a digit. */
  lemma {:induction false} JoinedNumeralsStart(ids: seq<nat>)
    requires ids != []
    ensures var setting := Join(",", Numerals(ids));
      setting != [] && IsDigit(setting[0])
  {
    var first := NatToString(ids[0]);
    var parts := Numerals(ids);
    assert parts[0] == first;
    assert IsDigit(first[0]);
    if |parts| > 1 {
      assert Join(",", parts) == first + "," + Join(",", parts[1..]);
    }
  }

  /** Writing ids out as the setting `"1,2,3"` and parsing it gives the ids back. */
  lemma IdsRoundTrip(ids: seq<nat>)
    requires ids != []
    ensures ParseIdList(Join(",", Numerals(ids))) == Ids(ids)
  {
    var parts := Numerals(ids);
    var setting := Join(",", parts);
    assert "," == [','];
    forall p | p in parts ensures ',' !in p {
      var i :| 0 <= i < |parts| && parts[i] == p;
      assert AllDigits(p);
    }
    SplitJoin(parts, ',');
    StrippedNumerals(ids);
    assert Pieces(setting) == parts;
    JoinedNumeralsStart(ids);
    StripEmptyIffBlank(setting);
    ParseNumerals(ids);
  }

  /** The parsed settings the access checks consult. */
  datatype Settings = Settings(
    adminIds: seq<int>, whitelistUsers: seq<int>, allowedChatTypes: seq<string>, requireWhitelist: bool)

  /** Two comma-free words joined by a comma split back into the two words. */
  lemma SplitPair(a: string, b: string)
    requires ',' !in a && ',' !in b
    ensures Split(a + "," + b, ',') == [a, b]
  {
    SplitJoin([a, b], ',');
    assert Join([','], [a, b]) == a + "," + b;
  }

  /** Two chat types separated by a comma are read back as those two types. */
  lemma TwoChatTypes(a: string, b: string)
    requires a != [] && !IsSpace(a[0]) && !IsSpace(a[|a| - 1]) && ',' !in a
    requires b != [] && !IsSpace(b[0]) && !IsSpace(b[|b| - 1]) && ',' !in b
    ensures AllowedChatTypes(a + "," + b) == [a, b]
  {
    var setting := a + "," + b;
    assert setting[0] == a[0];
    StripNotBlank(setting);
    SplitPair(a, b);
    CleanPiecesKept([a, b]);
  }

  /** The default chat-type setting spells out the same two types as a blank one. */
  lemma DefaultChatTypesSetting(a: string, b: string)
    requires a == "private" && b == "group"
    ensures AllowedChatTypes(a + "," + b) == DefaultChatTypes
  {
    TwoChatTypes(a, b);
  }
}
