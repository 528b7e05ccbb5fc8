/** Username availability checks: validating the username, choosing the platforms,
    reading each platform's HTTP outcome, collecting the results by platform and
    formatting the counts. The outcome of the i-th request is a parameter. */
module UserCheck {
  import opened Text
  import opened Options

  // ---------------------------------------------------------------------------
  // Platforms

  /** The platforms in their declared order. */
  const PlatformNames: seq<string> :=
    ["github", "twitter", "instagram", "reddit", "medium", "telegram", "youtube", "tiktok"]

  /** A profile URL template: the username goes between the two parts. */
  datatype Template = Template(prefix: string, suffix: string)

  function TemplateOf(platform: string): Template
    requires platform in PlatformNames
  {
    match platform
    case "github" => Template("https://github.com/", "")
    case "twitter" => Template("https://twitter.com/", "")
    case "instagram" => Template("https://www.instagram.com/", "/")
    case "reddit" => Template("https://www.reddit.com/user/", "")
    case "medium" => Template("https://medium.com/@", "")
    case "telegram" => Template("https://t.me/", "")
    case "youtube" => Template("https://www.youtube.com/@", "")
    case _ => Template("https://www.tiktok.com/@", "")
  }

  /** `PLATFORMS[platform].format(username)`. */
  function ProfileUrl(platform: string, username: string): (url: string)
    requires platform in PlatformNames
    ensures url == TemplateOf(platform).prefix + username + TemplateOf(platform).suffix
  {
    var t := TemplateOf(platform);
    t.prefix + username + t.suffix
  }

  /** The platforms a check covers: all of them in declared order when none are named,
      otherwise the named ones lower-cased, unknown names dropped, order kept. */
  function SelectPlatforms(requested: Option<seq<string>>): (ps: seq<string>)
    ensures requested.None? ==> ps == PlatformNames
    ensures requested.Some? ==> ps == KnownLowered(requested.value)
  {
    if requested.None? then PlatformNames else KnownLowered(requested.value)
  }

  /** `[p.lower() for p in names if p.lower() in PLATFORMS]`. */
  function KnownLowered(names: seq<string>): (ps: seq<string>)
    ensures |ps| <= |names|
    ensures forall p | p in ps :: p in PlatformNames
  {
    if names == [] then []
    else
      var rest := KnownLowered(names[..|names| - 1]);
      var p := Lower(names[|names| - 1]);
      if p in PlatformNames then rest + [p] else rest
  }

  /** Selection keeps the order of the request: selecting from two lists one after the
      other gives the two selections one after the other. */
  lemma {:induction false} SelectionKeepsOrder(a: seq<string>, b: seq<string>)
    ensures KnownLowered(a + b) == KnownLowered(a) + KnownLowered(b)
    decreases |b|
  {
    if b == [] {
      assert a + b == a;
    } else {
      var b' := b[..|b| - 1];
      var last := Lower(b[|b| - 1]);
      assert (a + b)[..|a + b| - 1] == a + b';
      assert (a + b)[|a + b| - 1] == b[|b| - 1];
      SelectionKeepsOrder(a, b');
      var tail := if last in PlatformNames then [last] else [];
      assert KnownLowered(a + b) == KnownLowered(a + b') + tail;
      assert KnownLowered(b) == KnownLowered(b') + tail;
      assert KnownLowered(a) + KnownLowered(b') + tail == KnownLowered(a) + (KnownLowered(b') + tail);
    }
  }

  /** Every requested name that is a platform once lower-cased is selected. */
  lemma {:induction false} KnownNamesSelected(names: seq<string>, i: nat)
    requires i < |names| && Lower(names[i]) in PlatformNames
    ensures Lower(names[i]) in KnownLowered(names)
    decreases |names|
  {
    if i < |names| - 1 {
      assert names[..|names| - 1][i] == names[i];
      KnownNamesSelected(names[..|names| - 1], i);
    }
  }

  // ---------------------------------------------------------------------------
  // Validation

  const InvalidUsername: string :=
    "Username tidak valid. Hanya huruf, angka, underscore, dan dash yang diperbolehkan."

  /** `str.isalnum()`: not empty, and every character a letter or a digit. */
  predicate IsAlnumText(s: string) {
    s != [] && forall c | c in s :: IsAlnum(c)
  }

  /** The username after `strip()` and `lower()`. */
  function Normalize(username: string): string {
    Lower(Strip(username))
  }

  /** The source's test: with underscores and dashes deleted, what is left is alphanumeric. */
  predicate Acceptable(name: string) {
    IsAlnumText(DeleteChar(DeleteChar(name, '_'), '-'))
  }

  /** A name is accepted exactly when it holds only letters, digits, underscores and
      dashes, and at least one letter or digit. */
  lemma AcceptableIff(name: string)
    ensures Acceptable(name) <==>
      (forall c | c in name :: IsAlnum(c) || c == '_' || c == '-')
      && (exists c | c in name :: IsAlnum(c))
  {
    var d := DeleteChar(DeleteChar(name, '_'), '-');
    if Acceptable(name) {
      assert d[0] in d;
      forall c | c in name ensures IsAlnum(c) || c == '_' || c == '-' {
        if c != '_' && c != '-' {
          assert c in DeleteChar(name, '_');
          assert c in d;
        }
      }
    }
    if (forall c | c in name :: IsAlnum(c) || c == '_' || c == '-') && (exists c | c in name :: IsAlnum(c)) {
      var c :| c in name && IsAlnum(c);
      assert c in d;
    }
  }

  // ---------------------------------------------------------------------------
  // One platform

  /** The outcome of one request: a status, a timeout, or another exception's message. */
  datatype Probe = Status(code: int) | TimedOut | Failed(message: string)

  /** `True`, `False` and `"unknown"` in the source's `exists` field. */
  datatype Presence = Found | Available | Unknown

  datatype PlatformResult = PlatformResult(
    presence: Presence, url: string, statusCode: Option<int>, note: Option<string>)

  const UncertainNote: string := "Status tidak dapat dipastikan"
  const TimeoutNote: string := "Request timeout"

  /** `check_platform`: 200 means the account exists, 404 that the name is available,
      anything else, a timeout or an error leaves it unknown with a note saying why. */
  function CheckPlatform(username: string, platform: string, probe: Probe): (r: PlatformResult)
    requires platform in PlatformNames
    ensures r.url == ProfileUrl(platform, username)
    ensures r.presence == Found <==> probe == Status(200)
    ensures r.presence == Available <==> probe == Status(404)
    ensures r.presence == Unknown <==> r.note.Some?
    ensures r.statusCode.Some? <==> probe.Status?
    ensures r.statusCode.Some? ==> r.statusCode.value == probe.code
  {
    var url := ProfileUrl(platform, username);
    match probe
    case Status(code) =>
      if code == 200 then PlatformResult(Found, url, Some(200), None)
      else if code == 404 then PlatformResult(Available, url, Some(404), None)
      else PlatformResult(Unknown, url, Some(code), Some(UncertainNote))
    case TimedOut => PlatformResult(Unknown, url, None, Some(TimeoutNote))
    case Failed(message) => PlatformResult(Unknown, url, None, Some("Error: " + Take(message, 50)))
  }

  // ---------------------------------------------------------------------------
  // Collecting results

  /** One entry of the results dictionary. */
  datatype Entry = Entry(platform: string, result: PlatformResult)

  function Keys(entries: seq<Entry>): (ks: seq<string>)
    ensures |ks| == |entries|
    ensures forall i :: 0 <= i < |entries| ==> ks[i] == entries[i].platform
  {
    seq(|entries|, i requires 0 <= i < |entries| => entries[i].platform)
  }

  /** `d[key] = value` on an insertion-ordered dictionary: an existing key keeps its place
      and takes the new value, a new key goes last. */
  function Assign(entries: seq<Entry>, e: Entry): (r: seq<Entry>)
    ensures e.platform in Keys(entries) ==> Keys(r) == Keys(entries)
    ensures e.platform !in Keys(entries) ==> Keys(r) == Keys(entries) + [e.platform]
    ensures e in r
    ensures forall j | 0 <= j < |entries| && entries[j].platform != e.platform :: r[j] == entries[j]
    ensures NoDuplicates(Keys(entries)) ==> NoDuplicates(Keys(r))
  {
    if entries == [] then [e]
    else
      KeysCons(entries[0], entries[1..]);
      assert entries == [entries[0]] + entries[1..];
      if entries[0].platform == e.platform then
        KeysCons(e, entries[1..]);
        [e] + entries[1..]
      else
        var rest := Assign(entries[1..], e);
        KeysCons(entries[0], rest);
        [entries[0]] + rest
  }

  lemma KeysCons(e: Entry, entries: seq<Entry>)
    ensures Keys([e] + entries) == [e.platform] + Keys(entries)
  {
  }

  /** The dictionary the zip loop builds from the gathered entries, in order. */
  function Fill(es: seq<Entry>): seq<Entry> {
    if es == [] then [] else Assign(Fill(es[..|es| - 1]), es[|es| - 1])
  }

  /** `es[i]` is the last entry of `es` for its platform. */
  predicate LastFor(es: seq<Entry>, i: int) {
    0 <= i < |es| && forall k | i < k < |es| :: es[k].platform != es[i].platform
  }

  /** An entry after `d[key] = value` on a dictionary without repeated keys is either the
      new one or an untouched entry for another platform. */
  lemma AssignEntry(prev: seq<Entry>, e: Entry, j: int)
    requires NoDuplicates(Keys(prev)) && 0 <= j < |Assign(prev, e)|
    ensures var r := Assign(prev, e);
      r[j] == e || (j < |prev| && r[j] == prev[j] && prev[j].platform != e.platform)
  {
    var r := Assign(prev, e);
    var m :| 0 <= m < |r| && r[m] == e;
    if j < |prev| && prev[j].platform != e.platform {
    } else {
      assert Keys(r)[j] == e.platform == Keys(r)[m];
    }
  }

  /** Every entry of the dictionary is the last gathered entry for its platform: a platform
      asked for twice keeps the second result. The keys never repeat. */
  lemma {:induction false} FillKeepsLast(es: seq<Entry>)
    ensures NoDuplicates(Keys(Fill(es)))
    ensures forall j | 0 <= j < |Fill(es)| :: exists i :: LastFor(es, i) && es[i] == Fill(es)[j]
    decreases |es|
  {
    if es != [] {
      var init := es[..|es| - 1];
      var e := es[|es| - 1];
      FillKeepsLast(init);
      assert es == init + [e];
      assert Fill(es) == Assign(Fill(init), e);
      forall j | 0 <= j < |Fill(es)| ensures exists i :: LastFor(es, i) && es[i] == Fill(es)[j] {
        var i := FillStep(init, e, Fill(init), j);
      }
    }
  }

  /** One entry after appending `e`: it is `e` itself, or an entry that was already the
      last of its platform and stays so. */
  lemma FillStep(init: seq<Entry>, e: Entry, prev: seq<Entry>, j: int) returns (i: int)
    requires NoDuplicates(Keys(prev)) && 0 <= j < |Assign(prev, e)|
    requires forall j' | 0 <= j' < |prev| :: exists i' :: LastFor(init, i') && init[i'] == prev[j']
    ensures LastFor(init + [e], i) && (init + [e])[i] == Assign(prev, e)[j]
  {
    AssignEntry(prev, e, j);
    if Assign(prev, e)[j] == e {
      i := |init|;
    } else {
      i :| LastFor(init, i) && init[i] == prev[j];
      assert (init + [e])[i] == init[i];
      forall k | i < k < |init| + 1 ensures (init + [e])[k].platform != init[i].platform {
        if k < |init| {
          assert (init + [e])[k] == init[k];
        }
      }
    }
  }

  /** The keys in order of first appearance. */
  function Distinct(ks: seq<string>): (d: seq<string>)
    ensures |d| <= |ks|
    ensures forall k :: k in d <==> k in ks
  {
    if ks == [] then []
    else
      var d := Distinct(ks[..|ks| - 1]);
      assert forall k :: k in ks <==> k in ks[..|ks| - 1] || k == ks[|ks| - 1];
      if ks[|ks| - 1] in d then d else d + [ks[|ks| - 1]]
  }

  predicate NoDuplicates(ks: seq<string>) {
    forall i, j :: 0 <= i < j < |ks| ==> ks[i] != ks[j]
  }

  /** The dictionary holds one entry per distinct platform, in order of first appearance. */
  lemma {:induction false} FillKeys(es: seq<Entry>)
    ensures Keys(Fill(es)) == Distinct(Keys(es))
    decreases |es|
  {
    if es != [] {
      var init := es[..|es| - 1];
      FillKeys(init);
      assert Keys(es)[..|es| - 1] == Keys(init);
    }
  }

  /** Without repeated names nothing is collapsed. */
  lemma {:induction false} DistinctOfNoDuplicates(ks: seq<string>)
    requires NoDuplicates(ks)
    ensures Distinct(ks) == ks
    decreases |ks|
  {
    if ks != [] {
      var init := ks[..|ks| - 1];
      DistinctOfNoDuplicates(init);
      assert ks[|ks| - 1] !in init;
      assert init + [ks[|ks| - 1]] == ks;
    }
  }

  /** The result of `check_username`. */
  datatype UserCheckResult =
    | UserError(username: string, error: string)
    | UserChecked(username: string, checkedPlatforms: nat, results: seq<Entry>)

  /** The gathered outcomes, paired with their platforms in request order. */
  function Gathered(username: string, platforms: seq<string>, outcomes: nat -> Probe): (es: seq<Entry>)
    requires forall p | p in platforms :: p in PlatformNames
    ensures Keys(es) == platforms
    ensures forall i :: 0 <= i < |platforms| ==>
      es[i].result == CheckPlatform(username, platforms[i], outcomes(i))
  {
    seq(|platforms|, i requires 0 <= i < |platforms| =>
      Entry(platforms[i], CheckPlatform(username, platforms[i], outcomes(i))))
  }

  /** What `check_username` returns. */
  function UserCheckOf(username: string, platforms: Option<seq<string>>, outcomes: nat -> Probe)
    : (r: UserCheckResult)
    ensures r.username == Normalize(username)
    ensures r.UserError? <==> !Acceptable(Normalize(username))
    ensures r.UserError? ==> r.error == InvalidUsername
    ensures r.UserChecked? ==> r.checkedPlatforms == |SelectPlatforms(platforms)|
  {
    var name := Normalize(username);
    if !Acceptable(name) then UserError(name, InvalidUsername)
    else
      var selected := SelectPlatforms(platforms);
      UserChecked(name, |selected|, Fill(Gathered(name, selected, outcomes)))
  }

  /** `check_username`: the username is normalised and validated, the platforms chosen,
      their outcomes gathered, and each stored under its platform. */
  method CheckUsername(username: string, platforms: Option<seq<string>>, outcomes: nat -> Probe)
    returns (results: UserCheckResult)
    ensures results == UserCheckOf(username, platforms, outcomes)
  {
    var name := Lower(Strip(username));
    if !IsAlnumText(DeleteChar(DeleteChar(name, '_'), '-')) {
      return UserError(name, InvalidUsername);
    }
    var selected := SelectPlatforms(platforms);
    var entries := StoreResults(Gathered(name, selected, outcomes));
    results := UserChecked(name, |selected|, entries);
  }

  /** The loop storing each gathered result under its platform, in order. */
  method StoreResults(gathered: seq<Entry>) returns (entries: seq<Entry>)
    ensures entries == Fill(gathered)
    ensures Keys(entries) == Distinct(Keys(gathered))
    ensures forall j | 0 <= j < |entries| :: exists i :: LastFor(gathered, i) && gathered[i] == entries[j]
  {
    entries := [];
    for i := 0 to |gathered|
      invariant entries == Fill(gathered[..i])
    {
      assert gathered[..i + 1][..i] == gathered[..i];
      entries := Assign(entries, gathered[i]);
    }
    assert gathered[..|gathered|] == gathered;
    FillKeys(gathered);
    FillKeepsLast(gathered);
  }

  /** The stored results name each selected platform once, in order of first selection;
      there are never more of them than platforms counted as checked. */
  lemma ResultsCoverSelection(username: string, platforms: Option<seq<string>>, outcomes: nat -> Probe)
    requires UserCheckOf(username, platforms, outcomes).UserChecked?
    ensures var r := UserCheckOf(username, platforms, outcomes);
      Keys(r.results) == Distinct(SelectPlatforms(platforms)) && |r.results| <= r.checkedPlatforms
  {
    var name := Normalize(username);
    FillKeys(Gathered(name, SelectPlatforms(platforms), outcomes));
  }

  /** The result stored under a platform is the outcome of checking that platform, taken
      from the last position at which it was selected. */
  lemma StoredResultIsLastCheck(username: string, platforms: Option<seq<string>>, outcomes: nat -> Probe)
    requires UserCheckOf(username, platforms, outcomes).UserChecked?
    ensures var r := UserCheckOf(username, platforms, outcomes);
      var selected := SelectPlatforms(platforms);
      forall j | 0 <= j < |r.results| :: exists i ::
        && 0 <= i < |selected| && selected[i] == r.results[j].platform
        && r.results[j].result == CheckPlatform(r.username, selected[i], outcomes(i))
        && forall k | i < k < |selected| :: selected[k] != selected[i]
  {
    var name := Normalize(username);
    var selected := SelectPlatforms(platforms);
    var es := Gathered(name, selected, outcomes);
    var res := Fill(es);
    FillKeepsLast(es);
    forall j | 0 <= j < |res| ensures exists i ::
        && 0 <= i < |selected| && selected[i] == res[j].platform
        && res[j].result == CheckPlatform(name, selected[i], outcomes(i))
        && forall k | i < k < |selected| :: selected[k] != selected[i]
    {
      var i :| LastFor(es, i) && es[i] == res[j];
      assert Keys(es)[i] == selected[i];
      forall k | i < k < |selected| ensures selected[k] != selected[i] {
        assert Keys(es)[k] == es[k].platform;
      }
    }
  }

  /** Checking every platform stores all eight, in declared order. */
  lemma AllPlatformsChecked(username: string, outcomes: nat -> Probe)
    requires Acceptable(Normalize(username))
    ensures var r := UserCheckOf(username, None, outcomes);
      r.checkedPlatforms == 8 && Keys(r.results) == PlatformNames
  {
    ResultsCoverSelection(username, None, outcomes);
    PlatformNamesDistinct();
    DistinctOfNoDuplicates(PlatformNames);
  }

  lemma PlatformNamesDistinct()
    ensures NoDuplicates(PlatformNames)
  {
    var n := PlatformNames;
    assert n[0][0] == 'g' && n[1][..2] == "tw" && n[2][0] == 'i' && n[3][0] == 'r';
    assert n[4][0] == 'm' && n[5][..2] == "te" && n[6][0] == 'y' && n[7][..2] == "ti";
  }

  lemma GitHubSelectedTwice(lower: string, mixed: string)
    requires lower == "github" && mixed == "GitHub"
    ensures KnownLowered([lower, mixed]) == [lower, lower]
  {
    assert Lower(mixed) == lower;
    assert Lower(lower) == lower;
    assert [lower, mixed][..1] == [lower];
    assert [lower][..0] == [];
  }

  lemma DistinctPair(x: string)
    ensures Distinct([x, x]) == [x]
  {
    assert [x, x][..1] == [x];
    assert [x][..0] == [];
  }

  /** Naming a platform twice, in different case, counts it twice as checked while the
      results hold it once. */
  lemma RepeatedPlatformCountedTwice(
    username: string, lower: string, mixed: string, outcomes: nat -> Probe)
    requires Acceptable(Normalize(username))
    requires lower == "github" && mixed == "GitHub"
    ensures var r := UserCheckOf(username, Some([lower, mixed]), outcomes);
      r.checkedPlatforms == 2 && |r.results| == 1
  {
    GitHubSelectedTwice(lower, mixed);
    ResultsCoverSelection(username, Some([lower, mixed]), outcomes);
    DistinctPair(lower);
  }

  /** An invalid username checks no platform at all. */
  lemma InvalidChecksNothing(username: string, platforms: Option<seq<string>>, outcomes: nat -> Probe)
    requires !Acceptable(Normalize(username))
    ensures UserCheckOf(username, platforms, outcomes) == UserError(Normalize(username), InvalidUsername)
  {
  }

  // ---------------------------------------------------------------------------
  // Formatting

  /** How many results have the given presence. */
  function CountOf(entries: seq<Entry>, p: Presence): (n: nat)
    ensures n <= |entries|
  {
    if entries == [] then 0
    else CountOf(entries[..|entries| - 1], p) + (if entries[|entries| - 1].result.presence == p then 1 else 0)
  }

  /** Every result is counted exactly once among found, available and unknown. */
  lemma {:induction false} CountsPartition(entries: seq<Entry>)
    ensures CountOf(entries, Found) + CountOf(entries, Available) + CountOf(entries, Unknown) == |entries|
    decreases |entries|
  {
    if entries != [] {
      CountsPartition(entries[..|entries| - 1]);
    }
  }

  const ErrorPrefix: string := "\U{274C} <b>Error:</b> "
  const FoundHeading: string := "<b>\U{1F7E2} Found on:</b>"
  const AvailableHeading: string := "\n<b>\U{1F534} Available on:</b>"
  const UnknownHeading: string := "\n<b>\U{26AA} Could not verify:</b>"
  const Footer: string := "\n<i>\U{26A0}\U{FE0F} Note: Hasil ini hanya menunjukkan keberadaan akun publik.</i>"

  /** The line listing one result under its group's heading. */
  function EntryLine(e: Entry): string {
    match e.result.presence
    case Found => "  \U{2022} <b>" + Title(e.platform) + ":</b> " + e.result.url
    case Available => "  \U{2022} " + Title(e.platform)
    case Unknown =>
      var note := if e.result.note.Some? then e.result.note.value else "Unknown status";
      "  \U{2022} " + Title(e.platform) + " (" + note + ")"
  }

  /** The lines of the results with the given presence, in dictionary order. */
  function GroupLines(entries: seq<Entry>, p: Presence): (lines: seq<string>)
    ensures |lines| == CountOf(entries, p)
  {
    if entries == [] then []
    else
      var e := entries[|entries| - 1];
      GroupLines(entries[..|entries| - 1], p) + (if e.result.presence == p then [EntryLine(e)] else [])
  }

  /** A group's heading and lines, shown only when the group is not empty. */
  function Group(heading: string, entries: seq<Entry>, p: Presence): seq<string> {
    if CountOf(entries, p) > 0 then [heading] + GroupLines(entries, p) else []
  }

  function CountLines(entries: seq<Entry>): seq<string> {
    [ "\U{2705} <b>Found:</b> " + NatToString(CountOf(entries, Found)),
      "\U{274C} <b>Available:</b> " + NatToString(CountOf(entries, Available)),
      "\U{2754} <b>Unknown:</b> " + NatToString(CountOf(entries, Unknown)) + "\n" ]
  }

  /** The lines a successful check's reply joins. */
  function CheckedLines(username: string, checked: nat, entries: seq<Entry>): seq<string> {
    [ "\U{1F464} <b>Username Availability Check</b>\n",
      "\U{1F50D} <b>Username:</b> <code>" + username + "</code>",
      "\U{1F4CA} <b>Platforms Checked:</b> " + NatToString(checked) + "\n" ]
    + CountLines(entries)
    + Group(FoundHeading, entries, Found)
    + Group(AvailableHeading, entries, Available)
    + Group(UnknownHeading, entries, Unknown)
    + [Footer]
  }

  /** Appends the lines of one group, walking the results in order. */
  method AppendGroup(lines: seq<string>, entries: seq<Entry>, p: Presence) returns (out: seq<string>)
    ensures out == lines + GroupLines(entries, p)
  {
    out := lines;
    for i := 0 to |entries|
      invariant out == lines + GroupLines(entries[..i], p)
    {
      GroupLinesStep(entries, i, p);
      if entries[i].result.presence == p {
        out := out + [EntryLine(entries[i])];
      }
    }
    assert entries[..|entries|] == entries;
  }

  /** One more result adds its line at the end when it is in the group. */
  lemma GroupLinesStep(entries: seq<Entry>, i: nat, p: Presence)
    requires i < |entries|
    ensures GroupLines(entries[..i + 1], p)
         == GroupLines(entries[..i], p) + (if entries[i].result.presence == p then [EntryLine(entries[i])] else [])
  {
    assert entries[..i + 1][..i] == entries[..i];
  }

  /** Appends a group with its heading when it has members. */
  method AppendSection(lines: seq<string>, heading: string, entries: seq<Entry>, p: Presence)
    returns (out: seq<string>)
    ensures out == lines + Group(heading, entries, p)
  {
    out := lines;
    if CountOf(entries, p) > 0 {
      out := AppendGroup(out + [heading], entries, p);
    }
  }

  /** `format_usercheck_result`: an error is the one error line; otherwise the header,
      the three counts, each non-empty group and the closing note. */
  method FormatUserCheckResult(data: UserCheckResult) returns (text: string)
    ensures data.UserError? ==> text == ErrorPrefix + data.error
    ensures data.UserChecked? ==>
      text == Join("\n", CheckedLines(data.username, data.checkedPlatforms, data.results))
  {
    if data.UserError? {
      return ErrorPrefix + data.error;
    }
    var entries := data.results;
    var lines := [
      "\U{1F464} <b>Username Availability Check</b>\n",
      "\U{1F50D} <b>Username:</b> <code>" + data.username + "</code>",
      "\U{1F4CA} <b>Platforms Checked:</b> " + NatToString(data.checkedPlatforms) + "\n"];
    lines := lines + CountLines(entries);
    lines := AppendSection(lines, FoundHeading, entries, Found);
    lines := AppendSection(lines, AvailableHeading, entries, Available);
    lines := AppendSection(lines, UnknownHeading, entries, Unknown);
    lines := lines + [Footer];
    assert lines == CheckedLines(data.username, data.checkedPlatforms, data.results);
    text := Join("\n", lines);
  }

  /** The reply lists exactly one line per result beyond its fixed lines: the three
      groups together hold as many lines as there are results. */
  lemma GroupsListEveryResult(entries: seq<Entry>)
    ensures |GroupLines(entries, Found)| + |GroupLines(entries, Available)|
      + |GroupLines(entries, Unknown)| == |entries|
  {
    CountsPartition(entries);
  }

  /** With every request answered 200, all selected platforms are reported found. */
  lemma {:induction false} AllFoundCounted(es: seq<Entry>)
    requires forall e | e in es :: e.result.presence == Found
    ensures CountOf(es, Found) == |es| && CountOf(es, Available) == 0
    decreases |es|
  {
    if es != [] {
      AllFoundCounted(es[..|es| - 1]);
    }
  }
}
