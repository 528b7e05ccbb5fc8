/** The domain lookup: the syntax check applied to a name before any query, the
    normalisation in front of it, and the text of the reply built from the lookup's
    results. The DNS, WHOIS and address lookups themselves are passed in as data. */
module Domain {
  import opened Text
  import opened Options

  /** The longest name accepted: the textual form of the 255-octet limit of section 2.3.4
      of RFC 1035. */
  const MaxNameLength := 253

  /** The longest label accepted (section 2.3.4 of RFC 1035). */
  const MaxLabelLength := 63

  /** The characters a lower-cased name may contain. */
  predicate NameChar(c: char) { IsLower(c) || IsDigit(c) || c == '.' || c == '-' }

  /** `is_valid_domain`: the length bounds, no empty label between two dots, no label over
      63 characters, and only letters, digits, dots and hyphens once lower-cased. */
  predicate IsValidDomain(domain: string)
    ensures IsValidDomain(domain) ==> 1 <= |domain| <= MaxNameLength
    ensures IsValidDomain(domain) ==> forall i :: 0 <= i < |domain| ==> NameChar(LowerChar(domain[i]))
  {
    assert forall i :: 0 <= i < |domain| ==> Lower(domain)[i] in Lower(domain);
    if domain == [] || |domain| > MaxNameLength then false
    else if Contains(domain, "..") then false
    else if !(forall part | part in Split(domain, '.') :: |part| <= MaxLabelLength) then false
    else forall c | c in Lower(domain) :: NameChar(c)
  }

  /** The `n + 1` characters from index `i` on hold no dot: a label longer than `n`. */
  predicate Overflow(s: string, i: int, n: nat) {
    0 <= i && i + n < |s| && forall m :: i <= m <= i + n ==> s[m] != '.'
  }

  /** The same rules stated position by position: the length bounds, no two adjacent dots,
      no 64 consecutive characters without a dot, and every character allowed. */
  predicate WellFormedName(d: string) {
    && 1 <= |d| <= MaxNameLength
    && (forall i :: 0 <= i < |d| - 1 ==> !(d[i] == '.' && d[i + 1] == '.'))
    && (forall i :: 0 <= i < |d| - MaxLabelLength ==> !Overflow(d, i, MaxLabelLength))
    && (forall i :: 0 <= i < |d| ==> NameChar(LowerChar(d[i])))
  }

  lemma DoubleDotIff(d: string)
    ensures Contains(d, "..") <==> exists i :: 0 <= i < |d| - 1 && d[i] == '.' && d[i + 1] == '.'
  {
    ContainsIff(d, "..");
    if Contains(d, "..") {
      var j :| 0 <= j <= |d| && OccursAt(d, "..", j);
      assert d[j..j + 2][0] == d[j] && d[j..j + 2][1] == d[j + 1];
    }
    if exists i :: 0 <= i < |d| - 1 && d[i] == '.' && d[i + 1] == '.' {
      var i :| 0 <= i < |d| - 1 && d[i] == '.' && d[i + 1] == '.';
      assert d[i..i + 2] == "..";
      assert OccursAt(d, "..", i);
    }
  }

  /** Every '.'-separated label is at most `n` long exactly when no `n + 1` consecutive
      characters are free of dots. */
  lemma LabelsIff(s: string, n: nat)
    ensures (forall p | p in Split(s, '.') :: |p| <= n)
        <==> (forall i :: 0 <= i < |s| - n ==> !Overflow(s, i, n))
  {
    if forall i :: 0 <= i < |s| - n ==> !Overflow(s, i, n) {
      LabelsFit(s, n);
    }
    if forall p | p in Split(s, '.') :: |p| <= n {
      NoOverflow(s, n);
    }
  }

  /** Dot-free text of more than `n` characters overflows at its start. */
  lemma DotFreeStart(s: string, k: nat, n: nat)
    requires k <= |s| && forall m :: 0 <= m < k ==> s[m] != '.'
    ensures k <= n || Overflow(s, 0, n)
  {
  }

  lemma {:induction false} LabelsFit(s: string, n: nat)
    requires forall i :: 0 <= i < |s| - n ==> !Overflow(s, i, n)
    ensures forall p | p in Split(s, '.') :: |p| <= n
    decreases |s|
  {
    var k := IndexOf(s, '.');
    DotFreeStart(s, k, n);
    if k == |s| {
      assert Split(s, '.') == [s];
    } else {
      var t := s[k + 1..];
      assert Split(s, '.') == [s[..k]] + Split(t, '.');
      forall i | 0 <= i < |t| - n ensures !Overflow(t, i, n) {
        OverflowShift(s, k, i + k + 1, n);
      }
      LabelsFit(t, n);
    }
  }

  lemma {:induction false} NoOverflow(s: string, n: nat)
    requires forall p | p in Split(s, '.') :: |p| <= n
    ensures forall i :: 0 <= i < |s| - n ==> !Overflow(s, i, n)
    decreases |s|
  {
    var k := IndexOf(s, '.');
    if k == |s| {
      assert Split(s, '.') == [s];
    } else {
      var t := s[k + 1..];
      assert Split(s, '.') == [s[..k]] + Split(t, '.');
      assert s[..k] in Split(s, '.');
      forall p | p in Split(t, '.') ensures |p| <= n {
        assert p in Split(s, '.');
      }
      NoOverflow(t, n);
      forall i | 0 <= i < |s| - n ensures !Overflow(s, i, n) {
        if i > k {
          OverflowShift(s, k, i, n);
        } else {
          DotInside(s, k, i, n);
        }
      }
    }
  }

  /** A dot within the `n + 1` characters from `i` on stops an overflow there. */
  lemma DotInside(s: string, k: nat, i: nat, n: nat)
    requires i <= k < |s| && k <= i + n && s[k] == '.'
    ensures !Overflow(s, i, n)
  {
  }

  /** Past a dot, an overflow of `s` is an overflow of the text after that dot. */
  lemma OverflowShift(s: string, k: nat, i: nat, n: nat)
    requires k < i < |s| && s[k] == '.'
    ensures Overflow(s, i, n) == Overflow(s[k + 1..], i - k - 1, n)
  {
    var t := s[k + 1..];
    if i + n < |s| {
      assert forall m :: i <= m <= i + n ==> s[m] == t[m - k - 1];
    }
  }

  /** The check and its positional statement agree on every string: the four rules are the
      whole check. */
  lemma ValidDomainCharacterized(d: string)
    ensures IsValidDomain(d) <==> WellFormedName(d)
  {
    DoubleDotIff(d);
    LabelsIff(d, MaxLabelLength);
    if forall c | c in Lower(d) :: NameChar(c) {
      forall i | 0 <= i < |d| ensures NameChar(LowerChar(d[i])) {
        assert Lower(d)[i] in Lower(d);
      }
    }
    if forall i :: 0 <= i < |d| ==> NameChar(LowerChar(d[i])) {
      forall c | c in Lower(d) ensures NameChar(c) {
        var i :| 0 <= i < |Lower(d)| && Lower(d)[i] == c;
      }
    }
  }

  /** Case does not matter: a name and its lower-case form are judged alike. */
  lemma CaseInsensitive(d: string)
    ensures IsValidDomain(Lower(d)) == IsValidDomain(d)
  {
    ValidDomainCharacterized(d);
    ValidDomainCharacterized(Lower(d));
    var l := Lower(d);
    assert forall i :: 0 <= i < |d| ==> (l[i] == '.' <==> d[i] == '.');
    forall i | 0 <= i < |d| - MaxLabelLength
      ensures Overflow(l, i, MaxLabelLength) == Overflow(d, i, MaxLabelLength)
    {
      OverflowLower(d, i, MaxLabelLength);
    }
  }

  /** Lower-casing moves no dot, so it leaves every overflow where it was. */
  lemma OverflowLower(d: string, i: int, n: nat)
    ensures Overflow(Lower(d), i, n) == Overflow(d, i, n)
  {
    var l := Lower(d);
    assert forall m :: 0 <= m < |d| ==> (l[m] == '.' <==> d[m] == '.');
  }

  /** A name holding whitespace anywhere is rejected. */
  lemma SpaceRejected(d: string, i: int)
    requires 0 <= i < |d| && IsSpace(d[i])
    ensures !IsValidDomain(d)
  {
    ValidDomainCharacterized(d);
    assert !NameChar(LowerChar(d[i]));
  }

  /** Nothing beyond the four rules is rejected: a leading or trailing dot or hyphen passes. */
  lemma EdgesAccepted(d: string)
    requires d in {".com", "-example-", "example."}
    ensures IsValidDomain(d)
  {
    ValidDomainCharacterized(d);
  }

  /** Names the module's tests accept. */
  lemma SampleNamesAccepted(d: string)
    requires d in {"google.com", "123.com"}
    ensures IsValidDomain(d)
  {
    ValidDomainCharacterized(d);
  }

  /** A name of several labels the module's tests accept. */
  lemma SubdomainAccepted()
    ensures IsValidDomain("sub.domain.example.com")
  {
    var d := "sub.domain.example.com";
    assert forall i :: 0 <= i < |d| ==> IsLower(d[i]) || d[i] == '.';
    assert forall i :: 0 <= i < |d| - 1 ==> !(d[i] == '.' && d[i + 1] == '.');
    ShortNameAccepted(d);
  }

  /** A name no longer than one label, of lower-case letters and single dots, passes. */
  lemma ShortNameAccepted(d: string)
    requires 1 <= |d| <= MaxLabelLength
    requires forall i :: 0 <= i < |d| ==> IsLower(d[i]) || d[i] == '.'
    requires forall i :: 0 <= i < |d| - 1 ==> !(d[i] == '.' && d[i + 1] == '.')
    ensures IsValidDomain(d)
  {
    ValidDomainCharacterized(d);
  }

  /** The names the module's tests reject. */
  lemma SampleNamesRejected()
    ensures !IsValidDomain("invalid domain") && !IsValidDomain("domain..com")
    ensures !IsValidDomain("") && !IsValidDomain(seq(255, _ => 'a'))
  {
    SpaceRejected("invalid domain", 7);
    ContainsMiddle("domain", "..", "com");
    assert "domain" + ".." + "com" == "domain..com";
  }

  /** Where `get_domain_info` goes after its first step. */
  datatype Lookup = Rejected(error: string) | Accepted(domain: string)

  const InvalidDomainError := "Format domain tidak valid"

  /** The first step of `get_domain_info`: lower-case, strip, then check; a rejected name
      yields only the error entry, an accepted one is the name every lookup then uses. */
  function PrepareLookup(domain: string): (q: Lookup)
    ensures q.Accepted? ==> IsValidDomain(q.domain)
    ensures q.Accepted? ==> forall i :: 0 <= i < |q.domain| ==> !IsUpper(q.domain[i])
    ensures q.Rejected? ==> q.error == InvalidDomainError
    ensures q.Accepted? <==> IsValidDomain(Strip(Lower(domain)))
    ensures q.Accepted? ==> q.domain == Strip(Lower(domain))
  {
    var d := Strip(Lower(domain));
    LowerHasNoUpper(domain);
    StripSpec(Lower(domain));
    if IsValidDomain(d) then Accepted(d) else Rejected(InvalidDomainError)
  }

  /** An accepted name goes through the first step unchanged. */
  lemma PrepareIdempotent(domain: string)
    requires PrepareLookup(domain).Accepted?
    ensures PrepareLookup(PrepareLookup(domain).domain) == PrepareLookup(domain)
  {
    var d := PrepareLookup(domain).domain;
    assert Lower(d) == d;
    ValidDomainCharacterized(d);
    assert !IsSpace(d[0]) && !IsSpace(d[|d| - 1]) by {
      assert NameChar(LowerChar(d[0])) && NameChar(LowerChar(d[|d| - 1]));
    }
    assert TrimLeft(d) == d;
    assert TrimRight(d) == d;
  }

  /** Case and surrounding whitespace do not change which name is looked up. */
  lemma PrepareIgnoresCase(domain: string)
    ensures PrepareLookup(Upper(domain)) == PrepareLookup(domain)
  {
    assert Lower(Upper(domain)) == Lower(domain);
  }

  /** A name with whitespace between two other characters is rejected, like the tests'
      "invalid domain with spaces". */
  lemma InnerSpaceRejected(domain: string, i: int, j: int, k: int)
    requires 0 <= i < j < k < |domain|
    requires !IsSpace(domain[i]) && IsSpace(domain[j]) && !IsSpace(domain[k])
    ensures PrepareLookup(domain).Rejected?
  {
    var l := Lower(domain);
    assert !IsSpace(l[i]) && l[j] == domain[j] && !IsSpace(l[k]);
    StripKeepsInner(l, i, j, k);
    var m :| 0 <= m < |Strip(l)| && Strip(l)[m] == l[j];
    SpaceRejected(Strip(l), m);
  }

  lemma SpacedNameRejected()
    ensures PrepareLookup("invalid domain with spaces") == Rejected(InvalidDomainError)
  {
    InnerSpaceRejected("invalid domain with spaces", 6, 7, 8);
  }

  /** What `format_domain_result` receives: an error entry, or the name with its address,
      DNS and WHOIS results. A WHOIS value of `None` is `Option.None`. */
  datatype DomainData =
    | DomainError(error: string)
    | DomainRecords(domain: string, ipAddresses: seq<string>,
                    dnsRecords: map<string, seq<string>>, whois: map<string, Option<string>>)

  /** The record types listed, in the order they are listed. */
  const RecordOrder: seq<string> := ["A", "AAAA", "MX", "NS", "TXT", "CNAME", "SOA"]

  const MaxAddresses := 5
  const MaxRecords := 3

  function ErrorLine(error: string): string { "\U{274C} Error: " + error }

  function Header(domain: string): seq<string> {
    ["\U{1F310} <b>Domain Lookup</b>\n", "\U{1F516} <b>Domain:</b> <code>" + domain + "</code>"]
  }

  const AddressHeading := "\n<b>\U{1F4CD} IP Addresses:</b>"
  const RecordsHeading := "\n<b>\U{1F5C2} DNS Records:</b>"
  const WhoisHeading := "\n<b>\U{2139}\U{FE0F} WHOIS Info:</b>"

  function AddressLine(ip: string): string { "  \U{2022} <code>" + ip + "</code>" }

  function TypeHeading(t: string): string { "\n  <b>" + t + ":</b>" }

  function RecordLine(record: string): string { "    \U{2022} " + record }

  /** One line for each of the first five addresses. */
  function AddressLines(ips: seq<string>): (lines: seq<string>)
    ensures |lines| <= MaxAddresses
  {
    var shown := Take(ips, MaxAddresses);
    seq(|shown|, i requires 0 <= i < |shown| => AddressLine(shown[i]))
  }

  /** One line for each of the first three records of a type. */
  function RecordLines(records: seq<string>): (lines: seq<string>)
  {
    var shown := Take(records, MaxRecords);
    seq(|shown|, i requires 0 <= i < |shown| => RecordLine(shown[i]))
  }

  /** A record type's heading and lines, or nothing when the lookup found none. */
  function RecordBlock(dns: map<string, seq<string>>, t: string): (lines: seq<string>)
  {
    if t in dns then [TypeHeading(t)] + RecordLines(dns[t]) else []
  }

  /** The blocks of `types`, in the order of `types`. */
  function RecordBlocks(dns: map<string, seq<string>>, types: seq<string>): (lines: seq<string>)
  {
    if types == [] then []
    else RecordBlocks(dns, types[..|types| - 1]) + RecordBlock(dns, types[|types| - 1])
  }

  /** Each type adds at most its heading and three records. */
  lemma {:induction false} RecordBlocksLength(dns: map<string, seq<string>>, types: seq<string>)
    ensures |RecordBlocks(dns, types)| <= |types| * (1 + MaxRecords)
    decreases |types|
  {
    if types != [] {
      var t := types[|types| - 1];
      RecordBlocksLength(dns, types[..|types| - 1]);
      if t in dns {
        assert |RecordLines(dns[t])| <= MaxRecords;
      }
    }
  }

  function AddressSection(ips: seq<string>): seq<string> {
    if ips == [] then [] else [AddressHeading] + AddressLines(ips)
  }

  function RecordSection(dns: map<string, seq<string>>): seq<string> {
    if dns == map[] then [] else [RecordsHeading] + RecordBlocks(dns, RecordOrder)
  }

  /** Python truthiness of an optional text field. */
  predicate Truthy(whois: map<string, Option<string>>, key: string) {
    key in whois && whois[key].Some? && whois[key].value != ""
  }

  function WhoisEntry(name: string, value: string): string { "  \U{2022} " + name + ": " + value }

  function WhoisField(whois: map<string, Option<string>>, key: string, name: string): seq<string> {
    if Truthy(whois, key) then [WhoisEntry(name, whois[key].value)] else []
  }

  /** WHOIS fields under a heading when the lookup returned them, the note in italics when
      it returned a note instead, and nothing for an empty result. */
  function WhoisLines(whois: map<string, Option<string>>): seq<string> {
    if whois != map[] && "note" !in whois then
      [WhoisHeading] + WhoisField(whois, "registrar", "Registrar")
        + WhoisField(whois, "created_date", "Created") + WhoisField(whois, "expires_date", "Expires")
    else if Truthy(whois, "note") then ["\n<i>" + whois["note"].value + "</i>"]
    else []
  }

  function DomainLines(data: DomainData): seq<string>
    requires data.DomainRecords?
  {
    Header(data.domain) + AddressSection(data.ipAddresses)
      + RecordSection(data.dnsRecords) + WhoisLines(data.whois)
  }

  /** The reply text: the error line alone, or the lines joined by newlines. */
  function DomainReport(data: DomainData): string {
    if data.DomainError? then ErrorLine(data.error) else Join("\n", DomainLines(data))
  }

  /** The addresses under their heading, when there are any. */
  method AppendAddressSection(lines: seq<string>, ips: seq<string>) returns (out: seq<string>)
    ensures out == lines + AddressSection(ips)
  {
    out := lines;
    if ips != [] {
      out := out + [AddressHeading];
      out := AppendAddressLines(out, ips);
    }
  }

  /** The record types found, under the DNS heading, when the lookup found any. */
  method AppendRecordSection(lines: seq<string>, dns: map<string, seq<string>>) returns (out: seq<string>)
    ensures out == lines + RecordSection(dns)
  {
    out := lines;
    if dns != map[] {
      out := out + [RecordsHeading];
      out := AppendRecordBlocks(out, dns, RecordOrder);
    }
  }

  /** The `for ip in ips[:5]` loop of `format_domain_result`. */
  method AppendAddressLines(lines: seq<string>, ips: seq<string>) returns (out: seq<string>)
    ensures out == lines + AddressLines(ips)
  {
    out := lines;
    var shown := Take(ips, MaxAddresses);
    var i := 0;
    while i < |shown|
      invariant 0 <= i <= |shown|
      invariant out == lines + AddressLines(ips)[..i]
    {
      assert AddressLines(ips)[..i + 1] == AddressLines(ips)[..i] + [AddressLine(shown[i])];
      out := out + [AddressLine(shown[i])];
      i := i + 1;
    }
    assert AddressLines(ips)[..i] == AddressLines(ips);
  }

  /** The `for record in dns[record_type][:3]` loop of `format_domain_result`. */
  method AppendRecordLines(lines: seq<string>, records: seq<string>) returns (out: seq<string>)
    ensures out == lines + RecordLines(records)
  {
    out := lines;
    var shown := Take(records, MaxRecords);
    var j := 0;
    while j < |shown|
      invariant 0 <= j <= |shown|
      invariant out == lines + RecordLines(records)[..j]
    {
      assert RecordLines(records)[..j + 1] == RecordLines(records)[..j] + [RecordLine(shown[j])];
      out := out + [RecordLine(shown[j])];
      j := j + 1;
    }
    assert RecordLines(records)[..j] == RecordLines(records);
  }

  /** The loop over the record types of `format_domain_result`, in their fixed order. */
  method AppendRecordBlocks(lines: seq<string>, dns: map<string, seq<string>>, types: seq<string>)
    returns (out: seq<string>)
    ensures out == lines + RecordBlocks(dns, types)
  {
    out := lines;
    var k := 0;
    while k < |types|
      invariant 0 <= k <= |types|
      invariant out == lines + RecordBlocks(dns, types[..k])
    {
      RecordBlocksStep(lines, out, dns, types, k);
      out := AppendRecordBlock(out, dns, types[k]);
      k := k + 1;
    }
    assert types[..k] == types;
  }

  /** One record type's heading and records, when the lookup found any. */
  method AppendRecordBlock(lines: seq<string>, dns: map<string, seq<string>>, t: string)
    returns (out: seq<string>)
    ensures out == lines + RecordBlock(dns, t)
  {
    out := lines;
    if t in dns {
      out := out + [TypeHeading(t)];
      out := AppendRecordLines(out, dns[t]);
    }
  }

  lemma RecordBlocksStep(lines: seq<string>, out: seq<string>, dns: map<string, seq<string>>,
                        types: seq<string>, k: nat)
    requires k < |types| && out == lines + RecordBlocks(dns, types[..k])
    ensures out + RecordBlock(dns, types[k]) == lines + RecordBlocks(dns, types[..k + 1])
  {
    RecordBlocksSnoc(dns, types, k);
    AppendAssociative(lines, RecordBlocks(dns, types[..k]), RecordBlock(dns, types[k]));
  }

  lemma RecordBlocksSnoc(dns: map<string, seq<string>>, types: seq<string>, k: nat)
    requires k < |types|
    ensures RecordBlocks(dns, types[..k + 1]) == RecordBlocks(dns, types[..k]) + RecordBlock(dns, types[k])
  {
    assert types[..k + 1][..k] == types[..k];
  }


  /** The WHOIS part of `format_domain_result`: the fields present under a heading, or the
      note. */
  method AppendWhoisLines(lines: seq<string>, whois: map<string, Option<string>>) returns (out: seq<string>)
    ensures out == lines + WhoisLines(whois)
  {
    out := lines;
    if whois != map[] && "note" !in whois {
      out := out + [WhoisHeading];
      var f1 := WhoisField(whois, "registrar", "Registrar");
      var f2 := WhoisField(whois, "created_date", "Created");
      var f3 := WhoisField(whois, "expires_date", "Expires");
      if Truthy(whois, "registrar") {
        out := out + [WhoisEntry("Registrar", whois["registrar"].value)];
      }
      assert out == lines + ([WhoisHeading] + f1);
      if Truthy(whois, "created_date") {
        out := out + [WhoisEntry("Created", whois["created_date"].value)];
      }
      assert out == lines + ([WhoisHeading] + f1 + f2);
      if Truthy(whois, "expires_date") {
        out := out + [WhoisEntry("Expires", whois["expires_date"].value)];
      }
    } else if Truthy(whois, "note") {
      out := out + ["\n<i>" + whois["note"].value + "</i>"];
    }
  }

  /** `format_domain_result`: the error line alone, or the header, at most five addresses,
      the record types in their fixed order with at most three records each, and WHOIS,
      joined by newlines. */
  method FormatDomainResult(data: DomainData) returns (text: string)
    ensures data.DomainError? ==> text == ErrorLine(data.error)
    ensures data.DomainRecords? ==> text == Join("\n", DomainLines(data))
  {
    if data.DomainError? {
      return ErrorLine(data.error);
    }
    var lines := Header(data.domain);
    lines := AppendAddressSection(lines, data.ipAddresses);
    lines := AppendRecordSection(lines, data.dnsRecords);
    lines := AppendWhoisLines(lines, data.whois);
    text := Join("\n", lines);
  }

  /** An error entry is answered by its error line and nothing else. */
  lemma ErrorReplyAlone(error: string)
    ensures DomainReport(DomainError(error)) == ErrorLine(error)
    ensures Contains(DomainReport(DomainError(error)), error)
  {
    ContainsMiddle("\U{274C} Error: ", error, "");
    assert "\U{274C} Error: " + error + "" == ErrorLine(error);
  }

  /** The first five addresses take the lines after the address heading, in the order of
      the lookup. */
  lemma AddressLinePosition(data: DomainData, i: nat)
    requires data.DomainRecords? && i < |data.ipAddresses| && i < MaxAddresses
    ensures 3 + i < |DomainLines(data)| && DomainLines(data)[3 + i] == AddressLine(data.ipAddresses[i])
  {
    var front := Header(data.domain) + AddressSection(data.ipAddresses);
    assert front[3 + i] == AddressLines(data.ipAddresses)[i];
    assert DomainLines(data) == front + RecordSection(data.dnsRecords) + WhoisLines(data.whois);
  }

  /** The reply shows the name and each of the first five addresses. */
  lemma AddressesShown(data: DomainData, i: nat)
    requires data.DomainRecords? && i < |data.ipAddresses| && i < MaxAddresses
    ensures Contains(DomainReport(data), data.ipAddresses[i])
    ensures Contains(DomainReport(data), data.domain)
  {
    var lines := DomainLines(data);
    AddressLinePosition(data, i);
    ContainsMiddle("  \U{2022} <code>", data.ipAddresses[i], "</code>");
    TextContainsLine(lines, 3 + i, data.ipAddresses[i]);
    assert lines[1] == "\U{1F516} <b>Domain:</b> <code>" + data.domain + "</code>";
    ContainsMiddle("\U{1F516} <b>Domain:</b> <code>", data.domain, "</code>");
    TextContainsLine(lines, 1, data.domain);
  }

  /** What a line contains, the joined text contains. */
  lemma TextContainsLine(lines: seq<string>, k: nat, p: string)
    requires k < |lines| && Contains(lines[k], p)
    ensures Contains(Join("\n", lines), p)
  {
    JoinContains("\n", lines, k);
    ContainsTransitive(Join("\n", lines), lines[k], p);
  }

  /** Containment is transitive. */
  lemma ContainsTransitive(a: string, b: string, p: string)
    requires Contains(a, b) && Contains(b, p)
    ensures Contains(a, p)
  {
    ContainsIff(a, b);
    ContainsIff(b, p);
    var j :| 0 <= j <= |a| && OccursAt(a, b, j);
    var m :| 0 <= m <= |b| && OccursAt(b, p, m);
    forall x | 0 <= x < |p| ensures a[j + m + x] == p[x] {
      assert a[j + m + x] == a[j..j + |b|][m + x] == b[m + x];
      assert b[m + x] == b[m..m + |p|][x];
    }
    assert a[j + m..j + m + |p|] == p;
    ContainsIff(a, p);
    assert OccursAt(a, p, j + m);
  }

  /** The lookup data with addresses past the fifth and records past the third dropped. */
  function Truncated(data: DomainData): (t: DomainData)
    requires data.DomainRecords?
  {
    data.(ipAddresses := Take(data.ipAddresses, MaxAddresses),
          dnsRecords := map t | t in data.dnsRecords :: Take(data.dnsRecords[t], MaxRecords))
  }

  lemma RecordBlocksTruncated(dns: map<string, seq<string>>, short: map<string, seq<string>>,
                              types: seq<string>)
    requires short.Keys == dns.Keys
    requires forall t | t in dns :: short[t] == Take(dns[t], MaxRecords)
    ensures RecordBlocks(short, types) == RecordBlocks(dns, types)
  {
    if types != [] {
      var t := types[|types| - 1];
      RecordBlocksTruncated(dns, short, types[..|types| - 1]);
      if t in dns {
        assert RecordLines(short[t]) == RecordLines(dns[t]);
      }
    }
  }

  /** Only the first five addresses and the first three records of each type reach the
      reply: dropping the rest changes nothing. */
  lemma OnlyLeadingEntriesShown(data: DomainData)
    requires data.DomainRecords?
    ensures DomainReport(Truncated(data)) == DomainReport(data)
  {
    var short := Truncated(data);
    assert AddressLines(short.ipAddresses) == AddressLines(data.ipAddresses);
    assert short.dnsRecords.Keys == data.dnsRecords.Keys;
    RecordBlocksTruncated(data.dnsRecords, short.dnsRecords, RecordOrder);
    assert RecordSection(short.dnsRecords) == RecordSection(data.dnsRecords) by {
      if data.dnsRecords == map[] {
        assert short.dnsRecords == map[];
      } else {
        var t :| t in data.dnsRecords;
        assert t in short.dnsRecords;
      }
    }
  }

  /** A line that opens a record type (it starts a new paragraph). */
  predicate IsHeading(line: string) { line != [] && line[0] == '\n' }

  /** The heading lines among `lines`, in order. */
  function Headings(lines: seq<string>): seq<string> {
    if lines == [] then []
    else Headings(lines[..|lines| - 1]) + (if IsHeading(lines[|lines| - 1]) then [lines[|lines| - 1]] else [])
  }

  lemma {:induction false} HeadingsAppend(a: seq<string>, b: seq<string>)
    ensures Headings(a + b) == Headings(a) + Headings(b)
    decreases |b|
  {
    if b == [] {
      assert a + b == a;
    } else {
      var last := b[|b| - 1];
      assert (a + b)[..|a + b| - 1] == a + b[..|b| - 1];
      HeadingsAppend(a, b[..|b| - 1]);
    }
  }

  lemma {:induction false} RecordLinesNoHeadings(lines: seq<string>)
    requires forall k :: 0 <= k < |lines| ==> lines[k] != [] && lines[k][0] == ' '
    ensures Headings(lines) == []
    decreases |lines|
  {
    if lines != [] {
      RecordLinesNoHeadings(lines[..|lines| - 1]);
    }
  }

  /** The types among `types` that the lookup found, in the order of `types`. */
  function Present(dns: map<string, seq<string>>, types: seq<string>): (found: seq<string>)
    ensures forall t | t in found :: t in dns && t in types
  {
    if types == [] then []
    else
      var found := Present(dns, types[..|types| - 1]);
      if types[|types| - 1] in dns then found + [types[|types| - 1]] else found
  }

  /** The headings of `types`, one each, in order. */
  function TypeHeadings(types: seq<string>): (headings: seq<string>)
    ensures |headings| == |types|
  {
    if types == [] then [] else TypeHeadings(types[..|types| - 1]) + [TypeHeading(types[|types| - 1])]
  }

  /** The record types appear under their own headings exactly for the types found, in the
      fixed order of `types`; records never start a heading. */
  lemma {:induction false} RecordTypesInOrder(dns: map<string, seq<string>>, types: seq<string>)
    ensures Headings(RecordBlocks(dns, types)) == TypeHeadings(Present(dns, types))
    decreases |types|
  {
    if types != [] {
      var init := types[..|types| - 1];
      var t := types[|types| - 1];
      RecordTypesInOrder(dns, init);
      HeadingsAppend(RecordBlocks(dns, init), RecordBlock(dns, t));
      BlockHeadings(dns, t);
      if t in dns {
        var found := Present(dns, init);
        assert (found + [t])[..|found|] == found;
      }
    }
  }

  /** A block has the heading of its type, and no other, exactly when the type was found. */
  lemma BlockHeadings(dns: map<string, seq<string>>, t: string)
    ensures Headings(RecordBlock(dns, t)) == if t in dns then [TypeHeading(t)] else []
  {
    if t in dns {
      var rl := RecordLines(dns[t]);
      HeadingsAppend([TypeHeading(t)], rl);
      RecordLinesNoHeadings(rl);
      assert Headings([TypeHeading(t)]) == [TypeHeading(t)] by {
        assert [TypeHeading(t)][..0] == [];
      }
    }
  }

  /** The reply is at most 41 lines: a header of two, five addresses under their heading,
      seven record types of at most four lines under theirs, and four WHOIS lines. */
  lemma ReplyLength(data: DomainData)
    requires data.DomainRecords?
    ensures |DomainLines(data)| <= 2 + (1 + MaxAddresses) + (1 + |RecordOrder| * (1 + MaxRecords)) + 4
  {
    RecordBlocksLength(data.dnsRecords, RecordOrder);
  }
}
