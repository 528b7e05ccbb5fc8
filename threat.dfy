/** Threat-intelligence lookups: deciding whether a target is an IP address or a domain,
    choosing which sources to consult, and formatting what they report. The HTTP
    exchanges with VirusTotal and AbuseIPDB are parameters: each is either the status
    and the already extracted fields of a reply, or the message of the exception raised. */
module Threat {
  import opened Text
  import opened Options

  // ---------------------------------------------------------------------------
  // Target type

  /** Every character is one of `0123456789.`. */
  predicate IpChars(s: string) {
    forall c | c in s :: IsDigit(c) || c == '.'
  }

  /** The type a lookup uses: `"auto"` becomes `"ip"` when the target, with its colons
      deleted, holds only digits and dots, and `"domain"` otherwise; any other requested
      type is kept. */
  function TargetType(target: string, requested: string): (t: string)
    ensures requested != "auto" ==> t == requested
    ensures requested == "auto" ==> t == "ip" || t == "domain"
  {
    if requested == "auto" then
      if IpChars(DeleteChar(target, ':')) then "ip" else "domain"
    else requested
  }

  /** The automatic type is `"ip"` exactly when every character of the target is a digit,
      a dot or a colon. */
  lemma AutoTypeIff(target: string)
    ensures TargetType(target, "auto") == "ip" <==>
      forall i :: 0 <= i < |target| ==> IsDigit(target[i]) || target[i] == '.' || target[i] == ':'
  {
    var d := DeleteChar(target, ':');
    if IpChars(d) {
      forall i | 0 <= i < |target|
        ensures IsDigit(target[i]) || target[i] == '.' || target[i] == ':'
      {
        if target[i] != ':' {
          assert target[i] in d;
        }
      }
    } else {
      var c :| c in d && !(IsDigit(c) || c == '.');
      assert c in target && c != ':';
      var i :| 0 <= i < |target| && target[i] == c;
    }
  }

  /** An IPv6 address written with hexadecimal letters is typed as a domain, while one made
      of digits and colons only is typed as an IP address. */
  lemma Ipv6Typing(letters: string, digits: string)
    requires letters == "2001:db8::1" && digits == "::1"
    ensures TargetType(letters, "auto") == "domain"
    ensures TargetType(digits, "auto") == "ip"
  {
    AutoTypeIff(letters);
    assert !IsDigit(letters[5]) && letters[5] != '.' && letters[5] != ':';
    AutoTypeIff(digits);
  }

  // ---------------------------------------------------------------------------
  // Sources

  /** An API key counts as configured when it is present and not empty. */
  predicate Configured(key: Option<string>) {
    key.Some? && key.value != ""
  }

  /** The outcome of one HTTP request: a reply with its status and extracted fields, or the
      message of the exception raised on the way. */
  datatype Response<D> = Reply(status: int, body: D) | Raised(message: string)

  /** The VirusTotal fields the lookup keeps, each defaulting to 0 when absent. */
  datatype VtStats = VtStats(
    malicious: int, suspicious: int, harmless: int, undetected: int, reputation: int,
    votesHarmless: int, votesMalicious: int)

  datatype VtReport = VtCounts(stats: VtStats) | VtNote(note: string) | VtError(error: string)

  /** The AbuseIPDB fields the lookup keeps. */
  datatype AbuseStats = AbuseStats(
    score: int, totalReports: int, distinctUsers: int, whitelisted: bool,
    countryCode: Option<string>, usageType: Option<string>, isp: Option<string>)

  datatype AbuseReport = AbuseCounts(stats: AbuseStats) | AbuseError(error: string)

  const VtNotFound: string := "Target tidak ditemukan di database VirusTotal"
  const InvalidKey: string := "API key tidak valid"
  const VtFailure: string := "Gagal mengakses VirusTotal: "
  const AbuseFailure: string := "Gagal mengakses AbuseIPDB: "

  const VtIpUrl: string := "https://www.virustotal.com/api/v3/ip_addresses/"
  const VtDomainUrl: string := "https://www.virustotal.com/api/v3/domains/"

  /** The VirusTotal endpoint for a target: the address endpoint for type `"ip"`, the
      domain endpoint for every other type. */
  function VirusTotalUrl(target: string, targetType: string): (url: string)
    ensures |url| > |target|
    ensures url[|url| - |target|..] == target
    ensures url[..|url| - |target|] == if targetType == "ip" then VtIpUrl else VtDomainUrl
  {
    (if targetType == "ip" then VtIpUrl else VtDomainUrl) + target
  }

  /** `check_virustotal`: nothing without a key; status 200 gives the counts, 404 a note,
      401 an error, an exception an error carrying its message, any other status nothing. */
  function VirusTotal(key: Option<string>, response: Response<VtStats>): (r: Option<VtReport>)
    ensures r.Some? ==> Configured(key)
    ensures r.Some? && r.value.VtCounts? ==> response == Reply(200, r.value.stats)
    ensures Configured(key) && response.Reply? ==>
      (r.Some? <==> response.status == 200 || response.status == 404 || response.status == 401)
    ensures Configured(key) && response.Raised? ==> r == Some(VtError(VtFailure + response.message))
    ensures Configured(key) && response.Reply? && response.status == 200 ==> r == Some(VtCounts(response.body))
    ensures Configured(key) && response.Reply? && response.status == 404 ==> r == Some(VtNote(VtNotFound))
    ensures Configured(key) && response.Reply? && response.status == 401 ==> r == Some(VtError(InvalidKey))
  {
    if !Configured(key) then None
    else match response
      case Raised(message) => Some(VtError(VtFailure + message))
      case Reply(status, stats) =>
        if status == 200 then Some(VtCounts(stats))
        else if status == 404 then Some(VtNote(VtNotFound))
        else if status == 401 then Some(VtError(InvalidKey))
        else None
  }

  /** `check_abuseipdb`: nothing without a key; status 200 gives the report, 401 an
      error, an exception an error carrying its message, any other status nothing. */
  function AbuseIpDb(key: Option<string>, response: Response<AbuseStats>): (r: Option<AbuseReport>)
    ensures r.Some? ==> Configured(key)
    ensures r.Some? && r.value.AbuseCounts? ==> response == Reply(200, r.value.stats)
    ensures Configured(key) && response.Reply? ==>
      (r.Some? <==> response.status == 200 || response.status == 401)
    ensures Configured(key) && response.Raised? ==> r == Some(AbuseError(AbuseFailure + response.message))
    ensures Configured(key) && response.Reply? && response.status == 200 ==> r == Some(AbuseCounts(response.body))
    ensures Configured(key) && response.Reply? && response.status == 401 ==> r == Some(AbuseError(InvalidKey))
  {
    if !Configured(key) then None
    else match response
      case Raised(message) => Some(AbuseError(AbuseFailure + message))
      case Reply(status, stats) =>
        if status == 200 then Some(AbuseCounts(stats))
        else if status == 401 then Some(AbuseError(InvalidKey))
        else None
  }

  /** The result of a lookup: the sources that answered, or the note that none did. */
  datatype ThreatResult = ThreatResult(
    target: string, targetType: string,
    virustotal: Option<VtReport>, abuseipdb: Option<AbuseReport>, note: Option<string>)

  const NoKeysNote: string := "Tidak ada API key yang dikonfigurasi untuk threat intelligence"

  /** Whether a source produced something. */
  predicate HasSources(r: ThreatResult) {
    r.virustotal.Some? || r.abuseipdb.Some?
  }

  /** What `check_threat_intelligence` returns. */
  function ThreatCheck(
    target: string, requested: string, vtKey: Option<string>, abuseKey: Option<string>,
    vtResponse: Response<VtStats>, abuseResponse: Response<AbuseStats>): (r: ThreatResult)
    ensures r.target == target && r.targetType == TargetType(target, requested)
    ensures r.virustotal.Some? ==> Configured(vtKey)
    ensures r.abuseipdb.Some? ==> Configured(abuseKey) && r.targetType == "ip"
    ensures r.note.Some? <==> !HasSources(r)
    ensures r.note.Some? ==> r.note.value == NoKeysNote
    ensures r.virustotal == VirusTotal(vtKey, vtResponse)
    ensures r.abuseipdb == if r.targetType == "ip" then AbuseIpDb(abuseKey, abuseResponse) else None
  {
    var t := TargetType(target, requested);
    var vt := if Configured(vtKey) then VirusTotal(vtKey, vtResponse) else None;
    var abuse := if Configured(abuseKey) && t == "ip" then AbuseIpDb(abuseKey, abuseResponse) else None;
    var note := if vt.None? && abuse.None? then Some(NoKeysNote) else None;
    ThreatResult(target, t, vt, abuse, note)
  }

  /** `check_threat_intelligence`: the type is settled first, then each configured source
      is consulted and kept when it answers, and the note is added when none did. */
  method CheckThreatIntelligence(
    target: string, requested: string, vtKey: Option<string>, abuseKey: Option<string>,
    vtResponse: Response<VtStats>, abuseResponse: Response<AbuseStats>)
    returns (results: ThreatResult)
    ensures results == ThreatCheck(target, requested, vtKey, abuseKey, vtResponse, abuseResponse)
  {
    var targetType := requested;
    if targetType == "auto" {
      if IpChars(DeleteChar(target, ':')) {
        targetType := "ip";
      } else {
        targetType := "domain";
      }
    }
    results := ThreatResult(target, targetType, None, None, None);
    if Configured(vtKey) {
      var vtResult := VirusTotal(vtKey, vtResponse);
      if vtResult.Some? {
        results := results.(virustotal := vtResult);
      }
    }
    if Configured(abuseKey) && targetType == "ip" {
      var abuseResult := AbuseIpDb(abuseKey, abuseResponse);
      if abuseResult.Some? {
        results := results.(abuseipdb := abuseResult);
      }
    }
    if !HasSources(results) {
      results := results.(note := Some(NoKeysNote));
    }
  }

  /** Without any configured key the lookup always ends with the note. */
  lemma NoKeysGiveNote(
    target: string, requested: string, vtKey: Option<string>, abuseKey: Option<string>,
    vtResponse: Response<VtStats>, abuseResponse: Response<AbuseStats>)
    requires !Configured(vtKey) && !Configured(abuseKey)
    ensures ThreatCheck(target, requested, vtKey, abuseKey, vtResponse, abuseResponse).note
      == Some(NoKeysNote)
  {
  }

  /** A domain is never sent to AbuseIPDB, whatever keys are configured. */
  lemma DomainsSkipAbuseIpDb(
    target: string, vtKey: Option<string>, abuseKey: Option<string>,
    vtResponse: Response<VtStats>, abuseResponse: Response<AbuseStats>)
    requires TargetType(target, "auto") == "domain"
    ensures ThreatCheck(target, "auto", vtKey, abuseKey, vtResponse, abuseResponse).abuseipdb == None
  {
  }

  // ---------------------------------------------------------------------------
  // Risk bands

  datatype Risk = HighRisk | MediumRisk | LowRisk | Clean

  /** The band of an abuse-confidence score. */
  function RiskOf(score: int): (risk: Risk)
    ensures risk == HighRisk <==> score >= 75
    ensures risk == MediumRisk <==> 50 <= score < 75
    ensures risk == LowRisk <==> 25 <= score < 50
    ensures risk == Clean <==> score < 25
  {
    if score >= 75 then HighRisk
    else if score >= 50 then MediumRisk
    else if score >= 25 then LowRisk
    else Clean
  }

  function Severity(risk: Risk): nat {
    match risk
    case Clean => 0
    case LowRisk => 1
    case MediumRisk => 2
    case HighRisk => 3
  }

  /** A higher score never lands in a lower band. */
  lemma RiskMonotone(a: int, b: int)
    requires a <= b
    ensures Severity(RiskOf(a)) <= Severity(RiskOf(b))
  {
  }

  function RiskText(risk: Risk): string {
    match risk
    case HighRisk => "\U{1F534} HIGH RISK"
    case MediumRisk => "\U{1F7E0} MEDIUM RISK"
    case LowRisk => "\U{1F7E1} LOW RISK"
    case Clean => "\U{1F7E2} CLEAN"
  }

  /** The four labels are distinct, so the label shown names the band. */
  lemma RiskTextDistinct(a: Risk, b: Risk)
    requires a != b
    ensures RiskText(a) != RiskText(b)
  {
  }

  // ---------------------------------------------------------------------------
  // Formatting

  const TitleLine: string := "\U{1F6E1}\U{FE0F} <b>Threat Intelligence Check</b>\n"
  const NoSourceLine: string :=
    "\n<i>\U{26A0}\U{FE0F} " + "Tidak ada sumber threat intelligence yang tersedia</i>"
  const VtHeading: string := "\n<b>\U{1F50D} VirusTotal:</b>"
  const AbuseHeading: string := "\n<b>\U{1F4CA} AbuseIPDB:</b>"
  const Bullet: string := "  \U{2022} "

  function Header(data: ThreatResult): (lines: seq<string>) {
    [ TitleLine,
      "\U{1F3AF} <b>Target:</b> <code>" + data.target + "</code>",
      "\U{1F4CA} <b>Type:</b> " + Upper(data.targetType) ]
  }

  function NoteLine(note: string): string {
    "\n<i>\U{2139}\U{FE0F} " + note + "</i>"
  }

  /** A text value Python treats as true: present and not empty. */
  predicate Truthy(v: Option<string>) {
    v.Some? && v.value != ""
  }

  function VtLines(vt: VtReport): (lines: seq<string>)
    ensures lines != [] && |lines| <= 6
  {
    match vt
    case VtError(e) => [VtHeading + " \U{274C} " + e]
    case VtNote(n) => [VtHeading + " \U{2139}\U{FE0F} " + n]
    case VtCounts(s) =>
      [ VtHeading,
        Bullet + "Malicious: " + IntToString(s.malicious) + " \U{1F534}",
        Bullet + "Suspicious: " + IntToString(s.suspicious) + " \U{1F7E1}",
        Bullet + "Harmless: " + IntToString(s.harmless) + " \U{1F7E2}",
        Bullet + "Undetected: " + IntToString(s.undetected),
        Bullet + "Reputation: " + IntToString(s.reputation) ]
  }

  function ScoreLine(score: int): string {
    Bullet + "Abuse Score: " + IntToString(score) + "% " + RiskText(RiskOf(score))
  }

  /** The optional lines of an AbuseIPDB report, each shown when its value is true. */
  function AbuseExtras(s: AbuseStats): (lines: seq<string>)
    ensures |lines| <= 3
  {
    (if s.whitelisted then [Bullet + "Status: \U{2705} Whitelisted"] else [])
    + (if Truthy(s.countryCode) then [Bullet + "Country: " + s.countryCode.value] else [])
    + (if Truthy(s.isp) then [Bullet + "ISP: " + s.isp.value] else [])
  }

  function AbuseLines(abuse: AbuseReport): (lines: seq<string>)
    ensures lines != [] && |lines| <= 7
  {
    match abuse
    case AbuseError(e) => [AbuseHeading + " \U{274C} " + e]
    case AbuseCounts(s) =>
      [ AbuseHeading,
        ScoreLine(s.score),
        Bullet + "Total Reports: " + IntToString(s.totalReports),
        Bullet + "Distinct Users: " + IntToString(s.distinctUsers) ]
      + AbuseExtras(s)
  }

  /** The lines `format_threat_result` joins. */
  function ThreatLines(data: ThreatResult): (lines: seq<string>)
    ensures |lines| >= 3 && lines[..3] == Header(data)
  {
    if data.note.Some? then Header(data) + [NoteLine(data.note.value)]
    else
      Header(data)
      + (if data.virustotal.Some? then VtLines(data.virustotal.value) else [])
      + (if data.abuseipdb.Some? then AbuseLines(data.abuseipdb.value) else [])
      + (if !HasSources(data) then [NoSourceLine] else [])
  }

  /** The band label, chosen by the source's chain of comparisons. */
  method RiskLabel(score: int) returns (risk: string)
    ensures risk == RiskText(RiskOf(score))
  {
    if score >= 75 {
      risk := "\U{1F534} HIGH RISK";
    } else if score >= 50 {
      risk := "\U{1F7E0} MEDIUM RISK";
    } else if score >= 25 {
      risk := "\U{1F7E1} LOW RISK";
    } else {
      risk := "\U{1F7E2} CLEAN";
    }
  }

  /** Appends the optional lines of a report, each under its own condition. */
  method AppendAbuseExtras(lines: seq<string>, s: AbuseStats) returns (out: seq<string>)
    ensures out == lines + AbuseExtras(s)
  {
    out := lines;
    var extras: seq<string> := [];
    if s.whitelisted {
      extras := extras + [Bullet + "Status: \U{2705} Whitelisted"];
    }
    if Truthy(s.countryCode) {
      extras := extras + [Bullet + "Country: " + s.countryCode.value];
    }
    if Truthy(s.isp) {
      extras := extras + [Bullet + "ISP: " + s.isp.value];
    }
    out := out + extras;
  }

  /** Appends the AbuseIPDB part, line by line as the source does. */
  method AppendAbuse(lines: seq<string>, abuse: AbuseReport) returns (out: seq<string>)
    ensures out == lines + AbuseLines(abuse)
  {
    match abuse
    case AbuseError(e) =>
      out := lines + [AbuseHeading + " \U{274C} " + e];
    case AbuseCounts(s) =>
      var risk := RiskLabel(s.score);
      var counts := [
        AbuseHeading,
        Bullet + "Abuse Score: " + IntToString(s.score) + "% " + risk,
        Bullet + "Total Reports: " + IntToString(s.totalReports),
        Bullet + "Distinct Users: " + IntToString(s.distinctUsers)];
      out := AppendAbuseExtras(lines + counts, s);
      assert out == lines + (counts + AbuseExtras(s));
  }

  /** `format_threat_result`: the header, then either the note alone or each source's
      part followed by the warning when there is none. */
  method FormatThreatResult(data: ThreatResult) returns (text: string)
    ensures text == Join("\n", ThreatLines(data))
  {
    var lines := Header(data);
    if data.note.Some? {
      lines := lines + [NoteLine(data.note.value)];
      return Join("\n", lines);
    }
    var vt: seq<string> := [];
    if data.virustotal.Some? {
      vt := VtLines(data.virustotal.value);
    }
    lines := lines + vt;
    var withAbuse := lines;
    if data.abuseipdb.Some? {
      withAbuse := AppendAbuse(lines, data.abuseipdb.value);
    }
    var warning: seq<string> := [];
    if !HasSources(data) {
      warning := [NoSourceLine];
    }
    lines := withAbuse + warning;
    assert lines == ThreatLines(data);
    text := Join("\n", lines);
  }

  /** When the result carries the note, the reply is the three header lines and the note. */
  lemma NoteStopsReply(data: ThreatResult)
    requires data.note.Some?
    ensures |ThreatLines(data)| == 4
    ensures ThreatLines(data)[3] == NoteLine(data.note.value)
  {
  }

  /** A line the reply shows for a source or in the header: it does not open with a line
      break, or its opening `"\n<"` is followed by `b`. The warning about missing sources
      is not such a line. */
  predicate SourceOrHeaderLine(line: string) {
    line != [] && (line[0] != '\n' || (|line| > 2 && line[2] == 'b'))
  }

  lemma HeaderLinesMarked(data: ThreatResult)
    ensures forall l | l in Header(data) :: SourceOrHeaderLine(l)
  {
    var h := Header(data);
    assert h[0][0] == '\U{1F6E1}' && h[1][0] == '\U{1F3AF}' && h[2][0] == '\U{1F4CA}';
  }

  lemma VtLinesMarked(vt: VtReport)
    ensures forall l | l in VtLines(vt) :: SourceOrHeaderLine(l)
  {
    match vt
    case VtError(e) =>
      var l := VtHeading + " \U{274C} " + e;
      assert l[..|VtHeading|] == VtHeading;
    case VtNote(n) =>
      var l := VtHeading + " \U{2139}\U{FE0F} " + n;
      assert l[..|VtHeading|] == VtHeading;
    case VtCounts(_) =>
      forall l | l in VtLines(vt) ensures SourceOrHeaderLine(l) {
        assert l == VtHeading || l[..|Bullet|] == Bullet;
      }
  }

  lemma AbuseExtrasMarked(s: AbuseStats)
    ensures forall l | l in AbuseExtras(s) :: l != [] && l[0] == ' '
  {
    var a := if s.whitelisted then [Bullet + "Status: \U{2705} Whitelisted"] else [];
    var b := if Truthy(s.countryCode) then [Bullet + "Country: " + s.countryCode.value] else [];
    var c := if Truthy(s.isp) then [Bullet + "ISP: " + s.isp.value] else [];
    assert AbuseExtras(s) == a + b + c;
    forall l | l in a + b + c ensures l != [] && l[0] == ' ' {
      assert l[..|Bullet|] == Bullet;
    }
  }

  lemma AbuseLinesMarked(abuse: AbuseReport)
    ensures forall l | l in AbuseLines(abuse) :: SourceOrHeaderLine(l)
  {
    match abuse
    case AbuseError(e) =>
      var l := AbuseHeading + " \U{274C} " + e;
      assert l[..|AbuseHeading|] == AbuseHeading;
    case AbuseCounts(s) =>
      var counts := [
        AbuseHeading,
        ScoreLine(s.score),
        Bullet + "Total Reports: " + IntToString(s.totalReports),
        Bullet + "Distinct Users: " + IntToString(s.distinctUsers)];
      forall l | l in counts ensures SourceOrHeaderLine(l) {
        assert l[..2] == AbuseHeading[..2] || l[..|Bullet|] == Bullet;
      }
      AbuseExtrasMarked(s);
      assert AbuseLines(abuse) == counts + AbuseExtras(s);
  }

  lemma WarningUnmarked()
    ensures !SourceOrHeaderLine(NoSourceLine) && NoSourceLine[4] == '\U{26A0}'
  {
  }

  /** A lookup's own result never shows the warning about missing sources: whenever no
      source answered, the note is set and the reply stops before it. */
  lemma NoSourceWarningUnreachable(
    target: string, requested: string, vtKey: Option<string>, abuseKey: Option<string>,
    vtResponse: Response<VtStats>, abuseResponse: Response<AbuseStats>)
    ensures NoSourceLine !in
      ThreatLines(ThreatCheck(target, requested, vtKey, abuseKey, vtResponse, abuseResponse))
  {
    var data := ThreatCheck(target, requested, vtKey, abuseKey, vtResponse, abuseResponse);
    WarningUnmarked();
    HeaderLinesMarked(data);
    if data.note.Some? {
      assert NoteLine(data.note.value)[4] == '\U{2139}';
      assert ThreatLines(data) == Header(data) + [NoteLine(data.note.value)];
    } else {
      var vt := if data.virustotal.Some? then VtLines(data.virustotal.value) else [];
      var abuse := if data.abuseipdb.Some? then AbuseLines(data.abuseipdb.value) else [];
      if data.virustotal.Some? { VtLinesMarked(data.virustotal.value); }
      if data.abuseipdb.Some? { AbuseLinesMarked(data.abuseipdb.value); }
      assert ThreatLines(data) == Header(data) + vt + abuse;
    }
  }

  /** With an AbuseIPDB report in hand, the reply shows the score with its band. */
  lemma ScoreShownWithBand(data: ThreatResult)
    requires data.note.None? && data.abuseipdb.Some? && data.abuseipdb.value.AbuseCounts?
    ensures ScoreLine(data.abuseipdb.value.stats.score) in ThreatLines(data)
  {
    var vt := if data.virustotal.Some? then VtLines(data.virustotal.value) else [];
    var abuse := AbuseLines(data.abuseipdb.value);
    assert ThreatLines(data) == Header(data) + vt + abuse;
    assert abuse[1] == ScoreLine(data.abuseipdb.value.stats.score);
  }
}
