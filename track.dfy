/** Package tracking: the courier guessed from the shape of a tracking number, and the
    reply `track_package` assembles around the courier's own lookup. Only the JNE lookup
    can reach a service; its outcome is passed in. */
module Track {
  import opened Text

  datatype Courier = Jne | Jnt | SiCepat | Ups | PosIndonesia | Unknown

  /** The name `detect_courier` returns for each courier. */
  function CourierName(c: Courier): string {
    match c
    case Jne => "jne"
    case Jnt => "jnt"
    case SiCepat => "sicepat"
    case Ups => "ups"
    case PosIndonesia => "pos_indonesia"
    case Unknown => "unknown"
  }

  predicate StartsWith(s: string, prefix: string) {
    |prefix| <= |s| && s[..|prefix|] == prefix
  }

  /** The text a regular expression's `$` sees as the end: `$` also matches just before a
      final newline. */
  function BeforeFinalNewline(s: string): string {
    if s != [] && s[|s| - 1] == '\n' then s[..|s| - 1] else s
  }

  /** From index `start` to the end (as `$` sees it) there are between `lo` and `hi` digits
      and nothing else: the tail of the patterns `\d{lo,hi}$`. */
  predicate DigitsToEnd(s: string, start: nat, lo: nat, hi: nat) {
    var body := BeforeFinalNewline(s);
    start <= |body| && lo <= |body| - start <= hi && AllDigits(body[start..])
  }

  /** `detect_courier`: the first rule that matches the upper-cased number decides. */
  function DetectCourier(trackingNumber: string): (c: Courier)
    ensures c == PosIndonesia ==> |trackingNumber| == 10 || |trackingNumber| == 12
  {
    var t := Upper(trackingNumber);
    if StartsWith(t, "JP") && DigitsToEnd(t, 2, 12, 12) then Jne
    else if StartsWith(t, "JT") && DigitsToEnd(t, 2, 10, 15) then Jnt
    else if DigitsToEnd(t, 0, 12, 12) then SiCepat
    else if StartsWith(t, "1Z") || StartsWith(t, "T") then Ups
    else if |t| == 10 || |t| == 12 then PosIndonesia
    else Unknown
  }

  lemma UpperLowerUpper(s: string)
    ensures Upper(Lower(s)) == Upper(s) && Upper(Upper(s)) == Upper(s)
  {
    assert forall i :: 0 <= i < |s| ==> Upper(Lower(s))[i] == Upper(s)[i];
    assert forall i :: 0 <= i < |s| ==> Upper(Upper(s))[i] == Upper(s)[i];
  }

  /** Detection ignores case: a number, its lower-case and its upper-case forms get the
      same courier. */
  lemma DetectIgnoresCase(trackingNumber: string)
    ensures DetectCourier(Lower(trackingNumber)) == DetectCourier(trackingNumber)
    ensures DetectCourier(Upper(trackingNumber)) == DetectCourier(trackingNumber)
  {
    UpperLowerUpper(trackingNumber);
  }

  lemma UpperOfDigits(d: string)
    requires AllDigits(d)
    ensures Upper(d) == d
  {
    assert forall i :: 0 <= i < |d| ==> Upper(d)[i] == d[i];
  }

  lemma UpperAppend(a: string, b: string)
    ensures Upper(a + b) == Upper(a) + Upper(b)
  {
    assert forall i :: 0 <= i < |a + b| ==> Upper(a + b)[i] == (Upper(a) + Upper(b))[i];
  }

  /** "JP" and twelve digits, in either case, is a JNE number. */
  lemma JneNumbers(digits: string)
    requires |digits| == 12 && AllDigits(digits)
    ensures DetectCourier("JP" + digits) == Jne
    ensures DetectCourier("jp" + digits) == Jne
  {
    UpperOfDigits(digits);
    UpperAppend("JP", digits);
    UpperAppend("jp", digits);
    assert Upper("jp") == "JP" && Upper("JP") == "JP";
    var t := "JP" + digits;
    assert t[..2] == "JP" && t[2..] == digits;
  }

  /** "JT" and ten to fifteen digits is a J&T number. */
  lemma JntNumbers(digits: string)
    requires 10 <= |digits| <= 15 && AllDigits(digits)
    ensures DetectCourier("JT" + digits) == Jnt
  {
    UpperOfDigits(digits);
    UpperAppend("JT", digits);
    assert Upper("JT") == "JT";
    var t := "JT" + digits;
    assert t[..2] == "JT" && t[2..] == digits;
    assert t[..2] != "JP";
  }

  /** Twelve digits alone is a SiCepat number, although twelve characters would also fit
      the Pos Indonesia rule: the earlier rule wins. */
  lemma SiCepatNumbers(digits: string)
    requires |digits| == 12 && AllDigits(digits)
    ensures DetectCourier(digits) == SiCepat
  {
    UpperOfDigits(digits);
    assert digits[0..] == digits;
    assert !StartsWith(digits, "JP") && !StartsWith(digits, "JT") by {
      assert IsDigit(digits[0]);
    }
  }

  /** Whatever follows "1Z" or "T" is a UPS number, even when its length fits the Pos
      Indonesia rule. */
  lemma UpsPrefixes(rest: string)
    ensures DetectCourier("1Z" + rest) == Ups
    ensures DetectCourier("T" + rest) == Ups
  {
    UpperAppend("1Z", rest);
    UpperAppend("T", rest);
    assert Upper("1Z") == "1Z" && Upper("T") == "T";
    var a, b := "1Z" + Upper(rest), "T" + Upper(rest);
    assert a[..2] == "1Z" && b[..1] == "T";
    assert !StartsWith(a, "JP") && !StartsWith(a, "JT") by {
      assert a[0] == '1';
    }
    assert !StartsWith(b, "JP") && !StartsWith(b, "JT") by {
      assert b[0] == 'T';
    }
    assert !DigitsToEnd(a, 0, 12, 12) by {
      assert BeforeFinalNewline(a)[1] == 'Z';
    }
    assert !DigitsToEnd(b, 0, 12, 12) by {
      assert BeforeFinalNewline(b)[0] == 'T';
    }
  }

  /** `$` accepts a final newline, so a JNE number followed by one is still JNE. */
  lemma FinalNewlineIgnored(digits: string)
    requires |digits| == 12 && AllDigits(digits)
    ensures DetectCourier("JP" + digits + "\n") == Jne
  {
    UpperOfDigits(digits);
    UpperAppend("JP" + digits, "\n");
    UpperAppend("JP", digits);
    assert Upper("JP") == "JP" && Upper("\n") == "\n";
    var t := "JP" + digits + "\n";
    assert BeforeFinalNewline(t) == "JP" + digits;
    assert ("JP" + digits)[2..] == digits;
  }

  /** A number longer than eighteen characters that does not start with "1Z" or "T" fits
      no rule: the longest pattern, "JT" with fifteen digits and a final newline, has
      eighteen. */
  lemma UnknownByLength(trackingNumber: string)
    requires |trackingNumber| > 18
    requires !StartsWith(Upper(trackingNumber), "1Z") && !StartsWith(Upper(trackingNumber), "T")
    ensures DetectCourier(trackingNumber) == Unknown
  {
  }

  /** A number of ten or twelve characters that does not start with "1Z" or "T" and has a
      character other than a digit or a newline after its first two is a Pos Indonesia
      number: none of the three patterns can match it. */
  lemma PosIndonesiaNumbers(trackingNumber: string, i: nat)
    requires |trackingNumber| == 10 || |trackingNumber| == 12
    requires !StartsWith(Upper(trackingNumber), "1Z") && !StartsWith(Upper(trackingNumber), "T")
    requires 2 <= i < |trackingNumber| && !IsDigit(trackingNumber[i]) && trackingNumber[i] != '\n'
    ensures DetectCourier(trackingNumber) == PosIndonesia
  {
    var t := Upper(trackingNumber);
    var body := BeforeFinalNewline(t);
    assert !IsDigit(t[i]) && t[i] != '\n';
    assert i < |body| && body[i] == t[i];
    assert body[2..][i - 2] == t[i];
    assert body[0..][i] == t[i];
  }

  /** "ABCDEFGHIJ", ten letters, is taken for a Pos Indonesia number. */
  lemma LettersArePosIndonesia(trackingNumber: string)
    requires trackingNumber == "ABCDEFGHIJ"
    ensures DetectCourier(trackingNumber) == PosIndonesia
  {
    assert Upper(trackingNumber)[0] == 'A';
    PosIndonesiaNumbers(trackingNumber, 2);
  }

  /** A value in the reply: text, `None`, or structured data (a history list or a status
      record) that the model does not look into. */
  datatype Value = Null | Text(text: string) | Structured

  /** The outcome of the JNE lookup (`track_jne`), which needs the network. */
  datatype JneReply =
    | JneTracked(service: Value, origin: Value, destination: Value, currentStatus: Value, history: Value)
    | JneFailed(message: string)
    | JneUnavailable

  const UnknownCourierNote :=
    "Kurir tidak dapat dideteksi otomatis. Silakan gunakan format: /track <kurir> <resi>\nContoh: /track jne ABC123456789"
  const JneNote := "Tracking JNE memerlukan API key. Daftarkan di https://binderbyte.com"
  const JntNote := "Tracking J&T memerlukan API key resmi dari J&T Express"
  const SiCepatNote := "Tracking SiCepat memerlukan API key resmi dari SiCepat Ekspres"

  function OtherCourierNote(courier: Courier): string {
    "Tracking untuk kurir " + CourierName(courier) + " belum tersedia atau memerlukan API key"
  }

  /** The entries `track_jne` returns for each outcome. */
  function JneFields(reply: JneReply): (fields: map<string, Value>)
    ensures "tracking_number" !in fields && "courier" !in fields
    ensures "status" in fields ==> reply.JneTracked?
  {
    match reply
    case JneTracked(service, origin, destination, current, history) =>
      map["status" := Text("success"), "service" := service, "origin" := origin,
          "destination" := destination, "current_status" := current, "history" := history]
    case JneFailed(message) => map["error" := Text("Gagal melakukan tracking: " + message)]
    case JneUnavailable => map["note" := Text(JneNote)]
  }

  /** The entries the courier's own lookup adds for a known courier. */
  function CourierFields(courier: Courier, jne: JneReply): (fields: map<string, Value>)
    requires courier != Unknown
    ensures "tracking_number" !in fields && "courier" !in fields
  {
    match courier
    case Jne => JneFields(jne)
    case Jnt => map["note" := Text(JntNote)]
    case SiCepat => map["note" := Text(SiCepatNote)]
    case _ => map["note" := Text(OtherCourierNote(courier))]
  }

  /** The reply of `track_package` for a number already stripped and upper-cased. */
  function TrackReply(number: string, jne: JneReply): (reply: map<string, Value>)
    ensures "tracking_number" in reply && reply["tracking_number"] == Text(number)
    ensures "courier" in reply && reply["courier"] == Text(CourierName(DetectCourier(number)))
    ensures "status" in reply
    ensures reply["status"] == Text("success") <==> DetectCourier(number) == Jne && jne.JneTracked?
  {
    var courier := DetectCourier(number);
    var base := map["tracking_number" := Text(number), "courier" := Text(CourierName(courier)),
                    "status" := Text("unknown")];
    if courier == Unknown then base["note" := Text(UnknownCourierNote)]
    else base + CourierFields(courier, jne)
  }

  /** The dispatch of `track_package` to the courier's lookup: only JNE has one. */
  method CourierLookup(courier: Courier, jne: JneReply) returns (trackingResult: map<string, Value>)
    requires courier != Unknown
    ensures trackingResult == CourierFields(courier, jne)
  {
    if courier == Jne {
      trackingResult := JneFields(jne);
    } else if courier == Jnt {
      trackingResult := map["note" := Text(JntNote)];
    } else if courier == SiCepat {
      trackingResult := map["note" := Text(SiCepatNote)];
    } else {
      trackingResult := map["note" := Text(OtherCourierNote(courier))];
    }
  }

  /** The body of `track_package` after normalisation: records the number with its courier
      and an "unknown" status, then either adds the note for an undetected courier or
      merges in what the courier's lookup returns. */
  method BuildReply(number: string, jne: JneReply) returns (result: map<string, Value>)
    ensures result == TrackReply(number, jne)
  {
    var courier := DetectCourier(number);
    result := map["tracking_number" := Text(number), "courier" := Text(CourierName(courier)),
                  "status" := Text("unknown")];
    if courier == Unknown {
      result := result["note" := Text(UnknownCourierNote)];
      return;
    }
    var trackingResult := CourierLookup(courier, jne);
    result := result + trackingResult;
  }

  /** `track_package`: strips and upper-cases the number, then builds the reply. */
  method TrackPackage(trackingNumber: string, jne: JneReply) returns (result: map<string, Value>)
    ensures result == TrackReply(Upper(Strip(trackingNumber)), jne)
  {
    var number := Upper(Strip(trackingNumber));
    result := BuildReply(number, jne);
  }

  /** Only a JNE number consults the JNE lookup: for every other number the reply is the
      same whatever that lookup would have returned. */
  lemma LookupOnlyForJne(number: string, a: JneReply, b: JneReply)
    requires DetectCourier(number) != Jne
    ensures TrackReply(number, a) == TrackReply(number, b)
  {
  }

  /** An undetected courier gets exactly the number, the courier "unknown", the status
      "unknown" and the note on how to name the courier. */
  lemma UnknownCourierReply(number: string, jne: JneReply)
    requires DetectCourier(number) == Unknown
    ensures TrackReply(number, jne).Keys == {"tracking_number", "courier", "status", "note"}
    ensures TrackReply(number, jne)["status"] == Text("unknown")
    ensures TrackReply(number, jne)["note"] == Text(UnknownCourierNote)
  {
  }

  /** J&T, SiCepat, UPS and Pos Indonesia numbers only gain a note: their status stays
      "unknown". */
  lemma OtherCouriersOnlyNote(number: string, jne: JneReply)
    requires DetectCourier(number) !in {Jne, Unknown}
    ensures TrackReply(number, jne)["status"] == Text("unknown")
    ensures "note" in TrackReply(number, jne)
    ensures TrackReply(number, jne).Keys == {"tracking_number", "courier", "status", "note"}
  {
  }

  /** The number is stored stripped and upper-cased, so surrounding whitespace and case do
      not change the reply. */
  lemma TrackIgnoresCase(trackingNumber: string, jne: JneReply)
    ensures TrackReply(Upper(Strip(Lower(trackingNumber))), jne) == TrackReply(Upper(Strip(trackingNumber)), jne)
  {
    StripLower(trackingNumber);
    UpperLowerUpper(Strip(trackingNumber));
  }

  /** Lower-casing does not move the whitespace `Strip` removes. */
  lemma StripLower(s: string)
    ensures Strip(Lower(s)) == Lower(Strip(s))
  {
    TrimLeftLower(s);
    TrimRightLower(TrimLeft(s));
  }

  lemma {:induction false} TrimLeftLower(s: string)
    ensures TrimLeft(Lower(s)) == Lower(TrimLeft(s))
    decreases |s|
  {
    if s != [] {
      var l := Lower(s);
      assert l[0] == LowerChar(s[0]) && (IsSpace(l[0]) <==> IsSpace(s[0]));
      assert l[1..] == Lower(s[1..]);
      TrimLeftLower(s[1..]);
      if !IsSpace(s[0]) {
        assert TrimLeft(l) == l && TrimLeft(s) == s;
      }
    }
  }

  lemma {:induction false} TrimRightLower(s: string)
    ensures TrimRight(Lower(s)) == Lower(TrimRight(s))
    decreases |s|
  {
    if s != [] {
      var l := Lower(s);
      assert l[|s| - 1] == LowerChar(s[|s| - 1]) && (IsSpace(l[|s| - 1]) <==> IsSpace(s[|s| - 1]));
      assert l[..|s| - 1] == Lower(s[..|s| - 1]);
      TrimRightLower(s[..|s| - 1]);
      if !IsSpace(s[|s| - 1]) {
        assert TrimRight(l) == l && TrimRight(s) == s;
      }
    }
  }
}
