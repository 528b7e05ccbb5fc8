/** The sensitive-data classifier: eleven independent detectors run over
    the query text, each adding its violation in a fixed order, and a blocked query is
    answered with a warning listing the violations. */
module SensitiveData {
  import opened Text
  import opened Options
  import Luhn

  // ---------------------------------------------------------------------------
  // Regular-expression building blocks

  /** `\b` in front of index `i`, where the pattern continues with a word character. */
  predicate BoundaryBefore(s: string, i: int)
    requires 0 <= i <= |s|
  {
    i == 0 || !IsWordChar(s[i - 1])
  }

  /** `\b` at index `e`, where the pattern ended with a word character. */
  predicate BoundaryAfter(s: string, e: int)
    requires 0 <= e <= |s|
  {
    e == |s| || !IsWordChar(s[e])
  }

  /** `\d{n}` at index `p`. */
  predicate DigitsAt(s: string, p: int, n: nat) {
    0 <= p && p + n <= |s| && forall k :: p <= k < p + n ==> IsDigit(s[k])
  }

  /** The length of the run of digits that starts at index `i`. */
  function DigitRun(s: string, i: nat): (n: nat)
    requires i <= |s|
    ensures DigitsAt(s, i, n)
    ensures i + n == |s| || !IsDigit(s[i + n])
    decreases |s| - i
  {
    if i < |s| && IsDigit(s[i]) then 1 + DigitRun(s, i + 1) else 0
  }

  predicate IsDashOrSpace(c: char) { c == '-' || IsSpace(c) }

  /** The separator classes `[-\s]`, `[.\s]` and `[-.\s]`. */
  datatype Separators = DashOrSpace | DotOrSpace | DashDotOrSpace

  predicate Separates(c: char, seps: Separators) {
    match seps
    case DashOrSpace => c == '-' || IsSpace(c)
    case DotOrSpace => c == '.' || IsSpace(c)
    case DashDotOrSpace => c == '-' || c == '.' || IsSpace(c)
  }

  function Total(xs: seq<nat>): nat {
    if xs == [] then 0 else xs[0] + Total(xs[1..])
  }

  /** Digit groups of the given sizes from index `p`, each group but the last followed by
      an optional separator of its class, as in `\d{4}[-\s]?\d{4}`; gives the index after
      the last group. The match is unique: an optional separator is taken exactly when
      the next character is one, since a digit group cannot start on a separator. */
  function GroupsEnd(s: string, p: nat, sizes: seq<nat>, seps: seq<Separators>): (r: Option<nat>)
    requires p <= |s| && |sizes| == |seps| + 1
    ensures r.Some? ==> p + Total(sizes) <= r.value <= |s|
    decreases |seps|
  {
    if !DigitsAt(s, p, sizes[0]) then None
    else if seps == [] then Some(p + sizes[0])
    else
      var q := p + sizes[0];
      var next := if q < |s| && Separates(s[q], seps[0]) then q + 1 else q;
      GroupsEnd(s, next, sizes[1..], seps[1..])
  }

  // ---------------------------------------------------------------------------
  // The digit patterns

  /** NIK_PATTERN `\b\d{16}\b` matching at index `i`. */
  predicate NikAt(s: string, i: int) {
    DigitsAt(s, i, 16) && BoundaryBefore(s, i) && BoundaryAfter(s, i + 16)
  }

  /** First alternative of BANK_ACCOUNT_PATTERN, `\b\d{10,16}\b`: a whole word of 10 to 16
      digits. */
  predicate LongAccountAt(s: string, i: nat)
    requires i <= |s|
  {
    var n := DigitRun(s, i);
    10 <= n <= 16 && BoundaryBefore(s, i) && BoundaryAfter(s, i + n)
  }

  /** Second alternative, `\b\d{3,4}[-\s]\d{3,4}[-\s]\d{3,8}\b`: each group is a whole run of
      digits, the first two of 3 or 4 digits followed by a dash or a space, the last of
      3 to 8 digits ending a word. */
  predicate GroupedAccountAt(s: string, i: nat)
    requires i <= |s|
  {
    var n1 := DigitRun(s, i);
    3 <= n1 <= 4 && BoundaryBefore(s, i) && i + n1 < |s| && IsDashOrSpace(s[i + n1]) &&
    var j := i + n1 + 1;
    var n2 := DigitRun(s, j);
    3 <= n2 <= 4 && j + n2 < |s| && IsDashOrSpace(s[j + n2]) &&
    var k := j + n2 + 1;
    var n3 := DigitRun(s, k);
    3 <= n3 <= 8 && BoundaryAfter(s, k + n3)
  }

  /** The digit groups of a card number and the separators allowed between them. */
  const CardSizes: seq<nat> := [4, 4, 4, 4]
  const CardSeparators: seq<Separators> := [DashOrSpace, DashOrSpace, DashOrSpace]

  /** A card number has sixteen digits. */
  lemma CardDigits()
    ensures Total(CardSizes) == 16 && |CardSizes| == |CardSeparators| + 1
    ensures forall k :: 0 <= k < |CardSeparators| ==> CardSeparators[k] == DashOrSpace
  {
  }

  /** CREDIT_CARD_PATTERN `\b(?:\d{4}[-\s]?){3}\d{4}\b` matching at index `i`; gives where
      the match ends. */
  function CardAt(s: string, i: nat): (r: Option<nat>)
    requires i <= |s|
    ensures r.Some? ==> i + 16 <= r.value <= |s|
  {
    if i < |s| && BoundaryBefore(s, i) then
      CardDigits();
      match GroupsEnd(s, i, CardSizes, CardSeparators)
      case Some(e) => if BoundaryAfter(s, e) then Some(e) else None
      case None => None
    else None
  }

  /** `CREDIT_CARD_PATTERN.findall(s)`: the matches found scanning from `from` to the right,
      each search resuming where the previous match ended. */
  function CardCandidates(s: string, from: nat): seq<string>
    requires from <= |s|
    decreases |s| - from
  {
    if from == |s| then []
    else match CardAt(s, from)
      case Some(e) => [s[from..e]] + CardCandidates(s, e)
      case None => CardCandidates(s, from + 1)
  }

  /** `re.sub(r'[-\s]', '', s)`. */
  function RemoveCardSeparators(s: string): (r: string)
    ensures |r| <= |s|
  {
    if s == [] then []
    else (if IsDashOrSpace(s[0]) then [] else [s[0]]) + RemoveCardSeparators(s[1..])
  }

  /** The digit groups of an NPWP number and the separators allowed between them. */
  const NpwpSizes: seq<nat> := [2, 3, 3, 1, 3, 3]
  const NpwpSeparators: seq<Separators> := [DotOrSpace, DotOrSpace, DotOrSpace, DashDotOrSpace, DotOrSpace]

  /** An NPWP number has fifteen digits. */
  lemma NpwpDigits()
    ensures Total(NpwpSizes) == 15 && |NpwpSizes| == |NpwpSeparators| + 1
  {
  }

  /** NPWP_PATTERN `\b\d{2}[.\s]?\d{3}[.\s]?\d{3}[.\s]?\d[-.\s]?\d{3}[.\s]?\d{3}\b` matching
      at index `i`. */
  function NpwpAt(s: string, i: nat): (r: Option<nat>)
    requires i <= |s|
    ensures r.Some? ==> i + 15 <= r.value <= |s|
  {
    if i < |s| && BoundaryBefore(s, i) then
      NpwpDigits();
      match GroupsEnd(s, i, NpwpSizes, NpwpSeparators)
      case Some(e) => if BoundaryAfter(s, e) then Some(e) else None
      case None => None
    else None
  }

  /** The four digit-shaped patterns. */
  datatype DigitPattern = NikNumber | AccountNumber | CardNumber | NpwpNumber

  /** The pattern matches with its match starting at index `i`. */
  predicate PatternAt(p: DigitPattern, s: string, i: nat)
    requires i <= |s|
  {
    match p
    case NikNumber => NikAt(s, i)
    case AccountNumber => LongAccountAt(s, i) || GroupedAccountAt(s, i)
    case CardNumber => CardAt(s, i).Some?
    case NpwpNumber => NpwpAt(s, i).Some?
  }

  /** `pattern.search(s)` scanning the start positions from `i` rightwards. */
  predicate Search(p: DigitPattern, s: string, i: nat)
    requires i <= |s|
    decreases |s| - i
  {
    PatternAt(p, s, i) || (i < |s| && Search(p, s, i + 1))
  }

  // ---------------------------------------------------------------------------
  // Keyword families (all matched case-insensitively)

  /** One alternative of a keyword regex: `\bword\b`, or `\bhead.*tail\b` where `.` is any
      character but a newline (`closed` false when the tail is followed by `\w*`, which
      always leaves a word boundary behind it). */
  datatype Term = Word(word: string) | Span(head: string, tail: string, closed: bool)

  /** `.*tail` (then `\b` when `closed`) matching from index `j`: the tail occurs at `j`,
      or the character at `j` is not a newline and the match goes on from `j + 1`. */
  predicate TailFrom(s: string, tail: string, closed: bool, j: nat)
    requires j <= |s|
    decreases |s| - j
  {
    (OccursAt(s, tail, j) && (closed ==> BoundaryAfter(s, j + |tail|)))
    || (j < |s| && s[j] != '\n' && TailFrom(s, tail, closed, j + 1))
  }

  /** A term matching the lower-cased text `s` at index `i`. */
  predicate TermAt(s: string, t: Term, i: nat)
    requires i <= |s|
  {
    BoundaryBefore(s, i) &&
    match t
    case Word(w) => OccursAt(s, w, i) && BoundaryAfter(s, i + |w|)
    case Span(a, b, closed) => OccursAt(s, a, i) && TailFrom(s, b, closed, i + |a|)
  }

  /** Some alternative of the family matches at index `i`. */
  predicate AnyTermAt(s: string, family: seq<Term>, i: nat)
    requires i <= |s|
  {
    family != [] && (TermAt(s, family[0], i) || AnyTermAt(s, family[1..], i))
  }

  /** `FAMILY.search(s)` scanning the start positions from `i` rightwards. */
  predicate SearchTerms(s: string, family: seq<Term>, i: nat)
    requires i <= |s|
    decreases |s| - i
  {
    AnyTermAt(s, family, i) || (i < |s| && SearchTerms(s, family, i + 1))
  }

  /** `FAMILY.search(text)` for a keyword regex compiled with IGNORECASE. */
  predicate FamilyMatches(text: string, family: seq<Term>) {
    SearchTerms(Lower(text), family, 0)
  }

  const KtpTerms: seq<Term> :=
    [Word("ktp"), Word("nik"), Span("nomor", "induk", true), Span("identitas", "kependudukan", true)]

  const BankTerms: seq<Term> :=
    [Word("rekening"), Span("account", "number", true), Span("bank", "account", true), Word("bca"),
     Word("mandiri"), Word("bni"), Word("bri"), Word("balance"), Word("saldo"), Word("pin"),
     Word("cvv"), Word("cvc")]

  const CriminalTerms: seq<Term> :=
    [Span("rekam", "kriminal", true), Span("criminal", "record", true), Span("police", "record", true),
     Span("catatan", "polisi", true), Word("tahanan"), Word("penjara"), Word("terpidana"), Word("bui")]

  const CredentialTerms: seq<Term> :=
    [Word("password"), Word("passwd"), Word("pwd"), Word("credential"), Span("login", "info", true),
     Span("email", "password", true), Span("hack", "email", true), Span("breach", "email", true)]

  const BiometricTerms: seq<Term> :=
    [Span("face", "recogni", false), Span("facial", "recogni", false), Span("finger", "print", true),
     Span("retina", "scan", true), Span("iris", "scan", true), Word("biometric"),
     Span("sidik", "jari", true), Span("wajah", "pengenalan", true)]

  const ProprietaryTerms: seq<Term> :=
    [Word("proprietary"), Word("confidential"), Span("internal", "data", true),
     Span("trade", "secret", true), Span("rahasia", "dagang", true), Span("data", "internal", true),
     Span("non", "public", true)]

  const LawEnforcementTerms: seq<Term> :=
    [Span("law", "enforcement", true), Span("penegak", "hukum", true), Word("kepolisian"),
     Word("fbi"), Word("cia"), Word("interpol"), Word("bnn"), Word("kpk")]

  /** The plain substrings whose presence in the lower-cased text lets a bank-account digit
      pattern count. */
  const BankMentions: seq<string> := ["bank", "rekening", "account", "bca", "mandiri", "bni", "bri"]

  /** `any(keyword in s for keyword in words)`. */
  predicate ContainsAny(s: string, words: seq<string>) {
    words != [] && (Contains(s, words[0]) || ContainsAny(s, words[1..]))
  }

  predicate MentionsBank(text: string) {
    ContainsAny(Lower(text), BankMentions)
  }

  // ---------------------------------------------------------------------------
  // Violations and the classification they specify

  datatype Violation =
    | NikDigits | KtpKeyword | BankKeyword | BankAccount | CreditCard | Npwp
    | CriminalRecord | Credential | Biometric | Proprietary | LawEnforcement
  {
    /** The text the source appends to its violation list. */
    function Description(): string {
      match this
      case NikDigits => "NIK/KTP (16 digit detected)"
      case KtpKeyword => "Kata kunci KTP/NIK terdeteksi"
      case BankKeyword => "Kata kunci data bank terdeteksi"
      case BankAccount => "Pola nomor rekening bank terdeteksi"
      case CreditCard => "Pola nomor kartu kredit terdeteksi"
      case Npwp => "Pola NPWP terdeteksi"
      case CriminalRecord => "Kata kunci rekam kriminal terdeteksi"
      case Credential => "Kata kunci password/credential terdeteksi"
      case Biometric => "Kata kunci data biometrik terdeteksi"
      case Proprietary => "Kata kunci data proprietary terdeteksi"
      case LawEnforcement => "Kata kunci data penegak hukum terdeteksi"
    }

    /** The detector's place in the fixed order. */
    function Rank(): nat {
      match this
      case NikDigits => 0
      case KtpKeyword => 1
      case BankKeyword => 2
      case BankAccount => 3
      case CreditCard => 4
      case Npwp => 5
      case CriminalRecord => 6
      case Credential => 7
      case Biometric => 8
      case Proprietary => 9
      case LawEnforcement => 10
    }
  }

  /** A card-number candidate passes once its separators are gone: sixteen digits with a
      valid Luhn checksum. */
  predicate CardNumberOk(candidate: string) {
    var digits := RemoveCardSeparators(candidate);
    |digits| == 16 && AllDigits(digits) && Luhn.Valid(digits)
  }

  /** Which of the eleven detectors fired, one flag per detector. */
  datatype Hits = Hits(
    nik: bool,
    ktpWords: bool,
    bankWords: bool,
    bankAccount: bool,
    card: bool,
    npwp: bool,
    criminalWords: bool,
    credentialWords: bool,
    biometricWords: bool,
    proprietaryWords: bool,
    lawWords: bool)
  {
    /** The flag of the detector that reports `v`. */
    predicate Fired(v: Violation) {
      match v
      case NikDigits => nik
      case KtpKeyword => ktpWords
      case BankKeyword => bankWords
      case BankAccount => bankAccount
      case CreditCard => card
      case Npwp => npwp
      case CriminalRecord => criminalWords
      case Credential => credentialWords
      case Biometric => biometricWords
      case Proprietary => proprietaryWords
      case LawEnforcement => lawWords
    }
  }

  /** What the eleven detectors answer on `text`. */
  function Scan(text: string): (h: Hits)
    ensures h.bankAccount ==> Search(AccountNumber, text, 0) && MentionsBank(text)
    ensures h.card ==> Search(CardNumber, text, 0) && exists c | c in CardCandidates(text, 0) :: CardNumberOk(c)
  {
    Hits(
      Search(NikNumber, text, 0),
      FamilyMatches(text, KtpTerms),
      FamilyMatches(text, BankTerms),
      Search(AccountNumber, text, 0) && MentionsBank(text),
      Search(CardNumber, text, 0) && exists c | c in CardCandidates(text, 0) :: CardNumberOk(c),
      Search(NpwpNumber, text, 0),
      FamilyMatches(text, CriminalTerms),
      FamilyMatches(text, CredentialTerms),
      FamilyMatches(text, BiometricTerms),
      FamilyMatches(text, ProprietaryTerms),
      FamilyMatches(text, LawEnforcementTerms))
  }

  /** The detectors in the order `check_input` runs them. */
  const Detectors: seq<Violation> :=
    [NikDigits, KtpKeyword, BankKeyword, BankAccount, CreditCard, Npwp,
     CriminalRecord, Credential, Biometric, Proprietary, LawEnforcement]

  /** `vs` with `v` appended when `fires` holds. */
  function AppendIf(vs: seq<Violation>, fires: bool, v: Violation): seq<Violation> {
    if fires then vs + [v] else vs
  }

  /** The violation list after the first `n` detectors have run. */
  function Prefix(h: Hits, n: nat): seq<Violation>
    requires n <= |Detectors|
  {
    if n == 0 then [] else AppendIf(Prefix(h, n - 1), h.Fired(Detectors[n - 1]), Detectors[n - 1])
  }

  /** The violation list once every detector has run. */
  function Reported(h: Hits): seq<Violation> {
    Prefix(h, |Detectors|)
  }

  /** The violations of a query: every detector that fires, in the fixed order. */
  function Classify(text: string): (vs: seq<Violation>)
    ensures |vs| <= |Detectors|
    ensures forall i, j :: 0 <= i < j < |vs| ==> vs[i].Rank() < vs[j].Rank()
  {
    PrefixRanks(Scan(text), |Detectors|);
    Reported(Scan(text))
  }

  // ---------------------------------------------------------------------------
  // check_input

  /** The loop of `check_input` over the card-pattern matches: strips each candidate's
      separators and stops at the first one with sixteen digits passing the Luhn check. */
  method AnyValidCard(text: string) returns (found: bool)
    ensures found <==> exists c | c in CardCandidates(text, 0) :: CardNumberOk(c)
  {
    var candidates := CardCandidates(text, 0);
    CandidatesAreSixteenDigits(text, 0);
    found := false;
    var i := 0;
    while i < |candidates|
      invariant 0 <= i <= |candidates|
      invariant forall k :: 0 <= k < i ==> !CardNumberOk(candidates[k])
    {
      var candidate := candidates[i];
      assert candidate in candidates;
      var digitsOnly := RemoveCardSeparators(candidate);
      if |digitsOnly| == 16 {
        var ok := Luhn.Check(digitsOnly);
        if ok {
          assert CardNumberOk(candidate);
          found := true;
          return;
        }
      }
      assert !CardNumberOk(candidate);
      i := i + 1;
    }
    assert forall c | c in candidates :: !CardNumberOk(c);
  }

  /** One `if <detector fires>: violations.append(<description>)` step of `check_input`:
      the step of the detector at index `k`. */
  method AppendDetector(violations: seq<Violation>, h: Hits, k: nat) returns (r: seq<Violation>)
    requires k < |Detectors| && violations == Prefix(h, k)
    ensures r == Prefix(h, k + 1)
  {
    r := violations;
    if h.Fired(Detectors[k]) {
      r := r + [Detectors[k]];
    }
  }

  /** The eleven append steps of `check_input`, in the detectors' fixed order. */
  method AppendViolations(h: Hits) returns (violations: seq<Violation>)
    ensures violations == Reported(h)
  {
    violations := [];
    violations := AppendDetector(violations, h, 0);
    violations := AppendDetector(violations, h, 1);
    violations := AppendDetector(violations, h, 2);
    violations := AppendDetector(violations, h, 3);
    violations := AppendDetector(violations, h, 4);
    violations := AppendDetector(violations, h, 5);
    violations := AppendDetector(violations, h, 6);
    violations := AppendDetector(violations, h, 7);
    violations := AppendDetector(violations, h, 8);
    violations := AppendDetector(violations, h, 9);
    violations := AppendDetector(violations, h, 10);
  }

  /** `SensitiveDataDetector.check_input`: runs every detector, never stopping early, and
      reports the query sensitive exactly when some violation was found. */
  method CheckInput(text: string) returns (isSensitive: bool, violations: seq<Violation>)
    ensures violations == Classify(text)
    ensures isSensitive <==> |violations| > 0
  {
    var nik := Search(NikNumber, text, 0);
    var ktpWords := FamilyMatches(text, KtpTerms);
    var bankWords := FamilyMatches(text, BankTerms);
    var bankAccount := Search(AccountNumber, text, 0) && MentionsBank(text);
    var card := false;
    if Search(CardNumber, text, 0) {
      card := AnyValidCard(text);
    }
    var npwp := Search(NpwpNumber, text, 0);
    var criminalWords := FamilyMatches(text, CriminalTerms);
    var credentialWords := FamilyMatches(text, CredentialTerms);
    var biometricWords := FamilyMatches(text, BiometricTerms);
    var proprietaryWords := FamilyMatches(text, ProprietaryTerms);
    var lawWords := FamilyMatches(text, LawEnforcementTerms);
    violations := AppendViolations(Hits(nik, ktpWords, bankWords, bankAccount, card, npwp, criminalWords, credentialWords, biometricWords, proprietaryWords, lawWords));
    isSensitive := |violations| > 0;
  }

  // ---------------------------------------------------------------------------
  // Properties of the classification

  /** Whether the detector for `v` fires on `text`. */
  predicate Detects(v: Violation, text: string) {
    Scan(text).Fired(v)
  }

  lemma DetectorRanks()
    ensures forall k :: 0 <= k < |Detectors| ==> Detectors[k].Rank() == k
    ensures forall v: Violation :: v.Rank() < |Detectors| && Detectors[v.Rank()] == v
  {
  }

  lemma {:induction false} PrefixMembers(h: Hits, n: nat, v: Violation)
    requires n <= |Detectors|
    ensures v in Prefix(h, n) <==> v.Rank() < n && h.Fired(v)
  {
    if n > 0 {
      PrefixMembers(h, n - 1, v);
      DetectorRanks();
    }
  }

  /** Every rank in `vs` is below `n`, and the ranks strictly increase. */
  predicate RankedBelow(vs: seq<Violation>, n: nat) {
    |vs| <= n
    && (forall i :: 0 <= i < |vs| ==> i <= vs[i].Rank() < n)
    && (forall i, j :: 0 <= i < j < |vs| ==> vs[i].Rank() < vs[j].Rank())
  }

  lemma {:induction false} PrefixRanks(h: Hits, n: nat)
    requires n <= |Detectors|
    ensures RankedBelow(Prefix(h, n), n)
  {
    if n > 0 {
      PrefixRanks(h, n - 1);
      DetectorRanks();
    }
  }

  /** Violations come in the detectors' fixed order, each at most once, so there are at
      most eleven of them. */
  lemma ClassifyOrdered(text: string)
    ensures forall i, j :: 0 <= i < j < |Classify(text)| ==> Classify(text)[i].Rank() < Classify(text)[j].Rank()
    ensures forall i, j :: 0 <= i < j < |Classify(text)| ==> Classify(text)[i] != Classify(text)[j]
    ensures |Classify(text)| <= |Detectors|
  {
    PrefixRanks(Scan(text), |Detectors|);
  }

  /** The bank-account violation needs both the digit pattern and a bank word. */
  lemma BankAccountNeedsBankWord(text: string)
    ensures BankAccount in Classify(text) <==> Search(AccountNumber, text, 0) && MentionsBank(text)
  {
    ClassifyMembers(text, BankAccount);
  }

  // ---------------------------------------------------------------------------
  // The searches against their declarative reading

  /** `pattern.search(s[i..])` succeeds exactly when the pattern matches at some index. */
  lemma {:induction false} SearchIff(p: DigitPattern, s: string, i: nat)
    requires i <= |s|
    ensures Search(p, s, i) <==> exists j | i <= j <= |s| :: PatternAt(p, s, j)
    decreases |s| - i
  {
    if i < |s| {
      SearchIff(p, s, i + 1);
    }
  }

  lemma {:induction false} SearchFinds(p: DigitPattern, s: string, i: nat, j: nat)
    requires i <= j <= |s| && PatternAt(p, s, j)
    ensures Search(p, s, i)
    decreases j - i
  {
    if i < j {
      SearchFinds(p, s, i + 1, j);
    }
  }

  lemma {:induction false} AnyTermAtIff(s: string, family: seq<Term>, i: nat)
    requires i <= |s|
    ensures AnyTermAt(s, family, i) <==> exists t | t in family :: TermAt(s, t, i)
    decreases |family|
  {
    if family != [] {
      AnyTermAtIff(s, family[1..], i);
      assert forall t | t in family :: t == family[0] || t in family[1..];
    }
  }

  lemma {:induction false} SearchTermsIff(s: string, family: seq<Term>, i: nat)
    requires i <= |s|
    ensures SearchTerms(s, family, i) <==> exists j, t | i <= j <= |s| && t in family :: TermAt(s, t, j)
    decreases |s| - i
  {
    AnyTermAtIff(s, family, i);
    if i < |s| {
      SearchTermsIff(s, family, i + 1);
    }
  }

  /** A keyword family matches exactly when one of its terms matches the lower-cased text
      at some index. */
  lemma FamilyMatchesIff(text: string, family: seq<Term>)
    ensures FamilyMatches(text, family)
       <==> exists j, t | 0 <= j <= |text| && t in family :: TermAt(Lower(text), t, j)
  {
    SearchTermsIff(Lower(text), family, 0);
  }

  // ---------------------------------------------------------------------------
  // What the detectors report

  /** A violation is reported exactly when its detector fires. */
  lemma ClassifyMembers(text: string, v: Violation)
    ensures v in Classify(text) <==> Detects(v, text)
  {
    PrefixMembers(Scan(text), |Detectors|, v);
    DetectorRanks();
  }

  /** A query is let through exactly when no detector fires. */
  lemma ClassifyEmptyIff(text: string)
    ensures Classify(text) == [] <==> forall v: Violation :: !Detects(v, text)
  {
    forall v: Violation {
      ClassifyMembers(text, v);
    }
    if Classify(text) != [] {
      assert Classify(text)[0] in Classify(text);
    }
  }

  /** A run of exactly sixteen digits standing as a word is always reported as a NIK. */
  lemma NikRunReported(text: string, i: nat)
    requires i <= |text| && NikAt(text, i)
    ensures NikDigits in Classify(text)
  {
    SearchFinds(NikNumber, text, 0, i);
    ClassifyMembers(text, NikDigits);
  }

  /** Every `findall` candidate is the text of a match, so candidates exist only when the
      pattern's `search` succeeds. */
  lemma {:induction false} CandidatesNeedMatch(s: string, from: nat)
    requires from <= |s| && CardCandidates(s, from) != []
    ensures Search(CardNumber, s, from)
    decreases |s| - from
  {
    if CardAt(s, from).None? {
      CandidatesNeedMatch(s, from + 1);
    }
  }

  /** The card violation is reported exactly when some candidate of the card pattern has
      sixteen digits with a valid Luhn checksum once its separators are removed. */
  lemma CardReportedIff(text: string)
    ensures CreditCard in Classify(text) <==> exists c | c in CardCandidates(text, 0) :: CardNumberOk(c)
  {
    ClassifyMembers(text, CreditCard);
    CardDetectorIff(text);
  }

  lemma CardDetectorIff(text: string)
    ensures Search(CardNumber, text, 0) && (exists c | c in CardCandidates(text, 0) :: CardNumberOk(c))
        <==> exists c | c in CardCandidates(text, 0) :: CardNumberOk(c)
  {
    if CardCandidates(text, 0) != [] {
      CandidatesNeedMatch(text, 0);
    }
  }

  // ---------------------------------------------------------------------------
  // Queries no detector fires on

  /** Every digit pattern starts on a digit at a word boundary and spans ten characters or
      more. */
  lemma PatternStart(p: DigitPattern, s: string, i: nat)
    requires i <= |s| && PatternAt(p, s, i)
    ensures i < |s| && IsDigit(s[i]) && BoundaryBefore(s, i) && i + 10 <= |s|
  {
    match p
    case NikNumber =>
    case AccountNumber =>
    case CardNumber =>
      var e :| GroupsEnd(s, i, CardSizes, CardSeparators) == Some(e);
    case NpwpNumber =>
      var e :| GroupsEnd(s, i, NpwpSizes, NpwpSeparators) == Some(e);
  }

  /** No index where a digit pattern could start: a digit at a word boundary with ten
      characters left. */
  predicate NoDigitStart(s: string) {
    forall j | 0 <= j < |s| :: !(IsDigit(s[j]) && BoundaryBefore(s, j) && j + 10 <= |s|)
  }

  lemma NoDigitPattern(p: DigitPattern, s: string)
    requires NoDigitStart(s)
    ensures !Search(p, s, 0)
  {
    SearchIff(p, s, 0);
    forall j | 0 <= j <= |s| ensures !PatternAt(p, s, j) {
      if PatternAt(p, s, j) {
        PatternStart(p, s, j);
      }
    }
  }

  /** The lower-cased characters of the ordinary queries below: digits, the dot and the
      letters c-e, g, h, j and l-p. */
  predicate QueryChar(c: char) {
    c == '.' || IsDigit(c) || 'c' <= c <= 'e' || 'g' <= c <= 'h' || c == 'j' || 'l' <= c <= 'p'
  }

  /** One of the first five characters of `w` is not a `QueryChar`. */
  predicate EscapesEarly(w: string) {
    (|w| > 0 && !QueryChar(w[0])) || (|w| > 1 && !QueryChar(w[1]))
    || (|w| > 2 && !QueryChar(w[2])) || (|w| > 3 && !QueryChar(w[3]))
    || (|w| > 4 && !QueryChar(w[4]))
  }

  /** A term that cannot be written with `QueryChar`s. */
  predicate Unwritable(t: Term) {
    match t
    case Word(w) => EscapesEarly(w)
    case Span(a, b, _) => EscapesEarly(a) || EscapesEarly(b)
  }

  /** Every term of the family is `Unwritable`. */
  predicate AllUnwritable(family: seq<Term>) {
    forall k | 0 <= k < |family| :: Unwritable(family[k])
  }

  lemma NoOccurrence(s: string, w: string, i: nat)
    requires forall c | c in s :: QueryChar(c)
    requires EscapesEarly(w)
    ensures !OccursAt(s, w, i)
  {
  }

  lemma {:induction false} NoTail(s: string, b: string, closed: bool, j: nat)
    requires j <= |s|
    requires forall c | c in s :: QueryChar(c)
    requires EscapesEarly(b)
    ensures !TailFrom(s, b, closed, j)
    decreases |s| - j
  {
    NoOccurrence(s, b, j);
    if j < |s| {
      NoTail(s, b, closed, j + 1);
    }
  }

  lemma NoTermAt(s: string, t: Term, j: nat)
    requires j <= |s|
    requires forall c | c in s :: QueryChar(c)
    requires Unwritable(t)
    ensures !TermAt(s, t, j)
  {
    match t
    case Word(w) =>
      NoOccurrence(s, w, j);
    case Span(a, b, closed) =>
      if EscapesEarly(a) {
        NoOccurrence(s, a, j);
      } else if j + |a| <= |s| {
        NoTail(s, b, closed, j + |a|);
      }
  }

  lemma LowerAlphabet(text: string)
    requires forall c | c in text :: QueryChar(LowerChar(c))
    ensures forall c | c in Lower(text) :: QueryChar(c)
  {
    forall c | c in Lower(text) ensures QueryChar(c) {
      var k :| 0 <= k < |text| && Lower(text)[k] == c;
      assert text[k] in text;
    }
  }

  /** A family none of whose terms can be written in the text's alphabet never matches. */
  lemma FamilySilent(text: string, family: seq<Term>)
    requires forall c | c in text :: QueryChar(LowerChar(c))
    requires AllUnwritable(family)
    ensures !FamilyMatches(text, family)
  {
    LowerAlphabet(text);
    FamilyMatchesIff(text, family);
    forall j, t | 0 <= j <= |text| && t in family ensures !TermAt(Lower(text), t, j) {
      var k :| 0 <= k < |family| && family[k] == t;
      NoTermAt(Lower(text), t, j);
    }
  }

  /** A text with no possible digit-pattern start, and whose lower-cased characters write
      no keyword term, is let through. */
  lemma Quiet(text: string)
    requires NoDigitStart(text)
    requires forall c | c in text :: QueryChar(LowerChar(c))
    requires AllUnwritable(KtpTerms)
    requires AllUnwritable(BankTerms)
    requires AllUnwritable(CriminalTerms)
    requires AllUnwritable(CredentialTerms)
    requires AllUnwritable(BiometricTerms)
    requires AllUnwritable(ProprietaryTerms)
    requires AllUnwritable(LawEnforcementTerms)
    ensures Classify(text) == []
  {
    NoDigitPattern(NikNumber, text);
    NoDigitPattern(AccountNumber, text);
    NoDigitPattern(CardNumber, text);
    NoDigitPattern(NpwpNumber, text);
    FamilySilent(text, KtpTerms);
    FamilySilent(text, BankTerms);
    FamilySilent(text, CriminalTerms);
    FamilySilent(text, CredentialTerms);
    FamilySilent(text, BiometricTerms);
    FamilySilent(text, ProprietaryTerms);
    FamilySilent(text, LawEnforcementTerms);
    ClassifyEmptyIff(text);
  }

  lemma DigitFreeNoStart(s: string)
    requires forall c | c in s :: !IsDigit(c)
    ensures NoDigitStart(s)
  {
    forall j | 0 <= j < |s| ensures !IsDigit(s[j]) {
      assert s[j] in s;
    }
  }

  /** In a single word no digit but the first can start one, since every other character
      follows a word character. */
  lemma OneWordNoStart(s: string)
    requires s != [] && !IsDigit(s[0])
    requires forall c | c in s :: IsWordChar(c)
    ensures NoDigitStart(s)
  {
    forall j | 0 < j < |s| ensures !BoundaryBefore(s, j) {
      assert s[j - 1] in s;
    }
  }

  lemma KtpTermsUnwritable()
    ensures AllUnwritable(KtpTerms)
  {
  }

  lemma BankTermsUnwritable()
    ensures AllUnwritable(BankTerms)
  {
  }

  lemma CriminalTermsUnwritable()
    ensures AllUnwritable(CriminalTerms)
  {
  }

  lemma CredentialTermsUnwritable()
    ensures AllUnwritable(CredentialTerms)
  {
  }

  lemma BiometricTermsUnwritable()
    ensures AllUnwritable(BiometricTerms)
  {
  }

  lemma ProprietaryTermsUnwritable()
    ensures AllUnwritable(ProprietaryTerms)
  {
  }

  lemma LawEnforcementTermsUnwritable()
    ensures AllUnwritable(LawEnforcementTerms)
  {
  }

  /** An IP address, a domain, a username, a parcel number and a short number are let
      through. */
  lemma OrdinaryQueriesPass(text: string)
    requires text in ["8.8.8.8", "google.com", "johndoe", "JP1234567890", "12345"]
    ensures Classify(text) == []
  {
    KtpTermsUnwritable();
    BankTermsUnwritable();
    CriminalTermsUnwritable();
    CredentialTermsUnwritable();
    BiometricTermsUnwritable();
    ProprietaryTermsUnwritable();
    LawEnforcementTermsUnwritable();
    if text == "google.com" || text == "johndoe" {
      DigitFreeNoStart(text);
    } else if text == "JP1234567890" {
      OneWordNoStart(text);
    }
    Quiet(text);
  }

  // ---------------------------------------------------------------------------
  // get_warning_message and filter_message

  const Headline := "PELANGGARAN TERDETEKSI"

  const EthicsCommand := "/ethics"

  const HeadOpen := "\n\U{1F6AB} <b>"

  const HeadClose := "</b>\n\nQuery Anda mengandung data sensitif yang dilarang:\n"

  /** The warning's lines above the violation list, up to the newline before it. */
  const WarningHead := HeadOpen + Headline + HeadClose

  /** What the bot refuses to touch and the laws at stake. */
  const FootBody :=
    "\n<b>Bot ini TIDAK DAPAT dan TIDAK AKAN mengakses:</b>\n"
    + "\U{274C} Data pribadi sensitif (NIK/KTP, data bank, NPWP)\n"
    + "\U{274C} Rekam kriminal atau data penegak hukum\n"
    + "\U{274C} Akun email target atau password\n"
    + "\U{274C} Face recognition atau identifikasi biometrik\n"
    + "\U{274C} Data internal yang dilindungi atau proprietary\n"
    + "\n<b>PERINGATAN HUKUM:</b>\n"
    + "Penggunaan bot untuk mengakses data sensitif tanpa izin melanggar:\n"
    + "\U{2022} UU Perlindungan Data Pribadi (UU PDP)\n"
    + "\U{2022} UU Informasi dan Transaksi Elektronik (UU ITE)\n"
    + "\U{2022} Peraturan internasional (GDPR, dll)\n"
    + "\nAktivitas ini telah dicatat dalam audit log.\n"
    + "\nGunakan "

  const FootClose := " untuk memahami penggunaan yang legitimate.\n"

  /** The warning's lines below the violation list, from the one after the newline that
      follows it, ending with the reference to the `/ethics` guide. */
  const WarningFoot := FootBody + EthicsCommand + FootClose

  /** The bullet line of each violation, in order. */
  function Bullets(violations: seq<string>): (lines: seq<string>)
    ensures |lines| == |violations|
    ensures forall i :: 0 <= i < |violations| ==> lines[i] == "\U{2022} " + violations[i]
  {
    seq(|violations|, i requires 0 <= i < |violations| => "\U{2022} " + violations[i])
  }

  /** `SensitiveDataDetector.get_warning_message`. */
  function WarningMessage(violations: seq<string>): (w: string)
    ensures |w| >= |WarningHead| + |WarningFoot|
    ensures w[..|WarningHead|] == WarningHead
    ensures w[|w| - |WarningFoot|..] == WarningFoot
  {
    var list := "\n" + Join("\n", Bullets(violations)) + "\n";
    FramedBy(WarningHead, list, WarningFoot);
    WarningHead + list + WarningFoot
  }

  /** The descriptions the source puts in its violation list. */
  function Descriptions(violations: seq<Violation>): (texts: seq<string>)
    ensures |texts| == |violations|
    ensures forall i :: 0 <= i < |violations| ==> texts[i] == violations[i].Description()
  {
    seq(|violations|, i requires 0 <= i < |violations| => violations[i].Description())
  }

  /** Every warning names the violation headline and the `/ethics` command. */
  lemma WarningMentions(violations: seq<string>)
    ensures Contains(WarningMessage(violations), Headline)
    ensures Contains(WarningMessage(violations), EthicsCommand)
  {
    var middle := "\n" + Join("\n", Bullets(violations)) + "\n";
    ContainsMiddle(HeadOpen, Headline, HeadClose);
    ContainsAppend(WarningHead, middle, Headline);
    ContainsAppend(WarningHead + middle, WarningFoot, Headline);
    ContainsMiddle(FootBody, EthicsCommand, FootClose);
    ContainsPrepend(WarningHead + middle, WarningFoot, EthicsCommand);
  }

  /** The warning's lines are its head lines, one bullet line per violation in the given
      order, and its foot lines. */
  lemma WarningLines(violations: seq<string>)
    requires violations != []
    requires forall v :: v in violations ==> '\n' !in v
    ensures Split(WarningMessage(violations), '\n')
         == Split(WarningHead, '\n') + Bullets(violations) + Split(WarningFoot, '\n')
  {
    var lines := Bullets(violations);
    forall p | p in lines ensures '\n' !in p {
      var i :| 0 <= i < |lines| && lines[i] == p;
      assert violations[i] in violations;
    }
    assert "\n" == ['\n'];
    SplitAround(WarningHead, lines, WarningFoot, '\n');
  }

  /** `SensitiveDataFilter.filter_message`: a query without violations passes with an
      empty warning; any other is blocked with the warning that lists its violations. */
  method FilterMessage(text: string) returns (allowed: bool, warning: string)
    ensures allowed <==> Classify(text) == []
    ensures allowed ==> warning == ""
    ensures !allowed ==> warning == WarningMessage(Descriptions(Classify(text)))
    ensures allowed <==> warning == ""
  {
    var isSensitive, violations := CheckInput(text);
    if isSensitive {
      allowed, warning := false, WarningMessage(Descriptions(violations));
    } else {
      allowed, warning := true, "";
    }
  }

  // ---------------------------------------------------------------------------
  // Card candidates

  lemma {:induction false} RemoveAppend(a: string, b: string)
    ensures RemoveCardSeparators(a + b) == RemoveCardSeparators(a) + RemoveCardSeparators(b)
  {
    if a != [] {
      assert (a + b)[1..] == a[1..] + b;
      RemoveAppend(a[1..], b);
    } else {
      assert a + b == b;
    }
  }

  lemma {:induction false} RemoveKeepsDigits(s: string)
    requires AllDigits(s)
    ensures RemoveCardSeparators(s) == s
  {
    if s != [] {
      RemoveKeepsDigits(s[1..]);
    }
  }

  /** Removing the separators from a digit group, an optional separator and the rest. */
  lemma RemoveAcross(s: string, p: nat, q: nat, next: nat, e: nat)
    requires p <= q <= next <= e <= |s| && next <= q + 1
    requires AllDigits(s[p..q]) && (next == q + 1 ==> IsDashOrSpace(s[q]))
    ensures RemoveCardSeparators(s[p..e]) == s[p..q] + RemoveCardSeparators(s[next..e])
  {
    RemoveKeepsDigits(s[p..q]);
    assert s[p..e] == s[p..q] + s[q..next] + s[next..e];
    RemoveAppend(s[p..q] + s[q..next], s[next..e]);
    RemoveAppend(s[p..q], s[q..next]);
    if next == q + 1 {
      assert RemoveCardSeparators(s[q..next]) == [];
    } else {
      assert s[q..next] == [];
    }
  }

  /** The text between `p` and the end of a run of dash-or-space separated groups is the
      digits of the groups once the separators are removed. */
  lemma {:induction false} GroupsDigits(s: string, p: nat, sizes: seq<nat>, seps: seq<Separators>, e: nat)
    requires p <= |s| && |sizes| == |seps| + 1
    requires forall k :: 0 <= k < |seps| ==> seps[k] == DashOrSpace
    requires GroupsEnd(s, p, sizes, seps) == Some(e)
    ensures var d := RemoveCardSeparators(s[p..e]); |d| == Total(sizes) && AllDigits(d)
    decreases |seps|
  {
    var q := p + sizes[0];
    if seps == [] {
      RemoveKeepsDigits(s[p..q]);
    } else {
      var next := if q < |s| && Separates(s[q], seps[0]) then q + 1 else q;
      GroupsDigits(s, next, sizes[1..], seps[1..], e);
      assert AllDigits(s[p..q]);
      RemoveAcross(s, p, q, next, e);
      DigitsAppend(s[p..q], RemoveCardSeparators(s[next..e]));
    }
  }

  lemma DigitsAppend(a: string, b: string)
    requires AllDigits(a) && AllDigits(b)
    ensures AllDigits(a + b)
  {
  }

  /** Every candidate `findall` yields has exactly sixteen digits once its separators are
      removed, so the source's length test never rejects one. */
  lemma {:induction false} CandidatesAreSixteenDigits(s: string, from: nat)
    requires from <= |s|
    ensures forall c :: c in CardCandidates(s, from) ==>
      |RemoveCardSeparators(c)| == 16 && AllDigits(RemoveCardSeparators(c))
    decreases |s| - from
  {
    if from < |s| {
      match CardAt(s, from)
      case Some(e) =>
        CardDigits();
        GroupsDigits(s, from, CardSizes, CardSeparators, e);
        CandidatesAreSixteenDigits(s, e);
      case None =>
        CandidatesAreSixteenDigits(s, from + 1);
    }
  }
}
