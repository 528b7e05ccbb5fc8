/** Python string operations the core relies on, restricted to what the model needs:
    character classes, ASCII case mapping, `strip`, `split(sep)`, `join`, substring search
    and decimal rendering of naturals. */
module Text {

  /** `\d` and `str.isdigit`, restricted to ASCII digits. */
  predicate IsDigit(c: char) { '0' <= c <= '9' }

  predicate IsLower(c: char) { 'a' <= c <= 'z' }

  predicate IsUpper(c: char) { 'A' <= c <= 'Z' }

  predicate IsAlnum(c: char) { IsDigit(c) || IsLower(c) || IsUpper(c) }

  /** `\w` in a regular expression: letters, digits and the underscore (ASCII part). */
  predicate IsWordChar(c: char) { IsAlnum(c) || c == '_' }

  /** Python's `str.isspace`, which is also what `\s` and `strip()` use: the
      whitespace, separator and Zs characters of Unicode. */
  predicate IsSpace(c: char) {
    c == ' ' || ('\t' <= c <= '\r') || ('\U{1C}' <= c <= '\U{1F}') || c == '\U{85}'
    || c == '\U{A0}' || c == '\U{1680}' || ('\U{2000}' <= c <= '\U{200A}')
    || c == '\U{2028}' || c == '\U{2029}' || c == '\U{202F}' || c == '\U{205F}' || c == '\U{3000}'
  }

  predicate AllDigits(s: string) { forall i :: 0 <= i < |s| ==> IsDigit(s[i]) }

  function LowerChar(c: char): char { if IsUpper(c) then (c as int + 32) as char else c }

  function UpperChar(c: char): char { if IsLower(c) then (c as int - 32) as char else c }

  /** `str.lower()` on the ASCII letters. */
  function Lower(s: string): (r: string)
    ensures |r| == |s|
    ensures forall i :: 0 <= i < |s| ==> r[i] == LowerChar(s[i])
  {
    seq(|s|, i requires 0 <= i < |s| => LowerChar(s[i]))
  }

  /** `str.upper()` on the ASCII letters. */
  function Upper(s: string): (r: string)
    ensures |r| == |s|
    ensures forall i :: 0 <= i < |s| ==> r[i] == UpperChar(s[i])
  {
    seq(|s|, i requires 0 <= i < |s| => UpperChar(s[i]))
  }

  lemma LowerHasNoUpper(s: string)
    ensures forall i :: 0 <= i < |s| ==> !IsUpper(Lower(s)[i])
  {
  }

  lemma UpperHasNoLower(s: string)
    ensures forall i :: 0 <= i < |s| ==> !IsLower(Upper(s)[i])
  {
  }

  /** `p` occurs in `s` starting at index `i`. */
  predicate OccursAt(s: string, p: string, i: int) {
    0 <= i && i + |p| <= |s| && s[i..i + |p|] == p
  }

  /** `p` occurs in `s` at index `i` or later: the left-to-right scan behind `str.find`. */
  predicate ContainsFrom(s: string, p: string, i: nat)
    requires i <= |s|
    decreases |s| - i
  {
    OccursAt(s, p, i) || (i < |s| && ContainsFrom(s, p, i + 1))
  }

  /** Python's `p in s` for strings. */
  predicate Contains(s: string, p: string) {
    ContainsFrom(s, p, 0)
  }

  lemma {:induction false} ContainsFromIff(s: string, p: string, i: nat)
    requires i <= |s|
    ensures ContainsFrom(s, p, i) <==> exists j | i <= j <= |s| :: OccursAt(s, p, j)
    decreases |s| - i
  {
    if i < |s| {
      ContainsFromIff(s, p, i + 1);
    }
  }

  /** `p in s` holds exactly when `p` occurs at some index of `s`. */
  lemma ContainsIff(s: string, p: string)
    ensures Contains(s, p) <==> exists j | 0 <= j <= |s| :: OccursAt(s, p, j)
  {
    ContainsFromIff(s, p, 0);
  }

  /** Every part of a joined list occurs in the joined text. */
  lemma {:induction false} JoinContains(sep: string, parts: seq<string>, i: nat)
    requires i < |parts|
    ensures Contains(Join(sep, parts), parts[i])
    decreases |parts|
  {
    if |parts| == 1 {
      ContainsMiddle([], parts[0], []);
      assert [] + parts[0] + [] == parts[0];
    } else if i == 0 {
      ContainsMiddle([], parts[0], sep + Join(sep, parts[1..]));
      assert [] + parts[0] + (sep + Join(sep, parts[1..])) == Join(sep, parts);
    } else {
      JoinContains(sep, parts[1..], i - 1);
      ContainsPrepend(parts[0] + sep, Join(sep, parts[1..]), parts[i]);
      assert parts[0] + sep + Join(sep, parts[1..]) == Join(sep, parts);
    }
  }

  /** Text added after a string keeps what it contains. */
  lemma ContainsAppend(s: string, b: string, p: string)
    requires Contains(s, p)
    ensures Contains(s + b, p)
  {
    ContainsIff(s, p);
    var j :| 0 <= j <= |s| && OccursAt(s, p, j);
    assert OccursAt(s + b, p, j) by {
      assert (s + b)[j..j + |p|] == s[j..j + |p|];
    }
    ContainsIff(s + b, p);
  }

  /** Text added before a string keeps what it contains. */
  lemma ContainsPrepend(a: string, s: string, p: string)
    requires Contains(s, p)
    ensures Contains(a + s, p)
  {
    ContainsIff(s, p);
    var j :| 0 <= j <= |s| && OccursAt(s, p, j);
    assert OccursAt(a + s, p, |a| + j) by {
      assert (a + s)[|a| + j..|a| + j + |p|] == s[j..j + |p|];
    }
    ContainsIff(a + s, p);
  }

  /** A string contains each of its middle parts. */
  lemma ContainsMiddle(a: string, p: string, b: string)
    ensures Contains(a + p + b, p)
  {
    assert OccursAt(a + p + b, p, |a|) by {
      assert (a + p + b)[|a|..|a| + |p|] == p;
    }
    ContainsIff(a + p + b, p);
  }

  /** A string that lacks one of the characters of `p` cannot contain `p`. */
  lemma MissingCharNotContained(s: string, p: string, c: char)
    requires c in p && c !in s
    ensures !Contains(s, p)
  {
    ContainsIff(s, p);
    forall i | 0 <= i <= |s| ensures !OccursAt(s, p, i) {
      var k :| 0 <= k < |p| && p[k] == c;
      assert i + k < |s| ==> s[i + k] != c;
    }
  }

  /** A concatenation starts with its first part and ends with its last. */
  lemma FramedBy<T>(a: seq<T>, b: seq<T>, c: seq<T>)
    ensures |a + b + c| >= |a| + |c|
    ensures (a + b + c)[..|a|] == a
    ensures (a + b + c)[|a + b + c| - |c|..] == c
  {
  }

  lemma AppendAssociative<T>(a: seq<T>, b: seq<T>, c: seq<T>)
    ensures (a + b) + c == a + (b + c)
  {
  }

  // ---------------------------------------------------------------------------
  // strip()

  /** `s` without its leading whitespace. */
  function TrimLeft(s: string): string {
    if s != [] && IsSpace(s[0]) then TrimLeft(s[1..]) else s
  }

  /** `s` without its trailing whitespace. */
  function TrimRight(s: string): string {
    if s != [] && IsSpace(s[|s| - 1]) then TrimRight(s[..|s| - 1]) else s
  }

  /** `TrimLeft` removes a prefix of whitespace and leaves a non-space first. */
  lemma {:induction false} TrimLeftSpec(s: string)
    ensures var r := TrimLeft(s);
      |r| <= |s| && r == s[|s| - |r|..] && (r == [] || !IsSpace(r[0]))
    ensures forall i :: 0 <= i < |s| - |TrimLeft(s)| ==> IsSpace(s[i])
  {
    if s != [] && IsSpace(s[0]) {
      TrimLeftSpec(s[1..]);
      forall i | 1 <= i < |s| - |TrimLeft(s)| ensures IsSpace(s[i]) {
        assert s[i] == s[1..][i - 1];
      }
    }
  }

  /** `TrimRight` removes a suffix of whitespace and leaves a non-space last. */
  lemma {:induction false} TrimRightSpec(s: string)
    ensures var r := TrimRight(s);
      |r| <= |s| && r == s[..|r|] && (r == [] || !IsSpace(r[|r| - 1]))
    ensures forall i :: |TrimRight(s)| <= i < |s| ==> IsSpace(s[i])
  {
    if s != [] && IsSpace(s[|s| - 1]) {
      TrimRightSpec(s[..|s| - 1]);
      forall i | |TrimRight(s)| <= i < |s| - 1 ensures IsSpace(s[i]) {
        assert s[i] == s[..|s| - 1][i];
      }
    }
  }

  /** Python's `str.strip()` with no argument. */
  function Strip(s: string): string {
    TrimRight(TrimLeft(s))
  }

  /** `Strip(s)` is the slice of `s` left once its leading and trailing whitespace is
      removed: it starts and ends with a non-space, and everything cut off is space. */
  lemma StripSpec(s: string)
    ensures var r := Strip(s);
      exists lo: nat, hi: nat {:trigger s[lo..hi]} :: lo <= hi <= |s| && r == s[lo..hi]
        && (forall i :: 0 <= i < lo ==> IsSpace(s[i]))
        && (forall i :: hi <= i < |s| ==> IsSpace(s[i]))
    ensures Strip(s) == [] || (!IsSpace(Strip(s)[0]) && !IsSpace(Strip(s)[|Strip(s)| - 1]))
  {
    var lo, hi := StripBounds(s);
    StripEnds(s);
  }

  lemma StripBounds(s: string) returns (lo: nat, hi: nat)
    ensures lo <= hi <= |s| && Strip(s) == s[lo..hi]
    ensures forall i :: 0 <= i < lo ==> IsSpace(s[i])
    ensures forall i :: hi <= i < |s| ==> IsSpace(s[i])
  {
    var t := TrimLeft(s);
    TrimLeftSpec(s);
    lo := |s| - |t|;
    var r := TrimRight(t);
    TrimRightSpec(t);
    hi := lo + |r|;
    assert t == s[lo..];
    assert r == t[..|r|];
    forall i | hi <= i < |s| ensures IsSpace(s[i]) {
      assert s[i] == t[i - lo];
    }
  }

  lemma StripEnds(s: string)
    ensures Strip(s) == [] || (!IsSpace(Strip(s)[0]) && !IsSpace(Strip(s)[|Strip(s)| - 1]))
  {
    var t := TrimLeft(s);
    var r := TrimRight(t);
    TrimLeftSpec(s);
    TrimRightSpec(t);
    if r != [] {
      assert r[0] == t[0];
    }
  }

  /** Text that starts with a non-space is not blank. */
  lemma StripNotBlank(s: string)
    requires s != [] && !IsSpace(s[0])
    ensures Strip(s) != []
  {
    assert TrimLeft(s) == s;
    TrimRightSpec(s);
  }

  /** A character between two non-space characters survives `Strip`. */
  lemma StripKeepsInner(s: string, i: int, j: int, k: int)
    requires 0 <= i < j < k < |s| && !IsSpace(s[i]) && !IsSpace(s[k])
    ensures s[j] in Strip(s)
  {
    var t := TrimLeft(s);
    TrimLeftSpec(s);
    var lo := |s| - |t|;
    assert lo <= i;
    assert t[k - lo] == s[k] && t[j - lo] == s[j];
    var r := TrimRight(t);
    TrimRightSpec(t);
    assert k - lo < |r|;
    assert r[j - lo] == s[j];
    assert Strip(s) == r;
    assert r[j - lo] in r;
  }

  /** A string is blank (`not s.strip()`) exactly when every character is whitespace. */
  lemma StripEmptyIffBlank(s: string)
    ensures Strip(s) == [] <==> forall i :: 0 <= i < |s| ==> IsSpace(s[i])
  {
    var t := TrimLeft(s);
    TrimLeftSpec(s);
    TrimRightSpec(t);
    if Strip(s) == [] {
      assert t == [];
    } else {
      var r := Strip(s);
      assert r[0] == t[0] == s[|s| - |t|];
    }
  }

  // ---------------------------------------------------------------------------
  // split(sep) and join

  /** Number of occurrences of the character `c` in `s`. */
  function CountChar(s: string, c: char): nat {
    if s == [] then 0 else (if s[0] == c then 1 else 0) + CountChar(s[1..], c)
  }

  /** Index of the first `c` in `s`, or `|s|` when there is none. */
  function IndexOf(s: string, c: char): (k: nat)
    ensures k <= |s|
    ensures forall i :: 0 <= i < k ==> s[i] != c
    ensures k < |s| ==> s[k] == c
  {
    if s == [] then 0 else if s[0] == c then 0 else 1 + IndexOf(s[1..], c)
  }

  /** Python's `s.split(sep)` for a one-character separator: the pieces between the
      separators, one more piece than there are separators, empty pieces kept. */
  function Split(s: string, sep: char): (parts: seq<string>)
    ensures |parts| >= 1
    ensures forall p :: p in parts ==> sep !in p
    decreases |s|
  {
    var k := IndexOf(s, sep);
    if k == |s| then [s] else [s[..k]] + Split(s[k + 1..], sep)
  }

  /** Python's `sep.join(parts)`. */
  function Join(sep: string, parts: seq<string>): string {
    if parts == [] then "" else if |parts| == 1 then parts[0] else parts[0] + sep + Join(sep, parts[1..])
  }

  lemma {:induction false} CountCharAppend(a: string, b: string, c: char)
    ensures CountChar(a + b, c) == CountChar(a, c) + CountChar(b, c)
  {
    if a != [] {
      assert (a + b)[1..] == a[1..] + b;
      CountCharAppend(a[1..], b, c);
    } else {
      assert a + b == b;
    }
  }

  lemma {:induction false} CountCharAbsent(s: string, c: char)
    requires c !in s
    ensures CountChar(s, c) == 0
  {
    if s != [] {
      CountCharAbsent(s[1..], c);
    }
  }

  /** `split` yields exactly one more piece than there are separators. */
  lemma {:induction false} SplitCount(s: string, sep: char)
    ensures |Split(s, sep)| == CountChar(s, sep) + 1
    decreases |s|
  {
    var k := IndexOf(s, sep);
    if k == |s| {
      assert sep !in s;
      CountCharAbsent(s, sep);
    } else {
      SplitCount(s[k + 1..], sep);
      assert s == s[..k] + [sep] + s[k + 1..];
      assert sep !in s[..k];
      CountCharAbsent(s[..k], sep);
      CountCharAppend(s[..k], [sep], sep);
      CountCharAppend(s[..k] + [sep], s[k + 1..], sep);
    }
  }

  /** Joining the pieces of a split with the separator gives back the original string. */
  lemma {:induction false} JoinSplit(s: string, sep: char)
    ensures Join([sep], Split(s, sep)) == s
    decreases |s|
  {
    var k := IndexOf(s, sep);
    if k < |s| {
      var rest := Split(s[k + 1..], sep);
      JoinSplit(s[k + 1..], sep);
      assert Split(s, sep) == [s[..k]] + rest;
      assert (Split(s, sep))[1..] == rest;
      assert s == s[..k] + [sep] + s[k + 1..];
    }
  }

  /** A string without the separator splits into itself alone. */
  lemma SplitWithout(s: string, sep: char)
    requires sep !in s
    ensures Split(s, sep) == [s]
  {
  }

  /** Splitting at a separator between `a` and `b` splits `a` and `b` on their own. */
  lemma {:induction false} SplitConcat(a: string, b: string, sep: char)
    ensures Split(a + [sep] + b, sep) == Split(a, sep) + Split(b, sep)
    decreases |a|
  {
    var s := a + [sep] + b;
    var k := IndexOf(a, sep);
    assert IndexOf(s, sep) == k by {
      assert s[k] == sep;
    }
    if k == |a| {
      assert s[..k] == a && s[k + 1..] == b;
      SplitWithout(a, sep);
    } else {
      assert s[..k] == a[..k];
      assert s[k + 1..] == a[k + 1..] + [sep] + b;
      SplitConcat(a[k + 1..], b, sep);
    }
  }

  /** Splitting a join gives back the pieces when no piece holds the separator. */
  lemma {:induction false} SplitJoin(parts: seq<string>, sep: char)
    requires parts != []
    requires forall p :: p in parts ==> sep !in p
    ensures Split(Join([sep], parts), sep) == parts
    decreases |parts|
  {
    var head := parts[0];
    SplitWithout(head, sep);
    if |parts| > 1 {
      var tail := parts[1..];
      assert forall p :: p in tail ==> p in parts;
      SplitJoin(tail, sep);
      assert Join([sep], parts) == head + [sep] + Join([sep], tail);
      SplitConcat(head, Join([sep], tail), sep);
      assert parts == [head] + tail;
    }
  }

  /** Joined parts framed by a separator on each side split back into the head's parts,
      the parts themselves, and the foot's parts. */
  lemma SplitAround(head: string, parts: seq<string>, foot: string, sep: char)
    requires parts != []
    requires forall p :: p in parts ==> sep !in p
    ensures Split(head + ([sep] + Join([sep], parts) + [sep]) + foot, sep)
         == Split(head, sep) + parts + Split(foot, sep)
  {
    var body := Join([sep], parts);
    var rest := body + [sep] + foot;
    assert head + ([sep] + body + [sep]) + foot == head + [sep] + rest by {
      assert ([sep] + body + [sep]) + foot == [sep] + rest;
    }
    calc {
      Split(head + [sep] + rest, sep);
    == { SplitConcat(head, rest, sep); }
      Split(head, sep) + Split(rest, sep);
    == { SplitConcat(body, foot, sep); }
      Split(head, sep) + (Split(body, sep) + Split(foot, sep));
    == { SplitJoin(parts, sep); }
      Split(head, sep) + (parts + Split(foot, sep));
    }
  }

  // ---------------------------------------------------------------------------
  // Decimal numerals

  function DigitChar(d: nat): char
    requires d < 10
  {
    ('0' as int + d) as char
  }

  function DigitValue(c: char): nat
    requires IsDigit(c)
  {
    c as int - '0' as int
  }

  /** Python's `str(n)` for a natural number: no leading zeros. */
  function NatToString(n: nat): (s: string)
    ensures |s| >= 1 && AllDigits(s)
    ensures n >= 10 ==> s[0] != '0'
  {
    if n < 10 then [DigitChar(n)] else NatToString(n / 10) + [DigitChar(n % 10)]
  }

  /** The value of a string of decimal digits, leading zeros allowed (`int(s)`). */
  function DecimalValue(s: string): nat
    requires AllDigits(s)
  {
    if s == [] then 0 else 10 * DecimalValue(s[..|s| - 1]) + DigitValue(s[|s| - 1])
  }

  /** Reading back a rendered natural gives the natural. */
  lemma {:induction false} DecimalValueOfNatToString(n: nat)
    ensures DecimalValue(NatToString(n)) == n
  {
    var s := NatToString(n);
    if n >= 10 {
      DecimalValueOfNatToString(n / 10);
      assert s[..|s| - 1] == NatToString(n / 10);
    }
  }

  /** Zeros in front do not change the value of a numeral. */
  lemma {:induction false} DecimalValueLeadingZero(s: string)
    requires AllDigits(s)
    ensures AllDigits("0" + s) && DecimalValue("0" + s) == DecimalValue(s)
    decreases |s|
  {
    if s != [] {
      DecimalValueLeadingZero(s[..|s| - 1]);
      assert ("0" + s)[..|"0" + s| - 1] == "0" + s[..|s| - 1];
    }
  }

  /** Python's `f"{n:0{w}d}"`: the numeral of `n`, padded on the left with zeros to at
      least `w` characters. */
  function ZeroPad(s: string, w: nat): (r: string)
    ensures |r| == if |s| >= w then |s| else w
    ensures AllDigits(s) ==> AllDigits(r)
    decreases w - |s|
  {
    if |s| >= w then s else ZeroPad("0" + s, w)
  }

  lemma {:induction false} DecimalValueZeroPad(s: string, w: nat)
    requires AllDigits(s)
    ensures DecimalValue(ZeroPad(s, w)) == DecimalValue(s)
    decreases w - |s|
  {
    if |s| < w {
      DecimalValueLeadingZero(s);
      DecimalValueZeroPad("0" + s, w);
    }
  }

  /** The zero-padded numeral of `n` still reads back as `n`, so distinct numbers never
      share a padded numeral. */
  lemma PaddedNumeralValue(n: nat, w: nat)
    ensures AllDigits(ZeroPad(NatToString(n), w))
    ensures DecimalValue(ZeroPad(NatToString(n), w)) == n
  {
    DecimalValueOfNatToString(n);
    DecimalValueZeroPad(NatToString(n), w);
  }

  function Pow10(w: nat): (p: nat)
    ensures p >= 1
  {
    if w == 0 then 1 else 10 * Pow10(w - 1)
  }

  /** A natural below `10^w` has at most `w` digits. */
  lemma {:induction false} NatToStringShort(n: nat, w: nat)
    requires 1 <= w && n < Pow10(w)
    ensures |NatToString(n)| <= w
    decreases w
  {
    if n >= 10 {
      NatToStringShort(n / 10, w - 1);
    }
  }

  /** A natural below `10^w`, zero-padded to `w`, is exactly `w` digits long. */
  lemma PaddedWidth(n: nat, w: nat)
    requires 1 <= w && n < Pow10(w)
    ensures |ZeroPad(NatToString(n), w)| == w
    ensures AllDigits(ZeroPad(NatToString(n), w))
  {
    NatToStringShort(n, w);
  }

  // ---------------------------------------------------------------------------
  // Slicing and replacing

  /** Python's `s[:n]`: a negative `n` counts from the end. */
  function Take<T>(s: seq<T>, n: int): (r: seq<T>)
    ensures |r| <= |s|
    ensures 0 <= n ==> |r| == if n < |s| then n else |s|
    ensures n < 0 ==> |r| == if |s| + n > 0 then |s| + n else 0
    ensures r == s[..|r|]
  {
    if n >= 0 then (if n < |s| then s[..n] else s)
    else if |s| + n > 0 then s[..|s| + n] else []
  }

  /** `str.replace(a, b)` for single characters. */
  function ReplaceChar(s: string, a: char, b: char): (r: string)
    ensures |r| == |s|
    ensures forall i :: 0 <= i < |s| ==> r[i] == if s[i] == a then b else s[i]
  {
    seq(|s|, i requires 0 <= i < |s| => if s[i] == a then b else s[i])
  }

  /** `str.replace(c, "")`: every occurrence of `c` deleted, the rest kept in order. */
  function DeleteChar(s: string, c: char): (r: string)
    ensures |r| <= |s|
    ensures forall x :: x in r <==> x in s && x != c
  {
    if s == [] then []
    else (if s[0] == c then [] else [s[0]]) + DeleteChar(s[1..], c)
  }

  /** Python's `str(i)` for any integer. */
  function IntToString(i: int): (s: string)
    ensures |s| >= 1
    ensures i >= 0 ==> AllDigits(s)
  {
    if i < 0 then "-" + NatToString(-i) else NatToString(i)
  }

  /** `str.title()` on ASCII text: a letter is upper-cased when it follows a character that
      is not a letter (or starts the text) and lower-cased otherwise. */
  function Title(s: string): (r: string)
    ensures |r| == |s|
    ensures s != [] ==> r[0] == UpperChar(s[0])
  {
    TitleAfter(s, false)
  }

  function TitleAfter(s: string, afterLetter: bool): (r: string)
    ensures |r| == |s|
    ensures s != [] ==> r[0] == if afterLetter then LowerChar(s[0]) else UpperChar(s[0])
  {
    if s == [] then []
    else
      var c := if afterLetter then LowerChar(s[0]) else UpperChar(s[0]);
      [c] + TitleAfter(s[1..], IsLower(s[0]) || IsUpper(s[0]))
  }
}
