/** The Luhn mod-10 check-digit formula (ISO/IEC 7812-1, Annex B) that the classifier
    applies to card-number candidates. */
module Luhn {
  import opened Text

  /** A digit at an even position from the right counts doubled, less nine when the
      double reaches ten. */
  function Doubled(d: nat): (r: nat)
    requires d < 10
    ensures r < 10
  {
    if 2 * d < 10 then 2 * d else 2 * d - 9
  }

  /** The Luhn checksum, read from the rightmost digit leftwards: digits at odd positions
      (1st, 3rd, ...) count as they are, digits at even positions count `Doubled`. */
  function Checksum(s: string): nat
    requires AllDigits(s)
    decreases |s|
  {
    if s == [] then 0
    else if |s| == 1 then DigitValue(s[0])
    else Checksum(s[..|s| - 2]) + Doubled(DigitValue(s[|s| - 2])) + DigitValue(s[|s| - 1])
  }

  predicate Valid(s: string)
    requires AllDigits(s)
  {
    Checksum(s) % 10 == 0
  }

  /** The sum over the indices k, k - 2, k - 4, ... of the digits there, each `Doubled`
      when `double` holds: the slices `digits[-1::-2]` and `digits[-2::-2]`. */
  function StrideSum(s: string, k: int, double: bool): nat
    requires AllDigits(s) && k < |s|
    decreases k + 2
  {
    if k < 0 then 0
    else (if double then Doubled(DigitValue(s[k])) else DigitValue(s[k])) + StrideSum(s, k - 2, double)
  }

  lemma {:induction false} StrideSumPrefix(s: string, m: nat, k: int, double: bool)
    requires AllDigits(s) && m <= |s| && k < m
    ensures AllDigits(s[..m]) && StrideSum(s, k, double) == StrideSum(s[..m], k, double)
    decreases k + 2
  {
    if k >= 0 {
      StrideSumPrefix(s, m, k - 2, double);
    }
  }

  /** The two stride sums of the source add up to the checksum. */
  lemma {:induction false} ChecksumByStrides(s: string)
    requires AllDigits(s)
    ensures Checksum(s) == StrideSum(s, |s| - 1, false) + StrideSum(s, |s| - 2, true)
    decreases |s|
  {
    if |s| >= 2 {
      var p := s[..|s| - 2];
      ChecksumByStrides(p);
      StrideSumPrefix(s, |s| - 2, |s| - 3, false);
      StrideSumPrefix(s, |s| - 2, |s| - 4, true);
    }
  }

  /** `_luhn_check`: sums the odd-position digits, then the doubled even-position digits,
      and accepts a total divisible by ten. */
  method Check(cardNumber: string) returns (ok: bool)
    requires AllDigits(cardNumber)
    ensures ok == Valid(cardNumber)
  {
    var n := |cardNumber|;
    var checksum := 0;
    var i := n - 1;
    while i >= 0
      invariant -2 <= i < n
      invariant checksum + StrideSum(cardNumber, i, false) == StrideSum(cardNumber, n - 1, false)
    {
      checksum := checksum + DigitValue(cardNumber[i]);
      i := i - 2;
    }
    i := n - 2;
    while i >= 0
      invariant -2 <= i < n
      invariant checksum + StrideSum(cardNumber, i, true)
        == StrideSum(cardNumber, n - 1, false) + StrideSum(cardNumber, n - 2, true)
    {
      var doubled := DigitValue(cardNumber[i]) * 2;
      checksum := checksum + (if doubled < 10 then doubled else doubled - 9);
      i := i - 2;
    }
    ChecksumByStrides(cardNumber);
    ok := checksum % 10 == 0;
  }

  /** The weight a digit contributes at index `p` of a string of length `n`. */
  function Weight(n: nat, p: nat, d: nat): nat
    requires p < n && d < 10
  {
    if (n - 1 - p) % 2 == 1 then Doubled(d) else d
  }

  /** Changing one digit changes the checksum by exactly the change in that digit's weight. */
  lemma {:induction false} ChecksumOneDigitChange(s: string, t: string, p: nat)
    requires AllDigits(s) && AllDigits(t) && |s| == |t| && p < |s|
    requires forall k :: 0 <= k < |s| && k != p ==> s[k] == t[k]
    ensures Checksum(s) as int - Checksum(t) as int
         == Weight(|s|, p, DigitValue(s[p])) as int - Weight(|s|, p, DigitValue(t[p])) as int
    decreases |s|
  {
    var n := |s|;
    if n >= 2 {
      var s', t' := s[..n - 2], t[..n - 2];
      if p < n - 2 {
        ChecksumOneDigitChange(s', t', p);
        assert s[n - 2] == t[n - 2] && s[n - 1] == t[n - 1];
        assert s'[p] == s[p] && t'[p] == t[p];
        WeightTwoFurther(n, p, DigitValue(s[p]));
        WeightTwoFurther(n, p, DigitValue(t[p]));
      } else {
        assert s' == t';
      }
    }
  }

  /** Two more digits to the right leave a position's weight as it was. */
  lemma WeightTwoFurther(n: nat, p: nat, d: nat)
    requires p + 2 < n && d < 10
    ensures Weight(n, p, d) == Weight(n - 2, p, d)
  {
    assert n - 1 - p == (n - 3 - p) + 2;
  }

  /** Distinct digits keep distinct weights at every position. */
  lemma WeightsDiffer(n: nat, p: nat, a: nat, b: nat)
    requires p < n && a < 10 && b < 10 && a != b
    ensures Weight(n, p, a) != Weight(n, p, b)
  {
  }

  lemma CloseAndCongruent(x: int, y: int)
    requires -10 < x - y < 10 && x % 10 == y % 10
    ensures x == y
  {
    assert x == 10 * (x / 10) + x % 10 && y == 10 * (y / 10) + y % 10;
    assert x - y == 10 * (x / 10 - y / 10);
  }

  /** Luhn detects every single-digit error: two digit strings that differ in exactly one
      position never both pass, and never both fail with the same remainder. */
  lemma SingleDigitErrorDetected(s: string, t: string, p: nat)
    requires AllDigits(s) && AllDigits(t) && |s| == |t| && p < |s| && s[p] != t[p]
    requires forall k :: 0 <= k < |s| && k != p ==> s[k] == t[k]
    ensures Checksum(s) % 10 != Checksum(t) % 10
    ensures !(Valid(s) && Valid(t))
  {
    ChecksumOneDigitChange(s, t, p);
    WeightsDiffer(|s|, p, DigitValue(s[p]), DigitValue(t[p]));
    if Checksum(s) % 10 == Checksum(t) % 10 {
      CloseAndCongruent(Checksum(s), Checksum(t));
    }
  }

  /** The card number the classifier's tests accept. */
  lemma AcceptedNumber()
    ensures AllDigits("4539148803436467") && Valid("4539148803436467")
  {
    AcceptedNumberPrefix();
    assert "4539148803436467"[..14] == "45391488034364";
    assert "45391488034364"[..12] == "453914880343";
    assert "453914880343"[..10] == "4539148803";
    assert "4539148803"[..8] == "45391488";
  }

  lemma AcceptedNumberPrefix()
    ensures AllDigits("45391488") && Checksum("45391488") == 49
  {
    assert "45391488"[..6] == "453914";
    assert "453914"[..4] == "4539";
    assert "4539"[..2] == "45";
    assert "45"[..0] == "";
  }

  /** A sixteen-digit number the classifier's tests reject. */
  lemma RejectedNumber()
    ensures AllDigits("1234567890123456") && !Valid("1234567890123456")
  {
    RejectedNumberPrefix();
    assert "1234567890123456"[..14] == "12345678901234";
    assert "12345678901234"[..12] == "123456789012";
    assert "123456789012"[..10] == "1234567890";
    assert "1234567890"[..8] == "12345678";
  }

  lemma RejectedNumberPrefix()
    ensures AllDigits("12345678") && Checksum("12345678") == 34
  {
    assert "12345678"[..6] == "123456";
    assert "123456"[..4] == "1234";
    assert "1234"[..2] == "12";
    assert "12"[..0] == "";
  }
}
