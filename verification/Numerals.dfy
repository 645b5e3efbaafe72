/** What the number parsers accept: exactly the decimal numerals, with leading zeros, of the numbers in their range. */
module Numerals {
  import opened GoText
  import opened Sequences
  import opened Tokens

  const DIGITS := "0123456789"

  /** The decimal numeral of n. */
  function Shown(n: nat): string {
    if n < 10 then [DIGITS[n]] else Shown(n / 10) + [DIGITS[n % 10]]
  }

  function Zeros(k: nat): (s: string)
    ensures |s| == k
  {
    if k == 0 then "" else "0" + Zeros(k - 1)
  }

  ghost predicate ZeroPadded(s: string, n: nat) {
    exists k: nat :: s == Zeros(k) + Shown(n)
  }

  lemma DigitOf(d: nat)
    requires d < 10
    ensures IsDigit(DIGITS[d]) && DIGITS[d] as int - '0' as int == d
  {
  }

  lemma DigitsSnoc(s: string, d: nat)
    requires d < 10 && (s == [] || IsDigits(s))
    ensures IsDigits(s + [DIGITS[d]]) && DigitsValue(s + [DIGITS[d]]) == 10 * DigitsValue(s) + d
  {
    DigitOf(d);
    var longer := s + [DIGITS[d]];
    assert longer[..|longer| - 1] == s;
  }

  lemma {:induction false} ZerosValue(k: nat)
    ensures Zeros(k) == [] || IsDigits(Zeros(k))
    ensures (forall i :: 0 <= i < k ==> Zeros(k)[i] == '0') && DigitsValue(Zeros(k)) == 0
  {
    if k > 0 {
      ZerosValue(k - 1);
      ZerosSnoc(k - 1);
      DigitsSnoc(Zeros(k - 1), 0);
    }
  }

  lemma {:induction false} ZerosSnoc(k: nat)
    ensures Zeros(k + 1) == Zeros(k) + [DIGITS[0]]
  {
    if k > 0 {
      ZerosSnoc(k - 1);
    }
  }

  lemma {:induction false} PaddedValue(k: nat, n: nat)
    ensures IsDigits(Zeros(k) + Shown(n)) && DigitsValue(Zeros(k) + Shown(n)) == n
  {
    ZerosValue(k);
    if n < 10 {
      DigitsSnoc(Zeros(k), n);
    } else {
      PaddedValue(k, n / 10);
      DigitsSnoc(Zeros(k) + Shown(n / 10), n % 10);
      Regroup(Zeros(k), Shown(n / 10), [DIGITS[n % 10]]);
    }
  }

  lemma CharOfDigit(c: char)
    requires IsDigit(c)
    ensures 0 <= c as int - '0' as int < 10 && DIGITS[c as int - '0' as int] == c
  {
  }

  lemma LastDigit(s: string) returns (init: string, d: nat)
    requires IsDigits(s)
    ensures d < 10 && s == init + [DIGITS[d]] && |init| == |s| - 1
    ensures init == [] || IsDigits(init)
    ensures DigitsValue(s) == 10 * DigitsValue(init) + d
  {
    init, d := s[..|s| - 1], s[|s| - 1] as int - '0' as int;
    CharOfDigit(s[|s| - 1]);
  }

  lemma OneDigit(d: nat)
    requires d < 10
    ensures ZeroPadded([] + [DIGITS[d]], d)
  {
    assert [] + [DIGITS[d]] == Zeros(0) + Shown(d);
  }

  /** Every string of digits is the padded numeral of its value. */
  lemma {:induction false} DigitsArePadded(s: string)
    requires IsDigits(s)
    ensures ZeroPadded(s, DigitsValue(s))
    decreases |s|
  {
    var init, d := LastDigit(s);
    if init == [] {
      OneDigit(d);
    } else {
      DigitsArePadded(init);
      PaddedMore(init, DigitsValue(init), d);
    }
  }

  lemma PaddedMore(init: string, n: nat, d: nat)
    requires ZeroPadded(init, n) && d < 10
    ensures ZeroPadded(init + [DIGITS[d]], 10 * n + d)
  {
    var k: nat :| init == Zeros(k) + Shown(n);
    PaddedSnoc(k, n, d);
  }

  lemma PaddedSnoc(k: nat, n: nat, d: nat)
    requires d < 10
    ensures ZeroPadded(Zeros(k) + Shown(n) + [DIGITS[d]], 10 * n + d)
  {
    if n == 0 {
      ZerosSnoc(k);
      assert Zeros(k) + Shown(n) + [DIGITS[d]] == Zeros(k + 1) + Shown(d);
    } else {
      assert (10 * n + d) / 10 == n && (10 * n + d) % 10 == d;
      Regroup(Zeros(k), Shown(n), [DIGITS[d]]);
      assert Zeros(k) + Shown(n) + [DIGITS[d]] == Zeros(k) + Shown(10 * n + d);
    }
  }

  lemma DigitsMean(s: string, n: nat)
    ensures IsDigits(s) && DigitsValue(s) == n <==> ZeroPadded(s, n)
  {
    if IsDigits(s) {
      DigitsArePadded(s);
    }
    if ZeroPadded(s, n) {
      var k: nat :| s == Zeros(k) + Shown(n);
      PaddedValue(k, n);
    }
  }

  /** `strconv.ParseUint` accepts exactly the numerals below its limit. */
  lemma ParseUintMeans(s: string, limit: nat, n: nat)
    ensures ParseUint(s, limit) == Some(n) <==> n < limit && ZeroPadded(s, n)
  {
    DigitsMean(s, n);
  }

  /** `strconv.Atoi` accepts exactly the numerals of 64-bit integers, with an optional sign. */
  lemma AtoiMeans(s: string, n: int)
    ensures Atoi(s) == Some(n) <==>
            || (0 <= n < 9_223_372_036_854_775_808
                && (ZeroPadded(s, n) || (s != [] && s[0] == '+' && ZeroPadded(s[1..], n))))
            || (-9_223_372_036_854_775_808 <= n <= 0 && s != [] && s[0] == '-' && ZeroPadded(s[1..], -n))
  {
    if n >= 0 {
      DigitsMean(s, n);
    }
    if s != [] && n >= 0 {
      DigitsMean(s[1..], n);
    }
    if s != [] && n <= 0 {
      DigitsMean(s[1..], -n);
    }
  }
}
