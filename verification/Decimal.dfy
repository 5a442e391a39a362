/** Byte-wise ordering, decimal digit strings and their comparison without parsing. */
module Decimal {
  import opened Base

  datatype Ordering = Less | Equal | Greater

  function CompareInt(a: int, b: int): (r: Ordering) {
    if a < b then Less else if a == b then Equal else Greater
  }

  /** Lexicographic comparison of byte strings. */
  function CompareBytes(a: Bytes, b: Bytes): (r: Ordering) {
    if a == [] && b == [] then Equal
    else if a == [] then Less
    else if b == [] then Greater
    else if a[0] != b[0] then CompareInt(a[0], b[0])
    else CompareBytes(a[1..], b[1..])
  }

  predicate Digit(b: Byte) {
    48 <= b <= 57
  }

  predicate AllDigits(s: Bytes) {
    forall i | 0 <= i < |s| :: Digit(s[i])
  }

  function DigitValue(b: int): (n: int) {
    b - 48
  }

  /** The number a digit string denotes; the empty string denotes zero. */
  function Value(s: Bytes): (n: int)
    ensures AllDigits(s) ==> n >= 0
  {
    if s == [] then 0 else 10 * Value(s[..|s| - 1]) + DigitValue(s[|s| - 1])
  }

  function TrimZeros(s: Bytes): (r: Bytes) {
    if s != [] && s[0] == 48 then TrimZeros(s[1..]) else s
  }

  function Canonical(s: Bytes): (r: Bytes) {
    if TrimZeros(s) == [] then [48] else TrimZeros(s)
  }

  /** `compare_decimal`: trimmed length first, then bytes. */
  function Compare(left: Bytes, right: Bytes): (r: Ordering) {
    var l, r := Canonical(left), Canonical(right);
    if |l| != |r| then CompareInt(|l|, |r|) else CompareBytes(l, r)
  }

  predicate IsAtLeast(value: Bytes, minimum: Bytes) {
    Compare(value, minimum) != Less
  }

  function Pow10(n: nat): (r: nat)
    ensures r >= 1
  {
    if n == 0 then 1 else 10 * Pow10(n - 1)
  }

  lemma {:induction false} ValueOfCons(d: Byte, s: Bytes)
    ensures Value([d] + s) == DigitValue(d) * Pow10(|s|) + Value(s)
  {
    var all := [d] + s;
    if s == [] {
      assert all[..0] == [];
    } else {
      var init := s[..|s| - 1];
      assert all[..|all| - 1] == [d] + init;
      ValueOfCons(d, init);
      TenTimes(DigitValue(d), Pow10(|init|));
    }
  }

  lemma TenTimes(x: int, p: int)
    ensures 10 * (x * p) == x * (10 * p)
  {
  }

  lemma {:induction false} ValueBound(s: Bytes)
    requires AllDigits(s)
    ensures Value(s) < Pow10(|s|)
  {
    if s != [] {
      ValueBound(s[..|s| - 1]);
    }
  }

  lemma {:induction false} TrimKeepsValue(s: Bytes)
    requires AllDigits(s)
    ensures var t := TrimZeros(s); AllDigits(t) && Value(t) == Value(s) && (t != [] ==> t[0] != 48)
  {
    if s != [] && s[0] == 48 {
      TrimKeepsValue(s[1..]);
      assert s == [s[0]] + s[1..];
      ValueOfCons(48, s[1..]);
    }
  }

  lemma SameLengthStep(x: int, y: int, p: int, u: int, v: int)
    requires 0 <= u < p && 0 <= v < p && x < y
    ensures x * p + u < y * p + v
  {
    assert (x + 1) * p <= y * p;
  }

  /** On digit strings of one length, byte order is numeric order. */
  lemma {:induction false} SameLengthCompare(a: Bytes, b: Bytes)
    requires AllDigits(a) && AllDigits(b) && |a| == |b|
    ensures CompareBytes(a, b) == CompareInt(Value(a), Value(b))
  {
    if a != [] {
      var u, v := a[1..], b[1..];
      assert a == [a[0]] + u && b == [b[0]] + v;
      ValueOfCons(a[0], u);
      ValueOfCons(b[0], v);
      ValueBound(u);
      ValueBound(v);
      if a[0] < b[0] {
        SameLengthStep(DigitValue(a[0]), DigitValue(b[0]), Pow10(|u|), Value(u), Value(v));
      } else if b[0] < a[0] {
        SameLengthStep(DigitValue(b[0]), DigitValue(a[0]), Pow10(|u|), Value(v), Value(u));
      } else {
        SameLengthCompare(u, v);
      }
    }
  }

  lemma {:induction false} Pow10Monotone(m: nat, n: nat)
    requires m <= n
    ensures Pow10(m) <= Pow10(n)
  {
    if m < n {
      Pow10Monotone(m, n - 1);
    }
  }

  lemma AtLeastOnce(x: int, p: int)
    requires x >= 1 && p >= 0
    ensures x * p >= p
  {
  }

  /** Without a leading zero the longer number is the larger. */
  lemma ShorterIsSmaller(a: Bytes, b: Bytes)
    requires AllDigits(a) && AllDigits(b) && |a| < |b| && b[0] != 48
    ensures Value(a) < Value(b)
  {
    ValueBound(a);
    assert AllDigits(b[1..]);
    assert b == [b[0]] + b[1..];
    ValueOfCons(b[0], b[1..]);
    Pow10Monotone(|a|, |b| - 1);
    AtLeastOnce(DigitValue(b[0]), Pow10(|b| - 1));
  }

  lemma CanonicalDigits(s: Bytes)
    requires AllDigits(s)
    ensures var c := Canonical(s); AllDigits(c) && c != [] && Value(c) == Value(s) && (c[0] != 48 || c == [48])
  {
    TrimKeepsValue(s);
  }

  /** Comparison of digit strings of any length and with any leading zeros is numeric comparison. */
  lemma CompareIsNumeric(left: Bytes, right: Bytes)
    requires AllDigits(left) && AllDigits(right)
    ensures Compare(left, right) == CompareInt(Value(left), Value(right))
  {
    CanonicalDigits(left);
    CanonicalDigits(right);
    var l, r := Canonical(left), Canonical(right);
    if |l| < |r| {
      ShorterIsSmaller(l, r);
    } else if |r| < |l| {
      ShorterIsSmaller(r, l);
    } else {
      SameLengthCompare(l, r);
    }
  }

  /** The two-way check of a journaled amount against a verified one is numeric equality. */
  lemma AtLeastBothWaysIsEquality(a: Bytes, b: Bytes)
    requires AllDigits(a) && AllDigits(b)
    ensures IsAtLeast(a, b) && IsAtLeast(b, a) <==> Value(a) == Value(b)
  {
    CompareIsNumeric(a, b);
    CompareIsNumeric(b, a);
  }

  /** Decimal text of a natural number, as integers are printed. */
  function Print(n: nat): (s: Bytes) {
    if n < 10 then [48 + n] else Print(n / 10) + [48 + n % 10]
  }

  lemma {:induction false} PrintRoundTrip(n: nat)
    ensures var s := Print(n); AllDigits(s) && s != [] && Value(s) == n
  {
    if n < 10 {
      assert [48 + n][..0] == [];
    } else {
      PrintRoundTrip(n / 10);
      var s := Print(n);
      assert s[..|s| - 1] == Print(n / 10);
    }
  }

  predicate Before(a: Bytes, b: Bytes) {
    CompareBytes(a, b) == Less
  }

  lemma {:induction false} BeforeIsTotal(a: Bytes, b: Bytes)
    ensures Before(a, b) || a == b || Before(b, a)
    ensures !(Before(a, b) && Before(b, a)) && !Before(a, a)
  {
    if a != [] {
      BeforeIsTotal(a[1..], a[1..]);
      if b != [] {
        BeforeIsTotal(a[1..], b[1..]);
        assert a == [a[0]] + a[1..] && b == [b[0]] + b[1..];
      }
    }
  }

  lemma {:induction false} BeforeIsTransitive(a: Bytes, b: Bytes, c: Bytes)
    requires Before(a, b) && Before(b, c)
    ensures Before(a, c)
  {
    if a != [] && a[0] == b[0] && b[0] == c[0] {
      BeforeIsTransitive(a[1..], b[1..], c[1..]);
    }
  }
}
