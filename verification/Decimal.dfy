// Decimal printing (strconv.Itoa on non-negative ints) and the query parser.
module Decimal {
  import opened Prelude

  const TWO64 := 0x1_0000_0000_0000_0000
  const TWO63 := 0x8000_0000_0000_0000

  // Two's-complement wrap of a 64-bit Go int.
  function Wrap64(x: int): (r: int)
    ensures -TWO63 <= r < TWO63
  {
    (x + TWO63) % TWO64 - TWO63
  }

  predicate IsDigit(c: char) { '0' <= c <= '9' }

  function DigitOf(c: char): nat
    requires IsDigit(c)
  {
    c as int - '0' as int
  }

  predicate AllDigits(s: string) { forall i :: 0 <= i < |s| ==> IsDigit(s[i]) }

  function Itoa(n: nat): (s: string)
    ensures s != "" && AllDigits(s)
  {
    var d := [('0' as int + n % 10) as char];
    if n < 10 then d else Itoa(n / 10) + d
  }

  // The number a digit string denotes, without any machine width.
  function Value(s: string): nat
    requires AllDigits(s)
  {
    if s == "" then 0 else Value(s[..|s| - 1]) * 10 + DigitOf(s[|s| - 1])
  }

  lemma {:induction false} ValueItoa(n: nat)
    ensures Value(Itoa(n)) == n
  {
    var s := Itoa(n);
    if n < 10 {
      assert s[..0] == "";
    } else {
      ValueItoa(n / 10);
      assert s[..|s| - 1] == Itoa(n / 10);
    }
  }

  // No leading zeros.
  predicate Canonical(s: string) { AllDigits(s) && s != "" && (|s| == 1 || s[0] != '0') }

  lemma {:induction false} ItoaCanonical(n: nat)
    ensures Canonical(Itoa(n)) && (n > 0 ==> Itoa(n)[0] != '0')
  {
    if n >= 10 {
      ItoaCanonical(n / 10);
    }
  }

  lemma {:induction false} CanonicalNotZero(s: string)
    requires Canonical(s) && s[0] != '0'
    ensures Value(s) > 0
  {
    if |s| > 1 {
      CanonicalNotZero(s[..|s| - 1]);
    }
  }

  // Itoa(n) is the one text without leading zeros that denotes n.
  lemma {:induction false} ItoaExactly(s: string)
    requires Canonical(s)
    ensures Itoa(Value(s)) == s
    decreases |s|
  {
    var front, d := s[..|s| - 1], DigitOf(s[|s| - 1]);
    if |s| == 1 {
      assert Value(front) == 0;
    } else {
      CanonicalNotZero(front);
      ItoaExactly(front);
      assert Value(s) / 10 == Value(front) && Value(s) % 10 == d;
      assert s == front + [s[|s| - 1]];
    }
  }

  // What atoiQuery answers: 0 unless the text is all digits, and then the
  // denoted number reduced to the machine width.
  function AtoiQueryValue(v: string): int {
    if AllDigits(v) then Wrap64(Value(v)) else 0
  }

  lemma WrapCongruent(a: int, m: int)
    ensures Wrap64(a + m * TWO64) == Wrap64(a)
  {
  }

  // Wrapping at every digit is the same as wrapping once at the end.
  lemma WrapStep(x: int, d: int)
    ensures Wrap64(Wrap64(x) * 10 + d) == Wrap64(x * 10 + d)
  {
    var q := (x + TWO63) / TWO64;
    assert Wrap64(x) == x - q * TWO64;
    assert Wrap64(x) * 10 + d == (x * 10 + d) + (-10 * q) * TWO64;
    WrapCongruent(x * 10 + d, -10 * q);
  }

  method AtoiQuery(v: string) returns (n: int)
    ensures n == AtoiQueryValue(v)
  {
    if v == "" {
      return 0;
    }
    n := 0;
    for i := 0 to |v|
      invariant AllDigits(v[..i])
      invariant n == Wrap64(Value(v[..i]))
    {
      var ch := v[i];
      if ch < '0' || ch > '9' {
        assert !IsDigit(v[i]);
        return 0;
      }
      assert v[..i + 1][..i] == v[..i];
      WrapStep(Value(v[..i]), DigitOf(ch));
      n := Wrap64(n * 10 + DigitOf(ch));
    }
    assert v[..|v|] == v;
  }

  // The parser inverts printing on every non-negative 64-bit int.
  lemma AtoiInvertsItoa(n: nat)
    requires n < TWO63
    ensures AtoiQueryValue(Itoa(n)) == n
  {
    ValueItoa(n);
  }
}
