/** Decimal digit strings and the numbers they denote. */
module Digits {

  predicate IsDigit(c: char) {
    '0' <= c <= '9'
  }

  predicate AllDigits(s: string) {
    forall i :: 0 <= i < |s| ==> IsDigit(s[i])
  }

  function Digit(c: char): (d: nat)
    requires IsDigit(c)
    ensures d < 10
  {
    (c - '0') as nat
  }

  function DigitChar(d: nat): (c: char)
    requires d < 10
    ensures IsDigit(c) && Digit(c) == d
  {
    '0' + d as char
  }

  function Nat(s: string): nat
    requires AllDigits(s)
  {
    if s == [] then 0 else 10 * Nat(s[..|s| - 1]) + Digit(s[|s| - 1])
  }

  /** The decimal spelling of a number, as big.Int.String prints it. */
  function Spell(n: nat): (s: string)
    ensures s != [] && AllDigits(s) && (s[0] == '0' ==> n == 0)
  {
    if n < 10 then [DigitChar(n)] else Spell(n / 10) + [DigitChar(n % 10)]
  }

  lemma {:induction false} SpellDenotes(n: nat)
    ensures Nat(Spell(n)) == n
  {
    if n < 10 {
      assert Spell(n)[..0] == [];
    } else {
      SpellDenotes(n / 10);
      assert Spell(n)[..|Spell(n)| - 1] == Spell(n / 10);
    }
  }

  /** Without leading zeros, the number determines its digits. */
  lemma {:induction false} NatSpells(s: string)
    requires AllDigits(s) && s != [] && s[0] != '0'
    ensures Nat(s) > 0 && Spell(Nat(s)) == s
  {
    var front, last := s[..|s| - 1], s[|s| - 1];
    assert s == front + [last];
    if front != [] {
      NatSpells(front);
      assert Nat(s) / 10 == Nat(front) && Nat(s) % 10 == Digit(last);
    }
  }

  function Zeros(n: nat): (s: string)
    ensures |s| == n && AllDigits(s) && forall i :: 0 <= i < n ==> s[i] == '0'
  {
    seq(n, i => '0')
  }

  function Power(base: nat, n: nat): nat {
    if n == 0 then 1 else base * Power(base, n - 1)
  }

  lemma {:induction false} PowerIsPositive(base: nat, n: nat)
    requires base > 0
    ensures Power(base, n) > 0
  {
    if n > 0 { PowerIsPositive(base, n - 1); }
  }

  lemma {:induction false} NatOfTrailingZeros(s: string, n: nat)
    requires AllDigits(s)
    ensures Nat(s + Zeros(n)) == Nat(s) * Power(10, n)
  {
    hide Nat, Power, Zeros;
    if n == 0 {
      assert s + Zeros(0) == s;
      PowerOf(10, 0);
    } else {
      OneMoreZero(s, n);
      NatOfTrailingZeros(s, n - 1);
      PowerOf(10, n);
      Reorder(Nat(s), Power(10, n - 1));
    }
  }

  lemma PowerOf(base: nat, n: nat)
    ensures Power(base, n) == if n == 0 then 1 else base * Power(base, n - 1)
  {
  }

  lemma OneMoreZero(s: string, n: nat)
    requires AllDigits(s) && n > 0
    ensures Nat(s + Zeros(n)) == 10 * Nat(s + Zeros(n - 1))
  {
    var t := s + Zeros(n);
    assert t[..|t| - 1] == s + Zeros(n - 1);
    assert t[|t| - 1] == '0';
  }

  lemma Reorder(x: nat, y: nat)
    ensures 10 * (x * y) == x * (10 * y)
  {
  }

  lemma {:induction false} NatOfLeadingZeros(n: nat, s: string)
    requires AllDigits(s)
    ensures Nat(Zeros(n) + s) == Nat(s)
  {
    if s == [] {
      assert Zeros(n) + s == [] + Zeros(n);
      NatOfTrailingZeros([], n);
    } else {
      var t := Zeros(n) + s;
      assert t[..|t| - 1] == Zeros(n) + s[..|s| - 1];
      NatOfLeadingZeros(n, s[..|s| - 1]);
    }
  }

  lemma NatEndsLikeItsLastDigit(s: string)
    requires AllDigits(s) && s != [] && s[|s| - 1] != '0'
    ensures Nat(s) % 10 != 0
  {
  }

  // ------------------------------------------------------------------ trimming

  function TrimLeftZeros(s: string): (r: string)
    ensures |r| <= |s| && (r == [] || r[0] != '0')
  {
    if s != [] && s[0] == '0' then TrimLeftZeros(s[1..]) else s
  }

  function TrimRightZeros(s: string): (r: string)
    ensures r <= s && (r == [] || r[|r| - 1] != '0')
  {
    if s != [] && s[|s| - 1] == '0' then TrimRightZeros(s[..|s| - 1]) else s
  }

  lemma {:induction false} TrimLeftSplits(s: string)
    ensures s == Zeros(|s| - |TrimLeftZeros(s)|) + TrimLeftZeros(s)
  {
    if s != [] && s[0] == '0' {
      TrimLeftSplits(s[1..]);
      assert s == ['0'] + s[1..];
    }
  }

  lemma {:induction false} TrimRightSplits(s: string)
    ensures s == TrimRightZeros(s) + Zeros(|s| - |TrimRightZeros(s)|)
  {
    if s != [] && s[|s| - 1] == '0' {
      TrimRightSplits(s[..|s| - 1]);
      assert s == s[..|s| - 1] + ['0'];
    }
  }

  lemma {:induction false} TrimRightStops(s: string, n: nat)
    requires s != [] && s[|s| - 1] != '0'
    ensures TrimRightZeros(s + Zeros(n)) == s
  {
    if n == 0 {
      assert s + Zeros(0) == s;
    } else {
      assert (s + Zeros(n))[..|s| + n - 1] == s + Zeros(n - 1);
      TrimRightStops(s, n - 1);
    }
  }

  lemma {:induction false} TrimLeftStops(n: nat, s: string)
    requires s == [] || s[0] != '0'
    ensures TrimLeftZeros(Zeros(n) + s) == s
  {
    if n == 0 {
      assert Zeros(0) + s == s;
    } else {
      assert (Zeros(n) + s)[1..] == Zeros(n - 1) + s;
      TrimLeftStops(n - 1, s);
    }
  }

  // --------------------------------------------------------- scaled to reals

  function Pow10(e: int): real
    decreases if e < 0 then -e else e
  {
    if e == 0 then 1.0 else if e > 0 then 10.0 * Pow10(e - 1) else Pow10(e + 1) / 10.0
  }

  lemma Pow10Step(e: int)
    ensures Pow10(e + 1) == 10.0 * Pow10(e)
  {
  }

  lemma {:induction false} Pow10IsPositive(e: int)
    ensures Pow10(e) > 0.0
    decreases if e < 0 then -e else e
  {
    if e > 0 { Pow10IsPositive(e - 1); }
    if e < 0 { Pow10IsPositive(e + 1); }
  }

  lemma {:induction false} Pow10Shifts(e: int, n: nat)
    ensures Pow10(e + n) == Pow10(e) * Power(10, n) as real
  {
    if n > 0 {
      Pow10Shifts(e, n - 1);
      Pow10Step(e + n - 1);
      calc {
        Pow10(e + n);
        10.0 * (Pow10(e) * Power(10, n - 1) as real);
        Pow10(e) * (10.0 * Power(10, n - 1) as real);
        { assert (10 * Power(10, n - 1)) as real == 10.0 * Power(10, n - 1) as real; }
        Pow10(e) * Power(10, n) as real;
      }
    }
  }

  /** n * 10^e */
  function Scale(n: nat, e: int): real {
    n as real * Pow10(e)
  }

  lemma ScaleIsPositive(n: nat, e: int)
    ensures Scale(n, e) >= 0.0 && (Scale(n, e) == 0.0 <==> n == 0)
  {
    Pow10IsPositive(e);
    hide Pow10;
    SignOfProduct(n as real, Pow10(e));
  }

  lemma SignOfProduct(x: real, y: real)
    requires x >= 0.0 && y > 0.0
    ensures x * y >= 0.0 && (x * y == 0.0 <==> x == 0.0)
  {
  }

  lemma ScaleShifts(n: nat, e: int, z: nat)
    ensures Scale(n * Power(10, z), e) == Scale(n, e + z)
  {
    Pow10Shifts(e, z);
    hide Pow10, Power;
    MoveFactor(n, Power(10, z), Pow10(e));
  }

  lemma MoveFactor(n: nat, p: nat, x: real)
    ensures n as real * (x * p as real) == (n * p) as real * x
  {
    RealProduct(n, p);
    Regroup(n as real, x, p as real);
  }

  lemma ScaleCancels(m: nat, n: nat, e: int)
    requires Scale(m, e) == Scale(n, e)
    ensures m == n
  {
    Pow10IsPositive(e);
    hide Pow10;
    Cancel(m as real, n as real, Pow10(e));
  }

  /** A scaled number whose mantissa does not end in zero has one mantissa and one exponent. */
  lemma ScaledIsUnique(m: nat, e: int, n: nat, f: int)
    requires m % 10 != 0 && n % 10 != 0 && Scale(m, e) == Scale(n, f)
    ensures m == n && e == f
  {
    hide Scale;
    if e < f { ShiftedMantissa(m, e, n, f); }
    if f < e { ShiftedMantissa(n, f, m, e); }
    ScaleCancels(m, n, e);
  }

  lemma ShiftedMantissa(m: nat, e: int, n: nat, f: int)
    requires e < f && Scale(m, e) == Scale(n, f)
    ensures m % 10 == 0
  {
    var k: nat := f - e;
    hide Scale;
    ScaleShifts(n, e, k);
    ScaleCancels(m, n * Power(10, k), e);
    TenFold(n, Power(10, k - 1));
  }

  lemma RealProduct(n: nat, p: nat)
    ensures (n * p) as real == n as real * p as real
  {
  }

  lemma Regroup(x: real, y: real, z: real)
    ensures x * (y * z) == (x * z) * y
  {
  }

  lemma Cancel(x: real, y: real, p: real)
    requires p > 0.0 && x * p == y * p
    ensures x == y
  {
  }

  lemma TenFold(n: nat, p: nat)
    ensures n * (10 * p) % 10 == 0
  {
    assert n * (10 * p) == 10 * (n * p);
  }
}
