/** terminatingDecimal: the exact decimal spelling of a rational result, when it has one. */
module Decimals {
  import opened Prelude
  import opened Digits
  import opened Numbers

  datatype DecimalError = NotFinite | ScaleExceeded

  /** A fraction in lowest terms, as big.Rat keeps it. */
  ghost predicate Reduced(num: int, den: nat) {
    den > 0 && forall k: nat :: k > 1 ==> !(Divides(k, den) && Divides(k, num))
  }

  predicate IsMultiple(n: int, k: nat, q: int) {
    n == k * q
  }

  ghost predicate Divides(k: nat, n: int) {
    exists q :: IsMultiple(n, k, q)
  }

  ghost predicate Factors(den: nat, twos: nat, fives: nat) {
    den == Power(2, twos) * Power(5, fives)
  }

  method DivideOut(n: nat, p: nat) returns (rest: nat, count: nat)
    requires n > 0 && (p == 2 || p == 5)
    ensures n == Power(p, count) * rest && rest % p != 0 && rest > 0
  {
    rest, count := n, 0;
    while rest % p == 0
      invariant n == Power(p, count) * rest && rest > 0
      decreases rest
    {
      DivideStep(n, p, Power(p, count), rest);
      rest, count := rest / p, count + 1;
    }
  }

  lemma DivideStep(n: nat, p: nat, power: nat, rest: nat)
    requires (p == 2 || p == 5) && rest > 0 && n == power * rest && rest % p == 0
    ensures n == p * power * (rest / p) && 0 < rest / p < rest
  {
    if p == 2 { Halves(power, rest / 2); } else { Fifths(power, rest / 5); }
  }

  lemma Halves(x: nat, d: nat)
    ensures x * (2 * d) == 2 * x * d
  {
  }

  lemma Fifths(x: nat, d: nat)
    ensures x * (5 * d) == 5 * x * d && 5 * x * d % 5 == 0 && 5 * x * d != 1
  {
    assert 5 * x * d == 5 * (x * d);
  }

  // ------------------------------------------------- the factorisation is unique

  lemma {:induction false} PowerOfFiveIsOdd(n: nat)
    ensures Power(5, n) % 2 == 1
  {
    if n > 0 { PowerOfFiveIsOdd(n - 1); }
  }

  lemma {:induction false} PowerOfTwoIsNotFivefold(n: nat)
    ensures Power(2, n) % 5 != 0
  {
    if n > 0 { PowerOfTwoIsNotFivefold(n - 1); }
  }

  lemma OddProduct(a: nat, b: nat)
    requires a % 2 == 1 && b % 2 == 1
    ensures a * b % 2 == 1
  {
    var k, l := a / 2, b / 2;
    assert a * b == 2 * (2 * k * l + k + l) + 1;
  }

  /** 2^a 5^b divided by its own twos and fives leaves nothing but one. */
  lemma {:induction false} FactorsAreUnique(twos: nat, fives: nat, a: nat, b: nat, rest: nat)
    requires rest % 2 != 0 && rest % 5 != 0
    requires Power(2, twos) * (Power(5, fives) * rest) == Power(2, a) * Power(5, b)
    ensures a == twos && b == fives && rest == 1
    decreases twos + a
  {
    PowerOfFiveIsOdd(fives);
    PowerOfFiveIsOdd(b);
    OddProduct(Power(5, fives), rest);
    if twos > 0 && a > 0 {
      Halve(Power(2, twos - 1), Power(5, fives) * rest, Power(2, a - 1), Power(5, b));
      FactorsAreUnique(twos - 1, fives, a - 1, b, rest);
    } else if twos > 0 {
      EvenProduct(Power(2, twos - 1), Power(5, fives) * rest);
      assert false;
    } else if a > 0 {
      EvenProduct(Power(2, a - 1), Power(5, b));
      assert false;
    } else {
      FivesAreUnique(fives, b, rest);
    }
  }

  lemma Halve(x: nat, y: nat, u: nat, v: nat)
    requires 2 * x * y == 2 * u * v
    ensures x * y == u * v
  {
    assert 2 * x * y == 2 * (x * y) && 2 * u * v == 2 * (u * v);
  }

  lemma EvenProduct(x: nat, y: nat)
    ensures 2 * x * y % 2 == 0
  {
    assert 2 * x * y == 2 * (x * y);
  }

  lemma {:induction false} FivesAreUnique(fives: nat, b: nat, rest: nat)
    requires rest % 5 != 0 && Power(5, fives) * rest == Power(5, b)
    ensures b == fives && rest == 1
    decreases fives + b
  {
    if fives > 0 && b > 0 {
      Fifths(Power(5, fives - 1), rest);
      assert 5 * (Power(5, fives - 1) * rest) == 5 * Power(5, b - 1);
      FivesAreUnique(fives - 1, b - 1, rest);
    } else if fives > 0 {
      Fifths(Power(5, fives - 1), rest);
      assert false;
    } else if b > 0 {
      assert false;
    }
  }

  lemma {:induction false} PowersAdd(base: nat, a: nat, b: nat)
    ensures Power(base, a) * Power(base, b) == Power(base, a + b)
  {
    if a > 0 {
      PowersAdd(base, a - 1, b);
      var x, y := Power(base, a - 1), Power(base, b);
      assert base * x * y == base * (x * y);
    }
  }

  lemma {:induction false} TenSplits(n: nat)
    ensures Power(2, n) * Power(5, n) == Power(10, n)
  {
    if n > 0 {
      TenSplits(n - 1);
      var x, y := Power(2, n - 1), Power(5, n - 1);
      assert (2 * x) * (5 * y) == 10 * (x * y);
    }
  }

  /** Scaling by the missing twos and fives turns the fraction into tenths^scale. */
  lemma Cleared(num: nat, den: nat, twos: nat, fives: nat, scale: nat)
    requires Factors(den, twos, fives) && twos <= scale && fives <= scale
    ensures num * Power(2, scale - twos) * Power(5, scale - fives) * den == num * Power(10, scale)
  {
    PowersAdd(2, scale - twos, twos);
    PowersAdd(5, scale - fives, fives);
    TenSplits(scale);
    var a, b, c, d := Power(2, scale - twos), Power(5, scale - fives), Power(2, twos), Power(5, fives);
    hide *;
    Shuffle(num, a, b, c, d);
  }

  lemma Shuffle(n: nat, a: nat, b: nat, c: nat, d: nat)
    ensures n * a * b * (c * d) == n * ((a * c) * (b * d))
  {
    assert a * b * (c * d) == (a * c) * (b * d);
    assert n * a * b == n * (a * b);
    assert n * (a * b) * (c * d) == n * (a * b * (c * d));
  }

  lemma ScaleQuotient(m: nat, den: nat, num: nat, scale: nat)
    requires m * den == num * Power(10, scale)
    ensures IsQuotient(Scale(m, -(scale as int)), num, den)
  {
    ScaleShifts(num, -(scale as int), scale);
    assert Scale(num, 0) == num as real;
    var x := Pow10(-(scale as int));
    assert Scale(m * den, -(scale as int)) == num as real;
    assert Scale(m, -(scale as int)) == m as real * x;
    assert Scale(m * den, -(scale as int)) == (m * den) as real * x;
    hide *;
    RealProduct(m, den);
    Regroup(m as real, x, den as real);
    SwapFactors(m as real, x, den as real);
  }

  lemma SwapFactors(x: real, y: real, z: real)
    ensures x * y * z == (x * z) * y
  {
  }

  // -------------------------------------------------------------- the spelling

  /** Padding and splitting the digits at the scale is placing the point. */
  function PadAndSplit(digits: string, scale: nat): string
    requires scale > 0
  {
    var padded := if |digits| <= scale then Zeros(scale - |digits| + 1) + digits else digits;
    var position := |padded| - scale;
    padded[..position] + "." + padded[position..]
  }

  lemma PadAndSplitPlaces(digits: string, scale: nat)
    requires scale > 0 && digits != "" && AllDigits(digits)
    ensures PadAndSplit(digits, scale) == Place(digits, scale)
    ensures IndexAny(PadAndSplit(digits, scale), {'.'}) < |PadAndSplit(digits, scale)|
  {
    var point: int := |digits| - scale;
    if point > 0 {
      PointAfter(digits[..point], digits[point..]);
    } else {
      PadSmall(digits, -point);
      PointAfter("0", Zeros(-point) + digits);
    }
  }

  lemma PadSmall(digits: string, zeros: nat)
    requires digits != ""
    ensures PadAndSplit(digits, |digits| + zeros) == "0" + "." + (Zeros(zeros) + digits)
    ensures Place(digits, |digits| + zeros) == "0" + "." + (Zeros(zeros) + digits)
  {
    var padded := Zeros(zeros + 1) + digits;
    assert padded[..1] == "0";
    assert padded[1..] == Zeros(zeros) + digits;
    assert "0." + Zeros(zeros) + digits == "0" + "." + (Zeros(zeros) + digits);
  }

  lemma PointAfter(left: string, right: string)
    ensures IndexAny(left + "." + right, {'.'}) < |left + "." + right|
  {
    assert (left + "." + right)[|left|] == '.';
    SomePoint(left + "." + right, |left|);
  }

  lemma {:induction false} SomePoint(s: string, i: nat)
    requires i < |s| && s[i] == '.'
    ensures IndexAny(s, {'.'}) < |s|
  {
    if s[0] != '.' { SomePoint(s[1..], i - 1); }
  }

  /** The digits of a positive number, tidied at a scale, are a decimal in lowest terms. */
  lemma SpelledDecimal(negative: bool, m: nat, scale: nat) returns (d: Decimal)
    requires m > 0
    ensures d.Scaled? ==> d.scale <= scale
    ensures IsNormal(d) && d.Scaled? && Render(d) == Signed(negative, Tidy(Place(Spell(m), scale)))
    ensures Denotes(d) == Oriented(negative, Scale(m, -(scale as int)))
    ensures Tidy(Place(Spell(m), scale)) != "0" && Tidy(Place(Spell(m), scale)) != ""
  {
    var digits := Spell(m);
    SpellDenotes(m);
    TrimLeftStops(0, digits);
    assert Zeros(0) + digits == digits;
    CoreOf(digits);
    d := DecimalOf(negative, digits, scale);
    DecimalOfIsNormal(negative, digits, scale);
    var core := TrimRightZeros(digits);
    assert core != "";
    hide TrimLeftZeros, TrimRightZeros, Tidy, Denotes, Scale, Oriented, Nat, Spell;
    TidyPlace(core, |digits| - |core|, scale);
    PlaceIsNotZero(core, scale - (|digits| - |core|));
  }

  lemma PlaceIsNotZero(core: string, scale: int)
    requires core != "" && core[0] != '0'
    ensures Place(core, scale) != "0" && Place(core, scale) != ""
  {
    var text, point := Place(core, scale), |core| - scale;
    if scale <= 0 {
      assert text[0] == core[0];
    } else if point > 0 {
      assert core[..point][0] == core[0];
      assert text[0] == core[0];
    } else {
      assert text[1] == '.';
    }
  }

  /** A rendered decimal denotes it and is left unchanged by normalizeNumber. */
  lemma RenderedDecimal(d: Decimal)
    requires IsNormal(d)
    ensures Scan(Render(d)).Some? && Value(Render(d)) == Denotes(d)
    ensures forall limits: Limits :: 0 <= limits.maxExponent && |Render(d)| <= limits.maxCanonicalBytes ==>
              Normalize(Render(d), limits) == Some(Render(d))
  {
    hide Scan, Render, Normalize, IsNormal, Denotes, Value;
    RenderScans(d);
    DecimalInDenotes(Render(d));
    forall limits: Limits | 0 <= limits.maxExponent && |Render(d)| <= limits.maxCanonicalBytes
      ensures Normalize(Render(d), limits) == Some(Render(d))
    {
      RenderedIsFixed(d, limits);
    }
  }

  predicate IsQuotient(x: real, num: int, den: nat) {
    x * den as real == num as real
  }

  /** The text is the exact value of num/den, already in canonical spelling. */
  ghost predicate Spells(text: string, num: int, den: nat) {
    && Scan(text).Some? && IsQuotient(Value(text), num, den)
    && forall limits: Limits :: 0 <= limits.maxExponent && |text| <= limits.maxCanonicalBytes ==>
         Normalize(text, limits) == Some(text)
  }

  /** The decimal in lowest terms is the fraction, with at most `maxScale` digits after the point. */
  ghost predicate IsDecimalOf(d: Decimal, num: int, den: nat, maxScale: nat) {
    IsNormal(d) && IsQuotient(Denotes(d), num, den) && (d.Scaled? ==> d.scale <= maxScale)
  }

  ghost predicate RendersDecimal(text: string, num: int, den: nat, maxScale: nat) {
    exists d :: IsDecimalOf(d, num, den, maxScale) && text == Render(d)
  }

  lemma SpellsZero(den: nat, scale: nat)
    ensures Spells("0", 0, den) && RendersDecimal("0", 0, den, scale)
  {
    RenderedDecimal(Zero);
    assert Render(Zero) == "0" && Denotes(Zero) == 0.0;
    assert IsDecimalOf(Zero, 0, den, scale);
  }

  /** A fraction has one decimal in lowest terms. */
  lemma DecimalIsUnique(a: Decimal, b: Decimal, num: int, den: nat, maxScale: nat)
    requires den > 0 && IsDecimalOf(a, num, den, maxScale) && IsDecimalOf(b, num, den, maxScale)
    ensures a == b
  {
    hide IsNormal, Denotes;
    Cancel(Denotes(a), Denotes(b), den as real);
    DenotesIsInjective(a, b);
  }

  ghost predicate HasDecimal(num: int, den: nat, maxScale: nat) {
    exists d :: IsDecimalOf(d, num, den, maxScale)
  }

  lemma WiderRendering(text: string, num: int, den: nat, scale: nat, maxScale: nat)
    requires RendersDecimal(text, num, den, scale) && scale <= maxScale
    ensures RendersDecimal(text, num, den, maxScale) && HasDecimal(num, den, maxScale)
  {
    var e :| IsDecimalOf(e, num, den, scale) && text == Render(e);
    hide IsNormal, Denotes, IsQuotient, Render;
    assert IsDecimalOf(e, num, den, maxScale);
  }

  lemma SpellsScaled(num: int, den: nat, twos: nat, fives: nat, scale: nat, m: nat)
    requires Factors(den, twos, fives) && twos <= scale && fives <= scale && num != 0 && m > 0
    requires m == (if num < 0 then -num else num) * Power(2, scale - twos) * Power(5, scale - fives)
    ensures Spells(Signed(num < 0, Tidy(Place(Spell(m), scale))), num, den)
    ensures RendersDecimal(Signed(num < 0, Tidy(Place(Spell(m), scale))), num, den, scale)
    ensures Tidy(Place(Spell(m), scale)) != "0" && Tidy(Place(Spell(m), scale)) != ""
  {
    var size: nat := if num < 0 then -num else num;
    Cleared(size, den, twos, fives, scale);
    ScaleQuotient(m, den, size, scale);
    var d := SpelledDecimal(num < 0, m, scale);
    hide *;
    OrientedQuotient(num, size, Scale(m, -(scale as int)), den);
    SpellsRendered(d, num, den);
    RendersItself(d, num, den, scale);
  }

  lemma RendersItself(d: Decimal, num: int, den: nat, scale: nat)
    requires IsNormal(d) && IsQuotient(Denotes(d), num, den) && (d.Scaled? ==> d.scale <= scale)
    ensures RendersDecimal(Render(d), num, den, scale)
  {
    assert IsDecimalOf(d, num, den, scale);
    hide IsDecimalOf, Render;
  }

  lemma SpellsRendered(d: Decimal, num: int, den: nat)
    requires IsNormal(d) && IsQuotient(Denotes(d), num, den)
    ensures Spells(Render(d), num, den)
  {
    RenderedDecimal(d);
    hide IsQuotient, Scan, Render, Normalize, IsNormal, Denotes, Value;
  }

  lemma OrientedQuotient(num: int, size: nat, x: real, den: nat)
    requires size == (if num < 0 then -num else num) && IsQuotient(x, size, den)
    ensures IsQuotient(Oriented(num < 0, x), num, den)
  {
  }

  // ------------------------------------------------ which fractions are decimals

  lemma DivideTwice(r: nat, x: nat, q: nat)
    requires r % 2 != 0 && 2 * x == r * q
    ensures q % 2 == 0 && x == r * (q / 2)
  {
    if q % 2 == 1 { OddProduct(r, q); }
    Halves(r, q / 2);
  }

  lemma FiveProduct(a: nat, b: nat)
    requires a % 5 != 0 && b % 5 != 0
    ensures a * b % 5 != 0
  {
    var i, j, k, l := a % 5, b % 5, a / 5, b / 5;
    assert a == 5 * k + i && b == 5 * l + j;
    Expanded(k, i, l, j);
    var m, n := 5 * k * l + k * j + i * l, i * j;
    SmallProduct(i, j);
    hide *;
    assert a * b == 5 * m + n;
    FivefoldPlus(m, n);
  }

  lemma FivefoldPlus(m: nat, n: nat)
    ensures (5 * m + n) % 5 == n % 5
  {
  }

  lemma SmallProduct(i: nat, j: nat)
    requires 0 < i < 5 && 0 < j < 5
    ensures i * j % 5 != 0
  {
    if i == 1 {} else if i == 2 {} else if i == 3 {} else {}
  }

  lemma Expanded(k: nat, i: nat, l: nat, j: nat)
    ensures (5 * k + i) * (5 * l + j) == 5 * (5 * k * l + k * j + i * l) + i * j
  {
    assert (5 * k + i) * (5 * l + j) == 5 * k * (5 * l) + 5 * k * j + i * (5 * l) + i * j;
    assert 5 * k * (5 * l) == 5 * (5 * k * l);
    assert i * (5 * l) == 5 * (i * l);
  }

  lemma DivideFivefold(r: nat, x: nat, q: nat)
    requires r % 5 != 0 && 5 * x == r * q
    ensures q % 5 == 0 && x == r * (q / 5)
  {
    if q % 5 != 0 { FiveProduct(r, q); }
    Fifths(r, q / 5);
  }

  /** What is coprime to ten and divides x * 10^s divides x. */
  lemma {:induction false} StripTens(r: nat, x: nat, s: nat, q: nat) returns (quotient: nat)
    requires r % 2 != 0 && r % 5 != 0 && x * Power(10, s) == r * q
    ensures x == r * quotient
  {
    if s == 0 {
      quotient := q;
    } else {
      var y := x * Power(10, s - 1);
      TenTimes(x, Power(10, s - 1));
      DivideTwice(r, 5 * y, q);
      DivideFivefold(r, y, q / 2);
      quotient := StripTens(r, x, s - 1, q / 2 / 5);
    }
  }

  lemma TenTimes(x: nat, p: nat)
    ensures x * (10 * p) == 10 * (x * p)
  {
  }

  lemma CommonDivisor(num: int, den: nat, r: nat, a: nat, b: nat)
    requires Reduced(num, den) && r > 0
    requires den == r * a && (if num < 0 then -num else num) == r * b
    ensures r == 1
  {
    assert IsMultiple(den, r, a);
    var c: int := if num < 0 then -(b as int) else b as int;
    assert r * -(b as int) == -(r * b);
    assert IsMultiple(num, r, c);
    assert Divides(r, den) && Divides(r, num);
  }

  /** What a decimal in lowest terms says about numerator and denominator. */
  lemma DecimalEquation(d: Decimal, num: int, den: nat)
    requires IsNormal(d) && IsQuotient(Denotes(d), num, den) && d.Scaled?
    ensures var size := if num < 0 then -num else num;
            IsQuotient(Scale(Nat(d.digits), -d.scale), size, den)
  {
    ScaledDenotesNonZero(d);
    var x := Scale(Nat(d.digits), -d.scale);
    hide Scale, Denotes, IsNormal, Nat;
    QuotientSign(x, d.negative, num, den);
  }

  lemma QuotientSign(x: real, negative: bool, num: int, den: nat)
    requires x > 0.0 && IsQuotient(Oriented(negative, x), num, den)
    ensures IsQuotient(x, if num < 0 then -num else num, den)
  {
    SignOfProduct(den as real, x);
    assert -x * den as real == -(x * den as real);
  }

  /** n * 10^-s == size / den, cleared of the fraction. */
  lemma ClearedEquation(n: nat, s: nat, size: nat, den: nat)
    requires IsQuotient(Scale(n, -(s as int)), size, den)
    ensures n * den == size * Power(10, s)
  {
    var e := -(s as int);
    ScaleShifts(size, e, s);
    assert Scale(size, 0) == size as real;
    assert Scale(n * den, e) == Scale(n, e) * den as real by {
      var x := Pow10(e);
      assert Scale(n, e) == n as real * x && Scale(n * den, e) == (n * den) as real * x;
      hide *;
      RealProduct(n, den);
      SwapFactors(n as real, x, den as real);
    }
    hide Scale, Power;
    ScaleCancels(n * den, size * Power(10, s), e);
  }

  lemma WholeDivides(n: nat, s: nat, num: int, den: nat)
    requires Reduced(num, den) && IsQuotient(Scale(n, s), if num < 0 then -num else num, den)
    ensures den == 1
  {
    var size := if num < 0 then -num else num;
    ScaleShifts(n, 0, s);
    var whole := n * Power(10, s);
    assert Scale(whole, 0) == whole as real;
    assert whole as real * den as real == size as real;
    RealProduct(whole, den);
    hide Scale, Power;
    assert size == den * whole;
    CommonDivisor(num, den, den, 1, whole);
  }

  /** A reduced fraction whose denominator has only twos and fives needs no more
      digits than a decimal that denotes it. */
  lemma ScaleIsEnough(num: int, den: nat, twos: nat, fives: nat, n: nat, s: nat)
    requires Reduced(num, den) && Factors(den, twos, fives)
    requires n * den == (if num < 0 then -num else num) * Power(10, s)
    ensures twos <= s && fives <= s
  {
    var size: nat := if num < 0 then -num else num;
    TenSplits(s);
    TwosFit(num, den, size, twos, fives, n, s);
    FivesFit(num, den, size, twos, fives, n, s);
  }

  lemma TwosFit(num: int, den: nat, size: nat, twos: nat, fives: nat, n: nat, s: nat)
    requires Reduced(num, den) && Factors(den, twos, fives) && size == (if num < 0 then -num else num)
    requires n * den == size * (Power(2, s) * Power(5, s))
    ensures twos <= s
  {
    if twos > s {
      PowersAdd(2, s, twos - s);
      PowerIsPositive(2, s);
      PowerOfFiveIsOdd(s);
      var p, q, f, g := Power(2, s), Power(2, twos - s - 1), Power(5, fives), Power(5, s);
      assert den == p * (2 * q) * f;
      hide Power, Factors, Reduced;
      SharedTwo(num, den, size, n, p, q, f, g);
    }
  }

  /** With a two left over after cancelling, both sides would be even. */
  lemma SharedTwo(num: int, den: nat, size: nat, n: nat, p: nat, q: nat, f: nat, g: nat)
    requires size == (if num < 0 then -num else num) && p > 0 && g % 2 == 1
    requires den == p * (2 * q) * f && n * den == size * (p * g)
    ensures !Reduced(num, den)
  {
    hide Reduced;
    CancelCommon(n, p, 2 * q, f, size, g);
    PullOut(n, 2, q, f);
    PullOut(p, 2, q, f);
    if size % 2 == 1 { OddProduct(size, g); }
    SharedDivisor(num, den, 2, p * (q * f), size / 2);
  }

  lemma FivesFit(num: int, den: nat, size: nat, twos: nat, fives: nat, n: nat, s: nat)
    requires Reduced(num, den) && Factors(den, twos, fives) && size == (if num < 0 then -num else num)
    requires n * den == size * (Power(2, s) * Power(5, s))
    ensures fives <= s
  {
    if fives > s {
      PowersAdd(5, s, fives - s);
      PowerIsPositive(5, s);
      PowerOfTwoIsNotFivefold(s);
      var p, q, f, g := Power(5, s), Power(5, fives - s - 1), Power(2, twos), Power(2, s);
      assert den == f * (p * (5 * q));
      hide Power, Factors, Reduced;
      Commutes(f, p * (5 * q));
      Commutes(g, p);
      SharedFive(num, den, size, n, p, q, f, g);
    }
  }

  lemma Commutes(x: nat, y: nat)
    ensures x * y == y * x
  {
  }

  lemma SharedFive(num: int, den: nat, size: nat, n: nat, p: nat, q: nat, f: nat, g: nat)
    requires size == (if num < 0 then -num else num) && p > 0 && g % 5 != 0
    requires den == p * (5 * q) * f && n * den == size * (p * g)
    ensures !Reduced(num, den)
  {
    hide Reduced;
    CancelCommon(n, p, 5 * q, f, size, g);
    PullOut(n, 5, q, f);
    PullOut(p, 5, q, f);
    if size % 5 != 0 { FiveProduct(size, g); }
    SharedDivisor(num, den, 5, p * (q * f), size / 5);
  }

  lemma SharedDivisor(num: int, den: nat, r: nat, a: nat, b: nat)
    requires r > 1 && den == r * a && (if num < 0 then -num else num) == r * b
    ensures !Reduced(num, den)
  {
    if Reduced(num, den) { CommonDivisor(num, den, r, a, b); }
  }

  lemma CancelCommon(n: nat, p: nat, q: nat, f: nat, size: nat, g: nat)
    requires p > 0 && n * (p * q * f) == size * (p * g)
    ensures n * q * f == size * g
  {
    assert n * (p * q * f) == p * (n * q * f) by { Reorder(n, p, q, f); }
    assert size * (p * g) == p * (size * g);
    CancelNat(n * q * f, size * g, p);
  }

  lemma Reorder(n: nat, p: nat, q: nat, f: nat)
    ensures n * (p * q * f) == p * (n * q * f)
  {
    assert p * q * f == p * (q * f);
    assert n * (p * (q * f)) == p * (n * (q * f));
    assert n * (q * f) == n * q * f;
  }

  lemma CancelNat(x: nat, y: nat, p: nat)
    requires p > 0 && p * x == p * y
    ensures x == y
  {
  }

  lemma PullOut(n: nat, c: nat, q: nat, f: nat)
    ensures n * (c * q) * f == c * (n * q * f) == c * (n * (q * f))
  {
    assert n * (c * q) == c * (n * q);
    assert c * (n * q) * f == c * (n * q * f);
    assert n * q * f == n * (q * f);
  }

  /** Only twos and fives divide the denominator of a decimal, and not more often
      than the decimal has digits after the point. */
  lemma DecimalFactors(d: Decimal, num: int, den: nat, twos: nat, fives: nat, rest: nat, maxScale: nat)
    requires Reduced(num, den) && IsDecimalOf(d, num, den, maxScale)
    requires den == Power(2, twos) * (Power(5, fives) * rest) && rest % 2 != 0 && rest % 5 != 0
    ensures rest == 1 && twos <= maxScale && fives <= maxScale
  {
    if d.Zero? || d.scale <= 0 {
      if d.Zero? {
        ZeroNumerator(num, den);
        ZeroIsWhole(den);
      } else {
        DecimalEquation(d, num, den);
        WholeDivides(Nat(d.digits), -d.scale, num, den);
      }
      assert Power(2, 0) * Power(5, 0) == 1;
      FactorsAreUnique(twos, fives, 0, 0, rest);
    } else {
      var n, s: nat, size: nat := Nat(d.digits), d.scale, if num < 0 then -num else num;
      DecimalEquation(d, num, den);
      ClearedEquation(n, s, size, den);
      hide IsDecimalOf, IsNormal, Denotes, IsQuotient, Nat;
      RestDivides(num, den, twos, fives, rest, n, s);
      assert Factors(den, twos, fives);
      ScaleIsEnough(num, den, twos, fives, n, s);
    }
  }

  lemma ZeroNumerator(num: int, den: nat)
    requires IsQuotient(0.0, num, den)
    ensures num == 0
  {
  }

  lemma RestDivides(num: int, den: nat, twos: nat, fives: nat, rest: nat, n: nat, s: nat)
    requires Reduced(num, den) && rest % 2 != 0 && rest % 5 != 0
    requires den == Power(2, twos) * (Power(5, fives) * rest)
    requires n * den == (if num < 0 then -num else num) * Power(10, s)
    ensures rest == 1
  {
    var size: nat := if num < 0 then -num else num;
    var a := Power(2, twos) * Power(5, fives);
    GroupRest(Power(2, twos), Power(5, fives), rest, n);
    var b := StripTens(rest, size, s, n * a);
    CommonDivisor(num, den, rest, a, b);
  }

  lemma GroupRest(x: nat, y: nat, rest: nat, n: nat)
    ensures x * (y * rest) == rest * (x * y)
    ensures n * (x * (y * rest)) == rest * (n * (x * y))
  {
    assert x * (y * rest) == rest * (x * y);
  }

  lemma SomeDecimalFactors(num: int, den: nat, twos: nat, fives: nat, rest: nat, maxScale: nat)
    requires Reduced(num, den) && HasDecimal(num, den, maxScale)
    requires den == Power(2, twos) * (Power(5, fives) * rest) && rest % 2 != 0 && rest % 5 != 0
    ensures rest == 1 && twos <= maxScale && fives <= maxScale
  {
    var d :| IsDecimalOf(d, num, den, maxScale);
    DecimalFactors(d, num, den, twos, fives, rest, maxScale);
  }

  method TerminatingDecimal(num: int, den: nat, maxScale: nat) returns (r: Result<string, DecimalError>)
    requires Reduced(num, den)
    ensures r.Ok? <==> exists a: nat, b: nat :: Factors(den, a, b) && a <= maxScale && b <= maxScale
    ensures r == Err(NotFinite) <==> !exists a: nat, b: nat :: Factors(den, a, b)
    ensures r.Ok? ==> Spells(r.value, num, den)
    ensures r.Ok? <==> HasDecimal(num, den, maxScale)
    ensures r.Ok? ==> RendersDecimal(r.value, num, den, maxScale)
  {
    var odd, twos := DivideOut(den, 2);
    var rest, fives := DivideOut(odd, 5);
    hide Factors, Spells, HasDecimal, RendersDecimal, Power, Reduced;
    OnlyFactors(den, twos, odd, fives, rest);
    if HasDecimal(num, den, maxScale) { SomeDecimalFactors(num, den, twos, fives, rest, maxScale); }
    if rest != 1 { return Err(NotFinite); }
    var scale := if fives > twos then fives else twos;
    if scale > maxScale { return Err(ScaleExceeded); }
    var numerator := num;
    if twos < scale { numerator := numerator * Power(2, scale - twos); }
    if fives < scale { numerator := numerator * Power(5, scale - fives); }
    ScaledNumerator(num, numerator, twos, fives, scale);
    var negative := numerator < 0;
    if negative { numerator := -numerator; }
    Outcome(num, den, twos, fives, scale, numerator);
    hide *;
    var digits := FormatDigits(Spell(numerator), scale);
    if digits == "" || digits == "0" {
      WiderRendering("0", num, den, scale, maxScale);
      return Ok("0");
    }
    if negative { digits := "-" + digits; }
    ghost var text := Signed(negative, Tidy(Place(Spell(numerator), scale)));
    assert digits == text by { SignedText(negative, Tidy(Place(Spell(numerator), scale))); }
    WiderRendering(text, num, den, scale, maxScale);
    return Ok(digits);
  }

  lemma SignedText(negative: bool, text: string)
    ensures Signed(negative, text) == if negative then "-" + text else text
  {
  }

  method FormatDigits(spelled: string, scale: nat) returns (digits: string)
    requires AllDigits(spelled) && spelled != ""
    ensures digits == Tidy(Place(spelled, scale))
  {
    digits := spelled;
    if scale > 0 {
      PadAndSplitPlaces(digits, scale);
      digits := TrimRightZeros(PadAndSplit(digits, scale));
      hide PadAndSplit, Place, IndexAny, TrimRightZeros;
      if digits != "" && digits[|digits| - 1] == '.' { digits := digits[..|digits| - 1]; }
    } else {
      WholeIsTidy(digits);
    }
  }

  /** What the tidied digits spell, and when they are zero. */
  lemma Outcome(num: int, den: nat, twos: nat, fives: nat, scale: nat, m: nat)
    requires Reduced(num, den) && Factors(den, twos, fives) && scale == (if fives > twos then fives else twos)
    requires m == (if num < 0 then -num else num) * Power(2, scale - twos) * Power(5, scale - fives)
    ensures var text := Tidy(Place(Spell(m), scale));
            if num == 0 then text == "0" && Spells("0", num, den) && RendersDecimal("0", num, den, scale)
            else text != "0" && text != "" && Spells(Signed(num < 0, text), num, den)
                 && RendersDecimal(Signed(num < 0, text), num, den, scale)
  {
    var p, q := Power(2, scale - twos), Power(5, scale - fives);
    PowerIsPositive(2, scale - twos);
    PowerIsPositive(5, scale - fives);
    if num == 0 {
      ZeroIsWhole(den);
      assert Factors(1, 0, 0);
      FactorsAreUnique(twos, fives, 0, 0, 1);
      SpellsZero(den, scale);
      ZeroMantissa(p, q);
      WholeIsTidy("0");
    } else {
      SignKept(if num < 0 then -num else num, p);
      SignKept((if num < 0 then -num else num) * p, q);
      SpellsScaled(num, den, twos, fives, scale, m);
    }
  }

  lemma ZeroMantissa(p: nat, q: nat)
    ensures 0 * p * q == 0 && Spell(0) == "0"
  {
  }

  lemma OnlyFactors(den: nat, twos: nat, odd: nat, fives: nat, rest: nat)
    requires den == Power(2, twos) * odd && odd == Power(5, fives) * rest && odd % 2 != 0 && rest % 5 != 0
    ensures rest == 1 ==> Factors(den, twos, fives)
    ensures rest % 2 != 0 && den == Power(2, twos) * (Power(5, fives) * rest)
    ensures forall a: nat, b: nat :: Factors(den, a, b) ==> rest == 1 && a == twos && b == fives
  {
    if rest % 2 == 0 { Halves(Power(5, fives), rest / 2); EvenProduct(Power(5, fives), rest / 2); }
    forall a: nat, b: nat | Factors(den, a, b) ensures rest == 1 && a == twos && b == fives {
      FactorsAreUnique(twos, fives, a, b, rest);
    }
  }

  lemma ScaledNumerator(num: int, numerator: int, twos: nat, fives: nat, scale: nat)
    requires twos <= scale && fives <= scale
    requires var x := if twos < scale then num * Power(2, scale - twos) else num;
             numerator == if fives < scale then x * Power(5, scale - fives) else x
    ensures numerator == num * Power(2, scale - twos) * Power(5, scale - fives)
    ensures num < 0 <==> numerator < 0
    ensures num == 0 <==> numerator == 0
    ensures num < 0 ==> -numerator == -num * Power(2, scale - twos) * Power(5, scale - fives)
  {
    PowerIsPositive(2, scale - twos);
    PowerIsPositive(5, scale - fives);
    var p, q := Power(2, scale - twos), Power(5, scale - fives);
    assert twos == scale ==> p == 1;
    assert fives == scale ==> q == 1;
    hide *;
    SignKept(num, p);
    SignKept(num * p, q);
    NegatedProduct(num, p, q);
  }

  lemma SignKept(n: int, p: nat)
    requires p > 0
    ensures (n < 0 <==> n * p < 0) && (n == 0 <==> n * p == 0)
  {
  }

  lemma NegatedProduct(n: int, p: nat, q: nat)
    ensures -(n * p * q) == -n * p * q
  {
    assert -n * p == -(n * p);
  }

  /** Zero in lowest terms is 0/1. */
  lemma ZeroIsWhole(den: nat)
    requires Reduced(0, den)
    ensures den == 1
  {
    assert IsMultiple(den, den, 1) && IsMultiple(0, den, 0);
    assert Divides(den, den) && Divides(den, 0);
  }

  lemma WholeIsTidy(digits: string)
    requires AllDigits(digits)
    ensures Tidy(Place(digits, 0)) == digits
  {
    assert digits + Zeros(0) == digits;
    NoneAt(digits, {'.'});
  }
}
