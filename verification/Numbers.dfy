/** The canonical spelling of JSON numbers, and of the exact decimals expressions compute. */
module Numbers {
  import opened Prelude
  import opened Digits

  datatype Limits = Limits(maxExponent: int, maxCanonicalBytes: int)

  /** A number text taken apart: sign, integer and fraction digits, exponent. */
  datatype Literal = Literal(negative: bool, integer: string, fraction: string, exponent: int)

  function IndexAny(s: string, chars: set<char>): (i: nat)
    ensures i <= |s| && (i < |s| ==> s[i] in chars)
    ensures forall j :: 0 <= j < i ==> s[j] !in chars
  {
    if s == [] || s[0] in chars then 0 else 1 + IndexAny(s[1..], chars)
  }

  /** strconv.Atoi; what it reports as out of range lies beyond every exponent limit. */
  function Atoi(s: string): Option<int> {
    var signed := s != [] && (s[0] == '-' || s[0] == '+');
    var digits := if signed then s[1..] else s;
    if digits == [] || !AllDigits(digits) then None
    else
      var n: int := Nat(digits);
      Some(if s[0] == '-' then -n else n)
  }

  function Scan(raw: string): (r: Option<Literal>)
    ensures r.Some? ==> AllDigits(r.value.integer) && AllDigits(r.value.fraction)
  {
    if raw == "" then None
    else
      var negative := raw[0] == '-';
      var unsigned := if negative then raw[1..] else raw;
      var marker := IndexAny(unsigned, {'e', 'E'});
      var exponent := if marker < |unsigned| then Atoi(unsigned[marker + 1..]) else Some(0);
      var mantissa := unsigned[..marker];
      var point := IndexAny(mantissa, {'.'});
      var integer := mantissa[..point];
      var fraction := if point < |mantissa| then mantissa[point + 1..] else "";
      if exponent.None? || integer == "" || (|integer| > 1 && integer[0] == '0') || !AllDigits(integer) || !AllDigits(fraction)
      then None
      else Some(Literal(negative, integer, fraction, exponent.value))
  }

  /** Digits with the decimal point `scale` places from the right. */
  function Place(digits: string, scale: int): string {
    var point := |digits| - scale;
    if scale <= 0 then digits + Zeros(-scale)
    else if point > 0 then digits[..point] + "." + digits[point..]
    else "0." + Zeros(-point) + digits
  }

  /** Drops the zeros after a decimal point, and a point that nothing follows. */
  function Tidy(s: string): string {
    if IndexAny(s, {'.'}) < |s| then
      var t := TrimRightZeros(s);
      if t != [] && t[|t| - 1] == '.' then t[..|t| - 1] else t
    else s
  }

  function Signed(negative: bool, s: string): string {
    if negative then "-" + s else s
  }

  predicate ExponentAccepted(exponent: int, limits: Limits) {
    -limits.maxExponent <= exponent <= limits.maxExponent
  }

  /** The size checks before zeros are added, and the one after. */
  predicate TooLarge(digits: string, scale: int, normalized: string, limits: Limits) {
    var point := |digits| - scale;
    || (scale <= 0 && -scale > limits.maxCanonicalBytes - |digits|)
    || (scale > 0 && point <= 0 && -point > limits.maxCanonicalBytes - |digits| - 2)
    || |normalized| > limits.maxCanonicalBytes
  }

  /** normalizeNumber. */
  function Normalize(raw: string, limits: Limits): Option<string> {
    var literal := Scan(raw);
    if literal.None? || !ExponentAccepted(literal.value.exponent, limits) then None
    else
      var l := literal.value;
      var digits := TrimLeftZeros(l.integer + l.fraction);
      if digits == "" then Some("0")
      else
        var scale := |l.fraction| - l.exponent;
        var normalized := Signed(l.negative, Tidy(Place(digits, scale)));
        if TooLarge(digits, scale, normalized, limits) then None else Some(normalized)
  }

  // ------------------------------------------------------------ normal decimals

  /** A decimal in lowest terms: digits that neither start nor end with zero. */
  datatype Decimal = Zero | Scaled(negative: bool, digits: string, scale: int)

  ghost predicate IsNormal(d: Decimal) {
    d.Scaled? ==> AllDigits(d.digits) && d.digits != "" && d.digits[0] != '0' && d.digits[|d.digits| - 1] != '0'
  }

  function Render(d: Decimal): string {
    match d
    case Zero => "0"
    case Scaled(negative, digits, scale) => Signed(negative, Place(digits, scale))
  }

  function Oriented(negative: bool, x: real): real {
    if negative then -x else x
  }

  ghost function Denotes(d: Decimal): real
    requires IsNormal(d)
  {
    match d
    case Zero => 0.0
    case Scaled(negative, digits, scale) => Oriented(negative, Scale(Nat(digits), -scale))
  }

  /** The rational number a literal stands for. */
  ghost function LiteralValue(l: Literal): real
    requires AllDigits(l.integer) && AllDigits(l.fraction)
  {
    Oriented(l.negative, Scale(Nat(l.integer + l.fraction), l.exponent - |l.fraction|))
  }

  ghost function Value(raw: string): real
    requires Scan(raw).Some?
  {
    LiteralValue(Scan(raw).value)
  }

  function DecimalOf(negative: bool, digits: string, scale: int): Decimal {
    var left := TrimLeftZeros(digits);
    var both := TrimRightZeros(left);
    if both == "" then Zero else Scaled(negative, both, scale - (|left| - |both|))
  }

  /** Digits are zeros, a core without outer zeros, and zeros again. */
  lemma CoreOf(all: string)
    requires AllDigits(all)
    ensures var left := TrimLeftZeros(all);
            var core := TrimRightZeros(left);
            && AllDigits(core) && |core| <= |left| && (core == "" <==> left == "")
            && left == core + Zeros(|left| - |core|)
            && (core != "" ==> core[0] != '0' && core[|core| - 1] != '0')
  {
    var left := TrimLeftZeros(all);
    var core := TrimRightZeros(left);
    TrimLeftSplits(all);
    TrimRightSplits(left);
    SuffixIsDigits(Zeros(|all| - |left|), left);
    assert core == "" ==> left == Zeros(|left|);
    assert core != "" ==> core[0] == left[0];
  }

  lemma SuffixIsDigits(s: string, t: string)
    requires AllDigits(s + t)
    ensures AllDigits(t)
  {
    assert forall i :: 0 <= i < |t| ==> t[i] == (s + t)[|s| + i];
  }

  lemma CoreValue(all: string)
    requires AllDigits(all)
    ensures var left := TrimLeftZeros(all);
            var core := TrimRightZeros(left);
            |core| <= |left| && AllDigits(core) && Nat(all) == Nat(core) * Power(10, |left| - |core|)
  {
    CoreOf(all);
    var left := TrimLeftZeros(all);
    var core := TrimRightZeros(left);
    hide TrimLeftZeros, TrimRightZeros, Nat, Power;
    TrimLeftSplits(all);
    SuffixIsDigits(Zeros(|all| - |left|), left);
    NatOfLeadingZeros(|all| - |left|, left);
    NatOfTrailingZeros(core, |left| - |core|);
  }

  lemma DecimalOfIsNormal(negative: bool, digits: string, scale: int)
    requires AllDigits(digits)
    ensures IsNormal(DecimalOf(negative, digits, scale))
    ensures Denotes(DecimalOf(negative, digits, scale)) == Oriented(negative, Scale(Nat(digits), -scale))
  {
    hide *;
    CoreOf(digits);
    CoreValue(digits);
    DecimalOfCore(negative, digits, scale);
    var left := TrimLeftZeros(digits);
    var core := TrimRightZeros(left);
    var z: nat := |left| - |core|;
    if core == "" {
      EmptyDenotes(negative, core, digits, z, scale);
    } else {
      ScaleShifts(Nat(core), -scale, z);
      ScaledDenotes(negative, core, scale - z);
      assert -(scale - z) == -scale + z;
    }
  }

  lemma EmptyDenotes(negative: bool, core: string, digits: string, z: nat, scale: int)
    requires core == "" && AllDigits(digits) && Nat(digits) == Nat(core) * Power(10, z)
    ensures IsNormal(Zero) && Denotes(Zero) == Oriented(negative, Scale(Nat(digits), -scale))
  {
    assert Nat(core) == 0;
    hide Nat, Power, Scale;
    ScaleIsPositive(0, -scale);
  }

  lemma ScaledDenotes(negative: bool, core: string, scale: int)
    requires AllDigits(core) && core != "" && core[0] != '0' && core[|core| - 1] != '0'
    ensures IsNormal(Scaled(negative, core, scale))
    ensures Denotes(Scaled(negative, core, scale)) == Oriented(negative, Scale(Nat(core), -scale))
  {
    hide Scale, Nat, AllDigits;
  }

  // --------------------------------------------------- normalisation is render

  lemma NoPointIn(s: string)
    requires AllDigits(s)
    ensures IndexAny(s, {'.'}) == |s| && IndexAny(s, {'e', 'E'}) == |s|
  {
  }

  lemma FirstAt(s: string, t: string, chars: set<char>)
    requires forall i :: 0 <= i < |s| ==> s[i] !in chars
    requires t != [] && t[0] in chars
    ensures IndexAny(s + t, chars) == |s|
  {
    var i := IndexAny(s + t, chars);
    assert (s + t)[|s|] == t[0];
    assert forall j :: 0 <= j < |s| ==> (s + t)[j] == s[j];
  }

  lemma TidyFraction(left: string, right: string, zeros: nat)
    requires AllDigits(left) && right != "" && right[|right| - 1] !in {'0', '.'}
    ensures Tidy(left + ("." + right + Zeros(zeros))) == left + "." + right
  {
    FirstAt(left, "." + right + Zeros(zeros), {'.'});
    var core := left + "." + right;
    assert left + ("." + right + Zeros(zeros)) == core + Zeros(zeros);
    assert core[|core| - 1] == right[|right| - 1];
    hide IndexAny, TrimRightZeros;
    TrimRightStops(core, zeros);
  }

  lemma TidyPoint(left: string, zeros: nat)
    requires AllDigits(left)
    ensures Tidy(left + ("." + Zeros(zeros))) == left
  {
    FirstAt(left, "." + Zeros(zeros), {'.'});
    var core := left + ".";
    assert left + ("." + Zeros(zeros)) == core + Zeros(zeros);
    hide IndexAny, TrimRightZeros;
    TrimRightStops(core, zeros);
  }

  /** Tidying places the point among the digits without trailing zeros. */
  lemma TidyPlace(core: string, zeros: nat, scale: int)
    requires AllDigits(core) && core != [] && core[|core| - 1] != '0'
    ensures Tidy(Place(core + Zeros(zeros), scale)) == Place(core, scale - zeros)
  {
    var point := |core| + zeros - scale;
    if scale <= 0 {
      TidyInteger(core, zeros, scale);
    } else if point <= 0 {
      TidySmall(core, zeros, scale);
    } else if point < |core| {
      TidyMixed(core, zeros, scale);
    } else {
      TidyWhole(core, zeros, scale);
    }
  }

  lemma TidyInteger(core: string, zeros: nat, scale: int)
    requires AllDigits(core) && scale <= 0
    ensures Tidy(Place(core + Zeros(zeros), scale)) == Place(core, scale - zeros)
  {
    assert core + Zeros(zeros) + Zeros(-scale) == core + Zeros(zeros - scale);
    NoPointIn(core + Zeros(zeros - scale));
  }

  lemma TidySmall(core: string, zeros: nat, scale: int)
    requires AllDigits(core) && core != [] && core[|core| - 1] != '0' && 0 < scale && |core| + zeros <= scale
    ensures Tidy(Place(core + Zeros(zeros), scale)) == Place(core, scale - zeros)
  {
    var lead: nat := scale - |core| - zeros;
    var right := Zeros(lead) + core;
    assert right[|right| - 1] == core[|core| - 1];
    assert "0." + Zeros(lead) + (core + Zeros(zeros)) == "0" + ("." + right + Zeros(zeros));
    assert "0." + Zeros(lead) + core == "0" + "." + right;
    hide Tidy;
    TidyFraction("0", right, zeros);
  }

  lemma TidyMixed(core: string, zeros: nat, scale: int)
    requires AllDigits(core) && zeros < scale < |core| + zeros && core[|core| - 1] != '0'
    ensures Tidy(Place(core + Zeros(zeros), scale)) == Place(core, scale - zeros)
  {
    var point := |core| + zeros - scale;
    var digits := core + Zeros(zeros);
    assert digits[..point] == core[..point];
    assert digits[..point] + "." + digits[point..] == core[..point] + ("." + core[point..] + Zeros(zeros));
    hide Tidy;
    TidyFraction(core[..point], core[point..], zeros);
  }

  lemma TidyWhole(core: string, zeros: nat, scale: int)
    requires AllDigits(core) && core != [] && 0 < scale <= zeros
    ensures Tidy(Place(core + Zeros(zeros), scale)) == Place(core, scale - zeros)
  {
    var left := core + Zeros(zeros - scale);
    PlacesOf(core, zeros, scale);
    hide *;
    ZerosAreDigits(core, zeros - scale);
    TidyPoint(left, scale);
  }

  lemma ZerosAreDigits(core: string, n: nat)
    requires AllDigits(core)
    ensures AllDigits(core + Zeros(n))
  {
  }

  /** The point lies between the zeros. */
  lemma PlacesOf(core: string, zeros: nat, scale: int)
    requires core != [] && 0 < scale <= zeros
    ensures Place(core + Zeros(zeros), scale) == core + Zeros(zeros - scale) + ("." + Zeros(scale))
    ensures Place(core, scale - zeros) == core + Zeros(zeros - scale)
  {
    var digits := core + Zeros(zeros);
    var point := |digits| - scale;
    assert digits[..point] == core + Zeros(zeros - scale);
    assert digits[point..] == Zeros(scale);
  }

  ghost function DecimalIn(l: Literal): Decimal {
    DecimalOf(l.negative, l.integer + l.fraction, |l.fraction| - l.exponent)
  }

  lemma TidiedIsRendered(l: Literal)
    requires AllDigits(l.integer) && AllDigits(l.fraction)
    ensures var digits := TrimLeftZeros(l.integer + l.fraction);
            if digits == "" then DecimalIn(l) == Zero && Render(DecimalIn(l)) == "0"
            else DecimalIn(l).Scaled? && Signed(l.negative, Tidy(Place(digits, |l.fraction| - l.exponent))) == Render(DecimalIn(l))
  {
    hide *;
    var all, scale := l.integer + l.fraction, |l.fraction| - l.exponent;
    JoinedDigits(l.integer, l.fraction);
    CoreOf(all);
    var left := TrimLeftZeros(all);
    DecimalOfCore(l.negative, all, scale);
    DecimalInIs(l);
    ZeroRenders();
    if left != "" { RenderCore(l.negative, left, TrimRightZeros(left), scale); }
  }

  lemma JoinedDigits(s: string, t: string)
    requires AllDigits(s) && AllDigits(t)
    ensures AllDigits(s + t)
  {
  }

  lemma DecimalInIs(l: Literal)
    ensures DecimalIn(l) == DecimalOf(l.negative, l.integer + l.fraction, |l.fraction| - l.exponent)
  {
    hide DecimalOf;
  }

  lemma ZeroRenders()
    ensures Render(Zero) == "0"
  {
  }

  lemma DecimalOfCore(negative: bool, all: string, scale: int)
    ensures var left := TrimLeftZeros(all);
            var core := TrimRightZeros(left);
            DecimalOf(negative, all, scale) == if core == "" then Zero else Scaled(negative, core, scale - (|left| - |core|))
  {
  }

  lemma RenderCore(negative: bool, left: string, core: string, scale: int)
    requires AllDigits(core) && core != "" && core[|core| - 1] != '0'
    requires |core| <= |left| && left == core + Zeros(|left| - |core|)
    ensures Signed(negative, Tidy(Place(left, scale))) == Render(Scaled(negative, core, scale - (|left| - |core|)))
  {
    hide *;
    TidyPlace(core, |left| - |core|, scale);
    RenderIs(negative, core, scale - (|left| - |core|));
  }

  lemma RenderIs(negative: bool, core: string, scale: int)
    ensures Render(Scaled(negative, core, scale)) == Signed(negative, Place(core, scale))
  {
    hide Place, Signed;
  }

  /** Whatever normalizeNumber accepts, it renders the decimal in lowest terms. */
  lemma NormalizeRenders(raw: string, limits: Limits)
    requires Normalize(raw, limits).Some?
    ensures Scan(raw).Some? && Normalize(raw, limits).value == Render(DecimalIn(Scan(raw).value))
    ensures DecimalIn(Scan(raw).value).Scaled? ==> |Normalize(raw, limits).value| <= limits.maxCanonicalBytes
    ensures 0 <= limits.maxExponent
  {
    hide Scan, TrimLeftZeros, Tidy, Place, Render, DecimalIn, Signed, TooLarge, AllDigits;
    var l := Scan(raw).value;
    TidiedIsRendered(l);
    var digits := TrimLeftZeros(l.integer + l.fraction);
    SmallEnough(digits, |l.fraction| - l.exponent, Signed(l.negative, Tidy(Place(digits, |l.fraction| - l.exponent))), limits);
  }

  lemma SmallEnough(digits: string, scale: int, text: string, limits: Limits)
    ensures TooLarge(digits, scale, text, limits) || |text| <= limits.maxCanonicalBytes
  {
  }

  /** The digits before and after the point of a placed decimal. */
  ghost function IntegerPart(digits: string, scale: int): string {
    var point := |digits| - scale;
    if scale <= 0 then digits + Zeros(-scale) else if point > 0 then digits[..point] else "0"
  }

  ghost function FractionPart(digits: string, scale: int): string {
    var point := |digits| - scale;
    if scale <= 0 then "" else if point > 0 then digits[point..] else Zeros(-point) + digits
  }

  lemma PlaceJoinsParts(digits: string, scale: int)
    ensures Place(digits, scale) ==
            IntegerPart(digits, scale) + (if scale > 0 then "." + FractionPart(digits, scale) else "")
  {
  }

  lemma ScanUnsigned(negative: bool, unsigned: string, integer: string, fraction: string, point: nat)
    requires AllDigits(integer) && AllDigits(fraction) && integer != "" && (|integer| > 1 ==> integer[0] != '0')
    requires unsigned != "" && unsigned[0] != '-' && IndexAny(unsigned, {'e', 'E'}) == |unsigned|
    requires point == IndexAny(unsigned, {'.'}) && integer == unsigned[..point]
    requires fraction == if point < |unsigned| then unsigned[point + 1..] else ""
    ensures Scan(Signed(negative, unsigned)) == Some(Literal(negative, integer, fraction, 0))
  {
    hide IndexAny, AllDigits;
    var raw := Signed(negative, unsigned);
    assert negative ==> raw[1..] == unsigned;
    assert unsigned[..|unsigned|] == unsigned;
  }

  lemma NoneAt(s: string, chars: set<char>)
    requires forall i :: 0 <= i < |s| ==> s[i] !in chars
    ensures IndexAny(s, chars) == |s|
  {
    var i := IndexAny(s, chars);
  }

  lemma ScanJoined(negative: bool, integer: string, fraction: string, pointed: bool)
    requires AllDigits(integer) && AllDigits(fraction) && integer != "" && (|integer| > 1 ==> integer[0] != '0')
    requires pointed || fraction == ""
    ensures Scan(Signed(negative, integer + (if pointed then "." + fraction else ""))) ==
            Some(Literal(negative, integer, fraction, 0))
  {
    var unsigned := integer + (if pointed then "." + fraction else "");
    assert unsigned[0] == integer[0];
    assert forall i :: 0 <= i < |unsigned| ==> unsigned[i] == '.' || IsDigit(unsigned[i]);
    hide IndexAny, Scan;
    NoneAt(unsigned, {'e', 'E'});
    if pointed {
      FirstAt(integer, "." + fraction, {'.'});
      assert unsigned[..|integer|] == integer && unsigned[|integer| + 1..] == fraction;
      ScanUnsigned(negative, unsigned, integer, fraction, |integer|);
    } else {
      NoneAt(integer, {'.'});
      assert unsigned == integer && unsigned[..|integer|] == integer;
      ScanUnsigned(negative, unsigned, integer, fraction, |integer|);
    }
  }

  /** The two parts are digits, and together the digits between zeros. */
  lemma PartsPad(digits: string, scale: int) returns (before: nat, after: nat)
    requires AllDigits(digits) && digits != "" && digits[0] != '0'
    ensures var integer, fraction := IntegerPart(digits, scale), FractionPart(digits, scale);
            && AllDigits(integer) && AllDigits(fraction) && integer != "" && (|integer| > 1 ==> integer[0] != '0')
            && integer + fraction == Zeros(before) + digits + Zeros(after) && |fraction| - after == scale
  {
    before, after := 0, 0;
    if scale <= 0 {
      after := -scale;
    } else if |digits| <= scale {
      before := 1 + scale - |digits|;
    }
  }

  lemma RejoinedParts(negative: bool, digits: string, scale: int)
    requires IsNormal(Scaled(negative, digits, scale))
    ensures var integer, fraction := IntegerPart(digits, scale), FractionPart(digits, scale);
            && AllDigits(integer) && AllDigits(fraction) && integer != "" && (|integer| > 1 ==> integer[0] != '0')
            && DecimalOf(negative, integer + fraction, |fraction|) == Scaled(negative, digits, scale)
  {
    hide DecimalOf, IntegerPart, FractionPart;
    var before, after := PartsPad(digits, scale);
    hide AllDigits;
    DecimalOfPadded(negative, before, digits, after, |FractionPart(digits, scale)|);
  }

  lemma DecimalOfPadded(negative: bool, before: nat, digits: string, after: nat, scale: int)
    requires digits != "" && digits[0] != '0' && digits[|digits| - 1] != '0'
    ensures DecimalOf(negative, Zeros(before) + digits + Zeros(after), scale) == Scaled(negative, digits, scale - after)
  {
    assert Zeros(before) + digits + Zeros(after) == Zeros(before) + (digits + Zeros(after));
    TrimLeftStops(before, digits + Zeros(after));
    TrimRightStops(digits, after);
    hide TrimLeftZeros, TrimRightZeros;
  }

  /** A rendered decimal is read back as itself, so rendering is injective. */
  lemma RenderScans(d: Decimal)
    requires IsNormal(d)
    ensures Scan(Render(d)).Some? && Scan(Render(d)).value.exponent == 0
    ensures DecimalIn(Scan(Render(d)).value) == d
  {
    match d {
      case Zero =>
        ScanJoined(false, "0", "", false);
        assert "0" + "" == "0";
        assert Scan("0") == Some(Literal(false, "0", "", 0));
      case Scaled(negative, digits, scale) =>
        RejoinedParts(negative, digits, scale);
        PlaceJoinsParts(digits, scale);
        hide Scan, DecimalOf, IntegerPart, FractionPart, Place;
        ScanJoined(negative, IntegerPart(digits, scale), FractionPart(digits, scale), scale > 0);
        FractionOnlyWithScale(digits, scale);
    }
  }

  lemma FractionOnlyWithScale(digits: string, scale: int)
    ensures scale <= 0 ==> FractionPart(digits, scale) == ""
  {
  }

  /** Decimals in lowest terms that denote the same rational are the same. */
  lemma DenotesIsInjective(a: Decimal, b: Decimal)
    requires IsNormal(a) && IsNormal(b) && Denotes(a) == Denotes(b)
    ensures a == b
  {
    hide Scale, Nat, Oriented;
    if a.Scaled? { ScaledDenotesNonZero(a); }
    if b.Scaled? { ScaledDenotesNonZero(b); }
    if a.Scaled? && b.Scaled? { SameScaled(a, b); }
  }

  lemma SameScaled(a: Decimal, b: Decimal)
    requires IsNormal(a) && IsNormal(b) && a.Scaled? && b.Scaled? && Denotes(a) == Denotes(b)
    ensures a == b
  {
    ScaledDenotesNonZero(a);
    ScaledDenotesNonZero(b);
    NatSpells(a.digits);
    NatSpells(b.digits);
    NatEndsLikeItsLastDigit(a.digits);
    NatEndsLikeItsLastDigit(b.digits);
    hide Scale, Nat;
    ScaledIsUnique(Nat(a.digits), -a.scale, Nat(b.digits), -b.scale);
  }

  lemma ScaledDenotesNonZero(d: Decimal)
    requires IsNormal(d) && d.Scaled?
    ensures Denotes(d) == Oriented(d.negative, Scale(Nat(d.digits), -d.scale))
    ensures Scale(Nat(d.digits), -d.scale) > 0.0 && (if d.negative then Denotes(d) < 0.0 else Denotes(d) > 0.0)
  {
    NatSpells(d.digits);
    hide Scale;
    ScaleIsPositive(Nat(d.digits), -d.scale);
  }

  lemma DecimalInLiteral(l: Literal)
    requires AllDigits(l.integer) && AllDigits(l.fraction)
    ensures IsNormal(DecimalIn(l)) && Denotes(DecimalIn(l)) == LiteralValue(l)
  {
    DecimalOfIsNormal(l.negative, l.integer + l.fraction, |l.fraction| - l.exponent);
    hide DecimalOf, IsNormal, Denotes, Nat, Oriented, Scale;
    var n := Nat(l.integer + l.fraction);
    assert Scale(n, -(|l.fraction| - l.exponent)) == Scale(n, l.exponent - |l.fraction|);
  }

  /** The decimal in lowest terms denotes what the text does. */
  lemma DecimalInDenotes(raw: string)
    requires Scan(raw).Some?
    ensures IsNormal(DecimalIn(Scan(raw).value)) && Denotes(DecimalIn(Scan(raw).value)) == Value(raw)
  {
    hide Scan, DecimalIn, IsNormal, Denotes, LiteralValue;
    DecimalInLiteral(Scan(raw).value);
  }

  /** Two accepted texts have one canonical spelling exactly when they denote the same rational. */
  lemma SameSpellingIffSameValue(a: string, b: string, limits: Limits)
    requires Normalize(a, limits).Some? && Normalize(b, limits).Some?
    ensures Scan(a).Some? && Scan(b).Some?
    ensures Normalize(a, limits) == Normalize(b, limits) <==> Value(a) == Value(b)
  {
    hide Normalize, Scan, Render, DecimalIn, IsNormal, Value, Denotes;
    NormalizeRenders(a, limits);
    NormalizeRenders(b, limits);
    DecimalInDenotes(a);
    DecimalInDenotes(b);
    var d, e := DecimalIn(Scan(a).value), DecimalIn(Scan(b).value);
    RenderScans(d);
    RenderScans(e);
    if Value(a) == Value(b) { DenotesIsInjective(d, e); }
  }

  /** The canonical spelling denotes what the original text did, and is left unchanged. */
  lemma NormalizeIsFixed(raw: string, limits: Limits)
    requires Normalize(raw, limits).Some?
    ensures var text := Normalize(raw, limits).value;
            Scan(raw).Some? && Scan(text).Some? && Value(text) == Value(raw) && Normalize(text, limits) == Some(text)
  {
    hide Normalize, Scan, Render, DecimalIn, IsNormal, Value, Denotes;
    NormalizeRenders(raw, limits);
    DecimalInDenotes(raw);
    var d := DecimalIn(Scan(raw).value);
    RenderScans(d);
    DecimalInDenotes(Render(d));
    RenderedIsFixed(d, limits);
  }

  lemma ScannedLength(raw: string)
    requires Scan(raw).Some?
    ensures var l := Scan(raw).value;
            l.integer != "" && |raw| >= |l.integer| + |l.fraction| + (if l.fraction != "" then 1 else 0)
  {
    hide IndexAny, Atoi, AllDigits;
  }

  lemma RenderedFits(digits: string, l: Literal, text: string, limits: Limits)
    requires l.exponent == 0 && l.integer != "" && |digits| <= |l.integer| + |l.fraction|
    requires |l.integer| + |l.fraction| + (if l.fraction != "" then 1 else 0) <= |text| <= limits.maxCanonicalBytes
    ensures !TooLarge(digits, |l.fraction|, text, limits)
  {
  }

  lemma RenderedIsFixed(d: Decimal, limits: Limits)
    requires IsNormal(d) && 0 <= limits.maxExponent && (d.Scaled? ==> |Render(d)| <= limits.maxCanonicalBytes)
    ensures Normalize(Render(d), limits) == Some(Render(d))
  {
    hide Render, DecimalIn, IsNormal;
    RenderScans(d);
    var text := Render(d);
    var l := Scan(text).value;
    ScannedLength(text);
    TidiedIsRendered(l);
    var digits := TrimLeftZeros(l.integer + l.fraction);
    if digits != "" { RenderedFits(digits, l, text, limits); }
    hide Scan, TrimLeftZeros, Tidy, Place, Signed, TooLarge, AllDigits;
  }
}
