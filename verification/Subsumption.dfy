/** When every value of one schema is a value of another: a condition on the two
    definitions that decides it, enumerations and open objects included. */
module Subsumption {
  import opened Prelude
  import opened Digits
  import opened Numbers
  import opened Decimals
  import opened Text
  import opened Json
  import opened Schemas
  import opened Assignability

  // ------------------------------------------------------------ finite schemas

  /** The values of a schema that has finitely many. Enumerated numbers have not:
      any spelling of the same number is accepted. */
  ghost function Listing(s: Schema): Option<set<Value>>
    decreases s, 1
  {
    if s.enumeration != [] then
      if s.kind in {NumberKind, IntegerKind} then None else Some(set v | v in s.enumeration)
    else if s.kind == NullKind then Some({Null})
    else if s.kind == BooleanKind then Some({Bool(true), Bool(false)})
    else if s.kind != ObjectKind || s.additional || exists n :: n in s.properties && Listing(s.properties[n]).None? then None
    else
      KeysAreProperties(s);
      Some(set m | m in Products(s, SortedList(s.properties.Keys)) :: Object(m))
  }

  lemma KeysAreProperties(s: Schema)
    ensures forall n :: n in SortedList(s.properties.Keys) <==> n in s.properties
    ensures Distinct(SortedList(s.properties.Keys))
  {
    var keys := SortedList(s.properties.Keys);
    assert forall n :: n in keys <==> n in Elements(keys);
    SortedIsDistinct(keys);
  }

  lemma SortedIsDistinct(s: seq<string>)
    requires Sorted(s)
    ensures Distinct(s)
  {
    forall i, j | 0 <= i < j < |s| ensures s[i] != s[j] { LessIsIrreflexive(s[i]); }
  }

  /** The members that objects may have under the given names. */
  ghost function Products(s: Schema, keys: seq<string>): set<map<string, Value>>
    requires forall n :: n in keys ==> n in s.properties && Listing(s.properties[n]).Some?
    decreases s, 0, |keys|
  {
    if keys == [] then {map[]}
    else Extended(Products(s, keys[1..]), keys[0], Listing(s.properties[keys[0]]).value, keys[0] in s.required)
  }

  /** The same members with one more name, or, if it is optional, without it. */
  ghost function Extended(rest: set<map<string, Value>>, k: string, values: set<Value>, required: bool): set<map<string, Value>> {
    (set m, v | m in rest && v in values :: m[k := v]) + (if required then {} else rest)
  }

  lemma InExtended(rest: set<map<string, Value>>, k: string, values: set<Value>, required: bool, m: map<string, Value>)
    requires forall x :: x in rest ==> k !in x
    ensures m in Extended(rest, k, values, required) <==>
            if k in m then m[k] in values && m - {k} in rest else !required && m in rest
  {
    if k in m {
      assert m == (m - {k})[k := m[k]];
      if m in Extended(rest, k, values, required) {
        var front, v :| front in rest && v in values && m == front[k := v];
        assert m - {k} == front;
      }
    }
  }

  ghost predicate Fills(s: Schema, keys: seq<string>, m: map<string, Value>)
    requires forall n :: n in keys ==> n in s.properties && Listing(s.properties[n]).Some?
  {
    && (forall n :: n in m ==> n in keys && m[n] in Listing(s.properties[n]).value)
    && (forall n :: n in keys && n in s.required ==> n in m)
  }

  lemma FillsStep(s: Schema, keys: seq<string>, m: map<string, Value>)
    requires keys != [] && Distinct(keys) && forall n :: n in keys ==> n in s.properties && Listing(s.properties[n]).Some?
    ensures var k, tail := keys[0], keys[1..];
            && Distinct(tail) && k !in tail
            && (Fills(s, keys, m) <==>
                  if k in m then m[k] in Listing(s.properties[k]).value && Fills(s, tail, m - {k})
                  else k !in s.required && Fills(s, tail, m))
  {
    hide Listing;
    var k, tail := keys[0], keys[1..];
    assert keys == [k] + tail;
    forall i, j | 0 <= i < j < |tail| ensures tail[i] != tail[j] { assert keys[i + 1] != keys[j + 1]; }
    forall i | 0 <= i < |tail| ensures tail[i] != k { assert keys[0] != keys[i + 1]; }
  }

  lemma {:induction false} ProductsFill(s: Schema, keys: seq<string>, m: map<string, Value>)
    requires Distinct(keys) && forall n :: n in keys ==> n in s.properties && Listing(s.properties[n]).Some?
    ensures m in Products(s, keys) <==> Fills(s, keys, m)
    decreases |keys|
  {
    hide Listing, Extended, Distinct;
    if keys == [] {
      assert Fills(s, keys, m) <==> m == map[];
    } else {
      var k, tail := keys[0], keys[1..];
      FillsStep(s, keys, m);
      forall x | x in Products(s, tail) ensures k !in x {
        ProductsFill(s, tail, x);
      }
      ProductsFill(s, tail, m - {k});
      ProductsFill(s, tail, m);
      InExtended(Products(s, tail), k, Listing(s.properties[k]).value, k in s.required, m);
    }
  }

  lemma EqualIsReflexive(v: Value)
    ensures ValuesEqual(v, v)
  {
  }

  lemma EnumerationIsExact(s: Schema, v: Value)
    requires WellFormed(s) && s.enumeration != [] && s.kind !in {NumberKind, IntegerKind}
    ensures v in s.enumeration <==> Conforms(s, v)
  {
    if v in s.enumeration { EqualIsReflexive(v); }
    if HasShape(s, v) { assert !IsNumber(v); }
  }

  lemma {:induction false} ListingIsExact(s: Schema, v: Value)
    requires WellFormed(s) && Listing(s).Some?
    ensures v in Listing(s).value <==> Conforms(s, v)
    decreases s
  {
    if s.enumeration != [] {
      EnumerationIsExact(s, v);
    } else if s.kind == ObjectKind {
      var keys := SortedList(s.properties.Keys);
      KeysAreProperties(s);
      if v.Object? {
        ProductsFill(s, keys, v.members);
        forall n | n in v.members && n in s.properties
          ensures v.members[n] in Listing(s.properties[n]).value <==> Conforms(s.properties[n], v.members[n])
        {
          ListingIsExact(s.properties[n], v.members[n]);
        }
        assert v in Listing(s).value <==> v.members in Products(s, keys);
      }
    }
  }

  // ---------------------------------------------------------- infinite schemas

  /** A family without repetition leaves every finite set. */
  lemma {:induction false} Escapes<T(!new)>(f: nat -> T, s: set<T>) returns (n: nat)
    requires forall i, j :: i != j ==> f(i) != f(j)
    ensures f(n) !in s
    decreases |s|
  {
    if f(0) !in s {
      n := 0;
    } else {
      var m := Escapes((i: nat) => f(i + 1), s - {f(0)});
      n := m + 1;
      assert f(n) != f(0);
    }
  }

  lemma ZerosDiffer(m: nat, n: nat)
    requires m != n
    ensures Zeros(m) != Zeros(n)
  {
    assert |Zeros(m)| == m && |Zeros(n)| == n;
  }

  lemma SpellsDiffer(m: nat, n: nat)
    requires m != n
    ensures Spell(m) != Spell(n)
  {
    SpellDenotes(m);
    SpellDenotes(n);
  }

  /** Another spelling of a number: an exponent of any number of zeros. */
  function Respell(text: string, n: nat): string {
    text + ("e" + Zeros(n + 1))
  }

  lemma Respelled(text: string, n: nat)
    requires Scan(text).Some? && forall i :: 0 <= i < |text| ==> text[i] !in {'e', 'E'}
    ensures Scan(Respell(text, n)) == Scan(text)
  {
    var sign := if text[0] == '-' then 1 else 0;
    var unsigned, tail := text[sign..], "e" + Zeros(n + 1);
    ZeroExponent(n);
    hide *;
    Suffixed(text, tail, sign);
    MarkedAt(unsigned, n);
    SameScan(text, text + tail, sign, unsigned, tail);
    RespellIs(text, n);
  }

  lemma RespellIs(text: string, n: nat)
    ensures Respell(text, n) == text + ("e" + Zeros(n + 1))
  {
  }

  lemma Suffixed(text: string, tail: string, sign: nat)
    requires sign <= |text| && text != ""
    ensures (text + tail)[0] == text[0] && (text + tail)[sign..] == text[sign..] + tail && text + tail != ""
  {
  }

  lemma MarkedAt(unsigned: string, n: nat)
    requires forall i :: 0 <= i < |unsigned| ==> unsigned[i] !in {'e', 'E'}
    ensures var more := unsigned + ("e" + Zeros(n + 1));
            && IndexAny(more, {'e', 'E'}) == |unsigned| < |more| && IndexAny(unsigned, {'e', 'E'}) == |unsigned|
            && more[|unsigned| + 1..] == Zeros(n + 1) && more[..|unsigned|] == unsigned && unsigned[..|unsigned|] == unsigned
  {
    FirstAt(unsigned, "e" + Zeros(n + 1), {'e', 'E'});
    hide IndexAny;
  }

  lemma SameScan(raw: string, more: string, sign: nat, unsigned: string, tail: string)
    requires raw != "" && more != "" && more[0] == raw[0] && sign == (if raw[0] == '-' then 1 else 0)
    requires raw[sign..] == unsigned && more[sign..] == unsigned + tail && tail != ""
    requires IndexAny(unsigned + tail, {'e', 'E'}) == |unsigned| && IndexAny(unsigned, {'e', 'E'}) == |unsigned|
    requires Atoi((unsigned + tail)[|unsigned| + 1..]) == Some(0)
    requires (unsigned + tail)[..|unsigned|] == unsigned && unsigned[..|unsigned|] == unsigned
    ensures Scan(more) == Scan(raw)
  {
    hide IndexAny, Atoi, AllDigits;
  }

  lemma ZeroExponent(n: nat)
    ensures Atoi(Zeros(n + 1)) == Some(0)
  {
    NatOfLeadingZeros(n + 1, []);
    assert Zeros(n + 1) + [] == Zeros(n + 1);
    assert Zeros(n + 1)[0] == '0';
  }

  lemma RenderHasNoExponent(d: Decimal)
    requires IsNormal(d)
    ensures forall i :: 0 <= i < |Render(d)| ==> Render(d)[i] !in {'e', 'E'}
  {
    if d.Scaled? { PlaceHasNoExponent(d.digits, d.scale); }
    hide Place;
  }

  lemma PlaceHasNoExponent(digits: string, scale: int)
    requires AllDigits(digits)
    ensures forall i :: 0 <= i < |Place(digits, scale)| ==> Place(digits, scale)[i] !in {'e', 'E'}
  {
    var text, point := Place(digits, scale), |digits| - scale;
    forall i | 0 <= i < |text| ensures IsDigit(text[i]) || text[i] == '.' {
      if scale <= 0 {
        if i < |digits| { assert text[i] == digits[i]; }
      } else if point > 0 {
        if i < point { assert text[i] == digits[i]; }
        if i > point { assert text[i] == digits[i - 1]; }
      } else if i >= 2 - point {
        assert text[i] == digits[i - 2 + point];
      }
    }
  }

  /** Of any number there are spellings outside every finite set. */
  lemma AnotherSpelling(v: Value, used: set<Value>) returns (w: Value)
    requires IsNumber(v)
    ensures IsNumber(w) && Rational(w) == Rational(v) && w !in used
  {
    var d := DecimalIn(Scan(v.text).value);
    var text := Render(d);
    CanonicalSpelling(v.text);
    hide *;
    var f := (n: nat) => Number(Respell(text, n));
    forall i: nat, j: nat | i != j ensures f(i) != f(j) { SpellingsDiffer(text, i, j); }
    var n := Escapes(f, used);
    w := f(n);
    Respelled(text, n);
    SameNumber(v.text, text, Respell(text, n));
  }

  lemma CanonicalSpelling(raw: string)
    requires Scan(raw).Some?
    ensures var text := Render(DecimalIn(Scan(raw).value));
            && Scan(text).Some? && Numbers.Value(text) == Numbers.Value(raw)
            && forall i :: 0 <= i < |text| ==> text[i] !in {'e', 'E'}
  {
    var d := DecimalIn(Scan(raw).value);
    hide Scan, DecimalIn, IsNormal, Denotes, Render, Numbers.Value;
    DecimalInDenotes(raw);
    RenderScans(d);
    RenderHasNoExponent(d);
    DecimalInDenotes(Render(d));
  }

  lemma SpellingsDiffer(text: string, m: nat, n: nat)
    requires m != n
    ensures Respell(text, m) != Respell(text, n)
  {
    assert |Respell(text, m)| == |text| + m + 2 && |Respell(text, n)| == |text| + n + 2;
  }

  lemma SameNumber(raw: string, text: string, respelled: string)
    requires Scan(raw).Some? && Scan(text).Some? && Numbers.Value(text) == Numbers.Value(raw) && Scan(respelled) == Scan(text)
    ensures IsNumber(Number(respelled)) && Rational(Number(respelled)) == Rational(Number(raw))
  {
    hide Scan, LiteralValue;
  }

  /** Of a schema without listing there are values outside every finite set. */
  lemma {:induction false} Unlisted(s: Schema, used: set<Value>) returns (v: Value)
    requires WellFormed(s) && Listing(s).None?
    ensures Conforms(s, v) && v !in used
    decreases s
  {
    hide Rational, IsInteger, Scan;
    if s.enumeration != [] {
      v := OtherNumber(s, used);
    } else if s.kind == StringKind {
      var f := (n: nat) => Str(Zeros(n));
      forall i: nat, j: nat | i != j ensures f(i) != f(j) { ZerosDiffer(i, j); }
      var n := Escapes(f, used);
      v := f(n);
    } else if s.kind in {NumberKind, IntegerKind} {
      var f := (n: nat) => Number(Spell(n));
      forall i: nat, j: nat | i != j ensures f(i) != f(j) { SpellsDiffer(i, j); }
      var n := Escapes(f, used);
      v := f(n);
      SpelledConforms(s, n);
    } else if s.kind == ArrayKind {
      v := LongArray(s, used);
    } else {
      v := OtherObject(s, used);
    }
  }

  lemma OtherNumber(s: Schema, used: set<Value>) returns (v: Value)
    requires WellFormed(s) && s.enumeration != [] && s.kind in {NumberKind, IntegerKind}
    ensures Conforms(s, v) && v !in used
  {
    hide Rational, IsInteger, Scan;
    var c := s.enumeration[0];
    assert c in s.enumeration && HasShape(s, c);
    v := AnotherSpelling(c, used);
  }

  lemma SpelledConforms(s: Schema, n: nat)
    requires s.kind in {NumberKind, IntegerKind} && s.enumeration == []
    ensures Conforms(s, Number(Spell(n))) && Rational(Number(Spell(n))) == n as real
  {
    SpelledValue(n);
    assert (n as real).Floor == n;
    hide Scan, Spell;
  }

  lemma SpelledValue(n: nat)
    ensures Scan(Spell(n)).Some? && Numbers.Value(Spell(n)) == n as real
  {
    WholeIsTidy(Spell(n));
    if n == 0 {
      ZeroIsANumber();
    } else {
      var d := SpelledDecimal(false, n, 0);
      RenderedDecimal(d);
      assert Scale(n, 0) == n as real;
    }
  }

  lemma LongArray(s: Schema, used: set<Value>) returns (v: Value)
    requires WellFormed(s) && s.enumeration == [] && s.kind == ArrayKind
    ensures Conforms(s, v) && v !in used
  {
    var item := Sample(s.items.value);
    SampleConforms(s.items.value);
    var f := (n: nat) => Array(seq(n, i => item));
    forall i: nat, j: nat | i != j ensures f(i) != f(j) { assert |f(i).items| == i && |f(j).items| == j; }
    var n := Escapes(f, used);
    v := f(n);
  }

  lemma OtherObject(s: Schema, used: set<Value>) returns (v: Value)
    requires WellFormed(s) && s.enumeration == [] && s.kind == ObjectKind && Listing(s).None?
    ensures Conforms(s, v) && v !in used
    decreases s, 0
  {
    SampleConforms(s);
    var members := Sample(s).members;
    if s.additional {
      var name := FreshName(s.properties.Keys);
      var f := (n: nat) => Object(members[name := Str(Zeros(n))]);
      forall i: nat, j: nat | i != j ensures f(i) != f(j) {
        ZerosDiffer(i, j);
        assert f(i).members[name] != f(j).members[name];
      }
      var n := Escapes(f, used);
      v := f(n);
    } else {
      var name :| name in s.properties && Listing(s.properties[name]).None?;
      var inner := set o | o in used && o.Object? && name in o.members :: o.members[name];
      var x := Unlisted(s.properties[name], inner);
      v := Object(members[name := x]);
      assert v.members[name] == x;
      hide Listing;
    }
  }

  lemma FreshName(names: set<string>) returns (name: string)
    ensures name !in names
  {
    forall i: nat, j: nat | i != j ensures Zeros(i) != Zeros(j) { ZerosDiffer(i, j); }
    var n := Escapes((n: nat) => Zeros(n), names);
    name := Zeros(n);
  }

  // ------------------------------------------------------- deciding subsumption

  /** Every value of `inner` is one of `outer`, read off the two definitions. */
  ghost predicate Within(inner: Schema, outer: Schema)
    decreases inner
  {
    if inner.enumeration != [] then forall c :: c in inner.enumeration ==> Conforms(outer, c)
    else if outer.enumeration != [] then Listing(inner).Some? && forall v :: v in Listing(inner).value ==> Conforms(outer, v)
    else if inner.kind == ObjectKind then outer.kind == ObjectKind && MembersWithin(inner, outer)
    else if inner.kind == ArrayKind then
      outer.kind == ArrayKind && inner.items.Some? && outer.items.Some? && Within(inner.items.value, outer.items.value)
    else inner.kind == outer.kind || (inner.kind == IntegerKind && outer.kind == NumberKind)
  }

  ghost predicate MembersWithin(inner: Schema, outer: Schema)
    decreases inner, 0
  {
    && (forall n :: n in outer.required ==> n in inner.required)
    && (inner.additional ==> outer.additional && forall n :: n in outer.properties ==> n in inner.properties)
    && (forall n :: n in inner.properties ==>
          if n in outer.properties then Within(inner.properties[n], outer.properties[n]) else outer.additional)
  }

  lemma EqualConforms(s: Schema, c: Value, v: Value)
    requires ValuesEqual(c, v) && Conforms(s, c)
    ensures Conforms(s, v)
  {
    hide Rational, Scan, IsInteger;
    if IsNumber(c) && IsNumber(v) && s.enumeration != [] {
      var w :| w in s.enumeration && ValuesEqual(w, c);
      assert ValuesEqual(w, v);
    }
  }

  lemma {:induction false} WithinIsSound(inner: Schema, outer: Schema, v: Value)
    requires WellFormed(inner) && Within(inner, outer) && Conforms(inner, v)
    ensures Conforms(outer, v)
    decreases inner
  {
    hide Rational, Scan, IsInteger, Listing, ValuesEqual;
    if inner.enumeration != [] {
      var c :| c in inner.enumeration && ValuesEqual(c, v);
      EqualConforms(outer, c, v);
    } else if outer.enumeration != [] {
      ListingIsExact(inner, v);
    } else if inner.kind == ObjectKind {
      forall n | n in v.members && n in inner.properties && n in outer.properties
        ensures Conforms(outer.properties[n], v.members[n])
      {
        WithinIsSound(inner.properties[n], outer.properties[n], v.members[n]);
      }
    } else if inner.kind == ArrayKind {
      forall i | 0 <= i < |v.items| ensures Conforms(outer.items.value, v.items[i]) {
        WithinIsSound(inner.items.value, outer.items.value, v.items[i]);
      }
    }
  }

  /** Where the definitions do not decide for it, some value speaks against it. */
  lemma {:induction false} WithoutWitness(inner: Schema, outer: Schema) returns (v: Value)
    requires WellFormed(inner) && WellFormed(outer) && !Within(inner, outer)
    ensures Conforms(inner, v) && !Conforms(outer, v)
    decreases inner, 1
  {
    hide Rational, Scan, IsInteger, Listing;
    if inner.enumeration != [] {
      v :| v in inner.enumeration && !Conforms(outer, v);
      EqualIsReflexive(v);
    } else if outer.enumeration != [] {
      v := NotEnumerated(inner, outer);
    } else if inner.kind == ObjectKind && outer.kind == ObjectKind {
      v := MemberWitness(inner, outer);
    } else if inner.kind == ArrayKind && outer.kind == ArrayKind {
      var item := WithoutWitness(inner.items.value, outer.items.value);
      v := Array([item]);
      assert v.items[0] == item;
    } else if inner.kind == NumberKind && outer.kind == IntegerKind {
      v := Number(Render(Half()));
      HalfIsNoInteger();
    } else {
      v := Sample(inner);
      SampleConforms(inner);
    }
  }

  function Half(): Decimal {
    Scaled(false, "5", 1)
  }

  lemma HalfIsNoInteger()
    ensures IsNumber(Number(Render(Half()))) && !IsInteger(Rational(Number(Render(Half()))))
  {
    HalfDenotes();
    hide *;
    RenderScans(Half());
    DecimalInDenotes(Render(Half()));
    HalfIsFraction(Rational(Number(Render(Half()))));
  }

  lemma HalfDenotes()
    ensures IsNormal(Half()) && Denotes(Half()) == 0.5
    ensures Scan(Render(Half())).Some? ==> Rational(Number(Render(Half()))) == Numbers.Value(Render(Half()))
    ensures Scan(Render(Half())).Some? ==> IsNumber(Number(Render(Half())))
  {
    assert "5"[..0] == [];
    assert Nat("5") == 5;
    assert Pow10(-1) == 0.1;
    hide Scan, Render;
  }

  lemma HalfIsFraction(x: real)
    requires x == 0.5
    ensures !IsInteger(x)
  {
  }

  lemma NotEnumerated(inner: Schema, outer: Schema) returns (v: Value)
    requires WellFormed(inner) && WellFormed(outer) && inner.enumeration == [] && outer.enumeration != [] && !Within(inner, outer)
    ensures Conforms(inner, v) && !Conforms(outer, v)
  {
    hide Listing, Rational, Scan, IsInteger;
    if Listing(inner).Some? {
      v :| v in Listing(inner).value && !Conforms(outer, v);
      ListingIsExact(inner, v);
    } else if inner.kind in {NumberKind, IntegerKind} {
      v := UnlistedNumber(inner, outer);
    } else {
      v := Unlisted(inner, set c | c in outer.enumeration);
      assert !IsNumber(v);
    }
  }

  lemma UnlistedNumber(inner: Schema, outer: Schema) returns (v: Value)
    requires inner.enumeration == [] && outer.enumeration != [] && inner.kind in {NumberKind, IntegerKind}
    ensures Conforms(inner, v) && !Conforms(outer, v)
  {
    hide Rational, Scan, IsInteger;
    var f := (n: nat) => n as real;
    var n := Escapes(f, set c | c in outer.enumeration && IsNumber(c) :: Rational(c));
    v := Number(Spell(n));
    SpelledConforms(inner, n);
    hide Spell;
    forall c | c in outer.enumeration && IsNumber(c) ensures Rational(c) != n as real {
      assert Rational(c) in set x | x in outer.enumeration && IsNumber(x) :: Rational(x);
    }
  }

  lemma MemberWitness(inner: Schema, outer: Schema) returns (v: Value)
    requires WellFormed(inner) && WellFormed(outer) && inner.enumeration == [] && outer.enumeration == []
    requires inner.kind == ObjectKind && outer.kind == ObjectKind && !MembersWithin(inner, outer)
    ensures Conforms(inner, v) && !Conforms(outer, v)
    decreases inner, 0
  {
    hide Within;
    if n :| n in outer.required && n !in inner.required {
      SampleConforms(inner);
      v := Sample(inner);
    } else if inner.additional && !outer.additional {
      var name := FreshFor(inner, outer);
      v := Undeclared(inner, outer, name);
    } else if inner.additional && exists n :: n in outer.properties && n !in inner.properties {
      var n :| n in outer.properties && n !in inner.properties;
      v := WithMember(inner, outer, n, Stray(outer.properties[n]));
    } else if n :| n in inner.properties && n !in outer.properties && !outer.additional {
      v := Undeclared(inner, outer, n);
    } else {
      var n :| n in inner.properties && n in outer.properties && !Within(inner.properties[n], outer.properties[n]);
      var bad := WithoutWitness(inner.properties[n], outer.properties[n]);
      v := WithMember(inner, outer, n, bad);
    }
  }

  lemma FreshFor(inner: Schema, outer: Schema) returns (name: string)
    ensures name !in inner.properties && name !in outer.properties
  {
    name := FreshName(inner.properties.Keys + outer.properties.Keys);
  }

  /** A name that the outer schema does not declare, and does not admit. */
  lemma Undeclared(inner: Schema, outer: Schema, name: string) returns (v: Value)
    requires WellFormed(inner) && inner.enumeration == [] && inner.kind == ObjectKind && outer.kind == ObjectKind
    requires name !in outer.properties && !outer.additional && (name in inner.properties || inner.additional)
    ensures Conforms(inner, v) && !Conforms(outer, v)
  {
    SampleConforms(inner);
    var x := if name in inner.properties then Sample(inner.properties[name]) else Null;
    if name in inner.properties { SampleConforms(inner.properties[name]); }
    v := Object(Sample(inner).members[name := x]);
    assert name in v.members;
  }

  /** The condition is exact for all well-formed schemas. */
  lemma WithinDecides(inner: Schema, outer: Schema)
    requires WellFormed(inner) && WellFormed(outer)
    ensures Subsumes(inner, outer) <==> Within(inner, outer)
  {
    if Within(inner, outer) {
      forall v | Conforms(inner, v) ensures Conforms(outer, v) { WithinIsSound(inner, outer, v); }
    } else {
      var v := WithoutWitness(inner, outer);
    }
  }
}
