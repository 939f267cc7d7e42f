/** What the static relations between schemas promise about values, and exactly
    when the promise of assignable holds. */
module Assignability {
  import opened Prelude
  import opened Numbers
  import opened Json
  import opened Schemas

  // ------------------------------------------------------------------ sameType

  lemma {:induction false} DistinctSize<T>(s: seq<T>)
    requires Distinct(s)
    ensures |set x | x in s| == |s|
  {
    if s != [] {
      var front, last := s[..|s| - 1], s[|s| - 1];
      DistinctSize(front);
      assert s == front + [last];
      assert (set x | x in s) == (set x | x in front) + {last};
      assert last !in front;
    }
  }

  lemma SameElements<T(!new)>(a: seq<T>, b: seq<T>)
    requires Distinct(a) && Distinct(b) && |a| == |b| && forall n :: n in b ==> n in a
    ensures forall n :: n in a <==> n in b
  {
    var x, y := set n | n in a, set n | n in b;
    DistinctSize(a);
    DistinctSize(b);
    SubsetOfSameSize(y, x);
    forall n ensures n in a <==> n in b {
      assert n in x <==> n in a;
      assert n in y <==> n in b;
    }
  }

  /** Two shapes of the same size, one inside the other, declare the same names. */
  lemma SameNames(a: Schema, b: Schema)
    requires a.kind == ObjectKind && SameType(a, b) && WellFormed(a) && WellFormed(b)
    ensures a.properties.Keys == b.properties.Keys
    ensures forall n :: n in a.required <==> n in b.required
  {
    assert Distinct(a.required) && Distinct(b.required);
    assert a.properties.Keys <= b.properties.Keys && |a.properties.Keys| == |b.properties.Keys|;
    assert |a.required| == |b.required| && forall n :: n in b.required ==> n in a.required;
    hide *;
    SubsetOfSameSize(a.properties.Keys, b.properties.Keys);
    SameElements(a.required, b.required);
  }

  /** Schemas without enumerations or open objects that sameType accepts describe the same values. */
  lemma {:induction false} SameTypeDescribesTheSame(a: Schema, b: Schema, v: Value)
    requires WellFormed(a) && WellFormed(b) && EnumFree(a) && EnumFree(b) && Closed(a) && Closed(b) && SameType(a, b)
    ensures Conforms(a, v) <==> Conforms(b, v)
    decreases a
  {
    match a.kind {
      case ObjectKind =>
        SameNames(a, b);
        if v.Object? {
          forall n | n in v.members && n in a.properties
            ensures Conforms(a.properties[n], v.members[n]) <==> Conforms(b.properties[n], v.members[n])
          {
            SameTypeDescribesTheSame(a.properties[n], b.properties[n], v.members[n]);
          }
        }
      case ArrayKind =>
        if v.Array? {
          forall i | 0 <= i < |v.items| ensures Conforms(a.items.value, v.items[i]) <==> Conforms(b.items.value, v.items[i]) {
            SameTypeDescribesTheSame(a.items.value, b.items.value, v.items[i]);
          }
        }
      case _ =>
    }
  }

  // ---------------------------------------------------------------- assignable

  /** Wherever the source leaves an object open, the target types no name the source does not declare. */
  ghost predicate NoHole(source: Schema, target: Schema) {
    && (source.kind == ObjectKind && target.kind == ObjectKind ==>
          && (source.additional ==> forall n :: n in target.properties ==> n in source.properties)
          && (forall n :: n in source.properties && n in target.properties ==> NoHole(source.properties[n], target.properties[n])))
    && (source.kind == ArrayKind && target.kind == ArrayKind && source.items.Some? && target.items.Some? ==>
          NoHole(source.items.value, target.items.value))
  }

  lemma {:induction false} ClosedHasNoHole(source: Schema, target: Schema)
    requires Closed(source)
    ensures NoHole(source, target)
    decreases source
  {
    forall n | n in source.properties && n in target.properties ensures NoHole(source.properties[n], target.properties[n]) {
      ClosedHasNoHole(source.properties[n], target.properties[n]);
    }
    if source.items.Some? && target.items.Some? { ClosedHasNoHole(source.items.value, target.items.value); }
  }

  lemma {:induction false} AssignableIsSound(source: Schema, target: Schema, limits: Limits, v: Value)
    requires EnumFree(source) && Assignable(source, target, limits) && NoHole(source, target) && Conforms(source, v)
    ensures Conforms(target, v)
    decreases source
  {
    match source.kind {
      case ObjectKind =>
        forall n | n in v.members && n in target.properties ensures Conforms(target.properties[n], v.members[n]) {
          if n in source.properties {
            AssignableIsSound(source.properties[n], target.properties[n], limits, v.members[n]);
          }
        }
      case ArrayKind =>
        forall i | 0 <= i < |v.items| ensures Conforms(target.items.value, v.items[i]) {
          AssignableIsSound(source.items.value, target.items.value, limits, v.items[i]);
        }
      case _ =>
    }
  }

  // --------------------------------------------------- witnesses of unsoundness

  lemma ZeroIsANumber()
    ensures Scan("0") == Some(Literal(false, "0", "", 0)) && IsNumber(Number("0")) && Rational(Number("0")) == 0.0
  {
    RenderScans(Zero);
    DecimalInDenotes("0");
    assert Render(Zero) == "0";
    ScanJoined(false, "0", "", false);
    assert "0" + "" == "0";
  }

  /** Some value of a schema: the first one enumerated, or the one without optional properties. */
  function Sample(s: Schema): Value {
    if s.enumeration != [] then s.enumeration[0]
    else
    match s.kind
    case ObjectKind => Object(map n | n in s.properties && n in s.required :: Sample(s.properties[n]))
    case ArrayKind => Array([])
    case StringKind => Str("")
    case NumberKind => Number("0")
    case IntegerKind => Number("0")
    case BooleanKind => Bool(true)
    case NullKind => Null
  }

  lemma {:induction false} SampleConforms(s: Schema)
    requires WellFormed(s)
    ensures Conforms(s, Sample(s))
  {
    ZeroIsANumber();
    if s.enumeration != [] {
      assert s.enumeration[0] in s.enumeration;
    } else if s.kind == ObjectKind {
      forall n | n in s.properties && n in s.required ensures Conforms(s.properties[n], Sample(s.properties[n])) {
        SampleConforms(s.properties[n]);
      }
    }
  }

  /** Some value that is not one of a schema. */
  function Stray(s: Schema): Value {
    if s.kind == NullKind then Bool(true) else Null
  }

  /** A hole lets a value through that the target rejects. */
  lemma {:induction false} HoleWitness(source: Schema, target: Schema) returns (v: Value)
    requires WellFormed(source) && EnumFree(source) && !NoHole(source, target)
    ensures Conforms(source, v) && !Conforms(target, v)
    decreases source
  {
    if source.kind == ArrayKind {
      var item := HoleWitness(source.items.value, target.items.value);
      v := Array([item]);
      assert v.items[0] == item;
    } else {
      if source.additional && exists n :: n in target.properties && n !in source.properties {
        var n :| n in target.properties && n !in source.properties;
        v := WithMember(source, target, n, Stray(target.properties[n]));
      } else {
        var n :| n in source.properties && n in target.properties && !NoHole(source.properties[n], target.properties[n]);
        var inner := HoleWitness(source.properties[n], target.properties[n]);
        v := WithMember(source, target, n, inner);
      }
    }
  }

  lemma WithMember(source: Schema, target: Schema, n: string, bad: Value) returns (v: Value)
    requires WellFormed(source) && source.enumeration == [] && source.kind == ObjectKind && target.kind == ObjectKind
    requires if n in source.properties then Conforms(source.properties[n], bad) else source.additional
    requires n in target.properties && !Conforms(target.properties[n], bad)
    ensures Conforms(source, v) && !Conforms(target, v)
  {
    SampleConforms(source);
    v := Object(Sample(source).members[n := bad]);
    assert v.members[n] == bad;
  }

  ghost predicate Subsumes(source: Schema, target: Schema) {
    forall v :: Conforms(source, v) ==> Conforms(target, v)
  }

  /** When assignable accepts, every value of the source is one of the target exactly if there is no hole. */
  lemma AssignableExactly(source: Schema, target: Schema, limits: Limits)
    requires WellFormed(source) && EnumFree(source) && Assignable(source, target, limits)
    ensures Subsumes(source, target) <==> NoHole(source, target)
  {
    if NoHole(source, target) {
      forall v | Conforms(source, v) ensures Conforms(target, v) { AssignableIsSound(source, target, limits, v); }
    } else {
      var v := HoleWitness(source, target);
    }
  }

  /** The smallest hole: an open object assigned to one that types an undeclared name. */
  lemma OpenSourceIsNotSubsumed(limits: Limits)
    ensures var source := Schema(ObjectKind, map[], [], true, None, [], false);
            var target := Schema(ObjectKind, map["a" := Scalar(BooleanKind)], [], true, None, [], false);
            WellFormed(source) && WellFormed(target) && Assignable(source, target, limits) && !Subsumes(source, target)
  {
    var source := Schema(ObjectKind, map[], [], true, None, [], false);
    var target := Schema(ObjectKind, map["a" := Scalar(BooleanKind)], [], true, None, [], false);
    var v := Object(map["a" := Null]);
    assert Conforms(source, v);
    assert !Conforms(target.properties["a"], v.members["a"]);
    assert !Conforms(target, v);
  }
}
