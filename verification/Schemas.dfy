/** The schema profile: which values conform, what a path resolves to, and the two
    static relations between schemas. Property names are taken as valid
    identifiers; `secret` is the secret-handle format. */
module Schemas {
  import opened Prelude
  import opened Numbers
  import opened Json
  import Digits

  datatype Kind = ObjectKind | ArrayKind | StringKind | NumberKind | IntegerKind | BooleanKind | NullKind

  datatype Schema = Schema(
    kind: Kind,
    properties: map<string, Schema>,
    required: seq<string>,
    additional: bool,
    items: Option<Schema>,
    enumeration: seq<Value>,
    secret: bool)

  function Scalar(kind: Kind): Schema {
    Schema(kind, map[], [], false, None, [], false)
  }

  function ArrayOf(item: Schema): Schema {
    Schema(ArrayKind, map[], [], false, Some(item), [], false)
  }

  function ClosedObject(properties: map<string, Schema>, required: seq<string>): Schema {
    Schema(ObjectKind, properties, required, false, None, [], false)
  }

  ghost predicate Distinct<T>(s: seq<T>) {
    forall i, j :: 0 <= i < j < |s| ==> s[i] != s[j]
  }

  ghost predicate IsInteger(x: real) {
    x == x.Floor as real
  }

  ghost predicate IsNumber(v: Value) {
    v.Number? && Scan(v.text).Some?
  }

  ghost function Rational(v: Value): real
    requires IsNumber(v)
  {
    Numbers.Value(v.text)
  }

  /** valuesEqual: numbers by value, everything else structurally. */
  ghost predicate ValuesEqual(a: Value, b: Value) {
    if IsNumber(a) && IsNumber(b) then Rational(a) == Rational(b) else a == b
  }

  /** validateValue. */
  ghost predicate Conforms(s: Schema, v: Value)
    decreases s, 1
  {
    HasShape(s, v) && (s.enumeration == [] || exists c :: c in s.enumeration && ValuesEqual(c, v))
  }

  /** validateValueWithoutEnum. */
  ghost predicate HasShape(s: Schema, v: Value)
    decreases s, 0
  {
    match s.kind
    case ObjectKind =>
      && v.Object?
      && (forall n :: n in s.required ==> n in v.members)
      && (forall n :: n in v.members ==> if n in s.properties then Conforms(s.properties[n], v.members[n]) else s.additional)
    case ArrayKind => v.Array? && s.items.Some? && forall i :: 0 <= i < |v.items| ==> Conforms(s.items.value, v.items[i])
    case StringKind => v.Str?
    case NumberKind => IsNumber(v)
    case IntegerKind => IsNumber(v) && IsInteger(Rational(v))
    case BooleanKind => v.Bool?
    case NullKind => v.Null?
  }

  /** validateDefinition, without defaults. */
  ghost predicate WellFormed(s: Schema) {
    && (match s.kind
        case ObjectKind =>
          && s.items.None? && Distinct(s.required)
          && (forall n :: n in s.required ==> n in s.properties)
          && (forall n :: n in s.properties ==> WellFormed(s.properties[n]))
        case ArrayKind =>
          && s.items.Some? && s.properties == map[] && s.required == [] && !s.additional
          && WellFormed(s.items.value)
        case _ => s.properties == map[] && s.required == [] && s.items.None? && !s.additional)
    && (s.secret ==> s.kind == StringKind && s.enumeration == [])
    && (forall v :: v in s.enumeration ==> HasShape(s, v))
  }

  /** No enumeration anywhere. */
  ghost predicate EnumFree(s: Schema) {
    && s.enumeration == []
    && (forall n :: n in s.properties ==> EnumFree(s.properties[n]))
    && (s.items.Some? ==> EnumFree(s.items.value))
  }

  /** No object anywhere that accepts undeclared properties. */
  ghost predicate Closed(s: Schema) {
    && !s.additional
    && (forall n :: n in s.properties ==> Closed(s.properties[n]))
    && (s.items.Some? ==> Closed(s.items.value))
  }

  // --------------------------------------------------------------------- paths

  /** A canonical array index below 2^31. */
  function IndexOf(segment: string): Option<nat> {
    if segment == "" || (|segment| > 1 && segment[0] == '0') || !Digits.AllDigits(segment) then None
    else if Digits.Nat(segment) >= 0x8000_0000 then None else Some(Digits.Nat(segment))
  }


  /** Schema.Resolve. */
  function Resolve(s: Schema, path: seq<string>): Option<Schema>
    decreases |path|
  {
    if path == [] then Some(s)
    else
      match s.kind
      case ObjectKind => if path[0] in s.properties then Resolve(s.properties[path[0]], path[1..]) else None
      case ArrayKind =>
        if s.items.None? || IndexOf(path[0]).None? then None else Resolve(s.items.value, path[1..])
      case _ => None
  }

  /** What a path finds in a value: nothing there is not an error, a path through a scalar is. */
  datatype Found = Missing | CrossesScalar | Found(value: Value)

  /** resolveValue. */
  function Lookup(v: Value, path: seq<string>): Found
    decreases |path|
  {
    if path == [] then Found(v)
    else
      match v
      case Object(members) => if path[0] in members then Lookup(members[path[0]], path[1..]) else Missing
      case Array(items) =>
        var index := Atoi(path[0]);
        if index.None? || index.value < 0 || index.value >= |items| then Missing else Lookup(items[index.value], path[1..])
      case _ => CrossesScalar
  }

  /** The cursor loop of resolveValue. */
  method ResolveValue(value: Value, segments: seq<string>) returns (r: Found)
    ensures r == Lookup(value, segments)
  {
    var current := value;
    for i := 0 to |segments|
      invariant Lookup(value, segments) == Lookup(current, segments[i..])
    {
      var segment := segments[i];
      assert segments[i..][0] == segment && segments[i..][1..] == segments[i + 1..];
      match current {
        case Object(members) =>
          if segment !in members { return Missing; }
          current := members[segment];
        case Array(items) =>
          var index := Atoi(segment);
          if index.None? || index.value < 0 || index.value >= |items| { return Missing; }
          current := items[index.value];
        case _ => return CrossesScalar;
      }
    }
    return Found(current);
  }

  /** A path that the schema resolves never crosses a scalar of a conforming
      value, and what it finds conforms to the schema it resolved to. */
  lemma {:induction false} LookupConforms(s: Schema, v: Value, path: seq<string>)
    requires Conforms(s, v) && Resolve(s, path).Some?
    ensures var found := Lookup(v, path);
            !found.CrossesScalar? && (found.Found? ==> Conforms(Resolve(s, path).value, found.value))
    decreases |path|
  {
    if path != [] {
      match v {
        case Object(members) =>
          if path[0] in members { LookupConforms(s.properties[path[0]], members[path[0]], path[1..]); }
        case Array(items) =>
          var index := Atoi(path[0]);
          if index.Some? && 0 <= index.value < |items| { LookupConforms(s.items.value, items[index.value], path[1..]); }
        case _ =>
      }
    }
  }

  // ----------------------------------------------------------------- relations

  /** sameType. */
  ghost predicate SameType(a: Schema, b: Schema) {
    && a.kind == b.kind && a.secret == b.secret
    && (a.kind == ArrayKind ==> a.items.Some? && b.items.Some? && SameType(a.items.value, b.items.value))
    && (a.kind == ObjectKind ==>
          && |a.properties| == |b.properties| && |a.required| == |b.required|
          && (forall n :: n in b.required ==> n in a.required)
          && (forall n :: n in a.properties ==> n in b.properties && SameType(a.properties[n], b.properties[n])))
  }

  /** The enumeration part of assignable: canonical texts decide. */
  ghost predicate EnumAssignable(source: Schema, target: Schema, limits: Limits) {
    target.enumeration == [] ||
    (source.enumeration != [] && forall v :: v in source.enumeration ==>
       exists w :: w in target.enumeration && Printable(v, limits) && Printable(w, limits) && Print(v, limits) == Print(w, limits))
  }

  /** assignable. */
  ghost predicate Assignable(source: Schema, target: Schema, limits: Limits) {
    && source.secret == target.secret
    && (source.kind == target.kind || (source.kind == IntegerKind && target.kind == NumberKind))
    && EnumAssignable(source, target, limits)
    && (target.kind == ObjectKind ==>
          && (forall n :: n in target.required ==>
                n in source.properties && n in source.required && n in target.properties
                && Assignable(source.properties[n], target.properties[n], limits))
          && (source.additional ==> target.additional)
          && (forall n :: n in source.properties ==>
                if n in target.properties then Assignable(source.properties[n], target.properties[n], limits)
                else target.additional))
    && (target.kind == ArrayKind ==>
          source.items.Some? && target.items.Some? && Assignable(source.items.value, target.items.value, limits))
  }
}
