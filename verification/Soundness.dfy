/** Type soundness: what the checker accepts, the evaluator never finds ill-typed,
    and its result conforms to the type. */
module Soundness {
  import opened Prelude
  import opened Digits
  import opened Numbers
  import opened Text
  import opened Json
  import opened Schemas
  import opened Assignability
  import opened Expressions
  import opened Subsumption

  /** The types the checker infers: well formed, without enumerations or open objects. */
  ghost predicate Tame(s: Schema) {
    WellFormed(s) && EnumFree(s) && Closed(s)
  }

  ghost predicate TameEnvironment(env: Environment) {
    && Tame(env.inputs) && Tame(env.trigger) && Tame(env.scope)
    && (env.iteration.Some? ==> Tame(env.iteration.value))
    && (forall n :: n in env.nodeOutputs ==> Tame(env.nodeOutputs[n]))
  }

  /** validateValues. */
  ghost predicate ValuesConform(env: Environment, values: Values) {
    && Conforms(env.inputs, Object(values.inputs))
    && Conforms(env.trigger, Object(values.trigger))
    && Conforms(env.scope, Object(values.scope))
    && (env.iteration.Some? ==> Conforms(env.iteration.value, values.iteration))
    && (forall n :: n in values.nodeOutputs ==> n in env.nodeOutputs && Conforms(env.nodeOutputs[n], values.nodeOutputs[n]))
    && values.secrets <= env.secrets
  }

  /** What soundness says of one outcome at a type. */
  ghost predicate Fits(r: Outcome, s: Schema) {
    match r
    case Plain(v) => Conforms(s, v)
    case Absent => true
    case Handle => s.secret
    case Fail(f) => f != TypeFailure
  }

  /** Every schema of the environment passes validation. */
  ghost predicate Lawful(env: Environment) {
    && WellFormed(env.inputs) && WellFormed(env.trigger) && WellFormed(env.scope)
    && (env.iteration.Some? ==> WellFormed(env.iteration.value))
    && (forall n :: n in env.nodeOutputs ==> WellFormed(env.nodeOutputs[n]))
  }

  // ------------------------------------------------------- what the types cannot see

  /** A path of required properties to something other than null. */
  predicate CertainPath(s: Schema, path: seq<string>)
    decreases |path|
  {
    if path == [] then s.kind != NullKind
    else
      && s.kind == ObjectKind && path[0] in s.properties && path[0] in s.required
      && CertainPath(s.properties[path[0]], path[1..])
  }

  /** A secret and a node output are there, or the reference fails. */
  predicate DefiniteReference(path: seq<string>, env: Environment) {
    if |path| < 2 then false
    else if path[0] == "inputs" then CertainPath(env.inputs, path[1..])
    else if path[0] == "trigger" then CertainPath(env.trigger, path[1..])
    else if path[0] == "scope" then CertainPath(env.scope, path[1..])
    else if path[0] == "iteration" then env.iteration.Some? && CertainPath(env.iteration.value, path[1..])
    else if path[0] == "nodes" then
      |path| >= 4 && path[1] in env.nodeOutputs && CertainPath(env.nodeOutputs[path[1]], path[3..])
    else path[0] == "secrets"
  }

  /** An expression that never yields null and is never missing. */
  predicate Definite(e: Expr, env: Environment) {
    match e
    case Literal(v) => !v.Null?
    case Ref(path) => DefiniteReference(path, env)
    case Apply(op, args) => op != Coalesce || exists i :: 0 <= i < |args| && Definite(args[i], env)
    case Record(_) => true
    case List(_) => true
  }

  /** Every type but null lies within one type. */
  ghost predicate Covered(ss: seq<Schema>, t: Schema) {
    forall i :: 0 <= i < |ss| ==> ss[i].kind == NullKind || ss[i] == t || Within(ss[i], t)
  }

  /** The arguments of a coalesce lie within its type, and the elements of a list
      within the type of the first; `closed` waives this, for environments where
      nothing is open or enumerated. */
  ghost predicate Uniform(es: seq<Expr>, env: Environment, limits: Limits, coalesce: bool, closed: bool) {
    var ss := CheckAll(es, env, limits);
    closed || ss.None? || ss.value == []
    || if !coalesce then forall i :: 0 < i < |ss.value| ==> Within(ss.value[i], ss.value[0])
       else CoalesceType(ss.value).Some? ==> Covered(ss.value, CoalesceType(ss.value).value)
  }

  /** No null gets further than to a coalesce. */
  ghost predicate Guarded(e: Expr, env: Environment, limits: Limits, closed: bool)
    decreases e, 1
  {
    && Sheltered(e, env, limits, closed)
    && (e.Apply? && e.op == Coalesce ==> Definite(e, env) || Check(e, env, limits) == Some(Scalar(NullKind)))
  }

  /** The same of an argument of a coalesce, which may be null. */
  ghost predicate Sheltered(e: Expr, env: Environment, limits: Limits, closed: bool)
    decreases e, 0
  {
    match e
    case Literal(_) => true
    case Ref(_) => true
    case Apply(op, args) =>
      if op == Coalesce then
        && Uniform(args, env, limits, true, closed)
        && forall i :: 0 <= i < |args| ==> Sheltered(args[i], env, limits, closed)
      else forall i :: 0 <= i < |args| ==> Guarded(args[i], env, limits, closed)
    case Record(fields) => forall i :: 0 <= i < |fields| ==> Guarded(fields[i].expr, env, limits, closed)
    case List(elements) =>
      && Uniform(elements, env, limits, false, closed)
      && forall i :: 0 <= i < |elements| ==> Guarded(elements[i], env, limits, closed)
  }

  lemma OperationsAreNotNull(op: Op, vs: seq<Value>)
    ensures EvalOperation(op, vs).Fail? || (EvalOperation(op, vs).Plain? && !EvalOperation(op, vs).value.Null?)
  {
    hide EvalAnd, EvalOr, EvalConcat, EvalBinary, EvalLength;
    if op == And {
      AndIsBool(vs);
    } else if op == Or {
      OrIsBool(vs);
    } else if op == Concat {
      ConcatIsString(vs, "");
    } else if op == Length {
      if vs != [] { LengthIsNotNull(vs[0]); }
    } else if op != Not {
      if |vs| >= 2 { BinaryIsNotNull(op, vs[0], vs[1]); }
    }
  }

  predicate NotNull(r: Outcome) {
    r.Fail? || (r.Plain? && !r.value.Null?)
  }

  lemma LengthIsNotNull(v: Value)
    ensures NotNull(EvalLength(v))
  {
  }

  lemma BinaryIsNotNull(op: Op, a: Value, b: Value)
    ensures NotNull(EvalBinary(op, a, b))
  {
    hide EvalContains, Equal, Compare, DecimalText, Exact, IsNumber, Rational, Occurs, Holds;
    if op == Contains && a.Array? { ContainsIsBool(a.items, b); }
  }

  lemma {:induction false} AndIsBool(vs: seq<Value>)
    ensures EvalAnd(vs) == Fail(TypeFailure) || (EvalAnd(vs).Plain? && EvalAnd(vs).value.Bool?)
    ensures (forall i :: 0 <= i < |vs| ==> vs[i].Bool?) ==> !EvalAnd(vs).Fail?
  {
    if vs != [] { AndIsBool(vs[1..]); }
  }

  lemma {:induction false} OrIsBool(vs: seq<Value>)
    ensures EvalOr(vs) == Fail(TypeFailure) || (EvalOr(vs).Plain? && EvalOr(vs).value.Bool?)
    ensures (forall i :: 0 <= i < |vs| ==> vs[i].Bool?) ==> !EvalOr(vs).Fail?
  {
    if vs != [] { OrIsBool(vs[1..]); }
  }

  lemma {:induction false} ConcatIsString(vs: seq<Value>, prefix: string)
    ensures EvalConcat(vs, prefix) == Fail(TypeFailure) || (EvalConcat(vs, prefix).Plain? && EvalConcat(vs, prefix).value.Str?)
    ensures (forall i :: 0 <= i < |vs| ==> vs[i].Str?) ==> !EvalConcat(vs, prefix).Fail?
  {
    if vs != [] && vs[0].Str? { ConcatIsString(vs[1..], prefix + vs[0].content); }
  }

  lemma {:induction false} ContainsIsBool(items: seq<Value>, v: Value)
    ensures EvalContains(items, v) == Fail(TypeFailure) || (EvalContains(items, v).Plain? && EvalContains(items, v).value.Bool?)
    ensures (forall i :: 0 <= i < |items| ==> Equal(items[i], v).Some?) ==> !EvalContains(items, v).Fail?
  {
    if items != [] { ContainsIsBool(items[1..], v); }
  }

  lemma {:induction false} CertainIsFound(s: Schema, v: Value, path: seq<string>)
    requires Conforms(s, v) && CertainPath(s, path)
    ensures Lookup(v, path).Found? && !Lookup(v, path).value.Null?
    decreases |path|
  {
    if path != [] { CertainIsFound(s.properties[path[0]], v.members[path[0]], path[1..]); }
  }

  predicate Present(r: Outcome) {
    !r.Absent? && r != Plain(Null)
  }

  lemma DefiniteReferenceIsPresent(path: seq<string>, env: Environment, values: Values)
    requires ValuesConform(env, values) && DefiniteReference(path, env)
    ensures Present(EvalReference(path, values))
  {
    hide Conforms, CertainPath, Lookup;
    if path[0] == "inputs" {
      CertainIsFound(env.inputs, Object(values.inputs), path[1..]);
    } else if path[0] == "trigger" {
      CertainIsFound(env.trigger, Object(values.trigger), path[1..]);
    } else if path[0] == "scope" {
      CertainIsFound(env.scope, Object(values.scope), path[1..]);
    } else if path[0] == "iteration" {
      CertainIsFound(env.iteration.value, values.iteration, path[1..]);
    } else if path[0] == "nodes" {
      if path[1] in values.nodeOutputs { CertainIsFound(env.nodeOutputs[path[1]], values.nodeOutputs[path[1]], path[3..]); }
    }
  }

  /** A definite expression evaluates to something other than null, or fails. */
  lemma {:induction false} DefiniteIsPresent(e: Expr, env: Environment, values: Values)
    requires ValuesConform(env, values) && Definite(e, env)
    ensures Present(Eval(e, values))
    decreases e, 0
  {
    hide ValuesConform, EvalOperation, DefiniteReference, EvalReference;
    match e {
      case Ref(path) => DefiniteReferenceIsPresent(path, env, values);
      case Apply(op, args) =>
        if op == Coalesce {
          var i :| 0 <= i < |args| && Definite(args[i], env);
          CoalesceIsPresent(args, i, env, values);
        } else {
          var vs := EvalAll(args, values);
          if vs.Ok? { OperationsAreNotNull(op, vs.value); }
        }
      case _ =>
    }
  }

  lemma {:induction false} CoalesceIsPresent(args: seq<Expr>, i: nat, env: Environment, values: Values)
    requires ValuesConform(env, values) && i < |args| && Definite(args[i], env)
    ensures Present(EvalCoalesce(args, values))
    decreases args, i + 1
  {
    hide ValuesConform, Eval;
    if i == 0 {
      DefiniteIsPresent(args[0], env, values);
    } else {
      CoalesceIsPresent(args[1..], i - 1, env, values);
    }
  }

  // ---------------------------------------------------------------- arithmetic

  lemma IntegersAreClosed(a: real, b: real)
    requires IsInteger(a) && IsInteger(b)
    ensures IsInteger(a + b) && IsInteger(a - b) && IsInteger(a * b)
  {
    var m, n := a.Floor, b.Floor;
    assert a == m as real && b == n as real;
    hide IsInteger;
    CastOfSum(m, n);
    CastOfProduct(a, b, m, n);
    WholeIsInteger(m + n);
    WholeIsInteger(m - n);
    WholeIsInteger(m * n);
  }

  lemma CastOfSum(m: int, n: int)
    ensures m as real + n as real == (m + n) as real && m as real - n as real == (m - n) as real
  {
  }

  lemma CastOfProduct(a: real, b: real, m: int, n: int)
    requires a == m as real && b == n as real
    ensures a * b == (m * n) as real
  {
    assert m as real * n as real == (m * n) as real;
  }

  lemma WholeIsInteger(n: int)
    ensures IsInteger(n as real)
  {
  }

  lemma SpelledIsInteger(n: nat)
    ensures Conforms(Scalar(IntegerKind), Number(Spell(n)))
  {
    SpelledConforms(Scalar(IntegerKind), n);
  }

  /** An arithmetic result, when there is one, is the exact rational. */
  lemma ArithmeticIsExact(op: Op, a: Value, b: Value)
    requires IsNumber(a) && IsNumber(b)
    ensures var r := EvalArithmetic(op, a, b);
            || (r == Fail(DivisionByZero) && op == Div && Rational(b) == 0.0)
            || r == Fail(NoDecimal)
            || (r.Plain? && IsNumber(r.value) && Rational(r.value) == Exact(op, Rational(a), Rational(b)))
  {
    hide Exact, DecimalText, Scan, LiteralValue;
  }

  lemma IntegerShape(s: Schema, v: Value)
    requires Conforms(s, v) && s.kind == IntegerKind
    ensures IsNumber(v) && IsInteger(Rational(v))
  {
  }

  lemma ExactInteger(op: Op, a: real, b: real)
    requires op in {Add, Sub, Mul} && IsInteger(a) && IsInteger(b)
    ensures IsInteger(Exact(op, a, b))
  {
    IntegersAreClosed(a, b);
    hide IsInteger;
  }

  lemma ArithmeticFits(op: Op, a: Value, b: Value, s: Schema, t: Schema)
    requires IsArithmetic(op) && ArithmeticType(op, s, t).Some? && Conforms(s, a) && Conforms(t, b)
    ensures Fits(EvalArithmetic(op, a, b), ArithmeticType(op, s, t).value)
  {
    hide Conforms, EvalArithmetic, Exact, IsNumber, Rational, IsInteger;
    ScalarShapes(s, a);
    ScalarShapes(t, b);
    ArithmeticIsExact(op, a, b);
    if op != Div && s.kind == IntegerKind && t.kind == IntegerKind {
      IntegerShape(s, a);
      IntegerShape(t, b);
      ExactInteger(op, Rational(a), Rational(b));
    }
    var r := EvalArithmetic(op, a, b);
    if r.Plain? { NumberConforms(r.value); }
  }

  lemma NumberConforms(v: Value)
    requires IsNumber(v)
    ensures Conforms(Scalar(NumberKind), v)
    ensures IsInteger(Rational(v)) ==> Conforms(Scalar(IntegerKind), v)
  {
    hide Rational, Scan, IsInteger;
  }

  // ------------------------------------------------------------ one operation

  lemma ScalarShapes(s: Schema, v: Value)
    requires Conforms(s, v)
    ensures s.kind == BooleanKind ==> v.Bool?
    ensures s.kind == StringKind ==> v.Str?
    ensures s.kind == NullKind ==> v.Null?
    ensures s.kind == ArrayKind ==> v.Array?
    ensures s.kind == ObjectKind ==> v.Object?
    ensures s.kind in {NumberKind, IntegerKind} <==> IsNumber(v)
  {
  }

  lemma ComparableFits(op: Op, s: Schema, t: Schema, a: Value, b: Value)
    requires Comparable(s, t) && Conforms(s, a) && Conforms(t, b)
    ensures Equal(a, b).Some?
    ensures AllOf([s, t], {StringKind, NumberKind, IntegerKind}) ==> Compare(a, b).Some?
  {
    ScalarShapes(s, a);
    ScalarShapes(t, b);
    assert [s, t][0] == s && [s, t][1] == t;
    assert SameType(s, t) ==> s.kind == t.kind;
    hide Conforms, SameType, IsNumber;
  }

  lemma MembershipFits(s: Schema, t: Schema, a: Value, b: Value, limits: Limits)
    requires s.kind == ArrayKind && s.items.Some? && Assignable(t, s.items.value, limits)
    requires Conforms(s, a) && Conforms(t, b)
    ensures a.Array? && !EvalContains(a.items, b).Fail?
  {
    ScalarShapes(t, b);
    ScalarShapes(s, a);
    forall i | 0 <= i < |a.items| ensures Equal(a.items[i], b).Some? { ScalarShapes(s.items.value, a.items[i]); }
    ContainsIsBool(a.items, b);
  }

  lemma ScalarsAreTame()
    ensures forall k :: k !in {ObjectKind, ArrayKind} ==> Tame(Scalar(k))
  {
  }

  lemma BooleanFits(r: Outcome)
    requires r.Plain? && r.value.Bool?
    ensures Fits(r, Scalar(BooleanKind))
  {
  }

  lemma ContainsFits(s: Schema, t: Schema, a: Value, b: Value, limits: Limits)
    requires Conforms(s, a) && Conforms(t, b)
    requires BinaryType(Contains, s, t, limits).Some?
    ensures BinaryType(Contains, s, t, limits) == Some(Scalar(BooleanKind))
    ensures Fits(EvalMembership(a, b), Scalar(BooleanKind))
  {
    ScalarShapes(s, a);
    ScalarShapes(t, b);
    hide Conforms, Assignable, EvalContains, IsNumber, Occurs;
    if s.kind == ArrayKind {
      MembershipFits(s, t, a, b, limits);
      ContainsIsBool(a.items, b);
    }
    BooleanFits(EvalMembership(a, b));
  }

  lemma ComparisonFits(op: Op, s: Schema, t: Schema, a: Value, b: Value)
    requires Comparable(s, t) && Conforms(s, a) && Conforms(t, b)
    ensures Fits(EvalEquality(op, a, b), Scalar(BooleanKind))
    ensures AllOf([s, t], {StringKind, NumberKind, IntegerKind}) ==> Fits(EvalOrdering(op, a, b), Scalar(BooleanKind))
  {
    ComparableFits(op, s, t, a, b);
    hide Equal, Compare, Conforms, Holds, Fits, AllOf;
    BooleanFits(EvalEquality(op, a, b));
    if AllOf([s, t], {StringKind, NumberKind, IntegerKind}) { BooleanFits(EvalOrdering(op, a, b)); }
  }

  lemma BinaryFits(op: Op, s: Schema, t: Schema, a: Value, b: Value, limits: Limits)
    requires op !in {And, Or, Not, Concat, Length, Coalesce}
    requires Conforms(s, a) && Conforms(t, b)
    requires BinaryType(op, s, t, limits).Some?
    ensures Fits(EvalBinary(op, a, b), BinaryType(op, s, t, limits).value) && Tame(BinaryType(op, s, t, limits).value)
  {
    ScalarsAreTame();
    if op == Contains {
      ContainsFits(s, t, a, b, limits);
    } else if IsArithmetic(op) {
      hide Fits, Tame, Conforms, EvalArithmetic;
      ArithmeticFits(op, a, b, s, t);
    } else {
      hide Fits, Tame, Conforms, AllOf, Comparable, EvalEquality, EvalOrdering;
      ComparisonFits(op, s, t, a, b);
    }
  }

  lemma ScalarsConform()
    ensures forall b :: Conforms(Scalar(BooleanKind), Bool(b))
    ensures forall t :: Conforms(Scalar(StringKind), Str(t))
    ensures Tame(Scalar(BooleanKind)) && Tame(Scalar(StringKind)) && Tame(Scalar(IntegerKind))
  {
  }

  lemma OperationFits(op: Op, ss: seq<Schema>, vs: seq<Value>, limits: Limits)
    requires op != Coalesce && OperationType(op, ss, limits).Some? && |ss| == |vs|
    requires forall i :: 0 <= i < |ss| ==> Conforms(ss[i], vs[i])
    ensures Fits(EvalOperation(op, vs), OperationType(op, ss, limits).value) && Tame(OperationType(op, ss, limits).value)
  {
    hide Conforms, Tame;
    forall i | 0 <= i < |ss|
      ensures ss[i].kind == BooleanKind ==> vs[i].Bool?
      ensures ss[i].kind == StringKind ==> vs[i].Str?
    {
      ScalarShapes(ss[i], vs[i]);
    }
    ScalarsConform();
    if op == And {
      AndIsBool(vs);
    } else if op == Or {
      OrIsBool(vs);
    } else if op == Concat {
      ConcatIsString(vs, "");
    } else if op == Length {
      ScalarShapes(ss[0], vs[0]);
      LengthFits(vs[0]);
    } else if op != Not {
      BinaryFits(op, ss[0], ss[1], vs[0], vs[1], limits);
    }
  }

  lemma LengthFits(v: Value)
    requires v.Str? || v.Array? || v.Object?
    ensures Fits(EvalLength(v), Scalar(IntegerKind))
  {
    match v {
      case Str(content) => SpelledIsInteger(|content|);
      case Array(items) => SpelledIsInteger(|items|);
      case Object(members) => SpelledIsInteger(|members|);
    }
  }

  // ---------------------------------------------------------------- references

  lemma {:induction false} ResolvedIsWellFormed(s: Schema, path: seq<string>)
    requires WellFormed(s) && Resolve(s, path).Some?
    ensures WellFormed(Resolve(s, path).value) && (Tame(s) ==> Tame(Resolve(s, path).value))
    decreases |path|
  {
    if path != [] {
      if s.kind == ObjectKind {
        ResolvedIsWellFormed(s.properties[path[0]], path[1..]);
      } else {
        ResolvedIsWellFormed(s.items.value, path[1..]);
      }
    }
  }

  lemma LookupFits(s: Schema, v: Value, path: seq<string>)
    requires Conforms(s, v) && Resolve(s, path).Some?
    ensures Fits(FoundOutcome(Lookup(v, path)), Resolve(s, path).value)
  {
    LookupConforms(s, v, path);
    hide Conforms, Resolve, Lookup;
  }

  lemma ReferenceFits(path: seq<string>, env: Environment, values: Values)
    requires ValuesConform(env, values) && CheckReference(path, env).Some?
    ensures Fits(EvalReference(path, values), CheckReference(path, env).value)
  {
    hide Conforms, Resolve, Lookup, FoundOutcome;
    if path[0] == "inputs" {
      LookupFits(env.inputs, Object(values.inputs), path[1..]);
    } else if path[0] == "trigger" {
      LookupFits(env.trigger, Object(values.trigger), path[1..]);
    } else if path[0] == "scope" {
      LookupFits(env.scope, Object(values.scope), path[1..]);
    } else if path[0] == "iteration" {
      LookupFits(env.iteration.value, values.iteration, path[1..]);
    } else if path[0] == "nodes" {
      if path[1] in values.nodeOutputs {
        LookupFits(env.nodeOutputs[path[1]], values.nodeOutputs[path[1]], path[3..]);
      }
    }
  }

  lemma ReferenceTypeIsWellFormed(path: seq<string>, env: Environment)
    requires Lawful(env) && CheckReference(path, env).Some?
    ensures WellFormed(CheckReference(path, env).value) && (TameEnvironment(env) ==> Tame(CheckReference(path, env).value))
  {
    hide Resolve, WellFormed, Tame;
    if path[0] == "inputs" {
      ResolvedIsWellFormed(env.inputs, path[1..]);
    } else if path[0] == "trigger" {
      ResolvedIsWellFormed(env.trigger, path[1..]);
    } else if path[0] == "scope" {
      ResolvedIsWellFormed(env.scope, path[1..]);
    } else if path[0] == "iteration" {
      ResolvedIsWellFormed(env.iteration.value, path[1..]);
    } else if path[0] == "nodes" {
      ResolvedIsWellFormed(env.nodeOutputs[path[1]], path[3..]);
    } else {
      SecretIsTame();
    }
  }

  lemma SecretIsTame()
    ensures Tame(Scalar(StringKind).(secret := true)) && WellFormed(Scalar(StringKind).(secret := true))
  {
  }

  // ------------------------------------------------------------------ literals

  lemma ArrayOfTame(s: Schema)
    requires Tame(s)
    ensures Tame(ArrayOf(s))
  {
  }

  lemma ObjectOfTame(properties: map<string, Schema>, required: seq<string>)
    requires forall n :: n in properties ==> Tame(properties[n])
    requires Distinct(required) && forall n :: n in required ==> n in properties
    ensures Tame(ClosedObject(properties, required))
  {
    var s := ClosedObject(properties, required);
    assert forall n :: n in properties ==> WellFormed(properties[n]) && EnumFree(properties[n]) && Closed(properties[n]);
  }

  lemma InferredItems(item: Schema, ss: seq<Schema>, items: seq<Value>)
    requires |ss| == |items| && Tame(item)
    requires forall i :: 0 <= i < |ss| ==> Tame(ss[i]) && Conforms(ss[i], items[i]) && (ss[i] == item || SameType(item, ss[i]))
    ensures Tame(ArrayOf(item)) && Conforms(ArrayOf(item), Array(items))
  {
    ArrayOfTame(item);
    hide Tame;
    forall i | 0 <= i < |items| ensures Conforms(item, items[i]) {
      if ss[i] != item { SameTypeDescribesTheSame(item, ss[i], items[i]); }
    }
  }

  lemma InferredMembers(properties: map<string, Schema>, members: map<string, Value>)
    requires properties.Keys == members.Keys
    requires forall n :: n in members ==> Tame(properties[n]) && Conforms(properties[n], members[n])
    ensures var s := ClosedObject(properties, SortedList(members.Keys));
            Tame(s) && Conforms(s, Object(members))
  {
    var required := SortedList(members.Keys);
    SortedIsDistinct(required);
    forall n | n in required ensures n in properties { assert n in Elements(required); }
    hide Tame;
    ObjectOfTame(properties, required);
  }

  lemma InferredArray(items: seq<Value>)
    requires Infer(Array(items)).Some?
    ensures items != [] && forall i :: 0 <= i < |items| ==> Infer(items[i]).Some?
    ensures Infer(Array(items)) == Some(ArrayOf(Infer(items[0]).value))
    ensures forall i :: 0 < i < |items| ==> SameType(Infer(items[0]).value, Infer(items[i]).value)
  {
    hide SameType;
  }

  lemma InferredObject(members: map<string, Value>)
    requires Infer(Object(members)).Some?
    ensures forall n :: n in members ==> Infer(members[n]).Some?
    ensures var s := Infer(Object(members)).value;
            && s == ClosedObject(s.properties, SortedList(members.Keys)) && s.properties.Keys == members.Keys
            && forall n :: n in members ==> s.properties[n] == Infer(members[n]).value
  {
  }

  ghost predicate InferenceFits(v: Value) {
    Infer(v).Some? ==> Tame(Infer(v).value) && Conforms(Infer(v).value, v) && !Infer(v).value.secret
  }

  lemma ArrayInference(items: seq<Value>)
    requires Infer(Array(items)).Some? && forall i :: 0 <= i < |items| ==> InferenceFits(items[i])
    ensures InferenceFits(Array(items))
  {
    InferredArray(items);
    var ss := seq(|items|, i requires 0 <= i < |items| => Infer(items[i]).value);
    hide Tame, Conforms, SameType, Infer;
    forall i | 0 <= i < |items| ensures Tame(ss[i]) && Conforms(ss[i], items[i]) { assert InferenceFits(items[i]); }
    InferredItems(ss[0], ss, items);
  }

  lemma ObjectInference(members: map<string, Value>)
    requires Infer(Object(members)).Some? && forall n :: n in members ==> InferenceFits(members[n])
    ensures InferenceFits(Object(members))
  {
    InferredObject(members);
    hide Tame, Conforms, Infer;
    var s := Infer(Object(members)).value;
    forall n | n in members ensures Tame(s.properties[n]) && Conforms(s.properties[n], members[n]) {
      assert InferenceFits(members[n]);
    }
    InferredMembers(s.properties, members);
  }

  lemma ScalarInference(v: Value)
    requires !v.Array? && !v.Object?
    ensures InferenceFits(v)
  {
    hide Scan, Rational, IsInteger;
  }

  /** A literal conforms to the type inferred for it. */
  lemma {:induction false} InferFits(v: Value)
    ensures InferenceFits(v)
  {
    hide InferenceFits;
    match v {
      case Array(items) =>
        forall i | 0 <= i < |items| ensures InferenceFits(items[i]) { InferFits(items[i]); }
        if Infer(v).Some? { ArrayInference(items); } else { NoInference(v); }
      case Object(members) =>
        forall n | n in members ensures InferenceFits(members[n]) { InferFits(members[n]); }
        if Infer(v).Some? { ObjectInference(members); } else { NoInference(v); }
      case _ => ScalarInference(v);
    }
  }

  lemma NoInference(v: Value)
    requires Infer(v).None?
    ensures InferenceFits(v)
  {
  }

  // --------------------------------------------------------------- expressions

  /** What soundness says of a list of arguments: their values conform, or a permitted failure. */
  ghost predicate AllFit(r: Result<seq<Value>, Failure>, ss: seq<Schema>) {
    match r
    case Err(f) => f != TypeFailure
    case Ok(vs) => |vs| == |ss| && forall i :: 0 <= i < |ss| ==> Conforms(ss[i], vs[i])
  }

  /** What is known of the types of arguments. */
  ghost predicate AllLawful(ss: seq<Schema>) {
    forall i :: 0 <= i < |ss| ==> WellFormed(ss[i]) && !ss[i].secret
  }

  ghost predicate AllTame(ss: seq<Schema>) {
    forall i :: 0 <= i < |ss| ==> Tame(ss[i]) && !ss[i].secret
  }

  lemma AllFitStep(first: Outcome, s: Schema, rest: Result<seq<Value>, Failure>, ss: seq<Schema>)
    requires Fits(first, s) && !s.secret && AllFit(rest, ss)
    ensures first.Plain? ==> AllFit(if rest.Err? then rest else Ok([first.value] + rest.value), [s] + ss)
    ensures !first.Handle?
  {
    hide Conforms;
  }

  ghost predicate Named(fields: seq<Field>, n: string) {
    exists i :: 0 <= i < |fields| && fields[i].name == n
  }

  ghost predicate FieldsFit(r: Result<map<string, Value>, Failure>, fields: seq<Field>, ss: seq<Schema>)
    requires |fields| == |ss|
  {
    match r
    case Err(f) => f != TypeFailure
    case Ok(members) => NamesAre(members, fields) && (DistinctNames(fields) ==> ValuesConformTo(members, fields, ss))
  }

  ghost predicate NamesAre(members: map<string, Value>, fields: seq<Field>) {
    forall n :: n in members <==> Named(fields, n)
  }

  ghost predicate ValuesConformTo(members: map<string, Value>, fields: seq<Field>, ss: seq<Schema>)
    requires |fields| == |ss|
  {
    forall i :: 0 <= i < |fields| ==> fields[i].name in members && Conforms(ss[i], members[fields[i].name])
  }

  lemma NamedStep(field: Field, fields: seq<Field>, n: string)
    ensures Named([field] + fields, n) <==> field.name == n || Named(fields, n)
  {
    var all := [field] + fields;
    assert all[0] == field;
    if Named(fields, n) {
      var i :| 0 <= i < |fields| && fields[i].name == n;
      assert all[i + 1].name == n;
    }
    if Named(all, n) {
      var i :| 0 <= i < |all| && all[i].name == n;
      assert i > 0 ==> fields[i - 1].name == n;
    }
  }

  lemma DistinctTail(field: Field, fields: seq<Field>)
    requires DistinctNames([field] + fields)
    ensures DistinctNames(fields) && !Named(fields, field.name)
  {
    var all := [field] + fields;
    forall i, j | 0 <= i < j < |fields| ensures fields[i].name != fields[j].name { assert all[i + 1].name != all[j + 1].name; }
    forall i | 0 <= i < |fields| ensures fields[i].name != field.name { assert all[0].name != all[i + 1].name; }
  }

  lemma FieldsFitStep(field: Field, first: Value, s: Schema, rest: map<string, Value>, fields: seq<Field>, ss: seq<Schema>)
    requires |fields| == |ss| && Conforms(s, first) && FieldsFit(Ok(rest), fields, ss)
    ensures FieldsFit(Ok(rest[field.name := first]), [field] + fields, [s] + ss)
  {
    hide Conforms, DistinctNames, NamesAre, ValuesConformTo;
    NamesGrow(field, first, rest, fields);
    if DistinctNames([field] + fields) {
      DistinctTail(field, fields);
      ValuesGrow(field, first, s, rest, fields, ss);
    }
  }

  lemma NamesGrow(field: Field, first: Value, rest: map<string, Value>, fields: seq<Field>)
    requires NamesAre(rest, fields)
    ensures NamesAre(rest[field.name := first], [field] + fields)
  {
    hide Named;
    forall n ensures n in rest[field.name := first] <==> Named([field] + fields, n) { NamedStep(field, fields, n); }
  }

  lemma ValuesGrow(field: Field, first: Value, s: Schema, rest: map<string, Value>, fields: seq<Field>, ss: seq<Schema>)
    requires |fields| == |ss| && Conforms(s, first) && ValuesConformTo(rest, fields, ss) && !Named(fields, field.name)
    ensures ValuesConformTo(rest[field.name := first], [field] + fields, [s] + ss)
  {
    hide Conforms;
    var all, types, members := [field] + fields, [s] + ss, rest[field.name := first];
    forall i | 0 <= i < |all| ensures all[i].name in members && Conforms(types[i], members[all[i].name]) {
      if i > 0 {
        assert all[i] == fields[i - 1] && types[i] == ss[i - 1];
        assert fields[i - 1].name != field.name;
      }
    }
  }

  lemma {:induction false} FieldTypesLookup(fields: seq<Field>, ss: seq<Schema>)
    requires |fields| == |ss| && DistinctNames(fields)
    ensures forall i :: 0 <= i < |fields| ==> fields[i].name in FieldTypes(fields, ss) && FieldTypes(fields, ss)[fields[i].name] == ss[i]
    ensures forall n :: n in FieldTypes(fields, ss) ==> Named(fields, n)
  {
    if fields != [] {
      assert DistinctNames(fields[1..]) by {
        forall i, j | 0 <= i < j < |fields[1..]| ensures fields[1..][i].name != fields[1..][j].name {
          assert fields[i + 1].name != fields[j + 1].name;
        }
      }
      FieldTypesLookup(fields[1..], ss[1..]);
      forall i | 0 <= i < |fields|
        ensures fields[i].name in FieldTypes(fields, ss) && FieldTypes(fields, ss)[fields[i].name] == ss[i]
      {
        if i > 0 { assert fields[1..][i - 1] == fields[i] && ss[1..][i - 1] == ss[i]; }
      }
      forall n | n in FieldTypes(fields, ss) ensures Named(fields, n) {
        if n != fields[0].name {
          var i :| 0 <= i < |fields[1..]| && fields[1..][i].name == n;
          assert fields[i + 1].name == n;
        }
      }
    }
  }

  /** A record of conforming values conforms to the type of the record. */
  lemma RecordFits(fields: seq<Field>, ss: seq<Schema>, members: map<string, Value>)
    requires |fields| == |ss| && DistinctNames(fields) && FieldsFit(Ok(members), fields, ss)
    ensures var names := seq(|fields|, i requires 0 <= i < |fields| => fields[i].name);
            Conforms(ClosedObject(FieldTypes(fields, ss), names), Object(members))
  {
    FieldTypesLookup(fields, ss);
    hide FieldTypes;
  }

  lemma RecordIsWellFormed(fields: seq<Field>, ss: seq<Schema>)
    requires |fields| == |ss| && DistinctNames(fields) && AllLawful(ss)
    ensures var names := seq(|fields|, i requires 0 <= i < |fields| => fields[i].name);
            && WellFormed(ClosedObject(FieldTypes(fields, ss), names))
            && (AllTame(ss) ==> Tame(ClosedObject(FieldTypes(fields, ss), names)))
  {
    FieldTypesLookup(fields, ss);
    var types := FieldTypes(fields, ss);
    var names := seq(|fields|, i requires 0 <= i < |fields| => fields[i].name);
    hide FieldTypes, Tame, WellFormed;
    forall n | n in types ensures WellFormed(types[n]) && (AllTame(ss) ==> Tame(types[n])) {
      var i :| 0 <= i < |fields| && fields[i].name == n;
    }
    ObjectIsWellFormed(types, names);
    if AllTame(ss) { ObjectOfTame(types, names); }
  }

  lemma ObjectIsWellFormed(properties: map<string, Schema>, required: seq<string>)
    requires forall n :: n in properties ==> WellFormed(properties[n])
    requires Distinct(required) && forall n :: n in required ==> n in properties
    ensures WellFormed(ClosedObject(properties, required))
  {
  }

  lemma ListFits(ss: seq<Schema>, vs: seq<Value>)
    requires ss != [] && AllLawful(ss) && AllFit(Ok(vs), ss)
    requires forall i :: 0 < i < |ss| ==> Within(ss[i], ss[0])
    ensures Conforms(ArrayOf(ss[0]), Array(vs))
  {
    hide Within, WellFormed;
    forall i | 0 <= i < |vs| ensures Conforms(ss[0], vs[i]) {
      if i > 0 { WithinIsSound(ss[i], ss[0], vs[i]); }
    }
  }

  /** A value that an argument of a coalesce may yield conforms to the type of the coalesce. */
  lemma CoalesceTypeFits(ss: seq<Schema>, i: nat, v: Value, t: Schema)
    requires AllLawful(ss) && i < |ss| && Covered(ss, t) && Conforms(ss[i], v) && !v.Null?
    ensures Conforms(t, v)
  {
    ScalarShapes(ss[i], v);
    hide Conforms, WellFormed, Within;
    if ss[i] != t { WithinIsSound(ss[i], t, v); }
  }

  lemma CoalesceIsWellFormed(ss: seq<Schema>)
    requires AllLawful(ss) && CoalesceType(ss).Some?
    ensures WellFormed(CoalesceType(ss).value) && !CoalesceType(ss).value.secret
    ensures AllTame(ss) ==> Tame(CoalesceType(ss).value)
    ensures CoalesceType(ss).value.kind == NullKind ==> CoalesceType(ss) == Some(Scalar(NullKind))
  {
    ScalarsAreTame();
  }

  lemma CheckAllStep(es: seq<Expr>, env: Environment, limits: Limits)
    requires es != [] && CheckAll(es, env, limits).Some?
    ensures Check(es[0], env, limits).Some? && !Check(es[0], env, limits).value.secret && CheckAll(es[1..], env, limits).Some?
    ensures CheckAll(es, env, limits).value == [Check(es[0], env, limits).value] + CheckAll(es[1..], env, limits).value
  {
    hide Check;
  }

  lemma CheckFieldsStep(fields: seq<Field>, env: Environment, limits: Limits)
    requires fields != [] && CheckFields(fields, env, limits).Some?
    ensures Check(fields[0].expr, env, limits).Some? && !Check(fields[0].expr, env, limits).value.secret
    ensures CheckFields(fields[1..], env, limits).Some?
    ensures CheckFields(fields, env, limits).value ==
            [Check(fields[0].expr, env, limits).value] + CheckFields(fields[1..], env, limits).value
  {
    hide Check;
  }

  /** What soundness says of an argument of a coalesce. */
  ghost predicate FitsOrNull(r: Outcome, s: Schema) {
    r == Plain(Null) || Fits(r, s)
  }

  /** The inferred type of an accepted expression is well formed, and its outcome fits
      it; under a coalesce it may be null instead. */
  lemma {:induction false} CheckedExpressionFits(e: Expr, env: Environment, values: Values, limits: Limits)
    requires Lawful(env) && ValuesConform(env, values) && Sheltered(e, env, limits, false) && Check(e, env, limits).Some?
    ensures WellFormed(Check(e, env, limits).value) && FitsOrNull(Eval(e, values), Check(e, env, limits).value)
    ensures Guarded(e, env, limits, false) ==> Fits(Eval(e, values), Check(e, env, limits).value)
    decreases e, 0
  {
    hide Lawful, ValuesConform, WellFormed, Conforms, Uniform, Within;
    match e {
      case Literal(v) => LiteralFits(v);
      case Ref(path) =>
        ReferenceFits(path, env, values);
        ReferenceTypeIsWellFormed(path, env);
      case Apply(op, args) =>
        if op == Coalesce {
          CoalesceFits(args, env, values, limits);
        } else {
          CheckedArgumentsFit(args, env, values, limits);
          ApplicationFits(op, CheckAll(args, env, limits).value, EvalAll(args, values), limits);
        }
      case Record(fields) =>
        CheckedFieldsFit(fields, env, values, limits);
        var ss := CheckFields(fields, env, limits).value;
        RecordIsWellFormed(fields, ss);
        var members := EvalFields(fields, values);
        if members.Ok? { RecordFits(fields, ss, members.value); }
      case List(elements) =>
        CheckedArgumentsFit(elements, env, values, limits);
        UniformList(elements, env, limits);
        var ss := CheckAll(elements, env, limits).value;
        ArrayIsWellFormed(ss);
        var vs := EvalAll(elements, values);
        if vs.Ok? { ListFits(ss, vs.value); }
    }
  }

  lemma LiteralFits(v: Value)
    requires Infer(v).Some?
    ensures WellFormed(Infer(v).value) && Conforms(Infer(v).value, v)
  {
    InferFits(v);
    hide Infer, Conforms, WellFormed;
  }

  lemma UniformList(elements: seq<Expr>, env: Environment, limits: Limits)
    requires Uniform(elements, env, limits, false, false) && CheckAll(elements, env, limits).Some?
    ensures var ss := CheckAll(elements, env, limits).value; forall i :: 0 < i < |ss| ==> Within(ss[i], ss[0])
  {
    hide Within, CheckAll;
  }

  lemma ArrayIsWellFormed(ss: seq<Schema>)
    requires ss != [] && AllLawful(ss)
    ensures WellFormed(ArrayOf(ss[0])) && (AllTame(ss) ==> Tame(ArrayOf(ss[0])))
  {
    if AllTame(ss) { ArrayOfTame(ss[0]); }
  }

  lemma ApplicationFits(op: Op, ss: seq<Schema>, vs: Result<seq<Value>, Failure>, limits: Limits)
    requires op != Coalesce && OperationType(op, ss, limits).Some? && AllFit(vs, ss)
    ensures WellFormed(OperationType(op, ss, limits).value)
    ensures Fits(if vs.Err? then Fail(vs.error) else EvalOperation(op, vs.value), OperationType(op, ss, limits).value)
  {
    OperationTypeIsTame(op, ss, limits);
    hide Conforms, EvalOperation, OperationType, WellFormed;
    if vs.Ok? { OperationFits(op, ss, vs.value, limits); }
  }

  lemma OperationTypeIsTame(op: Op, ss: seq<Schema>, limits: Limits)
    requires op != Coalesce && OperationType(op, ss, limits).Some?
    ensures Tame(OperationType(op, ss, limits).value) && WellFormed(OperationType(op, ss, limits).value)
  {
    ScalarsAreTame();
    hide Assignable, SameType;
  }

  lemma {:induction false} CheckedArgumentsFit(es: seq<Expr>, env: Environment, values: Values, limits: Limits)
    requires Lawful(env) && ValuesConform(env, values) && CheckAll(es, env, limits).Some?
    requires forall i :: 0 <= i < |es| ==> Guarded(es[i], env, limits, false)
    ensures AllLawful(CheckAll(es, env, limits).value) && AllFit(EvalAll(es, values), CheckAll(es, env, limits).value)
    decreases es, 0
  {
    hide Lawful, ValuesConform, WellFormed, Conforms, Check, Eval, Sheltered;
    if es != [] {
      CheckAllStep(es, env, limits);
      CheckedExpressionFits(es[0], env, values, limits);
      CheckedArgumentsFit(es[1..], env, values, limits);
      AllFitStep(Eval(es[0], values), Check(es[0], env, limits).value, EvalAll(es[1..], values), CheckAll(es[1..], env, limits).value);
    }
  }

  lemma {:induction false} CheckedFieldsFit(fields: seq<Field>, env: Environment, values: Values, limits: Limits)
    requires Lawful(env) && ValuesConform(env, values) && CheckFields(fields, env, limits).Some?
    requires forall i :: 0 <= i < |fields| ==> Guarded(fields[i].expr, env, limits, false)
    ensures AllLawful(CheckFields(fields, env, limits).value)
    ensures FieldsFit(EvalFields(fields, values), fields, CheckFields(fields, env, limits).value)
    decreases fields, 0
  {
    hide Lawful, ValuesConform, WellFormed, Conforms, Check, Eval, Sheltered;
    if fields != [] {
      CheckFieldsStep(fields, env, limits);
      CheckedExpressionFits(fields[0].expr, env, values, limits);
      CheckedFieldsFit(fields[1..], env, values, limits);
      var rest, ss := EvalFields(fields[1..], values), CheckFields(fields[1..], env, limits).value;
      var first, s := Eval(fields[0].expr, values), Check(fields[0].expr, env, limits).value;
      assert fields == [fields[0]] + fields[1..];
      FieldsStep(fields[0], first, s, rest, fields[1..], ss);
      hide FieldsFit;
    }
  }

  lemma FieldsStep(field: Field, first: Outcome, s: Schema, rest: Result<map<string, Value>, Failure>, fields: seq<Field>, ss: seq<Schema>)
    requires |fields| == |ss| && Fits(first, s) && !s.secret && FieldsFit(rest, fields, ss)
    ensures !first.Handle? && (rest.Err? ==> FieldsFit(rest, [field] + fields, [s] + ss))
    ensures first.Plain? && rest.Ok? ==> FieldsFit(Ok(rest.value[field.name := first.value]), [field] + fields, [s] + ss)
  {
    hide Conforms, Named;
    if first.Plain? && rest.Ok? { FieldsFitStep(field, first.value, s, rest.value, fields, ss); }
  }

  ghost predicate SomeConforms(ss: seq<Schema>, v: Value) {
    exists i :: 0 <= i < |ss| && Conforms(ss[i], v)
  }

  lemma SomeConformsLater(s: Schema, ss: seq<Schema>, v: Value)
    ensures Conforms(s, v) ==> SomeConforms([s] + ss, v)
    ensures SomeConforms(ss, v) ==> SomeConforms([s] + ss, v)
  {
    hide Conforms;
    var all := [s] + ss;
    assert all[0] == s;
    if SomeConforms(ss, v) {
      var i :| 0 <= i < |ss| && Conforms(ss[i], v);
      assert all[i + 1] == ss[i];
    }
  }

  ghost predicate CoalesceYields(r: Outcome, ss: seq<Schema>) {
    (r.Plain? && (r.value.Null? || SomeConforms(ss, r.value))) || (r.Fail? && r.failure != TypeFailure)
  }

  /** A coalesce yields null, a value of one of its arguments, or a permitted failure. */
  lemma {:induction false} CoalesceOutcome(args: seq<Expr>, env: Environment, values: Values, limits: Limits)
    requires Lawful(env) && ValuesConform(env, values) && CheckAll(args, env, limits).Some?
    requires forall i :: 0 <= i < |args| ==> Sheltered(args[i], env, limits, false)
    ensures CoalesceYields(EvalCoalesce(args, values), CheckAll(args, env, limits).value)
    ensures AllLawful(CheckAll(args, env, limits).value)
    decreases args, 0
  {
    hide Lawful, ValuesConform, WellFormed, Conforms, Check, Eval, Sheltered, SomeConforms;
    if args != [] {
      CheckAllStep(args, env, limits);
      CheckedExpressionFits(args[0], env, values, limits);
      CoalesceOutcome(args[1..], env, values, limits);
      var s, ss := Check(args[0], env, limits).value, CheckAll(args[1..], env, limits).value;
      var r := EvalCoalesce(args, values);
      if r.Plain? { SomeConformsLater(s, ss, r.value); }
    }
  }

  lemma CoalesceFits(args: seq<Expr>, env: Environment, values: Values, limits: Limits)
    requires Lawful(env) && ValuesConform(env, values) && Check(Apply(Coalesce, args), env, limits).Some?
    requires Sheltered(Apply(Coalesce, args), env, limits, false)
    ensures var e := Apply(Coalesce, args);
            && WellFormed(Check(e, env, limits).value) && FitsOrNull(Eval(e, values), Check(e, env, limits).value)
            && (Guarded(e, env, limits, false) ==> Fits(Eval(e, values), Check(e, env, limits).value))
    decreases args, 1
  {
    var e := Apply(Coalesce, args);
    CoalesceParts(args, env, limits);
    CoalesceOutcome(args, env, values, limits);
    var ss, r := CheckAll(args, env, limits).value, EvalCoalesce(args, values);
    assert Eval(e, values) == r;
    if Definite(e, env) { DefiniteIsPresent(e, env, values); }
    assert Guarded(e, env, limits, false) ==> Definite(e, env) || Check(e, env, limits) == Some(Scalar(NullKind));
    hide *;
    CoalesceIsWellFormed(ss);
    CoalesceResultFits(ss, r, CoalesceType(ss).value);
    PresentIsNotNull(r);
  }

  lemma CoalesceParts(args: seq<Expr>, env: Environment, limits: Limits)
    requires Check(Apply(Coalesce, args), env, limits).Some? && Sheltered(Apply(Coalesce, args), env, limits, false)
    ensures CheckAll(args, env, limits).Some? && Check(Apply(Coalesce, args), env, limits) == CoalesceType(CheckAll(args, env, limits).value)
    ensures Covered(CheckAll(args, env, limits).value, CoalesceType(CheckAll(args, env, limits).value).value)
    ensures forall i :: 0 <= i < |args| ==> Sheltered(args[i], env, limits, false)
  {
    hide CheckAll, Covered, CoalesceType;
  }

  lemma PresentIsNotNull(r: Outcome)
    ensures Present(r) ==> r != Plain(Null)
  {
  }

  lemma CoalesceResultFits(ss: seq<Schema>, r: Outcome, t: Schema)
    requires AllLawful(ss) && Covered(ss, t) && CoalesceYields(r, ss)
    ensures FitsOrNull(r, t) && (r != Plain(Null) || t == Scalar(NullKind) ==> Fits(r, t))
  {
    assert Conforms(Scalar(NullKind), Null);
    hide Conforms, AllLawful, Covered;
    if r.Plain? && !r.value.Null? {
      var i :| 0 <= i < |ss| && Conforms(ss[i], r.value);
      CoalesceTypeFits(ss, i, r.value, t);
    }
  }

  // ------------------------------------------------------------- the main result

  /** A value of the target, a secret for a secret slot, or a failure the types cannot exclude. */
  ghost predicate Acceptable(r: Outcome, target: Schema) {
    match r
    case Plain(v) => !target.secret && Conforms(target, v)
    case Handle => target.secret
    case Absent => false
    case Fail(f) => f in {MissingValue, NoNodeOutput, NoSecret, DivisionByZero, NoDecimal}
  }

  /** Type soundness: what CheckAssignable accepts evaluates, on conforming values,
      to a value of the target or to one of the failures the types cannot exclude. */
  lemma AcceptedExpressionsAreSound(e: Expr, env: Environment, values: Values, target: Schema, limits: Limits)
    requires Lawful(env) && ValuesConform(env, values) && Guarded(e, env, limits, false)
    requires CheckAssignable(e, env, target, limits)
    requires target.secret || e.Literal? || Within(Check(e, env, limits).value, target)
    ensures Acceptable(Evaluate(e, values), target)
  {
    CheckedExpressionFits(e, env, values, limits);
    var s := Check(e, env, limits).value;
    var r := Eval(e, values);
    if target.secret {
      assert r == EvalReference(e.path, values);
    } else if r.Plain? && !e.Literal? {
      WithinIsSound(s, target, r.value);
    }
    hide Check, Conforms, Assignable, Guarded, Lawful, ValuesConform, WellFormed, Within;
  }
}
