/** Where the checker accepts more than is sound: how far each of its shortcuts
    goes wrong, and exactly when it does not. */
module SoundnessLimits {
  import opened Prelude
  import opened Digits
  import opened Numbers
  import opened Json
  import opened Schemas
  import opened Assignability
  import opened Expressions
  import opened Subsumption
  import opened Soundness

  // ------------------------------------------------------------------ coalesce

  ghost predicate EnumFreeEnvironment(env: Environment) {
    && EnumFree(env.inputs) && EnumFree(env.trigger) && EnumFree(env.scope)
    && (env.iteration.Some? ==> EnumFree(env.iteration.value))
    && (forall n :: n in env.nodeOutputs ==> EnumFree(env.nodeOutputs[n]))
  }

  /** Inputs, trigger and scope are objects; otherwise no values conform at all. */
  predicate Rooted(env: Environment) {
    env.inputs.kind == ObjectKind && env.trigger.kind == ObjectKind && env.scope.kind == ObjectKind
  }

  /** The conforming values that leave out every optional property. */
  function SparseValues(env: Environment): Values
    requires Rooted(env) && env.inputs.enumeration == env.trigger.enumeration == env.scope.enumeration == []
  {
    Values(Sample(env.inputs).members, Sample(env.trigger).members, Sample(env.scope).members,
           map n | n in env.nodeOutputs :: Sample(env.nodeOutputs[n]),
           if env.iteration.Some? then Sample(env.iteration.value) else Null, {})
  }

  lemma SparseValuesConform(env: Environment)
    requires Lawful(env) && EnumFreeEnvironment(env) && Rooted(env)
    ensures ValuesConform(env, SparseValues(env))
  {
    SampleConforms(env.inputs);
    SampleConforms(env.trigger);
    SampleConforms(env.scope);
    if env.iteration.Some? { SampleConforms(env.iteration.value); }
    forall n | n in env.nodeOutputs ensures Conforms(env.nodeOutputs[n], Sample(env.nodeOutputs[n])) {
      SampleConforms(env.nodeOutputs[n]);
    }
    assert Object(Sample(env.inputs).members) == Sample(env.inputs);
    assert Object(Sample(env.trigger).members) == Sample(env.trigger);
    assert Object(Sample(env.scope).members) == Sample(env.scope);
    hide Conforms, Sample, WellFormed;
  }

  predicate NullOrAbsent(r: Outcome) {
    r.Absent? || r == Plain(Null)
  }

  lemma {:induction false} UncertainIsNotFound(s: Schema, path: seq<string>)
    requires WellFormed(s) && EnumFree(s) && Resolve(s, path).Some? && !CertainPath(s, path)
    ensures NullOrAbsent(FoundOutcome(Lookup(Sample(s), path)))
    decreases |path|
  {
    if path != [] && s.kind == ObjectKind && path[0] in s.required {
      UncertainIsNotFound(s.properties[path[0]], path[1..]);
    }
  }

  lemma UncertainReferenceIsNull(path: seq<string>, env: Environment)
    requires Lawful(env) && EnumFreeEnvironment(env) && Rooted(env)
    requires CheckReference(path, env).Some? && !DefiniteReference(path, env)
    ensures NullOrAbsent(EvalReference(path, SparseValues(env)))
  {
    SparseObjects(env);
    hide WellFormed, EnumFree, CertainPath, Resolve, Lookup, Sample, FoundOutcome;
    if path[0] == "inputs" {
      UncertainIsNotFound(env.inputs, path[1..]);
    } else if path[0] == "trigger" {
      UncertainIsNotFound(env.trigger, path[1..]);
    } else if path[0] == "scope" {
      UncertainIsNotFound(env.scope, path[1..]);
    } else if path[0] == "iteration" {
      UncertainIsNotFound(env.iteration.value, path[1..]);
    } else {
      UncertainIsNotFound(env.nodeOutputs[path[1]], path[3..]);
    }
  }

  lemma SparseObjects(env: Environment)
    requires EnumFreeEnvironment(env) && Rooted(env)
    ensures Object(Sample(env.inputs).members) == Sample(env.inputs)
    ensures Object(Sample(env.trigger).members) == Sample(env.trigger)
    ensures Object(Sample(env.scope).members) == Sample(env.scope)
  {
  }

  /** On sparse values everything that is not definite is missing or null. */
  lemma {:induction false} IndefiniteIsNull(e: Expr, env: Environment, limits: Limits)
    requires Lawful(env) && EnumFreeEnvironment(env) && Rooted(env) && Check(e, env, limits).Some? && !Definite(e, env)
    ensures NullOrAbsent(Eval(e, SparseValues(env)))
    decreases e, 0
  {
    hide Lawful, EnumFreeEnvironment, Rooted, SparseValues, OperationType, EvalOperation, DefiniteReference, EvalReference, CheckReference;
    match e {
      case Ref(path) => UncertainReferenceIsNull(path, env);
      case Apply(_, args) => IndefiniteCoalesceIsNull(args, env, limits);
      case _ =>
    }
  }

  lemma {:induction false} IndefiniteCoalesceIsNull(args: seq<Expr>, env: Environment, limits: Limits)
    requires Lawful(env) && EnumFreeEnvironment(env) && Rooted(env) && CheckAll(args, env, limits).Some?
    requires forall i :: 0 <= i < |args| ==> !Definite(args[i], env)
    ensures EvalCoalesce(args, SparseValues(env)) == Plain(Null)
    decreases args, 0
  {
    hide Lawful, EnumFreeEnvironment, Rooted, SparseValues, Check, Eval, Definite;
    if args != [] {
      CheckAllStep(args, env, limits);
      IndefiniteIsNull(args[0], env, limits);
      IndefiniteCoalesceIsNull(args[1..], env, limits);
    }
  }

  ghost predicate AlwaysFits(e: Expr, env: Environment, t: Schema) {
    forall values :: ValuesConform(env, values) ==> Fits(Eval(e, values), t)
  }

  /** A coalesce whose arguments lie within its type fits that type on all conforming
      values exactly if one of them is definite or all of them are null. */
  lemma CoalesceFitsExactly(args: seq<Expr>, env: Environment, limits: Limits)
    requires Lawful(env) && EnumFreeEnvironment(env) && Rooted(env)
    requires Check(Apply(Coalesce, args), env, limits).Some? && Sheltered(Apply(Coalesce, args), env, limits, false)
    ensures AlwaysFits(Apply(Coalesce, args), env, Check(Apply(Coalesce, args), env, limits).value) <==>
            || (exists i :: 0 <= i < |args| && Definite(args[i], env))
            || Check(Apply(Coalesce, args), env, limits) == Some(Scalar(NullKind))
  {
    var e := Apply(Coalesce, args);
    var t := Check(e, env, limits).value;
    assert Definite(e, env) <==> exists i :: 0 <= i < |args| && Definite(args[i], env);
    assert Guarded(e, env, limits, false) <==> Definite(e, env) || t == Scalar(NullKind);
    if Guarded(e, env, limits, false) {
      forall values | ValuesConform(env, values) ensures Fits(Eval(e, values), t) {
        CheckedExpressionFits(e, env, values, limits);
      }
    } else {
      SparseValuesConform(env);
      IndefiniteIsNull(e, env, limits);
      CoalesceNeverAbsent(args, SparseValues(env));
      NullDoesNotFit(args, env, limits);
    }
    hide Check, Eval, Fits, Guarded, Sheltered, Definite, ValuesConform, Lawful;
  }

  lemma {:induction false} CoalesceNeverAbsent(args: seq<Expr>, values: Values)
    ensures Eval(Apply(Coalesce, args), values) == EvalCoalesce(args, values) && !EvalCoalesce(args, values).Absent?
    decreases |args|
  {
    hide Eval;
    CoalesceEvaluates(args, values);
    if args != [] { CoalesceNeverAbsent(args[1..], values); }
  }

  lemma CoalesceEvaluates(args: seq<Expr>, values: Values)
    ensures Eval(Apply(Coalesce, args), values) == EvalCoalesce(args, values)
  {
    hide EvalCoalesce;
  }

  lemma NullDoesNotFit(args: seq<Expr>, env: Environment, limits: Limits)
    requires Check(Apply(Coalesce, args), env, limits).Some? && Check(Apply(Coalesce, args), env, limits) != Some(Scalar(NullKind))
    ensures !Fits(Plain(Null), Check(Apply(Coalesce, args), env, limits).value)
  {
    hide CheckAll, Conforms;
    var t := Check(Apply(Coalesce, args), env, limits).value;
    assert t.kind != NullKind;
    if Conforms(t, Null) { ScalarShapes(t, Null); }
  }

  /** Without a guard, coalesce yields null at a boolean type: the target rejects it,
      and inside `not` it fails a type assertion. */
  lemma UnguardedCoalesceIsUnsound(limits: Limits)
    ensures var optional := ClosedObject(map["x" := Scalar(BooleanKind)], []);
            var env := Environment(optional, ClosedObject(map[], []), ClosedObject(map[], []), map[], {}, None, {});
            var values := Values(map[], map[], map[], map[], Null, {});
            var e := Apply(Coalesce, [Ref(["inputs", "x"]), Ref(["inputs", "x"])]);
            && TameEnvironment(env) && ValuesConform(env, values)
            && CheckAssignable(e, env, Scalar(BooleanKind), limits)
            && Evaluate(e, values) == Plain(Null) && !Conforms(Scalar(BooleanKind), Null)
            && CheckAssignable(Apply(Not, [e]), env, Scalar(BooleanKind), limits)
            && Evaluate(Apply(Not, [e]), values) == Fail(TypeFailure)
  {
    var x := Ref(["inputs", "x"]);
    var optional := ClosedObject(map["x" := Scalar(BooleanKind)], []);
    var nothing := ClosedObject(map[], []);
    var env := Environment(optional, nothing, nothing, map[], {}, None, {});
    var values := Values(map[], map[], map[], map[], Null, {});
    hide *;
    OptionalInput(optional, env, values, limits);
    UnguardedTypes(x, env, values, limits);
    BooleansAreAccepted(Apply(Coalesce, [x, x]), env, values, limits);
    BooleansAreAccepted(Apply(Not, [Apply(Coalesce, [x, x])]), env, values, limits);
  }

  lemma BooleansAreAccepted(e: Expr, env: Environment, values: Values, limits: Limits)
    requires e.Apply? && Check(e, env, limits) == Some(Scalar(BooleanKind))
    ensures CheckAssignable(e, env, Scalar(BooleanKind), limits)
    ensures !Eval(e, values).Absent? ==> Evaluate(e, values) == Eval(e, values)
    ensures !Conforms(Scalar(BooleanKind), Null)
  {
    hide Check, Eval;
  }

  lemma OptionalInput(optional: Schema, env: Environment, values: Values, limits: Limits)
    requires optional == ClosedObject(map["x" := Scalar(BooleanKind)], [])
    requires env == Environment(optional, ClosedObject(map[], []), ClosedObject(map[], []), map[], {}, None, {})
    requires values == Values(map[], map[], map[], map[], Null, {})
    ensures TameEnvironment(env) && ValuesConform(env, values)
    ensures Check(Ref(["inputs", "x"]), env, limits) == Some(Scalar(BooleanKind)) && Eval(Ref(["inputs", "x"]), values) == Absent
  {
    OptionalStep(optional);
    OptionalIsTame(optional);
    hide Resolve, Lookup, Tame, Conforms;
    assert ["inputs", "x"][1..] == ["x"];
  }

  lemma OptionalStep(optional: Schema)
    requires optional == ClosedObject(map["x" := Scalar(BooleanKind)], [])
    ensures Resolve(optional, ["x"]) == Some(Scalar(BooleanKind)) && Lookup(Object(map[]), ["x"]) == Missing
  {
    assert ["x"][1..] == [];
  }

  lemma OptionalIsTame(optional: Schema)
    requires optional == ClosedObject(map["x" := Scalar(BooleanKind)], [])
    ensures Tame(optional) && Tame(ClosedObject(map[], []))
    ensures Conforms(optional, Object(map[])) && Conforms(ClosedObject(map[], []), Object(map[]))
  {
    ObjectOfTame(map["x" := Scalar(BooleanKind)], []);
  }

  lemma UnguardedTypes(x: Expr, env: Environment, values: Values, limits: Limits)
    requires Check(x, env, limits) == Some(Scalar(BooleanKind)) && Eval(x, values) == Absent
    ensures var e := Apply(Coalesce, [x, x]);
            && Check(e, env, limits) == Some(Scalar(BooleanKind)) && Eval(e, values) == Plain(Null)
            && Check(Apply(Not, [e]), env, limits) == Some(Scalar(BooleanKind))
            && Eval(Apply(Not, [e]), values) == Fail(TypeFailure)
  {
    var e := Apply(Coalesce, [x, x]);
    TwoOfOne(x, env, limits);
    TwoAbsent(x, values);
    OneOfOne(e, env, values, limits);
  }

  lemma TwoOfOne(x: Expr, env: Environment, limits: Limits)
    requires Check(x, env, limits) == Some(Scalar(BooleanKind))
    ensures Check(Apply(Coalesce, [x, x]), env, limits) == Some(Scalar(BooleanKind))
  {
    var b := Scalar(BooleanKind);
    assert [x, x][1..] == [x] && [x][1..] == [];
    assert CheckAll([], env, limits) == Some([]) && [b] + [] == [b];
    assert CheckAll([x], env, limits) == Some([b]);
    assert CheckAll([x, x], env, limits) == Some([b] + [b]);
    assert [b] + [b] == [b, b];
    hide Check, CheckAll;
    assert [b, b][0] == b && SameType(b, b);
    assert CoalesceType([b, b]) == Some(b);
  }

  lemma TwoAbsent(x: Expr, values: Values)
    requires Eval(x, values) == Absent
    ensures Eval(Apply(Coalesce, [x, x]), values) == Plain(Null)
  {
    assert [x, x][1..] == [x] && [x][1..] == [];
    assert EvalCoalesce([], values) == Plain(Null);
    assert EvalCoalesce([x], values) == Plain(Null);
    assert EvalCoalesce([x, x], values) == Plain(Null);
  }

  lemma OneOfOne(e: Expr, env: Environment, values: Values, limits: Limits)
    requires Check(e, env, limits) == Some(Scalar(BooleanKind)) && Eval(e, values) == Plain(Null)
    ensures Check(Apply(Not, [e]), env, limits) == Some(Scalar(BooleanKind))
    ensures Eval(Apply(Not, [e]), values) == Fail(TypeFailure)
  {
    var b := Scalar(BooleanKind);
    assert [e][1..] == [];
    assert CheckAll([], env, limits) == Some([]) && [b] + [] == [b];
    assert CheckAll([e], env, limits) == Some([b]);
    assert EvalAll([e], values) == Ok([Null] + []);
  }

  // --------------------------------------------------------------------- lists

  /** Values that conform to the types of the elements, one by one. */
  ghost predicate Elementwise(ss: seq<Schema>, vs: seq<Value>) {
    |vs| == |ss| && forall i :: 0 <= i < |ss| ==> Conforms(ss[i], vs[i])
  }

  lemma SampleElements(ss: seq<Schema>)
    requires AllLawful(ss)
    ensures Elementwise(ss, seq(|ss|, i requires 0 <= i < |ss| => Sample(ss[i])))
  {
    forall i | 0 <= i < |ss| ensures Conforms(ss[i], Sample(ss[i])) { SampleConforms(ss[i]); }
    hide Conforms, Sample;
  }

  /** The type of a list, that of its first element, describes every list of such
      elements exactly if all element types lie within the first. */
  lemma ListFitsExactly(ss: seq<Schema>)
    requires ss != [] && AllLawful(ss)
    ensures (forall vs :: Elementwise(ss, vs) ==> Conforms(ArrayOf(ss[0]), Array(vs))) <==>
            forall i :: 0 < i < |ss| ==> Within(ss[i], ss[0])
  {
    hide Within, Conforms, WellFormed;
    if forall i :: 0 < i < |ss| ==> Within(ss[i], ss[0]) {
      forall vs | Elementwise(ss, vs) ensures Conforms(ArrayOf(ss[0]), Array(vs)) { ListFits(ss, vs); }
    } else {
      var i :| 0 < i < |ss| && !Within(ss[i], ss[0]);
      var bad := WithoutWitness(ss[i], ss[0]);
      SampleElements(ss);
      var vs := seq(|ss|, j requires 0 <= j < |ss| => Sample(ss[j]))[i := bad];
      assert Elementwise(ss, vs);
      BadItem(ss[0], vs, i);
    }
  }

  lemma BadItem(item: Schema, vs: seq<Value>, i: nat)
    requires i < |vs| && !Conforms(item, vs[i])
    ensures !Conforms(ArrayOf(item), Array(vs))
  {
    assert Array(vs).items[i] == vs[i];
  }

  /** Wherever the one is open, the other is too. */
  ghost predicate NoMoreOpen(inner: Schema, outer: Schema) {
    && (inner.kind == ObjectKind ==>
          && (inner.additional ==> outer.additional)
          && (forall n :: n in inner.properties && n in outer.properties ==> NoMoreOpen(inner.properties[n], outer.properties[n])))
    && (inner.items.Some? && outer.items.Some? ==> NoMoreOpen(inner.items.value, outer.items.value))
  }

  lemma {:induction false} SameTypeIsWithin(outer: Schema, inner: Schema)
    requires WellFormed(outer) && WellFormed(inner) && EnumFree(outer) && EnumFree(inner) && SameType(outer, inner)
    ensures Within(inner, outer) <==> NoMoreOpen(inner, outer)
    decreases inner
  {
    if inner.kind == ObjectKind {
      SameNames(outer, inner);
      forall n | n in inner.properties ensures Within(inner.properties[n], outer.properties[n]) <==> NoMoreOpen(inner.properties[n], outer.properties[n]) {
        SameTypeIsWithin(outer.properties[n], inner.properties[n]);
      }
    } else if inner.kind == ArrayKind {
      SameTypeIsWithin(outer.items.value, inner.items.value);
    }
  }

  /** Without enumerations, what sameType accepts as an element type lies within the
      first element's exactly if it is open only where that is. */
  lemma SameTypeExactly(first: Schema, item: Schema)
    requires WellFormed(first) && WellFormed(item) && EnumFree(first) && EnumFree(item) && SameType(first, item)
    ensures Subsumes(item, first) <==> NoMoreOpen(item, first)
  {
    SameTypeIsWithin(first, item);
    WithinDecides(item, first);
    hide Within, SameType, Subsumes, WellFormed, EnumFree, NoMoreOpen;
  }

  /** Inputs "a" and "b", both required. */
  function TwoInputs(a: Schema, b: Schema): Environment {
    Environment(ClosedObject(map["a" := a, "b" := b], ["a", "b"]), ClosedObject(map[], []), ClosedObject(map[], []), map[], {}, None, {})
  }

  function TwoValues(x: Value, y: Value): Values {
    Values(map["a" := x, "b" := y], map[], map[], map[], Null, {})
  }

  function TwoReferences(): Expr {
    List([Ref(["inputs", "a"]), Ref(["inputs", "b"])])
  }

  lemma ReferenceIs(a: Schema, b: Schema, x: Value, y: Value, name: string)
    requires name in {"a", "b"}
    ensures var path := ["inputs", name];
            && CheckReference(path, TwoInputs(a, b)) == Some(if name == "a" then a else b)
            && EvalReference(path, TwoValues(x, y)) == Plain(if name == "a" then x else y)
  {
    var path := ["inputs", name];
    var s, v := TwoInputs(a, b).inputs, Object(TwoValues(x, y).inputs);
    assert path[1..] == [name] && [name][1..] == [];
    OneStep(s, v, name, if name == "a" then a else b, if name == "a" then x else y);
    hide Resolve, Lookup;
  }

  lemma OneStep(s: Schema, v: Value, name: string, t: Schema, x: Value)
    requires s.kind == ObjectKind && name in s.properties && s.properties[name] == t
    requires v.Object? && name in v.members && v.members[name] == x
    ensures Resolve(s, [name]) == Some(t) && Lookup(v, [name]) == Found(x)
  {
    assert [name][1..] == [];
    assert Resolve(t, []) == Some(t) && Lookup(x, []) == Found(x);
  }

  lemma TwoReferencesAre(a: Schema, b: Schema, x: Value, y: Value, limits: Limits)
    requires !a.secret && !b.secret && SameType(a, b)
    ensures Check(TwoReferences(), TwoInputs(a, b), limits) == Some(ArrayOf(a))
    ensures Evaluate(TwoReferences(), TwoValues(x, y)) == Plain(Array([x, y]))
  {
    var refs := [Ref(["inputs", "a"]), Ref(["inputs", "b"])];
    var env, values := TwoInputs(a, b), TwoValues(x, y);
    ReferenceIs(a, b, x, y, "a");
    ReferenceIs(a, b, x, y, "b");
    hide CheckReference, EvalReference, SameType;
    assert refs[1..] == [refs[1]] && [refs[1]][1..] == [];
    assert CheckAll([], env, limits) == Some([]) && CheckAll([refs[1]], env, limits) == Some([b] + []);
    assert CheckAll(refs, env, limits) == Some([a] + ([b] + []));
    assert [a] + ([b] + []) == [a, b] && [x] + ([y] + []) == [x, y];
    assert EvalAll([refs[1]], values) == Ok([y] + []);
  }

  lemma NoInputs()
    ensures WellFormed(ClosedObject(map[], [])) && Conforms(ClosedObject(map[], []), Object(map[]))
  {
  }

  lemma {:induction false} TwoMembers(a: Schema, b: Schema, x: Value, y: Value)
    requires WellFormed(a) && WellFormed(b) && Conforms(a, x) && Conforms(b, y)
    ensures var s := ClosedObject(map["a" := a, "b" := b], ["a", "b"]);
            WellFormed(s) && Conforms(s, Object(map["a" := x, "b" := y]))
  {
    var properties, members := map["a" := a, "b" := b], map["a" := x, "b" := y];
    hide Conforms, WellFormed;
    forall n | n in properties ensures WellFormed(properties[n]) && n in members && Conforms(properties[n], members[n]) {
      assert n == "a" || n == "b";
    }
    ObjectIsWellFormed(properties, ["a", "b"]);
    ClosedConforms(properties, ["a", "b"], members);
  }

  lemma ClosedConforms(properties: map<string, Schema>, required: seq<string>, members: map<string, Value>)
    requires forall n :: n in required ==> n in members
    requires forall n :: n in members ==> n in properties && Conforms(properties[n], members[n])
    ensures Conforms(ClosedObject(properties, required), Object(members))
  {
  }

  lemma TwoInputsConform(a: Schema, b: Schema, x: Value, y: Value)
    requires WellFormed(a) && WellFormed(b) && Conforms(a, x) && Conforms(b, y)
    ensures Lawful(TwoInputs(a, b)) && ValuesConform(TwoInputs(a, b), TwoValues(x, y))
  {
    hide WellFormed, Conforms;
    TwoMembers(a, b, x, y);
    NoInputs();
  }

  /** The list of two references is accepted for its own type, and yields both values. */
  ghost predicate Betrays(a: Schema, b: Schema, x: Value, y: Value, limits: Limits) {
    var env, values, target := TwoInputs(a, b), TwoValues(x, y), ArrayOf(a);
    && Lawful(env) && ValuesConform(env, values) && CheckAssignable(TwoReferences(), env, target, limits)
    && Evaluate(TwoReferences(), values) == Plain(Array([x, y])) && !Conforms(target, Array([x, y]))
  }

  lemma TwoBetray(a: Schema, b: Schema, x: Value, y: Value, limits: Limits)
    requires WellFormed(a) && WellFormed(b) && Conforms(a, x) && Conforms(b, y) && !Conforms(a, y)
    requires !a.secret && !b.secret && SameType(a, b) && Assignable(ArrayOf(a), ArrayOf(a), limits)
    ensures Betrays(a, b, x, y, limits)
  {
    hide Conforms, Lawful, ValuesConform, SameType, Assignable, Check, Evaluate;
    TwoReferencesAre(a, b, x, y, limits);
    TwoInputsConform(a, b, x, y);
    assert [x, y][1] == y;
    BadItem(a, [x, y], 1);
    ArrayIsWellFormed([a]);
    hide WellFormed;
  }

  /** An accepted list whose target is closed, and whose second element carries an
      undeclared property. */
  lemma ListForgetsOpenness(limits: Limits)
    ensures var closed, loose := ClosedObject(map[], []), ClosedObject(map[], []).(additional := true);
            Betrays(closed, loose, Object(map[]), Object(map["c" := Null]), limits)
  {
    var closed, loose := ClosedObject(map[], []), ClosedObject(map[], []).(additional := true);
    var y := Object(map["c" := Null]);
    assert "c" in y.members && !Conforms(closed, y);
    hide Betrays;
    TwoBetray(closed, loose, Object(map[]), y, limits);
  }

  lemma ListedStrings(listed: Schema)
    requires listed == Scalar(StringKind).(enumeration := [Str("x")])
    ensures WellFormed(listed) && WellFormed(Scalar(StringKind)) && SameType(listed, Scalar(StringKind))
    ensures Conforms(listed, Str("x")) && Conforms(Scalar(StringKind), Str("y")) && !Conforms(listed, Str("y"))
  {
    assert "x"[0] != "y"[0];
    assert Str("x") in listed.enumeration && Str("y") !in listed.enumeration;
    hide Scan;
  }

  lemma ListedAssignable(listed: Schema, limits: Limits)
    requires listed == Scalar(StringKind).(enumeration := [Str("x")])
    ensures Assignable(ArrayOf(listed), ArrayOf(listed), limits)
  {
    hide Print;
    assert Printable(Str("x"), limits) && Str("x") in listed.enumeration;
    assert EnumAssignable(listed, listed, limits);
    hide EnumAssignable;
    assert Assignable(listed, listed, limits);
    ArraysAssignable(listed, listed, limits);
  }

  lemma ArraysAssignable(a: Schema, b: Schema, limits: Limits)
    requires Assignable(a, b, limits)
    ensures Assignable(ArrayOf(a), ArrayOf(b), limits)
  {
    assert EnumAssignable(ArrayOf(a), ArrayOf(b), limits);
    hide EnumAssignable;
  }

  /** An accepted list whose target enumerates its items, and whose second element is
      not enumerated. */
  lemma ListForgetsEnumeration(limits: Limits)
    ensures var listed := Scalar(StringKind).(enumeration := [Str("x")]);
            Betrays(listed, Scalar(StringKind), Str("x"), Str("y"), limits)
  {
    var listed := Scalar(StringKind).(enumeration := [Str("x")]);
    assert !listed.secret && !Scalar(StringKind).secret;
    hide *;
    ListedStrings(listed);
    ListedAssignable(listed, limits);
    TwoBetray(listed, Scalar(StringKind), Str("x"), Str("y"), limits);
  }

  // -------------------------------------------------------------- enumerations

  /** The target enumerates a value that validation takes for the same. */
  ghost predicate Enumerates(target: Schema, c: Value) {
    exists w :: w in target.enumeration && ValuesEqual(w, c)
  }

  lemma EnumeratedConforms(target: Schema, c: Value)
    requires WellFormed(target) && target.enumeration != []
    ensures Conforms(target, c) <==> Enumerates(target, c)
  {
    if Enumerates(target, c) {
      var w :| w in target.enumeration && ValuesEqual(w, c);
      EqualIsReflexive(w);
      EqualConforms(target, w, c);
    }
    hide Rational, Scan, IsInteger;
  }

  /** Between enumerated schemas the values of one are values of the other exactly if
      validation, and not the canonical text, finds every enumerated value again. */
  lemma EnumerationsExactly(source: Schema, target: Schema)
    requires WellFormed(source) && WellFormed(target) && source.enumeration != [] && target.enumeration != []
    ensures Subsumes(source, target) <==> forall c :: c in source.enumeration ==> Enumerates(target, c)
  {
    WithinDecides(source, target);
    forall c ensures Conforms(target, c) <==> Enumerates(target, c) { EnumeratedConforms(target, c); }
    hide Conforms, Enumerates, Subsumes, WellFormed;
  }

  function EnumeratedArray(text: string): Schema {
    ArrayOf(Scalar(NumberKind)).(enumeration := [Array([Number(text)])])
  }

  /** The smallest failure: assignable compares canonical texts, in which the number
      inside a list has one spelling, and validation compares the list as it is. */
  lemma EnumerationsComparedByText(limits: Limits)
    requires 0 <= limits.maxExponent
    ensures var source, target := EnumeratedArray("0.0"), EnumeratedArray("0");
            && WellFormed(source) && WellFormed(target) && Assignable(source, target, limits)
            && Conforms(source, Array([Number("0.0")])) && !Conforms(target, Array([Number("0.0")]))
  {
    var a, b := Array([Number("0.0")]), Array([Number("0")]);
    TwoZeros(limits);
    SingletonPrints(Number("0.0"), limits);
    SingletonPrints(Number("0"), limits);
    SingletonArray("0.0");
    SingletonArray("0");
    hide Scan, Print, Printable, Conforms, WellFormed;
    var source, target := EnumeratedArray("0.0"), EnumeratedArray("0");
    EqualTextsAssignable(source, target, a, b, limits);
    EnumeratedConforms(target, a);
    ListsDiffer(a, b);
  }

  lemma TwoZeros(limits: Limits)
    requires 0 <= limits.maxExponent
    ensures Scan("0.0").Some? && Scan("0").Some?
    ensures Normalize("0.0", limits) == Normalize("0", limits) == Some("0")
  {
    ZeroIsANumber();
    ScanJoined(false, "0", "0", true);
    hide Scan, Place, Tidy, TooLarge;
    assert "0" + ("." + "0") == "0.0" && "0" + "" == "0";
    assert TrimLeftZeros("0") == TrimLeftZeros("00") == "";
    assert "0" + "0" == "00";
  }

  lemma SingletonPrints(v: Value, limits: Limits)
    requires Printable(v, limits)
    ensures Printable(Array([v]), limits) && Print(Array([v]), limits) == "[" + (Comma(0) + Print(v, limits) + "") + "]"
  {
    var a := Array([v]);
    assert a.items[0] == v;
    assert PrintItems(a, 1, limits) == "";
    assert PrintItems(a, 0, limits) == Comma(0) + Print(v, limits) + PrintItems(a, 1, limits);
    hide Normalize, PrintString, PrintMembers, PrintItems, Comma;
  }

  lemma SingletonArray(text: string)
    requires Scan(text).Some?
    ensures WellFormed(EnumeratedArray(text)) && Conforms(EnumeratedArray(text), Array([Number(text)]))
  {
    hide Scan, LiteralValue;
    var s, v := EnumeratedArray(text), Array([Number(text)]);
    assert Conforms(Scalar(NumberKind), v.items[0]);
    assert HasShape(s, v) && v in s.enumeration && ValuesEqual(v, v);
  }

  lemma EqualTextsAssignable(source: Schema, target: Schema, a: Value, b: Value, limits: Limits)
    requires source == ArrayOf(Scalar(NumberKind)).(enumeration := [a]) && target == ArrayOf(Scalar(NumberKind)).(enumeration := [b])
    requires Printable(a, limits) && Printable(b, limits) && Print(a, limits) == Print(b, limits)
    ensures Assignable(source, target, limits)
  {
    hide *;
    EqualTexts(source, target, a, b, limits);
    NumbersAssignable(limits);
    ArrayFields(Scalar(NumberKind));
    ItemsAssignable(source, target, limits);
  }

  lemma ArrayFields(item: Schema)
    ensures var s := ArrayOf(item); s.kind == ArrayKind && !s.secret && s.items == Some(item)
  {
  }

  lemma ItemsAssignable(source: Schema, target: Schema, limits: Limits)
    requires source.kind == ArrayKind && target.kind == ArrayKind && source.secret == target.secret
    requires source.items.Some? && target.items.Some? && Assignable(source.items.value, target.items.value, limits)
    requires EnumAssignable(source, target, limits)
    ensures Assignable(source, target, limits)
  {
    hide EnumAssignable;
  }

  lemma NumbersAssignable(limits: Limits)
    ensures Assignable(Scalar(NumberKind), Scalar(NumberKind), limits)
  {
  }

  lemma EqualTexts(source: Schema, target: Schema, a: Value, b: Value, limits: Limits)
    requires source.enumeration == [a] && target.enumeration == [b]
    requires Printable(a, limits) && Printable(b, limits) && Print(a, limits) == Print(b, limits)
    ensures EnumAssignable(source, target, limits)
  {
    hide Printable, Print;
    assert b in target.enumeration;
  }

  lemma ListsDiffer(a: Value, b: Value)
    requires a == Array([Number("0.0")]) && b == Array([Number("0")])
    ensures !Enumerates(EnumeratedArray("0"), a)
  {
    assert a.items[0] != b.items[0] by { assert |"0.0"| != |"0"|; }
    hide Scan;
  }

  // ----------------------------------------------- where nothing is open or listed

  lemma TameIsWithin(first: Schema, item: Schema)
    requires Tame(first) && Tame(item) && SameType(first, item)
    ensures Within(item, first)
  {
    forall v | Conforms(item, v) ensures Conforms(first, v) { SameTypeDescribesTheSame(first, item, v); }
    WithinDecides(item, first);
    hide Within, SameType;
  }

  lemma TameUniform(es: seq<Expr>, env: Environment, limits: Limits, coalesce: bool)
    requires CheckAll(es, env, limits).Some? && AllTame(CheckAll(es, env, limits).value)
    requires var ss := CheckAll(es, env, limits).value;
             if coalesce then CoalesceType(ss).Some? else forall i :: 0 < i < |ss| ==> SameType(ss[0], ss[i])
    ensures Uniform(es, env, limits, coalesce, false)
  {
    hide CheckAll, Tame, SameType, Within;
    var ss := CheckAll(es, env, limits).value;
    if coalesce {
      var t := CoalesceType(ss).value;
      forall i | 0 <= i < |ss| && ss[i].kind != NullKind && ss[i] != t ensures Within(ss[i], t) { TameIsWithin(t, ss[i]); }
    } else {
      forall i | 0 < i < |ss| ensures Within(ss[i], ss[0]) { TameIsWithin(ss[0], ss[i]); }
    }
  }

  /** In such an environment every inferred type is closed and enumerates nothing, and
      only null needs a guard. */
  lemma {:induction false} TameTypes(e: Expr, env: Environment, limits: Limits)
    requires Lawful(env) && TameEnvironment(env) && Check(e, env, limits).Some?
    ensures Tame(Check(e, env, limits).value)
    ensures Sheltered(e, env, limits, true) ==> Sheltered(e, env, limits, false)
    ensures Guarded(e, env, limits, true) ==> Guarded(e, env, limits, false)
    decreases e, 0
  {
    hide Lawful, TameEnvironment, Tame, OperationType, Uniform;
    match e {
      case Literal(v) => InferFits(v);
      case Ref(path) => ReferenceTypeIsWellFormed(path, env);
      case Apply(op, args) =>
        TameArguments(args, env, limits);
        var ss := CheckAll(args, env, limits).value;
        if op == Coalesce {
          TameCoalesce(args, env, limits);
        } else {
          OperationTypeIsTame(op, ss, limits);
        }
      case Record(fields) =>
        TameFields(fields, env, limits);
        TameIsLawful(CheckFields(fields, env, limits).value);
        RecordIsWellFormed(fields, CheckFields(fields, env, limits).value);
      case List(elements) =>
        TameArguments(elements, env, limits);
        TameUniform(elements, env, limits, false);
        TameIsLawful(CheckAll(elements, env, limits).value);
        ArrayIsWellFormed(CheckAll(elements, env, limits).value);
    }
  }

  lemma TameCoalesce(args: seq<Expr>, env: Environment, limits: Limits)
    requires CheckAll(args, env, limits).Some? && AllTame(CheckAll(args, env, limits).value)
    requires OperationType(Coalesce, CheckAll(args, env, limits).value, limits).Some?
    ensures Tame(OperationType(Coalesce, CheckAll(args, env, limits).value, limits).value)
    ensures Uniform(args, env, limits, true, false)
  {
    hide CheckAll, CoalesceType, Tame;
    TameIsLawful(CheckAll(args, env, limits).value);
    CoalesceIsWellFormed(CheckAll(args, env, limits).value);
    TameUniform(args, env, limits, true);
  }

  lemma TameIsLawful(ss: seq<Schema>)
    requires AllTame(ss)
    ensures AllLawful(ss)
  {
  }

  lemma {:induction false} TameArguments(es: seq<Expr>, env: Environment, limits: Limits)
    requires Lawful(env) && TameEnvironment(env) && CheckAll(es, env, limits).Some?
    ensures AllTame(CheckAll(es, env, limits).value)
    ensures forall i :: 0 <= i < |es| ==> StaysGuarded(es[i], env, limits)
    decreases es, 0
  {
    hide Lawful, TameEnvironment, Tame, Check, Sheltered, Guarded;
    if es != [] {
      CheckAllStep(es, env, limits);
      TameTypes(es[0], env, limits);
      TameArguments(es[1..], env, limits);
      forall i | 0 <= i < |es| ensures StaysGuarded(es[i], env, limits) {
        if i > 0 { assert es[i] == es[1..][i - 1]; }
      }
    }
  }

  ghost predicate StaysGuarded(e: Expr, env: Environment, limits: Limits) {
    && (Sheltered(e, env, limits, true) ==> Sheltered(e, env, limits, false))
    && (Guarded(e, env, limits, true) ==> Guarded(e, env, limits, false))
  }

  lemma {:induction false} TameFields(fields: seq<Field>, env: Environment, limits: Limits)
    requires Lawful(env) && TameEnvironment(env) && CheckFields(fields, env, limits).Some?
    ensures AllTame(CheckFields(fields, env, limits).value)
    ensures forall i :: 0 <= i < |fields| ==> StaysGuarded(fields[i].expr, env, limits)
    decreases fields, 0
  {
    hide Lawful, TameEnvironment, Tame, Check, Sheltered, Guarded;
    if fields != [] {
      CheckFieldsStep(fields, env, limits);
      TameTypes(fields[0].expr, env, limits);
      TameFields(fields[1..], env, limits);
      forall i | 0 <= i < |fields| ensures StaysGuarded(fields[i].expr, env, limits) {
        if i > 0 { assert fields[i] == fields[1..][i - 1]; }
      }
    }
  }

  /** Where the environment is closed and enumerates nothing, soundness needs no more
      than that no null gets further than to a coalesce. */
  lemma ClosedEnvironmentsAreSound(e: Expr, env: Environment, values: Values, target: Schema, limits: Limits)
    requires Lawful(env) && TameEnvironment(env) && ValuesConform(env, values) && Guarded(e, env, limits, true)
    requires CheckAssignable(e, env, target, limits)
    ensures Acceptable(Evaluate(e, values), target)
  {
    var s := Check(e, env, limits).value;
    TameTypes(e, env, limits);
    if !target.secret && !e.Literal? { TameAssignable(s, target, limits); }
    hide Check, Assignable, Guarded, Lawful, TameEnvironment, ValuesConform, Within, WellFormed;
    AcceptedExpressionsAreSound(e, env, values, target, limits);
  }

  lemma TameAssignable(s: Schema, target: Schema, limits: Limits)
    requires Tame(s) && WellFormed(target) && Assignable(s, target, limits)
    ensures Within(s, target)
  {
    ClosedHasNoHole(s, target);
    forall v | Conforms(s, v) ensures Conforms(target, v) { AssignableIsSound(s, target, limits, v); }
    WithinDecides(s, target);
    hide Within, Assignable;
  }
}
