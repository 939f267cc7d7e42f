/** Value expressions: the static checker and the evaluator. The depth, node and
    size limits of both, and the syntax of names, are left out. */
module Expressions {
  import opened Prelude
  import opened Digits
  import opened Numbers
  import opened Decimals
  import opened Text
  import opened Json
  import opened Schemas

  datatype Op =
    | And | Or | Not | Eq | Ne | Lt | Lte | Gt | Gte | Add | Sub | Mul | Div
    | Coalesce | Concat | Length | Contains

  /** The fields of a record are a map in the source: a list here is one order of iterating over it. */
  datatype Expr =
    | Literal(value: Value)
    | Ref(path: seq<string>)
    | Apply(op: Op, args: seq<Expr>)
    | Record(fields: seq<Field>)
    | List(elements: seq<Expr>)

  datatype Field = Field(name: string, expr: Expr)

  datatype Environment = Environment(
    inputs: Schema, trigger: Schema, scope: Schema,
    nodeOutputs: map<string, Schema>, visibleNodes: set<string>,
    iteration: Option<Schema>, secrets: set<string>)

  // ------------------------------------------------------------------ checking

  /** inferLiteral. */
  ghost function Infer(v: Value): Option<Schema> {
    match v
    case Null => Some(Scalar(NullKind))
    case Bool(_) => Some(Scalar(BooleanKind))
    case Str(_) => Some(Scalar(StringKind))
    case Number(text) =>
      if !IsNumber(v) then None else if IsInteger(Rational(v)) then Some(Scalar(IntegerKind)) else Some(Scalar(NumberKind))
    case Array(items) =>
      if items == [] || Infer(items[0]).None? then None
      else if forall i :: 0 < i < |items| ==> Infer(items[i]).Some? && SameType(Infer(items[0]).value, Infer(items[i]).value)
      then Some(ArrayOf(Infer(items[0]).value)) else None
    case Object(members) =>
      if forall n :: n in members ==> Infer(members[n]).Some?
      then Some(ClosedObject(map n | n in members :: Infer(members[n]).value, SortedList(members.Keys))) else None
  }

  function CheckReference(path: seq<string>, env: Environment): Option<Schema> {
    if |path| < 2 then None
    else if path[0] == "inputs" then Resolve(env.inputs, path[1..])
    else if path[0] == "trigger" then Resolve(env.trigger, path[1..])
    else if path[0] == "scope" then Resolve(env.scope, path[1..])
    else if path[0] == "iteration" then
      if env.iteration.None? then None else Resolve(env.iteration.value, path[1..])
    else if path[0] == "nodes" then
      if |path| < 4 || path[2] != "output" || path[1] !in env.visibleNodes || path[1] !in env.nodeOutputs then None
      else Resolve(env.nodeOutputs[path[1]], path[3..])
    else if path[0] == "secrets" then
      if |path| != 2 || path[1] !in env.secrets then None else Some(Scalar(StringKind).(secret := true))
    else None
  }

  ghost predicate Comparable(a: Schema, b: Schema) {
    && a.kind !in {ObjectKind, ArrayKind, NullKind} && b.kind !in {ObjectKind, ArrayKind, NullKind}
    && ((a.kind in {IntegerKind, NumberKind} && b.kind in {IntegerKind, NumberKind}) || SameType(a, b))
  }

  predicate AllOf(ss: seq<Schema>, kinds: set<Kind>) {
    forall i :: 0 <= i < |ss| ==> ss[i].kind in kinds
  }

  /** The first type that is not null, to which all others must be the same. */
  ghost function CoalesceType(ss: seq<Schema>): Option<Schema> {
    if forall i :: 0 <= i < |ss| ==> ss[i].kind == NullKind then Some(Scalar(NullKind))
    else
      var first := FirstTyped(ss);
      if forall i :: 0 <= i < |ss| ==> ss[i].kind == NullKind || i == first || SameType(ss[first], ss[i]) then Some(ss[first])
      else None
  }

  function FirstTyped(ss: seq<Schema>): (i: nat)
    requires exists i :: 0 <= i < |ss| && ss[i].kind != NullKind
    ensures i < |ss| && ss[i].kind != NullKind && forall j :: 0 <= j < i ==> ss[j].kind == NullKind
  {
    if ss[0].kind != NullKind then 0
    else
      assert exists i :: 0 <= i < |ss[1..]| && ss[1..][i].kind != NullKind by {
        var i :| 0 <= i < |ss| && ss[i].kind != NullKind;
        assert ss[1..][i - 1].kind != NullKind;
      }
      1 + FirstTyped(ss[1..])
  }

  predicate IsOrdering(op: Op) {
    op in {Lt, Lte, Gt, Gte}
  }

  predicate IsArithmetic(op: Op) {
    op in {Add, Sub, Mul, Div}
  }

  function ArithmeticType(op: Op, a: Schema, b: Schema): Option<Schema> {
    if a.kind !in {NumberKind, IntegerKind} || b.kind !in {NumberKind, IntegerKind} then None
    else if op != Div && a.kind == IntegerKind && b.kind == IntegerKind then Some(Scalar(IntegerKind))
    else Some(Scalar(NumberKind))
  }

  ghost function BinaryType(op: Op, a: Schema, b: Schema, limits: Limits): Option<Schema> {
    if op == Contains then
      if (a.kind == StringKind && b.kind == StringKind) || (a.kind == ArrayKind && a.items.Some? && Assignable(b, a.items.value, limits))
      then Some(Scalar(BooleanKind)) else None
    else if IsArithmetic(op) then ArithmeticType(op, a, b)
    else if !Comparable(a, b) then None
    else if IsOrdering(op) && !AllOf([a, b], {StringKind, NumberKind, IntegerKind}) then None
    else Some(Scalar(BooleanKind))
  }

  /** checker.operation, given the types of the arguments. */
  ghost function OperationType(op: Op, ss: seq<Schema>, limits: Limits): Option<Schema> {
    if op in {And, Or} then if |ss| >= 2 && AllOf(ss, {BooleanKind}) then Some(Scalar(BooleanKind)) else None
    else if op == Not then if |ss| == 1 && AllOf(ss, {BooleanKind}) then Some(Scalar(BooleanKind)) else None
    else if op == Coalesce then if |ss| >= 2 then CoalesceType(ss) else None
    else if op == Concat then if |ss| >= 2 && AllOf(ss, {StringKind}) then Some(Scalar(StringKind)) else None
    else if op == Length then
      if |ss| == 1 && AllOf(ss, {StringKind, ArrayKind, ObjectKind}) then Some(Scalar(IntegerKind)) else None
    else if |ss| == 2 then BinaryType(op, ss[0], ss[1], limits) else None
  }

  ghost predicate DistinctNames(fields: seq<Field>) {
    forall i, j :: 0 <= i < j < |fields| ==> fields[i].name != fields[j].name
  }

  /** checker.expression. */
  ghost function Check(e: Expr, env: Environment, limits: Limits): Option<Schema>
    decreases e
  {
    match e
    case Literal(v) => Infer(v)
    case Ref(path) => CheckReference(path, env)
    case Apply(op, args) =>
      var ss := CheckAll(args, env, limits);
      if ss.None? then None else OperationType(op, ss.value, limits)
    case Record(fields) =>
      var ss := CheckFields(fields, env, limits);
      if ss.None? || !DistinctNames(fields) then None
      else Some(ClosedObject(FieldTypes(fields, ss.value), seq(|fields|, i requires 0 <= i < |fields| => fields[i].name)))
    case List(elements) =>
      var ss := CheckAll(elements, env, limits);
      if ss.None? || ss.value == [] then None
      else if forall i :: 0 < i < |ss.value| ==> SameType(ss.value[0], ss.value[i]) then Some(ArrayOf(ss.value[0]))
      else None
  }

  /** The types of arguments or elements, none of which may be a secret. */
  ghost function CheckAll(es: seq<Expr>, env: Environment, limits: Limits): (r: Option<seq<Schema>>)
    ensures r.Some? ==> |r.value| == |es|
    decreases es
  {
    if es == [] then Some([])
    else
      var first := Check(es[0], env, limits);
      if first.None? || first.value.secret then None
      else
        var rest := CheckAll(es[1..], env, limits);
        if rest.None? then None else Some([first.value] + rest.value)
  }

  ghost function CheckFields(fields: seq<Field>, env: Environment, limits: Limits): (r: Option<seq<Schema>>)
    ensures r.Some? ==> |r.value| == |fields|
    decreases fields
  {
    if fields == [] then Some([])
    else
      var first := Check(fields[0].expr, env, limits);
      if first.None? || first.value.secret then None
      else
        var rest := CheckFields(fields[1..], env, limits);
        if rest.None? then None else Some([first.value] + rest.value)
  }

  ghost function FieldTypes(fields: seq<Field>, ss: seq<Schema>): map<string, Schema>
    requires |fields| == |ss|
  {
    if fields == [] then map[] else FieldTypes(fields[1..], ss[1..])[fields[0].name := ss[0]]
  }

  predicate IsDirectSecret(e: Expr) {
    e.Ref? && |e.path| == 2 && e.path[0] == "secrets"
  }

  /** CheckAssignable. */
  ghost predicate CheckAssignable(e: Expr, env: Environment, target: Schema, limits: Limits) {
    && WellFormed(target)
    && var source := Check(e, env, limits);
       source.Some?
       && (if target.secret then IsDirectSecret(e) && source.value.secret
           else !source.value.secret
                && if e.Literal? then Conforms(target, e.value) else Assignable(source.value, target, limits))
  }

  // ---------------------------------------------------------------- evaluating

  datatype Values = Values(
    inputs: map<string, Value>, trigger: map<string, Value>, scope: map<string, Value>,
    nodeOutputs: map<string, Value>, iteration: Value, secrets: set<string>)

  /** `TypeFailure` stands for a failed type assertion, an argument that is not
      there, and the errors that report an operand of the wrong type. */
  datatype Failure = MissingValue | NoNodeOutput | NoSecret | DivisionByZero | NoDecimal | TypeFailure

  datatype Outcome = Plain(value: Value) | Absent | Handle | Fail(failure: Failure)

  const MAX_SCALE: nat := 10_000

  /** The decimal spelling of an exact result: the normal decimal that denotes it, if any is short enough. */
  ghost function DecimalText(x: real): (r: Option<string>)
    ensures r.Some? ==> Scan(r.value).Some? && Numbers.Value(r.value) == x
  {
    if exists d: Decimal :: SpelledBy(d, x) then
      var d: Decimal :| SpelledBy(d, x);
      RenderedDecimal(d);
      Some(Render(d))
    else None
  }

  ghost predicate SpelledBy(d: Decimal, x: real) {
    IsNormal(d) && Denotes(d) == x && (d.Scaled? ==> d.scale <= MAX_SCALE)
  }

  /** The spelling is the one terminatingDecimal computes for the reduced fraction. */
  lemma DecimalTextIsTerminating(x: real, num: int, den: nat)
    requires den > 0 && IsQuotient(x, num, den)
    ensures DecimalText(x).Some? <==> HasDecimal(num, den, MAX_SCALE)
    ensures forall text :: RendersDecimal(text, num, den, MAX_SCALE) ==> DecimalText(x) == Some(text)
  {
    hide IsNormal, Denotes, Render, Scan;
    forall d: Decimal ensures SpelledBy(d, x) <==> IsDecimalOf(d, num, den, MAX_SCALE) {
      if IsNormal(d) { SameQuotient(x, d, num, den); }
    }
    hide IsQuotient;
    forall text | RendersDecimal(text, num, den, MAX_SCALE) ensures DecimalText(x) == Some(text) {
      var d :| IsDecimalOf(d, num, den, MAX_SCALE) && text == Render(d);
      assert SpelledBy(d, x);
      var e: Decimal :| SpelledBy(e, x) && DecimalText(x) == Some(Render(e));
      DecimalIsUnique(d, e, num, den, MAX_SCALE);
    }
  }

  lemma SameQuotient(x: real, d: Decimal, num: int, den: nat)
    requires den > 0 && IsQuotient(x, num, den) && IsNormal(d)
    ensures Denotes(d) == x <==> IsQuotient(Denotes(d), num, den)
  {
    hide IsNormal, Denotes;
    if IsQuotient(Denotes(d), num, den) { Cancel(Denotes(d), x, den as real); }
  }

  ghost function FoundOutcome(found: Found): Outcome {
    match found
    case Missing => Absent
    case CrossesScalar => Fail(TypeFailure)
    case Found(v) => Plain(v)
  }

  ghost function EvalReference(path: seq<string>, values: Values): Outcome {
    if |path| < 2 then Fail(TypeFailure)
    else if path[0] == "inputs" then FoundOutcome(Lookup(Object(values.inputs), path[1..]))
    else if path[0] == "trigger" then FoundOutcome(Lookup(Object(values.trigger), path[1..]))
    else if path[0] == "scope" then FoundOutcome(Lookup(Object(values.scope), path[1..]))
    else if path[0] == "iteration" then FoundOutcome(Lookup(values.iteration, path[1..]))
    else if path[0] == "nodes" then
      if path[1] !in values.nodeOutputs then Fail(NoNodeOutput)
      else if |path| < 3 then Fail(TypeFailure)
      else FoundOutcome(Lookup(values.nodeOutputs[path[1]], path[3..]))
    else if path[0] == "secrets" then if path[1] in values.secrets then Handle else Fail(NoSecret)
    else Fail(TypeFailure)
  }

  ghost function EvalAnd(vs: seq<Value>): Outcome {
    if vs == [] then Plain(Bool(true))
    else if !vs[0].Bool? then Fail(TypeFailure)
    else if !vs[0].flag then Plain(Bool(false)) else EvalAnd(vs[1..])
  }

  ghost function EvalOr(vs: seq<Value>): Outcome {
    if vs == [] then Plain(Bool(false))
    else if !vs[0].Bool? then Fail(TypeFailure)
    else if vs[0].flag then Plain(Bool(true)) else EvalOr(vs[1..])
  }

  ghost function EvalConcat(vs: seq<Value>, prefix: string): Outcome {
    if vs == [] then Plain(Str(prefix))
    else if !vs[0].Str? then Fail(TypeFailure) else EvalConcat(vs[1..], prefix + vs[0].content)
  }

  /** equalValues: None when a number meets anything else. */
  ghost function Equal(a: Value, b: Value): Option<bool> {
    if IsNumber(a) && IsNumber(b) then Some(Rational(a) == Rational(b))
    else if IsNumber(a) || IsNumber(b) then None else Some(a == b)
  }

  datatype Ordering = Less | Same | Greater

  ghost function Compare(a: Value, b: Value): Option<Ordering> {
    if IsNumber(a) && IsNumber(b) then
      Some(if Rational(a) < Rational(b) then Less else if Rational(a) == Rational(b) then Same else Greater)
    else if a.Str? && b.Str? then
      Some(if Text.Less(a.content, b.content) then Less else if a.content == b.content then Same else Greater)
    else None
  }

  ghost function EvalContains(items: seq<Value>, v: Value): Outcome {
    if items == [] then Plain(Bool(false))
    else
      var equal := Equal(items[0], v);
      if equal.None? then Fail(TypeFailure)
      else if equal.value then Plain(Bool(true)) else EvalContains(items[1..], v)
  }

  ghost predicate Occurs(s: string, t: string) {
    exists i :: 0 <= i <= |s| && t <= s[i..]
  }

  ghost predicate Holds(op: Op, ordering: Ordering) {
    if op == Lt then ordering.Less?
    else if op == Lte then !ordering.Greater?
    else if op == Gt then ordering.Greater?
    else !ordering.Less?
  }

  ghost function Exact(op: Op, a: real, b: real): real {
    if op == Add then a + b else if op == Sub then a - b else if op == Mul then a * b else if b == 0.0 then 0.0 else a / b
  }

  ghost function EvalArithmetic(op: Op, a: Value, b: Value): Outcome {
    if !IsNumber(a) || !IsNumber(b) then Fail(TypeFailure)
    else if op == Div && Rational(b) == 0.0 then Fail(DivisionByZero)
    else
      var text := DecimalText(Exact(op, Rational(a), Rational(b)));
      if text.None? then Fail(NoDecimal) else Plain(Number(text.value))
  }

  ghost function EvalEquality(op: Op, a: Value, b: Value): Outcome {
    var equal := Equal(a, b);
    if equal.None? then Fail(TypeFailure) else Plain(Bool(if op == Ne then !equal.value else equal.value))
  }

  ghost function EvalOrdering(op: Op, a: Value, b: Value): Outcome {
    var ordering := Compare(a, b);
    if ordering.None? then Fail(TypeFailure) else Plain(Bool(Holds(op, ordering.value)))
  }

  ghost function EvalLength(v: Value): Outcome {
    match v
    case Str(content) => Plain(Number(Spell(|content|)))
    case Array(items) => Plain(Number(Spell(|items|)))
    case Object(members) => Plain(Number(Spell(|members|)))
    case _ => Fail(TypeFailure)
  }

  ghost function EvalMembership(container: Value, v: Value): Outcome {
    match container
    case Str(content) => if v.Str? then Plain(Bool(Occurs(content, v.content))) else Fail(TypeFailure)
    case Array(items) => EvalContains(items, v)
    case _ => Fail(TypeFailure)
  }

  ghost function EvalBinary(op: Op, a: Value, b: Value): Outcome {
    if op == Contains then EvalMembership(a, b)
    else if IsArithmetic(op) then EvalArithmetic(op, a, b)
    else if IsOrdering(op) then EvalOrdering(op, a, b)
    else EvalEquality(op, a, b)
  }

  /** evaluateOperation; a missing argument would be an index out of range. */
  ghost function EvalOperation(op: Op, vs: seq<Value>): Outcome {
    if op == And then EvalAnd(vs)
    else if op == Or then EvalOr(vs)
    else if op == Concat then EvalConcat(vs, "")
    else if vs == [] then Fail(TypeFailure)
    else if op == Not then if vs[0].Bool? then Plain(Bool(!vs[0].flag)) else Fail(TypeFailure)
    else if op == Length then EvalLength(vs[0])
    else if |vs| == 1 then Fail(TypeFailure)
    else EvalBinary(op, vs[0], vs[1])
  }

  /** evaluator.expression. */
  ghost function Eval(e: Expr, values: Values): Outcome
    decreases e
  {
    match e
    case Literal(v) => Plain(v)
    case Ref(path) => EvalReference(path, values)
    case Apply(op, args) =>
      if op == Coalesce then EvalCoalesce(args, values)
      else
        var vs := EvalAll(args, values);
        if vs.Err? then Fail(vs.error) else EvalOperation(op, vs.value)
    case Record(fields) =>
      var members := EvalFields(fields, values);
      if members.Err? then Fail(members.error) else Plain(Object(members.value))
    case List(elements) =>
      var vs := EvalAll(elements, values);
      if vs.Err? then Fail(vs.error) else Plain(Array(vs.value))
  }

  ghost function EvalCoalesce(args: seq<Expr>, values: Values): Outcome
    decreases args
  {
    if args == [] then Plain(Null)
    else
      match Eval(args[0], values)
      case Absent => EvalCoalesce(args[1..], values)
      case Plain(v) => if v.Null? then EvalCoalesce(args[1..], values) else Plain(v)
      case other => other
  }

  ghost function EvalAll(es: seq<Expr>, values: Values): (r: Result<seq<Value>, Failure>)
    ensures r.Ok? ==> |r.value| == |es|
    decreases es
  {
    if es == [] then Ok([])
    else
      match Eval(es[0], values)
      case Fail(f) => Err(f)
      case Absent => Err(MissingValue)
      case Handle => Err(TypeFailure)
      case Plain(v) =>
        var rest := EvalAll(es[1..], values);
        if rest.Err? then rest else Ok([v] + rest.value)
  }

  ghost function EvalFields(fields: seq<Field>, values: Values): Result<map<string, Value>, Failure>
    decreases fields
  {
    if fields == [] then Ok(map[])
    else
      match Eval(fields[0].expr, values)
      case Fail(f) => Err(f)
      case Absent => Err(MissingValue)
      case Handle => Err(TypeFailure)
      case Plain(v) =>
        var rest := EvalFields(fields[1..], values);
        if rest.Err? then rest else Ok(rest.value[fields[0].name := v])
  }

  /** Evaluate, after the checks: a missing result is an error. */
  ghost function Evaluate(e: Expr, values: Values): Outcome {
    var r := Eval(e, values);
    if r.Absent? then Fail(MissingValue) else r
  }
}
