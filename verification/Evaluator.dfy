/**
The structured meaning of SemanticIR: a big-step evaluator with the source's evaluation
order. Every loop iteration and every call spends one unit of `fuel`; `Timeout` says the fuel
ran out, `Wrong` that the program has no meaning at that point.
*/
module Evaluator {
  import opened SemanticIR
  import opened Typing

  datatype Store = Store(globals: map<string, Value>, scopes: seq<map<string, Value>>, out: seq<Event>)

  datatype R<+A> =
    | Ok(v: A, st: Store)
    | Trap(fault: Fault, globals: map<string, Value>, out: seq<Event>)
    | Timeout
    | Wrong
  {
    predicate IsFailure() {
      !Ok?
    }

    function PropagateFailure<B>(): R<B>
      requires IsFailure()
    {
      match this
      case Trap(f, g, o) => Trap(f, g, o)
      case Timeout => Timeout
      case Wrong => Wrong
    }

    function Extract(): (A, Store)
      requires !IsFailure()
    {
      (v, st)
    }
  }

  function Fails<A>(f: Fault, st: Store): R<A> {
    Trap(f, st.globals, st.out)
  }

  // ----- places -----

  /** A variable: a global, or a local of the current activation. */
  datatype Base = Global(name: string) | Local(depth: nat, name: string)

  /** A variable or one element of an array variable. */
  datatype Place = Whole(base: Base) | Element(base: Base, index: int)

  function Resolve(st: Store, name: string): Base {
    var i := Innermost(st.scopes, name);
    if i >= 0 then Local(i, name) else Global(name)
  }

  predicate Bound(st: Store, b: Base) {
    match b
    case Global(x) => x in st.globals
    case Local(d, x) => d < |st.scopes| && x in st.scopes[d]
  }

  function ReadBase(st: Store, b: Base): Value
    requires Bound(st, b)
  {
    match b
    case Global(x) => st.globals[x]
    case Local(d, x) => st.scopes[d][x]
  }

  function WriteBase(st: Store, b: Base, v: Value): Store
    requires Bound(st, b)
  {
    match b
    case Global(x) => st.(globals := st.globals[x := v])
    case Local(d, x) => st.(scopes := st.scopes[d := st.scopes[d][x := v]])
  }

  predicate Valid(st: Store, p: Place) {
    && Bound(st, p.base)
    && (p.Element? ==> ReadBase(st, p.base).Arr? && 0 <= p.index < |ReadBase(st, p.base).elems|)
  }

  function Read(st: Store, p: Place): Value
    requires Valid(st, p)
  {
    match p
    case Whole(b) => ReadBase(st, b)
    case Element(b, i) => ReadBase(st, b).elems[i]
  }

  function Write(st: Store, p: Place, v: Value): Store
    requires Valid(st, p)
  {
    match p
    case Whole(b) => WriteBase(st, b, v)
    case Element(b, i) => WriteBase(st, b, Arr(ReadBase(st, b).elems[i := v]))
  }

  // ----- operators -----

  /** A value, a fault, or no meaning. */
  datatype Computed = Val(v: Value) | Faults(f: Fault) | Meaningless

  function ComparisonOf(opcode: int): Pred
    requires 6 <= opcode <= 11
  {
    [Lt, Gt, Le, Ge, Eq, Ne][opcode - 6]
  }

  function IntBinary(opcode: int, a: int, b: int): Computed {
    if opcode == 1 then Val(I(Wrap32(a + b)))
    else if opcode == 2 then Val(I(Wrap32(a - b)))
    else if opcode == 3 then Val(I(Wrap32(a * b)))
    else if opcode == 4 || opcode == 5 then
      if b == 0 || (a == INT32_MIN && b == -1) then Faults(DivisionDomain)
      else Val(I(if opcode == 4 then TruncDiv(a, b) else TruncRem(a, b)))
    else if 6 <= opcode <= 11 then Val(Truth(IntCompare(ComparisonOf(opcode), a, b)))
    else if opcode == 12 then Val(Truth(a != 0 || b != 0))
    else if opcode == 13 then Val(Truth(a != 0 && b != 0))
    else Meaningless
  }

  function FloatBinary(fs: FloatSem, opcode: int, a: Float, b: Float): Computed {
    if opcode == 1 then Val(F(fs.arith(FAdd, a, b)))
    else if opcode == 2 then Val(F(fs.arith(FSub, a, b)))
    else if opcode == 3 then Val(F(fs.arith(FMul, a, b)))
    else if opcode == 4 then
      if fs.cmp(Eq, b, FZERO) then Faults(FloatDivision) else Val(F(fs.arith(FDiv, a, b)))
    else if 6 <= opcode <= 11 then Val(Truth(fs.cmp(ComparisonOf(opcode), a, b)))
    else Meaningless
  }

  function Binary(fs: FloatSem, opcode: int, l: Value, r: Value): Computed {
    match (l, r)
    case (I(a), I(b)) => IntBinary(opcode, a, b)
    case (F(a), F(b)) => FloatBinary(fs, opcode, a, b)
    case (T(a), T(b)) =>
      if opcode == 10 then Val(Truth(Chars(a) == Chars(b)))
      else if opcode == 11 then Val(Truth(Chars(a) != Chars(b)))
      else Meaningless
    case _ => Meaningless
  }

  function Unary(fs: FloatSem, v: Value): Computed {
    match v
    case I(n) => Val(I(Wrap32(-n)))
    case F(f) => Val(F(fs.neg(f)))
    case _ => Meaningless
  }

  /** Building a composite; a tag outside the declared variants is a fault. */
  function Construct(c: CompositeDecl, vs: seq<Value>): Computed {
    if c.kind == Slice then Meaningless
    else if !c.Tagged() then Val(Agg(vs))
    else if vs == [] || !vs[0].I? then Meaningless
    else if 0 <= vs[0].n < c.Tags() then Val(Agg(vs))
    else Faults(InvalidTag)
  }

  /** The tag under which payload `index` is active. */
  function ActiveTag(c: CompositeDecl, index: int): int {
    if c.kind == Option then 1 else index - 1
  }

  /** Reading a field; a payload is readable only while its variant is active. */
  function Project(c: CompositeDecl, index: int, v: Value): Computed {
    if !v.Agg? || !(0 <= index < |v.fields|) || c.kind == Slice then Meaningless
    else if c.Tagged() && !v.fields[0].I? then Meaningless
    else if c.Tagged() && index > 0 && v.fields[0].n != ActiveTag(c, index) then Faults(InactivePayload)
    else Val(v.fields[index])
  }

  /** A window of a global array of the given extent. */
  function MakeSlice(owner: string, extent: int, offset: Value, length: Value): Computed {
    if !offset.I? || !length.I? then Meaningless
    else if offset.n < 0 || length.n < 0 || offset.n + length.n > extent then Faults(SliceRange)
    else Val(Agg([P(GlobalElem(owner, offset.n)), I(length.n)]))
  }

  /** The element of a slice, read from the owner's current contents. */
  function SliceElement(globals: map<string, Value>, slice: Value, index: int): Computed {
    if !slice.Agg? || |slice.fields| != 2 || !slice.fields[0].P? || !slice.fields[1].I? then Meaningless
    else if index < 0 || index >= slice.fields[1].n then Faults(SliceBounds)
    else
      var p := slice.fields[0].p;
      if p.GlobalElem? && p.name in globals && globals[p.name].Arr? && 0 <= p.index + index < |globals[p.name].elems| then
        Val(globals[p.name].elems[p.index + index])
      else Meaningless
  }

  function Lift(c: Computed, st: Store): R<Value> {
    match c
    case Val(v) => Ok(v, st)
    case Faults(f) => Fails(f, st)
    case Meaningless => Wrong
  }

  // ----- expressions -----

  function EvalExpr(w: Env, fuel: nat, st: Store, e: Expression): R<Value>
    decreases fuel, 0, e, 2
  {
    match e.kind
    case IntegerE | BooleanE => Ok(I(e.integer), st)
    case FloatE => Ok(F(e.decimal), st)
    case StringE => Ok(T(Text(e.name)), st)
    case VariableE | IndexE =>
      var (p, st1) :- EvalPlace(w, fuel, st, e);
      if Valid(st1, p) then Ok(Read(st1, p), st1) else Wrong
    case UnaryE =>
      if |e.operands| != 1 then Wrong else
      var (v, st1) :- EvalExpr(w, fuel, st, e.operands[0]);
      Lift(Unary(w.floats, v), st1)
    case BinaryE =>
      if |e.operands| != 2 then Wrong else
      var (l, st1) :- EvalExpr(w, fuel, st, e.operands[0]);
      var (r, st2) :- EvalExpr(w, fuel, st1, e.operands[1]);
      Lift(Binary(w.floats, e.opcode, l, r), st2)
    case CallE =>
      if e.name !in w.functions then Wrong else
      var (vs, st1) :- EvalExprs(w, fuel, st, e.operands);
      if fuel == 0 then Timeout else Call(w, fuel - 1, st1, w.functions[e.name], vs)
    case ConstructE =>
      if e.composite !in w.composites then Wrong else
      var (vs, st1) :- EvalExprs(w, fuel, st, e.operands);
      Lift(Construct(w.composites[e.composite], vs), st1)
    case ProjectE =>
      if |e.operands| != 1 || e.operands[0].composite !in w.composites then Wrong else
      var (v, st1) :- EvalExpr(w, fuel, st, e.operands[0]);
      Lift(Project(w.composites[e.operands[0].composite], e.integer, v), st1)
    case SliceE =>
      if |e.operands| != 2 || e.name !in w.globals then Wrong else
      var (offset, st1) :- EvalExpr(w, fuel, st, e.operands[0]);
      var (length, st2) :- EvalExpr(w, fuel, st1, e.operands[1]);
      Lift(MakeSlice(e.name, w.globals[e.name].extent, offset, length), st2)
    case SliceIndexE =>
      if |e.operands| != 1 then Wrong else
      var (index, st1) :- EvalExpr(w, fuel, st, e.operands[0]);
      var owner := Resolve(st1, e.name);
      if !index.I? || !Bound(st1, owner) then Wrong
      else Lift(SliceElement(st1.globals, ReadBase(st1, owner), index.n), st1)
  }

  /** The place of a variable or array element: the index first, then the variable. */
  function EvalPlace(w: Env, fuel: nat, st: Store, e: Expression): R<Place>
    decreases fuel, 0, e, 1
  {
    if e.kind == IndexE then
      if |e.operands| != 1 then Wrong else
      var (index, st1) :- EvalExpr(w, fuel, st, e.operands[0]);
      var base := Resolve(st1, e.name);
      if !index.I? || !Bound(st1, base) || !ReadBase(st1, base).Arr? then Wrong
      else if 0 <= index.n < |ReadBase(st1, base).elems| then Ok(Element(base, index.n), st1)
      else Fails(ArrayBounds, st1)
    else
      var base := Resolve(st, e.name);
      if Bound(st, base) then Ok(Whole(base), st) else Wrong
  }

  function EvalExprs(w: Env, fuel: nat, st: Store, es: seq<Expression>): (r: R<seq<Value>>)
    ensures r.Ok? ==> |r.v| == |es|
    decreases fuel, 0, es, 0
  {
    if es == [] then Ok([], st)
    else
      var (v, st1) :- EvalExpr(w, fuel, st, es[0]);
      var (vs, st2) :- EvalExprs(w, fuel, st1, es[1..]);
      Ok([v] + vs, st2)
  }

  function Arguments(ps: seq<Variable>, vs: seq<Value>): (m: map<string, Value>)
    requires |ps| == |vs|
  {
    if ps == [] then map[]
    else Arguments(ps[..|ps| - 1], vs[..|ps| - 1])[ps[|ps| - 1].name := vs[|ps| - 1]]
  }

  /** Runs a function body in a scope of its own and restores the caller's scopes. */
  function Call(w: Env, fuel: nat, st: Store, f: Function, vs: seq<Value>): R<Value>
    decreases fuel, 2
  {
    if |vs| != |f.parameters| then Wrong else
    var (flow, st1) :- Exec(w, fuel, st.(scopes := [Arguments(f.parameters, vs)]), f.body);
    match flow
    case Returns(v) => Ok(v, st1.(scopes := st.scopes))
    case Next => if f.result == Void then Ok(Unit, st1.(scopes := st.scopes)) else Fails(MissingReturn, st1)
    case _ => Wrong
  }

  // ----- statements -----

  /** How a statement hands control on. */
  datatype Flow = Next | Breaks | Continues | Returns(v: Value)

  function Push(st: Store): Store {
    st.(scopes := st.scopes + [map[]])
  }

  /** Leaves the scopes opened since there were `n`. */
  function PopTo(st: Store, n: nat): Store {
    if n <= |st.scopes| then st.(scopes := st.scopes[..n]) else st
  }

  function DeclareZero(w: Env, st: Store, ds: seq<Variable>): Store
    requires |st.scopes| > 0
    decreases ds
  {
    if ds == [] then st
    else
      var n := |st.scopes| - 1;
      DeclareZero(w, st.(scopes := st.scopes[n := st.scopes[n][ds[0].name := ZeroStorage(w, ds[0])]]), ds[1..])
  }

  function Exec(w: Env, fuel: nat, st: Store, s: Statement): R<Flow>
    decreases fuel, 1, s, 1
  {
    match s.kind
    case BlockS =>
      if s.lexical then
        var (flow, st1) :- ExecAll(w, fuel, Push(st), s.body);
        Ok(flow, PopTo(st1, |st.scopes|))
      else ExecAll(w, fuel, st, s.body)
    case DeclareS => if |st.scopes| == 0 then Wrong else Ok(Next, DeclareZero(w, st, s.variables))
    case AssignS =>
      if |s.expressions| != 2 then Wrong else
      var (v, st1) :- EvalExpr(w, fuel, st, s.expressions[1]);
      var (p, st2) :- EvalPlace(w, fuel, st1, s.expressions[0]);
      if Valid(st2, p) then Ok(Next, Write(st2, p, v)) else Wrong
    case UpdateS =>
      if |s.expressions| != 2 then Wrong else
      var (record, st1) :- EvalExpr(w, fuel, st, s.expressions[0]);
      var (field, st2) :- EvalExpr(w, fuel, st1, s.expressions[1]);
      if !record.Agg? || s.declaration >= |record.fields| then Wrong else
      var (p, st3) :- EvalPlace(w, fuel, st2, s.expressions[0]);
      if Valid(st3, p) then Ok(Next, Write(st3, p, Agg(record.fields[s.declaration := field]))) else Wrong
    case ExpressionS =>
      if |s.expressions| != 1 then Wrong else
      var (_, st1) :- EvalExpr(w, fuel, st, s.expressions[0]);
      Ok(Next, st1)
    case PrintS => Print(w, fuel, st, s.expressions)
    case IfS =>
      if |s.expressions| != 1 then Wrong else
      var (c, st1) :- EvalExpr(w, fuel, st, s.expressions[0]);
      if !c.I? then Wrong
      else ExecAll(w, fuel, st1, if c.n != 0 then s.body else s.alternative)
    case WhileS =>
      if |s.expressions| != 1 then Wrong else
      var (c, st1) :- EvalExpr(w, fuel, st, s.expressions[0]);
      if !c.I? then Wrong
      else if c.n == 0 then Ok(Next, st1)
      else
        var (flow, st2) :- ExecAll(w, fuel, st1, s.body);
        if flow.Breaks? then Ok(Next, st2)
        else if flow.Returns? then Ok(flow, st2)
        else if fuel == 0 then Timeout
        else Exec(w, fuel - 1, st2, s)
    case ForS =>
      if |s.expressions| != 4 then Wrong else
      var (start, st1) :- EvalExpr(w, fuel, st, s.expressions[1]);
      var (p, st2) :- EvalPlace(w, fuel, st1, s.expressions[0]);
      if Valid(st2, p) then Iterate(w, fuel, Write(st2, p, start), p, s) else Wrong
    case BreakS => Ok(Breaks, st)
    case ContinueS => Ok(Continues, st)
    case ReturnS =>
      if s.expressions == [] then Ok(Returns(Unit), st)
      else
        var (v, st1) :- EvalExpr(w, fuel, st, s.expressions[0]);
        Ok(Returns(v), st1)
  }

  function ExecAll(w: Env, fuel: nat, st: Store, ss: seq<Statement>): R<Flow>
    decreases fuel, 1, ss, 0
  {
    if ss == [] then Ok(Next, st)
    else
      var (flow, st1) :- Exec(w, fuel, st, ss[0]);
      if flow.Next? then ExecAll(w, fuel, st1, ss[1..]) else Ok(flow, st1)
  }

  predicate Continue(step: int, current: int, end: int) {
    if step > 0 then current < end else current > end
  }

  /**
  One test of a `for` loop and what follows it. The counter is read first, then the step and
  the end are evaluated anew; the step of this test is the one added after the body, to
  whatever the counter holds by then.
  */
  function Iterate(w: Env, fuel: nat, st: Store, p: Place, s: Statement): R<Flow>
    requires |s.expressions| == 4
    decreases fuel, 1, s, 0
  {
    if !Valid(st, p) || !Read(st, p).I? then Wrong else
    var current := Read(st, p).n;
    var (step, st1) :- EvalExpr(w, fuel, st, s.expressions[2]);
    if !step.I? then Wrong
    else if step.n == 0 then Fails(ZeroStep, st1)
    else
      var (end, st2) :- EvalExpr(w, fuel, st1, s.expressions[3]);
      if !end.I? then Wrong
      else if !Continue(step.n, current, end.n) then Ok(Next, st2)
      else
        var (flow, st3) :- ExecAll(w, fuel, st2, s.body);
        if flow.Breaks? then Ok(Next, st3)
        else if flow.Returns? then Ok(flow, st3)
        else if !Valid(st3, p) || !Read(st3, p).I? then Wrong
        else if fuel == 0 then Timeout
        else Iterate(w, fuel - 1, Write(st3, p, I(Wrap32(Read(st3, p).n + step.n))), p, s)
  }

  function Print(w: Env, fuel: nat, st: Store, es: seq<Expression>): R<Flow>
    decreases fuel, 1, es, 0
  {
    if es == [] then Ok(Next, st)
    else
      var (v, st1) :- EvalExpr(w, fuel, st, es[0]);
      var item := Printed(PrintFormat(es[0].ty), Printable(es[0].ty, v));
      Print(w, fuel, st1.(out := st1.out + [item, Printed("%s", Separator(|es| == 1))]), es[1..])
  }

  // ----- programs -----

  datatype Behaviour =
    | Exits(v: Value, globals: map<string, Value>, out: seq<Event>)
    | Aborts(fault: Fault, globals: map<string, Value>, out: seq<Event>)
    | Undecided
    | GoesWrong

  function InitialStore(w: Env): Store {
    Store(map n <- w.globals :: ZeroStorage(w, w.globals[n]), [map[]], [])
  }

  /** The whole program with the given fuel; falling off the end of the body exits with 0. */
  function RunProgram(w: Env, fuel: nat, body: Statement): Behaviour {
    match Exec(w, fuel, InitialStore(w), body)
    case Ok(Returns(v), st) => Exits(v, st.globals, st.out)
    case Ok(Next, st) => Exits(I(0), st.globals, st.out)
    case Ok(_, _) => GoesWrong
    case Trap(f, g, o) => Aborts(f, g, o)
    case Timeout => Undecided
    case Wrong => GoesWrong
  }
}
