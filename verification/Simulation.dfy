/**
The generated code runs in step with the evaluator. Every lemma follows one evaluator
function through the code generated for the same piece of program: control arrives where the
generator went on, with the same store, the same output and the same result; a fault traps
with the same fault; and if the evaluator runs out of fuel the machine has taken at least as
many steps and is still running.
*/
module Simulation {
  import opened Wrappers
  import opened SemanticIR
  import opened Typing
  import opened Evaluator
  import opened Soundness
  import opened Machine
  import opened Codegen
  import opened Growth
  import opened ControlGrowth
  import opened Lockstep
  import opened Straight
  import opened Access
  import opened Relation
  import opened ExprCases
  import opened StmtRelation
  import opened StmtCases
  import opened ForCases
  import opened DeclareCases
  import opened ControlCases

  /** The machine stands where the generator stood, in a matching state. */
  ghost predicate Point(m: Module, c: Config, k: nat, vs: Scopes, g: Gen, s: State, st: Store) {
    Compiled(m) && Live(m.env, vs, g, st, s) && Reached(m, c, k, g, s)
  }

  ghost predicate LiveIf<A>(w: Env, vs: Scopes, g: Gen, r: R<A>, s: State) {
    r.Ok? ==> Live(w, vs, g, r.st, s)
  }

  // ----- expressions -----

  lemma {:induction false} ExprSim(m: Module, c: Config, k: nat, fuel: nat, vs: Scopes, g: Gen, s: State, st: Store, e: Expression)
    returns (k': nat, s': State)
    requires Point(m, c, k, vs, g, s, st) && ExprOk(m.env, vs, e) && Coded(m, s.top.fn, GenExpr(m.env, g, e).g)
    ensures NodeDone(m, c, k, fuel, g, s, st, e, k', s')
    ensures LiveIf(m.env, vs, GenExpr(m.env, g, e).g, EvalExpr(m.env, fuel, st, e), s')
    ensures Typed(m.env, vs, EvalExpr(m.env, fuel, st, e), e.ty, e.composite)
    decreases fuel, 0, e, 3
  {
    hide ExprOk, Live, Run, At, Sane, GenExpr, EvalExpr, GenPlace, EvalPlace, NodeDone, LiveIf, Typed, Locates, PlaceTyped, Coded, GenExprs, EvalExprs, Compiled;
    match e.kind {
      case IntegerE | BooleanE | FloatE | StringE =>
        LiveInStep(m.env, vs, g, st, s);
        k', s' := k, s;
        ExprCases.LiteralCase(m, c, k, fuel, g, s, st, e);
      case VariableE | IndexE =>
        CodedLoad(m, s.top.fn, g, e);
        var k1, s1 := PlaceSim(m, c, k, fuel, vs, g, s, st, e);
        k', s' := ExprCases.LoadCase(m, c, k, fuel, vs, g, s, st, e, k1, s1);
      case _ => k', s' := NodeSim(m, c, k, fuel, vs, g, s, st, e);
    }
    Settles(m, c, k, fuel, vs, g, s, st, e, k', s');
  }

  lemma LiveInStep(w: Env, vs: Scopes, g: Gen, st: Store, s: State)
    requires Live(w, vs, g, st, s)
    ensures InStep(s, st)
  {
  }

  lemma CodedLoad(m: Module, fn: string, g: Gen, e: Expression)
    requires Assignable(e) && Coded(m, fn, GenExpr(m.env, g, e).g)
    ensures Coded(m, fn, GenPlace(m.env, g, e).g)
  {
    var p := GenPlace(m.env, g, e);
    assert GenExpr(m.env, g, e) == Def(p.g, Load(p.g.regs, p.o));
    hide Coded, GenPlace, GenExpr, Def;
    CodedDef(m, fn, p.g, Load(p.g.regs, p.o));
  }

  /** After an expression the states still match. */
  lemma Settles(m: Module, c: Config, k: nat, fuel: nat, vs: Scopes, g: Gen, s: State, st: Store, e: Expression, k': nat, s': State)
    requires Compiled(m) && Live(m.env, vs, g, st, s) && ExprOk(m.env, vs, e) && NodeDone(m, c, k, fuel, g, s, st, e, k', s')
    ensures LiveIf(m.env, vs, GenExpr(m.env, g, e).g, EvalExpr(m.env, fuel, st, e), s')
    ensures Typed(m.env, vs, EvalExpr(m.env, fuel, st, e), e.ty, e.composite)
  {
    hide Run, At, Sane, GenExpr, EvalExpr, ExprOk, Fine, Sealed, Tracks, StoreOk, Stored, Moved, Ext;
    ExprSound(m.env, fuel, vs, st, e);
    ExprTotal(m.env, vs, g, e);
    ExprGrows(m.env, g, e);
    var r := EvalExpr(m.env, fuel, st, e);
    if r.Ok? {
      LiveAfter(m.env, vs, g, s, st, GenExpr(m.env, g, e).g, s', r.st);
    }
  }

  predicate Compound(e: Expression) {
    e.kind !in {IntegerE, BooleanE, FloatE, StringE, VariableE, IndexE}
  }

  lemma PointIs(m: Module, c: Config, k: nat, vs: Scopes, g: Gen, s: State, st: Store)
    requires Point(m, c, k, vs, g, s, st)
    ensures Sane(m.env) && Tracks(vs, g) && StoreOk(m.env, vs, st) && InStep(s, st)
  {
    hide Sane, Tracks, StoreOk, InStep, Run, At, Stored;
  }

  lemma {:induction false} NodeSim(m: Module, c: Config, k: nat, fuel: nat, vs: Scopes, g: Gen, s: State, st: Store, e: Expression)
    returns (k': nat, s': State)
    requires Point(m, c, k, vs, g, s, st) && ExprOk(m.env, vs, e) && Coded(m, s.top.fn, GenExpr(m.env, g, e).g) && Compound(e)
    ensures NodeDone(m, c, k, fuel, g, s, st, e, k', s')
    decreases fuel, 0, e, 2
  {
    hide ExprOk, Live, Run, At, Sane, GenExpr, EvalExpr, NodeDone, LiveIf, TypedAll, Coded, GenExprs, EvalExprs, EvaluatesAll, Compiled, ExprsOk, Tracks, StoreOk, InStep;
    PointIs(m, c, k, vs, g, s, st);
    OperandsCoded(m, s.top.fn, vs, g, e);
    var k1, s1 := ExprsSim(m, c, k, fuel, vs, g, s, st, e.operands);
    assert OperandsDone(m, c, k, fuel, vs, g, s, st, e, k1, s1);
    hide OperandsDone;
    match e.kind {
      case UnaryE => k', s' := ExprCases.UnaryCase(m, c, k, fuel, vs, g, s, st, e, k1, s1);
      case BinaryE => k', s' := ExprCases.BinaryCase(m, c, k, fuel, vs, g, s, st, e, k1, s1);
      case CallE => k', s' := CallCaseSim(m, c, k, fuel, vs, g, s, st, e, k1, s1);
      case ConstructE => k', s' := ExprCases.ConstructCase(m, c, k, fuel, vs, g, s, st, e, k1, s1);
      case ProjectE => k', s' := ExprCases.ProjectCase(m, c, k, fuel, vs, g, s, st, e, k1, s1);
      case SliceE => k', s' := ExprCases.SliceCase(m, c, k, fuel, vs, g, s, st, e, k1, s1);
      case SliceIndexE => k', s' := ExprCases.SliceIndexCase(m, c, k, fuel, vs, g, s, st, e, k1, s1);
      case _ =>
    }
  }

  /** The operands' code comes before the node's own. */
  lemma OperandsCoded(m: Module, fn: string, vs: Scopes, g: Gen, e: Expression)
    requires ExprOk(m.env, vs, e) && Compound(e) && Tracks(vs, g) && Coded(m, fn, GenExpr(m.env, g, e).g)
    ensures ExprsOk(m.env, vs, e.operands) && Coded(m, fn, GenExprs(m.env, g, e.operands).g)
  {
    ExprsTotal(m.env, vs, g, e.operands);
    OperandsGrow(m.env, vs, g, e);
    hide ExprOk, GenExpr, GenExprs, Fine, Sealed;
    CodedBack(m, fn, GenExprs(m.env, g, e.operands).g, GenExpr(m.env, g, e).g);
  }

  lemma OperandsGrow(w: Env, vs: Scopes, g: Gen, e: Expression)
    requires ExprOk(w, vs, e) && Compound(e) && Tracks(vs, GenExprs(w, g, e.operands).g)
    ensures Grows(GenExprs(w, g, e.operands).g, GenExpr(w, g, e).g)
  {
    hide GenExpr, GenExprs, EvalExpr, EvalExprs, ExprOk, Grows, GenUnary, GenBinary, GenSlice, GenSliceIndex, Def, Find, Lookup, FieldsOk, BinaryOk;
    var a, st := GenExprs(w, g, e.operands), Store(map[], [], []);
    match e.kind
    case UnaryE =>
      UnaryShape(w, 0, vs, g, st, e);
      UnaryGrows(a.g, e.ty, a.os[0]);
    case BinaryE =>
      BinaryShape(w, 0, vs, g, st, e);
      BinaryGrows(a.g, e.operands[0].ty, e.opcode, a.os[0], a.os[1]);
    case CallE =>
      CallShape(w, 0, vs, g, st, e);
      DefGrows(a.g, CallTo(a.g.regs, e.name, a.os));
    case ConstructE =>
      ConstructShape(w, 0, vs, g, st, e);
      DefGrows(a.g, MakeValue(a.g.regs, e.composite, a.os));
    case ProjectE =>
      ProjectShape(w, 0, vs, g, st, e);
      DefGrows(a.g, ProjectValue(a.g.regs, e.operands[0].composite, e.integer, a.os[0]));
    case SliceE =>
      SliceShape(w, 0, vs, g, st, e);
      SliceGrows(a.g, Found(Imm(P(GlobalAddr(e.name))), w.globals[e.name]), e.composite, a.os[0], a.os[1]);
    case SliceIndexE =>
      SliceIndexNode(w, vs, e);
      FindOk(w, vs, a.g, e.name);
      SliceIndexShape(w, 0, g, st, e);
      SliceIndexGrows(a.g, Find(w, a.g, e.name), a.os[0]);
  }

  lemma NoOperands(m: Module, c: Config, k: nat, fuel: nat, g: Gen, s: State, st: Store)
    requires Reached(m, c, k, g, s) && InStep(s, st)
    ensures EvaluatesAll(m, c, k, fuel, g, s, st, GenExprs(m.env, g, []), EvalExprs(m.env, fuel, st, []), k, s)
  {
    hide Run, At, InStep, Moved;
    Nowhere(g, s, st);
  }

  lemma {:induction false} ExprsSim(m: Module, c: Config, k: nat, fuel: nat, vs: Scopes, g: Gen, s: State, st: Store, es: seq<Expression>)
    returns (k': nat, s': State)
    requires Point(m, c, k, vs, g, s, st) && ExprsOk(m.env, vs, es) && Coded(m, s.top.fn, GenExprs(m.env, g, es).g)
    ensures EvaluatesAll(m, c, k, fuel, g, s, st, GenExprs(m.env, g, es), EvalExprs(m.env, fuel, st, es), k', s')
    ensures TypedAll(m.env, vs, EvalExprs(m.env, fuel, st, es), es)
    decreases fuel, 0, es, 0
  {
    hide ExprOk, Live, Run, At, Sane, GenExpr, EvalExpr, Typed, TypedAll, Coded, Compiled, StoreOk, GenExprs, EvalExprs, EvaluatesAll, InStep;
    PointIs(m, c, k, vs, g, s, st);
    ExprsSound(m.env, fuel, vs, st, es);
    if es == [] {
      NoOperands(m, c, k, fuel, g, s, st);
      k', s' := k, s;
    } else {
      CodedHead(m, s.top.fn, g, es);
      var x, r := GenExpr(m.env, g, es[0]), EvalExpr(m.env, fuel, st, es[0]);
      var k1, s1 := ExprSim(m, c, k, fuel, vs, g, s, st, es[0]);
      if r.Ok? {
        ArrivesReady(m, c, g, s, st, x.g, r.st, k1, s1, Out(GenExprs(m.env, x.g, es[1..]).g, x.o));
        DestKept(g, s, s1);
        var k2, s2 := ExprsSim(m, c, k1, fuel, vs, x.g, s1, r.st, es[1..]);
        k', s' := k2, s2;
        ExprsCons(m, c, k, fuel, g, s, st, es, k1, s1, k2, s2);
      } else {
        k', s' := k1, s1;
        ExprsFail(m, c, k, fuel, g, s, st, es, k1, s1);
      }
    }
  }

  lemma CodedHead(m: Module, fn: string, g: Gen, es: seq<Expression>)
    requires es != [] && Coded(m, fn, GenExprs(m.env, g, es).g)
    ensures var x := GenExpr(m.env, g, es[0]); Coded(m, fn, x.g) && Coded(m, fn, GenExprs(m.env, x.g, es[1..]).g)
  {
    hide GenExpr, Coded, Fine, Sealed, Ext;
    var x := GenExpr(m.env, g, es[0]);
    ExprsGrow(m.env, x.g, es[1..]);
    CodedBack(m, fn, x.g, GenExprs(m.env, x.g, es[1..]).g);
  }

  lemma ExprsFail(m: Module, c: Config, k: nat, fuel: nat, g: Gen, s: State, st: Store, es: seq<Expression>, k1: nat, s1: State)
    requires es != [] && !EvalExpr(m.env, fuel, st, es[0]).Ok? && NodeDone(m, c, k, fuel, g, s, st, es[0], k1, s1)
    ensures EvaluatesAll(m, c, k, fuel, g, s, st, GenExprs(m.env, g, es), EvalExprs(m.env, fuel, st, es), k1, s1)
  {
    hide GenExpr, EvalExpr, Run, Arrives;
  }

  lemma ExprsCons(m: Module, c: Config, k: nat, fuel: nat, g: Gen, s: State, st: Store, es: seq<Expression>, k1: nat, s1: State, k2: nat, s2: State)
    requires es != [] && EvalExpr(m.env, fuel, st, es[0]).Ok? && NodeDone(m, c, k, fuel, g, s, st, es[0], k1, s1)
    requires var x, r := GenExpr(m.env, g, es[0]), EvalExpr(m.env, fuel, st, es[0]);
             EvaluatesAll(m, c, k1, fuel, x.g, s1, r.st, GenExprs(m.env, x.g, es[1..]), EvalExprs(m.env, fuel, r.st, es[1..]), k2, s2)
    ensures EvaluatesAll(m, c, k, fuel, g, s, st, GenExprs(m.env, g, es), EvalExprs(m.env, fuel, st, es), k2, s2)
  {
    hide GenExpr, EvalExpr, Run, Moved, Grows, Holds;
    var x, r := GenExpr(m.env, g, es[0]), EvalExpr(m.env, fuel, st, es[0]);
    var xs, q := GenExprs(m.env, x.g, es[1..]), EvalExprs(m.env, fuel, r.st, es[1..]);
    ExprGrows(m.env, g, es[0]);
    ExprBelow(m.env, g, es[0]);
    if q.Ok? {
      MovedTrans(g, s, st, x.g, s1, r.st, xs.g, s2, q.st);
      MovedKeeps(x.g, s1, r.st, xs.g, s2, q.st);
      KeptOperand(x.g, s1, s2, x.o, r.v);
    }
  }

  lemma MovedKeeps(g: Gen, s: State, st: Store, h: Gen, s': State, st': Store)
    requires Moved(g, s, st, h, s', st')
    ensures Keeps(g, s.top, s'.top)
  {
  }

  lemma {:induction false} PlaceSim(m: Module, c: Config, k: nat, fuel: nat, vs: Scopes, g: Gen, s: State, st: Store, e: Expression)
    returns (k': nat, s': State)
    requires Point(m, c, k, vs, g, s, st) && ExprOk(m.env, vs, e) && Assignable(e) && Coded(m, s.top.fn, GenPlace(m.env, g, e).g)
    ensures Locates(m, c, k, fuel, g, s, st, GenPlace(m.env, g, e), EvalPlace(m.env, fuel, st, e), k', s')
    ensures PlaceTyped(m.env, vs, EvalPlace(m.env, fuel, st, e), e)
    ensures LiveIf(m.env, vs, GenPlace(m.env, g, e).g, EvalPlace(m.env, fuel, st, e), s')
    decreases fuel, 0, e, 1
  {
    hide ExprOk, Live, Run, At, Sane, GenPlace, EvalPlace, Locates, PlaceTyped, Coded, GenExprs, EvalExprs, Compiled, StoreOk, Tracks, Grows, EvaluatesAll, TypedAll, LiveIf, InStep;
    PointIs(m, c, k, vs, g, s, st);
    PlaceSound(m.env, fuel, vs, st, e);
    PlaceTotal(m.env, vs, g, e);
    PlaceGrows(m.env, g, e);
    if e.kind == VariableE {
      k', s' := k, s;
      VariablePlace(m, c, k, fuel, vs, g, s, st, e);
    } else {
      IndexCoded(m, s.top.fn, vs, g, e);
      var k1, s1 := ExprsSim(m, c, k, fuel, vs, g, s, st, e.operands);
      k', s' := IndexPlace(m, c, k, fuel, vs, g, s, st, e, k1, s1);
    }
    PlaceSettles(m, c, k, fuel, vs, g, s, st, e, k', s');
  }

  lemma PlaceSettles(m: Module, c: Config, k: nat, fuel: nat, vs: Scopes, g: Gen, s: State, st: Store, e: Expression, k': nat, s': State)
    requires Live(m.env, vs, g, st, s) && Locates(m, c, k, fuel, g, s, st, GenPlace(m.env, g, e), EvalPlace(m.env, fuel, st, e), k', s')
    requires PlaceTyped(m.env, vs, EvalPlace(m.env, fuel, st, e), e) && Tracks(vs, GenPlace(m.env, g, e).g) && Grows(g, GenPlace(m.env, g, e).g)
    ensures LiveIf(m.env, vs, GenPlace(m.env, g, e).g, EvalPlace(m.env, fuel, st, e), s')
  {
    hide Run, At, GenPlace, EvalPlace, Fine, Sealed, Tracks, StoreOk, Stored, Moved, Ext;
    var r := EvalPlace(m.env, fuel, st, e);
    if r.Ok? {
      LiveAfter(m.env, vs, g, s, st, GenPlace(m.env, g, e).g, s', r.st);
    }
  }

  lemma IndexCoded(m: Module, fn: string, vs: Scopes, g: Gen, e: Expression)
    requires e.kind == IndexE && ExprOk(m.env, vs, e) && Tracks(vs, g) && Coded(m, fn, GenPlace(m.env, g, e).g)
    ensures ExprsOk(m.env, vs, e.operands) && Coded(m, fn, GenExprs(m.env, g, e.operands).g)
  {
    ExprsTotal(m.env, vs, g, e.operands);
    FindOk(m.env, vs, GenExprs(m.env, g, e.operands).g, e.name);
    IndexShape(m.env, 0, vs, g, Store(map[], [], []), e);
    var a := GenExprs(m.env, g, e.operands);
    var v := Find(m.env, a.g, e.name);
    hide ExprOk, GenPlace, GenExprs, Fine, Sealed, Find, GenElement;
    ElementGrows(a.g, v.o, v.decl.extent, a.os[0]);
    CodedBack(m, fn, a.g, GenPlace(m.env, g, e).g);
  }

  // ----- calls -----

  /** What a body's flow amounts to at the end of its function. */
  function Ended(r: R<Flow>, ending: Ending): R<Value> {
    match r
    case Ok(Returns(v), st) => Ok(v, st)
    case Ok(Next, st) =>
      (match ending
       case Exit => Ok(I(0), st)
       case ReturnVoid => Ok(Unit, st)
       case NoReturn => Evaluator.Fails(MissingReturn, st))
    case Ok(_, _) => Wrong
    case _ => r.PropagateFailure()
  }

  ghost predicate Answers(m: Module, c: Config, k: nat, fuel: nat, s: State, r: R<Value>, k': nat) {
    Stops(m, c, k, fuel, r, k') && (r.Ok? ==> Run(m, c, k') == Returned(s, r.v, r.st.globals, r.st.out))
  }

  lemma CallShape(w: Env, fuel: nat, vs: Scopes, g: Gen, st: Store, e: Expression)
    requires ExprOk(w, vs, e) && e.kind == CallE
    ensures e.name in w.functions && ArgumentsOk(w.functions[e.name].parameters, e.operands)
    ensures var a, r := GenExprs(w, g, e.operands), EvalExprs(w, fuel, st, e.operands);
            && GenExpr(w, g, e) == Def(a.g, CallTo(a.g.regs, e.name, a.os))
            && EvalExpr(w, fuel, st, e) ==
               if !r.Ok? then r.PropagateFailure()
               else if fuel == 0 then Timeout
               else Call(w, fuel - 1, r.st, w.functions[e.name], r.v)
  {
    hide GenExprs, EvalExprs, Def, Call;
  }

  lemma {:induction false} CallCaseSim(m: Module, c: Config, k: nat, fuel: nat, vs: Scopes, g: Gen, s: State, st: Store, e: Expression, k1: nat, s1: State)
    returns (k': nat, s': State)
    requires e.kind == CallE && OperandsDone(m, c, k, fuel, vs, g, s, st, e, k1, s1) && Compiled(m) && Live(m.env, vs, g, st, s)
    ensures NodeDone(m, c, k, fuel, g, s, st, e, k', s')
    decreases fuel, 0, e, 1
  {
    hide GenExpr, EvalExpr, GenExprs, EvalExprs, ExprOk, Coded, Arrives, Grows, Run, ScopeOk, HasType, Sane, Def, ArgumentsOk, Call, Live, Compiled, HoldAll, OperandsDone;
    OperandsKnown(m, c, k, fuel, vs, g, s, st, e, k1, s1);
    CallShape(m.env, fuel, vs, g, st, e);
    ExprsGrow(m.env, g, e.operands);
    var a, r := GenExprs(m.env, g, e.operands), EvalExprs(m.env, fuel, st, e.operands);
    if !r.Ok? {
      k', s' := k1, s1;
      Propagates(m, c, k, fuel, r, EvalExpr(m.env, fuel, st, e), k1);
    } else if fuel == 0 {
      k', s' := k1, s1;
      ArrivedRunning(m, c, g, s, st, a.g, r.st, k1, s1);
    } else {
      ArgumentTypes(m.env, m.env.functions[e.name].parameters, e.operands, r.v);
      k', s' := CallRun(m, c, k, fuel - 1, g, s, st, a, r.st, e.name, m.env.functions[e.name], r.v, k1, s1);
    }
  }

  /** What the operands' run leaves for the call. */
  ghost predicate OperandsFacts(m: Module, c: Config, k: nat, fuel: nat, vs: Scopes, g: Gen, s: State, st: Store, e: Expression, k1: nat, s1: State) {
    var a, r := GenExprs(m.env, g, e.operands), EvalExprs(m.env, fuel, st, e.operands);
    && Stops(m, c, k, fuel, r, k1) && Coded(m, s.top.fn, GenExpr(m.env, g, e).g)
    && (r.Ok? ==> && Arrives(m, c, g, s, st, a.g, r.st, k1, s1) && HoldAll(s1, a.os, r.v) && ScopeOk(m.env, m.env.globals, r.st.globals)
                  && forall i | 0 <= i < |r.v| :: HasType(m.env, r.v[i], e.operands[i].ty, e.operands[i].composite))
  }

  lemma OperandsKnown(m: Module, c: Config, k: nat, fuel: nat, vs: Scopes, g: Gen, s: State, st: Store, e: Expression, k1: nat, s1: State)
    requires OperandsDone(m, c, k, fuel, vs, g, s, st, e, k1, s1)
    ensures OperandsFacts(m, c, k, fuel, vs, g, s, st, e, k1, s1) && ExprOk(m.env, vs, e)
  {
    hide GenExpr, EvalExpr, GenExprs, EvalExprs, ExprOk, Coded, Arrives, Run, ScopeOk, HasType, HoldAll;
  }

  lemma ArrivedRunning(m: Module, c: Config, g: Gen, s: State, st: Store, h: Gen, st1: Store, k1: nat, s1: State)
    requires Arrives(m, c, g, s, st, h, st1, k1, s1)
    ensures Run(m, c, k1).Running?
  {
  }

  lemma {:induction false} CallRun(m: Module, c: Config, k: nat, fuel: nat, g: Gen, s: State, st: Store, a: Outs, st1: Store, name: string, f: Function, args: seq<Value>, k1: nat, s1: State)
    returns (k': nat, s': State)
    requires Compiled(m) && k <= k1 && name in m.env.functions && f == m.env.functions[name] && Grows(g, a.g)
    requires ScopeOk(m.env, m.env.globals, st1.globals)
    requires |args| == |f.parameters| && forall i | 0 <= i < |args| :: HasType(m.env, args[i], f.parameters[i].ty, f.parameters[i].composite)
    requires Arrives(m, c, g, s, st, a.g, st1, k1, s1) && HoldAll(s1, a.os, args)
    requires Coded(m, s.top.fn, Def(a.g, CallTo(a.g.regs, name, a.os)).g)
    ensures Evaluates(m, c, k, fuel + 1, g, s, st, Def(a.g, CallTo(a.g.regs, name, a.os)), Call(m.env, fuel, st1, f, args), k', s')
    decreases fuel, 3
  {
    hide ScopeOk, Coded, Arrives, HoldAll, Run, Compiled, Grows, Sane, FunctionOk, ParametersOk, CheckStmt, Placed, Exec, Evaluates, HasType, Answers, Def, Call, Entry, Ended, GenFunction;
    CompiledFunction(m, name);
    var t := CallStep(m, c, g, s, st, a, st1, name, args, k1, s1);
    k' := FunctionSim(m, c, k1 + 1, fuel, name, Return(f.result, f.resultComposite), f.parameters, f.body, EndingOf(f), t, args);
    s' := CallBack(m, c, k, fuel, g, s, st, a, st1, name, f, args, k1, s1, t, k');
  }

  lemma CompiledFunction(m: Module, n: string)
    requires Compiled(m) && n in m.env.functions
    ensures var f := m.env.functions[n];
            && n in m.code && m.code[n] == FunctionCode(m.env, f) && Sane(m.env) && Placed(f.body, true) && ParametersOk(m.env, f.parameters)
            && CheckStmt(m.env, Return(f.result, f.resultComposite), [ParameterScope(f.parameters)], 0, f.body).Just?
  {
    hide CheckStmt, Placed, FunctionCode, ParametersOk, TablesOk;
    FunctionFacts(m.env, n);
  }

  lemma ArgumentTypes(w: Env, ps: seq<Variable>, es: seq<Expression>, args: seq<Value>)
    requires ArgumentsOk(ps, es) && |args| == |es| && forall i | 0 <= i < |args| :: HasType(w, args[i], es[i].ty, es[i].composite)
    ensures |args| == |ps| && forall i | 0 <= i < |args| :: HasType(w, args[i], ps[i].ty, ps[i].composite)
  {
    hide HasType;
  }

  /** The call instruction: a new frame above the caller's. */
  lemma CallStep(m: Module, c: Config, g: Gen, s: State, st: Store, a: Outs, st1: Store, name: string, args: seq<Value>, k1: nat, s1: State) returns (t: State)
    requires Arrives(m, c, g, s, st, a.g, st1, k1, s1) && HoldAll(s1, a.os, args) && name in m.code
    requires Coded(m, s.top.fn, Def(a.g, CallTo(a.g.regs, name, a.os)).g)
    ensures t == State(Entry(name, args, a.g.regs), [s1.top.(at := s1.top.at + 1)] + s1.rest, st1.globals, st1.out)
    ensures Run(m, c, k1 + 1) == Running(t) && t.top.dest == a.g.regs
  {
    hide Coded, Run;
    var i := CallTo(a.g.regs, name, a.os);
    HeldAll(s1.top, s1, a.os, args);
    DestKept(g, s, s1);
    CodedDef(m, s.top.fn, a.g, i);
    Then(m, c, k1, a.g, i, s1);
    t := State(Entry(name, args, a.g.regs), [s1.top.(at := s1.top.at + 1)] + s1.rest, st1.globals, st1.out);
  }

  lemma CallResult(w: Env, fuel: nat, st: Store, f: Function, args: seq<Value>)
    requires |args| == |f.parameters|
    ensures var r := Ended(Exec(w, fuel, st.(scopes := [Arguments(f.parameters, args)]), f.body), EndingOf(f));
            Call(w, fuel, st, f, args) == if r.Ok? then Ok(r.v, r.st.(scopes := st.scopes)) else r
  {
    hide Exec, Arguments;
  }

  /** Back in the caller, with the result in the call's register. */
  lemma CallBack(m: Module, c: Config, k: nat, fuel: nat, g: Gen, s: State, st: Store, a: Outs, st1: Store, name: string, f: Function, args: seq<Value>, k1: nat, s1: State, t: State, k': nat)
    returns (s': State)
    requires k <= k1 && Grows(g, a.g) && |args| == |f.parameters| && Arrives(m, c, g, s, st, a.g, st1, k1, s1)
    requires t == State(t.top, [s1.top.(at := s1.top.at + 1)] + s1.rest, st1.globals, st1.out) && t.top.dest == a.g.regs
    requires Answers(m, c, k1 + 1, fuel, t, Ended(Exec(m.env, fuel, Store(t.globals, [Arguments(f.parameters, args)], t.out), f.body), EndingOf(f)), k')
    ensures Evaluates(m, c, k, fuel + 1, g, s, st, Def(a.g, CallTo(a.g.regs, name, a.os)), Call(m.env, fuel, st1, f, args), k', s')
  {
    hide Run, Moved, Grows, Exec, Arguments, Call, Ended, EndingOf;
    CallResult(m.env, fuel, st1, f, args);
    assert st1.(scopes := [Arguments(f.parameters, args)]) == Store(t.globals, [Arguments(f.parameters, args)], t.out);
    var r := Ended(Exec(m.env, fuel, Store(t.globals, [Arguments(f.parameters, args)], t.out), f.body), EndingOf(f));
    s' := s1;
    if r.Ok? {
      s' := CallerResumes(m, c, k', g, s, st, a, st1, name, k1, s1, t, r.v, r.st);
    }
  }

  lemma CallerResumes(m: Module, c: Config, k': nat, g: Gen, s: State, st: Store, a: Outs, st1: Store, name: string, k1: nat, s1: State, t: State, v: Value, st2: Store)
    returns (s': State)
    requires Grows(g, a.g) && Moved(g, s, st, a.g, s1, st1) && t.top.dest == a.g.regs && t.rest == [s1.top.(at := s1.top.at + 1)] + s1.rest
    requires Run(m, c, k') == Returned(t, v, st2.globals, st2.out)
    ensures var x := Def(a.g, CallTo(a.g.regs, name, a.os));
            Arrives(m, c, g, s, st, x.g, st2.(scopes := st1.scopes), k', s') && Holds(s', x.o, v)
  {
    hide Run, Fine, Sealed;
    var caller := s1.top.(at := s1.top.at + 1);
    s' := State(caller.(regs := caller.regs[a.g.regs := v]), s1.rest, st2.globals, st2.out);
    assert t.rest[0] == caller && t.rest[1..] == s1.rest;
    KeepsTrans(g, a.g, s.top, s1.top, s'.top);
  }

  // ----- functions -----

  /** A whole activation: prologue, body, and what stands behind the body's end. */
  lemma {:induction false} FunctionSim(m: Module, c: Config, k: nat, fuel: nat, fn: string, ret: Return, ps: seq<Variable>, body: Statement, ending: Ending, s: State, args: seq<Value>)
    returns (k': nat)
    requires Compiled(m) && Run(m, c, k) == Running(s) && s.top == Entry(fn, args, s.top.dest) && |args| == |ps|
    requires fn in m.code && m.code[fn] == GenFunction(m.env, ps, body, ending).code && ScopeOk(m.env, m.env.globals, s.globals)
    requires ParametersOk(m.env, ps) && CheckStmt(m.env, ret, [ParameterScope(ps)], 0, body).Just? && Placed(body, true)
    requires forall i | 0 <= i < |args| :: HasType(m.env, args[i], ps[i].ty, ps[i].composite)
    ensures Answers(m, c, k, fuel, s, Ended(Exec(m.env, fuel, Store(s.globals, [Arguments(ps, args)], s.out), body), ending), k')
    decreases fuel, 2
  {
    hide CheckStmt, Placed, Exec, Coded, GenStmt, GenParameters, Run, HasType, ParametersOk, ParameterScope, ScopeOk, Compiled, GenFunction, Fine, Point, EntryState, Keeps, Stops, Executes;
    var e, st := EntryState(|ps|), Store(s.globals, [Arguments(ps, args)], s.out);
    var a := GenParameters(m.env, e, ps, 0);
    var h := GenStmt(m.env, a, body);
    FunctionCoded(m, fn, ps, body, ending);
    var k1, s1 := Prologue(m, c, k, ps, s, fn, args);
    DestKept(e, s, s1);
    ArgumentsTyped(m.env, ps, args);
    FirstPoint(m, c, k1, ps, args, s, s1, fn);
    var k2, s2 := StmtSim(m, c, k1, fuel, ret, [ParameterScope(ps)], 0, a, s1, st, body, true);
    k' := FunctionEnd(m, c, k, fuel, s, e, k1, s1, a, h, ending, Exec(m.env, fuel, st, body), k2, s2, fn, st);
  }

  lemma FunctionCoded(m: Module, fn: string, ps: seq<Variable>, body: Statement, ending: Ending)
    requires fn in m.code && m.code[fn] == GenFunction(m.env, ps, body, ending).code
    ensures var a := GenParameters(m.env, EntryState(|ps|), ps, 0);
            var h := GenStmt(m.env, a, body);
            && Fine(a) && Coded(m, fn, a) && Coded(m, fn, h) && Coded(m, fn, Finish(h, ending)) && a.breaks == [] && a.continues == []
            && m.code[fn] == Finish(h, ending).code
  {
    var e := EntryState(|ps|);
    var a := GenParameters(m.env, e, ps, 0);
    var h := GenStmt(m.env, a, body);
    assert Fine(e);
    ParametersExtend(m.env, e, ps, 0);
    StmtExtends(m.env, a, body);
    hide Fine, Sealed, GenStmt, GenParameters;
    FinishCoded(m, fn, h, ending);
    CodedBack(m, fn, a, h);
  }

  lemma FinishCoded(m: Module, fn: string, h: Gen, ending: Ending)
    requires fn in m.code && m.code[fn] == Finish(h, ending).code
    ensures Coded(m, fn, h) && Coded(m, fn, Finish(h, ending))
  {
  }

  lemma Prologue(m: Module, c: Config, k: nat, ps: seq<Variable>, s: State, fn: string, args: seq<Value>) returns (k1: nat, s1: State)
    requires Run(m, c, k) == Running(s) && s.top == Entry(fn, args, s.top.dest) && |args| == |ps|
    requires Coded(m, fn, GenParameters(m.env, EntryState(|ps|), ps, 0))
    ensures k1 >= k
    ensures Landed(m, c, EntryState(|ps|), s, GenParameters(m.env, EntryState(|ps|), ps, 0), Store(s.globals, [Arguments(ps, args)], s.out), k1, s1)
  {
    hide Run, Coded, GenParameters, Keeps;
    var e, st := EntryState(|ps|), Store(s.globals, [map[]], s.out);
    assert ps[..0] == [] && args[..0] == [];
    assert Stored(e.scopes, st.scopes, s.top);
    k1, s1 := ParametersRun(m, c, k, e, s, st, ps, args, 0);
  }

  lemma FirstPoint(m: Module, c: Config, k: nat, ps: seq<Variable>, args: seq<Value>, s: State, s1: State, fn: string)
    requires Compiled(m) && ScopeOk(m.env, m.env.globals, s.globals) && |args| == |ps| && ScopeOk(m.env, ParameterScope(ps), Arguments(ps, args))
    requires Landed(m, c, EntryState(|ps|), s, GenParameters(m.env, EntryState(|ps|), ps, 0), Store(s.globals, [Arguments(ps, args)], s.out), k, s1)
    ensures Point(m, c, k, [ParameterScope(ps)], GenParameters(m.env, EntryState(|ps|), ps, 0), s1, Store(s.globals, [Arguments(ps, args)], s.out))
  {
    hide ScopeOk, GenParameters, Run, Compiled, Stored, Tracks, EntryState, Arguments, ParameterScope, Keeps;
    ParameterTracks(m.env, ps);
  }

  lemma ParameterTracks(w: Env, ps: seq<Variable>)
    ensures Tracks([ParameterScope(ps)], GenParameters(w, EntryState(|ps|), ps, 0))
  {
    hide GenParameters;
    var e := EntryState(|ps|);
    assert ps[..0] == [];
    assert Tracks([ParameterScope(ps[..0])], e);
    ParametersTrack(w, e, ps, 0);
  }

  lemma FunctionEnd(m: Module, c: Config, k: nat, fuel: nat, s: State, e: Gen, k1: nat, s1: State, a: Gen, h: Gen, ending: Ending, r: R<Flow>, k2: nat, s2: State, fn: string, st: Store)
    returns (k': nat)
    requires k <= k1 && s.top.fn == fn && Settled(e, s, a.scopes, s1, st) && a.breaks == [] && a.continues == []
    requires Executes(m, c, k1, fuel, a, s1, h, r, true, k2, s2) && Coded(m, fn, Finish(h, ending))
    ensures Answers(m, c, k, fuel, s, Ended(r, ending), k')
  {
    hide Run, Coded, Stored;
    k' := k2;
    DestKept(e, s, s1);
    if r.Ok? {
      if r.v.Next? {
        DestKept(a, s1, s2);
        FinishRun(m, c, k2, h, ending, s2);
        k' := k2 + 1;
      }
    }
  }

  lemma FinishRun(m: Module, c: Config, k: nat, h: Gen, ending: Ending, s: State)
    requires Reached(m, c, k, h, s) && !Terminated(h) && Coded(m, s.top.fn, Finish(h, ending))
    ensures ending == Exit ==> Run(m, c, k + 1) == Returned(s, I(0), s.globals, s.out)
    ensures ending == ReturnVoid ==> Run(m, c, k + 1) == Returned(s, Unit, s.globals, s.out)
    ensures ending == NoReturn ==> Run(m, c, k + 1) == Trapped(MissingReturn, s.globals, s.out)
  {
    hide Run, Coded;
    match ending
    case Exit => ReturnRun(m, c, k, h, s, Imm(I(0)), I(0));
    case ReturnVoid => ReturnRun(m, c, k, h, s, Imm(Unit), Unit);
    case NoReturn => Then(m, c, k, h, Fail(MissingReturn), s);
  }

  // ----- statements -----

  ghost predicate Standing(m: Module, c: Config, k: nat, vs: Scopes, loops: nat, g: Gen, s: State, st: Store) {
    Point(m, c, k, vs, g, s, st) && |vs| > 0 && Fine(g) && InLoops(loops, g)
  }

  ghost predicate Checked(m: Module, ret: Return, vs: Scopes, loops: nat, g: Gen, s: State, stmt: Statement, here: bool)
  {
    |vs| > 0 && CheckStmt(m.env, ret, vs, loops, stmt).Just? && Placed(stmt, here) && Coded(m, s.top.fn, GenStmt(m.env, g, stmt))
  }

  ghost predicate StmtDone(m: Module, c: Config, k: nat, fuel: nat, g: Gen, s: State, st: Store, stmt: Statement, here: bool, k': nat, s': State) {
    Executes(m, c, k, fuel, g, s, GenStmt(m.env, g, stmt), Exec(m.env, fuel, st, stmt), here, k', s')
  }

  lemma {:induction false} StmtSim(m: Module, c: Config, k: nat, fuel: nat, ret: Return, vs: Scopes, loops: nat, g: Gen, s: State, st: Store, stmt: Statement, here: bool)
    returns (k': nat, s': State)
    requires Standing(m, c, k, vs, loops, g, s, st) && Checked(m, ret, vs, loops, g, s, stmt, here)
    ensures StmtDone(m, c, k, fuel, g, s, st, stmt, here, k', s')
    decreases fuel, 1, stmt, 9
  {
    hide Standing, Checked, StmtDone;
    match stmt.kind {
      case BlockS => k', s' := BlockSim(m, c, k, fuel, ret, vs, loops, g, s, st, stmt, here);
      case DeclareS => k', s' := DeclareSim(m, c, k, fuel, ret, vs, loops, g, s, st, stmt, here);
      case AssignS => k', s' := AssignSim(m, c, k, fuel, ret, vs, loops, g, s, st, stmt, here);
      case UpdateS => k', s' := UpdateSim(m, c, k, fuel, ret, vs, loops, g, s, st, stmt, here);
      case ExpressionS => k', s' := ExpressionSim(m, c, k, fuel, ret, vs, loops, g, s, st, stmt, here);
      case PrintS => k', s' := PrintStmtSim(m, c, k, fuel, ret, vs, loops, g, s, st, stmt, here);
      case IfS => k', s' := IfSim(m, c, k, fuel, ret, vs, loops, g, s, st, stmt, here);
      case WhileS => k', s' := WhileSim(m, c, k, fuel, ret, vs, loops, g, s, st, stmt, here);
      case ForS => k', s' := ForSim(m, c, k, fuel, ret, vs, loops, g, s, st, stmt, here);
      case BreakS | ContinueS => k', s' := JumpSim(m, c, k, fuel, ret, vs, loops, g, s, st, stmt, here);
      case ReturnS => k', s' := ReturnSim(m, c, k, fuel, ret, vs, loops, g, s, st, stmt, here);
    }
  }

  /** What the verifier established about the statement's own expressions. */
  lemma StmtFacts(m: Module, ret: Return, vs: Scopes, loops: nat, g: Gen, s: State, stmt: Statement, here: bool)
    requires Checked(m, ret, vs, loops, g, s, stmt, here)
    ensures ExprsOk(m.env, vs, stmt.expressions) && OperandsOk(m.env, ret, loops, stmt) && Coded(m, s.top.fn, GenStmt(m.env, g, stmt))
    ensures |stmt.expressions| > 0 ==> ExprOk(m.env, vs, stmt.expressions[0])
    ensures |stmt.expressions| > 1 ==> ExprOk(m.env, vs, stmt.expressions[1])
  {
    hide ExprOk, OperandsOk, Coded, GenStmt, Placed;
  }

  lemma StopsLater<A>(m: Module, c: Config, k: nat, fuel: nat, r: R<A>, k1: nat, k': nat)
    requires Stops(m, c, k1, fuel, r, k') && k <= k1
    ensures Stops(m, c, k, fuel, r, k')
  {
  }

  lemma JumpSim(m: Module, c: Config, k: nat, fuel: nat, ret: Return, vs: Scopes, loops: nat, g: Gen, s: State, st: Store, stmt: Statement, here: bool)
    returns (k': nat, s': State)
    requires Standing(m, c, k, vs, loops, g, s, st) && Checked(m, ret, vs, loops, g, s, stmt, here) && (stmt.kind == BreakS || stmt.kind == ContinueS)
    ensures StmtDone(m, c, k, fuel, g, s, st, stmt, here, k', s')
  {
    hide CheckStmt, Placed, Coded, GenStmt, Exec, Run, Fine, Tracks, StoreOk, Stored, Executes, ExprsOk, ExprOk, Compiled, At;
    StmtFacts(m, ret, vs, loops, g, s, stmt, here);
    s' := JumpRun(m, c, k, fuel, g, s, st, stmt, here);
    k' := k + 1;
  }

  lemma DeclareSim(m: Module, c: Config, k: nat, fuel: nat, ret: Return, vs: Scopes, loops: nat, g: Gen, s: State, st: Store, stmt: Statement, here: bool)
    returns (k': nat, s': State)
    requires Standing(m, c, k, vs, loops, g, s, st) && Checked(m, ret, vs, loops, g, s, stmt, here) && stmt.kind == DeclareS
    ensures StmtDone(m, c, k, fuel, g, s, st, stmt, here, k', s')
  {
    hide CheckStmt, Placed, Coded, GenStmt, Exec, Run, Fine, StoreOk, Stored, Compiled, At, DeclareEach, DeclareZero, Separate, Landed, Keeps;
    var ds := stmt.variables;
    DeclareShape(m.env, fuel, g, st, stmt);
    s' := DeclareEachRun(m, c, k, g, s, st, ds);
    k' := k + |ds|;
    DeclareEachExtends(m.env, g, ds);
    OpenNotEnded(DeclareEach(m.env, g, ds));
  }

  lemma DeclareShape(w: Env, fuel: nat, g: Gen, st: Store, stmt: Statement)
    requires stmt.kind == DeclareS
    ensures GenStmt(w, g, stmt) == DeclareEach(w, g, stmt.variables)
    ensures |st.scopes| > 0 ==> Exec(w, fuel, st, stmt) == Ok(Next, DeclareZero(w, st, stmt.variables))
  {
  }

  // ----- assignment -----

  lemma AssignShape(w: Env, fuel: nat, g: Gen, st: Store, stmt: Statement)
    requires stmt.kind == AssignS && |stmt.expressions| == 2
    ensures var x := GenExpr(w, g, stmt.expressions[1]);
            var p := GenPlace(w, x.g, stmt.expressions[0]);
            GenStmt(w, g, stmt) == Emit(p.g, StoreTo(x.o, p.o))
    ensures var r := EvalExpr(w, fuel, st, stmt.expressions[1]);
            && (!r.Ok? ==> Exec(w, fuel, st, stmt) == r.PropagateFailure())
            && (r.Ok? ==>
                  var q := EvalPlace(w, fuel, r.st, stmt.expressions[0]);
                  && (!q.Ok? ==> Exec(w, fuel, st, stmt) == q.PropagateFailure())
                  && (q.Ok? && Evaluator.Valid(q.st, q.v) ==> Exec(w, fuel, st, stmt) == Ok(Next, Write(q.st, q.v, r.v))))
  {
    hide GenExpr, GenPlace, EvalExpr, EvalPlace, Valid, Write;
  }

  lemma StoreCoded(m: Module, fn: string, x: Out, e: Expression, o: Operand)
    requires var p := GenPlace(m.env, x.g, e); Coded(m, fn, Emit(p.g, StoreTo(o, p.o)))
    ensures Coded(m, fn, GenPlace(m.env, x.g, e).g) && Coded(m, fn, x.g)
  {
    hide Coded, GenPlace, Emit, Fine, Sealed, Ext;
    var p := GenPlace(m.env, x.g, e);
    PlaceGrows(m.env, x.g, e);
    CodedEmit(m, fn, p.g, StoreTo(o, p.o));
    CodedBack(m, fn, x.g, p.g);
  }

  lemma {:induction false} AssignSim(m: Module, c: Config, k: nat, fuel: nat, ret: Return, vs: Scopes, loops: nat, g: Gen, s: State, st: Store, stmt: Statement, here: bool)
    returns (k': nat, s': State)
    requires Standing(m, c, k, vs, loops, g, s, st) && Checked(m, ret, vs, loops, g, s, stmt, here) && stmt.kind == AssignS
    ensures StmtDone(m, c, k, fuel, g, s, st, stmt, here, k', s')
    decreases fuel, 1, stmt, 8
  {
    hide CheckStmt, Placed, Coded, GenStmt, Exec, Run, Fine, Executes, ExprsOk, ExprOk, Compiled, At, GenExpr, GenPlace, EvalExpr, EvalPlace, Live, Locates, LiveIf, Typed, PlaceTyped, Emit, Valid, Write, NodeDone;
    StmtFacts(m, ret, vs, loops, g, s, stmt, here);
    AssignShape(m.env, fuel, g, st, stmt);
    var a, b, h := stmt.expressions[0], stmt.expressions[1], GenStmt(m.env, g, stmt);
    var x, r := GenExpr(m.env, g, b), EvalExpr(m.env, fuel, st, b);
    StoreCoded(m, s.top.fn, x, a, x.o);
    var k1, s1 := ExprSim(m, c, k, fuel, vs, g, s, st, b);
    if !r.Ok? {
      k', s' := k1, s1;
      NodeStops(m, c, k, fuel, g, s, st, b, k1, s1);
      StmtFails(m, c, k, fuel, g, s, h, r, Exec(m.env, fuel, st, stmt), here, k1, s1);
    } else {
      NodePoint(m, c, k, fuel, vs, g, s, st, b, k1, s1);
      var q := EvalPlace(m.env, fuel, r.st, a);
      var k2, s2 := PlaceSim(m, c, k1, fuel, vs, x.g, s1, r.st, a);
      AssignedType(m.env, ret, vs, loops, stmt, r);
      k', s' := AssignEnd(m, c, k, fuel, vs, g, s, st, x, a, r.v, k1, s1, r.st, q, k2, s2, Exec(m.env, fuel, st, stmt), here);
    }
  }

  lemma AssignedType(w: Env, ret: Return, vs: Scopes, loops: nat, stmt: Statement, r: R<Value>)
    requires stmt.kind == AssignS && OperandsOk(w, ret, loops, stmt) && r.Ok?
    requires Typed(w, vs, r, stmt.expressions[1].ty, stmt.expressions[1].composite)
    ensures HasType(w, r.v, stmt.expressions[0].ty, stmt.expressions[0].composite)
  {
    hide StoreOk, HasType;
  }

  lemma NodeStops(m: Module, c: Config, k: nat, fuel: nat, g: Gen, s: State, st: Store, e: Expression, k1: nat, s1: State)
    requires NodeDone(m, c, k, fuel, g, s, st, e, k1, s1)
    ensures Stops(m, c, k, fuel, EvalExpr(m.env, fuel, st, e), k1)
  {
    hide GenExpr, EvalExpr, Run;
  }

  /** The point an evaluated expression leads to. */
  lemma NodePoint(m: Module, c: Config, k: nat, fuel: nat, vs: Scopes, g: Gen, s: State, st: Store, e: Expression, k1: nat, s1: State)
    requires Compiled(m) && NodeDone(m, c, k, fuel, g, s, st, e, k1, s1) && EvalExpr(m.env, fuel, st, e).Ok?
    requires LiveIf(m.env, vs, GenExpr(m.env, g, e).g, EvalExpr(m.env, fuel, st, e), s1)
    ensures var x, r := GenExpr(m.env, g, e), EvalExpr(m.env, fuel, st, e);
            && Point(m, c, k1, vs, x.g, s1, r.st) && Run(m, c, k1) == Running(s1) && Moved(g, s, st, x.g, s1, r.st) && Holds(s1, x.o, r.v) && k <= k1
            && s1.top.fn == s.top.fn && Grows(g, x.g) && Below(x.o, x.g.regs)
  {
    hide GenExpr, EvalExpr, Run, Live, Compiled, Grows;
    ExprGrows(m.env, g, e);
    ExprBelow(m.env, g, e);
  }

  lemma AssignEnd(m: Module, c: Config, k: nat, fuel: nat, vs: Scopes, g: Gen, s: State, st: Store, x: Out, a: Expression, v: Value,
                  k1: nat, s1: State, st1: Store, q: R<Place>, k2: nat, s2: State, result: R<Flow>, here: bool) returns (k': nat, s': State)
    requires Live(m.env, vs, g, st, s) && Fine(g) && Grows(g, x.g) && k <= k1 && Moved(g, s, st, x.g, s1, st1) && Holds(s1, x.o, v) && Below(x.o, x.g.regs)
    requires HasType(m.env, v, a.ty, a.composite)
    requires Locates(m, c, k1, fuel, x.g, s1, st1, GenPlace(m.env, x.g, a), q, k2, s2) && PlaceTyped(m.env, vs, q, a)
    requires !q.Ok? ==> result == q.PropagateFailure()
    requires q.Ok? && Evaluator.Valid(q.st, q.v) ==> result == Ok(Next, Write(q.st, q.v, v))
    requires var p := GenPlace(m.env, x.g, a); Coded(m, s.top.fn, Emit(p.g, StoreTo(x.o, p.o)))
    ensures var p := GenPlace(m.env, x.g, a); Executes(m, c, k, fuel, g, s, Emit(p.g, StoreTo(x.o, p.o)), result, here, k', s')
  {
    hide Coded, GenPlace, Run, Fine, Grows, Live, Moved, StoreOk, PlaceOk, Executes, Emit, Valid, Write, HoldsPlace, Holds, HasType;
    var p := GenPlace(m.env, x.g, a);
    if !q.Ok? {
      k', s' := k2, s2;
      StopsLater(m, c, k, fuel, q, k1, k2);
      StmtFails(m, c, k, fuel, g, s, Emit(p.g, StoreTo(x.o, p.o)), q, result, here, k2, s2);
    } else {
      PlaceGrows(m.env, x.g, a);
      GrowsTrans(g, x.g, p.g);
      GrowCounts(g, x.g);
      MovedTrans(g, s, st, x.g, s1, st1, p.g, s2, q.st);
      MovedKeeps(x.g, s1, st1, p.g, s2, q.st);
      KeptOperand(x.g, s1, s2, x.o, v);
      s' := StoreEnd(m, c, k, fuel, vs, g, s, st, p.g, k2, s2, q.st, x.o, p.o, q.v, v, a.ty, a.composite, here);
      k' := k2 + 1;
    }
  }

  // ----- field update -----

  /** The updated record and its place, in generation order. */
  function UpdateValueOf(w: Env, g: Gen, stmt: Statement): Out
    requires |stmt.expressions| == 2
  {
    var record := GenExpr(w, g, stmt.expressions[0]);
    var field := GenExpr(w, record.g, stmt.expressions[1]);
    Def(field.g, UpdateValue(field.g.regs, stmt.expressions[0].composite, stmt.declaration, record.o, field.o))
  }

  lemma UpdateShape(w: Env, fuel: nat, g: Gen, st: Store, stmt: Statement)
    requires stmt.kind == UpdateS && |stmt.expressions| == 2
    ensures var u := UpdateValueOf(w, g, stmt);
            var p := GenPlace(w, u.g, stmt.expressions[0]);
            GenStmt(w, g, stmt) == Emit(p.g, StoreTo(u.o, p.o))
    ensures var r := EvalExpr(w, fuel, st, stmt.expressions[0]);
            && (!r.Ok? ==> Exec(w, fuel, st, stmt) == r.PropagateFailure())
            && (r.Ok? ==>
                  var f := EvalExpr(w, fuel, r.st, stmt.expressions[1]);
                  && (!f.Ok? ==> Exec(w, fuel, st, stmt) == f.PropagateFailure())
                  && (f.Ok? && r.v.Agg? && stmt.declaration < |r.v.fields| ==>
                        var q := EvalPlace(w, fuel, f.st, stmt.expressions[0]);
                        && (!q.Ok? ==> Exec(w, fuel, st, stmt) == q.PropagateFailure())
                        && (q.Ok? && Evaluator.Valid(q.st, q.v) ==>
                              Exec(w, fuel, st, stmt) == Ok(Next, Write(q.st, q.v, Agg(r.v.fields[stmt.declaration := f.v]))))))
  {
    hide GenExpr, GenPlace, EvalExpr, EvalPlace, Valid, Write;
  }

  lemma UpdateCoded(m: Module, fn: string, g: Gen, stmt: Statement)
    requires |stmt.expressions| == 2
    requires var u := UpdateValueOf(m.env, g, stmt);
             var p := GenPlace(m.env, u.g, stmt.expressions[0]);
             Coded(m, fn, Emit(p.g, StoreTo(u.o, p.o)))
    ensures var record := GenExpr(m.env, g, stmt.expressions[0]);
            && Coded(m, fn, record.g) && Coded(m, fn, GenExpr(m.env, record.g, stmt.expressions[1]).g) && Coded(m, fn, UpdateValueOf(m.env, g, stmt).g)
            && Coded(m, fn, GenPlace(m.env, UpdateValueOf(m.env, g, stmt).g, stmt.expressions[0]).g)
  {
    hide Coded, GenPlace, Emit, Fine, Sealed, Ext, GenExpr;
    var record := GenExpr(m.env, g, stmt.expressions[0]);
    var field := GenExpr(m.env, record.g, stmt.expressions[1]);
    ExprGrows(m.env, record.g, stmt.expressions[1]);
    StoreCoded(m, fn, UpdateValueOf(m.env, g, stmt), stmt.expressions[0], UpdateValueOf(m.env, g, stmt).o);
    CodedDef(m, fn, field.g, UpdateValue(field.g.regs, stmt.expressions[0].composite, stmt.declaration, record.o, field.o));
    CodedBack(m, fn, record.g, field.g);
  }

  lemma {:induction false} UpdateSim(m: Module, c: Config, k: nat, fuel: nat, ret: Return, vs: Scopes, loops: nat, g: Gen, s: State, st: Store, stmt: Statement, here: bool)
    returns (k': nat, s': State)
    requires Standing(m, c, k, vs, loops, g, s, st) && Checked(m, ret, vs, loops, g, s, stmt, here) && stmt.kind == UpdateS
    ensures StmtDone(m, c, k, fuel, g, s, st, stmt, here, k', s')
    decreases fuel, 1, stmt, 8
  {
    hide CheckStmt, Placed, Coded, GenStmt, Exec, Run, Fine, Executes, ExprsOk, ExprOk, Compiled, At, GenExpr, GenPlace, EvalExpr, EvalPlace, Live, LiveIf, StoreOk, HasType, Emit, Valid, Write, NodeDone, UpdateValueOf, OperandsOk, InLoops, Moved, Grows, Holds;
    StmtFacts(m, ret, vs, loops, g, s, stmt, here);
    UpdateParts(m, ret, vs, loops, stmt);
    UpdateShape(m.env, fuel, g, st, stmt);
    UpdateCoded(m, s.top.fn, g, stmt);
    var a, h := stmt.expressions[0], GenStmt(m.env, g, stmt);
    var r := EvalExpr(m.env, fuel, st, a);
    var k1, s1 := ExprSim(m, c, k, fuel, vs, g, s, st, a);
    if !r.Ok? {
      k', s' := k1, s1;
      NodeStops(m, c, k, fuel, g, s, st, a, k1, s1);
      StmtFails(m, c, k, fuel, g, s, h, r, Exec(m.env, fuel, st, stmt), here, k1, s1);
    } else {
      NodePoint(m, c, k, fuel, vs, g, s, st, a, k1, s1);
      k', s' := UpdateField(m, c, k, fuel, vs, g, s, st, stmt, k1, s1, r.st, r.v, Exec(m.env, fuel, st, stmt), here);
    }
  }

  lemma UpdateParts(m: Module, ret: Return, vs: Scopes, loops: nat, stmt: Statement)
    requires stmt.kind == UpdateS && OperandsOk(m.env, ret, loops, stmt)
    ensures |stmt.expressions| == 2 && Assignable(stmt.expressions[0]) && OperandsOk(m.env, Return(Void, ""), 0, stmt) && stmt.expressions[0].ty == Composite
  {
  }

  lemma UpdateValueIs(w: Env, g: Gen, stmt: Statement)
    requires |stmt.expressions| == 2
    ensures var x := GenExpr(w, g, stmt.expressions[0]);
            var y := GenExpr(w, x.g, stmt.expressions[1]);
            UpdateValueOf(w, g, stmt) == Def(y.g, UpdateValue(y.g.regs, stmt.expressions[0].composite, stmt.declaration, x.o, y.o))
  {
    hide GenExpr, Def;
  }

  lemma {:induction false} UpdateField(m: Module, c: Config, k: nat, fuel: nat, vs: Scopes, g: Gen, s: State, st: Store, stmt: Statement,
                                       k1: nat, s1: State, st1: Store, record: Value, result: R<Flow>, here: bool) returns (k': nat, s': State)
    requires Live(m.env, vs, g, st, s) && Fine(g) && |vs| > 0 && stmt.kind == UpdateS && ExprsOk(m.env, vs, stmt.expressions) && OperandsOk(m.env, Return(Void, ""), 0, stmt)
    requires |stmt.expressions| == 2 && ExprOk(m.env, vs, stmt.expressions[0]) && ExprOk(m.env, vs, stmt.expressions[1]) && Assignable(stmt.expressions[0])
    requires var x := GenExpr(m.env, g, stmt.expressions[0]);
             && Point(m, c, k1, vs, x.g, s1, st1) && Moved(g, s, st, x.g, s1, st1) && Holds(s1, x.o, record) && k <= k1 && Grows(g, x.g) && Below(x.o, x.g.regs)
             && Coded(m, s.top.fn, GenExpr(m.env, x.g, stmt.expressions[1]).g) && s1.top.fn == s.top.fn
    requires HasType(m.env, record, Composite, stmt.expressions[0].composite)
    requires var u := UpdateValueOf(m.env, g, stmt);
             var p := GenPlace(m.env, u.g, stmt.expressions[0]);
             Coded(m, s.top.fn, u.g) && Coded(m, s.top.fn, p.g) && Coded(m, s.top.fn, Emit(p.g, StoreTo(u.o, p.o)))
    requires UpdateResult(m.env, fuel, st1, stmt, record, result)
    ensures var u := UpdateValueOf(m.env, g, stmt);
            var p := GenPlace(m.env, u.g, stmt.expressions[0]);
            Executes(m, c, k, fuel, g, s, Emit(p.g, StoreTo(u.o, p.o)), result, here, k', s')
    decreases fuel, 1, stmt, 7
  {
    hide Coded, GenPlace, Run, Fine, Grows, Live, Moved, Executes, Emit, Def, Holds, ExprsOk, ExprOk, OperandsOk, Compiled, At, GenExpr, EvalExpr, EvalPlace, LiveIf, HasType, NodeDone, Valid, Write, UpdateValueOf;
    var a, b, u := stmt.expressions[0], stmt.expressions[1], UpdateValueOf(m.env, g, stmt);
    var x := GenExpr(m.env, g, a);
    var p, y, r := GenPlace(m.env, u.g, a), GenExpr(m.env, x.g, b), EvalExpr(m.env, fuel, st1, b);
    UpdateValueIs(m.env, g, stmt);
    var k2, s2 := ExprSim(m, c, k1, fuel, vs, x.g, s1, st1, b);
    if !r.Ok? {
      k', s' := k2, s2;
      NodeStops(m, c, k1, fuel, x.g, s1, st1, b, k2, s2);
      StopsLater(m, c, k, fuel, r, k1, k2);
      StmtFails(m, c, k, fuel, g, s, Emit(p.g, StoreTo(u.o, p.o)), r, result, here, k2, s2);
    } else {
      NodePoint(m, c, k1, fuel, vs, x.g, s1, st1, b, k2, s2);
      MovedTrans(g, s, st, x.g, s1, st1, y.g, s2, r.st);
      MovedKeeps(x.g, s1, st1, y.g, s2, r.st);
      KeptOperand(x.g, s1, s2, x.o, record);
      GrowsTrans(g, x.g, y.g);
      k', s' := UpdateStore(m, c, k, fuel, vs, g, s, st, stmt, x.o, y, k2, s2, r.st, record, r.v, result, here);
    }
  }

  /** The statement's outcome once the record is known. */
  ghost predicate UpdateResult(w: Env, fuel: nat, st: Store, stmt: Statement, record: Value, result: R<Flow>)
    requires |stmt.expressions| == 2
  {
    var f := EvalExpr(w, fuel, st, stmt.expressions[1]);
    && (!f.Ok? ==> result == f.PropagateFailure())
    && (f.Ok? ==> FieldResult(w, fuel, f.st, stmt, record, f.v, result))
  }

  ghost predicate FieldResult(w: Env, fuel: nat, st: Store, stmt: Statement, record: Value, field: Value, result: R<Flow>)
    requires |stmt.expressions| == 2
  {
    record.Agg? && stmt.declaration < |record.fields| ==>
      var q := EvalPlace(w, fuel, st, stmt.expressions[0]);
      && (!q.Ok? ==> result == q.PropagateFailure())
      && (q.Ok? && Evaluator.Valid(q.st, q.v) ==> result == Ok(Next, Write(q.st, q.v, Agg(record.fields[stmt.declaration := field]))))
  }

  lemma FieldOutcome(w: Env, fuel: nat, st: Store, stmt: Statement, record: Value, field: Value, result: R<Flow>)
    requires |stmt.expressions| == 2 && FieldResult(w, fuel, st, stmt, record, field, result) && record.Agg? && stmt.declaration < |record.fields|
    ensures var q := EvalPlace(w, fuel, st, stmt.expressions[0]);
            && (!q.Ok? ==> result == q.PropagateFailure())
            && (q.Ok? && Evaluator.Valid(q.st, q.v) ==> result == Ok(Next, Write(q.st, q.v, Agg(record.fields[stmt.declaration := field]))))
  {
    hide EvalPlace, Valid, Write;
  }

  lemma {:induction false} UpdateStore(m: Module, c: Config, k: nat, fuel: nat, vs: Scopes, g: Gen, s: State, st: Store, stmt: Statement, o: Operand, y: Out,
                                       k2: nat, s2: State, st2: Store, record: Value, field: Value, result: R<Flow>, here: bool) returns (k': nat, s': State)
    requires Live(m.env, vs, g, st, s) && Fine(g) && |vs| > 0 && stmt.kind == UpdateS && ExprsOk(m.env, vs, stmt.expressions) && OperandsOk(m.env, Return(Void, ""), 0, stmt)
    requires |stmt.expressions| == 2 && ExprOk(m.env, vs, stmt.expressions[0]) && Assignable(stmt.expressions[0])
    requires Point(m, c, k2, vs, y.g, s2, st2) && Moved(g, s, st, y.g, s2, st2) && Holds(s2, o, record) && Holds(s2, y.o, field) && k <= k2 && Grows(g, y.g) && s2.top.fn == s.top.fn
    requires HasType(m.env, record, Composite, stmt.expressions[0].composite) && HasType(m.env, field, stmt.expressions[1].ty, stmt.expressions[1].composite)
    requires FieldResult(m.env, fuel, st2, stmt, record, field, result)
    requires var u := Def(y.g, UpdateValue(y.g.regs, stmt.expressions[0].composite, stmt.declaration, o, y.o));
             var p := GenPlace(m.env, u.g, stmt.expressions[0]);
             Coded(m, s.top.fn, u.g) && Coded(m, s.top.fn, p.g) && Coded(m, s.top.fn, Emit(p.g, StoreTo(u.o, p.o)))
    ensures var u := Def(y.g, UpdateValue(y.g.regs, stmt.expressions[0].composite, stmt.declaration, o, y.o));
            var p := GenPlace(m.env, u.g, stmt.expressions[0]);
            Executes(m, c, k, fuel, g, s, Emit(p.g, StoreTo(u.o, p.o)), result, here, k', s')
    decreases fuel, 1, stmt, 6
  {
    hide Coded, GenPlace, Fine, Grows, Moved, Executes, Emit, Holds, ExprsOk, ExprOk, OperandsOk, EvalPlace, HasType, Valid, Write, Run, At, Tracks, StoreOk, Stored, Def, Locates, PlaceTyped, LiveIf, Computes, Compiled, FieldResult;
    var a := stmt.expressions[0];
    var i := UpdateValue(y.g.regs, a.composite, stmt.declaration, o, y.o);
    var u := Def(y.g, i);
    CompiledSane(m);
    UpdateSound(m.env, fuel, vs, st2, stmt, record, field);
    var v := Agg(record.fields[stmt.declaration := field]);
    var s3 := UpdateRun(m, c, k2, y.g, s2, a.composite, stmt.declaration, o, y.o, record, field);
    ComputesMoves(m, c, g, s, st, y.g, s2, st2, u, v, k2 + 1, s3);
    UpdatePoint(m, c, k2 + 1, vs, g, s, st, y.g, i, s3, st2);
    var q := EvalPlace(m.env, fuel, st2, a);
    FieldOutcome(m.env, fuel, st2, stmt, record, field, result);
    var k4, s4 := PlaceSim(m, c, k2 + 1, fuel, vs, u.g, s3, st2, a);
    k', s' := AssignEnd(m, c, k, fuel, vs, g, s, st, u, a, v, k2 + 1, s3, st2, q, k4, s4, result, here);
  }

  lemma CompiledSane(m: Module)
    requires Compiled(m)
    ensures Sane(m.env)
  {
  }

  /** The point behind one more definition. */
  lemma UpdatePoint(m: Module, c: Config, k: nat, vs: Scopes, g: Gen, s: State, st: Store, h: Gen, i: Instr, s': State, st': Store)
    requires Compiled(m) && Live(m.env, vs, g, st, s) && StoreOk(m.env, vs, st') && Tracks(vs, h) && Grows(g, h) && !i.Terminator()
    requires var u := Def(h, i); Run(m, c, k) == Running(s') && Moved(g, s, st, u.g, s', st')
    ensures var u := Def(h, i); Point(m, c, k, vs, u.g, s', st') && Grows(g, u.g) && Below(u.o, u.g.regs) && s'.top.fn == s.top.fn
  {
    var u := Def(h, i);
    DefGrows(h, i);
    TracksGrown(vs, h, u.g);
    GrowsTrans(g, h, u.g);
    GrowCounts(g, u.g);
    MovedKeeps(g, s, st, u.g, s', st');
    hide Tracks, StoreOk, Stored, Run, Grows;
    LiveAfter(m.env, vs, g, s, st, u.g, s', st');
  }

  // ----- expression statements and returns -----

  lemma {:induction false} ExpressionSim(m: Module, c: Config, k: nat, fuel: nat, ret: Return, vs: Scopes, loops: nat, g: Gen, s: State, st: Store, stmt: Statement, here: bool)
    returns (k': nat, s': State)
    requires Standing(m, c, k, vs, loops, g, s, st) && Checked(m, ret, vs, loops, g, s, stmt, here) && stmt.kind == ExpressionS
    ensures StmtDone(m, c, k, fuel, g, s, st, stmt, here, k', s')
    decreases fuel, 1, stmt, 8
  {
    hide CheckStmt, Placed, Coded, GenStmt, Exec, Run, Fine, Executes, ExprsOk, ExprOk, Compiled, At, GenExpr, EvalExpr, LiveIf, Typed, NodeDone, Tracks, StoreOk, Stored, Moved, Grows;
    StmtFacts(m, ret, vs, loops, g, s, stmt, here);
    var e, h := stmt.expressions[0], GenStmt(m.env, g, stmt);
    ExpressionShape(m.env, fuel, g, st, stmt);
    var r := EvalExpr(m.env, fuel, st, e);
    k', s' := ExprSim(m, c, k, fuel, vs, g, s, st, e);
    if !r.Ok? {
      NodeStops(m, c, k, fuel, g, s, st, e, k', s');
      StmtFails(m, c, k, fuel, g, s, h, r, Exec(m.env, fuel, st, stmt), here, k', s');
    } else {
      NodePoint(m, c, k, fuel, vs, g, s, st, e, k', s');
      MovedLands(m, c, g, s, st, h, k', s', r.st);
      FallsThrough(m, c, k, fuel, g, s, h, r.st, here, k', s');
    }
  }

  lemma ExpressionShape(w: Env, fuel: nat, g: Gen, st: Store, stmt: Statement)
    requires stmt.kind == ExpressionS && |stmt.expressions| == 1
    ensures GenStmt(w, g, stmt) == GenExpr(w, g, stmt.expressions[0]).g
    ensures var r := EvalExpr(w, fuel, st, stmt.expressions[0]);
            Exec(w, fuel, st, stmt) == if r.Ok? then Ok(Next, r.st) else r.PropagateFailure()
  {
    hide GenExpr, EvalExpr;
  }

  lemma MovedLands(m: Module, c: Config, g: Gen, s: State, st: Store, h: Gen, k': nat, s': State, st': Store)
    requires Run(m, c, k') == Running(s') && Moved(g, s, st, h, s', st') && Stored(g.scopes, st.scopes, s.top) && Grows(g, h)
    ensures Landed(m, c, g, s, h, st', k', s')
  {
    hide Run, Fine, Sealed;
    MovedSettled(g, s, st, h, s', st');
  }

  lemma {:induction false} ReturnSim(m: Module, c: Config, k: nat, fuel: nat, ret: Return, vs: Scopes, loops: nat, g: Gen, s: State, st: Store, stmt: Statement, here: bool)
    returns (k': nat, s': State)
    requires Standing(m, c, k, vs, loops, g, s, st) && Checked(m, ret, vs, loops, g, s, stmt, here) && stmt.kind == ReturnS
    ensures StmtDone(m, c, k, fuel, g, s, st, stmt, here, k', s')
    decreases fuel, 1, stmt, 8
  {
    hide CheckStmt, Placed, Coded, GenStmt, Exec, Run, Fine, Executes, ExprsOk, ExprOk, Compiled, GenExpr, EvalExpr, LiveIf, Typed, NodeDone, Tracks, StoreOk, Stored, Moved, Grows, Emit, At;
    StmtFacts(m, ret, vs, loops, g, s, stmt, here);
    ReturnShape(m.env, fuel, g, st, stmt);
    s' := s;
    if stmt.expressions == [] {
      Nowhere(g, s, st);
      HoldsImm(s, Unit);
      k' := k + 1;
      ReturnEnd(m, c, k, fuel, g, s, st, g, k, s, st, Imm(Unit), Unit, here);
    } else {
      var e := stmt.expressions[0];
      var x, r := GenExpr(m.env, g, e), EvalExpr(m.env, fuel, st, e);
      CodedEmit(m, s.top.fn, x.g, Ret(x.o));
      var k1, s1 := ExprSim(m, c, k, fuel, vs, g, s, st, e);
      if !r.Ok? {
        k' := k1;
        NodeStops(m, c, k, fuel, g, s, st, e, k1, s1);
        StmtFails(m, c, k, fuel, g, s, GenStmt(m.env, g, stmt), r, Exec(m.env, fuel, st, stmt), here, k1, s);
      } else {
        NodePoint(m, c, k, fuel, vs, g, s, st, e, k1, s1);
        k' := k1 + 1;
        ReturnEnd(m, c, k, fuel, g, s, st, x.g, k1, s1, r.st, x.o, r.v, here);
      }
    }
  }

  lemma ReturnShape(w: Env, fuel: nat, g: Gen, st: Store, stmt: Statement)
    requires stmt.kind == ReturnS
    ensures stmt.expressions == [] ==> GenStmt(w, g, stmt) == Emit(g, Ret(Imm(Unit))) && Exec(w, fuel, st, stmt) == Ok(Returns(Unit), st)
    ensures stmt.expressions != [] ==>
              var x, r := GenExpr(w, g, stmt.expressions[0]), EvalExpr(w, fuel, st, stmt.expressions[0]);
              && GenStmt(w, g, stmt) == Emit(x.g, Ret(x.o))
              && Exec(w, fuel, st, stmt) == if r.Ok? then Ok(Returns(r.v), r.st) else r.PropagateFailure()
  {
    hide GenExpr, EvalExpr, Emit;
  }

  // ----- print -----

  ghost predicate Prints(m: Module, c: Config, k: nat, fuel: nat, g: Gen, s: State, st: Store, es: seq<Expression>, k': nat, s': State) {
    var r := Print(m.env, fuel, st, es);
    Stops(m, c, k, fuel, r, k') && (r.Ok? ==> r.v == Next && Arrives(m, c, g, s, st, GenPrint(m.env, g, es), r.st, k', s'))
  }

  lemma PrintShape(w: Env, fuel: nat, g: Gen, st: Store, es: seq<Expression>)
    requires es != []
    ensures var x := GenExpr(w, g, es[0]); GenPrint(w, g, es) == GenPrint(w, PrintItem(x, es[0].ty, |es| == 1), es[1..])
    ensures var r := EvalExpr(w, fuel, st, es[0]);
            Print(w, fuel, st, es) ==
            if r.Ok? then Print(w, fuel, ItemPrinted(r.st, es[0].ty, r.v, |es| == 1), es[1..]) else r.PropagateFailure()
  {
    hide GenExpr, EvalExpr, Printable, PrintFormat, Separator, Emit;
  }

  lemma PrintCoded(m: Module, fn: string, g: Gen, es: seq<Expression>)
    requires es != [] && Coded(m, fn, GenPrint(m.env, g, es))
    ensures var x := GenExpr(m.env, g, es[0]);
            var i := PrintItem(x, es[0].ty, |es| == 1);
            Coded(m, fn, x.g) && Coded(m, fn, i) && Coded(m, fn, GenPrint(m.env, i, es[1..]))
  {
    hide GenExpr, GenPrint, Coded, PrintItem, Fine, Sealed, Ext;
    PrintShape(m.env, 0, g, Store(map[], [], []), es);
    var x := GenExpr(m.env, g, es[0]);
    var i := PrintItem(x, es[0].ty, |es| == 1);
    PrintGrows(m.env, i, es[1..]);
    PrintItemGrows(x, es[0].ty, |es| == 1);
    CodedBack(m, fn, i, GenPrint(m.env, i, es[1..]));
    CodedBack(m, fn, x.g, i);
  }

  lemma {:induction false} PrintSim(m: Module, c: Config, k: nat, fuel: nat, vs: Scopes, g: Gen, s: State, st: Store, es: seq<Expression>)
    returns (k': nat, s': State)
    requires Point(m, c, k, vs, g, s, st) && ExprsOk(m.env, vs, es) && Coded(m, s.top.fn, GenPrint(m.env, g, es))
    requires forall i | 0 <= i < |es| :: IsScalar(es[i].ty)
    ensures Prints(m, c, k, fuel, g, s, st, es, k', s')
    decreases fuel, 1, es, 0
  {
    hide Coded, Run, ExprOk, ExprsOk, Compiled, Live, GenExpr, EvalExpr, LiveIf, NodeDone, GenPrint, PrintItem, ItemPrinted, Print, Moved, At, HasType, Grows, Prints, StoreOk, Kept;
    if es == [] {
      k', s' := k, s;
      PrintNone(m, c, k, fuel, vs, g, s, st);
    } else {
      PrintOk(m.env, vs, es);
      var e := es[0];
      PrintShape(m.env, fuel, g, st, es);
      PrintCoded(m, s.top.fn, g, es);
      var x, r, last := GenExpr(m.env, g, e), EvalExpr(m.env, fuel, st, e), |es| == 1;
      var k1, s1 := ExprSim(m, c, k, fuel, vs, g, s, st, e);
      if !r.Ok? {
        k', s' := k1, s1;
        NodeStops(m, c, k, fuel, g, s, st, e, k1, s1);
        PrintFails(m, c, k, fuel, g, s, st, es, k1, s1);
      } else {
        NodePoint(m, c, k, fuel, vs, g, s, st, e, k1, s1);
        ScalarOf(m.env, r.v, e.ty, e.composite);
        LiveInStep(m.env, vs, x.g, r.st, s1);
        var k2, s2 := ItemRun(m, c, k1, x, s1, r.st, e.ty, r.v, last);
        var i, st2 := PrintItem(x, e.ty, last), ItemPrinted(r.st, e.ty, r.v, last);
        PrintPoint(m, c, k2, vs, x, s1, r.st, s2, e.ty, r.v, last);
        var k3, s3 := PrintSim(m, c, k2, fuel, vs, i, s2, st2, es[1..]);
        k', s' := k3, s3;
        MovedTrans(g, s, st, x.g, s1, r.st, i, s2, st2);
        GrowsTrans(g, x.g, i);
        PrintMore(m, c, k, fuel, g, s, st, es, i, st2, k2, s2, k3, s3);
      }
    }
  }

  lemma PrintNone(m: Module, c: Config, k: nat, fuel: nat, vs: Scopes, g: Gen, s: State, st: Store)
    requires Reached(m, c, k, g, s) && Live(m.env, vs, g, st, s)
    ensures Prints(m, c, k, fuel, g, s, st, [], k, s)
  {
    hide Run;
    Nowhere(g, s, st);
  }

  lemma PrintOk(w: Env, vs: Scopes, es: seq<Expression>)
    requires es != [] && ExprsOk(w, vs, es)
    ensures ExprOk(w, vs, es[0]) && ExprsOk(w, vs, es[1..])
  {
    hide ExprOk;
  }

  lemma PrintFails(m: Module, c: Config, k: nat, fuel: nat, g: Gen, s: State, st: Store, es: seq<Expression>, k1: nat, s1: State)
    requires es != [] && !EvalExpr(m.env, fuel, st, es[0]).Ok? && Stops(m, c, k, fuel, EvalExpr(m.env, fuel, st, es[0]), k1)
    ensures Prints(m, c, k, fuel, g, s, st, es, k1, s1)
  {
    hide EvalExpr, Run, GenPrint;
  }

  lemma PrintPoint(m: Module, c: Config, k: nat, vs: Scopes, x: Out, s: State, st: Store, s': State, t: ScalarType, v: Value, last: bool)
    requires Compiled(m) && Live(m.env, vs, x.g, st, s) && Run(m, c, k) == Running(s')
    requires Moved(x.g, s, st, PrintItem(x, t, last), s', ItemPrinted(st, t, v, last))
    ensures Point(m, c, k, vs, PrintItem(x, t, last), s', ItemPrinted(st, t, v, last))
    ensures s'.top.fn == s.top.fn && Grows(x.g, PrintItem(x, t, last))
  {
    PrintItemGrows(x, t, last);
    assert PrintItem(x, t, last).ok == x.g.ok;
    TracksGrown(vs, x.g, PrintItem(x, t, last));
    hide Tracks, Stored, Run, PrintItem, Fine, Sealed, Compiled, ScopeOk;
    LiveAfter(m.env, vs, x.g, s, st, PrintItem(x, t, last), s', ItemPrinted(st, t, v, last));
  }

  lemma PrintMore(m: Module, c: Config, k: nat, fuel: nat, g: Gen, s: State, st: Store, es: seq<Expression>, i: Gen, st2: Store, k2: nat, s2: State, k3: nat, s3: State)
    requires es != [] && k <= k2 && Grows(g, i) && Moved(g, s, st, i, s2, st2) && Prints(m, c, k2, fuel, i, s2, st2, es[1..], k3, s3)
    requires GenPrint(m.env, g, es) == GenPrint(m.env, i, es[1..]) && Print(m.env, fuel, st, es) == Print(m.env, fuel, st2, es[1..])
    ensures Prints(m, c, k, fuel, g, s, st, es, k3, s3)
  {
    hide GenPrint, Print, Run, Moved, Grows;
    var r := Print(m.env, fuel, st, es);
    if r.Ok? {
      MovedTrans(g, s, st, i, s2, st2, GenPrint(m.env, i, es[1..]), s3, r.st);
    }
  }

  lemma {:induction false} PrintStmtSim(m: Module, c: Config, k: nat, fuel: nat, ret: Return, vs: Scopes, loops: nat, g: Gen, s: State, st: Store, stmt: Statement, here: bool)
    returns (k': nat, s': State)
    requires Standing(m, c, k, vs, loops, g, s, st) && Checked(m, ret, vs, loops, g, s, stmt, here) && stmt.kind == PrintS
    ensures StmtDone(m, c, k, fuel, g, s, st, stmt, here, k', s')
    decreases fuel, 1, stmt, 8
  {
    hide CheckStmt, Placed, Coded, GenStmt, Exec, Run, Fine, Executes, ExprOk, ExprsOk, Compiled, At, Tracks, StoreOk, Stored, GenPrint, Print, Moved, Grows;
    StmtFacts(m, ret, vs, loops, g, s, stmt, here);
    var es, h := stmt.expressions, GenPrint(m.env, g, stmt.expressions);
    PrintStmtShape(m.env, fuel, g, st, stmt);
    k', s' := PrintSim(m, c, k, fuel, vs, g, s, st, es);
    var r := Print(m.env, fuel, st, es);
    if r.Ok? {
      PrintGrows(m.env, g, es);
      MovedLands(m, c, g, s, st, h, k', s', r.st);
      FallsThrough(m, c, k, fuel, g, s, h, r.st, here, k', s');
    } else {
      StmtFails(m, c, k, fuel, g, s, h, r, r, here, k', s');
    }
  }

  lemma PrintStmtShape(w: Env, fuel: nat, g: Gen, st: Store, stmt: Statement)
    requires stmt.kind == PrintS
    ensures GenStmt(w, g, stmt) == GenPrint(w, g, stmt.expressions) && Exec(w, fuel, st, stmt) == Print(w, fuel, st, stmt.expressions)
  {
    hide GenPrint, Print;
  }

  // ----- statement lists and blocks -----

  ghost predicate ListChecked(m: Module, ret: Return, vs: Scopes, loops: nat, g: Gen, s: State, ss: seq<Statement>, here: bool) {
    |vs| > 0 && CheckList(m.env, ret, vs, loops, ss).Just? && PlacedAll(ss, here) && Coded(m, s.top.fn, GenStmts(m.env, g, ss))
  }

  ghost predicate ListDone(m: Module, c: Config, k: nat, fuel: nat, g: Gen, s: State, st: Store, ss: seq<Statement>, here: bool, k': nat, s': State) {
    Executes(m, c, k, fuel, g, s, GenStmts(m.env, g, ss), ExecAll(m.env, fuel, st, ss), here, k', s')
  }

  lemma {:induction false} ListSim(m: Module, c: Config, k: nat, fuel: nat, ret: Return, vs: Scopes, loops: nat, g: Gen, s: State, st: Store, ss: seq<Statement>, here: bool)
    returns (k': nat, s': State)
    requires Standing(m, c, k, vs, loops, g, s, st) && ListChecked(m, ret, vs, loops, g, s, ss, here)
    ensures ListDone(m, c, k, fuel, g, s, st, ss, here, k', s')
    decreases fuel, 1, ss, 0
  {
    hide Standing, ListChecked, Checked, StmtDone, ListDone, Executes, Exec, GenStmt, GenStmts, ExecAll, Run, CheckStmt, Settled;
    if ss == [] {
      k', s' := k, s;
      EmptyDone(m, c, k, fuel, vs, loops, g, s, st, here);
    } else {
      HeadChecked(m, ret, vs, loops, g, s, st, c, k, ss, here);
      var k1, s1 := StmtSim(m, c, k, fuel, ret, vs, loops, g, s, st, ss[0], here);
      var r, h := Exec(m.env, fuel, st, ss[0]), GenStmt(m.env, g, ss[0]);
      if r.Ok? && r.v.Next? {
        var vs' := NextPoint(m, c, k, fuel, ret, vs, loops, g, s, st, ss, here, k1, s1);
        var k2, s2 := ListSim(m, c, k1, fuel, ret, vs', loops, h, s1, r.st, ss[1..], here);
        k', s' := k2, s2;
        ListTail(m, c, k, fuel, vs, loops, g, s, st, ss, here, k1, s1, k2, s2);
      } else {
        k', s' := k1, s1;
        ListStops(m, c, k, fuel, g, s, st, ss, here, vs, loops, k1, s1);
      }
    }
  }

  lemma EmptyDone(m: Module, c: Config, k: nat, fuel: nat, vs: Scopes, loops: nat, g: Gen, s: State, st: Store, here: bool)
    requires Standing(m, c, k, vs, loops, g, s, st)
    ensures ListDone(m, c, k, fuel, g, s, st, [], here, k, s)
  {
    hide Run, Fine, Compiled, Tracks, StoreOk, Stored;
    OpenNotEnded(g);
  }

  /** The list's first statement is generated at `g`, and its code is in place. */
  lemma HeadChecked(m: Module, ret: Return, vs: Scopes, loops: nat, g: Gen, s: State, st: Store, c: Config, k: nat, ss: seq<Statement>, here: bool)
    requires ss != [] && Standing(m, c, k, vs, loops, g, s, st) && ListChecked(m, ret, vs, loops, g, s, ss, here)
    ensures Checked(m, ret, vs, loops, g, s, ss[0], here) && GenStmts(m.env, g, ss) == GenStmts(m.env, GenStmt(m.env, g, ss[0]), ss[1..])
  {
    hide Run, Compiled, Live, Fine, CheckStmt, Placed, GenStmt, Coded, At, CheckList;
    OpenNotEnded(g);
    ListHead(m.env, ret, vs, loops, ss);
    StmtExtends(m.env, g, ss[0]);
    CodedList(m, s.top.fn, g, GenStmt(m.env, g, ss[0]), ss[1..]);
  }

  lemma ListHead(w: Env, ret: Return, vs: Scopes, loops: nat, ss: seq<Statement>)
    requires ss != [] && |vs| > 0 && CheckList(w, ret, vs, loops, ss).Just?
    ensures CheckStmt(w, ret, vs, loops, ss[0]).Just?
    ensures CheckList(w, ret, CheckStmt(w, ret, vs, loops, ss[0]).value, loops, ss[1..]) == CheckList(w, ret, vs, loops, ss)
  {
    hide CheckStmt;
  }

  lemma CodedList(m: Module, fn: string, g: Gen, h: Gen, ss: seq<Statement>)
    requires Fine(g) && Extends(g, h) && Coded(m, fn, GenStmts(m.env, h, ss))
    ensures Coded(m, fn, h)
  {
    hide Coded, Ext, Sealed, Shaped, GenStmts;
    if Terminated(h) {
      EndedStmts(m.env, h, ss);
    } else {
      ShapedOpen(h);
      StmtsExtend(m.env, h, ss);
      CodedBack(m, fn, h, GenStmts(m.env, h, ss));
    }
  }

  /** The point between a statement that fell through and the rest of its list. */
  lemma NextPoint(m: Module, c: Config, k: nat, fuel: nat, ret: Return, vs: Scopes, loops: nat, g: Gen, s: State, st: Store, ss: seq<Statement>, here: bool, k1: nat, s1: State)
    returns (vs': Scopes)
    requires ss != [] && Standing(m, c, k, vs, loops, g, s, st) && ListChecked(m, ret, vs, loops, g, s, ss, here) && Checked(m, ret, vs, loops, g, s, ss[0], here)
    requires StmtDone(m, c, k, fuel, g, s, st, ss[0], here, k1, s1) && Exec(m.env, fuel, st, ss[0]).Ok? && Exec(m.env, fuel, st, ss[0]).v.Next?
    requires GenStmts(m.env, g, ss) == GenStmts(m.env, GenStmt(m.env, g, ss[0]), ss[1..])
    ensures Standing(m, c, k1, vs', loops, GenStmt(m.env, g, ss[0]), s1, Exec(m.env, fuel, st, ss[0]).st)
    ensures ListChecked(m, ret, vs', loops, GenStmt(m.env, g, ss[0]), s1, ss[1..], here)
    ensures OuterOf(GenStmt(m.env, g, ss[0]).scopes, here) == OuterOf(g.scopes, here) && |GenStmt(m.env, g, ss[0]).scopes| == |g.scopes|
  {
    hide Run, Fine, CheckStmt, Placed, GenStmt, Coded, At, CheckList, GenStmts, Exec, Compiled, StoreOk, Stored, Agree, Separate, Keeps;
    var h, r := GenStmt(m.env, g, ss[0]), Exec(m.env, fuel, st, ss[0]);
    CompiledSane(m);
    ListHead(m.env, ret, vs, loops, ss);
    vs' := CheckStmt(m.env, ret, vs, loops, ss[0]).value;
    StmtTotal(m.env, ret, vs, loops, g, ss[0], here);
    ExecSound(m.env, fuel, ret, vs, loops, st, ss[0], here);
    NextFine(m.env, g, ss[0]);
    DestKept(g, s, s1);
  }

  lemma NextFine(w: Env, g: Gen, stmt: Statement)
    requires Fine(g) && !Terminated(GenStmt(w, g, stmt))
    ensures Fine(GenStmt(w, g, stmt)) && SameLoops(g, GenStmt(w, g, stmt))
    ensures g.regs <= GenStmt(w, g, stmt).regs && g.steps <= GenStmt(w, g, stmt).steps
  {
    hide GenStmt, Sealed, Shaped;
    StmtExtends(w, g, stmt);
    ShapedOpen(GenStmt(w, g, stmt));
  }

  lemma ListTail(m: Module, c: Config, k: nat, fuel: nat, vs: Scopes, loops: nat, g: Gen, s: State, st: Store, ss: seq<Statement>, here: bool, k1: nat, s1: State, k2: nat, s2: State)
    requires ss != [] && Standing(m, c, k, vs, loops, g, s, st) && GenStmts(m.env, g, ss) == GenStmts(m.env, GenStmt(m.env, g, ss[0]), ss[1..])
    requires StmtDone(m, c, k, fuel, g, s, st, ss[0], here, k1, s1) && Exec(m.env, fuel, st, ss[0]).Ok? && Exec(m.env, fuel, st, ss[0]).v.Next?
    requires ListDone(m, c, k1, fuel, GenStmt(m.env, g, ss[0]), s1, Exec(m.env, fuel, st, ss[0]).st, ss[1..], here, k2, s2)
    requires OuterOf(GenStmt(m.env, g, ss[0]).scopes, here) == OuterOf(g.scopes, here) && |GenStmt(m.env, g, ss[0]).scopes| == |g.scopes|
    ensures ListDone(m, c, k, fuel, g, s, st, ss, here, k2, s2)
  {
    hide Run, Fine, GenStmt, At, GenStmts, Exec, ExecAll, Compiled, Live, Settled;
    var h, r := GenStmt(m.env, g, ss[0]), Exec(m.env, fuel, st, ss[0]);
    ExecAllNext(m.env, fuel, st, ss);
    NextFine(m.env, g, ss[0]);
    ExecutesTrans(m, c, k, fuel, g, s, h.scopes, h, k1, fuel, s1, r.st, GenStmts(m.env, g, ss), ExecAll(m.env, fuel, st, ss), here, k2, s2);
  }

  lemma ExecAllNext(w: Env, fuel: nat, st: Store, ss: seq<Statement>)
    requires ss != []
    ensures var r := Exec(w, fuel, st, ss[0]);
            ExecAll(w, fuel, st, ss) == if r.Ok? && r.v.Next? then ExecAll(w, fuel, r.st, ss[1..]) else r
  {
    hide Exec;
  }

  lemma ListStops(m: Module, c: Config, k: nat, fuel: nat, g: Gen, s: State, st: Store, ss: seq<Statement>, here: bool, vs: Scopes, loops: nat, k1: nat, s1: State)
    requires ss != [] && StmtDone(m, c, k, fuel, g, s, st, ss[0], here, k1, s1) && !(Exec(m.env, fuel, st, ss[0]).Ok? && Exec(m.env, fuel, st, ss[0]).v.Next?)
    ensures ListDone(m, c, k, fuel, g, s, st, ss, here, k1, s1)
  {
    hide Run, GenStmt, GenStmts, Exec, ExecAll, Executes;
    ExecAllNext(m.env, fuel, st, ss);
    ExecutesElsewhere(m, c, k, fuel, g, s, GenStmt(m.env, g, ss[0]), GenStmts(m.env, g, ss), Exec(m.env, fuel, st, ss[0]), here, k1, s1);
  }

  lemma {:induction false} BlockSim(m: Module, c: Config, k: nat, fuel: nat, ret: Return, vs: Scopes, loops: nat, g: Gen, s: State, st: Store, stmt: Statement, here: bool)
    returns (k': nat, s': State)
    requires Standing(m, c, k, vs, loops, g, s, st) && Checked(m, ret, vs, loops, g, s, stmt, here) && stmt.kind == BlockS
    ensures StmtDone(m, c, k, fuel, g, s, st, stmt, here, k', s')
    decreases fuel, 1, stmt, 8
  {
    hide Standing, Checked, ListChecked, StmtDone, ListDone, Executes, Exec, GenStmt, GenStmts, ExecAll, Run;
    BlockShape(m.env, fuel, g, st, stmt);
    if stmt.lexical {
      var y := g.(scopes := g.scopes + [map[]]);
      BlockEnter(m, c, k, ret, vs, loops, g, s, st, stmt, here);
      k', s' := ListSim(m, c, k, fuel, ret, vs + [map[]], loops, y, s, Push(st), stmt.body, true);
      BlockLeave(m, c, k, fuel, ret, vs, loops, g, s, st, stmt, here, k', s');
    } else {
      BlockPlain(m, ret, vs, loops, g, s, stmt, here);
      k', s' := ListSim(m, c, k, fuel, ret, vs, loops, g, s, st, stmt.body, here);
      BlockSame(m, c, k, fuel, g, s, st, stmt, here, k', s');
    }
  }

  lemma BlockShape(w: Env, fuel: nat, g: Gen, st: Store, stmt: Statement)
    requires stmt.kind == BlockS
    ensures !stmt.lexical ==> GenStmt(w, g, stmt) == GenStmts(w, g, stmt.body) && Exec(w, fuel, st, stmt) == ExecAll(w, fuel, st, stmt.body)
    ensures stmt.lexical ==> GenStmt(w, g, stmt) == GenStmts(w, g.(scopes := g.scopes + [map[]]), stmt.body).(scopes := g.scopes)
    ensures stmt.lexical ==>
              var r := ExecAll(w, fuel, Push(st), stmt.body);
              Exec(w, fuel, st, stmt) == if r.Ok? then Ok(r.v, PopTo(r.st, |st.scopes|)) else r
  {
    hide GenStmts, ExecAll, Push, PopTo;
  }

  lemma BlockPlain(m: Module, ret: Return, vs: Scopes, loops: nat, g: Gen, s: State, stmt: Statement, here: bool)
    requires stmt.kind == BlockS && !stmt.lexical && Checked(m, ret, vs, loops, g, s, stmt, here)
    ensures ListChecked(m, ret, vs, loops, g, s, stmt.body, here)
  {
    hide Coded, ExprsOk, CheckList, GenStmts, PlacedAll;
  }

  lemma BlockSame(m: Module, c: Config, k: nat, fuel: nat, g: Gen, s: State, st: Store, stmt: Statement, here: bool, k': nat, s': State)
    requires ListDone(m, c, k, fuel, g, s, st, stmt.body, here, k', s')
    requires GenStmt(m.env, g, stmt) == GenStmts(m.env, g, stmt.body) && Exec(m.env, fuel, st, stmt) == ExecAll(m.env, fuel, st, stmt.body)
    ensures StmtDone(m, c, k, fuel, g, s, st, stmt, here, k', s')
  {
    hide GenStmt, GenStmts, Exec, ExecAll, Executes;
  }

  lemma BlockEnter(m: Module, c: Config, k: nat, ret: Return, vs: Scopes, loops: nat, g: Gen, s: State, st: Store, stmt: Statement, here: bool)
    requires stmt.kind == BlockS && stmt.lexical && Standing(m, c, k, vs, loops, g, s, st) && Checked(m, ret, vs, loops, g, s, stmt, here)
    ensures var y := g.(scopes := g.scopes + [map[]]);
            Standing(m, c, k, vs + [map[]], loops, y, s, Push(st)) && ListChecked(m, ret, vs + [map[]], loops, y, s, stmt.body, true)
  {
    hide Run, Compiled, ExprsOk, CheckList, GenStmts, PlacedAll, ScopeOk, ScopeStored, ScopeAgrees, Exec, OperandsOk;
    var y := g.(scopes := g.scopes + [map[]]);
    BlockListChecked(m, ret, vs, loops, g, s, stmt, here);
    assert Fine(y);
    FreshScope(m.env, vs, g, st, s);
  }

  lemma BlockListChecked(m: Module, ret: Return, vs: Scopes, loops: nat, g: Gen, s: State, stmt: Statement, here: bool)
    requires stmt.kind == BlockS && stmt.lexical && Checked(m, ret, vs, loops, g, s, stmt, here)
    ensures ListChecked(m, ret, vs + [map[]], loops, g.(scopes := g.scopes + [map[]]), s, stmt.body, true)
  {
    hide ExprsOk, CheckList, GenStmts, PlacedAll, Coded;
    BlockShape(m.env, 0, g, Store(map[], [], []), stmt);
    CodedSame(m, s.top.fn, GenStmt(m.env, g, stmt), GenStmts(m.env, g.(scopes := g.scopes + [map[]]), stmt.body));
  }

  lemma FreshScope(w: Env, vs: Scopes, g: Gen, st: Store, s: State)
    requires Live(w, vs, g, st, s)
    ensures Live(w, vs + [map[]], g.(scopes := g.scopes + [map[]]), Push(st), s)
  {
  }

  lemma BlockLeave(m: Module, c: Config, k: nat, fuel: nat, ret: Return, vs: Scopes, loops: nat, g: Gen, s: State, st: Store, stmt: Statement, here: bool, k': nat, s': State)
    requires stmt.kind == BlockS && stmt.lexical && Standing(m, c, k, vs, loops, g, s, st) && Checked(m, ret, vs, loops, g, s, stmt, here)
    requires var y := g.(scopes := g.scopes + [map[]]);
             && ListDone(m, c, k, fuel, y, s, Push(st), stmt.body, true, k', s')
             && Standing(m, c, k, vs + [map[]], loops, y, s, Push(st)) && ListChecked(m, ret, vs + [map[]], loops, y, s, stmt.body, true)
    ensures StmtDone(m, c, k, fuel, g, s, st, stmt, here, k', s')
  {
    hide Run, Compiled, ExprsOk, CheckList, GenStmts, GenStmt, Exec, ExecAll, PlacedAll, StoreOk, ScopeStored, ScopeAgrees, Executes, Separate, Coded, CheckStmt, Placed, Fine;
    var y := g.(scopes := g.scopes + [map[]]);
    BlockShape(m.env, fuel, g, st, stmt);
    ListTotal(m.env, ret, vs + [map[]], loops, y, stmt.body, true);
    var x := GenStmts(m.env, y, stmt.body);
    assert y.scopes[..|g.scopes|] == g.scopes;
    BlockExit(m, c, k, fuel, g, s, st, y, x, ExecAll(m.env, fuel, Push(st), stmt.body), here, k', s');
  }

  // ----- if -----

  /** From a tested condition to the block it selects. */
  lemma TestSettles(g: Gen, a: Gen, s: State, st: Store, x: Gen, s1: State, st1: Store, s2: State)
    requires a.regs == g.regs && a.steps == g.steps && a.scopes == g.scopes && Grows(a, x)
    requires Moved(a, s, st, x, s1, st1) && Undisturbed(x, s1, s2) && Stored(g.scopes, st.scopes, s.top)
    ensures Settled(g, s, g.scopes, s2, st1)
  {
    hide Fine, Sealed, Stored;
    assert Keeps(g, s.top, s1.top);
    KeepsTrans(g, x, s.top, s1.top, s2.top);
    StoredFrame(g.scopes, st1.scopes, s.top, s2.top);
  }

  /** A segment of the statement begun at `g`, up to the block `h` that follows the statement. */
  lemma SegmentDone(m: Module, c: Config, k: nat, fuel: nat, g: Gen, s: State, y: Gen, k2: nat, s2: State, st2: Store, x: Gen, l: Gen, r: R<Flow>, k3: nat, s3: State, h: Gen)
    returns (k': nat, s': State)
    requires Settled(g, s, g.scopes, s2, st2) && Inside(g, y) && SameLoops(g, y) && k <= k2 && y.regs <= l.regs && y.steps <= l.steps
    requires Executes(m, c, k2, fuel, y, s2, x, r, false, k3, s3)
    requires l.code == x.code && l.at == x.at && x.scopes == g.scopes && Coded(m, s.top.fn, Branch(l, h.at)) && h.code[h.at] == [] && h.scopes == g.scopes
    ensures Executes(m, c, k, fuel, g, s, h, r, false, k', s')
  {
    hide Run, Coded, Branch, Stored, Keeps;
    k', s' := k3, s3;
    if r.Ok? && r.v.Next? {
      DestKept(g, s, s2);
      s' := SegmentExit(m, c, k3, y, s2, x, l, r.st, h.at, s3);
      k' := k3 + 1;
      SettledTrans(g, s, g.scopes, s2, st2, y, g.scopes, s', r.st);
    } else {
      ExecutesTrans(m, c, k, fuel, g, s, g.scopes, y, k2, fuel, s2, st2, x, r, false, k3, s3);
      ExecutesElsewhere(m, c, k, fuel, g, s, x, h, r, false, k3, s3);
    }
  }

  lemma IfShape(w: Env, fuel: nat, g: Gen, st: Store, stmt: Statement)
    requires stmt.kind == IfS && |stmt.expressions| == 1
    ensures GenStmt(w, g, stmt) == GenIf(w, g, stmt)
    ensures var r := EvalExpr(w, fuel, st, stmt.expressions[0]);
            && (!r.Ok? ==> Exec(w, fuel, st, stmt) == r.PropagateFailure())
            && (r.Ok? && r.v.I? ==> Exec(w, fuel, st, stmt) == ExecAll(w, fuel, r.st, if r.v.n != 0 then stmt.body else stmt.alternative))
  {
    hide GenIf, EvalExpr, ExecAll;
  }

  lemma IfHeadShape(w: Env, g: Gen, stmt: Statement)
    requires |stmt.expressions| == 1
    ensures var x := GenExpr(w, AddBlocks(g, 3), stmt.expressions[0]);
            var b := BoolValue(x.g, x.o);
            IfHead(w, g, stmt) == Emit(b.g, CondBr(b.o, |g.code|, |g.code| + 1))
  {
    hide GenExpr, BoolValue, Emit, AddBlocks;
  }

  /** More blocks do not move the machine. */
  lemma AddPoint(m: Module, c: Config, k: nat, vs: Scopes, g: Gen, s: State, st: Store, n: nat)
    requires Point(m, c, k, vs, g, s, st)
    ensures Point(m, c, k, vs, AddBlocks(g, n), s, st)
  {
    hide Run, Compiled, StoreOk, Stored, Agree, Separate;
  }

  lemma CondInt(w: Env, v: Value, t: ScalarType, composite: string)
    requires HasType(w, v, t, composite) && Condition(t)
    ensures v.I?
  {
  }

  /** The parts of a checked `if`, `while` or `for` do not depend on where it stands. */
  lemma ControlChecked(m: Module, ret: Return, vs: Scopes, loops: nat, g: Gen, s: State, stmt: Statement, here: bool)
    requires Checked(m, ret, vs, loops, g, s, stmt, here) && stmt.kind in {IfS, WhileS, ForS}
    ensures |vs| > 0 && CheckStmt(m.env, ret, vs, loops, stmt).Just? && Placed(stmt, false)
  {
    hide CheckStmt, Coded, GenStmt;
  }

  lemma {:induction false} IfSim(m: Module, c: Config, k: nat, fuel: nat, ret: Return, vs: Scopes, loops: nat, g: Gen, s: State, st: Store, stmt: Statement, here: bool)
    returns (k': nat, s': State)
    requires Standing(m, c, k, vs, loops, g, s, st) && Checked(m, ret, vs, loops, g, s, stmt, here) && stmt.kind == IfS
    ensures StmtDone(m, c, k, fuel, g, s, st, stmt, here, k', s')
    decreases fuel, 1, stmt, 8
  {
    hide Checked, Exec, ExecAll, GenStmt, GenStmts, GenIf, IfHead, IfYes, IfNo, IfStages, CheckStmt, CheckList, Placed, PlacedAll, Coded, Run, At, Compiled, Live, Fine, Executes, ExprsOk, ExprOk, GenExpr, EvalExpr, AddBlocks, BoolValue, Emit, NodeDone, LiveIf, StoreOk, HasType, Moved, Grows, Holds, Inside, Undisturbed;
    StmtFacts(m, ret, vs, loops, g, s, stmt, here);
    ControlChecked(m, ret, vs, loops, g, s, stmt, here);
    IfShape(m.env, fuel, g, st, stmt);
    IfHeadShape(m.env, g, stmt);
    LiveTracks(m.env, vs, g, st, s);
    IfInside(m.env, ret, vs, loops, g, stmt);
    IfCoded(m, s.top.fn, g, stmt);
    var n, a, e := |g.code|, AddBlocks(g, 3), stmt.expressions[0];
    CodedTest(m, s.top.fn, a, e, n, n + 1);
    AddPoint(m, c, k, vs, g, s, st, 3);
    var x, r := GenExpr(m.env, a, e), EvalExpr(m.env, fuel, st, e);
    var k1, s1 := ExprSim(m, c, k, fuel, vs, a, s, st, e);
    if !r.Ok? {
      k', s' := k1, s1;
      NodeStops(m, c, k, fuel, a, s, st, e, k1, s1);
      StmtFails(m, c, k, fuel, g, s, GenIf(m.env, g, stmt), r, Exec(m.env, fuel, st, stmt), here, k1, s1);
    } else {
      NodePoint(m, c, k, fuel, vs, a, s, st, e, k1, s1);
      CondInt(m.env, r.v, e.ty, e.composite);
      var s2 := TestRun(m, c, k1, x, s1, r.v.n, n, n + 1);
      AddKeeps(g, 3);
      TestSettles(g, a, s, st, x.g, s1, r.st, s2);
      k', s' := IfBranch(m, c, k, fuel, ret, vs, loops, g, s, st, stmt, k1 + 2, s2, r.st, r.v.n != 0);
      WeakenFlow(m, c, k, fuel, g, s, GenIf(m.env, g, stmt), Exec(m.env, fuel, st, stmt), here, k', s');
    }
  }

  lemma LiveTracks(w: Env, vs: Scopes, g: Gen, st: Store, s: State)
    requires Live(w, vs, g, st, s)
    ensures Tracks(vs, g) && |g.scopes| == |vs| && Stored(g.scopes, st.scopes, s.top) && StoreOk(w, vs, st) && g.ok
  {
  }

  lemma AddKeeps(g: Gen, n: nat)
    ensures var a := AddBlocks(g, n); a.regs == g.regs && a.steps == g.steps && a.scopes == g.scopes
  {
  }

  lemma {:induction false} IfBranch(m: Module, c: Config, k: nat, fuel: nat, ret: Return, vs: Scopes, loops: nat, g: Gen, s: State, st: Store, stmt: Statement, k2: nat, s2: State, st2: Store, yes: bool)
    returns (k': nat, s': State)
    requires Standing(m, c, k, vs, loops, g, s, st) && stmt.kind == IfS && |stmt.expressions| == 1 && k <= k2
    requires CheckStmt(m.env, ret, vs, loops, stmt).Just? && Placed(stmt, false) && Coded(m, s.top.fn, GenIf(m.env, g, stmt))
    requires Run(m, c, k2) == Running(s2) && Starts(s2.top, if yes then |g.code| else |g.code| + 1)
    requires Settled(g, s, g.scopes, s2, st2) && StoreOk(m.env, vs, st2)
    ensures Executes(m, c, k, fuel, g, s, GenIf(m.env, g, stmt), ExecAll(m.env, fuel, st2, if yes then stmt.body else stmt.alternative), false, k', s')
    decreases fuel, 1, stmt, 7
  {
    hide ExecAll, GenStmts, GenIf, IfHead, IfYes, IfNo, CheckStmt, CheckList, Placed, PlacedAll, Coded, Run, Compiled, Live, Fine, Executes, StoreOk, Stored, Keeps, Tracks, Ext, Branch, ListDone;
    LiveTracks(m.env, vs, g, st, s);
    IfInside(m.env, ret, vs, loops, g, stmt);
    IfCoded(m, s.top.fn, g, stmt);
    DestKept(g, s, s2);
    var n := |g.code|;
    var y := if yes then MoveTo(IfHead(m.env, g, stmt), n) else MoveTo(IfYes(m.env, g, stmt), n + 1);
    var ss := if yes then stmt.body else stmt.alternative;
    Enters(m, c, k2, vs, g, y, s2, st2);
    var k3, s3 := ListSim(m, c, k2, fuel, ret, vs, loops, y, s2, st2, ss, false);
    var x := GenStmts(m.env, y, ss);
    SegmentTotal(m.env, ret, vs, loops, g, y, ss, n + 2);
    SegmentCounts(m.env, y, ss);
    ListExecutes(m, c, k2, fuel, y, s2, st2, ss, k3, s3);
    k', s' := SegmentDone(m, c, k, fuel, g, s, y, k2, s2, st2, x, x, ExecAll(m.env, fuel, st2, ss), k3, s3, GenIf(m.env, g, stmt));
  }

  lemma ListExecutes(m: Module, c: Config, k: nat, fuel: nat, g: Gen, s: State, st: Store, ss: seq<Statement>, k': nat, s': State)
    requires ListDone(m, c, k, fuel, g, s, st, ss, false, k', s')
    ensures Executes(m, c, k, fuel, g, s, GenStmts(m.env, g, ss), ExecAll(m.env, fuel, st, ss), false, k', s')
  {
    hide Executes, GenStmts, ExecAll;
  }

  lemma SegmentCounts(w: Env, y: Gen, ss: seq<Statement>)
    requires Fine(y)
    ensures var x := GenStmts(w, y, ss); y.regs <= x.regs && y.steps <= x.steps
  {
    hide Fine, Sealed, GenStmts, Shaped;
    StmtsExtend(w, y, ss);
  }

  // ----- while -----

  lemma WhileShape(w: Env, fuel: nat, g: Gen, st: Store, stmt: Statement)
    requires stmt.kind == WhileS && |stmt.expressions| == 1
    ensures GenStmt(w, g, stmt) == GenWhile(w, g, stmt)
    ensures var r := EvalExpr(w, fuel, st, stmt.expressions[0]);
            && (!r.Ok? ==> Exec(w, fuel, st, stmt) == r.PropagateFailure())
            && (r.Ok? && r.v.I? && r.v.n == 0 ==> Exec(w, fuel, st, stmt) == Ok(Next, r.st))
            && (r.Ok? && r.v.I? && r.v.n != 0 ==> Exec(w, fuel, st, stmt) == Again(w, fuel, stmt, ExecAll(w, fuel, r.st, stmt.body)))
  {
    hide GenWhile, EvalExpr, ExecAll;
  }

  lemma WhileHeadShape(w: Env, g: Gen, stmt: Statement)
    requires |stmt.expressions| == 1
    ensures var x := GenExpr(w, WhileTest(g), stmt.expressions[0]);
            var b := BoolValue(x.g, x.o);
            WhileHead(w, g, stmt) == Emit(b.g, CondBr(b.o, |g.code| + 1, |g.code| + 2))
  {
    hide GenExpr, BoolValue, Emit, AddBlocks, Branch;
  }

  /** What a `while` does after its body. */
  function Again(w: Env, fuel: nat, stmt: Statement, r: R<Flow>): R<Flow> {
    if !r.Ok? then r
    else if r.v.Breaks? then Ok(Next, r.st)
    else if r.v.Returns? then r
    else if fuel == 0 then Timeout
    else Exec(w, fuel - 1, r.st, stmt)
  }

  /** A `while` loop whose code is in place. */
  ghost predicate WhilePlaced(m: Module, ret: Return, vs: Scopes, loops: nat, g: Gen, s: State, stmt: Statement) {
    && Compiled(m) && Fine(g) && Tracks(vs, g) && |vs| > 0 && stmt.kind == WhileS && |stmt.expressions| == 1
    && CheckStmt(m.env, ret, vs, loops, stmt).Just? && Placed(stmt, false) && Coded(m, s.top.fn, GenWhile(m.env, g, stmt))
  }

  lemma {:induction false} WhileSim(m: Module, c: Config, k: nat, fuel: nat, ret: Return, vs: Scopes, loops: nat, g: Gen, s: State, st: Store, stmt: Statement, here: bool)
    returns (k': nat, s': State)
    requires Standing(m, c, k, vs, loops, g, s, st) && Checked(m, ret, vs, loops, g, s, stmt, here) && stmt.kind == WhileS
    ensures StmtDone(m, c, k, fuel, g, s, st, stmt, here, k', s')
    decreases fuel, 1, stmt, 8
  {
    hide Checked, Exec, GenStmt, GenWhile, WhileStages, WhileTest, WhileEnter, CheckStmt, CheckList, Placed, PlacedAll, Coded, Run, At, Compiled, Live, Fine, Executes, ExprsOk, ExprOk, Tracks, StoreOk, Stored, Inside, Settled;
    StmtFacts(m, ret, vs, loops, g, s, stmt, here);
    ControlChecked(m, ret, vs, loops, g, s, stmt, here);
    var s1 := WhileFirst(m, c, k, ret, vs, loops, g, s, st, stmt);
    k', s' := WhileLoop(m, c, k + 1, fuel, ret, vs, loops, g, s1, st, stmt);
    WhileSeen(m, c, k, fuel, ret, vs, loops, g, s, st, stmt, s1, here, k', s');
  }

  /** The jump into the test block. */
  lemma WhileFirst(m: Module, c: Config, k: nat, ret: Return, vs: Scopes, loops: nat, g: Gen, s: State, st: Store, stmt: Statement) returns (s1: State)
    requires Standing(m, c, k, vs, loops, g, s, st) && stmt.kind == WhileS && CheckStmt(m.env, ret, vs, loops, stmt).Just? && Placed(stmt, false)
    requires Coded(m, s.top.fn, GenStmt(m.env, g, stmt))
    ensures WhilePlaced(m, ret, vs, loops, g, s1, stmt) && Point(m, c, k + 1, vs, WhileTest(g), s1, st) && Settled(g, s, g.scopes, s1, st)
  {
    hide Exec, GenStmt, GenWhile, WhileStages, WhileTest, WhileEnter, CheckStmt, CheckList, Placed, PlacedAll, Coded, Run, Compiled, Fine, ExprOk, Tracks, StoreOk, Stored, Inside, Keeps;
    LiveTracks(m.env, vs, g, st, s);
    WhileInside(m.env, ret, vs, loops, g, stmt);
    WhileStmt(m.env, g, stmt);
    WhileCoded(m, s.top.fn, g, stmt);
    WhileJump(m, s.top.fn, g);
    AddPoint(m, c, k, vs, g, s, st, 3);
    s1 := BranchRun(m, c, k, AddBlocks(g, 3), s, |g.code|);
    JumpSettles(g, AddBlocks(g, 3), s, st, s1);
    WhileTestStart(g);
    DestKept(g, s, s1);
    Enters(m, c, k + 1, vs, g, WhileTest(g), s1, st);
  }

  lemma WhileTestStart(g: Gen)
    requires Fine(g)
    ensures var t := WhileTest(g); t.at == |g.code| && t.code[t.at] == [] && Fine(t) && SameLoops(g, t)
  {
    hide Fine, Wip, WhileTest;
    WhileTestStages(g);
  }

  lemma WhileJump(m: Module, fn: string, g: Gen)
    requires Fine(g) && Coded(m, fn, WhileTest(g))
    ensures !Terminated(AddBlocks(g, 3)) && Coded(m, fn, Branch(AddBlocks(g, 3), |g.code|))
  {
    hide Fine, Coded, AddBlocks, Branch;
    AddBlocksShaped(g, 3);
    OpenNotEnded(AddBlocks(g, 3));
    CodedSame(m, fn, WhileTest(g), Branch(AddBlocks(g, 3), |g.code|));
  }

  lemma JumpSettles(g: Gen, a: Gen, s: State, st: Store, s1: State)
    requires Undisturbed(a, s, s1) && g.regs <= a.regs && g.steps <= a.steps && Stored(g.scopes, st.scopes, s.top) && InStep(s, st)
    ensures Settled(g, s, g.scopes, s1, st)
  {
    hide Stored;
    StoredFrame(g.scopes, st.scopes, s.top, s1.top);
  }

  /** A loop run from its test block, seen from the statement's start. */
  lemma WhileSeen(m: Module, c: Config, k: nat, fuel: nat, ret: Return, vs: Scopes, loops: nat, g: Gen, s: State, st: Store, stmt: Statement, s1: State, here: bool, k': nat, s': State)
    requires WhilePlaced(m, ret, vs, loops, g, s1, stmt) && Settled(g, s, g.scopes, s1, st) && Live(m.env, vs, g, st, s)
    requires Executes(m, c, k + 1, fuel, WhileTest(g), s1, GenWhile(m.env, g, stmt), Exec(m.env, fuel, st, stmt), false, k', s')
    ensures StmtDone(m, c, k, fuel, g, s, st, stmt, here, k', s')
  {
    hide Exec, GenStmt, GenWhile, WhileStages, WhileTest, WhileEnter, CheckStmt, CheckList, Placed, PlacedAll, Coded, Run, Compiled, Fine, ExprOk, Tracks, Settled, Live, Executes;
    LiveTracks(m.env, vs, g, st, s);
    WhileInside(m.env, ret, vs, loops, g, stmt);
    WhileStmt(m.env, g, stmt);
    WhileTestStart(g);
    ExecutesTrans(m, c, k, fuel, g, s, g.scopes, WhileTest(g), k + 1, fuel, s1, st, GenWhile(m.env, g, stmt), Exec(m.env, fuel, st, stmt), false, k', s');
    WeakenFlow(m, c, k, fuel, g, s, GenWhile(m.env, g, stmt), Exec(m.env, fuel, st, stmt), here, k', s');
  }

  lemma {:induction false} WhileLoop(m: Module, c: Config, k: nat, fuel: nat, ret: Return, vs: Scopes, loops: nat, g: Gen, s: State, st: Store, stmt: Statement)
    returns (k': nat, s': State)
    requires WhilePlaced(m, ret, vs, loops, g, s, stmt) && Point(m, c, k, vs, WhileTest(g), s, st)
    ensures Executes(m, c, k, fuel, WhileTest(g), s, GenWhile(m.env, g, stmt), Exec(m.env, fuel, st, stmt), false, k', s')
    decreases fuel, 1, stmt, 7
  {
    hide Exec, ExecAll, GenStmt, GenStmts, GenWhile, WhileStages, WhileTest, WhileEnter, WhileHead, WhileBody, CheckStmt, CheckList, Placed, PlacedAll, Coded, Run, At, Compiled, Fine, Executes, ExprOk, Tracks, StoreOk, Stored, Inside, Settled, Live, GenExpr, EvalExpr, BoolValue, Emit, NodeDone, LiveIf, HasType, Moved, Grows, Holds, Undisturbed, Again;
    WhileInside(m.env, ret, vs, loops, g, stmt);
    WhileCoded(m, s.top.fn, g, stmt);
    WhileShape(m.env, fuel, g, st, stmt);
    WhileHeadShape(m.env, g, stmt);
    var n, t, e := |g.code|, WhileTest(g), stmt.expressions[0];
    CodedTest(m, s.top.fn, t, e, n + 1, n + 2);
    var x, r := GenExpr(m.env, t, e), EvalExpr(m.env, fuel, st, e);
    var k1, s1 := ExprSim(m, c, k, fuel, vs, t, s, st, e);
    if !r.Ok? {
      k', s' := k1, s1;
      NodeStops(m, c, k, fuel, t, s, st, e, k1, s1);
      StmtFails(m, c, k, fuel, t, s, GenWhile(m.env, g, stmt), r, Exec(m.env, fuel, st, stmt), false, k1, s1);
    } else {
      NodePoint(m, c, k, fuel, vs, t, s, st, e, k1, s1);
      CondInt(m.env, r.v, e.ty, e.composite);
      LiveTracks(m.env, vs, t, st, s);
      var s2 := TestRun(m, c, k1, x, s1, r.v.n, n + 1, n + 2);
      TestSettles(t, t, s, st, x.g, s1, r.st, s2);
      if r.v.n == 0 {
        k', s' := k1 + 2, s2;
        WhileExit(m, c, k, fuel, ret, vs, loops, g, s, stmt, k1 + 2, s2, r.st);
      } else {
        k', s' := WhileRound(m, c, k, fuel, ret, vs, loops, g, s, stmt, k1 + 2, s2, r.st);
      }
    }
  }

  /** Control has reached the block behind the loop. */
  lemma WhileExit(m: Module, c: Config, k: nat, fuel: nat, ret: Return, vs: Scopes, loops: nat, g: Gen, s: State, stmt: Statement, k2: nat, s2: State, st2: Store)
    requires WhilePlaced(m, ret, vs, loops, g, s, stmt) && k <= k2
    requires Run(m, c, k2) == Running(s2) && Starts(s2.top, |g.code| + 2) && Settled(WhileTest(g), s, WhileTest(g).scopes, s2, st2)
    ensures Executes(m, c, k, fuel, WhileTest(g), s, GenWhile(m.env, g, stmt), Ok(Next, st2), false, k2, s2)
  {
    hide GenWhile, WhileTest, WhileEnter, WhileHead, WhileBody, CheckStmt, CheckList, Placed, PlacedAll, Coded, Run, Compiled, Fine, ExprOk, Tracks, Settled;
    WhileInside(m.env, ret, vs, loops, g, stmt);
    OpenNotEnded(GenWhile(m.env, g, stmt));
  }

  /** One pass through the body and what follows it. */
  lemma {:induction false} WhileRound(m: Module, c: Config, k: nat, fuel: nat, ret: Return, vs: Scopes, loops: nat, g: Gen, s: State, stmt: Statement, k2: nat, s2: State, st2: Store)
    returns (k': nat, s': State)
    requires WhilePlaced(m, ret, vs, loops, g, s, stmt) && k < k2 && StoreOk(m.env, vs, st2)
    requires Run(m, c, k2) == Running(s2) && Starts(s2.top, |g.code| + 1) && Settled(WhileTest(g), s, WhileTest(g).scopes, s2, st2)
    ensures Executes(m, c, k, fuel, WhileTest(g), s, GenWhile(m.env, g, stmt), Again(m.env, fuel, stmt, ExecAll(m.env, fuel, st2, stmt.body)), false, k', s')
    decreases fuel, 1, stmt, 6
  {
    hide Exec, ExecAll, GenStmts, GenWhile, WhileTest, WhileEnter, WhileHead, WhileBody, WhileStages, CheckStmt, CheckList, Placed, PlacedAll, Coded, Run, Compiled, Fine, Executes, ExprOk, Tracks, StoreOk, Stored, Inside, Settled, Live, Keeps, ListDone, Standing, ListChecked;
    var enter, r := WhileEnter(m.env, g, stmt), ExecAll(m.env, fuel, st2, stmt.body);
    WhileBodyPoint(m, c, ret, vs, loops, g, s, stmt, k2, s2, st2);
    var k3, s3 := ListSim(m, c, k2, fuel, ret, vs, loops + 1, enter, s2, st2, stmt.body, false);
    ListExecutes(m, c, k2, fuel, enter, s2, st2, stmt.body, k3, s3);
    if r.Ok? && (r.v.Next? || r.v.Continues?) {
      var k4, s4 := WhileBack(m, c, fuel, ret, vs, loops, g, s, stmt, k2, s2, st2, r, k3, s3);
      if fuel == 0 {
        k', s' := k4, s4;
        StillRunning(m, c, k, WhileTest(g), s, GenWhile(m.env, g, stmt), k4, s4);
      } else {
        k', s' := WhileLoop(m, c, k4, fuel - 1, ret, vs, loops, g, s4, r.st, stmt);
        WhileFurther(m, c, k, fuel, g, s, stmt, k4, s4, r.st, k', s');
      }
    } else {
      k', s' := k3, s3;
      WhileLeft(m, c, k, fuel, ret, vs, loops, g, s, stmt, k2, s2, st2, r, k3, s3);
    }
  }

  lemma StillRunning(m: Module, c: Config, k: nat, t: Gen, s: State, h: Gen, k4: nat, s4: State)
    requires Run(m, c, k4) == Running(s4) && k <= k4
    ensures Executes(m, c, k, 0, t, s, h, Timeout, false, k4, s4)
  {
  }

  /** The start of the body is a point of its own. */
  lemma WhileBodyPoint(m: Module, c: Config, ret: Return, vs: Scopes, loops: nat, g: Gen, s: State, stmt: Statement, k2: nat, s2: State, st2: Store)
    requires WhilePlaced(m, ret, vs, loops, g, s, stmt) && StoreOk(m.env, vs, st2)
    requires Run(m, c, k2) == Running(s2) && Starts(s2.top, |g.code| + 1) && Settled(WhileTest(g), s, WhileTest(g).scopes, s2, st2)
    ensures Standing(m, c, k2, vs, loops + 1, WhileEnter(m.env, g, stmt), s2, st2)
    ensures ListChecked(m, ret, vs, loops + 1, WhileEnter(m.env, g, stmt), s2, stmt.body, false)
  {
    hide GenStmts, GenWhile, WhileTest, WhileEnter, WhileHead, WhileBody, CheckStmt, CheckList, Placed, PlacedAll, Coded, Run, Compiled, Fine, ExprOk, Tracks, StoreOk, Stored, Live, Keeps;
    WhileInside(m.env, ret, vs, loops, g, stmt);
    WhileCoded(m, s.top.fn, g, stmt);
    DestKept(WhileTest(g), s, s2);
    Enters(m, c, k2, vs, g, WhileEnter(m.env, g, stmt), s2, st2);
  }

  /** Around to the test block again. */
  lemma WhileBack(m: Module, c: Config, fuel: nat, ret: Return, vs: Scopes, loops: nat, g: Gen, s: State, stmt: Statement, k2: nat, s2: State, st2: Store, r: R<Flow>, k3: nat, s3: State)
    returns (k4: nat, s4: State)
    requires WhilePlaced(m, ret, vs, loops, g, s, stmt) && Settled(WhileTest(g), s, WhileTest(g).scopes, s2, st2) && StoreOk(m.env, vs, st2)
    requires r == ExecAll(m.env, fuel, st2, stmt.body) && r.Ok? && (r.v.Next? || r.v.Continues?)
    requires Executes(m, c, k2, fuel, WhileEnter(m.env, g, stmt), s2, GenStmts(m.env, WhileEnter(m.env, g, stmt), stmt.body), r, false, k3, s3)
    ensures k4 >= k2 && Run(m, c, k4) == Running(s4) && Settled(WhileTest(g), s, WhileTest(g).scopes, s4, r.st)
    ensures WhilePlaced(m, ret, vs, loops, g, s4, stmt) && Point(m, c, k4, vs, WhileTest(g), s4, r.st)
  {
    hide ExecAll, GenStmts, GenWhile, WhileTest, WhileEnter, WhileHead, WhileBody, CheckStmt, CheckList, Placed, PlacedAll, Coded, Run, Compiled, Fine, Executes, ExprOk, Tracks, StoreOk, Stored, Live, Keeps;
    WhileInside(m.env, ret, vs, loops, g, stmt);
    WhileCoded(m, s.top.fn, g, stmt);
    WhileTestStart(g);
    DestKept(WhileTest(g), s, s2);
    LoopScopes(m, fuel, ret, vs, loops, g, WhileEnter(m.env, g, stmt), st2, stmt);
    var l := WhileBodyEnd(m.env, g, stmt);
    k4, s4 := BodyAround(m, c, fuel, g, WhileEnter(m.env, g, stmt), s2, GenStmts(m.env, WhileEnter(m.env, g, stmt), stmt.body), l, r, k2, k3, s3, |g.code|);
    SettledTrans(WhileTest(g), s, g.scopes, s2, st2, WhileEnter(m.env, g, stmt), g.scopes, s4, r.st);
    DestKept(WhileTest(g), s, s4);
    Enters(m, c, k4, vs, g, WhileTest(g), s4, r.st);
  }

  lemma WhileBodyEnd(w: Env, g: Gen, stmt: Statement) returns (l: Gen)
    requires |stmt.expressions| == 1
    ensures l == LeaveLoop(GenStmts(w, WhileEnter(w, g, stmt), stmt.body), g) && WhileBody(w, g, stmt) == Branch(l, |g.code|)
    ensures var x := GenStmts(w, WhileEnter(w, g, stmt), stmt.body); l.code == x.code && l.at == x.at && l.regs == x.regs && l.steps == x.steps
  {
    hide WhileEnter, Branch, GenStmts;
    l := LeaveLoop(GenStmts(w, WhileEnter(w, g, stmt), stmt.body), g);
  }

  /** Types and scopes at the end of a loop body that did not return. */
  lemma LoopScopes(m: Module, fuel: nat, ret: Return, vs: Scopes, loops: nat, g: Gen, enter: Gen, st: Store, stmt: Statement)
    requires Compiled(m) && |vs| > 0 && StoreOk(m.env, vs, st) && Tracks(vs, g) && Inside(g, enter) && Fine(enter) && enter.breaks != [] && enter.continues != []
    requires CheckList(m.env, ret, vs, loops + 1, stmt.body) == Just(vs) && PlacedAll(stmt.body, false)
    ensures var r := ExecAll(m.env, fuel, st, stmt.body); r.Ok? && !r.v.Returns? ==> StoreOk(m.env, vs, r.st)
    ensures var x := GenStmts(m.env, enter, stmt.body); x.scopes == g.scopes && enter.regs <= x.regs && enter.steps <= x.steps
  {
    hide ExecAll, GenStmts, Tracks, StoreOk, Fine, CheckList, PlacedAll, Compiled, ScopeOk;
    CompiledSane(m);
    ListSound(m.env, fuel, ret, vs, loops + 1, st, stmt.body, false);
    var r := ExecAll(m.env, fuel, st, stmt.body);
    if r.Ok? && (r.v.Breaks? || r.v.Continues?) {
      assert r.st.scopes[..|vs|] == r.st.scopes;
    }
    SegmentTotal(m.env, ret, vs, loops + 1, g, enter, stmt.body, 0);
    SegmentCounts(m.env, enter, stmt.body);
  }

  /** A body that fell through or continued goes on at the loop's own `target`. */
  lemma BodyAround(m: Module, c: Config, fuel: nat, g: Gen, enter: Gen, s2: State, x: Gen, l: Gen, r: R<Flow>, k2: nat, k3: nat, s3: State, target: nat)
    returns (k4: nat, s4: State)
    requires r.Ok? && (r.v.Next? || r.v.Continues?) && Executes(m, c, k2, fuel, enter, s2, x, r, false, k3, s3)
    requires enter.scopes == g.scopes && x.scopes == g.scopes && enter.regs <= l.regs && enter.steps <= l.steps
    requires enter.continues == g.continues + [target] && l.code == x.code && l.at == x.at && Coded(m, s2.top.fn, Branch(l, target))
    ensures k4 >= k3 >= k2 && Run(m, c, k4) == Running(s4) && Starts(s4.top, target) && Settled(enter, s2, g.scopes, s4, r.st)
  {
    hide Run, Coded, Branch, Stored, Keeps;
    if r.v.Next? {
      s4 := SegmentExit(m, c, k3, enter, s2, x, l, r.st, target, s3);
      k4 := k3 + 1;
    } else {
      k4, s4 := k3, s3;
      assert r.st.scopes[..|g.scopes|] == r.st.scopes;
    }
  }

  lemma WhileFurther(m: Module, c: Config, k: nat, fuel: nat, g: Gen, s: State, stmt: Statement, k4: nat, s4: State, st4: Store, k': nat, s': State)
    requires fuel > 0 && k < k4 && Settled(WhileTest(g), s, WhileTest(g).scopes, s4, st4)
    requires |stmt.expressions| == 1
    requires Executes(m, c, k4, fuel - 1, WhileTest(g), s4, GenWhile(m.env, g, stmt), Exec(m.env, fuel - 1, st4, stmt), false, k', s')
    ensures Executes(m, c, k, fuel, WhileTest(g), s, GenWhile(m.env, g, stmt), Exec(m.env, fuel - 1, st4, stmt), false, k', s')
  {
    hide Exec, GenWhile, WhileTest, Run, Executes, Settled;
    ExecutesTrans(m, c, k, fuel, WhileTest(g), s, WhileTest(g).scopes, WhileTest(g), k4, fuel - 1, s4, st4, GenWhile(m.env, g, stmt), Exec(m.env, fuel - 1, st4, stmt), false, k', s');
  }

  /** A body that broke off, returned or failed. */
  lemma WhileLeft(m: Module, c: Config, k: nat, fuel: nat, ret: Return, vs: Scopes, loops: nat, g: Gen, s: State, stmt: Statement, k2: nat, s2: State, st2: Store, r: R<Flow>, k3: nat, s3: State)
    requires WhilePlaced(m, ret, vs, loops, g, s, stmt) && Settled(WhileTest(g), s, WhileTest(g).scopes, s2, st2) && k <= k2
    requires !(r.Ok? && (r.v.Next? || r.v.Continues?))
    requires Executes(m, c, k2, fuel, WhileEnter(m.env, g, stmt), s2, GenStmts(m.env, WhileEnter(m.env, g, stmt), stmt.body), r, false, k3, s3)
    ensures Executes(m, c, k, fuel, WhileTest(g), s, GenWhile(m.env, g, stmt), Again(m.env, fuel, stmt, r), false, k3, s3)
  {
    hide ExecAll, GenStmts, GenWhile, WhileTest, WhileEnter, WhileHead, WhileBody, CheckStmt, CheckList, Placed, PlacedAll, Coded, Run, Compiled, Fine, ExprOk, Tracks, Stored, Keeps, Exec;
    WhileInside(m.env, ret, vs, loops, g, stmt);
    WhileTestStart(g);
    var enter := WhileEnter(m.env, g, stmt);
    if r.Ok? && r.v.Breaks? {
      assert r.st.scopes[..|g.scopes|] == r.st.scopes;
      SettledTrans(WhileTest(g), s, g.scopes, s2, st2, enter, g.scopes, s3, r.st);
      WhileExit(m, c, k, fuel, ret, vs, loops, g, s, stmt, k3, s3, r.st);
    } else if r.Ok? {
      DestKept(WhileTest(g), s, s2);
    }
  }

  // ----- for -----

  /** A `for` loop whose code is in place. */
  ghost predicate ForPlaced(m: Module, ret: Return, vs: Scopes, loops: nat, g: Gen, fn: string, stmt: Statement) {
    && Compiled(m) && Fine(g) && Tracks(vs, g) && |vs| > 0 && stmt.kind == ForS && |stmt.expressions| == 4
    && CheckStmt(m.env, ret, vs, loops, stmt).Just? && Placed(stmt, false) && Coded(m, fn, GenFor(m.env, g, stmt))
    && ForLayout(m.env, g, stmt) && ForCounts(m.env, g, stmt)
  }

  lemma ForIsPlaced(m: Module, c: Config, k: nat, ret: Return, vs: Scopes, loops: nat, g: Gen, s: State, st: Store, stmt: Statement, here: bool)
    requires Standing(m, c, k, vs, loops, g, s, st) && Checked(m, ret, vs, loops, g, s, stmt, here) && stmt.kind == ForS
    ensures ForPlaced(m, ret, vs, loops, g, s.top.fn, stmt) && GenStmt(m.env, g, stmt) == GenFor(m.env, g, stmt)
    ensures Grows(g, ForStart(m.env, g, stmt).g)
  {
    hide GenStmt, GenFor, CheckStmt, Placed, Coded, Run, At, Compiled, Fine, ExprsOk, ExprOk, Tracks, StoreOk, Stored, ForLayout, ForCounts, Grows, Live, ForStart;
    StmtFacts(m, ret, vs, loops, g, s, stmt, here);
    ControlChecked(m, ret, vs, loops, g, s, stmt, here);
    LiveTracks(m.env, vs, g, st, s);
    ForStmt(m.env, g, stmt);
    ForLaidOut(m.env, g, stmt);
    ForInside(m.env, ret, vs, loops, g, stmt);
  }

  lemma ForStmt(w: Env, g: Gen, stmt: Statement)
    requires stmt.kind == ForS && |stmt.expressions| == 4
    ensures GenStmt(w, g, stmt) == GenFor(w, g, stmt)
  {
  }

  lemma ForShape(w: Env, fuel: nat, g: Gen, st: Store, stmt: Statement)
    requires stmt.kind == ForS && |stmt.expressions| == 4
    ensures var x := GenExpr(w, g, stmt.expressions[1]);
            var p := GenPlace(w, x.g, stmt.expressions[0]);
            ForStart(w, g, stmt) == Out(Emit(p.g, StoreTo(x.o, p.o)), p.o)
    ensures var r := EvalExpr(w, fuel, st, stmt.expressions[1]);
            && (!r.Ok? ==> Exec(w, fuel, st, stmt) == r.PropagateFailure())
            && (r.Ok? ==>
                  var q := EvalPlace(w, fuel, r.st, stmt.expressions[0]);
                  && (!q.Ok? ==> Exec(w, fuel, st, stmt) == q.PropagateFailure())
                  && (q.Ok? && Evaluator.Valid(q.st, q.v) ==> Exec(w, fuel, st, stmt) == Iterate(w, fuel, Write(q.st, q.v, r.v), q.v, stmt)))
  {
    hide GenExpr, GenPlace, EvalExpr, EvalPlace, Valid, Write, Iterate, Emit;
  }

  lemma {:induction false} ForSim(m: Module, c: Config, k: nat, fuel: nat, ret: Return, vs: Scopes, loops: nat, g: Gen, s: State, st: Store, stmt: Statement, here: bool)
    returns (k': nat, s': State)
    requires Standing(m, c, k, vs, loops, g, s, st) && Checked(m, ret, vs, loops, g, s, stmt, here) && stmt.kind == ForS
    ensures StmtDone(m, c, k, fuel, g, s, st, stmt, here, k', s')
    decreases fuel, 1, stmt, 8
  {
    hide Checked, ForPlaced, Coded, GenStmt, GenFor, Exec, Run, Fine, Executes, ExprsOk, ExprOk, Compiled, At, GenExpr, GenPlace, EvalExpr, EvalPlace, Live, Locates, LiveIf, StoreOk, HasType, PlaceTyped, Emit, Valid, Write, NodeDone, Moved, Grows, Holds, Iterate, ForStart, OperandsOk, InLoops;
    StmtFacts(m, ret, vs, loops, g, s, stmt, here);
    ForIsPlaced(m, c, k, ret, vs, loops, g, s, st, stmt, here);
    ForOperands(m.env, ret, vs, loops, stmt);
    ForShape(m.env, fuel, g, st, stmt);
    ForStartCoded(m, ret, vs, loops, g, s.top.fn, stmt);
    var a, b, h := stmt.expressions[0], stmt.expressions[1], GenFor(m.env, g, stmt);
    var x, r := GenExpr(m.env, g, b), EvalExpr(m.env, fuel, st, b);
    StoreCoded(m, s.top.fn, x, a, x.o);
    var k1, s1 := ExprSim(m, c, k, fuel, vs, g, s, st, b);
    if !r.Ok? {
      k', s' := k1, s1;
      NodeStops(m, c, k, fuel, g, s, st, b, k1, s1);
      StmtFails(m, c, k, fuel, g, s, h, r, Exec(m.env, fuel, st, stmt), here, k1, s1);
    } else {
      NodePoint(m, c, k, fuel, vs, g, s, st, b, k1, s1);
      var q := EvalPlace(m.env, fuel, r.st, a);
      var k2, s2 := PlaceSim(m, c, k1, fuel, vs, x.g, s1, r.st, a);
      if !q.Ok? {
        k', s' := k2, s2;
        PlaceStops(m, c, k, fuel, x.g, s1, r.st, a, q, k1, k2, s2);
        StmtFails(m, c, k, fuel, g, s, h, q, Exec(m.env, fuel, st, stmt), here, k2, s2);
      } else {
        k', s' := ForEnters(m, c, k, fuel, ret, vs, loops, g, s, st, stmt, x, r.v, k1, s1, r.st, q, k2, s2, here);
      }
    }
  }

  lemma PlaceStops(m: Module, c: Config, k: nat, fuel: nat, g: Gen, s: State, st: Store, e: Expression, q: R<Place>, k1: nat, k2: nat, s2: State)
    requires Locates(m, c, k1, fuel, g, s, st, GenPlace(m.env, g, e), q, k2, s2) && k <= k1
    ensures Stops(m, c, k, fuel, q, k2)
  {
    hide GenPlace, Run;
  }

  lemma ForOperands(w: Env, ret: Return, vs: Scopes, loops: nat, stmt: Statement)
    requires stmt.kind == ForS && OperandsOk(w, ret, loops, stmt) && ExprsOk(w, vs, stmt.expressions)
    ensures |stmt.expressions| == 4 && Assignable(stmt.expressions[0]) && stmt.expressions[0].ty == Int32 && stmt.expressions[1].ty == Int32
    ensures stmt.expressions[2].ty == Int32 && stmt.expressions[3].ty == Int32
    ensures ExprOk(w, vs, stmt.expressions[0]) && ExprOk(w, vs, stmt.expressions[1]) && ExprOk(w, vs, stmt.expressions[2]) && ExprOk(w, vs, stmt.expressions[3])
  {
    hide ExprOk;
  }

  lemma ForStartCoded(m: Module, ret: Return, vs: Scopes, loops: nat, g: Gen, fn: string, stmt: Statement)
    requires ForPlaced(m, ret, vs, loops, g, fn, stmt)
    ensures Coded(m, fn, ForStart(m.env, g, stmt).g)
  {
    hide Coded, ForStart, ForCounts, CheckStmt, Placed, Fine, Tracks, Compiled, ForLayout, GenFor, ForEntry;
    ForCoded(m, fn, g, stmt);
    ForEntryCoded(m, fn, g, stmt);
  }

  /** The start value is stored; the counter's address stays in its operand. */
  lemma ForStored(m: Module, c: Config, vs: Scopes, g: Gen, s: State, st: Store, x: Out, a: Expression, v: Value, k1: nat, s1: State, st1: Store, q: R<Place>, k2: nat, s2: State)
    returns (s': State)
    requires Live(m.env, vs, g, st, s) && Grows(g, x.g) && Moved(g, s, st, x.g, s1, st1) && Holds(s1, x.o, v) && Below(x.o, x.g.regs)
    requires q.Ok? && Arrives(m, c, x.g, s1, st1, GenPlace(m.env, x.g, a).g, q.st, k2, s2) && HoldsPlace(x.g.scopes, s2, GenPlace(m.env, x.g, a).o, q.v)
    requires StoreOk(m.env, vs, q.st) && PlaceOk(m.env, vs, q.v, a.ty, a.composite) && HasType(m.env, v, a.ty, a.composite)
    requires var p := GenPlace(m.env, x.g, a); Coded(m, s.top.fn, Emit(p.g, StoreTo(x.o, p.o)))
    ensures Evaluator.Valid(q.st, q.v)
    ensures var p := GenPlace(m.env, x.g, a);
            && Landed(m, c, g, s, Emit(p.g, StoreTo(x.o, p.o)), Write(q.st, q.v, v), k2 + 1, s') && HoldsPlace(g.scopes, s', p.o, q.v)
  {
    hide Coded, GenPlace, Run, Grows, Stored, StoreOk, PlaceOk, Emit, Valid, Write, HoldsPlace, Holds, Moved, At, Agree, Separate, HasType, GlobalsOk;
    var p := GenPlace(m.env, x.g, a);
    WriteOk(m.env, vs, q.st, q.v, a.ty, a.composite, v);
    OkGlobals(m.env, vs, Write(q.st, q.v, v));
    PlaceGrows(m.env, x.g, a);
    GrowsTrans(g, x.g, p.g);
    GrowCounts(g, x.g);
    GrowCounts(g, p.g);
    MovedTrans(g, s, st, x.g, s1, st1, p.g, s2, q.st);
    MovedKeeps(x.g, s1, st1, p.g, s2, q.st);
    KeptOperand(x.g, s1, s2, x.o, v);
    s' := ForWritten(m, c, vs, g, s, st, p.g, k2, s2, q.st, x.o, p.o, q.v, v);
    PlaceBelow(m.env, x.g, a);
    KeptPlace(p.g, g.scopes, s2, s', p.o, q.v);
  }

  lemma ForWritten(m: Module, c: Config, vs: Scopes, g: Gen, s: State, st: Store, h: Gen, k1: nat, s1: State, st1: Store, o: Operand, a: Operand, p: Place, v: Value)
    returns (s': State)
    requires Live(m.env, vs, g, st, s) && Grows(g, h) && Evaluator.Valid(st1, p) && Run(m, c, k1) == Running(s1) && Moved(g, s, st, h, s1, st1)
    requires GlobalsOk(m.env, Write(st1, p, v))
    requires Coded(m, s.top.fn, Emit(h, StoreTo(o, a))) && Holds(s1, o, v) && HoldsPlace(g.scopes, s1, a, p)
    ensures Landed(m, c, g, s, Emit(h, StoreTo(o, a)), Write(st1, p, v), k1 + 1, s') && Keeps(h, s1.top, s'.top)
  {
    hide Run, Coded, Stored, Agree, Separate, Valid, Write, Grows, Keeps, HoldsPlace, StoreOk, At, Emit, Holds, GlobalsOk;
    MovedSettled(g, s, st, h, s1, st1);
    GrowCounts(g, h);
    DestKept(g, s, s1);
    EmitScopes(h, StoreTo(o, a));
    s' := StoreRun(m, c, k1, g.slots, g.scopes, h, s1, st1, o, a, p, v);
    SettledTrans(g, s, g.scopes, s1, st1, h, g.scopes, s', Write(st1, p, v));
  }

  /** Before each test: the counter's address is at hand and the states match. */
  ghost predicate ForPoint(m: Module, c: Config, k: nat, vs: Scopes, g: Gen, s: State, st: Store, stmt: Statement, p: Place)
    requires |stmt.expressions| == 4
  {
    && Point(m, c, k, vs, ForFirst(m.env, g, stmt), s, st) && HoldsPlace(g.scopes, s, ForStart(m.env, g, stmt).o, p)
    && PlaceOk(m.env, vs, p, Int32, stmt.expressions[0].composite)
  }

  lemma {:induction false} ForEnters(m: Module, c: Config, k: nat, fuel: nat, ret: Return, vs: Scopes, loops: nat, g: Gen, s: State, st: Store, stmt: Statement,
                                     x: Out, v: Value, k1: nat, s1: State, st1: Store, q: R<Place>, k2: nat, s2: State, here: bool) returns (k': nat, s': State)
    requires ForPlaced(m, ret, vs, loops, g, s.top.fn, stmt) && Live(m.env, vs, g, st, s) && Grows(g, ForStart(m.env, g, stmt).g) && k <= k1 && stmt.expressions[0].ty == Int32
    requires x == GenExpr(m.env, g, stmt.expressions[1]) && Grows(g, x.g) && Moved(g, s, st, x.g, s1, st1) && Holds(s1, x.o, v) && Below(x.o, x.g.regs)
    requires var a := stmt.expressions[0];
             && Locates(m, c, k1, fuel, x.g, s1, st1, GenPlace(m.env, x.g, a), q, k2, s2) && PlaceTyped(m.env, vs, q, a) && q.Ok?
    requires HasType(m.env, v, Int32, stmt.expressions[1].composite)
    requires Evaluator.Valid(q.st, q.v) ==> Exec(m.env, fuel, st, stmt) == Iterate(m.env, fuel, Write(q.st, q.v, v), q.v, stmt)
    requires var p := GenPlace(m.env, x.g, stmt.expressions[0]);
             ForStart(m.env, g, stmt) == Out(Emit(p.g, StoreTo(x.o, p.o)), p.o) && Coded(m, s.top.fn, ForStart(m.env, g, stmt).g)
    ensures StmtDone(m, c, k, fuel, g, s, st, stmt, here, k', s')
    decreases fuel, 1, stmt, 7
  {
    hide Coded, GenStmt, GenFor, GenExpr, GenPlace, Exec, Run, Fine, Executes, Live, StoreOk, HasType, Emit, Valid, Write, Moved, Grows, Holds, Iterate, ForStart, ForLayout, ForCounts, ForFirst, CheckStmt, Placed, Compiled, Tracks, HoldsPlace, PlaceOk, At, StmtDone, Settled, ForPoint;
    var start := ForStart(m.env, g, stmt);
    IntType(m.env, v, stmt.expressions[1].composite, stmt.expressions[0].composite);
    var s3 := ForStored(m, c, vs, g, s, st, x, stmt.expressions[0], v, k1, s1, st1, q, k2, s2);
    ForWriteOk(m.env, vs, q.st, q.v, v, stmt);
    var st3 := Write(q.st, q.v, v);
    var s4 := ForFirstPoint(m, c, ret, vs, loops, g, s, stmt, k2 + 1, s3, st3, q.v);
    k', s' := IterateSim(m, c, k2 + 2, fuel, ret, vs, loops, g, s4, st3, stmt, q.v);
    ForSeen(m, c, k, fuel, ret, vs, loops, g, s, st, stmt, k2 + 2, s4, st3, q.v, here, k', s');
  }

  lemma IntType(w: Env, v: Value, a: string, b: string)
    requires HasType(w, v, Int32, a)
    ensures HasType(w, v, Int32, b)
  {
  }

  lemma ForWriteOk(w: Env, vs: Scopes, st: Store, p: Place, v: Value, stmt: Statement)
    requires StoreOk(w, vs, st) && |stmt.expressions| == 4 && PlaceOk(w, vs, p, stmt.expressions[0].ty, stmt.expressions[0].composite) && stmt.expressions[0].ty == Int32
    requires HasType(w, v, Int32, stmt.expressions[1].composite) && Evaluator.Valid(st, p)
    ensures StoreOk(w, vs, Write(st, p, v))
  {
    hide StoreOk, PlaceOk, Write, Valid;
    assert HasType(w, v, Int32, stmt.expressions[0].composite);
    WriteOk(w, vs, st, p, Int32, stmt.expressions[0].composite, v);
  }

  /** The jump into the test block. */
  lemma ForFirstPoint(m: Module, c: Config, ret: Return, vs: Scopes, loops: nat, g: Gen, s: State, stmt: Statement, k: nat, s3: State, st3: Store, p: Place) returns (s4: State)
    requires ForPlaced(m, ret, vs, loops, g, s.top.fn, stmt) && Grows(g, ForStart(m.env, g, stmt).g) && StoreOk(m.env, vs, st3)
    requires Landed(m, c, g, s, ForStart(m.env, g, stmt).g, st3, k, s3) && HoldsPlace(g.scopes, s3, ForStart(m.env, g, stmt).o, p)
    requires PlaceOk(m.env, vs, p, Int32, stmt.expressions[0].composite)
    ensures ForPoint(m, c, k + 1, vs, g, s4, st3, stmt, p) && Settled(g, s, g.scopes, s4, st3) && s4.top.fn == s.top.fn
  {
    hide Coded, GenFor, Run, Fine, StoreOk, Grows, ForStart, ForEntry, ForBlock, CheckStmt, Placed, Compiled, Tracks, HoldsPlace, PlaceOk, Stored, Keeps, ForEnter, ForBody, ForHead, ForTest, ForAdvance, Ext;
    DestKept(g, s, s3);
    var n, start := ForBlock(m.env, g, stmt), ForStart(m.env, g, stmt);
    var a := AddBlocks(start.g.(steps := start.g.steps + 1), 4);
    ForJumpCoded(m, ret, vs, loops, g, s.top.fn, stmt);
    s4 := BranchRun(m, c, k, a, s3, n);
    UndisturbedSettles(g, s, g.scopes, s3, st3, a, s4);
    DestKept(g, s, s4);
    ForHoldsStill(a, g.scopes, s3, s4, start.o, p);
    Enters(m, c, k + 1, vs, g, ForFirst(m.env, g, stmt), s4, st3);
  }

  lemma ForHoldsStill(a: Gen, bs: Bindings, s: State, s': State, o: Operand, p: Place)
    requires Undisturbed(a, s, s') && HoldsPlace(bs, s, o, p) && Below(o, a.regs)
    ensures HoldsPlace(bs, s', o, p)
  {
    KeptPlace(a, bs, s, s', o, p);
  }

  /** The jump from the start code to the empty test block is in place. */
  ghost predicate JumpReady(m: Module, fn: string, start: Gen, n: nat, first: Gen) {
    var a := AddBlocks(start.(steps := start.steps + 1), 4);
    && !Terminated(a) && Coded(m, fn, Branch(a, n)) && a.code[a.at] == start.code[start.at] && a.at == start.at
    && a.regs == start.regs && a.steps == start.steps + 1 && first.at == n && first.code[first.at] == []
  }

  lemma ForJumpCoded(m: Module, ret: Return, vs: Scopes, loops: nat, g: Gen, fn: string, stmt: Statement)
    requires ForPlaced(m, ret, vs, loops, g, fn, stmt) && Grows(g, ForStart(m.env, g, stmt).g)
    ensures JumpReady(m, fn, ForStart(m.env, g, stmt).g, ForBlock(m.env, g, stmt), ForFirst(m.env, g, stmt))
  {
    hide Coded, ForStart, ForCounts, CheckStmt, Placed, Tracks, Compiled, GenFor, Grows, Fine, ForHead, ForEnter, ForBody, ForTest, ForAdvance, Ext, Branch, ForLast;
    var start := ForStart(m.env, g, stmt).g;
    var a := AddBlocks(start.(steps := start.steps + 1), 4);
    ForCoded(m, fn, g, stmt);
    StartFine(g, start);
    assert a.code[a.at] == start.code[start.at];
  }

  lemma StartFine(g: Gen, start: Gen)
    requires Fine(g) && Grows(g, start)
    ensures !Terminated(start)
  {
    OpenNotEnded(start);
  }

  /** A loop run from its test block, seen from the statement's start. */
  lemma ForSeen(m: Module, c: Config, k: nat, fuel: nat, ret: Return, vs: Scopes, loops: nat, g: Gen, s: State, st: Store, stmt: Statement, k4: nat, s4: State, st4: Store, p: Place, here: bool, k': nat, s': State)
    requires ForPlaced(m, ret, vs, loops, g, s.top.fn, stmt) && Live(m.env, vs, g, st, s) && Settled(g, s, g.scopes, s4, st4) && k <= k4
    requires Grows(g, ForStart(m.env, g, stmt).g)
    requires Executes(m, c, k4, fuel, ForStart(m.env, g, stmt).g, s4, GenFor(m.env, g, stmt), Iterate(m.env, fuel, st4, p, stmt), false, k', s')
    requires Exec(m.env, fuel, st, stmt) == Iterate(m.env, fuel, st4, p, stmt)
    ensures StmtDone(m, c, k, fuel, g, s, st, stmt, here, k', s')
  {
    hide Coded, GenStmt, GenFor, Exec, Run, Fine, Executes, Live, Grows, Iterate, ForStart, ForLayout, ForCounts, CheckStmt, Placed, Compiled, Tracks, Settled;
    LiveTracks(m.env, vs, g, st, s);
    ForStmt(m.env, g, stmt);
    GrowCounts(g, ForStart(m.env, g, stmt).g);
    ExecutesTrans(m, c, k, fuel, g, s, g.scopes, ForStart(m.env, g, stmt).g, k4, fuel, s4, st4, GenFor(m.env, g, stmt), Iterate(m.env, fuel, st4, p, stmt), false, k', s');
    WeakenFlow(m, c, k, fuel, g, s, GenFor(m.env, g, stmt), Iterate(m.env, fuel, st4, p, stmt), here, k', s');
  }

  // One test of a `for`: counter, step, end and direction, in that order.

  /** What a `for` does after its body, with the step of its last test. */
  function Onward(w: Env, fuel: nat, p: Place, stmt: Statement, n: int, r: R<Flow>): R<Flow>
    requires |stmt.expressions| == 4
  {
    if !r.Ok? then r
    else if r.v.Breaks? then Ok(Next, r.st)
    else if r.v.Returns? then r
    else if !Evaluator.Valid(r.st, p) || !Read(r.st, p).I? then Wrong
    else if fuel == 0 then Timeout
    else Iterate(w, fuel - 1, Write(r.st, p, I(Wrap32(Read(r.st, p).n + n))), p, stmt)
  }

  /** The rest of a test once counter and step are known. */
  function Tested(w: Env, fuel: nat, p: Place, stmt: Statement, i: int, n: int, end: R<Value>): R<Flow>
    requires |stmt.expressions| == 4
  {
    if !end.Ok? then end.PropagateFailure()
    else if !end.v.I? then Wrong
    else if !Continue(n, i, end.v.n) then Ok(Next, end.st)
    else Onward(w, fuel, p, stmt, n, ExecAll(w, fuel, end.st, stmt.body))
  }

  lemma IterateShape(w: Env, fuel: nat, st: Store, p: Place, stmt: Statement, i: int)
    requires |stmt.expressions| == 4 && Evaluator.Valid(st, p) && Read(st, p) == I(i)
    ensures var r := EvalExpr(w, fuel, st, stmt.expressions[2]);
            && (!r.Ok? ==> Iterate(w, fuel, st, p, stmt) == r.PropagateFailure())
            && (r.Ok? && r.v == I(0) ==> Iterate(w, fuel, st, p, stmt) == Evaluator.Fails(ZeroStep, r.st))
            && (r.Ok? && r.v.I? && r.v.n != 0 ==>
                  Iterate(w, fuel, st, p, stmt) == Tested(w, fuel, p, stmt, i, r.v.n, EvalExpr(w, fuel, r.st, stmt.expressions[3])))
  {
    hide EvalExpr, Valid, Read, ExecAll, Write, Continue;
  }

  lemma {:induction false} IterateSim(m: Module, c: Config, k: nat, fuel: nat, ret: Return, vs: Scopes, loops: nat, g: Gen, s: State, st: Store, stmt: Statement, p: Place)
    returns (k': nat, s': State)
    requires ForPlaced(m, ret, vs, loops, g, s.top.fn, stmt) && ForPoint(m, c, k, vs, g, s, st, stmt, p)
    ensures Executes(m, c, k, fuel, ForStart(m.env, g, stmt).g, s, GenFor(m.env, g, stmt), Iterate(m.env, fuel, st, p, stmt), false, k', s')
    decreases fuel, 1, stmt, 6
  {
    hide Coded, GenFor, GenExpr, EvalExpr, Run, Fine, Executes, Live, StoreOk, HasType, Emit, Valid, Read, Write, Moved, Grows, Holds, Iterate, ForStart, ForLayout, ForCounts, ForFirst, ForSlot, ForBlock, CheckStmt, Placed, Compiled, Tracks, HoldsPlace, PlaceOk, At, Def, NodeDone, LiveIf, Tested, ForPlaced, ForPoint, StepTail, Settled, Loaded1;
    ForOperandsOf(m, ret, vs, loops, g, s.top.fn, stmt);
    var start, first, e := ForStart(m.env, g, stmt), ForFirst(m.env, g, stmt), stmt.expressions[2];
    var i, s1 := CounterRun(m, c, k, ret, vs, loops, g, s, st, stmt, p);
    IterateShape(m.env, fuel, st, p, stmt, i);
    var current := Def(first, Load(first.regs, start.o));
    var x, r := GenExpr(m.env, current.g, e), EvalExpr(m.env, fuel, st, e);
    var k2, s2 := ExprSim(m, c, k + 1, fuel, vs, current.g, s1, st, e);
    if !r.Ok? {
      k', s' := k2, s2;
      NodeStops(m, c, k + 1, fuel, current.g, s1, st, e, k2, s2);
      StopsLater(m, c, k, fuel, r, k + 1, k2);
      StmtFails(m, c, k, fuel, start.g, s, GenFor(m.env, g, stmt), r, Iterate(m.env, fuel, st, p, stmt), false, k2, s2);
    } else {
      NodePoint(m, c, k + 1, fuel, vs, current.g, s1, st, e, k2, s2);
      IntOf(m.env, r.v, e.composite);
      k', s' := IterateStep(m, c, k, fuel, ret, vs, loops, g, s, st, stmt, p, i, s1, k2, s2, r.st, r.v.n);
    }
  }

  lemma IntOf(w: Env, v: Value, composite: string)
    requires HasType(w, v, Int32, composite)
    ensures v.I? && InInt32(v.n)
  {
  }

  lemma ForOperandsOf(m: Module, ret: Return, vs: Scopes, loops: nat, g: Gen, fn: string, stmt: Statement)
    requires ForPlaced(m, ret, vs, loops, g, fn, stmt)
    ensures |stmt.expressions| == 4 && ForLayout(m.env, g, stmt) && stmt.expressions[2].ty == Int32 && stmt.expressions[3].ty == Int32
    ensures ExprOk(m.env, vs, stmt.expressions[2]) && ExprOk(m.env, vs, stmt.expressions[3])
    ensures CheckList(m.env, ret, vs, loops + 1, stmt.body) == Just(vs) && PlacedAll(stmt.body, false)
  {
    hide ExprOk, ForLayout, ForCounts, Fine, Tracks, Compiled, Coded, GenFor;
    ForParts(m.env, ret, vs, loops, stmt, false);
  }

  /** The counter is loaded; the state before the step expression. */
  ghost predicate Loaded1(m: Module, c: Config, k: nat, vs: Scopes, g: Gen, s: State, st: Store, stmt: Statement, i: int, s1: State)
    requires |stmt.expressions| == 4
  {
    var start, first := ForStart(m.env, g, stmt), ForFirst(m.env, g, stmt);
    var current := Def(first, Load(first.regs, start.o));
    && Run(m, c, k + 1) == Running(s1) && Moved(first, s, st, current.g, s1, st) && Holds(s1, current.o, I(i))
  }

  lemma CounterRun(m: Module, c: Config, k: nat, ret: Return, vs: Scopes, loops: nat, g: Gen, s: State, st: Store, stmt: Statement, p: Place) returns (i: int, s1: State)
    requires ForPlaced(m, ret, vs, loops, g, s.top.fn, stmt) && ForPoint(m, c, k, vs, g, s, st, stmt, p)
    ensures ForLayout(m.env, g, stmt) && Evaluator.Valid(st, p) && Read(st, p) == I(i)
    ensures var start, first := ForStart(m.env, g, stmt), ForFirst(m.env, g, stmt);
            var current := Def(first, Load(first.regs, start.o));
            && Loaded1(m, c, k, vs, g, s, st, stmt, i, s1) && Point(m, c, k + 1, vs, current.g, s1, st) && s1.top.fn == s.top.fn
            && Coded(m, s.top.fn, GenExpr(m.env, current.g, stmt.expressions[2]).g)
  {
    hide Coded, GenFor, GenExpr, Run, Fine, StoreOk, Grows, Holds, ForStart, ForFirst, ForSlot, ForBlock, CheckStmt, Placed, Compiled, PlaceOk, Def, ForTest, ForStep, Stored, Tracks, ForHead, ForEnter, ForBody, ForAdvance, ForLast, ForEntry, Ext, Moved, At, Valid, Read, Addr, Computes;
    var start, first := ForStart(m.env, g, stmt), ForFirst(m.env, g, stmt);
    ForCoded(m, s.top.fn, g, stmt);
    ForTestCoded(m, s.top.fn, first, stmt, start.o, ForSlot(m.env, g, stmt), ForBlock(m.env, g, stmt));
    ReadOk(m.env, vs, st, p, Int32, stmt.expressions[0].composite);
    LoadPlace(g.scopes, st, s.top, p);
    ReadInt(m.env, st, p, stmt.expressions[0].composite);
    i := Read(st, p).n;
    s1 := LoadStep(m, c, k, first, s, st, start.o, Addr(g.scopes, p), I(i));
    UpdatePoint(m, c, k + 1, vs, first, s, st, first, Load(first.regs, start.o), s1, st);
  }

  lemma ReadInt(w: Env, st: Store, p: Place, composite: string)
    requires Evaluator.Valid(st, p) && HasType(w, Read(st, p), Int32, composite)
    ensures Read(st, p).I?
  {
    hide Read;
  }

  lemma LoadStep(m: Module, c: Config, k: nat, g: Gen, s: State, st: Store, o: Operand, a: Pointer, v: Value) returns (s1: State)
    requires Reached(m, c, k, g, s) && Coded(m, s.top.fn, Def(g, Load(g.regs, o)).g) && InStep(s, st)
    requires Holds(s, o, P(a)) && LoadFrom(s.top, s.globals, a) == Cell(v)
    ensures var x := Def(g, Load(g.regs, o));
            Run(m, c, k + 1) == Running(s1) && Moved(g, s, st, x.g, s1, st) && Holds(s1, x.o, v) && Grows(g, g)
  {
    hide Coded, Run, LoadFrom, Def, Holds, Grows;
    Chains(g);
    s1 := LoadSim(m, c, k, g, s, o, a, v);
    Nowhere(g, s, st);
    ComputesMoves(m, c, g, s, st, g, s, st, Def(g, Load(g.regs, o)), v, k + 1, s1);
  }

  /** Everything the loop needs to remember since the start of a test. */
  ghost predicate Testing(m: Module, g: Gen, s: State, stmt: Statement, s3: State, st3: Store, n: int)
    requires |stmt.expressions| == 4
  {
    Settled(ForStart(m.env, g, stmt).g, s, g.scopes, s3, st3) && StepHeld(s3, ForSlot(m.env, g, stmt), n)
  }

  lemma {:induction false} IterateStep(m: Module, c: Config, k: nat, fuel: nat, ret: Return, vs: Scopes, loops: nat, g: Gen, s: State, st: Store, stmt: Statement, p: Place,
                                       i: int, s1: State, k2: nat, s2: State, st2: Store, n: int) returns (k': nat, s': State)
    requires ForPlaced(m, ret, vs, loops, g, s.top.fn, stmt) && ForPoint(m, c, k, vs, g, s, st, stmt, p) && Loaded1(m, c, k, vs, g, s, st, stmt, i, s1)
    requires k < k2
    requires var start, first := ForStart(m.env, g, stmt), ForFirst(m.env, g, stmt);
             var current := Def(first, Load(first.regs, start.o));
             var x := GenExpr(m.env, current.g, stmt.expressions[2]);
             && Point(m, c, k2, vs, x.g, s2, st2) && Moved(current.g, s1, st, x.g, s2, st2) && Holds(s2, x.o, I(n)) && Grows(current.g, x.g) && Below(x.o, x.g.regs)
    requires n == 0 ==> Iterate(m.env, fuel, st, p, stmt) == Evaluator.Fails(ZeroStep, st2)
    requires n != 0 ==> Iterate(m.env, fuel, st, p, stmt) == Tested(m.env, fuel, p, stmt, i, n, EvalExpr(m.env, fuel, st2, stmt.expressions[3]))
    ensures Executes(m, c, k, fuel, ForStart(m.env, g, stmt).g, s, GenFor(m.env, g, stmt), Iterate(m.env, fuel, st, p, stmt), false, k', s')
    decreases fuel, 1, stmt, 5
  {
    hide Coded, GenFor, GenExpr, EvalExpr, Run, Fine, Live, StoreOk, Moved, Grows, Holds, Iterate, Tested, ForStart, ForLayout, ForCounts, ForFirst, ForSlot, ForBlock, CheckStmt, Placed, Compiled, Tracks, HoldsPlace, PlaceOk, At, Def, Loaded1, Testing, StepTail, ForPoint, ForStep, ExprOk;
    var start, first, slot := ForStart(m.env, g, stmt), ForFirst(m.env, g, stmt), ForSlot(m.env, g, stmt);
    var current := Def(first, Load(first.regs, start.o));
    var x := GenExpr(m.env, current.g, stmt.expressions[2]);
    StepPlaced(m, ret, vs, loops, g, s, stmt);
    MovedFrom(m, c, k, vs, g, s, st, stmt, i, s1, s2, st2, x);
    var s3 := StepRun(m, c, k2, x, s2, n, slot);
    if n == 0 {
      k', s' := k2 + 3, s3;
      LiveInStep(m.env, vs, x.g, st2, s2);
    } else {
      StepPoint(m, c, k, ret, vs, loops, g, s, st, stmt, p, i, s1, k2, s2, st2, n, s3);
      k', s' := IterateEnd(m, c, k, fuel, ret, vs, loops, g, s, st, stmt, p, i, n, k2 + 3, s3, st2);
    }
  }

  /** The step's tail is in place, and the step slot is allocated. */
  lemma StepPlaced(m: Module, ret: Return, vs: Scopes, loops: nat, g: Gen, s: State, stmt: Statement)
    requires ForPlaced(m, ret, vs, loops, g, s.top.fn, stmt)
    ensures var start, first, slot := ForStart(m.env, g, stmt), ForFirst(m.env, g, stmt), ForSlot(m.env, g, stmt);
            var current := Def(first, Load(first.regs, start.o));
            var x := GenExpr(m.env, current.g, stmt.expressions[2]);
            && ForStep(m.env, current.g, stmt, slot) == Out(StepTail(x, slot), x.o) && Coded(m, s.top.fn, StepTail(x, slot)) && slot < x.g.steps
            && Grows(first, current.g) && Grows(current.g, x.g)
  {
    hide Coded, GenFor, GenExpr, Fine, ForStart, ForSlot, ForBlock, CheckStmt, Placed, Compiled, Tracks, Def, ForTest, ForHead, ForEnter, ForBody, ForAdvance, ForLast, ForEntry, Ext, ForFirst, Sealed, Grows, Inside;
    var start, first, slot := ForStart(m.env, g, stmt), ForFirst(m.env, g, stmt), ForSlot(m.env, g, stmt);
    var current := Def(first, Load(first.regs, start.o));
    var x := GenExpr(m.env, current.g, stmt.expressions[2]);
    ForCoded(m, s.top.fn, g, stmt);
    ForTestCoded(m, s.top.fn, first, stmt, start.o, slot, ForBlock(m.env, g, stmt));
    ForStepIs(m.env, current.g, stmt, slot);
    ExprGrows(m.env, current.g, stmt.expressions[2]);
    GrowCounts(first, current.g);
    GrowCounts(current.g, x.g);
  }

  lemma ForStepIs(w: Env, g: Gen, stmt: Statement, slot: nat)
    requires |stmt.expressions| == 4
    ensures var x := GenExpr(w, g, stmt.expressions[2]); ForStep(w, g, stmt, slot) == Out(StepTail(x, slot), x.o)
  {
    hide GenExpr;
  }

  /** Before the step is checked: function and surroundings as at the start of the test. */
  lemma MovedFrom(m: Module, c: Config, k: nat, vs: Scopes, g: Gen, s: State, st: Store, stmt: Statement, i: int, s1: State, s2: State, st2: Store, x: Out)
    requires |stmt.expressions| == 4 && Loaded1(m, c, k, vs, g, s, st, stmt, i, s1)
    requires var start, first := ForStart(m.env, g, stmt), ForFirst(m.env, g, stmt);
             var current := Def(first, Load(first.regs, start.o));
             Grows(first, current.g) && Moved(current.g, s1, st, x.g, s2, st2)
    ensures Moved(ForFirst(m.env, g, stmt), s, st, x.g, s2, st2) && s2.top.fn == s.top.fn
    ensures Holds(s2, Reg(ForFirst(m.env, g, stmt).regs), I(i))
  {
    hide ForFirst, ForStart, Run, Grows;
    var start, first := ForStart(m.env, g, stmt), ForFirst(m.env, g, stmt);
    var current := Def(first, Load(first.regs, start.o));
    MovedTrans(first, s, st, current.g, s1, st, x.g, s2, st2);
    KeptOperand(current.g, s1, s2, current.o, I(i));
  }

  /** The step has been saved; the state before the end expression. */
  ghost predicate Stepped(m: Module, c: Config, k3: nat, vs: Scopes, g: Gen, s: State, stmt: Statement, i: int, n: int, s3: State, st3: Store)
    requires |stmt.expressions| == 4
  {
    var start, first, slot := ForStart(m.env, g, stmt), ForFirst(m.env, g, stmt), ForSlot(m.env, g, stmt);
    var current := Def(first, Load(first.regs, start.o));
    var step := ForStep(m.env, current.g, stmt, slot);
    && Testing(m, g, s, stmt, s3, st3, n) && Point(m, c, k3, vs, step.g, s3, st3) && s3.top.fn == s.top.fn
    && Holds(s3, current.o, I(i)) && Holds(s3, step.o, I(n)) && Below(current.o, step.g.regs) && Below(step.o, step.g.regs) && slot < step.g.steps
    && start.g.regs <= step.g.regs && start.g.steps <= step.g.steps
  }

  lemma StepPoint(m: Module, c: Config, k: nat, ret: Return, vs: Scopes, loops: nat, g: Gen, s: State, st: Store, stmt: Statement, p: Place,
                  i: int, s1: State, k2: nat, s2: State, st2: Store, n: int, s3: State)
    requires ForPlaced(m, ret, vs, loops, g, s.top.fn, stmt) && ForPoint(m, c, k, vs, g, s, st, stmt, p)
    requires var start, first := ForStart(m.env, g, stmt), ForFirst(m.env, g, stmt);
             var current := Def(first, Load(first.regs, start.o));
             var x := GenExpr(m.env, current.g, stmt.expressions[2]);
             && Point(m, c, k2, vs, x.g, s2, st2) && Moved(first, s, st, x.g, s2, st2) && Holds(s2, x.o, I(n)) && Holds(s2, Reg(first.regs), I(i)) && Below(x.o, x.g.regs)
             && Reached(m, c, k2 + 3, StepTail(x, ForSlot(m.env, g, stmt)), s3) && StepSaved(x.g, ForSlot(m.env, g, stmt), s2, s3) && StepHeld(s3, ForSlot(m.env, g, stmt), n)
    ensures Stepped(m, c, k2 + 3, vs, g, s, stmt, i, n, s3, st2)
  {
    hide Coded, GenFor, GenExpr, Run, Fine, StoreOk, Grows, Holds, ForStart, ForSlot, ForBlock, CheckStmt, Placed, Compiled, Tracks, HoldsPlace, PlaceOk, At, ForFirst, Moved, StepTail, StepHeld, Testing, Keeps, ForLayout, ForStep, Stored, ForEnter, ForLast, ExprsOk;
    var start, first, slot := ForStart(m.env, g, stmt), ForFirst(m.env, g, stmt), ForSlot(m.env, g, stmt);
    var current := Def(first, Load(first.regs, start.o));
    var x := GenExpr(m.env, current.g, stmt.expressions[2]);
    StepPlaced(m, ret, vs, loops, g, s, stmt);
    GrowCounts(first, current.g);
    GrowCounts(current.g, x.g);
    StepTracks(m, ret, vs, loops, g, s.top.fn, stmt);
    StepTailCounts(x, slot);
    StepRelates(m, vs, g, start.g, first, s, st, x.g, s2, st2, slot, s3);
    KeptOperand(x.g.(steps := slot), s2, s3, x.o, I(n));
    KeptOperand(x.g.(steps := slot), s2, s3, current.o, I(i));
    assert Testing(m, g, s, stmt, s3, st2, n) by { Tests(m, g, s, stmt, s3, st2, n); }
  }

  lemma Tests(m: Module, g: Gen, s: State, stmt: Statement, s3: State, st3: Store, n: int)
    requires |stmt.expressions| == 4 && Settled(ForStart(m.env, g, stmt).g, s, g.scopes, s3, st3) && StepHeld(s3, ForSlot(m.env, g, stmt), n)
    ensures Testing(m, g, s, stmt, s3, st3, n)
  {
    hide ForStart, ForSlot, Settled;
  }

  lemma StepTracks(m: Module, ret: Return, vs: Scopes, loops: nat, g: Gen, fn: string, stmt: Statement)
    requires ForPlaced(m, ret, vs, loops, g, fn, stmt)
    ensures var start, first, slot := ForStart(m.env, g, stmt), ForFirst(m.env, g, stmt), ForSlot(m.env, g, stmt);
            var current := Def(first, Load(first.regs, start.o));
            Tracks(vs, ForStep(m.env, current.g, stmt, slot).g) && ForStep(m.env, current.g, stmt, slot).g.scopes == g.scopes
  {
    hide Coded, GenFor, Fine, ForStart, ForSlot, ForBlock, CheckStmt, Placed, Compiled, Tracks, ForFirst, ForLayout, ForStep, ExprOk, Grows, ForEnter, ForLast;
    var start, first, slot := ForStart(m.env, g, stmt), ForFirst(m.env, g, stmt), ForSlot(m.env, g, stmt);
    var current := Def(first, Load(first.regs, start.o));
    ForExprsOk(m.env, ret, vs, loops, stmt);
    TracksOn(vs, g, current.g);
    ForStepTotal(m.env, vs, current.g, stmt, slot);
    ForStepGrows(m.env, current.g, stmt, slot);
    GrowCounts(current.g, ForStep(m.env, current.g, stmt, slot).g);
  }

  lemma ForExprsOk(w: Env, ret: Return, vs: Scopes, loops: nat, stmt: Statement)
    requires |vs| > 0 && stmt.kind == ForS && CheckStmt(w, ret, vs, loops, stmt).Just?
    ensures ExprsOk(w, vs, stmt.expressions)
  {
    hide ExprsOk;
  }

  lemma StepTailCounts(x: Out, slot: nat)
    ensures StepTail(x, slot).regs == x.g.regs + 1 && StepTail(x, slot).steps == x.g.steps
  {
  }

  /** Saving the step disturbs nothing that was there when the loop's slot was made. */
  lemma StepRelates(m: Module, vs: Scopes, g: Gen, start: Gen, first: Gen, s: State, st: Store, x: Gen, s2: State, st2: Store, slot: nat, s3: State)
    requires Stored(g.scopes, st.scopes, s.top) && first.regs == start.regs && start.steps == slot && first.steps == slot + 1
    requires Moved(first, s, st, x, s2, st2) && StepSaved(x, slot, s2, s3) && first.regs <= x.regs && first.steps <= x.steps
    ensures Settled(start, s, g.scopes, s3, st2) && Keeps(x.(steps := slot), s2.top, s3.top) && InStep(s3, st2) && s3.top.fn == s.top.fn
  {
    StoredFrame(g.scopes, st.scopes, s.top, s3.top);
    hide Stored;
    assert Keeps(start, s.top, s2.top);
    KeepsTrans(start, x.(steps := slot), s.top, s2.top, s3.top);
  }

  lemma {:induction false} IterateEnd(m: Module, c: Config, k: nat, fuel: nat, ret: Return, vs: Scopes, loops: nat, g: Gen, s: State, st: Store, stmt: Statement, p: Place,
                                      i: int, n: int, k3: nat, s3: State, st3: Store) returns (k': nat, s': State)
    requires ForPlaced(m, ret, vs, loops, g, s.top.fn, stmt) && ForPoint(m, c, k, vs, g, s, st, stmt, p) && k < k3
    requires Stepped(m, c, k3, vs, g, s, stmt, i, n, s3, st3)
    ensures Executes(m, c, k, fuel, ForStart(m.env, g, stmt).g, s, GenFor(m.env, g, stmt),
                     Tested(m.env, fuel, p, stmt, i, n, EvalExpr(m.env, fuel, st3, stmt.expressions[3])), false, k', s')
    decreases fuel, 1, stmt, 4
  {
    hide Coded, GenFor, GenExpr, EvalExpr, ExecAll, Run, Fine, Live, StoreOk, HasType, Moved, Grows, Holds, ForStart, ForLayout, ForCounts, ForFirst, ForSlot, ForBlock, CheckStmt, Placed, Compiled, Tracks, HoldsPlace, PlaceOk, At, Def, Testing, ForPoint, ForStep, Executes, Onward, Continue, NodeDone, LiveIf, ForPlaced, DirectionCode, Starts;
    ForOperandsOf(m, ret, vs, loops, g, s.top.fn, stmt);
    var start, first, slot, e := ForStart(m.env, g, stmt), ForFirst(m.env, g, stmt), ForSlot(m.env, g, stmt), stmt.expressions[3];
    var current := Def(first, Load(first.regs, start.o));
    var step := ForStep(m.env, current.g, stmt, slot);
    var x, r := GenExpr(m.env, step.g, e), EvalExpr(m.env, fuel, st3, e);
    EndPlaced(m, ret, vs, loops, g, s.top.fn, stmt);
    var k4, s4 := ExprSim(m, c, k3, fuel, vs, step.g, s3, st3, e);
    if !r.Ok? {
      k', s' := k4, s4;
      NodeStops(m, c, k3, fuel, step.g, s3, st3, e, k4, s4);
      StopsLater(m, c, k, fuel, r, k3, k4);
      StmtFails(m, c, k, fuel, start.g, s, GenFor(m.env, g, stmt), r, Tested(m.env, fuel, p, stmt, i, n, r), false, k4, s4);
    } else {
      NodePoint(m, c, k3, fuel, vs, step.g, s3, st3, e, k4, s4);
      IntOf(m.env, r.v, e.composite);
      var s6 := DirectionJump(m, c, ret, vs, loops, g, s, stmt, i, n, k3, s3, st3, x, k4, s4, r.st, r.v.n);
      if Continue(n, i, r.v.n) {
        k', s' := IterateRound(m, c, k, fuel, ret, vs, loops, g, s, st, stmt, p, n, k4 + 5, s6, r.st);
      } else {
        k', s' := k4 + 5, s6;
        ForExit(m, c, k, fuel, ret, vs, loops, g, s, stmt, k4 + 5, s6, r.st, n);
      }
    }
  }

  lemma EndPlaced(m: Module, ret: Return, vs: Scopes, loops: nat, g: Gen, fn: string, stmt: Statement)
    requires ForPlaced(m, ret, vs, loops, g, fn, stmt)
    ensures var start, first, slot, n0 := ForStart(m.env, g, stmt), ForFirst(m.env, g, stmt), ForSlot(m.env, g, stmt), ForBlock(m.env, g, stmt);
            var current := Def(first, Load(first.regs, start.o));
            var step := ForStep(m.env, current.g, stmt, slot);
            var end := GenExpr(m.env, step.g, stmt.expressions[3]);
            var js := DirectionCode(end.g.regs, current.o, step.o, end.o);
            && Coded(m, fn, end.g) && Coded(m, fn, EmitAll(end.g, js))
            && ForHead(m.env, g, stmt) == Emit(DefAll(end.g, js).g, CondBr(DefAll(end.g, js).o, n0 + 1, n0 + 3)) && Coded(m, fn, ForHead(m.env, g, stmt))
  {
    hide Coded, GenFor, GenExpr, Fine, ForStart, ForSlot, ForBlock, CheckStmt, Placed, Compiled, Tracks, Def, ForEnter, ForBody, ForAdvance, ForLast, ForEntry, Ext, ForFirst, Grows, Inside, ForStep, DirectionCode, Emit, EmitAll;
    ForCoded(m, fn, g, stmt);
    ForTestCoded(m, fn, ForFirst(m.env, g, stmt), stmt, ForStart(m.env, g, stmt).o, ForSlot(m.env, g, stmt), ForBlock(m.env, g, stmt));
  }

  /** The direction test and the jump it decides. */
  lemma DirectionJump(m: Module, c: Config, ret: Return, vs: Scopes, loops: nat, g: Gen, s: State, stmt: Statement, i: int, n: int,
                      k3: nat, s3: State, st3: Store, x: Out, k4: nat, s4: State, st4: Store, j: int) returns (s6: State)
    requires ForPlaced(m, ret, vs, loops, g, s.top.fn, stmt) && Stepped(m, c, k3, vs, g, s, stmt, i, n, s3, st3)
    requires var start, first, slot := ForStart(m.env, g, stmt), ForFirst(m.env, g, stmt), ForSlot(m.env, g, stmt);
             var current := Def(first, Load(first.regs, start.o));
             var step := ForStep(m.env, current.g, stmt, slot);
             && x == GenExpr(m.env, step.g, stmt.expressions[3])
             && Run(m, c, k4) == Running(s4) && Moved(step.g, s3, st3, x.g, s4, st4) && Holds(s4, x.o, I(j)) && Below(x.o, x.g.regs) && Grows(step.g, x.g)
    ensures Run(m, c, k4 + 5) == Running(s6) && Starts(s6.top, if Continue(n, i, j) then ForBlock(m.env, g, stmt) + 1 else ForBlock(m.env, g, stmt) + 3)
    ensures Testing(m, g, s, stmt, s6, st4, n)
  {
    hide Coded, GenFor, GenExpr, Run, Fine, Live, Grows, Holds, ForStart, ForLayout, ForFirst, ForSlot, ForBlock, CheckStmt, Placed, Compiled, Tracks, Def, Testing, ForStep, DirectionCode, Emit, EmitAll, ForHead, Moved, At, Continue, Starts, Computes, Undisturbed, Truth, Keeps, ForPlaced;
    ForOperandsOf(m, ret, vs, loops, g, s.top.fn, stmt);
    EndPlaced(m, ret, vs, loops, g, s.top.fn, stmt);
    var start, first, slot, n0 := ForStart(m.env, g, stmt), ForFirst(m.env, g, stmt), ForSlot(m.env, g, stmt), ForBlock(m.env, g, stmt);
    var current := Def(first, Load(first.regs, start.o));
    var step := ForStep(m.env, current.g, stmt, slot);
    MovedKeeps(step.g, s3, st3, x.g, s4, st4);
    MovedAt(step.g, s3, st3, x.g, s4, st4);
    KeptOperand(step.g, s3, s4, current.o, I(i));
    KeptOperand(step.g, s3, s4, step.o, I(n));
    GrowCounts(step.g, x.g);
    s6 := DirectionRuns(m, c, k4, x, s4, s.top.fn, current.o, step.o, i, n, j, n0);
    TestingStill(m, ret, vs, loops, g, s, stmt, n, s3, st3, step.g, x.g, s4, st4, s6);
  }

  lemma MovedAt(g: Gen, s: State, st: Store, h: Gen, s': State, st': Store)
    requires Moved(g, s, st, h, s', st')
    ensures At(h, s'.top) && s'.top.fn == s.top.fn
  {
  }

  lemma DirectionRuns(m: Module, c: Config, k: nat, x: Out, s: State, fn: string, current: Operand, step: Operand, i: int, n: int, j: int, n0: nat) returns (s': State)
    requires Reached(m, c, k, x.g, s) && s.top.fn == fn && Holds(s, current, I(i)) && Holds(s, step, I(n)) && Holds(s, x.o, I(j))
    requires Below(current, x.g.regs) && Below(step, x.g.regs) && Below(x.o, x.g.regs)
    requires var js := DirectionCode(x.g.regs, current, step, x.o);
             Coded(m, fn, EmitAll(x.g, js)) && Coded(m, fn, Emit(DefAll(x.g, js).g, CondBr(DefAll(x.g, js).o, n0 + 1, n0 + 3)))
    ensures Run(m, c, k + 5) == Running(s') && Starts(s'.top, if Continue(n, i, j) then n0 + 1 else n0 + 3) && Undisturbed(x.g, s, s')
  {
    var js := DirectionCode(x.g.regs, current, step, x.o);
    var d := DefAll(x.g, js);
    assert x.g.regs <= d.g.regs && x.g.steps == d.g.steps;
    hide Coded, Run, EmitAll, Emit, Holds, DirectionCode, Continue, Keeps;
    var s1 := DirectionRun(m, c, k, x.g, s, current, step, x.o, i, n, j);
    DestKept(x.g, s, s1);
    s' := CondRun(m, c, k + 4, d.g, s1, d.o, if Continue(n, i, j) then 1 else 0, n0 + 1, n0 + 3);
    UndisturbedTrans(x.g, d.g, s, s1, s');
  }

  lemma TestingStill(m: Module, ret: Return, vs: Scopes, loops: nat, g: Gen, s: State, stmt: Statement, n: int, s3: State, st3: Store, step: Gen, x: Gen, s4: State, st4: Store, s6: State)
    requires |stmt.expressions| == 4 && Testing(m, g, s, stmt, s3, st3, n) && Moved(step, s3, st3, x, s4, st4) && Undisturbed(x, s4, s6)
    requires ForSlot(m.env, g, stmt) < step.steps && step.regs <= x.regs && step.steps <= x.steps && ForStart(m.env, g, stmt).g.regs <= step.regs && ForStart(m.env, g, stmt).g.steps <= step.steps
    ensures Testing(m, g, s, stmt, s6, st4, n)
  {
    hide ForStart, ForSlot, Stored;
    var start := ForStart(m.env, g, stmt).g;
    KeepsTrans(step, x, s3.top, s4.top, s6.top);
    KeepsTrans(start, step, s.top, s3.top, s6.top);
    StoredFrame(g.scopes, st4.scopes, s3.top, s6.top);
  }

  /** Control has reached the block behind the loop. */
  lemma ForExit(m: Module, c: Config, k: nat, fuel: nat, ret: Return, vs: Scopes, loops: nat, g: Gen, s: State, stmt: Statement, k2: nat, s2: State, st2: Store, n: int)
    requires ForPlaced(m, ret, vs, loops, g, s.top.fn, stmt) && k <= k2
    requires Run(m, c, k2) == Running(s2) && Starts(s2.top, ForBlock(m.env, g, stmt) + 3) && Testing(m, g, s, stmt, s2, st2, n)
    ensures Executes(m, c, k, fuel, ForStart(m.env, g, stmt).g, s, GenFor(m.env, g, stmt), Ok(Next, st2), false, k2, s2)
  {
    hide Run, Fine, ForStart, ForSlot, ForBlock, CheckStmt, Placed, Compiled, Tracks, Coded, GenFor, ForEnter, ForBody, ForHead, ForTest, ForAdvance, ForLast, ForFirst, ForEntry, Ext, Settled, Inside, StepHeld;
    OpenNotEnded(GenFor(m.env, g, stmt));
  }

  /** One pass through the body, the advance of the counter and what follows. */
  lemma {:induction false} IterateRound(m: Module, c: Config, k: nat, fuel: nat, ret: Return, vs: Scopes, loops: nat, g: Gen, s: State, st: Store, stmt: Statement, p: Place,
                                        n: int, k2: nat, s2: State, st2: Store) returns (k': nat, s': State)
    requires ForPlaced(m, ret, vs, loops, g, s.top.fn, stmt) && ForPoint(m, c, k, vs, g, s, st, stmt, p) && k < k2 && StoreOk(m.env, vs, st2)
    requires Run(m, c, k2) == Running(s2) && Starts(s2.top, ForBlock(m.env, g, stmt) + 1) && Testing(m, g, s, stmt, s2, st2, n)
    ensures Executes(m, c, k, fuel, ForStart(m.env, g, stmt).g, s, GenFor(m.env, g, stmt), Onward(m.env, fuel, p, stmt, n, ExecAll(m.env, fuel, st2, stmt.body)), false, k', s')
    decreases fuel, 1, stmt, 3
  {
    hide Coded, GenFor, GenStmts, ExecAll, Run, Fine, StoreOk, ForStart, ForLayout, ForCounts, ForFirst, ForSlot, ForBlock, ForEnter, CheckStmt, CheckList, PlacedAll, Placed, Compiled, Tracks, Testing, ForPoint, Executes, Iterate, ForPlaced, Starts, Valid, Read, Write, ListDone, Standing, ListChecked, Settled;
    ForOperandsOf(m, ret, vs, loops, g, s.top.fn, stmt);
    var enter, r := ForEnter(m.env, g, stmt), ExecAll(m.env, fuel, st2, stmt.body);
    ForBodyPoint(m, c, ret, vs, loops, g, s, stmt, k2, s2, st2, n);
    var k3, s3 := ListSim(m, c, k2, fuel, ret, vs, loops + 1, enter, s2, st2, stmt.body, false);
    ListExecutes(m, c, k2, fuel, enter, s2, st2, stmt.body, k3, s3);
    if r.Ok? && (r.v.Next? || r.v.Continues?) {
      var k4, s4, i := ForBack(m, c, k, fuel, ret, vs, loops, g, s, st, stmt, p, n, k2, s2, st2, r, k3, s3);
      if fuel == 0 {
        k', s' := k4, s4;
        StillRunning(m, c, k, ForStart(m.env, g, stmt).g, s, GenFor(m.env, g, stmt), k4, s4);
      } else {
        var st4 := Write(r.st, p, I(Wrap32(i + n)));
        k', s' := IterateSim(m, c, k4, fuel - 1, ret, vs, loops, g, s4, st4, stmt, p);
        ForFurther(m, c, k, fuel, g, s, stmt, p, k4, s4, st4, k', s');
      }
    } else {
      k', s' := k3, s3;
      ForLeft(m, c, k, fuel, ret, vs, loops, g, s, stmt, p, n, k2, s2, st2, r, k3, s3);
    }
  }

  lemma ForFurther(m: Module, c: Config, k: nat, fuel: nat, g: Gen, s: State, stmt: Statement, p: Place, k4: nat, s4: State, st4: Store, k': nat, s': State)
    requires fuel > 0 && k < k4 && |stmt.expressions| == 4 && Settled(ForStart(m.env, g, stmt).g, s, g.scopes, s4, st4)
    requires Executes(m, c, k4, fuel - 1, ForStart(m.env, g, stmt).g, s4, GenFor(m.env, g, stmt), Iterate(m.env, fuel - 1, st4, p, stmt), false, k', s')
    ensures Executes(m, c, k, fuel, ForStart(m.env, g, stmt).g, s, GenFor(m.env, g, stmt), Iterate(m.env, fuel - 1, st4, p, stmt), false, k', s')
  {
    hide Iterate, GenFor, ForStart, Run, Executes, Settled;
    var b := ForStart(m.env, g, stmt).g;
    ExecutesTrans(m, c, k, fuel, b, s, g.scopes, b, k4, fuel - 1, s4, st4, GenFor(m.env, g, stmt), Iterate(m.env, fuel - 1, st4, p, stmt), false, k', s');
  }

  lemma ForBodyPoint(m: Module, c: Config, ret: Return, vs: Scopes, loops: nat, g: Gen, s: State, stmt: Statement, k2: nat, s2: State, st2: Store, n: int)
    requires ForPlaced(m, ret, vs, loops, g, s.top.fn, stmt) && StoreOk(m.env, vs, st2)
    requires Run(m, c, k2) == Running(s2) && Starts(s2.top, ForBlock(m.env, g, stmt) + 1) && Testing(m, g, s, stmt, s2, st2, n)
    ensures Standing(m, c, k2, vs, loops + 1, ForEnter(m.env, g, stmt), s2, st2)
    ensures ListChecked(m, ret, vs, loops + 1, ForEnter(m.env, g, stmt), s2, stmt.body, false)
  {
    hide Coded, GenFor, GenStmts, Run, Fine, StoreOk, ForStart, ForFirst, ForSlot, ForBlock, ForEnter, ForBody, ForHead, ForTest, ForAdvance, ForLast, ForEntry, CheckStmt, CheckList, PlacedAll, Placed, Compiled, Tracks, Ext, Stored, Keeps, Live;
    ForOperandsOf(m, ret, vs, loops, g, s.top.fn, stmt);
    ForCoded(m, s.top.fn, g, stmt);
    DestKept(ForStart(m.env, g, stmt).g, s, s2);
    Enters(m, c, k2, vs, g, ForEnter(m.env, g, stmt), s2, st2);
  }

  /** From the end of the body through the step block to the test block. */
  lemma ForBack(m: Module, c: Config, k: nat, fuel: nat, ret: Return, vs: Scopes, loops: nat, g: Gen, s: State, st: Store, stmt: Statement, p: Place,
                n: int, k2: nat, s2: State, st2: Store, r: R<Flow>, k3: nat, s3: State) returns (k4: nat, s4: State, i: int)
    requires ForPlaced(m, ret, vs, loops, g, s.top.fn, stmt) && ForPoint(m, c, k, vs, g, s, st, stmt, p) && StoreOk(m.env, vs, st2) && Testing(m, g, s, stmt, s2, st2, n)
    requires r == ExecAll(m.env, fuel, st2, stmt.body) && r.Ok? && (r.v.Next? || r.v.Continues?)
    requires Executes(m, c, k2, fuel, ForEnter(m.env, g, stmt), s2, GenStmts(m.env, ForEnter(m.env, g, stmt), stmt.body), r, false, k3, s3)
    ensures Evaluator.Valid(r.st, p) && Read(r.st, p) == I(i) && k4 >= k2 && Run(m, c, k4) == Running(s4)
    ensures var st4 := Write(r.st, p, I(Wrap32(i + n)));
            && ForPlaced(m, ret, vs, loops, g, s4.top.fn, stmt) && ForPoint(m, c, k4, vs, g, s4, st4, stmt, p)
            && Settled(ForStart(m.env, g, stmt).g, s, g.scopes, s4, st4)
  {
    hide Coded, GenFor, GenStmts, ExecAll, Run, Fine, StoreOk, ForStart, ForLayout, ForCounts, ForFirst, ForSlot, ForBlock, ForEnter, CheckStmt, CheckList, PlacedAll, Placed, Compiled, Tracks, Testing, Executes, ForPlaced, Starts, Valid, Read, Write, Settled, Live, PlaceOk, HoldsPlace, At, StepHeld, Wrap32;
    ForOperandsOf(m, ret, vs, loops, g, s.top.fn, stmt);
    var k5, s5 := ForBodyDone(m, c, k, fuel, ret, vs, loops, g, s, stmt, n, k2, s2, st2, r, k3, s3);
    ReadOk(m.env, vs, r.st, p, Int32, stmt.expressions[0].composite);
    ReadInt(m.env, r.st, p, stmt.expressions[0].composite);
    i := Read(r.st, p).n;
    WriteInt(m.env, vs, r.st, p, stmt.expressions[0].composite, i + n);
    s4 := ForAdvanced(m, c, k, ret, vs, loops, g, s, st, stmt, p, n, k5, s5, r.st, i);
    k4 := k5 + 5;
  }

  lemma WriteInt(w: Env, vs: Scopes, st: Store, p: Place, composite: string, v: int)
    requires StoreOk(w, vs, st) && PlaceOk(w, vs, p, Int32, composite)
    ensures Evaluator.Valid(st, p) && StoreOk(w, vs, Write(st, p, I(Wrap32(v))))
  {
    hide StoreOk, PlaceOk, Write, Valid;
    WriteOk(w, vs, st, p, Int32, composite, I(Wrap32(v)));
  }

  /** The body ended normally: the step block is next, and the saved step is still there. */
  lemma ForBodyDone(m: Module, c: Config, k: nat, fuel: nat, ret: Return, vs: Scopes, loops: nat, g: Gen, s: State, stmt: Statement,
                    n: int, k2: nat, s2: State, st2: Store, r: R<Flow>, k3: nat, s3: State) returns (k5: nat, s5: State)
    requires ForPlaced(m, ret, vs, loops, g, s.top.fn, stmt) && StoreOk(m.env, vs, st2) && Testing(m, g, s, stmt, s2, st2, n)
    requires r == ExecAll(m.env, fuel, st2, stmt.body) && r.Ok? && (r.v.Next? || r.v.Continues?)
    requires Executes(m, c, k2, fuel, ForEnter(m.env, g, stmt), s2, GenStmts(m.env, ForEnter(m.env, g, stmt), stmt.body), r, false, k3, s3)
    ensures k5 >= k2 && Run(m, c, k5) == Running(s5) && Starts(s5.top, ForBlock(m.env, g, stmt) + 2) && Testing(m, g, s, stmt, s5, r.st, n)
    ensures StoreOk(m.env, vs, r.st) && s5.top.fn == s.top.fn
  {
    hide Coded, GenFor, GenStmts, ExecAll, Run, Fine, StoreOk, ForStart, ForFirst, ForSlot, ForBlock, ForEnter, ForBody, ForHead, ForTest, ForAdvance, ForLast, ForEntry, CheckStmt, CheckList, PlacedAll, Placed, Compiled, Tracks, Ext, Executes, Stored, Keeps, ForLayout, Inside, Testing;
    ForOperandsOf(m, ret, vs, loops, g, s.top.fn, stmt);
    ForCoded(m, s.top.fn, g, stmt);
    LoopScopesFor(m, fuel, ret, vs, loops, g, s.top.fn, st2, stmt);
    TestingKeeps(m, g, s, stmt, s2, st2, n);
    var enter := ForEnter(m.env, g, stmt);
    var l := ForBodyEnd(m.env, g, stmt);
    k5, s5 := BodyAround(m, c, fuel, g, enter, s2, GenStmts(m.env, enter, stmt.body), l, r, k2, k3, s3, ForBlock(m.env, g, stmt) + 2);
    TestingLater(m, g, s, stmt, n, s2, st2, enter, s5, r.st);
  }

  lemma TestingKeeps(m: Module, g: Gen, s: State, stmt: Statement, s2: State, st2: Store, n: int)
    requires |stmt.expressions| == 4 && Testing(m, g, s, stmt, s2, st2, n)
    ensures s2.top.fn == s.top.fn
  {
  }

  lemma TestingLater(m: Module, g: Gen, s: State, stmt: Statement, n: int, s2: State, st2: Store, enter: Gen, s5: State, st5: Store)
    requires |stmt.expressions| == 4 && Testing(m, g, s, stmt, s2, st2, n) && Settled(enter, s2, g.scopes, s5, st5)
    requires ForStart(m.env, g, stmt).g.regs <= enter.regs && ForSlot(m.env, g, stmt) == ForStart(m.env, g, stmt).g.steps < enter.steps
    ensures Testing(m, g, s, stmt, s5, st5, n) && s5.top.fn == s.top.fn
  {
    hide ForStart, ForSlot, Stored;
    SettledTrans(ForStart(m.env, g, stmt).g, s, g.scopes, s2, st2, enter, g.scopes, s5, st5);
  }

  lemma LoopScopesFor(m: Module, fuel: nat, ret: Return, vs: Scopes, loops: nat, g: Gen, fn: string, st: Store, stmt: Statement)
    requires ForPlaced(m, ret, vs, loops, g, fn, stmt) && StoreOk(m.env, vs, st)
    ensures var r := ExecAll(m.env, fuel, st, stmt.body); r.Ok? && !r.v.Returns? ==> StoreOk(m.env, vs, r.st)
    ensures var enter := ForEnter(m.env, g, stmt);
            var x := GenStmts(m.env, enter, stmt.body);
            x.scopes == g.scopes && enter.scopes == g.scopes && enter.regs <= x.regs && enter.steps <= x.steps && enter.continues == g.continues + [ForBlock(m.env, g, stmt) + 2]
  {
    hide Coded, GenFor, GenStmts, ExecAll, Fine, StoreOk, ForStart, ForFirst, ForSlot, ForBlock, ForEnter, ForBody, ForHead, ForTest, ForAdvance, ForLast, ForEntry, CheckStmt, CheckList, PlacedAll, Placed, Compiled, Tracks, Ext;
    ForOperandsOf(m, ret, vs, loops, g, fn, stmt);
    LoopScopes(m, fuel, ret, vs, loops, g, ForEnter(m.env, g, stmt), st, stmt);
  }

  lemma ForBodyEnd(w: Env, g: Gen, stmt: Statement) returns (l: Gen)
    requires |stmt.expressions| == 4
    ensures ForBody(w, g, stmt) == Branch(l, ForBlock(w, g, stmt) + 2)
    ensures var x := GenStmts(w, ForEnter(w, g, stmt), stmt.body); l.code == x.code && l.at == x.at && l.regs == x.regs && l.steps == x.steps
  {
    hide ForEnter, Branch, GenStmts, ForBlock;
    l := LeaveLoop(GenStmts(w, ForEnter(w, g, stmt), stmt.body), g);
  }

  /** The step block leads to another test, with the counter advanced. */
  lemma ForAdvanced(m: Module, c: Config, k: nat, ret: Return, vs: Scopes, loops: nat, g: Gen, s: State, st: Store, stmt: Statement, p: Place, n: int, k5: nat, s5: State, st5: Store, i: int)
    returns (s4: State)
    requires ForPlaced(m, ret, vs, loops, g, s.top.fn, stmt) && ForPoint(m, c, k, vs, g, s, st, stmt, p)
    requires Run(m, c, k5) == Running(s5) && Starts(s5.top, ForBlock(m.env, g, stmt) + 2) && Testing(m, g, s, stmt, s5, st5, n) && s5.top.fn == s.top.fn
    requires Evaluator.Valid(st5, p) && Read(st5, p) == I(i) && StoreOk(m.env, vs, Write(st5, p, I(Wrap32(i + n))))
    ensures var st4 := Write(st5, p, I(Wrap32(i + n)));
            && Run(m, c, k5 + 5) == Running(s4) && ForPlaced(m, ret, vs, loops, g, s4.top.fn, stmt) && ForPoint(m, c, k5 + 5, vs, g, s4, st4, stmt, p)
            && Settled(ForStart(m.env, g, stmt).g, s, g.scopes, s4, st4)
  {
    hide Coded, GenFor, Run, Fine, StoreOk, ForStart, ForSlot, ForBlock, ForEnter, ForBody, ForHead, ForTest, ForAdvance, ForEntry, CheckStmt, Placed, Compiled, Ext, Keeps, Valid, Read, Write, PlaceOk, HoldsPlace, Wrap32, Live, Agree, Separate, Stored, Inside, GlobalsOk;
    var start, last, n0 := ForStart(m.env, g, stmt), ForLast(m.env, g, stmt), ForBlock(m.env, g, stmt);
    ForCoded(m, s.top.fn, g, stmt);
    StartKept(start, g.scopes, s, s5, p);
    ForSeparate(vs, g);
    OkGlobals(m.env, vs, Write(st5, p, I(Wrap32(i + n))));
    s4 := AdvanceRun(m, c, k5, last, s5, st5, g.scopes, g.slots, start.o, ForSlot(m.env, g, stmt), n0, p, i, n);
    SettledTrans(start.g, s, g.scopes, s5, st5, last, g.scopes, s4, Write(st5, p, I(Wrap32(i + n))));
    StartKept(start, g.scopes, s, s4, p);
    DestKept(start.g, s, s4);
    ForEntersAgain(m, c, k5 + 5, vs, g, stmt, s4, Write(st5, p, I(Wrap32(i + n))));
  }

  lemma ForSeparate(vs: Scopes, g: Gen)
    requires Tracks(vs, g)
    ensures Separate(g.scopes, g.slots)
  {
  }

  lemma StartKept(start: Out, bs: Bindings, s: State, s': State, p: Place)
    requires HoldsPlace(bs, s, start.o, p) && Below(start.o, start.g.regs) && Keeps(start.g, s.top, s'.top)
    ensures HoldsPlace(bs, s', start.o, p)
  {
    KeptPlace(start.g, bs, s, s', start.o, p);
  }

  lemma ForEntersAgain(m: Module, c: Config, k: nat, vs: Scopes, g: Gen, stmt: Statement, s: State, st: Store)
    requires |stmt.expressions| == 4 && Compiled(m) && Tracks(vs, g) && ForLayout(m.env, g, stmt) && ForCounts(m.env, g, stmt) && StoreOk(m.env, vs, st)
    requires Run(m, c, k) == Running(s) && Starts(s.top, ForBlock(m.env, g, stmt)) && Stored(g.scopes, st.scopes, s.top) && InStep(s, st)
    ensures Point(m, c, k, vs, ForFirst(m.env, g, stmt), s, st)
  {
    hide Fine, GenFor, Run, StoreOk, ForStart, ForSlot, ForBlock, ForEnter, ForBody, ForHead, ForTest, ForAdvance, ForEntry, Compiled, Ext, Tracks, Stored, ForLast, Live, ForFirst;
    Enters(m, c, k, vs, g, ForFirst(m.env, g, stmt), s, st);
  }

  /** A body that broke off, returned or failed. */
  lemma ForLeft(m: Module, c: Config, k: nat, fuel: nat, ret: Return, vs: Scopes, loops: nat, g: Gen, s: State, stmt: Statement, p: Place, n: int, k2: nat, s2: State, st2: Store, r: R<Flow>, k3: nat, s3: State)
    requires ForPlaced(m, ret, vs, loops, g, s.top.fn, stmt) && Testing(m, g, s, stmt, s2, st2, n) && k <= k2
    requires !(r.Ok? && (r.v.Next? || r.v.Continues?))
    requires Executes(m, c, k2, fuel, ForEnter(m.env, g, stmt), s2, GenStmts(m.env, ForEnter(m.env, g, stmt), stmt.body), r, false, k3, s3)
    ensures Executes(m, c, k, fuel, ForStart(m.env, g, stmt).g, s, GenFor(m.env, g, stmt), Onward(m.env, fuel, p, stmt, n, r), false, k3, s3)
  {
    hide Coded, GenFor, GenStmts, ExecAll, Run, Fine, ForStart, ForFirst, ForSlot, ForBlock, ForEnter, ForBody, ForHead, ForTest, ForAdvance, ForLast, ForEntry, CheckStmt, CheckList, PlacedAll, Placed, Compiled, Tracks, Ext, Stored, Keeps, ForLayout, Testing, Iterate;
    TestingSettled(m, g, s, stmt, s2, st2, n);
    var start, enter := ForStart(m.env, g, stmt), ForEnter(m.env, g, stmt);
    if r.Ok? && r.v.Breaks? {
      assert r.st.scopes[..|g.scopes|] == r.st.scopes;
      TestingLater(m, g, s, stmt, n, s2, st2, enter, s3, r.st);
      ForExit(m, c, k, fuel, ret, vs, loops, g, s, stmt, k3, s3, r.st, n);
    } else if r.Ok? {
      DestKept(start.g, s, s2);
    }
  }

  lemma TestingSettled(m: Module, g: Gen, s: State, stmt: Statement, s2: State, st2: Store, n: int)
    requires |stmt.expressions| == 4 && Testing(m, g, s, stmt, s2, st2, n)
    ensures Settled(ForStart(m.env, g, stmt).g, s, g.scopes, s2, st2) && Keeps(ForStart(m.env, g, stmt).g, s.top, s2.top)
  {
    hide ForStart;
  }
}
