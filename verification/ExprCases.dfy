/**
One expression node at a time: where its operands have been evaluated, the code of the node
evaluates the node.
*/
module ExprCases {
  import opened Wrappers
  import opened SemanticIR
  import opened Typing
  import opened Evaluator
  import opened Soundness
  import opened Machine
  import opened Codegen
  import opened Growth
  import opened Lockstep
  import opened Straight
  import opened Access
  import opened Relation

  /** What an operator does once its operands are known. */
  function After(r: R<seq<Value>>, result: Computed): R<Value> {
    if r.Ok? then Lift(result, r.st) else r.PropagateFailure()
  }

  /** The operands' code has run, and the code of the node is in place behind it. */
  ghost predicate OperandsDone(m: Module, c: Config, k: nat, fuel: nat, vs: Scopes, g: Gen, s: State, st: Store, e: Expression, k1: nat, s1: State) {
    && ExprOk(m.env, vs, e) && Coded(m, s.top.fn, GenExpr(m.env, g, e).g)
    && EvaluatesAll(m, c, k, fuel, g, s, st, GenExprs(m.env, g, e.operands), EvalExprs(m.env, fuel, st, e.operands), k1, s1)
    && TypedAll(m.env, vs, EvalExprs(m.env, fuel, st, e.operands), e.operands)
  }

  ghost predicate NodeDone(m: Module, c: Config, k: nat, fuel: nat, g: Gen, s: State, st: Store, e: Expression, k': nat, s': State) {
    Evaluates(m, c, k, fuel, g, s, st, GenExpr(m.env, g, e), EvalExpr(m.env, fuel, st, e), k', s')
  }

  lemma ArrivesReady(m: Module, c: Config, g: Gen, s: State, st: Store, h: Gen, st1: Store, k1: nat, s1: State, x: Out)
    requires Arrives(m, c, g, s, st, h, st1, k1, s1) && Coded(m, s.top.fn, x.g)
    ensures Ready(m, c, k1, h, s1, x) && s1.globals == st1.globals && s1.top.slots == s.top.slots && st1.scopes == st.scopes
    ensures Moved(g, s, st, h, s1, st1)
  {
    hide Run, Coded;
  }

  // ----- unary and binary operators -----

  lemma UnaryShape(w: Env, fuel: nat, vs: Scopes, g: Gen, st: Store, e: Expression)
    requires ExprOk(w, vs, e) && e.kind == UnaryE
    ensures |e.operands| == 1 && Numeric(e.ty) && e.operands[0].ty == e.ty
    ensures var a, r := GenExprs(w, g, e.operands), EvalExprs(w, fuel, st, e.operands);
            && GenExpr(w, g, e) == GenUnary(a.g, e.ty, a.os[0])
            && EvalExpr(w, fuel, st, e) == After(r, if r.Ok? then Unary(w.floats, r.v[0]) else Meaningless)
  {
    hide GenExprs, EvalExprs, GenUnary, Unary;
    Single(w, fuel, st, g, e.operands);
  }

  lemma UnaryCase(m: Module, c: Config, k: nat, fuel: nat, vs: Scopes, g: Gen, s: State, st: Store, e: Expression, k1: nat, s1: State)
    returns (k': nat, s': State)
    requires e.kind == UnaryE && OperandsDone(m, c, k, fuel, vs, g, s, st, e, k1, s1)
    ensures NodeDone(m, c, k, fuel, g, s, st, e, k', s')
  {
    hide GenExpr, EvalExpr, GenExprs, EvalExprs, ExprOk, Coded, Arrives, Ready, Computes, GenUnary, Grows, Run, StoreOk;
    UnaryShape(m.env, fuel, vs, g, st, e);
    ExprsGrow(m.env, g, e.operands);
    var a, r := GenExprs(m.env, g, e.operands), EvalExprs(m.env, fuel, st, e.operands);
    if r.Ok? {
      ArrivesReady(m, c, g, s, st, a.g, r.st, k1, s1, GenUnary(a.g, e.ty, a.os[0]));
      assert HasType(m.env, r.v[0], e.ty, e.operands[0].composite);
      s' := UnarySim(m, c, k1, a.g, s1, e.ty, a.os[0], r.v[0]);
      k' := k1 + 1;
      Applied(m, c, k, fuel, g, s, st, a.g, r.st, k1, s1, GenUnary(a.g, e.ty, a.os[0]), Unary(m.env.floats, r.v[0]), k', s');
    } else {
      k', s' := k1, s1;
      Propagates(m, c, k, fuel, r, EvalExpr(m.env, fuel, st, e), k1);
    }
  }

  lemma BinaryShape(w: Env, fuel: nat, vs: Scopes, g: Gen, st: Store, e: Expression)
    requires ExprOk(w, vs, e) && e.kind == BinaryE
    ensures |e.operands| == 2 && BinaryOk(e.opcode, e.operands[0].ty, e.ty) && e.operands[1].ty == e.operands[0].ty
    ensures var a, r := GenExprs(w, g, e.operands), EvalExprs(w, fuel, st, e.operands);
            && GenExpr(w, g, e) == GenBinary(a.g, e.operands[0].ty, e.opcode, a.os[0], a.os[1])
            && EvalExpr(w, fuel, st, e) == After(r, if r.Ok? then Binary(w.floats, e.opcode, r.v[0], r.v[1]) else Meaningless)
  {
    hide GenExprs, EvalExprs, GenBinary, Binary;
    Double(w, fuel, st, g, e.operands);
  }

  /** The code of the operands keeps the scopes, and they still agree with the verifier's. */
  lemma OperandsReady(w: Env, vs: Scopes, g: Gen, e: Expression)
    requires ExprOk(w, vs, e) && Tracks(vs, g)
    ensures var h := GenExprs(w, g, e.operands).g;
            Tracks(vs, h) && Agree(vs, h.scopes) && Grows(g, h) && h.scopes == g.scopes
  {
    hide GenExprs, NodeOk, Agree;
    ExprsTotal(w, vs, g, e.operands);
    ExprsGrow(w, g, e.operands);
  }

  lemma ScalarOf(w: Env, v: Value, t: ScalarType, composite: string)
    requires HasType(w, v, t, composite) && t != Composite
    ensures HasScalar(v, t)
  {
  }

  lemma BinaryCase(m: Module, c: Config, k: nat, fuel: nat, vs: Scopes, g: Gen, s: State, st: Store, e: Expression, k1: nat, s1: State)
    returns (k': nat, s': State)
    requires e.kind == BinaryE && OperandsDone(m, c, k, fuel, vs, g, s, st, e, k1, s1)
    ensures NodeDone(m, c, k, fuel, g, s, st, e, k', s')
  {
    hide GenExpr, EvalExpr, GenExprs, EvalExprs, ExprOk, Coded, Arrives, Ready, Computes, GenBinary, Grows, Run, StoreOk, Binary, HasType;
    BinaryShape(m.env, fuel, vs, g, st, e);
    ExprsGrow(m.env, g, e.operands);
    ExprsBelow(m.env, g, e.operands, 0);
    ExprsBelow(m.env, g, e.operands, 1);
    var a, r, t := GenExprs(m.env, g, e.operands), EvalExprs(m.env, fuel, st, e.operands), e.operands[0].ty;
    if r.Ok? {
      var x := GenBinary(a.g, t, e.opcode, a.os[0], a.os[1]);
      ArrivesReady(m, c, g, s, st, a.g, r.st, k1, s1, x);
      ScalarOf(m.env, r.v[0], t, e.operands[0].composite);
      ScalarOf(m.env, r.v[1], t, e.operands[1].composite);
      BinarySound(m.env.floats, e.opcode, t, r.v[0], r.v[1], e.ty);
      k', s' := BinarySim(m, c, k1, a.g, s1, t, e.opcode, e.ty, a.os[0], a.os[1], r.v[0], r.v[1]);
      Applied(m, c, k, fuel, g, s, st, a.g, r.st, k1, s1, x, Binary(m.env.floats, e.opcode, r.v[0], r.v[1]), k', s');
    } else {
      k', s' := k1, s1;
      Propagates(m, c, k, fuel, r, EvalExpr(m.env, fuel, st, e), k1);
    }
  }

  // ----- composites -----

  lemma ConstructShape(w: Env, fuel: nat, vs: Scopes, g: Gen, st: Store, e: Expression)
    requires ExprOk(w, vs, e) && e.kind == ConstructE
    ensures e.composite in w.composites && w.composites[e.composite].kind != Slice && FieldsOk(w.composites[e.composite].Storage(), e.operands)
    ensures var a, r := GenExprs(w, g, e.operands), EvalExprs(w, fuel, st, e.operands);
            && GenExpr(w, g, e) == Def(a.g, MakeValue(a.g.regs, e.composite, a.os))
            && EvalExpr(w, fuel, st, e) == After(r, if r.Ok? then Construct(w.composites[e.composite], r.v) else Meaningless)
  {
    hide GenExprs, EvalExprs, Def, Construct;
  }

  lemma ConstructDefined(w: Env, c: CompositeDecl, es: seq<Expression>, vs: seq<Value>)
    requires CompositeOk(c) && c.kind != Slice && FieldsOk(c.Storage(), es) && |vs| == |es|
    requires forall i | 0 <= i < |es| :: HasType(w, vs[i], es[i].ty, es[i].composite)
    ensures Construct(c, vs) != Meaningless
  {
    forall i | 0 <= i < |vs| ensures HasScalar(vs[i], c.Storage()[i]) {
      assert HasType(w, vs[i], es[i].ty, es[i].composite);
    }
    ConstructSound(w, c, vs);
  }

  lemma ConstructCase(m: Module, c: Config, k: nat, fuel: nat, vs: Scopes, g: Gen, s: State, st: Store, e: Expression, k1: nat, s1: State)
    returns (k': nat, s': State)
    requires e.kind == ConstructE && OperandsDone(m, c, k, fuel, vs, g, s, st, e, k1, s1) && Sane(m.env)
    ensures NodeDone(m, c, k, fuel, g, s, st, e, k', s')
  {
    hide GenExpr, EvalExpr, GenExprs, EvalExprs, ExprOk, Coded, Arrives, Ready, Computes, Grows, Run, StoreOk, HasType, Construct, Def, FieldsOk, CompositeOk, FunctionOk;
    ConstructShape(m.env, fuel, vs, g, st, e);
    ExprsGrow(m.env, g, e.operands);
    assert CompositeOk(m.env.composites[e.composite]);
    var a, r, d := GenExprs(m.env, g, e.operands), EvalExprs(m.env, fuel, st, e.operands), m.env.composites[e.composite];
    if r.Ok? {
      var x := Def(a.g, MakeValue(a.g.regs, e.composite, a.os));
      ArrivesReady(m, c, g, s, st, a.g, r.st, k1, s1, x);
      HeldAll(s1.top, s1, a.os, r.v);
      s' := ConstructSim(m, c, k1, a.g, s1, e.composite, a.os, r.v);
      k' := k1 + 1;
      ConstructDefined(m.env, d, e.operands, r.v);
      Applied(m, c, k, fuel, g, s, st, a.g, r.st, k1, s1, x, Construct(d, r.v), k', s');
    } else {
      k', s' := k1, s1;
      Propagates(m, c, k, fuel, r, EvalExpr(m.env, fuel, st, e), k1);
    }
  }

  lemma ProjectShape(w: Env, fuel: nat, vs: Scopes, g: Gen, st: Store, e: Expression)
    requires ExprOk(w, vs, e) && e.kind == ProjectE
    ensures |e.operands| == 1 && e.operands[0].ty == Composite && e.operands[0].composite in w.composites
    ensures var d := w.composites[e.operands[0].composite]; d.kind != Slice && 0 <= e.integer < |d.Storage()|
    ensures var a, r, composite := GenExprs(w, g, e.operands), EvalExprs(w, fuel, st, e.operands), e.operands[0].composite;
            && GenExpr(w, g, e) == Def(a.g, ProjectValue(a.g.regs, composite, e.integer, a.os[0]))
            && EvalExpr(w, fuel, st, e) == After(r, if r.Ok? then Project(w.composites[composite], e.integer, r.v[0]) else Meaningless)
  {
    hide GenExprs, EvalExprs, Def, Project;
    Single(w, fuel, st, g, e.operands);
  }

  lemma ProjectCase(m: Module, c: Config, k: nat, fuel: nat, vs: Scopes, g: Gen, s: State, st: Store, e: Expression, k1: nat, s1: State)
    returns (k': nat, s': State)
    requires e.kind == ProjectE && OperandsDone(m, c, k, fuel, vs, g, s, st, e, k1, s1)
    ensures NodeDone(m, c, k, fuel, g, s, st, e, k', s')
  {
    hide GenExpr, EvalExpr, GenExprs, EvalExprs, ExprOk, Coded, Arrives, Ready, Computes, Grows, Run, StoreOk, Project, Def, HasComposite;
    ProjectShape(m.env, fuel, vs, g, st, e);
    ExprsGrow(m.env, g, e.operands);
    var composite := e.operands[0].composite;
    var a, r, d := GenExprs(m.env, g, e.operands), EvalExprs(m.env, fuel, st, e.operands), m.env.composites[composite];
    if r.Ok? {
      var x := Def(a.g, ProjectValue(a.g.regs, composite, e.integer, a.os[0]));
      ArrivesReady(m, c, g, s, st, a.g, r.st, k1, s1, x);
      assert HasType(m.env, r.v[0], Composite, composite);
      s' := ProjectSim(m, c, k1, a.g, s1, composite, e.integer, a.os[0], r.v[0]);
      k' := k1 + 1;
      ProjectSound(m.env, d, e.integer, r.v[0]);
      Applied(m, c, k, fuel, g, s, st, a.g, r.st, k1, s1, x, Project(d, e.integer, r.v[0]), k', s');
    } else {
      k', s' := k1, s1;
      Propagates(m, c, k, fuel, r, EvalExpr(m.env, fuel, st, e), k1);
    }
  }

  // ----- slices -----

  lemma GlobalFound(w: Env, vs: Scopes, g: Gen, name: string)
    requires Tracks(vs, g) && name in w.globals && Innermost(vs, name) < 0
    ensures Find(w, g, name) == Found(Imm(P(GlobalAddr(name))), w.globals[name])
  {
    forall i | 0 <= i < |vs| ensures vs[i].Keys == g.scopes[i].Keys {
      assert ScopeAgrees(vs[i], g.scopes[i]);
    }
    InnermostSame(vs, g.scopes, name);
  }

  lemma SliceShape(w: Env, fuel: nat, vs: Scopes, g: Gen, st: Store, e: Expression)
    requires ExprOk(w, vs, e) && e.kind == SliceE && Tracks(vs, GenExprs(w, g, e.operands).g)
    ensures |e.operands| == 2 && e.operands[0].ty == Int32 && e.operands[1].ty == Int32
    ensures e.name in w.globals && e.composite in w.composites && w.composites[e.composite].kind == Slice
    ensures var a, r := GenExprs(w, g, e.operands), EvalExprs(w, fuel, st, e.operands);
            && GenExpr(w, g, e) == GenSlice(a.g, Found(Imm(P(GlobalAddr(e.name))), w.globals[e.name]), e.composite, a.os[0], a.os[1])
            && EvalExpr(w, fuel, st, e) == After(r, if r.Ok? then MakeSlice(e.name, w.globals[e.name].extent, r.v[0], r.v[1]) else Meaningless)
  {
    hide GenExprs, EvalExprs, GenSlice, MakeSlice, Find, Tracks, Innermost, ValueType;
    Double(w, fuel, st, g, e.operands);
    GlobalFound(w, vs, GenExprs(w, g, e.operands).g, e.name);
  }

  lemma SliceCase(m: Module, c: Config, k: nat, fuel: nat, vs: Scopes, g: Gen, s: State, st: Store, e: Expression, k1: nat, s1: State)
    returns (k': nat, s': State)
    requires e.kind == SliceE && OperandsDone(m, c, k, fuel, vs, g, s, st, e, k1, s1) && Tracks(vs, g)
    ensures NodeDone(m, c, k, fuel, g, s, st, e, k', s')
  {
    ExprsTotal(m.env, vs, g, e.operands);
    SliceShape(m.env, fuel, vs, g, st, e);
    ExprsGrow(m.env, g, e.operands);
    ExprsBelow(m.env, g, e.operands, 0);
    ExprsBelow(m.env, g, e.operands, 1);
    hide GenExpr, EvalExpr, GenExprs, EvalExprs, ExprOk, Coded, Arrives, Ready, Computes, Grows, Run, StoreOk, GenSlice, MakeSlice, Tracks, HasType;
    var a, r := GenExprs(m.env, g, e.operands), EvalExprs(m.env, fuel, st, e.operands);
    if r.Ok? {
      var owner := Found(Imm(P(GlobalAddr(e.name))), m.env.globals[e.name]);
      var x := GenSlice(a.g, owner, e.composite, a.os[0], a.os[1]);
      ArrivesReady(m, c, g, s, st, a.g, r.st, k1, s1, x);
      ScalarOf(m.env, r.v[0], Int32, e.operands[0].composite);
      ScalarOf(m.env, r.v[1], Int32, e.operands[1].composite);
      k', s' := SliceSim(m, c, k1, a.g, s1, owner, e.name, e.composite, a.os[0], a.os[1], r.v[0].n, r.v[1].n);
      SliceDefined(e.name, owner.decl.extent, r.v[0], r.v[1]);
      Applied(m, c, k, fuel, g, s, st, a.g, r.st, k1, s1, x, MakeSlice(e.name, owner.decl.extent, r.v[0], r.v[1]), k', s');
    } else {
      k', s' := k1, s1;
      Propagates(m, c, k, fuel, r, EvalExpr(m.env, fuel, st, e), k1);
    }
  }

  lemma SliceDefined(name: string, extent: int, a: Value, b: Value)
    requires a.I? && b.I?
    ensures MakeSlice(name, extent, a, b) != Meaningless && a == I(a.n) && b == I(b.n)
  {
  }

  /** The slice variable as the evaluator and as the generated code see it. */
  ghost predicate SliceOwner(w: Env, vs: Scopes, g: Gen, st: Store, s: State, name: string, owner: Found, p: Pointer, v: Value) {
    && owner.Found? && owner == Find(w, g, name) && Holds(s, owner.o, P(p)) && LoadFrom(s.top, s.globals, p) == Cell(v)
    && Bound(st, Resolve(st, name)) && v == ReadBase(st, Resolve(st, name)) && SliceValue(w, owner.decl.composite, v)
  }

  lemma SliceOwned(w: Env, vs: Scopes, g: Gen, st: Store, s: State, name: string) returns (p: Pointer, v: Value)
    requires Live(w, vs, g, st, s) && Lookup(w, vs, name).Just? && Lookup(w, vs, name).value.ty == Composite
    requires var d := Lookup(w, vs, name).value; d.composite in w.composites && w.composites[d.composite].kind == Slice
    ensures SliceOwner(w, vs, g, st, s, name, Find(w, g, name), p, v)
  {
    FoundAddr(w, vs, g, st, s, name);
    ResolveOk(w, vs, st, name);
    var b := Resolve(st, name);
    LoadPlace(g.scopes, st, s.top, Whole(b));
    p, v := BaseAddr(g.scopes, b), ReadBase(st, b);
  }

  lemma SliceIndexNode(w: Env, vs: Scopes, e: Expression)
    requires ExprOk(w, vs, e) && e.kind == SliceIndexE
    ensures |e.operands| == 1 && e.operands[0].ty == Int32 && Lookup(w, vs, e.name).Just? && Lookup(w, vs, e.name).value.ty == Composite
    ensures var d := Lookup(w, vs, e.name).value; d.composite in w.composites && w.composites[d.composite].kind == Slice
  {
  }

  lemma SliceIndexShape(w: Env, fuel: nat, g: Gen, st: Store, e: Expression)
    requires e.kind == SliceIndexE && |e.operands| == 1
    requires var owner := Find(w, GenExprs(w, g, e.operands).g, e.name); owner.Found? && owner.decl.composite in w.composites
    ensures var a := GenExprs(w, g, e.operands); GenExpr(w, g, e) == GenSliceIndex(a.g, Find(w, a.g, e.name), a.os[0])
    ensures var r := EvalExprs(w, fuel, st, e.operands);
            r.Ok? && r.v[0].I? && Bound(r.st, Resolve(r.st, e.name)) ==>
            EvalExpr(w, fuel, st, e) == Lift(SliceElement(r.st.globals, ReadBase(r.st, Resolve(r.st, e.name)), r.v[0].n), r.st)
    ensures var r := EvalExprs(w, fuel, st, e.operands); !r.Ok? ==> EvalExpr(w, fuel, st, e) == r.PropagateFailure()
  {
    hide GenExprs, EvalExprs, GenSliceIndex, SliceElement, Find, ReadBase, Bound, Resolve;
    Single(w, fuel, st, g, e.operands);
  }

  lemma SliceIndexCase(m: Module, c: Config, k: nat, fuel: nat, vs: Scopes, g: Gen, s: State, st: Store, e: Expression, k1: nat, s1: State)
    returns (k': nat, s': State)
    requires e.kind == SliceIndexE && OperandsDone(m, c, k, fuel, vs, g, s, st, e, k1, s1) && Live(m.env, vs, g, st, s) && Sane(m.env)
    ensures NodeDone(m, c, k, fuel, g, s, st, e, k', s')
  {
    hide GenExpr, EvalExpr, GenExprs, EvalExprs, ExprOk, Coded, Ready, Grows, Run, StoreOk, GenSliceIndex, Tracks, HasType, Find, Lookup, TablesOk, SliceElement, ReadBase, Bound, Resolve, Moved, Stored, Agree, FunctionOk;
    OperandsReady(m.env, vs, g, e);
    SliceIndexNode(m.env, vs, e);
    FindOk(m.env, vs, GenExprs(m.env, g, e.operands).g, e.name);
    SliceIndexShape(m.env, fuel, g, st, e);
    var a, r := GenExprs(m.env, g, e.operands), EvalExprs(m.env, fuel, st, e.operands);
    if r.Ok? {
      var x := GenSliceIndex(a.g, Find(m.env, a.g, e.name), a.os[0]);
      LiveAfter(m.env, vs, g, s, st, a.g, s1, r.st);
      k', s' := SliceIndexRun(m, c, k, fuel, vs, g, s, st, e, a, r.st, k1, s1, r.v[0]);
    } else {
      k', s' := k1, s1;
      Propagates(m, c, k, fuel, r, EvalExpr(m.env, fuel, st, e), k1);
    }
  }

  lemma SliceIndexRun(m: Module, c: Config, k: nat, fuel: nat, vs: Scopes, g: Gen, s: State, st: Store, e: Expression, a: Outs, st1: Store, k1: nat, s1: State, i: Value)
    returns (k': nat, s': State)
    requires e.kind == SliceIndexE && ExprOk(m.env, vs, e) && TablesOk(m.env) && a == GenExprs(m.env, g, e.operands)
    requires Arrives(m, c, g, s, st, a.g, st1, k1, s1) && Live(m.env, vs, a.g, st1, s1) && k <= k1 && |a.os| == 1
    requires Holds(s1, a.os[0], i) && HasType(m.env, i, Int32, e.operands[0].composite)
    requires Find(m.env, a.g, e.name).Found? && Coded(m, s.top.fn, GenSliceIndex(a.g, Find(m.env, a.g, e.name), a.os[0]).g)
    ensures i.I? && Bound(st1, Resolve(st1, e.name))
    ensures Evaluates(m, c, k, fuel, g, s, st, GenSliceIndex(a.g, Find(m.env, a.g, e.name), a.os[0]),
                      Lift(SliceElement(st1.globals, ReadBase(st1, Resolve(st1, e.name)), i.n), st1), k', s')
  {
    hide GenExpr, GenExprs, ExprOk, Coded, Arrives, Ready, Computes, Grows, Run, StoreOk, GenSliceIndex, Tracks, Find, TablesOk, SliceElement, ReadBase, Bound, Resolve, Lookup, LoadFrom, SliceValue, Evaluates;
    SliceIndexNode(m.env, vs, e);
    ExprsBelow(m.env, g, e.operands, 0);
    ExprsGrow(m.env, g, e.operands);
    ScalarOf(m.env, i, Int32, e.operands[0].composite);
    var owner := Find(m.env, a.g, e.name);
    var x := GenSliceIndex(a.g, owner, a.os[0]);
    ArrivesReady(m, c, g, s, st, a.g, st1, k1, s1, x);
    var p, v := SliceOwned(m.env, vs, a.g, st1, s1, e.name);
    SliceDefinedAt(m.env, vs, st1, owner, v, i.n);
    k', s' := SliceIndexSim(m, c, k1, a.g, s1, owner, a.os[0], p, v, i.n);
    Applied(m, c, k, fuel, g, s, st, a.g, st1, k1, s1, x, SliceElement(st1.globals, v, i.n), k', s');
  }

  lemma SliceDefinedAt(w: Env, vs: Scopes, st: Store, owner: Found, v: Value, i: int)
    requires owner.Found? && TablesOk(w) && StoreOk(w, vs, st) && SliceValue(w, owner.decl.composite, v)
    ensures SliceElement(st.globals, v, i) != Meaningless
  {
    var c := w.composites[owner.decl.composite];
    assert CompositeOk(c);
    SliceElementSound(w, c, st.globals, v, i);
  }

  // ----- variables and array elements -----

  lemma VariableShape(w: Env, fuel: nat, g: Gen, st: Store, e: Expression)
    requires e.kind == VariableE && Find(w, g, e.name).Found? && Bound(st, Resolve(st, e.name))
    ensures GenPlace(w, g, e) == Out(g, Find(w, g, e.name).o)
    ensures EvalPlace(w, fuel, st, e) == Ok(Whole(Resolve(st, e.name)), st)
  {
    hide Find, Resolve, Bound;
  }

  lemma VariablePlace(m: Module, c: Config, k: nat, fuel: nat, vs: Scopes, g: Gen, s: State, st: Store, e: Expression)
    requires e.kind == VariableE && ExprOk(m.env, vs, e) && Live(m.env, vs, g, st, s) && Reached(m, c, k, g, s)
    ensures Locates(m, c, k, fuel, g, s, st, GenPlace(m.env, g, e), EvalPlace(m.env, fuel, st, e), k, s)
  {
    hide Run, At, Tracks, StoreOk, Stored, InStep, Find, Resolve, Moved, GenPlace, EvalPlace, ExprOk, Bound, HasStorage, Declares, Lookup, Locates, Holds, Known;
    VariableNode(m.env, vs, e);
    FoundAddr(m.env, vs, g, st, s, e.name);
    ResolveOk(m.env, vs, st, e.name);
    VariableShape(m.env, fuel, g, st, e);
    Nowhere(g, s, st);
    Located(m, c, k, fuel, g, s, st, Find(m.env, g, e.name).o, Resolve(st, e.name));
  }

  lemma VariableNode(w: Env, vs: Scopes, e: Expression)
    requires ExprOk(w, vs, e) && e.kind == VariableE
    ensures Lookup(w, vs, e.name).Just?
  {
  }

  lemma Located(m: Module, c: Config, k: nat, fuel: nat, g: Gen, s: State, st: Store, o: Operand, b: Base)
    requires Run(m, c, k) == Running(s) && Moved(g, s, st, g, s, st) && Known(g.scopes, b) && Holds(s, o, P(BaseAddr(g.scopes, b)))
    ensures Locates(m, c, k, fuel, g, s, st, Out(g, o), Ok(Whole(b), st), k, s)
  {
    hide Run, Moved;
  }

  lemma IndexShape(w: Env, fuel: nat, vs: Scopes, g: Gen, st: Store, e: Expression)
    requires ExprOk(w, vs, e) && e.kind == IndexE && Find(w, GenExprs(w, g, e.operands).g, e.name).Found?
    ensures |e.operands| == 1 && e.operands[0].ty == Int32 && Lookup(w, vs, e.name).Just? && Lookup(w, vs, e.name).value.extent > 0
    ensures var a := GenExprs(w, g, e.operands);
            var v := Find(w, a.g, e.name);
            GenPlace(w, g, e) == GenElement(a.g, v.o, v.decl.extent, a.os[0])
    ensures var r := EvalExprs(w, fuel, st, e.operands);
            && (!r.Ok? ==> EvalPlace(w, fuel, st, e) == r.PropagateFailure())
            && (r.Ok? && r.v[0].I? ==> EvalPlace(w, fuel, st, e) == ElementPlace(r.st, Resolve(r.st, e.name), r.v[0].n))
  {
    hide GenExprs, EvalExprs, GenElement, Find, ReadBase, Bound, Resolve;
    Single(w, fuel, st, g, e.operands);
  }

  function ElementPlace(st: Store, base: Base, i: int): R<Place> {
    if !Bound(st, base) || !ReadBase(st, base).Arr? then Wrong
    else if 0 <= i < |ReadBase(st, base).elems| then Ok(Element(base, i), st)
    else Fails(ArrayBounds, st)
  }

  lemma IndexNode(w: Env, vs: Scopes, e: Expression)
    requires ExprOk(w, vs, e) && e.kind == IndexE
    ensures |e.operands| == 1 && e.operands[0].ty == Int32 && Lookup(w, vs, e.name).Just?
  {
    hide Lookup;
  }

  lemma IndexPlace(m: Module, c: Config, k: nat, fuel: nat, vs: Scopes, g: Gen, s: State, st: Store, e: Expression, k1: nat, s1: State)
    returns (k': nat, s': State)
    requires e.kind == IndexE && ExprOk(m.env, vs, e) && Live(m.env, vs, g, st, s) && Coded(m, s.top.fn, GenPlace(m.env, g, e).g)
    requires EvaluatesAll(m, c, k, fuel, g, s, st, GenExprs(m.env, g, e.operands), EvalExprs(m.env, fuel, st, e.operands), k1, s1)
    requires TypedAll(m.env, vs, EvalExprs(m.env, fuel, st, e.operands), e.operands)
    ensures Locates(m, c, k, fuel, g, s, st, GenPlace(m.env, g, e), EvalPlace(m.env, fuel, st, e), k', s')
  {
    hide GenExpr, EvalExpr, GenExprs, EvalExprs, ExprOk, Coded, Grows, Run, StoreOk, GenElement, GenPlace, EvalPlace, Tracks, Find, Resolve, Locates, Moved, Stored, Lookup, ElementPlace, Agree, HasType;
    OperandsReady(m.env, vs, g, e);
    IndexNode(m.env, vs, e);
    FindOk(m.env, vs, GenExprs(m.env, g, e.operands).g, e.name);
    IndexShape(m.env, fuel, vs, g, st, e);
    var a, r := GenExprs(m.env, g, e.operands), EvalExprs(m.env, fuel, st, e.operands);
    if r.Ok? {
      ScalarOf(m.env, r.v[0], Int32, e.operands[0].composite);
      LiveAfter(m.env, vs, g, s, st, a.g, s1, r.st);
      k', s' := IndexRun(m, c, k, fuel, vs, g, s, st, e, a, r.st, k1, s1, r.v[0].n);
    } else {
      k', s' := k1, s1;
      PlaceFails(m, c, k, fuel, g, s, st, GenPlace(m.env, g, e), r, EvalPlace(m.env, fuel, st, e), k1, s1);
    }
  }

  lemma PlaceFails<A>(m: Module, c: Config, k: nat, fuel: nat, g: Gen, s: State, st: Store, x: Out, r: R<A>, q: R<Place>, k1: nat, s1: State)
    requires Stops(m, c, k, fuel, r, k1) && !r.Ok? && q == r.PropagateFailure()
    ensures Locates(m, c, k, fuel, g, s, st, x, q, k1, s1)
  {
  }

  lemma IndexRun(m: Module, c: Config, k: nat, fuel: nat, vs: Scopes, g: Gen, s: State, st: Store, e: Expression, a: Outs, st1: Store, k1: nat, s1: State, i: int)
    returns (k': nat, s': State)
    requires ExprOk(m.env, vs, e) && e.kind == IndexE && a == GenExprs(m.env, g, e.operands) && |a.os| == 1
    requires Arrives(m, c, g, s, st, a.g, st1, k1, s1) && Live(m.env, vs, a.g, st1, s1) && k <= k1 && Holds(s1, a.os[0], I(i))
    requires var v := Find(m.env, a.g, e.name); v.Found? && Coded(m, s.top.fn, GenElement(a.g, v.o, v.decl.extent, a.os[0]).g)
    ensures var v := Find(m.env, a.g, e.name);
            Locates(m, c, k, fuel, g, s, st, GenElement(a.g, v.o, v.decl.extent, a.os[0]), ElementPlace(st1, Resolve(st1, e.name), i), k', s')
  {
    ExprsBelow(m.env, g, e.operands, 0);
    ExprsGrow(m.env, g, e.operands);
    FoundAddr(m.env, vs, a.g, st1, s1, e.name);
    ResolveOk(m.env, vs, st1, e.name);
    var v, b := Find(m.env, a.g, e.name), Resolve(st1, e.name);
    var x := GenElement(a.g, v.o, v.decl.extent, a.os[0]);
    ArrivesReady(m, c, g, s, st, a.g, st1, k1, s1, x);
    var p := BaseAddr(a.g.scopes, b);
    assert ReadBase(st1, b).Arr? && |ReadBase(st1, b).elems| == v.decl.extent;
    assert a.g.scopes == g.scopes;
    hide GenExpr, GenExprs, ExprOk, Coded, Arrives, Ready, Grows, Run, StoreOk, GenElement, Tracks, Find, Resolve, Lookup, Locates, Live;
    k', s' := ElementSim(m, c, k1, a.g, s1, v.o, v.decl.extent, a.os[0], p, i);
    ElementLocated(m, c, k, fuel, g, s, st, a.g, st1, k1, s1, x, b, v.decl.extent, i, k', s');
  }

  lemma ElementLocated(m: Module, c: Config, k: nat, fuel: nat, g: Gen, s: State, st: Store, h: Gen, st1: Store, k1: nat, s1: State, x: Out, b: Base, extent: int, i: int, k': nat, s': State)
    requires Moved(g, s, st, h, s1, st1) && Grows(g, h) && k <= k1 <= k' && Known(g.scopes, b)
    requires Bound(st1, b) && ReadBase(st1, b).Arr? && |ReadBase(st1, b).elems| == extent
    requires Computes(m, c, k', h, s1, x, ElementResult(BaseAddr(g.scopes, b), extent, i), s')
    ensures Locates(m, c, k, fuel, g, s, st, x, ElementPlace(st1, b, i), k', s')
  {
    hide Run, Fine, Sealed, ReadBase;
    if 0 <= i < extent {
      KeepsTrans(g, h, s.top, s1.top, s'.top);
    }
  }

  /** Reading the located place. */
  lemma LoadCase(m: Module, c: Config, k: nat, fuel: nat, vs: Scopes, g: Gen, s: State, st: Store, e: Expression, k1: nat, s1: State)
    returns (k': nat, s': State)
    requires Assignable(e) && Live(m.env, vs, g, st, s) && Coded(m, s.top.fn, GenExpr(m.env, g, e).g)
    requires Locates(m, c, k, fuel, g, s, st, GenPlace(m.env, g, e), EvalPlace(m.env, fuel, st, e), k1, s1)
    requires PlaceTyped(m.env, vs, EvalPlace(m.env, fuel, st, e), e)
    ensures NodeDone(m, c, k, fuel, g, s, st, e, k', s')
  {
    hide GenExpr, EvalExpr, GenPlace, EvalPlace, Grows, Run, StoreOk, Live, Coded, PlaceOk, HoldsPlace, Def, Arrives, Valid, Read;
    PlaceGrows(m.env, g, e);
    LoadShape(m.env, fuel, g, st, e);
    var p, r := GenPlace(m.env, g, e), EvalPlace(m.env, fuel, st, e);
    if r.Ok? {
      s' := LoadRun(m, c, k, fuel, vs, g, s, st, p, r.st, k1, s1, r.v, e.ty, e.composite);
      k' := k1 + 1;
    } else {
      k', s' := k1, s1;
      Propagates(m, c, k, fuel, r, EvalExpr(m.env, fuel, st, e), k1);
    }
  }

  lemma LoadRun(m: Module, c: Config, k: nat, fuel: nat, vs: Scopes, g: Gen, s: State, st: Store, x: Out, st1: Store, k1: nat, s1: State, p: Place, t: ScalarType, composite: string)
    returns (s': State)
    requires Live(m.env, vs, g, st, s) && Grows(g, x.g) && Arrives(m, c, g, s, st, x.g, st1, k1, s1) && k <= k1
    requires StoreOk(m.env, vs, st1) && PlaceOk(m.env, vs, p, t, composite) && HoldsPlace(g.scopes, s1, x.o, p)
    requires Coded(m, s.top.fn, Def(x.g, Load(x.g.regs, x.o)).g)
    ensures Evaluator.Valid(st1, p)
    ensures Evaluates(m, c, k, fuel, g, s, st, Def(x.g, Load(x.g.regs, x.o)), Ok(Read(st1, p), st1), k1 + 1, s')
  {
    hide Grows, Run, StoreOk, Coded, Ready, Computes, PlaceOk, Addr, Def, Valid, Read, Stored, Tracks, Moved, LoadFrom, Evaluates, Arrives;
    ReadOk(m.env, vs, st1, p, t, composite);
    var y := Def(x.g, Load(x.g.regs, x.o));
    ArrivesReady(m, c, g, s, st, x.g, st1, k1, s1, y);
    StoredStill(g.scopes, st, s, st1, s1);
    LoadPlace(g.scopes, st1, s1.top, p);
    s' := LoadSim(m, c, k1, x.g, s1, x.o, Addr(g.scopes, p), Read(st1, p));
    Applied(m, c, k, fuel, g, s, st, x.g, st1, k1, s1, y, Val(Read(st1, p)), k1 + 1, s');
  }

  lemma StoredStill(bs: Bindings, st: Store, s: State, st1: Store, s1: State)
    requires Stored(bs, st.scopes, s.top) && st1.scopes == st.scopes && s1.top.slots == s.top.slots
    ensures Stored(bs, st1.scopes, s1.top)
  {
  }

  lemma LoadShape(w: Env, fuel: nat, g: Gen, st: Store, e: Expression)
    requires Assignable(e)
    ensures var p := GenPlace(w, g, e); GenExpr(w, g, e) == Def(p.g, Load(p.g.regs, p.o))
    ensures var r := EvalPlace(w, fuel, st, e);
            && (!r.Ok? ==> EvalExpr(w, fuel, st, e) == r.PropagateFailure())
            && (r.Ok? && Evaluator.Valid(r.st, r.v) ==> EvalExpr(w, fuel, st, e) == Ok(Read(r.st, r.v), r.st))
  {
    hide EvalPlace, Valid, Read, GenPlace;
  }

  lemma LoadSim(m: Module, c: Config, k: nat, g: Gen, s: State, o: Operand, p: Pointer, v: Value) returns (s': State)
    requires Ready(m, c, k, g, s, Def(g, Load(g.regs, o))) && Holds(s, o, P(p)) && LoadFrom(s.top, s.globals, p) == Cell(v)
    ensures Computes(m, c, k + 1, g, s, Def(g, Load(g.regs, o)), Val(v), s')
  {
    hide Ready, Computes, LoadFrom;
    OneSim(m, c, k, g, s, Load(g.regs, o), v);
    s' := Put(s, g.regs, v);
  }

  lemma LiteralCase(m: Module, c: Config, k: nat, fuel: nat, g: Gen, s: State, st: Store, e: Expression)
    requires e.kind in {IntegerE, BooleanE, FloatE, StringE} && InStep(s, st) && Reached(m, c, k, g, s)
    ensures NodeDone(m, c, k, fuel, g, s, st, e, k, s)
  {
    hide Run, Moved;
    Nowhere(g, s, st);
  }
}
