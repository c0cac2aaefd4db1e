/**
Runs of the code that touches memory: variables and array elements, composites and slices.
A well-typed slice needs no more than its single unsigned index check, and the re-checks a
projection performs on a well-typed value never trap.
*/
module Access {
  import opened Wrappers
  import opened SemanticIR
  import opened Typing
  import opened Evaluator
  import opened Soundness
  import opened Machine
  import opened Codegen
  import opened Growth
  import opened Lockstep
  import opened Straight

  // ----- variables and their slots -----

  ghost predicate ScopeStored(b: map<string, Binding>, m: map<string, Value>, f: Frame) {
    b.Keys == m.Keys && forall x <- b :: b[x].slot in f.slots && f.slots[b[x].slot] == m[x]
  }

  /** The frame's slots hold what the evaluator's scopes hold. */
  ghost predicate Stored(bs: Bindings, ms: seq<map<string, Value>>, f: Frame) {
    |bs| == |ms| && forall i | 0 <= i < |bs| :: ScopeStored(bs[i], ms[i], f)
  }

  predicate Known(bs: Bindings, b: Base) {
    b.Local? ==> b.depth < |bs| && b.name in bs[b.depth]
  }

  function BaseAddr(bs: Bindings, b: Base): Pointer
    requires Known(bs, b)
  {
    match b
    case Global(x) => GlobalAddr(x)
    case Local(i, x) => SlotAddr(bs[i][x].slot)
  }

  function Addr(bs: Bindings, p: Place): Pointer
    requires Known(bs, p.base)
  {
    match p
    case Whole(b) => BaseAddr(bs, b)
    case Element(Global(x), i) => GlobalElem(x, i)
    case Element(Local(d, x), i) => SlotElem(bs[d][x].slot, i)
  }

  lemma LoadPlace(bs: Bindings, st: Store, f: Frame, p: Place)
    requires Stored(bs, st.scopes, f) && Evaluator.Valid(st, p)
    ensures Known(bs, p.base) && LoadFrom(f, st.globals, Addr(bs, p)) == Cell(Read(st, p))
  {
    if p.base.Local? {
      assert ScopeStored(bs[p.base.depth], st.scopes[p.base.depth], f);
    }
  }

  /** The machine state that runs in step with the store. */
  predicate InStep(s: State, st: Store) {
    s.globals == st.globals && s.out == st.out
  }

  lemma StoreSlot(bs: Bindings, slots: nat, st: Store, f: Frame, d: nat, x: string, v: Value)
    requires Stored(bs, st.scopes, f) && Separate(bs, slots) && d < |bs| && x in bs[d]
    ensures Stored(bs, st.scopes[d := st.scopes[d][x := v]], f.(slots := f.slots[bs[d][x].slot := v]))
  {
    var ms, f' := st.scopes[d := st.scopes[d][x := v]], f.(slots := f.slots[bs[d][x].slot := v]);
    forall i | 0 <= i < |bs| ensures ScopeStored(bs[i], ms[i], f') {
      assert ScopeStored(bs[i], st.scopes[i], f);
    }
  }

  ghost predicate GlobalsOk(w: Env, st: Store) {
    ScopeOk(w, w.globals, st.globals)
  }

  /** Storing through a place's address is writing the place. */
  lemma StorePlace(w: Env, bs: Bindings, slots: nat, st: Store, s: State, p: Place, v: Value) returns (f': Frame)
    requires Stored(bs, st.scopes, s.top) && Separate(bs, slots) && InStep(s, st) && Evaluator.Valid(st, p) && Known(bs, p.base)
    requires GlobalsOk(w, Write(st, p, v))
    ensures StoreAt(w, s, Addr(bs, p), v) == Running(s.(top := f', globals := Write(st, p, v).globals))
    ensures f' == s.top.(slots := f'.slots) && Stored(bs, Write(st, p, v).scopes, f') && Write(st, p, v).out == st.out
  {
    match p.base
    case Global(x) => f' := s.top;
    case Local(d, x) =>
      assert ScopeStored(bs[d], st.scopes[d], s.top);
      var u := if p.Whole? then v else Arr(ReadBase(st, p.base).elems[p.index := v]);
      f' := s.top.(slots := s.top.slots[bs[d][x].slot := u]);
      StoreSlot(bs, slots, st, s.top, d, x, u);
  }

  /** A found variable's operand is its base's address. */
  lemma FoundAddr(w: Env, vs: Scopes, g: Gen, st: Store, s: State, name: string)
    requires StoreOk(w, vs, st) && Tracks(vs, g) && Stored(g.scopes, st.scopes, s.top) && Lookup(w, vs, name).Just?
    ensures Find(w, g, name).Found? && Known(g.scopes, Resolve(st, name))
    ensures Holds(s, Find(w, g, name).o, P(BaseAddr(g.scopes, Resolve(st, name)))) && !Find(w, g, name).o.Reg?
    ensures Find(w, g, name).decl == Lookup(w, vs, name).value
  {
    FindOk(w, vs, g, name);
    ResolveOk(w, vs, st, name);
    forall i | 0 <= i < |vs| ensures vs[i].Keys == g.scopes[i].Keys && vs[i].Keys == st.scopes[i].Keys {
      assert ScopeAgrees(vs[i], g.scopes[i]);
      assert ScopeOk(w, vs[i], st.scopes[i]);
    }
    InnermostSame(vs, g.scopes, name);
    InnermostSame(vs, st.scopes, name);
  }

  // ----- array elements -----

  function ElementOf(p: Pointer, i: int): Pointer
    requires p.GlobalAddr? || p.SlotAddr?
  {
    if p.GlobalAddr? then GlobalElem(p.name, i) else SlotElem(p.slot, i)
  }

  function ElementResult(p: Pointer, extent: int, i: int): Computed
    requires p.GlobalAddr? || p.SlotAddr?
  {
    if 0 <= i < extent then Val(P(ElementOf(p, i))) else Faults(ArrayBounds)
  }

  lemma BoundsRun(m: Module, c: Config, k: nat, g: Gen, s: State, extent: int, index: Operand, i: int, low: bool, high: bool) returns (t: State)
    requires On(m, c, k, g, s, g, 0, s) && Coded(m, s.top.fn, EmitAll(g, BoundsGuard(g.regs, extent, index)))
    requires Holds(s, index, I(i)) && Below(index, g.regs) && low == IntCompare(Lt, i, 0) && high == IntCompare(Ge, i, extent)
    ensures On(m, c, k + 3, g, s, g, 3, t) && Holds(t, Reg(g.regs + 2), Truth(low || high)) && Carries(g.regs, s, t)
  {
    hide EmitAll, Coded, On, Run, Holds, Put, Truth, IntCompare, Undisturbed, Beyond;
    var n, js := g.regs, BoundsGuard(g.regs, extent, index);
    NextCmp(m, c, k, g, s, g, js, 0, s, Lt, i, 0);
    var s1 := Put(s, n, Truth(low));
    NextCmp(m, c, k + 1, g, s, g, js, 1, s1, Ge, i, extent);
    var s2 := Put(s1, n + 1, Truth(high));
    NextLogic(m, c, k + 2, g, s, g, js, 2, s2, low, high, low || high);
    t := Put(s2, n + 2, Truth(low || high));
  }

  lemma ElementCoded(m: Module, fn: string, g: Gen, base: Operand, extent: int, index: Operand)
    requires Coded(m, fn, GenElement(g, base, extent, index).g)
    ensures var e := EmitAll(g, BoundsGuard(g.regs, extent, index));
            var h := FailureIf(e, Reg(g.regs + 2), ArrayBounds);
            && Coded(m, fn, e) && Coded(m, fn, h) && Coded(m, fn, EmitAll(h, [Gep(h.regs, base, index)]))
            && GenElement(g, base, extent, index) == DefAll(h, [Gep(h.regs, base, index)])
  {
    hide Coded;
    var bad := DefAll(g, BoundsGuard(g.regs, extent, index));
    var h := FailureIf(bad.g, bad.o, ArrayBounds);
    DefIsDefAll(h, Gep(h.regs, base, index));
    CodedDef(m, fn, h, Gep(h.regs, base, index));
    CodedFailure(m, fn, bad.g, bad.o, ArrayBounds);
  }

  lemma ElementSim(m: Module, c: Config, k: nat, g: Gen, s: State, base: Operand, extent: int, index: Operand, p: Pointer, i: int)
    returns (k': nat, s': State)
    requires Ready(m, c, k, g, s, GenElement(g, base, extent, index)) && (p.GlobalAddr? || p.SlotAddr?)
    requires Holds(s, base, P(p)) && Holds(s, index, I(i)) && Below(base, g.regs) && Below(index, g.regs)
    ensures k' > k && Computes(m, c, k', g, s, GenElement(g, base, extent, index), ElementResult(p, extent, i), s')
  {
    hide EmitAll, GenElement, Coded, On, Run, Holds, Computes, FailureIf, Past, IntCompare, Truth;
    Begin(m, c, k, g, s);
    ElementCoded(m, s.top.fn, g, base, extent, index);
    var low, high := IntCompare(Lt, i, 0), IntCompare(Ge, i, extent);
    var t := BoundsRun(m, c, k, g, s, extent, index, i, low, high);
    k', s' := ElementEnd(m, c, k + 3, g, s, t, base, extent, index, p, i, low || high);
  }

  lemma ElementEnd(m: Module, c: Config, k: nat, g: Gen, s: State, t: State, base: Operand, extent: int, index: Operand, p: Pointer, i: int, bad: bool)
    returns (k': nat, s': State)
    requires (p.GlobalAddr? || p.SlotAddr?) && bad == (IntCompare(Lt, i, 0) || IntCompare(Ge, i, extent))
    requires On(m, c, k, g, s, g, 3, t) && Holds(t, Reg(g.regs + 2), Truth(bad))
    requires Holds(t, base, P(p)) && Holds(t, index, I(i)) && Below(base, g.regs) && Below(index, g.regs)
    requires var h := FailureIf(EmitAll(g, BoundsGuard(g.regs, extent, index)), Reg(g.regs + 2), ArrayBounds);
             Coded(m, t.top.fn, h) && Coded(m, t.top.fn, EmitAll(h, [Gep(h.regs, base, index)]))
    ensures var h := FailureIf(EmitAll(g, BoundsGuard(g.regs, extent, index)), Reg(g.regs + 2), ArrayBounds);
            k' > k && Computes(m, c, k', g, s, DefAll(h, [Gep(h.regs, base, index)]), ElementResult(p, extent, i), s')
  {
    hide EmitAll, Coded, On, Run, Holds, Computes, FailureIf, Past, Truth, Put;
    var js := BoundsGuard(g.regs, extent, index);
    var h := FailureIf(EmitAll(g, js), Reg(g.regs + 2), ArrayBounds);
    NextFailure(m, c, k, g, s, g, js, t, Reg(g.regs + 2), ArrayBounds, bad);
    if bad {
      k', s' := k + 2, s;
      Faulted(m, c, k', g, s, DefAll(h, [Gep(h.regs, base, index)]), ArrayBounds);
    } else {
      s' := GepRun(m, c, k + 1, g, s, h, Past(t, EmitAll(g, js)), base, index, p, i);
      k' := k + 2;
    }
  }

  lemma GepRun(m: Module, c: Config, k: nat, g: Gen, s: State, h: Gen, t: State, base: Operand, index: Operand, p: Pointer, i: int) returns (s': State)
    requires On(m, c, k, g, s, h, 0, t) && Coded(m, t.top.fn, EmitAll(h, [Gep(h.regs, base, index)])) && (p.GlobalAddr? || p.SlotAddr?)
    requires Holds(t, base, P(p)) && Holds(t, index, I(i))
    ensures Computes(m, c, k + 1, g, s, DefAll(h, [Gep(h.regs, base, index)]), Val(P(ElementOf(p, i))), s')
  {
    hide EmitAll, Coded, On, Run, Computes;
    var v := P(ElementOf(p, i));
    NextDef(m, c, k, g, s, h, [Gep(h.regs, base, index)], 0, t, v);
    s' := Put(t, h.regs, v);
    Finished(m, c, k + 1, g, s, h, [Gep(h.regs, base, index)], s', v);
  }

  // ----- composites -----

  /** The outcome of one instruction that builds or inspects a composite. */
  function AsComputed(r: Made): Computed {
    match r
    case Built(v) => Val(v)
    case Aborted(f) => Faults(f)
    case Undefined => Meaningless
  }

  lemma MadeSim(m: Module, c: Config, k: nat, g: Gen, s: State, i: Instr, r: Made) returns (s': State)
    requires Ready(m, c, k, g, s, Def(g, i)) && Perform(m, s, i) == DefineMade(s, g.regs, r)
    ensures Computes(m, c, k + 1, g, s, Def(g, i), AsComputed(r), s')
  {
    hide Perform, Run;
    s' := s;
    match r
    case Built(v) =>
      OneSim(m, c, k, g, s, i, v);
      s' := Put(s, g.regs, v);
    case Aborted(f) =>
      CodedDef(m, s.top.fn, g, i);
      Then(m, c, k, g, i, s);
    case Undefined =>
  }

  lemma ConstructSim(m: Module, c: Config, k: nat, g: Gen, s: State, composite: string, os: seq<Operand>, vs: seq<Value>) returns (s': State)
    requires composite in m.env.composites && m.env.composites[composite].kind != Slice
    requires Ready(m, c, k, g, s, Def(g, MakeValue(g.regs, composite, os))) && HasAll(s.top, os) && GetAll(s.top, os) == vs
    ensures Computes(m, c, k + 1, g, s, Def(g, MakeValue(g.regs, composite, os)), Construct(m.env.composites[composite], vs), s')
  {
    hide Computes, Ready;
    s' := MadeSim(m, c, k, g, s, MakeValue(g.regs, composite, os), Make(m.env.composites[composite], vs));
  }

  lemma ProjectionIs(w: Env, c: CompositeDecl, index: int, v: Value)
    requires c.kind != Slice && HasComposite(w, v, c) && 0 <= index < |c.Storage()|
    ensures AsComputed(Projection(c, index, v)) == Project(c, index, v)
  {
    if c.Tagged() {
      assert HasScalar(v.fields[0], c.Storage()[0]);
    }
  }

  lemma ProjectSim(m: Module, c: Config, k: nat, g: Gen, s: State, composite: string, index: int, o: Operand, v: Value) returns (s': State)
    requires composite in m.env.composites && m.env.composites[composite].kind != Slice
    requires HasComposite(m.env, v, m.env.composites[composite]) && 0 <= index < |m.env.composites[composite].Storage()|
    requires Ready(m, c, k, g, s, Def(g, ProjectValue(g.regs, composite, index, o))) && Holds(s, o, v)
    ensures Computes(m, c, k + 1, g, s, Def(g, ProjectValue(g.regs, composite, index, o)), Project(m.env.composites[composite], index, v), s')
  {
    hide Computes, Ready, Projection, Project, HasComposite;
    ProjectionIs(m.env, m.env.composites[composite], index, v);
    s' := MadeSim(m, c, k, g, s, ProjectValue(g.regs, composite, index, o), Projection(m.env.composites[composite], index, v));
  }

  // ----- slices -----

  lemma RangeRun(m: Module, c: Config, k: nat, g: Gen, s: State, extent: int, offset: Operand, length: Operand, a: int, b: int) returns (t: State)
    requires On(m, c, k, g, s, g, 0, s) && Coded(m, s.top.fn, EmitAll(g, RangeGuard(g.regs, extent, offset, length)))
    requires Holds(s, offset, I(a)) && Holds(s, length, I(b)) && Below(offset, g.regs) && Below(length, g.regs)
    ensures On(m, c, k + 4, g, s, g, 4, t) && Holds(t, Reg(g.regs), I(a)) && Holds(t, Reg(g.regs + 1), I(b))
    ensures Holds(t, Reg(g.regs + 2), Truth(IntCompare(Lt, a, 0))) && Holds(t, Reg(g.regs + 3), Truth(IntCompare(Lt, b, 0))) && Carries(g.regs, s, t)
  {
    hide EmitAll, Coded, On, Run, Holds, Put, Truth, IntCompare, Undisturbed, Beyond;
    var n, js := g.regs, RangeGuard(g.regs, extent, offset, length);
    NextUn(m, c, k, g, s, g, js, 0, s, I(a), I(a));
    var s1 := Put(s, n, I(a));
    NextUn(m, c, k + 1, g, s, g, js, 1, s1, I(b), I(b));
    var s2 := Put(s1, n + 1, I(b));
    NextCmp(m, c, k + 2, g, s, g, js, 2, s2, Lt, a, 0);
    var s3 := Put(s2, n + 2, Truth(IntCompare(Lt, a, 0)));
    NextCmp(m, c, k + 3, g, s, g, js, 3, s3, Lt, b, 0);
    t := Put(s3, n + 3, Truth(IntCompare(Lt, b, 0)));
  }

  lemma Wrap64Small(n: int)
    requires -0x1_0000_0000 <= n <= 0x1_0000_0000
    ensures Wrap64(n) == n
  {
  }

  lemma RangeSum(m: Module, c: Config, k: nat, g: Gen, s: State, t: State, extent: int, offset: Operand, length: Operand, a: int, b: int) returns (u: State)
    requires On(m, c, k, g, s, g, 5, t) && Coded(m, t.top.fn, EmitAll(g, RangeGuard(g.regs, extent, offset, length)))
    requires Holds(t, Reg(g.regs), I(a)) && Holds(t, Reg(g.regs + 1), I(b)) && InInt32(a) && InInt32(b)
    ensures On(m, c, k + 2, g, s, g, 7, u) && Holds(u, Reg(g.regs + 6), Truth(IntCompare(Gt, a + b, extent))) && Carries(g.regs + 5, t, u)
  {
    hide EmitAll, Coded, On, Run, Holds, Put, Truth, IntCompare, Undisturbed, Beyond, Wrap64, Perform;
    Wrap64Small(a + b);
    var n, js := g.regs, RangeGuard(g.regs, extent, offset, length);
    NextBin(m, c, k, g, s, g, js, 5, t, I(a), I(b), I(a + b));
    var s2 := Put(t, n + 5, I(a + b));
    NextCmp(m, c, k + 1, g, s, g, js, 6, s2, Gt, a + b, extent);
    u := Put(s2, n + 6, Truth(IntCompare(Gt, a + b, extent)));
  }

  lemma RangeCheck(m: Module, c: Config, k: nat, g: Gen, s: State, t: State, extent: int, offset: Operand, length: Operand, a: int, b: int, low: bool, short: bool, long: bool)
    returns (u: State)
    requires On(m, c, k, g, s, g, 4, t) && Coded(m, t.top.fn, EmitAll(g, RangeGuard(g.regs, extent, offset, length)))
    requires Holds(t, Reg(g.regs), I(a)) && Holds(t, Reg(g.regs + 1), I(b)) && InInt32(a) && InInt32(b)
    requires Holds(t, Reg(g.regs + 2), Truth(low)) && Holds(t, Reg(g.regs + 3), Truth(short)) && long == IntCompare(Gt, a + b, extent)
    ensures On(m, c, k + 4, g, s, g, 8, u) && Holds(u, Reg(g.regs + 7), Truth((low || short) || long)) && Carries(g.regs + 4, t, u)
  {
    hide EmitAll, Coded, On, Run, Holds, Put, Truth, IntCompare, Undisturbed, Beyond;
    var n, js := g.regs, RangeGuard(g.regs, extent, offset, length);
    NextLogic(m, c, k, g, s, g, js, 4, t, low, short, low || short);
    var s1 := Put(t, n + 4, Truth(low || short));
    var s3 := RangeSum(m, c, k + 1, g, s, s1, extent, offset, length, a, b);
    assert Holds(s3, Reg(n + 4), Truth(low || short));
    NextLogic(m, c, k + 3, g, s, g, js, 7, s3, low || short, long, (low || short) || long);
    u := Put(s3, n + 7, Truth((low || short) || long));
  }

  function SliceTail(n: nat, owner: Operand, composite: string): seq<Instr> {
    [Gep(n + 8, owner, Reg(n)), MakeValue(n + 9, composite, [Reg(n + 8), Reg(n + 1)])]
  }

  lemma SliceCoded(m: Module, fn: string, g: Gen, owner: Found, composite: string, offset: Operand, length: Operand)
    requires owner.Found? && Coded(m, fn, GenSlice(g, owner, composite, offset, length).g)
    ensures var e := EmitAll(g, RangeGuard(g.regs, owner.decl.extent, offset, length));
            var h := FailureIf(e, Reg(g.regs + 7), SliceRange);
            && Coded(m, fn, e) && Coded(m, fn, h) && Coded(m, fn, EmitAll(h, SliceTail(g.regs, owner.o, composite)))
            && GenSlice(g, owner, composite, offset, length) == DefAll(h, SliceTail(g.regs, owner.o, composite))
  {
    hide Coded;
    var bad := DefAll(g, RangeGuard(g.regs, owner.decl.extent, offset, length));
    var h := FailureIf(bad.g, bad.o, SliceRange);
    CodedEmitAll(m, fn, h, SliceTail(g.regs, owner.o, composite));
    CodedFailure(m, fn, bad.g, bad.o, SliceRange);
  }

  /** Building a slice traps exactly outside the owner, and its descriptor check never does. */
  lemma SliceSim(m: Module, c: Config, k: nat, g: Gen, s: State, owner: Found, name: string, composite: string, offset: Operand, length: Operand, a: int, b: int)
    returns (k': nat, s': State)
    requires owner.Found? && Ready(m, c, k, g, s, GenSlice(g, owner, composite, offset, length))
    requires composite in m.env.composites && m.env.composites[composite].kind == Slice && owner.o == Imm(P(GlobalAddr(name)))
    requires Holds(s, offset, I(a)) && Holds(s, length, I(b)) && Below(offset, g.regs) && Below(length, g.regs) && InInt32(a) && InInt32(b)
    ensures k' > k && Computes(m, c, k', g, s, GenSlice(g, owner, composite, offset, length), MakeSlice(name, owner.decl.extent, I(a), I(b)), s')
  {
    hide EmitAll, GenSlice, Coded, On, Run, Holds, Computes, FailureIf, IntCompare, Truth, MakeSlice;
    Begin(m, c, k, g, s);
    SliceCoded(m, s.top.fn, g, owner, composite, offset, length);
    var extent := owner.decl.extent;
    var t := RangeRun(m, c, k, g, s, extent, offset, length, a, b);
    var bad := (IntCompare(Lt, a, 0) || IntCompare(Lt, b, 0)) || IntCompare(Gt, a + b, extent);
    var u := RangeCheck(m, c, k + 4, g, s, t, extent, offset, length, a, b, IntCompare(Lt, a, 0), IntCompare(Lt, b, 0), IntCompare(Gt, a + b, extent));
    k', s' := SliceEnd(m, c, k + 8, g, s, u, owner, name, composite, offset, length, a, b, bad);
  }

  lemma SliceEnd(m: Module, c: Config, k: nat, g: Gen, s: State, t: State, owner: Found, name: string, composite: string, offset: Operand, length: Operand, a: int, b: int, bad: bool)
    returns (k': nat, s': State)
    requires owner.Found? && composite in m.env.composites && m.env.composites[composite].kind == Slice && owner.o == Imm(P(GlobalAddr(name)))
    requires On(m, c, k, g, s, g, 8, t) && Holds(t, Reg(g.regs), I(a)) && Holds(t, Reg(g.regs + 1), I(b)) && Holds(t, Reg(g.regs + 7), Truth(bad))
    requires bad == ((IntCompare(Lt, a, 0) || IntCompare(Lt, b, 0)) || IntCompare(Gt, a + b, owner.decl.extent))
    requires var h := FailureIf(EmitAll(g, RangeGuard(g.regs, owner.decl.extent, offset, length)), Reg(g.regs + 7), SliceRange);
             Coded(m, t.top.fn, h) && Coded(m, t.top.fn, EmitAll(h, SliceTail(g.regs, owner.o, composite)))
    ensures var h := FailureIf(EmitAll(g, RangeGuard(g.regs, owner.decl.extent, offset, length)), Reg(g.regs + 7), SliceRange);
            k' > k && Computes(m, c, k', g, s, DefAll(h, SliceTail(g.regs, owner.o, composite)), MakeSlice(name, owner.decl.extent, I(a), I(b)), s')
  {
    hide EmitAll, Coded, On, Run, Holds, Computes, FailureIf, Past, Truth;
    var js := RangeGuard(g.regs, owner.decl.extent, offset, length);
    var h := FailureIf(EmitAll(g, js), Reg(g.regs + 7), SliceRange);
    NextFailure(m, c, k, g, s, g, js, t, Reg(g.regs + 7), SliceRange, bad);
    if bad {
      k', s' := k + 2, s;
      Faulted(m, c, k', g, s, DefAll(h, SliceTail(g.regs, owner.o, composite)), SliceRange);
    } else {
      s' := SliceBuild(m, c, k + 1, g, s, h, Past(t, EmitAll(g, js)), g.regs, name, composite, a, b);
      k' := k + 3;
    }
  }

  lemma SlicePlaced(m: Module, t: State, n: nat, d: nat, name: string, a: int)
    requires Holds(t, Reg(n), I(a))
    ensures Perform(m, t, Gep(d, Imm(P(GlobalAddr(name))), Reg(n))) == Running(Put(t, d, P(GlobalElem(name, a))))
  {
  }

  lemma SliceBuild(m: Module, c: Config, k: nat, g: Gen, s: State, h: Gen, t: State, n: nat, name: string, composite: string, a: int, b: int) returns (s': State)
    requires composite in m.env.composites && m.env.composites[composite].kind == Slice && h.regs == n + 8 && 0 <= b
    requires On(m, c, k, g, s, h, 0, t) && Coded(m, t.top.fn, EmitAll(h, SliceTail(n, Imm(P(GlobalAddr(name))), composite)))
    requires Holds(t, Reg(n), I(a)) && Holds(t, Reg(n + 1), I(b))
    ensures Computes(m, c, k + 2, g, s, DefAll(h, SliceTail(n, Imm(P(GlobalAddr(name))), composite)), Val(Agg([P(GlobalElem(name, a)), I(b)])), s')
  {
    hide EmitAll, Coded, On, Run, Computes, Perform, Holds, Put;
    var js := SliceTail(n, Imm(P(GlobalAddr(name))), composite);
    var p, v := P(GlobalElem(name, a)), Agg([P(GlobalElem(name, a)), I(b)]);
    SlicePlaced(m, t, n, n + 8, name, a);
    NextDef(m, c, k, g, s, h, js, 0, t, p);
    var t1 := Put(t, n + 8, p);
    SliceMade(m, t1, n, composite, name, a, b);
    NextDef(m, c, k + 1, g, s, h, js, 1, t1, v);
    s' := Put(t1, n + 9, v);
    Finished(m, c, k + 2, g, s, h, js, s', v);
  }

  lemma SliceMade(m: Module, t: State, n: nat, composite: string, name: string, a: int, b: int)
    requires composite in m.env.composites && m.env.composites[composite].kind == Slice && 0 <= b
    requires Holds(t, Reg(n + 8), P(GlobalElem(name, a))) && Holds(t, Reg(n + 1), I(b))
    ensures Perform(m, t, MakeValue(n + 9, composite, [Reg(n + 8), Reg(n + 1)])) == Running(Put(t, n + 9, Agg([P(GlobalElem(name, a)), I(b)])))
  {
    assert GetAll(t.top, [Reg(n + 8), Reg(n + 1)]) == [P(GlobalElem(name, a)), I(b)];
  }

  // ----- reading through a slice -----

  lemma UnsignedCheck(i: int, n: int)
    requires InInt32(i) && 0 <= n <= 0x1_0000_0000
    ensures (Unsigned64(i) >= Unsigned64(n)) == (i < 0 || i >= n)
  {
  }

  ghost predicate SliceValue(w: Env, composite: string, v: Value) {
    composite in w.composites && w.composites[composite].kind == Slice && HasComposite(w, v, w.composites[composite])
  }

  /** Both projections of a well-typed slice succeed. */
  lemma SliceParts(m: Module, composite: string, v: Value)
    requires SliceValue(m.env, composite, v)
    ensures composite in m.env.composites && v.Agg? && |v.fields| == 2 && v.fields[0].P? && v.fields[1].I?
    ensures Projection(m.env.composites[composite], 0, v) == Built(v.fields[0])
    ensures Projection(m.env.composites[composite], 1, v) == Built(v.fields[1])
  {
  }

  lemma IndexParts(m: Module, c: Config, k: nat, g: Gen, s: State, owner: Operand, composite: string, index: Operand, p: Pointer, v: Value) returns (t: State)
    requires On(m, c, k, g, s, g, 0, s) && Coded(m, s.top.fn, EmitAll(g, IndexGuard(g.regs, owner, composite, index)))
    requires Holds(s, owner, P(p)) && LoadFrom(s.top, s.globals, p) == Cell(v) && SliceValue(m.env, composite, v)
    ensures v.Agg? && |v.fields| == 2
    ensures On(m, c, k + 3, g, s, g, 3, t) && Holds(t, Reg(g.regs + 1), v.fields[0]) && Holds(t, Reg(g.regs + 2), v.fields[1]) && Carries(g.regs, s, t)
  {
    hide EmitAll, Coded, On, Run, Holds, Put, Undisturbed, Beyond, SliceValue, Perform, Projection, LoadFrom;
    SliceParts(m, composite, v);
    var n, js := g.regs, IndexGuard(g.regs, owner, composite, index);
    NextLoad(m, c, k, g, s, g, js, 0, s, p, v);
    var s1 := Put(s, n, v);
    NextProject(m, c, k + 1, g, s, g, js, 1, s1, v, v.fields[0]);
    var s2 := Put(s1, n + 1, v.fields[0]);
    NextProject(m, c, k + 2, g, s, g, js, 2, s2, v, v.fields[1]);
    t := Put(s2, n + 2, v.fields[1]);
  }

  lemma NextLoad(m: Module, c: Config, k: nat, g: Gen, s: State, h: Gen, js: seq<Instr>, j: nat, t: State, p: Pointer, v: Value)
    requires On(m, c, k, g, s, h, j, t) && j < |js| && Coded(m, t.top.fn, EmitAll(h, js)) && js[j].Load? && js[j].d == h.regs + j
    requires Holds(t, js[j].addr, P(p)) && LoadFrom(t.top, t.globals, p) == Cell(v)
    ensures On(m, c, k + 1, g, s, h, j + 1, Put(t, h.regs + j, v))
    ensures Holds(Put(t, h.regs + j, v), Reg(h.regs + j), v) && Carries(h.regs + j, t, Put(t, h.regs + j, v))
  {
    hide On, Carries, Coded, EmitAll, LoadFrom;
    NextDef(m, c, k, g, s, h, js, j, t, v);
  }

  lemma NextProject(m: Module, c: Config, k: nat, g: Gen, s: State, h: Gen, js: seq<Instr>, j: nat, t: State, x: Value, v: Value)
    requires On(m, c, k, g, s, h, j, t) && j < |js| && Coded(m, t.top.fn, EmitAll(h, js)) && js[j].ProjectValue? && js[j].d == h.regs + j
    requires Holds(t, js[j].agg, x) && js[j].composite in m.env.composites && Projection(m.env.composites[js[j].composite], js[j].field, x) == Built(v)
    ensures On(m, c, k + 1, g, s, h, j + 1, Put(t, h.regs + j, v))
    ensures Holds(Put(t, h.regs + j, v), Reg(h.regs + j), v) && Carries(h.regs + j, t, Put(t, h.regs + j, v))
  {
    hide On, Carries, Coded, EmitAll, Projection;
    NextDef(m, c, k, g, s, h, js, j, t, v);
  }

  lemma IndexRun(m: Module, c: Config, k: nat, g: Gen, s: State, owner: Operand, composite: string, index: Operand, p: Pointer, v: Value, i: int, n: int, bad: bool) returns (t: State)
    requires On(m, c, k, g, s, g, 0, s) && Coded(m, s.top.fn, EmitAll(g, IndexGuard(g.regs, owner, composite, index)))
    requires Holds(s, owner, P(p)) && LoadFrom(s.top, s.globals, p) == Cell(v) && SliceValue(m.env, composite, v)
    requires Holds(s, index, I(i)) && Below(index, g.regs) && v.Agg? && |v.fields| == 2 && v.fields[1] == I(n) && bad == (Unsigned64(i) >= Unsigned64(n))
    ensures On(m, c, k + 5, g, s, g, 5, t) && Holds(t, Reg(g.regs + 1), v.fields[0]) && Holds(t, Reg(g.regs + 3), I(i)) && Holds(t, Reg(g.regs + 4), Truth(bad))
    ensures t.top.fn == s.top.fn
  {
    hide EmitAll, Coded, On, Run, Truth, Undisturbed, Beyond, Unsigned64, SliceValue, Holds, Put, Perform, LoadFrom;
    var js := IndexGuard(g.regs, owner, composite, index);
    var s3 := IndexParts(m, c, k, g, s, owner, composite, index, p, v);
    NextUn(m, c, k + 3, g, s, g, js, 3, s3, I(i), I(i));
    var s4 := Put(s3, g.regs + 3, I(i));
    NextBin(m, c, k + 4, g, s, g, js, 4, s4, I(i), I(n), Truth(bad));
    t := Put(s4, g.regs + 4, Truth(bad));
  }

  function IndexTail(n: nat): seq<Instr> {
    [Advance(n + 5, Reg(n + 1), Reg(n + 3)), Load(n + 6, Reg(n + 5))]
  }

  lemma SliceIndexCoded(m: Module, fn: string, g: Gen, owner: Found, index: Operand)
    requires owner.Found? && Coded(m, fn, GenSliceIndex(g, owner, index).g)
    ensures var e := EmitAll(g, IndexGuard(g.regs, owner.o, owner.decl.composite, index));
            var h := FailureIf(e, Reg(g.regs + 4), SliceBounds);
            && Coded(m, fn, e) && Coded(m, fn, h) && Coded(m, fn, EmitAll(h, IndexTail(g.regs)))
            && GenSliceIndex(g, owner, index) == DefAll(h, IndexTail(g.regs))
  {
    hide Coded;
    var bad := DefAll(g, IndexGuard(g.regs, owner.o, owner.decl.composite, index));
    var h := FailureIf(bad.g, bad.o, SliceBounds);
    CodedEmitAll(m, fn, h, IndexTail(g.regs));
    CodedFailure(m, fn, bad.g, bad.o, SliceBounds);
  }

  /** One unsigned comparison rejects negative and too large indices alike. */
  lemma SliceIndexSim(m: Module, c: Config, k: nat, g: Gen, s: State, owner: Found, index: Operand, p: Pointer, v: Value, i: int)
    returns (k': nat, s': State)
    requires owner.Found? && Ready(m, c, k, g, s, GenSliceIndex(g, owner, index))
    requires Holds(s, owner.o, P(p)) && LoadFrom(s.top, s.globals, p) == Cell(v) && SliceValue(m.env, owner.decl.composite, v)
    requires Holds(s, index, I(i)) && Below(index, g.regs) && InInt32(i)
    requires TablesOk(m.env) && SliceElement(s.globals, v, i) != Meaningless
    ensures k' > k && Computes(m, c, k', g, s, GenSliceIndex(g, owner, index), SliceElement(s.globals, v, i), s')
  {
    hide EmitAll, GenSliceIndex, Coded, On, Run, Holds, Computes, FailureIf, Truth, SliceElement, SliceValue, Unsigned64, LoadFrom;
    Begin(m, c, k, g, s);
    SliceIndexCoded(m, s.top.fn, g, owner, index);
    var n := SliceLength(m.env, owner.decl.composite, v);
    UnsignedCheck(i, n);
    var bad := i < 0 || i >= n;
    var t := IndexRun(m, c, k, g, s, owner.o, owner.decl.composite, index, p, v, i, n, bad);
    k', s' := SliceIndexEnd(m, c, k + 5, g, s, t, owner, index, v, i, n, bad);
  }

  lemma SliceLength(w: Env, composite: string, v: Value) returns (n: int)
    requires SliceValue(w, composite, v) && TablesOk(w)
    ensures v.Agg? && |v.fields| == 2 && v.fields[1] == I(n) && 0 <= n <= 0x1_0000_0000
  {
    n := v.fields[1].n;
    if n > 0 {
      assert VariableOk(w, w.globals[v.fields[0].p.name]);
    }
  }

  lemma SliceIndexEnd(m: Module, c: Config, k: nat, g: Gen, s: State, t: State, owner: Found, index: Operand, v: Value, i: int, n: int, bad: bool)
    returns (k': nat, s': State)
    requires owner.Found? && v.Agg? && |v.fields| == 2 && v.fields[1] == I(n) && bad == (i < 0 || i >= n)
    requires On(m, c, k, g, s, g, 5, t) && Holds(t, Reg(g.regs + 1), v.fields[0]) && Holds(t, Reg(g.regs + 3), I(i)) && Holds(t, Reg(g.regs + 4), Truth(bad))
    requires var h := FailureIf(EmitAll(g, IndexGuard(g.regs, owner.o, owner.decl.composite, index)), Reg(g.regs + 4), SliceBounds);
             Coded(m, t.top.fn, h) && Coded(m, t.top.fn, EmitAll(h, IndexTail(g.regs)))
    requires SliceElement(s.globals, v, i) != Meaningless
    ensures var h := FailureIf(EmitAll(g, IndexGuard(g.regs, owner.o, owner.decl.composite, index)), Reg(g.regs + 4), SliceBounds);
            k' > k && Computes(m, c, k', g, s, DefAll(h, IndexTail(g.regs)), SliceElement(s.globals, v, i), s')
  {
    hide EmitAll, Coded, On, Run, Holds, Computes, FailureIf, Past, Truth;
    var js := IndexGuard(g.regs, owner.o, owner.decl.composite, index);
    var h := FailureIf(EmitAll(g, js), Reg(g.regs + 4), SliceBounds);
    NextFailure(m, c, k, g, s, g, js, t, Reg(g.regs + 4), SliceBounds, bad);
    if bad {
      k', s' := k + 2, s;
      Faulted(m, c, k', g, s, DefAll(h, IndexTail(g.regs)), SliceBounds);
    } else {
      s' := ElementLoad(m, c, k + 1, g, s, h, Past(t, EmitAll(g, js)), g.regs, v.fields[0].p, i);
      k' := k + 3;
    }
  }

  lemma ElementLoad(m: Module, c: Config, k: nat, g: Gen, s: State, h: Gen, t: State, n: nat, p: Pointer, i: int) returns (s': State)
    requires h.regs == n + 5 && On(m, c, k, g, s, h, 0, t) && Coded(m, t.top.fn, EmitAll(h, IndexTail(n)))
    requires Holds(t, Reg(n + 1), P(p)) && Holds(t, Reg(n + 3), I(i))
    requires p.GlobalElem? && p.name in s.globals && Elem(s.globals[p.name], p.index + i).Cell?
    ensures Computes(m, c, k + 2, g, s, DefAll(h, IndexTail(n)), Val(s.globals[p.name].elems[p.index + i]), s')
  {
    var q, v := GlobalElem(p.name, p.index + i), s.globals[p.name].elems[p.index + i];
    assert t.globals == s.globals;
    hide EmitAll, Coded, On, Run, Computes;
    var js := IndexTail(n);
    NextDef(m, c, k, g, s, h, js, 0, t, P(q));
    var t1 := Put(t, n + 5, P(q));
    NextLoad(m, c, k + 1, g, s, h, js, 1, t1, q, v);
    s' := Put(t1, n + 6, v);
    Finished(m, c, k + 2, g, s, h, js, s', v);
  }
}
