/**
Declarations zero a slot of their own, and the prologue of a function moves the arguments into
the slots of its parameters.
*/
module DeclareCases {
  import opened SemanticIR
  import opened Typing
  import opened Evaluator
  import opened Soundness
  import opened Machine
  import opened Codegen
  import opened Growth
  import opened ControlGrowth
  import opened Lockstep
  import opened Straight
  import opened Access
  import opened Relation
  import opened StmtRelation
  import opened StmtCases

  function Bind(st: Store, x: string, v: Value): Store
    requires |st.scopes| > 0
  {
    var n := |st.scopes| - 1;
    st.(scopes := st.scopes[n := st.scopes[n][x := v]])
  }

  /** A variable bound to a fresh slot. */
  lemma StoredFresh(bs: Bindings, slots: nat, st: Store, f: Frame, d: Variable, v: Value)
    requires Stored(bs, st.scopes, f) && Separate(bs, slots) && |bs| > 0
    ensures |st.scopes| > 0
    ensures var n := |bs| - 1;
            Stored(bs[..n] + [bs[n][d.name := Binding(slots, d)]], Bind(st, d.name, v).scopes, f.(slots := f.slots[slots := v]))
  {
    var n := |bs| - 1;
    var bs', ms, f' := bs[..n] + [bs[n][d.name := Binding(slots, d)]], Bind(st, d.name, v).scopes, f.(slots := f.slots[slots := v]);
    forall i | 0 <= i < |bs'| ensures ScopeStored(bs'[i], ms[i], f') {
      assert ScopeStored(bs[i], st.scopes[i], f);
    }
  }

  /** A declaration whose slot holds `v` afterwards. */
  lemma SlotRun(m: Module, c: Config, k: nat, g: Gen, s: State, st: Store, d: Variable, n: nat, o: Operand, v: Value) returns (s': State)
    requires Reached(m, c, k, g, s) && Coded(m, s.top.fn, Emit(g, StoreTo(o, SlotRef(n)))) && Holds(s, o, v) && InStep(s, st)
    ensures Run(m, c, k + 1) == Running(s') && s'.top.slots == s.top.slots[n := v] && At(Emit(g, StoreTo(o, SlotRef(n))), s'.top)
    ensures InStep(s', st) && s'.rest == s.rest && Keeps(g, s.top, s'.top) && s'.top.regs == s.top.regs
  {
    hide Run, Coded;
    Then(m, c, k, g, StoreTo(o, SlotRef(n)), s);
    s' := s.(top := s.top.(slots := s.top.slots[n := v], at := s.top.at + 1));
  }

  lemma DeclareRun(m: Module, c: Config, k: nat, g: Gen, s: State, st: Store, d: Variable) returns (s': State)
    requires Reached(m, c, k, g, s) && Coded(m, s.top.fn, Declare(m.env, g, d)) && Stored(g.scopes, st.scopes, s.top)
    requires Separate(g.scopes, g.slots) && InStep(s, st) && |g.scopes| > 0
    ensures |st.scopes| > 0 && Landed(m, c, g, s, Declare(m.env, g, d), Bind(st, d.name, ZeroStorage(m.env, d)), k + 1, s')
    ensures s'.top.regs == s.top.regs && s'.top.slots == s.top.slots[g.slots := ZeroStorage(m.env, d)]
    ensures var h := Declare(m.env, g, d); Separate(h.scopes, h.slots) && |h.scopes| == |g.scopes|
  {
    hide Run, ZeroStorage, Stored, Separate, Keeps, Emit;
    var v, h := ZeroStorage(m.env, d), Declare(m.env, g, d);
    var n := |g.scopes| - 1;
    assert h.code == Emit(g, StoreTo(Imm(v), SlotRef(g.slots))).code;
    StoredFresh(g.scopes, g.slots, st, s.top, d, v);
    SeparateDeclare(g.scopes, g.slots, d.name, d);
    s' := SlotRun(m, c, k, g, s, st, d, g.slots, Imm(v), v);
    StoredFrame(h.scopes, Bind(st, d.name, v).scopes, s.top.(slots := s.top.slots[g.slots := v]), s'.top);
    DeclareAt(m.env, g, d, s'.top);
  }

  lemma DeclareAt(w: Env, g: Gen, d: Variable, f: Frame)
    requires At(Emit(g, StoreTo(Imm(ZeroStorage(w, d)), SlotRef(g.slots))), f)
    ensures At(Declare(w, g, d), f)
  {
  }

  lemma CodedDeclareEach(m: Module, fn: string, g: Gen, ds: seq<Variable>)
    requires Coded(m, fn, DeclareEach(m.env, g, ds))
    ensures Coded(m, fn, g)
  {
    DeclareEachExtends(m.env, g, ds);
    CodedBack(m, fn, g, DeclareEach(m.env, g, ds));
  }

  lemma {:induction false} DeclareEachRun(m: Module, c: Config, k: nat, g: Gen, s: State, st: Store, ds: seq<Variable>) returns (s': State)
    requires Reached(m, c, k, g, s) && Coded(m, s.top.fn, DeclareEach(m.env, g, ds)) && Stored(g.scopes, st.scopes, s.top)
    requires Separate(g.scopes, g.slots) && InStep(s, st) && |g.scopes| > 0
    ensures |st.scopes| > 0 && Landed(m, c, g, s, DeclareEach(m.env, g, ds), DeclareZero(m.env, st, ds), k + |ds|, s')
    decreases ds
  {
    if ds == [] {
      s' := s;
    } else {
      var g1 := Declare(m.env, g, ds[0]);
      CodedDeclareEach(m, s.top.fn, g1, ds[1..]);
      DeclareCounts(m.env, g, ds[0]);
      hide Run, Coded, Declare, Stored, Separate, Keeps;
      var s1 := DeclareRun(m, c, k, g, s, st, ds[0]);
      var st1 := Bind(st, ds[0].name, ZeroStorage(m.env, ds[0]));
      DestKept(g, s, s1);
      s' := DeclareEachRun(m, c, k + 1, g1, s1, st1, ds[1..]);
      SettledTrans(g, s, g1.scopes, s1, st1, g1, DeclareEach(m.env, g, ds).scopes, s', DeclareZero(m.env, st, ds));
    }
  }

  lemma DeclareCounts(w: Env, g: Gen, d: Variable)
    ensures g.regs == Declare(w, g, d).regs && g.steps == Declare(w, g, d).steps
  {
  }

  // ----- parameters -----

  predicate ArgumentsIn(f: Frame, args: seq<Value>) {
    forall i: nat | i < |args| :: i in f.regs && f.regs[i] == args[i]
  }

  /** One parameter: its slot is zeroed and then overwritten by the argument. */
  lemma ParameterRun(m: Module, c: Config, k: nat, g: Gen, s: State, st: Store, d: Variable, i: nat, v: Value) returns (s': State)
    requires Reached(m, c, k, g, s) && Coded(m, s.top.fn, Emit(Declare(m.env, g, d), StoreTo(Reg(i), SlotRef(g.slots))))
    requires Stored(g.scopes, st.scopes, s.top) && Separate(g.scopes, g.slots) && InStep(s, st) && |g.scopes| == 1 && Holds(s, Reg(i), v)
    ensures |st.scopes| == 1
    ensures var h := Emit(Declare(m.env, g, d), StoreTo(Reg(i), SlotRef(g.slots)));
            Landed(m, c, g, s, h, Bind(st, d.name, v), k + 2, s') && Separate(h.scopes, h.slots) && |h.scopes| == 1
    ensures s'.top.regs == s.top.regs
  {
    var g1 := Declare(m.env, g, d);
    var h := Emit(g1, StoreTo(Reg(i), SlotRef(g.slots)));
    CodedEmit(m, s.top.fn, g1, StoreTo(Reg(i), SlotRef(g.slots)));
    StoredFresh(g.scopes, g.slots, st, s.top, d, v);
    DeclareCounts(m.env, g, d);
    assert g1.scopes == g.scopes[..0] + [g.scopes[0][d.name := Binding(g.slots, d)]];
    EmitScopes(g1, StoreTo(Reg(i), SlotRef(g.slots)));
    hide Run, Coded, Stored, Separate, Keeps, ZeroStorage, Emit, Declare;
    var s1 := DeclareRun(m, c, k, g, s, st, d);
    DestKept(g, s, s1);
    KeptReg(s, s1, i, v);
    s' := SlotRun(m, c, k + 1, g1, s1, Bind(st, d.name, ZeroStorage(m.env, d)), d, g.slots, Reg(i), v);
    KeepsTrans(g, g1, s.top, s1.top, s'.top);
    assert s'.top.slots == s.top.slots[g.slots := v];
    StoredFrame(h.scopes, Bind(st, d.name, v).scopes, s.top.(slots := s.top.slots[g.slots := v]), s'.top);
    EmitSlots(g1, StoreTo(Reg(i), SlotRef(g.slots)));
  }

  lemma KeptReg(s: State, s1: State, i: nat, v: Value)
    requires Holds(s, Reg(i), v) && s1.top.regs == s.top.regs
    ensures Holds(s1, Reg(i), v)
  {
  }

  lemma EmitSlots(g: Gen, i: Instr)
    ensures Emit(g, i).slots == g.slots && Emit(g, i).regs == g.regs && Emit(g, i).steps == g.steps
  {
  }

  lemma ArgumentsStep(ps: seq<Variable>, args: seq<Value>, i: nat)
    requires i < |ps| == |args|
    ensures Arguments(ps[..i + 1], args[..i + 1]) == Arguments(ps[..i], args[..i])[ps[i].name := args[i]]
  {
    assert ps[..i + 1][..i] == ps[..i] && args[..i + 1][..i] == args[..i];
  }

  lemma StaysPut(m: Module, c: Config, k: nat, g: Gen, s: State, st: Store)
    requires Reached(m, c, k, g, s) && Stored(g.scopes, st.scopes, s.top) && InStep(s, st)
    ensures Landed(m, c, g, s, g, st, k, s)
  {
    hide Run, Stored;
  }

  /** The prologue leaves every parameter's slot holding its argument. */
  lemma {:induction false} ParametersRun(m: Module, c: Config, k: nat, g: Gen, s: State, st: Store, ps: seq<Variable>, args: seq<Value>, i: nat)
    returns (k': nat, s': State)
    requires i <= |ps| == |args| && Reached(m, c, k, g, s) && Coded(m, s.top.fn, GenParameters(m.env, g, ps, i)) && ArgumentsIn(s.top, args)
    requires Stored(g.scopes, st.scopes, s.top) && Separate(g.scopes, g.slots) && InStep(s, st) && |g.scopes| == 1
    requires st.scopes == [Arguments(ps[..i], args[..i])]
    ensures k' >= k && Landed(m, c, g, s, GenParameters(m.env, g, ps, i), st.(scopes := [Arguments(ps, args)]), k', s')
    decreases |ps| - i
  {
    hide Run, Coded, Declare, Stored, Separate, Keeps, Emit, Fine, Sealed, Ext, Arguments;
    if i == |ps| {
      assert ps[..i] == ps && args[..i] == args;
      k', s' := k, s;
      StaysPut(m, c, k, g, s, st);
    } else {
      var g1 := Declare(m.env, g, ps[i]);
      var h := Emit(g1, StoreTo(Reg(i), SlotRef(g.slots)));
      ParametersExtend(m.env, h, ps, i + 1);
      CodedBack(m, s.top.fn, h, GenParameters(m.env, g, ps, i));
      ArgumentsStep(ps, args, i);
      DeclareCounts(m.env, g, ps[i]);
      EmitSlots(g1, StoreTo(Reg(i), SlotRef(g.slots)));
      var s1 := ParameterRun(m, c, k, g, s, st, ps[i], i, args[i]);
      DestKept(g, s, s1);
      var st1 := Bind(st, ps[i].name, args[i]);
      assert st1.scopes == [Arguments(ps[..i + 1], args[..i + 1])];
      k', s' := ParametersRun(m, c, k + 2, h, s1, st1, ps, args, i + 1);
      SettledTrans(g, s, h.scopes, s1, st1, h, GenParameters(m.env, g, ps, i).scopes, s', st.(scopes := [Arguments(ps, args)]));
    }
  }
}
