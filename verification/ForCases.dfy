/**
The straight-line parts of a `for` loop: checking and saving the step, deciding the direction,
and advancing the counter by the step that was saved.
*/
module ForCases {
  import opened SemanticIR
  import opened Typing
  import opened Evaluator
  import opened Soundness
  import opened Machine
  import opened Codegen
  import opened Growth
  import opened ControlGrowth
  import opened Lockstep
  import opened Straight
  import opened Access
  import opened Relation
  import opened StmtRelation
  import opened StmtCases

  // ----- the step -----

  /** What is generated behind the step expression `x`. */
  function StepTail(x: Out, slot: nat): Gen {
    var z := Def(x.g, Bin(x.g.regs, ICmp(Eq), x.o, Imm(I(0))));
    Emit(FailureIf(z.g, z.o, ZeroStep), StoreTo(x.o, StepRef(slot)))
  }

  predicate StepHeld(s: State, slot: nat, n: int) {
    slot in s.top.steps && s.top.steps[slot] == I(n)
  }

  /** As far as the loop that owns `slot` is concerned, nothing outside it changed. */
  ghost predicate StepSaved(g: Gen, slot: nat, s: State, s': State) {
    && s'.globals == s.globals && s'.out == s.out && s'.rest == s.rest && s'.top.slots == s.top.slots
    && Keeps(g.(steps := slot), s.top, s'.top)
  }

  lemma StepCheck(m: Module, c: Config, k: nat, x: Out, s: State, n: int, slot: nat) returns (t: State)
    requires Reached(m, c, k, x.g, s) && Holds(s, x.o, I(n)) && Below(x.o, x.g.regs) && Coded(m, s.top.fn, StepTail(x, slot))
    ensures n == 0 ==> Run(m, c, k + 3) == Trapped(ZeroStep, s.globals, s.out)
    ensures var z := Def(x.g, Bin(x.g.regs, ICmp(Eq), x.o, Imm(I(0))));
            n != 0 ==> Reached(m, c, k + 2, FailureIf(z.g, z.o, ZeroStep), t) && Undisturbed(x.g, s, t) && Holds(t, x.o, I(n))
  {
    hide EmitAll, Coded, Run, Holds, FailureIf, Def;
    var js := [Bin(x.g.regs, ICmp(Eq), x.o, Imm(I(0)))];
    var e := EmitAll(x.g, js);
    var h := FailureIf(e, Reg(x.g.regs), ZeroStep);
    DefIsDefAll(x.g, js[0]);
    CodedEmit(m, s.top.fn, h, StoreTo(x.o, StepRef(slot)));
    CodedFailure(m, s.top.fn, e, Reg(x.g.regs), ZeroStep);
    Begin(m, c, k, x.g, s);
    NextCmp(m, c, k, x.g, s, x.g, js, 0, s, Eq, n, 0);
    var s1 := Put(s, x.g.regs, Truth(IntCompare(Eq, n, 0)));
    NextFailure(m, c, k + 1, x.g, s, x.g, js, s1, Reg(x.g.regs), ZeroStep, IntCompare(Eq, n, 0));
    t := Past(s1, e);
  }

  lemma StepRun(m: Module, c: Config, k: nat, x: Out, s: State, n: int, slot: nat) returns (s': State)
    requires Reached(m, c, k, x.g, s) && Holds(s, x.o, I(n)) && Below(x.o, x.g.regs) && Coded(m, s.top.fn, StepTail(x, slot)) && slot < x.g.steps
    ensures n == 0 ==> Run(m, c, k + 3) == Trapped(ZeroStep, s.globals, s.out)
    ensures n != 0 ==> Reached(m, c, k + 3, StepTail(x, slot), s') && StepSaved(x.g, slot, s, s') && StepHeld(s', slot, n)
  {
    hide Coded, Run, FailureIf, Def;
    var t := StepCheck(m, c, k, x, s, n, slot);
    s' := t;
    if n != 0 {
      var z := Def(x.g, Bin(x.g.regs, ICmp(Eq), x.o, Imm(I(0))));
      Then(m, c, k + 2, FailureIf(z.g, z.o, ZeroStep), StoreTo(x.o, StepRef(slot)), t);
      s' := t.(top := t.top.(steps := t.top.steps[slot := I(n)], at := t.top.at + 1));
    }
  }

  // ----- the direction -----

  lemma DirectionTests(m: Module, c: Config, k: nat, g: Gen, s: State, current: Operand, step: Operand, end: Operand, i: int, n: int, j: int)
    returns (t: State)
    requires On(m, c, k, g, s, g, 0, s) && Coded(m, s.top.fn, EmitAll(g, DirectionCode(g.regs, current, step, end)))
    requires Holds(s, current, I(i)) && Holds(s, step, I(n)) && Holds(s, end, I(j)) && Below(current, g.regs) && Below(step, g.regs) && Below(end, g.regs)
    ensures On(m, c, k + 3, g, s, g, 3, t) && t.top.fn == s.top.fn && Holds(t, Reg(g.regs), Truth(IntCompare(Gt, n, 0)))
    ensures Holds(t, Reg(g.regs + 1), Truth(IntCompare(Lt, i, j))) && Holds(t, Reg(g.regs + 2), Truth(IntCompare(Gt, i, j)))
  {
    hide EmitAll, Coded, On, Run, Holds, Put, Truth, IntCompare, Undisturbed, Beyond;
    var r, js := g.regs, DirectionCode(g.regs, current, step, end);
    NextCmp(m, c, k, g, s, g, js, 0, s, Gt, n, 0);
    var s1 := Put(s, r, Truth(IntCompare(Gt, n, 0)));
    NextCmp(m, c, k + 1, g, s, g, js, 1, s1, Lt, i, j);
    var s2 := Put(s1, r + 1, Truth(IntCompare(Lt, i, j)));
    NextCmp(m, c, k + 2, g, s, g, js, 2, s2, Gt, i, j);
    t := Put(s2, r + 2, Truth(IntCompare(Gt, i, j)));
  }

  lemma DirectionRun(m: Module, c: Config, k: nat, g: Gen, s: State, current: Operand, step: Operand, end: Operand, i: int, n: int, j: int)
    returns (s': State)
    requires Reached(m, c, k, g, s) && Coded(m, s.top.fn, EmitAll(g, DirectionCode(g.regs, current, step, end)))
    requires Holds(s, current, I(i)) && Holds(s, step, I(n)) && Holds(s, end, I(j)) && Below(current, g.regs) && Below(step, g.regs) && Below(end, g.regs)
    ensures Computes(m, c, k + 4, g, s, DefAll(g, DirectionCode(g.regs, current, step, end)), Val(Truth(Continue(n, i, j))), s')
  {
    hide EmitAll, Coded, On, Run, Holds, Put, Truth, IntCompare, Undisturbed, Beyond, Computes, Continue, Carries;
    Begin(m, c, k, g, s);
    DirectionOf(n, i, j);
    var r, js := g.regs, DirectionCode(g.regs, current, step, end);
    var t := DirectionTests(m, c, k, g, s, current, step, end, i, n, j);
    NextSelect(m, c, k + 3, g, s, g, js, 3, t, IntCompare(Gt, n, 0), Truth(IntCompare(Lt, i, j)), Truth(IntCompare(Gt, i, j)));
    s' := Put(t, r + 3, Truth(Continue(n, i, j)));
    Finished(m, c, k + 4, g, s, g, js, s', Truth(Continue(n, i, j)));
  }

  lemma DirectionOf(n: int, i: int, j: int)
    ensures Truth(Continue(n, i, j)) == if IntCompare(Gt, n, 0) then Truth(IntCompare(Lt, i, j)) else Truth(IntCompare(Gt, i, j))
  {
  }

  lemma NextSelect(m: Module, c: Config, k: nat, g: Gen, s: State, h: Gen, js: seq<Instr>, j: nat, t: State, b: bool, x: Value, y: Value)
    requires On(m, c, k, g, s, h, j, t) && j < |js| && Coded(m, t.top.fn, EmitAll(h, js)) && js[j].Select? && js[j].d == h.regs + j
    requires Holds(t, js[j].c, Truth(b)) && Holds(t, js[j].a, x) && Holds(t, js[j].b, y)
    ensures var v := if b then x else y;
            && On(m, c, k + 1, g, s, h, j + 1, Put(t, h.regs + j, v))
            && Holds(Put(t, h.regs + j, v), Reg(h.regs + j), v) && Carries(h.regs + j, t, Put(t, h.regs + j, v))
  {
    hide On, Carries, Coded, EmitAll;
    NextDef(m, c, k, g, s, h, js, j, t, if b then x else y);
  }

  // ----- the advance -----

  function SumCode(n: nat, counter: Operand, slot: nat): seq<Instr> {
    [Load(n, counter), Load(n + 1, StepRef(slot)), Bin(n + 2, Add32, Reg(n), Reg(n + 1))]
  }

  lemma SumLoads(m: Module, c: Config, k: nat, g: Gen, s: State, counter: Operand, slot: nat, a: Pointer, i: int, n: int) returns (t: State)
    requires On(m, c, k, g, s, g, 0, s) && Coded(m, s.top.fn, EmitAll(g, SumCode(g.regs, counter, slot))) && StepHeld(s, slot, n)
    requires Holds(s, counter, P(a)) && LoadFrom(s.top, s.globals, a) == Cell(I(i)) && Below(counter, g.regs)
    ensures On(m, c, k + 2, g, s, g, 2, t) && t.top.fn == s.top.fn && Holds(t, Reg(g.regs), I(i)) && Holds(t, Reg(g.regs + 1), I(n))
  {
    hide EmitAll, Coded, On, Run, Holds, Undisturbed, Beyond;
    var r, js := g.regs, SumCode(g.regs, counter, slot);
    NextLoad(m, c, k, g, s, g, js, 0, s, a, I(i));
    var s1 := Put(s, r, I(i));
    StepAddress(s1, slot);
    NextLoad(m, c, k + 1, g, s, g, js, 1, s1, StepAddr(slot), I(n));
    t := Put(s1, r + 1, I(n));
  }

  lemma SumRun(m: Module, c: Config, k: nat, g: Gen, s: State, counter: Operand, slot: nat, a: Pointer, i: int, n: int) returns (s': State)
    requires Reached(m, c, k, g, s) && Coded(m, s.top.fn, EmitAll(g, SumCode(g.regs, counter, slot))) && StepHeld(s, slot, n)
    requires Holds(s, counter, P(a)) && LoadFrom(s.top, s.globals, a) == Cell(I(i)) && Below(counter, g.regs)
    ensures Computes(m, c, k + 3, g, s, DefAll(g, SumCode(g.regs, counter, slot)), Val(I(Wrap32(i + n))), s')
  {
    hide EmitAll, Coded, On, Run, Holds, Undisturbed, Beyond, Computes, Wrap32, Put, StepHeld, LoadFrom, Carries;
    Begin(m, c, k, g, s);
    var r, js := g.regs, SumCode(g.regs, counter, slot);
    var t := SumLoads(m, c, k, g, s, counter, slot, a, i, n);
    NextBin(m, c, k + 2, g, s, g, js, 2, t, I(i), I(n), I(Wrap32(i + n)));
    s' := Put(t, r + 2, I(Wrap32(i + n)));
    Finished(m, c, k + 3, g, s, g, js, s', I(Wrap32(i + n)));
  }

  lemma StepAddress(s: State, slot: nat)
    ensures Holds(s, StepRef(slot), P(StepAddr(slot)))
  {
  }

  /** The step block: the counter's own storage is read again, and gets the sum. */
  lemma AdvanceRun(m: Module, c: Config, k: nat, g: Gen, s: State, st: Store, bs: Bindings, slots: nat, counter: Operand, slot: nat, target: nat, p: Place, i: int, n: int)
    returns (s': State)
    requires Reached(m, c, k, g, s) && Fine(g) && Coded(m, s.top.fn, ForAdvance(g, counter, slot, target)) && StepHeld(s, slot, n)
    requires HoldsPlace(bs, s, counter, p) && Below(counter, g.regs) && Stored(bs, st.scopes, s.top) && Separate(bs, slots) && InStep(s, st)
    requires Evaluator.Valid(st, p) && Read(st, p) == I(i) && GlobalsOk(m.env, Write(st, p, I(Wrap32(i + n))))
    ensures Run(m, c, k + 5) == Running(s') && Starts(s'.top, target) && Settled(g, s, bs, s', Write(st, p, I(Wrap32(i + n))))
  {
    hide Run, Coded, Fine, Stored, Separate, Valid, Read, Write, Branch, EmitAll, Wrap32, ForAdvance, Emit, LoadFrom, Addr, GlobalsOk;
    var sum := DefAll(g, SumCode(g.regs, counter, slot));
    var e := Emit(sum.g, StoreTo(sum.o, counter));
    AdvanceCoded(m, s.top.fn, g, counter, slot, target);
    LoadPlace(bs, st, s.top, p);
    var s1 := SumRun(m, c, k, g, s, counter, slot, Addr(bs, p), i, n);
    s' := AdvanceStore(m, c, k + 3, g, s, st, bs, slots, counter, sum, s1, target, p, I(Wrap32(i + n)));
  }

  lemma AdvanceCoded(m: Module, fn: string, g: Gen, counter: Operand, slot: nat, target: nat)
    requires Fine(g) && Coded(m, fn, ForAdvance(g, counter, slot, target))
    ensures var sum := DefAll(g, SumCode(g.regs, counter, slot));
            var e := Emit(sum.g, StoreTo(sum.o, counter));
            && Coded(m, fn, sum.g) && Coded(m, fn, e) && !Terminated(e) && ForAdvance(g, counter, slot, target) == Branch(e, target)
            && Coded(m, fn, Branch(e, target)) && g.regs <= sum.g.regs && g.steps <= sum.g.steps && sum.g.scopes == g.scopes
  {
    hide Coded, Fine, Sealed;
    var sum := DefAll(g, SumCode(g.regs, counter, slot));
    var e := Emit(sum.g, StoreTo(sum.o, counter));
    EmitAllGrows(g, SumCode(g.regs, counter, slot));
    EmitGrows(sum.g, StoreTo(sum.o, counter));
    OpenNotEnded(e);
    CodedEmit(m, fn, e, Br(target));
    CodedEmit(m, fn, sum.g, StoreTo(sum.o, counter));
  }

  lemma AdvanceStore(m: Module, c: Config, k: nat, g: Gen, s: State, st: Store, bs: Bindings, slots: nat, counter: Operand, sum: Out, s1: State, target: nat, p: Place, v: Value)
    returns (s': State)
    requires Computes(m, c, k, g, s, sum, Val(v), s1) && g.regs <= sum.g.regs && g.steps <= sum.g.steps && Below(counter, g.regs)
    requires var e := Emit(sum.g, StoreTo(sum.o, counter));
             Coded(m, s.top.fn, e) && !Terminated(e) && Coded(m, s.top.fn, Branch(e, target))
    requires HoldsPlace(bs, s, counter, p) && Stored(bs, st.scopes, s.top) && Separate(bs, slots) && InStep(s, st) && Evaluator.Valid(st, p)
    requires GlobalsOk(m.env, Write(st, p, v))
    ensures Run(m, c, k + 2) == Running(s') && Starts(s'.top, target) && Settled(g, s, bs, s', Write(st, p, v))
  {
    hide Run, Coded, Stored, Separate, Valid, Write, Branch, Terminated, HoldsPlace, Addr, At, Emit, GlobalsOk;
    var e := Emit(sum.g, StoreTo(sum.o, counter));
    StoredFrame(bs, st.scopes, s.top, s1.top);
    KeptPlace(g, bs, s, s1, counter, p);
    var s2 := StoreRun(m, c, k, slots, bs, sum.g, s1, st, sum.o, counter, p, v);
    assert s2.top.fn == s.top.fn;
    s' := BranchRun(m, c, k + 1, e, s2, target);
    AfterBranch(g, s, s1, sum.g, e, bs, s2, s', Write(st, p, v), StoreTo(sum.o, counter));
  }

  lemma AfterBranch(g: Gen, s: State, s1: State, h: Gen, e: Gen, bs: Bindings, s2: State, s': State, st': Store, i: Instr)
    requires Undisturbed(g, s, s1) && g.regs <= h.regs && g.steps <= h.steps && e == Emit(h, i)
    requires Settled(h, s1, bs, s2, st') && Undisturbed(e, s2, s')
    ensures Settled(g, s, bs, s', st')
  {
    KeepsTrans(g, h, s.top, s1.top, s2.top);
    KeepsTrans(g, e, s.top, s2.top, s'.top);
    StoredFrame(bs, st'.scopes, s2.top, s'.top);
  }
}
