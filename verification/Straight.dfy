/**
Runs of the code emitted for one operator: the generated checks and instructions compute what
the evaluator computes, and trap exactly when it faults.
*/
module Straight {
  import opened SemanticIR
  import opened Typing
  import opened Evaluator
  import opened Machine
  import opened Codegen
  import opened Growth
  import opened Lockstep

  // ----- where the machine stands -----

  /** The machine is at the insertion point of `g`. */
  predicate At(g: Gen, f: Frame) {
    f.block == g.at && f.at == |g.code[g.at]|
  }

  /** The running function's code starts with everything generated so far. */
  ghost predicate Coded(m: Module, fn: string, g: Gen) {
    fn in m.code && Prefix(g.code, m.code[fn])
  }

  lemma CodedBack(m: Module, fn: string, g: Gen, h: Gen)
    requires Coded(m, fn, h) && Ext(g, h)
    ensures Coded(m, fn, g)
  {
    ExtPrefix(g, h);
    PrefixTrans(g.code, h.code, m.code[fn]);
  }

  /** Code that is there now was there when an earlier part of it was emitted. */
  lemma CodedDef(m: Module, fn: string, g: Gen, i: Instr)
    requires Coded(m, fn, Def(g, i).g)
    ensures Coded(m, fn, g) && Coded(m, fn, Emit(g, i))
  {
    assert Def(g, i).g.code == Emit(g, i).code;
    CodedEmit(m, fn, g, i);
  }

  lemma CodedEmit(m: Module, fn: string, g: Gen, i: Instr)
    requires Coded(m, fn, Emit(g, i))
    ensures Coded(m, fn, g)
  {
    EmitExt(g, i);
    CodedBack(m, fn, g, Emit(g, i));
  }

  lemma CodedFailure(m: Module, fn: string, g: Gen, c: Operand, f: Fault)
    requires Coded(m, fn, FailureIf(g, c, f))
    ensures Coded(m, fn, g)
  {
    FailureExt(g, c, f);
    CodedBack(m, fn, g, FailureIf(g, c, f));
  }

  lemma CodedEmitAll(m: Module, fn: string, g: Gen, js: seq<Instr>)
    requires Coded(m, fn, EmitAll(g, js)) && Open(js)
    ensures Coded(m, fn, g)
  {
    EmitAllGrows(g, js);
    CodedBack(m, fn, g, EmitAll(g, js));
  }

  lemma DefIsDefAll(g: Gen, i: Instr)
    ensures Def(g, i) == DefAll(g, [i])
  {
  }

  // ----- single steps -----

  lemma StepAt(m: Module, g: Gen, i: Instr, s: State)
    requires At(g, s.top) && Coded(m, s.top.fn, Emit(g, i))
    ensures Step(m, Running(s)) == Perform(m, s, i)
  {
    hide Perform;
    var code := m.code[s.top.fn];
    EmitExt(g, i);
    assert Emit(g, i).code[g.at] <= code[g.at];
    assert code[g.at][|g.code[g.at]|] == (g.code[g.at] + [i])[|g.code[g.at]|] == i;
  }

  lemma OneMore(m: Module, c: Config, k: nat, s: State)
    requires Run(m, c, k) == Running(s)
    ensures Run(m, c, k + 1) == Step(m, Running(s))
  {
    hide Step;
    RunPlus(m, c, k, 1);
    assert Run(m, Running(s), 1) == Run(m, Step(m, Running(s)), 0);
  }

  /** One more step of a run from `c`. */
  lemma Then(m: Module, c: Config, k: nat, g: Gen, i: Instr, s: State)
    requires Run(m, c, k) == Running(s) && At(g, s.top) && Coded(m, s.top.fn, Emit(g, i))
    ensures Run(m, c, k + 1) == Perform(m, s, i)
  {
    hide Perform, Step, Run;
    StepAt(m, g, i, s);
    OneMore(m, c, k, s);
  }

  /** The machine has executed `j` instructions past the insertion point of `h`. */
  predicate Beyond(h: Gen, j: nat, f: Frame) {
    f.block == h.at && f.at == |h.code[h.at]| + j
  }

  lemma StepIn(m: Module, c: Config, k: nat, h: Gen, js: seq<Instr>, j: nat, s: State)
    requires Run(m, c, k) == Running(s) && j < |js| && Beyond(h, j, s.top) && Coded(m, s.top.fn, EmitAll(h, js))
    ensures Run(m, c, k + 1) == Perform(m, s, js[j])
  {
    hide Perform, Run;
    OneMore(m, c, k, s);
    var code, n := m.code[s.top.fn], |h.code[h.at]|;
    assert EmitAll(h, js).code[h.at] == h.code[h.at] + js;
    assert h.code[h.at] + js <= code[h.at];
    assert code[h.at][n + j] == (h.code[h.at] + js)[n + j] == js[j];
  }

  predicate Holds(s: State, o: Operand, v: Value) {
    Has(s.top, o) && Get(s.top, o) == v
  }

  function Put(s: State, d: nat, v: Value): State {
    s.(top := s.top.(regs := s.top.regs[d := v], at := s.top.at + 1))
  }

  /** The state in which generation goes on after a check that did not trap. */
  function Past(s: State, g: Gen): State {
    s.(top := s.top.(block := |g.code| + 1, at := 0))
  }

  lemma FailureStep(m: Module, c: Config, k: nat, g: Gen, cond: Operand, fault: Fault, s: State, bad: bool)
    requires Run(m, c, k) == Running(s) && At(g, s.top) && Coded(m, s.top.fn, FailureIf(g, cond, fault)) && Holds(s, cond, Truth(bad))
    ensures bad ==> Run(m, c, k + 2) == Trapped(fault, s.globals, s.out)
    ensures !bad ==> Run(m, c, k + 1) == Running(Past(s, g)) && At(FailureIf(g, cond, fault), Past(s, g).top)
  {
    hide Run;
    var n, h := |g.code|, FailureIf(g, cond, fault);
    var code := m.code[s.top.fn];
    FailureExt(g, cond, fault);
    assert h.code[g.at] <= code[g.at] && h.code[n] <= code[n];
    assert code[g.at][|g.code[g.at]|] == h.code[g.at][|g.code[g.at]|] == CondBr(cond, n, n + 1);
    OneMore(m, c, k, s);
    if bad {
      var t := s.(top := s.top.(block := n, at := 0));
      assert Step(m, Running(s)) == Running(t);
      assert code[n][0] == h.code[n][0] == Fail(fault);
      OneMore(m, c, k + 1, t);
    }
  }

  // ----- progress through an operator's code -----

  /** The caller's registers and loop-step slots as they were. */
  ghost predicate Keeps(g: Gen, f: Frame, f': Frame) {
    && f'.fn == f.fn && f'.dest == f.dest
    && (forall r | r < g.regs && r in f.regs :: r in f'.regs && f'.regs[r] == f.regs[r])
    && (forall n | n < g.steps && n in f.steps :: n in f'.steps && f'.steps[n] == f.steps[n])
  }

  /** Only fresh registers changed since `s`. */
  ghost predicate Undisturbed(g: Gen, s: State, s': State) {
    && s'.globals == s.globals && s'.out == s.out && s'.rest == s.rest
    && s'.top.slots == s.top.slots && s'.top.steps == s.top.steps
    && Keeps(g, s.top, s'.top)
  }

  /** The run from `c` has computed `r` into the operand of `x`, or trapped as `r` says. */
  ghost predicate Computes(m: Module, c: Config, k: nat, g: Gen, s: State, x: Out, r: Computed, s': State) {
    match r
    case Val(v) => Run(m, c, k) == Running(s') && At(x.g, s'.top) && Holds(s', x.o, v) && Undisturbed(g, s, s')
    case Faults(f) => Run(m, c, k) == Trapped(f, s.globals, s.out)
    case Meaningless => true
  }

  /** Before an operator's code: the machine stands at `g` and the code of `x` is in place. */
  ghost predicate Ready(m: Module, c: Config, k: nat, g: Gen, s: State, x: Out) {
    Run(m, c, k) == Running(s) && At(g, s.top) && Coded(m, s.top.fn, x.g)
  }

  /** Partway through it: `j` instructions past `h`. */
  ghost predicate On(m: Module, c: Config, k: nat, g: Gen, s: State, h: Gen, j: nat, t: State) {
    Run(m, c, k) == Running(t) && Beyond(h, j, t.top) && g.regs <= h.regs && Undisturbed(g, s, t)
  }

  /** Operands that name no register from `n` on keep their values. */
  ghost predicate Carries(n: nat, t: State, t': State) {
    && t'.top.fn == t.top.fn
    && forall o: Operand, v: Value {:trigger Holds(t', o, v)} :: Holds(t, o, v) && Below(o, n) ==> Holds(t', o, v)
  }

  lemma Begin(m: Module, c: Config, k: nat, g: Gen, s: State)
    requires Run(m, c, k) == Running(s) && At(g, s.top)
    ensures On(m, c, k, g, s, g, 0, s)
  {
    hide Run;
  }

  lemma NextDef(m: Module, c: Config, k: nat, g: Gen, s: State, h: Gen, js: seq<Instr>, j: nat, t: State, v: Value)
    requires On(m, c, k, g, s, h, j, t) && j < |js| && Coded(m, t.top.fn, EmitAll(h, js))
    requires Perform(m, t, js[j]) == Running(Put(t, h.regs + j, v))
    ensures On(m, c, k + 1, g, s, h, j + 1, Put(t, h.regs + j, v))
    ensures Holds(Put(t, h.regs + j, v), Reg(h.regs + j), v) && Carries(h.regs + j, t, Put(t, h.regs + j, v))
  {
    hide Perform, Run;
    StepIn(m, c, k, h, js, j, t);
  }

  lemma NextBin(m: Module, c: Config, k: nat, g: Gen, s: State, h: Gen, js: seq<Instr>, j: nat, t: State, x: Value, y: Value, v: Value)
    requires On(m, c, k, g, s, h, j, t) && j < |js| && Coded(m, t.top.fn, EmitAll(h, js)) && js[j].Bin? && js[j].d == h.regs + j
    requires Holds(t, js[j].a, x) && Holds(t, js[j].b, y) && BinResult(m.env.floats, js[j].op, x, y) == Cell(v)
    ensures On(m, c, k + 1, g, s, h, j + 1, Put(t, h.regs + j, v))
    ensures Holds(Put(t, h.regs + j, v), Reg(h.regs + j), v) && Carries(h.regs + j, t, Put(t, h.regs + j, v))
  {
    hide BinResult, On, Carries, Coded, EmitAll;
    NextDef(m, c, k, g, s, h, js, j, t, v);
  }

  lemma NextUn(m: Module, c: Config, k: nat, g: Gen, s: State, h: Gen, js: seq<Instr>, j: nat, t: State, x: Value, v: Value)
    requires On(m, c, k, g, s, h, j, t) && j < |js| && Coded(m, t.top.fn, EmitAll(h, js)) && js[j].Un? && js[j].d == h.regs + j
    requires Holds(t, js[j].a, x) && UnResult(m.env.floats, js[j].uop, x) == Cell(v)
    ensures On(m, c, k + 1, g, s, h, j + 1, Put(t, h.regs + j, v))
    ensures Holds(Put(t, h.regs + j, v), Reg(h.regs + j), v) && Carries(h.regs + j, t, Put(t, h.regs + j, v))
  {
    hide UnResult, On, Carries, Coded, EmitAll;
    NextDef(m, c, k, g, s, h, js, j, t, v);
  }

  lemma HoldsImm(s: State, v: Value)
    ensures Holds(s, Imm(v), v)
  {
  }

  /** A comparison; an immediate right operand needs no further hypothesis. */
  lemma NextCmp(m: Module, c: Config, k: nat, g: Gen, s: State, h: Gen, js: seq<Instr>, j: nat, t: State, p: Pred, x: int, y: int)
    requires On(m, c, k, g, s, h, j, t) && j < |js| && Coded(m, t.top.fn, EmitAll(h, js)) && js[j].Bin? && js[j].d == h.regs + j
    requires js[j].op == ICmp(p) && Holds(t, js[j].a, I(x)) && (js[j].b == Imm(I(y)) || Holds(t, js[j].b, I(y)))
    ensures var v := Truth(IntCompare(p, x, y));
            && On(m, c, k + 1, g, s, h, j + 1, Put(t, h.regs + j, v))
            && Holds(Put(t, h.regs + j, v), Reg(h.regs + j), v) && Carries(h.regs + j, t, Put(t, h.regs + j, v))
  {
    hide On, Carries, Coded, EmitAll, IntCompare, Truth, Holds, Put;
    HoldsImm(t, I(y));
    NextBin(m, c, k, g, s, h, js, j, t, I(x), I(y), Truth(IntCompare(p, x, y)));
  }

  lemma NextLogic(m: Module, c: Config, k: nat, g: Gen, s: State, h: Gen, js: seq<Instr>, j: nat, t: State, x: bool, y: bool, r: bool)
    requires On(m, c, k, g, s, h, j, t) && j < |js| && Coded(m, t.top.fn, EmitAll(h, js)) && js[j].Bin? && js[j].d == h.regs + j
    requires Holds(t, js[j].a, Truth(x)) && Holds(t, js[j].b, Truth(y))
    requires (js[j].op == And1 && r == (x && y)) || (js[j].op == Or1 && r == (x || y))
    ensures On(m, c, k + 1, g, s, h, j + 1, Put(t, h.regs + j, Truth(r)))
    ensures Holds(Put(t, h.regs + j, Truth(r)), Reg(h.regs + j), Truth(r)) && Carries(h.regs + j, t, Put(t, h.regs + j, Truth(r)))
  {
    hide On, Carries, Coded, EmitAll, Holds, Put;
    NextBin(m, c, k, g, s, h, js, j, t, Truth(x), Truth(y), Truth(r));
  }

  lemma NextFailure(m: Module, c: Config, k: nat, g: Gen, s: State, h: Gen, js: seq<Instr>, t: State, cond: Operand, fault: Fault, bad: bool)
    requires On(m, c, k, g, s, h, |js|, t) && Coded(m, t.top.fn, FailureIf(EmitAll(h, js), cond, fault)) && Holds(t, cond, Truth(bad))
    ensures bad ==> Run(m, c, k + 2) == Trapped(fault, s.globals, s.out)
    ensures !bad ==> On(m, c, k + 1, g, s, FailureIf(EmitAll(h, js), cond, fault), 0, Past(t, EmitAll(h, js)))
    ensures !bad ==> Carries(h.regs + |js|, t, Past(t, EmitAll(h, js)))
    ensures FailureIf(EmitAll(h, js), cond, fault).regs == h.regs + |js|
  {
    hide Run;
    var e := EmitAll(h, js);
    assert At(e, t.top);
    FailureStep(m, c, k, e, cond, fault, t, bad);
  }

  /** The end of an operator's code. */
  lemma Finished(m: Module, c: Config, k: nat, g: Gen, s: State, h: Gen, js: seq<Instr>, t: State, v: Value)
    requires On(m, c, k, g, s, h, |js|, t) && js != [] && Holds(t, DefAll(h, js).o, v)
    ensures Computes(m, c, k, g, s, DefAll(h, js), Val(v), t)
  {
  }

  lemma Faulted(m: Module, c: Config, k: nat, g: Gen, s: State, x: Out, f: Fault)
    requires Run(m, c, k) == Trapped(f, s.globals, s.out)
    ensures Computes(m, c, k, g, s, x, Faults(f), s)
  {
  }

  // ----- integer operators -----

  lemma DivisionSim(m: Module, c: Config, k: nat, g: Gen, s: State, opcode: int, l: Operand, r: Operand, a: int, b: int)
    returns (k': nat, s': State)
    requires Ready(m, c, k, g, s, GenDivision(g, opcode, l, r)) && (opcode == 4 || opcode == 5)
    requires Holds(s, l, I(a)) && Holds(s, r, I(b)) && Below(l, g.regs) && Below(r, g.regs)
    ensures k' > k && Computes(m, c, k', g, s, GenDivision(g, opcode, l, r), IntBinary(opcode, a, b), s')
  {
    hide EmitAll, GenDivision, Coded, On, Run, Holds, Computes, IntCompare, IntBinary, Truth;
    Begin(m, c, k, g, s);
    DivisionCoded(m, s.top.fn, g, opcode, l, r);
    var t, fails := DivisionGuardSim(m, c, k, g, s, l, r, a, b);
    k', s' := DivisionEnd(m, c, k + 5, g, s, t, opcode, l, r, a, b, fails);
  }

  lemma DivisionCoded(m: Module, fn: string, g: Gen, opcode: int, l: Operand, r: Operand)
    requires Coded(m, fn, GenDivision(g, opcode, l, r).g)
    ensures Coded(m, fn, EmitAll(g, DivisionGuard(g.regs, l, r)))
  {
    hide Coded;
    var bad := DefAll(g, DivisionGuard(g.regs, l, r));
    var h := FailureIf(bad.g, bad.o, DivisionDomain);
    CodedDef(m, fn, h, Bin(h.regs, if opcode == 4 then SDiv else SRem, l, r));
    CodedFailure(m, fn, bad.g, bad.o, DivisionDomain);
  }

  lemma DivisionGuardSim(m: Module, c: Config, k: nat, g: Gen, s: State, l: Operand, r: Operand, a: int, b: int) returns (t: State, fails: bool)
    requires On(m, c, k, g, s, g, 0, s) && Coded(m, s.top.fn, EmitAll(g, DivisionGuard(g.regs, l, r)))
    requires Holds(s, l, I(a)) && Holds(s, r, I(b)) && Below(l, g.regs) && Below(r, g.regs)
    ensures fails == (IntCompare(Eq, b, 0) || (IntCompare(Eq, a, INT32_MIN) && IntCompare(Eq, b, -1)))
    ensures On(m, c, k + 5, g, s, g, 5, t) && Holds(t, Reg(g.regs + 4), Truth(fails)) && Holds(t, l, I(a)) && Holds(t, r, I(b)) && t.top.fn == s.top.fn
  {
    hide EmitAll, Coded, On, Run, Holds, Put, Truth, IntCompare, Undisturbed, Beyond;
    var n, isZero, isLowest, isMinus := g.regs, IntCompare(Eq, b, 0), IntCompare(Eq, a, INT32_MIN), IntCompare(Eq, b, -1);
    var js := DivisionGuard(n, l, r);
    var u := DivisionTests(m, c, k, g, s, l, r, a, b);
    var overflow := isLowest && isMinus;
    NextLogic(m, c, k + 3, g, s, g, js, 3, u, isLowest, isMinus, overflow);
    var v := Put(u, n + 3, Truth(overflow));
    fails := isZero || overflow;
    NextLogic(m, c, k + 4, g, s, g, js, 4, v, isZero, overflow, fails);
    t := Put(v, n + 4, Truth(fails));
  }

  lemma DivisionTests(m: Module, c: Config, k: nat, g: Gen, s: State, l: Operand, r: Operand, a: int, b: int) returns (t: State)
    requires On(m, c, k, g, s, g, 0, s) && Coded(m, s.top.fn, EmitAll(g, DivisionGuard(g.regs, l, r)))
    requires Holds(s, l, I(a)) && Holds(s, r, I(b)) && Below(l, g.regs) && Below(r, g.regs)
    ensures On(m, c, k + 3, g, s, g, 3, t) && Holds(t, Reg(g.regs), Truth(IntCompare(Eq, b, 0)))
    ensures Holds(t, Reg(g.regs + 1), Truth(IntCompare(Eq, a, INT32_MIN))) && Holds(t, Reg(g.regs + 2), Truth(IntCompare(Eq, b, -1)))
    ensures Holds(t, l, I(a)) && Holds(t, r, I(b)) && t.top.fn == s.top.fn
  {
    hide EmitAll, Coded, On, Run, Holds, Put, Truth, IntCompare, Undisturbed, Beyond;
    var n := g.regs;
    var js := DivisionGuard(n, l, r);
    NextCmp(m, c, k, g, s, g, js, 0, s, Eq, b, 0);
    var s1 := Put(s, n, Truth(IntCompare(Eq, b, 0)));
    NextCmp(m, c, k + 1, g, s, g, js, 1, s1, Eq, a, INT32_MIN);
    var s2 := Put(s1, n + 1, Truth(IntCompare(Eq, a, INT32_MIN)));
    NextCmp(m, c, k + 2, g, s, g, js, 2, s2, Eq, b, -1);
    t := Put(s2, n + 2, Truth(IntCompare(Eq, b, -1)));
  }

  lemma DivisionEnd(m: Module, c: Config, k: nat, g: Gen, s: State, t: State, opcode: int, l: Operand, r: Operand, a: int, b: int, fails: bool)
    returns (k': nat, s': State)
    requires var js := DivisionGuard(g.regs, l, r); On(m, c, k, g, s, g, 5, t) && Holds(t, Reg(g.regs + 4), Truth(fails))
    requires Holds(t, l, I(a)) && Holds(t, r, I(b)) && (opcode == 4 || opcode == 5) && Below(l, g.regs) && Below(r, g.regs)
    requires fails == (IntCompare(Eq, b, 0) || (IntCompare(Eq, a, INT32_MIN) && IntCompare(Eq, b, -1)))
    requires Coded(m, t.top.fn, GenDivision(g, opcode, l, r).g)
    ensures k' > k && Computes(m, c, k', g, s, GenDivision(g, opcode, l, r), IntBinary(opcode, a, b), s')
  {
    hide EmitAll, FailureIf, Coded, On, Run, Holds, Put, Past, Computes, Truth, TruncDiv, TruncRem;
    var js, fn := DivisionGuard(g.regs, l, r), t.top.fn;
    var bad := DefAll(g, js);
    var h := FailureIf(bad.g, bad.o, DivisionDomain);
    var op := if opcode == 4 then SDiv else SRem;
    var i := Bin(h.regs, op, l, r);
    DefIsDefAll(h, i);
    CodedEmitAll(m, fn, h, [i]);
    NextFailure(m, c, k, g, s, g, js, t, bad.o, DivisionDomain, fails);
    if fails {
      k', s' := k + 2, s;
      Faulted(m, c, k', g, s, GenDivision(g, opcode, l, r), DivisionDomain);
    } else {
      var v := I(if opcode == 4 then TruncDiv(a, b) else TruncRem(a, b));
      var u := Past(t, bad.g);
      NextBin(m, c, k + 1, g, s, h, [i], 0, u, I(a), I(b), v);
      k', s' := k + 2, Put(u, h.regs, v);
      Finished(m, c, k', g, s, h, [i], s', v);
    }
  }

  /** One defining instruction. */
  lemma OneSim(m: Module, c: Config, k: nat, g: Gen, s: State, i: Instr, v: Value)
    requires Ready(m, c, k, g, s, Def(g, i)) && Perform(m, s, i) == Running(Put(s, g.regs, v))
    ensures Computes(m, c, k + 1, g, s, Def(g, i), Val(v), Put(s, g.regs, v))
  {
    hide Perform, Run, On, Coded, EmitAll;
    Begin(m, c, k, g, s);
    DefIsDefAll(g, i);
    NextDef(m, c, k, g, s, g, [i], 0, s, v);
    Finished(m, c, k + 1, g, s, g, [i], Put(s, g.regs, v), v);
  }

  lemma OneBin(m: Module, c: Config, k: nat, g: Gen, s: State, op: BinOp, l: Operand, r: Operand, x: Value, y: Value, v: Value)
    requires Ready(m, c, k, g, s, Def(g, Bin(g.regs, op, l, r))) && Holds(s, l, x) && Holds(s, r, y)
    requires BinResult(m.env.floats, op, x, y) == Cell(v)
    ensures Computes(m, c, k + 1, g, s, Def(g, Bin(g.regs, op, l, r)), Val(v), Put(s, g.regs, v))
  {
    hide BinResult, Computes, Ready;
    OneSim(m, c, k, g, s, Bin(g.regs, op, l, r), v);
  }

  lemma WidenTruth(fs: FloatSem, b: bool)
    ensures UnResult(fs, ZExt, Truth(b)) == Cell(Truth(b))
  {
  }

  lemma NextWiden(m: Module, c: Config, k: nat, g: Gen, s: State, h: Gen, js: seq<Instr>, j: nat, t: State, b: bool)
    requires On(m, c, k, g, s, h, j, t) && j < |js| && Coded(m, t.top.fn, EmitAll(h, js)) && js[j].Un? && js[j].d == h.regs + j
    requires js[j].uop == ZExt && Holds(t, js[j].a, Truth(b))
    ensures On(m, c, k + 1, g, s, h, j + 1, Put(t, h.regs + j, Truth(b)))
    ensures Holds(Put(t, h.regs + j, Truth(b)), Reg(h.regs + j), Truth(b)) && Carries(h.regs + j, t, Put(t, h.regs + j, Truth(b)))
  {
    hide On, Carries, Coded, EmitAll, Holds, Put, Truth;
    WidenTruth(m.env.floats, b);
    NextUn(m, c, k, g, s, h, js, j, t, Truth(b), Truth(b));
  }

  lemma LogicRun(m: Module, c: Config, k: nat, g: Gen, s: State, op: BinOp, l: Operand, r: Operand, a: int, b: int, result: bool)
    returns (t: State)
    requires On(m, c, k, g, s, g, 0, s) && Coded(m, s.top.fn, EmitAll(g, LogicCode(g.regs, op, l, r)))
    requires Holds(s, l, I(a)) && Holds(s, r, I(b)) && Below(l, g.regs) && Below(r, g.regs)
    requires var x, y := IntCompare(Ne, a, 0), IntCompare(Ne, b, 0); (op == And1 && result == (x && y)) || (op == Or1 && result == (x || y))
    ensures On(m, c, k + 4, g, s, g, 4, t) && Holds(t, Reg(g.regs + 3), Truth(result))
  {
    hide EmitAll, Coded, On, Run, Holds, Put, Undisturbed, Beyond, Truth, IntCompare;
    var js, n, x, y := LogicCode(g.regs, op, l, r), g.regs, IntCompare(Ne, a, 0), IntCompare(Ne, b, 0);
    NextCmp(m, c, k, g, s, g, js, 0, s, Ne, a, 0);
    var s1 := Put(s, n, Truth(x));
    NextCmp(m, c, k + 1, g, s, g, js, 1, s1, Ne, b, 0);
    var s2 := Put(s1, n + 1, Truth(y));
    NextLogic(m, c, k + 2, g, s, g, js, 2, s2, x, y, result);
    var s3 := Put(s2, n + 2, Truth(result));
    NextWiden(m, c, k + 3, g, s, g, js, 3, s3, result);
    t := Put(s3, n + 3, Truth(result));
  }

  lemma LogicSim(m: Module, c: Config, k: nat, g: Gen, s: State, op: BinOp, l: Operand, r: Operand, a: int, b: int, result: bool)
    returns (s': State)
    requires Ready(m, c, k, g, s, DefAll(g, LogicCode(g.regs, op, l, r)))
    requires Holds(s, l, I(a)) && Holds(s, r, I(b)) && Below(l, g.regs) && Below(r, g.regs)
    requires (op == And1 && result == (a != 0 && b != 0)) || (op == Or1 && result == (a != 0 || b != 0))
    ensures Computes(m, c, k + 4, g, s, DefAll(g, LogicCode(g.regs, op, l, r)), Val(Truth(result)), s')
  {
    hide EmitAll, Coded, On, Run, Holds, Computes;
    Begin(m, c, k, g, s);
    s' := LogicRun(m, c, k, g, s, op, l, r, a, b, result);
    Finished(m, c, k + 4, g, s, g, LogicCode(g.regs, op, l, r), s', Truth(result));
  }

  lemma CompareSim(m: Module, c: Config, k: nat, g: Gen, s: State, op: BinOp, l: Operand, r: Operand, x: Value, y: Value, result: bool)
    returns (s': State)
    requires Ready(m, c, k, g, s, DefAll(g, CompareCode(g.regs, op, l, r))) && Holds(s, l, x) && Holds(s, r, y)
    requires BinResult(m.env.floats, op, x, y) == Cell(Truth(result))
    ensures Computes(m, c, k + 2, g, s, DefAll(g, CompareCode(g.regs, op, l, r)), Val(Truth(result)), s')
  {
    hide EmitAll, Coded, On, Run, Holds, Put, Computes, Undisturbed, Beyond, BinResult, Truth;
    Begin(m, c, k, g, s);
    var js, n := CompareCode(g.regs, op, l, r), g.regs;
    NextBin(m, c, k, g, s, g, js, 0, s, x, y, Truth(result));
    var s1 := Put(s, n, Truth(result));
    NextWiden(m, c, k + 1, g, s, g, js, 1, s1, result);
    s' := Put(s1, n + 1, Truth(result));
    Finished(m, c, k + 2, g, s, g, js, s', Truth(result));
  }

  lemma IntSim(m: Module, c: Config, k: nat, g: Gen, s: State, opcode: int, l: Operand, r: Operand, a: int, b: int)
    returns (k': nat, s': State)
    requires Ready(m, c, k, g, s, GenInt(g, opcode, l, r)) && 1 <= opcode <= 13
    requires Holds(s, l, I(a)) && Holds(s, r, I(b)) && Below(l, g.regs) && Below(r, g.regs)
    ensures k' > k && Computes(m, c, k', g, s, GenInt(g, opcode, l, r), IntBinary(opcode, a, b), s')
  {
    hide Computes, Ready, GenDivision, DefAll, Def, Holds, Wrap32, TruncDiv, TruncRem;
    if opcode <= 3 {
      var op := if opcode == 1 then Add32 else if opcode == 2 then Sub32 else Mul32;
      var v := I(if opcode == 1 then Wrap32(a + b) else if opcode == 2 then Wrap32(a - b) else Wrap32(a * b));
      OneBin(m, c, k, g, s, op, l, r, I(a), I(b), v);
      k', s' := k + 1, Put(s, g.regs, v);
    } else if opcode <= 5 {
      k', s' := DivisionSim(m, c, k, g, s, opcode, l, r, a, b);
    } else if opcode <= 11 {
      var p := ComparisonOf(opcode);
      s' := CompareSim(m, c, k, g, s, ICmp(p), l, r, I(a), I(b), IntCompare(p, a, b));
      k' := k + 2;
    } else if opcode == 12 {
      s' := LogicSim(m, c, k, g, s, Or1, l, r, a, b, a != 0 || b != 0);
      k' := k + 4;
    } else {
      s' := LogicSim(m, c, k, g, s, And1, l, r, a, b, a != 0 && b != 0);
      k' := k + 4;
    }
  }

  // ----- floats and strings -----

  function FloatGuard(n: nat, r: Operand): seq<Instr> {
    [Bin(n, FCmp(Eq), r, Imm(F(FZERO)))]
  }

  lemma FloatDivisionShape(g: Gen, l: Operand, r: Operand)
    ensures var z := DefAll(g, FloatGuard(g.regs, r));
            var h := FailureIf(z.g, z.o, FloatDivision);
            GenFloat(g, 4, l, r) == DefAll(h, [Bin(h.regs, FArith(FDiv), l, r)])
  {
    hide Def, DefAll;
    var z := Def(g, Bin(g.regs, FCmp(Eq), r, Imm(F(FZERO))));
    var h := FailureIf(z.g, z.o, FloatDivision);
    DefIsDefAll(g, Bin(g.regs, FCmp(Eq), r, Imm(F(FZERO))));
    DefIsDefAll(h, Bin(h.regs, FArith(FDiv), l, r));
  }

  lemma FloatDivisionSim(m: Module, c: Config, k: nat, g: Gen, s: State, l: Operand, r: Operand, a: Float, b: Float)
    returns (k': nat, s': State)
    requires Ready(m, c, k, g, s, GenFloat(g, 4, l, r)) && Holds(s, l, F(a)) && Holds(s, r, F(b)) && Below(l, g.regs) && Below(r, g.regs)
    ensures k' > k && Computes(m, c, k', g, s, GenFloat(g, 4, l, r), FloatBinary(m.env.floats, 4, a, b), s')
  {
    hide EmitAll, FailureIf, Coded, On, Run, Holds, Computes, GenFloat, Past, Truth, FloatBinary;
    Begin(m, c, k, g, s);
    FloatDivisionShape(g, l, r);
    var fn, js := s.top.fn, FloatGuard(g.regs, r);
    var z := DefAll(g, js);
    var h := FailureIf(z.g, z.o, FloatDivision);
    CodedEmitAll(m, fn, h, [Bin(h.regs, FArith(FDiv), l, r)]);
    CodedFailure(m, fn, z.g, z.o, FloatDivision);
    var t := FloatGuardRun(m, c, k, g, s, l, r, a, b, m.env.floats.cmp(Eq, b, FZERO));
    k', s' := FloatDivisionEnd(m, c, k + 1, g, s, t, l, r, a, b, m.env.floats.cmp(Eq, b, FZERO));
  }

  lemma FloatDivisionEnd(m: Module, c: Config, k: nat, g: Gen, s: State, t: State, l: Operand, r: Operand, a: Float, b: Float, bad: bool)
    returns (k': nat, s': State)
    requires On(m, c, k, g, s, g, 1, t) && Holds(t, Reg(g.regs), Truth(bad)) && Holds(t, l, F(a)) && Holds(t, r, F(b))
    requires Below(l, g.regs) && Below(r, g.regs) && bad == m.env.floats.cmp(Eq, b, FZERO)
    requires var z := DefAll(g, FloatGuard(g.regs, r));
             var h := FailureIf(z.g, z.o, FloatDivision);
             Coded(m, t.top.fn, h) && Coded(m, t.top.fn, EmitAll(h, [Bin(h.regs, FArith(FDiv), l, r)]))
    ensures var z := DefAll(g, FloatGuard(g.regs, r));
            var h := FailureIf(z.g, z.o, FloatDivision);
            k' > k && Computes(m, c, k', g, s, DefAll(h, [Bin(h.regs, FArith(FDiv), l, r)]), FloatBinary(m.env.floats, 4, a, b), s')
  {
    hide EmitAll, FailureIf, Coded, On, Run, Holds, Computes, Past, Truth;
    var js := FloatGuard(g.regs, r);
    var z := DefAll(g, js);
    var h := FailureIf(z.g, z.o, FloatDivision);
    NextFailure(m, c, k, g, s, g, js, t, z.o, FloatDivision, bad);
    if bad {
      k', s' := k + 2, s;
      Faulted(m, c, k', g, s, DefAll(h, [Bin(h.regs, FArith(FDiv), l, r)]), FloatDivision);
    } else {
      s' := FloatQuotient(m, c, k + 1, g, s, h, Past(t, z.g), l, r, a, b);
      k' := k + 2;
    }
  }

  lemma FloatGuardRun(m: Module, c: Config, k: nat, g: Gen, s: State, l: Operand, r: Operand, a: Float, b: Float, bad: bool) returns (t: State)
    requires On(m, c, k, g, s, g, 0, s) && Coded(m, s.top.fn, EmitAll(g, FloatGuard(g.regs, r)))
    requires Holds(s, l, F(a)) && Holds(s, r, F(b)) && Below(l, g.regs) && Below(r, g.regs) && bad == m.env.floats.cmp(Eq, b, FZERO)
    ensures On(m, c, k + 1, g, s, g, 1, t) && Holds(t, Reg(g.regs), Truth(bad)) && Holds(t, l, F(a)) && Holds(t, r, F(b)) && t.top.fn == s.top.fn
  {
    hide EmitAll, Coded, On, Holds, Put, Truth;
    HoldsImm(s, F(FZERO));
    NextBin(m, c, k, g, s, g, FloatGuard(g.regs, r), 0, s, F(b), F(FZERO), Truth(bad));
    t := Put(s, g.regs, Truth(bad));
  }

  lemma FloatQuotient(m: Module, c: Config, k: nat, g: Gen, s: State, h: Gen, t: State, l: Operand, r: Operand, a: Float, b: Float) returns (s': State)
    requires On(m, c, k, g, s, h, 0, t) && Coded(m, t.top.fn, EmitAll(h, [Bin(h.regs, FArith(FDiv), l, r)]))
    requires Holds(t, l, F(a)) && Holds(t, r, F(b))
    ensures Computes(m, c, k + 1, g, s, DefAll(h, [Bin(h.regs, FArith(FDiv), l, r)]), Val(F(m.env.floats.arith(FDiv, a, b))), s')
  {
    hide EmitAll, Coded, On, Run, Holds, Put, Computes;
    var v := F(m.env.floats.arith(FDiv, a, b));
    NextBin(m, c, k, g, s, h, [Bin(h.regs, FArith(FDiv), l, r)], 0, t, F(a), F(b), v);
    s' := Put(t, h.regs, v);
    Finished(m, c, k + 1, g, s, h, [Bin(h.regs, FArith(FDiv), l, r)], s', v);
  }

  lemma FloatSim(m: Module, c: Config, k: nat, g: Gen, s: State, opcode: int, l: Operand, r: Operand, a: Float, b: Float)
    returns (k': nat, s': State)
    requires Ready(m, c, k, g, s, GenFloat(g, opcode, l, r)) && 1 <= opcode <= 11 && opcode != 5
    requires Holds(s, l, F(a)) && Holds(s, r, F(b)) && Below(l, g.regs) && Below(r, g.regs)
    ensures k' > k && Computes(m, c, k', g, s, GenFloat(g, opcode, l, r), FloatBinary(m.env.floats, opcode, a, b), s')
  {
    hide Computes, Ready, DefAll, Def, Holds, FailureIf;
    var fs := m.env.floats;
    if opcode <= 3 {
      var op := if opcode == 1 then FAdd else if opcode == 2 then FSub else FMul;
      OneBin(m, c, k, g, s, FArith(op), l, r, F(a), F(b), F(fs.arith(op, a, b)));
      k', s' := k + 1, Put(s, g.regs, F(fs.arith(op, a, b)));
    } else if opcode == 4 {
      k', s' := FloatDivisionSim(m, c, k, g, s, l, r, a, b);
    } else {
      var p := ComparisonOf(opcode);
      s' := CompareSim(m, c, k, g, s, FCmp(p), l, r, F(a), F(b), fs.cmp(p, a, b));
      k' := k + 2;
    }
  }

  lemma TextRun(m: Module, c: Config, k: nat, g: Gen, s: State, p: Pred, l: Operand, r: Operand, a: Text, b: Text, same: int)
    returns (t: State)
    requires On(m, c, k, g, s, g, 0, s) && Coded(m, s.top.fn, EmitAll(g, TextCode(g.regs, p, l, r)))
    requires Holds(s, l, T(a)) && Holds(s, r, T(b)) && Below(l, g.regs) && Below(r, g.regs)
    requires same == if Chars(a) == Chars(b) then 0 else 1
    ensures On(m, c, k + 5, g, s, g, 5, t) && Holds(t, Reg(g.regs + 4), Truth(IntCompare(p, same, 0)))
  {
    hide EmitAll, Coded, On, Run, Holds, Put, Undisturbed, Beyond, Chars, IntCompare, Truth, BinResult, UnResult;
    var x, y := T(Text(Chars(a))), T(Text(Chars(b)));
    TextResults(m.env.floats, a, b);
    var js, n := TextCode(g.regs, p, l, r), g.regs;
    NextUn(m, c, k, g, s, g, js, 0, s, T(a), x);
    var s1 := Put(s, n, x);
    NextUn(m, c, k + 1, g, s, g, js, 1, s1, T(b), y);
    var s2 := Put(s1, n + 1, y);
    NextBin(m, c, k + 2, g, s, g, js, 2, s2, x, y, I(same));
    var s3 := Put(s2, n + 2, I(same));
    NextCmp(m, c, k + 3, g, s, g, js, 3, s3, p, same, 0);
    var v := IntCompare(p, same, 0);
    var s4 := Put(s3, n + 3, Truth(v));
    NextWiden(m, c, k + 4, g, s, g, js, 4, s4, v);
    t := Put(s4, n + 4, Truth(v));
  }

  lemma TextResults(fs: FloatSem, a: Text, b: Text)
    ensures UnResult(fs, SafeString, T(a)) == Cell(T(Text(Chars(a)))) && UnResult(fs, SafeString, T(b)) == Cell(T(Text(Chars(b))))
    ensures BinResult(fs, StrCmp, T(Text(Chars(a))), T(Text(Chars(b)))) == Cell(I(if Chars(a) == Chars(b) then 0 else 1))
  {
  }

  lemma TextSim(m: Module, c: Config, k: nat, g: Gen, s: State, opcode: int, l: Operand, r: Operand, a: Text, b: Text)
    returns (s': State)
    requires Ready(m, c, k, g, s, GenText(g, opcode, l, r)) && (opcode == 10 || opcode == 11)
    requires Holds(s, l, T(a)) && Holds(s, r, T(b)) && Below(l, g.regs) && Below(r, g.regs)
    ensures Computes(m, c, k + 5, g, s, GenText(g, opcode, l, r), Binary(m.env.floats, opcode, T(a), T(b)), s')
  {
    Begin(m, c, k, g, s);
    var p := if opcode == 10 then Eq else Ne;
    var same := if Chars(a) == Chars(b) then 0 else 1;
    assert Binary(m.env.floats, opcode, T(a), T(b)) == Val(Truth(IntCompare(p, same, 0)));
    hide EmitAll, Coded, On, Run, Holds, Computes, Binary, Chars, IntCompare, Truth;
    s' := TextRun(m, c, k, g, s, p, l, r, a, b, same);
    Finished(m, c, k + 5, g, s, g, TextCode(g.regs, p, l, r), s', Truth(IntCompare(p, same, 0)));
  }

  lemma BinarySim(m: Module, c: Config, k: nat, g: Gen, s: State, t: ScalarType, opcode: int, result: ScalarType, l: Operand, r: Operand, x: Value, y: Value)
    returns (k': nat, s': State)
    requires Ready(m, c, k, g, s, GenBinary(g, t, opcode, l, r)) && BinaryOk(opcode, t, result) && HasScalar(x, t) && HasScalar(y, t)
    requires Holds(s, l, x) && Holds(s, r, y) && Below(l, g.regs) && Below(r, g.regs)
    ensures k' > k && Computes(m, c, k', g, s, GenBinary(g, t, opcode, l, r), Binary(m.env.floats, opcode, x, y), s')
  {
    hide Computes, Ready, GenInt, GenFloat, GenText, Holds, IntBinary, FloatBinary;
    if t == String {
      s' := TextSim(m, c, k, g, s, opcode, l, r, x.t, y.t);
      k' := k + 5;
    } else if t == Float64 {
      k', s' := FloatSim(m, c, k, g, s, opcode, l, r, x.f, y.f);
    } else {
      k', s' := IntSim(m, c, k, g, s, opcode, l, r, x.n, y.n);
    }
  }

  lemma UnarySim(m: Module, c: Config, k: nat, g: Gen, s: State, t: ScalarType, o: Operand, v: Value) returns (s': State)
    requires Ready(m, c, k, g, s, GenUnary(g, t, o)) && Numeric(t) && HasScalar(v, t) && Holds(s, o, v)
    ensures Computes(m, c, k + 1, g, s, GenUnary(g, t, o), Unary(m.env.floats, v), s')
  {
    hide Computes, Ready, Wrap32;
    if t == Float64 {
      var r := F(m.env.floats.neg(v.f));
      OneSim(m, c, k, g, s, Un(g.regs, FNeg, o), r);
      s' := Put(s, g.regs, r);
    } else {
      var r := I(Wrap32(0 - v.n));
      assert 0 - v.n == -v.n;
      OneBin(m, c, k, g, s, Sub32, Imm(I(0)), o, I(0), v, r);
      s' := Put(s, g.regs, r);
    }
  }
}
