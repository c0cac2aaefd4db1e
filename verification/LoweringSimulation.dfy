/**
The second pass preserves meaning: every step of the module with composite operations is matched
by one or more steps of the lowered module, which ends, traps or runs on in the same way.
*/
module LoweringSimulation {
  import opened SemanticIR
  import opened Typing
  import opened Evaluator
  import opened Machine
  import opened Codegen
  import opened Growth
  import opened ControlGrowth
  import opened Lockstep
  import opened Straight
  import opened CompositeLowering

  // ----- matching states -----

  /** The registers the code reads hold the same values; everything else is equal but the position. */
  ghost predicate Matches(n: nat, f: Frame, t: Frame) {
    && t.fn == f.fn && t.dest == f.dest && t.slots == f.slots && t.steps == f.steps
    && forall r | r < n && r in f.regs :: r in t.regs && t.regs[r] == f.regs[r]
  }

  predicate Inside(m: Module, f: Frame) {
    f.fn in m.code && f.block < |m.code[f.fn]| && f.at <= |m.code[f.fn][f.block]|
  }

  function Bound(m: Module, fn: string): nat {
    if fn in m.code then CodeBound(m.code[fn]) else 0
  }

  /** Where the pass stood when it reached the instruction the frame is at. */
  function Point(m: Module, f: Frame): Gen
    requires Inside(m, f)
  {
    Reaching(m.env, m.code[f.fn], f.block, f.at)
  }

  ghost predicate FrameMatch(m: Module, f: Frame, t: Frame) {
    Inside(m, f) && Matches(Bound(m, f.fn), f, t) && At(Point(m, f), t)
  }

  ghost predicate RestMatch(m: Module, fs: seq<Frame>, ts: seq<Frame>) {
    |fs| == |ts| && forall i | 0 <= i < |fs| :: FrameMatch(m, fs[i], ts[i])
  }

  /** All but the position of the frame at work. */
  ghost predicate Alike(m: Module, s: State, t: State) {
    Matches(Bound(m, s.top.fn), s.top, t.top) && RestMatch(m, s.rest, t.rest) && t.globals == s.globals && t.out == s.out
  }

  ghost predicate StateMatch(m: Module, s: State, t: State) {
    FrameMatch(m, s.top, t.top) && RestMatch(m, s.rest, t.rest) && t.globals == s.globals && t.out == s.out
  }

  ghost predicate ConfigMatch(m: Module, c: Config, d: Config) {
    if c.Running? then d.Running? && StateMatch(m, c.s, d.s) else d == c
  }

  ghost predicate AllWellFormed(m: Module) {
    forall f <- m.code :: WellFormed(m.code[f])
  }

  // ----- operands -----

  lemma SameOperand(n: nat, f: Frame, t: Frame, o: Operand)
    requires Matches(n, f, t) && Below(o, n) && Has(f, o)
    ensures Has(t, o) && Get(t, o) == Get(f, o)
  {
  }

  lemma SameOperands(n: nat, f: Frame, t: Frame, os: seq<Operand>)
    requires Matches(n, f, t) && AllBelow(os, n) && HasAll(f, os)
    ensures HasAll(t, os) && GetAll(t, os) == GetAll(f, os)
  {
    hide Matches, Has, Get;
    forall i | 0 <= i < |os| ensures Has(t, os[i]) && Get(t, os[i]) == Get(f, os[i]) {
      SameOperand(n, f, t, os[i]);
    }
  }

  lemma OperandAt(m: Module, s: State, t: State, i: Instr, j: nat)
    requires Alike(m, s, t) && AllBelow(Operands(i), Bound(m, s.top.fn)) && j < |Operands(i)| && Has(s.top, Operands(i)[j])
    ensures Has(t.top, Operands(i)[j]) && Get(t.top, Operands(i)[j]) == Get(s.top, Operands(i)[j])
  {
    hide Operands, RestMatch, Has, Get, Matches;
    SameOperand(Bound(m, s.top.fn), s.top, t.top, Operands(i)[j]);
  }

  // ----- instructions that stay -----

  /** Both machines moved on by one instruction. */
  ghost predicate Advanced(m: Module, s: State, t: State, c: Config, d: Config) {
    && c.Running? && d.Running? && Alike(m, c.s, d.s)
    && c.s.top.fn == s.top.fn && c.s.top.block == s.top.block && c.s.top.at == s.top.at + 1
    && d.s.top.block == t.top.block && d.s.top.at == t.top.at + 1
  }

  lemma DefineAlike(m: Module, s: State, t: State, d: nat, r: Loaded)
    requires Alike(m, s, t) && r.Cell?
    ensures Advanced(m, s, t, Define(s, d, r), Define(t, d, r))
  {
    hide RestMatch;
  }

  lemma ProceedAlike(m: Module, s: State, t: State)
    requires Alike(m, s, t)
    ensures Advanced(m, s, t, Proceed(s), Proceed(t))
  {
    hide RestMatch;
  }

  predicate Computing(i: Instr) {
    i.Bin? || i.Un? || i.Select? || i.Gep? || i.Advance? || i.Load? || i.Extract? || i.Insert?
  }

  /** What a computing instruction writes. */
  function Result(m: Module, s: State, i: Instr): Loaded
    requires Computing(i)
  {
    var f := s.top;
    match i
    case Bin(_, op, a, b) => if Has(f, a) && Has(f, b) then BinResult(m.env.floats, op, Get(f, a), Get(f, b)) else NoCell
    case Un(_, op, a) => if Has(f, a) then UnResult(m.env.floats, op, Get(f, a)) else NoCell
    case Select(_, x, a, b) =>
      if Has(f, x) && Has(f, a) && Has(f, b) && Get(f, x).I? then Cell(if Get(f, x).n != 0 then Get(f, a) else Get(f, b)) else NoCell
    case Gep(_, b, x) => if Has(f, b) && Has(f, x) then GepResult(Get(f, b), Get(f, x)) else NoCell
    case Advance(_, b, x) => if Has(f, b) && Has(f, x) then AdvanceResult(Get(f, b), Get(f, x)) else NoCell
    case Load(_, a) => if Has(f, a) && Get(f, a).P? then LoadFrom(f, s.globals, Get(f, a).p) else NoCell
    case Extract(_, n, a) => if Has(f, a) then Extracted(n, Get(f, a)) else NoCell
    case Insert(_, n, a, v) => if Has(f, a) && Has(f, v) then Updated(n, Get(f, a), Get(f, v)) else NoCell
  }

  lemma PerformComputes(m: Module, s: State, i: Instr)
    requires Computing(i)
    ensures Perform(m, s, i) == Define(s, i.d, Result(m, s, i))
  {
    hide BinResult, UnResult, GepResult, AdvanceResult, Updated, Extracted, LoadFrom;
  }

  lemma LoadAlike(m: Module, s: State, t: State, p: Pointer)
    requires Alike(m, s, t)
    ensures LoadFrom(t.top, t.globals, p) == LoadFrom(s.top, s.globals, p)
  {
    hide RestMatch;
  }

  lemma ResultAlike(m: Module, q: Module, s: State, t: State, i: Instr)
    requires q.env == m.env && Alike(m, s, t) && AllBelow(Operands(i), Bound(m, s.top.fn)) && Computing(i) && Result(m, s, i).Cell?
    ensures Result(q, t, i) == Result(m, s, i)
  {
    hide Alike, AllBelow, BinResult, UnResult, GepResult, AdvanceResult, Updated, Extracted, LoadFrom, Has, Get;
    OperandAt(m, s, t, i, 0);
    if |Operands(i)| > 1 {
      OperandAt(m, s, t, i, 1);
    }
    if |Operands(i)| > 2 {
      OperandAt(m, s, t, i, 2);
    }
    if i.Load? {
      LoadAlike(m, s, t, Get(s.top, i.addr).p);
    }
  }

  /** An instruction that writes a register writes the same value in both machines. */
  lemma ComputingStep(m: Module, q: Module, s: State, t: State, i: Instr)
    requires q.env == m.env && Alike(m, s, t) && AllBelow(Operands(i), Bound(m, s.top.fn))
    requires Computing(i) && Perform(m, s, i) != Stuck
    ensures Advanced(m, s, t, Perform(m, s, i), Perform(q, t, i))
  {
    hide Alike, Advanced, AllBelow, Result, Perform;
    PerformComputes(m, s, i);
    PerformComputes(q, t, i);
    ResultAlike(m, q, s, t, i);
    DefineAlike(m, s, t, i.d, Result(m, s, i));
  }

  lemma StoreAlike(m: Module, s: State, t: State, p: Pointer, v: Value)
    requires Alike(m, s, t) && StoreAt(m.env, s, p, v).Running?
    ensures
      var c, d := StoreAt(m.env, s, p, v), StoreAt(m.env, t, p, v);
      && d.Running? && Alike(m, c.s, d.s)
      && c.s.top.fn == s.top.fn && c.s.top.block == s.top.block && c.s.top.at == s.top.at
      && d.s.top.block == t.top.block && d.s.top.at == t.top.at
  {
    hide RestMatch;
  }

  lemma StoreStep(m: Module, q: Module, s: State, t: State, i: Instr)
    requires q.env == m.env && Alike(m, s, t) && AllBelow(Operands(i), Bound(m, s.top.fn)) && i.StoreTo? && Perform(m, s, i) != Stuck
    ensures Advanced(m, s, t, Perform(m, s, i), Perform(q, t, i))
  {
    hide Alike, AllBelow, Has, Get, StoreAt;
    OperandAt(m, s, t, i, 0);
    OperandAt(m, s, t, i, 1);
    var p, v := Get(s.top, i.addr).p, Get(s.top, i.v);
    StoreAlike(m, s, t, p, v);
    ProceedAlike(m, StoreAt(m.env, s, p, v).s, StoreAt(m.env, t, p, v).s);
  }

  lemma PrintStep(m: Module, q: Module, s: State, t: State, i: Instr)
    requires Alike(m, s, t) && AllBelow(Operands(i), Bound(m, s.top.fn)) && i.Printf? && Perform(m, s, i) != Stuck
    ensures Advanced(m, s, t, Perform(m, s, i), Perform(q, t, i))
  {
    hide AllBelow, Has, Get, RestMatch, Matches;
    OperandAt(m, s, t, i, 0);
    var item := Printed(i.format, Get(s.top, i.v));
    ProceedAlike(m, s.(out := s.out + [item]), t.(out := t.out + [item]));
  }

  // ----- jumps, calls and returns -----

  lemma StartsAlike(m: Module, f: Frame, t: Frame)
    requires f.fn in m.code && f.block < |m.code[f.fn]| && f.at == 0 && t.block == f.block && t.at == 0
    requires Matches(Bound(m, f.fn), f, t)
    ensures FrameMatch(m, f, t)
  {
    hide Reaching, Matches, CodeBound;
    ReachingStart(m.env, m.code[f.fn], f.block);
  }

  lemma JumpMatch(m: Module, s: State, t: State, b: nat)
    requires Alike(m, s, t) && s.top.fn in m.code && b < |m.code[s.top.fn]|
    ensures ConfigMatch(m, Jump(s, b), Jump(t, b))
  {
    hide RestMatch, Reaching, CodeBound;
    var f, u := s.top.(block := b, at := 0), t.top.(block := b, at := 0);
    assert Matches(Bound(m, f.fn), f, u);
    StartsAlike(m, f, u);
  }

  lemma BranchStep(m: Module, q: Module, s: State, t: State, i: Instr)
    requires Alike(m, s, t) && AllBelow(Operands(i), Bound(m, s.top.fn)) && s.top.fn in m.code
    requires (i.Br? || i.CondBr?) && TargetsBelow(i, |m.code[s.top.fn]|) && Perform(m, s, i) != Stuck
    ensures ConfigMatch(m, Perform(m, s, i), Perform(q, t, i))
  {
    hide Alike, AllBelow, Has, Get, ConfigMatch, Jump;
    if i.Br? {
      JumpMatch(m, s, t, i.target);
    } else {
      OperandAt(m, s, t, i, 0);
      JumpMatch(m, s, t, i.yes);
      JumpMatch(m, s, t, i.no);
    }
  }

  lemma ReturnStep(m: Module, q: Module, s: State, t: State, i: Instr)
    requires Alike(m, s, t) && AllBelow(Operands(i), Bound(m, s.top.fn)) && i.Ret? && Perform(m, s, i) != Stuck
    ensures ConfigMatch(m, Perform(m, s, i), Perform(q, t, i))
  {
    hide AllBelow, Has, Get, Reaching, CodeBound;
    OperandAt(m, s, t, i, 0);
    if s.rest != [] {
      assert FrameMatch(m, s.rest[0], t.rest[0]);
    }
  }

  lemma CallStep(m: Module, q: Module, s: State, t: State, i: Instr)
    requires Alike(m, s, t) && AllBelow(Operands(i), Bound(m, s.top.fn)) && AllWellFormed(m) && i.CallTo? && Perform(m, s, i) != Stuck
    requires q.code.Keys == m.code.Keys
    requires FrameMatch(m, s.top.(at := s.top.at + 1), t.top.(at := t.top.at + 1))
    ensures ConfigMatch(m, Perform(m, s, i), Perform(q, t, i))
  {
    hide AllBelow, HasAll, Reaching, CodeBound, Matches, FrameMatch;
    SameOperands(Bound(m, s.top.fn), s.top, t.top, i.args);
    var vs := GetAll(s.top, i.args);
    var f := Entry(i.f, vs, i.d);
    assert WellFormed(m.code[i.f]);
    EntryMatch(m, f);
    RestCons(m, s.top.(at := s.top.at + 1), t.top.(at := t.top.at + 1), s.rest, t.rest);
  }

  lemma EntryMatch(m: Module, f: Frame)
    requires f.fn in m.code && m.code[f.fn] != [] && f.block == 0 && f.at == 0
    ensures FrameMatch(m, f, f)
  {
    hide CodeBound, Reaching;
    StartsAlike(m, f, f);
  }

  lemma RestCons(m: Module, f: Frame, t: Frame, fs: seq<Frame>, ts: seq<Frame>)
    requires FrameMatch(m, f, t) && RestMatch(m, fs, ts)
    ensures RestMatch(m, [f] + fs, [t] + ts)
  {
    hide FrameMatch;
  }

  // ----- progress inside a pattern -----

  /** While only fresh registers change, the states stay alike. */
  lemma StaysAlike(m: Module, s: State, t: State, g: Gen, u: State)
    requires Alike(m, s, t) && Bound(m, s.top.fn) <= g.regs && Undisturbed(g, t, u)
    ensures Alike(m, s, u)
  {
    hide RestMatch, Bound;
  }

  lemma TagRun(q: Module, c: Config, k: nat, g: Gen, s: State, h: Gen, t: State, tag: Operand, v: int, tags: nat, fault: Fault)
    returns (u: State, j: nat)
    requires On(q, c, k, g, s, h, 0, t) && Coded(q, t.top.fn, CheckTag(h, tag, tags, fault))
    requires Holds(t, tag, I(v)) && Below(tag, h.regs)
    ensures j > k && u.top.fn == t.top.fn
    ensures !(0 <= v < tags) ==> Run(q, c, j) == Trapped(fault, s.globals, s.out)
    ensures 0 <= v < tags ==> On(q, c, j, g, s, CheckTag(h, tag, tags, fault), 0, u) && Carries(h.regs, t, u)
  {
    hide Coded, On, Run, Holds, Put, Undisturbed, Beyond, EmitAll, FailureIf, Past;
    var n, js := h.regs, TagTest(h.regs, tag, tags);
    CheckTagExt(h, tag, tags, fault);
    CodedBack(q, t.top.fn, EmitAll(h, js), CheckTag(h, tag, tags, fault));
    var low, high := IntCompare(Lt, v, 0), IntCompare(Ge, v, tags);
    NextCmp(q, c, k, g, s, h, js, 0, t, Lt, v, 0);
    var t1 := Put(t, n, Truth(low));
    NextCmp(q, c, k + 1, g, s, h, js, 1, t1, Ge, v, tags);
    var t2 := Put(t1, n + 1, Truth(high));
    NextLogic(q, c, k + 2, g, s, h, js, 2, t2, low, high, low || high);
    var t3 := Put(t2, n + 2, Truth(low || high));
    NextFailure(q, c, k + 3, g, s, h, js, t3, Reg(n + 2), fault, low || high);
    u := if low || high then t3 else Past(t3, EmitAll(h, js));
    j := if low || high then k + 5 else k + 4;
    CarriesAll(n, t, t1, t2, t3, u);
  }

  lemma CarriesTrans(n: nat, a: State, b: State, p: nat, d: State)
    requires Carries(n, a, b) && Carries(p, b, d) && n <= p
    ensures Carries(n, a, d)
  {
    hide Holds;
  }

  lemma CarriesAll(n: nat, a: State, b: State, d: State, e: State, f: State)
    requires Carries(n, a, b) && Carries(n + 1, b, d) && Carries(n + 2, d, e) && (Carries(n + 3, e, f) || f.top.fn == e.top.fn)
    ensures Carries(n + 3, e, f) ==> Carries(n, a, f)
    ensures f.top.fn == a.top.fn
  {
    hide Holds;
    CarriesTrans(n, a, b, n + 1, d);
    CarriesTrans(n, a, d, n + 2, e);
    if Carries(n + 3, e, f) {
      CarriesTrans(n, a, e, n + 3, f);
    }
  }

  lemma SliceTests(q: Module, c: Config, k: nat, g: Gen, s: State, h: Gen, t: State, pointer: Operand, length: Operand, p: Pointer, n: int)
    returns (u: State)
    requires On(q, c, k, g, s, h, 0, t) && Coded(q, t.top.fn, EmitAll(h, SliceTest(h.regs, pointer, length)))
    requires Holds(t, pointer, P(p)) && Holds(t, length, I(n)) && Below(pointer, h.regs) && Below(length, h.regs)
    ensures On(q, c, k + 3, g, s, h, 3, u) && Carries(h.regs, t, u)
    ensures Holds(u, Reg(h.regs), Truth(IntCompare(Lt, n, 0))) && Holds(u, Reg(h.regs + 1), Truth(IntCompare(Gt, n, 0)))
    ensures Holds(u, Reg(h.regs + 2), Truth(p == Null))
  {
    hide Coded, On, Run, Holds, Put, Undisturbed, Beyond, EmitAll, IntCompare;
    var b, js := h.regs, SliceTest(h.regs, pointer, length);
    NextCmp(q, c, k, g, s, h, js, 0, t, Lt, n, 0);
    var t1 := Put(t, b, Truth(IntCompare(Lt, n, 0)));
    NextCmp(q, c, k + 1, g, s, h, js, 1, t1, Gt, n, 0);
    var t2 := Put(t1, b + 1, Truth(IntCompare(Gt, n, 0)));
    NullTest(q.env.floats, p);
    NextUn(q, c, k + 2, g, s, h, js, 2, t2, P(p), Truth(p == Null));
    u := Put(t2, b + 2, Truth(p == Null));
    CarriesTrans(b, t, t1, b + 1, t2);
    CarriesTrans(b, t, t2, b + 2, u);
  }

  lemma NullTest(fs: FloatSem, p: Pointer)
    ensures UnResult(fs, IsNull, P(p)) == Cell(Truth(p == Null))
  {
  }

  /** A slice descriptor that the check refuses. */
  predicate BadSlice(p: Pointer, n: int) {
    n < 0 || (n > 0 && p == Null)
  }

  lemma SliceRun(q: Module, c: Config, k: nat, g: Gen, s: State, h: Gen, t: State, pointer: Operand, length: Operand, p: Pointer, n: int)
    returns (u: State, j: nat)
    requires On(q, c, k, g, s, h, 0, t) && Coded(q, t.top.fn, CheckSlice(h, pointer, length))
    requires Holds(t, pointer, P(p)) && Holds(t, length, I(n)) && Below(pointer, h.regs) && Below(length, h.regs)
    ensures j > k && u.top.fn == t.top.fn
    ensures BadSlice(p, n) ==> Run(q, c, j) == Trapped(StoredSlice, s.globals, s.out)
    ensures !BadSlice(p, n) ==> On(q, c, j, g, s, CheckSlice(h, pointer, length), 0, u) && Carries(h.regs, t, u)
  {
    hide Coded, On, Run, Holds, Put, Undisturbed, Beyond, EmitAll, FailureIf, Past;
    var b, js := h.regs, SliceTest(h.regs, pointer, length);
    CheckSliceExt(h, pointer, length);
    CodedBack(q, t.top.fn, EmitAll(h, js), CheckSlice(h, pointer, length));
    var t3 := SliceTests(q, c, k, g, s, h, t, pointer, length, p, n);
    var negative, unbacked := IntCompare(Lt, n, 0), IntCompare(Gt, n, 0) && p == Null;
    NextLogic(q, c, k + 3, g, s, h, js, 3, t3, IntCompare(Gt, n, 0), p == Null, unbacked);
    var t4 := Put(t3, b + 3, Truth(unbacked));
    NextLogic(q, c, k + 4, g, s, h, js, 4, t4, negative, unbacked, negative || unbacked);
    var t5 := Put(t4, b + 4, Truth(negative || unbacked));
    NextFailure(q, c, k + 5, g, s, h, js, t5, Reg(b + 4), StoredSlice, negative || unbacked);
    u := if negative || unbacked then t5 else Past(t5, EmitAll(h, js));
    j := if negative || unbacked then k + 7 else k + 6;
    CarriesTrans(b, t, t3, b + 3, t4);
    CarriesTrans(b, t, t4, b + 4, t5);
    if !(negative || unbacked) {
      CarriesTrans(b, t, t5, b + 5, u);
    }
  }

  lemma PayloadRun(q: Module, c: Config, k: nat, g: Gen, s: State, h: Gen, t: State, tag: Operand, v: int, expected: int)
    returns (u: State, j: nat)
    requires On(q, c, k, g, s, h, 0, t) && Coded(q, t.top.fn, CheckPayload(h, tag, expected))
    requires Holds(t, tag, I(v)) && Below(tag, h.regs)
    ensures j > k && u.top.fn == t.top.fn
    ensures v != expected ==> Run(q, c, j) == Trapped(InactivePayload, s.globals, s.out)
    ensures v == expected ==> On(q, c, j, g, s, CheckPayload(h, tag, expected), 0, u) && Carries(h.regs, t, u)
  {
    hide Coded, On, Run, Holds, Put, Undisturbed, Beyond, EmitAll, FailureIf, Past;
    var js := [Bin(h.regs, ICmp(Ne), tag, Imm(I(expected)))];
    CheckPayloadExt(h, tag, expected);
    CodedBack(q, t.top.fn, EmitAll(h, js), CheckPayload(h, tag, expected));
    NextCmp(q, c, k, g, s, h, js, 0, t, Ne, v, expected);
    var t1 := Put(t, h.regs, Truth(IntCompare(Ne, v, expected)));
    NextFailure(q, c, k + 1, g, s, h, js, t1, Reg(h.regs), InactivePayload, v != expected);
    u := if v != expected then t1 else Past(t1, EmitAll(h, js));
    j := if v != expected then k + 3 else k + 2;
    if v == expected {
      CarriesTrans(h.regs, t, t1, h.regs + 1, u);
    }
  }

  // ----- aggregates -----

  ghost predicate HoldsEach(t: State, os: seq<Operand>, vs: seq<Value>) {
    |os| == |vs| && forall i | 0 <= i < |os| :: Holds(t, os[i], vs[i])
  }

  lemma CarriesEach(n: nat, t: State, u: State, p: nat, os: seq<Operand>, vs: seq<Value>)
    requires Carries(p, t, u) && HoldsEach(t, os, vs) && AllBelow(os, n) && n <= p
    ensures HoldsEach(u, os, vs)
  {
    hide Holds;
    forall i | 0 <= i < |os| ensures Holds(u, os[i], vs[i]) {
      assert Below(os[i], n);
    }
  }

  /** The first `j` fields are in place. */
  function Filled(vs: seq<Value>, j: nat): seq<Value>
    requires j <= |vs|
  {
    vs[..j] + seq(|vs| - j, _ => Unit)
  }

  lemma FillsNext(vs: seq<Value>, j: nat)
    requires j < |vs|
    ensures Updated(j, Agg(Filled(vs, j)), vs[j]) == Cell(Agg(Filled(vs, j + 1)))
  {
    assert Filled(vs, j)[j := vs[j]] == Filled(vs, j + 1);
  }

  lemma FilledEnds(vs: seq<Value>)
    ensures Agg(Filled(vs, 0)) == Blank(|vs|) && Filled(vs, |vs|) == vs
  {
    assert Filled(vs, 0) == seq(|vs|, _ => Unit);
  }

  lemma InsertPerforms(q: Module, t: State, d: nat, j: nat, a: Operand, o: Operand, agg: Value, v: Value, r: Value)
    requires Holds(t, a, agg) && Holds(t, o, v) && Updated(j, agg, v) == Cell(r)
    ensures Perform(q, t, Insert(d, j, a, o)) == Running(Put(t, d, r))
  {
  }

  lemma {:induction false} InsertsRun(q: Module, c: Config, k: nat, g: Gen, s: State, h: Gen, t: State, os: seq<Operand>, vs: seq<Value>, j: nat)
    returns (u: State)
    requires On(q, c, k, g, s, h, 0, t) && Coded(q, t.top.fn, EmitAll(h, Inserts(h.regs, os)))
    requires HoldsEach(t, os, vs) && AllBelow(os, h.regs) && j <= |os|
    ensures On(q, c, k + j, g, s, h, j, u) && u.top.fn == t.top.fn && HoldsEach(u, os, vs)
    ensures Holds(u, Inserted(h.regs, j, |os|), Agg(Filled(vs, j)))
    decreases j
  {
    hide Coded, On, Run, Holds, Put, Undisturbed, Beyond, EmitAll, Perform, AllBelow, Updated, Filled, Blank;
    if j == 0 {
      u := t;
      FilledEnds(vs);
      HoldsImm(t, Blank(|os|));
    } else {
      var w := InsertsRun(q, c, k, g, s, h, t, os, vs, j - 1);
      var i := Inserts(h.regs, os)[j - 1];
      FillsNext(vs, j - 1);
      var r := Agg(Filled(vs, j));
      InsertPerforms(q, w, h.regs + j - 1, j - 1, i.agg, os[j - 1], Agg(Filled(vs, j - 1)), vs[j - 1], r);
      NextDef(q, c, k + j - 1, g, s, h, Inserts(h.regs, os), j - 1, w, r);
      u := Put(w, h.regs + j - 1, r);
      CarriesEach(h.regs, w, u, h.regs + j - 1, os, vs);
    }
  }

  lemma CopyPerforms(q: Module, t: State, d: nat, o: Operand, v: Value)
    requires Holds(t, o, v)
    ensures Perform(q, t, Copy(d, o)) == Define(t, d, Cell(v))
  {
  }

  /** The fields are inserted one after another and the result lands in the operation's register. */
  lemma AggregateRun(q: Module, c: Config, k: nat, g: Gen, s: State, h: Gen, t: State, d: nat, os: seq<Operand>, vs: seq<Value>)
    returns (u: State, j: nat)
    requires On(q, c, k, g, s, h, 0, t) && Coded(q, t.top.fn, Aggregate(h, d, os))
    requires HoldsEach(t, os, vs) && AllBelow(os, h.regs)
    ensures j > k && Run(q, c, j) == Define(u, d, Cell(Agg(vs))) && Undisturbed(g, s, u)
    ensures At(EmitAll(h, Inserts(h.regs, os)), u.top)
  {
    hide Coded, Run, Undisturbed, Perform, AllBelow, Inserts, Define, HoldsEach, Blank, Filled;
    var js := Inserts(h.regs, os);
    InsertsLength(h.regs, os);
    AggregateExt(h, d, os);
    CodedBack(q, t.top.fn, EmitAll(h, js), Aggregate(h, d, os));
    u := InsertsRun(q, c, k, g, s, h, t, os, vs, |os|);
    HoldsLength(t, os, vs);
    FilledEnds(vs);
    j := k + |os| + 1;
    CopyPerforms(q, u, d, Inserted(h.regs, |os|, |os|), Agg(vs));
    Then(q, c, k + |os|, EmitAll(h, js), Copy(d, Inserted(h.regs, |os|, |os|)), u);
  }

  lemma InsertsLength(n: nat, os: seq<Operand>)
    ensures |Inserts(n, os)| == |os|
  {
  }

  lemma HoldsLength(t: State, os: seq<Operand>, vs: seq<Value>)
    requires HoldsEach(t, os, vs)
    ensures |os| == |vs|
  {
  }

  // ----- the patterns as one step -----

  /** A run of a pattern: its steps, the state before its last instruction, and where that instruction went. */
  datatype Landing = Landing(j: nat, u: State, h: Gen, x: Instr)

  /** The pattern's code from `t` on does what the composite operation does from `s`. */
  ghost predicate Lands(m: Module, q: Module, s: State, t: State, r: Made, d: nat, final: Gen, l: Landing) {
    l.j > 0 && match r
    case Built(v) =>
      Run(q, Running(t), l.j) == Define(l.u, d, Cell(v)) && Alike(m, s, l.u) && At(l.h, l.u.top) && final == Emit(l.h, l.x)
    case Aborted(f) => Run(q, Running(t), l.j) == Trapped(f, s.globals, s.out)
    case Undefined => true
  }

  /** The machine stands before the code of a pattern. */
  ghost predicate Before(m: Module, q: Module, s: State, t: State, g: Gen, final: Gen) {
    Alike(m, s, t) && Bound(m, s.top.fn) <= g.regs && At(g, t.top) && Coded(q, t.top.fn, final)
  }

  lemma BeginAt(q: Module, t: State, g: Gen)
    requires At(g, t.top)
    ensures On(q, Running(t), 0, g, t, g, 0, t)
  {
    Begin(q, Running(t), 0, g, t);
  }

  lemma BelowMore(os: seq<Operand>, n: nat, k: nat)
    requires AllBelow(os, n) && n <= k
    ensures AllBelow(os, k)
  {
  }

  lemma EachHeld(m: Module, s: State, t: State, os: seq<Operand>)
    requires Alike(m, s, t) && AllBelow(os, Bound(m, s.top.fn)) && HasAll(s.top, os)
    ensures HoldsEach(t, os, GetAll(s.top, os))
  {
    hide RestMatch, Matches, AllBelow, Bound;
    SameOperands(Bound(m, s.top.fn), s.top, t.top, os);
  }

  lemma AlikeEffects(m: Module, s: State, t: State)
    requires Alike(m, s, t)
    ensures t.globals == s.globals && t.out == s.out
  {
  }

  lemma OnUndisturbed(q: Module, c: Config, k: nat, g: Gen, s: State, h: Gen, j: nat, t: State)
    requires On(q, c, k, g, s, h, j, t)
    ensures Undisturbed(g, s, t) && t.top.fn == s.top.fn && g.regs <= h.regs
  {
    hide Run;
  }

  lemma PlainMake(m: Module, q: Module, s: State, t: State, g: Gen, d: nat, os: seq<Operand>) returns (l: Landing)
    requires Before(m, q, s, t, g, Aggregate(g, d, os)) && AllBelow(os, Bound(m, s.top.fn)) && HasAll(s.top, os)
    ensures Lands(m, q, s, t, Built(Agg(GetAll(s.top, os))), d, Aggregate(g, d, os), l)
  {
    hide Alike, Coded, Run, Undisturbed, AllBelow, Inserts, HoldsEach, Define, On, Bound, At, HasAll;
    BeginAt(q, t, g);
    EachHeld(m, s, t, os);
    BelowMore(os, Bound(m, s.top.fn), g.regs);
    var u, j := AggregateRun(q, Running(t), 0, g, t, g, t, d, os, GetAll(s.top, os));
    StaysAlike(m, s, t, g, u);
    l := Landing(j, u, EmitAll(g, Inserts(g.regs, os)), Copy(d, Inserted(g.regs, |os|, |os|)));
  }

  /** After a check that passed, the aggregate is built from the same operands. */
  lemma MakeAfter(m: Module, q: Module, s: State, t: State, g: Gen, h: Gen, k: nat, w: State, d: nat, os: seq<Operand>) returns (l: Landing)
    requires Before(m, q, s, t, g, Aggregate(h, d, os)) && AllBelow(os, Bound(m, s.top.fn)) && HasAll(s.top, os)
    requires On(q, Running(t), k, g, t, h, 0, w) && Carries(g.regs, t, w)
    ensures Lands(m, q, s, t, Built(Agg(GetAll(s.top, os))), d, Aggregate(h, d, os), l)
  {
    hide Alike, Coded, Run, Undisturbed, AllBelow, Inserts, HoldsEach, Define, On, Bound, At, HasAll, Carries;
    OnUndisturbed(q, Running(t), k, g, t, h, 0, w);
    EachHeld(m, s, t, os);
    BelowMore(os, Bound(m, s.top.fn), g.regs);
    BelowMore(os, g.regs, h.regs);
    CarriesEach(g.regs, t, w, g.regs, os, GetAll(s.top, os));
    var u, j := AggregateRun(q, Running(t), k, g, t, h, w, d, os, GetAll(s.top, os));
    StaysAlike(m, s, t, g, u);
    l := Landing(j, u, EmitAll(h, Inserts(h.regs, os)), Copy(d, Inserted(h.regs, |os|, |os|)));
  }

  lemma HeldAt(t: State, os: seq<Operand>, vs: seq<Value>, i: nat)
    requires HoldsEach(t, os, vs) && i < |os|
    ensures |vs| == |os| && Holds(t, os[i], vs[i])
  {
  }

  lemma BelowAt(os: seq<Operand>, n: nat, i: nat)
    requires AllBelow(os, n) && i < |os|
    ensures Below(os[i], n)
  {
  }

  lemma TaggedMake(m: Module, q: Module, s: State, t: State, c: CompositeDecl, g: Gen, d: nat, os: seq<Operand>) returns (l: Landing)
    requires c.Tagged() && os != [] && Before(m, q, s, t, g, LowerMake(c, g, d, os))
    requires AllBelow(os, Bound(m, s.top.fn)) && HasAll(s.top, os)
    ensures Lands(m, q, s, t, Make(c, GetAll(s.top, os)), d, LowerMake(c, g, d, os), l)
  {
    hide Alike, Coded, Run, Undisturbed, AllBelow, HoldsEach, Define, On, Bound, At, HasAll, Carries, Aggregate, CheckTag, EmitAll, Emit;
    var vs := GetAll(s.top, os);
    l := Landing(1, t, g, Copy(d, Imm(Unit)));
    if vs[0].I? {
      BeginAt(q, t, g);
      EachHeld(m, s, t, os);
      BelowMore(os, Bound(m, s.top.fn), g.regs);
      HeldAt(t, os, vs, 0);
      BelowAt(os, g.regs, 0);
      AlikeEffects(m, s, t);
      var h := CheckTag(g, os[0], c.Tags(), InvalidTag);
      AggregateExt(h, d, os);
      CodedBack(q, t.top.fn, h, Aggregate(h, d, os));
      var w, k := TagRun(q, Running(t), 0, g, t, g, t, os[0], vs[0].n, c.Tags(), InvalidTag);
      if 0 <= vs[0].n < c.Tags() {
        l := MakeAfter(m, q, s, t, g, h, k, w, d, os);
      } else {
        l := Landing(k, t, g, Copy(d, Imm(Unit)));
      }
    }
  }

  lemma SliceMake(m: Module, q: Module, s: State, t: State, c: CompositeDecl, g: Gen, d: nat, os: seq<Operand>) returns (l: Landing)
    requires c.kind == Slice && |os| == 2 && Before(m, q, s, t, g, LowerMake(c, g, d, os))
    requires AllBelow(os, Bound(m, s.top.fn)) && HasAll(s.top, os)
    ensures Lands(m, q, s, t, Make(c, GetAll(s.top, os)), d, LowerMake(c, g, d, os), l)
  {
    hide Alike, Coded, Run, Undisturbed, AllBelow, HoldsEach, Define, On, Bound, At, HasAll, Carries, Aggregate, CheckSlice, EmitAll, Emit;
    var vs := GetAll(s.top, os);
    l := Landing(1, t, g, Copy(d, Imm(Unit)));
    if vs[0].P? && vs[1].I? {
      BeginAt(q, t, g);
      EachHeld(m, s, t, os);
      BelowMore(os, Bound(m, s.top.fn), g.regs);
      HeldAt(t, os, vs, 0);
      HeldAt(t, os, vs, 1);
      BelowAt(os, g.regs, 0);
      BelowAt(os, g.regs, 1);
      AlikeEffects(m, s, t);
      var h := CheckSlice(g, os[0], os[1]);
      AggregateExt(h, d, os);
      CodedBack(q, t.top.fn, h, Aggregate(h, d, os));
      var w, k := SliceRun(q, Running(t), 0, g, t, g, t, os[0], os[1], vs[0].p, vs[1].n);
      if !BadSlice(vs[0].p, vs[1].n) {
        l := MakeAfter(m, q, s, t, g, h, k, w, d, os);
      } else {
        l := Landing(k, t, g, Copy(d, Imm(Unit)));
      }
    }
  }

  lemma MakeRun(m: Module, q: Module, s: State, t: State, c: CompositeDecl, g: Gen, d: nat, os: seq<Operand>) returns (l: Landing)
    requires Before(m, q, s, t, g, LowerMake(c, g, d, os)) && AllBelow(os, Bound(m, s.top.fn)) && HasAll(s.top, os)
    requires Make(c, GetAll(s.top, os)) != Undefined
    ensures Lands(m, q, s, t, Make(c, GetAll(s.top, os)), d, LowerMake(c, g, d, os), l)
  {
    hide Before, Lands, AllBelow, HasAll, Aggregate, CheckTag, CheckSlice;
    if c.Tagged() {
      l := TaggedMake(m, q, s, t, c, g, d, os);
    } else if c.kind == Slice {
      l := SliceMake(m, q, s, t, c, g, d, os);
    } else {
      l := PlainMake(m, q, s, t, g, d, os);
    }
  }

  lemma ExtractPerforms(q: Module, t: State, d: nat, field: int, a: Operand, agg: Value)
    requires Holds(t, a, agg) && agg.Agg? && 0 <= field < |agg.fields|
    ensures Perform(q, t, Extract(d, field, a)) == Define(t, d, Cell(agg.fields[field])) == Running(Put(t, d, agg.fields[field]))
  {
  }

  /** At the end of a run of instructions the machine stands where the next ones will go. */
  lemma OnEmitted(q: Module, c: Config, k: nat, g: Gen, s: State, h: Gen, js: seq<Instr>, t: State)
    requires On(q, c, k, g, s, h, |js|, t)
    ensures On(q, c, k, g, s, EmitAll(h, js), 0, t)
  {
    hide Run, Undisturbed;
  }

  lemma HeldOne(m: Module, s: State, t: State, a: Operand)
    requires Alike(m, s, t) && Below(a, Bound(m, s.top.fn)) && Has(s.top, a)
    ensures Holds(t, a, Get(s.top, a))
  {
    hide RestMatch, Matches, Bound;
    SameOperand(Bound(m, s.top.fn), s.top, t.top, a);
  }

  /** After the checks, the field is extracted from the same value. */
  lemma ExtractAfter(m: Module, q: Module, s: State, t: State, g: Gen, h: Gen, k: nat, w: State, d: nat, field: int, a: Operand, agg: Value)
    returns (l: Landing)
    requires Before(m, q, s, t, g, Emit(h, Extract(d, field, a))) && Below(a, g.regs) && Holds(t, a, agg)
    requires agg.Agg? && 0 <= field < |agg.fields|
    requires On(q, Running(t), k, g, t, h, 0, w) && Carries(g.regs, t, w)
    ensures Lands(m, q, s, t, Built(agg.fields[field]), d, Emit(h, Extract(d, field, a)), l)
  {
    hide Alike, Coded, Run, Undisturbed, Define, Bound, Perform, Emit, Holds, Put;
    OnUndisturbed(q, Running(t), k, g, t, h, 0, w);
    ExtractPerforms(q, w, d, field, a, agg);
    Then(q, Running(t), k, h, Extract(d, field, a), w);
    StaysAlike(m, s, t, g, w);
    l := Landing(k + 1, w, h, Extract(d, field, a));
  }

  lemma PlainProject(m: Module, q: Module, s: State, t: State, g: Gen, d: nat, field: int, a: Operand, agg: Value) returns (l: Landing)
    requires Before(m, q, s, t, g, Emit(g, Extract(d, field, a))) && Below(a, g.regs) && Holds(t, a, agg)
    requires agg.Agg? && 0 <= field < |agg.fields|
    ensures Lands(m, q, s, t, Built(agg.fields[field]), d, Emit(g, Extract(d, field, a)), l)
  {
    hide Alike, Coded, Run, Undisturbed, Define, Bound, Emit, On, Holds;
    BeginAt(q, t, g);
    CarriesSelf(g.regs, t);
    l := ExtractAfter(m, q, s, t, g, g, 0, t, d, field, a, agg);
  }

  lemma CarriesSelf(n: nat, t: State)
    ensures Carries(n, t, t)
  {
  }

  /** The tag is read into a fresh register. */
  lemma TagRead(q: Module, t: State, g: Gen, field: int, a: Operand, agg: Value) returns (u: State)
    requires At(g, t.top) && Coded(q, t.top.fn, EmitAll(g, [Extract(g.regs, field, a)])) && Holds(t, a, agg)
    requires agg.Agg? && 0 <= field < |agg.fields|
    ensures var h := EmitAll(g, [Extract(g.regs, field, a)]);
            && On(q, Running(t), 1, g, t, h, 0, u) && h.regs == g.regs + 1
            && Holds(u, Reg(g.regs), agg.fields[field]) && Carries(g.regs, t, u) && u.top.fn == t.top.fn
  {
    hide Coded, Run, On, Define, Perform, Holds, Put, At;
    var js := [Extract(g.regs, field, a)];
    BeginAt(q, t, g);
    ExtractPerforms(q, t, g.regs, field, a, agg);
    NextDef(q, Running(t), 0, g, t, g, js, 0, t, agg.fields[field]);
    u := Put(t, g.regs, agg.fields[field]);
    OnEmitted(q, Running(t), 1, g, t, g, js, u);
  }

  /** The tag is read and checked; it stays in its register. */
  lemma TagCheckedRun(q: Module, t: State, c: CompositeDecl, g: Gen, a: Operand, agg: Value) returns (u: State, j: nat)
    requires At(g, t.top) && Coded(q, t.top.fn, TagChecked(c, g, a)) && Holds(t, a, agg)
    requires agg.Agg? && agg.fields != [] && agg.fields[0].I?
    ensures j > 0
    ensures !(0 <= agg.fields[0].n < c.Tags()) ==> Run(q, Running(t), j) == Trapped(StoredTag, t.globals, t.out)
    ensures 0 <= agg.fields[0].n < c.Tags() ==>
              && On(q, Running(t), j, g, t, TagChecked(c, g, a), 0, u) && Carries(g.regs, t, u)
              && Holds(u, Reg(g.regs), agg.fields[0]) && u.top.fn == t.top.fn
  {
    hide Coded, Run, On, Holds, At, EmitAll, CheckTag, Carries;
    var h := EmitAll(g, [Extract(g.regs, 0, a)]);
    TagCheckedExt(c, g, a);
    CodedBack(q, t.top.fn, h, TagChecked(c, g, a));
    var w := TagRead(q, t, g, 0, a, agg);
    u, j := TagRun(q, Running(t), 1, g, t, h, w, Reg(g.regs), agg.fields[0].n, c.Tags(), StoredTag);
    if 0 <= agg.fields[0].n < c.Tags() {
      CarriesOne(h.regs, w, u, Reg(g.regs), agg.fields[0]);
      CarriesTrans(g.regs, t, w, h.regs, u);
    }
  }

  lemma CarriesOne(n: nat, t: State, u: State, o: Operand, v: Value)
    requires Carries(n, t, u) && Holds(t, o, v) && Below(o, n)
    ensures Holds(u, o, v)
  {
    hide Holds;
  }

  lemma TaggedProject(m: Module, q: Module, s: State, t: State, c: CompositeDecl, g: Gen, d: nat, field: int, a: Operand, agg: Value)
    returns (l: Landing)
    requires c.Tagged() && Before(m, q, s, t, g, LowerProject(c, g, d, field, a)) && Below(a, g.regs) && Holds(t, a, agg)
    requires Projection(c, field, agg) != Undefined
    ensures Lands(m, q, s, t, Projection(c, field, agg), d, LowerProject(c, g, d, field, a), l)
  {
    hide Alike, Coded, Run, Define, Bound, On, Holds, At, Carries, Emit, EmitAll, TagChecked, CheckPayload;
    var h, last := TagChecked(c, g, a), Extract(d, field, a);
    var final := LowerProject(c, g, d, field, a);
    ProjectParts(c, g, d, field, a);
    CodedBack(q, t.top.fn, h, final);
    AlikeEffects(m, s, t);
    var w, k := TagCheckedRun(q, t, c, g, a, agg);
    l := Landing(k, t, g, last);
    if 0 <= agg.fields[0].n < c.Tags() {
      if field > 0 {
        var p := CheckPayload(h, Reg(g.regs), ActiveTag(c, field));
        CodedBack(q, t.top.fn, p, final);
        var u, j := PayloadRun(q, Running(t), k, g, t, h, w, Reg(g.regs), agg.fields[0].n, ActiveTag(c, field));
        if agg.fields[0].n == ActiveTag(c, field) {
          CarriesTrans(g.regs, t, w, h.regs, u);
          l := ExtractAfter(m, q, s, t, g, p, j, u, d, field, a, agg);
        } else {
          l := Landing(j, t, g, last);
        }
      } else {
        l := ExtractAfter(m, q, s, t, g, h, k, w, d, field, a, agg);
      }
    }
  }

  lemma ProjectParts(c: CompositeDecl, g: Gen, d: nat, field: int, a: Operand)
    requires c.Tagged()
    ensures
      var h, last, final := TagChecked(c, g, a), Extract(d, field, a), LowerProject(c, g, d, field, a);
      var p := CheckPayload(h, Reg(g.regs), ActiveTag(c, field));
      && h.regs == g.regs + 4 && Ext(h, final)
      && (field > 0 ==> final == Emit(p, last) && Ext(p, final))
      && (field <= 0 ==> final == Emit(h, last))
  {
    hide Ext, Emit, EmitAll, TagChecked, CheckPayload;
    var h, last, final := TagChecked(c, g, a), Extract(d, field, a), LowerProject(c, g, d, field, a);
    TagCheckedExt(c, g, a);
    if field > 0 {
      var p := CheckPayload(h, Reg(g.regs), ActiveTag(c, field));
      CheckPayloadExt(h, Reg(g.regs), ActiveTag(c, field));
      EmitExt(p, last);
      ExtTrans(h, p, final);
    } else {
      EmitExt(h, last);
    }
  }

  /** Pointer and length are read into fresh registers. */
  lemma DescriptorRead(q: Module, t: State, g: Gen, a: Operand, agg: Value) returns (u: State)
    requires var js := [Extract(g.regs, 0, a), Extract(g.regs + 1, 1, a)];
             At(g, t.top) && Coded(q, t.top.fn, EmitAll(g, js)) && Holds(t, a, agg) && Below(a, g.regs)
    requires agg.Agg? && |agg.fields| == 2
    ensures var h := EmitAll(g, [Extract(g.regs, 0, a), Extract(g.regs + 1, 1, a)]);
            && On(q, Running(t), 2, g, t, h, 0, u) && h.regs == g.regs + 2 && Carries(g.regs, t, u) && u.top.fn == t.top.fn
            && Holds(u, Reg(g.regs), agg.fields[0]) && Holds(u, Reg(g.regs + 1), agg.fields[1])
  {
    hide Coded, Run, On, Define, Perform, Holds, Put, At;
    var js := [Extract(g.regs, 0, a), Extract(g.regs + 1, 1, a)];
    BeginAt(q, t, g);
    ExtractPerforms(q, t, g.regs, 0, a, agg);
    NextDef(q, Running(t), 0, g, t, g, js, 0, t, agg.fields[0]);
    var w := Put(t, g.regs, agg.fields[0]);
    ExtractPerforms(q, w, g.regs + 1, 1, a, agg);
    NextDef(q, Running(t), 1, g, t, g, js, 1, w, agg.fields[1]);
    u := Put(w, g.regs + 1, agg.fields[1]);
    CarriesTrans(g.regs, t, w, g.regs + 1, u);
    OnEmitted(q, Running(t), 2, g, t, g, js, u);
  }

  lemma SliceProject(m: Module, q: Module, s: State, t: State, c: CompositeDecl, g: Gen, d: nat, field: int, a: Operand, agg: Value)
    returns (l: Landing)
    requires c.kind == Slice && Before(m, q, s, t, g, LowerProject(c, g, d, field, a)) && Below(a, g.regs) && Holds(t, a, agg)
    requires Projection(c, field, agg) != Undefined
    ensures Lands(m, q, s, t, Projection(c, field, agg), d, LowerProject(c, g, d, field, a), l)
  {
    hide Alike, Coded, Run, Define, Bound, On, Holds, At, Carries, Emit, EmitAll, CheckSlice;
    var js := [Extract(g.regs, 0, a), Extract(g.regs + 1, 1, a)];
    var e, final := EmitAll(g, js), LowerProject(c, g, d, field, a);
    var h := CheckSlice(e, Reg(g.regs), Reg(g.regs + 1));
    CheckSliceExt(e, Reg(g.regs), Reg(g.regs + 1));
    EmitExt(h, Extract(d, field, a));
    CodedBack(q, t.top.fn, h, final);
    CodedBack(q, t.top.fn, e, h);
    AlikeEffects(m, s, t);
    var w := DescriptorRead(q, t, g, a, agg);
    var u, k := SliceRun(q, Running(t), 2, g, t, e, w, Reg(g.regs), Reg(g.regs + 1), agg.fields[0].p, agg.fields[1].n);
    if BadSlice(agg.fields[0].p, agg.fields[1].n) {
      l := Landing(k, t, g, Extract(d, field, a));
    } else {
      CarriesTrans(g.regs, t, w, e.regs, u);
      l := ExtractAfter(m, q, s, t, g, h, k, u, d, field, a, agg);
    }
  }

  lemma ProjectRun(m: Module, q: Module, s: State, t: State, c: CompositeDecl, g: Gen, d: nat, field: int, a: Operand) returns (l: Landing)
    requires Before(m, q, s, t, g, LowerProject(c, g, d, field, a)) && Below(a, Bound(m, s.top.fn)) && Has(s.top, a)
    requires Projection(c, field, Get(s.top, a)) != Undefined
    ensures Lands(m, q, s, t, Projection(c, field, Get(s.top, a)), d, LowerProject(c, g, d, field, a), l)
  {
    hide Lands, Alike, Coded, At, Bound, TagChecked, CheckSlice, CheckPayload, EmitAll, Emit, Holds;
    var agg := Get(s.top, a);
    HeldOne(m, s, t, a);
    if c.Tagged() {
      l := TaggedProject(m, q, s, t, c, g, d, field, a, agg);
    } else if c.kind == Slice {
      l := SliceProject(m, q, s, t, c, g, d, field, a, agg);
    } else {
      l := PlainProject(m, q, s, t, g, d, field, a, agg);
    }
  }

  // ----- steps -----

  /** The machine is at an instruction, and the lowered one where the pass put its code. */
  lemma InstructionPoint(m: Module, s: State, t: State)
    requires StateMatch(m, s, t) && HasInstr(m, s.top)
    ensures
      var g, i := Point(m, s.top), Fetch(m, s.top);
      && Before(m, Lowered(m), s, t, g, LowerInstr(m.env, g, i))
      && AllBelow(Operands(i), Bound(m, s.top.fn))
      && Point(m, s.top.(at := s.top.at + 1)) == LowerInstr(m.env, g, i)
  {
    hide LowerInstr, Reaching, RestMatch, Matches, Operands, CodeBound, Coded, Lowered;
    var fn, b, i := s.top.fn, s.top.block, s.top.at;
    var code := m.code[fn];
    ReachingRegs(m.env, code, b, i);
    ReachingNext(m.env, code, b, i);
    ReachingCoded(m, fn, b, i + 1);
    CodeBelow(code, CodeBound(code), b, i);
    MatchesName(Bound(m, fn), s.top, t.top);
  }

  lemma MatchesName(n: nat, f: Frame, t: Frame)
    requires Matches(n, f, t)
    ensures t.fn == f.fn
  {
  }

  lemma AdvancedMatch(m: Module, s: State, u: State, c: Config, d: Config, h: Gen, x: Instr)
    requires HasInstr(m, s.top) && Advanced(m, s, u, c, d) && At(h, u.top)
    requires Point(m, s.top.(at := s.top.at + 1)) == Emit(h, x)
    ensures ConfigMatch(m, c, d)
  {
    hide Reaching, RestMatch, Matches, CodeBound;
  }

  lemma FirstStep(q: Module, t: State)
    ensures Run(q, Running(t), 1) == Step(q, Running(t))
  {
    hide Step;
    assert Run(q, Running(t), 1) == Run(q, Step(q, Running(t)), 0);
  }

  lemma StepPerforms(q: Module, t: State, g: Gen, i: Instr)
    requires At(g, t.top) && Coded(q, t.top.fn, Emit(g, i))
    ensures Run(q, Running(t), 1) == Perform(q, t, i)
  {
    hide Perform, Run, Step;
    StepAt(q, g, i, t);
    FirstStep(q, t);
  }

  predicate Straightforward(i: Instr) {
    Computing(i) || i.StoreTo? || i.Printf?
  }

  lemma PlainStep(m: Module, s: State, t: State, g: Gen, i: Instr)
    requires HasInstr(m, s.top) && Before(m, Lowered(m), s, t, g, Emit(g, i)) && Straightforward(i)
    requires AllBelow(Operands(i), Bound(m, s.top.fn)) && Perform(m, s, i) != Stuck
    requires Point(m, s.top.(at := s.top.at + 1)) == Emit(g, i)
    ensures ConfigMatch(m, Perform(m, s, i), Run(Lowered(m), Running(t), 1))
  {
    hide Alike, Advanced, AllBelow, Operands, Perform, Run, ConfigMatch, Coded, At, Emit, Point, Bound;
    var q := Lowered(m);
    StepPerforms(q, t, g, i);
    if Computing(i) {
      ComputingStep(m, q, s, t, i);
    } else if i.StoreTo? {
      StoreStep(m, q, s, t, i);
    } else {
      PrintStep(m, q, s, t, i);
    }
    AdvancedMatch(m, s, t, Perform(m, s, i), Perform(q, t, i), g, i);
  }

  lemma UpdateIsInsert(m: Module, s: State, i: Instr)
    requires i.UpdateValue?
    ensures Perform(m, s, i) == Perform(m, s, Insert(i.d, i.field, i.agg, i.v))
    ensures Operands(i) == Operands(Insert(i.d, i.field, i.agg, i.v))
  {
  }

  lemma LandedMatch(m: Module, s: State, t: State, r: Made, d: nat, final: Gen, l: Landing)
    requires HasInstr(m, s.top) && Lands(m, Lowered(m), s, t, r, d, final, l) && r != Undefined
    requires Point(m, s.top.(at := s.top.at + 1)) == final
    ensures ConfigMatch(m, DefineMade(s, d, r), Run(Lowered(m), Running(t), l.j))
  {
    hide Alike, Advanced, Run, ConfigMatch, At, Emit, Point, Define, Lowered;
    if r.Built? {
      DefineAlike(m, s, l.u, d, Cell(r.v));
      AdvancedMatch(m, s, l.u, Define(s, d, Cell(r.v)), Define(l.u, d, Cell(r.v)), l.h, l.x);
    } else {
      NotRunning(m, r.f, s.globals, s.out);
    }
  }

  lemma NotRunning(m: Module, f: Fault, globals: map<string, Value>, out: seq<Event>)
    ensures ConfigMatch(m, Trapped(f, globals, out), Trapped(f, globals, out))
  {
  }

  lemma MakeStep(m: Module, s: State, t: State, g: Gen, i: Instr) returns (j: nat)
    requires HasInstr(m, s.top) && i.MakeValue? && Before(m, Lowered(m), s, t, g, LowerInstr(m.env, g, i))
    requires AllBelow(Operands(i), Bound(m, s.top.fn)) && Perform(m, s, i) != Stuck
    requires Point(m, s.top.(at := s.top.at + 1)) == LowerInstr(m.env, g, i)
    ensures j > 0 && ConfigMatch(m, Perform(m, s, i), Run(Lowered(m), Running(t), j))
  {
    hide Before, AllBelow, Run, ConfigMatch, Point, Bound, Lowered, LowerMake, HasAll, Make;
    var c := TypeOf(m.env, i.composite);
    var l := MakeRun(m, Lowered(m), s, t, c, g, i.d, i.args);
    LandedMatch(m, s, t, Make(c, GetAll(s.top, i.args)), i.d, LowerMake(c, g, i.d, i.args), l);
    j := l.j;
  }

  lemma ProjectStep(m: Module, s: State, t: State, g: Gen, i: Instr) returns (j: nat)
    requires HasInstr(m, s.top) && i.ProjectValue? && Before(m, Lowered(m), s, t, g, LowerInstr(m.env, g, i))
    requires AllBelow(Operands(i), Bound(m, s.top.fn)) && Perform(m, s, i) != Stuck
    requires Point(m, s.top.(at := s.top.at + 1)) == LowerInstr(m.env, g, i)
    ensures j > 0 && ConfigMatch(m, Perform(m, s, i), Run(Lowered(m), Running(t), j))
  {
    hide Before, AllBelow, Run, ConfigMatch, Point, Bound, Lowered, LowerProject, Has, Get, Projection;
    var c := TypeOf(m.env, i.composite);
    BelowAt(Operands(i), Bound(m, s.top.fn), 0);
    var l := ProjectRun(m, Lowered(m), s, t, c, g, i.d, i.field, i.agg);
    LandedMatch(m, s, t, Projection(c, i.field, Get(s.top, i.agg)), i.d, LowerProject(c, g, i.d, i.field, i.agg), l);
    j := l.j;
  }

  lemma JumpStep(m: Module, s: State, t: State, g: Gen, i: Instr)
    requires HasInstr(m, s.top) && Before(m, Lowered(m), s, t, g, Emit(g, i)) && AllWellFormed(m) && TargetsBelow(i, |m.code[s.top.fn]|)
    requires i.Br? || i.CondBr? || i.Ret? || i.Fail? || i.CallTo?
    requires AllBelow(Operands(i), Bound(m, s.top.fn)) && Perform(m, s, i) != Stuck
    requires Point(m, s.top.(at := s.top.at + 1)) == Emit(g, i)
    ensures ConfigMatch(m, Perform(m, s, i), Run(Lowered(m), Running(t), 1))
  {
    hide Alike, AllBelow, Operands, Perform, Run, ConfigMatch, Coded, Emit, Point, Bound;
    var q := Lowered(m);
    StepPerforms(q, t, g, i);
    if i.Br? || i.CondBr? {
      BranchStep(m, q, s, t, i);
    } else if i.Ret? {
      ReturnStep(m, q, s, t, i);
    } else if i.Fail? {
      AlikeEffects(m, s, t);
      FailPerforms(m, s, i);
      FailPerforms(q, t, i);
      NotRunning(m, i.fault, s.globals, s.out);
    } else {
      CallerMatch(m, s, t, g, i);
      CallStep(m, q, s, t, i);
    }
  }

  lemma FailPerforms(m: Module, s: State, i: Instr)
    requires i.Fail?
    ensures Perform(m, s, i) == Trapped(i.fault, s.globals, s.out)
  {
  }

  lemma CallerMatch(m: Module, s: State, t: State, g: Gen, i: Instr)
    requires HasInstr(m, s.top) && Alike(m, s, t) && At(g, t.top) && Point(m, s.top.(at := s.top.at + 1)) == Emit(g, i)
    ensures FrameMatch(m, s.top.(at := s.top.at + 1), t.top.(at := t.top.at + 1))
  {
    hide RestMatch, CodeBound, Reaching;
  }

  lemma TargetsAt(m: Module, f: Frame)
    requires AllWellFormed(m) && HasInstr(m, f)
    ensures TargetsBelow(Fetch(m, f), |m.code[f.fn]|)
  {
    assert WellFormed(m.code[f.fn]);
  }

  /** Every step that is not stuck is matched by one or more steps of the lowered module. */
  lemma StepMatch(m: Module, s: State, t: State) returns (j: nat)
    requires StateMatch(m, s, t) && AllWellFormed(m) && Step(m, Running(s)) != Stuck
    ensures j > 0 && ConfigMatch(m, Step(m, Running(s)), Run(Lowered(m), Running(t), j))
  {
    hide StateMatch, Perform, Run, ConfigMatch, Before, AllBelow, Operands, Point, Bound, LowerMake, LowerProject, AllWellFormed, TargetsBelow, Lowered, Emit;
    var i, g := Fetch(m, s.top), Point(m, s.top);
    InstructionPoint(m, s, t);
    TargetsAt(m, s.top);
    if i.MakeValue? {
      j := MakeStep(m, s, t, g, i);
    } else if i.ProjectValue? {
      j := ProjectStep(m, s, t, g, i);
    } else if i.UpdateValue? {
      UpdateIsInsert(m, s, i);
      PlainStep(m, s, t, g, Insert(i.d, i.field, i.agg, i.v));
      j := 1;
    } else if Straightforward(i) {
      PlainStep(m, s, t, g, i);
      j := 1;
    } else {
      JumpStep(m, s, t, g, i);
      j := 1;
    }
  }

  // ----- runs -----

  lemma StuckStays(m: Module, c: Config, k: nat)
    requires k > 0 && Run(m, c, k) != Stuck
    ensures Step(m, c) != Stuck
  {
    hide Step;
    if Step(m, c) == Stuck {
      Halted(m, Stuck, k - 1);
    }
  }

  /** The lowered module keeps pace with any run that does not get stuck. */
  lemma {:induction false} RunMatch(m: Module, c: Config, d: Config, k: nat) returns (j: nat)
    requires ConfigMatch(m, c, d) && AllWellFormed(m) && Run(m, c, k) != Stuck
    ensures j >= k && ConfigMatch(m, Run(m, c, k), Run(Lowered(m), d, j))
    decreases k
  {
    hide StateMatch, AllWellFormed, Step, Lowered;
    if k == 0 {
      j := 0;
    } else if c.Running? {
      StuckStays(m, c, k);
      var i := StepMatch(m, c.s, d.s);
      var n := RunMatch(m, Step(m, c), Run(Lowered(m), d, i), k - 1);
      RunPlus(Lowered(m), d, i, n);
      j := i + n;
    } else {
      Halted(m, c, k);
      Halted(Lowered(m), d, k);
      j := k;
    }
  }

  lemma StartMatch(m: Module)
    requires AllWellFormed(m) && "main" in m.code
    ensures ConfigMatch(m, Start(m), Start(Lowered(m)))
  {
    hide Reaching, CodeBound, LowerCode, ZeroStorage;
    assert WellFormed(m.code["main"]);
    EntryMatch(m, Entry("main", [], 0));
  }
}
