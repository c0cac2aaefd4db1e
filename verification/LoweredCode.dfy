/**
What the second pass leaves: code of primitive instructions only, every block of which ends in
its one terminator, and which ends, traps or runs forever exactly as the module it came from.
*/
module LoweredCode {
  import opened SemanticIR
  import opened Typing
  import opened Evaluator
  import opened Machine
  import opened Codegen
  import opened Growth
  import opened ControlGrowth
  import opened CompositeLowering
  import opened LoweringSimulation
  import opened Preservation

  // ----- nothing composite is left -----

  predicate Primitive(i: Instr) {
    !i.MakeValue? && !i.ProjectValue? && !i.UpdateValue?
  }

  predicate PrimitiveBlock(b: Block) {
    forall i | 0 <= i < |b| :: Primitive(b[i])
  }

  predicate PrimitiveCode(code: Code) {
    forall b | 0 <= b < |code| :: PrimitiveBlock(code[b])
  }

  lemma EmitAllPrimitive(g: Gen, js: seq<Instr>)
    requires PrimitiveCode(g.code) && PrimitiveBlock(js)
    ensures PrimitiveCode(EmitAll(g, js).code)
  {
    var c := EmitAll(g, js).code;
    forall b | 0 <= b < |c| ensures PrimitiveBlock(c[b]) {
      assert PrimitiveBlock(g.code[b]);
    }
  }

  lemma EmitPrimitive(g: Gen, i: Instr)
    requires PrimitiveCode(g.code) && Primitive(i)
    ensures PrimitiveCode(Emit(g, i).code)
  {
    assert PrimitiveBlock([i]);
    EmitAllPrimitive(g, [i]);
    assert Emit(g, i).code == EmitAll(g, [i]).code;
  }

  lemma FailurePrimitive(g: Gen, c: Operand, f: Fault)
    requires PrimitiveCode(g.code)
    ensures PrimitiveCode(FailureIf(g, c, f).code)
  {
    hide Primitive;
    var n := |g.code|;
    var e := Emit(g, CondBr(c, n, n + 1));
    BranchesPrimitive(c, n, f);
    EmitPrimitive(g, CondBr(c, n, n + 1));
    assert PrimitiveBlock([Fail(f)]) && PrimitiveBlock([]);
    forall b | 0 <= b < n + 2 ensures PrimitiveBlock(FailureIf(g, c, f).code[b]) {
      if b < n {
        assert PrimitiveBlock(e.code[b]);
      }
    }
  }

  lemma BranchesPrimitive(c: Operand, n: nat, f: Fault)
    ensures Primitive(CondBr(c, n, n + 1)) && Primitive(Fail(f))
  {
  }

  lemma CheckTagPrimitive(g: Gen, tag: Operand, tags: nat, fault: Fault)
    requires PrimitiveCode(g.code)
    ensures PrimitiveCode(CheckTag(g, tag, tags, fault).code)
  {
    hide PrimitiveCode, EmitAll, FailureIf;
    EmitAllPrimitive(g, TagTest(g.regs, tag, tags));
    FailurePrimitive(EmitAll(g, TagTest(g.regs, tag, tags)), Reg(g.regs + 2), fault);
  }

  lemma CheckSlicePrimitive(g: Gen, pointer: Operand, length: Operand)
    requires PrimitiveCode(g.code)
    ensures PrimitiveCode(CheckSlice(g, pointer, length).code)
  {
    hide PrimitiveCode, EmitAll, FailureIf;
    EmitAllPrimitive(g, SliceTest(g.regs, pointer, length));
    FailurePrimitive(EmitAll(g, SliceTest(g.regs, pointer, length)), Reg(g.regs + 4), StoredSlice);
  }

  lemma AggregatePrimitive(g: Gen, d: nat, os: seq<Operand>)
    requires PrimitiveCode(g.code)
    ensures PrimitiveCode(Aggregate(g, d, os).code)
  {
    hide PrimitiveCode, EmitAll, Emit;
    EmitAllPrimitive(g, Inserts(g.regs, os));
    EmitPrimitive(EmitAll(g, Inserts(g.regs, os)), Copy(d, Inserted(g.regs, |os|, |os|)));
  }

  lemma ProjectPrimitive(c: CompositeDecl, g: Gen, d: nat, field: int, a: Operand)
    requires PrimitiveCode(g.code)
    ensures PrimitiveCode(LowerProject(c, g, d, field, a).code)
  {
    hide PrimitiveCode, EmitAll, Emit, FailureIf, CheckTag, CheckSlice;
    var one, two := [Extract(g.regs, 0, a)], [Extract(g.regs, 0, a), Extract(g.regs + 1, 1, a)];
    EmitAllPrimitive(g, one);
    EmitAllPrimitive(g, two);
    CheckTagPrimitive(EmitAll(g, one), Reg(g.regs), c.Tags(), StoredTag);
    CheckSlicePrimitive(EmitAll(g, two), Reg(g.regs), Reg(g.regs + 1));
    var t := TagChecked(c, g, a);
    var test := [Bin(t.regs, ICmp(Ne), Reg(g.regs), Imm(I(ActiveTag(c, field))))];
    EmitAllPrimitive(t, test);
    FailurePrimitive(EmitAll(t, test), Reg(t.regs), InactivePayload);
    var last := Extract(d, field, a);
    EmitPrimitive(t, last);
    EmitPrimitive(CheckPayload(t, Reg(g.regs), ActiveTag(c, field)), last);
    EmitPrimitive(CheckSlice(EmitAll(g, two), Reg(g.regs), Reg(g.regs + 1)), last);
    EmitPrimitive(g, last);
  }

  lemma InstrPrimitive(env: Env, g: Gen, i: Instr)
    requires PrimitiveCode(g.code)
    ensures PrimitiveCode(LowerInstr(env, g, i).code)
  {
    hide PrimitiveCode, Emit, Aggregate, CheckTag, CheckSlice, LowerProject, TypeOf;
    if i.MakeValue? {
      if |i.args| > 0 {
        var c := TypeOf(env, i.composite);
        CheckTagPrimitive(g, i.args[0], c.Tags(), InvalidTag);
        AggregatePrimitive(CheckTag(g, i.args[0], c.Tags(), InvalidTag), i.d, i.args);
      }
      if |i.args| == 2 {
        CheckSlicePrimitive(g, i.args[0], i.args[1]);
        AggregatePrimitive(CheckSlice(g, i.args[0], i.args[1]), i.d, i.args);
      }
      AggregatePrimitive(g, i.d, i.args);
    } else if i.ProjectValue? {
      ProjectPrimitive(TypeOf(env, i.composite), g, i.d, i.field, i.agg);
    } else if i.UpdateValue? {
      EmitPrimitive(g, Insert(i.d, i.field, i.agg, i.v));
    } else {
      EmitPrimitive(g, i);
    }
  }

  lemma {:induction false} BlockPrimitive(env: Env, g: Gen, b: Block, n: nat)
    requires PrimitiveCode(g.code) && n <= |b|
    ensures PrimitiveCode(LowerBlock(env, g, b, n).code)
  {
    hide PrimitiveCode, LowerInstr;
    if n > 0 {
      BlockPrimitive(env, g, b, n - 1);
      InstrPrimitive(env, LowerBlock(env, g, b, n - 1), b[n - 1]);
    }
  }

  lemma {:induction false} BlocksPrimitive(env: Env, code: Code, n: nat)
    requires n <= |code|
    ensures PrimitiveCode(LowerBlocks(env, code, n).code)
  {
    hide LowerBlock;
    if n > 0 {
      BlocksPrimitive(env, code, n - 1);
      BlockPrimitive(env, MoveInto(LowerBlocks(env, code, n - 1), n - 1), code[n - 1], |code[n - 1]|);
    }
  }

  // ----- every block is closed -----

  lemma CheckTagGrows(g: Gen, tag: Operand, tags: nat, fault: Fault)
    ensures Grows(g, CheckTag(g, tag, tags, fault))
  {
    hide Grows, EmitAll, FailureIf;
    var e := EmitAll(g, TagTest(g.regs, tag, tags));
    EmitAllGrows(g, TagTest(g.regs, tag, tags));
    FailureGrows(e, Reg(g.regs + 2), fault);
    GrowsTrans(g, e, CheckTag(g, tag, tags, fault));
  }

  lemma CheckSliceGrows(g: Gen, pointer: Operand, length: Operand)
    ensures Grows(g, CheckSlice(g, pointer, length))
  {
    hide Grows, EmitAll, FailureIf;
    var e := EmitAll(g, SliceTest(g.regs, pointer, length));
    EmitAllGrows(g, SliceTest(g.regs, pointer, length));
    FailureGrows(e, Reg(g.regs + 4), StoredSlice);
    GrowsTrans(g, e, CheckSlice(g, pointer, length));
  }

  lemma AggregateGrows(g: Gen, d: nat, os: seq<Operand>)
    ensures Grows(g, Aggregate(g, d, os))
  {
    hide Grows, EmitAll, Emit;
    var e := EmitAll(g, Inserts(g.regs, os));
    EmitAllGrows(g, Inserts(g.regs, os));
    EmitGrows(e, Copy(d, Inserted(g.regs, |os|, |os|)));
    GrowsTrans(g, e, Aggregate(g, d, os));
  }

  lemma MakeGrows(c: CompositeDecl, g: Gen, d: nat, os: seq<Operand>)
    ensures Grows(g, LowerMake(c, g, d, os))
  {
    hide Grows, Aggregate, CheckTag, CheckSlice;
    if c.Tagged() && os != [] {
      var t := CheckTag(g, os[0], c.Tags(), InvalidTag);
      CheckTagGrows(g, os[0], c.Tags(), InvalidTag);
      AggregateGrows(t, d, os);
      GrowsTrans(g, t, Aggregate(t, d, os));
    } else if c.kind == Slice && |os| == 2 {
      var t := CheckSlice(g, os[0], os[1]);
      CheckSliceGrows(g, os[0], os[1]);
      AggregateGrows(t, d, os);
      GrowsTrans(g, t, Aggregate(t, d, os));
    } else {
      AggregateGrows(g, d, os);
    }
  }

  lemma TaggedGrows(c: CompositeDecl, g: Gen, d: nat, field: int, a: Operand)
    requires c.Tagged()
    ensures Grows(g, LowerProject(c, g, d, field, a))
  {
    hide Grows, EmitAll, Emit, FailureIf, CheckTag;
    var e, t, last := EmitAll(g, [Extract(g.regs, 0, a)]), TagChecked(c, g, a), Extract(d, field, a);
    EmitAllGrows(g, [Extract(g.regs, 0, a)]);
    CheckTagGrows(e, Reg(g.regs), c.Tags(), StoredTag);
    GrowsTrans(g, e, t);
    var test := [Bin(t.regs, ICmp(Ne), Reg(g.regs), Imm(I(ActiveTag(c, field))))];
    var p := CheckPayload(t, Reg(g.regs), ActiveTag(c, field));
    EmitAllGrows(t, test);
    FailureGrows(EmitAll(t, test), Reg(t.regs), InactivePayload);
    GrowsTrans(t, EmitAll(t, test), p);
    GrowsTrans(g, t, p);
    EmitGrows(p, last);
    EmitGrows(t, last);
    GrowsTrans(g, p, Emit(p, last));
    GrowsTrans(g, t, Emit(t, last));
  }

  lemma ProjectGrows(c: CompositeDecl, g: Gen, d: nat, field: int, a: Operand)
    ensures Grows(g, LowerProject(c, g, d, field, a))
  {
    hide Grows, EmitAll, Emit, CheckSlice, TagChecked, CheckPayload;
    var last := Extract(d, field, a);
    if c.Tagged() {
      TaggedGrows(c, g, d, field, a);
    } else if c.kind == Slice {
      var js := [Extract(g.regs, 0, a), Extract(g.regs + 1, 1, a)];
      var e := EmitAll(g, js);
      var t := CheckSlice(e, Reg(g.regs), Reg(g.regs + 1));
      EmitAllGrows(g, js);
      CheckSliceGrows(e, Reg(g.regs), Reg(g.regs + 1));
      GrowsTrans(g, e, t);
      EmitGrows(t, last);
      GrowsTrans(g, t, Emit(t, last));
    } else {
      EmitGrows(g, last);
    }
  }

  lemma InstrGrows(env: Env, g: Gen, i: Instr)
    requires !i.Terminator()
    ensures Grows(g, LowerInstr(env, g, i))
  {
    hide Grows, Emit, LowerMake, LowerProject, TypeOf;
    if i.MakeValue? {
      MakeGrows(TypeOf(env, i.composite), g, i.d, i.args);
    } else if i.ProjectValue? {
      ProjectGrows(TypeOf(env, i.composite), g, i.d, i.field, i.agg);
    } else if i.UpdateValue? {
      EmitGrows(g, Insert(i.d, i.field, i.agg, i.v));
    } else {
      EmitGrows(g, i);
    }
  }

  lemma {:induction false} OpenPart(env: Env, g: Gen, b: Block, n: nat)
    requires n <= |b| && forall i | 0 <= i < n :: !b[i].Terminator()
    ensures Grows(g, LowerBlock(env, g, b, n))
  {
    hide Grows, LowerInstr;
    if n == 0 {
      GrowsSelf(g);
    } else {
      OpenPart(env, g, b, n - 1);
      InstrGrows(env, LowerBlock(env, g, b, n - 1), b[n - 1]);
      GrowsTrans(g, LowerBlock(env, g, b, n - 1), LowerBlock(env, g, b, n));
    }
  }

  lemma GrowsSelf(g: Gen)
    ensures Grows(g, g)
  {
  }

  /** A closed block closes: the block it stands in and every block it added. */
  lemma BlockCloses(env: Env, g: Gen, b: Block, n: nat)
    requires Fine(g) && Closed(b) && n <= |g.code| && forall i | 0 <= i < |b| :: TargetsBelow(b[i], n)
    ensures var h := LowerBlock(env, g, b, |b|); Shaped(h) && Ext(g, h) && Sealed(g, h) && Closed(h.code[h.at])
  {
    hide LowerInstr, Fine, Ext, Sealed, Shaped;
    var k := |b| - 1;
    var h, last := LowerBlock(env, g, b, k), b[k];
    OpenPart(env, g, b, k);
    TerminatorStays(env, h, last);
    TargetsMore(last, n, |g.code|);
    ExtLength(g, h);
    TargetsMore(last, |g.code|, |h.code|);
    EmitShaped(h, last);
    EmitExt(h, last);
    ExtTrans(g, h, Emit(h, last));
    SealedTrans(g, h, Emit(h, last));
  }

  lemma TerminatorStays(env: Env, g: Gen, i: Instr)
    requires i.Terminator()
    ensures LowerInstr(env, g, i) == Emit(g, i)
  {
  }

  lemma TargetsMore(i: Instr, n: nat, m: nat)
    requires TargetsBelow(i, n) && n <= m
    ensures TargetsBelow(i, m)
  {
  }

  lemma ExtLength(g: Gen, h: Gen)
    requires Ext(g, h)
    ensures |g.code| <= |h.code|
  {
  }

  /** The first `n` blocks and everything added are closed; the rest wait. */
  ghost predicate ClosedUpTo(g: Gen, n: nat, total: nat) {
    && Shaped(g) && Vacant(g, n, total)
    && forall b | 0 <= b < |g.code| && !(n <= b < total) :: Closed(g.code[b])
  }

  lemma {:induction false} BlocksClose(env: Env, code: Code, n: nat)
    requires WellFormed(code) && n <= |code|
    ensures ClosedUpTo(LowerBlocks(env, code, n), n, |code|)
  {
    hide LowerBlock, Fine, Ext, Sealed, Closed;
    if n == 0 {
      InitialCloses(code);
    } else {
      BlocksClose(env, code, n - 1);
      BlocksVacant(env, code, n);
      var g := MoveInto(LowerBlocks(env, code, n - 1), n - 1);
      MovedFine(LowerBlocks(env, code, n - 1), n - 1, |code|);
      BlockCloses(env, g, code[n - 1], |code|);
      AllClose(g, LowerBlocks(env, code, n), n, |code|);
    }
  }

  lemma InitialCloses(code: Code)
    requires code != []
    ensures ClosedUpTo(Initial(code), 0, |code|)
  {
  }

  lemma MovedFine(g: Gen, b: nat, total: nat)
    requires Shaped(g) && Vacant(g, b, total) && b < total
    ensures Fine(MoveInto(g, b)) && MoveInto(g, b).at == b
  {
  }

  lemma AllClose(g: Gen, h: Gen, n: nat, total: nat)
    requires 0 < n <= total && ClosedUpTo(g.(at := 0), n - 1, total) && g.at == n - 1
    requires Shaped(h) && Ext(g, h) && Sealed(g, h) && Closed(h.code[h.at]) && Vacant(h, n, total)
    ensures ClosedUpTo(h, n, total)
  {
    hide Closed, Shaped;
    forall b | 0 <= b < |h.code| && !(n <= b < total) ensures Closed(h.code[b]) {
      if b != h.at && b < |g.code| && b != g.at {
        assert Closed(g.code[b]);
      }
    }
  }

  /** The lowered code of a well-formed function is well formed and primitive. */
  lemma LoweredIsWellFormed(env: Env, code: Code)
    requires WellFormed(code)
    ensures WellFormed(LowerCode(env, code)) && PrimitiveCode(LowerCode(env, code))
  {
    hide LowerBlocks, Closed;
    BlocksPrimitive(env, code, |code|);
    BlocksClose(env, code, |code|);
    var g := LowerBlocks(env, code, |code|);
    forall b | 0 <= b < |g.code| ensures forall i | 0 <= i < |g.code[b]| :: TargetsBelow(g.code[b][i], |g.code|) {
      assert BlockOk(g.code[b], |g.code|);
    }
  }

  // ----- behaviour -----

  /** No run of the module gets stuck. */
  ghost predicate NeverStuck(m: Module) {
    forall k: nat :: Run(m, Start(m), k) != Stuck
  }

  lemma HasMain(m: Module)
    requires NeverStuck(m)
    ensures "main" in m.code
  {
    assert Run(m, Start(m), 1) == Run(m, Step(m, Start(m)), 0);
  }

  lemma KeepsPace(m: Module, k: nat) returns (j: nat)
    requires AllWellFormed(m) && NeverStuck(m)
    ensures j >= k && ConfigMatch(m, Run(m, Start(m), k), Run(Lowered(m), Start(Lowered(m)), j))
  {
    hide Run, ConfigMatch, AllWellFormed, Lowered;
    HasMain(m);
    StartMatch(m);
    j := RunMatch(m, Start(m), Start(Lowered(m)), k);
  }

  lemma SameObserved(m: Module, c: Config, d: Config)
    requires ConfigMatch(m, c, d)
    ensures Observed(c) == Observed(d) && (c.Running? <==> d.Running?)
  {
    hide StateMatch;
  }

  /** The second pass preserves every result, trap and final state, and divergence. */
  lemma LoweringPreserves(m: Module, b: Behaviour)
    requires AllWellFormed(m) && NeverStuck(m) && b != Undecided
    ensures Halts(m, b) <==> Halts(Lowered(m), b)
    ensures RunsForever(m) <==> RunsForever(Lowered(m))
    ensures NeverStuck(Lowered(m))
  {
    hide Run, AllWellFormed, NeverStuck, ConfigMatch, Lowered, Start;
    var q := Lowered(m);
    if Halts(m, b) {
      var k: nat :| Observed(Run(m, Start(m), k)) == b;
      var j := KeepsPace(m, k);
      SameObserved(m, Run(m, Start(m), k), Run(q, Start(q), j));
    }
    if Halts(q, b) {
      var j: nat :| Observed(Run(q, Start(q), j)) == b;
      HaltsBack(m, j, b);
    }
    if RunsForever(m) {
      forall j: nat ensures Run(q, Start(q), j).Running? {
        var n := KeepsPace(m, j);
        SameObserved(m, Run(m, Start(m), j), Run(q, Start(q), n));
        RunningBefore(q, Start(q), j, n);
      }
    }
    if RunsForever(q) {
      forall k: nat ensures Run(m, Start(m), k).Running? {
        var n := KeepsPace(m, k);
        SameObserved(m, Run(m, Start(m), k), Run(q, Start(q), n));
      }
    }
    StillNeverStuck(m);
  }

  /** Whatever the lowered module ends in, the module ends in. */
  lemma HaltsBack(m: Module, j: nat, b: Behaviour)
    requires AllWellFormed(m) && NeverStuck(m) && b != Undecided
    requires Observed(Run(Lowered(m), Start(Lowered(m)), j)) == b
    ensures Observed(Run(m, Start(m), j)) == b
  {
    hide Run, AllWellFormed, NeverStuck, ConfigMatch, Lowered, Start;
    var q := Lowered(m);
    var n := KeepsPace(m, j);
    SameObserved(m, Run(m, Start(m), j), Run(q, Start(q), n));
    if Run(q, Start(q), n).Running? {
      RunningBefore(q, Start(q), j, n);
    } else {
      HaltsOnce(q, Start(q), j, n);
    }
  }

  lemma StillNeverStuck(m: Module)
    requires AllWellFormed(m) && NeverStuck(m)
    ensures NeverStuck(Lowered(m))
  {
    hide Run, AllWellFormed, ConfigMatch, Lowered, Start;
    var q := Lowered(m);
    forall j: nat ensures Run(q, Start(q), j) != Stuck {
      if Run(q, Start(q), j) == Stuck {
        HaltsBack(m, j, GoesWrong);
      }
    }
  }
}
