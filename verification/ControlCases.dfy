/**
Control flow between the blocks of `if`, `while` and `for`: which blocks hold which code, the
state of the generator where each block starts, and the jumps from one to the next.
*/
module ControlCases {
  import opened Wrappers
  import opened SemanticIR
  import opened Typing
  import opened Evaluator
  import opened Soundness
  import opened Machine
  import opened Codegen
  import opened Growth
  import opened ControlGrowth
  import opened Lockstep
  import opened Straight
  import opened Access
  import opened Relation
  import opened StmtRelation
  import opened StmtCases

  // ----- segments -----

  lemma CodedBranch(m: Module, fn: string, g: Gen, b: nat)
    requires Coded(m, fn, Branch(g, b))
    ensures Coded(m, fn, g)
  {
    hide Coded;
    if !Terminated(g) {
      CodedEmit(m, fn, g, Br(b));
    }
  }

  lemma CodedSame(m: Module, fn: string, g: Gen, h: Gen)
    requires Coded(m, fn, g) && g.code == h.code
    ensures Coded(m, fn, h)
  {
  }

  /** `h` starts a block of its own inside the statement that began at `g`. */
  ghost predicate Inside(g: Gen, h: Gen) {
    h.ok && h.scopes == g.scopes && g.slots <= h.slots && g.regs <= h.regs && g.steps <= h.steps
  }

  /** A machine that has jumped to the empty block of `h`. */
  lemma Enters(m: Module, c: Config, k: nat, vs: Scopes, g: Gen, h: Gen, s: State, st: Store)
    requires Run(m, c, k) == Running(s) && Starts(s.top, h.at) && h.code[h.at] == [] && Tracks(vs, g) && Inside(g, h)
    requires StoreOk(m.env, vs, st) && Stored(g.scopes, st.scopes, s.top) && InStep(s, st)
    ensures Reached(m, c, k, h, s) && Live(m.env, vs, h, st, s)
  {
    hide Run, Stored, StoreOk;
    TracksOn(vs, g, h);
  }

  /** From the end of a segment over its closing branch. */
  lemma SegmentExit(m: Module, c: Config, k: nat, y: Gen, s: State, x: Gen, l: Gen, st': Store, t: nat, s1: State) returns (s': State)
    requires Landed(m, c, y, s, x, st', k, s1) && !Terminated(x) && l.code == x.code && l.at == x.at && Coded(m, s.top.fn, Branch(l, t))
    requires y.regs <= l.regs && y.steps <= l.steps
    ensures Run(m, c, k + 1) == Running(s') && Starts(s'.top, t) && Settled(y, s, x.scopes, s', st')
  {
    hide Run, Coded, Stored, Branch;
    s' := BranchRun(m, c, k, l, s1, t);
    KeepsTrans(y, l, s.top, s1.top, s'.top);
    StoredFrame(x.scopes, st'.scopes, s1.top, s'.top);
  }

  lemma UndisturbedSettles(g: Gen, s: State, bs: Bindings, s1: State, st1: Store, h: Gen, s2: State)
    requires Settled(g, s, bs, s1, st1) && Undisturbed(h, s1, s2) && g.regs <= h.regs && g.steps <= h.steps
    ensures Settled(g, s, bs, s2, st1)
  {
    KeepsTrans(g, h, s.top, s1.top, s2.top);
    StoredFrame(bs, st1.scopes, s1.top, s2.top);
  }

  // ----- blocks -----

  /** Leaving a lexical scope: its variables are forgotten on both sides. */
  lemma BlockExit(m: Module, c: Config, k: nat, fuel: nat, g: Gen, s: State, st: Store, y: Gen, x: Gen, r: R<Flow>, here: bool, k': nat, s': State)
    requires y == g.(scopes := g.scopes + [map[]]) && |st.scopes| == |g.scopes| && |g.scopes| > 0
    requires |x.scopes| == |y.scopes| && x.scopes[..|g.scopes|] == g.scopes
    requires Executes(m, c, k, fuel, y, s, x, r, true, k', s')
    ensures var q := if r.Ok? then Ok(r.v, PopTo(r.st, |st.scopes|)) else r;
            Executes(m, c, k, fuel, g, s, x.(scopes := g.scopes), q, here, k', s')
  {
    hide Run;
    if r.Ok? && !r.v.Returns? {
      var n := |g.scopes|;
      assert y.scopes[..n] == g.scopes;
      if r.v.Next? {
        StoredOuter(x.scopes, r.st.scopes, s'.top, n);
      } else {
        var o := |OuterOf(g.scopes, here)|;
        StoredOuter(g.scopes, r.st.scopes[..n], s'.top, o);
        assert r.st.scopes[..n][..o] == r.st.scopes[..o];
      }
    }
  }

  // ----- if -----

  /** The blocks of an `if`: where each branch starts, and that its code is in place. */
  lemma IfCoded(m: Module, fn: string, g: Gen, s: Statement)
    requires |s.expressions| == 1 && IfStages(m.env, g, s) && Coded(m, fn, GenIf(m.env, g, s))
    ensures var n, head, yes := |g.code|, IfHead(m.env, g, s), IfYes(m.env, g, s);
            && n + 2 < |head.code| && |head.code| <= |yes.code|
            && Coded(m, fn, head) && Coded(m, fn, yes) && Coded(m, fn, IfNo(m.env, g, s))
            && Coded(m, fn, GenStmts(m.env, MoveTo(head, n), s.body)) && Coded(m, fn, GenStmts(m.env, MoveTo(yes, n + 1), s.alternative))
            && yes == Branch(GenStmts(m.env, MoveTo(head, n), s.body), n + 2)
            && IfNo(m.env, g, s) == Branch(GenStmts(m.env, MoveTo(yes, n + 1), s.alternative), n + 2)
  {
    hide Coded, Fine, Extends, Ext, IfHead, GenStmts, Branch;
    var n, head, yes, no := |g.code|, IfHead(m.env, g, s), IfYes(m.env, g, s), IfNo(m.env, g, s);
    CodedSame(m, fn, GenIf(m.env, g, s), no);
    CodedBack(m, fn, MoveTo(yes, n + 1), no);
    CodedSame(m, fn, MoveTo(yes, n + 1), yes);
    CodedBack(m, fn, MoveTo(head, n), yes);
    CodedSame(m, fn, MoveTo(head, n), head);
    CodedBranch(m, fn, GenStmts(m.env, MoveTo(head, n), s.body), n + 2);
    CodedBranch(m, fn, GenStmts(m.env, MoveTo(yes, n + 1), s.alternative), n + 2);
  }

  lemma IfInside(w: Env, ret: Return, vs: Scopes, loops: nat, g: Gen, s: Statement)
    requires Fine(g) && Tracks(vs, g) && |vs| > 0 && InLoops(loops, g) && s.kind == IfS
    requires CheckStmt(w, ret, vs, loops, s).Just? && Placed(s, false)
    ensures CheckList(w, ret, vs, loops, s.body) == Just(vs) && CheckList(w, ret, vs, loops, s.alternative) == Just(vs)
    ensures PlacedAll(s.body, false) && PlacedAll(s.alternative, false)
    ensures IfStages(w, g, s)
    ensures var n, head, yes := |g.code|, IfHead(w, g, s), IfYes(w, g, s);
            Inside(g, head) && Inside(g, yes) && SameLoops(g, head) && SameLoops(g, yes)
    ensures GenIf(w, g, s).scopes == g.scopes
  {
    hide Fine, Tracks, IfHead, ExprOk, Sealed, Shaped, Branch, GenStmts, CheckStmt, GenStmt, GenIf, CheckList, Placed, PlacedAll;
    IfChecked(w, ret, vs, loops, s);
    IfGenerates(w, g, s);
    IfHeadTotal(w, vs, g, s);
    IfHeadStages(w, g, s);
    IfExtends(w, g, s);
    IfTotal(w, ret, vs, loops, g, s);
    var n, head, yes := |g.code|, IfHead(w, g, s), IfYes(w, g, s);
    SegmentTotal(w, ret, vs, loops, g, MoveTo(head, n), s.body, n + 2);
    BranchOk(GenStmts(w, MoveTo(head, n), s.body), n + 2);
  }

  // ----- while -----

  lemma WhileCoded(m: Module, fn: string, g: Gen, s: Statement)
    requires |s.expressions| == 1 && Fine(g) && WhileStages(m.env, g, s) && Coded(m, fn, GenWhile(m.env, g, s))
    ensures Coded(m, fn, WhileBody(m.env, g, s)) && Coded(m, fn, GenStmts(m.env, WhileEnter(m.env, g, s), s.body))
    ensures Coded(m, fn, WhileHead(m.env, g, s)) && Coded(m, fn, WhileTest(g))
  {
    hide Coded, Fine, Extends, GenStmts, Branch, GenExpr, BoolValue, Ext;
    var x := GenExpr(m.env, WhileTest(g), s.expressions[0]);
    var b := BoolValue(x.g, x.o);
    ExprGrows(m.env, WhileTest(g), s.expressions[0]);
    var l := LeaveLoop(GenStmts(m.env, WhileEnter(m.env, g, s), s.body), g);
    CodedSame(m, fn, GenWhile(m.env, g, s), WhileBody(m.env, g, s));
    CodedBranch(m, fn, l, |g.code|);
    CodedSame(m, fn, l, GenStmts(m.env, WhileEnter(m.env, g, s), s.body));
    CodedBack(m, fn, WhileEnter(m.env, g, s), WhileBody(m.env, g, s));
    CodedSame(m, fn, WhileEnter(m.env, g, s), WhileHead(m.env, g, s));
    CodedTest(m, fn, WhileTest(g), s.expressions[0], |g.code| + 1, |g.code| + 2);
  }

  /** A condition and the branch on it. */
  lemma CodedTest(m: Module, fn: string, g: Gen, e: Expression, yes: nat, no: nat)
    requires var x := GenExpr(m.env, g, e); var b := BoolValue(x.g, x.o); Coded(m, fn, Emit(b.g, CondBr(b.o, yes, no)))
    ensures Coded(m, fn, GenExpr(m.env, g, e).g) && Coded(m, fn, g)
  {
    hide Coded, Fine, GenExpr, Sealed, Ext, Emit;
    var x := GenExpr(m.env, g, e);
    var b := BoolValue(x.g, x.o);
    ExprGrows(m.env, g, e);
    CodedEmit(m, fn, b.g, CondBr(b.o, yes, no));
    CodedDef(m, fn, x.g, Bin(x.g.regs, ICmp(Ne), x.o, Imm(I(0))));
    CodedBack(m, fn, g, x.g);
  }

  lemma WhileInside(w: Env, ret: Return, vs: Scopes, loops: nat, g: Gen, s: Statement)
    requires Fine(g) && Tracks(vs, g) && |vs| > 0 && s.kind == WhileS && CheckStmt(w, ret, vs, loops, s).Just? && Placed(s, false)
    ensures |s.expressions| == 1 && ExprOk(w, vs, s.expressions[0]) && Condition(s.expressions[0].ty)
    ensures CheckList(w, ret, vs, loops + 1, s.body) == Just(vs) && PlacedAll(s.body, false)
    ensures WhileStages(w, g, s) && GenWhile(w, g, s).scopes == g.scopes
    ensures Inside(g, WhileEnter(w, g, s)) && Inside(g, WhileTest(g)) && WhileTest(g).regs == g.regs && WhileTest(g).steps == g.steps
    ensures WhileEnter(w, g, s).breaks == g.breaks + [|g.code| + 2] && WhileEnter(w, g, s).continues == g.continues + [|g.code|]
  {
    CheckListFrame(w, ret, vs, loops + 1, s.body);
    assert ExprOk(w, vs, s.expressions[0]) && g.ok;
    hide Fine, Tracks, ExprOk, CheckStmt, GenStmt, WhileStages, WhileEnter, WhileTest, CheckList, PlacedAll, Placed, GenWhile;
    WhileExtends(w, g, s);
    WhileStmt(w, g, s);
    WhileTotal(w, ret, vs, loops, g, s);
    WhileTestInside(g);
    WhileEnterInside(w, vs, g, s);
  }

  lemma WhileStmt(w: Env, g: Gen, s: Statement)
    requires s.kind == WhileS && |s.expressions| == 1
    ensures GenStmt(w, g, s) == GenWhile(w, g, s)
  {
  }

  lemma WhileTestInside(g: Gen)
    requires Fine(g) && g.ok
    ensures Inside(g, WhileTest(g)) && WhileTest(g).regs == g.regs && WhileTest(g).steps == g.steps
  {
    hide Fine, Wip, WhileTest;
    WhileTestStages(g);
  }

  lemma WhileEnterInside(w: Env, vs: Scopes, g: Gen, s: Statement)
    requires Fine(g) && Tracks(vs, g) && |s.expressions| == 1 && ExprOk(w, vs, s.expressions[0]) && WhileStages(w, g, s)
    ensures Inside(g, WhileEnter(w, g, s))
    ensures WhileEnter(w, g, s).breaks == g.breaks + [|g.code| + 2] && WhileEnter(w, g, s).continues == g.continues + [|g.code|]
  {
    hide Fine, Tracks, ExprOk, WhileHead, WhileBody, GenWhile, Shaped, Closed, Extends;
    WhileHeadTotal(w, vs, g, s);
    WhileHeadStages(w, g, s);
    assert Ext(g, WhileHead(w, g, s));
  }

  // ----- for -----

  function ForFirst(w: Env, g: Gen, s: Statement): Gen
    requires |s.expressions| == 4
  {
    Resume(ForEntry(w, g, s).g, ForBlock(w, g, s))
  }

  function ForLast(w: Env, g: Gen, s: Statement): Gen
    requires |s.expressions| == 4
  {
    Resume(ForBody(w, g, s), ForBlock(w, g, s) + 2)
  }

  /** The layout of a `for`, as far as the run of the loop needs it. */
  ghost predicate ForLayout(w: Env, g: Gen, s: Statement) {
    && |s.expressions| == 4
    && var n, start, entry, head, enter, body := ForBlock(w, g, s), ForStart(w, g, s), ForEntry(w, g, s), ForHead(w, g, s), ForEnter(w, g, s), ForBody(w, g, s);
    && n + 3 < |entry.g.code| && entry.g.code[n] == [] && Fine(ForFirst(w, g, s)) && ForFirst(w, g, s) == MoveTo(entry.g, n)
    && head == ForTest(w, ForFirst(w, g, s), s, start.o, ForSlot(w, g, s), n) && Ext(ForFirst(w, g, s), head)
    && enter.at == n + 1 && enter.code == head.code && enter.code[n + 1] == [] && Fine(enter) && Ext(enter, body)
    && n + 3 < |body.code| && body.code[n + 2] == [] && Fine(ForLast(w, g, s)) && ForLast(w, g, s) == MoveTo(body, n + 2)
    && var adv := ForAdvance(ForLast(w, g, s), start.o, ForSlot(w, g, s), n);
    && Ext(ForLast(w, g, s), adv) && n + 3 < |adv.code| && GenFor(w, g, s) == MoveTo(adv, n + 3) && Fine(GenFor(w, g, s)) && adv.code[n + 3] == []
  }

  lemma ForLaidOut(w: Env, g: Gen, s: Statement)
    requires Fine(g) && |s.expressions| == 4
    ensures ForLayout(w, g, s) && Grows(g, ForStart(w, g, s).g)
  {
    hide Fine, Grows, Ext, Extends, ForBlock, ForStart, ForEntry, ForSlot, ForEnter, ForBody, ForTest, ForAdvance, GenFor;
    ForExtends(w, g, s);
    ForHeadIs(w, g, s);
  }

  lemma ForHeadIs(w: Env, g: Gen, s: Statement)
    requires |s.expressions| == 4
    ensures ForHead(w, g, s) == ForTest(w, ForFirst(w, g, s), s, ForStart(w, g, s).o, ForSlot(w, g, s), ForBlock(w, g, s))
  {
    hide ForStart, ForTest;
  }

  lemma ForCoded(m: Module, fn: string, g: Gen, s: Statement)
    requires ForLayout(m.env, g, s) && Coded(m, fn, GenFor(m.env, g, s))
    ensures Coded(m, fn, ForAdvance(ForLast(m.env, g, s), ForStart(m.env, g, s).o, ForSlot(m.env, g, s), ForBlock(m.env, g, s)))
    ensures Coded(m, fn, ForBody(m.env, g, s)) && Coded(m, fn, GenStmts(m.env, ForEnter(m.env, g, s), s.body))
    ensures Coded(m, fn, ForHead(m.env, g, s)) && Coded(m, fn, ForFirst(m.env, g, s)) && Coded(m, fn, ForEntry(m.env, g, s).g)
  {
    hide Coded, Fine, Ext, ForBlock, ForStart, ForEntry, ForSlot, ForEnter, ForAdvance, GenFor, GenStmts, ForHead, Branch, ForTest;
    var adv := ForAdvance(ForLast(m.env, g, s), ForStart(m.env, g, s).o, ForSlot(m.env, g, s), ForBlock(m.env, g, s));
    var l := LeaveLoop(GenStmts(m.env, ForEnter(m.env, g, s), s.body), g);
    CodedSame(m, fn, GenFor(m.env, g, s), adv);
    CodedBack(m, fn, ForLast(m.env, g, s), adv);
    CodedSame(m, fn, ForLast(m.env, g, s), ForBody(m.env, g, s));
    CodedBranch(m, fn, l, ForBlock(m.env, g, s) + 2);
    CodedSame(m, fn, l, GenStmts(m.env, ForEnter(m.env, g, s), s.body));
    CodedBack(m, fn, ForEnter(m.env, g, s), ForBody(m.env, g, s));
    CodedSame(m, fn, ForEnter(m.env, g, s), ForHead(m.env, g, s));
    CodedBack(m, fn, ForFirst(m.env, g, s), ForHead(m.env, g, s));
    CodedSame(m, fn, ForFirst(m.env, g, s), ForEntry(m.env, g, s).g);
  }

  /** The first block's entry code is in place, up to the jump that ends it. */
  lemma ForEntryCoded(m: Module, fn: string, g: Gen, s: Statement)
    requires |s.expressions| == 4 && Coded(m, fn, ForEntry(m.env, g, s).g)
    ensures Coded(m, fn, ForStart(m.env, g, s).g)
  {
    hide ForStart, Branch, Coded;
    var start := ForStart(m.env, g, s).g;
    var a := AddBlocks(start.(steps := start.steps + 1), 4);
    CodedBranch(m, fn, a, |start.code|);
    assert Ext(start, a);
    CodedBack(m, fn, start, a);
  }

  lemma ForTestCoded(m: Module, fn: string, g: Gen, s: Statement, counter: Operand, slot: nat, n: nat)
    requires |s.expressions| == 4 && Coded(m, fn, ForTest(m.env, g, s, counter, slot, n))
    ensures var current := Def(g, Load(g.regs, counter));
            var step := ForStep(m.env, current.g, s, slot);
            var end := GenExpr(m.env, step.g, s.expressions[3]);
            && Coded(m, fn, current.g) && Coded(m, fn, GenExpr(m.env, current.g, s.expressions[2]).g) && Coded(m, fn, step.g) && Coded(m, fn, end.g)
            && Coded(m, fn, EmitAll(end.g, DirectionCode(end.g.regs, current.o, step.o, end.o)))
            && Grows(g, current.g) && Grows(current.g, step.g) && Grows(step.g, end.g)
  {
    hide Coded, Fine, Sealed, GenExpr, Def, ForStep, EmitAll, Ext;
    var current := Def(g, Load(g.regs, counter));
    var step := ForStep(m.env, current.g, s, slot);
    var end := GenExpr(m.env, step.g, s.expressions[3]);
    var js := DirectionCode(end.g.regs, current.o, step.o, end.o);
    var more := DefAll(end.g, js);
    DefGrows(g, Load(g.regs, counter));
    ForStepGrows(m.env, current.g, s, slot);
    ExprGrows(m.env, step.g, s.expressions[3]);
    CodedEmit(m, fn, more.g, CondBr(more.o, n + 1, n + 3));
    CodedEmitAll(m, fn, end.g, js);
    CodedBack(m, fn, step.g, end.g);
    ForStepCoded(m, fn, current.g, s, slot);
    CodedBack(m, fn, current.g, step.g);
  }

  lemma ForStepCoded(m: Module, fn: string, g: Gen, s: Statement, slot: nat)
    requires |s.expressions| == 4 && Coded(m, fn, ForStep(m.env, g, s, slot).g)
    ensures Coded(m, fn, GenExpr(m.env, g, s.expressions[2]).g)
  {
    hide Coded, GenExpr, FailureIf, Emit;
    var step := GenExpr(m.env, g, s.expressions[2]);
    var z := Def(step.g, Bin(step.g.regs, ICmp(Eq), step.o, Imm(I(0))));
    var f := FailureIf(z.g, z.o, ZeroStep);
    CodedEmit(m, fn, f, StoreTo(step.o, StepRef(slot)));
    CodedFailure(m, fn, z.g, z.o, ZeroStep);
    CodedDef(m, fn, step.g, Bin(step.g.regs, ICmp(Eq), step.o, Imm(I(0))));
  }

  /** The generator's counters at the blocks of a `for`. */
  ghost predicate ForCounts(w: Env, g: Gen, s: Statement)
    requires |s.expressions| == 4
  {
    var start, first, enter, last, n := ForStart(w, g, s), ForFirst(w, g, s), ForEnter(w, g, s), ForLast(w, g, s), ForBlock(w, g, s);
    && Inside(g, start.g) && Inside(g, first) && Inside(g, enter) && GenFor(w, g, s).scopes == g.scopes
    && first.regs == start.g.regs && first.steps == start.g.steps + 1 && ForSlot(w, g, s) == start.g.steps
    && first.regs <= enter.regs && first.steps <= enter.steps && enter.regs <= last.regs && enter.steps <= last.steps
    && Below(start.o, start.g.regs)
    && enter.breaks == g.breaks + [n + 3] && enter.continues == g.continues + [n + 2]
  }

  lemma ForInside(w: Env, ret: Return, vs: Scopes, loops: nat, g: Gen, s: Statement)
    requires Fine(g) && Tracks(vs, g) && |vs| > 0 && s.kind == ForS && CheckStmt(w, ret, vs, loops, s).Just? && Placed(s, false) && ForLayout(w, g, s)
    ensures ForCounts(w, g, s)
  {
    hide Fine, Tracks, ExprOk, CheckStmt, GenStmt, GenFor, ForLayout, ForStart, ForEntry, ForSlot, ForBlock, ForEnter, ForLast, ForFirst, Inside, Placed, ForBody, ForHead;
    ForNode(w, ret, vs, loops, g, s);
    ForTotal(w, ret, vs, loops, g, s);
    ForStartInside(w, vs, g, s);
    ForFirstInside(w, g, s);
    ForEnterInside(w, vs, g, s);
  }

  lemma ForNode(w: Env, ret: Return, vs: Scopes, loops: nat, g: Gen, s: Statement)
    requires |vs| > 0 && s.kind == ForS && CheckStmt(w, ret, vs, loops, s).Just?
    ensures |s.expressions| == 4 && ExprsOk(w, vs, s.expressions) && Assignable(s.expressions[0]) && GenStmt(w, g, s) == GenFor(w, g, s)
  {
    hide ExprsOk, GenFor;
  }

  lemma ForStartInside(w: Env, vs: Scopes, g: Gen, s: Statement)
    requires Tracks(vs, g) && |s.expressions| == 4 && ExprsOk(w, vs, s.expressions) && Assignable(s.expressions[0])
    ensures Inside(g, ForStart(w, g, s).g) && Below(ForStart(w, g, s).o, ForStart(w, g, s).g.regs) && ForSlot(w, g, s) == ForStart(w, g, s).g.steps
  {
    hide Fine, Sealed, Tracks, ExprOk, GenExpr, GenPlace;
    ForStartTotal(w, vs, g, s);
    ForStartGrows(w, g, s);
    PlaceBelow(w, GenExpr(w, g, s.expressions[1]).g, s.expressions[0]);
  }

  lemma ForFirstInside(w: Env, g: Gen, s: Statement)
    requires ForLayout(w, g, s) && Inside(g, ForStart(w, g, s).g)
    ensures var start, first := ForStart(w, g, s), ForFirst(w, g, s);
            Inside(g, first) && first.regs == start.g.regs && first.steps == start.g.steps + 1
  {
    hide ForStart, Fine, ForHead, ForEnter, ForBody, ForAdvance, GenFor, ForTest, Ext;
  }

  lemma ForEnterInside(w: Env, vs: Scopes, g: Gen, s: Statement)
    requires Fine(g) && Tracks(vs, g) && ForLayout(w, g, s) && ExprsOk(w, vs, s.expressions) && Assignable(s.expressions[0])
    requires Inside(g, ForFirst(w, g, s))
    ensures var first, enter, last, n := ForFirst(w, g, s), ForEnter(w, g, s), ForLast(w, g, s), ForBlock(w, g, s);
            && Inside(g, enter) && first.regs <= enter.regs && first.steps <= enter.steps && enter.regs <= last.regs && enter.steps <= last.steps
            && enter.breaks == g.breaks + [n + 3] && enter.continues == g.continues + [n + 2]
  {
    hide Fine, Tracks, ExprOk, ForStart, ForEntry, ForSlot, ForBlock, ForHead, ForAdvance, GenFor, ForTest, ForBody;
    ForHeadTotal(w, vs, g, s);
  }
}
