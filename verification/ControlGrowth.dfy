/**
Growth by branching statements and loops, and the shape of a finished function: every block
ends in exactly one terminator, with nothing after it, and branches stay inside the function.
*/
module ControlGrowth {
  import opened SemanticIR
  import opened Typing
  import opened Machine
  import opened Codegen
  import opened Growth

  /**
  A statement under construction since `g`: the blocks it created are closed, except the
  pending ones, which are still empty, and the current one.
  */
  ghost predicate Wip(g: Gen, h: Gen, pending: set<nat>) {
    && Ext(g, h) && Shaped(h)
    && (forall b <- pending :: |g.code| <= b < |h.code| && b != h.at && h.code[b] == [])
    && (forall b: nat | b < |h.code| && (b == g.at || |g.code| <= b) && b !in pending && b != h.at :: Closed(h.code[b]))
  }

  lemma WipStart(g: Gen, h: Gen)
    requires Ext(g, h) && Shaped(h) && Sealed(g, h)
    ensures Wip(g, h, {})
  {
    hide Closed, Shaped;
  }

  lemma AddBlocksShaped(g: Gen, n: nat)
    requires Fine(g)
    ensures Ext(g, AddBlocks(g, n)) && Fine(AddBlocks(g, n))
  {
    var h := AddBlocks(g, n);
    forall b | 0 <= b < |h.code| ensures BlockOk(h.code[b], |h.code|) {
      if b < |g.code| {
        assert BlockOk(g.code[b], |g.code|);
      }
    }
  }

  lemma WipAdd(g: Gen, h: Gen, n: nat, pending: set<nat>)
    requires Wip(g, h, {}) && Fine(h) && forall b: nat :: b in pending <==> |h.code| <= b < |h.code| + n
    ensures Wip(g, AddBlocks(h, n), pending)
  {
    hide Closed, Shaped;
    AddBlocksShaped(h, n);
    ExtTrans(g, h, AddBlocks(h, n));
  }

  lemma WipExtend(g: Gen, h: Gen, h': Gen, pending: set<nat>)
    requires Wip(g, h, pending) && Fine(h) && Extends(h, h')
    ensures Wip(g, h', pending)
  {
    hide Closed, Shaped;
    ExtTrans(g, h, h');
  }

  lemma WipMove(g: Gen, h: Gen, b: nat, pending: set<nat>)
    requires Wip(g, h, pending) && b in pending && Closed(h.code[h.at])
    ensures Resume(h, b) == MoveTo(h, b) && Wip(g, MoveTo(h, b), pending - {b}) && Fine(MoveTo(h, b))
  {
    hide Closed;
  }

  /** The last pending block becomes the current one. */
  lemma WipFinish(g: Gen, h: Gen, b: nat)
    requires Wip(g, h, {b}) && Closed(h.code[h.at]) && SameLoops(g, h)
    ensures b < |h.code| && Resume(h, b) == MoveTo(h, b) && Fine(MoveTo(h, b)) && h.code[b] == [] && Extends(g, MoveTo(h, b))
  {
    hide Closed, Fine, Sealed;
    WipMove(g, h, b, {b});
    assert {b} - {b} == {};
    WipDone(g, MoveTo(h, b));
  }

  lemma WipLoops(g: Gen, h: Gen, breaks: seq<nat>, continues: seq<nat>, pending: set<nat>)
    requires Wip(g, h, pending)
    requires forall i | 0 <= i < |breaks| :: breaks[i] < |h.code|
    requires forall i | 0 <= i < |continues| :: continues[i] < |h.code|
    ensures Wip(g, h.(breaks := breaks, continues := continues), pending)
  {
  }

  lemma WipDone(g: Gen, h: Gen)
    requires Wip(g, h, {}) && SameLoops(g, h)
    ensures Extends(g, h)
  {
    hide Closed, Shaped;
  }

  lemma ShapedOpen(g: Gen)
    requires Shaped(g) && !Terminated(g)
    ensures Fine(g)
  {
    assert BlockOk(g.code[g.at], |g.code|);
  }

  /** Branching to `b` from a well-shaped state leaves the block closed. */
  lemma BranchCloses(g: Gen, h: Gen, b: nat)
    requires Fine(g) && Extends(g, h) && b < |h.code|
    ensures Extends(g, Branch(h, b)) && Closed(Branch(h, b).code[h.at]) && Ext(h, Branch(h, b))
  {
    hide Ext, Sealed, Shaped, Emit;
    if Terminated(h) {
      assert Ext(h, h) by { ExtRefl(h); }
      ShapedEnded(h);
    } else {
      ShapedOpen(h);
      BranchExtends(h, b);
      ExtTrans(g, h, Branch(h, b));
      SealedTrans(g, h, Branch(h, b));
    }
  }

  lemma ExtRefl(g: Gen)
    ensures Ext(g, g)
  {
  }

  lemma ShapedEnded(g: Gen)
    requires Shaped(g) && Terminated(g)
    ensures Closed(g.code[g.at])
  {
    assert BlockOk(g.code[g.at], |g.code|);
  }

  lemma BranchStays(g: Gen, b: nat)
    ensures Branch(g, b).at == g.at && SameLoops(g, Branch(g, b)) && Branch(g, b).scopes == g.scopes
  {
  }

  // ----- tests -----

  lemma IfHeadStages(w: Env, g: Gen, s: Statement)
    requires Fine(g) && |s.expressions| == 1
    ensures var n, head := |g.code|, IfHead(w, g, s);
            && Wip(g, head, {n, n + 1, n + 2}) && Closed(head.code[head.at]) && SameLoops(g, head) && head.scopes == g.scopes
  {
    var n, head := |g.code|, IfHead(w, g, s);
    var a := AddBlocks(g, 3);
    WipStart(g, g);
    WipAdd(g, g, 3, {n, n + 1, n + 2});
    AddBlocksShaped(g, 3);
    hide Wip, Fine, Emit, GenExpr, Def;
    var v := GenExpr(w, a, s.expressions[0]);
    ExprGrows(w, a, s.expressions[0]);
    Chains(a);
    var c := BoolValue(v.g, v.o);
    GrowLength(a, c.g);
    TerminateExtends(a, c.g, CondBr(c.o, n, n + 1));
    WipExtend(g, a, head, {n, n + 1, n + 2});
  }

  lemma GrowLength(g: Gen, h: Gen)
    requires Grows(g, h)
    ensures |g.code| <= |h.code|
  {
  }

  // ----- generated segments -----

  /**
  Generating a statement list into the pending block `b`, under the given loop targets, and
  branching to `t` at its end.
  */
  ghost predicate SegmentOk(g: Gen, h: Gen, b: nat, y: Gen, r: Gen, rest: set<nat>) {
    && b < |h.code| && Resume(h, b) == MoveTo(h, b) && h.code[b] == []
    && Fine(y) && Ext(y, r) && Wip(g, r, rest) && Closed(r.code[r.at]) && SameLoops(g, r)
  }

  ghost predicate InFunction(targets: seq<nat>, g: Gen) {
    forall i | 0 <= i < |targets| :: targets[i] < |g.code|
  }

  lemma LoopTargets(g: Gen, h: Gen, breaks: seq<nat>, continues: seq<nat>)
    requires Shaped(g) && Ext(g, h)
    requires breaks == g.breaks || (|breaks| == |g.breaks| + 1 && breaks[..|g.breaks|] == g.breaks && breaks[|g.breaks|] < |h.code|)
    requires continues == g.continues || (|continues| == |g.continues| + 1 && continues[..|g.continues|] == g.continues && continues[|g.continues|] < |h.code|)
    ensures InFunction(breaks, h) && InFunction(continues, h)
  {
    hide BlockOk;
    forall i | 0 <= i < |breaks| ensures breaks[i] < |h.code| {
      if i < |g.breaks| {
        assert breaks[i] == breaks[..|g.breaks|][i];
      }
    }
    forall i | 0 <= i < |continues| ensures continues[i] < |h.code| {
      if i < |g.continues| {
        assert continues[i] == continues[..|g.continues|][i];
      }
    }
  }

  lemma {:induction false} Segment(w: Env, g: Gen, h: Gen, b: nat, breaks: seq<nat>, continues: seq<nat>, ss: seq<Statement>, t: nat, rest: set<nat>)
    requires Fine(g) && Wip(g, h, {b} + rest) && b !in rest && Closed(h.code[h.at]) && t < |h.code|
    requires InFunction(breaks, h) && InFunction(continues, h)
    ensures b < |h.code|
    ensures var y := MoveTo(h, b).(breaks := breaks, continues := continues);
            SegmentOk(g, h, b, y, Branch(LeaveLoop(GenStmts(w, y, ss), g), t), rest)
    decreases ss, 1
  {
    hide Closed, Branch;
    WipMove(g, h, b, {b} + rest);
    assert {b} + rest - {b} == rest;
    assert h.code[b] == [];
    var m := MoveTo(h, b);
    WipLoops(g, m, breaks, continues, rest);
    var y := m.(breaks := breaks, continues := continues);
    StmtsExtend(w, y, ss);
    SegmentEnd(g, y, GenStmts(w, y, ss), t, rest);
  }

  lemma SegmentEnd(g: Gen, y: Gen, x: Gen, t: nat, pending: set<nat>)
    requires Fine(g) && Wip(g, y, pending) && Fine(y) && Extends(y, x) && t < |y.code|
    ensures var r := Branch(LeaveLoop(x, g), t);
            Ext(y, r) && Wip(g, r, pending) && Closed(r.code[r.at]) && SameLoops(g, r)
  {
    hide Sealed, Emit, Closed;
    var l := LeaveLoop(x, g);
    var r := Branch(l, t);
    WipExtend(g, y, x, pending);
    WipLoops(g, x, g.breaks, g.continues, pending);
    BranchStays(l, t);
    assert Ext(y, l);
    if Terminated(l) {
      ShapedEnded(l);
    } else {
      ShapedOpen(l);
      BranchExtends(l, t);
      WipExtend(g, l, r, pending);
      ExtTrans(y, l, r);
    }
  }

  lemma SameLoopsLeave(g: Gen, x: Gen)
    requires SameLoops(g, x)
    ensures LeaveLoop(x, g) == x
  {
  }

  // ----- if -----

  /** The code of a branching statement at each point where control can enter it. */
  ghost predicate IfStages(w: Env, g: Gen, s: Statement)
    requires |s.expressions| == 1
  {
    var n, head, yes, no, h := |g.code|, IfHead(w, g, s), IfYes(w, g, s), IfNo(w, g, s), GenIf(w, g, s);
    && n + 2 < |head.code| && |head.code| <= |yes.code| && |yes.code| <= |no.code|
    && Resume(head, n) == MoveTo(head, n) && Fine(MoveTo(head, n)) && head.code[n] == []
    && Resume(yes, n + 1) == MoveTo(yes, n + 1) && Fine(MoveTo(yes, n + 1)) && yes.code[n + 1] == []
    && h == MoveTo(no, n + 2) && Fine(h) && h.code[n + 2] == []
    && Ext(MoveTo(head, n), yes) && Ext(MoveTo(yes, n + 1), no)
    && Extends(g, h)
  }

  lemma {:induction false} IfExtends(w: Env, g: Gen, s: Statement)
    requires Fine(g) && |s.expressions| == 1
    ensures IfStages(w, g, s)
    decreases s, 2
  {
    hide Fine, Branch, Closed, IfHead, Wip, Extends, Ext, LeaveLoop, GenStmts;
    var n, head, yes, no := |g.code|, IfHead(w, g, s), IfYes(w, g, s), IfNo(w, g, s);
    IfHeadStages(w, g, s);
    assert {n} + {n + 1, n + 2} == {n, n + 1, n + 2};
    BranchSegment(w, g, head, n, s.body, n + 2, {n + 1, n + 2}, n + 2);
    assert {n + 1} + {n + 2} == {n + 1, n + 2};
    BranchSegment(w, g, yes, n + 1, s.alternative, n + 2, {n + 2}, n + 2);
    WipFinish(g, no, n + 2);
  }

  /** A segment outside any new loop. */
  lemma {:induction false} BranchSegment(w: Env, g: Gen, h: Gen, b: nat, ss: seq<Statement>, t: nat, rest: set<nat>, last: nat)
    requires Fine(g) && Wip(g, h, {b} + rest) && b !in rest && Closed(h.code[h.at]) && t in rest && SameLoops(g, h) && last in rest
    ensures b < |h.code| && last < |h.code|
    ensures Resume(h, b) == MoveTo(h, b) && Fine(MoveTo(h, b)) && h.code[b] == []
    ensures var r := Branch(GenStmts(w, MoveTo(h, b), ss), t);
            Ext(MoveTo(h, b), r) && Wip(g, r, rest) && Closed(r.code[r.at]) && SameLoops(g, r) && |h.code| <= |r.code|
    decreases ss, 2
  {
    hide Closed, Branch, Shaped, GenStmts;
    assert last in {b} + rest && t in {b} + rest;
    LoopTargets(g, h, g.breaks, g.continues);
    Segment(w, g, h, b, g.breaks, g.continues, ss, t, rest);
    var y := MoveTo(h, b);
    assert y == y.(breaks := g.breaks, continues := g.continues);
    StmtsLoops(w, y, ss);
    SameLoopsLeave(g, GenStmts(w, y, ss));
  }

  lemma {:induction false} StmtsLoops(w: Env, g: Gen, ss: seq<Statement>)
    requires Fine(g)
    ensures SameLoops(g, GenStmts(w, g, ss))
    decreases ss, 1
  {
    hide Ext, Sealed, Fine;
    StmtsExtend(w, g, ss);
  }

  // ----- while -----

  ghost predicate WhileStages(w: Env, g: Gen, s: Statement)
    requires |s.expressions| == 1
  {
    var n, head, enter, body, h := |g.code|, WhileHead(w, g, s), WhileEnter(w, g, s), WhileBody(w, g, s), GenWhile(w, g, s);
    && n + 2 < |head.code| && enter.at == n + 1 && head.code[n + 1] == [] && enter.code == head.code
    && Fine(enter) && Ext(enter, body)
    && n + 2 < |body.code| && h == MoveTo(body, n + 2) && Fine(h) && h.code[n + 2] == []
    && Extends(g, h)
  }

  /** The test block, entered from `g` and from the end of the body. */
  function WhileTest(g: Gen): Gen {
    Resume(Branch(AddBlocks(g, 3), |g.code|), |g.code|)
  }

  lemma WhileTestStages(g: Gen)
    requires Fine(g)
    ensures var n, t := |g.code|, WhileTest(g);
            && Wip(g, t, {n + 1, n + 2}) && Fine(t) && t.at == n && t.code[n] == [] && n + 2 < |t.code| && SameLoops(g, t)
            && t.scopes == g.scopes && t.regs == g.regs && t.slots == g.slots && t.steps == g.steps && t.ok == g.ok
            && t.code[g.at] == g.code[g.at] + [Br(n)]
  {
    hide Closed, Shaped;
    var n := |g.code|;
    var a := AddBlocks(g, 3);
    WipStart(g, g);
    WipAdd(g, g, 3, {n, n + 1, n + 2});
    AddBlocksShaped(g, 3);
    OpenNotEnded(a);
    BranchExtends(a, n);
    WipExtend(g, a, Branch(a, n), {n, n + 1, n + 2});
    WipMove(g, Branch(a, n), n, {n, n + 1, n + 2});
    assert {n, n + 1, n + 2} - {n} == {n + 1, n + 2};
  }

  lemma WhileHeadStages(w: Env, g: Gen, s: Statement)
    requires Fine(g) && |s.expressions| == 1
    ensures var n, head := |g.code|, WhileHead(w, g, s);
            && Wip(g, head, {n + 1, n + 2}) && Closed(head.code[head.at]) && SameLoops(g, head) && head.scopes == g.scopes
  {
    var n, head, t := |g.code|, WhileHead(w, g, s), WhileTest(g);
    WhileTestStages(g);
    hide Wip, Fine, Emit, GenExpr, Def, Branch, AddBlocks;
    var v := GenExpr(w, t, s.expressions[0]);
    ExprGrows(w, t, s.expressions[0]);
    Chains(t);
    var c := BoolValue(v.g, v.o);
    GrowLength(t, c.g);
    TerminateExtends(t, c.g, CondBr(c.o, n + 1, n + 2));
    WipExtend(g, t, head, {n + 1, n + 2});
  }

  lemma {:induction false} WhileExtends(w: Env, g: Gen, s: Statement)
    requires Fine(g) && |s.expressions| == 1
    ensures WhileStages(w, g, s)
    decreases s, 2
  {
    hide Fine, Branch, Closed, WhileHead, Wip, Extends, Ext, GenStmts;
    var n, head, body := |g.code|, WhileHead(w, g, s), WhileBody(w, g, s);
    WhileHeadStages(w, g, s);
    assert {n + 1} + {n + 2} == {n + 1, n + 2};
    LoopSegment(w, g, head, n + 1, n + 2, n, s.body, n, {n + 2});
    WipFinish(g, body, n + 2);
  }

  /** A segment that is the body of a new loop. */
  lemma {:induction false} LoopSegment(w: Env, g: Gen, h: Gen, b: nat, exit: nat, again: nat, ss: seq<Statement>, t: nat, rest: set<nat>)
    requires Fine(g) && Wip(g, h, {b} + rest) && b !in rest && Closed(h.code[h.at])
    requires exit in rest && (again in rest || again < |g.code| || again == |g.code|) && (t in rest || t == again)
    ensures b < |h.code| && exit < |h.code| && Resume(h, b) == MoveTo(h, b) && h.code[b] == []
    ensures var y := EnterLoop(MoveTo(h, b), exit, again);
            var r := Branch(LeaveLoop(GenStmts(w, y, ss), g), t);
            && (SameLoops(g, h) ==> Fine(y) && Ext(y, r) && Wip(g, r, rest) && Closed(r.code[r.at]) && SameLoops(g, r) && |h.code| <= |r.code|)
    decreases ss, 2
  {
    assert exit in {b} + rest && b in {b} + rest;
    assert again < |h.code|;
    if SameLoops(g, h) {
      var breaks, continues := g.breaks + [exit], g.continues + [again];
      LoopTargets(g, h, breaks, continues);
      assert t < |h.code|;
      hide Closed, Branch, Shaped, GenStmts;
      Segment(w, g, h, b, breaks, continues, ss, t, rest);
    }
  }

  // ----- for -----

  ghost predicate ForStages(w: Env, g: Gen, s: Statement)
    requires |s.expressions| == 4
  {
    var n, start, entry, head := ForBlock(w, g, s), ForStart(w, g, s), ForEntry(w, g, s), ForHead(w, g, s);
    var enter, body, h := ForEnter(w, g, s), ForBody(w, g, s), GenFor(w, g, s);
    && Grows(g, start.g) && |start.g.code| == n
    && n + 3 < |entry.g.code| && Resume(entry.g, n) == MoveTo(entry.g, n) && Fine(MoveTo(entry.g, n)) && entry.g.code[n] == []
    && n + 3 < |head.code| && Ext(MoveTo(entry.g, n), head)
    && enter.at == n + 1 && head.code[n + 1] == [] && enter.code == head.code && Fine(enter) && Ext(enter, body)
    && n + 3 < |body.code| && Resume(body, n + 2) == MoveTo(body, n + 2) && Fine(MoveTo(body, n + 2)) && body.code[n + 2] == []
    && Fine(h) && h.at == n + 3 && n + 3 < |h.code| && h.code[n + 3] == []
    && Ext(MoveTo(body, n + 2), ForAdvance(MoveTo(body, n + 2), start.o, ForSlot(w, g, s), n))
    && h == MoveTo(ForAdvance(MoveTo(body, n + 2), start.o, ForSlot(w, g, s), n), n + 3)
    && Extends(g, h)
  }

  lemma ForStartGrows(w: Env, g: Gen, s: Statement)
    requires |s.expressions| == 4
    ensures Grows(g, ForStart(w, g, s).g)
  {
    hide Grows, Emit, GenExpr, GenPlace;
    Chains(g);
    var v := GenExpr(w, g, s.expressions[1]);
    ExprGrows(w, g, s.expressions[1]);
    PlaceGrows(w, v.g, s.expressions[0]);
    GrowsTrans(g, v.g, GenPlace(w, v.g, s.expressions[0]).g);
  }

  lemma StepsFine(g: Gen, n: nat)
    requires Fine(g) && n >= g.steps
    ensures Fine(g.(steps := n)) && Ext(g, g.(steps := n)) && Sealed(g, g.(steps := n)) && Grows(g, g.(steps := n))
  {
  }

  /** The entry of a `for` loop whose start code ends in `start`. */
  function EntryFrom(start: Gen): Gen {
    Branch(AddBlocks(start.(steps := start.steps + 1), 4), |start.code|)
  }

  ghost predicate EntryOk(g: Gen, entry: Gen, n: nat) {
    && n + 3 < |entry.code| && Wip(g, MoveTo(entry, n), {n + 1, n + 2, n + 3}) && Fine(MoveTo(entry, n))
    && Resume(entry, n) == MoveTo(entry, n) && entry.code[n] == [] && SameLoops(g, entry) && entry.scopes == g.scopes
  }

  lemma EntryStages(g: Gen, start: Gen)
    requires Fine(g) && Grows(g, start)
    ensures EntryOk(g, EntryFrom(start), |start.code|)
  {
    hide Closed, Shaped, Branch;
    var a, n := start.(steps := start.steps + 1), |start.code|;
    StepsFine(start, start.steps + 1);
    GrowsTrans(g, start, a);
    WipStart(g, a);
    WipAdd(g, a, 4, {n, n + 1, n + 2, n + 3});
    ForJump(g, a, n);
  }

  lemma ForEntryStages(w: Env, g: Gen, s: Statement)
    requires Fine(g) && |s.expressions| == 4
    ensures EntryOk(g, ForEntry(w, g, s).g, ForBlock(w, g, s))
  {
    hide ForStart, Fine, EntryOk, Branch;
    ForStartGrows(w, g, s);
    EntryStages(g, ForStart(w, g, s).g);
  }

  lemma ForJump(g: Gen, a: Gen, n: nat)
    requires Fine(a) && n == |a.code| && Wip(g, AddBlocks(a, 4), {n, n + 1, n + 2, n + 3})
    ensures var entry := Branch(AddBlocks(a, 4), n);
            && n + 3 < |entry.code| && Wip(g, MoveTo(entry, n), {n + 1, n + 2, n + 3}) && Fine(MoveTo(entry, n))
            && Resume(entry, n) == MoveTo(entry, n) && entry.code[n] == []
            && SameLoops(a, entry) && entry.scopes == a.scopes
  {
    hide Closed, Shaped, Branch;
    var b := AddBlocks(a, 4);
    AddBlocksShaped(a, 4);
    BranchExtends(b, n);
    BranchStays(b, n);
    WipExtend(g, b, Branch(b, n), {n, n + 1, n + 2, n + 3});
    WipMove(g, Branch(b, n), n, {n, n + 1, n + 2, n + 3});
    assert {n, n + 1, n + 2, n + 3} - {n} == {n + 1, n + 2, n + 3};
  }

  lemma ForTestExtends(w: Env, g: Gen, s: Statement, counter: Operand, slot: nat, n: nat)
    requires |s.expressions| == 4 && Fine(g) && n + 3 < |g.code|
    ensures var h := ForTest(w, g, s, counter, slot, n);
            Extends(g, h) && Closed(h.code[h.at]) && h.scopes == g.scopes
  {
    hide Grows, Fine, Emit, EmitAll, GenExpr, Def, FailureIf, ForStep;
    Chains(g);
    var current := Def(g, Load(g.regs, counter));
    ForStepGrows(w, current.g, s, slot);
    var step := ForStep(w, current.g, s, slot);
    GrowsTrans(g, current.g, step.g);
    ExprGrows(w, step.g, s.expressions[3]);
    var end := GenExpr(w, step.g, s.expressions[3]);
    GrowsTrans(g, step.g, end.g);
    var more := DefAll(end.g, DirectionCode(end.g.regs, current.o, step.o, end.o));
    GrowLength(g, more.g);
    TerminateExtends(g, more.g, CondBr(more.o, n + 1, n + 3));
    GrowScopes(g, more.g);
    EmitScopes(more.g, CondBr(more.o, n + 1, n + 3));
  }

  lemma GrowScopes(g: Gen, h: Gen)
    requires Grows(g, h)
    ensures g.scopes == h.scopes
  {
  }

  lemma EmitScopes(g: Gen, i: Instr)
    ensures Emit(g, i).scopes == g.scopes && Emit(g, i).at == g.at
  {
  }

  lemma ForStepGrows(w: Env, g: Gen, s: Statement, slot: nat)
    requires |s.expressions| == 4
    ensures Grows(g, ForStep(w, g, s, slot).g)
  {
    hide Grows, Emit, GenExpr, Def, FailureIf;
    Chains(g);
    ExprGrows(w, g, s.expressions[2]);
  }

  lemma ForAdvanceExtends(g: Gen, counter: Operand, slot: nat, n: nat)
    requires Fine(g) && n < |g.code|
    ensures var h := ForAdvance(g, counter, slot, n); Extends(g, h) && Closed(h.code[h.at]) && h.scopes == g.scopes
  {
    hide Grows, Emit, EmitAll, Branch, Closed;
    Chains(g);
    var n0 := g.regs;
    var sum := DefAll(g, [Load(n0, counter), Load(n0 + 1, StepRef(slot)), Bin(n0 + 2, Add32, Reg(n0), Reg(n0 + 1))]);
    var x := Emit(sum.g, StoreTo(sum.o, counter));
    GrowLength(g, x);
    GrowsExtends(g, x);
    GrowScopes(g, x);
    BranchCloses(g, x, n);
    BranchStays(x, n);
  }

  lemma ExtendsLoops(g: Gen, h: Gen)
    requires Extends(g, h)
    ensures SameLoops(g, h) && Ext(g, h)
  {
  }

  ghost predicate HeadOk(g: Gen, t: Gen, head: Gen, n: nat) {
    && Wip(g, head, {n + 1, n + 2, n + 3}) && Closed(head.code[head.at]) && SameLoops(g, head) && head.scopes == g.scopes
    && Ext(t, head) && n + 3 < |head.code|
  }

  lemma HeadStages(w: Env, g: Gen, entry: Gen, s: Statement, counter: Operand, slot: nat, n: nat)
    requires Fine(g) && |s.expressions| == 4 && EntryOk(g, entry, n)
    ensures HeadOk(g, MoveTo(entry, n), ForTest(w, MoveTo(entry, n), s, counter, slot, n), n)
  {
    hide Fine, Closed, ForTest, Shaped, Sealed;
    var t := MoveTo(entry, n);
    ForTestExtends(w, t, s, counter, slot, n);
    WipExtend(g, t, ForTest(w, t, s, counter, slot, n), {n + 1, n + 2, n + 3});
    ExtendsLoops(t, ForTest(w, t, s, counter, slot, n));
  }

  lemma ForHeadStages(w: Env, g: Gen, s: Statement)
    requires Fine(g) && |s.expressions| == 4
    ensures var n, entry := ForBlock(w, g, s), ForEntry(w, g, s).g;
            EntryOk(g, entry, n) && HeadOk(g, MoveTo(entry, n), ForHead(w, g, s), n)
  {
    hide ForEntry, Fine, ForTest, HeadOk, ForBlock, ForSlot, Wip;
    ForEntryStages(w, g, s);
    HeadStages(w, g, ForEntry(w, g, s).g, s, ForEntry(w, g, s).o, ForSlot(w, g, s), ForBlock(w, g, s));
  }

  lemma {:induction false} ForExtends(w: Env, g: Gen, s: Statement)
    requires Fine(g) && |s.expressions| == 4
    ensures ForStages(w, g, s)
    decreases s, 2
  {
    hide ForEntry, ForStart, ForBlock, ForHead, ForSlot, Grows, Branch, Fine, Closed, ForAdvance, Wip, Extends, Ext, GenStmts, LeaveLoop;
    var n, head, body := ForBlock(w, g, s), ForHead(w, g, s), ForBody(w, g, s);
    ForStartGrows(w, g, s);
    ForHeadStages(w, g, s);
    ForBlockIs(w, g, s);
    assert {n + 1} + {n + 2, n + 3} == {n + 1, n + 2, n + 3};
    LoopSegment(w, g, head, n + 1, n + 3, n + 2, s.body, n + 2, {n + 2, n + 3});
    ForTail(g, body, ForStart(w, g, s).o, ForSlot(w, g, s), n);
  }

  lemma ForBlockIs(w: Env, g: Gen, s: Statement)
    requires |s.expressions| == 4
    ensures ForBlock(w, g, s) == |ForStart(w, g, s).g.code|
  {
  }

  lemma ForTail(g: Gen, body: Gen, counter: Operand, slot: nat, n: nat)
    requires Fine(g) && Wip(g, body, {n + 2, n + 3}) && Closed(body.code[body.at]) && SameLoops(g, body) && n < |body.code|
    ensures n + 3 < |body.code| && Resume(body, n + 2) == MoveTo(body, n + 2) && Fine(MoveTo(body, n + 2)) && body.code[n + 2] == []
    ensures var z := ForAdvance(MoveTo(body, n + 2), counter, slot, n);
            && Ext(MoveTo(body, n + 2), z) && n + 3 < |z.code| && Resume(z, n + 3) == MoveTo(z, n + 3)
            && Fine(MoveTo(z, n + 3)) && z.code[n + 3] == [] && Extends(g, MoveTo(z, n + 3))
  {
    hide ForAdvance, Fine, Closed, Sealed;
    assert n + 3 in {n + 2, n + 3} && n + 2 in {n + 2, n + 3};
    WipMove(g, body, n + 2, {n + 2, n + 3});
    assert {n + 2, n + 3} - {n + 2} == {n + 3};
    var y := MoveTo(body, n + 2);
    ForAdvanceExtends(y, counter, slot, n);
    WipExtend(g, y, ForAdvance(y, counter, slot, n), {n + 3});
    WipFinish(g, ForAdvance(y, counter, slot, n), n + 3);
  }

  // ----- all statements -----

  lemma {:induction false} StmtExtends(w: Env, g: Gen, s: Statement)
    requires Fine(g)
    ensures Extends(g, GenStmt(w, g, s))
    decreases s, 4
  {
    hide Ext, Sealed, Fine, Extends, IfStages, WhileStages, ForStages, GenFor, GenWhile, GenIf, GenPrint, DeclareEach, Branch, GenStmts;
    BrokenGrows(g);
    GrowsExtends(g, Broken(g));
    match s.kind
    case BlockS => BlockExtends(w, g, s);
    case DeclareS => DeclareCase(w, g, s);
    case AssignS =>
      if |s.expressions| == 2 {
        AssignExtends(w, g, s);
        GrowsExtends(g, GenStmt(w, g, s));
      }
    case UpdateS =>
      if |s.expressions| == 2 {
        UpdateExtends(w, g, s);
        GrowsExtends(g, GenStmt(w, g, s));
      }
    case ExpressionS =>
      if |s.expressions| == 1 {
        ExprGrows(w, g, s.expressions[0]);
        GrowsExtends(g, GenStmt(w, g, s));
      }
    case PrintS =>
      PrintGrows(w, g, s.expressions);
      GrowsExtends(g, GenStmt(w, g, s));
    case IfS =>
      if |s.expressions| == 1 {
        IfExtends(w, g, s);
        StagesExtend(w, g, s);
      }
    case WhileS =>
      if |s.expressions| == 1 {
        WhileExtends(w, g, s);
        StagesExtend(w, g, s);
      }
    case ForS =>
      if |s.expressions| == 4 {
        ForExtends(w, g, s);
        StagesExtend(w, g, s);
      }
    case BreakS | ContinueS => JumpCase(w, g, s);
    case ReturnS => ReturnExtends(w, g, s);
  }

  lemma StagesExtend(w: Env, g: Gen, s: Statement)
    requires s.kind == IfS ==> |s.expressions| == 1 && IfStages(w, g, s)
    requires s.kind == WhileS ==> |s.expressions| == 1 && WhileStages(w, g, s)
    requires s.kind == ForS ==> |s.expressions| == 4 && ForStages(w, g, s)
    ensures s.kind == IfS ==> Extends(g, GenIf(w, g, s))
    ensures s.kind == WhileS ==> Extends(g, GenWhile(w, g, s))
    ensures s.kind == ForS ==> Extends(g, GenFor(w, g, s))
  {
    hide Extends, Ext, Fine, Grows;
  }

  lemma JumpCase(w: Env, g: Gen, s: Statement)
    requires Fine(g) && (s.kind == BreakS || s.kind == ContinueS)
    ensures Extends(g, GenStmt(w, g, s))
  {
    if s.kind == BreakS && g.breaks != [] {
      BranchExtends(g, g.breaks[|g.breaks| - 1]);
    }
    if s.kind == ContinueS && g.continues != [] {
      BranchExtends(g, g.continues[|g.continues| - 1]);
    }
  }

  lemma DeclareCase(w: Env, g: Gen, s: Statement)
    requires Fine(g) && s.kind == DeclareS
    ensures Extends(g, GenStmt(w, g, s))
  {
    hide Ext, Sealed;
    DeclareEachExtends(w, g, s.variables);
  }

  lemma {:induction false} BlockExtends(w: Env, g: Gen, s: Statement)
    requires Fine(g) && s.kind == BlockS
    ensures Extends(g, GenStmt(w, g, s))
    decreases s, 3
  {
    if s.lexical {
      var y := g.(scopes := g.scopes + [map[]]);
      assert Fine(y);
      StmtsExtend(w, y, s.body);
      ScopesExtend(g, y, GenStmts(w, y, s.body));
    } else {
      StmtsExtend(w, g, s.body);
    }
  }

  lemma ScopesExtend(g: Gen, y: Gen, x: Gen)
    requires y == g.(scopes := y.scopes) && Extends(y, x) && Fine(y)
    ensures Extends(g, x.(scopes := g.scopes))
  {
  }

  lemma {:induction false} StmtsExtend(w: Env, g: Gen, ss: seq<Statement>)
    requires Fine(g)
    ensures Extends(g, GenStmts(w, g, ss))
    decreases ss, 0
  {
    if ss == [] {
      Chains(g);
    } else {
      StmtExtends(w, g, ss[0]);
      var h := GenStmt(w, g, ss[0]);
      OpenNotEnded(g);
      hide Ext, Sealed, Shaped;
      if Terminated(h) {
        EndedStmts(w, h, ss[1..]);
      } else {
        ShapedOpen(h);
        StmtsExtend(w, h, ss[1..]);
        ExtTrans(g, h, GenStmts(w, h, ss[1..]));
        SealedTrans(g, h, GenStmts(w, h, ss[1..]));
      }
    }
  }

  /** Nothing is generated behind a terminator. */
  lemma {:induction false} EndedStmts(w: Env, g: Gen, ss: seq<Statement>)
    requires Terminated(g)
    ensures GenStmts(w, g, ss) == g
    decreases ss
  {
    if ss != [] {
      EndedStmts(w, g, ss[1..]);
    }
  }

  // ----- functions -----

  lemma {:induction false} ParametersExtend(w: Env, g: Gen, ps: seq<Variable>, i: nat)
    requires i <= |ps|
    ensures var h := GenParameters(w, g, ps, i); Ext(g, h) && SameLoops(g, h) && (Fine(g) ==> Fine(h) && Sealed(g, h))
    decreases |ps| - i
  {
    if i == |ps| {
      Chains(g);
    } else {
      var g1 := Declare(w, g, ps[i]);
      var g2 := Emit(g1, StoreTo(Reg(i), SlotRef(g.slots)));
      var h := GenParameters(w, g2, ps, i + 1);
      DeclareExtends(w, g, ps[i]);
      EmitGrows(g1, StoreTo(Reg(i), SlotRef(g.slots)));
      ParametersExtend(w, g2, ps, i + 1);
      hide Ext, Fine, Sealed, Declare, Emit;
      ExtTrans(g, g1, g2);
      ExtTrans(g, g2, h);
      if Fine(g) {
        SealedTrans(g, g1, g2);
        SealedTrans(g, g2, h);
      }
    }
  }

  /** A finished function: each block has one terminator, its last instruction, and targets are its own blocks. */
  ghost predicate WellFormed(code: Code) {
    code != [] && forall b | 0 <= b < |code| :: Closed(code[b]) && forall i | 0 <= i < |code[b]| :: TargetsBelow(code[b][i], |code|)
  }

  lemma FunctionWellFormed(w: Env, ps: seq<Variable>, body: Statement, ending: Ending)
    ensures WellFormed(GenFunction(w, ps, body, ending).code)
  {
    var e := EntryState(|ps|);
    assert Fine(e);
    var a := GenParameters(w, e, ps, 0);
    ParametersExtend(w, e, ps, 0);
    StmtExtends(w, a, body);
    var g := GenStmt(w, a, body);
    ExtTrans(e, a, g);
    SealedTrans(e, a, g);
    FinishWellFormed(e, g, ending);
  }

  lemma FinishWellFormed(e: Gen, g: Gen, ending: Ending)
    requires |e.code| == 1 && Ext(e, g) && Sealed(e, g) && Shaped(g)
    ensures WellFormed(Finish(g, ending).code)
  {
    hide Closed;
    var h := Finish(g, ending);
    if Terminated(g) {
      ShapedEnded(g);
      assert Shaped(h) && Closed(h.code[h.at]);
    } else {
      ShapedOpen(g);
      EmitShaped(g, match ending case Exit => Ret(Imm(I(0))) case ReturnVoid => Ret(Imm(Unit)) case NoReturn => Fail(MissingReturn));
      assert Shaped(h) && Closed(h.code[h.at]);
    }
    forall b | 0 <= b < |h.code|
      ensures Closed(h.code[b]) && forall i | 0 <= i < |h.code[b]| :: TargetsBelow(h.code[b][i], |h.code|)
    {
      assert BlockOk(h.code[b], |h.code|);
    }
  }

  /** A body that falls off the end of a non-void function ends in the missing-return trap. */
  lemma FallThrough(w: Env, f: Function)
    requires f.result != Void
    requires var g := GenStmt(w, GenParameters(w, EntryState(|f.parameters|), f.parameters, 0), f.body); !Terminated(g)
    ensures var g := GenStmt(w, GenParameters(w, EntryState(|f.parameters|), f.parameters, 0), f.body);
            var code := GenFunction(w, f.parameters, f.body, EndingOf(f)).code;
            code == g.code[g.at := g.code[g.at] + [Fail(MissingReturn)]]
  {
  }

  /** Every function of a generated module is well formed. */
  lemma ModuleWellFormed(w: Env, body: Statement)
    ensures forall n <- GenModule(w, body).code :: WellFormed(GenModule(w, body).code[n])
  {
    hide WellFormed, GenFunction;
    forall n <- GenModule(w, body).code ensures WellFormed(GenModule(w, body).code[n]) {
      if n == "main" {
        FunctionWellFormed(w, [], body, Exit);
      } else {
        FunctionWellFormed(w, w.functions[n].parameters, w.functions[n].body, EndingOf(w.functions[n]));
      }
    }
  }
}
