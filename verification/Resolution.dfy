/**
Where the generator's names come from. It generates nothing behind a statement that ends its
list, and no alternative of a loop, so what it knows is what the verifier's rules declare in the
program cut down to the rest. For an accepted program its lookups all succeed and find the
verifier's declarations exactly when cutting the program changes no name's declaration; and
then generation is total.
*/
module Resolution {
  import opened Wrappers
  import opened SemanticIR
  import opened Typing
  import opened Machine
  import opened Codegen
  import opened Growth
  import opened ControlGrowth
  import opened Lockstep

  // ----- the part of a statement that is generated -----

  /** Nothing behind the statement is generated: it breaks, continues, returns, or is a block that does. */
  predicate Ends(s: Statement)
    decreases s, 1
  {
    match s.kind
    case BreakS | ContinueS | ReturnS => true
    case BlockS => EndsList(s.body)
    case _ => false
  }

  predicate EndsList(ss: seq<Statement>)
    decreases ss, 0
  {
    ss != [] && (Ends(ss[0]) || EndsList(ss[1..]))
  }

  /** The statement without its dead code. */
  function Prune(s: Statement): Statement
    decreases s, 1
  {
    match s.kind
    case BlockS => s.(body := PruneList(s.body))
    case IfS => s.(body := PruneList(s.body), alternative := PruneList(s.alternative))
    case WhileS | ForS => s.(body := PruneList(s.body), alternative := [])
    case _ => s
  }

  function PruneList(ss: seq<Statement>): seq<Statement>
    decreases ss, 0
  {
    if ss == [] then []
    else [Prune(ss[0])] + if Ends(ss[0]) then [] else PruneList(ss[1..])
  }

  /** Operand counts and jumps are as the verifier demands. */
  predicate Formed(s: Statement, loops: nat)
    decreases s, 1
  {
    match s.kind
    case BlockS => FormedList(s.body, loops)
    case IfS => |s.expressions| == 1 && FormedList(s.body, loops) && FormedList(s.alternative, loops)
    case WhileS => |s.expressions| == 1 && FormedList(s.body, loops + 1)
    case ForS => |s.expressions| == 4 && FormedList(s.body, loops + 1)
    case BreakS | ContinueS => loops > 0
    case AssignS | UpdateS => |s.expressions| == 2
    case ExpressionS => |s.expressions| == 1
    case _ => true
  }

  predicate FormedList(ss: seq<Statement>, loops: nat)
    decreases ss, 0
  {
    ss != [] ==> Formed(ss[0], loops) && FormedList(ss[1..], loops)
  }

  // ----- declarations -----

  function DeclaredAll(us: Scopes, ds: seq<Variable>): Scopes
    decreases ds
  {
    if ds == [] || us == [] then us
    else
      var n := |us| - 1;
      DeclaredAll(us[..n] + [us[n][ds[0].name := ds[0]]], ds[1..])
  }

  /** The scopes after a statement by its declarations alone. */
  function Scoped(us: Scopes, s: Statement): Scopes
    decreases s, 1
  {
    match s.kind
    case BlockS => if s.lexical then us else ScopedList(us, s.body)
    case DeclareS => DeclaredAll(us, s.variables)
    case IfS | WhileS | ForS => ScopedList(ScopedList(us, s.body), s.alternative)
    case _ => us
  }

  function ScopedList(us: Scopes, ss: seq<Statement>): Scopes
    decreases ss, 0
  {
    if ss == [] then us else ScopedList(Scoped(us, ss[0]), ss[1..])
  }

  lemma {:induction false} DeclaredIs(w: Env, vs: Scopes, ds: seq<Variable>)
    requires |vs| > 0 && DeclareAll(w, vs, ds).Just?
    ensures DeclareAll(w, vs, ds).value == DeclaredAll(vs, ds)
    decreases ds
  {
    if ds != [] {
      var n := |vs| - 1;
      DeclaredIs(w, vs[..n] + [vs[n][ds[0].name := ds[0]]], ds[1..]);
    }
  }

  /** A checked statement is well formed and leaves the scopes its declarations make. */
  lemma {:induction false} CheckedIs(w: Env, ret: Return, vs: Scopes, loops: nat, s: Statement)
    requires |vs| > 0 && CheckStmt(w, ret, vs, loops, s).Just?
    ensures CheckStmt(w, ret, vs, loops, s).value == Scoped(vs, s) && Formed(s, loops)
    decreases s, 1
  {
    hide ExprsOk;
    match s.kind
    case BlockS =>
      CheckedListIs(w, ret, if s.lexical then vs + [map[]] else vs, loops, s.body);
    case DeclareS => DeclaredIs(w, vs, s.variables);
    case IfS =>
      CheckedListIs(w, ret, vs, loops, s.body);
      CheckedListIs(w, ret, ScopedList(vs, s.body), loops, s.alternative);
    case WhileS | ForS =>
      CheckedListIs(w, ret, vs, loops + 1, s.body);
      CheckedListIs(w, ret, ScopedList(vs, s.body), loops, s.alternative);
    case _ =>
  }

  lemma {:induction false} CheckedListIs(w: Env, ret: Return, vs: Scopes, loops: nat, ss: seq<Statement>)
    requires |vs| > 0 && CheckList(w, ret, vs, loops, ss).Just?
    ensures CheckList(w, ret, vs, loops, ss).value == ScopedList(vs, ss) && FormedList(ss, loops)
    decreases ss, 0
  {
    if ss != [] {
      CheckedIs(w, ret, vs, loops, ss[0]);
      CheckedListIs(w, ret, Scoped(vs, ss[0]), loops, ss[1..]);
    }
  }

  lemma {:induction false} DeclareEachAgrees(w: Env, us: Scopes, g: Gen, ds: seq<Variable>)
    requires Agree(us, g.scopes) && |us| > 0
    ensures Agree(DeclaredAll(us, ds), DeclareEach(w, g, ds).scopes) && |DeclaredAll(us, ds)| == |us|
    ensures DeclareEach(w, g, ds).ok == g.ok
    decreases ds
  {
    if ds != [] {
      var n := |us| - 1;
      AgreeDeclare(us, g.scopes, ds[0].name, Binding(g.slots, ds[0]));
      hide Agree;
      AgreeLength(us, g.scopes);
      DeclareEachAgrees(w, us[..n] + [us[n][ds[0].name := ds[0]]], Declare(w, g, ds[0]), ds[1..]);
    }
  }

  lemma AgreeLength(us: Scopes, bs: Bindings)
    requires Agree(us, bs)
    ensures |us| == |bs|
  {
  }

  // ----- generation ignores dead code -----

  /** What generating a statement does to control and to the scopes, dead code or not. */
  ghost predicate Cut(w: Env, us: Scopes, g: Gen, s: Statement) {
    var h := GenStmt(w, g, s);
    h == GenStmt(w, g, Prune(s)) && (Terminated(h) <==> Ends(s)) && Agree(Scoped(us, Prune(s)), h.scopes) && |h.scopes| == |us|
  }

  ghost predicate CutList(w: Env, us: Scopes, g: Gen, ss: seq<Statement>) {
    var h := GenStmts(w, g, ss);
    && h == GenStmts(w, g, PruneList(ss)) && (Terminated(h) <==> EndsList(ss))
    && Agree(ScopedList(us, PruneList(ss)), h.scopes) && |h.scopes| == |us|
  }

  /** The generator is where the declarations say, ready for a statement. */
  ghost predicate Stands(us: Scopes, g: Gen, loops: nat) {
    Fine(g) && |us| > 0 && Agree(us, g.scopes) && InLoops(loops, g)
  }

  predicate Plain(s: Statement) {
    s.kind == AssignS || s.kind == UpdateS || s.kind == ExpressionS || s.kind == PrintS
  }

  lemma PlainCut(w: Env, us: Scopes, g: Gen, s: Statement, loops: nat)
    requires Stands(us, g, loops) && Formed(s, loops) && Plain(s)
    ensures Cut(w, us, g, s)
  {
    hide Fine, GenExpr, GenPlace, GenPrint, Agree, Grows;
    AgreeLength(us, g.scopes);
    SimpleScopes(w, g, s);
    PlainFine(w, g, s);
    OpenNotEnded(GenStmt(w, g, s));
  }

  lemma PlainFine(w: Env, g: Gen, s: Statement)
    requires Fine(g) && Plain(s) && (s.kind == AssignS || s.kind == UpdateS ==> |s.expressions| == 2)
    requires s.kind == ExpressionS ==> |s.expressions| == 1
    ensures Fine(GenStmt(w, g, s))
  {
    hide Fine, GenExpr, GenPlace, GenPrint, Sealed, Ext, Emit;
    match s.kind
    case AssignS => AssignExtends(w, g, s);
    case UpdateS => UpdateExtends(w, g, s);
    case ExpressionS => ExprGrows(w, g, s.expressions[0]);
    case PrintS => PrintGrows(w, g, s.expressions);
  }

  lemma JumpCut(w: Env, us: Scopes, g: Gen, s: Statement, loops: nat)
    requires Stands(us, g, loops) && Formed(s, loops) && s.kind in {BreakS, ContinueS, ReturnS}
    ensures Cut(w, us, g, s)
  {
    hide Fine, GenExpr, Agree;
    OpenNotEnded(g);
    AgreeLength(us, g.scopes);
    SimpleScopes(w, g, s);
  }

  lemma DeclareCut(w: Env, us: Scopes, g: Gen, s: Statement, loops: nat)
    requires Stands(us, g, loops) && s.kind == DeclareS
    ensures Cut(w, us, g, s)
  {
    hide Fine, Agree, DeclareEach, DeclaredAll, Sealed, Ext;
    DeclareEachAgrees(w, us, g, s.variables);
    DeclareEachExtends(w, g, s.variables);
    AgreeLength(DeclaredAll(us, s.variables), GenStmt(w, g, s).scopes);
    OpenNotEnded(GenStmt(w, g, s));
  }

  lemma {:induction false} CutStmt(w: Env, us: Scopes, g: Gen, s: Statement, loops: nat)
    requires Stands(us, g, loops) && Formed(s, loops)
    ensures Cut(w, us, g, s)
    decreases s, 1
  {
    hide Stands, Cut;
    match s.kind
    case BlockS => BlockCut(w, us, g, s, loops);
    case DeclareS => DeclareCut(w, us, g, s, loops);
    case IfS => IfCut(w, us, g, s, loops);
    case WhileS => WhileCut(w, us, g, s, loops);
    case ForS => ForCut(w, us, g, s, loops);
    case BreakS | ContinueS | ReturnS => JumpCut(w, us, g, s, loops);
    case _ => PlainCut(w, us, g, s, loops);
  }

  lemma {:induction false} BlockCut(w: Env, us: Scopes, g: Gen, s: Statement, loops: nat)
    requires Stands(us, g, loops) && Formed(s, loops) && s.kind == BlockS
    ensures Cut(w, us, g, s)
    decreases s, 0
  {
    if s.lexical {
      var y := g.(scopes := g.scopes + [map[]]);
      InnerStands(us, g, loops);
      hide Fine, Agree, GenStmts;
      AgreeLength(us, g.scopes);
      CutStmts(w, us + [map[]], y, s.body, loops);
    } else {
      hide Fine, Agree, GenStmts;
      CutStmts(w, us, g, s.body, loops);
    }
  }

  lemma InnerStands(us: Scopes, g: Gen, loops: nat)
    requires Stands(us, g, loops)
    ensures Stands(us + [map[]], g.(scopes := g.scopes + [map[]]), loops)
  {
    var bs: Bindings := g.scopes + [map[]];
    forall i | 0 <= i < |bs| ensures ScopeAgrees((us + [map[]])[i], bs[i]) {
      if i < |us| {
        assert ScopeAgrees(us[i], g.scopes[i]);
      }
    }
  }

  lemma {:induction false} CutStmts(w: Env, us: Scopes, g: Gen, ss: seq<Statement>, loops: nat)
    requires Stands(us, g, loops) && FormedList(ss, loops)
    ensures CutList(w, us, g, ss)
    decreases ss, 0
  {
    OpenNotEnded(g);
    StandsLength(us, g, loops);
    if ss != [] {
      CutStmt(w, us, g, ss[0], loops);
      StmtExtends(w, g, ss[0]);
      var h := GenStmt(w, g, ss[0]);
      hide Fine, Agree, GenStmt, Ext, Sealed, Shaped, Terminated;
      if Ends(ss[0]) {
        EndedStmts(w, h, ss[1..]);
        PrunedEnd(us, ss);
        GenOne(w, g, Prune(ss[0]));
      } else {
        ShapedOpen(h);
        CutStmts(w, Scoped(us, Prune(ss[0])), h, ss[1..], loops);
        PrunedTail(ss);
        assert GenStmts(w, g, PruneList(ss)) == GenStmts(w, h, PruneList(ss[1..]));
      }
    }
  }

  lemma PrunedEnd(us: Scopes, ss: seq<Statement>)
    requires ss != [] && Ends(ss[0])
    ensures PruneList(ss) == [Prune(ss[0])] && EndsList(ss)
    ensures ScopedList(us, PruneList(ss)) == Scoped(us, Prune(ss[0]))
  {
    hide Prune, Ends, Scoped;
    assert [Prune(ss[0])][1..] == [];
  }

  lemma GenOne(w: Env, g: Gen, s: Statement)
    requires !Terminated(g)
    ensures GenStmts(w, g, [s]) == GenStmt(w, g, s)
  {
    hide GenStmt, Terminated;
    assert [s][1..] == [];
  }

  lemma StandsLength(us: Scopes, g: Gen, loops: nat)
    requires Stands(us, g, loops)
    ensures |us| == |g.scopes| > 0
  {
  }

  lemma PrunedTail(ss: seq<Statement>)
    requires ss != [] && !Ends(ss[0])
    ensures PruneList(ss)[0] == Prune(ss[0]) && PruneList(ss)[1..] == PruneList(ss[1..]) && PruneList(ss) != []
  {
  }

  // ----- branches and loops -----

  /** A branch or loop keeps its operands; its lists are cut. */
  lemma PruneShape(us: Scopes, s: Statement)
    requires s.kind == IfS || s.kind == WhileS || s.kind == ForS
    ensures var t := Prune(s);
            && t.kind == s.kind && t.expressions == s.expressions && t.body == PruneList(s.body)
            && t.alternative == (if s.kind == IfS then PruneList(s.alternative) else []) && !Ends(s)
            && Scoped(us, t) == ScopedList(ScopedList(us, t.body), t.alternative)
  {
    hide PruneList, ScopedList;
  }

  lemma IfStands(w: Env, us: Scopes, g: Gen, s: Statement, loops: nat)
    requires Stands(us, g, loops) && |s.expressions| == 1
    ensures var y := Resume(IfHead(w, g, s), |g.code|); Stands(us, y, loops) && SameLoops(g, y)
  {
    hide Agree, Closed, Wip, IfHead, Shaped;
    IfHeadStages(w, g, s);
    IfExtends(w, g, s);
  }

  /** The alternative starts with what the body declared. */
  lemma IfElseStands(w: Env, us: Scopes, g: Gen, s: Statement, loops: nat)
    requires Stands(us, g, loops) && |s.expressions| == 1
    requires CutList(w, us, Resume(IfHead(w, g, s), |g.code|), s.body)
    ensures Stands(ScopedList(us, PruneList(s.body)), Resume(IfYes(w, g, s), |g.code| + 1), loops)
  {
    hide Closed, Wip, IfHead, Shaped, GenStmts, ScopeAgrees, Fine, Branch, PruneList, ScopedList;
    IfStands(w, us, g, s, loops);
    IfExtends(w, g, s);
    var y := Resume(IfHead(w, g, s), |g.code|);
    StmtsExtend(w, y, s.body);
    BranchOk(GenStmts(w, y, s.body), |g.code| + 2);
  }

  lemma {:induction false} IfCut(w: Env, us: Scopes, g: Gen, s: Statement, loops: nat)
    requires Stands(us, g, loops) && Formed(s, loops) && s.kind == IfS
    ensures Cut(w, us, g, s)
    decreases s, 0
  {
    hide Fine, Agree, IfHead, GenStmts, Branch, Ext, Extends, PruneList, ScopedList;
    var n := |g.code|;
    IfStands(w, us, g, s, loops);
    CutStmts(w, us, Resume(IfHead(w, g, s), n), s.body, loops);
    IfElseStands(w, us, g, s, loops);
    CutStmts(w, ScopedList(us, PruneList(s.body)), Resume(IfYes(w, g, s), n + 1), s.alternative, loops);
    IfExtends(w, g, s);
    IfHeadSame(w, g, s, Prune(s));
    BranchOk(GenStmts(w, Resume(IfHead(w, g, s), n), s.body), n + 2);
    BranchOk(GenStmts(w, Resume(IfYes(w, g, s), n + 1), s.alternative), n + 2);
    StandsLength(ScopedList(us, PruneList(s.body)), Resume(IfYes(w, g, s), n + 1), loops);
    OpenNotEnded(GenIf(w, g, s));
    PruneShape(us, s);
    IfIs(w, g, s);
    IfIs(w, g, Prune(s));
  }

  lemma IfIs(w: Env, g: Gen, s: Statement)
    requires s.kind == IfS && |s.expressions| == 1
    ensures var n := |g.code|;
            var yes := Branch(GenStmts(w, Resume(IfHead(w, g, s), n), s.body), n + 2);
            && IfYes(w, g, s) == yes
            && GenStmt(w, g, s) == GenIf(w, g, s) == Resume(Branch(GenStmts(w, Resume(yes, n + 1), s.alternative), n + 2), n + 2)
  {
    hide IfHead, GenStmts, Branch;
  }

  lemma IfHeadSame(w: Env, g: Gen, s: Statement, t: Statement)
    requires |s.expressions| == 1 && t.expressions == s.expressions
    ensures IfHead(w, g, s) == IfHead(w, g, t)
  {
    hide GenExpr;
  }

  lemma WhileStands(w: Env, us: Scopes, g: Gen, s: Statement, loops: nat)
    requires Stands(us, g, loops) && |s.expressions| == 1
    ensures Stands(us, WhileEnter(w, g, s), loops + 1)
  {
    hide Agree, Closed, Wip, WhileHead, Shaped;
    WhileHeadStages(w, g, s);
    WhileExtends(w, g, s);
  }

  lemma {:induction false} WhileCut(w: Env, us: Scopes, g: Gen, s: Statement, loops: nat)
    requires Stands(us, g, loops) && Formed(s, loops) && s.kind == WhileS
    ensures Cut(w, us, g, s)
    decreases s, 0
  {
    hide Fine, Agree, WhileEnter, GenStmts, Branch, Ext, Extends, PruneList, ScopedList;
    WhileStands(w, us, g, s, loops);
    CutStmts(w, us, WhileEnter(w, g, s), s.body, loops + 1);
    WhileExtends(w, g, s);
    WhileEnterSame(w, g, s, Prune(s));
    var x := LeaveLoop(GenStmts(w, WhileEnter(w, g, s), s.body), g);
    BranchOk(x, |g.code|);
    NoAlternative(us, PruneList(s.body));
    OpenNotEnded(GenWhile(w, g, s));
    PruneShape(us, s);
    WhileIs(w, g, s);
    WhileIs(w, g, Prune(s));
  }

  lemma WhileIs(w: Env, g: Gen, s: Statement)
    requires s.kind == WhileS && |s.expressions| == 1
    ensures GenStmt(w, g, s) == GenWhile(w, g, s) ==
            Resume(Branch(LeaveLoop(GenStmts(w, WhileEnter(w, g, s), s.body), g), |g.code|), |g.code| + 2)
  {
    hide WhileEnter, GenStmts, Branch;
  }

  lemma NoAlternative(us: Scopes, ss: seq<Statement>)
    ensures ScopedList(ScopedList(us, ss), []) == ScopedList(us, ss)
  {
  }

  lemma WhileEnterSame(w: Env, g: Gen, s: Statement, t: Statement)
    requires |s.expressions| == 1 && t.expressions == s.expressions
    ensures WhileEnter(w, g, s) == WhileEnter(w, g, t)
  {
    hide GenExpr;
  }

  lemma ForStands(w: Env, us: Scopes, g: Gen, s: Statement, loops: nat)
    requires Stands(us, g, loops) && |s.expressions| == 4
    ensures Stands(us, ForEnter(w, g, s), loops + 1)
  {
    hide Agree, Fine, Closed, Wip, ForHead, ForStart, ForEntry, ForTest, Ext, Grows, ForBody, GenFor, ForAdvance;
    ForExtends(w, g, s);
    ForHeadStays(w, g, s);
    EnterKeeps(w, g, s);
  }

  lemma ForHeadStays(w: Env, g: Gen, s: Statement)
    requires Fine(g) && |s.expressions| == 4
    ensures ForHead(w, g, s).scopes == g.scopes
  {
    ForStartGrows(w, g, s);
    ForHeadStages(w, g, s);
  }

  lemma {:induction false} ForCut(w: Env, us: Scopes, g: Gen, s: Statement, loops: nat)
    requires Stands(us, g, loops) && Formed(s, loops) && s.kind == ForS
    ensures Cut(w, us, g, s)
    decreases s, 0
  {
    hide Fine, Agree, ForEnter, ForStart, ForHead, ForEntry, GenStmts, Branch, Ext, Extends, Grows, PruneList, ScopedList, ForAdvance;
    ForStands(w, us, g, s, loops);
    CutStmts(w, us, ForEnter(w, g, s), s.body, loops + 1);
    ForExtends(w, g, s);
    ForSame(w, g, s, Prune(s));
    ForBodyKeeps(w, g, s);
    var n := ForBlock(w, g, s);
    AdvanceOk(MoveTo(ForBody(w, g, s), n + 2), ForStart(w, g, s).o, ForSlot(w, g, s), n);
    NoAlternative(us, PruneList(s.body));
    OpenNotEnded(GenFor(w, g, s));
    PruneShape(us, s);
    ForIs(w, g, s);
    ForIs(w, g, Prune(s));
  }

  lemma ForIs(w: Env, g: Gen, s: Statement)
    requires s.kind == ForS && |s.expressions| == 4
    ensures var n, start := |ForStart(w, g, s).g.code|, ForStart(w, g, s);
            var body := Branch(LeaveLoop(GenStmts(w, ForEnter(w, g, s), s.body), g), n + 2);
            && ForBlock(w, g, s) == n && ForBody(w, g, s) == body
            && GenStmt(w, g, s) == GenFor(w, g, s) == Resume(ForAdvance(Resume(body, n + 2), start.o, start.g.steps, n), n + 3)
  {
    hide ForEnter, ForStart, GenStmts, Branch, ForAdvance;
  }

  lemma ForSame(w: Env, g: Gen, s: Statement, t: Statement)
    requires |s.expressions| == 4 && t.expressions == s.expressions
    ensures ForEnter(w, g, s) == ForEnter(w, g, t) && ForStart(w, g, s) == ForStart(w, g, t)
  {
    hide GenExpr, GenPlace;
  }

  // ----- names, as the generator looks them up -----

  /** Every lookup made while generating the statement finds the declaration the verifier resolved the name to. */
  predicate StmtFinds(w: Env, vs: Scopes, g: Gen, s: Statement)
    decreases s, 1
  {
    && FindsAll(w, vs, g.scopes, s.expressions)
    && match s.kind
       case BlockS =>
         if s.lexical then ListFinds(w, vs + [map[]], g.(scopes := g.scopes + [map[]]), s.body) else ListFinds(w, vs, g, s.body)
       case IfS =>
         |s.expressions| == 1 ==>
           && ListFinds(w, vs, Resume(IfHead(w, g, s), |g.code|), s.body)
           && ListFinds(w, ScopedList(vs, s.body), Resume(IfYes(w, g, s), |g.code| + 1), s.alternative)
       case WhileS => |s.expressions| == 1 ==> ListFinds(w, vs, WhileEnter(w, g, s), s.body)
       case ForS => |s.expressions| == 4 ==> ListFinds(w, vs, ForEnter(w, g, s), s.body)
       case _ => true
  }

  predicate ListFinds(w: Env, vs: Scopes, g: Gen, ss: seq<Statement>)
    decreases ss, 0
  {
    ss == [] || Terminated(g) ||
    (StmtFinds(w, vs, g, ss[0]) && ListFinds(w, Scoped(vs, ss[0]), GenStmt(w, g, ss[0]), ss[1..]))
  }

  // ----- names, with and without the dead code -----

  /** The name means the same declaration, at the same level, in both scopes. */
  predicate KeepsName(w: Env, vs: Scopes, us: Scopes, name: string) {
    var i := Innermost(us, name);
    i == Innermost(vs, name) && Lookup(w, vs, name).Just? && (i >= 0 ==> us[i][name] == vs[i][name])
  }

  predicate Keeps(w: Env, vs: Scopes, us: Scopes, e: Expression) {
    && (Named(e) ==> KeepsName(w, vs, us, e.name))
    && forall i | 0 <= i < |e.operands| :: Keeps(w, vs, us, e.operands[i])
  }

  predicate KeepsAll(w: Env, vs: Scopes, us: Scopes, es: seq<Expression>) {
    forall i | 0 <= i < |es| :: Keeps(w, vs, us, es[i])
  }

  /**
  Every name outside dead code has the declaration it has when dead code is cut away: `vs` are
  the scopes of the whole program, `us` those of the program without its dead code.
  */
  predicate Kept(w: Env, vs: Scopes, us: Scopes, s: Statement)
    decreases s, 1
  {
    && KeepsAll(w, vs, us, s.expressions)
    && match s.kind
       case BlockS => if s.lexical then KeptList(w, vs + [map[]], us + [map[]], s.body) else KeptList(w, vs, us, s.body)
       case IfS =>
         && KeptList(w, vs, us, s.body)
         && KeptList(w, ScopedList(vs, s.body), ScopedList(us, PruneList(s.body)), s.alternative)
       case WhileS | ForS => KeptList(w, vs, us, s.body)
       case _ => true
  }

  predicate KeptList(w: Env, vs: Scopes, us: Scopes, ss: seq<Statement>)
    decreases ss, 0
  {
    ss == [] || (Kept(w, vs, us, ss[0]) && (Ends(ss[0]) || KeptList(w, Scoped(vs, ss[0]), Scoped(us, Prune(ss[0])), ss[1..])))
  }

  lemma SameName(w: Env, vs: Scopes, us: Scopes, bs: Bindings, name: string)
    requires Agree(us, bs)
    ensures FindsName(w, vs, bs, name) <==> KeepsName(w, vs, us, name)
  {
    forall i | 0 <= i < |us| ensures us[i].Keys == bs[i].Keys {
      assert ScopeAgrees(us[i], bs[i]);
    }
    InnermostSame(us, bs, name);
    var i := Innermost(us, name);
    if i >= 0 {
      assert ScopeAgrees(us[i], bs[i]);
    }
  }

  lemma {:induction false} SameNames(w: Env, vs: Scopes, us: Scopes, bs: Bindings, e: Expression)
    requires Agree(us, bs)
    ensures Finds(w, vs, bs, e) <==> Keeps(w, vs, us, e)
    decreases e
  {
    hide Agree, FindsName, KeepsName;
    SameName(w, vs, us, bs, e.name);
    forall i | 0 <= i < |e.operands| ensures Finds(w, vs, bs, e.operands[i]) <==> Keeps(w, vs, us, e.operands[i]) {
      SameNames(w, vs, us, bs, e.operands[i]);
    }
  }

  lemma SameNamesAll(w: Env, vs: Scopes, us: Scopes, bs: Bindings, es: seq<Expression>)
    requires Agree(us, bs)
    ensures FindsAll(w, vs, bs, es) <==> KeepsAll(w, vs, us, es)
  {
    hide Agree, Finds, Keeps;
    forall i | 0 <= i < |es| ensures Finds(w, vs, bs, es[i]) <==> Keeps(w, vs, us, es[i]) {
      SameNames(w, vs, us, bs, es[i]);
    }
  }

  // ----- the two agree, and then generation is total -----

  ghost predicate Exact(w: Env, vs: Scopes, us: Scopes, g: Gen, s: Statement) {
    (StmtFinds(w, vs, g, s) <==> Kept(w, vs, us, s)) && (StmtFinds(w, vs, g, s) && g.ok ==> GenStmt(w, g, s).ok)
  }

  ghost predicate ExactList(w: Env, vs: Scopes, us: Scopes, g: Gen, ss: seq<Statement>) {
    (ListFinds(w, vs, g, ss) <==> KeptList(w, vs, us, ss)) && (ListFinds(w, vs, g, ss) && g.ok ==> GenStmts(w, g, ss).ok)
  }

  predicate Checked(w: Env, ret: Return, vs: Scopes, loops: nat, s: Statement) {
    |vs| > 0 && CheckStmt(w, ret, vs, loops, s).Just?
  }

  predicate CheckedAll(w: Env, ret: Return, vs: Scopes, loops: nat, ss: seq<Statement>) {
    |vs| > 0 && CheckList(w, ret, vs, loops, ss).Just?
  }

  lemma OwnNames(w: Env, vs: Scopes, us: Scopes, g: Gen, s: Statement, loops: nat)
    requires Stands(us, g, loops)
    ensures FindsAll(w, vs, g.scopes, s.expressions) <==> KeepsAll(w, vs, us, s.expressions)
  {
    hide Fine, Agree, FindsAll, KeepsAll;
    SameNamesAll(w, vs, us, g.scopes, s.expressions);
  }

  lemma OwnRules(w: Env, ret: Return, vs: Scopes, loops: nat, s: Statement)
    requires Checked(w, ret, vs, loops, s)
    ensures ExprsOk(w, vs, s.expressions) && OperandsOk(w, ret, loops, s) && Formed(s, loops)
  {
    CheckedIs(w, ret, vs, loops, s);
  }

  lemma {:induction false} ExactStmt(w: Env, ret: Return, vs: Scopes, us: Scopes, loops: nat, g: Gen, s: Statement)
    requires Stands(us, g, loops) && Checked(w, ret, vs, loops, s)
    ensures Exact(w, vs, us, g, s)
    decreases s, 1
  {
    hide Stands, Checked, Exact;
    match s.kind
    case BlockS => BlockExact(w, ret, vs, us, loops, g, s);
    case DeclareS => DeclareExact(w, ret, vs, us, loops, g, s);
    case IfS => IfExact(w, ret, vs, us, loops, g, s);
    case WhileS => WhileExact(w, ret, vs, us, loops, g, s);
    case ForS => ForExact(w, ret, vs, us, loops, g, s);
    case _ => SimpleExact(w, ret, vs, us, loops, g, s);
  }

  lemma SimpleExact(w: Env, ret: Return, vs: Scopes, us: Scopes, loops: nat, g: Gen, s: Statement)
    requires Stands(us, g, loops) && Checked(w, ret, vs, loops, s)
    requires s.kind in {AssignS, UpdateS, ExpressionS, PrintS, BreakS, ContinueS, ReturnS}
    ensures Exact(w, vs, us, g, s)
  {
    hide Fine, Agree, FindsAll, KeepsAll, GenStmt, Checked, ExprsOk, OperandsOk, Formed;
    OwnNames(w, vs, us, g, s, loops);
    OwnRules(w, ret, vs, loops, s);
    if FindsAll(w, vs, g.scopes, s.expressions) && g.ok {
      SimpleFound(w, ret, vs, loops, g, s);
    }
  }

  lemma DeclareExact(w: Env, ret: Return, vs: Scopes, us: Scopes, loops: nat, g: Gen, s: Statement)
    requires Stands(us, g, loops) && Checked(w, ret, vs, loops, s) && s.kind == DeclareS
    ensures Exact(w, vs, us, g, s)
  {
    hide Fine, Agree, FindsAll, KeepsAll, DeclareEach, Checked, DeclaredAll, ExprsOk, OperandsOk, Formed;
    OwnNames(w, vs, us, g, s, loops);
    DeclareEachAgrees(w, us, g, s.variables);
  }

  lemma {:induction false} BlockExact(w: Env, ret: Return, vs: Scopes, us: Scopes, loops: nat, g: Gen, s: Statement)
    requires Stands(us, g, loops) && Checked(w, ret, vs, loops, s) && s.kind == BlockS
    ensures Exact(w, vs, us, g, s)
    decreases s, 0
  {
    hide Stands, CheckedAll, Checked, FindsAll, KeepsAll, GenStmts, ListFinds, KeptList;
    BlockRules(w, ret, vs, loops, s);
    OwnNames(w, vs, us, g, s, loops);
    if s.lexical {
      InnerStands(us, g, loops);
      ExactStmts(w, ret, vs + [map[]], us + [map[]], loops, g.(scopes := g.scopes + [map[]]), s.body);
    } else {
      ExactStmts(w, ret, vs, us, loops, g, s.body);
    }
  }

  lemma BlockRules(w: Env, ret: Return, vs: Scopes, loops: nat, s: Statement)
    requires Checked(w, ret, vs, loops, s) && s.kind == BlockS
    ensures CheckedAll(w, ret, if s.lexical then vs + [map[]] else vs, loops, s.body)
  {
  }

  lemma {:induction false} ExactStmts(w: Env, ret: Return, vs: Scopes, us: Scopes, loops: nat, g: Gen, ss: seq<Statement>)
    requires Stands(us, g, loops) && CheckedAll(w, ret, vs, loops, ss)
    ensures ExactList(w, vs, us, g, ss)
    decreases ss, 0
  {
    StandsOpen(us, g, loops);
    if ss != [] {
      ListRules(w, ret, vs, loops, ss);
      ExactStmt(w, ret, vs, us, loops, g, ss[0]);
      OwnRules(w, ret, vs, loops, ss[0]);
      CutStmt(w, us, g, ss[0], loops);
      var h := GenStmt(w, g, ss[0]);
      hide Stands, CheckedAll, Checked, GenStmt, Terminated, StmtFinds, Kept, Agree;
      if Ends(ss[0]) {
        EndedStmts(w, h, ss[1..]);
        assert ListFinds(w, Scoped(vs, ss[0]), h, ss[1..]);
      } else {
        NextStands(w, us, g, ss[0], loops);
        ExactStmts(w, ret, Scoped(vs, ss[0]), Scoped(us, Prune(ss[0])), loops, h, ss[1..]);
      }
    }
  }

  lemma StandsOpen(us: Scopes, g: Gen, loops: nat)
    requires Stands(us, g, loops)
    ensures !Terminated(g)
  {
    OpenNotEnded(g);
  }

  lemma ListRules(w: Env, ret: Return, vs: Scopes, loops: nat, ss: seq<Statement>)
    requires CheckedAll(w, ret, vs, loops, ss) && ss != []
    ensures Checked(w, ret, vs, loops, ss[0]) && CheckedAll(w, ret, Scoped(vs, ss[0]), loops, ss[1..])
  {
    CheckedIs(w, ret, vs, loops, ss[0]);
  }

  lemma NextStands(w: Env, us: Scopes, g: Gen, s: Statement, loops: nat)
    requires Stands(us, g, loops) && Cut(w, us, g, s) && !Ends(s)
    ensures Stands(Scoped(us, Prune(s)), GenStmt(w, g, s), loops)
  {
    hide Sealed, Ext, GenStmt, ScopeAgrees, Terminated, Prune, Scoped;
    StmtExtends(w, g, s);
    ShapedOpen(GenStmt(w, g, s));
  }

  lemma BranchRules(w: Env, ret: Return, vs: Scopes, loops: nat, s: Statement)
    requires Checked(w, ret, vs, loops, s) && (s.kind == IfS || s.kind == WhileS || s.kind == ForS)
    ensures CheckedAll(w, ret, vs, if s.kind == IfS then loops else loops + 1, s.body)
    ensures CheckedAll(w, ret, ScopedList(vs, s.body), loops, s.alternative)
  {
    hide ExprsOk, OperandsOk, CheckList;
    assert CheckBranches(w, ret, vs, if s.kind == IfS then loops else loops + 1, loops, s).Just?;
    CheckedListIs(w, ret, vs, if s.kind == IfS then loops else loops + 1, s.body);
  }

  lemma {:induction false} IfExact(w: Env, ret: Return, vs: Scopes, us: Scopes, loops: nat, g: Gen, s: Statement)
    requires Stands(us, g, loops) && Checked(w, ret, vs, loops, s) && s.kind == IfS
    ensures Exact(w, vs, us, g, s)
    decreases s, 0
  {
    hide Stands, CheckedAll, Checked, FindsAll, KeepsAll, ListFinds, KeptList, IfHead, IfYes, GenIf, ExprsOk, PruneList, ScopedList;
    OwnNames(w, vs, us, g, s, loops);
    OwnRules(w, ret, vs, loops, s);
    BranchRules(w, ret, vs, loops, s);
    var n := |g.code|;
    var y, z := Resume(IfHead(w, g, s), n), Resume(IfYes(w, g, s), n + 1);
    IfStands(w, us, g, s, loops);
    ExactStmts(w, ret, vs, us, loops, y, s.body);
    CutStmts(w, us, y, s.body, loops);
    IfElseStands(w, us, g, s, loops);
    ExactStmts(w, ret, ScopedList(vs, s.body), ScopedList(us, PruneList(s.body)), loops, z, s.alternative);
    if StmtFinds(w, vs, g, s) && g.ok {
      IfOk(w, vs, us, g, s, loops);
    }
  }

  lemma IfOk(w: Env, vs: Scopes, us: Scopes, g: Gen, s: Statement, loops: nat)
    requires s.kind == IfS && |s.expressions| == 1 && Stands(us, g, loops) && Prepared(w, vs, g, s.expressions)
    requires var y := Resume(IfHead(w, g, s), |g.code|); y.ok ==> GenStmts(w, y, s.body).ok
    requires var z := Resume(IfYes(w, g, s), |g.code| + 1); z.ok ==> GenStmts(w, z, s.alternative).ok
    ensures GenStmt(w, g, s).ok
  {
    hide Agree, Fine, IfHead, GenStmts, Branch, Prepared, Ext, Extends;
    var n := |g.code|;
    IfHeadFound(w, vs, g, s);
    IfExtends(w, g, s);
    IfIs(w, g, s);
    BranchOk(GenStmts(w, Resume(IfHead(w, g, s), n), s.body), n + 2);
    BranchOk(GenStmts(w, Resume(IfYes(w, g, s), n + 1), s.alternative), n + 2);
  }

  lemma {:induction false} WhileExact(w: Env, ret: Return, vs: Scopes, us: Scopes, loops: nat, g: Gen, s: Statement)
    requires Stands(us, g, loops) && Checked(w, ret, vs, loops, s) && s.kind == WhileS
    ensures Exact(w, vs, us, g, s)
    decreases s, 0
  {
    hide Stands, CheckedAll, Checked, FindsAll, KeepsAll, ListFinds, KeptList, WhileEnter, GenWhile, ExprsOk;
    OwnNames(w, vs, us, g, s, loops);
    OwnRules(w, ret, vs, loops, s);
    BranchRules(w, ret, vs, loops, s);
    WhileStands(w, us, g, s, loops);
    ExactStmts(w, ret, vs, us, loops + 1, WhileEnter(w, g, s), s.body);
    if StmtFinds(w, vs, g, s) && g.ok {
      WhileOk(w, vs, us, g, s, loops);
    }
  }

  lemma WhileOk(w: Env, vs: Scopes, us: Scopes, g: Gen, s: Statement, loops: nat)
    requires s.kind == WhileS && |s.expressions| == 1 && Stands(us, g, loops) && Prepared(w, vs, g, s.expressions)
    requires var y := WhileEnter(w, g, s); y.ok ==> GenStmts(w, y, s.body).ok
    ensures GenStmt(w, g, s).ok
  {
    hide Agree, Fine, WhileHead, GenStmts, Branch, Prepared, Ext, Extends;
    WhileHeadFound(w, vs, g, s);
    WhileExtends(w, g, s);
    WhileIs(w, g, s);
    BranchOk(LeaveLoop(GenStmts(w, WhileEnter(w, g, s), s.body), g), |g.code|);
  }

  lemma {:induction false} ForExact(w: Env, ret: Return, vs: Scopes, us: Scopes, loops: nat, g: Gen, s: Statement)
    requires Stands(us, g, loops) && Checked(w, ret, vs, loops, s) && s.kind == ForS
    ensures Exact(w, vs, us, g, s)
    decreases s, 0
  {
    hide Stands, CheckedAll, Checked, FindsAll, KeepsAll, ListFinds, KeptList, ForEnter, GenFor, ExprsOk;
    OwnNames(w, vs, us, g, s, loops);
    OwnRules(w, ret, vs, loops, s);
    BranchRules(w, ret, vs, loops, s);
    ForStands(w, us, g, s, loops);
    ExactStmts(w, ret, vs, us, loops + 1, ForEnter(w, g, s), s.body);
    if StmtFinds(w, vs, g, s) && g.ok {
      ForOk(w, vs, us, g, s, loops);
    }
  }

  lemma ForOk(w: Env, vs: Scopes, us: Scopes, g: Gen, s: Statement, loops: nat)
    requires s.kind == ForS && |s.expressions| == 4 && Stands(us, g, loops) && Prepared(w, vs, g, s.expressions)
    requires Assignable(s.expressions[0])
    requires var y := ForEnter(w, g, s); y.ok ==> GenStmts(w, y, s.body).ok
    ensures GenStmt(w, g, s).ok
  {
    hide Agree, Fine, ForHead, ForStart, ForEntry, GenStmts, Branch, Prepared, Ext, Extends, Grows, ForEnter, ForAdvance;
    ForHeadFound(w, vs, g, s);
    ForExtends(w, g, s);
    EnterKeeps(w, g, s);
    ForIs(w, g, s);
    ForBodyKeeps(w, g, s);
    var n := ForBlock(w, g, s);
    AdvanceOk(MoveTo(ForBody(w, g, s), n + 2), ForStart(w, g, s).o, ForSlot(w, g, s), n);
  }

  // ----- functions and programs -----

  function BodyStart(w: Env, ps: seq<Variable>): Gen {
    GenParameters(w, EntryState(|ps|), ps, 0)
  }

  predicate FunctionFinds(w: Env, ps: seq<Variable>, body: Statement) {
    StmtFinds(w, [ParameterScope(ps)], BodyStart(w, ps), body)
  }

  predicate FunctionKept(w: Env, ps: seq<Variable>, body: Statement) {
    Kept(w, [ParameterScope(ps)], [ParameterScope(ps)], body)
  }

  lemma StartStands(w: Env, ps: seq<Variable>)
    ensures Stands([ParameterScope(ps)], BodyStart(w, ps), 0) && BodyStart(w, ps).ok
  {
    var e := EntryState(|ps|);
    assert ps[..0] == [];
    assert Tracks([ParameterScope(ps[..0])], e);
    ParametersTrack(w, e, ps, 0);
    assert Fine(e);
    ParametersExtend(w, e, ps, 0);
    hide Fine, Agree, Separate;
  }

  /** Dead code changes no instruction; lookups are exact as the names are kept, and then none fails. */
  lemma FunctionExact(w: Env, ret: Return, ps: seq<Variable>, body: Statement, ending: Ending)
    requires Checked(w, ret, [ParameterScope(ps)], 0, body)
    ensures GenFunction(w, ps, body, ending) == GenFunction(w, ps, Prune(body), ending)
    ensures FunctionFinds(w, ps, body) <==> FunctionKept(w, ps, body)
    ensures FunctionKept(w, ps, body) ==> GenFunction(w, ps, body, ending).ok
    ensures FunctionKept(w, ps, body) ==> Checked(w, ret, [ParameterScope(ps)], 0, Prune(body))
  {
    hide Stands, Checked, StmtFinds, Kept, GenStmt, GenParameters, Within;
    if FunctionKept(w, ps, body) {
      WithinSelf([ParameterScope(ps)]);
      PrunedChecks(w, ret, [ParameterScope(ps)], [ParameterScope(ps)], 0, body);
    }
    var vs, g := [ParameterScope(ps)], BodyStart(w, ps);
    StartStands(w, ps);
    OwnRules(w, ret, vs, 0, body);
    CutStmt(w, vs, g, body, 0);
    ExactStmt(w, ret, vs, vs, 0, g, body);
    FinishOk(GenStmt(w, g, body), ending);
  }

  lemma FinishOk(g: Gen, ending: Ending)
    ensures Finish(g, ending).ok == g.ok
  {
  }

  /** Every lookup made while generating the program finds the verifier's declaration. */
  ghost predicate ProgramFinds(p: Program, floats: FloatSem) {
    var w := Tables(p, floats);
    FunctionFinds(w, [], p.body) && forall f <- p.functions :: FunctionFinds(w, f.parameters, f.body)
  }

  /** Cutting away dead code changes no name's declaration. */
  ghost predicate ProgramKept(p: Program, floats: FloatSem) {
    var w := Tables(p, floats);
    FunctionKept(w, [], p.body) && forall f <- p.functions :: FunctionKept(w, f.parameters, f.body)
  }

  ghost predicate ProgramLowers(p: Program, floats: FloatSem) {
    var w := Tables(p, floats);
    && GenFunction(w, [], p.body, Exit).ok
    && forall f <- p.functions :: GenFunction(w, f.parameters, f.body, EndingOf(f)).ok
  }

  lemma CheckedFunctions(p: Program, floats: FloatSem)
    requires ProgramOk(p, floats)
    ensures var w := Tables(p, floats);
            && Checked(w, Return(Int32, ""), [ParameterScope([])], 0, p.body)
            && forall f <- p.functions :: Checked(w, Return(f.result, f.resultComposite), [ParameterScope(f.parameters)], 0, f.body)
  {
    hide CheckStmt, CompositeOk, VariableOk, SignatureOk;
  }

  /** For accepted programs the generator's lookups are the verifier's exactly when names are kept; lowering is then total. */
  lemma LookupsAreExact(p: Program, floats: FloatSem)
    requires ProgramOk(p, floats)
    ensures ProgramFinds(p, floats) <==> ProgramKept(p, floats)
    ensures ProgramKept(p, floats) ==> ProgramLowers(p, floats)
  {
    hide ProgramOk, Checked, FunctionFinds, FunctionKept, GenFunction, Tables;
    var w := Tables(p, floats);
    CheckedFunctions(p, floats);
    FunctionExact(w, Return(Int32, ""), [], p.body, Exit);
    forall f <- p.functions
      ensures FunctionFinds(w, f.parameters, f.body) <==> FunctionKept(w, f.parameters, f.body)
      ensures FunctionKept(w, f.parameters, f.body) ==> GenFunction(w, f.parameters, f.body, EndingOf(f)).ok
    {
      FunctionExact(w, Return(f.result, f.resultComposite), f.parameters, f.body, EndingOf(f));
    }
  }

  // ----- placed declarations keep names -----

  /** Away from declaration positions no scope changes. */
  lemma {:induction false} UnplacedScopes(us: Scopes, s: Statement)
    requires Placed(s, false)
    ensures Scoped(us, s) == us && Scoped(us, Prune(s)) == us
    decreases s, 1
  {
    match s.kind
    case BlockS =>
      if !s.lexical {
        UnplacedList(us, s.body);
      }
    case IfS | WhileS | ForS =>
      UnplacedList(us, s.body);
      UnplacedList(us, s.alternative);
      PruneShape(us, s);
    case _ =>
  }

  lemma {:induction false} UnplacedList(us: Scopes, ss: seq<Statement>)
    requires PlacedAll(ss, false)
    ensures ScopedList(us, ss) == us && ScopedList(us, PruneList(ss)) == us
    decreases ss, 0
  {
    hide Scoped, Prune, Placed;
    if ss != [] {
      UnplacedScopes(us, ss[0]);
      UnplacedList(us, ss[1..]);
      if Ends(ss[0]) {
        PrunedEnd(us, ss);
      } else {
        PrunedTail(ss);
      }
    }
  }

  /** Up to its end a statement with placed declarations declares what it declares without dead code. */
  lemma {:induction false} PlacedScopes(us: Scopes, s: Statement, here: bool)
    requires Placed(s, here) && !Ends(s)
    ensures Scoped(us, Prune(s)) == Scoped(us, s)
    decreases s, 1
  {
    match s.kind
    case BlockS =>
      if !s.lexical {
        PlacedListScopes(us, s.body, here);
      }
    case IfS | WhileS | ForS => UnplacedScopes(us, s);
    case _ =>
  }

  lemma {:induction false} PlacedListScopes(us: Scopes, ss: seq<Statement>, here: bool)
    requires PlacedAll(ss, here) && !EndsList(ss)
    ensures ScopedList(us, PruneList(ss)) == ScopedList(us, ss)
    decreases ss, 0
  {
    hide Scoped, Prune, Placed, Ends;
    if ss != [] {
      PlacedScopes(us, ss[0], here);
      PlacedListScopes(Scoped(us, ss[0]), ss[1..], here);
      PrunedTail(ss);
    }
  }

  lemma {:induction false} KeepsSelf(w: Env, vs: Scopes, e: Expression)
    requires ExprOk(w, vs, e)
    ensures Keeps(w, vs, vs, e)
    decreases e
  {
    hide NodeOk;
    NamesResolve(w, vs, e);
    forall i | 0 <= i < |e.operands| ensures Keeps(w, vs, vs, e.operands[i]) {
      KeepsSelf(w, vs, e.operands[i]);
    }
  }

  lemma KeepsAllSelf(w: Env, vs: Scopes, es: seq<Expression>)
    requires ExprsOk(w, vs, es)
    ensures KeepsAll(w, vs, vs, es)
  {
    hide ExprOk, Keeps;
    forall i | 0 <= i < |es| ensures Keeps(w, vs, vs, es[i]) {
      KeepsSelf(w, vs, es[i]);
    }
  }

  lemma {:induction false} PlacedKept(w: Env, ret: Return, vs: Scopes, loops: nat, s: Statement, here: bool)
    requires Checked(w, ret, vs, loops, s) && Placed(s, here)
    ensures Kept(w, vs, vs, s)
    decreases s, 1
  {
    hide Checked, CheckedAll, KeepsAll, ExprsOk, OperandsOk, Formed;
    OwnRules(w, ret, vs, loops, s);
    KeepsAllSelf(w, vs, s.expressions);
    match s.kind
    case BlockS =>
      BlockRules(w, ret, vs, loops, s);
      PlacedListKept(w, ret, if s.lexical then vs + [map[]] else vs, loops, s.body, here || s.lexical);
    case IfS =>
      BranchRules(w, ret, vs, loops, s);
      UnplacedList(vs, s.body);
      PlacedListKept(w, ret, vs, loops, s.body, false);
      PlacedListKept(w, ret, vs, loops, s.alternative, false);
    case WhileS | ForS =>
      BranchRules(w, ret, vs, loops, s);
      PlacedListKept(w, ret, vs, loops + 1, s.body, false);
    case _ =>
  }

  lemma {:induction false} PlacedListKept(w: Env, ret: Return, vs: Scopes, loops: nat, ss: seq<Statement>, here: bool)
    requires CheckedAll(w, ret, vs, loops, ss) && PlacedAll(ss, here)
    ensures KeptList(w, vs, vs, ss)
    decreases ss, 0
  {
    if ss != [] {
      ListRules(w, ret, vs, loops, ss);
      hide Checked, CheckedAll, Kept, Scoped, Prune, Placed, Ends;
      PlacedKept(w, ret, vs, loops, ss[0], here);
      if !Ends(ss[0]) {
        PlacedScopes(vs, ss[0], here);
        PlacedListKept(w, ret, Scoped(vs, ss[0]), loops, ss[1..], here);
      }
    }
  }

  /** The placement rule is a special case. */
  lemma PlacedProgramsKeepNames(p: Program, floats: FloatSem)
    requires ProgramOk(p, floats) && ProgramPlaced(p)
    ensures ProgramKept(p, floats)
  {
    hide ProgramOk, Checked, Kept, Placed, Tables, ParameterScope;
    var w := Tables(p, floats);
    CheckedFunctions(p, floats);
    PlacedKept(w, Return(Int32, ""), [ParameterScope([])], 0, p.body, true);
    forall f <- p.functions ensures FunctionKept(w, f.parameters, f.body) {
      PlacedKept(w, Return(f.result, f.resultComposite), [ParameterScope(f.parameters)], 0, f.body, true);
    }
  }

  // ----- the cut program is accepted -----

  /** Scope by scope, `us` declares no name that `vs` does not. */
  ghost predicate Within(us: Scopes, vs: Scopes) {
    |us| == |vs| > 0 && forall i | 0 <= i < |us| :: us[i].Keys <= vs[i].Keys
  }

  lemma WithinTrans(a: Scopes, b: Scopes, c: Scopes)
    requires Within(a, b) && Within(b, c)
    ensures Within(a, c)
  {
  }

  lemma WithinDeclared(us: Scopes, vs: Scopes, d: Variable)
    requires Within(us, vs)
    ensures var n := |us| - 1; Within(us[..n] + [us[n][d.name := d]], vs[..n] + [vs[n][d.name := d]])
    ensures var n := |us| - 1; Within(us, us[..n] + [us[n][d.name := d]])
  {
    var n := |us| - 1;
    var us', vs' := us[..n] + [us[n][d.name := d]], vs[..n] + [vs[n][d.name := d]];
    forall i | 0 <= i < |us'| ensures us'[i].Keys <= vs'[i].Keys && us[i].Keys <= us'[i].Keys {
      assert us[i].Keys <= vs[i].Keys;
    }
  }

  lemma {:induction false} DeclaresWithin(us: Scopes, vs: Scopes, ds: seq<Variable>)
    requires Within(us, vs)
    ensures Within(DeclaredAll(us, ds), DeclaredAll(vs, ds)) && Within(us, DeclaredAll(us, ds))
    decreases ds
  {
    if ds != [] {
      var n := |us| - 1;
      WithinDeclared(us, vs, ds[0]);
      hide Within;
      var us', vs' := us[..n] + [us[n][ds[0].name := ds[0]]], vs[..n] + [vs[n][ds[0].name := ds[0]]];
      DeclaresWithin(us', vs', ds[1..]);
      WithinTrans(us, us', DeclaredAll(us', ds[1..]));
    }
  }

  lemma WithinSelf(vs: Scopes)
    requires |vs| > 0
    ensures Within(vs, vs)
  {
  }

  lemma {:induction false} ScopesGrow(vs: Scopes, s: Statement)
    requires |vs| > 0
    ensures Within(vs, Scoped(vs, s))
    decreases s, 1
  {
    hide Within;
    WithinSelf(vs);
    match s.kind
    case BlockS => ListScopesGrow(vs, s.body);
    case DeclareS => DeclaresWithin(vs, vs, s.variables);
    case IfS | WhileS | ForS =>
      ListScopesGrow(vs, s.body);
      WithinLength(vs, ScopedList(vs, s.body));
      ListScopesGrow(ScopedList(vs, s.body), s.alternative);
      WithinTrans(vs, ScopedList(vs, s.body), Scoped(vs, s));
    case _ =>
  }

  lemma WithinLength(us: Scopes, vs: Scopes)
    requires Within(us, vs)
    ensures |us| == |vs| > 0
  {
  }

  lemma {:induction false} ListScopesGrow(vs: Scopes, ss: seq<Statement>)
    requires |vs| > 0
    ensures Within(vs, ScopedList(vs, ss))
    decreases ss, 0
  {
    hide Within, Scoped;
    WithinSelf(vs);
    if ss != [] {
      ScopesGrow(vs, ss[0]);
      WithinLength(vs, Scoped(vs, ss[0]));
      ListScopesGrow(Scoped(vs, ss[0]), ss[1..]);
      WithinTrans(vs, Scoped(vs, ss[0]), ScopedList(vs, ss));
    }
  }

  lemma {:induction false} ScopesWithin(us: Scopes, vs: Scopes, s: Statement)
    requires Within(us, vs)
    ensures Within(Scoped(us, Prune(s)), Scoped(vs, s))
    decreases s, 1
  {
    hide Within;
    match s.kind
    case BlockS => ListScopesWithin(us, vs, s.body);
    case DeclareS => DeclaresWithin(us, vs, s.variables);
    case IfS | WhileS | ForS =>
      ListScopesWithin(us, vs, s.body);
      var us', vs' := ScopedList(us, PruneList(s.body)), ScopedList(vs, s.body);
      WithinLength(us', vs');
      ListScopesWithin(us', vs', s.alternative);
      ListScopesGrow(vs', s.alternative);
      WithinTrans(us', vs', Scoped(vs, s));
      PruneShape(us, s);
      NoAlternative(us, PruneList(s.body));
    case _ =>
  }

  lemma {:induction false} ListScopesWithin(us: Scopes, vs: Scopes, ss: seq<Statement>)
    requires Within(us, vs)
    ensures Within(ScopedList(us, PruneList(ss)), ScopedList(vs, ss))
    decreases ss, 0
  {
    hide Within, Scoped, Prune, Ends;
    if ss != [] {
      ScopesWithin(us, vs, ss[0]);
      var us', vs' := Scoped(us, Prune(ss[0])), Scoped(vs, ss[0]);
      WithinLength(us', vs');
      if Ends(ss[0]) {
        PrunedEnd(us, ss);
        ListScopesGrow(vs', ss[1..]);
        WithinTrans(us', vs', ScopedList(vs, ss));
      } else {
        ListScopesWithin(us', vs', ss[1..]);
        PrunedTail(ss);
      }
    }
  }

  lemma KeptLookup(w: Env, vs: Scopes, us: Scopes, name: string)
    requires KeepsName(w, vs, us, name)
    ensures Lookup(w, us, name) == Lookup(w, vs, name) && Innermost(us, name) == Innermost(vs, name)
  {
  }

  lemma {:induction false} KeptExprOk(w: Env, vs: Scopes, us: Scopes, e: Expression)
    requires ExprOk(w, vs, e) && Keeps(w, vs, us, e)
    ensures ExprOk(w, us, e)
    decreases e
  {
    hide KeepsName, Lookup, ValueType, BinaryOk, ArgumentsOk, FieldsOk;
    if Named(e) {
      KeptLookup(w, vs, us, e.name);
    }
    forall i | 0 <= i < |e.operands| ensures ExprOk(w, us, e.operands[i]) {
      KeptExprOk(w, vs, us, e.operands[i]);
    }
  }

  lemma KeptExprsOk(w: Env, vs: Scopes, us: Scopes, es: seq<Expression>)
    requires ExprsOk(w, vs, es) && KeepsAll(w, vs, us, es)
    ensures ExprsOk(w, us, es)
  {
    hide ExprOk, Keeps;
    forall i | 0 <= i < |es| ensures ExprOk(w, us, es[i]) {
      KeptExprOk(w, vs, us, es[i]);
    }
  }

  lemma {:induction false} DeclaresKept(w: Env, us: Scopes, vs: Scopes, ds: seq<Variable>)
    requires Within(us, vs) && DeclareAll(w, vs, ds).Just?
    ensures DeclareAll(w, us, ds).Just?
    decreases ds
  {
    if ds != [] {
      var n := |us| - 1;
      WithinDeclared(us, vs, ds[0]);
      assert us[n].Keys <= vs[n].Keys;
      hide Within, VariableOk;
      WithinLength(us[..n] + [us[n][ds[0].name := ds[0]]], vs[..n] + [vs[n][ds[0].name := ds[0]]]);
      DeclaresKept(w, us[..n] + [us[n][ds[0].name := ds[0]]], vs[..n] + [vs[n][ds[0].name := ds[0]]], ds[1..]);
    }
  }

  /** With its names kept, the statement without dead code passes the verifier's rules. */
  lemma {:induction false} PrunedChecks(w: Env, ret: Return, vs: Scopes, us: Scopes, loops: nat, s: Statement)
    requires Checked(w, ret, vs, loops, s) && Kept(w, vs, us, s) && Within(us, vs)
    ensures Checked(w, ret, us, loops, Prune(s))
    decreases s, 1
  {
    hide Checked, CheckedAll, KeepsAll, ExprsOk, Formed, Within, KeptList;
    OwnRules(w, ret, vs, loops, s);
    KeptExprsOk(w, vs, us, s.expressions);
    WithinLength(us, vs);
    PrunedOperands(w, ret, loops, s);
    match s.kind {
      case BlockS =>
        BlockRules(w, ret, vs, loops, s);
        WithinInner(us, vs);
        PrunedListChecks(w, ret, if s.lexical then vs + [map[]] else vs, if s.lexical then us + [map[]] else us, loops, s.body);
      case DeclareS => DeclaredRules(w, ret, vs, us, loops, s);
      case IfS =>
        BranchRules(w, ret, vs, loops, s);
        PrunedListChecks(w, ret, vs, us, loops, s.body);
        ListScopesWithin(us, vs, s.body);
        PrunedListChecks(w, ret, ScopedList(vs, s.body), ScopedList(us, PruneList(s.body)), loops, s.alternative);
      case WhileS | ForS =>
        BranchRules(w, ret, vs, loops, s);
        PrunedListChecks(w, ret, vs, us, loops + 1, s.body);
      case _ =>
    }
    RulesBack(w, ret, us, loops, Prune(s));
  }

  lemma PrunedOperands(w: Env, ret: Return, loops: nat, s: Statement)
    ensures OperandsOk(w, ret, loops, s) ==> OperandsOk(w, ret, loops, Prune(s))
    ensures Prune(s).expressions == s.expressions && Prune(s).kind == s.kind && Prune(s).variables == s.variables && Prune(s).lexical == s.lexical
    ensures s.kind in {BlockS, IfS, WhileS, ForS} ==> Prune(s).body == PruneList(s.body)
    ensures s.kind == IfS ==> Prune(s).alternative == PruneList(s.alternative)
    ensures s.kind in {WhileS, ForS} ==> Prune(s).alternative == []
  {
    hide PruneList;
  }

  lemma WithinInner(us: Scopes, vs: Scopes)
    requires Within(us, vs)
    ensures Within(us + [map[]], vs + [map[]])
  {
  }

  lemma DeclaredRules(w: Env, ret: Return, vs: Scopes, us: Scopes, loops: nat, s: Statement)
    requires Checked(w, ret, vs, loops, s) && s.kind == DeclareS && Within(us, vs)
    ensures DeclareAll(w, us, s.variables).Just?
  {
    DeclaresKept(w, us, vs, s.variables);
  }

  /** What suffices for a statement to be checked. */
  lemma RulesBack(w: Env, ret: Return, us: Scopes, loops: nat, s: Statement)
    requires |us| > 0 && ExprsOk(w, us, s.expressions) && OperandsOk(w, ret, loops, s)
    requires s.kind == BlockS ==> CheckedAll(w, ret, if s.lexical then us + [map[]] else us, loops, s.body)
    requires s.kind == DeclareS ==> DeclareAll(w, us, s.variables).Just?
    requires s.kind == IfS ==> CheckedAll(w, ret, us, loops, s.body) && CheckedAll(w, ret, ScopedList(us, s.body), loops, s.alternative)
    requires s.kind in {WhileS, ForS} ==> CheckedAll(w, ret, us, loops + 1, s.body) && s.alternative == []
    ensures Checked(w, ret, us, loops, s)
  {
    hide ExprsOk, OperandsOk, DeclareAll;
    if s.kind in {IfS, WhileS, ForS} {
      var inner := if s.kind == IfS then loops else loops + 1;
      CheckedListIs(w, ret, us, inner, s.body);
      assert CheckBranches(w, ret, us, inner, loops, s).Just?;
    }
  }

  lemma {:induction false} PrunedListChecks(w: Env, ret: Return, vs: Scopes, us: Scopes, loops: nat, ss: seq<Statement>)
    requires CheckedAll(w, ret, vs, loops, ss) && KeptList(w, vs, us, ss) && Within(us, vs)
    ensures CheckedAll(w, ret, us, loops, PruneList(ss))
    decreases ss, 0
  {
    WithinLength(us, vs);
    if ss != [] {
      ListRules(w, ret, vs, loops, ss);
      PrunedChecks(w, ret, vs, us, loops, ss[0]);
      ScopesWithin(us, vs, ss[0]);
      hide CheckedAll, Checked, Within, Kept, Scoped, Prune, Ends;
      if Ends(ss[0]) {
        PrunedEnd(us, ss);
      } else {
        PrunedListChecks(w, ret, Scoped(vs, ss[0]), Scoped(us, Prune(ss[0])), loops, ss[1..]);
        PrunedTail(ss);
      }
      ListBack(w, ret, us, loops, PruneList(ss));
    } else {
      NothingToCheck(w, ret, us, loops);
    }
  }

  lemma NothingToCheck(w: Env, ret: Return, us: Scopes, loops: nat)
    requires |us| > 0
    ensures CheckedAll(w, ret, us, loops, [])
  {
  }

  lemma ListBack(w: Env, ret: Return, us: Scopes, loops: nat, ss: seq<Statement>)
    requires ss != [] && Checked(w, ret, us, loops, ss[0])
    requires |ss| > 1 ==> CheckedAll(w, ret, Scoped(us, ss[0]), loops, ss[1..])
    ensures CheckedAll(w, ret, us, loops, ss)
  {
    CheckedIs(w, ret, us, loops, ss[0]);
  }
}
