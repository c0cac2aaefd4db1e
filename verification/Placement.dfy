/**
Acceptance alone does not make lowering right. The verifier records a declaration that stands
behind a `break` and the generator never reaches it: a later use of the variable then has no
binding, or the binding of a global of the same name. A declaration in a branch, by contrast,
is not placed by the stricter rule and does no harm.
*/
module Placement {
  import opened Wrappers
  import opened SemanticIR
  import opened Typing
  import opened Machine
  import opened Codegen
  import opened Growth
  import opened ControlGrowth
  import opened Lockstep
  import opened Resolution

  const X := Variable("x", Int32, 0, "")
  const MAIN := Return(Int32, "")

  function Integer(n: int32): Expression {
    Expression(IntegerE, Int32, "", n, FZERO, 0, [], "")
  }

  const USE_X := Expression(VariableE, Int32, "x", 0, FZERO, 0, [], "")

  function Simple(kind: StmtKind, es: seq<Expression>, vs: seq<Variable>, body: seq<Statement>): Statement {
    Statement(kind, es, vs, body, [], 0, false)
  }

  const BREAK := Simple(BreakS, [], [], [])
  const DECLARE := Simple(DeclareS, [], [X], [])

  /** while (1) { break; int x; } */
  function HiddenDeclaration(): Statement {
    Simple(WhileS, [Integer(1)], [], [BREAK, DECLARE])
  }

  /** x = 1 */
  function UseAfter(): Statement {
    Simple(AssignS, [USE_X, Integer(1)], [], [])
  }

  /** if (1) { int x; } */
  function BranchDeclaration(): Statement {
    Simple(IfS, [Integer(1)], [], [DECLARE])
  }

  function WithBody(globals: seq<Variable>, ss: seq<Statement>): Program {
    Program([], globals, [], Simple(BlockS, [], [], ss))
  }

  function DeadDeclaration(globals: seq<Variable>): Program {
    WithBody(globals, [HiddenDeclaration(), UseAfter()])
  }

  // ----- the verifier accepts them -----

  lemma DeclareChecks(w: Env, loops: nat)
    ensures Scoped([map[]], DECLARE) == [map["x" := X]]
    ensures CheckStmt(w, MAIN, [map[]], loops, DECLARE) == Just([map["x" := X]])
  {
    hide DeclareAll, DeclaredAll;
    assert Identifier("x") && VariableOk(w, X);
    DeclaresX(w);
    assert ExprsOk(w, [map[]], []);
  }

  lemma DeclaresX(w: Env)
    requires VariableOk(w, X)
    ensures DeclareAll(w, [map[]], [X]) == Just([map["x" := X]]) && DeclaredAll([map[]], [X]) == [map["x" := X]]
  {
    hide VariableOk;
    var vs: Scopes := [map[]];
    assert [X][1..] == [];
    assert vs[..0] + [vs[0]["x" := X]] == [map["x" := X]];
    assert DeclareAll(w, vs, [X]) == DeclareAll(w, [map["x" := X]], []);
    assert DeclaredAll(vs, [X]) == DeclaredAll([map["x" := X]], []);
  }

  lemma LoopChecks(w: Env)
    ensures CheckStmt(w, MAIN, [map[]], 0, HiddenDeclaration()) == Just([map["x" := X]])
  {
    var vs: Scopes := [map[]];
    assert CheckStmt(w, MAIN, vs, 1, BREAK) == Just(vs);
    DeclareChecks(w, 1);
    assert CheckList(w, MAIN, vs, 1, [DECLARE]) == CheckList(w, MAIN, [map["x" := X]], 1, []);
    assert [BREAK, DECLARE][1..] == [DECLARE];
    assert CheckList(w, MAIN, vs, 1, [BREAK, DECLARE]) == CheckList(w, MAIN, vs, 1, [DECLARE]);
    assert ExprOk(w, vs, Integer(1));
  }

  lemma BranchChecks(w: Env)
    ensures CheckStmt(w, MAIN, [map[]], 0, BranchDeclaration()).Just?
  {
    hide DeclareAll;
    var vs: Scopes := [map[]];
    DeclareChecks(w, 0);
    assert CheckList(w, MAIN, vs, 0, [DECLARE]) == CheckList(w, MAIN, [map["x" := X]], 0, []);
    assert ExprOk(w, vs, Integer(1));
  }

  lemma UseChecks(w: Env)
    ensures CheckStmt(w, MAIN, [map["x" := X]], 0, UseAfter()).Just?
  {
    var vs := [map["x" := X]];
    assert Innermost(vs, "x") == 0;
    assert ExprOk(w, vs, USE_X) && ExprOk(w, vs, Integer(1));
  }

  lemma MainAccepted(globals: seq<Variable>, ss: seq<Statement>, floats: FloatSem)
    requires globals == [] || globals == [X]
    requires CheckList(Tables(WithBody(globals, ss), floats), MAIN, [map[]], 0, ss).Just?
    ensures ProgramOk(WithBody(globals, ss), floats)
  {
    hide CheckList;
    var w := Tables(WithBody(globals, ss), floats);
    assert Identifier("x") && VariableOk(w, X);
    assert CheckStmt(w, MAIN, [map[]], 0, Simple(BlockS, [], [], ss)).Just?;
  }

  lemma DeadDeclarationAccepted(globals: seq<Variable>, floats: FloatSem)
    requires globals == [] || globals == [X]
    ensures ProgramOk(DeadDeclaration(globals), floats)
  {
    hide CheckStmt, ProgramOk;
    var w := Tables(DeadDeclaration(globals), floats);
    LoopChecks(w);
    UseChecks(w);
    var ss := [HiddenDeclaration(), UseAfter()];
    assert ss[1..] == [UseAfter()];
    assert CheckList(w, MAIN, [map["x" := X]], 0, ss[1..]).Just?;
    assert CheckList(w, MAIN, [map[]], 0, ss).Just?;
    MainAccepted(globals, ss, floats);
  }

  lemma BranchDeclarationAccepted(floats: FloatSem)
    ensures ProgramOk(WithBody([], [BranchDeclaration()]), floats)
  {
    hide CheckStmt, ProgramOk;
    var ss := [BranchDeclaration()];
    var w := Tables(WithBody([], ss), floats);
    BranchChecks(w);
    assert ss[1..] == [];
    assert CheckList(w, MAIN, [map[]], 0, ss).Just?;
    MainAccepted([], ss, floats);
  }

  // ----- what cutting dead code does to them -----

  lemma LoopCuts(w: Env)
    ensures Kept(w, [map[]], [map[]], HiddenDeclaration()) && !Ends(HiddenDeclaration())
    ensures Scoped([map[]], HiddenDeclaration()) == [map["x" := X]] && Scoped([map[]], Prune(HiddenDeclaration())) == [map[]]
  {
    hide CheckStmt;
    LoopChecks(w);
    CheckedIs(w, MAIN, [map[]], 0, HiddenDeclaration());
    assert Prune(BREAK) == BREAK && PruneList([BREAK, DECLARE]) == [BREAK];
    assert [BREAK][1..] == [];
    assert ScopedList([map[]], [BREAK]) == [map[]];
    assert Kept(w, [map[]], [map[]], BREAK);
    assert KeptList(w, [map[]], [map[]], [BREAK, DECLARE]);
    assert Keeps(w, [map[]], [map[]], Integer(1));
  }

  lemma UseNotKept(w: Env)
    ensures !Kept(w, [map["x" := X]], [map[]], UseAfter())
  {
    var vs, us: Scopes := [map["x" := X]], [map[]];
    assert Innermost(us, "x") == -1 && Innermost(vs, "x") == 0;
    assert !Keeps(w, vs, us, USE_X);
    assert UseAfter().expressions[0] == USE_X;
  }

  /** The dead declaration gives the later use another declaration, or none. */
  lemma DeadDeclarationNotKept(globals: seq<Variable>, floats: FloatSem)
    ensures !ProgramKept(DeadDeclaration(globals), floats)
  {
    hide Kept, Scoped, Prune, Ends;
    var w := Tables(DeadDeclaration(globals), floats);
    var ss := [HiddenDeclaration(), UseAfter()];
    LoopCuts(w);
    UseNotKept(w);
    assert ss[1..] == [UseAfter()];
    assert !KeptList(w, [map["x" := X]], [map[]], [UseAfter()]);
    assert !KeptList(w, [map[]], [map[]], ss);
    MainKept(w, ss);
  }

  lemma MainKept(w: Env, ss: seq<Statement>)
    ensures FunctionKept(w, [], Simple(BlockS, [], [], ss)) <==> KeptList(w, [map[]], [map[]], ss)
  {
    hide KeptList;
  }

  // ----- what the generator makes of them -----

  lemma LoopGenerates(w: Env, g: Gen)
    requires Stands([map[]], g, 0) && g.ok
    ensures var h := GenStmt(w, g, HiddenDeclaration()); h.ok && h.scopes == [map[]] && !Terminated(h)
  {
    hide Stands, Kept, Scoped, Prune, CheckStmt, GenStmt, StmtFinds;
    LoopCuts(w);
    LoopChecks(w);
    CheckedIs(w, MAIN, [map[]], 0, HiddenDeclaration());
    CutStmt(w, [map[]], g, HiddenDeclaration(), 0);
    ExactStmt(w, MAIN, [map[]], [map[]], 0, g, HiddenDeclaration());
    NoBindings(GenStmt(w, g, HiddenDeclaration()).scopes);
  }

  lemma NoBindings(bs: Bindings)
    requires Agree([map[]], bs)
    ensures bs == [map[]]
  {
    assert ScopeAgrees(map[], bs[0]);
  }

  lemma UseGenerates(w: Env, h: Gen)
    requires h.scopes == [map[]] && h.ok
    ensures GenStmt(w, h, UseAfter()).ok <==> "x" in w.globals
  {
    assert Innermost(h.scopes, "x") < 0;
  }

  lemma MainGenerates(w: Env)
    ensures GenFunction(w, [], Simple(BlockS, [], [], [HiddenDeclaration(), UseAfter()]), Exit).ok <==> "x" in w.globals
  {
    hide GenStmt, Stands, Terminated;
    var ss, e := [HiddenDeclaration(), UseAfter()], BodyStart(w, []);
    StartStands(w, []);
    StandsOpen([map[]], e, 0);
    LoopGenerates(w, e);
    var h := GenStmt(w, e, HiddenDeclaration());
    UseGenerates(w, h);
    assert ss[1..] == [UseAfter()];
    GenOne(w, h, UseAfter());
    assert GenStmts(w, e, ss) == GenStmts(w, h, [UseAfter()]);
    BlockIs(w, e, ss);
    FinishOk(GenStmt(w, e, Simple(BlockS, [], [], ss)), Exit);
  }

  lemma BlockIs(w: Env, g: Gen, ss: seq<Statement>)
    ensures GenStmt(w, g, Simple(BlockS, [], [], ss)) == GenStmts(w, g, ss)
  {
    hide GenStmts;
  }

  lemma GlobalNames(globals: seq<Variable>, floats: FloatSem)
    requires globals == [] || globals == [X]
    ensures "x" in Tables(DeadDeclaration(globals), floats).globals <==> globals == [X]
  {
  }

  /** Without a global of the name the lookup fails. */
  lemma DeadDeclarationBreaksLowering(floats: FloatSem)
    ensures var p := DeadDeclaration([]); ProgramOk(p, floats) && !ProgramKept(p, floats) && !ProgramLowers(p, floats)
  {
    hide ProgramOk, ProgramKept, GenFunction, Tables;
    DeadDeclarationAccepted([], floats);
    DeadDeclarationNotKept([], floats);
    GlobalNames([], floats);
    MainGenerates(Tables(DeadDeclaration([]), floats));
  }

  /** With one, lowering goes through and the store goes to the wrong variable. */
  lemma DeadDeclarationMisbinds(floats: FloatSem)
    ensures var p := DeadDeclaration([X]); ProgramOk(p, floats) && ProgramLowers(p, floats) && !ProgramFinds(p, floats)
  {
    hide ProgramOk, ProgramKept, ProgramFinds, GenFunction, Tables;
    DeadDeclarationAccepted([X], floats);
    DeadDeclarationNotKept([X], floats);
    GlobalNames([X], floats);
    MainGenerates(Tables(DeadDeclaration([X]), floats));
    LookupsAreExact(DeadDeclaration([X]), floats);
  }

  /** A declaration in a branch breaks the placement rule and is lowered all the same. */
  lemma BranchDeclarationLowers(floats: FloatSem)
    ensures var p := WithBody([], [BranchDeclaration()]); ProgramOk(p, floats) && !ProgramPlaced(p) && ProgramLowers(p, floats)
  {
    hide ProgramOk, GenFunction, Tables, FunctionKept, ProgramPlaced;
    var p := WithBody([], [BranchDeclaration()]);
    BranchDeclarationAccepted(floats);
    BranchNotPlaced();
    BranchKept(Tables(p, floats));
    LookupsAreExact(p, floats);
  }

  lemma BranchNotPlaced()
    ensures !ProgramPlaced(WithBody([], [BranchDeclaration()]))
  {
    assert !Placed(DECLARE, false);
    assert BranchDeclaration().body[0] == DECLARE && !PlacedAll(BranchDeclaration().body, false);
    assert !Placed(BranchDeclaration(), true);
    assert WithBody([], [BranchDeclaration()]).body.body[0] == BranchDeclaration();
  }

  lemma BranchKept(w: Env)
    ensures FunctionKept(w, [], Simple(BlockS, [], [], [BranchDeclaration()]))
  {
    var vs: Scopes := [map[]];
    assert Kept(w, vs, vs, DECLARE);
    assert [DECLARE][1..] == [] && [BranchDeclaration()][1..] == [];
    assert KeptList(w, vs, vs, [DECLARE]);
    assert Keeps(w, vs, vs, Integer(1));
    assert Kept(w, vs, vs, BranchDeclaration());
    assert KeptList(w, vs, vs, [BranchDeclaration()]);
    MainKept(w, [BranchDeclaration()]);
  }
}
