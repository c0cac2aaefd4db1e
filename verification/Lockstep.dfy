/**
Verifier acceptance makes generation total. Under the placement rule for declarations the
generator's scope stack stays in step with the verifier's: every name the verifier resolved is
found, with exactly the type, extent and composite it resolved to, in a slot of its own.
*/
module Lockstep {
  import opened Wrappers
  import opened SemanticIR
  import opened Typing
  import opened Machine
  import opened Codegen
  import opened Growth
  import opened ControlGrowth

  type Bindings = seq<map<string, Binding>>

  ghost predicate ScopeAgrees(ds: map<string, Variable>, bs: map<string, Binding>) {
    bs.Keys == ds.Keys && forall x <- bs :: bs[x].decl == ds[x]
  }

  ghost predicate Agree(vs: Scopes, bs: Bindings) {
    |vs| == |bs| && forall i | 0 <= i < |vs| :: ScopeAgrees(vs[i], bs[i])
  }

  /** Live variables have distinct slots, all allocated. */
  ghost predicate Separate(bs: Bindings, slots: nat) {
    && (forall i, x | 0 <= i < |bs| && x in bs[i] :: bs[i][x].slot < slots)
    && (forall i, x, j, y | 0 <= i < |bs| && x in bs[i] && 0 <= j < |bs| && y in bs[j] && bs[i][x].slot == bs[j][y].slot :: i == j && x == y)
  }

  ghost predicate Tracks(vs: Scopes, g: Gen) {
    g.ok && Agree(vs, g.scopes) && Separate(g.scopes, g.slots)
  }

  lemma FindOk(w: Env, vs: Scopes, g: Gen, name: string)
    requires Agree(vs, g.scopes) && Lookup(w, vs, name).Just?
    ensures Find(w, g, name).Found? && Find(w, g, name).decl == Lookup(w, vs, name).value
  {
    AgreeFindsName(w, vs, g.scopes, name);
    FoundName(w, vs, g, name);
  }

  lemma SeparateMore(bs: Bindings, n: nat, m: nat)
    requires Separate(bs, n) && n <= m
    ensures Separate(bs, m)
  {
  }

  lemma TracksOn(vs: Scopes, g: Gen, h: Gen)
    requires Tracks(vs, g) && h.ok && h.scopes == g.scopes && g.slots <= h.slots
    ensures Tracks(vs, h)
  {
    hide Agree, Separate;
    SeparateMore(g.scopes, g.slots, h.slots);
  }

  lemma TracksGrown(vs: Scopes, g: Gen, h: Gen)
    requires Tracks(vs, g) && Grows(g, h) && h.ok
    ensures Tracks(vs, h)
  {
    hide Tracks;
    assert h.scopes == g.scopes && g.slots <= h.slots;
    TracksOn(vs, g, h);
  }

  // ----- expressions -----

  lemma IntTotal(g: Gen, opcode: int, l: Operand, r: Operand)
    requires g.ok && 1 <= opcode <= 13
    ensures GenInt(g, opcode, l, r).g.ok
  {
  }

  lemma FloatTotal(g: Gen, opcode: int, l: Operand, r: Operand)
    requires g.ok && 1 <= opcode <= 11 && opcode != 5
    ensures GenFloat(g, opcode, l, r).g.ok
  {
  }

  lemma TextTotal(g: Gen, opcode: int, l: Operand, r: Operand)
    requires g.ok
    ensures GenText(g, opcode, l, r).g.ok
  {
  }

  lemma BinaryTotal(g: Gen, t: ScalarType, opcode: int, l: Operand, r: Operand, result: ScalarType)
    requires g.ok && BinaryOk(opcode, t, result)
    ensures GenBinary(g, t, opcode, l, r).g.ok
  {
    hide GenInt, GenFloat, GenText;
    if t == String {
      TextTotal(g, opcode, l, r);
    } else if t == Float64 {
      FloatTotal(g, opcode, l, r);
    } else {
      IntTotal(g, opcode, l, r);
    }
  }

  // ----- names -----

  predicate Named(e: Expression) {
    e.kind == VariableE || e.kind == IndexE || e.kind == SliceE || e.kind == SliceIndexE
  }

  /** The generator's scopes hold the declaration the verifier's scopes hold, at the same level. */
  predicate FindsName(w: Env, vs: Scopes, bs: Bindings, name: string) {
    var i := Innermost(bs, name);
    i == Innermost(vs, name) && Lookup(w, vs, name).Just? && (i >= 0 ==> bs[i][name].decl == vs[i][name])
  }

  /** So it does for every name in an expression. */
  predicate Finds(w: Env, vs: Scopes, bs: Bindings, e: Expression) {
    && (Named(e) ==> FindsName(w, vs, bs, e.name))
    && forall i | 0 <= i < |e.operands| :: Finds(w, vs, bs, e.operands[i])
  }

  predicate FindsAll(w: Env, vs: Scopes, bs: Bindings, es: seq<Expression>) {
    forall i | 0 <= i < |es| :: Finds(w, vs, bs, es[i])
  }

  /** The lookup succeeds and yields the verifier's declaration, local or global alike. */
  lemma FoundName(w: Env, vs: Scopes, g: Gen, name: string)
    ensures FindsName(w, vs, g.scopes, name) <==>
              && Find(w, g, name).Found? && Lookup(w, vs, name) == Just(Find(w, g, name).decl)
              && Innermost(g.scopes, name) == Innermost(vs, name)
  {
  }

  lemma AgreeFindsName(w: Env, vs: Scopes, bs: Bindings, name: string)
    requires Agree(vs, bs) && Lookup(w, vs, name).Just?
    ensures FindsName(w, vs, bs, name)
  {
    forall i | 0 <= i < |vs| ensures vs[i].Keys == bs[i].Keys {
      assert ScopeAgrees(vs[i], bs[i]);
    }
    InnermostSame(vs, bs, name);
    var i := Innermost(vs, name);
    if i >= 0 {
      assert ScopeAgrees(vs[i], bs[i]);
    }
  }

  lemma NamesResolve(w: Env, vs: Scopes, e: Expression)
    requires ExprOk(w, vs, e)
    ensures Named(e) ==> Lookup(w, vs, e.name).Just?
  {
  }

  lemma {:induction false} AgreeFinds(w: Env, vs: Scopes, bs: Bindings, e: Expression)
    requires Agree(vs, bs) && ExprOk(w, vs, e)
    ensures Finds(w, vs, bs, e)
    decreases e
  {
    hide Agree, FindsName, NodeOk;
    NamesResolve(w, vs, e);
    if Named(e) {
      AgreeFindsName(w, vs, bs, e.name);
    }
    forall i | 0 <= i < |e.operands| ensures Finds(w, vs, bs, e.operands[i]) {
      AgreeFinds(w, vs, bs, e.operands[i]);
    }
  }

  lemma AgreeFindsAll(w: Env, vs: Scopes, bs: Bindings, es: seq<Expression>)
    requires Agree(vs, bs) && ExprsOk(w, vs, es)
    ensures FindsAll(w, vs, bs, es)
  {
    hide Agree, ExprOk, Finds;
    forall i | 0 <= i < |es| ensures Finds(w, vs, bs, es[i]) {
      AgreeFinds(w, vs, bs, es[i]);
    }
  }

  /** Ready to generate a checked expression: nothing has failed and all its names are found. */
  ghost predicate Knows(w: Env, vs: Scopes, g: Gen, e: Expression) {
    g.ok && ExprOk(w, vs, e) && Finds(w, vs, g.scopes, e)
  }

  lemma KnowsOperand(w: Env, vs: Scopes, g: Gen, e: Expression, h: Gen, i: nat)
    requires Knows(w, vs, g, e) && i < |e.operands| && h.ok && h.scopes == g.scopes
    ensures Knows(w, vs, h, e.operands[i])
  {
  }

  lemma {:induction false} ExprFound(w: Env, vs: Scopes, g: Gen, e: Expression)
    requires Knows(w, vs, g, e)
    ensures GenExpr(w, g, e).g.ok && GenExpr(w, g, e).g.scopes == g.scopes
    decreases e, 2
  {
    ExprGrows(w, g, e);
    assert g.ok;
    hide Knows, Grows, GenBinary, GenPlace, GenExprs, Find, GenSlice, GenSliceIndex;
    KnowsShape(w, vs, g, e);
    match e.kind {
      case IntegerE | BooleanE | FloatE | StringE =>
      case VariableE | IndexE => PlaceFound(w, vs, g, e);
      case UnaryE | ProjectE =>
        KnowsOperand(w, vs, g, e, g, 0);
        ExprFound(w, vs, g, e.operands[0]);
      case BinaryE =>
        PairFound(w, vs, g, e);
        var l := GenExpr(w, g, e.operands[0]);
        var r := GenExpr(w, l.g, e.operands[1]);
        BinaryTotal(r.g, e.operands[0].ty, e.opcode, l.o, r.o, e.ty);
      case CallE | ConstructE => OperandsFound(w, vs, g, e, 0);
      case SliceE =>
        PairFound(w, vs, g, e);
        SliceFound(w, vs, g, e);
      case SliceIndexE =>
        KnowsOperand(w, vs, g, e, g, 0);
        ExprFound(w, vs, g, e.operands[0]);
        SliceIndexFound(w, vs, g, e);
    }
  }

  /** What the typing rule of the node says about its operands. */
  lemma KnowsShape(w: Env, vs: Scopes, g: Gen, e: Expression)
    requires Knows(w, vs, g, e)
    ensures NodeOk(w, vs, e)
  {
  }

  lemma SliceFound(w: Env, vs: Scopes, g: Gen, e: Expression)
    requires Knows(w, vs, g, e) && e.kind == SliceE
    requires var r := GenExpr(w, GenExpr(w, g, e.operands[0]).g, e.operands[1]).g; r.ok && r.scopes == g.scopes
    ensures GenExpr(w, g, e).g.ok
  {
    hide FindsName;
    FoundName(w, vs, GenExpr(w, GenExpr(w, g, e.operands[0]).g, e.operands[1]).g, e.name);
  }

  lemma SliceIndexFound(w: Env, vs: Scopes, g: Gen, e: Expression)
    requires Knows(w, vs, g, e) && e.kind == SliceIndexE
    requires var r := GenExpr(w, g, e.operands[0]).g; r.ok && r.scopes == g.scopes
    ensures GenExpr(w, g, e).g.ok
  {
    hide FindsName;
    FoundName(w, vs, GenExpr(w, g, e.operands[0]).g, e.name);
  }

  lemma {:induction false} PairFound(w: Env, vs: Scopes, g: Gen, e: Expression)
    requires |e.operands| == 2 && Knows(w, vs, g, e)
    ensures var l := GenExpr(w, g, e.operands[0]).g;
            l.ok && GenExpr(w, l, e.operands[1]).g.ok && GenExpr(w, l, e.operands[1]).g.scopes == g.scopes
    decreases e, 1
  {
    hide ExprOk, Finds;
    KnowsOperand(w, vs, g, e, g, 0);
    ExprFound(w, vs, g, e.operands[0]);
    var l := GenExpr(w, g, e.operands[0]).g;
    KnowsOperand(w, vs, g, e, l, 1);
    ExprFound(w, vs, l, e.operands[1]);
  }

  lemma {:induction false} PlaceFound(w: Env, vs: Scopes, g: Gen, e: Expression)
    requires Knows(w, vs, g, e) && Assignable(e)
    ensures GenPlace(w, g, e).g.ok && GenPlace(w, g, e).g.scopes == g.scopes
    decreases e, 1
  {
    hide Grows, FindsName;
    PlaceGrows(w, g, e);
    if e.kind == IndexE {
      KnowsOperand(w, vs, g, e, g, 0);
      ExprFound(w, vs, g, e.operands[0]);
      FoundName(w, vs, GenExpr(w, g, e.operands[0]).g, e.name);
    } else {
      FoundName(w, vs, g, e.name);
    }
  }

  lemma {:induction false} OperandsFound(w: Env, vs: Scopes, g: Gen, e: Expression, i: nat)
    requires Knows(w, vs, g, e) && i <= |e.operands|
    ensures GenExprs(w, g, e.operands[i..]).g.ok
    decreases e, 1, |e.operands| - i
  {
    if i < |e.operands| {
      assert e.operands[i..][0] == e.operands[i] && e.operands[i..][1..] == e.operands[i + 1..];
      KnowsOperand(w, vs, g, e, g, i);
      ExprFound(w, vs, g, e.operands[i]);
      var h := GenExpr(w, g, e.operands[i]).g;
      KnowsStays(w, vs, g, h, e);
      OperandsFound(w, vs, h, e, i + 1);
    }
  }

  lemma KnowsStays(w: Env, vs: Scopes, g: Gen, h: Gen, e: Expression)
    requires Knows(w, vs, g, e) && h.ok && h.scopes == g.scopes
    ensures Knows(w, vs, h, e)
  {
  }

  lemma TracksKnows(w: Env, vs: Scopes, g: Gen, e: Expression)
    requires Tracks(vs, g) && ExprOk(w, vs, e)
    ensures Knows(w, vs, g, e)
  {
    hide Agree, ExprOk, Finds, Separate;
    AgreeFinds(w, vs, g.scopes, e);
  }

  lemma ExprTotal(w: Env, vs: Scopes, g: Gen, e: Expression)
    requires Tracks(vs, g) && ExprOk(w, vs, e)
    ensures GenExpr(w, g, e).g.ok && Tracks(vs, GenExpr(w, g, e).g)
  {
    hide Tracks, Knows, ExprOk, Grows;
    TracksKnows(w, vs, g, e);
    ExprFound(w, vs, g, e);
    ExprGrows(w, g, e);
    TracksGrown(vs, g, GenExpr(w, g, e).g);
  }

  lemma PlaceTotal(w: Env, vs: Scopes, g: Gen, e: Expression)
    requires Tracks(vs, g) && ExprOk(w, vs, e) && Assignable(e)
    ensures GenPlace(w, g, e).g.ok && Tracks(vs, GenPlace(w, g, e).g)
  {
    hide Tracks, Knows, ExprOk, Grows;
    TracksKnows(w, vs, g, e);
    PlaceFound(w, vs, g, e);
    PlaceGrows(w, g, e);
    TracksGrown(vs, g, GenPlace(w, g, e).g);
  }

  lemma {:induction false} ExprsTotal(w: Env, vs: Scopes, g: Gen, es: seq<Expression>)
    requires Tracks(vs, g) && ExprsOk(w, vs, es)
    ensures GenExprs(w, g, es).g.ok && Tracks(vs, GenExprs(w, g, es).g)
    decreases es
  {
    hide ExprOk, Separate, Agree;
    if es != [] {
      ExprTotal(w, vs, g, es[0]);
      ExprsTotal(w, vs, GenExpr(w, g, es[0]).g, es[1..]);
    }
  }

  // ----- registers -----

  /** An operand names no register that is yet to be defined. */
  predicate Below(o: Operand, n: nat) {
    o.Reg? ==> o.r < n
  }

  lemma {:induction false} ExprBelow(w: Env, g: Gen, e: Expression)
    ensures Below(GenExpr(w, g, e).o, GenExpr(w, g, e).g.regs)
  {
    hide GenExprs, GenPlace, Find;
  }

  lemma PlaceBelow(w: Env, g: Gen, e: Expression)
    ensures Below(GenPlace(w, g, e).o, GenPlace(w, g, e).g.regs)
  {
    hide GenExpr;
  }

  // ----- statements -----

  /** What generating a checked statement does to the tracking of scopes. */
  ghost predicate Tracked(vs': Scopes, g: Gen, h: Gen, here: bool)
    requires |g.scopes| > 0
  {
    && h.ok && |h.scopes| == |g.scopes| && Separate(h.scopes, h.slots)
    && h.scopes[..|g.scopes| - 1] == g.scopes[..|g.scopes| - 1]
    && (!here ==> h.scopes == g.scopes)
    && (!Terminated(h) ==> Agree(vs', h.scopes))
  }

  ghost predicate InLoops(loops: nat, g: Gen) {
    loops > 0 ==> g.breaks != [] && g.continues != []
  }

  lemma StillTracked(vs: Scopes, g: Gen, h: Gen, here: bool)
    requires Tracks(vs, g) && |g.scopes| > 0 && h.ok && h.scopes == g.scopes && g.slots <= h.slots
    ensures Tracked(vs, g, h, here)
  {
    hide Agree, Separate;
    SeparateMore(g.scopes, g.slots, h.slots);
  }

  lemma AgreeDeclare(vs: Scopes, bs: Bindings, x: string, b: Binding)
    requires Agree(vs, bs) && |vs| > 0
    ensures var n := |vs| - 1; Agree(vs[..n] + [vs[n][x := b.decl]], bs[..n] + [bs[n][x := b]])
  {
    var n := |vs| - 1;
    var vs', bs' := vs[..n] + [vs[n][x := b.decl]], bs[..n] + [bs[n][x := b]];
    forall i | 0 <= i < |vs'| ensures ScopeAgrees(vs'[i], bs'[i]) {
      assert ScopeAgrees(vs[i], bs[i]);
    }
  }

  lemma SeparateDeclare(bs: Bindings, slots: nat, x: string, d: Variable)
    requires Separate(bs, slots) && |bs| > 0
    ensures var n := |bs| - 1; Separate(bs[..n] + [bs[n][x := Binding(slots, d)]], slots + 1)
  {
    var n := |bs| - 1;
    var bs' := bs[..n] + [bs[n][x := Binding(slots, d)]];
    assert forall i, y | 0 <= i < |bs'| && y in bs'[i] && !(i == n && y == x) :: y in bs[i] && bs'[i][y] == bs[i][y];
  }

  lemma DeclareTracks(w: Env, vs: Scopes, g: Gen, d: Variable)
    requires Tracks(vs, g) && |vs| > 0
    ensures var top := vs[|vs| - 1];
            var h := Declare(w, g, d);
            Tracks(vs[..|vs| - 1] + [top[d.name := d]], h) && |h.scopes| == |g.scopes| && h.scopes[..|vs| - 1] == g.scopes[..|vs| - 1]
  {
    hide ScopeAgrees, Separate;
    AgreeDeclare(vs, g.scopes, d.name, Binding(g.slots, d));
    SeparateDeclare(g.scopes, g.slots, d.name, d);
  }

  lemma {:induction false} DeclareEachTracks(w: Env, vs: Scopes, g: Gen, ds: seq<Variable>)
    requires Tracks(vs, g) && |vs| > 0 && DeclareAll(w, vs, ds).Just?
    ensures var h := DeclareEach(w, g, ds);
            Tracks(DeclareAll(w, vs, ds).value, h) && |h.scopes| == |g.scopes| && h.scopes[..|vs| - 1] == g.scopes[..|vs| - 1]
    decreases ds
  {
    if ds != [] {
      var n := |vs| - 1;
      DeclareTracks(w, vs, g, ds[0]);
      hide Tracks, VariableOk, Declare;
      DeclareEachTracks(w, vs[..n] + [vs[n][ds[0].name := ds[0]]], Declare(w, g, ds[0]), ds[1..]);
    }
  }

  /** Ready to generate the operands of a checked statement. */
  ghost predicate Prepared(w: Env, vs: Scopes, g: Gen, es: seq<Expression>) {
    g.ok && ExprsOk(w, vs, es) && FindsAll(w, vs, g.scopes, es)
  }

  lemma PreparedAt(w: Env, vs: Scopes, g: Gen, es: seq<Expression>, h: Gen, i: nat)
    requires Prepared(w, vs, g, es) && i < |es| && h.ok && h.scopes == g.scopes
    ensures Knows(w, vs, h, es[i])
  {
    hide ExprOk, Finds;
  }

  lemma TracksPrepared(w: Env, vs: Scopes, g: Gen, es: seq<Expression>)
    requires Tracks(vs, g) && ExprsOk(w, vs, es)
    ensures Prepared(w, vs, g, es)
  {
    hide ExprsOk, FindsAll, Agree, Separate;
    AgreeFindsAll(w, vs, g.scopes, es);
  }

  lemma PreparedTail(w: Env, vs: Scopes, g: Gen, es: seq<Expression>, h: Gen)
    requires Prepared(w, vs, g, es) && es != [] && h.ok && h.scopes == g.scopes
    ensures Prepared(w, vs, h, es[1..])
  {
    hide ExprOk, Finds;
  }

  lemma {:induction false} PrintFound(w: Env, vs: Scopes, g: Gen, es: seq<Expression>)
    requires Prepared(w, vs, g, es)
    ensures GenPrint(w, g, es).ok
    decreases es
  {
    if es == [] {
      assert g.ok;
    } else {
      hide Prepared, Knows;
      PreparedHead(w, vs, g, es);
      ExprFound(w, vs, g, es[0]);
      var v := GenExpr(w, g, es[0]);
      var s := if es[0].ty == String then Def(v.g, Un(v.g.regs, SafeString, v.o)) else v;
      var g1 := Emit(s.g, Printf(PrintFormat(es[0].ty), s.o));
      var g2 := Emit(g1, Printf("%s", Imm(Separator(|es| == 1))));
      PreparedTail(w, vs, g, es, g2);
      PrintFound(w, vs, g2, es[1..]);
    }
  }

  lemma PreparedHead(w: Env, vs: Scopes, g: Gen, es: seq<Expression>)
    requires Prepared(w, vs, g, es) && es != []
    ensures Knows(w, vs, g, es[0])
  {
    PreparedAt(w, vs, g, es, g, 0);
  }

  lemma AssignFound(w: Env, vs: Scopes, g: Gen, s: Statement)
    requires Prepared(w, vs, g, s.expressions) && s.kind == AssignS && |s.expressions| == 2 && Assignable(s.expressions[0])
    ensures GenStmt(w, g, s).ok
  {
    hide Prepared, Knows, GenExpr, GenPlace;
    PreparedHead(w, vs, g, s.expressions);
    PreparedOk(w, vs, g, s.expressions);
    PreparedAt(w, vs, g, s.expressions, g, 1);
    ExprFound(w, vs, g, s.expressions[1]);
    var v := GenExpr(w, g, s.expressions[1]).g;
    PreparedAt(w, vs, g, s.expressions, v, 0);
    PlaceFound(w, vs, v, s.expressions[0]);
  }

  lemma PreparedOk(w: Env, vs: Scopes, g: Gen, es: seq<Expression>)
    requires Prepared(w, vs, g, es)
    ensures g.ok
  {
  }

  lemma UpdateFound(w: Env, vs: Scopes, g: Gen, s: Statement)
    requires Prepared(w, vs, g, s.expressions) && s.kind == UpdateS && |s.expressions| == 2 && Assignable(s.expressions[0])
    ensures GenStmt(w, g, s).ok
  {
    hide Prepared, Knows, GenExpr, GenPlace;
    var es := s.expressions;
    PreparedOk(w, vs, g, es);
    PreparedAt(w, vs, g, es, g, 0);
    ExprFound(w, vs, g, es[0]);
    var record := GenExpr(w, g, es[0]);
    PreparedAt(w, vs, g, es, record.g, 1);
    ExprFound(w, vs, record.g, es[1]);
    var field := GenExpr(w, record.g, es[1]);
    var u := Def(field.g, UpdateValue(field.g.regs, es[0].composite, s.declaration, record.o, field.o));
    PreparedAt(w, vs, g, es, u.g, 0);
    PlaceFound(w, vs, u.g, es[0]);
  }

  /** Statements without sub-statements or declarations. */
  lemma SimpleFound(w: Env, ret: Return, vs: Scopes, loops: nat, g: Gen, s: Statement)
    requires Prepared(w, vs, g, s.expressions) && InLoops(loops, g) && OperandsOk(w, ret, loops, s)
    requires s.kind in {AssignS, UpdateS, ExpressionS, PrintS, BreakS, ContinueS, ReturnS}
    ensures GenStmt(w, g, s).ok
  {
    hide Prepared, Knows, GenExpr, GenPlace, GenPrint;
    PreparedOk(w, vs, g, s.expressions);
    match s.kind
    case AssignS => AssignFound(w, vs, g, s);
    case UpdateS => UpdateFound(w, vs, g, s);
    case PrintS => PrintFound(w, vs, g, s.expressions);
    case BreakS | ContinueS =>
    case ExpressionS | ReturnS =>
      if s.expressions != [] {
        PreparedHead(w, vs, g, s.expressions);
        ExprFound(w, vs, g, s.expressions[0]);
      }
  }

  lemma SimpleTotal(w: Env, ret: Return, vs: Scopes, loops: nat, g: Gen, s: Statement)
    requires Tracks(vs, g) && |vs| > 0 && InLoops(loops, g) && CheckStmt(w, ret, vs, loops, s).Just?
    requires s.kind in {AssignS, UpdateS, ExpressionS, PrintS, BreakS, ContinueS, ReturnS}
    ensures GenStmt(w, g, s).ok
  {
    hide Tracks, Prepared, GenStmt, ExprsOk;
    TracksPrepared(w, vs, g, s.expressions);
    SimpleFound(w, ret, vs, loops, g, s);
  }

  lemma SimpleScopes(w: Env, g: Gen, s: Statement)
    requires Fine(g) && s.kind in {AssignS, UpdateS, ExpressionS, PrintS, BreakS, ContinueS, ReturnS}
    ensures GenStmt(w, g, s).scopes == g.scopes && g.slots <= GenStmt(w, g, s).slots
  {
    hide Fine, Sealed, GenExpr, GenPlace, GenPrint, Emit;
    match s.kind
    case AssignS => if |s.expressions| == 2 { AssignExtends(w, g, s); }
    case UpdateS => if |s.expressions| == 2 { UpdateExtends(w, g, s); }
    case ExpressionS => if |s.expressions| == 1 { ExprGrows(w, g, s.expressions[0]); }
    case PrintS => PrintGrows(w, g, s.expressions);
    case BreakS | ContinueS => StmtExtends(w, g, s); BranchScopes(w, g, s);
    case ReturnS =>
      StmtExtends(w, g, s);
      if s.expressions == [] {
        EmitScopes(g, Ret(Imm(Unit)));
      } else {
        ExprGrows(w, g, s.expressions[0]);
        var v := GenExpr(w, g, s.expressions[0]);
        EmitScopes(v.g, Ret(v.o));
      }
  }

  lemma BranchScopes(w: Env, g: Gen, s: Statement)
    requires s.kind == BreakS || s.kind == ContinueS
    ensures GenStmt(w, g, s).scopes == g.scopes
  {
  }

  lemma {:induction false} StmtTotal(w: Env, ret: Return, vs: Scopes, loops: nat, g: Gen, s: Statement, here: bool)
    requires Fine(g) && Tracks(vs, g) && |vs| > 0 && InLoops(loops, g)
    requires CheckStmt(w, ret, vs, loops, s).Just? && Placed(s, here)
    ensures |g.scopes| > 0 && Tracked(CheckStmt(w, ret, vs, loops, s).value, g, GenStmt(w, g, s), here)
    decreases s, 2
  {
    assert |g.scopes| > 0;
    hide Fine, Tracks, Tracked, ExprOk, GenExpr;
    match s.kind
    case BlockS => BlockTotal(w, ret, vs, loops, g, s, here);
    case DeclareS => DeclareTotal(w, ret, vs, loops, g, s);
    case IfS =>
      IfTotal(w, ret, vs, loops, g, s);
      StillTracked(vs, g, GenStmt(w, g, s), here);
    case WhileS =>
      WhileTotal(w, ret, vs, loops, g, s);
      StillTracked(vs, g, GenStmt(w, g, s), here);
    case ForS =>
      ForTotal(w, ret, vs, loops, g, s);
      StillTracked(vs, g, GenStmt(w, g, s), here);
    case _ =>
      SimpleTotal(w, ret, vs, loops, g, s);
      SimpleScopes(w, g, s);
      StillTracked(vs, g, GenStmt(w, g, s), here);
  }

  lemma DeclareTotal(w: Env, ret: Return, vs: Scopes, loops: nat, g: Gen, s: Statement)
    requires Tracks(vs, g) && |vs| > 0 && s.kind == DeclareS && CheckStmt(w, ret, vs, loops, s).Just?
    ensures |g.scopes| > 0 && Tracked(CheckStmt(w, ret, vs, loops, s).value, g, GenStmt(w, g, s), true)
  {
    hide Separate, ScopeAgrees;
    DeclareEachTracks(w, vs, g, s.variables);
  }

  lemma {:induction false} BlockTotal(w: Env, ret: Return, vs: Scopes, loops: nat, g: Gen, s: Statement, here: bool)
    requires Fine(g) && Tracks(vs, g) && |vs| > 0 && InLoops(loops, g) && s.kind == BlockS
    requires CheckStmt(w, ret, vs, loops, s).Just? && Placed(s, here)
    ensures |g.scopes| > 0 && Tracked(CheckStmt(w, ret, vs, loops, s).value, g, GenStmt(w, g, s), here)
    decreases s, 1
  {
    if s.lexical {
      var y, inner := g.(scopes := g.scopes + [map[]]), vs + [map[]];
      assert Fine(y);
      assert Tracks(inner, y);
      ListTotal(w, ret, inner, loops, y, s.body, true);
      StmtsExtend(w, y, s.body);
      var x := GenStmts(w, y, s.body);
      assert inner[..|vs|] == vs;
      LexicalExit(vs, g, y, x, here);
    } else {
      ListTotal(w, ret, vs, loops, g, s.body, here);
    }
  }

  lemma LexicalExit(vs: Scopes, g: Gen, y: Gen, x: Gen, here: bool)
    requires Tracks(vs, g) && |vs| > 0 && g.slots <= x.slots && x.ok
    ensures |g.scopes| > 0 && Tracked(vs, g, x.(scopes := g.scopes), here)
  {
    hide Separate, ScopeAgrees;
    assert |g.scopes| == |vs|;
    SeparateMore(g.scopes, g.slots, x.slots);
  }

  /** A list generated with the scopes of `g`, away from declaration positions. */
  lemma {:induction false} SegmentTotal(w: Env, ret: Return, vs: Scopes, loops: nat, g: Gen, y: Gen, ss: seq<Statement>, t: nat)
    requires Fine(y) && Tracks(vs, g) && y.ok && y.scopes == g.scopes && g.slots <= y.slots && |vs| > 0 && InLoops(loops, y)
    requires CheckList(w, ret, vs, loops, ss) == Just(vs) && PlacedAll(ss, false)
    ensures var x := GenStmts(w, y, ss); x.ok && x.scopes == g.scopes && g.slots <= x.slots && SameLoops(y, x)
    decreases ss, 1
  {
    TracksOn(vs, g, y);
    ListTotal(w, ret, vs, loops, y, ss, false);
    StmtsExtend(w, y, ss);
  }

  /** What the rules say of the parts of an `if` statement. */
  lemma IfChecked(w: Env, ret: Return, vs: Scopes, loops: nat, s: Statement)
    requires |vs| > 0 && s.kind == IfS && CheckStmt(w, ret, vs, loops, s).Just? && Placed(s, false)
    ensures |s.expressions| == 1 && ExprOk(w, vs, s.expressions[0])
    ensures CheckList(w, ret, vs, loops, s.body) == Just(vs) && CheckList(w, ret, vs, loops, s.alternative) == Just(vs)
    ensures PlacedAll(s.body, false) && PlacedAll(s.alternative, false) && CheckStmt(w, ret, vs, loops, s) == Just(vs)
  {
    CheckListFrame(w, ret, vs, loops, s.body);
    CheckListFrame(w, ret, vs, loops, s.alternative);
  }

  lemma IfGenerates(w: Env, g: Gen, s: Statement)
    requires s.kind == IfS && |s.expressions| == 1
    ensures GenStmt(w, g, s) == GenIf(w, g, s)
  {
    hide GenIf;
  }

  lemma {:induction false} IfTotal(w: Env, ret: Return, vs: Scopes, loops: nat, g: Gen, s: Statement)
    requires Fine(g) && Tracks(vs, g) && |vs| > 0 && InLoops(loops, g) && s.kind == IfS
    requires CheckStmt(w, ret, vs, loops, s).Just? && Placed(s, false)
    ensures CheckStmt(w, ret, vs, loops, s) == Just(vs)
    ensures var h := GenStmt(w, g, s); h.ok && h.scopes == g.scopes && g.slots <= h.slots
    decreases s, 1
  {
    hide Fine, Tracks, IfHead, ExprOk, Sealed, Shaped, Branch, GenStmts, Ext, CheckStmt, CheckList, Placed, PlacedAll, GenStmt;
    IfChecked(w, ret, vs, loops, s);
    IfGenerates(w, g, s);
    IfHeadTotal(w, vs, g, s);
    IfExtends(w, g, s);
    var n, head, yes := |g.code|, IfHead(w, g, s), IfYes(w, g, s);
    SegmentTotal(w, ret, vs, loops, g, MoveTo(head, n), s.body, n + 2);
    BranchOk(GenStmts(w, MoveTo(head, n), s.body), n + 2);
    SegmentTotal(w, ret, vs, loops, g, MoveTo(yes, n + 1), s.alternative, n + 2);
    BranchOk(GenStmts(w, MoveTo(yes, n + 1), s.alternative), n + 2);
  }

  lemma BranchOk(g: Gen, b: nat)
    ensures var h := Branch(g, b); h.ok == g.ok && h.scopes == g.scopes && h.slots == g.slots && h.breaks == g.breaks && h.continues == g.continues
  {
  }

  lemma IfHeadFound(w: Env, vs: Scopes, g: Gen, s: Statement)
    requires Fine(g) && |s.expressions| == 1 && Prepared(w, vs, g, s.expressions)
    ensures var h := IfHead(w, g, s); h.ok && h.scopes == g.scopes && g.slots <= h.slots && SameLoops(g, h)
  {
    hide ControlGrowth.Wip, Growth.Fine, Closed, Prepared, Knows;
    IfHeadStages(w, g, s);
    PreparedOk(w, vs, g, s.expressions);
    PreparedAt(w, vs, g, s.expressions, AddBlocks(g, 3), 0);
    TestFound(w, vs, g, AddBlocks(g, 3), s.expressions[0]);
  }

  lemma IfHeadTotal(w: Env, vs: Scopes, g: Gen, s: Statement)
    requires Fine(g) && Tracks(vs, g) && |s.expressions| == 1 && ExprOk(w, vs, s.expressions[0])
    ensures var h := IfHead(w, g, s); h.ok && h.scopes == g.scopes && g.slots <= h.slots && SameLoops(g, h)
  {
    hide Fine, Tracks, Prepared, IfHead, ExprOk;
    TracksPrepared(w, vs, g, s.expressions);
    IfHeadFound(w, vs, g, s);
  }

  /** A condition generated from `a`, whose scopes are those of `g`. */
  lemma TestFound(w: Env, vs: Scopes, g: Gen, a: Gen, e: Expression)
    requires Knows(w, vs, a, e) && g.slots <= a.slots
    ensures var v := GenExpr(w, a, e);
            var c := BoolValue(v.g, v.o);
            c.g.ok && g.slots <= c.g.slots
  {
    hide Knows;
    ExprFound(w, vs, a, e);
    ExprGrows(w, a, e);
  }

  lemma {:induction false} WhileTotal(w: Env, ret: Return, vs: Scopes, loops: nat, g: Gen, s: Statement)
    requires Fine(g) && Tracks(vs, g) && |vs| > 0 && s.kind == WhileS
    requires CheckStmt(w, ret, vs, loops, s).Just? && Placed(s, false)
    ensures CheckStmt(w, ret, vs, loops, s) == Just(vs)
    ensures var h := GenStmt(w, g, s); h.ok && h.scopes == g.scopes && g.slots <= h.slots
    decreases s, 1
  {
    hide Fine, Tracks, WhileHead, ExprOk, Sealed, Shaped;
    CheckListFrame(w, ret, vs, loops + 1, s.body);
    CheckListFrame(w, ret, vs, loops, s.alternative);
    WhileHeadTotal(w, vs, g, s);
    WhileExtends(w, g, s);
    var enter := WhileEnter(w, g, s);
    assert InLoops(loops + 1, enter);
    SegmentTotal(w, ret, vs, loops + 1, g, enter, s.body, |g.code|);
    BranchOk(LeaveLoop(GenStmts(w, enter, s.body), g), |g.code|);
  }

  lemma WhileHeadFound(w: Env, vs: Scopes, g: Gen, s: Statement)
    requires Fine(g) && |s.expressions| == 1 && Prepared(w, vs, g, s.expressions)
    ensures var h := WhileHead(w, g, s); h.ok && h.scopes == g.scopes && g.slots <= h.slots && SameLoops(g, h)
  {
    hide ControlGrowth.Wip, Growth.Fine, Closed, Prepared, Knows;
    WhileTestStages(g);
    WhileHeadStages(w, g, s);
    PreparedOk(w, vs, g, s.expressions);
    PreparedAt(w, vs, g, s.expressions, WhileTest(g), 0);
    TestFound(w, vs, g, WhileTest(g), s.expressions[0]);
  }

  lemma WhileHeadTotal(w: Env, vs: Scopes, g: Gen, s: Statement)
    requires Fine(g) && Tracks(vs, g) && |s.expressions| == 1 && ExprOk(w, vs, s.expressions[0])
    ensures var h := WhileHead(w, g, s); h.ok && h.scopes == g.scopes && g.slots <= h.slots && SameLoops(g, h)
  {
    hide Fine, Tracks, Prepared, WhileHead, ExprOk;
    TracksPrepared(w, vs, g, s.expressions);
    WhileHeadFound(w, vs, g, s);
  }

  lemma {:induction false} ForTotal(w: Env, ret: Return, vs: Scopes, loops: nat, g: Gen, s: Statement)
    requires Fine(g) && Tracks(vs, g) && |vs| > 0 && s.kind == ForS
    requires CheckStmt(w, ret, vs, loops, s).Just? && Placed(s, false)
    ensures CheckStmt(w, ret, vs, loops, s) == Just(vs)
    ensures var h := GenStmt(w, g, s); h.ok && h.scopes == g.scopes && g.slots <= h.slots
    decreases s, 1
  {
    CheckListFrame(w, ret, vs, loops + 1, s.body);
    CheckListFrame(w, ret, vs, loops, s.alternative);
    ForHeadTotal(w, vs, g, s);
    ForExtends(w, g, s);
    hide Fine, Tracks, ForStages, ForHead, ForBlock, ForSlot, ForStart, ExprOk, CheckStmt, ForEnter, ForBody;
    ForShape(w, g, s);
    EnterKeeps(w, g, s);
    SegmentTotal(w, ret, vs, loops + 1, g, ForEnter(w, g, s), s.body, 0);
    ForBodyKeeps(w, g, s);
    var body, n := ForBody(w, g, s), ForBlock(w, g, s);
    AdvanceOk(MoveTo(body, n + 2), ForStart(w, g, s).o, ForSlot(w, g, s), n);
  }

  lemma ForShape(w: Env, g: Gen, s: Statement)
    requires |s.expressions| == 4 && ForStages(w, g, s)
    ensures Fine(ForEnter(w, g, s)) && ForBlock(w, g, s) + 2 < |ForBody(w, g, s).code| && ForBlock(w, g, s) + 1 < |ForHead(w, g, s).code|
    ensures var n, body := ForBlock(w, g, s), ForBody(w, g, s);
            var z := ForAdvance(MoveTo(body, n + 2), ForStart(w, g, s).o, ForSlot(w, g, s), n);
            n + 3 < |z.code| && GenFor(w, g, s) == MoveTo(z, n + 3)
  {
    hide Fine, Ext, Grows, ForEnter, ForBody, ForHead, ForBlock, ForSlot, ForStart, ForAdvance, Extends, GenFor;
  }

  lemma EnterKeeps(w: Env, g: Gen, s: Statement)
    requires |s.expressions| == 4
    ensures var head, enter := ForHead(w, g, s), ForEnter(w, g, s);
            && (enter.ok ==> head.ok) && (head.ok && ForBlock(w, g, s) + 1 < |head.code| ==> enter.ok)
            && enter.scopes == head.scopes && enter.slots == head.slots && enter.breaks != [] && enter.continues != []
  {
  }

  lemma ForBodyKeeps(w: Env, g: Gen, s: Statement)
    requires |s.expressions| == 4
    ensures var x, body := GenStmts(w, ForEnter(w, g, s), s.body), ForBody(w, g, s);
            body.ok == x.ok && body.scopes == x.scopes && body.slots == x.slots
  {
    hide ForEnter, ForBlock, Branch, GenStmts;
    BranchOk(LeaveLoop(GenStmts(w, ForEnter(w, g, s), s.body), g), ForBlock(w, g, s) + 2);
  }

  lemma AdvanceOk(g: Gen, counter: Operand, slot: nat, n: nat)
    ensures var h := ForAdvance(g, counter, slot, n); h.ok == g.ok && h.scopes == g.scopes && h.slots == g.slots
  {
  }

  lemma ForStartFound(w: Env, vs: Scopes, g: Gen, s: Statement)
    requires |s.expressions| == 4 && Prepared(w, vs, g, s.expressions) && Assignable(s.expressions[0])
    ensures ForStart(w, g, s).g.ok
  {
    hide Prepared, Knows;
    PreparedOk(w, vs, g, s.expressions);
    PreparedAt(w, vs, g, s.expressions, g, 1);
    ExprFound(w, vs, g, s.expressions[1]);
    var v := GenExpr(w, g, s.expressions[1]).g;
    PreparedAt(w, vs, g, s.expressions, v, 0);
    PlaceFound(w, vs, v, s.expressions[0]);
  }

  lemma ForStartTotal(w: Env, vs: Scopes, g: Gen, s: Statement)
    requires Tracks(vs, g) && |s.expressions| == 4 && ExprsOk(w, vs, s.expressions) && Assignable(s.expressions[0])
    ensures ForStart(w, g, s).g.ok
  {
    hide Tracks, Prepared, ForStart, ExprsOk;
    TracksPrepared(w, vs, g, s.expressions);
    ForStartFound(w, vs, g, s);
  }

  lemma ForTestFound(w: Env, vs: Scopes, g: Gen, s: Statement, counter: Operand, slot: nat, n: nat)
    requires |s.expressions| == 4 && Prepared(w, vs, g, s.expressions)
    ensures ForTest(w, g, s, counter, slot, n).ok
  {
    hide Prepared, Knows;
    PreparedOk(w, vs, g, s.expressions);
    var current := Def(g, Load(g.regs, counter)).g;
    PreparedAt(w, vs, g, s.expressions, current, 2);
    ForStepFound(w, vs, current, s, slot);
    PreparedAt(w, vs, g, s.expressions, ForStep(w, current, s, slot).g, 3);
    ExprFound(w, vs, ForStep(w, current, s, slot).g, s.expressions[3]);
    hide ForStep, GenExpr;
  }

  lemma ForStepFound(w: Env, vs: Scopes, g: Gen, s: Statement, slot: nat)
    requires |s.expressions| == 4 && Knows(w, vs, g, s.expressions[2])
    ensures ForStep(w, g, s, slot).g.ok && ForStep(w, g, s, slot).g.scopes == g.scopes
  {
    hide Knows;
    ExprFound(w, vs, g, s.expressions[2]);
    ForStepGrows(w, g, s, slot);
  }

  lemma ForStepTotal(w: Env, vs: Scopes, g: Gen, s: Statement, slot: nat)
    requires Tracks(vs, g) && |s.expressions| == 4 && ExprsOk(w, vs, s.expressions)
    ensures ForStep(w, g, s, slot).g.ok && Tracks(vs, ForStep(w, g, s, slot).g)
  {
    hide Tracks, Knows, ExprOk, GenExpr, Grows;
    TracksKnows(w, vs, g, s.expressions[2]);
    ForStepFound(w, vs, g, s, slot);
    ForStepGrows(w, g, s, slot);
    TracksGrown(vs, g, ForStep(w, g, s, slot).g);
  }

  lemma ForHeadFound(w: Env, vs: Scopes, g: Gen, s: Statement)
    requires Fine(g) && |s.expressions| == 4 && Prepared(w, vs, g, s.expressions) && Assignable(s.expressions[0])
    ensures var h := ForHead(w, g, s); h.ok && h.scopes == g.scopes && g.slots <= h.slots && SameLoops(g, h)
  {
    ForStartFound(w, vs, g, s);
    ForStartGrows(w, g, s);
    ForHeadStages(w, g, s);
    var entry, n := ForEntry(w, g, s), ForBlock(w, g, s);
    var t := MoveTo(entry.g, n);
    assert t.ok && t.scopes == g.scopes && g.slots <= t.slots;
    hide Prepared, ForStart, ForEntry, ForTest, Fine, ForBlock, ForSlot;
    PreparedOn(w, vs, g, s.expressions, t);
    ForTestFound(w, vs, t, s, entry.o, ForSlot(w, g, s), n);
  }

  lemma PreparedOn(w: Env, vs: Scopes, g: Gen, es: seq<Expression>, h: Gen)
    requires Prepared(w, vs, g, es) && h.ok && h.scopes == g.scopes
    ensures Prepared(w, vs, h, es)
  {
  }

  lemma ForHeadTotal(w: Env, vs: Scopes, g: Gen, s: Statement)
    requires Fine(g) && Tracks(vs, g) && |s.expressions| == 4 && ExprsOk(w, vs, s.expressions) && Assignable(s.expressions[0])
    ensures var h := ForHead(w, g, s); h.ok && h.scopes == g.scopes && g.slots <= h.slots && SameLoops(g, h)
  {
    hide Fine, Tracks, Prepared, ForHead, ExprsOk;
    TracksPrepared(w, vs, g, s.expressions);
    ForHeadFound(w, vs, g, s);
  }

  lemma {:induction false} ListTotal(w: Env, ret: Return, vs: Scopes, loops: nat, g: Gen, ss: seq<Statement>, here: bool)
    requires Fine(g) && Tracks(vs, g) && |vs| > 0 && InLoops(loops, g)
    requires CheckList(w, ret, vs, loops, ss).Just? && PlacedAll(ss, here)
    ensures |g.scopes| > 0 && Tracked(CheckList(w, ret, vs, loops, ss).value, g, GenStmts(w, g, ss), here)
    decreases ss, 0
  {
    if ss != [] {
      OpenNotEnded(g);
      StmtTotal(w, ret, vs, loops, g, ss[0], here);
      StmtExtends(w, g, ss[0]);
      var h, vs' := GenStmt(w, g, ss[0]), CheckStmt(w, ret, vs, loops, ss[0]).value;
      hide Sealed, Ext, Separate;
      if Terminated(h) {
        EndedStmts(w, h, ss[1..]);
      } else {
        ShapedOpen(h);
        ListTotal(w, ret, vs', loops, h, ss[1..], here);
      }
    }
  }

  // ----- functions -----

  /** Parameter declarations reach the state in which the body is generated. */
  lemma {:induction false} ParametersTrack(w: Env, g: Gen, ps: seq<Variable>, i: nat)
    requires i <= |ps| && Tracks([ParameterScope(ps[..i])], g)
    ensures Tracks([ParameterScope(ps)], GenParameters(w, g, ps, i))
    decreases |ps| - i
  {
    if i == |ps| {
      assert ps[..i] == ps;
    } else {
      var vs := [ParameterScope(ps[..i])];
      DeclareTracks(w, vs, g, ps[i]);
      var g1 := Declare(w, g, ps[i]);
      var g2 := Emit(g1, StoreTo(Reg(i), SlotRef(g.slots)));
      assert ps[..i + 1][..i] == ps[..i];
      assert vs[..0] + [vs[0][ps[i].name := ps[i]]] == [ParameterScope(ps[..i + 1])];
      ParametersTrack(w, g2, ps, i + 1);
    }
  }

  lemma FunctionTotal(w: Env, ret: Return, ps: seq<Variable>, body: Statement, ending: Ending)
    requires CheckStmt(w, ret, [ParameterScope(ps)], 0, body).Just? && Placed(body, true)
    ensures GenFunction(w, ps, body, ending).ok
  {
    var e := EntryState(|ps|);
    assert ps[..0] == [];
    assert Tracks([ParameterScope(ps[..0])], e);
    ParametersTrack(w, e, ps, 0);
    assert Fine(e);
    ParametersExtend(w, e, ps, 0);
    var a := GenParameters(w, e, ps, 0);
    StmtTotal(w, ret, [ParameterScope(ps)], 0, a, body, true);
  }

  /** Accepted programs are lowered completely: no lookup fails in any function or in the body. */
  lemma AcceptedProgramsLower(p: Program, floats: FloatSem)
    requires ProgramOk(p, floats) && ProgramPlaced(p)
    ensures var w := Tables(p, floats);
            && GenFunction(w, [], p.body, Exit).ok
            && forall f <- p.functions :: GenFunction(w, f.parameters, f.body, EndingOf(f)).ok
  {
    hide GenFunction, CheckStmt, Placed, CompositeOk, VariableOk, ParametersOk;
    var w := Tables(p, floats);
    FunctionTotal(w, Return(Int32, ""), [], p.body, Exit);
    forall f <- p.functions ensures GenFunction(w, f.parameters, f.body, EndingOf(f)).ok {
      assert FunctionOk(w, f);
      FunctionTotal(w, Return(f.result, f.resultComposite), f.parameters, f.body, EndingOf(f));
    }
  }
}
