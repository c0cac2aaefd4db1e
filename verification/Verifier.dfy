/**
The verifier as an object. `Verifier` fills its tables, pushes and pops scopes and counts loops,
nesting and nodes; its answer is exactly the typing rules of `Typing`, cut off at its work and
depth limits.
*/
module Verifier {
  import opened Wrappers
  import opened SemanticIR
  import opened Typing

  const WORK_LIMIT: nat := 100000
  const DEPTH_LIMIT: nat := 256

  // ----- work and depth -----

  function Max(a: nat, b: nat): nat {
    if a < b then b else a
  }

  function ExprNodes(e: Expression): nat
    decreases e, 1
  {
    1 + ExprsNodes(e.operands)
  }

  function ExprsNodes(es: seq<Expression>): nat
    decreases es, 0
  {
    if es == [] then 0 else ExprsNodes(es[..|es| - 1]) + ExprNodes(es[|es| - 1])
  }

  function ExprHeight(e: Expression): nat
    decreases e, 1
  {
    1 + ExprsHeight(e.operands)
  }

  function ExprsHeight(es: seq<Expression>): nat
    decreases es, 0
  {
    if es == [] then 0 else Max(ExprsHeight(es[..|es| - 1]), ExprHeight(es[|es| - 1]))
  }

  /** Targets of stores are visited a second time. */
  predicate HasTarget(s: Statement) {
    s.kind in {AssignS, UpdateS, ForS} && s.expressions != []
  }

  function TargetNodes(s: Statement): nat {
    if HasTarget(s) then ExprNodes(s.expressions[0]) else 0
  }

  function StmtNodes(s: Statement): nat
    decreases s, 1
  {
    1 + ExprsNodes(s.expressions) + TargetNodes(s) + ChildNodes(s)
  }

  function ChildNodes(s: Statement): nat
    decreases s, 0
  {
    match s.kind
    case BlockS => StmtsNodes(s.body)
    case IfS | WhileS | ForS => StmtsNodes(s.body) + StmtsNodes(s.alternative)
    case _ => 0
  }

  function StmtsNodes(ss: seq<Statement>): nat
    decreases ss, 0
  {
    if ss == [] then 0 else StmtsNodes(ss[..|ss| - 1]) + StmtNodes(ss[|ss| - 1])
  }

  function StmtHeight(s: Statement): nat
    decreases s, 1
  {
    1 + Max(ExprsHeight(s.expressions), ChildHeight(s))
  }

  function ChildHeight(s: Statement): nat
    decreases s, 0
  {
    match s.kind
    case BlockS => StmtsHeight(s.body)
    case IfS | WhileS | ForS => Max(StmtsHeight(s.body), StmtsHeight(s.alternative))
    case _ => 0
  }

  function StmtsHeight(ss: seq<Statement>): nat
    decreases ss, 0
  {
    if ss == [] then 0 else Max(StmtsHeight(ss[..|ss| - 1]), StmtHeight(ss[|ss| - 1]))
  }

  predicate Fits(nodes: nat, depth: nat, work: nat, height: nat) {
    nodes + work <= WORK_LIMIT && depth + height <= DEPTH_LIMIT
  }

  lemma {:induction false} ExprsPrefix(es: seq<Expression>, i: nat)
    requires i <= |es|
    ensures ExprsNodes(es[..i]) <= ExprsNodes(es) && ExprsHeight(es[..i]) <= ExprsHeight(es)
    decreases |es|
  {
    if i == |es| {
      assert es[..i] == es;
    } else {
      assert es[..|es| - 1][..i] == es[..i];
      ExprsPrefix(es[..|es| - 1], i);
    }
  }

  lemma {:induction false} StmtsPrefix(ss: seq<Statement>, i: nat)
    requires i <= |ss|
    ensures StmtsNodes(ss[..i]) <= StmtsNodes(ss) && StmtsHeight(ss[..i]) <= StmtsHeight(ss)
    decreases |ss|
  {
    if i == |ss| {
      assert ss[..i] == ss;
    } else {
      assert ss[..|ss| - 1][..i] == ss[..i];
      StmtsPrefix(ss[..|ss| - 1], i);
    }
  }

  /** A target is one of the statement's own expressions, so it adds no height. */
  lemma TargetHeight(es: seq<Expression>)
    requires es != []
    ensures ExprHeight(es[0]) <= ExprsHeight(es)
  {
    ExprsPrefix(es, 1);
    assert es[..1][..0] == [];
  }

  /** What a statement's sub-statements and declarations do to the scopes. */
  function Within(w: Env, ret: Return, vs: Scopes, loops: nat, s: Statement): Maybe<Scopes>
    requires |vs| > 0
  {
    match s.kind
    case BlockS =>
      if s.lexical then
        var r := CheckList(w, ret, vs + [map[]], loops, s.body);
        if r.Just? then Just(r.value[..|vs|]) else Nothing
      else CheckList(w, ret, vs, loops, s.body)
    case DeclareS => Typing.DeclareAll(w, vs, s.variables)
    case IfS => CheckBranches(w, ret, vs, loops, loops, s)
    case WhileS | ForS => CheckBranches(w, ret, vs, loops + 1, loops, s)
    case _ => Just(vs)
  }

  lemma CheckedWithin(w: Env, ret: Return, vs: Scopes, loops: nat, s: Statement)
    requires |vs| > 0
    ensures CheckStmt(w, ret, vs, loops, s) ==
            if ExprsOk(w, vs, s.expressions) && OperandsOk(w, ret, loops, s) then Within(w, ret, vs, loops, s) else Nothing
  {
    hide ExprsOk, OperandsOk, CheckList, CheckBranches, Typing.DeclareAll;
  }

  class Verifier {
    const floats: FloatSem
    var composites: map<string, CompositeDecl>
    var globals: map<string, Variable>
    var functions: map<string, Function>
    var scopes: Scopes
    var result: ScalarType
    var resultComposite: string
    var loops: nat
    var depth: nat
    var nodes: nat

    constructor (floats: FloatSem)
      ensures this.floats == floats && composites == map[] && globals == map[] && functions == map[] && scopes == []
      ensures loops == 0 && depth == 0 && nodes == 0
    {
      this.floats := floats;
      composites, globals, functions, scopes := map[], map[], map[], [];
      result, resultComposite, loops, depth, nodes := Int32, "", 0, 0, 0;
    }

    function Tables(): Env
      reads this
    {
      Env(composites, globals, functions, floats)
    }

    function Expected(): Return
      reads this
    {
      Return(result, resultComposite)
    }

    predicate InLimits()
      reads this
    {
      nodes <= WORK_LIMIT && depth <= DEPTH_LIMIT
    }

    // ----- names -----

    method Lookup(name: string) returns (r: Maybe<Variable>)
      ensures r == Typing.Lookup(Tables(), scopes, name)
    {
      var i := |scopes|;
      while i > 0
        invariant 0 <= i <= |scopes|
        invariant forall j | i <= j < |scopes| :: name !in scopes[j]
      {
        i := i - 1;
        if name in scopes[i] {
          return Just(scopes[i][name]);
        }
      }
      if name in globals {
        return Just(globals[name]);
      }
      return Nothing;
    }

    method IsIdentifier(s: string) returns (r: bool)
      ensures r == Identifier(s)
    {
      if s == [] || "__sh_" <= s || "short_" <= s {
        return false;
      }
      for i := 0 to |s|
        invariant forall j | 0 <= j < i :: Letter(s[j]) || (j > 0 && '0' <= s[j] <= '9')
      {
        if !(Letter(s[i]) || (i > 0 && '0' <= s[i] <= '9')) {
          return false;
        }
      }
      return true;
    }

    method IsVariable(v: Variable) returns (r: bool)
      ensures r == VariableOk(Tables(), v)
    {
      r := IsIdentifier(v.name);
      r := r && ValueType(Tables(), v.ty, v.composite) && 0 <= v.extent <= 65536
           && !(v.extent > 0 && (v.ty == String || v.ty == Composite));
    }

    // ----- expressions -----

    /** One more node, one level down; false at the limits. */
    method Enter() returns (ok: bool)
      requires InLimits()
      modifies this`depth, this`nodes
      ensures ok <==> Fits(old(nodes), old(depth), 1, 1)
      ensures ok ==> InLimits() && nodes == old(nodes) + 1 && depth == old(depth) + 1
    {
      nodes := nodes + 1;
      ok := nodes <= WORK_LIMIT;
      if ok {
        ok := depth < DEPTH_LIMIT;
        depth := depth + 1;
      }
      if !ok {
        depth := if depth == 0 then 0xFFFF_FFFF else depth - 1;
      }
    }

    method Expr(e: Expression, lvalue: bool) returns (ok: bool)
      requires InLimits()
      modifies this`depth, this`nodes
      ensures ok <==> ExprOk(Tables(), scopes, e) && (lvalue ==> Assignable(e)) && Fits(old(nodes), old(depth), ExprNodes(e), ExprHeight(e))
      ensures ok ==> InLimits() && nodes == old(nodes) + ExprNodes(e) && depth == old(depth)
      decreases e, 2
    {
      ok := Enter();
      if ok {
        ok := ExprImpl(e, lvalue);
        depth := if depth == 0 then 0xFFFF_FFFF else depth - 1;
      }
    }

    method ExprImpl(e: Expression, lvalue: bool) returns (ok: bool)
      requires InLimits() && depth > 0
      modifies this`depth, this`nodes
      ensures ok <==> ExprOk(Tables(), scopes, e) && (lvalue ==> Assignable(e)) && Fits(old(nodes), old(depth), ExprsNodes(e.operands), ExprsHeight(e.operands))
      ensures ok ==> InLimits() && nodes == old(nodes) + ExprsNodes(e.operands) && depth == old(depth)
      decreases e, 1
    {
      if (e.ty != Void && !ValueType(Tables(), e.ty, e.composite)) || (lvalue && e.kind != VariableE && e.kind != IndexE) {
        return false;
      }
      ok := Operands(e.operands);
      if ok {
        ok := Node(e);
      }
    }

    method Operands(es: seq<Expression>) returns (ok: bool)
      requires InLimits()
      modifies this`depth, this`nodes
      ensures ok <==> ExprsOk(Tables(), scopes, es) && Fits(old(nodes), old(depth), ExprsNodes(es), ExprsHeight(es))
      ensures ok ==> InLimits() && nodes == old(nodes) + ExprsNodes(es) && depth == old(depth)
      decreases es, 0
    {
      hide ExprOk, ExprNodes, ExprHeight;
      for i := 0 to |es|
        invariant InLimits() && depth == old(depth) && nodes == old(nodes) + ExprsNodes(es[..i])
        invariant ExprsOk(Tables(), scopes, es[..i]) && depth + ExprsHeight(es[..i]) <= DEPTH_LIMIT
      {
        assert es[..i + 1][..i] == es[..i] && es[..i + 1][i] == es[i];
        ExprsPrefix(es, i + 1);
        ok := Expr(es[i], false);
        if !ok {
          return;
        }
      }
      assert es[..|es|] == es;
      ok := true;
    }

    /** The rule of the node itself. */
    method Node(e: Expression) returns (ok: bool)
      ensures ok == NodeOk(Tables(), scopes, e)
    {
      match e.kind
      case IntegerE => ok := e.ty == Int32 && e.operands == [];
      case BooleanE => ok := e.ty == Bool && (e.integer == 0 || e.integer == 1) && e.operands == [];
      case FloatE => ok := e.ty == Float64 && floats.finite(e.decimal) && e.operands == [];
      case StringE => ok := e.ty == String && e.operands == [] && '\0' !in e.name;
      case VariableE =>
        var v := Lookup(e.name);
        ok := v.Just? && v.value.ty == e.ty && v.value.composite == e.composite && !(v.value.extent > 0) && e.operands == [];
      case IndexE =>
        var v := Lookup(e.name);
        ok := v.Just? && v.value.ty == e.ty && v.value.composite == e.composite && v.value.extent > 0
              && |e.operands| == 1 && e.operands[0].ty == Int32;
      case UnaryE => ok := |e.operands| == 1 && e.opcode == 1 && e.ty == e.operands[0].ty && Numeric(e.ty);
      case BinaryE => ok := BinaryRule(e);
      case CallE => ok := CallRule(e);
      case ConstructE => ok := ConstructRule(e);
      case ProjectE =>
        if |e.operands| != 1 || e.operands[0].ty != Composite || e.operands[0].composite !in composites {
          return false;
        }
        var c := composites[e.operands[0].composite];
        ok := c.kind != Slice && 0 <= e.integer < |c.Storage()| && e.ty == c.Storage()[e.integer];
      case SliceE => ok := SliceRule(e);
      case SliceIndexE =>
        var v := Lookup(e.name);
        if !v.Just? || v.value.ty != Composite || v.value.composite !in composites {
          return false;
        }
        var c := composites[v.value.composite];
        ok := c.kind == Slice && c.fields != [] && e.ty == c.fields[0] && |e.operands| == 1 && e.operands[0].ty == Int32;
    }

    method BinaryRule(e: Expression) returns (ok: bool)
      requires e.kind == BinaryE
      ensures ok == NodeOk(Tables(), scopes, e)
    {
      if |e.operands| != 2 || e.operands[0].ty != e.operands[1].ty {
        return false;
      }
      var a := e.operands[0].ty;
      if 1 <= e.opcode <= 4 {
        ok := Numeric(a) && e.ty == a;
      } else if e.opcode == 5 {
        ok := a == Int32 && e.ty == a;
      } else if 6 <= e.opcode <= 9 {
        ok := Numeric(a) && e.ty == Bool;
      } else if e.opcode == 10 || e.opcode == 11 {
        ok := IsScalar(a) && e.ty == Bool;
      } else if e.opcode == 12 || e.opcode == 13 {
        ok := Condition(a) && e.ty == Bool;
      } else {
        ok := false;
      }
    }

    method CallRule(e: Expression) returns (ok: bool)
      requires e.kind == CallE
      ensures ok == NodeOk(Tables(), scopes, e)
    {
      if e.name !in functions {
        return false;
      }
      var f := functions[e.name];
      if f.result != e.ty || f.resultComposite != e.composite || |f.parameters| != |e.operands| {
        return false;
      }
      for i := 0 to |e.operands|
        invariant forall j | 0 <= j < i :: e.operands[j].ty == f.parameters[j].ty && e.operands[j].composite == f.parameters[j].composite
      {
        if e.operands[i].ty != f.parameters[i].ty || e.operands[i].composite != f.parameters[i].composite {
          return false;
        }
      }
      return true;
    }

    method ConstructRule(e: Expression) returns (ok: bool)
      requires e.kind == ConstructE
      ensures ok == NodeOk(Tables(), scopes, e)
    {
      if e.ty != Composite || e.composite !in composites || composites[e.composite].kind == Slice {
        return false;
      }
      var expected := composites[e.composite].Storage();
      if |expected| != |e.operands| {
        return false;
      }
      for i := 0 to |expected|
        invariant forall j | 0 <= j < i :: e.operands[j].ty == expected[j]
      {
        if expected[i] != e.operands[i].ty {
          return false;
        }
      }
      return true;
    }

    /** The owner must be the global array itself: no local may shadow it. */
    method SliceRule(e: Expression) returns (ok: bool)
      requires e.kind == SliceE
      ensures ok == NodeOk(Tables(), scopes, e)
    {
      if e.ty != Composite || e.composite !in composites || composites[e.composite].kind != Slice || e.name !in globals {
        return false;
      }
      var shadowed := false;
      for i := 0 to |scopes|
        invariant shadowed == exists j | 0 <= j < i :: e.name in scopes[j]
      {
        shadowed := shadowed || e.name in scopes[i];
      }
      var owner, fields := globals[e.name], composites[e.composite].fields;
      ok := owner.extent > 0 && !shadowed && |e.operands| == 2 && fields != [] && owner.ty == fields[0]
            && e.operands[0].ty == Int32 && e.operands[1].ty == Int32;
    }

    // ----- statements -----

    /** The scopes after the statement are those of the rules; loops and depth are as before. */
    method Stmt(s: Statement) returns (ok: bool)
      requires InLimits() && |scopes| > 0
      modifies this`scopes, this`loops, this`depth, this`nodes
      ensures ok <==> CheckStmt(Tables(), Expected(), old(scopes), old(loops), s).Just? && Fits(old(nodes), old(depth), StmtNodes(s), StmtHeight(s))
      ensures ok ==> InLimits() && nodes == old(nodes) + StmtNodes(s) && depth == old(depth) && loops == old(loops)
      ensures ok ==> CheckStmt(Tables(), Expected(), old(scopes), old(loops), s) == Just(scopes)
      decreases s, 3
    {
      hide CheckStmt;
      ok := Enter();
      if ok {
        ok := StmtImpl(s);
        depth := if depth == 0 then 0xFFFF_FFFF else depth - 1;
      }
    }

    method StmtImpl(s: Statement) returns (ok: bool)
      requires InLimits() && |scopes| > 0
      modifies this`scopes, this`loops, this`depth, this`nodes
      ensures ok <==> CheckStmt(Tables(), Expected(), old(scopes), old(loops), s).Just? && Fits(old(nodes), old(depth), StmtNodes(s) - 1, StmtHeight(s) - 1)
      ensures ok ==> InLimits() && nodes == old(nodes) + StmtNodes(s) - 1 && depth == old(depth) && loops == old(loops)
      ensures ok ==> CheckStmt(Tables(), Expected(), old(scopes), old(loops), s) == Just(scopes)
      decreases s, 2
    {
      CheckedWithin(Tables(), Expected(), scopes, loops, s);
      hide CheckStmt, Within, ExprsOk, OperandsOk, ExprsNodes, ExprsHeight, ChildNodes, ChildHeight;
      ok := Operands(s.expressions);
      if ok {
        ok := OwnRule(s);
      }
      if ok {
        ok := Inner(s);
      }
    }

    /** The second visit of a store's target. */
    method Target(s: Statement) returns (ok: bool)
      requires InLimits() && HasTarget(s) && ExprOk(Tables(), scopes, s.expressions[0]) && depth + ExprsHeight(s.expressions) <= DEPTH_LIMIT
      modifies this`depth, this`nodes
      ensures ok <==> Assignable(s.expressions[0]) && old(nodes) + TargetNodes(s) <= WORK_LIMIT
      ensures ok ==> InLimits() && nodes == old(nodes) + TargetNodes(s) && depth == old(depth)
    {
      TargetHeight(s.expressions);
      hide ExprOk, ExprsHeight, ExprHeight, ExprNodes;
      ok := Expr(s.expressions[0], true);
    }

    /** The rule about the statement's own operands; targets are visited again. */
    method OwnRule(s: Statement) returns (ok: bool)
      requires InLimits() && ExprsOk(Tables(), scopes, s.expressions) && depth + ExprsHeight(s.expressions) <= DEPTH_LIMIT
      modifies this`depth, this`nodes
      ensures ok <==> OperandsOk(Tables(), Expected(), loops, s) && old(nodes) + TargetNodes(s) <= WORK_LIMIT
      ensures ok ==> InLimits() && nodes == old(nodes) + TargetNodes(s) && depth == old(depth)
    {
      hide ExprOk, ExprsHeight, ExprNodes;
      var n := |s.expressions|;
      match s.kind
      case BlockS | DeclareS => ok := n == 0;
      case AssignS =>
        if n != 2 {
          return false;
        }
        ok := Target(s);
        ok := ok && SameType(s.expressions[0], s.expressions[1]);
      case UpdateS => ok := UpdateRule(s);
      case ExpressionS => ok := n == 1;
      case PrintS =>
        for i := 0 to n
          invariant forall j | 0 <= j < i :: IsScalar(s.expressions[j].ty)
          invariant nodes == old(nodes) && depth == old(depth)
        {
          if !IsScalar(s.expressions[i].ty) {
            return false;
          }
        }
        ok := n > 0;
      case IfS | WhileS => ok := n == 1 && Condition(s.expressions[0].ty);
      case ForS =>
        if n != 4 {
          return false;
        }
        ok := Target(s);
        ok := ok && s.expressions[0].ty == Int32 && s.expressions[1].ty == Int32 && s.expressions[2].ty == Int32 && s.expressions[3].ty == Int32;
      case BreakS | ContinueS => ok := n == 0 && loops > 0;
      case ReturnS =>
        ok := n == (if result == Void then 0 else 1)
              && (result == Void || (s.expressions[0].ty == result && s.expressions[0].composite == resultComposite));
    }

    method UpdateRule(s: Statement) returns (ok: bool)
      requires s.kind == UpdateS && InLimits() && ExprsOk(Tables(), scopes, s.expressions) && depth + ExprsHeight(s.expressions) <= DEPTH_LIMIT
      modifies this`depth, this`nodes
      ensures ok <==> OperandsOk(Tables(), Expected(), loops, s) && old(nodes) + TargetNodes(s) <= WORK_LIMIT
      ensures ok ==> InLimits() && nodes == old(nodes) + TargetNodes(s) && depth == old(depth)
    {
      if |s.expressions| != 2 || s.expressions[0].ty != Composite {
        return false;
      }
      assert ExprOk(Tables(), scopes, s.expressions[0]);
      hide ExprsHeight, ExprNodes, NodeOk;
      ok := Target(s);
      if ok {
        var c := composites[s.expressions[0].composite];
        ok := c.kind == Record && s.declaration < |c.fields| && c.fields[s.declaration] == s.expressions[1].ty;
      }
    }

    method Inner(s: Statement) returns (ok: bool)
      requires InLimits() && |scopes| > 0
      modifies this`scopes, this`loops, this`depth, this`nodes
      ensures ok <==> Within(Tables(), Expected(), old(scopes), old(loops), s).Just? && Fits(old(nodes), old(depth), ChildNodes(s), ChildHeight(s))
      ensures ok ==> InLimits() && nodes == old(nodes) + ChildNodes(s) && depth == old(depth) && loops == old(loops)
      ensures ok ==> Within(Tables(), Expected(), old(scopes), old(loops), s) == Just(scopes)
      decreases s, 1
    {
      hide CheckList, CheckBranches, StmtsNodes, StmtsHeight, Typing.DeclareAll;
      match s.kind
      case BlockS =>
        if s.lexical {
          scopes := scopes + [map[]];
        }
        ok := Stmts(s.body);
        if ok && s.lexical {
          scopes := scopes[..|scopes| - 1];
        }
      case DeclareS => ok := DeclareAll(s.variables);
      case IfS => ok := Branches(s, false);
      case WhileS | ForS => ok := Branches(s, true);
      case _ => ok := true;
    }

    /** Body and alternative; a loop counts while its body is checked. */
    method Branches(s: Statement, loop: bool) returns (ok: bool)
      requires InLimits() && |scopes| > 0
      modifies this`scopes, this`loops, this`depth, this`nodes
      ensures var work, height := StmtsNodes(s.body) + StmtsNodes(s.alternative), Max(StmtsHeight(s.body), StmtsHeight(s.alternative));
              var r := CheckBranches(Tables(), Expected(), old(scopes), if loop then old(loops) + 1 else old(loops), old(loops), s);
              && (ok <==> r.Just? && Fits(old(nodes), old(depth), work, height))
              && (ok ==> InLimits() && nodes == old(nodes) + work && depth == old(depth) && loops == old(loops) && r == Just(scopes))
      decreases s, 0
    {
      hide CheckList, StmtsNodes, StmtsHeight;
      if loop {
        loops := loops + 1;
      }
      ok := Stmts(s.body);
      if ok {
        if loop {
          loops := loops - 1;
        }
        ok := Stmts(s.alternative);
      }
    }

    method Stmts(ss: seq<Statement>) returns (ok: bool)
      requires InLimits() && |scopes| > 0
      modifies this`scopes, this`loops, this`depth, this`nodes
      ensures ok <==> CheckList(Tables(), Expected(), old(scopes), old(loops), ss).Just? && Fits(old(nodes), old(depth), StmtsNodes(ss), StmtsHeight(ss))
      ensures ok ==> InLimits() && nodes == old(nodes) + StmtsNodes(ss) && depth == old(depth) && loops == old(loops)
      ensures ok ==> CheckList(Tables(), Expected(), old(scopes), old(loops), ss) == Just(scopes)
      decreases ss, 0
    {
      hide CheckStmt, StmtNodes, StmtHeight;
      for i := 0 to |ss|
        invariant InLimits() && depth == old(depth) && loops == old(loops) && nodes == old(nodes) + StmtsNodes(ss[..i])
        invariant depth + StmtsHeight(ss[..i]) <= DEPTH_LIMIT && |scopes| == |old(scopes)|
        invariant CheckList(Tables(), Expected(), old(scopes), loops, ss) == CheckList(Tables(), Expected(), scopes, loops, ss[i..])
      {
        assert ss[..i + 1][..i] == ss[..i] && ss[..i + 1][i] == ss[i];
        assert ss[i..][0] == ss[i] && ss[i..][1..] == ss[i + 1..];
        StmtsPrefix(ss, i + 1);
        ok := Stmt(ss[i]);
        if !ok {
          return;
        }
      }
      assert ss[..|ss|] == ss;
      ok := true;
    }

    method DeclareAll(ds: seq<Variable>) returns (ok: bool)
      requires |scopes| > 0
      modifies this`scopes
      ensures ok <==> Typing.DeclareAll(Tables(), old(scopes), ds).Just?
      ensures ok ==> Typing.DeclareAll(Tables(), old(scopes), ds) == Just(scopes)
    {
      hide VariableOk;
      for i := 0 to |ds|
        invariant |scopes| == |old(scopes)|
        invariant Typing.DeclareAll(Tables(), old(scopes), ds) == Typing.DeclareAll(Tables(), scopes, ds[i..])
      {
        assert ds[i..][0] == ds[i] && ds[i..][1..] == ds[i + 1..];
        ok := IsVariable(ds[i]);
        var n := |scopes| - 1;
        if !ok || ds[i].name in scopes[n] {
          return false;
        }
        scopes := scopes[..n] + [scopes[n][ds[i].name := ds[i]]];
      }
      ok := true;
    }

    // ----- programs -----

    method IsComposite(c: CompositeDecl) returns (ok: bool)
      ensures ok == CompositeOk(c)
    {
      ok := IsIdentifier(c.name);
      if !ok || |c.fields| > 256 || |c.names| > 256 {
        return false;
      }
      match c.kind {
        case Record => ok := c.fields != [];
        case Enum => ok := c.fields == [] && c.names != [];
        case Option | Slice => ok := |c.fields| == 1;
        case Result => ok := |c.fields| == 2;
      }
      if !ok || (c.kind != Enum && |c.fields| != |c.names|) {
        return false;
      }
      for i := 0 to |c.fields|
        invariant forall j | 0 <= j < i :: IsScalar(c.fields[j]) && (c.kind == Slice ==> Numeric(c.fields[j]))
      {
        if !IsScalar(c.fields[i]) || (c.kind == Slice && !Numeric(c.fields[i])) {
          return false;
        }
      }
      ok := AreNames(c.names);
    }

    method AreNames(names: seq<string>) returns (ok: bool)
      ensures ok <==> (forall i | 0 <= i < |names| :: Identifier(names[i])) && (forall i, j | 0 <= i < j < |names| :: names[i] != names[j])
    {
      hide Identifier;
      var seen: set<string> := {};
      for i := 0 to |names|
        invariant forall n :: n in seen <==> n in names[..i]
        invariant forall j | 0 <= j < i :: Identifier(names[j])
        invariant forall j, k | 0 <= j < k < i :: names[j] != names[k]
      {
        var good := IsIdentifier(names[i]);
        if !good || names[i] in seen {
          return false;
        }
        seen := seen + {names[i]};
      }
      ok := true;
    }

    method AddComposites(cs: seq<CompositeDecl>) returns (ok: bool)
      requires composites == map[]
      modifies this`composites
      ensures ok <==> (forall c <- cs :: CompositeOk(c)) && Distinct(cs, CompositeName)
      ensures ok ==> composites == ByName(cs, CompositeName)
    {
      hide CompositeOk, ByName, Distinct;
      NoneByName(cs, CompositeName);
      for i := 0 to |cs|
        invariant composites == ByName(cs[..i], CompositeName) && Distinct(cs[..i], CompositeName)
        invariant forall j | 0 <= j < i :: CompositeOk(cs[j])
      {
        NextByName(cs, CompositeName, i);
        ok := IsComposite(cs[i]);
        if !ok || cs[i].name in composites {
          return false;
        }
        composites := composites[cs[i].name := cs[i]];
      }
      assert cs[..|cs|] == cs;
      ok := true;
    }

    method IsGlobal(v: Variable) returns (r: bool)
      ensures r == GlobalOk(Tables(), v)
    {
      hide VariableOk;
      r := IsVariable(v);
      r := r && v.name !in RESERVED;
    }

    method AddGlobals(vs: seq<Variable>) returns (ok: bool)
      requires globals == map[]
      modifies this`globals
      ensures ok <==> (forall v <- vs :: GlobalOk(old(Tables()), v)) && Distinct(vs, VariableName)
      ensures ok ==> globals == ByName(vs, VariableName)
    {
      hide GlobalOk, ByName, Distinct;
      NoneByName(vs, VariableName);
      for i := 0 to |vs|
        invariant globals == ByName(vs[..i], VariableName) && Distinct(vs[..i], VariableName)
        invariant forall j | 0 <= j < i :: GlobalOk(old(Tables()), vs[j])
      {
        NextByName(vs, VariableName, i);
        ok := IsGlobal(vs[i]);
        SameVariables(Tables(), old(Tables()), vs[i]);
        if !ok || vs[i].name in globals {
          return false;
        }
        globals := globals[vs[i].name := vs[i]];
      }
      assert vs[..|vs|] == vs;
      ok := true;
    }

    predicate IsFunction(f: Function)
      reads this
    {
      Identifier(f.name) && f.name !in RESERVED && f.name !in globals && SignatureOk(Tables(), f)
    }

    method AddFunctions(fs: seq<Function>) returns (ok: bool)
      requires functions == map[]
      modifies this`functions
      ensures ok <==> (forall f <- fs :: old(IsFunction(f))) && Distinct(fs, FunctionName)
      ensures ok ==> functions == ByName(fs, FunctionName)
    {
      hide ByName, Distinct, Identifier;
      NoneByName(fs, FunctionName);
      for i := 0 to |fs|
        invariant functions == ByName(fs[..i], FunctionName) && Distinct(fs[..i], FunctionName)
        invariant forall j | 0 <= j < i :: old(IsFunction(fs[j]))
      {
        NextByName(fs, FunctionName, i);
        var name := IsIdentifier(fs[i].name);
        var f := fs[i];
        ok := name && f.name !in RESERVED && f.name !in globals
              && (ValueType(Tables(), f.result, f.resultComposite) || (f.result == Void && f.resultComposite == ""));
        if !ok || f.name in functions {
          return false;
        }
        functions := functions[f.name := f];
      }
      assert fs[..|fs|] == fs;
      ok := true;
    }

    method Parameters(ps: seq<Variable>) returns (ok: bool)
      requires scopes == [map[]]
      modifies this`scopes
      ensures ok <==> ParametersOk(Tables(), ps)
      ensures ok ==> scopes == [ParameterScope(ps)]
    {
      hide VariableOk, ByName, Distinct;
      NoneByName(ps, VariableName);
      for i := 0 to |ps|
        invariant scopes == [ByName(ps[..i], VariableName)] && Distinct(ps[..i], VariableName)
        invariant forall j | 0 <= j < i :: VariableOk(Tables(), ps[j]) && ps[j].extent == 0
      {
        NextByName(ps, VariableName, i);
        ok := IsVariable(ps[i]);
        if !ok || ps[i].extent != 0 || ps[i].name in scopes[0] {
          return false;
        }
        scopes := [scopes[0][ps[i].name := ps[i]]];
      }
      assert ps[..|ps|] == ps;
      ok := true;
    }

    /** One function body in a scope of its own. */
    method Body(f: Function) returns (ok: bool)
      requires InLimits() && scopes == [] && loops == 0 && depth == 0
      modifies this`scopes, this`loops, this`depth, this`nodes, this`result, this`resultComposite
      ensures ok <==> FunctionOk(Tables(), f) && Fits(old(nodes), 0, StmtNodes(f.body), StmtHeight(f.body))
      ensures ok ==> InLimits() && nodes == old(nodes) + StmtNodes(f.body) && scopes == [] && loops == 0 && depth == 0
    {
      hide CheckStmt, StmtNodes, StmtHeight, ParametersOk, ParameterScope;
      scopes := [map[]];
      result, resultComposite := f.result, f.resultComposite;
      ok := Parameters(f.parameters);
      if ok {
        ok := Stmt(f.body);
        if ok {
          scopes := scopes[..|scopes| - 1];
        }
      }
    }

    method Bodies(fs: seq<Function>) returns (ok: bool)
      requires InLimits() && scopes == [] && loops == 0 && depth == 0
      modifies this`scopes, this`loops, this`depth, this`nodes, this`result, this`resultComposite
      ensures ok <==> (forall f <- fs :: FunctionOk(Tables(), f) && StmtHeight(f.body) <= DEPTH_LIMIT) && old(nodes) + BodyNodes(fs) <= WORK_LIMIT
      ensures ok ==> InLimits() && nodes == old(nodes) + BodyNodes(fs) && scopes == [] && loops == 0 && depth == 0
    {
      hide FunctionOk, StmtNodes, StmtHeight;
      for i := 0 to |fs|
        invariant InLimits() && scopes == [] && loops == 0 && depth == 0 && nodes == old(nodes) + BodyNodes(fs[..i])
        invariant forall j | 0 <= j < i :: FunctionOk(Tables(), fs[j]) && StmtHeight(fs[j].body) <= DEPTH_LIMIT
      {
        assert fs[..i + 1][..i] == fs[..i];
        BodiesPrefix(fs, i + 1);
        ok := Body(fs[i]);
        if !ok {
          return;
        }
      }
      assert fs[..|fs|] == fs;
      ok := true;
    }

    /** Fills the tables in the order of the rules that need them. */
    method Tabulate(p: Program) returns (ok: bool)
      requires composites == map[] && globals == map[] && functions == map[]
      modifies this`composites, this`globals, this`functions
      ensures ok <==> DeclarationsOk(p, floats)
      ensures ok ==> Tables() == Typing.Tables(p, floats)
    {
      hide CompositeOk, ByName, Distinct, Identifier, GlobalOk, SignatureOk;
      ghost var w := Typing.Tables(p, floats);
      ok := AddComposites(p.composites);
      if ok {
        ghost var w1 := Tables();
        ok := AddGlobals(p.globals);
        forall v <- p.globals ensures GlobalOk(w1, v) == GlobalOk(w, v) {
          SameVariables(w1, w, v);
        }
      }
      if ok {
        ghost var w2 := Tables();
        ok := AddFunctions(p.functions);
        forall f <- p.functions ensures SignatureOk(w2, f) == SignatureOk(w, f) {
          SameSignatures(w2, w, f);
        }
      }
    }

    /** Accepts exactly the well-typed programs whose work and nesting stay within the limits. */
    method Run(p: Program) returns (ok: bool)
      requires composites == map[] && globals == map[] && functions == map[] && scopes == [] && loops == 0 && depth == 0 && nodes == 0
      modifies this
      ensures ok <==> ProgramOk(p, floats) && ProgramFits(p)
    {
      hide FunctionOk, StmtNodes, StmtHeight, CheckStmt, DeclarationsOk, BodyNodes, ProgramOk, Typing.Tables;
      ProgramParts(p, floats);
      ok := Tabulate(p);
      if ok {
        ok := Bodies(p.functions);
      }
      if ok {
        scopes := [map[]];
        result, resultComposite := Int32, "";
        ok := Stmt(p.body);
      }
    }
  }

  // ----- whole programs -----

  function BodyNodes(fs: seq<Function>): nat {
    if fs == [] then 0 else BodyNodes(fs[..|fs| - 1]) + StmtNodes(fs[|fs| - 1].body)
  }

  lemma {:induction false} BodiesPrefix(fs: seq<Function>, i: nat)
    requires i <= |fs|
    ensures BodyNodes(fs[..i]) <= BodyNodes(fs)
    decreases |fs|
  {
    if i == |fs| {
      assert fs[..i] == fs;
    } else {
      assert fs[..|fs| - 1][..i] == fs[..i];
      BodiesPrefix(fs[..|fs| - 1], i);
    }
  }

  /** All bodies together within the work limit, each within the depth limit. */
  predicate ProgramFits(p: Program) {
    && BodyNodes(p.functions) + StmtNodes(p.body) <= WORK_LIMIT
    && (forall f <- p.functions :: StmtHeight(f.body) <= DEPTH_LIMIT) && StmtHeight(p.body) <= DEPTH_LIMIT
  }

  /** The part of the rules that is about declarations alone. */
  predicate DeclarationsOk(p: Program, floats: FloatSem) {
    var w := Typing.Tables(p, floats);
    && (forall c <- p.composites :: CompositeOk(c)) && Distinct(p.composites, CompositeName)
    && (forall v <- p.globals :: GlobalOk(w, v)) && Distinct(p.globals, VariableName)
    && (forall f <- p.functions :: Identifier(f.name) && f.name !in RESERVED && f.name !in w.globals && SignatureOk(w, f))
    && Distinct(p.functions, FunctionName)
  }

  lemma ProgramParts(p: Program, floats: FloatSem)
    ensures var w := Typing.Tables(p, floats);
            && (ProgramOk(p, floats) <==> DeclarationsOk(p, floats) && (forall f <- p.functions :: FunctionOk(w, f)) && BodyOk(w, p.body))
            && w.floats == floats
  {
    hide CompositeOk, VariableOk, Identifier, SignatureOk, Distinct, FunctionOk, BodyOk;
  }

  lemma SameSignatures(w: Env, w': Env, f: Function)
    requires w.composites == w'.composites
    ensures SignatureOk(w, f) == SignatureOk(w', f)
  {
  }

  lemma NoneByName<A>(xs: seq<A>, name: A -> string)
    ensures ByName(xs[..0], name) == map[] && Distinct(xs[..0], name)
  {
  }

  lemma NextByName<A>(xs: seq<A>, name: A -> string, i: nat)
    requires i < |xs|
    ensures ByName(xs[..i + 1], name) == ByName(xs[..i], name)[name(xs[i]) := xs[i]]
    ensures Distinct(xs[..i], name) ==> (Distinct(xs[..i + 1], name) <==> name(xs[i]) !in ByName(xs[..i], name))
    ensures Distinct(xs, name) ==> Distinct(xs[..i + 1], name)
    ensures xs[i] in xs
  {
    assert xs[..i + 1][..i] == xs[..i];
    if Distinct(xs[..i], name) && name(xs[i]) !in ByName(xs[..i], name) {
      var ys := xs[..i + 1];
      forall j, k | 0 <= j < k < |ys| ensures name(ys[j]) != name(ys[k]) {
        if k == i {
          assert xs[..i][j] in xs[..i];
        } else {
          assert name(xs[..i][j]) != name(xs[..i][k]);
        }
      }
    }
    if name(xs[i]) in ByName(xs[..i], name) {
      var x := ByName(xs[..i], name)[name(xs[i])];
      var j :| 0 <= j < i && xs[..i][j] == x;
      assert name(xs[..i + 1][j]) == name(xs[..i + 1][i]);
    }
  }

  lemma SameVariables(w: Env, w': Env, v: Variable)
    requires w.composites == w'.composites
    ensures GlobalOk(w, v) == GlobalOk(w', v)
  {
  }
}
