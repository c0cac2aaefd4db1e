/**
The typing rules of SemanticIR: what the verifier accepts, stated as relations on the
program. `Verifier` decides them; the generator and the evaluators rely on them.
*/
module Typing {
  import opened Wrappers
  import opened SemanticIR

  /** One map per open lexical scope, the innermost last. */
  type Scopes = seq<map<string, Variable>>

  /** The innermost scope that binds `name`, or -1. Shared by verifier, generator and evaluator. */
  function Innermost<A>(scopes: seq<map<string, A>>, name: string): (i: int)
    ensures -1 <= i < |scopes|
    ensures 0 <= i ==> name in scopes[i]
    ensures forall j | i < j < |scopes| :: name !in scopes[j]
  {
    if scopes == [] then -1
    else if name in scopes[|scopes| - 1] then |scopes| - 1
    else Innermost(scopes[..|scopes| - 1], name)
  }

  function Lookup(w: Env, vs: Scopes, name: string): Maybe<Variable> {
    var i := Innermost(vs, name);
    if i >= 0 then Just(vs[i][name])
    else if name in w.globals then Just(w.globals[name])
    else Nothing
  }

  // ----- names and types -----

  predicate Letter(c: char) {
    c == '_' || 'a' <= c <= 'z' || 'A' <= c <= 'Z'
  }

  predicate Identifier(s: string) {
    && s != [] && !("__sh_" <= s) && !("short_" <= s)
    && forall i | 0 <= i < |s| :: Letter(s[i]) || (i > 0 && '0' <= s[i] <= '9')
  }

  const RESERVED: set<string> := {"main", "printf", "scanf", "strcmp", "write", "exit", "malloc", "free"}

  predicate IsScalar(t: ScalarType) {
    t == Int32 || t == Bool || t == Float64 || t == String
  }

  predicate Numeric(t: ScalarType) {
    t == Int32 || t == Float64
  }

  predicate Condition(t: ScalarType) {
    t == Bool || t == Int32
  }

  predicate ValueType(w: Env, t: ScalarType, id: string) {
    if t == Composite then id in w.composites else IsScalar(t) && id == ""
  }

  predicate VariableOk(w: Env, v: Variable) {
    && Identifier(v.name) && ValueType(w, v.ty, v.composite) && 0 <= v.extent <= 65536
    && !(v.extent > 0 && (v.ty == String || v.ty == Composite))
  }

  predicate GlobalOk(w: Env, v: Variable) {
    VariableOk(w, v) && v.name !in RESERVED
  }

  predicate CompositeOk(c: CompositeDecl) {
    && Identifier(c.name) && |c.fields| <= 256 && |c.names| <= 256
    && (match c.kind
        case Record => c.fields != []
        case Enum => c.fields == [] && c.names != []
        case Option | Slice => |c.fields| == 1
        case Result => |c.fields| == 2)
    && (c.kind != Enum ==> |c.fields| == |c.names|)
    && (forall i | 0 <= i < |c.fields| :: IsScalar(c.fields[i]) && (c.kind == Slice ==> Numeric(c.fields[i])))
    && (forall i | 0 <= i < |c.names| :: Identifier(c.names[i]))
    && (forall i, j | 0 <= i < j < |c.names| :: c.names[i] != c.names[j])
  }

  /** What the verifier has established about the tables before it looks at any body. */
  predicate TablesOk(w: Env) {
    && (forall n <- w.composites :: CompositeOk(w.composites[n]))
    && (forall n <- w.globals :: VariableOk(w, w.globals[n]) && w.globals[n].name == n)
    && (forall n <- w.functions :: SignatureOk(w, w.functions[n]) && w.functions[n].name == n && n != "main")
  }

  predicate SignatureOk(w: Env, f: Function) {
    if f.result == Void then f.resultComposite == "" else ValueType(w, f.result, f.resultComposite)
  }

  // ----- expressions -----

  predicate BinaryOk(opcode: int, a: ScalarType, result: ScalarType) {
    if 1 <= opcode <= 4 then Numeric(a) && result == a
    else if opcode == 5 then a == Int32 && result == a
    else if 6 <= opcode <= 9 then Numeric(a) && result == Bool
    else if opcode == 10 || opcode == 11 then IsScalar(a) && result == Bool
    else if opcode == 12 || opcode == 13 then Condition(a) && result == Bool
    else false
  }

  predicate ArgumentsOk(parameters: seq<Variable>, args: seq<Expression>) {
    && |args| == |parameters|
    && forall i | 0 <= i < |args| :: args[i].ty == parameters[i].ty && args[i].composite == parameters[i].composite
  }

  predicate FieldsOk(expected: seq<ScalarType>, args: seq<Expression>) {
    && |args| == |expected|
    && forall i | 0 <= i < |args| :: args[i].ty == expected[i]
  }

  /** The rule of one expression node, given that its operands are well typed. */
  predicate NodeOk(w: Env, vs: Scopes, e: Expression) {
    match e.kind
    case IntegerE => e.ty == Int32 && e.operands == []
    case BooleanE => e.ty == Bool && (e.integer == 0 || e.integer == 1) && e.operands == []
    case FloatE => e.ty == Float64 && w.floats.finite(e.decimal) && e.operands == []
    case StringE => e.ty == String && e.operands == [] && '\0' !in e.name
    case VariableE =>
      var d := Lookup(w, vs, e.name);
      d.Just? && d.value.ty == e.ty && d.value.composite == e.composite && d.value.extent <= 0 && e.operands == []
    case IndexE =>
      var d := Lookup(w, vs, e.name);
      && d.Just? && d.value.ty == e.ty && d.value.composite == e.composite && d.value.extent > 0
      && |e.operands| == 1 && e.operands[0].ty == Int32
    case UnaryE => |e.operands| == 1 && e.opcode == 1 && e.ty == e.operands[0].ty && Numeric(e.ty)
    case BinaryE =>
      |e.operands| == 2 && e.operands[0].ty == e.operands[1].ty && BinaryOk(e.opcode, e.operands[0].ty, e.ty)
    case CallE =>
      && e.name in w.functions && w.functions[e.name].result == e.ty
      && w.functions[e.name].resultComposite == e.composite && ArgumentsOk(w.functions[e.name].parameters, e.operands)
    case ConstructE =>
      && e.ty == Composite && e.composite in w.composites && w.composites[e.composite].kind != Slice
      && FieldsOk(w.composites[e.composite].Storage(), e.operands)
    case ProjectE =>
      && |e.operands| == 1 && e.operands[0].ty == Composite && e.operands[0].composite in w.composites
      && var c := w.composites[e.operands[0].composite];
         c.kind != Slice && 0 <= e.integer < |c.Storage()| && e.ty == c.Storage()[e.integer]
    case SliceE =>
      && e.ty == Composite && e.composite in w.composites && w.composites[e.composite].kind == Slice
      && e.name in w.globals && w.globals[e.name].extent > 0 && Innermost(vs, e.name) < 0 && |e.operands| == 2
      && w.composites[e.composite].fields != [] && w.globals[e.name].ty == w.composites[e.composite].fields[0]
      && e.operands[0].ty == Int32 && e.operands[1].ty == Int32
    case SliceIndexE =>
      var d := Lookup(w, vs, e.name);
      && d.Just? && d.value.ty == Composite && d.value.composite in w.composites
      && var c := w.composites[d.value.composite];
         c.kind == Slice && c.fields != [] && e.ty == c.fields[0] && |e.operands| == 1 && e.operands[0].ty == Int32
  }

  predicate ExprOk(w: Env, vs: Scopes, e: Expression) {
    && (e.ty != Void ==> ValueType(w, e.ty, e.composite))
    && (forall i | 0 <= i < |e.operands| :: ExprOk(w, vs, e.operands[i]))
    && NodeOk(w, vs, e)
  }

  predicate ExprsOk(w: Env, vs: Scopes, es: seq<Expression>) {
    forall i | 0 <= i < |es| :: ExprOk(w, vs, es[i])
  }

  predicate Assignable(e: Expression) {
    e.kind == VariableE || e.kind == IndexE
  }

  // ----- statements -----

  /** The result type of the enclosing function. */
  datatype Return = Return(ty: ScalarType, composite: string)

  /** Declares the variables one by one in the innermost scope; duplicates and ill-formed ones are refused. */
  function DeclareAll(w: Env, vs: Scopes, ds: seq<Variable>): (r: Maybe<Scopes>)
    requires |vs| > 0
    ensures r.Just? ==> |r.value| == |vs| && r.value[..|vs| - 1] == vs[..|vs| - 1]
    decreases ds
  {
    if ds == [] then Just(vs)
    else
      var top := vs[|vs| - 1];
      if VariableOk(w, ds[0]) && ds[0].name !in top then
        DeclareAll(w, vs[..|vs| - 1] + [top[ds[0].name := ds[0]]], ds[1..])
      else Nothing
  }

  predicate SameType(a: Expression, b: Expression) {
    a.ty == b.ty && a.composite == b.composite
  }

  /** The rules of a statement about its own operands; sub-statements are checked by `CheckStmt`. */
  predicate OperandsOk(w: Env, ret: Return, loops: nat, s: Statement) {
    match s.kind
    case BlockS | DeclareS => s.expressions == []
    case AssignS => |s.expressions| == 2 && Assignable(s.expressions[0]) && SameType(s.expressions[0], s.expressions[1])
    case UpdateS =>
      && |s.expressions| == 2 && s.expressions[0].ty == Composite && Assignable(s.expressions[0])
      && s.expressions[0].composite in w.composites
      && var c := w.composites[s.expressions[0].composite];
         c.kind == Record && s.declaration < |c.fields| && c.fields[s.declaration] == s.expressions[1].ty
    case ExpressionS => |s.expressions| == 1
    case PrintS => s.expressions != [] && forall i | 0 <= i < |s.expressions| :: IsScalar(s.expressions[i].ty)
    case IfS | WhileS => |s.expressions| == 1 && Condition(s.expressions[0].ty)
    case ForS =>
      && |s.expressions| == 4 && Assignable(s.expressions[0])
      && forall i | 0 <= i < 4 :: s.expressions[i].ty == Int32
    case BreakS | ContinueS => s.expressions == [] && loops > 0
    case ReturnS =>
      if ret.ty == Void then s.expressions == []
      else |s.expressions| == 1 && s.expressions[0].ty == ret.ty && s.expressions[0].composite == ret.composite
  }

  /** The scopes after a well-typed statement, or `Nothing` when it is ill typed. */
  function CheckStmt(w: Env, ret: Return, vs: Scopes, loops: nat, s: Statement): (r: Maybe<Scopes>)
    requires |vs| > 0
    ensures r.Just? ==> |r.value| == |vs| && r.value[..|vs| - 1] == vs[..|vs| - 1]
    decreases s, 1
  {
    if !ExprsOk(w, vs, s.expressions) || !OperandsOk(w, ret, loops, s) then Nothing
    else
      match s.kind
      case BlockS =>
        if s.lexical then
          var r := CheckList(w, ret, vs + [map[]], loops, s.body);
          if r.Just? then
            assert r.value[..|vs|] == vs;
            Just(r.value[..|vs|])
          else Nothing
        else CheckList(w, ret, vs, loops, s.body)
      case DeclareS => DeclareAll(w, vs, s.variables)
      case IfS => CheckBranches(w, ret, vs, loops, loops, s)
      case WhileS | ForS => CheckBranches(w, ret, vs, loops + 1, loops, s)
      case _ => Just(vs)
  }

  /** Body and alternative, in that order and in the same scope. */
  function CheckBranches(w: Env, ret: Return, vs: Scopes, inner: nat, outer: nat, s: Statement): (r: Maybe<Scopes>)
    requires |vs| > 0
    ensures r.Just? ==> |r.value| == |vs| && r.value[..|vs| - 1] == vs[..|vs| - 1]
    decreases s, 0
  {
    var r := CheckList(w, ret, vs, inner, s.body);
    if r.Just? then CheckList(w, ret, r.value, outer, s.alternative) else Nothing
  }

  function CheckList(w: Env, ret: Return, vs: Scopes, loops: nat, ss: seq<Statement>): (r: Maybe<Scopes>)
    requires |vs| > 0
    ensures r.Just? ==> |r.value| == |vs| && r.value[..|vs| - 1] == vs[..|vs| - 1]
    decreases ss, 0
  {
    if ss == [] then Just(vs)
    else
      var r := CheckStmt(w, ret, vs, loops, ss[0]);
      if r.Just? then CheckList(w, ret, r.value, loops, ss[1..]) else Nothing
  }

  // ----- programs -----

  function CompositeName(c: CompositeDecl): string { c.name }

  function VariableName(v: Variable): string { v.name }

  function FunctionName(f: Function): string { f.name }

  function ByName<A>(xs: seq<A>, name: A -> string): (m: map<string, A>)
    ensures forall x <- xs :: name(x) in m
    ensures forall n <- m :: m[n] in xs && name(m[n]) == n
  {
    if xs == [] then map[]
    else ByName(xs[..|xs| - 1], name)[name(xs[|xs| - 1]) := xs[|xs| - 1]]
  }

  predicate Distinct<A>(xs: seq<A>, name: A -> string) {
    forall i, j | 0 <= i < j < |xs| :: name(xs[i]) != name(xs[j])
  }

  function Tables(p: Program, floats: FloatSem): Env {
    Env(ByName(p.composites, CompositeName), ByName(p.globals, VariableName),
        ByName(p.functions, FunctionName), floats)
  }

  predicate ParametersOk(w: Env, ps: seq<Variable>) {
    && (forall i | 0 <= i < |ps| :: VariableOk(w, ps[i]) && ps[i].extent == 0)
    && Distinct(ps, VariableName)
  }

  function ParameterScope(ps: seq<Variable>): map<string, Variable> {
    ByName(ps, VariableName)
  }

  predicate FunctionOk(w: Env, f: Function) {
    && ParametersOk(w, f.parameters)
    && CheckStmt(w, Return(f.result, f.resultComposite), [ParameterScope(f.parameters)], 0, f.body).Just?
  }

  predicate BodyOk(w: Env, s: Statement) {
    CheckStmt(w, Return(Int32, ""), [map[]], 0, s).Just?
  }

  predicate ProgramOk(p: Program, floats: FloatSem) {
    var w := Tables(p, floats);
    && (forall c <- p.composites :: CompositeOk(c)) && Distinct(p.composites, CompositeName)
    && (forall v <- p.globals :: GlobalOk(w, v)) && Distinct(p.globals, VariableName)
    && (forall f <- p.functions :: Identifier(f.name) && f.name !in RESERVED && f.name !in w.globals && SignatureOk(w, f))
    && Distinct(p.functions, FunctionName)
    && (forall f <- p.functions :: FunctionOk(w, f))
    && BodyOk(w, p.body)
  }

  lemma ProgramTablesOk(p: Program, floats: FloatSem)
    requires ProgramOk(p, floats)
    ensures TablesOk(Tables(p, floats))
    ensures forall n <- Tables(p, floats).functions :: FunctionOk(Tables(p, floats), Tables(p, floats).functions[n])
  {
  }

  // ----- placement of declarations -----

  /**
  Declarations stand directly in a lexical block or in a function's outermost block
  (`here`), possibly inside non-lexical blocks. The verifier also admits a declaration in a
  branch or loop body, where it would outlive code that may never run or be generated.
  */
  predicate Placed(s: Statement, here: bool)
    decreases s, 1
  {
    match s.kind
    case BlockS => PlacedAll(s.body, here || s.lexical)
    case DeclareS => here
    case IfS | WhileS | ForS => PlacedAll(s.body, false) && PlacedAll(s.alternative, false)
    case _ => true
  }

  predicate PlacedAll(ss: seq<Statement>, here: bool)
    decreases ss, 0
  {
    forall i | 0 <= i < |ss| :: Placed(ss[i], here)
  }

  predicate ProgramPlaced(p: Program) {
    (forall f <- p.functions :: Placed(f.body, true)) && Placed(p.body, true)
  }

  // ----- facts about the rules -----

  /** Lookup depends only on which names each scope binds. */
  lemma InnermostSame<A, B>(a: seq<map<string, A>>, b: seq<map<string, B>>, name: string)
    requires |a| == |b| && forall i | 0 <= i < |a| :: a[i].Keys == b[i].Keys
    ensures Innermost(a, name) == Innermost(b, name)
  {
  }

  /** Away from declaration positions a statement leaves the scopes as they were. */
  lemma {:induction false} CheckStmtFrame(w: Env, ret: Return, vs: Scopes, loops: nat, s: Statement)
    requires |vs| > 0 && Placed(s, false) && CheckStmt(w, ret, vs, loops, s).Just?
    ensures CheckStmt(w, ret, vs, loops, s).value == vs
    decreases s, 1
  {
    match s.kind
    case BlockS =>
      if s.lexical {
        assert (vs + [map[]])[..|vs|] == vs;
      } else {
        CheckListFrame(w, ret, vs, loops, s.body);
      }
    case IfS =>
      CheckListFrame(w, ret, vs, loops, s.body);
      CheckListFrame(w, ret, vs, loops, s.alternative);
    case WhileS | ForS =>
      CheckListFrame(w, ret, vs, loops + 1, s.body);
      CheckListFrame(w, ret, vs, loops, s.alternative);
    case _ =>
  }

  lemma {:induction false} CheckListFrame(w: Env, ret: Return, vs: Scopes, loops: nat, ss: seq<Statement>)
    requires |vs| > 0 && PlacedAll(ss, false) && CheckList(w, ret, vs, loops, ss).Just?
    ensures CheckList(w, ret, vs, loops, ss).value == vs
    decreases ss, 0
  {
    if ss != [] {
      CheckStmtFrame(w, ret, vs, loops, ss[0]);
      CheckListFrame(w, ret, vs, loops, ss[1..]);
    }
  }
}
