/**
The executable part of SemanticIR: the records a program is made of, the values it
computes with, and what it means for a value to have an IR type.

Double precision arithmetic is left uninterpreted: every function that computes with
floats takes a `FloatSem`, so all results hold for any rounding behaviour.
*/
module SemanticIR {

  const INT32_MIN := -0x8000_0000
  const INT32_MAX := 0x7fff_ffff

  type int32 = n: int | INT32_MIN <= n <= INT32_MAX witness 0

  predicate InInt32(n: int) {
    INT32_MIN <= n <= INT32_MAX
  }

  /** Two's complement wrap-around to 32 bits. */
  function Wrap32(n: int): (r: int32)
    ensures InInt32(n) ==> r == n
    ensures exists k: int :: r == n + k * 0x1_0000_0000
  {
    var r := (n + 0x8000_0000) % 0x1_0000_0000 - 0x8000_0000;
    assert r == n + (-((n + 0x8000_0000) / 0x1_0000_0000)) * 0x1_0000_0000;
    r
  }

  /** Two's complement wrap-around to 64 bits. */
  function Wrap64(n: int): int {
    (n + 0x8000_0000_0000_0000) % 0x1_0000_0000_0000_0000 - 0x8000_0000_0000_0000
  }

  /** A 64-bit pattern read as an unsigned number. */
  function Unsigned64(n: int): int {
    n % 0x1_0000_0000_0000_0000
  }

  function Abs(n: int): nat {
    if n < 0 then -n else n
  }

  /** Division and remainder truncate toward zero, as `sdiv` and `srem` do. */
  function TruncDiv(a: int, b: int): (q: int)
    requires b != 0
  {
    var q := Abs(a) / Abs(b);
    if (a < 0) == (b < 0) then q else -q
  }

  function TruncRem(a: int, b: int): (r: int)
    requires b != 0
  {
    var r := Abs(a) % Abs(b);
    if a < 0 then -r else r
  }

  lemma QuotientBound(x: nat, y: nat, q: nat)
    requires y >= 1 && q * y <= x
    ensures q <= x
    ensures y >= 2 && x >= 1 ==> q < x
  {
    if y >= 2 {
      assert q * 2 <= q * y;
    }
  }

  lemma DivShrinks(x: nat, y: nat)
    requires y >= 1
    ensures 0 <= x / y <= x
    ensures y >= 2 && x >= 1 ==> x / y < x
    ensures x % y < y
  {
    var q: int, r: int := x / y, x % y;
    assert x == q * y + r;
    assert q >= 0;
    QuotientBound(x, y, q);
  }

  /** The guard of the division trap is exactly what keeps the quotient in 32 bits. */
  lemma TruncDivInRange(a: int32, b: int32)
    requires b != 0
    ensures InInt32(TruncDiv(a, b)) <==> !(a == INT32_MIN && b == -1)
    ensures InInt32(TruncRem(a, b))
  {
    DivShrinks(Abs(a), Abs(b));
    if Abs(b) == 1 {
      DivShrinks(Abs(a), 1);
      assert Abs(a) / 1 == Abs(a);
    }
  }

  // ----- floats -----

  /** A double, known only by its bit pattern. */
  datatype Float = Float(bits: int)

  const FZERO := Float(0)

  datatype FloatOp = FAdd | FSub | FMul | FDiv
  datatype Pred = Lt | Gt | Le | Ge | Eq | Ne

  datatype FloatSem = FloatSem(
    arith: (FloatOp, Float, Float) -> Float,
    neg: Float -> Float,
    cmp: (Pred, Float, Float) -> bool,
    finite: Float -> bool)

  predicate IntCompare(p: Pred, a: int, b: int) {
    match p
    case Lt => a < b
    case Gt => a > b
    case Le => a <= b
    case Ge => a >= b
    case Eq => a == b
    case Ne => a != b
  }

  // ----- program records -----

  datatype ScalarType = Void | Int32 | Bool | Float64 | String | Composite

  datatype CompositeKind = Record | Enum | Option | Result | Slice

  datatype CompositeDecl = CompositeDecl(kind: CompositeKind, name: string, fields: seq<ScalarType>, names: seq<string>) {
    /** Enum, option and result values carry a tag in front of their payload. */
    predicate Tagged() {
      kind == Enum || kind == Option || kind == Result
    }

    function Tags(): nat {
      if kind == Enum then |names| else 2
    }

    /** The field types of a constructed value, tag included. */
    function Storage(): seq<ScalarType> {
      if Tagged() then [Int32] + fields else fields
    }
  }

  /** `extent == 0` denotes a scalar, a positive extent an array. */
  datatype Variable = Variable(name: string, ty: ScalarType, extent: int, composite: string)

  datatype ExprKind =
    | IntegerE | BooleanE | FloatE | StringE | VariableE | IndexE | BinaryE | UnaryE
    | CallE | ConstructE | ProjectE | SliceE | SliceIndexE

  datatype Expression = Expression(
    kind: ExprKind, ty: ScalarType, name: string, integer: int32, decimal: Float, opcode: int,
    operands: seq<Expression>, composite: string)

  datatype StmtKind =
    | BlockS | DeclareS | AssignS | UpdateS | ExpressionS | PrintS | IfS | WhileS | ForS
    | BreakS | ContinueS | ReturnS

  datatype Statement = Statement(
    kind: StmtKind, expressions: seq<Expression>, variables: seq<Variable>, body: seq<Statement>,
    alternative: seq<Statement>, declaration: nat, lexical: bool)

  datatype Function = Function(
    name: string, result: ScalarType, parameters: seq<Variable>, body: Statement, resultComposite: string)

  datatype Program = Program(
    composites: seq<CompositeDecl>, globals: seq<Variable>, functions: seq<Function>, body: Statement)

  /** The symbol tables the verifier, the generator and the evaluators consult. */
  datatype Env = Env(
    composites: map<string, CompositeDecl>, globals: map<string, Variable>, functions: map<string, Function>,
    floats: FloatSem)

  // ----- values -----

  /** A string pointer; zero initialisation leaves it null. */
  datatype Text = NullText | Text(s: string)

  /** What `safeString` reads through a string pointer. */
  function Chars(t: Text): string {
    if t.NullText? then "" else t.s
  }

  /** Addresses: globals and their elements, and the frame's own variable and loop-step slots. */
  datatype Pointer =
    | Null
    | GlobalAddr(name: string)
    | GlobalElem(name: string, index: int)
    | SlotAddr(slot: nat)
    | SlotElem(slot: nat, index: int)
    | StepAddr(step: nat)

  /** Integers of every width and booleans share `I`; bool storage is the int32 0 or 1. */
  datatype Value =
    | I(n: int)
    | F(f: Float)
    | T(t: Text)
    | P(p: Pointer)
    | Agg(fields: seq<Value>)
    | Arr(elems: seq<Value>)
    | Unit

  function Truth(b: bool): Value {
    I(if b then 1 else 0)
  }

  predicate HasScalar(v: Value, t: ScalarType) {
    match t
    case Void => v == Unit
    case Int32 => v.I? && InInt32(v.n)
    case Bool => v.I? && (v.n == 0 || v.n == 1)
    case Float64 => v.F?
    case String => v.T?
    case Composite => false
  }

  /** A slice descriptor is empty and null, or a window inside one global array of its element type. */
  predicate SliceWindow(w: Env, c: CompositeDecl, p: Pointer, n: int) {
    || (p == Null && n == 0)
    || (&& p.GlobalElem? && p.name in w.globals && c.fields != [] && w.globals[p.name].ty == c.fields[0]
        && 0 <= p.index && 0 <= n && p.index + n <= w.globals[p.name].extent)
  }

  predicate HasFields(vs: seq<Value>, ts: seq<ScalarType>) {
    |vs| == |ts| && forall i | 0 <= i < |vs| :: HasScalar(vs[i], ts[i])
  }

  predicate HasComposite(w: Env, v: Value, c: CompositeDecl) {
    && v.Agg?
    && if c.kind == Slice then
         |v.fields| == 2 && v.fields[0].P? && v.fields[1].I? && SliceWindow(w, c, v.fields[0].p, v.fields[1].n)
       else
         HasFields(v.fields, c.Storage()) && (c.Tagged() ==> 0 <= v.fields[0].n < c.Tags())
  }

  predicate HasType(w: Env, v: Value, t: ScalarType, composite: string) {
    if t == Composite then composite in w.composites && HasComposite(w, v, w.composites[composite])
    else HasScalar(v, t)
  }

  /** The contents of a variable's storage. */
  predicate HasStorage(w: Env, v: Value, d: Variable) {
    if d.extent > 0 then
      v.Arr? && |v.elems| == d.extent && forall i | 0 <= i < |v.elems| :: HasType(w, v.elems[i], d.ty, d.composite)
    else HasType(w, v, d.ty, d.composite)
  }

  function ZeroScalar(t: ScalarType): Value {
    match t
    case Int32 | Bool => I(0)
    case Float64 => F(FZERO)
    case String => T(NullText)
    case Void | Composite => Unit
  }

  function ZeroFields(ts: seq<ScalarType>): (vs: seq<Value>)
    ensures |vs| == |ts| && forall i | 0 <= i < |vs| :: vs[i] == ZeroScalar(ts[i])
  {
    seq(|ts|, i requires 0 <= i < |ts| => ZeroScalar(ts[i]))
  }

  function ZeroValue(w: Env, t: ScalarType, composite: string): Value {
    if t != Composite then ZeroScalar(t)
    else if composite !in w.composites then Unit
    else
      var c := w.composites[composite];
      if c.kind == Slice then Agg([P(Null), I(0)]) else Agg(ZeroFields(c.Storage()))
  }

  function ZeroStorage(w: Env, d: Variable): Value {
    if d.extent > 0 then Arr(seq(d.extent, _ => ZeroValue(w, d.ty, d.composite)))
    else ZeroValue(w, d.ty, d.composite)
  }

  // ----- run-time faults -----

  datatype Fault =
    | DivisionDomain      // integer division or remainder
    | FloatDivision
    | ArrayBounds
    | SliceRange          // a slice that exceeds its owner array
    | SliceBounds         // a slice index outside the slice
    | ZeroStep
    | MissingReturn
    | InvalidTag          // construction with a tag outside the declared variants
    | InactivePayload
    | StoredTag           // the tag re-check of a projection
    | StoredSlice         // the descriptor check of a slice construction or projection

  function Code(f: Fault): string {
    match f
    case DivisionDomain | FloatDivision => "SHD7001"
    case ArrayBounds | SliceRange | SliceBounds | StoredSlice => "SHD7002"
    case ZeroStep => "SHD7003"
    case MissingReturn => "SHD7004"
    case InvalidTag | InactivePayload | StoredTag => "SHD7031"
  }

  /** One `printf` of the running program. */
  datatype Event = Printed(format: string, v: Value)

  function PrintFormat(t: ScalarType): string {
    if t == Float64 then "%.17g" else if t == String then "%s" else "%d"
  }

  /** What is handed to `printf` for a value of type `t`: strings go through `safeString`. */
  function Printable(t: ScalarType, v: Value): Value {
    if t == String && v.T? then T(Text(Chars(v.t))) else v
  }

  function Separator(last: bool): Value {
    T(Text(if last then "\n" else " "))
  }
}
