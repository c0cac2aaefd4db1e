/**
Code generation as a function of the generator's state: what each `Generator` method does to
the blocks, the insertion point, the counters and the scope, break and continue stacks.
`ok` turns false where the generator would fail a symbol lookup or read a missing operand.
*/
module Codegen {
  import opened SemanticIR
  import opened Typing
  import opened Machine

  /** A local variable and its stack slot. */
  datatype Binding = Binding(slot: nat, decl: Variable)

  datatype GenState = GenState(
    code: Code, at: nat, regs: nat, slots: nat, steps: nat,
    scopes: seq<map<string, Binding>>, breaks: seq<nat>, continues: seq<nat>, ok: bool)

  /** The insertion point is always one of the function's blocks. */
  type Gen = g: GenState | g.at < |g.code| witness GenState([[]], 0, 0, 0, 0, [], [], [], true)

  /** A state and the operand that holds the generated value. */
  datatype Out = Out(g: Gen, o: Operand)

  datatype Outs = Outs(g: Gen, os: seq<Operand>)

  // ----- blocks and instructions -----

  function Emit(g: Gen, i: Instr): Gen {
    g.(code := g.code[g.at := g.code[g.at] + [i]])
  }

  /** Emits an instruction that defines the next register. */
  function Def(g: Gen, i: Instr): Out {
    Out(Emit(g, i).(regs := g.regs + 1), Reg(g.regs))
  }

  /** Emits a run of instructions that define the next registers, one each. */
  function EmitAll(g: Gen, js: seq<Instr>): Gen {
    g.(code := g.code[g.at := g.code[g.at] + js], regs := g.regs + |js|)
  }

  /** The same, yielding the last one's register. */
  function DefAll(g: Gen, js: seq<Instr>): Out
    requires js != []
  {
    Out(EmitAll(g, js), Reg(g.regs + |js| - 1))
  }

  function AddBlocks(g: Gen, n: nat): Gen {
    g.(code := g.code + seq(n, _ => []))
  }

  function MoveTo(g: Gen, b: nat): Gen
    requires b < |g.code|
  {
    g.(at := b)
  }

  predicate BlockEnded(b: Block) {
    b != [] && b[|b| - 1].Terminator()
  }

  predicate Terminated(g: Gen) {
    BlockEnded(g.code[g.at])
  }

  function Branch(g: Gen, b: nat): Gen {
    if Terminated(g) then g else Emit(g, Br(b))
  }

  /** Branches to a fresh trapping block when `c` holds and goes on in a fresh block. */
  function FailureIf(g: Gen, c: Operand, f: Fault): Gen {
    var n := |g.code|;
    var g1 := Emit(g, CondBr(c, n, n + 1));
    g1.(code := g1.code + [[Fail(f)], []], at := n + 1)
  }

  function Broken(g: Gen): Gen {
    g.(ok := false)
  }

  function BrokenOut(g: Gen): Out {
    Out(Broken(g), Imm(Unit))
  }

  function BoolValue(g: Gen, v: Operand): Out {
    Def(g, Bin(g.regs, ICmp(Ne), v, Imm(I(0))))
  }

  // ----- variables -----

  datatype Found = Found(o: Operand, decl: Variable) | NotFound

  function Find(w: Env, g: Gen, name: string): Found {
    var i := Innermost(g.scopes, name);
    if i >= 0 then Found(SlotRef(g.scopes[i][name].slot), g.scopes[i][name].decl)
    else if name in w.globals then Found(Imm(P(GlobalAddr(name))), w.globals[name])
    else NotFound
  }

  function Declare(w: Env, g: Gen, d: Variable): Gen {
    var g1 := Emit(g, StoreTo(Imm(ZeroStorage(w, d)), SlotRef(g.slots))).(slots := g.slots + 1);
    if g.scopes == [] then Broken(g1)
    else g1.(scopes := g.scopes[..|g.scopes| - 1] + [g.scopes[|g.scopes| - 1][d.name := Binding(g.slots, d)]])
  }

  function DeclareEach(w: Env, g: Gen, ds: seq<Variable>): Gen
    decreases ds
  {
    if ds == [] then g else DeclareEach(w, Declare(w, g, ds[0]), ds[1..])
  }

  // ----- expressions -----

  const COMPARISONS := [Lt, Gt, Le, Ge, Eq, Ne]

  /** The guard of a division: a zero divisor, or INT32_MIN by -1. */
  function DivisionGuard(n: nat, l: Operand, r: Operand): seq<Instr> {
    [ Bin(n, ICmp(Eq), r, Imm(I(0))),
      Bin(n + 1, ICmp(Eq), l, Imm(I(INT32_MIN))),
      Bin(n + 2, ICmp(Eq), r, Imm(I(-1))),
      Bin(n + 3, And1, Reg(n + 1), Reg(n + 2)),
      Bin(n + 4, Or1, Reg(n), Reg(n + 3)) ]
  }

  function GenDivision(g: Gen, opcode: int, l: Operand, r: Operand): Out {
    var bad := DefAll(g, DivisionGuard(g.regs, l, r));
    var g1 := FailureIf(bad.g, bad.o, DivisionDomain);
    Def(g1, Bin(g1.regs, if opcode == 4 then SDiv else SRem, l, r))
  }

  function LogicCode(n: nat, op: BinOp, l: Operand, r: Operand): seq<Instr> {
    [ Bin(n, ICmp(Ne), l, Imm(I(0))),
      Bin(n + 1, ICmp(Ne), r, Imm(I(0))),
      Bin(n + 2, op, Reg(n), Reg(n + 1)),
      Un(n + 3, ZExt, Reg(n + 2)) ]
  }

  /** A comparison widened to an int32 bool. */
  function CompareCode(n: nat, op: BinOp, l: Operand, r: Operand): seq<Instr> {
    [Bin(n, op, l, r), Un(n + 1, ZExt, Reg(n))]
  }

  function GenInt(g: Gen, opcode: int, l: Operand, r: Operand): Out {
    if opcode == 1 then Def(g, Bin(g.regs, Add32, l, r))
    else if opcode == 2 then Def(g, Bin(g.regs, Sub32, l, r))
    else if opcode == 3 then Def(g, Bin(g.regs, Mul32, l, r))
    else if opcode == 4 || opcode == 5 then GenDivision(g, opcode, l, r)
    else if opcode == 12 then DefAll(g, LogicCode(g.regs, Or1, l, r))
    else if opcode == 13 then DefAll(g, LogicCode(g.regs, And1, l, r))
    else if 6 <= opcode <= 11 then DefAll(g, CompareCode(g.regs, ICmp(COMPARISONS[opcode - 6]), l, r))
    else BrokenOut(g)
  }

  function GenFloat(g: Gen, opcode: int, l: Operand, r: Operand): Out {
    if opcode == 1 then Def(g, Bin(g.regs, FArith(FAdd), l, r))
    else if opcode == 2 then Def(g, Bin(g.regs, FArith(FSub), l, r))
    else if opcode == 3 then Def(g, Bin(g.regs, FArith(FMul), l, r))
    else if opcode == 4 then
      var z := Def(g, Bin(g.regs, FCmp(Eq), r, Imm(F(FZERO))));
      var g1 := FailureIf(z.g, z.o, FloatDivision);
      Def(g1, Bin(g1.regs, FArith(FDiv), l, r))
    else if 6 <= opcode <= 11 then DefAll(g, CompareCode(g.regs, FCmp(COMPARISONS[opcode - 6]), l, r))
    else BrokenOut(g)
  }

  function TextCode(n: nat, p: Pred, l: Operand, r: Operand): seq<Instr> {
    [ Un(n, SafeString, l),
      Un(n + 1, SafeString, r),
      Bin(n + 2, StrCmp, Reg(n), Reg(n + 1)),
      Bin(n + 3, ICmp(p), Reg(n + 2), Imm(I(0))),
      Un(n + 4, ZExt, Reg(n + 3)) ]
  }

  function GenText(g: Gen, opcode: int, l: Operand, r: Operand): Out {
    DefAll(g, TextCode(g.regs, if opcode == 10 then Eq else Ne, l, r))
  }

  function GenBinary(g: Gen, t: ScalarType, opcode: int, l: Operand, r: Operand): Out {
    if t == String then GenText(g, opcode, l, r)
    else if t == Float64 then GenFloat(g, opcode, l, r)
    else GenInt(g, opcode, l, r)
  }

  function GenUnary(g: Gen, t: ScalarType, v: Operand): Out {
    if t == Float64 then Def(g, Un(g.regs, FNeg, v)) else Def(g, Bin(g.regs, Sub32, Imm(I(0)), v))
  }

  function BoundsGuard(n: nat, extent: int, index: Operand): seq<Instr> {
    [ Bin(n, ICmp(Lt), index, Imm(I(0))),
      Bin(n + 1, ICmp(Ge), index, Imm(I(extent))),
      Bin(n + 2, Or1, Reg(n), Reg(n + 1)) ]
  }

  /** The bounds check of an array access and the element's address. */
  function GenElement(g: Gen, base: Operand, extent: int, index: Operand): Out {
    var bad := DefAll(g, BoundsGuard(g.regs, extent, index));
    var g1 := FailureIf(bad.g, bad.o, ArrayBounds);
    Def(g1, Gep(g1.regs, base, index))
  }

  /** Offset and length as 64-bit numbers (n, n + 1) and the range check (n + 7). */
  function RangeGuard(n: nat, extent: int, offset: Operand, length: Operand): seq<Instr> {
    [ Un(n, SExt64, offset),
      Un(n + 1, SExt64, length),
      Bin(n + 2, ICmp(Lt), offset, Imm(I(0))),
      Bin(n + 3, ICmp(Lt), length, Imm(I(0))),
      Bin(n + 4, Or1, Reg(n + 2), Reg(n + 3)),
      Bin(n + 5, Add64, Reg(n), Reg(n + 1)),
      Bin(n + 6, ICmp(Gt), Reg(n + 5), Imm(I(extent))),
      Bin(n + 7, Or1, Reg(n + 4), Reg(n + 6)) ]
  }

  function GenSlice(g: Gen, owner: Found, composite: string, offset: Operand, length: Operand): Out
    requires owner.Found?
  {
    var n := g.regs;
    var bad := DefAll(g, RangeGuard(n, owner.decl.extent, offset, length));
    var g1 := FailureIf(bad.g, bad.o, SliceRange);
    DefAll(g1, [Gep(n + 8, owner.o, Reg(n)), MakeValue(n + 9, composite, [Reg(n + 8), Reg(n + 1)])])
  }

  /** Address (n + 1) and length (n + 2) of a slice variable, and the unsigned index check (n + 4). */
  function IndexGuard(n: nat, owner: Operand, composite: string, index: Operand): seq<Instr> {
    [ Load(n, owner),
      ProjectValue(n + 1, composite, 0, Reg(n)),
      ProjectValue(n + 2, composite, 1, Reg(n)),
      Un(n + 3, SExt64, index),
      Bin(n + 4, UGe64, Reg(n + 3), Reg(n + 2)) ]
  }

  function GenSliceIndex(g: Gen, owner: Found, index: Operand): Out
    requires owner.Found?
  {
    var n := g.regs;
    var bad := DefAll(g, IndexGuard(n, owner.o, owner.decl.composite, index));
    var g1 := FailureIf(bad.g, bad.o, SliceBounds);
    DefAll(g1, [Advance(n + 5, Reg(n + 1), Reg(n + 3)), Load(n + 6, Reg(n + 5))])
  }

  function GenExpr(w: Env, g: Gen, e: Expression): Out
    decreases e, 2
  {
    match e.kind
    case IntegerE | BooleanE => Out(g, Imm(I(e.integer)))
    case FloatE => Out(g, Imm(F(e.decimal)))
    case StringE => Out(g, Imm(T(Text(e.name))))
    case VariableE | IndexE =>
      var p := GenPlace(w, g, e);
      Def(p.g, Load(p.g.regs, p.o))
    case UnaryE =>
      if |e.operands| != 1 then BrokenOut(g)
      else
        var v := GenExpr(w, g, e.operands[0]);
        GenUnary(v.g, e.ty, v.o)
    case BinaryE =>
      if |e.operands| != 2 then BrokenOut(g)
      else
        var l := GenExpr(w, g, e.operands[0]);
        var r := GenExpr(w, l.g, e.operands[1]);
        GenBinary(r.g, e.operands[0].ty, e.opcode, l.o, r.o)
    case CallE =>
      var args := GenExprs(w, g, e.operands);
      var call := Def(args.g, CallTo(args.g.regs, e.name, args.os));
      if e.name in w.functions then call else BrokenOut(call.g)
    case ConstructE =>
      var fields := GenExprs(w, g, e.operands);
      if e.composite in w.composites then Def(fields.g, MakeValue(fields.g.regs, e.composite, fields.os))
      else BrokenOut(fields.g)
    case ProjectE =>
      if |e.operands| != 1 then BrokenOut(g)
      else
        var v := GenExpr(w, g, e.operands[0]);
        if e.operands[0].composite in w.composites then
          Def(v.g, ProjectValue(v.g.regs, e.operands[0].composite, e.integer, v.o))
        else BrokenOut(v.g)
    case SliceE =>
      if |e.operands| != 2 then BrokenOut(g)
      else
        var offset := GenExpr(w, g, e.operands[0]);
        var length := GenExpr(w, offset.g, e.operands[1]);
        var owner := Find(w, length.g, e.name);
        if owner.Found? && e.composite in w.composites then GenSlice(length.g, owner, e.composite, offset.o, length.o)
        else BrokenOut(length.g)
    case SliceIndexE =>
      if |e.operands| != 1 then BrokenOut(g)
      else
        var index := GenExpr(w, g, e.operands[0]);
        var owner := Find(w, index.g, e.name);
        if owner.Found? && owner.decl.composite in w.composites then GenSliceIndex(index.g, owner, index.o)
        else BrokenOut(index.g)
  }

  /** The address of a variable or array element: the index first, then the variable. */
  function GenPlace(w: Env, g: Gen, e: Expression): Out
    decreases e, 1
  {
    if e.kind == IndexE then
      if |e.operands| != 1 then BrokenOut(g)
      else
        var index := GenExpr(w, g, e.operands[0]);
        var v := Find(w, index.g, e.name);
        if v.Found? then GenElement(index.g, v.o, v.decl.extent, index.o) else BrokenOut(index.g)
    else
      var v := Find(w, g, e.name);
      if v.Found? then Out(g, v.o) else BrokenOut(g)
  }

  function GenExprs(w: Env, g: Gen, es: seq<Expression>): (r: Outs)
    ensures |r.os| == |es|
    decreases es, 0
  {
    if es == [] then Outs(g, [])
    else
      var x := GenExpr(w, g, es[0]);
      var xs := GenExprs(w, x.g, es[1..]);
      Outs(xs.g, [x.o] + xs.os)
  }

  // ----- statements -----

  function GenPrint(w: Env, g: Gen, es: seq<Expression>): Gen
    decreases es
  {
    if es == [] then g
    else
      var v := GenExpr(w, g, es[0]);
      var s := if es[0].ty == String then Def(v.g, Un(v.g.regs, SafeString, v.o)) else v;
      var g1 := Emit(s.g, Printf(PrintFormat(es[0].ty), s.o));
      GenPrint(w, Emit(g1, Printf("%s", Imm(Separator(|es| == 1)))), es[1..])
  }

  /** Opens a loop with the given targets, and closes it again. */
  function EnterLoop(g: Gen, exit: nat, again: nat): Gen {
    g.(breaks := g.breaks + [exit], continues := g.continues + [again])
  }

  function LeaveLoop(g: Gen, outer: Gen): Gen {
    g.(breaks := outer.breaks, continues := outer.continues)
  }

  /** Moves to a block that exists when the generator reaches this point. */
  function Resume(g: Gen, b: nat): Gen {
    if b < |g.code| then MoveTo(g, b) else Broken(g)
  }

  function GenStmt(w: Env, g: Gen, s: Statement): Gen
    decreases s, 3
  {
    match s.kind
    case BlockS =>
      if s.lexical then
        GenStmts(w, g.(scopes := g.scopes + [map[]]), s.body).(scopes := g.scopes)
      else GenStmts(w, g, s.body)
    case DeclareS => DeclareEach(w, g, s.variables)
    case AssignS =>
      if |s.expressions| != 2 then Broken(g)
      else
        var v := GenExpr(w, g, s.expressions[1]);
        var p := GenPlace(w, v.g, s.expressions[0]);
        Emit(p.g, StoreTo(v.o, p.o))
    case UpdateS =>
      if |s.expressions| != 2 then Broken(g)
      else
        var record := GenExpr(w, g, s.expressions[0]);
        var field := GenExpr(w, record.g, s.expressions[1]);
        var u := Def(field.g, UpdateValue(field.g.regs, s.expressions[0].composite, s.declaration, record.o, field.o));
        var p := GenPlace(w, u.g, s.expressions[0]);
        Emit(p.g, StoreTo(u.o, p.o))
    case ExpressionS => if |s.expressions| != 1 then Broken(g) else GenExpr(w, g, s.expressions[0]).g
    case PrintS => GenPrint(w, g, s.expressions)
    case IfS => if |s.expressions| != 1 then Broken(g) else GenIf(w, g, s)
    case WhileS => if |s.expressions| != 1 then Broken(g) else GenWhile(w, g, s)
    case ForS => if |s.expressions| != 4 then Broken(g) else GenFor(w, g, s)
    case BreakS => if g.breaks == [] then Broken(g) else Branch(g, g.breaks[|g.breaks| - 1])
    case ContinueS => if g.continues == [] then Broken(g) else Branch(g, g.continues[|g.continues| - 1])
    case ReturnS =>
      if s.expressions == [] then Emit(g, Ret(Imm(Unit)))
      else
        var v := GenExpr(w, g, s.expressions[0]);
        Emit(v.g, Ret(v.o))
  }

  function GenStmts(w: Env, g: Gen, ss: seq<Statement>): Gen
    decreases ss, 0
  {
    if ss == [] then g
    else GenStmts(w, if Terminated(g) then g else GenStmt(w, g, ss[0]), ss[1..])
  }

  // If: blocks n (yes), n + 1 (no), n + 2 (next)

  function IfHead(w: Env, g: Gen, s: Statement): Gen
    requires |s.expressions| == 1
  {
    var n := |g.code|;
    var v := GenExpr(w, AddBlocks(g, 3), s.expressions[0]);
    var c := BoolValue(v.g, v.o);
    Emit(c.g, CondBr(c.o, n, n + 1))
  }

  function IfYes(w: Env, g: Gen, s: Statement): Gen
    requires |s.expressions| == 1
    decreases s, 0
  {
    Branch(GenStmts(w, Resume(IfHead(w, g, s), |g.code|), s.body), |g.code| + 2)
  }

  function IfNo(w: Env, g: Gen, s: Statement): Gen
    requires |s.expressions| == 1
    decreases s, 1
  {
    Branch(GenStmts(w, Resume(IfYes(w, g, s), |g.code| + 1), s.alternative), |g.code| + 2)
  }

  function GenIf(w: Env, g: Gen, s: Statement): Gen
    requires |s.expressions| == 1
    decreases s, 2
  {
    Resume(IfNo(w, g, s), |g.code| + 2)
  }

  // While: blocks n (test), n + 1 (body), n + 2 (next)

  function WhileHead(w: Env, g: Gen, s: Statement): Gen
    requires |s.expressions| == 1
  {
    var n := |g.code|;
    var v := GenExpr(w, Resume(Branch(AddBlocks(g, 3), n), n), s.expressions[0]);
    var c := BoolValue(v.g, v.o);
    Emit(c.g, CondBr(c.o, n + 1, n + 2))
  }

  function WhileEnter(w: Env, g: Gen, s: Statement): Gen
    requires |s.expressions| == 1
  {
    EnterLoop(Resume(WhileHead(w, g, s), |g.code| + 1), |g.code| + 2, |g.code|)
  }

  function WhileBody(w: Env, g: Gen, s: Statement): Gen
    requires |s.expressions| == 1
    decreases s, 0
  {
    Branch(LeaveLoop(GenStmts(w, WhileEnter(w, g, s), s.body), g), |g.code|)
  }

  function GenWhile(w: Env, g: Gen, s: Statement): Gen
    requires |s.expressions| == 1
    decreases s, 1
  {
    Resume(WhileBody(w, g, s), |g.code| + 2)
  }

  // For: blocks n (test), n + 1 (body), n + 2 (step), n + 3 (next); the step is kept in a slot of its own

  /** Stores the start value and leaves the counter's address. */
  function ForStart(w: Env, g: Gen, s: Statement): Out
    requires |s.expressions| == 4
  {
    var v := GenExpr(w, g, s.expressions[1]);
    var p := GenPlace(w, v.g, s.expressions[0]);
    Out(Emit(p.g, StoreTo(v.o, p.o)), p.o)
  }

  /** The step of this test, checked and saved. */
  function ForStep(w: Env, g: Gen, s: Statement, slot: nat): Out
    requires |s.expressions| == 4
  {
    var step := GenExpr(w, g, s.expressions[2]);
    var z := Def(step.g, Bin(step.g.regs, ICmp(Eq), step.o, Imm(I(0))));
    Out(Emit(FailureIf(z.g, z.o, ZeroStep), StoreTo(step.o, StepRef(slot))), step.o)
  }

  /** Upward loops go on below the end, downward loops above it. */
  function DirectionCode(n: nat, current: Operand, step: Operand, end: Operand): seq<Instr> {
    [ Bin(n, ICmp(Gt), step, Imm(I(0))),
      Bin(n + 1, ICmp(Lt), current, end),
      Bin(n + 2, ICmp(Gt), current, end),
      Select(n + 3, Reg(n), Reg(n + 1), Reg(n + 2)) ]
  }

  function ForTest(w: Env, g: Gen, s: Statement, counter: Operand, slot: nat, n: nat): Gen
    requires |s.expressions| == 4
  {
    var current := Def(g, Load(g.regs, counter));
    var step := ForStep(w, current.g, s, slot);
    var end := GenExpr(w, step.g, s.expressions[3]);
    var more := DefAll(end.g, DirectionCode(end.g.regs, current.o, step.o, end.o));
    Emit(more.g, CondBr(more.o, n + 1, n + 3))
  }

  /** The step block: the counter plus the saved step, and back to the test. */
  function ForAdvance(g: Gen, counter: Operand, slot: nat, n: nat): Gen {
    var n0 := g.regs;
    var sum := DefAll(g, [Load(n0, counter), Load(n0 + 1, StepRef(slot)), Bin(n0 + 2, Add32, Reg(n0), Reg(n0 + 1))]);
    Branch(Emit(sum.g, StoreTo(sum.o, counter)), n)
  }

  /** Everything before the loop: start value, step slot, blocks and the jump to the test. */
  function ForEntry(w: Env, g: Gen, s: Statement): Out
    requires |s.expressions| == 4
  {
    var start := ForStart(w, g, s);
    Out(Branch(AddBlocks(start.g.(steps := start.g.steps + 1), 4), |start.g.code|), start.o)
  }

  /** The number of the test block. */
  function ForBlock(w: Env, g: Gen, s: Statement): nat
    requires |s.expressions| == 4
  {
    |ForStart(w, g, s).g.code|
  }

  function ForSlot(w: Env, g: Gen, s: Statement): nat
    requires |s.expressions| == 4
  {
    ForStart(w, g, s).g.steps
  }

  function ForHead(w: Env, g: Gen, s: Statement): Gen
    requires |s.expressions| == 4
  {
    var entry, n := ForEntry(w, g, s), ForBlock(w, g, s);
    ForTest(w, Resume(entry.g, n), s, entry.o, ForSlot(w, g, s), n)
  }

  function ForEnter(w: Env, g: Gen, s: Statement): Gen
    requires |s.expressions| == 4
  {
    var n := ForBlock(w, g, s);
    EnterLoop(Resume(ForHead(w, g, s), n + 1), n + 3, n + 2)
  }

  function ForBody(w: Env, g: Gen, s: Statement): Gen
    requires |s.expressions| == 4
    decreases s, 0
  {
    Branch(LeaveLoop(GenStmts(w, ForEnter(w, g, s), s.body), g), ForBlock(w, g, s) + 2)
  }

  function GenFor(w: Env, g: Gen, s: Statement): Gen
    requires |s.expressions| == 4
    decreases s, 1
  {
    var n := ForBlock(w, g, s);
    Resume(ForAdvance(Resume(ForBody(w, g, s), n + 2), ForStart(w, g, s).o, ForSlot(w, g, s), n), n + 3)
  }

  // ----- functions -----

  /** Entry block with the arguments in the first registers. */
  function EntryState(params: nat): Gen {
    GenState([[]], 0, params, 0, 0, [map[]], [], [], true)
  }

  function GenParameters(w: Env, g: Gen, ps: seq<Variable>, i: nat): Gen
    requires i <= |ps|
    decreases |ps| - i
  {
    if i == |ps| then g
    else
      var g1 := Declare(w, g, ps[i]);
      GenParameters(w, Emit(g1, StoreTo(Reg(i), SlotRef(g.slots))), ps, i + 1)
  }

  /** What control does when it falls off the end of a body. */
  datatype Ending = Exit | ReturnVoid | NoReturn

  function EndingOf(f: Function): Ending {
    if f.result == Void then ReturnVoid else NoReturn
  }

  function Finish(g: Gen, ending: Ending): Gen {
    if Terminated(g) then g
    else
      match ending
      case Exit => Emit(g, Ret(Imm(I(0))))
      case ReturnVoid => Emit(g, Ret(Imm(Unit)))
      case NoReturn => Emit(g, Fail(MissingReturn))
  }

  function GenFunction(w: Env, ps: seq<Variable>, body: Statement, ending: Ending): Gen {
    Finish(GenStmt(w, GenParameters(w, EntryState(|ps|), ps, 0), body), ending)
  }

  /** The module of a program: its functions under their names and its body under "main". */
  function GenModule(w: Env, body: Statement): Module {
    Module(w, (map n <- w.functions :: GenFunction(w, w.functions[n].parameters, w.functions[n].body, EndingOf(w.functions[n])).code)
              ["main" := GenFunction(w, [], body, Exit).code])
  }
}
