/**
The target: functions as lists of basic blocks over virtual registers, run by a small-step
machine with an explicit stack of frames. Constants, addresses of globals and the frame's
slots are operands. `MakeValue`, `ProjectValue` and `UpdateValue` are the dialect's composite operations;
`Extract` and `Insert` are what they are lowered to.
*/
module Machine {
  import opened SemanticIR

  datatype Operand = Reg(r: nat) | Imm(v: Value) | SlotRef(slot: nat) | StepRef(step: nat)

  datatype BinOp =
    | Add32 | Sub32 | Mul32 | SDiv | SRem | And1 | Or1
    | ICmp(p: Pred) | UGe64 | Add64
    | FArith(op: FloatOp) | FCmp(fp: Pred)
    | StrCmp

  datatype UnOp = ZExt | SExt64 | FNeg | SafeString | IsNull

  datatype Instr =
    | Bin(d: nat, op: BinOp, a: Operand, b: Operand)
    | Un(d: nat, uop: UnOp, a: Operand)
    | Select(d: nat, c: Operand, a: Operand, b: Operand)
    | Gep(d: nat, base: Operand, index: Operand)          // address of an array's element
    | Advance(d: nat, base: Operand, index: Operand)      // element address plus an index
    | Load(d: nat, addr: Operand)
    | StoreTo(v: Operand, addr: Operand)
    | MakeValue(d: nat, composite: string, args: seq<Operand>)
    | ProjectValue(d: nat, composite: string, field: int, agg: Operand)
    | UpdateValue(d: nat, composite: string, field: int, agg: Operand, v: Operand)
    | Extract(d: nat, field: int, agg: Operand)
    | Insert(d: nat, field: int, agg: Operand, v: Operand)
    | CallTo(d: nat, f: string, args: seq<Operand>)
    | Printf(format: string, v: Operand)
    | Br(target: nat)
    | CondBr(c: Operand, yes: nat, no: nat)
    | Ret(v: Operand)
    | Fail(fault: Fault)
  {
    predicate Terminator() {
      Br? || CondBr? || Ret? || Fail?
    }
  }

  type Block = seq<Instr>
  type Code = seq<Block>

  /** The code of every function, with the tables and float semantics it runs under. */
  datatype Module = Module(env: Env, code: map<string, Code>)

  /** One activation; `dest` is the caller's register that receives the result. */
  datatype Frame = Frame(
    fn: string, block: nat, at: nat, regs: map<nat, Value>, slots: map<nat, Value>, steps: map<nat, Value>, dest: nat)

  /** The frame at work, its callers (the nearest first), the globals and the output so far. */
  datatype State = State(top: Frame, rest: seq<Frame>, globals: map<string, Value>, out: seq<Event>)

  datatype Config =
    | Running(s: State)
    | Done(v: Value, finals: map<string, Value>, printed: seq<Event>)
    | Trapped(fault: Fault, finals: map<string, Value>, printed: seq<Event>)
    | Stuck

  // ----- operands and memory -----

  predicate Has(f: Frame, o: Operand) {
    o.Reg? ==> o.r in f.regs
  }

  function Get(f: Frame, o: Operand): Value
    requires Has(f, o)
  {
    match o
    case Reg(r) => f.regs[r]
    case Imm(v) => v
    case SlotRef(n) => P(SlotAddr(n))
    case StepRef(n) => P(StepAddr(n))
  }

  predicate HasAll(f: Frame, os: seq<Operand>) {
    forall i | 0 <= i < |os| :: Has(f, os[i])
  }

  function GetAll(f: Frame, os: seq<Operand>): (vs: seq<Value>)
    requires HasAll(f, os)
    ensures |vs| == |os| && forall i | 0 <= i < |os| :: vs[i] == Get(f, os[i])
  {
    if os == [] then [] else [Get(f, os[0])] + GetAll(f, os[1..])
  }

  datatype Loaded = Cell(v: Value) | NoCell

  function Elem(v: Value, i: int): Loaded {
    if v.Arr? && 0 <= i < |v.elems| then Cell(v.elems[i]) else NoCell
  }

  function LoadFrom(f: Frame, globals: map<string, Value>, p: Pointer): Loaded {
    match p
    case Null => NoCell
    case GlobalAddr(x) => if x in globals then Cell(globals[x]) else NoCell
    case GlobalElem(x, i) => if x in globals then Elem(globals[x], i) else NoCell
    case SlotAddr(n) => if n in f.slots then Cell(f.slots[n]) else NoCell
    case SlotElem(n, i) => if n in f.slots then Elem(f.slots[n], i) else NoCell
    case StepAddr(n) => if n in f.steps then Cell(f.steps[n]) else NoCell
  }

  /** The variable may hold the value: bools are 0 or 1, tags are declared, slices lie within their owners. */
  predicate Admits(w: Env, x: string, v: Value) {
    x in w.globals && HasStorage(w, v, w.globals[x])
  }

  /**
  Stores to a slot need no earlier contents; stores to an element need the array. A global takes
  only values of its type: a store of any other is undefined like any other step without a meaning.
  */
  function StoreAt(w: Env, c: State, p: Pointer, v: Value): (r: Config)
    ensures !r.Done? && !r.Trapped?
  {
    var f := c.top;
    match p
    case Null => Stuck
    case GlobalAddr(x) => if x in c.globals && Admits(w, x, v) then Running(c.(globals := c.globals[x := v])) else Stuck
    case GlobalElem(x, i) =>
      if x in c.globals && Elem(c.globals[x], i).Cell? && Admits(w, x, Arr(c.globals[x].elems[i := v])) then
        Running(c.(globals := c.globals[x := Arr(c.globals[x].elems[i := v])]))
      else Stuck
    case SlotAddr(n) => Running(c.(top := f.(slots := f.slots[n := v])))
    case SlotElem(n, i) =>
      if n in f.slots && Elem(f.slots[n], i).Cell? then
        Running(c.(top := f.(slots := f.slots[n := Arr(f.slots[n].elems[i := v])])))
      else Stuck
    case StepAddr(n) => Running(c.(top := f.(steps := f.steps[n := v])))
  }

  // ----- instructions -----

  /** Undefined operand combinations have no result. */
  function BinResult(fs: FloatSem, op: BinOp, x: Value, y: Value): Loaded {
    match (op, x, y)
    case (Add32, I(a), I(b)) => Cell(I(Wrap32(a + b)))
    case (Sub32, I(a), I(b)) => Cell(I(Wrap32(a - b)))
    case (Mul32, I(a), I(b)) => Cell(I(Wrap32(a * b)))
    case (SDiv, I(a), I(b)) => if b == 0 || (a == INT32_MIN && b == -1) then NoCell else Cell(I(TruncDiv(a, b)))
    case (SRem, I(a), I(b)) => if b == 0 || (a == INT32_MIN && b == -1) then NoCell else Cell(I(TruncRem(a, b)))
    case (And1, I(a), I(b)) => Cell(Truth(a != 0 && b != 0))
    case (Or1, I(a), I(b)) => Cell(Truth(a != 0 || b != 0))
    case (ICmp(p), I(a), I(b)) => Cell(Truth(IntCompare(p, a, b)))
    case (UGe64, I(a), I(b)) => Cell(Truth(Unsigned64(a) >= Unsigned64(b)))
    case (Add64, I(a), I(b)) => Cell(I(Wrap64(a + b)))
    case (FArith(o), F(a), F(b)) => Cell(F(fs.arith(o, a, b)))
    case (FCmp(p), F(a), F(b)) => Cell(Truth(fs.cmp(p, a, b)))
    case (StrCmp, T(a), T(b)) => if a.Text? && b.Text? then Cell(I(if a.s == b.s then 0 else 1)) else NoCell
    case _ => NoCell
  }

  function UnResult(fs: FloatSem, op: UnOp, x: Value): Loaded {
    match (op, x)
    case (ZExt, I(a)) => Cell(I(a))
    case (SExt64, I(a)) => Cell(I(a))
    case (FNeg, F(a)) => Cell(F(fs.neg(a)))
    case (SafeString, T(a)) => Cell(T(Text(Chars(a))))
    case (IsNull, P(p)) => Cell(Truth(p == Null))
    case _ => NoCell
  }

  function GepResult(base: Value, i: Value): Loaded {
    match (base, i)
    case (P(GlobalAddr(x)), I(n)) => Cell(P(GlobalElem(x, n)))
    case (P(SlotAddr(s)), I(n)) => Cell(P(SlotElem(s, n)))
    case _ => NoCell
  }

  function AdvanceResult(base: Value, i: Value): Loaded {
    match (base, i)
    case (P(GlobalElem(x, k)), I(n)) => Cell(P(GlobalElem(x, k + n)))
    case _ => NoCell
  }

  /** A value, a fault, or undefined. */
  datatype Made = Built(v: Value) | Aborted(f: Fault) | Undefined

  /** Construction checks the tag, or the descriptor of a slice. */
  function Make(c: CompositeDecl, vs: seq<Value>): Made {
    if c.Tagged() then
      if vs == [] || !vs[0].I? then Undefined
      else if 0 <= vs[0].n < c.Tags() then Built(Agg(vs)) else Aborted(InvalidTag)
    else if c.kind == Slice then
      if |vs| != 2 || !vs[0].P? || !vs[1].I? then Undefined
      else if vs[1].n < 0 || (vs[1].n > 0 && vs[0].p == Null) then Aborted(StoredSlice)
      else Built(Agg(vs))
    else Built(Agg(vs))
  }

  /** Projection checks the stored tag again, then that the payload is active. */
  function Projection(c: CompositeDecl, field: int, v: Value): Made {
    if !v.Agg? || !(0 <= field < |v.fields|) then Undefined
    else if c.Tagged() then
      if !v.fields[0].I? then Undefined
      else if !(0 <= v.fields[0].n < c.Tags()) then Aborted(StoredTag)
      else if field > 0 && v.fields[0].n != (if c.kind == Option then 1 else field - 1) then Aborted(InactivePayload)
      else Built(v.fields[field])
    else if c.kind == Slice then
      if |v.fields| != 2 || !v.fields[0].P? || !v.fields[1].I? then Undefined
      else if v.fields[1].n < 0 || (v.fields[1].n > 0 && v.fields[0].p == Null) then Aborted(StoredSlice)
      else Built(v.fields[field])
    else Built(v.fields[field])
  }

  function Updated(field: int, agg: Value, v: Value): Loaded {
    if agg.Agg? && 0 <= field < |agg.fields| then Cell(Agg(agg.fields[field := v])) else NoCell
  }

  function Extracted(field: int, agg: Value): Loaded {
    if agg.Agg? && 0 <= field < |agg.fields| then Cell(agg.fields[field]) else NoCell
  }

  // ----- steps -----

  /** Writes a result register and moves to the next instruction. */
  function Define(c: State, d: nat, r: Loaded): Config {
    if r.Cell? then Running(c.(top := c.top.(regs := c.top.regs[d := r.v], at := c.top.at + 1))) else Stuck
  }

  function DefineMade(c: State, d: nat, r: Made): Config {
    match r
    case Built(v) => Define(c, d, Cell(v))
    case Aborted(f) => Trapped(f, c.globals, c.out)
    case Undefined => Stuck
  }

  function Proceed(c: State): Config {
    Running(c.(top := c.top.(at := c.top.at + 1)))
  }

  function Jump(c: State, b: nat): Config {
    Running(c.(top := c.top.(block := b, at := 0)))
  }

  /** The frame a call starts in: arguments in the first registers, no slot initialised. */
  function Entry(f: string, vs: seq<Value>, dest: nat): Frame {
    Frame(f, 0, 0, map i: nat | i < |vs| :: vs[i], map[], map[], dest)
  }

  function ReturnFrom(c: State, v: Value): Config {
    if c.rest == [] then Done(v, c.globals, c.out)
    else
      var caller := c.rest[0];
      Running(State(caller.(regs := caller.regs[c.top.dest := v]), c.rest[1..], c.globals, c.out))
  }

  function Perform(m: Module, c: State, i: Instr): Config {
    var f := c.top;
    match i
    case Bin(d, op, a, b) =>
      if Has(f, a) && Has(f, b) then Define(c, d, BinResult(m.env.floats, op, Get(f, a), Get(f, b))) else Stuck
    case Un(d, op, a) => if Has(f, a) then Define(c, d, UnResult(m.env.floats, op, Get(f, a))) else Stuck
    case Select(d, x, a, b) =>
      if Has(f, x) && Has(f, a) && Has(f, b) && Get(f, x).I? then
        Define(c, d, Cell(if Get(f, x).n != 0 then Get(f, a) else Get(f, b)))
      else Stuck
    case Gep(d, b, x) => if Has(f, b) && Has(f, x) then Define(c, d, GepResult(Get(f, b), Get(f, x))) else Stuck
    case Advance(d, b, x) => if Has(f, b) && Has(f, x) then Define(c, d, AdvanceResult(Get(f, b), Get(f, x))) else Stuck
    case Load(d, a) =>
      if Has(f, a) && Get(f, a).P? then Define(c, d, LoadFrom(f, c.globals, Get(f, a).p)) else Stuck
    case StoreTo(v, a) =>
      if Has(f, v) && Has(f, a) && Get(f, a).P? then
        var c' := StoreAt(m.env, c, Get(f, a).p, Get(f, v));
        if c'.Running? then Proceed(c'.s) else Stuck
      else Stuck
    case MakeValue(d, k, os) =>
      if HasAll(f, os) && k in m.env.composites then DefineMade(c, d, Make(m.env.composites[k], GetAll(f, os))) else Stuck
    case ProjectValue(d, k, n, a) =>
      if Has(f, a) && k in m.env.composites then DefineMade(c, d, Projection(m.env.composites[k], n, Get(f, a))) else Stuck
    case UpdateValue(d, k, n, a, v) =>
      if Has(f, a) && Has(f, v) then Define(c, d, Updated(n, Get(f, a), Get(f, v))) else Stuck
    case Extract(d, n, a) => if Has(f, a) then Define(c, d, Extracted(n, Get(f, a))) else Stuck
    case Insert(d, n, a, v) =>
      if Has(f, a) && Has(f, v) then Define(c, d, Updated(n, Get(f, a), Get(f, v))) else Stuck
    case CallTo(d, g, os) =>
      if HasAll(f, os) && g in m.code then
        Running(State(Entry(g, GetAll(f, os), d), [f.(at := f.at + 1)] + c.rest, c.globals, c.out))
      else Stuck
    case Printf(s, v) => if Has(f, v) then Proceed(c.(out := c.out + [Printed(s, Get(f, v))])) else Stuck
    case Br(b) => Jump(c, b)
    case CondBr(x, yes, no) => if Has(f, x) && Get(f, x).I? then Jump(c, if Get(f, x).n != 0 then yes else no) else Stuck
    case Ret(v) => if Has(f, v) then ReturnFrom(c, Get(f, v)) else Stuck
    case Fail(x) => Trapped(x, c.globals, c.out)
  }

  predicate HasInstr(m: Module, f: Frame) {
    f.fn in m.code && f.block < |m.code[f.fn]| && f.at < |m.code[f.fn][f.block]|
  }

  function Fetch(m: Module, f: Frame): Instr
    requires HasInstr(m, f)
  {
    m.code[f.fn][f.block][f.at]
  }

  function Step(m: Module, c: Config): Config {
    if !c.Running? then c
    else if HasInstr(m, c.s.top) then Perform(m, c.s, Fetch(m, c.s.top))
    else Stuck
  }

  function Run(m: Module, c: Config, k: nat): Config
    decreases k
  {
    if k == 0 then c else Run(m, Step(m, c), k - 1)
  }

  function Start(m: Module): Config {
    Running(State(Entry("main", [], 0), [], map n <- m.env.globals :: ZeroStorage(m.env, m.env.globals[n]), []))
  }

  // ----- runs -----

  lemma {:induction false} RunPlus(m: Module, c: Config, j: nat, k: nat)
    ensures Run(m, Run(m, c, j), k) == Run(m, c, j + k)
    decreases j
  {
    if j > 0 {
      RunPlus(m, Step(m, c), j - 1, k);
    }
  }

  lemma {:induction false} Halted(m: Module, c: Config, k: nat)
    requires !c.Running?
    ensures Run(m, c, k) == c
  {
    if k > 0 {
      Halted(m, c, k - 1);
    }
  }

  /** A machine still running after `k` steps was running all along. */
  lemma RunningBefore(m: Module, c: Config, j: nat, k: nat)
    requires j <= k && Run(m, c, k).Running?
    ensures Run(m, c, j).Running?
  {
    RunPlus(m, c, j, k - j);
    if !Run(m, c, j).Running? {
      Halted(m, Run(m, c, j), k - j);
    }
  }

  /** A halted result is the only one. */
  lemma HaltsOnce(m: Module, c: Config, j: nat, k: nat)
    requires !Run(m, c, j).Running? && !Run(m, c, k).Running?
    ensures Run(m, c, j) == Run(m, c, k)
  {
    if j <= k {
      RunPlus(m, c, j, k - j);
      Halted(m, Run(m, c, j), k - j);
    } else {
      RunPlus(m, c, k, j - k);
      Halted(m, Run(m, c, k), j - k);
    }
  }
}
