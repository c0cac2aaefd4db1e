/**
The second pass: composite operations become inserted and extracted fields, with the checks of
tags, payloads and slice descriptors written out as comparisons and branches to trapping blocks.
Each block of a function is lowered in place; what follows a check goes on in a new block.
*/
module CompositeLowering {
  import opened SemanticIR
  import opened Typing
  import opened Evaluator
  import opened Machine
  import opened Codegen
  import opened Growth
  import opened Lockstep
  import opened Straight

  // ----- registers -----

  function Operands(i: Instr): seq<Operand> {
    match i
    case Bin(_, _, a, b) => [a, b]
    case Un(_, _, a) => [a]
    case Select(_, c, a, b) => [c, a, b]
    case Gep(_, b, x) => [b, x]
    case Advance(_, b, x) => [b, x]
    case Load(_, a) => [a]
    case StoreTo(v, a) => [v, a]
    case MakeValue(_, _, os) => os
    case ProjectValue(_, _, _, a) => [a]
    case UpdateValue(_, _, _, a, v) => [a, v]
    case Extract(_, _, a) => [a]
    case Insert(_, _, a, v) => [a, v]
    case CallTo(_, _, os) => os
    case Printf(_, v) => [v]
    case Br(_) => []
    case CondBr(c, _, _) => [c]
    case Ret(v) => [v]
    case Fail(_) => []
  }

  function OperandsBound(os: seq<Operand>): nat {
    if os == [] then 0
    else
      var n, o := OperandsBound(os[..|os| - 1]), os[|os| - 1];
      if o.Reg? && o.r >= n then o.r + 1 else n
  }

  function BlockBound(b: Block): nat {
    if b == [] then 0
    else
      var n, k := BlockBound(b[..|b| - 1]), OperandsBound(Operands(b[|b| - 1]));
      if k > n then k else n
  }

  /** A number that no register read by the code reaches: the pass numbers its own from here on. */
  function CodeBound(code: Code): nat {
    if code == [] then 0
    else
      var n, k := CodeBound(code[..|code| - 1]), BlockBound(code[|code| - 1]);
      if k > n then k else n
  }

  predicate AllBelow(os: seq<Operand>, n: nat) {
    forall i | 0 <= i < |os| :: Below(os[i], n)
  }

  lemma {:induction false} OperandsBelow(os: seq<Operand>, n: nat)
    requires OperandsBound(os) <= n
    ensures AllBelow(os, n)
  {
    if os != [] {
      OperandsBelow(os[..|os| - 1], n);
      assert forall i | 0 <= i < |os| - 1 :: os[i] == os[..|os| - 1][i];
    }
  }

  lemma {:induction false} BlockBelow(b: Block, n: nat, i: nat)
    requires BlockBound(b) <= n && i < |b|
    ensures AllBelow(Operands(b[i]), n)
  {
    hide Operands;
    if i == |b| - 1 {
      OperandsBelow(Operands(b[i]), n);
    } else {
      BlockBelow(b[..|b| - 1], n, i);
    }
  }

  lemma {:induction false} CodeBelow(code: Code, n: nat, b: nat, i: nat)
    requires CodeBound(code) <= n && b < |code| && i < |code[b]|
    ensures AllBelow(Operands(code[b][i]), n)
  {
    if b == |code| - 1 {
      BlockBelow(code[b], n, i);
    } else {
      CodeBelow(code[..|code| - 1], n, b, i);
    }
  }

  // ----- the patterns -----

  function TagTest(n: nat, tag: Operand, tags: nat): seq<Instr> {
    [ Bin(n, ICmp(Lt), tag, Imm(I(0))),
      Bin(n + 1, ICmp(Ge), tag, Imm(I(tags))),
      Bin(n + 2, Or1, Reg(n), Reg(n + 1)) ]
  }

  function CheckTag(g: Gen, tag: Operand, tags: nat, fault: Fault): Gen {
    FailureIf(EmitAll(g, TagTest(g.regs, tag, tags)), Reg(g.regs + 2), fault)
  }

  /** A negative length, or a positive one with a null pointer. */
  function SliceTest(n: nat, pointer: Operand, length: Operand): seq<Instr> {
    [ Bin(n, ICmp(Lt), length, Imm(I(0))),
      Bin(n + 1, ICmp(Gt), length, Imm(I(0))),
      Un(n + 2, IsNull, pointer),
      Bin(n + 3, And1, Reg(n + 1), Reg(n + 2)),
      Bin(n + 4, Or1, Reg(n), Reg(n + 3)) ]
  }

  function CheckSlice(g: Gen, pointer: Operand, length: Operand): Gen {
    FailureIf(EmitAll(g, SliceTest(g.regs, pointer, length)), Reg(g.regs + 4), StoredSlice)
  }

  /** An aggregate whose fields are all still to be inserted. */
  function Blank(n: nat): Value {
    Agg(seq(n, _ => Unit))
  }

  function Inserted(n: nat, j: nat, size: nat): Operand {
    if j == 0 then Imm(Blank(size)) else Reg(n + j - 1)
  }

  function Inserts(n: nat, os: seq<Operand>): seq<Instr> {
    seq(|os|, j requires 0 <= j < |os| => Insert(n + j, j, Inserted(n, j, |os|), os[j]))
  }

  /** Uses of the operation's result become uses of the last aggregate; here, a copy into its register. */
  function Copy(d: nat, o: Operand): Instr {
    Select(d, Imm(I(1)), o, o)
  }

  function Aggregate(g: Gen, d: nat, os: seq<Operand>): Gen {
    Emit(EmitAll(g, Inserts(g.regs, os)), Copy(d, Inserted(g.regs, |os|, |os|)))
  }

  function LowerMake(c: CompositeDecl, g: Gen, d: nat, os: seq<Operand>): Gen {
    if c.Tagged() && os != [] then Aggregate(CheckTag(g, os[0], c.Tags(), InvalidTag), d, os)
    else if c.kind == Slice && |os| == 2 then Aggregate(CheckSlice(g, os[0], os[1]), d, os)
    else Aggregate(g, d, os)
  }

  function CheckPayload(g: Gen, tag: Operand, expected: int): Gen {
    FailureIf(EmitAll(g, [Bin(g.regs, ICmp(Ne), tag, Imm(I(expected)))]), Reg(g.regs), InactivePayload)
  }

  function TagChecked(c: CompositeDecl, g: Gen, a: Operand): Gen {
    CheckTag(EmitAll(g, [Extract(g.regs, 0, a)]), Reg(g.regs), c.Tags(), StoredTag)
  }

  function LowerProject(c: CompositeDecl, g: Gen, d: nat, field: int, a: Operand): Gen {
    if c.Tagged() then
      var t := TagChecked(c, g, a);
      Emit(if field > 0 then CheckPayload(t, Reg(g.regs), ActiveTag(c, field)) else t, Extract(d, field, a))
    else if c.kind == Slice then
      Emit(CheckSlice(EmitAll(g, [Extract(g.regs, 0, a), Extract(g.regs + 1, 1, a)]), Reg(g.regs), Reg(g.regs + 1)),
           Extract(d, field, a))
    else Emit(g, Extract(d, field, a))
  }

  /** The type an operation carries; a name without a declaration has no checks to make. */
  function TypeOf(env: Env, k: string): CompositeDecl {
    if k in env.composites then env.composites[k] else CompositeDecl(Record, k, [], [])
  }

  function LowerInstr(env: Env, g: Gen, i: Instr): Gen {
    match i
    case MakeValue(d, k, os) => LowerMake(TypeOf(env, k), g, d, os)
    case ProjectValue(d, k, n, a) => LowerProject(TypeOf(env, k), g, d, n, a)
    case UpdateValue(d, _, n, a, v) => Emit(g, Insert(d, n, a, v))
    case _ => Emit(g, i)
  }

  // ----- functions and modules -----

  /** The first `n` instructions of a block, lowered from `g` on. */
  function LowerBlock(env: Env, g: Gen, b: Block, n: nat): Gen
    requires n <= |b|
  {
    if n == 0 then g else LowerInstr(env, LowerBlock(env, g, b, n - 1), b[n - 1])
  }

  function Initial(code: Code): Gen {
    GenState(seq(if code == [] then 1 else |code|, _ => []), 0, CodeBound(code), 0, 0, [], [], [], true)
  }

  function MoveInto(g: Gen, b: nat): Gen {
    if b < |g.code| then MoveTo(g, b) else g
  }

  /** The first `n` blocks. */
  function LowerBlocks(env: Env, code: Code, n: nat): Gen
    requires n <= |code|
  {
    if n == 0 then Initial(code)
    else LowerBlock(env, MoveInto(LowerBlocks(env, code, n - 1), n - 1), code[n - 1], |code[n - 1]|)
  }

  function LowerCode(env: Env, code: Code): Code {
    LowerBlocks(env, code, |code|).code
  }

  function Lowered(m: Module): Module {
    Module(m.env, map f <- m.code :: LowerCode(m.env, m.code[f]))
  }

  /** The state in which the pass reaches an instruction. */
  function Reaching(env: Env, code: Code, b: nat, i: nat): Gen
    requires b < |code| && i <= |code[b]|
  {
    LowerBlock(env, MoveInto(LowerBlocks(env, code, b), b), code[b], i)
  }

  // ----- growth -----

  lemma EmitAllExt(g: Gen, js: seq<Instr>)
    ensures Ext(g, EmitAll(g, js))
  {
  }

  lemma CheckTagExt(g: Gen, tag: Operand, tags: nat, fault: Fault)
    ensures Ext(g, CheckTag(g, tag, tags, fault))
    ensures Ext(EmitAll(g, TagTest(g.regs, tag, tags)), CheckTag(g, tag, tags, fault))
    ensures CheckTag(g, tag, tags, fault).regs == g.regs + 3
  {
    hide Ext;
    var e := EmitAll(g, TagTest(g.regs, tag, tags));
    EmitAllExt(g, TagTest(g.regs, tag, tags));
    FailureExt(e, Reg(g.regs + 2), fault);
    ExtTrans(g, e, CheckTag(g, tag, tags, fault));
  }

  lemma CheckSliceExt(g: Gen, pointer: Operand, length: Operand)
    ensures Ext(g, CheckSlice(g, pointer, length))
    ensures Ext(EmitAll(g, SliceTest(g.regs, pointer, length)), CheckSlice(g, pointer, length))
    ensures CheckSlice(g, pointer, length).regs == g.regs + 5
  {
    hide Ext;
    var e := EmitAll(g, SliceTest(g.regs, pointer, length));
    EmitAllExt(g, SliceTest(g.regs, pointer, length));
    FailureExt(e, Reg(g.regs + 4), StoredSlice);
    ExtTrans(g, e, CheckSlice(g, pointer, length));
  }

  lemma CheckPayloadExt(g: Gen, tag: Operand, expected: int)
    ensures Ext(g, CheckPayload(g, tag, expected)) && CheckPayload(g, tag, expected).regs == g.regs + 1
    ensures Ext(EmitAll(g, [Bin(g.regs, ICmp(Ne), tag, Imm(I(expected)))]), CheckPayload(g, tag, expected))
  {
    hide Ext;
    var js := [Bin(g.regs, ICmp(Ne), tag, Imm(I(expected)))];
    EmitAllExt(g, js);
    FailureExt(EmitAll(g, js), Reg(g.regs), InactivePayload);
    ExtTrans(g, EmitAll(g, js), CheckPayload(g, tag, expected));
  }

  lemma AggregateExt(g: Gen, d: nat, os: seq<Operand>)
    ensures Ext(g, Aggregate(g, d, os)) && Ext(EmitAll(g, Inserts(g.regs, os)), Aggregate(g, d, os))
  {
    hide Ext, Inserts;
    var e := EmitAll(g, Inserts(g.regs, os));
    EmitAllExt(g, Inserts(g.regs, os));
    EmitExt(e, Copy(d, Inserted(g.regs, |os|, |os|)));
    ExtTrans(g, e, Aggregate(g, d, os));
  }

  lemma MakeExt(c: CompositeDecl, g: Gen, d: nat, os: seq<Operand>)
    ensures Ext(g, LowerMake(c, g, d, os))
  {
    hide Ext, Aggregate, CheckTag, CheckSlice;
    if c.Tagged() && os != [] {
      var t := CheckTag(g, os[0], c.Tags(), InvalidTag);
      CheckTagExt(g, os[0], c.Tags(), InvalidTag);
      AggregateExt(t, d, os);
      ExtTrans(g, t, Aggregate(t, d, os));
    } else if c.kind == Slice && |os| == 2 {
      var t := CheckSlice(g, os[0], os[1]);
      CheckSliceExt(g, os[0], os[1]);
      AggregateExt(t, d, os);
      ExtTrans(g, t, Aggregate(t, d, os));
    } else {
      AggregateExt(g, d, os);
    }
  }

  lemma TagCheckedExt(c: CompositeDecl, g: Gen, a: Operand)
    ensures Ext(g, TagChecked(c, g, a)) && Ext(EmitAll(g, [Extract(g.regs, 0, a)]), TagChecked(c, g, a))
    ensures TagChecked(c, g, a).regs == g.regs + 4
  {
    hide Ext, CheckTag;
    var e := EmitAll(g, [Extract(g.regs, 0, a)]);
    EmitAllExt(g, [Extract(g.regs, 0, a)]);
    CheckTagExt(e, Reg(g.regs), c.Tags(), StoredTag);
    ExtTrans(g, e, TagChecked(c, g, a));
  }

  lemma ProjectExt(c: CompositeDecl, g: Gen, d: nat, field: int, a: Operand)
    ensures Ext(g, LowerProject(c, g, d, field, a))
  {
    hide Ext, Emit, EmitAll, TagChecked, CheckSlice, CheckPayload;
    var last := Extract(d, field, a);
    if c.Tagged() {
      var t := TagChecked(c, g, a);
      TagCheckedExt(c, g, a);
      var u := if field > 0 then CheckPayload(t, Reg(g.regs), ActiveTag(c, field)) else t;
      CheckPayloadExt(t, Reg(g.regs), ActiveTag(c, field));
      if field > 0 { ExtTrans(g, t, u); }
      EmitExt(u, last);
      ExtTrans(g, u, Emit(u, last));
    } else if c.kind == Slice {
      var js := [Extract(g.regs, 0, a), Extract(g.regs + 1, 1, a)];
      var e := EmitAll(g, js);
      var t := CheckSlice(e, Reg(g.regs), Reg(g.regs + 1));
      EmitAllExt(g, js);
      CheckSliceExt(e, Reg(g.regs), Reg(g.regs + 1));
      ExtTrans(g, e, t);
      EmitExt(t, last);
      ExtTrans(g, t, Emit(t, last));
    } else {
      EmitExt(g, last);
    }
  }

  lemma InstrExt(env: Env, g: Gen, i: Instr)
    ensures Ext(g, LowerInstr(env, g, i))
  {
    hide Ext, Emit, LowerMake, LowerProject;
    match i
    case MakeValue(d, k, os) => MakeExt(TypeOf(env, k), g, d, os);
    case ProjectValue(d, k, n, a) => ProjectExt(TypeOf(env, k), g, d, n, a);
    case UpdateValue(d, _, n, a, v) => EmitExt(g, Insert(d, n, a, v));
    case _ => EmitExt(g, i);
  }

  lemma ExtSelf(g: Gen)
    ensures Ext(g, g)
  {
  }

  lemma {:induction false} BlockExt(env: Env, g: Gen, b: Block, i: nat, n: nat)
    requires i <= n <= |b|
    ensures Ext(LowerBlock(env, g, b, i), LowerBlock(env, g, b, n))
  {
    hide Ext, LowerInstr;
    if i == n {
      ExtSelf(LowerBlock(env, g, b, i));
    } else {
      BlockExt(env, g, b, i, n - 1);
      InstrExt(env, LowerBlock(env, g, b, n - 1), b[n - 1]);
      ExtTrans(LowerBlock(env, g, b, i), LowerBlock(env, g, b, n - 1), LowerBlock(env, g, b, n));
    }
  }

  /** The blocks still to come are there and empty. */
  predicate Vacant(g: Gen, from: nat, to: nat) {
    to <= |g.code| && forall b | from <= b < to :: g.code[b] == []
  }

  lemma ExtVacant(g: Gen, h: Gen, from: nat, to: nat)
    requires Ext(g, h) && Vacant(g, from, to) && g.at < from
    ensures Vacant(h, from, to)
  {
  }

  lemma {:induction false} BlocksVacant(env: Env, code: Code, n: nat)
    requires n <= |code|
    ensures Vacant(LowerBlocks(env, code, n), n, |code|)
    ensures CodeBound(code) <= LowerBlocks(env, code, n).regs
  {
    hide Ext, LowerBlock;
    if n > 0 {
      BlocksVacant(env, code, n - 1);
      var g := MoveInto(LowerBlocks(env, code, n - 1), n - 1);
      BlockExt(env, g, code[n - 1], 0, |code[n - 1]|);
      assert LowerBlock(env, g, code[n - 1], 0) == g by { BlockZero(env, g, code[n - 1]); }
      ExtVacant(g, LowerBlocks(env, code, n), n, |code|);
      ExtRegs(g, LowerBlocks(env, code, n));
    }
  }

  lemma BlockZero(env: Env, g: Gen, b: Block)
    ensures LowerBlock(env, g, b, 0) == g
  {
  }

  lemma ExtRegs(g: Gen, h: Gen)
    requires Ext(g, h)
    ensures g.regs <= h.regs
  {
  }

  lemma {:induction false} BlocksPrefix(env: Env, code: Code, i: nat, n: nat)
    requires i <= n <= |code|
    ensures Prefix(LowerBlocks(env, code, i).code, LowerBlocks(env, code, n).code)
  {
    hide Ext, LowerBlock, Prefix;
    if i == n {
      PrefixSelf(LowerBlocks(env, code, i).code);
    } else {
      BlocksPrefix(env, code, i, n - 1);
      var g := MoveInto(LowerBlocks(env, code, n - 1), n - 1);
      BlockZero(env, g, code[n - 1]);
      BlockExt(env, g, code[n - 1], 0, |code[n - 1]|);
      ExtPrefix(g, LowerBlocks(env, code, n));
      PrefixTrans(LowerBlocks(env, code, i).code, g.code, LowerBlocks(env, code, n).code);
    }
  }

  lemma PrefixSelf(c: Code)
    ensures Prefix(c, c)
  {
  }

  /** What the pass has emitted when it reaches an instruction is part of the function's code. */
  lemma ReachingCoded(m: Module, fn: string, b: nat, i: nat)
    requires fn in m.code && b < |m.code[fn]| && i <= |m.code[fn][b]|
    ensures Coded(Lowered(m), fn, Reaching(m.env, m.code[fn], b, i))
  {
    hide Ext, LowerBlock, LowerBlocks, Prefix;
    var env, code := m.env, m.code[fn];
    var g := MoveInto(LowerBlocks(env, code, b), b);
    BlockExt(env, g, code[b], i, |code[b]|);
    NextBlocks(env, code, b);
    ExtPrefix(Reaching(env, code, b, i), LowerBlocks(env, code, b + 1));
    BlocksPrefix(env, code, b + 1, |code|);
    PrefixTrans(Reaching(env, code, b, i).code, LowerBlocks(env, code, b + 1).code, LowerCode(env, code));
  }

  lemma NextBlocks(env: Env, code: Code, b: nat)
    requires b < |code|
    ensures LowerBlocks(env, code, b + 1) == LowerBlock(env, MoveInto(LowerBlocks(env, code, b), b), code[b], |code[b]|)
  {
    hide LowerBlock;
  }

  /** The first instruction of a block is reached at the start of the block of the same number. */
  lemma ReachingStart(env: Env, code: Code, b: nat)
    requires b < |code|
    ensures var g := Reaching(env, code, b, 0); g.at == b && g.code[b] == []
  {
    hide LowerBlocks;
    BlocksVacant(env, code, b);
  }

  lemma ReachingRegs(env: Env, code: Code, b: nat, i: nat)
    requires b < |code| && i <= |code[b]|
    ensures CodeBound(code) <= Reaching(env, code, b, i).regs
  {
    hide Ext, LowerBlock, LowerBlocks;
    var g := MoveInto(LowerBlocks(env, code, b), b);
    BlocksVacant(env, code, b);
    BlockZero(env, g, code[b]);
    BlockExt(env, g, code[b], 0, i);
    ExtRegs(g, Reaching(env, code, b, i));
  }

  lemma ReachingNext(env: Env, code: Code, b: nat, i: nat)
    requires b < |code| && i < |code[b]|
    ensures Reaching(env, code, b, i + 1) == LowerInstr(env, Reaching(env, code, b, i), code[b][i])
  {
    hide LowerInstr, LowerBlocks;
  }
}
