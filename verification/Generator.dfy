/**
The code generator as an object: `Generator` appends instructions at its insertion point,
creates blocks, and keeps the scope, break and continue stacks, statement by statement. Every
method leaves exactly the state that the functions of `Codegen` describe.
*/
module Generator {
  import opened SemanticIR
  import opened Typing
  import opened Machine
  import opened Codegen
  import opened Growth

  // ----- the scope and loop stacks -----

  /** Only the innermost scope may have gained variables; the loops are those it found. */
  ghost predicate SameOuter(g: Gen, h: Gen) {
    SameLoops(g, h) && |h.scopes| == |g.scopes| && (g.scopes != [] ==> h.scopes[..|g.scopes| - 1] == g.scopes[..|g.scopes| - 1])
  }

  lemma SameOuterTrans(a: Gen, b: Gen, c: Gen)
    requires SameOuter(a, b) && SameOuter(b, c)
    ensures SameOuter(a, c)
  {
  }

  lemma {:induction false} DeclaresKeepScopes(w: Env, g: Gen, ds: seq<Variable>)
    ensures SameOuter(g, DeclareEach(w, g, ds))
    decreases ds
  {
    if ds != [] {
      DeclaresKeepScopes(w, Declare(w, g, ds[0]), ds[1..]);
    }
  }

  lemma {:induction false} StmtKeepsScopes(w: Env, g: Gen, s: Statement)
    ensures SameOuter(g, GenStmt(w, g, s))
    decreases s, 2
  {
    hide GenIf, GenWhile, GenFor, GenExpr, GenPlace, GenPrint, DeclareEach, GenStmts;
    match s.kind
    case BlockS => StmtsKeepScopes(w, if s.lexical then g.(scopes := g.scopes + [map[]]) else g, s.body);
    case DeclareS => DeclaresKeepScopes(w, g, s.variables);
    case AssignS => if |s.expressions| == 2 { AssignExtends(w, g, s); }
    case UpdateS => if |s.expressions| == 2 { UpdateExtends(w, g, s); }
    case ExpressionS | ReturnS => if s.expressions != [] { ExprGrows(w, g, s.expressions[0]); }
    case PrintS => PrintGrows(w, g, s.expressions);
    case IfS => if |s.expressions| == 1 { IfKeepsScopes(w, g, s); }
    case WhileS => if |s.expressions| == 1 { WhileKeepsScopes(w, g, s); }
    case ForS => if |s.expressions| == 4 { ForKeepsScopes(w, g, s); }
    case BreakS | ContinueS =>
  }

  lemma {:induction false} StmtsKeepScopes(w: Env, g: Gen, ss: seq<Statement>)
    ensures SameOuter(g, GenStmts(w, g, ss))
    decreases ss, 0
  {
    hide GenStmt;
    if ss != [] {
      var h := if Terminated(g) then g else GenStmt(w, g, ss[0]);
      StmtKeepsScopes(w, g, ss[0]);
      StmtsKeepScopes(w, h, ss[1..]);
      SameOuterTrans(g, h, GenStmts(w, h, ss[1..]));
    }
  }

  lemma ResumeOuter(g: Gen, b: nat)
    ensures SameOuter(g, Resume(g, b))
  {
  }

  lemma BranchOuter(g: Gen, b: nat)
    ensures SameOuter(g, Branch(g, b))
  {
  }

  lemma TestOuter(w: Env, g: Gen, a: Gen, e: Expression, yes: nat, no: nat)
    requires SameOuter(g, a)
    ensures var v := GenExpr(w, a, e); var c := BoolValue(v.g, v.o); SameOuter(g, Emit(c.g, CondBr(c.o, yes, no)))
  {
    hide GenExpr;
    ExprGrows(w, a, e);
  }

  /** A segment: into a block, through its statements, and over the closing branch. */
  lemma {:induction false} SegmentOuter(w: Env, g: Gen, h: Gen, b: nat, ss: seq<Statement>, t: nat)
    requires SameOuter(g, h)
    ensures SameOuter(g, Branch(GenStmts(w, Resume(h, b), ss), t))
    decreases ss, 1
  {
    hide SameOuter, GenStmts, Resume, Branch;
    var x := GenStmts(w, Resume(h, b), ss);
    ResumeOuter(h, b);
    StmtsKeepScopes(w, Resume(h, b), ss);
    BranchOuter(x, t);
    SameOuterTrans(g, h, Resume(h, b));
    SameOuterTrans(g, Resume(h, b), x);
    SameOuterTrans(g, x, Branch(x, t));
  }

  lemma {:induction false} IfKeepsScopes(w: Env, g: Gen, s: Statement)
    requires |s.expressions| == 1
    ensures SameOuter(g, GenIf(w, g, s))
    decreases s, 1
  {
    assert SameOuter(g, AddBlocks(g, 3));
    hide SameOuter, GenStmts, Resume, Branch, GenExpr, Emit, BoolValue, AddBlocks;
    var n := |g.code|;
    TestOuter(w, g, AddBlocks(g, 3), s.expressions[0], n, n + 1);
    SegmentOuter(w, g, IfHead(w, g, s), n, s.body, n + 2);
    SegmentOuter(w, g, IfYes(w, g, s), n + 1, s.alternative, n + 2);
    ResumeOuter(IfNo(w, g, s), n + 2);
    SameOuterTrans(g, IfNo(w, g, s), GenIf(w, g, s));
  }

  lemma {:induction false} WhileKeepsScopes(w: Env, g: Gen, s: Statement)
    requires |s.expressions| == 1
    ensures SameOuter(g, GenWhile(w, g, s))
    decreases s, 1
  {
    hide GenExpr, GenStmts;
    var n := |g.code|;
    ExprGrows(w, Resume(Branch(AddBlocks(g, 3), n), n), s.expressions[0]);
    StmtsKeepScopes(w, WhileEnter(w, g, s), s.body);
    assert SameOuter(g, WhileHead(w, g, s)) && SameOuter(WhileHead(w, g, s), WhileBody(w, g, s));
  }

  lemma {:induction false} ForKeepsScopes(w: Env, g: Gen, s: Statement)
    requires |s.expressions| == 4
    ensures SameOuter(g, GenFor(w, g, s))
    decreases s, 1
  {
    hide GenStmts, ForStart, ForTest, ForAdvance;
    ForHeadScopes(w, g, s);
    StmtsKeepScopes(w, ForEnter(w, g, s), s.body);
    var n, body := ForBlock(w, g, s), ForBody(w, g, s);
    assert SameOuter(ForHead(w, g, s), body);
    AdvanceScopes(Resume(body, n + 2), ForStart(w, g, s).o, ForSlot(w, g, s), n);
  }

  lemma ForHeadScopes(w: Env, g: Gen, s: Statement)
    requires |s.expressions| == 4
    ensures ForHead(w, g, s).scopes == g.scopes && SameLoops(g, ForHead(w, g, s))
  {
    hide ForStart, ForTest;
    StartScopes(w, g, s);
    TestScopes(w, Resume(ForEntry(w, g, s).g, ForBlock(w, g, s)), s, ForEntry(w, g, s).o, ForSlot(w, g, s), ForBlock(w, g, s));
  }

  lemma StartScopes(w: Env, g: Gen, s: Statement)
    requires |s.expressions| == 4
    ensures ForStart(w, g, s).g.scopes == g.scopes && SameLoops(g, ForStart(w, g, s).g)
  {
    hide GenExpr, GenPlace;
    ExprGrows(w, g, s.expressions[1]);
    PlaceGrows(w, GenExpr(w, g, s.expressions[1]).g, s.expressions[0]);
  }

  lemma TestScopes(w: Env, g: Gen, s: Statement, counter: Operand, slot: nat, n: nat)
    requires |s.expressions| == 4
    ensures ForTest(w, g, s, counter, slot, n).scopes == g.scopes && SameLoops(g, ForTest(w, g, s, counter, slot, n))
  {
    hide GenExpr;
    var current := Def(g, Load(g.regs, counter)).g;
    ExprGrows(w, current, s.expressions[2]);
    ExprGrows(w, ForStep(w, current, s, slot).g, s.expressions[3]);
  }

  lemma AdvanceScopes(g: Gen, counter: Operand, slot: nat, n: nat)
    ensures ForAdvance(g, counter, slot, n).scopes == g.scopes && SameLoops(g, ForAdvance(g, counter, slot, n))
  {
  }

  lemma WhileHeadLoops(w: Env, g: Gen, s: Statement)
    requires |s.expressions| == 1
    ensures SameLoops(g, WhileHead(w, g, s))
  {
    hide GenExpr;
    var n := |g.code|;
    ExprGrows(w, Resume(Branch(AddBlocks(g, 3), n), n), s.expressions[0]);
  }

  lemma OneBlock()
    ensures seq<Block>(1, _ => []) == [[]]
  {
  }

  class Generator {
    const env: Env
    var code: Code
    var at: nat
    var regs: nat
    var slots: nat
    var steps: nat
    var scopes: seq<map<string, Binding>>
    var breaks: seq<nat>
    var continues: seq<nat>
    var ok: bool

    ghost predicate Valid()
      reads this
    {
      at < |code|
    }

    ghost function State(): Gen
      requires Valid()
      reads this
    {
      GenState(code, at, regs, slots, steps, scopes, breaks, continues, ok)
    }

    /** A function with `params` arguments: one empty block and one scope. */
    constructor (w: Env, params: nat)
      ensures env == w && Valid() && State() == EntryState(params)
    {
      env := w;
      code, at, regs, slots, steps := [[]], 0, params, 0, 0;
      scopes, breaks, continues, ok := [map[]], [], [], true;
    }

    // ----- blocks and instructions -----

    method Emit(i: Instr)
      requires Valid()
      modifies this`code
      ensures Valid() && State() == Codegen.Emit(old(State()), i)
    {
      code := code[at := code[at] + [i]];
    }

    method Def(i: Instr) returns (o: Operand)
      requires Valid()
      modifies this`code, this`regs
      ensures Valid() && Out(State(), o) == Codegen.Def(old(State()), i)
    {
      Emit(i);
      o := Reg(regs);
      regs := regs + 1;
    }

    method NewBlock() returns (b: nat)
      requires Valid()
      modifies this`code
      ensures Valid() && b == old(|code|) && State() == AddBlocks(old(State()), 1) && code == old(code) + [[]]
    {
      b := |code|;
      code := code + [[]];
      OneBlock();
    }

    /** Moves the insertion point to a block that exists. */
    method SetInsertionPoint(b: nat)
      requires Valid()
      modifies this`at, this`ok
      ensures Valid() && State() == Resume(old(State()), b)
    {
      if b < |code| {
        at := b;
      } else {
        ok := false;
      }
    }

    method IsTerminated() returns (r: bool)
      requires Valid()
      ensures r == Terminated(State())
    {
      var block := code[at];
      r := block != [] && block[|block| - 1].Terminator();
    }

    method BranchTo(b: nat)
      requires Valid()
      modifies this`code
      ensures Valid() && State() == Branch(old(State()), b)
    {
      var ended := IsTerminated();
      if !ended {
        Emit(Br(b));
      }
    }

    method BoolOf(v: Operand) returns (o: Operand)
      requires Valid()
      modifies this`code, this`regs
      ensures Valid() && Out(State(), o) == BoolValue(old(State()), v)
    {
      o := Def(Bin(regs, ICmp(Ne), v, Imm(I(0))));
    }

    /** Branches to a fresh trapping block and goes on in another fresh one. */
    method TrapIf(c: Operand, f: Fault)
      requires Valid()
      modifies this`code, this`at
      ensures Valid() && State() == FailureIf(old(State()), c, f)
    {
      ghost var g := State();
      var bad := NewBlock();
      var next := NewBlock();
      Emit(CondBr(c, bad, next));
      at := bad;
      assert code[bad] == [];
      Emit(Fail(f));
      at := next;
      assert code[bad] == [Fail(f)] && code[next] == [] && |code| == |g.code| + 2;
      assert code == g.code[g.at := g.code[g.at] + [CondBr(c, bad, next)]] + [[Fail(f)], []];
    }

    method MarkBroken()
      modifies this`ok
      requires Valid()
      ensures Valid() && State() == Broken(old(State()))
    {
      ok := false;
    }

    // ----- variables -----

    method Lookup(name: string) returns (r: Found)
      requires Valid()
      ensures r == Find(env, State(), name)
    {
      var i := |scopes|;
      while i > 0
        invariant 0 <= i <= |scopes|
        invariant forall j | i <= j < |scopes| :: name !in scopes[j]
      {
        i := i - 1;
        if name in scopes[i] {
          return Found(SlotRef(scopes[i][name].slot), scopes[i][name].decl);
        }
      }
      if name in env.globals {
        return Found(Imm(P(GlobalAddr(name))), env.globals[name]);
      }
      return NotFound;
    }

    method Declare(d: Variable)
      requires Valid()
      modifies this`code, this`slots, this`scopes, this`ok
      ensures Valid() && State() == Codegen.Declare(env, old(State()), d)
    {
      Emit(StoreTo(Imm(ZeroStorage(env, d)), SlotRef(slots)));
      if scopes == [] {
        ok := false;
      } else {
        var n := |scopes| - 1;
        scopes := scopes[..n] + [scopes[n][d.name := Binding(slots, d)]];
      }
      slots := slots + 1;
    }

    method DeclareAll(ds: seq<Variable>)
      requires Valid()
      modifies this`code, this`slots, this`scopes, this`ok
      ensures Valid() && State() == DeclareEach(env, old(State()), ds)
    {
      for i := 0 to |ds|
        invariant Valid() && DeclareEach(env, State(), ds[i..]) == DeclareEach(env, old(State()), ds)
      {
        assert ds[i..][0] == ds[i] && ds[i..][1..] == ds[i + 1..];
        Declare(ds[i]);
      }
    }

    // ----- operators -----

    /** Emits a run of definitions; the last one's register is the result. */
    method DefRun(js: seq<Instr>) returns (o: Operand)
      requires Valid() && js != []
      modifies this`code, this`regs
      ensures Valid() && Out(State(), o) == DefAll(old(State()), js) && regs == old(regs) + |js|
    {
      code := code[at := code[at] + js];
      regs := regs + |js|;
      o := Reg(regs - 1);
    }

    method Division(opcode: int, l: Operand, r: Operand) returns (o: Operand)
      requires Valid()
      modifies this`code, this`regs, this`at
      ensures Valid() && Out(State(), o) == GenDivision(old(State()), opcode, l, r)
    {
      hide EmitAll, FailureIf, Codegen.Def;
      var bad := DefRun(DivisionGuard(regs, l, r));
      TrapIf(bad, DivisionDomain);
      o := Def(Bin(regs, if opcode == 4 then SDiv else SRem, l, r));
    }

    method IntOperator(opcode: int, l: Operand, r: Operand) returns (o: Operand)
      requires Valid()
      modifies this`code, this`regs, this`at, this`ok
      ensures Valid() && Out(State(), o) == GenInt(old(State()), opcode, l, r)
    {
      hide EmitAll, GenDivision, Codegen.Def;
      if opcode == 1 {
        o := Def(Bin(regs, Add32, l, r));
      } else if opcode == 2 {
        o := Def(Bin(regs, Sub32, l, r));
      } else if opcode == 3 {
        o := Def(Bin(regs, Mul32, l, r));
      } else if opcode == 4 || opcode == 5 {
        o := Division(opcode, l, r);
      } else if opcode == 12 {
        o := DefRun(LogicCode(regs, Or1, l, r));
      } else if opcode == 13 {
        o := DefRun(LogicCode(regs, And1, l, r));
      } else if 6 <= opcode <= 11 {
        o := DefRun(CompareCode(regs, ICmp(COMPARISONS[opcode - 6]), l, r));
      } else {
        MarkBroken();
        o := Imm(Unit);
      }
    }

    method FloatOperator(opcode: int, l: Operand, r: Operand) returns (o: Operand)
      requires Valid()
      modifies this`code, this`regs, this`at, this`ok
      ensures Valid() && Out(State(), o) == GenFloat(old(State()), opcode, l, r)
    {
      hide EmitAll, Codegen.Def, FailureIf;
      if opcode == 1 {
        o := Def(Bin(regs, FArith(FAdd), l, r));
      } else if opcode == 2 {
        o := Def(Bin(regs, FArith(FSub), l, r));
      } else if opcode == 3 {
        o := Def(Bin(regs, FArith(FMul), l, r));
      } else if opcode == 4 {
        var zero := Def(Bin(regs, FCmp(Eq), r, Imm(F(FZERO))));
        TrapIf(zero, FloatDivision);
        o := Def(Bin(regs, FArith(FDiv), l, r));
      } else if 6 <= opcode <= 11 {
        o := DefRun(CompareCode(regs, FCmp(COMPARISONS[opcode - 6]), l, r));
      } else {
        MarkBroken();
        o := Imm(Unit);
      }
    }

    method Binary(t: ScalarType, opcode: int, l: Operand, r: Operand) returns (o: Operand)
      requires Valid()
      modifies this`code, this`regs, this`at, this`ok
      ensures Valid() && Out(State(), o) == GenBinary(old(State()), t, opcode, l, r)
    {
      hide GenInt, GenFloat, EmitAll;
      if t == String {
        o := DefRun(TextCode(regs, if opcode == 10 then Eq else Ne, l, r));
      } else if t == Float64 {
        o := FloatOperator(opcode, l, r);
      } else {
        o := IntOperator(opcode, l, r);
      }
    }

    // ----- arrays and slices -----

    method Element(base: Operand, extent: int, index: Operand) returns (o: Operand)
      requires Valid()
      modifies this`code, this`regs, this`at
      ensures Valid() && Out(State(), o) == GenElement(old(State()), base, extent, index)
    {
      hide EmitAll, FailureIf, Codegen.Def;
      var bad := DefRun(BoundsGuard(regs, extent, index));
      TrapIf(bad, ArrayBounds);
      o := Def(Gep(regs, base, index));
    }

    method MakeSlice(owner: Found, composite: string, offset: Operand, length: Operand) returns (o: Operand)
      requires Valid() && owner.Found?
      modifies this`code, this`regs, this`at
      ensures Valid() && Out(State(), o) == GenSlice(old(State()), owner, composite, offset, length)
    {
      hide EmitAll, FailureIf;
      var n := regs;
      var bad := DefRun(RangeGuard(n, owner.decl.extent, offset, length));
      TrapIf(bad, SliceRange);
      o := DefRun([Gep(n + 8, owner.o, Reg(n)), MakeValue(n + 9, composite, [Reg(n + 8), Reg(n + 1)])]);
    }

    method SliceElement(owner: Found, index: Operand) returns (o: Operand)
      requires Valid() && owner.Found?
      modifies this`code, this`regs, this`at
      ensures Valid() && Out(State(), o) == GenSliceIndex(old(State()), owner, index)
    {
      hide EmitAll, FailureIf;
      var n := regs;
      var bad := DefRun(IndexGuard(n, owner.o, owner.decl.composite, index));
      TrapIf(bad, SliceBounds);
      o := DefRun([Advance(n + 5, Reg(n + 1), Reg(n + 3)), Load(n + 6, Reg(n + 5))]);
    }

    // ----- expressions -----

    method Expr(e: Expression) returns (o: Operand)
      requires Valid()
      modifies this`code, this`regs, this`at, this`ok
      ensures Valid() && Out(State(), o) == GenExpr(env, old(State()), e)
      decreases e, 2
    {
      hide GenBinary, GenUnary, GenSlice, GenSliceIndex, GenExprs, GenPlace, Find, Codegen.Def;
      o := Imm(Unit);
      match e.kind
      case IntegerE | BooleanE => o := Imm(I(e.integer));
      case FloatE => o := Imm(F(e.decimal));
      case StringE => o := Imm(T(Text(e.name)));
      case VariableE | IndexE =>
        var p := Pointer(e);
        o := Def(Load(regs, p));
      case UnaryE =>
        if |e.operands| != 1 {
          MarkBroken();
        } else {
          var v := Expr(e.operands[0]);
          o := Negate(e.ty, v);
        }
      case BinaryE =>
        if |e.operands| != 2 {
          MarkBroken();
        } else {
          var l := Expr(e.operands[0]);
          var r := Expr(e.operands[1]);
          o := Binary(e.operands[0].ty, e.opcode, l, r);
        }
      case CallE =>
        var args := Exprs(e.operands);
        o := Def(CallTo(regs, e.name, args));
        if e.name !in env.functions {
          MarkBroken();
          o := Imm(Unit);
        }
      case ConstructE =>
        var fields := Exprs(e.operands);
        if e.composite in env.composites {
          o := Def(MakeValue(regs, e.composite, fields));
        } else {
          MarkBroken();
        }
      case ProjectE => o := Projection(e);
      case SliceE | SliceIndexE => o := Window(e);
    }

    method Negate(t: ScalarType, v: Operand) returns (o: Operand)
      requires Valid()
      modifies this`code, this`regs
      ensures Valid() && Out(State(), o) == GenUnary(old(State()), t, v)
    {
      hide Codegen.Def;
      if t == Float64 {
        o := Def(Un(regs, FNeg, v));
      } else {
        o := Def(Bin(regs, Sub32, Imm(I(0)), v));
      }
    }

    method Projection(e: Expression) returns (o: Operand)
      requires Valid() && e.kind == ProjectE
      modifies this`code, this`regs, this`at, this`ok
      ensures Valid() && Out(State(), o) == GenExpr(env, old(State()), e)
      decreases e, 1
    {
      hide Codegen.Def;
      o := Imm(Unit);
      if |e.operands| != 1 {
        MarkBroken();
      } else {
        var v := Expr(e.operands[0]);
        if e.operands[0].composite in env.composites {
          o := Def(ProjectValue(regs, e.operands[0].composite, e.integer, v));
        } else {
          MarkBroken();
        }
      }
    }

    /** Slices of arrays and elements of slices. */
    method Window(e: Expression) returns (o: Operand)
      requires Valid() && (e.kind == SliceE || e.kind == SliceIndexE)
      modifies this`code, this`regs, this`at, this`ok
      ensures Valid() && Out(State(), o) == GenExpr(env, old(State()), e)
      decreases e, 1
    {
      hide GenSlice, GenSliceIndex, Find;
      o := Imm(Unit);
      if |e.operands| != (if e.kind == SliceE then 2 else 1) {
        MarkBroken();
      } else if e.kind == SliceE {
        var offset := Expr(e.operands[0]);
        var length := Expr(e.operands[1]);
        var owner := Lookup(e.name);
        if owner.Found? && e.composite in env.composites {
          o := MakeSlice(owner, e.composite, offset, length);
        } else {
          MarkBroken();
        }
      } else {
        var index := Expr(e.operands[0]);
        var owner := Lookup(e.name);
        if owner.Found? && owner.decl.composite in env.composites {
          o := SliceElement(owner, index);
        } else {
          MarkBroken();
        }
      }
    }

    /** The address of a variable or array element: the index first, then the variable. */
    method Pointer(e: Expression) returns (o: Operand)
      requires Valid()
      modifies this`code, this`regs, this`at, this`ok
      ensures Valid() && Out(State(), o) == GenPlace(env, old(State()), e)
      decreases e, 1
    {
      hide GenElement, Find, GenExpr;
      o := Imm(Unit);
      if e.kind == IndexE {
        if |e.operands| != 1 {
          MarkBroken();
          return;
        }
        var index := Expr(e.operands[0]);
        var v := Lookup(e.name);
        if v.Found? {
          o := Element(v.o, v.decl.extent, index);
        } else {
          MarkBroken();
        }
      } else {
        var v := Lookup(e.name);
        if v.Found? {
          o := v.o;
        } else {
          MarkBroken();
        }
      }
    }

    method Exprs(es: seq<Expression>) returns (os: seq<Operand>)
      requires Valid()
      modifies this`code, this`regs, this`at, this`ok
      ensures Valid() && Outs(State(), os) == GenExprs(env, old(State()), es)
      decreases es, 0
    {
      hide GenExpr;
      os := [];
      for i := 0 to |es|
        invariant Valid() && |os| == i
        invariant var rest := GenExprs(env, State(), es[i..]); GenExprs(env, old(State()), es) == Outs(rest.g, os + rest.os)
      {
        assert es[i..][0] == es[i] && es[i..][1..] == es[i + 1..];
        ghost var x := GenExpr(env, State(), es[i]);
        ghost var rest := GenExprs(env, x.g, es[i + 1..]);
        var o := Expr(es[i]);
        assert os + ([o] + rest.os) == (os + [o]) + rest.os;
        os := os + [o];
      }
      assert os + [] == os;
    }

    // ----- statements -----

    method PrintAll(es: seq<Expression>)
      requires Valid()
      modifies this`code, this`regs, this`at, this`ok
      ensures Valid() && State() == GenPrint(env, old(State()), es)
    {
      hide GenExpr, Codegen.Def, Codegen.Emit;
      for i := 0 to |es|
        invariant Valid() && GenPrint(env, State(), es[i..]) == GenPrint(env, old(State()), es)
      {
        assert es[i..][0] == es[i] && es[i..][1..] == es[i + 1..];
        var v := Expr(es[i]);
        if es[i].ty == String {
          v := Def(Un(regs, SafeString, v));
        }
        Emit(Printf(PrintFormat(es[i].ty), v));
        Emit(Printf("%s", Imm(Separator(i + 1 == |es|))));
      }
    }

    /** Statements behind a terminator are not generated. */
    method Statements(ss: seq<Statement>)
      requires Valid()
      modifies this
      ensures Valid() && State() == GenStmts(env, old(State()), ss)
      decreases ss, 0
    {
      hide GenStmt;
      for i := 0 to |ss|
        invariant Valid() && GenStmts(env, State(), ss[i..]) == GenStmts(env, old(State()), ss)
      {
        assert ss[i..][0] == ss[i] && ss[i..][1..] == ss[i + 1..];
        var ended := IsTerminated();
        if !ended {
          Stmt(ss[i]);
        }
      }
    }

    method Stmt(s: Statement)
      requires Valid()
      modifies this
      ensures Valid() && State() == GenStmt(env, old(State()), s)
      decreases s, 2
    {
      hide GenIf, GenWhile, GenFor, GenPrint, DeclareEach, GenExpr, GenPlace, Branch, GenStmts, Codegen.Emit, Codegen.Def;
      match s.kind
      case BlockS => Scope(s);
      case DeclareS => DeclareAll(s.variables);
      case AssignS =>
        if |s.expressions| != 2 {
          MarkBroken();
        } else {
          var v := Expr(s.expressions[1]);
          var p := Pointer(s.expressions[0]);
          Emit(StoreTo(v, p));
        }
      case UpdateS => Update(s);
      case ExpressionS =>
        if |s.expressions| != 1 {
          MarkBroken();
        } else {
          var _ := Expr(s.expressions[0]);
        }
      case PrintS => PrintAll(s.expressions);
      case IfS =>
        if |s.expressions| != 1 {
          MarkBroken();
        } else {
          If(s);
        }
      case WhileS =>
        if |s.expressions| != 1 {
          MarkBroken();
        } else {
          While(s);
        }
      case ForS =>
        if |s.expressions| != 4 {
          MarkBroken();
        } else {
          For(s);
        }
      case BreakS =>
        if breaks == [] {
          MarkBroken();
        } else {
          BranchTo(breaks[|breaks| - 1]);
        }
      case ContinueS =>
        if continues == [] {
          MarkBroken();
        } else {
          BranchTo(continues[|continues| - 1]);
        }
      case ReturnS =>
        if s.expressions == [] {
          Emit(Ret(Imm(Unit)));
        } else {
          var v := Expr(s.expressions[0]);
          Emit(Ret(v));
        }
    }

    method Scope(s: Statement)
      requires Valid() && s.kind == BlockS
      modifies this
      ensures Valid() && State() == GenStmt(env, old(State()), s)
      decreases s, 1
    {
      hide GenStmts;
      if s.lexical {
        scopes := scopes + [map[]];
        StmtsKeepScopes(env, State(), s.body);
        Statements(s.body);
        scopes := scopes[..|scopes| - 1];
      } else {
        Statements(s.body);
      }
    }

    method Update(s: Statement)
      requires Valid() && s.kind == UpdateS
      modifies this`code, this`regs, this`at, this`ok
      ensures Valid() && State() == GenStmt(env, old(State()), s)
    {
      hide GenExpr, GenPlace, Codegen.Emit, Codegen.Def;
      if |s.expressions| != 2 {
        MarkBroken();
      } else {
        var record := Expr(s.expressions[0]);
        var field := Expr(s.expressions[1]);
        var updated := Def(UpdateValue(regs, s.expressions[0].composite, s.declaration, record, field));
        var p := Pointer(s.expressions[0]);
        Emit(StoreTo(updated, p));
      }
    }

    /** Three fresh blocks. */
    method NewBlocks3() returns (n: nat)
      requires Valid()
      modifies this`code
      ensures Valid() && n == old(|code|) && State() == AddBlocks(old(State()), 3)
    {
      n := NewBlock();
      var b := NewBlock();
      var c := NewBlock();
      assert code == old(code) + seq<Block>(3, _ => []);
    }

    method If(s: Statement)
      requires Valid() && |s.expressions| == 1
      modifies this
      ensures Valid() && State() == GenIf(env, old(State()), s)
      decreases s, 1
    {
      hide GenExpr, GenStmts, Codegen.Emit, BoolValue, Branch, AddBlocks;
      ghost var g := State();
      var n := NewBlocks3();
      var v := Expr(s.expressions[0]);
      var c := BoolOf(v);
      Emit(CondBr(c, n, n + 1));
      assert State() == IfHead(env, g, s);
      SetInsertionPoint(n);
      Statements(s.body);
      BranchTo(n + 2);
      assert State() == IfYes(env, g, s);
      SetInsertionPoint(n + 1);
      Statements(s.alternative);
      BranchTo(n + 2);
      assert State() == IfNo(env, g, s);
      SetInsertionPoint(n + 2);
    }

    /** A pass through a loop's body, with the loop's targets on the stacks meanwhile. */
    method LoopBody(ss: seq<Statement>, exit: nat, again: nat)
      requires Valid()
      modifies this
      ensures Valid() && State() == LeaveLoop(GenStmts(env, EnterLoop(old(State()), exit, again), ss), old(State()))
      decreases ss, 1
    {
      hide GenStmts;
      breaks := breaks + [exit];
      continues := continues + [again];
      StmtsKeepScopes(env, State(), ss);
      Statements(ss);
      continues := continues[..|continues| - 1];
      breaks := breaks[..|breaks| - 1];
    }

    method While(s: Statement)
      requires Valid() && |s.expressions| == 1
      modifies this
      ensures Valid() && State() == GenWhile(env, old(State()), s)
      decreases s, 1
    {
      hide GenExpr, GenStmts, Codegen.Emit, BoolValue, Branch, AddBlocks;
      ghost var g := State();
      var n := WhileTest(s);
      WhileHeadLoops(env, g, s);
      SetInsertionPoint(n + 1);
      LoopBody(s.body, n + 2, n);
      BranchTo(n);
      assert State() == WhileBody(env, g, s);
      SetInsertionPoint(n + 2);
    }

    method WhileTest(s: Statement) returns (n: nat)
      requires Valid() && |s.expressions| == 1
      modifies this`code, this`regs, this`at, this`ok
      ensures Valid() && n == |old(code)| && State() == WhileHead(env, old(State()), s)
    {
      hide GenExpr, Codegen.Emit, BoolValue, Branch, AddBlocks;
      n := NewBlocks3();
      BranchTo(n);
      SetInsertionPoint(n);
      var v := Expr(s.expressions[0]);
      var c := BoolOf(v);
      Emit(CondBr(c, n + 1, n + 2));
    }

    method For(s: Statement)
      requires Valid() && |s.expressions| == 4
      modifies this
      ensures Valid() && State() == GenFor(env, old(State()), s)
      decreases s, 1
    {
      hide GenStmts, ForTest, ForAdvance, ForStart, Branch, ForEntry, ForBlock, ForSlot, ForHead;
      ghost var g := State();
      var counter, slot, n := ForFirst(s);
      ForHeadScopes(env, g, s);
      SetInsertionPoint(n + 1);
      LoopBody(s.body, n + 3, n + 2);
      BranchTo(n + 2);
      assert State() == ForBody(env, g, s);
      SetInsertionPoint(n + 2);
      Step(counter, slot, n);
      SetInsertionPoint(n + 3);
    }

    method ForFirst(s: Statement) returns (counter: Operand, slot: nat, n: nat)
      requires Valid() && |s.expressions| == 4
      modifies this`code, this`regs, this`at, this`ok, this`steps
      ensures Valid() && State() == ForHead(env, old(State()), s)
      ensures slot == ForSlot(env, old(State()), s) && n == ForBlock(env, old(State()), s) && counter == ForStart(env, old(State()), s).o
    {
      hide ForTest, ForStart, Branch, ForEntry, ForBlock, ForSlot;
      counter, slot, n := ForEntered(s);
      SetInsertionPoint(n);
      Test(s, counter, slot, n);
    }

    /** The start value, the slot of the step, the blocks and the jump to the test. */
    method ForEntered(s: Statement) returns (counter: Operand, slot: nat, n: nat)
      requires Valid() && |s.expressions| == 4
      modifies this`code, this`regs, this`at, this`ok, this`steps
      ensures Valid() && Out(State(), counter) == ForEntry(env, old(State()), s)
      ensures slot == ForSlot(env, old(State()), s) && n == ForBlock(env, old(State()), s) && counter == ForStart(env, old(State()), s).o
    {
      hide GenExpr, GenPlace, Branch, Codegen.Emit;
      var start := Expr(s.expressions[1]);
      counter := Pointer(s.expressions[0]);
      Emit(StoreTo(start, counter));
      assert Out(State(), counter) == ForStart(env, old(State()), s);
      slot := steps;
      steps := steps + 1;
      ghost var g := State();
      n := NewBlock();
      var body := NewBlock();
      var step := NewBlock();
      var next := NewBlock();
      assert code == g.code + seq<Block>(4, _ => []);
      BranchTo(n);
    }

    /** Counter, step, end and direction, in that order. */
    method Test(s: Statement, counter: Operand, slot: nat, n: nat)
      requires Valid() && |s.expressions| == 4
      modifies this`code, this`regs, this`at, this`ok
      ensures Valid() && State() == ForTest(env, old(State()), s, counter, slot, n)
    {
      hide GenExpr, Codegen.Emit, Codegen.Def, EmitAll, FailureIf;
      var current := Def(Load(regs, counter));
      var step := Expr(s.expressions[2]);
      var zero := Def(Bin(regs, ICmp(Eq), step, Imm(I(0))));
      TrapIf(zero, ZeroStep);
      Emit(StoreTo(step, StepRef(slot)));
      var end := Expr(s.expressions[3]);
      var more := DefRun(DirectionCode(regs, current, step, end));
      Emit(CondBr(more, n + 1, n + 3));
    }

    /** The step block adds the saved step to the counter's own storage. */
    method Step(counter: Operand, slot: nat, n: nat)
      requires Valid()
      modifies this`code, this`regs
      ensures Valid() && State() == ForAdvance(old(State()), counter, slot, n)
    {
      hide EmitAll, Codegen.Emit, Branch;
      var n0 := regs;
      var sum := DefRun([Load(n0, counter), Load(n0 + 1, StepRef(slot)), Bin(n0 + 2, Add32, Reg(n0), Reg(n0 + 1))]);
      Emit(StoreTo(sum, counter));
      BranchTo(n);
    }

    // ----- functions -----

    method Parameters(ps: seq<Variable>)
      requires Valid()
      modifies this`code, this`slots, this`scopes, this`ok
      ensures Valid() && State() == GenParameters(env, old(State()), ps, 0)
    {
      hide Codegen.Declare, Codegen.Emit;
      for i := 0 to |ps|
        invariant Valid() && GenParameters(env, State(), ps, i) == GenParameters(env, old(State()), ps, 0)
      {
        var slot := slots;
        Declare(ps[i]);
        Emit(StoreTo(Reg(i), SlotRef(slot)));
      }
    }

    /** The whole function: prologue, body, and what stands where control falls off its end. */
    method Function(ps: seq<Variable>, body: Statement, ending: Ending)
      requires Valid() && State() == EntryState(|ps|)
      modifies this
      ensures Valid() && State() == GenFunction(env, ps, body, ending)
    {
      hide GenParameters, GenStmt, Codegen.Emit;
      Parameters(ps);
      Stmt(body);
      var ended := IsTerminated();
      if !ended {
        match ending
        case Exit => Emit(Ret(Imm(I(0))));
        case ReturnVoid => Emit(Ret(Imm(Unit)));
        case NoReturn => Emit(Fail(MissingReturn));
      }
    }
  }

  function CodeOf(w: Env, fs: seq<Function>): map<string, Code> {
    var byName := ByName(fs, FunctionName);
    map n <- byName :: GenFunction(w, byName[n].parameters, byName[n].body, EndingOf(byName[n])).code
  }

  lemma CodeOfNext(w: Env, fs: seq<Function>, i: nat)
    requires i < |fs|
    ensures CodeOf(w, fs[..i + 1]) == CodeOf(w, fs[..i])[fs[i].name := GenFunction(w, fs[i].parameters, fs[i].body, EndingOf(fs[i])).code]
  {
    hide GenFunction;
    assert fs[..i + 1][..i] == fs[..i];
  }

  method EmitFunction(w: Env, ps: seq<Variable>, body: Statement, ending: Ending) returns (code: Code)
    ensures code == GenFunction(w, ps, body, ending).code
  {
    hide GenFunction;
    var g := new Generator(w, |ps|);
    g.Function(ps, body, ending);
    code := g.code;
  }

  /** Emits every function of a program in turn, each with a generator of its own, then the body. */
  method Lower(p: Program, floats: FloatSem) returns (m: Module)
    ensures m == GenModule(Tables(p, floats), p.body)
  {
    hide GenFunction, CodeOf, ByName;
    var w := Tables(p, floats);
    var fs := p.functions;
    var code: map<string, Code> := map[];
    NoCode(w);
    for i := 0 to |fs|
      invariant code == CodeOf(w, fs[..i])
    {
      CodeOfNext(w, fs, i);
      var body := EmitFunction(w, fs[i].parameters, fs[i].body, EndingOf(fs[i]));
      code := code[fs[i].name := body];
    }
    assert fs[..|fs|] == fs;
    var main := EmitFunction(w, [], p.body, Exit);
    m := Module(w, code["main" := main]);
    AllCode(p, floats);
  }

  lemma NoCode(w: Env)
    ensures CodeOf(w, []) == map[]
  {
  }

  lemma AllCode(p: Program, floats: FloatSem)
    ensures var w := Tables(p, floats);
            GenModule(w, p.body) == Module(w, CodeOf(w, p.functions)["main" := GenFunction(w, [], p.body, Exit).code])
  {
    hide GenFunction;
  }
}
