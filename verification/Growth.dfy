/**
How generation grows a function: code is only ever appended, to the block at the insertion
point or to blocks created since; and the emitted control-flow graph is well formed.
*/
module Growth {
  import opened SemanticIR
  import opened Typing
  import opened Machine
  import opened Codegen

  // ----- block shapes -----

  predicate Open(b: Block) {
    forall i | 0 <= i < |b| :: !b[i].Terminator()
  }

  /** Exactly one terminator, at the end. */
  predicate Closed(b: Block) {
    BlockEnded(b) && forall i | 0 <= i < |b| - 1 :: !b[i].Terminator()
  }

  predicate TargetsBelow(i: Instr, n: nat) {
    (i.Br? ==> i.target < n) && (i.CondBr? ==> i.yes < n && i.no < n)
  }

  predicate BlockOk(b: Block, n: nat) {
    (Open(b) || Closed(b)) && forall i | 0 <= i < |b| :: TargetsBelow(b[i], n)
  }

  ghost predicate Shaped(g: Gen) {
    && (forall b | 0 <= b < |g.code| :: BlockOk(g.code[b], |g.code|))
    && (forall i | 0 <= i < |g.breaks| :: g.breaks[i] < |g.code|)
    && (forall i | 0 <= i < |g.continues| :: g.continues[i] < |g.code|)
  }

  /** Well shaped, and ready for more code. */
  ghost predicate Fine(g: Gen) {
    Shaped(g) && Open(g.code[g.at])
  }

  // ----- growth -----

  ghost predicate Prefix(c: Code, d: Code) {
    |c| <= |d| && forall b | 0 <= b < |c| :: c[b] <= d[b]
  }

  /** `h` continues `g`: blocks of `g` other than its current one are untouched. */
  ghost predicate Ext(g: Gen, h: Gen) {
    && |g.code| <= |h.code| && g.regs <= h.regs && g.slots <= h.slots && g.steps <= h.steps
    && (forall b | 0 <= b < |g.code| && b != g.at :: h.code[b] == g.code[b])
    && g.code[g.at] <= h.code[g.at]
    && (h.at == g.at || h.at >= |g.code|)
    && (h.ok ==> g.ok)
  }

  /** Every block `h` added is closed, save the one it stands in. */
  ghost predicate Sealed(g: Gen, h: Gen) {
    && (forall b | |g.code| <= b < |h.code| && b != h.at :: Closed(h.code[b]))
    && (h.at != g.at ==> g.at < |h.code| && Closed(h.code[g.at]))
  }

  ghost predicate SameLoops(g: Gen, h: Gen) {
    h.breaks == g.breaks && h.continues == g.continues
  }

  /** Growth by an expression: control stays open and scopes are untouched. */
  ghost predicate Grows(g: Gen, h: Gen) {
    Ext(g, h) && SameLoops(g, h) && h.scopes == g.scopes && (Fine(g) ==> Fine(h) && Sealed(g, h))
  }

  /** Growth by a statement, which may close the current block. */
  ghost predicate Extends(g: Gen, h: Gen) {
    Ext(g, h) && SameLoops(g, h) && (Fine(g) ==> Shaped(h) && Sealed(g, h))
  }

  lemma ExtPrefix(g: Gen, h: Gen)
    requires Ext(g, h)
    ensures Prefix(g.code, h.code)
  {
  }

  lemma PrefixTrans(a: Code, b: Code, c: Code)
    requires Prefix(a, b) && Prefix(b, c)
    ensures Prefix(a, c)
  {
  }

  lemma ExtTrans(a: Gen, b: Gen, c: Gen)
    requires Ext(a, b) && Ext(b, c)
    ensures Ext(a, c)
  {
  }

  lemma SealedTrans(a: Gen, b: Gen, c: Gen)
    requires Ext(a, b) && Ext(b, c) && Sealed(a, b) && Sealed(b, c)
    ensures Sealed(a, c)
  {
    hide Closed;
  }

  lemma GrowsTrans(a: Gen, b: Gen, c: Gen)
    requires Grows(a, b) && Grows(b, c)
    ensures Grows(a, c)
  {
    hide Ext, Sealed, Fine;
    ExtTrans(a, b, c);
    if Fine(a) {
      SealedTrans(a, b, c);
    }
  }

  lemma OpenNotEnded(g: Gen)
    requires Fine(g)
    ensures !Terminated(g)
  {
  }

  // ----- single emissions -----

  lemma EmitExt(g: Gen, i: Instr)
    ensures Ext(g, Emit(g, i)) && Sealed(g, Emit(g, i))
    ensures Emit(g, i).code[g.at] == g.code[g.at] + [i]
  {
  }

  lemma EmitShaped(g: Gen, i: Instr)
    requires Fine(g) && TargetsBelow(i, |g.code|)
    ensures Shaped(Emit(g, i))
    ensures i.Terminator() ==> Closed(Emit(g, i).code[g.at])
    ensures !i.Terminator() ==> Fine(Emit(g, i))
  {
    var h := Emit(g, i);
    forall b | 0 <= b < |h.code| ensures BlockOk(h.code[b], |h.code|) {
      assert BlockOk(g.code[b], |g.code|);
    }
  }

  lemma EmitGrows(g: Gen, i: Instr)
    requires !i.Terminator()
    ensures Grows(g, Emit(g, i))
  {
    hide Fine, Sealed, Ext;
    EmitExt(g, i);
    if Fine(g) {
      EmitShaped(g, i);
    }
  }

  lemma FineRegs(g: Gen, n: nat)
    requires Fine(g)
    ensures Fine(g.(regs := n))
  {
  }

  lemma DefGrows(g: Gen, i: Instr)
    requires !i.Terminator()
    ensures Grows(g, Def(g, i).g)
  {
    hide Fine;
    EmitGrows(g, i);
    if Fine(g) {
      FineRegs(Emit(g, i), g.regs + 1);
    }
  }

  lemma FailureExt(g: Gen, c: Operand, f: Fault)
    ensures var h := FailureIf(g, c, f);
            Ext(g, h) && h.code[g.at] == g.code[g.at] + [CondBr(c, |g.code|, |g.code| + 1)]
            && h.code[|g.code|] == [Fail(f)] && h.code[|g.code| + 1] == []
  {
  }

  lemma FailureFine(g: Gen, c: Operand, f: Fault)
    requires Fine(g)
    ensures Fine(FailureIf(g, c, f)) && Sealed(g, FailureIf(g, c, f))
  {
    var h, n := FailureIf(g, c, f), |g.code|;
    FailureExt(g, c, f);
    forall b | 0 <= b < |h.code| ensures BlockOk(h.code[b], |h.code|) {
      if b < n {
        assert BlockOk(g.code[b], n);
      }
    }
  }

  lemma FailureGrows(g: Gen, c: Operand, f: Fault)
    ensures Grows(g, FailureIf(g, c, f))
  {
    hide Fine, Sealed, Ext;
    FailureExt(g, c, f);
    if Fine(g) {
      FailureFine(g, c, f);
    }
  }

  lemma EmitAllGrows(g: Gen, js: seq<Instr>)
    requires Open(js)
    ensures Grows(g, EmitAll(g, js))
  {
    var h := EmitAll(g, js);
    assert Ext(g, h) && Sealed(g, h);
    if Fine(g) {
      forall b | 0 <= b < |h.code| ensures BlockOk(h.code[b], |h.code|) {
        assert BlockOk(g.code[b], |g.code|);
      }
    }
  }

  /** Growth from `a` through any chain of definitions and checks. */
  lemma Chains(a: Gen)
    ensures Grows(a, a)
    ensures forall g: Gen, i: Instr {:trigger Def(g, i)} :: Grows(a, g) && !i.Terminator() ==> Grows(a, Def(g, i).g)
    ensures forall g: Gen, js: seq<Instr> {:trigger EmitAll(g, js)} :: Grows(a, g) && Open(js) ==> Grows(a, EmitAll(g, js))
    ensures forall g: Gen, i: Instr {:trigger Emit(g, i)} :: Grows(a, g) && !i.Terminator() ==> Grows(a, Emit(g, i))
    ensures forall g: Gen, c: Operand, f: Fault {:trigger FailureIf(g, c, f)} :: Grows(a, g) ==> Grows(a, FailureIf(g, c, f))
  {
    assert Grows(a, a);
    hide Grows, Def, Emit, EmitAll, FailureIf;
    forall g: Gen, js: seq<Instr> | Grows(a, g) && Open(js) ensures Grows(a, EmitAll(g, js)) {
      EmitAllGrows(g, js);
      GrowsTrans(a, g, EmitAll(g, js));
    }
    forall g: Gen, i: Instr | Grows(a, g) && !i.Terminator() ensures Grows(a, Def(g, i).g) {
      DefGrows(g, i);
      GrowsTrans(a, g, Def(g, i).g);
    }
    forall g: Gen, i: Instr | Grows(a, g) && !i.Terminator() ensures Grows(a, Emit(g, i)) {
      EmitGrows(g, i);
      GrowsTrans(a, g, Emit(g, i));
    }
    forall g: Gen, c: Operand, f: Fault | Grows(a, g) ensures Grows(a, FailureIf(g, c, f)) {
      FailureGrows(g, c, f);
      GrowsTrans(a, g, FailureIf(g, c, f));
    }
  }

  lemma BrokenGrows(g: Gen)
    ensures Grows(g, Broken(g))
  {
  }

  // ----- expressions -----

  lemma DivisionGrows(g: Gen, opcode: int, l: Operand, r: Operand)
    ensures Grows(g, GenDivision(g, opcode, l, r).g)
  {
    hide Grows, Def, EmitAll, FailureIf;
    Chains(g);
  }

  lemma IntGrows(g: Gen, opcode: int, l: Operand, r: Operand)
    ensures Grows(g, GenInt(g, opcode, l, r).g)
  {
    hide Grows, Def, EmitAll, FailureIf, GenDivision;
    Chains(g);
    BrokenGrows(g);
    DivisionGrows(g, opcode, l, r);
  }

  lemma FloatGrows(g: Gen, opcode: int, l: Operand, r: Operand)
    ensures Grows(g, GenFloat(g, opcode, l, r).g)
  {
    hide Grows, Def, EmitAll, FailureIf;
    Chains(g);
    BrokenGrows(g);
  }

  lemma TextGrows(g: Gen, opcode: int, l: Operand, r: Operand)
    ensures Grows(g, GenText(g, opcode, l, r).g)
  {
    hide Grows, Def, EmitAll, FailureIf;
    Chains(g);
  }

  lemma BinaryGrows(g: Gen, t: ScalarType, opcode: int, l: Operand, r: Operand)
    ensures Grows(g, GenBinary(g, t, opcode, l, r).g)
  {
    hide Grows, GenInt, GenFloat, GenText;
    IntGrows(g, opcode, l, r);
    FloatGrows(g, opcode, l, r);
    TextGrows(g, opcode, l, r);
  }

  lemma ElementGrows(g: Gen, base: Operand, extent: int, index: Operand)
    ensures Grows(g, GenElement(g, base, extent, index).g)
  {
    hide Grows, Def, EmitAll, FailureIf;
    Chains(g);
  }

  lemma SliceGrows(g: Gen, owner: Found, composite: string, offset: Operand, length: Operand)
    requires owner.Found?
    ensures Grows(g, GenSlice(g, owner, composite, offset, length).g)
  {
    hide Grows, Def, EmitAll, FailureIf;
    Chains(g);
  }

  lemma SliceIndexGrows(g: Gen, owner: Found, index: Operand)
    requires owner.Found?
    ensures Grows(g, GenSliceIndex(g, owner, index).g)
  {
    hide Grows, Def, EmitAll, FailureIf;
    Chains(g);
  }

  lemma UnaryGrows(g: Gen, t: ScalarType, v: Operand)
    ensures Grows(g, GenUnary(g, t, v).g)
  {
    hide Grows, Def;
    Chains(g);
  }

  lemma {:induction false} ExprGrows(w: Env, g: Gen, e: Expression)
    ensures Grows(g, GenExpr(w, g, e).g)
    decreases e, 2
  {
    hide Grows, Def, GenBinary, GenUnary, GenSlice, GenSliceIndex, GenExprs, GenPlace, Find;
    Chains(g);
    BrokenGrows(g);
    match e.kind
    case IntegerE | BooleanE | FloatE | StringE =>
    case VariableE | IndexE => PlaceGrows(w, g, e);
    case UnaryE =>
      if |e.operands| == 1 {
        ExprGrows(w, g, e.operands[0]);
        var v := GenExpr(w, g, e.operands[0]);
        UnaryGrows(v.g, e.ty, v.o);
        GrowsTrans(g, v.g, GenUnary(v.g, e.ty, v.o).g);
      }
    case BinaryE =>
      if |e.operands| == 2 {
        var r := PairGrows(w, g, e.operands);
        var l := GenExpr(w, g, e.operands[0]);
        BinaryGrows(r.g, e.operands[0].ty, e.opcode, l.o, r.o);
        GrowsTrans(g, r.g, GenBinary(r.g, e.operands[0].ty, e.opcode, l.o, r.o).g);
      }
    case CallE =>
      ExprsGrow(w, g, e.operands);
      var args := GenExprs(w, g, e.operands);
      var call := Def(args.g, CallTo(args.g.regs, e.name, args.os));
      BrokenGrows(call.g);
      GrowsTrans(g, call.g, Broken(call.g));
    case ConstructE =>
      ExprsGrow(w, g, e.operands);
      var h := GenExprs(w, g, e.operands).g;
      BrokenGrows(h);
      GrowsTrans(g, h, Broken(h));
    case ProjectE =>
      if |e.operands| == 1 {
        ExprGrows(w, g, e.operands[0]);
        var h := GenExpr(w, g, e.operands[0]).g;
        BrokenGrows(h);
        GrowsTrans(g, h, Broken(h));
      }
    case SliceE =>
      if |e.operands| == 2 {
        var r := PairGrows(w, g, e.operands);
        var l := GenExpr(w, g, e.operands[0]);
        BrokenGrows(r.g);
        GrowsTrans(g, r.g, Broken(r.g));
        var owner := Find(w, r.g, e.name);
        if owner.Found? {
          SliceGrows(r.g, owner, e.composite, l.o, r.o);
          GrowsTrans(g, r.g, GenSlice(r.g, owner, e.composite, l.o, r.o).g);
        }
      }
    case SliceIndexE =>
      if |e.operands| == 1 {
        ExprGrows(w, g, e.operands[0]);
        var x := GenExpr(w, g, e.operands[0]);
        BrokenGrows(x.g);
        GrowsTrans(g, x.g, Broken(x.g));
        var owner := Find(w, x.g, e.name);
        if owner.Found? {
          SliceIndexGrows(x.g, owner, x.o);
          GrowsTrans(g, x.g, GenSliceIndex(x.g, owner, x.o).g);
        }
      }
  }

  lemma {:induction false} PairGrows(w: Env, g: Gen, es: seq<Expression>) returns (r: Out)
    requires |es| == 2
    ensures r == GenExpr(w, GenExpr(w, g, es[0]).g, es[1])
    ensures Grows(g, GenExpr(w, g, es[0]).g) && Grows(GenExpr(w, g, es[0]).g, r.g) && Grows(g, r.g)
    decreases es, 0
  {
    hide Grows;
    var l := GenExpr(w, g, es[0]);
    r := GenExpr(w, l.g, es[1]);
    ExprGrows(w, g, es[0]);
    ExprGrows(w, l.g, es[1]);
    GrowsTrans(g, l.g, r.g);
  }

  lemma {:induction false} PlaceGrows(w: Env, g: Gen, e: Expression)
    ensures Grows(g, GenPlace(w, g, e).g)
    decreases e, 1
  {
    hide Grows, GenElement, Find;
    Chains(g);
    BrokenGrows(g);
    if e.kind == IndexE && |e.operands| == 1 {
      ExprGrows(w, g, e.operands[0]);
      var x := GenExpr(w, g, e.operands[0]);
      BrokenGrows(x.g);
      GrowsTrans(g, x.g, Broken(x.g));
      var v := Find(w, x.g, e.name);
      if v.Found? {
        ElementGrows(x.g, v.o, v.decl.extent, x.o);
        GrowsTrans(g, x.g, GenElement(x.g, v.o, v.decl.extent, x.o).g);
      }
    }
  }

  lemma {:induction false} ExprsGrow(w: Env, g: Gen, es: seq<Expression>)
    ensures Grows(g, GenExprs(w, g, es).g)
    decreases es, 0
  {
    hide Grows;
    Chains(g);
    if es != [] {
      ExprGrows(w, g, es[0]);
      var x := GenExpr(w, g, es[0]);
      ExprsGrow(w, x.g, es[1..]);
      GrowsTrans(g, x.g, GenExprs(w, x.g, es[1..]).g);
    }
  }

  // ----- simple statements -----

  lemma GrowsExtends(g: Gen, h: Gen)
    requires Grows(g, h)
    ensures Extends(g, h)
  {
  }

  lemma DeclareExtends(w: Env, g: Gen, d: Variable)
    ensures Ext(g, Declare(w, g, d)) && SameLoops(g, Declare(w, g, d))
    ensures Fine(g) ==> Fine(Declare(w, g, d)) && Sealed(g, Declare(w, g, d))
  {
    EmitGrows(g, StoreTo(Imm(ZeroStorage(w, d)), SlotRef(g.slots)));
  }

  lemma {:induction false} DeclareEachExtends(w: Env, g: Gen, ds: seq<Variable>)
    ensures var h := DeclareEach(w, g, ds); Ext(g, h) && SameLoops(g, h) && (Fine(g) ==> Fine(h) && Sealed(g, h))
    decreases ds
  {
    if ds != [] {
      var g1 := Declare(w, g, ds[0]);
      var h := DeclareEach(w, g1, ds[1..]);
      DeclareExtends(w, g, ds[0]);
      DeclareEachExtends(w, g1, ds[1..]);
      hide Ext, Fine, Sealed, Declare, DeclareEach;
      ExtTrans(g, g1, h);
      if Fine(g) {
        SealedTrans(g, g1, h);
      }
    }
  }

  lemma {:induction false} PrintGrows(w: Env, g: Gen, es: seq<Expression>)
    ensures Grows(g, GenPrint(w, g, es))
    decreases es
  {
    hide Grows, Def, Emit, GenExpr;
    Chains(g);
    if es != [] {
      ExprGrows(w, g, es[0]);
      var v := GenExpr(w, g, es[0]);
      var s := if es[0].ty == String then Def(v.g, Un(v.g.regs, SafeString, v.o)) else v;
      var g1 := Emit(s.g, Printf(PrintFormat(es[0].ty), s.o));
      var g2 := Emit(g1, Printf("%s", Imm(Separator(|es| == 1))));
      PrintGrows(w, g2, es[1..]);
      GrowsTrans(g, g2, GenPrint(w, g2, es[1..]));
    }
  }

  /** Closing the current block with a terminator. */
  lemma TerminateExtends(a: Gen, g: Gen, i: Instr)
    requires Grows(a, g) && i.Terminator() && TargetsBelow(i, |g.code|)
    ensures Extends(a, Emit(g, i)) && (Fine(a) ==> Terminated(Emit(g, i)))
    ensures Fine(a) ==> Closed(Emit(g, i).code[g.at])
  {
    hide Ext, Fine, Sealed;
    EmitExt(g, i);
    ExtTrans(a, g, Emit(g, i));
    if Fine(a) {
      EmitShaped(g, i);
      SealedTrans(a, g, Emit(g, i));
    }
  }

  lemma BranchExtends(g: Gen, b: nat)
    requires b < |g.code|
    ensures Extends(g, Branch(g, b))
    ensures Fine(g) ==> Closed(Branch(g, b).code[g.at])
  {
    hide Ext, Fine, Sealed, Emit;
    Chains(g);
    if !Terminated(g) {
      TerminateExtends(g, g, Br(b));
    } else if Fine(g) {
      OpenNotEnded(g);
    }
  }

  lemma AssignExtends(w: Env, g: Gen, s: Statement)
    requires s.kind == AssignS && |s.expressions| == 2
    ensures Grows(g, GenStmt(w, g, s))
  {
    hide Grows, Emit, GenExpr, GenPlace;
    Chains(g);
    var v := GenExpr(w, g, s.expressions[1]);
    ExprGrows(w, g, s.expressions[1]);
    PlaceGrows(w, v.g, s.expressions[0]);
    GrowsTrans(g, v.g, GenPlace(w, v.g, s.expressions[0]).g);
  }

  lemma UpdateExtends(w: Env, g: Gen, s: Statement)
    requires s.kind == UpdateS && |s.expressions| == 2
    ensures Grows(g, GenStmt(w, g, s))
  {
    hide Grows, Emit, Def, GenExpr, GenPlace;
    Chains(g);
    var field := PairGrows(w, g, s.expressions);
    var record := GenExpr(w, g, s.expressions[0]);
    var u := Def(field.g, UpdateValue(field.g.regs, s.expressions[0].composite, s.declaration, record.o, field.o));
    PlaceGrows(w, u.g, s.expressions[0]);
    GrowsTrans(g, u.g, GenPlace(w, u.g, s.expressions[0]).g);
  }

  lemma ReturnExtends(w: Env, g: Gen, s: Statement)
    requires s.kind == ReturnS
    ensures Extends(g, GenStmt(w, g, s))
  {
    hide Grows, Extends, Emit, GenExpr;
    Chains(g);
    if s.expressions == [] {
      TerminateExtends(g, g, Ret(Imm(Unit)));
    } else {
      var v := GenExpr(w, g, s.expressions[0]);
      ExprGrows(w, g, s.expressions[0]);
      TerminateExtends(g, v.g, Ret(v.o));
    }
  }
}
