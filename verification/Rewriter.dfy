/**
The second pass as the rewriter runs it: patterns create instructions at an insertion point,
split the block behind every check, and replace the composite operation.
*/
module Rewriter {
  import opened SemanticIR
  import opened Typing
  import opened Evaluator
  import opened Machine
  import opened Codegen
  import opened CompositeLowering

  lemma EmitNone(g: Gen)
    ensures EmitAll(g, []) == g
  {
    assert g.code[g.at] + [] == g.code[g.at];
    assert g.code[g.at := g.code[g.at]] == g.code;
  }

  lemma EmitMore(g: Gen, js: seq<Instr>, i: nat)
    requires i < |js|
    ensures EmitAll(g, js[..i + 1]) == Emit(EmitAll(g, js[..i]), js[i]).(regs := g.regs + i + 1)
  {
    assert js[..i + 1] == js[..i] + [js[i]];
    assert g.code[g.at] + js[..i] + [js[i]] == g.code[g.at] + js[..i + 1];
  }

  class Rewriter {
    const env: Env
    var code: Code
    var at: nat
    var regs: nat

    ghost predicate Valid()
      reads this
    {
      at < |code|
    }

    ghost function State(): Gen
      requires Valid()
      reads this
    {
      GenState(code, at, regs, 0, 0, [], [], [], true)
    }

    /** A function to be filled block by block, with registers beyond those its source reads. */
    constructor (w: Env, source: Code)
      ensures env == w && Valid() && State() == Initial(source)
    {
      env := w;
      code, at, regs := seq(if source == [] then 1 else |source|, _ => []), 0, CodeBound(source);
    }

    method Create(i: Instr)
      requires Valid()
      modifies this`code
      ensures Valid() && State() == Emit(old(State()), i)
    {
      code := code[at := code[at] + [i]];
    }

    /** Instructions that define the next registers, one each. */
    method CreateAll(js: seq<Instr>)
      requires Valid()
      modifies this`code, this`regs
      ensures Valid() && State() == EmitAll(old(State()), js)
    {
      ghost var g := State();
      EmitNone(g);
      assert js[..0] == [];
      for i := 0 to |js|
        invariant Valid() && regs == g.regs + i && State() == EmitAll(g, js[..i])
      {
        EmitMore(g, js, i);
        Create(js[i]);
        regs := regs + 1;
      }
      assert js[..|js|] == js;
    }

    /** Splits the block: the failing side traps, and creation goes on in the other. */
    method FailIf(condition: Operand, fault: Fault)
      requires Valid()
      modifies this`code, this`at
      ensures Valid() && State() == FailureIf(old(State()), condition, fault)
    {
      var bad := |code|;
      code := code[at := code[at] + [CondBr(condition, bad, bad + 1)]] + [[Fail(fault)], []];
      at := bad + 1;
    }

    /** The tag of an enum, option or result, or the descriptor of a slice, whose length is `tag`. */
    method CheckComposite(c: CompositeDecl, tag: Operand, pointer: Operand, fault: Fault)
      requires Valid()
      modifies this`code, this`at, this`regs
      ensures Valid()
      ensures State() == if c.Tagged() then CheckTag(old(State()), tag, c.Tags(), fault)
                         else if c.kind == Slice then CheckSlice(old(State()), pointer, tag)
                         else old(State())
    {
      hide EmitAll, FailureIf;
      var n := regs;
      if c.Tagged() {
        CreateAll(TagTest(n, tag, c.Tags()));
        FailIf(Reg(n + 2), fault);
      } else if c.kind == Slice {
        CreateAll(SliceTest(n, pointer, tag));
        FailIf(Reg(n + 4), StoredSlice);
      }
    }

    /** The fields go one after another into an empty aggregate. */
    method Aggregates(d: nat, os: seq<Operand>)
      requires Valid()
      modifies this`code, this`regs
      ensures Valid() && State() == Aggregate(old(State()), d, os)
    {
      ghost var g := State();
      var value := Imm(Blank(|os|));
      EmitNone(g);
      assert Inserts(g.regs, os)[..0] == [];
      for i := 0 to |os|
        invariant Valid() && regs == g.regs + i && State() == EmitAll(g, Inserts(g.regs, os)[..i])
        invariant value == Inserted(g.regs, i, |os|)
      {
        EmitMore(g, Inserts(g.regs, os), i);
        Create(Insert(regs, i, value, os[i]));
        value := Reg(regs);
        regs := regs + 1;
      }
      assert Inserts(g.regs, os)[..|os|] == Inserts(g.regs, os);
      Create(Copy(d, value));
    }

    method Value(c: CompositeDecl, d: nat, os: seq<Operand>)
      requires Valid()
      modifies this`code, this`at, this`regs
      ensures Valid() && State() == LowerMake(c, old(State()), d, os)
    {
      hide CheckTag, CheckSlice, Aggregate;
      if c.Tagged() && os != [] {
        CheckComposite(c, os[0], Imm(Unit), InvalidTag);
      } else if c.kind == Slice && |os| == 2 {
        CheckComposite(c, os[1], os[0], StoredSlice);
      }
      Aggregates(d, os);
    }

    method Project(c: CompositeDecl, d: nat, field: int, a: Operand)
      requires Valid()
      modifies this`code, this`at, this`regs
      ensures Valid() && State() == LowerProject(c, old(State()), d, field, a)
    {
      hide CheckTag, CheckSlice, Emit, EmitAll, FailureIf;
      var n := regs;
      if c.Tagged() {
        CreateAll([Extract(n, 0, a)]);
        CheckComposite(c, Reg(n), Imm(Unit), StoredTag);
        if field > 0 {
          var k := regs;
          CreateAll([Bin(k, ICmp(Ne), Reg(n), Imm(I(ActiveTag(c, field))))]);
          FailIf(Reg(k), InactivePayload);
        }
      } else if c.kind == Slice {
        CreateAll([Extract(n, 0, a), Extract(n + 1, 1, a)]);
        CheckComposite(c, Reg(n + 1), Reg(n), StoredSlice);
      }
      Create(Extract(d, field, a));
    }

    /** One operation: its pattern if it is composite, itself otherwise. */
    method Rewrite(i: Instr)
      requires Valid()
      modifies this`code, this`at, this`regs
      ensures Valid() && State() == LowerInstr(env, old(State()), i)
    {
      hide LowerMake, LowerProject, Emit;
      match i
      case MakeValue(d, k, os) => Value(TypeOf(env, k), d, os);
      case ProjectValue(d, k, n, a) => Project(TypeOf(env, k), d, n, a);
      case UpdateValue(d, _, n, a, v) => Create(Insert(d, n, a, v));
      case _ => Create(i);
    }

    method RewriteBlock(b: Block)
      requires Valid()
      modifies this`code, this`at, this`regs
      ensures Valid() && State() == LowerBlock(env, old(State()), b, |b|)
    {
      hide LowerInstr;
      ghost var g := State();
      for i := 0 to |b|
        invariant Valid() && State() == LowerBlock(env, g, b, i)
      {
        Rewrite(b[i]);
      }
    }

    method RewriteFunction(source: Code)
      requires Valid() && State() == Initial(source)
      modifies this`code, this`at, this`regs
      ensures Valid() && code == LowerCode(env, source)
    {
      hide LowerBlock;
      for n := 0 to |source|
        invariant Valid() && State() == LowerBlocks(env, source, n)
      {
        if n < |code| { at := n; }
        RewriteBlock(source[n]);
      }
    }
  }

  /** Rewrites every function of a module. */
  method Rewritten(m: Module) returns (q: Module)
    ensures q == Lowered(m)
  {
    hide LowerCode, Initial;
    var code: map<string, Code> := map[];
    var rest := m.code.Keys;
    while rest != {}
      invariant rest <= m.code.Keys && code.Keys == m.code.Keys - rest
      invariant forall f <- code :: code[f] == LowerCode(m.env, m.code[f])
      decreases rest
    {
      var f :| f in rest;
      var r := new Rewriter(m.env, m.code[f]);
      r.RewriteFunction(m.code[f]);
      code := code[f := r.code];
      rest := rest - {f};
    }
    q := Module(m.env, code);
  }
}
