/**
How a run of the machine follows the evaluator: the generator's bindings, the verifier's
scopes, the evaluator's store and the machine's frame at one insertion point, and what it
means that generated code evaluates, locates or executes its part of the program.
*/
module Relation {
  import opened SemanticIR
  import opened Typing
  import opened Evaluator
  import opened Soundness
  import opened Machine
  import opened Codegen
  import opened Growth
  import opened Lockstep
  import opened Straight
  import opened Access

  /** The module holds the generated code of every function of a verified program. */
  ghost predicate Compiled(m: Module) {
    && Sane(m.env)
    && forall n <- m.env.functions :: n in m.code && m.code[n] == FunctionCode(m.env, m.env.functions[n])
  }

  function FunctionCode(w: Env, f: Function): Code {
    GenFunction(w, f.parameters, f.body, EndingOf(f)).code
  }

  /** Store and frame agree with the scopes at `g`. */
  ghost predicate Live(w: Env, vs: Scopes, g: Gen, st: Store, s: State) {
    Tracks(vs, g) && StoreOk(w, vs, st) && Stored(g.scopes, st.scopes, s.top) && InStep(s, st)
  }

  ghost predicate Reached(m: Module, c: Config, k: nat, g: Gen, s: State) {
    Run(m, c, k) == Running(s) && At(g, s.top)
  }

  /** From `g` to `h` with nothing but fresh registers, globals and output changed. */
  ghost predicate Moved(g: Gen, s: State, st: Store, h: Gen, s': State, st': Store) {
    && At(h, s'.top) && InStep(s', st') && s'.rest == s.rest
    && s'.top.slots == s.top.slots && st'.scopes == st.scopes && Keeps(g, s.top, s'.top)
  }

  /** A failing result is what the machine does, and running out of fuel costs it as many steps. */
  ghost predicate Stops<A>(m: Module, c: Config, k: nat, fuel: nat, r: R<A>, k': nat) {
    match r
    case Ok(_, _) => k' >= k
    case Trap(f, globals, out) => Run(m, c, k') == Trapped(f, globals, out)
    case Timeout => k' >= k + fuel && Run(m, c, k').Running?
    case Wrong => false
  }

  ghost predicate Arrives(m: Module, c: Config, g: Gen, s: State, st: Store, h: Gen, st': Store, k': nat, s': State) {
    Run(m, c, k') == Running(s') && Moved(g, s, st, h, s', st')
  }

  ghost predicate Evaluates(m: Module, c: Config, k: nat, fuel: nat, g: Gen, s: State, st: Store, x: Out, r: R<Value>, k': nat, s': State) {
    && Stops(m, c, k, fuel, r, k')
    && (r.Ok? ==> Arrives(m, c, g, s, st, x.g, r.st, k', s') && Holds(s', x.o, r.v))
  }

  predicate HoldAll(s: State, os: seq<Operand>, vs: seq<Value>) {
    |os| == |vs| && forall i | 0 <= i < |os| :: Holds(s, os[i], vs[i])
  }

  ghost predicate EvaluatesAll(m: Module, c: Config, k: nat, fuel: nat, g: Gen, s: State, st: Store, x: Outs, r: R<seq<Value>>, k': nat, s': State) {
    && Stops(m, c, k, fuel, r, k')
    && (r.Ok? ==> Arrives(m, c, g, s, st, x.g, r.st, k', s') && HoldAll(s', x.os, r.v))
  }

  ghost predicate HoldsPlace(bs: Bindings, s: State, o: Operand, p: Place) {
    Known(bs, p.base) && Holds(s, o, P(Addr(bs, p)))
  }

  ghost predicate Locates(m: Module, c: Config, k: nat, fuel: nat, g: Gen, s: State, st: Store, x: Out, r: R<Place>, k': nat, s': State) {
    && Stops(m, c, k, fuel, r, k')
    && (r.Ok? ==> Arrives(m, c, g, s, st, x.g, r.st, k', s') && HoldsPlace(g.scopes, s', x.o, r.v))
  }

  // ----- composition -----

  lemma Propagates<A, B>(m: Module, c: Config, k: nat, fuel: nat, r: R<A>, q: R<B>, k': nat)
    requires Stops(m, c, k, fuel, r, k') && !r.Ok? && q == r.PropagateFailure()
    ensures Stops(m, c, k, fuel, q, k')
  {
  }

  lemma KeepsTrans(g: Gen, h: Gen, f: Frame, f1: Frame, f2: Frame)
    requires Keeps(g, f, f1) && Keeps(h, f1, f2) && g.regs <= h.regs && g.steps <= h.steps
    ensures Keeps(g, f, f2)
  {
  }

  lemma MovedTrans(g: Gen, s: State, st: Store, h: Gen, s1: State, st1: Store, i: Gen, s2: State, st2: Store)
    requires Moved(g, s, st, h, s1, st1) && Moved(h, s1, st1, i, s2, st2) && Grows(g, h)
    ensures Moved(g, s, st, i, s2, st2)
  {
    hide Fine, Sealed;
    KeepsTrans(g, h, s.top, s1.top, s2.top);
  }

  lemma Nowhere(g: Gen, s: State, st: Store)
    requires At(g, s.top) && InStep(s, st)
    ensures Moved(g, s, st, g, s, st)
  {
  }

  lemma KeptOperand(g: Gen, s: State, s': State, o: Operand, v: Value)
    requires Holds(s, o, v) && Below(o, g.regs) && Keeps(g, s.top, s'.top)
    ensures Holds(s', o, v)
  {
  }

  lemma KeptPlace(g: Gen, bs: Bindings, s: State, s': State, o: Operand, p: Place)
    requires HoldsPlace(bs, s, o, p) && Below(o, g.regs) && Keeps(g, s.top, s'.top)
    ensures HoldsPlace(bs, s', o, p)
  {
  }

  lemma LiveAfter(w: Env, vs: Scopes, g: Gen, s: State, st: Store, h: Gen, s': State, st': Store)
    requires Live(w, vs, g, st, s) && Moved(g, s, st, h, s', st') && Tracks(vs, h) && h.scopes == g.scopes && StoreOk(w, vs, st')
    ensures Live(w, vs, h, st', s')
  {
  }

  /** An operator's run from where its operands left the machine. */
  lemma Applied(m: Module, c: Config, k: nat, fuel: nat, g: Gen, s: State, st: Store, h: Gen, st1: Store, k1: nat, s1: State,
                x: Out, r: Computed, k': nat, s': State)
    requires Moved(g, s, st, h, s1, st1) && Grows(g, h) && k <= k1 <= k'
    requires Computes(m, c, k', h, s1, x, r, s') && r != Meaningless
    ensures Evaluates(m, c, k, fuel, g, s, st, x, Lift(r, st1), k', s')
  {
    hide Run, Fine, Sealed;
    if r.Val? {
      KeepsTrans(g, h, s.top, s1.top, s'.top);
    }
  }

  // ----- operand lists -----

  lemma {:induction false} ExprsBelow(w: Env, g: Gen, es: seq<Expression>, i: nat)
    requires i < |es|
    ensures Below(GenExprs(w, g, es).os[i], GenExprs(w, g, es).g.regs)
    decreases es
  {
    hide GenExpr;
    var x := GenExpr(w, g, es[0]);
    if i == 0 {
      ExprBelow(w, g, es[0]);
      ExprsGrow(w, x.g, es[1..]);
    } else {
      ExprsBelow(w, x.g, es[1..], i - 1);
    }
  }

  lemma HeldAll(f: Frame, s: State, os: seq<Operand>, vs: seq<Value>)
    requires HoldAll(s, os, vs) && f == s.top
    ensures HasAll(f, os) && GetAll(f, os) == vs
  {
  }

  /** One operand evaluated is a list of one. */
  lemma Single(w: Env, fuel: nat, st: Store, g: Gen, es: seq<Expression>)
    requires |es| == 1
    ensures var r := EvalExpr(w, fuel, st, es[0]);
            EvalExprs(w, fuel, st, es) == if r.Ok? then Ok([r.v], r.st) else r.PropagateFailure()
    ensures GenExprs(w, g, es) == var x := GenExpr(w, g, es[0]); Outs(x.g, [x.o])
  {
    hide EvalExpr, GenExpr;
    var r, x := EvalExpr(w, fuel, st, es[0]), GenExpr(w, g, es[0]);
    assert es[1..] == [] && [x.o] + [] == [x.o];
    assert GenExprs(w, x.g, []) == Outs(x.g, []);
    if r.Ok? {
      assert EvalExprs(w, fuel, r.st, []) == Ok([], r.st) && [r.v] + [] == [r.v];
    }
  }

  lemma Double(w: Env, fuel: nat, st: Store, g: Gen, es: seq<Expression>)
    requires |es| == 2
    ensures var l := EvalExpr(w, fuel, st, es[0]);
            EvalExprs(w, fuel, st, es) ==
            if !l.Ok? then l.PropagateFailure() else
            var r := EvalExpr(w, fuel, l.st, es[1]);
            if r.Ok? then Ok([l.v, r.v], r.st) else r.PropagateFailure()
    ensures GenExprs(w, g, es) ==
            var x := GenExpr(w, g, es[0]);
            var y := GenExpr(w, x.g, es[1]);
            Outs(y.g, [x.o, y.o])
  {
    hide EvalExpr, GenExpr;
    var l, x := EvalExpr(w, fuel, st, es[0]), GenExpr(w, g, es[0]);
    assert es[1..][0] == es[1];
    Single(w, fuel, if l.Ok? then l.st else st, x.g, es[1..]);
    var y := GenExpr(w, x.g, es[1]);
    assert [x.o] + [y.o] == [x.o, y.o];
    if l.Ok? {
      var r := EvalExpr(w, fuel, l.st, es[1]);
      if r.Ok? {
        assert [l.v] + [r.v] == [l.v, r.v];
      }
    }
  }
}
