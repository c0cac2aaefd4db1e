/**
What it means that generated code executes a statement: where control goes for each way the
statement can end, and how such runs compose.
*/
module StmtRelation {
  import opened SemanticIR
  import opened Typing
  import opened Evaluator
  import opened Soundness
  import opened Machine
  import opened Codegen
  import opened Growth
  import opened ControlGrowth
  import opened Lockstep
  import opened Straight
  import opened Access
  import opened Relation

  /** The frame and the store agree on the variables in `bs`, and the surroundings are as they were. */
  ghost predicate Settled(g: Gen, s: State, bs: Bindings, s': State, st': Store) {
    InStep(s', st') && s'.rest == s.rest && Keeps(g, s.top, s'.top) && Stored(bs, st'.scopes, s'.top)
  }

  predicate Starts(f: Frame, b: nat) {
    f.block == b && f.at == 0
  }

  function OuterOf<A>(xs: seq<A>, here: bool): seq<A> {
    if here && |xs| > 0 then xs[..|xs| - 1] else xs
  }

  /** The caller goes on with the result, or the program ends with it. */
  function Returned(s: State, v: Value, globals: map<string, Value>, out: seq<Event>): Config {
    if s.rest == [] then Done(v, globals, out)
    else Running(State(s.rest[0].(regs := s.rest[0].regs[s.top.dest := v]), s.rest[1..], globals, out))
  }

  ghost predicate Jumped(m: Module, c: Config, g: Gen, s: State, targets: seq<nat>, st': Store, here: bool, k': nat, s': State) {
    && targets != [] && |st'.scopes| == |g.scopes|
    && Run(m, c, k') == Running(s') && Starts(s'.top, targets[|targets| - 1])
    && Settled(g, s, OuterOf(g.scopes, here), s', PopTo(st', |OuterOf(g.scopes, here)|))
  }

  ghost predicate Landed(m: Module, c: Config, g: Gen, s: State, h: Gen, st': Store, k': nat, s': State) {
    Run(m, c, k') == Running(s') && At(h, s'.top) && Settled(g, s, h.scopes, s', st')
  }

  ghost predicate Flows(m: Module, c: Config, g: Gen, s: State, h: Gen, flow: Flow, st': Store, here: bool, k': nat, s': State) {
    match flow
    case Next => !Terminated(h) && Landed(m, c, g, s, h, st', k', s')
    case Breaks => Jumped(m, c, g, s, g.breaks, st', here, k', s')
    case Continues => Jumped(m, c, g, s, g.continues, st', here, k', s')
    case Returns(v) => Run(m, c, k') == Returned(s, v, st'.globals, st'.out)
  }

  ghost predicate Executes(m: Module, c: Config, k: nat, fuel: nat, g: Gen, s: State, h: Gen, r: R<Flow>, here: bool, k': nat, s': State) {
    Stops(m, c, k, fuel, r, k') && (r.Ok? ==> Flows(m, c, g, s, h, r.v, r.st, here, k', s'))
  }

  // ----- composition -----

  lemma SettledTrans(g: Gen, s: State, bs: Bindings, s1: State, st1: Store, h: Gen, bs': Bindings, s2: State, st2: Store)
    requires Settled(g, s, bs, s1, st1) && Settled(h, s1, bs', s2, st2) && g.regs <= h.regs && g.steps <= h.steps
    ensures Settled(g, s, bs', s2, st2)
  {
    hide Stored;
    KeepsTrans(g, h, s.top, s1.top, s2.top);
  }

  /** A later part of a statement, seen from the statement's start. */
  lemma FlowsTrans(m: Module, c: Config, g: Gen, s: State, bs: Bindings, h: Gen, s1: State, st1: Store, i: Gen, flow: Flow, st2: Store, here: bool, k': nat, s': State)
    requires Settled(g, s, bs, s1, st1) && g.regs <= h.regs && g.steps <= h.steps && SameLoops(g, h)
    requires OuterOf(h.scopes, here) == OuterOf(g.scopes, here) && |h.scopes| == |g.scopes|
    requires Flows(m, c, h, s1, i, flow, st2, here, k', s')
    ensures Flows(m, c, g, s, i, flow, st2, here, k', s')
  {
    hide Stored, Keeps, Run, InStep, PopTo, Terminated;
    match flow
    case Next => SettledTrans(g, s, bs, s1, st1, h, i.scopes, s', st2);
    case Breaks | Continues => SettledTrans(g, s, bs, s1, st1, h, OuterOf(g.scopes, here), s', PopTo(st2, |OuterOf(g.scopes, here)|));
    case Returns(v) => assert Keeps(g, s.top, s1.top); DestKept(g, s, s1);
  }

  lemma DestKept(g: Gen, s: State, s1: State)
    requires Keeps(g, s.top, s1.top)
    ensures s1.top.dest == s.top.dest && s1.top.fn == s.top.fn
  {
  }

  lemma ExecutesTrans(m: Module, c: Config, k: nat, fuel: nat, g: Gen, s: State, bs: Bindings, h: Gen, k1: nat, fuel1: nat, s1: State, st1: Store, i: Gen, r: R<Flow>, here: bool, k': nat, s': State)
    requires Settled(g, s, bs, s1, st1) && g.regs <= h.regs && g.steps <= h.steps && SameLoops(g, h) && k <= k1 && k + fuel <= k1 + fuel1
    requires OuterOf(h.scopes, here) == OuterOf(g.scopes, here) && |h.scopes| == |g.scopes|
    requires Executes(m, c, k1, fuel1, h, s1, i, r, here, k', s')
    ensures Executes(m, c, k, fuel, g, s, i, r, here, k', s')
  {
    hide Flows, Run, Settled;
    if r.Ok? {
      FlowsTrans(m, c, g, s, bs, h, s1, st1, i, r.v, r.st, here, k', s');
    }
  }

  /** Only falling through depends on where the code ends. */
  lemma ExecutesElsewhere(m: Module, c: Config, k: nat, fuel: nat, g: Gen, s: State, h: Gen, h': Gen, r: R<Flow>, here: bool, k': nat, s': State)
    requires Executes(m, c, k, fuel, g, s, h, r, here, k', s') && !(r.Ok? && r.v.Next?)
    ensures Executes(m, c, k, fuel, g, s, h', r, here, k', s')
  {
  }

  lemma MovedSettled(g: Gen, s: State, st: Store, h: Gen, s1: State, st1: Store)
    requires Moved(g, s, st, h, s1, st1) && Stored(g.scopes, st.scopes, s.top)
    ensures Settled(g, s, g.scopes, s1, st1)
  {
  }

  /** A statement that ends by falling through, whose code only grew the current block. */
  lemma FallsThrough(m: Module, c: Config, k: nat, fuel: nat, g: Gen, s: State, h: Gen, st': Store, here: bool, k': nat, s': State)
    requires Landed(m, c, g, s, h, st', k', s') && Fine(g) && Grows(g, h) && k <= k'
    ensures Executes(m, c, k, fuel, g, s, h, Ok(Next, st'), here, k', s')
  {
    hide Landed, Sealed, Run;
    OpenNotEnded(h);
  }

  lemma StmtFails<A>(m: Module, c: Config, k: nat, fuel: nat, g: Gen, s: State, h: Gen, r: R<A>, q: R<Flow>, here: bool, k': nat, s': State)
    requires Stops(m, c, k, fuel, r, k') && !r.Ok? && q == r.PropagateFailure()
    ensures Executes(m, c, k, fuel, g, s, h, q, here, k', s')
  {
  }

  /** Jumps seen from one scope further out. */
  lemma WeakenFlow(m: Module, c: Config, k: nat, fuel: nat, g: Gen, s: State, h: Gen, r: R<Flow>, here: bool, k': nat, s': State)
    requires Executes(m, c, k, fuel, g, s, h, r, false, k', s') && |g.scopes| > 0
    ensures Executes(m, c, k, fuel, g, s, h, r, here, k', s')
  {
    hide Run, Keeps;
    if here && r.Ok? && (r.v.Breaks? || r.v.Continues?) {
      var n := |g.scopes| - 1;
      assert r.st.scopes[..|g.scopes|] == r.st.scopes;
      StoredOuter(g.scopes, r.st.scopes, s'.top, n);
    }
  }

  lemma StoredOuter(bs: Bindings, ms: seq<map<string, Value>>, f: Frame, n: nat)
    requires Stored(bs, ms, f) && n <= |bs|
    ensures Stored(bs[..n], ms[..n], f)
  {
  }
}
