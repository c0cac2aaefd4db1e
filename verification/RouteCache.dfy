/**
The runtime's route cache over a changing machine. A request reuses the inventory while the
generation token stands still and the route while the model stays the same. The cached route
is the route a fresh probe and selection would give, except for one signal that neither the
token nor the policy refresh watches: the experimental-override variable.
*/
module RouteCache {
  import opened Wrappers
  import opened HardwareDiscovery

  /** What stays fixed while the runtime lives. */
  datatype Setting = Setting(
    caps: seq<Capability>, platform: bool, defaultName: BackendKind -> string, number: string -> Maybe<nat>)

  /** The probe's view of the signals when it was last asked. */
  datatype ProbeState = ProbeState(initialized: bool, bits: seq<bool>, values: seq<string>, generation: nat)

  predicate Unchanged(p: ProbeState, w: World) {
    p.initialized && p.bits == Bits(w) && p.values == Values(w, NAMES)
  }

  /** A changed signal makes a new generation; zero is reserved. */
  function Observe(p: ProbeState, w: World): ProbeState {
    if Unchanged(p, w) then p
    else
      var next := (p.generation + 1) % UINT64;
      ProbeState(true, Bits(w), Values(w, NAMES), if !p.initialized then p.generation else if next == 0 then 1 else next)
  }

  datatype Runtime = Runtime(
    probe: ProbeState, policy: Policy, seen: Maybe<seq<string>>, token: nat, devices: seq<Device>, valid: bool,
    model: ModelSpec, route: Maybe<Route>, probes: nat)

  /** Takes the policy from the environment, unless its five variables are as last captured. */
  function Refreshed(x: Setting, r: Runtime, w: World): Runtime {
    if r.seen == Just(Values(w, POLICY_NAMES)) then r
    else r.(policy := PolicyFrom(w, x.number), seen := Just(Values(w, POLICY_NAMES)), route := Nothing)
  }

  /** Asks for the token and probes again if it moved. */
  function Probed(r: Runtime, w: World): Runtime {
    var p := Observe(r.probe, w);
    if p.generation == 0 || !r.valid || p.generation != r.token then
      r.(probe := p, devices := Probe(w), token := p.generation, valid := true, route := Nothing, probes := r.probes + 1)
    else r.(probe := p)
  }

  predicate Hit(r: Runtime, m: ModelSpec) {
    r.route.Just? && SameModel(r.model, m)
  }

  function Computed(x: Setting, ds: seq<Device>, m: ModelSpec, p: Policy, experimental: bool): Route {
    Enforce(SelectRoute(ds, x.caps, m, p, x.defaultName), x.platform, experimental)
  }

  function Routed(x: Setting, r: Runtime, w: World, m: ModelSpec): Runtime {
    var q := Probed(r, w);
    if Hit(q, m) then q else q.(route := Just(Computed(x, q.devices, m, q.policy, Experimental(w))), model := m)
  }

  /** The route without any cache: probe and select now, under the policy in force. */
  function Fresh(x: Setting, r: Runtime, w: World, m: ModelSpec): Route {
    Computed(x, Probe(w), m, r.policy, Experimental(w))
  }

  // ----- runs -----

  /** What can happen between and to requests. */
  datatype Op = Change(world: World) | Refresh | Request(model: ModelSpec)

  /** A run in progress; `experimental` is the override under which the cached route was computed. */
  datatype Run = Run(runtime: Runtime, world: World, experimental: bool)

  function After(x: Setting, s: Run, op: Op): Run {
    match op
    case Change(w) => s.(world := w)
    case Refresh => s.(runtime := Refreshed(x, s.runtime, s.world))
    case Request(m) =>
      s.(runtime := Routed(x, s.runtime, s.world, m),
         experimental := if Hit(Probed(s.runtime, s.world), m) then s.experimental else Experimental(s.world))
  }

  function AfterAll(x: Setting, s: Run, ops: seq<Op>): Run {
    if ops == [] then s else After(x, AfterAll(x, s, ops[..|ops| - 1]), ops[|ops| - 1])
  }

  /** A runtime constructed with an explicit policy, or from the environment. */
  function Created(x: Setting, w: World, policy: Maybe<Policy>): Runtime {
    Runtime(
      ProbeState(false, [], [], 1), if policy.Just? then policy.value else PolicyFrom(w, x.number),
      if policy.Just? then Nothing else Just(Values(w, POLICY_NAMES)), 0, [], false, NO_MODEL, Nothing, 0)
  }

  predicate SameMemory(ops: seq<Op>, memoryMb: nat) {
    forall op <- ops :: op.Change? ==> op.world.memoryMb == memoryMb
  }

  /** What every reachable state of the runtime keeps. */
  ghost predicate Coherent(x: Setting, s: Run) {
    var r := s.runtime;
    && 0 < r.probe.generation < UINT64
    && (r.seen.Just? ==> |r.seen.value| == |POLICY_NAMES| && r.policy == PolicyOf(r.seen.value, x.number))
    && (r.valid ==> r.token == r.probe.generation && r.probe.initialized && InventoryCurrent(r.probe, r.devices, s.world.memoryMb))
    && (r.route.Just? ==> r.valid && r.route == Just(Computed(x, r.devices, r.model, r.policy, s.experimental)))
  }

  /** The inventory is what any machine with the observed signals and this memory would report. */
  ghost predicate InventoryCurrent(p: ProbeState, ds: seq<Device>, memoryMb: nat) {
    forall w: World :: w.memoryMb == memoryMb && Unchanged(p, w) ==> Probe(w) == ds
  }

  lemma ObservedCurrent(w: World)
    ensures forall v: World :: v.memoryMb == w.memoryMb && Bits(v) == Bits(w) && Values(v, NAMES) == Values(w, NAMES) ==> Probe(v) == Probe(w)
  {
    hide Probe, Bits, Values;
    forall v: World | v.memoryMb == w.memoryMb && Bits(v) == Bits(w) && Values(v, NAMES) == Values(w, NAMES) ensures Probe(v) == Probe(w) {
      ProbeFollowsSignals(v, w);
    }
  }

  /** After the token is asked for, the inventory is the current one. */
  lemma ProbedCurrent(x: Setting, s: Run)
    requires Coherent(x, s)
    ensures var q := Probed(s.runtime, s.world);
            && q.devices == Probe(s.world) && q.valid && q.policy == s.runtime.policy && Coherent(x, s.(runtime := q))
  {
    hide Probe, Bits, Values, PolicyOf, Computed;
    ObservedCurrent(s.world);
  }

  lemma RefreshCoherent(x: Setting, s: Run)
    requires Coherent(x, s)
    ensures Coherent(x, After(x, s, Refresh)) && After(x, s, Refresh).runtime.policy == PolicyFrom(s.world, x.number)
  {
    hide Probe, Bits, PolicyOf, Computed;
  }

  lemma RequestCoherent(x: Setting, s: Run, m: ModelSpec)
    requires Coherent(x, s)
    ensures Coherent(x, After(x, s, Request(m)))
  {
    hide Probe, Bits, Values, PolicyOf, Computed, Probed, InventoryCurrent;
    ProbedCurrent(x, s);
  }

  lemma {:induction false} RunsStayCoherent(x: Setting, w: World, policy: Maybe<Policy>, ops: seq<Op>)
    requires SameMemory(ops, w.memoryMb)
    ensures var s := AfterAll(x, Run(Created(x, w, policy), w, false), ops); Coherent(x, s) && s.world.memoryMb == w.memoryMb
    decreases |ops|
  {
    var start := Run(Created(x, w, policy), w, false);
    if ops != [] {
      var n := |ops| - 1;
      RunsStayCoherent(x, w, policy, ops[..n]);
      var s := AfterAll(x, start, ops[..n]);
      hide Coherent, Created, Routed, Refreshed;
      match ops[n]
      case Change(v) => WorldChanges(x, s, v);
      case Refresh => RefreshCoherent(x, s);
      case Request(m) => RequestCoherent(x, s, m);
    }
  }

  lemma WorldChanges(x: Setting, s: Run, v: World)
    requires Coherent(x, s) && v.memoryMb == s.world.memoryMb
    ensures Coherent(x, s.(world := v))
  {
    hide Probe, Bits, Values, PolicyOf, Computed;
  }

  /** A route computed under another override differs: the override is part of its evidence. */
  lemma OverrideShows(x: Setting, ds: seq<Device>, m: ModelSpec, n: ModelSpec, p: Policy, a: bool, b: bool)
    requires SameModel(m, n)
    ensures Computed(x, ds, m, p, a) == Computed(x, ds, n, p, b) <==> a == b
  {
    hide SelectRoute;
    SameModelSameRoute(ds, x.caps, m, n, p, x.defaultName);
  }

  /**
  Refinement, exactly: after any run, the route a request gets is the one a fresh probe and
  selection would give if and only if it is no cache hit, or the override now is the override
  under which the cached route was computed.
  */
  lemma RouteIsFresh(x: Setting, w: World, policy: Maybe<Policy>, ops: seq<Op>, m: ModelSpec)
    requires SameMemory(ops, w.memoryMb)
    ensures var s := AfterAll(x, Run(Created(x, w, policy), w, false), ops);
            var t := After(x, s, Request(m)).runtime;
            t.route == Just(Fresh(x, s.runtime, s.world, m)) <==> (Hit(Probed(s.runtime, s.world), m) ==> s.experimental == Experimental(s.world))
  {
    hide After, AfterAll, Created, Fresh, Probed, Coherent, SameMemory;
    RunsStayCoherent(x, w, policy, ops);
    RequestIsFresh(x, AfterAll(x, Run(Created(x, w, policy), w, false), ops), m);
  }

  lemma RequestIsFresh(x: Setting, s: Run, m: ModelSpec)
    requires Coherent(x, s)
    ensures var t := After(x, s, Request(m)).runtime;
            t.route == Just(Fresh(x, s.runtime, s.world, m)) <==> (Hit(Probed(s.runtime, s.world), m) ==> s.experimental == Experimental(s.world))
  {
    hide Probed, Computed, Probe, InventoryCurrent, PolicyOf, Experimental, SameModel;
    ProbedCurrent(x, s);
    var q := Probed(s.runtime, s.world);
    if Hit(q, m) {
      OverrideShows(x, q.devices, q.model, m, q.policy, s.experimental, Experimental(s.world));
    }
  }

  /** With the override variable left alone the cache is exact. */
  lemma {:induction false} OverrideKept(x: Setting, w: World, policy: Maybe<Policy>, ops: seq<Op>)
    requires forall op <- ops :: op.Change? ==> Experimental(op.world) == Experimental(w)
    ensures var s := AfterAll(x, Run(Created(x, w, policy), w, false), ops);
            Experimental(s.world) == Experimental(w) && (s.runtime.route.Just? ==> s.experimental == Experimental(w))
    decreases |ops|
  {
    hide Experimental, After, Created;
    if ops == [] {
      NothingCached(x, w, policy);
    } else {
      var n := |ops| - 1;
      OverrideKept(x, w, policy, ops[..n]);
      OverrideStep(x, AfterAll(x, Run(Created(x, w, policy), w, false), ops[..n]), ops[n], Experimental(w));
    }
  }

  lemma NothingCached(x: Setting, w: World, policy: Maybe<Policy>)
    ensures Created(x, w, policy).route == Nothing
  {
  }

  lemma OverrideStep(x: Setting, s: Run, op: Op, experimental: bool)
    requires Experimental(s.world) == experimental && (s.runtime.route.Just? ==> s.experimental == experimental)
    requires op.Change? ==> Experimental(op.world) == experimental
    ensures var t := After(x, s, op); Experimental(t.world) == experimental && (t.runtime.route.Just? ==> t.experimental == experimental)
  {
    hide Experimental, Probe, Bits, Values, Computed, Observe, PolicyFrom;
  }

  lemma CacheIsExact(x: Setting, w: World, policy: Maybe<Policy>, ops: seq<Op>, m: ModelSpec)
    requires SameMemory(ops, w.memoryMb) && forall op <- ops :: op.Change? ==> Experimental(op.world) == Experimental(w)
    ensures var s := AfterAll(x, Run(Created(x, w, policy), w, false), ops);
            After(x, s, Request(m)).runtime.route == Just(Fresh(x, s.runtime, s.world, m))
  {
    hide Routed, Created, Fresh, Refreshed, Probe;
    RouteIsFresh(x, w, policy, ops, m);
    OverrideKept(x, w, policy, ops);
  }

  /** A stale route: clearing the override between two equal requests changes nothing the cache watches. */
  lemma StaleRoute(x: Setting)
    ensures var on, off := World({}, map[OVERRIDE := "1"], 0), World({}, map[], 0);
            var s := AfterAll(x, Run(Created(x, on, Nothing), on, false), [Request(NO_MODEL), Change(off)]);
            After(x, s, Request(NO_MODEL)).runtime.route != Just(Fresh(x, s.runtime, s.world, NO_MODEL))
  {
    hide Fresh, Computed, Probe, Experimental, Bits, Values, PolicyFrom, Created, Routed, Probed;
    var on, off := World({}, map[OVERRIDE := "1"], 0), World({}, map[], 0);
    var ops := [Request(NO_MODEL), Change(off)];
    var start := Run(Created(x, on, Nothing), on, false);
    assert ops[..1] == [Request(NO_MODEL)] && ops[..1][..0] == [];
    assert AfterAll(x, start, ops[..1]) == After(x, start, Request(NO_MODEL));
    OverridesDiffer(on, off);
    SignalsAlike(on, off);
    RouteIsFresh(x, on, Nothing, ops, NO_MODEL);
    SecondRequestHits(x, start, off);
  }

  /** The same request again, with every watched signal as it was. */
  lemma SecondRequestHits(x: Setting, s: Run, off: World)
    requires s.runtime == Created(x, s.world, Nothing) && Bits(s.world) == Bits(off) && Values(s.world, NAMES) == Values(off, NAMES)
    ensures var t := After(x, s, Request(NO_MODEL));
            Hit(Probed(t.runtime, off), NO_MODEL) && t.experimental == Experimental(s.world)
  {
    hide Computed, Probe, Experimental, Bits, Values, PolicyFrom;
  }

  lemma OverridesDiffer(on: World, off: World)
    requires Variable(on, OVERRIDE) == "1" && Variable(off, OVERRIDE) == ""
    ensures Experimental(on) && !Experimental(off)
  {
    assert LowerAll("1") == "1" by { assert "1"[1..] == ""; }
  }

  lemma SignalsAlike(on: World, off: World)
    requires on == World({}, map[OVERRIDE := "1"], 0) && off == World({}, map[], 0)
    ensures Bits(on) == Bits(off) && Values(on, NAMES) == Values(off, NAMES)
  {
    forall i | 0 <= i < |NAMES| ensures Values(on, NAMES)[i] == Values(off, NAMES)[i] {
      assert NAMES[i] != OVERRIDE;
    }
  }

  // ----- the runtime object -----

  class AIRuntime {
    const setting: Setting
    var initialized: bool
    var bits: seq<bool>
    var values: seq<string>
    var generation: nat
    var policy: Policy
    var policyState: Maybe<seq<string>>
    var token: nat
    var devices: seq<Device>
    var inventoryValid: bool
    var routeModel: ModelSpec
    var routeCache: Maybe<Route>
    var probeCount: nat

    ghost function State(): Runtime
      reads this
    {
      Runtime(ProbeState(initialized, bits, values, generation), policy, policyState, token, devices, inventoryValid, routeModel, routeCache, probeCount)
    }

    constructor (x: Setting, w: World, explicit: Maybe<Policy>)
      ensures setting == x && State() == Created(x, w, explicit)
    {
      setting := x;
      initialized, bits, values, generation := false, [], [], 1;
      policy := if explicit.Just? then explicit.value else PolicyFrom(w, x.number);
      policyState := if explicit.Just? then Nothing else Just(Values(w, POLICY_NAMES));
      token, devices, inventoryValid, routeModel, routeCache, probeCount := 0, [], false, NO_MODEL, Nothing, 0;
    }

    method GenerationToken(w: World) returns (t: nat)
      modifies this`initialized, this`bits, this`values, this`generation
      ensures State().probe == Observe(old(State()).probe, w) && t == generation
    {
      hide Bits, Values;
      var now, env := Bits(w), Values(w, NAMES);
      var changed := !initialized || now != bits || env != values;
      if changed {
        bits, values := now, env;
        if initialized {
          generation := (generation + 1) % UINT64;
          if generation == 0 {
            generation := 1;
          }
        }
        initialized := true;
      }
      t := generation;
    }

    method RefreshPolicyFromEnvironment(w: World)
      modifies this`policy, this`policyState, this`routeCache
      ensures State() == Refreshed(setting, old(State()), w)
    {
      if policyState == Just(Values(w, POLICY_NAMES)) {
        return;
      }
      policy := PolicyFrom(w, setting.number);
      policyState := Just(Values(w, POLICY_NAMES));
      routeCache := Nothing;
    }

    /** The route, whether it came from the cache, and the number of probes so far. */
    method RouteForModel(w: World, m: ModelSpec) returns (route: Route, hit: bool, probes: nat)
      modifies this
      ensures State() == Routed(setting, old(State()), w, m)
      ensures routeCache == Just(route) && probes == probeCount && hit == Hit(Probed(old(State()), w), m)
    {
      hide Computed, Probe, Experimental, Bits, Values, Observe;
      ghost var before := State();
      var generationNow := GenerationToken(w);
      if generationNow == 0 || !inventoryValid || generationNow != token {
        devices := Probe(w);
        token := generationNow;
        inventoryValid := true;
        routeCache := Nothing;
        probeCount := probeCount + 1;
      }
      assert State() == Probed(before, w);
      hit := routeCache.Just? && SameModel(routeModel, m);
      if !hit {
        routeCache := Just(Computed(setting, devices, m, policy, Experimental(w)));
        routeModel := m;
      }
      route, probes := routeCache.value, probeCount;
    }
  }
}
