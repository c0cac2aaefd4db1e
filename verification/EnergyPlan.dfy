/**
  * Energy-aware plan selection: candidates are qualified by their trials, compared with a
  * one-thread CPU baseline, and the one with the least energy per functional unit is chosen.
  *
  * Measurements are real numbers; a number that is not finite fails the same tests as one out of
  * range and is not modelled apart. The square root in the standard deviation is a parameter.
  */
module EnergyPlan {
  import opened Wrappers
  import opened Strings

  datatype Result<T> = Ok(value: T) | Error(reason: string)

  /** `claimable` and `synthetic` stand for the record's evidence class, source, dates and calibration. */
  datatype Measurement = Measurement(claimable: bool, synthetic: bool, joulesPerUnit: real, uncertainty: Maybe<real>,
                                     units: nat, boundary: string, source: string, instrument: string)

  /** `numerical`: shape and type agree, no value is non-finite and the tolerances hold. */
  datatype Trial = Trial(success: bool, numerical: bool, quality: real, latency: real, energy: Measurement)

  datatype Candidate = Candidate(id: string, device: string, threads: nat, ready: bool, precision: string,
                                 mathPolicy: string, batch: nat, model: string, format: string, trials: seq<Trial>)

  datatype Protocol = Protocol(precision: string, mathPolicy: string, devicePolicy: string, guardrail: string,
                               batch: nat, trials: nat, units: nat, quality: real, maximumLatency: real,
                               maximumUncertainty: real, requireEnergy: bool)

  /** What qualification finds: means per functional unit, and the expanded uncertainty in percent. */
  datatype Qualification = Qualification(execution: bool, energy: bool, latency: real, joules: real, uncertainty: real)

  datatype Plan = Plan(selected: Maybe<nat>, comparable: seq<bool>, reason: string, claim: bool,
                       baselineJoules: real, selectedJoules: real, reduction: real)

  type Root = real -> real

  const FAILED := Qualification(false, false, 0.0, 0.0, 0.0)

  predicate ValidProtocol(p: Protocol) {
    && (p.devicePolicy == "cpu_first" || p.devicePolicy == "cpu_only") && p.precision == "float32"
    && p.mathPolicy == "preserve_fp32_no_quantization"
    && 0 < p.batch <= 1024 && 2 <= p.trials <= 100 && 0 < p.units <= 10000000
    && 0.0 <= p.quality <= 1.0 && p.maximumLatency >= 0.0 && 0.0 < p.maximumUncertainty <= 100.0
  }

  // ---------------------------------------------------------------------------------------------
  // Qualification of one candidate

  predicate Runs(p: Protocol, c: Candidate) {
    && c.ready && c.precision == p.precision && c.mathPolicy == p.mathPolicy && c.batch == p.batch
    && |c.trials| == p.trials && c.threads > 0
  }

  predicate Passes(p: Protocol, t: Trial) {
    && t.success && t.numerical && t.quality >= p.quality && t.latency > 0.0
    && (p.maximumLatency > 0.0 ==> t.latency <= p.maximumLatency)
  }

  predicate Measured(m: Measurement, simulation: bool) {
    && (if simulation then m.synthetic else m.claimable) && m.joulesPerUnit > 0.0
    && m.uncertainty.Just? && m.uncertainty.value >= 0.0
    && (!simulation ==> m.uncertainty.value <= 100.0)
  }

  predicate SameInstrument(m: Measurement, n: Measurement) {
    m.boundary == n.boundary && m.source == n.source && m.instrument == n.instrument
  }

  predicate Counts(p: Protocol, simulation: bool, t: Trial) {
    Measured(t.energy, simulation) && t.energy.units == p.units
  }

  /** Every trial was measured, for the right number of units and by the instrument of the first. */
  predicate AllMeasured(p: Protocol, simulation: bool, ts: seq<Trial>) {
    forall i | 0 <= i < |ts| :: Counts(p, simulation, ts[i]) && SameInstrument(ts[0].energy, ts[i].energy)
  }

  predicate AllPass(p: Protocol, ts: seq<Trial>) {
    forall i | 0 <= i < |ts| :: Passes(p, ts[i])
  }

  function Latencies(ts: seq<Trial>): seq<real> {
    seq(|ts|, i requires 0 <= i < |ts| => ts[i].latency)
  }

  function Joules(ts: seq<Trial>): seq<real> {
    seq(|ts|, i requires 0 <= i < |ts| => ts[i].energy.joulesPerUnit)
  }

  function Total(xs: seq<real>): real {
    if xs == [] then 0.0 else Total(xs[..|xs| - 1]) + xs[|xs| - 1]
  }

  function Mean(xs: seq<real>): real
    requires xs != []
  {
    Total(xs) / |xs| as real
  }

  function SquaredError(xs: seq<real>, mean: real): real {
    if xs == [] then 0.0
    else SquaredError(xs[..|xs| - 1], mean) + Square(xs[|xs| - 1] - mean)
  }

  function Square(x: real): real {
    x * x
  }

  function Deviation(root: Root, xs: seq<real>): real
    requires xs != []
  {
    if |xs| > 1 then root(SquaredError(xs, Mean(xs)) / (|xs| - 1) as real) else 0.0
  }

  function LargestUncertainty(ts: seq<Trial>): real {
    if ts == [] then 0.0
    else
      var rest, m := LargestUncertainty(ts[..|ts| - 1]), ts[|ts| - 1].energy;
      if m.uncertainty.Just? && m.uncertainty.value > rest then m.uncertainty.value else rest
  }

  function Expanded(root: Root, ts: seq<Trial>): real
    requires ts != []
  {
    var mean := Mean(Joules(ts));
    LargestUncertainty(ts) + (if mean == 0.0 then 0.0 else 200.0 * Deviation(root, Joules(ts)) / mean)
  }

  function Qualified(root: Root, p: Protocol, simulation: bool, c: Candidate): Qualification
    requires p.trials > 0
  {
    if !Runs(p, c) || !AllPass(p, c.trials) then FAILED
    else if !AllMeasured(p, simulation, c.trials) then Qualification(true, false, Mean(Latencies(c.trials)), 0.0, 0.0)
    else
      var uncertainty := Expanded(root, c.trials);
      Qualification(true, uncertainty <= p.maximumUncertainty && (simulation || p.guardrail != ""),
                    Mean(Latencies(c.trials)), Mean(Joules(c.trials)), uncertainty)
  }

  lemma {:induction false} TotalPositive(xs: seq<real>)
    requires forall i | 0 <= i < |xs| :: xs[i] > 0.0
    ensures xs != [] ==> Total(xs) > 0.0
  {
    if |xs| > 1 {
      TotalPositive(xs[..|xs| - 1]);
    } else if |xs| == 1 {
      assert Total(xs[..0]) == 0.0;
    }
  }

  /** A candidate with valid energy has a positive mean, and enough trials. */
  lemma EnergyIsPositive(root: Root, p: Protocol, simulation: bool, c: Candidate)
    requires p.trials > 0 && Qualified(root, p, simulation, c).energy
    ensures Qualified(root, p, simulation, c).execution && Qualified(root, p, simulation, c).joules > 0.0
    ensures |c.trials| > 0
  {
    hide Expanded, Latencies, Passes;
    var xs := Joules(c.trials);
    forall i | 0 <= i < |xs| ensures xs[i] > 0.0 {
      assert Counts(p, simulation, c.trials[i]);
    }
    TotalPositive(xs);
  }

  method SumOf(xs: seq<real>) returns (sum: real)
    ensures sum == Total(xs)
  {
    sum := 0.0;
    for i := 0 to |xs|
      invariant sum == Total(xs[..i])
    {
      assert xs[..i + 1][..i] == xs[..i];
      sum := sum + xs[i];
    }
    assert xs[..|xs|] == xs;
  }

  method SquaresOf(xs: seq<real>, mean: real) returns (sum: real)
    ensures sum == SquaredError(xs, mean)
  {
    hide Square;
    sum := 0.0;
    for i := 0 to |xs|
      invariant sum == SquaredError(xs[..i], mean)
    {
      assert xs[..i + 1][..i] == xs[..i];
      sum := sum + Square(xs[i] - mean);
    }
    assert xs[..|xs|] == xs;
  }

  method Summarize(root: Root, xs: seq<real>) returns (mean: real, deviation: real)
    requires xs != []
    ensures mean == Mean(xs) && deviation == Deviation(root, xs)
  {
    hide Total, SquaredError;
    var sum := SumOf(xs);
    mean := sum / |xs| as real;
    var squares := SquaresOf(xs, mean);
    deviation := if |xs| > 1 then root(squares / (|xs| - 1) as real) else 0.0;
  }

  /** What the loop over the trials has gathered. */
  datatype Gathered = Gathered(latencies: seq<real>, joules: seq<real>, uncertainty: real, first: Maybe<Measurement>)

  ghost predicate Gathers(p: Protocol, simulation: bool, ts: seq<Trial>, g: Gathered) {
    AllPass(p, ts) && g.latencies == Latencies(ts) && Energies(p, simulation, ts, g)
  }

  /** The energies are complete exactly when every trial was measured alike. */
  ghost predicate Energies(p: Protocol, simulation: bool, ts: seq<Trial>, g: Gathered) {
    && (g.joules == [] <==> g.first.Nothing?)
    && if AllMeasured(p, simulation, ts) then Complete(ts, g) else |g.joules| < |ts|
  }

  ghost predicate Complete(ts: seq<Trial>, g: Gathered) {
    && g.joules == Joules(ts) && g.uncertainty == LargestUncertainty(ts)
    && (ts != [] ==> g.first.Just? && SameInstrument(ts[0].energy, g.first.value))
  }

  predicate Appends(p: Protocol, simulation: bool, g: Gathered, t: Trial) {
    Counts(p, simulation, t) && (g.first.Nothing? || SameInstrument(g.first.value, t.energy))
  }

  function Appended(g: Gathered, t: Trial): Gathered
    requires t.energy.uncertainty.Just?
  {
    var u := t.energy.uncertainty.value;
    g.(joules := g.joules + [t.energy.joulesPerUnit], uncertainty := if u > g.uncertainty then u else g.uncertainty,
       first := Just(t.energy))
  }

  lemma Appending(p: Protocol, simulation: bool, ts: seq<Trial>, g: Gathered, t: Trial)
    requires Energies(p, simulation, ts, g) && Appends(p, simulation, g, t)
    ensures t.energy.uncertainty.Just? && Energies(p, simulation, ts + [t], Appended(g, t))
  {
    hide AllMeasured, SameInstrument, Joules, LargestUncertainty;
    Longer(p, simulation, ts, t);
    Larger(ts, t);
    Sizes(ts);
    InstrumentOf(if ts == [] then t.energy else ts[0].energy, if g.first.Just? then g.first.value else t.energy, t.energy);
  }

  lemma Skipping(p: Protocol, simulation: bool, ts: seq<Trial>, g: Gathered, t: Trial)
    requires Energies(p, simulation, ts, g) && !Appends(p, simulation, g, t)
    ensures Energies(p, simulation, ts + [t], g)
  {
    hide AllMeasured, SameInstrument, Joules, LargestUncertainty, Measured;
    Longer(p, simulation, ts, t);
    Sizes(ts);
    InstrumentOf(if ts == [] then t.energy else ts[0].energy, if g.first.Just? then g.first.value else t.energy, t.energy);
  }

  lemma Larger(ts: seq<Trial>, t: Trial)
    ensures LargestUncertainty(ts + [t]) ==
            var rest := LargestUncertainty(ts);
            if t.energy.uncertainty.Just? && t.energy.uncertainty.value > rest then t.energy.uncertainty.value else rest
  {
    assert (ts + [t])[..|ts|] == ts;
  }

  /** One more trial: its energy counts when it is measured for the right units by the instrument in use. */
  method Gather(p: Protocol, simulation: bool, ghost ts: seq<Trial>, g: Gathered, t: Trial) returns (n: Gathered)
    requires Gathers(p, simulation, ts, g) && Passes(p, t)
    ensures Gathers(p, simulation, ts + [t], n)
  {
    hide Passes, Energies, AllPass, AllMeasured, Latencies, Joules, Appends;
    Longer(p, simulation, ts, t);
    n := g;
    if Appends(p, simulation, g, t) {
      Appending(p, simulation, ts, g, t);
      n := Appended(g, t);
    } else {
      Skipping(p, simulation, ts, g, t);
    }
    SameEnergies(p, simulation, ts + [t], n, g.latencies + [t.latency]);
    n := n.(latencies := g.latencies + [t.latency]);
  }

  lemma SameEnergies(p: Protocol, simulation: bool, ts: seq<Trial>, g: Gathered, latencies: seq<real>)
    ensures Energies(p, simulation, ts, g) == Energies(p, simulation, ts, g.(latencies := latencies))
  {
  }

  lemma Longer(p: Protocol, simulation: bool, ts: seq<Trial>, t: Trial)
    ensures AllMeasured(p, simulation, ts + [t]) <==>
            AllMeasured(p, simulation, ts) && Counts(p, simulation, t) &&
            SameInstrument((ts + [t])[0].energy, t.energy)
    ensures AllPass(p, ts + [t]) <==> AllPass(p, ts) && Passes(p, t)
    ensures Latencies(ts + [t]) == Latencies(ts) + [t.latency]
    ensures Joules(ts + [t]) == Joules(ts) + [t.energy.joulesPerUnit]
  {
    hide Passes, Counts, SameInstrument;
    var all := ts + [t];
    assert all[|ts|] == t;
    assert forall i | 0 <= i < |ts| :: all[i] == ts[i];
    assert ts != [] ==> all[0] == ts[0];
  }

  lemma InstrumentOf(a: Measurement, b: Measurement, c: Measurement)
    ensures SameInstrument(a, b) ==> (SameInstrument(b, c) <==> SameInstrument(a, c))
    ensures SameInstrument(c, c)
  {
  }

  /** Qualification as the loop over the trials finds it. */
  method Qualify(root: Root, p: Protocol, simulation: bool, c: Candidate) returns (q: Qualification)
    requires p.trials > 0
    ensures q == Qualified(root, p, simulation, c)
  {
    hide Passes, AllPass, AllMeasured, Energies, Latencies, Joules, LargestUncertainty, Mean, Deviation;
    if !Runs(p, c) { return FAILED; }
    var ts := c.trials;
    var g := Gathered([], [], 0.0, Nothing);
    NothingGathered(p, simulation, ts);
    for i := 0 to |ts|
      invariant Gathers(p, simulation, ts[..i], g)
    {
      if !Passes(p, ts[i]) {
        Refused(p, ts, i);
        return FAILED;
      }
      g := Gather(p, simulation, ts[..i], g, ts[i]);
      assert ts[..i] + [ts[i]] == ts[..i + 1];
    }
    assert ts[..|ts|] == ts;
    Sizes(ts);
    Complement(p, simulation, ts, g);
    var latency, _ := Summarize(root, g.latencies);
    if |g.joules| != |ts| { return Qualification(true, false, latency, 0.0, 0.0); }
    var joules, deviation := Summarize(root, g.joules);
    var uncertainty := g.uncertainty + (if joules == 0.0 then 0.0 else 200.0 * deviation / joules);
    return Qualification(true, uncertainty <= p.maximumUncertainty && (simulation || p.guardrail != ""), latency, joules, uncertainty);
  }

  lemma Complement(p: Protocol, simulation: bool, ts: seq<Trial>, g: Gathered)
    requires Energies(p, simulation, ts, g)
    ensures |g.joules| == |ts| <==> AllMeasured(p, simulation, ts)
    ensures |g.joules| == |ts| ==> g.joules == Joules(ts) && g.uncertainty == LargestUncertainty(ts)
  {
    hide AllMeasured;
  }

  lemma Refused(p: Protocol, ts: seq<Trial>, i: nat)
    requires i < |ts| && !Passes(p, ts[i])
    ensures !AllPass(p, ts)
  {
  }

  lemma NothingGathered(p: Protocol, simulation: bool, ts: seq<Trial>)
    ensures Gathers(p, simulation, ts[..0], Gathered([], [], 0.0, Nothing))
  {
  }

  lemma Sizes(ts: seq<Trial>)
    ensures |Latencies(ts)| == |ts| && |Joules(ts)| == |ts|
  {
  }

  // ---------------------------------------------------------------------------------------------
  // The order of choice

  datatype Key = Key(joules: real, uncertainty: real, latency: real, accelerator: bool, id: string)

  /** Less energy, then less uncertainty, then less latency, then the CPU, then the smaller name. */
  predicate Before(a: Key, b: Key) {
    a.joules < b.joules || (a.joules == b.joules &&
    (a.uncertainty < b.uncertainty || (a.uncertainty == b.uncertainty &&
    (a.latency < b.latency || (a.latency == b.latency &&
    ((!a.accelerator && b.accelerator) || (a.accelerator == b.accelerator && Precedes(a.id, b.id))))))))
  }

  lemma BeforeTotal(a: Key, b: Key)
    ensures a.id != b.id ==> Before(a, b) || Before(b, a)
    ensures !(Before(a, b) && Before(b, a)) && !Before(a, a)
  {
    PrecedesTotal(a.id, b.id);
  }

  lemma BeforeTransitive(a: Key, b: Key, c: Key)
    requires Before(a, b) && Before(b, c)
    ensures Before(a, c)
  {
    if Precedes(a.id, b.id) && Precedes(b.id, c.id) {
      PrecedesTransitive(a.id, b.id, c.id);
    }
  }

  // ---------------------------------------------------------------------------------------------
  // What a plan is

  /** The circumstances of a selection. */
  datatype Setting = Setting(root: Root, protocol: Protocol, simulation: bool)

  function Of(s: Setting, c: Candidate): Qualification
    requires s.protocol.trials > 0
  {
    Qualified(s.root, s.protocol, s.simulation, c)
  }

  function KeyOf(s: Setting, c: Candidate): Key
    requires s.protocol.trials > 0
  {
    var q := Of(s, c);
    Key(q.joules, q.uncertainty, q.latency, c.device != "cpu", c.id)
  }

  /** A one-thread CPU candidate that ran. */
  predicate Base(s: Setting, c: Candidate)
    requires s.protocol.trials > 0
  {
    c.device == "cpu" && c.threads == 1 && Of(s, c).execution
  }

  predicate Comparable(s: Setting, b: Candidate, c: Candidate)
    requires s.protocol.trials > 0
  {
    && c.model == b.model && c.format == b.format && Of(s, b).energy
    && |c.trials| > 0 && |b.trials| > 0 && SameInstrument(c.trials[0].energy, b.trials[0].energy)
  }

  predicate Allowed(s: Setting, c: Candidate) {
    c.device == "cpu" || s.protocol.devicePolicy != "cpu_only"
  }

  /** Candidates that may be chosen; an accelerator only when it beats the baseline. */
  predicate Eligible(s: Setting, b: Candidate, c: Candidate)
    requires s.protocol.trials > 0
  {
    && Of(s, c).energy && Allowed(s, c) && Comparable(s, b, c)
    && (c.device != "cpu" ==> Of(s, c).joules < Of(s, b).joules)
  }

  predicate DistinctIds(cs: seq<Candidate>) {
    && (forall i | 0 <= i < |cs| :: cs[i].id != "")
    && (forall i, j | 0 <= i < j < |cs| :: cs[i].id != cs[j].id)
  }

  /** The last one-thread CPU candidate that ran. */
  function Baseline(s: Setting, cs: seq<Candidate>): (b: Maybe<nat>)
    requires s.protocol.trials > 0
    ensures b.Just? ==> b.value < |cs| && Base(s, cs[b.value])
    ensures b.Nothing? ==> forall i | 0 <= i < |cs| :: !Base(s, cs[i])
  {
    if cs == [] then Nothing
    else if Base(s, cs[|cs| - 1]) then Just(|cs| - 1)
    else Baseline(s, cs[..|cs| - 1])
  }

  /** The best eligible candidate, and the only one. */
  ghost predicate Best(s: Setting, cs: seq<Candidate>, b: Candidate, c: Candidate)
    requires s.protocol.trials > 0
  {
    && c in cs && Eligible(s, b, c)
    && forall d | d in cs && Eligible(s, b, d) && d != c :: Before(KeyOf(s, c), KeyOf(s, d))
  }

  predicate AnyEligible(s: Setting, cs: seq<Candidate>, b: Candidate)
    requires s.protocol.trials > 0
  {
    exists i | 0 <= i < |cs| :: Eligible(s, b, cs[i])
  }

  function UpperBound(q: Qualification): real { q.joules * (1.0 + q.uncertainty / 100.0) }
  function LowerBound(q: Qualification): real { q.joules * (1.0 - q.uncertainty / 100.0) }

  /** The plan for the candidates of a valid request. */
  ghost predicate Plans(s: Setting, cs: seq<Candidate>, plan: Plan)
    requires s.protocol.trials > 0
  {
    var base := Baseline(s, cs);
    && (plan.selected.Just? ==> plan.selected.value < |cs|)
    && if base.Nothing? then
         plan.selected.Nothing? && !plan.claim && plan.reason == "cpu_baseline_failed"
       else
         var b := cs[base.value];
         if AnyEligible(s, cs, b) then
           && plan.selected.Just? && Best(s, cs, b, cs[plan.selected.value])
           && EnergyReport(s, b, cs[plan.selected.value], plan.selected.value == base.value, plan)
         else
           && !plan.claim
           && plan.selected == (if s.protocol.requireEnergy then Nothing else base)
           && plan.reason == (if s.protocol.requireEnergy then "required_measured_energy_unavailable"
                              else "cpu_baseline_without_energy_optimization")
  }

  predicate EnergyReport(s: Setting, b: Candidate, c: Candidate, same: bool, plan: Plan)
    requires s.protocol.trials > 0
  {
    var chosen, base := Of(s, c), Of(s, b);
    && plan.reason == (if s.simulation then "synthetic_test_minimum_energy" else "minimum_measured_joules_per_functional_unit")
    && plan.baselineJoules == base.joules && plan.selectedJoules == chosen.joules
    && (base.joules > 0.0 ==> plan.reduction == (base.joules - chosen.joules) / base.joules * 100.0)
    && (plan.claim <==> !s.simulation && !same && UpperBound(chosen) < LowerBound(base))
  }

  // ---------------------------------------------------------------------------------------------
  // What plans guarantee

  /** The baseline takes part as soon as anything does. */
  lemma BaselineTakesPart(s: Setting, cs: seq<Candidate>, b: nat, c: Candidate)
    requires s.protocol.trials > 0 && b < |cs| && Base(s, cs[b]) && Eligible(s, cs[b], c)
    ensures Eligible(s, cs[b], cs[b])
  {
    hide Qualified;
  }

  /** The choice takes no more energy than the baseline, and saves a percentage between none and all. */
  lemma NeverWorse(s: Setting, cs: seq<Candidate>, plan: Plan)
    requires s.protocol.trials > 0 && Plans(s, cs, plan) && Baseline(s, cs).Just? && AnyEligible(s, cs, cs[Baseline(s, cs).value])
    ensures 0.0 < plan.selectedJoules <= plan.baselineJoules && 0.0 <= plan.reduction < 100.0
  {
    hide Qualified, Baseline, Comparable;
    var base := Baseline(s, cs).value;
    var b, c := cs[base], cs[plan.selected.value];
    BaselineTakesPart(s, cs, base, c);
    EnergyIsPositive(s.root, s.protocol, s.simulation, b);
    EnergyIsPositive(s.root, s.protocol, s.simulation, c);
    assert c != b ==> Before(KeyOf(s, c), KeyOf(s, b));
    Percentage(plan.baselineJoules, plan.selectedJoules);
  }

  lemma Percentage(b: real, c: real)
    requires 0.0 < c <= b
    ensures 0.0 <= (b - c) / b * 100.0 < 100.0
  {
    assert 0.0 <= (b - c) / b < 1.0;
  }

  /** Whatever lies within the uncertainty of one candidate's energy. */
  predicate Within(q: Qualification, x: real) {
    LowerBound(q) <= x <= UpperBound(q)
  }

  /** A comparative claim is never synthetic, never about the baseline, and its intervals are disjoint. */
  lemma ClaimIsSeparated(s: Setting, cs: seq<Candidate>, plan: Plan)
    requires s.protocol.trials > 0 && Plans(s, cs, plan) && plan.claim
    ensures !s.simulation && plan.selected.Just? && Baseline(s, cs).Just? && plan.selected != Baseline(s, cs)
    ensures forall x :: !(Within(Of(s, cs[plan.selected.value]), x) && Within(Of(s, cs[Baseline(s, cs).value]), x))
  {
    hide Qualified, Baseline;
  }

  /** Two best candidates are one. */
  lemma BestIsUnique(s: Setting, cs: seq<Candidate>, b: Candidate, c: Candidate, d: Candidate)
    requires s.protocol.trials > 0 && Best(s, cs, b, c) && Best(s, cs, b, d)
    ensures c == d
  {
    BeforeTotal(KeyOf(s, c), KeyOf(s, d));
  }

  ghost predicate SameCandidates(cs: seq<Candidate>, ds: seq<Candidate>) {
    forall c :: c in cs <==> c in ds
  }

  ghost predicate OneBaseline(s: Setting, cs: seq<Candidate>)
    requires s.protocol.trials > 0
  {
    forall c, d | c in cs && d in cs && Base(s, c) && Base(s, d) :: c == d
  }

  function Chosen(cs: seq<Candidate>, plan: Plan): Maybe<Candidate> {
    if plan.selected.Just? && plan.selected.value < |cs| then Just(cs[plan.selected.value]) else Nothing
  }

  /** With a single one-thread CPU candidate that ran, the order of the candidates does not matter. */
  lemma OrderDoesNotMatter(s: Setting, cs: seq<Candidate>, ds: seq<Candidate>, plan: Plan, other: Plan)
    requires s.protocol.trials > 0 && DistinctIds(cs) && DistinctIds(ds) && SameCandidates(cs, ds) && OneBaseline(s, cs)
    requires Plans(s, cs, plan) && Plans(s, ds, other)
    ensures Chosen(cs, plan) == Chosen(ds, other) && plan.reason == other.reason && plan.claim == other.claim
  {
    hide Qualified, Comparable, Before, UpperBound, LowerBound;
    var p, q := Baseline(s, cs), Baseline(s, ds);
    SameBaseline(s, cs, ds);
    SameBaseline(s, ds, cs);
    if p.Just? {
      var b := cs[p.value];
      assert b == ds[q.value];
      SameEligible(s, cs, ds, b);
      SameEligible(s, ds, cs, b);
      if AnyEligible(s, cs, b) {
        var c, d := cs[plan.selected.value], ds[other.selected.value];
        BestCarries(s, cs, ds, b, c);
        BestIsUnique(s, ds, b, c, d);
        SamePlace(cs, plan.selected.value, p.value);
        SamePlace(ds, other.selected.value, q.value);
      }
    }
  }

  /** With two of them the later one is the baseline, so that the order decides a choice without energy. */
  lemma OrderMattersWithTwoBaselines(s: Setting, a: Candidate, b: Candidate, plan: Plan, other: Plan)
    requires s.protocol.trials > 0 && !s.protocol.requireEnergy && Base(s, a) && Base(s, b)
    requires !Of(s, a).energy && !Of(s, b).energy && Plans(s, [a, b], plan) && Plans(s, [b, a], other)
    ensures Chosen([a, b], plan) == Just(b) && Chosen([b, a], other) == Just(a)
  {
    hide Qualified;
    assert Baseline(s, [a, b]) == Just(1) && Baseline(s, [b, a]) == Just(1);
    assert !AnyEligible(s, [a, b], b) && !AnyEligible(s, [b, a], a);
  }

  lemma SamePlace(cs: seq<Candidate>, i: nat, j: nat)
    requires DistinctIds(cs) && i < |cs| && j < |cs|
    ensures i == j <==> cs[i] == cs[j]
  {
  }

  lemma BestCarries(s: Setting, cs: seq<Candidate>, ds: seq<Candidate>, b: Candidate, c: Candidate)
    requires s.protocol.trials > 0 && SameCandidates(cs, ds) && Best(s, cs, b, c)
    ensures Best(s, ds, b, c)
  {
    hide Qualified, Eligible, Before;
  }

  lemma SameEligible(s: Setting, cs: seq<Candidate>, ds: seq<Candidate>, b: Candidate)
    requires s.protocol.trials > 0 && SameCandidates(cs, ds)
    ensures AnyEligible(s, cs, b) ==> AnyEligible(s, ds, b)
  {
    hide Eligible;
    if AnyEligible(s, cs, b) {
      var i :| 0 <= i < |cs| && Eligible(s, b, cs[i]);
      assert cs[i] in ds;
      var j :| 0 <= j < |ds| && ds[j] == cs[i];
    }
  }

  lemma SameBaseline(s: Setting, cs: seq<Candidate>, ds: seq<Candidate>)
    requires s.protocol.trials > 0 && SameCandidates(cs, ds) && OneBaseline(s, cs)
    ensures Baseline(s, cs).Just? ==> Baseline(s, ds).Just? && ds[Baseline(s, ds).value] == cs[Baseline(s, cs).value]
  {
    hide Base;
    var p := Baseline(s, cs);
    if p.Just? {
      assert cs[p.value] in ds;
    }
  }

  // ---------------------------------------------------------------------------------------------
  // Selection

  /** Qualifies every candidate and finds the baseline; nothing if a name is empty or repeated. */
  method QualifyAll(s: Setting, cs: seq<Candidate>) returns (ok: bool, qs: seq<Qualification>, baseline: Maybe<nat>)
    requires s.protocol.trials > 0
    ensures ok <==> DistinctIds(cs)
    ensures ok ==> baseline == Baseline(s, cs) && |qs| == |cs| && forall i | 0 <= i < |cs| :: qs[i] == Of(s, cs[i])
  {
    hide Qualified, DistinctIds, Baseline, Base;
    var ids: set<string> := {};
    qs, baseline := [], Nothing;
    Nobody(s, cs);
    for i := 0 to |cs|
      invariant DistinctIds(cs[..i])
      invariant ids == Ids(cs[..i])
      invariant baseline == Baseline(s, cs[..i])
      invariant |qs| == i && forall k | 0 <= k < i :: qs[k] == Of(s, cs[k])
    {
      var c := cs[i];
      OneMoreName(cs, i);
      OneMoreBaseline(s, cs, i);
      if c.id == "" || c.id in ids {
        NamesRefused(cs, i + 1);
        return false, [], Nothing;
      }
      ids := ids + {c.id};
      var q := Qualify(s.root, s.protocol, s.simulation, c);
      qs := qs + [q];
      if c.device == "cpu" && c.threads == 1 && q.execution { baseline := Just(i); }
    }
    assert cs[..|cs|] == cs;
    ok := true;
  }

  function Ids(cs: seq<Candidate>): set<string> {
    set c | c in cs :: c.id
  }

  lemma Nobody(s: Setting, cs: seq<Candidate>)
    requires s.protocol.trials > 0
    ensures DistinctIds(cs[..0]) && Ids(cs[..0]) == {} && Baseline(s, cs[..0]) == Nothing
  {
  }

  lemma OneMoreName(cs: seq<Candidate>, i: nat)
    requires i < |cs| && DistinctIds(cs[..i])
    ensures DistinctIds(cs[..i + 1]) <==> cs[i].id != "" && cs[i].id !in Ids(cs[..i])
    ensures Ids(cs[..i + 1]) == Ids(cs[..i]) + {cs[i].id}
  {
    var front, all := cs[..i], cs[..i + 1];
    assert all == front + [cs[i]];
    if cs[i].id in Ids(front) {
      var k :| 0 <= k < |front| && front[k].id == cs[i].id;
      assert all[k].id == all[i].id;
    }
  }

  lemma NamesRefused(cs: seq<Candidate>, i: nat)
    requires i <= |cs| && !DistinctIds(cs[..i])
    ensures !DistinctIds(cs)
  {
  }

  lemma OneMoreBaseline(s: Setting, cs: seq<Candidate>, i: nat)
    requires s.protocol.trials > 0 && i < |cs|
    ensures Baseline(s, cs[..i + 1]) == if Base(s, cs[i]) then Just(i) else Baseline(s, cs[..i])
    ensures Base(s, cs[i]) <==> cs[i].device == "cpu" && cs[i].threads == 1 && Of(s, cs[i]).execution
  {
    hide Qualified;
    assert cs[..i + 1][..i] == cs[..i];
  }

  /** The best of the first `n` candidates, by position. */
  ghost predicate BestOfFirst(s: Setting, cs: seq<Candidate>, b: Candidate, n: nat, selected: Maybe<nat>)
    requires s.protocol.trials > 0 && n <= |cs|
  {
    match selected
    case Nothing => forall j | 0 <= j < n :: !Eligible(s, b, cs[j])
    case Just(k) =>
      && k < n && Eligible(s, b, cs[k])
      && forall j | 0 <= j < n && j != k && Eligible(s, b, cs[j]) :: Before(KeyOf(s, cs[k]), KeyOf(s, cs[j]))
  }

  lemma BestByPosition(s: Setting, cs: seq<Candidate>, b: Candidate, selected: Maybe<nat>)
    requires s.protocol.trials > 0 && BestOfFirst(s, cs, b, |cs|, selected)
    ensures selected.Just? <==> AnyEligible(s, cs, b)
    ensures selected.Just? ==> Best(s, cs, b, cs[selected.value])
  {
    hide Eligible, Before;
    if selected.Just? {
      var c := cs[selected.value];
      forall d | d in cs && Eligible(s, b, d) && d != c ensures Before(KeyOf(s, c), KeyOf(s, d)) {
        var j :| 0 <= j < |cs| && cs[j] == d;
      }
    }
  }

  /** One more candidate: it replaces the choice when it comes before it. */
  lemma Replaced(s: Setting, cs: seq<Candidate>, b: Candidate, n: nat, selected: Maybe<nat>)
    requires s.protocol.trials > 0 && n < |cs| && DistinctIds(cs) && BestOfFirst(s, cs, b, n, selected)
    ensures
      var c := cs[n];
      var next := if Eligible(s, b, c) && (selected.Nothing? || Before(KeyOf(s, c), KeyOf(s, cs[selected.value])))
                  then Just(n) else selected;
      BestOfFirst(s, cs, b, n + 1, next)
  {
    hide Eligible, Before;
    if selected.Just? {
      var k := cs[selected.value];
      assert k.id != cs[n].id;
      BeforeTotal(KeyOf(s, cs[n]), KeyOf(s, k));
      if Before(KeyOf(s, cs[n]), KeyOf(s, k)) {
        forall j | 0 <= j < n && Eligible(s, b, cs[j]) ensures Before(KeyOf(s, cs[n]), KeyOf(s, cs[j])) {
          if j != selected.value {
            BeforeTransitive(KeyOf(s, cs[n]), KeyOf(s, k), KeyOf(s, cs[j]));
          }
        }
      }
    }
  }

  /** Whether a candidate's energy still counts after the comparison with the baseline. */
  predicate Remains(s: Setting, b: Candidate, c: Candidate)
    requires s.protocol.trials > 0
  {
    Of(s, c).energy && (!Allowed(s, c) || Comparable(s, b, c))
  }

  /** The loop over the qualified candidates. */
  method Choose(s: Setting, cs: seq<Candidate>, qs: seq<Qualification>, base: nat) returns (selected: Maybe<nat>, flags: seq<bool>)
    requires s.protocol.trials > 0 && DistinctIds(cs) && base < |cs| && Base(s, cs[base])
    requires |qs| == |cs| && forall i | 0 <= i < |cs| :: qs[i] == Of(s, cs[i])
    ensures BestOfFirst(s, cs, cs[base], |cs|, selected)
    ensures |flags| == |cs| && forall i | 0 <= i < |cs| :: flags[i] <==> Remains(s, cs[base], cs[i])
  {
    hide Qualified, Before, Base, BestOfFirst, Comparable;
    var b := cs[base];
    selected, flags := Nothing, [];
    NoneYet(s, cs, b);
    for i := 0 to |cs|
      invariant BestOfFirst(s, cs, b, i, selected)
      invariant selected.Just? ==> selected.value < |cs|
      invariant |flags| == i && forall k | 0 <= k < i :: flags[k] <==> Remains(s, b, cs[k])
    {
      var c := cs[i];
      Replaced(s, cs, b, i, selected);
      if !qs[i].energy || (c.device != "cpu" && s.protocol.devicePolicy == "cpu_only") {
        flags := flags + [qs[i].energy];
      } else if !Comparable(s, b, c) {
        flags := flags + [false];
      } else {
        flags := flags + [true];
        if !(c.device != "cpu" && qs[i].joules >= qs[base].joules) {
          if selected.Nothing? || Before(KeyOf(s, c), KeyOf(s, cs[selected.value])) { selected := Just(i); }
        }
      }
    }
  }

  lemma NoneYet(s: Setting, cs: seq<Candidate>, b: Candidate)
    requires s.protocol.trials > 0
    ensures BestOfFirst(s, cs, b, 0, Nothing)
  {
  }

  /** The plan of a request, refused when the protocol, the number of candidates or a name is not valid. */
  method Select(s: Setting, cs: seq<Candidate>) returns (r: Result<Plan>)
    ensures r.Ok? <==> ValidProtocol(s.protocol) && 0 < |cs| <= 16 && DistinctIds(cs)
    ensures r.Ok? ==> Plans(s, cs, r.value)
    ensures r.Ok? && Baseline(s, cs).Just? ==>
      && |r.value.comparable| == |cs|
      && forall i | 0 <= i < |cs| :: r.value.comparable[i] <==> Remains(s, cs[Baseline(s, cs).value], cs[i])
  {
    hide Qualified, DistinctIds, Best, BestOfFirst, Remains, Eligible, Before;
    if !ValidProtocol(s.protocol) { return Error("invalid_protocol"); }
    if cs == [] || |cs| > 16 { return Error("invalid_candidate_count"); }
    var ok, qs, base := QualifyAll(s, cs);
    if !ok { return Error("duplicate_candidate_id"); }
    if base.Nothing? {
      return Ok(Plan(Nothing, [], "cpu_baseline_failed", false, 0.0, 0.0, 0.0));
    }
    var selected, flags := Choose(s, cs, qs, base.value);
    BestByPosition(s, cs, cs[base.value], selected);
    Placed(s, cs, cs[base.value], selected);
    if selected.Just? {
      var plan := Report(s, cs, qs, base.value, selected.value, flags);
      return Ok(plan);
    }
    if !s.protocol.requireEnergy {
      return Ok(Plan(base, flags, "cpu_baseline_without_energy_optimization", false, 0.0, 0.0, 0.0));
    }
    return Ok(Plan(Nothing, flags, "required_measured_energy_unavailable", false, 0.0, 0.0, 0.0));
  }

  lemma Placed(s: Setting, cs: seq<Candidate>, b: Candidate, selected: Maybe<nat>)
    requires s.protocol.trials > 0 && BestOfFirst(s, cs, b, |cs|, selected)
    ensures selected.Just? ==> selected.value < |cs|
  {
  }

  /** The report on a choice made by energy. */
  method Report(s: Setting, cs: seq<Candidate>, qs: seq<Qualification>, base: nat, selected: nat, flags: seq<bool>) returns (plan: Plan)
    requires s.protocol.trials > 0 && base < |cs| && selected < |cs|
    requires |qs| == |cs| && qs[base] == Of(s, cs[base]) && qs[selected] == Of(s, cs[selected])
    ensures plan.selected == Just(selected) && plan.comparable == flags
    ensures EnergyReport(s, cs[base], cs[selected], selected == base, plan)
  {
    hide Qualified, UpperBound, LowerBound;
    var b, c := qs[base], qs[selected];
    var reason := if s.simulation then "synthetic_test_minimum_energy" else "minimum_measured_joules_per_functional_unit";
    var reduction := if b.joules > 0.0 then (b.joules - c.joules) / b.joules * 100.0 else 0.0;
    var claim := !s.simulation && selected != base && UpperBound(c) < LowerBound(b);
    plan := Plan(Just(selected), flags, reason, claim, b.joules, c.joules, reduction);
  }

  // ---------------------------------------------------------------------------------------------
  // The order of the candidates

  /** Some candidate comes first as soon as one is eligible. */
  lemma {:induction false} SomeBest(s: Setting, cs: seq<Candidate>, b: Candidate, n: nat) returns (selected: Maybe<nat>)
    requires s.protocol.trials > 0 && n <= |cs| && DistinctIds(cs)
    ensures BestOfFirst(s, cs, b, n, selected)
  {
    hide Eligible, Before, DistinctIds;
    if n == 0 {
      selected := Nothing;
    } else {
      var front := SomeBest(s, cs, b, n - 1);
      Replaced(s, cs, b, n - 1, front);
      var c := cs[n - 1];
      selected := if Eligible(s, b, c) && (front.Nothing? || Before(KeyOf(s, c), KeyOf(s, cs[front.value]))) then Just(n - 1) else front;
    }
  }

  lemma BestExists(s: Setting, cs: seq<Candidate>, b: Candidate)
    requires s.protocol.trials > 0 && DistinctIds(cs) && AnyEligible(s, cs, b)
    ensures exists c :: Best(s, cs, b, c)
  {
    hide Eligible, Before, Best, DistinctIds;
    var selected := SomeBest(s, cs, b, |cs|);
    BestByPosition(s, cs, b, selected);
  }

  /** What is chosen among the candidates when `b` is the baseline. */
  ghost function ChoiceFor(s: Setting, cs: seq<Candidate>, b: Candidate): Maybe<Candidate>
    requires s.protocol.trials > 0 && DistinctIds(cs)
  {
    if AnyEligible(s, cs, b) then
      BestExists(s, cs, b);
      var c :| Best(s, cs, b, c);
      Just(c)
    else if s.protocol.requireEnergy then Nothing
    else Just(b)
  }

  /** A plan for the same candidates in some order. */
  ghost predicate Reordered(s: Setting, cs: seq<Candidate>, ds: seq<Candidate>, plan: Plan)
    requires s.protocol.trials > 0
  {
    DistinctIds(ds) && SameCandidates(cs, ds) && Plans(s, ds, plan)
  }

  /** The order decides which base candidate is the last, and nothing else. */
  lemma OrderDecidesBaseline(s: Setting, cs: seq<Candidate>, ds: seq<Candidate>, plan: Plan)
    requires s.protocol.trials > 0 && DistinctIds(cs) && Reordered(s, cs, ds, plan)
    ensures Baseline(s, ds).Just? <==> exists b :: b in cs && Base(s, b)
    ensures Chosen(ds, plan) == if Baseline(s, ds).Just? then ChoiceFor(s, cs, ds[Baseline(s, ds).value]) else Nothing
  {
    hide Base, Eligible, Before, DistinctIds, Best, EnergyReport;
    var base := Baseline(s, ds);
    assert forall b | b in cs :: b in ds;
    if base.Just? {
      var b := ds[base.value];
      assert b in cs && Base(s, b);
      SameEligible(s, cs, ds, b);
      SameEligible(s, ds, cs, b);
      if AnyEligible(s, ds, b) {
        var c, d := ds[plan.selected.value], ChoiceFor(s, cs, b).value;
        BestCarries(s, cs, ds, b, d);
        BestIsUnique(s, ds, b, c, d);
      }
    }
  }

  function Without(cs: seq<Candidate>, b: Candidate): (r: seq<Candidate>)
    ensures forall c :: c in r <==> c in cs && c != b
  {
    if cs == [] then []
    else
      assert cs == cs[..|cs| - 1] + [cs[|cs| - 1]];
      Without(cs[..|cs| - 1], b) + if cs[|cs| - 1] == b then [] else [cs[|cs| - 1]]
  }

  lemma {:induction false} WithoutDistinct(cs: seq<Candidate>, b: Candidate)
    requires DistinctIds(cs)
    ensures DistinctIds(Without(cs, b))
  {
    if cs != [] {
      var front, last := cs[..|cs| - 1], cs[|cs| - 1];
      WithoutDistinct(front, b);
      forall c | c in Without(front, b) ensures c.id != last.id {
        assert c in front;
      }
    }
  }

  /** Every candidate can be the last. */
  lemma BaseLast(s: Setting, cs: seq<Candidate>, b: Candidate) returns (ds: seq<Candidate>)
    requires s.protocol.trials > 0 && DistinctIds(cs) && b in cs && Base(s, b)
    ensures DistinctIds(ds) && SameCandidates(cs, ds) && Baseline(s, ds).Just? && ds[Baseline(s, ds).value] == b
  {
    hide Base;
    var front := Without(cs, b);
    WithoutDistinct(cs, b);
    ds := front + [b];
    assert ds[|ds| - 1] == b;
    forall c | c in front ensures c.id != b.id {
      assert c in cs && c != b;
    }
    assert DistinctIds(ds);
    forall c ensures c in ds <==> c in cs {}
  }

  /** Every request of distinct names has a plan. */
  lemma SomePlan(s: Setting, cs: seq<Candidate>) returns (plan: Plan)
    requires s.protocol.trials > 0 && DistinctIds(cs)
    ensures Plans(s, cs, plan)
  {
    hide Base, Eligible, Before, DistinctIds, Best, BestOfFirst, Qualified;
    var base := Baseline(s, cs);
    plan := Plan(Nothing, [], "cpu_baseline_failed", false, 0.0, 0.0, 0.0);
    if base.Just? {
      var b := cs[base.value];
      var selected := SomeBest(s, cs, b, |cs|);
      BestByPosition(s, cs, b, selected);
      Placed(s, cs, b, selected);
      if selected.Just? {
        plan := Reported(s, b, cs[selected.value], selected.value, selected == base);
      } else if s.protocol.requireEnergy {
        plan := plan.(reason := "required_measured_energy_unavailable");
      } else {
        plan := plan.(selected := base, reason := "cpu_baseline_without_energy_optimization");
      }
    }
  }

  lemma Reported(s: Setting, b: Candidate, c: Candidate, k: nat, same: bool) returns (plan: Plan)
    requires s.protocol.trials > 0
    ensures plan.selected == Just(k) && EnergyReport(s, b, c, same, plan)
  {
    hide Qualified, UpperBound, LowerBound;
    var base, chosen := Of(s, b), Of(s, c);
    var reason := if s.simulation then "synthetic_test_minimum_energy" else "minimum_measured_joules_per_functional_unit";
    var reduction := if base.joules > 0.0 then (base.joules - chosen.joules) / base.joules * 100.0 else 0.0;
    plan := Plan(Just(k), [], reason, !s.simulation && !same && UpperBound(chosen) < LowerBound(base), base.joules, chosen.joules, reduction);
  }

  /** Two orders of the candidates lead to different choices. */
  ghost predicate OrderMatters(s: Setting, cs: seq<Candidate>)
    requires s.protocol.trials > 0
  {
    exists ds, es, p, q :: Reordered(s, cs, ds, p) && Reordered(s, cs, es, q) && Chosen(ds, p) != Chosen(es, q)
  }

  /** Two base candidates lead to different choices. */
  ghost predicate BaselinesDisagree(s: Setting, cs: seq<Candidate>)
    requires s.protocol.trials > 0 && DistinctIds(cs)
  {
    exists b, d | b in cs && d in cs && Base(s, b) && Base(s, d) :: ChoiceFor(s, cs, b) != ChoiceFor(s, cs, d)
  }

  /** The order matters exactly when two base candidates lead to different choices. */
  lemma OrderMattersExactly(s: Setting, cs: seq<Candidate>)
    requires s.protocol.trials > 0 && DistinctIds(cs)
    ensures OrderMatters(s, cs) <==> BaselinesDisagree(s, cs)
  {
    hide Base, DistinctIds, Plans, ChoiceFor, SameCandidates;
    if OrderMatters(s, cs) {
      var ds, es, p, q :| Reordered(s, cs, ds, p) && Reordered(s, cs, es, q) && Chosen(ds, p) != Chosen(es, q);
      OrderDecidesBaseline(s, cs, ds, p);
      OrderDecidesBaseline(s, cs, es, q);
      InRequest(s, cs, ds, p);
      InRequest(s, cs, es, q);
    }
    if BaselinesDisagree(s, cs) {
      var b, d :| b in cs && d in cs && Base(s, b) && Base(s, d) && ChoiceFor(s, cs, b) != ChoiceFor(s, cs, d);
      var ds := BaseLast(s, cs, b);
      var es := BaseLast(s, cs, d);
      var p := SomePlan(s, ds);
      var q := SomePlan(s, es);
      OrderDecidesBaseline(s, cs, ds, p);
      OrderDecidesBaseline(s, cs, es, q);
    }
  }

  lemma InRequest(s: Setting, cs: seq<Candidate>, ds: seq<Candidate>, plan: Plan)
    requires s.protocol.trials > 0 && Reordered(s, cs, ds, plan)
    ensures Baseline(s, ds).Just? ==> ds[Baseline(s, ds).value] in cs
  {
    hide Base, DistinctIds, Plans;
  }
}
