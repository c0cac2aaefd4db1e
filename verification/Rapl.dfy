/**
  * The powercap sampler. Package energy counters wrap at a range of their own; the sampler polls
  * them and adds up the differences, refusing a sample whose gap could hide a wrap under a declared
  * power bound.
  *
  * Energy is a real quantity of microjoules that a domain accumulates over time, and its counter
  * shows the whole microjoules modulo the range. Times and powers are real numbers here. The main
  * result says exactly how the reported total differs from the energy that flowed between the first
  * and the last read of each domain: it is short by one range for every gap in which the counter
  * advanced by exactly that range. The guard of the sampler admits such gaps because it bounds the
  * energy, which is below the range, and not the whole microjoules, which can reach it.
  */
module Rapl {
  import opened Wrappers

  datatype Result<T> = Ok(value: T) | Err(error: Error)
  datatype Error = MalformedCounter | NonMonotonicSampling | CounterOutOfRange | WrapIntervalUnqualified
                 | DeltaExceedsPowerBound | NotStarted

  datatype Time = Finite(seconds: real) | NotFinite

  /** The counter ranges of the sampled domains, in microjoules, and the power bound in watts. */
  datatype Configuration = Configuration(ranges: seq<int>, maxPower: real)

  /** One pass over the counters: when it began and ended, and what each domain showed. */
  datatype Reading = Malformed | Reading(begin: Time, end: Time, values: seq<int>)

  /** An accepted pass. */
  datatype Sample = Sample(begin: real, end: real, values: seq<int>)
  datatype State = State(total: int, samples: nat, previous: Maybe<Sample>)

  const INITIAL := State(0, 0, Nothing)

  predicate Fits(c: Configuration, r: Reading) {
    r.Reading? ==> |r.values| == |c.ranges|
  }

  predicate InRange(c: Configuration, values: seq<int>) {
    |values| == |c.ranges| && forall i | 0 <= i < |values| :: 0 <= values[i] < c.ranges[i]
  }

  /** The advance of a counter, taking a smaller value for one wrap. */
  function Delta(range: int, was: int, now: int): int {
    if now >= was then now - was else range - was + now
  }

  /** The gap is too short for a domain within the power bound to pass its whole range. */
  predicate Qualified(c: Configuration, dt: real, range: int) {
    dt * c.maxPower < range as real / 1000000.0
  }

  predicate WithinPower(c: Configuration, dt: real, delta: int) {
    delta as real / 1000000.0 <= dt * c.maxPower
  }

  /** What a gap of `dt` seconds says about one domain. */
  function DomainDelta(c: Configuration, dt: real, range: int, was: int, now: int): Result<int> {
    if !Qualified(c, dt, range) then Err(WrapIntervalUnqualified)
    else
      var delta := Delta(range, was, now);
      if delta < 0 || !WithinPower(c, dt, delta) then Err(DeltaExceedsPowerBound) else Ok(delta)
  }

  /** The sum over the first `n` domains, or the first domain's complaint. */
  function Increment(c: Configuration, dt: real, was: seq<int>, now: seq<int>, n: nat): Result<int>
    requires |was| == |now| == |c.ranges| && n <= |now|
  {
    if n == 0 then Ok(0) else
      var before := Increment(c, dt, was, now, n - 1);
      if before.Err? then before else
        var d := DomainDelta(c, dt, c.ranges[n - 1], was[n - 1], now[n - 1]);
        if d.Err? then d else Ok(before.value + d.value)
  }

  predicate StateFits(c: Configuration, s: State) {
    s.previous.Just? ==> |s.previous.value.values| == |c.ranges|
  }

  /** One sample: the next state, or an error that leaves the state alone. */
  function Sampled(c: Configuration, s: State, r: Reading): (n: Result<State>)
    requires Fits(c, r) && StateFits(c, s)
    ensures n.Ok? ==> StateFits(c, n.value)
  {
    if r.Malformed? then Err(MalformedCounter)
    else if !r.begin.Finite? || !r.end.Finite? || r.begin.seconds > r.end.seconds then Err(NonMonotonicSampling)
    else if !InRange(c, r.values) then Err(CounterOutOfRange)
    else
      var pass := Sample(r.begin.seconds, r.end.seconds, r.values);
      if s.previous.Nothing? then Ok(State(s.total, 1, Just(pass)))
      else
        var last := s.previous.value;
        var dt := pass.end - last.begin;
        if dt <= 0.0 || pass.begin < last.end then Err(NonMonotonicSampling)
        else
          var step := Increment(c, dt, last.values, pass.values, |c.ranges|);
          if step.Err? then Err(step.error) else Ok(State(s.total + step.value, s.samples + 1, Just(pass)))
  }

  /** A run of samples from a new sampler; the first rejected one ends it. */
  function Run(c: Configuration, rs: seq<Reading>): (n: Result<State>)
    requires forall i | 0 <= i < |rs| :: Fits(c, rs[i])
    ensures n.Ok? ==> StateFits(c, n.value)
  {
    if rs == [] then Ok(INITIAL) else
      var before := Run(c, rs[..|rs| - 1]);
      if before.Err? then before else Sampled(c, before.value, rs[|rs| - 1])
  }

  // ---------------------------------------------------------------------------------------------
  // Energy

  /** The energy a domain has accumulated by a time, in microjoules. */
  type Energy = (nat, real) -> real

  /** Energy never falls and flows at no more than the declared power. */
  ghost predicate Physical(c: Configuration, energy: Energy) {
    forall i: nat, t, u | t <= u ::
      0.0 <= energy(i, u) - energy(i, t) <= c.maxPower * 1000000.0 * (u - t)
  }

  function Ticks(energy: Energy, i: nat, t: real): int {
    energy(i, t).Floor
  }

  function Counter(ticks: int, range: int): int
    requires range > 0
  {
    ticks % range
  }

  /** The reading shows, for each domain, its whole microjoules at some time within the pass. */
  predicate Shows(c: Configuration, energy: Energy, r: Reading, at: seq<real>) {
    && Fits(c, r)
    && r.Reading? && r.begin.Finite? && r.end.Finite?
    && |at| == |c.ranges|
    && forall i | 0 <= i < |at| ::
         && r.begin.seconds <= at[i] <= r.end.seconds
         && c.ranges[i] > 0
         && r.values[i] == Counter(Ticks(energy, i, at[i]), c.ranges[i])
  }

  predicate AllShow(c: Configuration, energy: Energy, rs: seq<Reading>, ats: seq<seq<real>>) {
    |rs| == |ats| && forall j | 0 <= j < |rs| :: Shows(c, energy, rs[j], ats[j])
  }

  /** The counter of the domain advanced by exactly its range between the two times. */
  predicate FullTurn(c: Configuration, energy: Energy, i: nat, t: real, u: real)
    requires i < |c.ranges|
  {
    Ticks(energy, i, u) - Ticks(energy, i, t) == c.ranges[i]
  }

  /** What the first `n` domains advanced between two passes. */
  function Flowed(energy: Energy, from: seq<real>, to: seq<real>, n: nat): int
    requires n <= |from| && n <= |to|
  {
    if n == 0 then 0
    else Flowed(energy, from, to, n - 1) + Ticks(energy, n - 1, to[n - 1]) - Ticks(energy, n - 1, from[n - 1])
  }

  /** What one gap hides: a range for each of the first `n` domains that made a full turn. */
  function Hidden(c: Configuration, energy: Energy, from: seq<real>, to: seq<real>, n: nat): int
    requires n <= |from| && n <= |to| && n <= |c.ranges|
  {
    if n == 0 then 0
    else Hidden(c, energy, from, to, n - 1) +
         if FullTurn(c, energy, n - 1, from[n - 1], to[n - 1]) then c.ranges[n - 1] else 0
  }

  predicate Sized(c: Configuration, ats: seq<seq<real>>) {
    forall j | 0 <= j < |ats| :: |ats[j]| == |c.ranges|
  }

  /** What all gaps of a run hide. */
  function HiddenInRun(c: Configuration, energy: Energy, ats: seq<seq<real>>): int
    requires Sized(c, ats)
  {
    if |ats| < 2 then 0
    else HiddenInRun(c, energy, ats[..|ats| - 1]) + Hidden(c, energy, ats[|ats| - 2], ats[|ats| - 1], |c.ranges|)
  }

  // ---------------------------------------------------------------------------------------------
  // One gap

  lemma ModularAdvance(a: int, b: int, range: int)
    requires range > 0 && 0 <= b - a <= range
    ensures Delta(range, a % range, b % range) == if b - a == range then 0 else b - a
  {
    var q, p := a / range, b / range;
    assert a == q * range + a % range && b == p * range + b % range;
    assert b - a == (p - q) * range + (b % range - a % range) by {
      assert (p - q) * range == p * range - q * range;
    }
    if p - q >= 2 {
      Multiply(2, p - q, range);
    }
    if p - q <= -1 {
      Multiply(p - q, -1, range);
    }
    assert p - q == 0 || p - q == 1;
  }

  lemma Multiply(a: int, b: int, range: int)
    requires a <= b && range > 0
    ensures a * range <= b * range
  {
    assert b * range - a * range == (b - a) * range;
  }

  lemma FloorAdvance(a: real, b: real, range: int)
    requires 0.0 <= b - a < range as real
    ensures 0 <= b.Floor - a.Floor <= range
  {
    assert (b.Floor as real) <= b && a < a.Floor as real + 1.0;
    assert (b.Floor - a.Floor) as real < range as real + 1.0;
  }

  /** Within a gap the guard admits, the computed advance is the true one but for a full turn. */
  lemma GapIsRead(c: Configuration, energy: Energy, i: nat, t: real, u: real, dt: real)
    requires Physical(c, energy) && i < |c.ranges| && c.ranges[i] > 0
    requires t <= u && u - t <= dt && Qualified(c, dt, c.ranges[i])
    ensures Delta(c.ranges[i], Counter(Ticks(energy, i, t), c.ranges[i]), Counter(Ticks(energy, i, u), c.ranges[i])) ==
            if FullTurn(c, energy, i, t, u) then 0 else Ticks(energy, i, u) - Ticks(energy, i, t)
  {
    var range := c.ranges[i];
    PowerBound(c.maxPower, u - t, dt, energy(i, u) - energy(i, t), range as real);
    FloorAdvance(energy(i, t), energy(i, u), range);
    ModularAdvance(Ticks(energy, i, t), Ticks(energy, i, u), range);
  }

  lemma PowerBound(power: real, span: real, dt: real, flow: real, range: real)
    requires 0.0 <= span <= dt && 0.0 <= flow <= power * 1000000.0 * span
    requires dt * power < range / 1000000.0 && range > 0.0
    ensures flow < range
  {
    if power >= 0.0 {
      assert power * span <= power * dt by { assert power * (dt - span) >= 0.0; }
      assert power * 1000000.0 * span == 1000000.0 * (power * span);
      assert power * dt == dt * power;
    } else {
      assert power * span <= 0.0;
      assert power * 1000000.0 * span == 1000000.0 * (power * span);
    }
  }

  /** The two passes can be consecutive accepted ones `dt` apart. */
  predicate Consecutive(c: Configuration, energy: Energy, was: Reading, from: seq<real>, now: Reading, to: seq<real>, dt: real) {
    && Shows(c, energy, was, from) && Shows(c, energy, now, to)
    && was.end.seconds <= now.begin.seconds && dt == now.end.seconds - was.begin.seconds
  }

  lemma {:induction false} GapsAreRead(c: Configuration, energy: Energy, was: Reading, from: seq<real>,
                                       now: Reading, to: seq<real>, dt: real, n: nat)
    requires Physical(c, energy) && Consecutive(c, energy, was, from, now, to, dt) && n <= |c.ranges|
    requires Increment(c, dt, was.values, now.values, n).Ok?
    ensures Increment(c, dt, was.values, now.values, n).value == Flowed(energy, from, to, n) - Hidden(c, energy, from, to, n)
  {
    hide Qualified, WithinPower, Counter, Ticks, Physical, Delta;
    if n > 0 {
      GapsAreRead(c, energy, was, from, now, to, dt, n - 1);
      GapIsRead(c, energy, n - 1, from[n - 1], to[n - 1], dt);
    }
  }

  lemma {:induction false} FlowAdds(energy: Energy, a: seq<real>, b: seq<real>, d: seq<real>, n: nat)
    requires n <= |a| && n <= |b| && n <= |d|
    ensures Flowed(energy, a, b, n) + Flowed(energy, b, d, n) == Flowed(energy, a, d, n)
  {
    if n > 0 {
      FlowAdds(energy, a, b, d, n - 1);
    }
  }

  // ---------------------------------------------------------------------------------------------
  // Runs

  predicate AllFit(c: Configuration, rs: seq<Reading>) {
    forall i | 0 <= i < |rs| :: Fits(c, rs[i])
  }

  /** After an accepted run the sampler holds its last pass, and has counted every pass. */
  lemma {:induction false} HoldsLastPass(c: Configuration, rs: seq<Reading>)
    requires AllFit(c, rs) && rs != [] && Run(c, rs).Ok?
    ensures
      var r, s := rs[|rs| - 1], Run(c, rs).value;
      && r.Reading? && r.begin.Finite? && r.end.Finite?
      && s.previous == Just(Sample(r.begin.seconds, r.end.seconds, r.values))
      && s.samples == |rs|
  {
    if |rs| > 1 {
      HoldsLastPass(c, rs[..|rs| - 1]);
    }
  }

  /** The total is the energy that flowed, less one range for every full turn within a gap. */
  lemma {:induction false} Reconstruction(c: Configuration, energy: Energy, rs: seq<Reading>, ats: seq<seq<real>>)
    requires Physical(c, energy) && AllShow(c, energy, rs, ats) && rs != [] && Run(c, rs).Ok?
    ensures Run(c, rs).value.total + HiddenInRun(c, energy, ats) ==
            Flowed(energy, ats[0], ats[|ats| - 1], |c.ranges|)
  {
    hide Qualified, WithinPower, Counter, Ticks, Physical, Sampled, Hidden, Flowed;
    var n := |rs|;
    if n == 1 {
      FirstPass(c, rs[0]);
      NothingFlows(energy, ats[0], |c.ranges|);
      assert Run(c, rs[..0]) == Ok(INITIAL);
    } else {
      Reconstruction(c, energy, rs[..n - 1], ats[..n - 1]);
      HoldsLastPass(c, rs[..n - 1]);
      var was, now := rs[n - 2], rs[n - 1];
      assert rs[..n - 1][n - 2] == was;
      assert Shows(c, energy, was, ats[n - 2]) && Shows(c, energy, now, ats[n - 1]);
      LastGap(c, energy, Run(c, rs[..n - 1]).value, was, ats[n - 2], now, ats[n - 1]);
      FlowAdds(energy, ats[0], ats[n - 2], ats[n - 1], |c.ranges|);
    }
  }

  lemma FirstPass(c: Configuration, r: Reading)
    requires Fits(c, r)
    ensures Sampled(c, INITIAL, r).Ok? ==> Sampled(c, INITIAL, r).value.total == 0
  {
  }

  lemma LastGap(c: Configuration, energy: Energy, s: State, was: Reading, from: seq<real>, now: Reading, to: seq<real>)
    requires Physical(c, energy) && Shows(c, energy, was, from) && Shows(c, energy, now, to)
    requires StateFits(c, s) && s.previous == Just(Sample(was.begin.seconds, was.end.seconds, was.values))
    requires Sampled(c, s, now).Ok?
    ensures Sampled(c, s, now).value.total ==
            s.total + Flowed(energy, from, to, |c.ranges|) - Hidden(c, energy, from, to, |c.ranges|)
  {
    hide Qualified, WithinPower, Counter, Ticks, Physical, Increment, Flowed, Hidden;
    var dt := now.end.seconds - was.begin.seconds;
    assert Consecutive(c, energy, was, from, now, to, dt);
    GapsAreRead(c, energy, was, from, now, to, dt, |c.ranges|);
  }

  lemma {:induction false} NothingFlows(energy: Energy, at: seq<real>, n: nat)
    requires n <= |at|
    ensures Flowed(energy, at, at, n) == 0
  {
    if n > 0 {
      NothingFlows(energy, at, n - 1);
    }
  }

  /** Nothing of the first `n` domains makes a full turn between the two passes. */
  predicate GapWithoutTurn(c: Configuration, energy: Energy, from: seq<real>, to: seq<real>, n: nat)
    requires n <= |from| && n <= |to| && n <= |c.ranges|
  {
    forall i | 0 <= i < n :: !FullTurn(c, energy, i, from[i], to[i])
  }

  predicate TurnFree(c: Configuration, energy: Energy, ats: seq<seq<real>>, j: nat)
    requires Sized(c, ats) && j + 1 < |ats|
  {
    GapWithoutTurn(c, energy, ats[j], ats[j + 1], |c.ranges|)
  }

  /** No domain makes a full turn within a gap. */
  predicate NoFullTurn(c: Configuration, energy: Energy, ats: seq<seq<real>>)
    requires Sized(c, ats)
  {
    forall j | 0 <= j < |ats| - 1 :: TurnFree(c, energy, ats, j)
  }

  lemma {:induction false} HiddenIsTurns(c: Configuration, energy: Energy, from: seq<real>, to: seq<real>, n: nat)
    requires n <= |from| && n <= |to| && n <= |c.ranges| && forall i | 0 <= i < |c.ranges| :: c.ranges[i] > 0
    ensures Hidden(c, energy, from, to, n) >= 0
    ensures Hidden(c, energy, from, to, n) == 0 <==> GapWithoutTurn(c, energy, from, to, n)
  {
    if n > 0 {
      HiddenIsTurns(c, energy, from, to, n - 1);
    }
  }

  lemma TurnsSplit(c: Configuration, energy: Energy, ats: seq<seq<real>>)
    requires Sized(c, ats) && |ats| >= 2
    ensures NoFullTurn(c, energy, ats) <==>
            NoFullTurn(c, energy, ats[..|ats| - 1]) && TurnFree(c, energy, ats, |ats| - 2)
  {
    var front := ats[..|ats| - 1];
    forall j | 0 <= j < |front| - 1 ensures TurnFree(c, energy, ats, j) == TurnFree(c, energy, front, j) {
    }
    if NoFullTurn(c, energy, front) && TurnFree(c, energy, ats, |ats| - 2) {
      forall j | 0 <= j < |ats| - 1 ensures TurnFree(c, energy, ats, j) {
        assert j < |front| - 1 ==> TurnFree(c, energy, front, j);
      }
    }
    if NoFullTurn(c, energy, ats) {
      forall j | 0 <= j < |front| - 1 ensures TurnFree(c, energy, front, j) {
        assert TurnFree(c, energy, ats, j);
      }
    }
  }

  lemma {:induction false} HiddenInRunIsTurns(c: Configuration, energy: Energy, ats: seq<seq<real>>)
    requires Sized(c, ats) && forall i | 0 <= i < |c.ranges| :: c.ranges[i] > 0
    ensures HiddenInRun(c, energy, ats) >= 0
    ensures HiddenInRun(c, energy, ats) == 0 <==> NoFullTurn(c, energy, ats)
  {
    var n := |ats|;
    if n >= 2 {
      HiddenInRunIsTurns(c, energy, ats[..n - 1]);
      HiddenIsTurns(c, energy, ats[n - 2], ats[n - 1], |c.ranges|);
      TurnsSplit(c, energy, ats);
    }
  }

  /** A run reports exactly the energy that flowed if and only if no gap holds a full turn; it never reports more. */
  lemma ExactUnlessFullTurn(c: Configuration, energy: Energy, rs: seq<Reading>, ats: seq<seq<real>>)
    requires Physical(c, energy) && AllShow(c, energy, rs, ats) && rs != [] && Run(c, rs).Ok?
    ensures Run(c, rs).value.total <= Flowed(energy, ats[0], ats[|ats| - 1], |c.ranges|)
    ensures Run(c, rs).value.total == Flowed(energy, ats[0], ats[|ats| - 1], |c.ranges|) <==> NoFullTurn(c, energy, ats)
  {
    Reconstruction(c, energy, rs, ats);
    assert Shows(c, energy, rs[0], ats[0]);
    HiddenInRunIsTurns(c, energy, ats);
  }

  /** The gap is too short for a domain within the power bound to come within a microjoule of its range. */
  predicate Generous(c: Configuration, dt: real, range: int) {
    dt * c.maxPower <= (range - 1) as real / 1000000.0
  }

  /** What two passes show about a domain: it had no time for a full turn, or its counter moved. */
  predicate Certain(c: Configuration, was: Reading, now: Reading, i: nat) {
    && was.Reading? && was.begin.Finite? && now.Reading? && now.end.Finite?
    && i < |c.ranges| && i < |was.values| && i < |now.values|
    && (Generous(c, now.end.seconds - was.begin.seconds, c.ranges[i]) || was.values[i] != now.values[i])
  }

  predicate CertainPair(c: Configuration, was: Reading, now: Reading) {
    forall i | 0 <= i < |c.ranges| :: Certain(c, was, now, i)
  }

  predicate CertainAfter(c: Configuration, rs: seq<Reading>, j: nat)
    requires j + 1 < |rs|
  {
    CertainPair(c, rs[j], rs[j + 1])
  }

  /** So it is for every domain in every gap: what the readings alone can show. */
  predicate AllCertain(c: Configuration, rs: seq<Reading>) {
    forall j | 0 <= j < |rs| - 1 :: CertainAfter(c, rs, j)
  }

  lemma {:induction false} OrderedPasses(c: Configuration, rs: seq<Reading>, j: nat)
    requires AllFit(c, rs) && 0 < j < |rs| && Run(c, rs).Ok?
    ensures rs[j - 1].Reading? && rs[j].Reading? && rs[j - 1].end.Finite? && rs[j].begin.Finite?
    ensures rs[j - 1].end.seconds <= rs[j].begin.seconds
  {
    if j == |rs| - 1 {
      HoldsLastPass(c, rs[..j]);
      assert rs[..j][j - 1] == rs[j - 1];
    } else {
      OrderedPasses(c, rs[..|rs| - 1], j);
    }
  }

  lemma SpareGapHasNoTurn(c: Configuration, energy: Energy, i: nat, t: real, u: real, dt: real)
    requires Physical(c, energy) && i < |c.ranges| && c.ranges[i] > 0 && t <= u && u - t <= dt
    requires Generous(c, dt, c.ranges[i])
    ensures !FullTurn(c, energy, i, t, u)
  {
    var a, b := energy(i, t), energy(i, u);
    SpareBound(c.maxPower, u - t, dt, b - a, (c.ranges[i] - 1) as real);
    assert (b.Floor as real) <= b && a < a.Floor as real + 1.0;
  }

  lemma SpareBound(power: real, span: real, dt: real, flow: real, room: real)
    requires 0.0 <= span <= dt && 0.0 <= flow <= power * 1000000.0 * span
    requires dt * power <= room / 1000000.0 && room >= 0.0
    ensures flow <= room
  {
    assert power * 1000000.0 * span == 1000000.0 * (power * span);
    if power >= 0.0 {
      assert power * span <= power * dt by { assert power * (dt - span) >= 0.0; }
      assert power * dt == dt * power;
    } else {
      assert power * span <= 0.0;
    }
  }

  lemma TurnShowsNothing(a: int, b: int, range: int)
    requires range > 0 && b - a == range
    ensures Counter(a, range) == Counter(b, range)
  {
    ModularAdvance(a, b, range);
  }

  lemma CertainGapHasNoTurn(c: Configuration, energy: Energy, was: Reading, from: seq<real>, now: Reading, to: seq<real>, i: nat)
    requires Physical(c, energy) && Shows(c, energy, was, from) && Shows(c, energy, now, to)
    requires was.end.seconds <= now.begin.seconds && Certain(c, was, now, i)
    ensures !FullTurn(c, energy, i, from[i], to[i])
  {
    hide Generous, Counter, Ticks, Physical;
    if Generous(c, now.end.seconds - was.begin.seconds, c.ranges[i]) {
      SpareGapHasNoTurn(c, energy, i, from[i], to[i], now.end.seconds - was.begin.seconds);
    } else if FullTurn(c, energy, i, from[i], to[i]) {
      TurnShowsNothing(Ticks(energy, i, from[i]), Ticks(energy, i, to[i]), c.ranges[i]);
    }
  }

  /** When every gap is certain for every domain the reconstruction is exact, whatever the domains did. */
  lemma CertainRunsAreExact(c: Configuration, energy: Energy, rs: seq<Reading>, ats: seq<seq<real>>)
    requires Physical(c, energy) && AllShow(c, energy, rs, ats) && rs != [] && Run(c, rs).Ok? && AllCertain(c, rs)
    ensures Run(c, rs).value.total == Flowed(energy, ats[0], ats[|ats| - 1], |c.ranges|)
  {
    hide Certain, Qualified, WithinPower, Counter, Ticks, Physical, FullTurn, Run, Flowed;
    forall j | 0 <= j < |ats| - 1 ensures TurnFree(c, energy, ats, j) {
      assert Shows(c, energy, rs[j], ats[j]) && Shows(c, energy, rs[j + 1], ats[j + 1]) && CertainAfter(c, rs, j);
      OrderedPasses(c, rs, j + 1);
      forall i | 0 <= i < |c.ranges| ensures !FullTurn(c, energy, i, ats[j][i], ats[j + 1][i]) {
        CertainGapHasNoTurn(c, energy, rs[j], ats[j], rs[j + 1], ats[j + 1], i);
      }
    }
    ExactUnlessFullTurn(c, energy, rs, ats);
  }

  /** Every read falls on a whole microjoule, so that a counter is its energy modulo its range. */
  predicate Whole(c: Configuration, energy: Energy, at: seq<real>) {
    |at| == |c.ranges| && forall i | 0 <= i < |at| :: energy(i, at[i]) == Ticks(energy, i, at[i]) as real
  }

  lemma {:induction false} QualifiedDomains(c: Configuration, dt: real, was: seq<int>, now: seq<int>, n: nat, i: nat)
    requires |was| == |now| == |c.ranges| && i < n <= |now| && Increment(c, dt, was, now, n).Ok?
    ensures Qualified(c, dt, c.ranges[i])
  {
    hide Qualified, WithinPower;
    if i < n - 1 {
      QualifiedDomains(c, dt, was, now, n - 1, i);
    }
  }

  lemma {:induction false} QualifiedGap(c: Configuration, rs: seq<Reading>, j: nat, i: nat)
    requires AllFit(c, rs) && 0 < j < |rs| && i < |c.ranges| && Run(c, rs).Ok?
    ensures rs[j - 1].Reading? && rs[j - 1].begin.Finite? && rs[j].Reading? && rs[j].end.Finite?
    ensures Qualified(c, rs[j].end.seconds - rs[j - 1].begin.seconds, c.ranges[i])
  {
    hide Qualified, WithinPower, Increment;
    if j == |rs| - 1 {
      HoldsLastPass(c, rs[..j]);
      assert rs[..j][j - 1] == rs[j - 1];
      QualifiedDomains(c, rs[j].end.seconds - rs[j - 1].begin.seconds, rs[j - 1].values, rs[j].values, |c.ranges|, i);
    } else {
      QualifiedGap(c, rs[..|rs| - 1], j, i);
    }
  }

  lemma WholeGapHasNoTurn(c: Configuration, energy: Energy, i: nat, t: real, u: real, dt: real)
    requires Physical(c, energy) && i < |c.ranges| && c.ranges[i] > 0 && t <= u && u - t <= dt
    requires Qualified(c, dt, c.ranges[i])
    requires energy(i, t) == Ticks(energy, i, t) as real && energy(i, u) == Ticks(energy, i, u) as real
    ensures !FullTurn(c, energy, i, t, u)
  {
    PowerBound(c.maxPower, u - t, dt, energy(i, u) - energy(i, t), c.ranges[i] as real);
  }

  /** Where reads fall on whole microjoules every accepted run is exact. */
  lemma WholeRunsAreExact(c: Configuration, energy: Energy, rs: seq<Reading>, ats: seq<seq<real>>)
    requires Physical(c, energy) && AllShow(c, energy, rs, ats) && rs != [] && Run(c, rs).Ok?
    requires forall j | 0 <= j < |ats| :: Whole(c, energy, ats[j])
    ensures Run(c, rs).value.total == Flowed(energy, ats[0], ats[|ats| - 1], |c.ranges|)
  {
    hide Qualified, WithinPower, Counter, Ticks, Physical, FullTurn, Run, Flowed;
    forall j | 0 <= j < |ats| - 1 ensures TurnFree(c, energy, ats, j) {
      assert Shows(c, energy, rs[j], ats[j]) && Shows(c, energy, rs[j + 1], ats[j + 1]);
      assert Whole(c, energy, ats[j]) && Whole(c, energy, ats[j + 1]);
      OrderedPasses(c, rs, j + 1);
      forall i | 0 <= i < |c.ranges| ensures !FullTurn(c, energy, i, ats[j][i], ats[j + 1][i]) {
        QualifiedGap(c, rs, j + 1, i);
        WholeGapHasNoTurn(c, energy, i, ats[j][i], ats[j + 1][i], rs[j + 1].end.seconds - rs[j].begin.seconds);
      }
    }
    ExactUnlessFullTurn(c, energy, rs, ats);
  }

  // ---------------------------------------------------------------------------------------------
  // The guard admits gaps that are not certain

  /** Microjoules per second at the full declared power. */
  function Rate(c: Configuration): real {
    c.maxPower * 1000000.0
  }

  /** Domains that advance steadily by what the counters show, but one of them by its whole range and at full power. */
  function Turning(c: Configuration, was: seq<int>, now: seq<int>, i: nat, begin: real, dt: real): Energy
    requires |was| == |now| == |c.ranges| && i < |was| && dt > 0.0
  {
    (j: nat, t: real) =>
      if j >= |was| then 0.0
      else if j == i then (was[i] + c.ranges[i]) as real + Rate(c) * (t - begin - dt)
      else was[j] as real + Delta(c.ranges[j], was[j], now[j]) as real / dt * (t - begin)
  }

  lemma SteadyIsPhysical(slope: real, rate: real, t: real, u: real)
    requires 0.0 <= slope <= rate && t <= u
    ensures 0.0 <= slope * u - slope * t <= rate * (u - t)
  {
    assert slope * u - slope * t == slope * (u - t);
    assert slope * (u - t) >= 0.0;
    assert (rate - slope) * (u - t) >= 0.0;
    assert (rate - slope) * (u - t) == rate * (u - t) - slope * (u - t);
  }

  lemma Quotient(d: real, dt: real, rate: real)
    requires dt > 0.0 && d >= 0.0 && d <= rate * dt
    ensures 0.0 <= d / dt <= rate
  {
    assert d / dt * dt == d;
    assert rate * dt - d / dt * dt == (rate - d / dt) * dt;
  }

  lemma SlopeWithinRate(c: Configuration, dt: real, delta: int)
    requires dt > 0.0 && delta >= 0 && WithinPower(c, dt, delta)
    ensures 0.0 <= delta as real / dt <= Rate(c)
  {
    var d := delta as real;
    assert d <= Rate(c) * dt by {
      assert d == 1000000.0 * (d / 1000000.0);
      assert Rate(c) * dt == 1000000.0 * (dt * c.maxPower);
    }
    Quotient(d, dt, Rate(c));
  }

  /** The two passes are accepted one after the other. */
  predicate Accepted(c: Configuration, was: Reading, now: Reading) {
    && Fits(c, was) && Fits(c, now) && Run(c, [was, now]).Ok?
  }

  lemma AcceptedPair(c: Configuration, was: Reading, now: Reading)
    requires Accepted(c, was, now)
    ensures was.Reading? && was.begin.Finite? && was.end.Finite? && now.Reading? && now.begin.Finite? && now.end.Finite?
    ensures InRange(c, was.values) && InRange(c, now.values)
    ensures was.begin.seconds <= was.end.seconds <= now.begin.seconds <= now.end.seconds
    ensures var dt := now.end.seconds - was.begin.seconds;
            dt > 0.0 && Increment(c, dt, was.values, now.values, |c.ranges|).Ok?
  {
    var rs := [was, now];
    assert rs[..1] == [was] && [was][..0] == [];
    assert Run(c, [was]) == Sampled(c, INITIAL, was);
    HoldsLastPass(c, [was]);
  }

  lemma {:induction false} AcceptedDomains(c: Configuration, dt: real, was: seq<int>, now: seq<int>, n: nat, j: nat)
    requires |was| == |now| == |c.ranges| && j < n <= |now| && Increment(c, dt, was, now, n).Ok?
    ensures Qualified(c, dt, c.ranges[j]) && Delta(c.ranges[j], was[j], now[j]) >= 0
    ensures WithinPower(c, dt, Delta(c.ranges[j], was[j], now[j]))
  {
    hide Qualified, WithinPower, Delta;
    if j < n - 1 {
      AcceptedDomains(c, dt, was, now, n - 1, j);
    }
  }

  lemma TurningIsPhysical(c: Configuration, was: seq<int>, now: seq<int>, i: nat, begin: real, dt: real)
    requires |was| == |now| == |c.ranges| && i < |was| && dt > 0.0 && Rate(c) >= 0.0
    requires forall j | 0 <= j < |was| :: Delta(c.ranges[j], was[j], now[j]) >= 0 && WithinPower(c, dt, Delta(c.ranges[j], was[j], now[j]))
    ensures Physical(c, Turning(c, was, now, i, begin, dt))
  {
    hide WithinPower, Delta;
    var energy := Turning(c, was, now, i, begin, dt);
    forall j: nat, t, u | t <= u ensures 0.0 <= energy(j, u) - energy(j, t) <= c.maxPower * 1000000.0 * (u - t) {
      assert c.maxPower * 1000000.0 == Rate(c);
      if j >= |was| {
        SteadyIsPhysical(0.0, Rate(c), t, u);
      } else if j == i {
        SteadyIsPhysical(Rate(c), Rate(c), t - begin - dt, u - begin - dt);
      } else {
        SlopeWithinRate(c, dt, Delta(c.ranges[j], was[j], now[j]));
        SteadyIsPhysical(Delta(c.ranges[j], was[j], now[j]) as real / dt, Rate(c), t - begin, u - begin);
      }
    }
  }

  lemma CounterOfAdvance(range: int, was: int, now: int)
    requires 0 <= was < range && 0 <= now < range
    ensures Counter(was, range) == was && Counter(was + Delta(range, was, now), range) == now
    ensures Counter(was + range, range) == was
  {
    Wraps(was, range);
    Wraps(now, range);
  }

  lemma Wraps(n: int, range: int)
    requires 0 <= n < range
    ensures n % range == n && (n + range) % range == n
  {
    ModularAdvance(n, n + range, range);
  }

  /** A domain that advances steadily shows what was read, at the first moment and at the last. */
  lemma SteadyShows(c: Configuration, was: seq<int>, now: seq<int>, i: nat, begin: real, dt: real, j: nat)
    requires |was| == |now| == |c.ranges| && i < |was| && dt > 0.0 && j < |was| && j != i
    requires 0 <= was[j] < c.ranges[j] && 0 <= now[j] < c.ranges[j]
    ensures var energy := Turning(c, was, now, i, begin, dt);
            Counter(Ticks(energy, j, begin), c.ranges[j]) == was[j] && Counter(Ticks(energy, j, begin + dt), c.ranges[j]) == now[j]
  {
    var energy, d := Turning(c, was, now, i, begin, dt), Delta(c.ranges[j], was[j], now[j]);
    assert energy(j, begin) == was[j] as real;
    assert d as real / dt * dt == d as real;
    assert energy(j, begin + dt) == (was[j] + d) as real;
    CounterOfAdvance(c.ranges[j], was[j], now[j]);
  }

  lemma Sign(rate: real, dt: real)
    requires dt > 0.0
    ensures rate * dt >= 0.0 ==> rate >= 0.0
  {
    assert rate < 0.0 ==> rate * dt < 0.0;
  }

  lemma TurningShows(c: Configuration, was: seq<int>, now: seq<int>, i: nat, begin: real, dt: real)
    requires |was| == |now| == |c.ranges| && i < |was| && dt > 0.0 && 0 <= was[i] < c.ranges[i] && was[i] == now[i]
    requires Qualified(c, dt, c.ranges[i]) && !Generous(c, dt, c.ranges[i])
    ensures var energy := Turning(c, was, now, i, begin, dt);
            && Ticks(energy, i, begin) == was[i] && Ticks(energy, i, begin + dt) == was[i] + c.ranges[i]
            && Counter(Ticks(energy, i, begin), c.ranges[i]) == was[i] && Counter(Ticks(energy, i, begin + dt), c.ranges[i]) == now[i]
    ensures Rate(c) >= 0.0
  {
    var energy, range := Turning(c, was, now, i, begin, dt), c.ranges[i];
    var full := Rate(c) * dt;
    assert full == 1000000.0 * (dt * c.maxPower);
    assert (range - 1) as real < full < range as real;
    assert energy(i, begin + dt) == (was[i] + range) as real;
    assert energy(i, begin) == (was[i] + range) as real - full by {
      assert Rate(c) * (begin - begin - dt) == -(Rate(c) * dt);
    }
    CounterOfAdvance(range, was[i], now[i]);
    Sign(Rate(c), dt);
  }

  /** Where a pair of accepted passes is not certain, some physical domains show it and flow a whole range more than reported. */
  lemma UncertainPairHidesARange(c: Configuration, was: Reading, now: Reading, i: nat) returns (energy: Energy, ats: seq<seq<real>>)
    requires Accepted(c, was, now) && i < |c.ranges| && !Certain(c, was, now, i)
    ensures Physical(c, energy) && AllShow(c, energy, [was, now], ats)
    ensures Run(c, [was, now]).value.total < Flowed(energy, ats[0], ats[1], |c.ranges|)
  {
    hide Run, Increment, Qualified, WithinPower, Generous, Counter, Turning, Ticks, Flowed, Rate;
    AcceptedPair(c, was, now);
    var begin, dt := was.begin.seconds, now.end.seconds - was.begin.seconds;
    var n := |c.ranges|;
    forall j | 0 <= j < n
      ensures Qualified(c, dt, c.ranges[j]) && Delta(c.ranges[j], was.values[j], now.values[j]) >= 0
      ensures WithinPower(c, dt, Delta(c.ranges[j], was.values[j], now.values[j]))
    {
      AcceptedDomains(c, dt, was.values, now.values, n, j);
    }
    energy := Turning(c, was.values, now.values, i, begin, dt);
    ats := [seq(n, _ => begin), seq(n, _ => begin + dt)];
    TurningShows(c, was.values, now.values, i, begin, dt);
    TurningIsPhysical(c, was.values, now.values, i, begin, dt);
    forall j | 0 <= j < n
      ensures Counter(Ticks(energy, j, begin), c.ranges[j]) == was.values[j]
      ensures Counter(Ticks(energy, j, begin + dt), c.ranges[j]) == now.values[j]
    {
      if j != i {
        SteadyShows(c, was.values, now.values, i, begin, dt, j);
      }
    }
    assert Shows(c, energy, was, ats[0]) && Shows(c, energy, now, ats[1]);
    assert FullTurn(c, energy, i, ats[0][i], ats[1][i]);
    assert !TurnFree(c, energy, ats, 0);
    ExactUnlessFullTurn(c, energy, [was, now], ats);
  }

  /** The report on two accepted passes is exact, whatever the domains did. */
  ghost predicate AlwaysExact(c: Configuration, was: Reading, now: Reading)
    requires Accepted(c, was, now)
  {
    forall energy: Energy, ats: seq<seq<real>> | Physical(c, energy) && AllShow(c, energy, [was, now], ats) ::
      Run(c, [was, now]).value.total == Flowed(energy, ats[0], ats[1], |c.ranges|)
  }

  /** It is so exactly when the pair is certain for every domain. */
  lemma PairIsExactWhenCertain(c: Configuration, was: Reading, now: Reading)
    requires Accepted(c, was, now)
    ensures AlwaysExact(c, was, now) <==> CertainPair(c, was, now)
  {
    hide Run, Certain, Physical, Flowed;
    if CertainPair(c, was, now) {
      forall energy: Energy, ats: seq<seq<real>> | Physical(c, energy) && AllShow(c, energy, [was, now], ats)
        ensures Run(c, [was, now]).value.total == Flowed(energy, ats[0], ats[1], |c.ranges|)
      {
        assert CertainAfter(c, [was, now], 0);
        CertainRunsAreExact(c, energy, [was, now], ats);
      }
    } else {
      var i :| 0 <= i < |c.ranges| && !Certain(c, was, now, i);
      var energy, ats := UncertainPairHidesARange(c, was, now, i);
    }
  }

  // ---------------------------------------------------------------------------------------------
  // The sampler

  lemma RunExtends(c: Configuration, rs: seq<Reading>, r: Reading)
    requires AllFit(c, rs) && Fits(c, r)
    ensures AllFit(c, rs + [r])
    ensures Run(c, rs).Ok? ==> Run(c, rs + [r]) == Sampled(c, Run(c, rs).value, r)
  {
    hide Sampled;
    assert (rs + [r])[..|rs|] == rs;
  }

  class RaplSampler {
    const configuration: Configuration
    var total: int
    var samples: nat
    /** Last time, previous values and previous begin, which are always set together. */
    var previous: Maybe<Sample>
    var error: Maybe<Error>
    var started: bool
    /** The readings accepted so far. */
    ghost var log: seq<Reading>

    ghost function Current(): State
      reads this
    {
      State(total, samples, previous)
    }

    ghost predicate Valid()
      reads this
    {
      AllFit(configuration, log) && Run(configuration, log) == Ok(Current())
    }

    constructor (c: Configuration)
      ensures Valid() && configuration == c && log == [] && !started && error == Nothing
    {
      configuration := c;
      total, samples, previous := 0, 0, Nothing;
      error, started, log := Nothing, false, [];
    }

    /** The sum of the advances, in the order of the domains. */
    method Advance(dt: real, was: seq<int>, now: seq<int>) returns (r: Result<int>)
      requires |was| == |now| == |configuration.ranges|
      ensures r == Increment(configuration, dt, was, now, |now|)
    {
      hide Qualified, WithinPower;
      var c := configuration;
      var increment := 0;
      for i := 0 to |now|
        invariant Increment(c, dt, was, now, i) == Ok(increment)
      {
        var range := c.ranges[i];
        if !Qualified(c, dt, range) {
          Stays(c, dt, was, now, i + 1);
          return Err(WrapIntervalUnqualified);
        }
        var delta := if now[i] >= was[i] then now[i] - was[i] else range - was[i] + now[i];
        if delta < 0 || !WithinPower(c, dt, delta) {
          Stays(c, dt, was, now, i + 1);
          return Err(DeltaExceedsPowerBound);
        }
        increment := increment + delta;
      }
      return Ok(increment);
    }

    /** An accepted sample extends the log; a rejected one changes nothing. */
    method SampleOnce(r: Reading) returns (e: Maybe<Error>)
      requires Valid() && Fits(configuration, r)
      modifies this
      ensures Valid() && started == old(started) && error == old(error)
      ensures e.Nothing? <==> Sampled(configuration, old(Current()), r).Ok?
      ensures e.Nothing? ==> log == old(log) + [r]
      ensures e.Just? ==> e.value == Sampled(configuration, old(Current()), r).error
      ensures e.Just? ==> Current() == old(Current()) && log == old(log)
    {
      hide Run, Increment, InRange;
      RunExtends(configuration, log, r);
      if r.Malformed? { return Just(MalformedCounter); }
      if !r.begin.Finite? || !r.end.Finite? || r.begin.seconds > r.end.seconds { return Just(NonMonotonicSampling); }
      var fits := Counters(r.values);
      if !fits { return Just(CounterOutOfRange); }
      var pass := Sample(r.begin.seconds, r.end.seconds, r.values);
      if previous.Nothing? {
        previous, samples, log := Just(pass), 1, log + [r];
        return Nothing;
      }
      var dt := pass.end - previous.value.begin;
      if dt <= 0.0 || pass.begin < previous.value.end { return Just(NonMonotonicSampling); }
      var step := Advance(dt, previous.value.values, pass.values);
      if step.Err? { return Just(step.error); }
      total, samples, previous, log := total + step.value, samples + 1, Just(pass), log + [r];
      return Nothing;
    }

    method Counters(values: seq<int>) returns (ok: bool)
      requires |values| == |configuration.ranges|
      ensures ok <==> InRange(configuration, values)
    {
      for i := 0 to |values|
        invariant forall k | 0 <= k < i :: 0 <= values[k] < configuration.ranges[k]
      {
        if !(0 <= values[i] < configuration.ranges[i]) { return false; }
      }
      return true;
    }

    method Start(r: Reading) returns (e: Maybe<Error>)
      requires Valid() && Fits(configuration, r)
      modifies this
      ensures Valid() && error == old(error)
      ensures e.Nothing? ==> started && log == old(log) + [r]
      ensures e.Just? ==> started == old(started) && log == old(log)
    {
      hide Run, Sampled;
      e := SampleOnce(r);
      if e.Nothing? { started := true; }
    }

    /** The body of the polling thread: the first error is kept and ends the polling. */
    method Poll(r: Reading)
      requires Valid() && Fits(configuration, r)
      modifies this
      ensures Valid() && started == old(started)
      ensures old(error).Just? ==> error == old(error) && log == old(log)
      ensures old(error).Nothing? && error.Nothing? ==> log == old(log) + [r]
      ensures old(error).Nothing? && error.Just? ==> log == old(log) && Current() == old(Current())
    {
      hide Run, Sampled;
      if error.Nothing? {
        error := SampleOnce(r);
      }
    }

    /** The energy of the run in microjoules and the number of passes, if every pass was accepted. */
    method Stop(r: Reading) returns (report: Result<(int, nat)>)
      requires Valid() && Fits(configuration, r)
      modifies this
      ensures Valid()
      ensures report.Ok? ==>
        && old(started) && old(error).Nothing? && log == old(log) + [r]
        && Run(configuration, log).Ok? && report.value == (Run(configuration, log).value.total, |log|)
      ensures !old(started) ==> report == Err(NotStarted)
      ensures old(started) && old(error).Just? ==> report == Err(old(error).value)
    {
      if !started { return Err(NotStarted); }
      if error.Just? { return Err(error.value); }
      var e := SampleOnce(r);
      if e.Just? { return Err(e.value); }
      HoldsLastPass(configuration, log);
      return Ok((total, samples));
    }
  }

  /** A complaint about one domain is the outcome for every longer list of domains. */
  lemma {:induction false} StaysFrom(c: Configuration, dt: real, was: seq<int>, now: seq<int>, n: nat, m: nat)
    requires |was| == |now| == |c.ranges| && n <= m <= |now| && Increment(c, dt, was, now, n).Err?
    ensures Increment(c, dt, was, now, m) == Increment(c, dt, was, now, n)
  {
    if n < m {
      StaysFrom(c, dt, was, now, n, m - 1);
    }
  }

  lemma Stays(c: Configuration, dt: real, was: seq<int>, now: seq<int>, n: nat)
    requires |was| == |now| == |c.ranges| && n <= |now| && Increment(c, dt, was, now, n).Err?
    ensures Increment(c, dt, was, now, |now|) == Increment(c, dt, was, now, n)
  {
    StaysFrom(c, dt, was, now, n, |now|);
  }
}
