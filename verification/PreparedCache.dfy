/**
The prepared-session cache: one session, kept with the model and the model bytes it was
prepared from. Every request reads the file again and compares all of it, so whatever a
session answers is what preparing from the bytes now on disk would answer.
*/
module PreparedCache {
  import opened Wrappers
  import opened HardwareDiscovery

  type Bytes = seq<bv8>
  type Disk = map<string, Bytes>

  const RETENTION_LIMIT: nat := 16 * 1024 * 1024

  datatype Status = Success | NotExecuted | InvalidInput | RuntimeError | BackendUnavailable

  /** A result: its status, its reason, and the output values still held in it. */
  datatype Result = Result(status: Status, reason: string, output: seq<int>, elements: nat)

  /** An input tensor, opaque except for whether it matches its declared shape; `wanted` is a caller's output size, if it gave one. */
  datatype Input = Input(data: seq<int>, matches: bool, wanted: Maybe<nat>)

  /** The backends as deterministic functions. */
  datatype Backends = Backends(
    selects: ModelSpec -> bool,                    // the registry finds a backend for the routed model
    prepares: (ModelSpec, Bytes) -> bool,          // loading the model from memory succeeds
    runs: (ModelSpec, Bytes, Input) -> Result,     // a prepared session's answer
    infers: (ModelSpec, Disk, Input) -> Result)    // inference by path

  datatype Session = Session(model: ModelSpec, bytes: Bytes)

  datatype Cache = Cache(model: ModelSpec, snapshot: Bytes, candidate: Bytes, session: Maybe<Session>, preparations: nat)

  function Cleared(c: Cache): Cache {
    Cache(NO_MODEL, [], [], Nothing, c.preparations)
  }

  /** The whole file, if it is an ONNX float32 model within the retention limit. */
  function ReadSnapshot(m: ModelSpec, disk: Disk): Maybe<Bytes> {
    if m.format == Onnx && m.precision == "float32" && m.path in disk && 0 < |disk[m.path]| <= RETENTION_LIMIT then Just(disk[m.path])
    else Nothing
  }

  function RoutedModel(m: ModelSpec, r: Route): ModelSpec {
    m.(preference := [r.backend], allowFallback := false)
  }

  predicate Reusable(c: Cache, m: ModelSpec) {
    c.session.Just? && SameModel(c.model, m) && c.snapshot == c.candidate
  }

  /** Prepares anew: the old session is dropped first, whatever comes of it. */
  function Prepared(x: Backends, c: Cache, m: ModelSpec): Cache {
    if x.prepares(m, c.candidate) then Cache(m, c.candidate, [], Just(Session(m, c.candidate)), (c.preparations + 1) % UINT64)
    else Cleared(c)
  }

  /** Output written to the caller's buffer leaves the result; a size mismatch is an error. */
  function Written(r: Result, wanted: Maybe<nat>): Result {
    if wanted == Nothing || r.status != Success then r
    else if wanted.value == 0 || |r.output| != wanted.value then Result(RuntimeError, "runtime_output_size_mismatch", [], 0)
    else r.(output := [], elements := wanted.value)
  }

  datatype Answer = FromSession(result: Result) | FromPath(result: Result) | NoBackend | Refused

  /** A request on a selected route, as far as the cache is concerned. */
  function Served(x: Backends, c: Cache, r: Route, m: ModelSpec, i: Input, disk: Disk): (Cache, Answer) {
    var routed := RoutedModel(m, r);
    if !r.selected || !x.selects(routed) then (Cleared(c), NoBackend)
    else if r.backend != OnnxRuntimeCPU then (Cleared(c), FromPath(Written(x.infers(routed, disk, i), i.wanted)))
    else
      var read := ReadSnapshot(routed, disk);
      if read == Nothing then (Cleared(c), FromPath(Written(x.infers(routed, disk, i), i.wanted)))
      else
        var loaded := c.(candidate := read.value);
        var d := if Reusable(loaded, routed) then loaded else Prepared(x, loaded, routed);
        if d.session.Just? then
          var result := x.runs(d.session.value.model, d.session.value.bytes, i);
          (if result.status == Success then d else Cleared(d), FromSession(result))
        else (d, FromPath(Written(x.infers(routed, disk, i), i.wanted)))
  }

  /** Inputs that do not match their shape are refused before the cache is touched. */
  function Requested(x: Backends, c: Cache, r: Route, m: ModelSpec, i: Input, disk: Disk): (Cache, Answer) {
    if !i.matches then (c, Refused) else Served(x, c, r, m, i, disk)
  }

  // ----- runs -----

  datatype Op = WriteFile(path: string, bytes: Bytes) | RemoveFile(path: string) | Request(route: Route, model: ModelSpec, input: Input)

  /** A run in progress, with the number of successful preparations so far. */
  datatype Run = Run(cache: Cache, disk: Disk, prepared: nat)

  function After(x: Backends, s: Run, op: Op): Run {
    match op
    case WriteFile(p, b) => s.(disk := s.disk[p := b])
    case RemoveFile(p) => s.(disk := s.disk - {p})
    case Request(r, m, i) =>
      s.(cache := Requested(x, s.cache, r, m, i, s.disk).0, prepared := s.prepared + (if Prepares(x, s, op) then 1 else 0))
  }

  /** The request prepares a session and succeeds in it. */
  predicate Prepares(x: Backends, s: Run, op: Op) {
    && op.Request? && op.input.matches && op.route.selected && op.route.backend == OnnxRuntimeCPU
    && var routed := RoutedModel(op.model, op.route);
    && x.selects(routed) && ReadSnapshot(routed, s.disk).Just?
    && var bytes := ReadSnapshot(routed, s.disk).value;
       !Reusable(s.cache.(candidate := bytes), routed) && x.prepares(routed, bytes)
  }

  function AfterAll(x: Backends, s: Run, ops: seq<Op>): Run {
    if ops == [] then s else After(x, AfterAll(x, s, ops[..|ops| - 1]), ops[|ops| - 1])
  }

  const EMPTY := Cache(NO_MODEL, [], [], Nothing, 0)

  /** A live session was prepared from exactly the recorded model and bytes; the count is exact. */
  ghost predicate Coherent(x: Backends, s: Run) {
    && s.cache.preparations == s.prepared % UINT64
    && (s.cache.session.Just? ==>
          s.cache.session == Just(Session(s.cache.model, s.cache.snapshot)) && x.prepares(s.cache.model, s.cache.snapshot))
  }

  lemma RequestCoherent(x: Backends, s: Run, op: Op)
    requires Coherent(x, s)
    ensures Coherent(x, After(x, s, op))
  {
    hide ReadSnapshot, SameModel, Written, RoutedModel;
  }

  lemma {:induction false} RunsStayCoherent(x: Backends, disk: Disk, ops: seq<Op>)
    ensures Coherent(x, AfterAll(x, Run(EMPTY, disk, 0), ops))
    decreases |ops|
  {
    hide After;
    if ops != [] {
      var n := |ops| - 1;
      RunsStayCoherent(x, disk, ops[..n]);
      RequestCoherent(x, AfterAll(x, Run(EMPTY, disk, 0), ops[..n]), ops[n]);
    }
  }

  /** Backends do not distinguish models the runtime regards as the same, to prepare them or to run them. */
  ghost predicate Respects(x: Backends) {
    && (forall a, b, bytes {:trigger x.prepares(a, bytes), x.prepares(b, bytes)} ::
          SameModel(a, b) ==> x.prepares(a, bytes) == x.prepares(b, bytes))
    && (forall a, b, bytes, i {:trigger x.runs(a, bytes, i), x.runs(b, bytes, i)} ::
          SameModel(a, b) ==> x.runs(a, bytes, i) == x.runs(b, bytes, i))
  }

  /** What a session prepared now, from the bytes on disk, answers; nothing if there is no file or preparing fails. */
  function Fresh(x: Backends, m: ModelSpec, i: Input, disk: Disk): Maybe<Result> {
    if m.path in disk && x.prepares(m, disk[m.path]) then Just(x.runs(m, disk[m.path], i)) else Nothing
  }

  /** After any run, when a session answers, preparing from the current file succeeds and answers the same. */
  lemma SessionAnswersAreFresh(x: Backends, disk: Disk, ops: seq<Op>, r: Route, m: ModelSpec, i: Input)
    requires Respects(x)
    ensures var s := AfterAll(x, Run(EMPTY, disk, 0), ops);
            var answer := Requested(x, s.cache, r, m, i, s.disk).1;
            answer.FromSession? ==> Fresh(x, RoutedModel(m, r), i, s.disk) == Just(answer.result)
  {
    hide AfterAll, SameModel;
    RunsStayCoherent(x, disk, ops);
    var s := AfterAll(x, Run(EMPTY, disk, 0), ops);
    var routed := RoutedModel(m, r);
    var loaded := s.cache.(candidate := if ReadSnapshot(routed, s.disk).Just? then ReadSnapshot(routed, s.disk).value else []);
    if Reusable(loaded, routed) {
      assert x.runs(loaded.model, loaded.snapshot, i) == x.runs(routed, loaded.snapshot, i);
      assert x.prepares(loaded.model, loaded.snapshot) == x.prepares(routed, loaded.snapshot);
    }
  }

  /** The number of successful preparations among the requests of a run. */
  lemma PreparationsAreCounted(x: Backends, disk: Disk, ops: seq<Op>)
    ensures var s := AfterAll(x, Run(EMPTY, disk, 0), ops);
            s.cache.preparations == s.prepared % UINT64 && s.prepared <= |ops|
  {
    RunsStayCoherent(x, disk, ops);
    PreparedBound(x, disk, ops);
  }

  lemma {:induction false} PreparedBound(x: Backends, disk: Disk, ops: seq<Op>)
    ensures AfterAll(x, Run(EMPTY, disk, 0), ops).prepared <= |ops|
    decreases |ops|
  {
    hide Requested, Prepares;
    if ops != [] {
      PreparedBound(x, disk, ops[..|ops| - 1]);
    }
  }

  // ----- the cache object -----

  class PreparedInferenceCache {
    var model: ModelSpec
    var snapshot: Bytes
    var candidate: Bytes
    var session: Maybe<Session>
    var preparations: nat

    ghost function State(): Cache
      reads this
    {
      Cache(model, snapshot, candidate, session, preparations)
    }

    constructor ()
      ensures State() == EMPTY
    {
      model, snapshot, candidate, session, preparations := NO_MODEL, [], [], Nothing, 0;
    }

    method Clear()
      modifies this
      ensures State() == Cleared(old(State()))
    {
      session, snapshot, candidate, model := Nothing, [], [], NO_MODEL;
    }

    /** Reads the file into the comparison buffer. */
    method ReadCacheableSnapshot(m: ModelSpec, disk: Disk) returns (ok: bool)
      modifies this`candidate
      ensures ok == ReadSnapshot(m, disk).Just?
      ensures candidate == if ok then ReadSnapshot(m, disk).value else old(candidate)
    {
      if m.format != Onnx || m.precision != "float32" || m.path !in disk {
        return false;
      }
      var size := |disk[m.path]|;
      if size <= 0 || size > RETENTION_LIMIT {
        return false;
      }
      candidate := disk[m.path];
      ok := true;
    }

    method Prepare(x: Backends, m: ModelSpec)
      modifies this
      ensures State() == Prepared(x, old(State()), m)
    {
      var bytes := candidate;
      candidate := [];
      Clear();
      if x.prepares(m, bytes) {
        session := Just(Session(m, bytes));
        model := m;
        snapshot := bytes;
        preparations := (preparations + 1) % UINT64;
      }
    }

    method Infer(x: Backends, r: Route, m: ModelSpec, i: Input, disk: Disk) returns (answer: Answer)
      modifies this
      ensures (State(), answer) == Requested(x, old(State()), r, m, i, disk)
    {
      hide SameModel, Written;
      if !i.matches {
        return Refused;
      }
      var routed := RoutedModel(m, r);
      if !r.selected || !x.selects(routed) {
        Clear();
        return NoBackend;
      }
      if r.backend == OnnxRuntimeCPU {
        var cacheable := ReadCacheableSnapshot(routed, disk);
        if cacheable {
          var hit := session.Just? && SameModel(model, routed) && snapshot == candidate;
          if !hit {
            Prepare(x, routed);
          }
          if session.Just? {
            var result := x.runs(session.value.model, session.value.bytes, i);
            if result.status != Success {
              Clear();
            }
            return FromSession(result);
          }
        } else {
          Clear();
        }
      } else {
        Clear();
      }
      answer := FromPath(Written(x.infers(routed, disk, i), i.wanted));
    }
  }
}
