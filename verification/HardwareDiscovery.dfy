/**
Device discovery and routing: what a probe reports about the machine, how a policy orders the
device classes, and which device and backend a request is routed to.
*/
module HardwareDiscovery {
  import opened Wrappers

  // ----- the machine and its environment -----

  /** Device nodes that exist, environment variables, and the host's memory. */
  datatype World = World(paths: set<string>, env: map<string, string>, memoryMb: nat)

  function Variable(w: World, name: string): string {
    if name in w.env then w.env[name] else ""
  }

  function Lower(c: char): char {
    if 'A' <= c <= 'Z' then (c as int + 32) as char else c
  }

  /** Lower case, with dashes turned into underscores. */
  function Normalize(s: string): string {
    if s == "" then "" else [if s[0] == '-' then '_' else Lower(s[0])] + Normalize(s[1..])
  }

  predicate IsTrue(w: World, name: string) {
    Normalize(Variable(w, name)) !in {"", "0", "false", "no", "off"}
  }

  predicate NamesDevice(w: World, name: string) {
    Normalize(Variable(w, name)) !in {"", "-1", "none", "void", "false"}
  }

  lemma {:induction false} NormalizeDashes(s: string)
    ensures '-' !in Normalize(s) && ('-' in s ==> '_' in Normalize(s))
  {
    if s != "" {
      NormalizeDashes(s[1..]);
      assert s == [s[0]] + s[1..];
    }
  }

  /** A normalised value has no dash, so the entry "-1" of the list never matches. */
  lemma NamesDeviceExactly(w: World, name: string)
    ensures NamesDevice(w, name) <==> Normalize(Variable(w, name)) !in {"", "none", "void", "false"}
  {
    NormalizeDashes(Variable(w, name));
    assert "-1"[0] == '-';
  }

  /** Every value with a dash names a device; "-1", meant to name none, is one of them. */
  lemma MinusOneNamesDevice(w: World, name: string)
    requires '-' in Variable(w, name)
    ensures NamesDevice(w, name)
  {
    NormalizeDashes(Variable(w, name));
  }

  const PATHS := ["/dev/nvidia0", "/dev/nvidiactl", "/dev/kfd", "/dev/dri/renderD128", "/dev/accel0", "/dev/accel/accel0", "/dev/apex_0"]

  const NAMES := [
    "NVIDIA_VISIBLE_DEVICES", "CUDA_VISIBLE_DEVICES", "SHORTHAND_GPU_DETECTED", "SHORTHAND_GPU_ACCESSIBLE",
    "TPU_NAME", "COLAB_TPU_ADDR", "XRT_TPU_CONFIG", "SHORTHAND_TPU_DETECTED", "SHORTHAND_TPU_ACCESSIBLE",
    "SHORTHAND_NPU_DETECTED", "SHORTHAND_NPU_ACCESSIBLE"]

  const POLICY_NAMES := [
    "SHORTHAND_DEVICE_PREFERENCE", "SHORTHAND_DEVICE_OVERRIDE", "SHORTHAND_DEVICE_DENY",
    "SHORTHAND_ALLOW_CPU_FALLBACK", "SHORTHAND_MIN_DEVICE_MEMORY_MB"]

  function Bits(w: World): (b: seq<bool>)
    ensures |b| == |PATHS| && forall i | 0 <= i < |b| :: b[i] == (PATHS[i] in w.paths)
  {
    seq(|PATHS|, i requires 0 <= i < |PATHS| => PATHS[i] in w.paths)
  }

  function Values(w: World, names: seq<string>): (v: seq<string>)
    ensures |v| == |names| && forall i | 0 <= i < |v| :: v[i] == Variable(w, names[i])
  {
    seq(|names|, i requires 0 <= i < |names| => Variable(w, names[i]))
  }

  // ----- probing -----

  datatype DeviceClass = CPU | GPU | TPU | NPU | UnknownDevice

  datatype Device = Device(
    class_: DeviceClass, id: string, provider: string, detected: bool, accessible: bool, memoryMb: nat, reason: string)

  function ProbeGpu(w: World): Device {
    var nvidia := "/dev/nvidia0" in w.paths || "/dev/nvidiactl" in w.paths;
    var amd, render := "/dev/kfd" in w.paths, "/dev/dri/renderD128" in w.paths;
    var signal := NamesDevice(w, "NVIDIA_VISIBLE_DEVICES") || NamesDevice(w, "CUDA_VISIBLE_DEVICES") || IsTrue(w, "SHORTHAND_GPU_DETECTED");
    var detected := nvidia || amd || render || signal;
    var accessible := nvidia || amd || render || IsTrue(w, "SHORTHAND_GPU_ACCESSIBLE");
    var provider :=
      if nvidia || NamesDevice(w, "NVIDIA_VISIBLE_DEVICES") then "nvidia" else if amd then "amd" else if render then "drm" else "unknown";
    var reason :=
      if accessible then "accelerator_device_accessible_backend_probe_required"
      else if detected then "accelerator_signal_detected_but_not_accessible" else "no_gpu_signal_detected";
    Device(GPU, "gpu:0", provider, detected, accessible, 0, reason)
  }

  function ProbeTpu(w: World): Device {
    var node := "/dev/accel0" in w.paths;
    var signal := NamesDevice(w, "TPU_NAME") || NamesDevice(w, "COLAB_TPU_ADDR") || NamesDevice(w, "XRT_TPU_CONFIG") || IsTrue(w, "SHORTHAND_TPU_DETECTED");
    var detected, accessible := node || signal, node || IsTrue(w, "SHORTHAND_TPU_ACCESSIBLE");
    var reason :=
      if accessible then "tpu_accessible_backend_probe_required"
      else if detected then "tpu_signal_detected_but_not_accessible" else "no_tpu_signal_detected";
    Device(TPU, "tpu:0", "google", detected, accessible, 0, reason)
  }

  function ProbeNpu(w: World): Device {
    var node := "/dev/accel/accel0" in w.paths || "/dev/apex_0" in w.paths;
    var detected, accessible := node || IsTrue(w, "SHORTHAND_NPU_DETECTED"), node || IsTrue(w, "SHORTHAND_NPU_ACCESSIBLE");
    var reason :=
      if accessible then "npu_accessible_backend_probe_required"
      else if detected then "npu_detected_but_backend_access_not_confirmed" else "no_npu_signal_detected";
    Device(NPU, "npu:0", if node then "system_accelerator" else "unknown", detected, accessible, 0, reason)
  }

  /** The full inventory on a Linux host. */
  function Probe(w: World): seq<Device> {
    [Device(CPU, "cpu:0", "host", true, true, w.memoryMb, "host_cpu_available"), ProbeGpu(w), ProbeTpu(w), ProbeNpu(w)]
  }

  lemma SameValue(w: World, w': World, names: seq<string>, i: nat)
    requires Values(w, names) == Values(w', names) && i < |names|
    ensures Variable(w, names[i]) == Variable(w', names[i])
  {
    assert Values(w, names)[i] == Values(w', names)[i];
  }

  lemma SamePath(w: World, w': World, i: nat)
    requires Bits(w) == Bits(w') && i < |PATHS|
    ensures PATHS[i] in w.paths <==> PATHS[i] in w'.paths
  {
    assert Bits(w)[i] == Bits(w')[i];
  }

  lemma SameGpuValues(w: World, w': World)
    requires Values(w, NAMES) == Values(w', NAMES)
    ensures Variable(w, "NVIDIA_VISIBLE_DEVICES") == Variable(w', "NVIDIA_VISIBLE_DEVICES")
    ensures Variable(w, "CUDA_VISIBLE_DEVICES") == Variable(w', "CUDA_VISIBLE_DEVICES")
    ensures Variable(w, "SHORTHAND_GPU_DETECTED") == Variable(w', "SHORTHAND_GPU_DETECTED")
    ensures Variable(w, "SHORTHAND_GPU_ACCESSIBLE") == Variable(w', "SHORTHAND_GPU_ACCESSIBLE")
  {
    hide Variable;
    SameValue(w, w', NAMES, 0);
    SameValue(w, w', NAMES, 1);
    SameValue(w, w', NAMES, 2);
    SameValue(w, w', NAMES, 3);
  }

  lemma SameTpuValues(w: World, w': World)
    requires Values(w, NAMES) == Values(w', NAMES)
    ensures Variable(w, "TPU_NAME") == Variable(w', "TPU_NAME")
    ensures Variable(w, "COLAB_TPU_ADDR") == Variable(w', "COLAB_TPU_ADDR")
    ensures Variable(w, "XRT_TPU_CONFIG") == Variable(w', "XRT_TPU_CONFIG")
    ensures Variable(w, "SHORTHAND_TPU_DETECTED") == Variable(w', "SHORTHAND_TPU_DETECTED")
    ensures Variable(w, "SHORTHAND_TPU_ACCESSIBLE") == Variable(w', "SHORTHAND_TPU_ACCESSIBLE")
  {
    hide Variable;
    SameValue(w, w', NAMES, 4);
    SameValue(w, w', NAMES, 5);
    SameValue(w, w', NAMES, 6);
    SameValue(w, w', NAMES, 7);
    SameValue(w, w', NAMES, 8);
  }

  lemma SameNpuValues(w: World, w': World)
    requires Values(w, NAMES) == Values(w', NAMES)
    ensures Variable(w, "SHORTHAND_NPU_DETECTED") == Variable(w', "SHORTHAND_NPU_DETECTED")
    ensures Variable(w, "SHORTHAND_NPU_ACCESSIBLE") == Variable(w', "SHORTHAND_NPU_ACCESSIBLE")
  {
    hide Variable;
    SameValue(w, w', NAMES, 9);
    SameValue(w, w', NAMES, 10);
  }

  lemma SameGpu(w: World, w': World)
    requires Bits(w) == Bits(w') && Values(w, NAMES) == Values(w', NAMES)
    ensures ProbeGpu(w) == ProbeGpu(w')
  {
    hide Variable, Normalize, Values, Bits;
    SamePath(w, w', 0);
    SamePath(w, w', 1);
    SamePath(w, w', 2);
    SamePath(w, w', 3);
    SameGpuValues(w, w');
  }

  lemma SameTpu(w: World, w': World)
    requires Bits(w) == Bits(w') && Values(w, NAMES) == Values(w', NAMES)
    ensures ProbeTpu(w) == ProbeTpu(w')
  {
    hide Variable, Normalize, Values, Bits;
    SamePath(w, w', 4);
    SameTpuValues(w, w');
  }

  lemma SameNpu(w: World, w': World)
    requires Bits(w) == Bits(w') && Values(w, NAMES) == Values(w', NAMES)
    ensures ProbeNpu(w) == ProbeNpu(w')
  {
    SamePath(w, w', 5);
    SamePath(w, w', 6);
    SameNpuValues(w, w');
    hide Variable, Normalize, Values, Bits;
  }

  /** The generation signals are everything a probe looks at, host memory aside. */
  lemma ProbeFollowsSignals(w: World, w': World)
    requires Bits(w) == Bits(w') && Values(w, NAMES) == Values(w', NAMES) && w.memoryMb == w'.memoryMb
    ensures Probe(w) == Probe(w')
  {
    hide ProbeGpu, ProbeTpu, ProbeNpu, Values, Bits;
    SameGpu(w, w');
    SameTpu(w, w');
    SameNpu(w, w');
  }

  // ----- policies -----

  datatype Policy = Policy(
    preference: seq<DeviceClass>, override: Maybe<DeviceClass>, denied: set<DeviceClass>, allowCpu: bool, minimumMb: nat)

  function ParseDevice(s: string): DeviceClass {
    var n := Normalize(s);
    if n == "cpu" then CPU else if n == "gpu" then GPU else if n == "tpu" then TPU else if n == "npu" then NPU else UnknownDevice
  }

  /** The fields of a comma-separated list; a trailing comma opens no further field. */
  function Fields(s: string): seq<string> {
    if s == "" then []
    else
      var i := Comma(s);
      if i == |s| then [s] else [s[..i]] + Fields(s[i + 1..])
  }

  function Comma(s: string): (i: nat)
    ensures i <= |s| && (i < |s| ==> s[i] == ',') && ',' !in s[..i]
  {
    if s == "" || s[0] == ',' then 0 else 1 + Comma(s[1..])
  }

  function Known(fields: seq<string>): seq<DeviceClass> {
    if fields == [] then []
    else
      var d := ParseDevice(fields[0]);
      (if d == UnknownDevice then [] else [d]) + Known(fields[1..])
  }

  /** The policy the five policy variables describe; `number` reads a whole decimal number, if it is one. */
  function PolicyOf(values: seq<string>, number: string -> Maybe<nat>): Policy
    requires |values| == |POLICY_NAMES|
  {
    var override := ParseDevice(values[1]);
    var minimum := if values[4] == "" then Nothing else number(values[4]);
    Policy(
      if values[0] == "" then [GPU, NPU, TPU, CPU] else Known(Fields(values[0])),
      if override == UnknownDevice then Nothing else Just(override),
      (set d <- Known(Fields(values[2]))),
      values[3] == "" || Normalize(values[3]) !in {"", "0", "false", "no", "off"},
      if minimum.Just? then minimum.value else 0)
  }

  function PolicyFrom(w: World, number: string -> Maybe<nat>): Policy {
    PolicyOf(Values(w, POLICY_NAMES), number)
  }

  // ----- routing order -----

  function Without(cs: seq<DeviceClass>, c: DeviceClass): seq<DeviceClass> {
    if cs == [] then [] else (if cs[0] == c then [] else [cs[0]]) + Without(cs[1..], c)
  }

  /** Each class once, where it first stands. */
  function Unique(cs: seq<DeviceClass>): (u: seq<DeviceClass>)
    ensures forall c :: c in u <==> c in cs
  {
    if cs == [] then []
    else
      var n := |cs| - 1;
      var u := Unique(cs[..n]);
      assert cs == cs[..n] + [cs[n]];
      if cs[n] in u then u else u + [cs[n]]
  }

  function Wanted(p: Policy): seq<DeviceClass> {
    var base :=
      if p.override.Just? then
        var d := p.override.value;
        if p.allowCpu && d != CPU then [d, CPU] else [d]
      else if p.allowCpu && CPU !in p.preference then p.preference + [CPU] else p.preference;
    if p.allowCpu then base else Without(base, CPU)
  }

  function Order(p: Policy): seq<DeviceClass> {
    Unique(Wanted(p))
  }

  method RoutingOrder(p: Policy) returns (unique: seq<DeviceClass>)
    ensures unique == Order(p)
  {
    hide Without;
    var order: seq<DeviceClass> := [];
    if p.override.Just? {
      order := [p.override.value];
      if p.allowCpu && p.override.value != CPU {
        order := order + [CPU];
      }
    } else {
      order := p.preference;
      if p.allowCpu && CPU !in order {
        order := order + [CPU];
      }
    }
    if !p.allowCpu {
      order := Without(order, CPU);
    }
    assert order == Wanted(p);
    unique := [];
    for i := 0 to |order|
      invariant unique == Unique(order[..i])
    {
      assert order[..i + 1][..i] == order[..i];
      if order[i] !in unique {
        unique := unique + [order[i]];
      }
    }
    assert order[..|order|] == order;
  }

  lemma {:induction false} WithoutIs(cs: seq<DeviceClass>, c: DeviceClass, d: DeviceClass)
    ensures d in Without(cs, c) <==> d in cs && d != c
  {
    if cs != [] {
      WithoutIs(cs[1..], c, d);
      assert cs == [cs[0]] + cs[1..];
    }
  }

  lemma {:induction false} UniqueDistinct(cs: seq<DeviceClass>, i: nat, j: nat)
    requires i < j < |Unique(cs)|
    ensures Unique(cs)[i] != Unique(cs)[j]
    decreases |cs|
  {
    var n := |cs| - 1;
    var u := Unique(cs[..n]);
    if j < |u| {
      UniqueDistinct(cs[..n], i, j);
    }
  }

  /** Which classes are tried: an override alone or the preferences, the CPU only and always when it may be fallen back on. */
  lemma OrderIs(p: Policy, c: DeviceClass)
    ensures c in Order(p) <==>
            if c == CPU then p.allowCpu else if p.override.Just? then c == p.override.value else c in p.preference
  {
    WithoutIs(if p.override.Just? then [p.override.value] else p.preference, CPU, c);
  }

  // ----- backends and routes -----

  datatype BackendKind = Fallback | OnnxRuntimeCPU | OnnxRuntimeCUDA | OnnxRuntimeTensorRT | TensorRT | OpenVINO | LibTorch | LlamaCpp

  datatype ModelFormat = UnknownFormat | Onnx | TensorRTEngine | TorchScript | OpenVINOIR | GGUF

  datatype Capability = Capability(kind: BackendKind, name: string, available: bool, formats: set<ModelFormat>, precisions: seq<string>)

  /** A double up to the comparison `==`: zeros of either sign are equal, NaN equals nothing. */
  datatype Double = NaN | Zero(negative: bool) | Other(bits: int)

  predicate SameDouble(a: Double, b: Double) {
    if a.Zero? then b.Zero? else !a.NaN? && a == b
  }

  datatype TensorSpec = TensorSpec(name: string, element: int, shape: seq<int>, dynamic: bool, count: nat)

  datatype ModelSpec = ModelSpec(
    name: string, path: string, format: ModelFormat, task: string, precision: string, input: TensorSpec, output: TensorSpec,
    preference: seq<BackendKind>, compact: bool, allowFallback: bool, metric: string, op: string, threshold: Double)

  const UINT64: nat := 0x1_0000_0000_0000_0000

  const NO_TENSOR := TensorSpec("", 0, [], false, 0)
  const NO_MODEL := ModelSpec("", "", UnknownFormat, "", "", NO_TENSOR, NO_TENSOR, [], false, true, "", "", Zero(false))

  predicate SameModel(a: ModelSpec, b: ModelSpec) {
    && a.name == b.name && a.path == b.path && a.format == b.format && a.task == b.task && a.precision == b.precision
    && a.input == b.input && a.output == b.output && a.preference == b.preference && a.compact == b.compact
    && a.allowFallback == b.allowFallback && a.metric == b.metric && a.op == b.op && SameDouble(a.threshold, b.threshold)
  }

  predicate Supports(b: BackendKind, d: DeviceClass) {
    match b
    case TensorRT | OnnxRuntimeTensorRT | OnnxRuntimeCUDA => d == GPU
    case OnnxRuntimeCPU => d == CPU
    case OpenVINO => d == CPU || d == GPU || d == NPU
    case LibTorch | LlamaCpp => d == CPU || d == GPU
    case Fallback => false
  }

  predicate PrecisionOk(c: Capability, precision: string) {
    precision == "" || c.precisions == [] || exists i | 0 <= i < |c.precisions| :: Normalize(c.precisions[i]) == Normalize(precision)
  }

  predicate Compatible(d: Device, c: Capability, m: ModelSpec) {
    && c.kind != Fallback && (m.preference == [] || c.kind in m.preference)
    && Supports(c.kind, d.class_) && m.format in c.formats && PrecisionOk(c, m.precision)
  }

  predicate Admitted(p: Policy, d: Device) {
    d.detected && d.accessible && d.class_ !in p.denied && !(p.minimumMb > 0 && d.memoryMb < p.minimumMb)
  }

  /** The first backend that can run the model on the device now. */
  function ReadyBackend(d: Device, caps: seq<Capability>, m: ModelSpec, p: Policy): Maybe<Capability> {
    if !Admitted(p, d) || caps == [] then Nothing
    else if caps[0].available && Compatible(d, caps[0], m) then Just(caps[0])
    else ReadyBackend(d, caps[1..], m, p)
  }

  /** The first device of the class that has a ready backend. */
  function PickDevice(c: DeviceClass, ds: seq<Device>, caps: seq<Capability>, m: ModelSpec, p: Policy): Maybe<(Device, Capability)> {
    if ds == [] then Nothing
    else
      var b := ReadyBackend(ds[0], caps, m, p);
      if ds[0].class_ == c && b.Just? then Just((ds[0], b.value)) else PickDevice(c, ds[1..], caps, m, p)
  }

  function Pick(order: seq<DeviceClass>, ds: seq<Device>, caps: seq<Capability>, m: ModelSpec, p: Policy): Maybe<(Device, Capability)> {
    if order == [] then Nothing
    else
      var r := PickDevice(order[0], ds, caps, m, p);
      if r.Just? then r else Pick(order[1..], ds, caps, m, p)
  }

  /** One row of the inventory evidence. */
  datatype Row = Row(device: Device, compatible: bool, ready: bool)

  function Inventory(ds: seq<Device>, caps: seq<Capability>, m: ModelSpec, p: Policy): seq<Row> {
    seq(|ds|, i requires 0 <= i < |ds| =>
      Row(ds[i], exists j | 0 <= j < |caps| :: Compatible(ds[i], caps[j], m), ReadyBackend(ds[i], caps, m, p).Just?))
  }

  /** The selection evidence: what was selected, whether it is qualified, under which override, and what was rejected. */
  datatype Evidence = Evidence(qualified: bool, experimental: bool, rejected: Maybe<(string, string)>)

  datatype Route = Route(
    selected: bool, class_: DeviceClass, deviceId: string, backend: BackendKind, backendName: string, reason: string,
    inventory: seq<Row>, evidence: Evidence)

  const NO_EVIDENCE := Evidence(false, false, Nothing)

  /** Selection over the inventory, before qualification; `defaultName` names a backend that has no name of its own. */
  function SelectRoute(ds: seq<Device>, caps: seq<Capability>, m: ModelSpec, p: Policy, defaultName: BackendKind -> string): Route {
    var rows := Inventory(ds, caps, m, p);
    match Pick(Order(p), ds, caps, m, p)
    case Nothing => Route(false, UnknownDevice, "none", Fallback, "none", "no_execution_ready_hardware_backend", rows, NO_EVIDENCE)
    case Just((d, b)) =>
      Route(true, d.class_, if d.id == "" then DeviceName(d.class_) + ":0" else d.id, b.kind,
            if b.name == "" then defaultName(b.kind) else b.name, "selected_execution_ready_backend", rows, NO_EVIDENCE)
  }

  method ExecutionReadyBackend(d: Device, caps: seq<Capability>, m: ModelSpec, p: Policy) returns (r: Maybe<Capability>)
    ensures r == ReadyBackend(d, caps, m, p)
  {
    if !Admitted(p, d) {
      return Nothing;
    }
    for i := 0 to |caps|
      invariant ReadyBackend(d, caps, m, p) == ReadyBackend(d, caps[i..], m, p)
    {
      if caps[i].available && Compatible(d, caps[i], m) {
        return Just(caps[i]);
      }
    }
    return Nothing;
  }

  /** The nested search: classes in routing order, devices of the class in inventory order. */
  method SelectDevice(ds: seq<Device>, caps: seq<Capability>, m: ModelSpec, p: Policy) returns (r: Maybe<(Device, Capability)>)
    ensures r == Pick(Order(p), ds, caps, m, p)
  {
    hide ReadyBackend, Order;
    var order := RoutingOrder(p);
    for i := 0 to |order|
      invariant Pick(order, ds, caps, m, p) == Pick(order[i..], ds, caps, m, p)
    {
      for j := 0 to |ds|
        invariant PickDevice(order[i], ds, caps, m, p) == PickDevice(order[i], ds[j..], caps, m, p)
      {
        if ds[j].class_ == order[i] {
          var b := ExecutionReadyBackend(ds[j], caps, m, p);
          if b.Just? {
            return Just((ds[j], b.value));
          }
        }
      }
    }
    return Nothing;
  }

  function DeviceName(c: DeviceClass): string {
    match c
    case CPU => "cpu"
    case GPU => "gpu"
    case TPU => "tpu"
    case NPU => "npu"
    case UnknownDevice => "unknown"
  }

  /** Only the CPU provider on a qualified platform may serve without the experimental override. */
  function Enforce(r: Route, platform: bool, experimental: bool): Route {
    var qualified := r.selected && platform && r.backend == OnnxRuntimeCPU && r.class_ == CPU;
    var rejected := if !qualified && r.backendName != "none" then Just((r.deviceId, r.backendName)) else Nothing;
    var evidence := Evidence(qualified, experimental, rejected);
    if r.selected && !qualified && !experimental then
      Route(false, UnknownDevice, "none", Fallback, "none", "backend_device_not_production_qualified", r.inventory, evidence)
    else r.(evidence := evidence)
  }

  const OVERRIDE := "SHORTHAND_ALLOW_UNQUALIFIED_BACKEND_HARDWARE"

  function LowerAll(s: string): string {
    if s == "" then "" else [Lower(s[0])] + LowerAll(s[1..])
  }

  predicate Experimental(w: World) {
    LowerAll(Variable(w, OVERRIDE)) in {"1", "true", "yes", "on"}
  }

  // ----- what selection guarantees -----

  lemma {:induction false} ReadyIs(d: Device, caps: seq<Capability>, m: ModelSpec, p: Policy)
    ensures var r := ReadyBackend(d, caps, m, p);
            && (r.Just? <==> Admitted(p, d) && exists c <- caps :: c.available && Compatible(d, c, m))
            && (r.Just? ==> r.value in caps && r.value.available && Compatible(d, r.value, m))
  {
    if caps != [] && Admitted(p, d) {
      ReadyIs(d, caps[1..], m, p);
      assert caps == [caps[0]] + caps[1..];
    }
  }

  predicate Serves(c: DeviceClass, ds: seq<Device>, caps: seq<Capability>, m: ModelSpec, p: Policy) {
    exists d <- ds :: d.class_ == c && ReadyBackend(d, caps, m, p).Just?
  }

  lemma {:induction false} PickDeviceIs(c: DeviceClass, ds: seq<Device>, caps: seq<Capability>, m: ModelSpec, p: Policy)
    ensures var r := PickDevice(c, ds, caps, m, p);
            && (r.Just? <==> Serves(c, ds, caps, m, p))
            && (r.Just? ==> r.value.0 in ds && r.value.0.class_ == c && ReadyBackend(r.value.0, caps, m, p) == Just(r.value.1))
  {
    hide ReadyBackend;
    if ds != [] {
      PickDeviceIs(c, ds[1..], caps, m, p);
      assert ds == [ds[0]] + ds[1..];
    }
  }

  /** The pick comes from the earliest class in the order that anything serves. */
  lemma {:induction false} PickIs(order: seq<DeviceClass>, ds: seq<Device>, caps: seq<Capability>, m: ModelSpec, p: Policy)
    ensures var r := Pick(order, ds, caps, m, p);
            && (r.Just? <==> exists i | 0 <= i < |order| :: Serves(order[i], ds, caps, m, p))
            && (r.Just? ==>
                  && r.value.0 in ds && ReadyBackend(r.value.0, caps, m, p) == Just(r.value.1)
                  && exists i | 0 <= i < |order| :: order[i] == r.value.0.class_ && forall j | 0 <= j < i :: !Serves(order[j], ds, caps, m, p))
  {
    hide ReadyBackend, Serves;
    if order != [] {
      PickDeviceIs(order[0], ds, caps, m, p);
      PickIs(order[1..], ds, caps, m, p);
      var r := Pick(order, ds, caps, m, p);
      if !PickDevice(order[0], ds, caps, m, p).Just? && r.Just? {
        var i :| 0 <= i < |order| - 1 && order[1..][i] == r.value.0.class_ && forall j | 0 <= j < i :: !Serves(order[1..][j], ds, caps, m, p);
        assert order[i + 1] == r.value.0.class_;
        forall j | 0 <= j < i + 1 ensures !Serves(order[j], ds, caps, m, p) {
          if j > 0 {
            assert order[1..][j - 1] == order[j];
          }
        }
      }
      if exists i | 0 <= i < |order| :: Serves(order[i], ds, caps, m, p) {
        var i :| 0 <= i < |order| && Serves(order[i], ds, caps, m, p);
        if i > 0 {
          assert order[1..][i - 1] == order[i];
        }
      }
    }
  }

  /** A route is selected exactly when some wanted class is served, and from the earliest such class. */
  lemma RouteIsEarliest(ds: seq<Device>, caps: seq<Capability>, m: ModelSpec, p: Policy, defaultName: BackendKind -> string)
    ensures var r, order := SelectRoute(ds, caps, m, p, defaultName), Order(p);
            && (r.selected <==> exists i | 0 <= i < |order| :: Serves(order[i], ds, caps, m, p))
            && (r.selected ==>
                  exists i | 0 <= i < |order| :: order[i] == r.class_ && Serves(order[i], ds, caps, m, p)
                                                 && forall j | 0 <= j < i :: !Serves(order[j], ds, caps, m, p))
  {
    hide Order, Serves, ReadyBackend, Inventory;
    var order := Order(p);
    PickIs(order, ds, caps, m, p);
    var r := Pick(order, ds, caps, m, p);
    if r.Just? {
      var i :| 0 <= i < |order| && order[i] == r.value.0.class_ && forall j | 0 <= j < i :: !Serves(order[j], ds, caps, m, p);
      ServedBy(ds, caps, m, p, r.value.0);
    }
  }

  lemma ServedBy(ds: seq<Device>, caps: seq<Capability>, m: ModelSpec, p: Policy, d: Device)
    requires d in ds && ReadyBackend(d, caps, m, p).Just?
    ensures Serves(d.class_, ds, caps, m, p)
  {
  }

  lemma {:induction false} ReadySame(d: Device, caps: seq<Capability>, m: ModelSpec, n: ModelSpec, p: Policy)
    requires SameModel(m, n)
    ensures ReadyBackend(d, caps, m, p) == ReadyBackend(d, caps, n, p)
  {
    if caps != [] {
      ReadySame(d, caps[1..], m, n, p);
    }
  }

  lemma {:induction false} PickDeviceSame(c: DeviceClass, ds: seq<Device>, caps: seq<Capability>, m: ModelSpec, n: ModelSpec, p: Policy)
    requires SameModel(m, n)
    ensures PickDevice(c, ds, caps, m, p) == PickDevice(c, ds, caps, n, p)
  {
    hide ReadyBackend, SameModel;
    if ds != [] {
      ReadySame(ds[0], caps, m, n, p);
      PickDeviceSame(c, ds[1..], caps, m, n, p);
    }
  }

  lemma {:induction false} PickSame(order: seq<DeviceClass>, ds: seq<Device>, caps: seq<Capability>, m: ModelSpec, n: ModelSpec, p: Policy)
    requires SameModel(m, n)
    ensures Pick(order, ds, caps, m, p) == Pick(order, ds, caps, n, p)
  {
    hide PickDevice, SameModel;
    if order != [] {
      PickDeviceSame(order[0], ds, caps, m, n, p);
      PickSame(order[1..], ds, caps, m, n, p);
    }
  }

  /** Models the runtime regards as the same are routed alike, though they need not be equal. */
  lemma SameModelSameRoute(ds: seq<Device>, caps: seq<Capability>, m: ModelSpec, n: ModelSpec, p: Policy, defaultName: BackendKind -> string)
    requires SameModel(m, n)
    ensures SelectRoute(ds, caps, m, p, defaultName) == SelectRoute(ds, caps, n, p, defaultName)
  {
    hide ReadyBackend, Pick, Order;
    PickSame(Order(p), ds, caps, m, n, p);
    forall i | 0 <= i < |ds| ensures Inventory(ds, caps, m, p)[i] == Inventory(ds, caps, n, p)[i] {
      ReadySame(ds[i], caps, m, n, p);
    }
    assert Inventory(ds, caps, m, p) == Inventory(ds, caps, n, p);
  }
}
