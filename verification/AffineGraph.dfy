/**
  * The ahead-of-time compiler's front: which ONNX models it accepts, and that an accepted graph
  * means what the emitted kernel computes.
  *
  * A model is the record the inspection reads; parsing, the schema checker and the decoding of raw
  * constants are parameters. A graph's meaning is its nodes evaluated in order over named tensors,
  * with the matrix product of operator set 13 on matrices and its addition under the general
  * multidirectional broadcasting rule. The standard leaves the order of the sums in a matrix
  * product open; here they are taken from zero and from the left.
  */
module AffineGraph {
  import opened Wrappers
  import opened AffineKernel

  datatype Dimension = Value(n: int) | Symbolic
  datatype ValueInfo = ValueInfo(name: string, isTensor: bool, isFloat: bool, shape: Maybe<seq<Dimension>>)

  /** `plain`: no domain, overload, device configuration or attribute. */
  datatype Node = Node(op: string, inputs: seq<string>, outputs: seq<string>, plain: bool)

  /** `embedded`: neither external nor segmented. `mixed`: data of another encoding is present. */
  datatype Constant<F> = Constant(name: string, isFloat: bool, dims: seq<int>, embedded: bool, mixed: bool,
                                  raw: seq<bv8>, floats: seq<F>)

  datatype Graph<F> = Graph(inputs: seq<ValueInfo>, outputs: seq<ValueInfo>, nodes: seq<Node>,
                            constants: seq<Constant<F>>, sparse: bool, valueInfo: seq<ValueInfo>)

  /** `extended`: functions, training information or device configurations are present. */
  datatype Model<F> = Model(size: nat, unknownFields: bool, irVersion: int, opsets: seq<(string, int)>,
                            extended: bool, graph: Graph<F>)

  const MAX_MODEL_BYTES := 16777216
  const MAX_ELEMENTS := 65536
  const MAX_WEIGHTS := 1048576

  // ---------------------------------------------------------------------------------------------
  // Acceptance

  predicate StaticDims(d: seq<Dimension>) {
    |d| == 2 && forall i | 0 <= i < 2 :: d[i].Value? && 0 < d[i].n <= 1024
  }

  /** The shape of a value that is a matrix of single-precision numbers within the limits. */
  function StaticShape(v: ValueInfo): (s: Maybe<(nat, nat)>)
    ensures s.Just? ==> 0 < s.value.0 <= 1024 && 0 < s.value.1 <= 1024
  {
    if v.isTensor && v.isFloat && v.shape.Just? && StaticDims(v.shape.value) &&
       v.shape.value[0].n * v.shape.value[1].n <= MAX_ELEMENTS
    then Just((v.shape.value[0].n, v.shape.value[1].n))
    else Nothing
  }

  function Elements<F>(decode: seq<bv8> -> F, c: Constant<F>): seq<F> {
    if c.raw != [] then seq(|c.raw| / 4, i requires 0 <= i < |c.raw| / 4 => decode(c.raw[4 * i..4 * i + 4])) else c.floats
  }

  function Volume(dims: seq<int>): int {
    if dims == [] then 1 else Volume(dims[..|dims| - 1]) * dims[|dims| - 1]
  }

  /** One constant of the expected shape, in exactly one encoding and finite throughout. */
  predicate GoodConstant<F>(ar: Arithmetic<F>, decode: seq<bv8> -> F, c: Constant<F>, dims: seq<int>) {
    && c.isFloat && c.dims == dims && Volume(dims) <= MAX_WEIGHTS && c.embedded && !c.mixed
    && (c.raw != [] <==> c.floats == [])
    && (if c.raw != [] then |c.raw| == Volume(dims) * 4 else |c.floats| == Volume(dims))
    && AllFinite(ar, Elements(decode, c))
  }

  predicate Header<F>(m: Model<F>) {
    && 0 < m.size <= MAX_MODEL_BYTES && !m.unknownFields && 8 <= m.irVersion <= 10
    && m.opsets == [("", 13)] && !m.extended
  }

  /** Two binary nodes, two constants, one input and one output. */
  predicate TwoNodes<F>(g: Graph<F>) {
    && |g.inputs| == 1 && |g.outputs| == 1 && !g.sparse && |g.nodes| == 2 && |g.constants| == 2
    && g.nodes[0].op == "MatMul" && g.nodes[1].op == "Add"
    && forall i | 0 <= i < 2 :: g.nodes[i].plain && |g.nodes[i].inputs| == 2 && |g.nodes[i].outputs| == 1
  }

  /** The position of the weights among the two constants. */
  function Weights<F>(g: Graph<F>): (w: nat)
    requires TwoNodes(g)
    ensures w < 2
  {
    if g.nodes[0].inputs[1] == g.constants[0].name then 0 else 1
  }

  predicate Wired<F>(g: Graph<F>)
    requires TwoNodes(g)
  {
    var x, y, product := g.inputs[0].name, g.outputs[0].name, g.nodes[0].outputs[0];
    var first, second := g.constants[0].name, g.constants[1].name;
    var bias := g.constants[1 - Weights(g)].name;
    && first != second && first != "" && second != ""
    && g.nodes[0].inputs[0] == x && g.nodes[0].inputs[1] in [first, second]
    && (g.nodes[1].inputs == [product, bias] || g.nodes[1].inputs == [bias, product])
    && g.nodes[1].outputs[0] == y
    && |{x, y, product, first, second}| == 5 && x != "" && y != "" && product != ""
  }

  predicate ShapedGraph<F>(ar: Arithmetic<F>, decode: seq<bv8> -> F, g: Graph<F>)
    requires TwoNodes(g)
  {
    var x, y := StaticShape(g.inputs[0]), StaticShape(g.outputs[0]);
    && x.Just? && y.Just? && x.value.0 == y.value.0
    && (forall i | 0 <= i < |g.valueInfo| ::
          g.valueInfo[i].name == g.nodes[0].outputs[0] && StaticShape(g.valueInfo[i]) == y)
    && GoodConstant(ar, decode, g.constants[Weights(g)], [x.value.1, y.value.1])
    && GoodConstant(ar, decode, g.constants[1 - Weights(g)], [y.value.1])
  }

  predicate Supported<F>(ar: Arithmetic<F>, decode: seq<bv8> -> F, m: Model<F>) {
    Header(m) && TwoNodes(m.graph) && Wired(m.graph) && ShapedGraph(ar, decode, m.graph)
  }

  /** The constants that go into the kernel. */
  function Compiled<F>(ar: Arithmetic<F>, decode: seq<bv8> -> F, m: Model<F>): Affine<F>
    requires Supported(ar, decode, m)
  {
    var g := m.graph;
    var x, y, w := StaticShape(g.inputs[0]), StaticShape(g.outputs[0]), Weights(g);
    Affine(x.value.0, x.value.1, y.value.1, Elements(decode, g.constants[w]), Elements(decode, g.constants[1 - w]))
  }

  // ---------------------------------------------------------------------------------------------
  // What a graph means

  datatype Tensor<F> = Tensor(dims: seq<int>, data: seq<F>)

  /** The first `upto` products of a row and a column, from zero and from the left. */
  function Sum<F>(ar: Arithmetic<F>, a: Tensor<F>, b: Tensor<F>, i: nat, j: nat, upto: nat): F
    requires |a.dims| == 2 && |b.dims| == 2
  {
    if upto == 0 then ar.zero
    else ar.add(Sum(ar, a, b, i, j, upto - 1),
                ar.multiply(At(a.data, i * a.dims[1] + (upto - 1), ar.zero), At(b.data, (upto - 1) * b.dims[1] + j, ar.zero)))
  }

  /** The matrix product. */
  function MatMul<F>(ar: Arithmetic<F>, a: Tensor<F>, b: Tensor<F>): Maybe<Tensor<F>> {
    if |a.dims| == 2 && |b.dims| == 2 && a.dims[1] == b.dims[0] && a.dims[0] > 0 && a.dims[1] > 0 && b.dims[1] > 0 then
      Just(Tensor([a.dims[0], b.dims[1]],
                  seq(Area(a.dims[0], b.dims[1]), i requires 0 <= i =>
                    Sum(ar, a, b, Div(i, b.dims[1]), Rem(i, b.dims[1]), a.dims[1]))))
    else Nothing
  }

  function Area(m: int, n: int): (a: nat)
    requires m > 0 && n > 0
  {
    assert m * n >= 0 by { Grow(m, n); }
    m * n
  }

  lemma Grow(m: int, n: int)
    requires m > 0 && n > 0
    ensures m * n > 0
  {
  }

  function Div(i: nat, n: int): nat
    requires n > 0
  {
    i / n
  }

  function Rem(i: nat, n: int): nat
    requires n > 0
  {
    i % n
  }

  /** Shapes are aligned at their last dimension; a dimension of one, or a missing one, stretches. */
  function Broadcast(p: seq<int>, q: seq<int>): Maybe<seq<int>> {
    if p == [] then Just(q) else if q == [] then Just(p) else
      var a, b := p[|p| - 1], q[|q| - 1];
      var rest := Broadcast(p[..|p| - 1], q[..|q| - 1]);
      if rest.Nothing? || (a != b && a != 1 && b != 1) then Nothing
      else Just(rest.value + [if a == 1 then b else a])
  }

  predicate AllPositive(dims: seq<int>) {
    forall i | 0 <= i < |dims| :: dims[i] > 0
  }

  /** Where the element at `i` of a tensor of shape `out` comes from in one of shape `dims`. */
  function Origin(out: seq<int>, dims: seq<int>, i: nat): int
    requires AllPositive(out)
  {
    if dims == [] || out == [] then 0
    else
      var last := out[|out| - 1];
      var size := dims[|dims| - 1];
      Origin(out[..|out| - 1], dims[..|dims| - 1], Div(i, last)) * size + (if size == 1 then 0 else Rem(i, last))
  }

  /** Addition under broadcasting. */
  function Add<F>(ar: Arithmetic<F>, a: Tensor<F>, b: Tensor<F>): Maybe<Tensor<F>> {
    var dims := Broadcast(a.dims, b.dims);
    if dims.Nothing? || !AllPositive(dims.value) || Volume(dims.value) < 0 then Nothing
    else Just(Tensor(dims.value,
                     seq(Volume(dims.value), i requires 0 <= i =>
                       ar.add(At(a.data, Origin(dims.value, a.dims, i), ar.zero),
                              At(b.data, Origin(dims.value, b.dims, i), ar.zero)))))
  }

  type Environment<F> = map<string, Tensor<F>>

  function Evaluate<F>(ar: Arithmetic<F>, env: Environment<F>, n: Node): Maybe<Environment<F>> {
    if |n.inputs| != 2 || |n.outputs| != 1 || n.inputs[0] !in env || n.inputs[1] !in env then Nothing
    else
      var a, b := env[n.inputs[0]], env[n.inputs[1]];
      var r := if n.op == "MatMul" then MatMul(ar, a, b) else if n.op == "Add" then Add(ar, a, b) else Nothing;
      if r.Nothing? then Nothing else Just(env[n.outputs[0] := r.value])
  }

  function EvaluateAll<F>(ar: Arithmetic<F>, env: Environment<F>, nodes: seq<Node>): Maybe<Environment<F>>
    decreases |nodes|
  {
    if nodes == [] then Just(env)
    else
      var next := Evaluate(ar, env, nodes[0]);
      if next.Nothing? then Nothing else EvaluateAll(ar, next.value, nodes[1..])
  }

  function Constants<F>(decode: seq<bv8> -> F, cs: seq<Constant<F>>): Environment<F> {
    if cs == [] then map[]
    else
      var c := cs[|cs| - 1];
      Constants(decode, cs[..|cs| - 1])[c.name := Tensor(c.dims, Elements(decode, c))]
  }

  /** The output of the graph for one input tensor. */
  function Denote<F>(ar: Arithmetic<F>, decode: seq<bv8> -> F, g: Graph<F>, x: Tensor<F>): Maybe<Tensor<F>> {
    if |g.inputs| != 1 || |g.outputs| != 1 then Nothing
    else
      var env := EvaluateAll(ar, Constants(decode, g.constants)[g.inputs[0].name := x], g.nodes);
      if env.Nothing? || g.outputs[0].name !in env.value then Nothing else Just(env.value[g.outputs[0].name])
  }

  // ---------------------------------------------------------------------------------------------
  // The inspection

  /** Every node of the graph is one the compiler knows. */
  method Nodes<F>(g: Graph<F>) returns (ok: bool)
    ensures ok <==> TwoNodes(g)
  {
    if |g.inputs| != 1 || |g.outputs| != 1 || g.sparse || |g.nodes| != 2 || |g.constants| != 2 { return false; }
    if g.nodes[0].op != "MatMul" || g.nodes[1].op != "Add" { return false; }
    for i := 0 to 2
      invariant forall k | 0 <= k < i :: g.nodes[k].plain && |g.nodes[k].inputs| == 2 && |g.nodes[k].outputs| == 1
    {
      if !g.nodes[i].plain || |g.nodes[i].inputs| != 2 || |g.nodes[i].outputs| != 1 { return false; }
    }
    return true;
  }

  method Metadata<F>(g: Graph<F>, shape: Maybe<(nat, nat)>) returns (ok: bool)
    requires TwoNodes(g)
    ensures ok <==> forall i | 0 <= i < |g.valueInfo| ::
      g.valueInfo[i].name == g.nodes[0].outputs[0] && StaticShape(g.valueInfo[i]) == shape
  {
    for i := 0 to |g.valueInfo|
      invariant forall k | 0 <= k < i ::
        g.valueInfo[k].name == g.nodes[0].outputs[0] && StaticShape(g.valueInfo[k]) == shape
    {
      if g.valueInfo[i].name != g.nodes[0].outputs[0] || StaticShape(g.valueInfo[i]) != shape { return false; }
    }
    return true;
  }

  /** The shape and constants of a supported model that also passes the schema checker; nothing for any other. */
  method Inspect<F>(ar: Arithmetic<F>, decode: seq<bv8> -> F, m: Model<F>, schema: bool) returns (r: Maybe<Affine<F>>)
    ensures r.Just? <==> schema && Supported(ar, decode, m)
    ensures r.Just? ==> r.value == Compiled(ar, decode, m) && Shaped(r.value)
  {
    hide GoodConstant;
    if !Header(m) { return Nothing; }
    var g := m.graph;
    var known := Nodes(g);
    if !known { return Nothing; }
    var x, y := StaticShape(g.inputs[0]), StaticShape(g.outputs[0]);
    if x.Nothing? || y.Nothing? || x.value.0 != y.value.0 { return Nothing; }
    if !Wired(g) { return Nothing; }
    var described := Metadata(g, y);
    if !described { return Nothing; }
    var w := Weights(g);
    if !GoodConstant(ar, decode, g.constants[w], [x.value.1, y.value.1]) { return Nothing; }
    if !GoodConstant(ar, decode, g.constants[1 - w], [y.value.1]) { return Nothing; }
    if !schema { return Nothing; }
    CompiledIsShaped(ar, decode, m);
    return Just(Affine(x.value.0, x.value.1, y.value.1, Elements(decode, g.constants[w]), Elements(decode, g.constants[1 - w])));
  }

  lemma VolumeOfOne(n: int)
    ensures Volume([n]) == n
  {
    assert [n][..0] == [];
  }

  lemma VolumeOfTwo(m: int, n: int)
    ensures Volume([m, n]) == m * n
  {
    assert [m, n][..1] == [m];
    VolumeOfOne(m);
  }

  lemma ConstantSize<F>(ar: Arithmetic<F>, decode: seq<bv8> -> F, c: Constant<F>, dims: seq<int>)
    requires GoodConstant(ar, decode, c, dims)
    ensures |Elements(decode, c)| == Volume(dims)
  {
    hide Volume;
  }

  lemma CompiledIsShaped<F>(ar: Arithmetic<F>, decode: seq<bv8> -> F, m: Model<F>)
    requires Supported(ar, decode, m)
    ensures Shaped(Compiled(ar, decode, m))
  {
    hide GoodConstant, Header, Wired;
    var g := m.graph;
    var w, k, n := Weights(g), StaticShape(g.inputs[0]).value.1, StaticShape(g.outputs[0]).value.1;
    ConstantSize(ar, decode, g.constants[w], [k, n]);
    ConstantSize(ar, decode, g.constants[1 - w], [n]);
    VolumeOfTwo(k, n);
    VolumeOfOne(n);
  }

  // ---------------------------------------------------------------------------------------------
  // An accepted graph means its kernel

  /** The addition takes the product before the bias. */
  predicate BiasLast<F>(g: Graph<F>)
    requires TwoNodes(g)
  {
    g.nodes[1].inputs[0] == g.nodes[0].outputs[0]
  }

  /** The names keep the two constants, the input and the intermediate value apart. */
  lemma NamesApart<F>(g: Graph<F>)
    requires TwoNodes(g) && Wired(g)
    ensures
      var x, y, product := g.inputs[0].name, g.outputs[0].name, g.nodes[0].outputs[0];
      var weights, bias := g.constants[Weights(g)].name, g.constants[1 - Weights(g)].name;
      && x != product && x != weights && x != bias && product != weights && product != bias && weights != bias
      && g.nodes[0].inputs == [x, weights] && g.nodes[1].outputs[0] == y
      && (BiasLast(g) ==> g.nodes[1].inputs == [product, bias])
      && (!BiasLast(g) ==> g.nodes[1].inputs == [bias, product])
  {
    var x, y, product := g.inputs[0].name, g.outputs[0].name, g.nodes[0].outputs[0];
    var first, second := g.constants[0].name, g.constants[1].name;
    FiveApart(x, y, product, first, second);
    assert g.nodes[0].inputs == [g.nodes[0].inputs[0], g.nodes[0].inputs[1]];
  }

  lemma FiveApart(a: string, b: string, c: string, d: string, e: string)
    requires |{a, b, c, d, e}| == 5
    ensures a != b && a != c && a != d && a != e && b != c && b != d && b != e && c != d && c != e && d != e
  {
    Sizes(b, c, d, e);
    assert {a, b, c, d, e} == {a} + {b, c, d, e};
    Fresh(a, {b, c, d, e}, 4);
    assert {b, c, d, e} == {b} + {c, d, e};
    Fresh(b, {c, d, e}, 3);
    assert {c, d, e} == {c} + {d, e};
    Fresh(c, {d, e}, 2);
    assert {d, e} == {d} + {e};
    Fresh(d, {e}, 1);
  }

  lemma Sizes(a: string, b: string, c: string, d: string)
    ensures |{a, b, c, d}| <= 4 && |{b, c, d}| <= 3 && |{c, d}| <= 2 && |{d}| == 1
  {
    assert {c, d} == {c} + {d};
    assert {b, c, d} == {b} + {c, d};
    assert {a, b, c, d} == {a} + {b, c, d};
  }

  lemma Fresh(a: string, s: set<string>, n: nat)
    requires |{a} + s| == n + 1 && |s| <= n
    ensures a !in s && |s| == n
  {
    assert a in s ==> {a} + s == s;
  }

  function Tensorial<F>(decode: seq<bv8> -> F, c: Constant<F>): Tensor<F> {
    Tensor(c.dims, Elements(decode, c))
  }

  lemma ConstantsOfTwo<F>(decode: seq<bv8> -> F, cs: seq<Constant<F>>)
    requires |cs| == 2 && cs[0].name != cs[1].name
    ensures Constants(decode, cs) == map[cs[0].name := Tensorial(decode, cs[0]), cs[1].name := Tensorial(decode, cs[1])]
  {
    hide Elements;
    assert cs[..1][..0] == [];
    assert Constants(decode, cs[..1]) == map[cs[0].name := Tensorial(decode, cs[0])];
  }

  /** The graph is its product followed by its addition, in the order the addition names them. */
  lemma TwoSteps<F>(ar: Arithmetic<F>, decode: seq<bv8> -> F, g: Graph<F>, x: Tensor<F>)
    requires TwoNodes(g) && Wired(g)
    ensures
      var product := MatMul(ar, x, Tensorial(decode, g.constants[Weights(g)]));
      var bias := Tensorial(decode, g.constants[1 - Weights(g)]);
      product.Just? ==>
        Denote(ar, decode, g, x) == if BiasLast(g) then Add(ar, product.value, bias) else Add(ar, bias, product.value)
  {
    hide MatMul, Add, Elements, Wired;
    ConstantNames(g);
    NamesApart(g);
    ConstantsOfTwo(decode, g.constants);
    var product := MatMul(ar, x, Tensorial(decode, g.constants[Weights(g)]));
    if product.Just? {
      var env := Constants(decode, g.constants)[g.inputs[0].name := x];
      assert Evaluate(ar, env, g.nodes[0]) == Just(env[g.nodes[0].outputs[0] := product.value]);
      var next := env[g.nodes[0].outputs[0] := product.value];
      assert g.nodes[1..][0] == g.nodes[1] && g.nodes[1..][1..] == [];
      assert EvaluateAll(ar, env, g.nodes) == EvaluateAll(ar, next, g.nodes[1..]);
      var bias := Tensorial(decode, g.constants[1 - Weights(g)]);
      assert next[g.nodes[0].outputs[0]] == product.value && next[g.constants[1 - Weights(g)].name] == bias;
      LastStep(ar, next, g.nodes[1], if BiasLast(g) then product.value else bias, if BiasLast(g) then bias else product.value);
      assert g.nodes[1..] == [g.nodes[1]];
    }
  }

  lemma LastStep<F>(ar: Arithmetic<F>, env: Environment<F>, n: Node, a: Tensor<F>, b: Tensor<F>)
    requires n.op == "Add" && |n.inputs| == 2 && |n.outputs| == 1 && n.inputs[0] in env && n.inputs[1] in env
    requires env[n.inputs[0]] == a && env[n.inputs[1]] == b
    ensures Evaluate(ar, env, n) ==
            if Add(ar, a, b).Nothing? then Nothing else Just(env[n.outputs[0] := Add(ar, a, b).value])
    ensures EvaluateAll(ar, env, [n]) == Evaluate(ar, env, n)
  {
    hide Add;
    assert [n][1..] == [];
  }

  lemma ConstantNames<F>(g: Graph<F>)
    requires TwoNodes(g) && Wired(g)
    ensures g.constants[0].name != g.constants[1].name
  {
  }

  lemma DivRem(i: nat, m: int, n: int)
    requires n > 0 && m > 0 && i < m * n
    ensures Div(i, n) < m && Rem(i, n) < n && Div(i, n) * n + Rem(i, n) == i
  {
    if i / n >= m {
      assert (i / n) * n >= m * n by { assert (i / n - m) * n >= 0; }
    }
  }

  /** A matrix broadcast to its own shape keeps every element in place. */
  lemma OriginOfMatrix(m: int, n: int, i: nat)
    requires m > 0 && n > 0 && i < m * n
    ensures AllPositive([m, n]) && Origin([m, n], [m, n], i) == i
  {
    hide Div, Rem;
    DivRem(i, m, n);
    RemOfSmall(Div(i, n), m);
    RemOfOne(i, n);
    assert [m, n][..1] == [m] && [m][..0] == [];
    assert Origin([m], [m], Div(i, n)) == if m == 1 then 0 else Rem(Div(i, n), m);
  }

  lemma RemOfSmall(i: nat, m: int)
    requires m > 0 && i < m
    ensures Rem(i, m) == i
  {
  }

  lemma RemOfOne(i: nat, n: int)
    requires n > 0
    ensures n == 1 ==> Rem(i, n) == 0
  {
  }

  /** A row broadcast over a matrix is read at the column. */
  lemma OriginOfRow(m: int, n: int, i: nat)
    requires m > 0 && n > 0 && i < m * n
    ensures AllPositive([m, n]) && Origin([m, n], [n], i) == Rem(i, n)
  {
    hide Div, Rem;
    RemOfOne(i, n);
    assert [m, n][..1] == [m] && [n][..0] == [];
    assert Origin([m], [], Div(i, n)) == 0;
  }

  lemma BroadcastRow(m: int, n: int)
    ensures Broadcast([m, n], [n]) == Just([m, n]) && Broadcast([n], [m, n]) == Just([m, n])
  {
    assert [m, n][..1] == [m] && [n][..0] == [] && [m] + [n] == [m, n];
    assert Broadcast([m], []) == Just([m]) && Broadcast([], [m]) == Just([m]);
  }

  lemma {:induction false} SumIsDot<F>(ar: Arithmetic<F>, a: Affine<F>, x: Tensor<F>, w: Tensor<F>, row: nat, col: nat, upto: nat)
    requires x.dims == [a.rows, a.inner] && w.dims == [a.inner, a.columns] && w.data == a.weights
    ensures Sum(ar, x, w, row, col, upto) == Dot(ar, a, x.data, row, col, upto)
  {
    if upto > 0 {
      SumIsDot(ar, a, x, w, row, col, upto - 1);
    }
  }

  /** The result in row-major order, cell by cell. */
  lemma {:induction false} RowsAt<F>(ar: Arithmetic<F>, a: Affine<F>, x: seq<F>, rows: nat, i: nat)
    requires a.columns > 0 && i < rows * a.columns
    ensures Rows(ar, a, x, rows)[i] == Cell(ar, a, x, Div(i, a.columns), Rem(i, a.columns))
  {
    hide Cell;
    var n := a.columns;
    DivRem(i, rows, n);
    if i < (rows - 1) * n {
      RowsAt(ar, a, x, rows - 1, i);
    } else {
      SplitLast(i, rows, n);
      assert Rows(ar, a, x, rows) == Rows(ar, a, x, rows - 1) + Row(ar, a, x, rows - 1);
    }
  }

  lemma SplitLast(i: nat, rows: nat, n: nat)
    requires n > 0 && (rows - 1) * n <= i < rows * n
    ensures rows > 0 && Div(i, n) == rows - 1 && Rem(i, n) == i - (rows - 1) * n
  {
    DivRem(i, rows, n);
    assert rows * n == (rows - 1) * n + n;
    assert (Div(i, n) + 1) * n == Div(i, n) * n + n;
    MultiplyMono(Div(i, n) + 1, rows - 1, n);
  }

  lemma MultiplyMono(a: int, b: int, n: nat)
    ensures a <= b ==> a * n <= b * n
  {
    assert b * n - a * n == (b - a) * n;
  }

  /** The element at `i` of the graph's result. */
  function Combined<F>(ar: Arithmetic<F>, a: Affine<F>, x: seq<F>, biasLast: bool, i: nat): F
    requires a.columns > 0
  {
    var sum := Dot(ar, a, x, Div(i, a.columns), Rem(i, a.columns), a.inner);
    var bias := At(a.bias, Rem(i, a.columns), ar.zero);
    if biasLast then ar.add(sum, bias) else ar.add(bias, sum)
  }

  ghost predicate Matches<F>(ar: Arithmetic<F>, a: Affine<F>, x: seq<F>, biasLast: bool, r: Maybe<Tensor<F>>) {
    && a.columns > 0 && r.Just? && r.value.dims == [a.rows, a.columns] && |r.value.data| == a.rows * a.columns
    && forall i | 0 <= i < |r.value.data| :: r.value.data[i] == Combined(ar, a, x, biasLast, i)
  }

  lemma ProductMeans<F>(ar: Arithmetic<F>, a: Affine<F>, x: Tensor<F>, w: Tensor<F>)
    requires Shaped(a) && x.dims == [a.rows, a.inner] && w.dims == [a.inner, a.columns] && w.data == a.weights
    ensures
      var r := MatMul(ar, x, w);
      && r.Just? && r.value.dims == [a.rows, a.columns] && |r.value.data| == a.rows * a.columns
      && forall i | 0 <= i < |r.value.data| ::
           r.value.data[i] == Dot(ar, a, x.data, Div(i, a.columns), Rem(i, a.columns), a.inner)
  {
    var r := MatMul(ar, x, w);
    forall i | 0 <= i < |r.value.data|
      ensures r.value.data[i] == Dot(ar, a, x.data, Div(i, a.columns), Rem(i, a.columns), a.inner)
    {
      SumIsDot(ar, a, x, w, Div(i, a.columns), Rem(i, a.columns), a.inner);
    }
  }

  lemma AdditionMeans<F>(ar: Arithmetic<F>, a: Affine<F>, x: seq<F>, p: Tensor<F>, b: Tensor<F>, biasLast: bool)
    requires Shaped(a) && p.dims == [a.rows, a.columns] && |p.data| == a.rows * a.columns && b == Tensor([a.columns], a.bias)
    requires forall i | 0 <= i < |p.data| :: p.data[i] == Dot(ar, a, x, Div(i, a.columns), Rem(i, a.columns), a.inner)
    ensures Matches(ar, a, x, biasLast, if biasLast then Add(ar, p, b) else Add(ar, b, p))
  {
    hide Shaped, Broadcast, Origin, Volume, Dot, Div, Rem;
    var m, n := a.rows, a.columns;
    ShapedSizes(a);
    BroadcastRow(m, n);
    VolumeOfTwo(m, n);
    var dims := [m, n];
    assert AllPositive(dims);
    var r := if biasLast then Add(ar, p, b) else Add(ar, b, p);
    forall i | 0 <= i < |r.value.data| ensures r.value.data[i] == Combined(ar, a, x, biasLast, i) {
      OriginOfMatrix(m, n, i);
      OriginOfRow(m, n, i);
      var sum := At(p.data, Origin(dims, p.dims, i), ar.zero);
      var bias := At(b.data, Origin(dims, b.dims, i), ar.zero);
      assert r.value.data[i] == if biasLast then ar.add(sum, bias) else ar.add(bias, sum);
    }
  }

  lemma ShapedSizes<F>(a: Affine<F>)
    requires Shaped(a)
    ensures a.rows > 0 && a.columns > 0 && a.rows * a.columns > 0
  {
    Grow(a.rows, a.columns);
  }

  /** Every supported graph is defined on every input of its shape, and element by element it is this. */
  lemma Denotation<F>(ar: Arithmetic<F>, decode: seq<bv8> -> F, m: Model<F>, x: Tensor<F>)
    requires Supported(ar, decode, m)
    requires var a := Compiled(ar, decode, m); x.dims == [a.rows, a.inner] && |x.data| == a.rows * a.inner
    ensures Matches(ar, Compiled(ar, decode, m), x.data, BiasLast(m.graph), Denote(ar, decode, m.graph, x))
  {
    hide GoodConstant, Header, Wired, MatMul, Add, Denote, Matches, Shaped, Elements;
    var g, a := m.graph, Compiled(ar, decode, m);
    CompiledIsShaped(ar, decode, m);
    var w, b := Tensorial(decode, g.constants[Weights(g)]), Tensorial(decode, g.constants[1 - Weights(g)]);
    ConstantShape(ar, decode, g.constants[Weights(g)], [a.inner, a.columns]);
    ConstantShape(ar, decode, g.constants[1 - Weights(g)], [a.columns]);
    ProductMeans(ar, a, x, w);
    TwoSteps(ar, decode, g, x);
    AdditionMeans(ar, a, x.data, MatMul(ar, x, w).value, b, BiasLast(g));
  }

  lemma ConstantShape<F>(ar: Arithmetic<F>, decode: seq<bv8> -> F, c: Constant<F>, dims: seq<int>)
    requires GoodConstant(ar, decode, c, dims)
    ensures c.dims == dims
  {
  }

  ghost predicate Commutes<F>(ar: Arithmetic<F>, a: Affine<F>, x: seq<F>) {
    && a.columns > 0
    && forall i: nat | i < a.rows * a.columns :: Combined(ar, a, x, false, i) == Combined(ar, a, x, true, i)
  }

  /**
    * An accepted graph denotes the function of the emitted kernel, and exactly then: the addition
    * names the product first, or every sum that arises commutes with its bias, as it does in
    * IEEE arithmetic.
    */
  lemma GraphIsKernel<F>(ar: Arithmetic<F>, decode: seq<bv8> -> F, m: Model<F>, x: Tensor<F>)
    requires Supported(ar, decode, m)
    requires var a := Compiled(ar, decode, m); x.dims == [a.rows, a.inner] && |x.data| == a.rows * a.inner
    ensures
      var a := Compiled(ar, decode, m);
      Denote(ar, decode, m.graph, x) == Just(Tensor([a.rows, a.columns], Rows(ar, a, x.data, a.rows)))
      <==> BiasLast(m.graph) || Commutes(ar, a, x.data)
  {
    hide Header, Wired, ShapedGraph, Compiled, Denote, Combined, Rows;
    Denotation(ar, decode, m, x);
    var a, r := Compiled(ar, decode, m), Denote(ar, decode, m.graph, x);
    var rows := Rows(ar, a, x.data, a.rows);
    forall i: nat | i < a.rows * a.columns ensures rows[i] == Combined(ar, a, x.data, true, i) {
      KernelAt(ar, a, x.data, i);
    }
    if BiasLast(m.graph) || Commutes(ar, a, x.data) {
      assert r.value.data == rows;
    }
  }

  lemma KernelAt<F>(ar: Arithmetic<F>, a: Affine<F>, x: seq<F>, i: nat)
    requires a.columns > 0 && i < a.rows * a.columns
    ensures Rows(ar, a, x, a.rows)[i] == Combined(ar, a, x, true, i)
  {
    RowsAt(ar, a, x, a.rows, i);
  }

  ghost predicate AddCommutes<F(!new)>(ar: Arithmetic<F>) {
    forall a, b :: ar.add(a, b) == ar.add(b, a)
  }

  lemma CommutingSums<F(!new)>(ar: Arithmetic<F>, a: Affine<F>, x: seq<F>)
    requires AddCommutes(ar) && a.columns > 0
    ensures Commutes(ar, a, x)
  {
    hide Dot, Div, Rem;
  }

  /** Under a commutative addition every supported graph is its kernel, whatever the weights and the input. */
  lemma CommutingGraphsAreKernels<F(!new)>(ar: Arithmetic<F>, decode: seq<bv8> -> F, m: Model<F>, x: Tensor<F>)
    requires Supported(ar, decode, m) && AddCommutes(ar)
    requires var a := Compiled(ar, decode, m); x.dims == [a.rows, a.inner] && |x.data| == a.rows * a.inner
    ensures var a := Compiled(ar, decode, m);
            Denote(ar, decode, m.graph, x) == Just(Tensor([a.rows, a.columns], Rows(ar, a, x.data, a.rows)))
  {
    hide Header, Wired, ShapedGraph, Compiled, Denote, Commutes, Rows, Shaped, AddCommutes;
    CompiledIsShaped(ar, decode, m);
    ShapedSizes(Compiled(ar, decode, m));
    CommutingSums(ar, Compiled(ar, decode, m), x.data);
    GraphIsKernel(ar, decode, m, x);
  }

  /**
    * The kernel of an accepted model, called on any buffers: when it succeeds the output holds what
    * the graph denotes for the input as it was.
    */
  method InferGraph<F(!new)>(ar: Arithmetic<F>, decode: seq<bv8> -> F, m: Model<F>, mem: array<F>, input: nat, inputCount: nat,
                             output: nat, outputCount: nat, work: nat, workCount: nat) returns (code: int)
    requires Supported(ar, decode, m) && mem.Length == CELLS
    modifies mem
    ensures code == 0 && (BiasLast(m.graph) || AddCommutes(ar)) ==>
      && input / 4 + inputCount <= CELLS && output / 4 + outputCount <= CELLS
      && var a := Compiled(ar, decode, m);
         Denote(ar, decode, m.graph, Tensor([a.rows, a.inner], old(mem[input / 4..input / 4 + inputCount]))) ==
         Just(Tensor([a.rows, a.columns], mem[output / 4..output / 4 + outputCount]))
  {
    hide Header, Wired, ShapedGraph, Compiled, Denote, Rows, Shaped, AddCommutes, Commutes, Region, Overlap;
    var a := Compiled(ar, decode, m);
    CompiledIsShaped(ar, decode, m);
    code := Infer(ar, a, mem, input, inputCount, output, outputCount, work, workCount);
    if code == 0 {
      ghost var x := Tensor([a.rows, a.inner], old(mem[input / 4..input / 4 + inputCount]));
      GraphIsKernel(ar, decode, m, x);
      if AddCommutes(ar) {
        CommutingGraphsAreKernels(ar, decode, m, x);
      }
    }
  }
}
