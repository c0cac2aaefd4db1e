/**
  * The kernel that the ahead-of-time compiler emits for a matrix product and a bias: it checks its
  * three buffers by address, computes into the workspace and copies to the output only when every
  * number is finite.
  *
  * Memory is the whole address space in cells of four bytes, and pointers are byte addresses, so
  * that input and output may overlap in any aligned way. Addition, multiplication and the
  * finiteness test are parameters about which nothing is assumed: a result stated with them leaves
  * no room for reassociating the sums.
  */
module AffineKernel {
  const ADDRESS_MAX: nat := 0xFFFF_FFFF_FFFF_FFFF
  const CELLS: nat := 0x4000_0000_0000_0000

  datatype Arithmetic<!F> = Arithmetic(zero: F, add: (F, F) -> F, multiply: (F, F) -> F, finite: F -> bool)

  /** The compiled constants: `rows` by `inner` inputs, `inner` by `columns` weights, a bias per column. */
  datatype Affine<F> = Affine(rows: nat, inner: nat, columns: nat, weights: seq<F>, bias: seq<F>)

  predicate Shaped<F>(a: Affine<F>) {
    a.rows > 0 && a.inner > 0 && a.columns > 0 && |a.weights| == a.inner * a.columns && |a.bias| == a.columns
  }

  function At<F>(s: seq<F>, i: int, otherwise: F): F {
    if 0 <= i < |s| then s[i] else otherwise
  }

  // ---------------------------------------------------------------------------------------------
  // What the kernel computes

  /** The first `upto` products of a row and a column, summed from zero and from the left. */
  function Dot<F>(ar: Arithmetic<F>, a: Affine<F>, x: seq<F>, row: nat, col: nat, upto: nat): F {
    if upto == 0 then ar.zero
    else ar.add(Dot(ar, a, x, row, col, upto - 1),
                ar.multiply(At(x, row * a.inner + (upto - 1), ar.zero), At(a.weights, (upto - 1) * a.columns + col, ar.zero)))
  }

  function Cell<F>(ar: Arithmetic<F>, a: Affine<F>, x: seq<F>, row: nat, col: nat): F {
    ar.add(Dot(ar, a, x, row, col, a.inner), At(a.bias, col, ar.zero))
  }

  function Row<F>(ar: Arithmetic<F>, a: Affine<F>, x: seq<F>, row: nat): (r: seq<F>)
    ensures |r| == a.columns
  {
    seq(a.columns, col requires 0 <= col => Cell(ar, a, x, row, col))
  }

  /** The first `n` rows of the result, in row-major order. */
  function Rows<F>(ar: Arithmetic<F>, a: Affine<F>, x: seq<F>, n: nat): (r: seq<F>)
    ensures |r| == n * a.columns
  {
    if n == 0 then [] else Rows(ar, a, x, n - 1) + Row(ar, a, x, n - 1)
  }

  predicate AllFinite<F>(ar: Arithmetic<F>, s: seq<F>) {
    forall i | 0 <= i < |s| :: ar.finite(s[i])
  }

  // ---------------------------------------------------------------------------------------------
  // Buffers

  /** A non-null aligned address whose buffer ends within the address space. */
  predicate Region(p: nat, count: nat) {
    p <= ADDRESS_MAX && p != 0 && p % 4 == 0 && count <= (ADDRESS_MAX - p) / 4
  }

  /** The test as the kernel makes it, in address arithmetic that wraps. */
  predicate Overlap(a: nat, an: nat, b: nat, bn: nat) {
    a < (b + bn * 4) % (ADDRESS_MAX + 1) && b < (a + an * 4) % (ADDRESS_MAX + 1)
  }

  predicate Holds(p: nat, count: nat, address: nat) {
    p <= address < p + count * 4
  }

  /** Checked regions never wrap, and for buffers that hold something the test is exact. */
  lemma OverlapIsExact(a: nat, an: nat, b: nat, bn: nat)
    requires Region(a, an) && Region(b, bn) && an > 0 && bn > 0
    ensures a + an * 4 <= ADDRESS_MAX && b + bn * 4 <= ADDRESS_MAX
    ensures Overlap(a, an, b, bn) <==> exists address: nat :: Holds(a, an, address) && Holds(b, bn, address)
  {
    assert (a + an * 4) % (ADDRESS_MAX + 1) == a + an * 4 && (b + bn * 4) % (ADDRESS_MAX + 1) == b + bn * 4;
    if Overlap(a, an, b, bn) {
      var address := if a < b then b else a;
      assert Holds(a, an, address) && Holds(b, bn, address);
    }
  }

  /** A checked buffer as a stretch of cells; buffers that do not overlap share no cell. */
  lemma CellsApart(a: nat, an: nat, b: nat, bn: nat)
    requires Region(a, an) && Region(b, bn) && an > 0 && bn > 0
    ensures a / 4 + an <= CELLS && b / 4 + bn <= CELLS
    ensures !Overlap(a, an, b, bn) ==> a / 4 + an <= b / 4 || b / 4 + bn <= a / 4
  {
    OverlapIsExact(a, an, b, bn);
    assert (a + an * 4) % (ADDRESS_MAX + 1) == a + an * 4 && (b + bn * 4) % (ADDRESS_MAX + 1) == b + bn * 4;
  }

  /** The buffers the kernel accepts. */
  predicate Accepts<F>(a: Affine<F>, input: nat, inputCount: nat, output: nat, outputCount: nat, work: nat, workCount: nat) {
    && inputCount == a.rows * a.inner && outputCount == a.rows * a.columns && workCount == a.rows * a.columns
    && Region(input, inputCount) && Region(output, outputCount) && Region(work, workCount)
    && !Overlap(work, workCount, input, inputCount) && !Overlap(work, workCount, output, outputCount)
  }

  // ---------------------------------------------------------------------------------------------
  // The loops

  /** Only the cells of one stretch may differ. */
  twostate predicate OnlyWithin<F>(mem: array<F>, base: int, n: int)
    reads mem
  {
    forall p | 0 <= p < mem.Length && !(base <= p < base + n) :: mem[p] == old(mem[p])
  }

  method ZeroRow<F>(ar: Arithmetic<F>, mem: array<F>, base: nat, n: nat)
    requires base + n <= mem.Length
    modifies mem
    ensures OnlyWithin(mem, base, n)
    ensures forall p | base <= p < base + n :: mem[p] == ar.zero
  {
    for col := 0 to n
      invariant OnlyWithin(mem, base, n)
      invariant forall p | base <= p < base + col :: mem[p] == ar.zero
    {
      mem[base + col] := ar.zero;
    }
  }

  /** Adds one input times one row of weights to a row of the workspace. */
  method Accumulate<F>(ar: Arithmetic<F>, mem: array<F>, base: nat, n: nat, x: nat, weights: seq<F>, at: nat)
    requires base + n <= mem.Length && x < mem.Length && !(base <= x < base + n) && at + n <= |weights|
    modifies mem
    ensures OnlyWithin(mem, base, n)
    ensures forall p | base <= p < base + n ::
      mem[p] == ar.add(old(mem[p]), ar.multiply(old(mem[x]), weights[at + p - base]))
  {
    for col := 0 to n
      invariant OnlyWithin(mem, base, n)
      invariant forall p | base <= p < base + col ::
        mem[p] == ar.add(old(mem[p]), ar.multiply(old(mem[x]), weights[at + p - base]))
      invariant forall p | base + col <= p < base + n :: mem[p] == old(mem[p])
    {
      mem[base + col] := ar.add(mem[base + col], ar.multiply(mem[x], weights[at + col]));
    }
  }

  /** Adds the bias to a row; stops at the first sum that is not finite. */
  method FinishRow<F>(ar: Arithmetic<F>, mem: array<F>, base: nat, bias: seq<F>) returns (ok: bool)
    requires base + |bias| <= mem.Length
    modifies mem
    ensures OnlyWithin(mem, base, |bias|)
    ensures ok <==> forall p | base <= p < base + |bias| :: ar.finite(ar.add(old(mem[p]), bias[p - base]))
    ensures ok ==> forall p | base <= p < base + |bias| :: mem[p] == ar.add(old(mem[p]), bias[p - base])
  {
    for col := 0 to |bias|
      invariant OnlyWithin(mem, base, |bias|)
      invariant forall p | base <= p < base + col ::
        mem[p] == ar.add(old(mem[p]), bias[p - base]) && ar.finite(mem[p])
      invariant forall p | base + col <= p < base + |bias| :: mem[p] == old(mem[p])
    {
      mem[base + col] := ar.add(mem[base + col], bias[col]);
      if !ar.finite(mem[base + col]) {
        assert mem[base + col] == ar.add(old(mem[base + col]), bias[col]);
        return false;
      }
    }
    return true;
  }

  lemma IndexInside(row: nat, rows: nat, n: nat, col: nat)
    requires row < rows && col < n
    ensures row * n + col < rows * n && (row + 1) * n == row * n + n <= rows * n
  {
    assert rows * n - (row + 1) * n == (rows - row - 1) * n;
  }

  lemma InputInside<F>(a: Affine<F>, row: nat, inner: nat)
    requires Shaped(a) && row < a.rows && inner < a.inner
    ensures row * a.inner + inner < a.rows * a.inner && inner * a.columns + a.columns <= |a.weights|
  {
    IndexInside(row, a.rows, a.inner, inner);
    IndexInside(inner, a.inner, a.columns, 0);
  }

  lemma RowInside<F>(a: Affine<F>, row: nat)
    requires Shaped(a) && row < a.rows
    ensures (row + 1) * a.columns == row * a.columns + a.columns <= a.rows * a.columns
  {
    IndexInside(row, a.rows, a.columns, 0);
  }

  /** The cells of the buffer hold the sequence. */
  ghost predicate Stored<F>(mem: array<F>, at: nat, s: seq<F>)
    reads mem
  {
    at + |s| <= mem.Length && mem[at..at + |s|] == s
  }

  lemma StoredCell<F>(mem: array<F>, at: nat, s: seq<F>, i: nat)
    requires Stored(mem, at, s) && i < |s|
    ensures mem[at + i] == s[i]
  {
    assert mem[at..at + |s|][i] == s[i];
  }

  predicate Apart(a: nat, an: nat, b: nat, bn: nat) {
    a + an <= b || b + bn <= a
  }

  lemma {:induction false} StaysStored<F>(was: seq<F>, now: seq<F>, at: nat, n: nat)
    requires |was| == |now| && at + n <= |was| && forall p | at <= p < at + n :: now[p] == was[p]
    ensures now[at..at + n] == was[at..at + n]
  {
  }

  /** The row of partial sums after the first `upto` inputs. */
  ghost predicate Partial<F>(ar: Arithmetic<F>, a: Affine<F>, x: seq<F>, mem: array<F>, base: nat, row: nat, upto: nat)
    reads mem
  {
    && base + a.columns <= mem.Length
    && forall p | base <= p < base + a.columns :: mem[p] == Dot(ar, a, x, row, p - base, upto)
  }

  /** One more input. */
  method RowStep<F>(ar: Arithmetic<F>, a: Affine<F>, mem: array<F>, input: nat, base: nat, row: nat, inner: nat, ghost x: seq<F>)
    requires Shaped(a) && row < a.rows && inner < a.inner && |x| == a.rows * a.inner
    requires Stored(mem, input, x) && Apart(input, |x|, base, a.columns)
    requires Partial(ar, a, x, mem, base, row, inner)
    modifies mem
    ensures OnlyWithin(mem, base, a.columns) && Stored(mem, input, x)
    ensures Partial(ar, a, x, mem, base, row, inner + 1)
  {
    InputInside(a, row, inner);
    var i := row * a.inner + inner;
    StoredCell(mem, input, x, i);
    Accumulate(ar, mem, base, a.columns, input + i, a.weights, inner * a.columns);
    StaysStored(old(mem[..]), mem[..], input, |x|);
  }

  /** One row of the result, computed in the workspace. */
  method ComputeRow<F>(ar: Arithmetic<F>, a: Affine<F>, mem: array<F>, input: nat, base: nat, row: nat, ghost x: seq<F>)
    returns (ok: bool)
    requires Shaped(a) && row < a.rows && |x| == a.rows * a.inner
    requires Stored(mem, input, x) && Apart(input, |x|, base, a.columns) && base + a.columns <= mem.Length
    modifies mem
    ensures OnlyWithin(mem, base, a.columns) && Stored(mem, input, x)
    ensures ok <==> AllFinite(ar, Row(ar, a, x, row))
    ensures ok ==> Stored(mem, base, Row(ar, a, x, row))
  {
    hide Shaped, Row, AllFinite;
    ZeroRow(ar, mem, base, a.columns);
    StaysStored(old(mem[..]), mem[..], input, |x|);
    for inner := 0 to a.inner
      invariant OnlyWithin(mem, base, a.columns) && Stored(mem, input, x)
      invariant Partial(ar, a, x, mem, base, row, inner)
    {
      RowStep(ar, a, mem, input, base, row, inner, x);
    }
    ok := Finish(ar, a, mem, input, base, row, x);
  }

  method Finish<F>(ar: Arithmetic<F>, a: Affine<F>, mem: array<F>, input: nat, base: nat, row: nat, ghost x: seq<F>)
    returns (ok: bool)
    requires Shaped(a) && Stored(mem, input, x) && Apart(input, |x|, base, a.columns)
    requires Partial(ar, a, x, mem, base, row, a.inner)
    modifies mem
    ensures OnlyWithin(mem, base, a.columns) && Stored(mem, input, x)
    ensures ok <==> AllFinite(ar, Row(ar, a, x, row))
    ensures ok ==> Stored(mem, base, Row(ar, a, x, row))
  {
    hide Shaped, Dot, Cell;
    ghost var was := mem[..];
    BiasLength(a);
    RowCells(ar, a, x, mem[..], base, row);
    ok := FinishRow(ar, mem, base, a.bias);
    StaysStored(was, mem[..], input, |x|);
    Finished(ar, was, mem[..], base, a.bias, Row(ar, a, x, row), ok);
  }

  lemma BiasLength<F>(a: Affine<F>)
    requires Shaped(a)
    ensures |a.bias| == a.columns
  {
  }

  /** The partial sums over all inputs and the bias make up the row. */
  lemma RowCells<F>(ar: Arithmetic<F>, a: Affine<F>, x: seq<F>, was: seq<F>, base: nat, row: nat)
    requires |a.bias| == a.columns && base + a.columns <= |was|
    requires forall p | base <= p < base + a.columns :: was[p] == Dot(ar, a, x, row, p - base, a.inner)
    ensures Sums(ar, was, base, a.bias, Row(ar, a, x, row))
  {
    hide Dot;
  }

  ghost predicate Sums<F>(ar: Arithmetic<F>, was: seq<F>, base: nat, bias: seq<F>, r: seq<F>) {
    && base + |bias| <= |was| && |r| == |bias|
    && forall p | base <= p < base + |bias| :: r[p - base] == ar.add(was[p], bias[p - base])
  }

  lemma Finished<F>(ar: Arithmetic<F>, was: seq<F>, now: seq<F>, base: nat, bias: seq<F>, r: seq<F>, ok: bool)
    requires Sums(ar, was, base, bias, r) && |now| == |was|
    requires ok <==> forall p | base <= p < base + |bias| :: ar.finite(ar.add(was[p], bias[p - base]))
    requires ok ==> forall p | base <= p < base + |bias| :: now[p] == ar.add(was[p], bias[p - base])
    ensures ok <==> AllFinite(ar, r)
    ensures ok ==> now[base..base + |r|] == r
  {
    if AllFinite(ar, r) {
      forall p | base <= p < base + |bias| ensures ar.finite(ar.add(was[p], bias[p - base])) {
        assert ar.finite(r[p - base]);
      }
    }
    if ok {
      forall i | 0 <= i < |r| ensures ar.finite(r[i]) && now[base + i] == r[i] {
        assert r[base + i - base] == ar.add(was[base + i], bias[base + i - base]);
      }
    }
  }

  lemma {:induction false} RowsPrefix<F>(ar: Arithmetic<F>, a: Affine<F>, x: seq<F>, n: nat, m: nat)
    requires n <= m
    ensures Rows(ar, a, x, n) <= Rows(ar, a, x, m)
  {
    if n < m {
      RowsPrefix(ar, a, x, n, m - 1);
    }
  }

  lemma FiniteRows<F>(ar: Arithmetic<F>, a: Affine<F>, x: seq<F>, row: nat, m: nat)
    requires row < m
    ensures AllFinite(ar, Rows(ar, a, x, row + 1)) <==> AllFinite(ar, Rows(ar, a, x, row)) && AllFinite(ar, Row(ar, a, x, row))
    ensures AllFinite(ar, Rows(ar, a, x, m)) ==> AllFinite(ar, Rows(ar, a, x, row + 1))
  {
    var before, r, rows := Rows(ar, a, x, row), Row(ar, a, x, row), Rows(ar, a, x, row + 1);
    assert rows == before + r;
    assert forall i | 0 <= i < |before| :: before[i] == rows[i];
    assert forall i | 0 <= i < |r| :: r[i] == rows[|before| + i];
    RowsPrefix(ar, a, x, row + 1, m);
  }

  lemma Extended<F>(was: seq<F>, now: seq<F>, at: nat, before: seq<F>, r: seq<F>)
    requires |was| == |now| && at + |before| + |r| <= |was|
    requires was[at..at + |before|] == before && now[at + |before|..at + |before| + |r|] == r
    requires forall p | 0 <= p < |was| && !(at + |before| <= p < at + |before| + |r|) :: now[p] == was[p]
    ensures now[at..at + |before + r|] == before + r
  {
    StaysStored(was, now, at, |before|);
    assert now[at..at + |before + r|] == now[at..at + |before|] + now[at + |before|..at + |before| + |r|];
  }

  /** All rows, or the first that is not finite. */
  method ComputeRows<F>(ar: Arithmetic<F>, a: Affine<F>, mem: array<F>, input: nat, work: nat, ghost x: seq<F>) returns (ok: bool)
    requires Shaped(a) && |x| == a.rows * a.inner && Stored(mem, input, x)
    requires Apart(input, |x|, work, a.rows * a.columns) && work + a.rows * a.columns <= mem.Length
    modifies mem
    ensures OnlyWithin(mem, work, a.rows * a.columns)
    ensures ok <==> AllFinite(ar, Rows(ar, a, x, a.rows))
    ensures ok ==> Stored(mem, work, Rows(ar, a, x, a.rows))
  {
    hide Shaped, Rows, AllFinite;
    NoRows(ar, a, x);
    for row := 0 to a.rows
      invariant OnlyWithin(mem, work, a.rows * a.columns) && Stored(mem, input, x)
      invariant Stored(mem, work, Rows(ar, a, x, row))
      invariant AllFinite(ar, Rows(ar, a, x, row))
    {
      var fine := ComputeNext(ar, a, mem, input, work, row, x);
      if !fine { return false; }
    }
    return true;
  }

  lemma NoRows<F>(ar: Arithmetic<F>, a: Affine<F>, x: seq<F>)
    ensures Rows(ar, a, x, 0) == [] && AllFinite(ar, Rows(ar, a, x, 0))
  {
  }

  /** One more row below the ones that are done. */
  method ComputeNext<F>(ar: Arithmetic<F>, a: Affine<F>, mem: array<F>, input: nat, work: nat, row: nat, ghost x: seq<F>)
    returns (ok: bool)
    requires Shaped(a) && row < a.rows && |x| == a.rows * a.inner && Stored(mem, input, x)
    requires Apart(input, |x|, work, a.rows * a.columns) && work + a.rows * a.columns <= mem.Length
    requires Stored(mem, work, Rows(ar, a, x, row)) && AllFinite(ar, Rows(ar, a, x, row))
    modifies mem
    ensures OnlyWithin(mem, work, a.rows * a.columns) && Stored(mem, input, x)
    ensures ok ==> Stored(mem, work, Rows(ar, a, x, row + 1)) && AllFinite(ar, Rows(ar, a, x, row + 1))
    ensures !ok ==> !AllFinite(ar, Rows(ar, a, x, a.rows))
  {
    hide Shaped, Row, AllFinite;
    RowInside(a, row);
    ghost var before := mem[..];
    ok := ComputeRow(ar, a, mem, input, work + row * a.columns, row, x);
    FiniteRows(ar, a, x, row, a.rows);
    if ok {
      Extended(before, mem[..], work, Rows(ar, a, x, row), Row(ar, a, x, row));
    }
  }

  method InputFinite<F>(ar: Arithmetic<F>, mem: array<F>, input: nat, count: nat) returns (ok: bool)
    requires input + count <= mem.Length
    ensures ok <==> AllFinite(ar, mem[input..input + count])
  {
    for i := 0 to count
      invariant forall p | input <= p < input + i :: ar.finite(mem[p])
    {
      if !ar.finite(mem[input + i]) {
        assert mem[input..input + count][i] == mem[input + i];
        return false;
      }
    }
    return true;
  }

  method Commit<F>(mem: array<F>, output: nat, work: nat, count: nat)
    requires output + count <= mem.Length && work + count <= mem.Length && Apart(output, count, work, count)
    modifies mem
    ensures OnlyWithin(mem, output, count)
    ensures mem[output..output + count] == old(mem[work..work + count])
  {
    for i := 0 to count
      invariant OnlyWithin(mem, output, count)
      invariant forall p | output <= p < output + i :: mem[p] == old(mem[p - output + work])
    {
      mem[output + i] := mem[work + i];
    }
  }

  /**
    * Zero: the output holds the result for the input as it was on entry, even where the two buffers
    * overlap. One: the buffers are refused. Two: an input or a result is not finite. Nothing but the
    * workspace changes unless the call succeeds, and then nothing but the workspace and the output.
    */
  method Infer<F>(ar: Arithmetic<F>, a: Affine<F>, mem: array<F>, input: nat, inputCount: nat,
                  output: nat, outputCount: nat, work: nat, workCount: nat) returns (code: int)
    requires Shaped(a) && mem.Length == CELLS
    modifies mem
    ensures code == 1 <==> !Accepts(a, input, inputCount, output, outputCount, work, workCount)
    ensures code == 1 ==> mem[..] == old(mem[..])
    ensures code != 1 ==>
      && input / 4 + inputCount <= CELLS && output / 4 + outputCount <= CELLS
      && var x := old(mem[input / 4..input / 4 + inputCount]);
      && (code == 0 <==> AllFinite(ar, x) && AllFinite(ar, Rows(ar, a, x, a.rows)))
      && (code == 0 ==> mem[output / 4..output / 4 + outputCount] == Rows(ar, a, x, a.rows))
    ensures code == 0 || code == 1 || code == 2
    ensures forall p | 0 <= p < CELLS && !(work / 4 <= p < work / 4 + workCount) &&
                       (code != 0 || !(output / 4 <= p < output / 4 + outputCount)) :: mem[p] == old(mem[p])
    ensures code == 2 ==> mem[output / 4..output / 4 + outputCount] == old(mem[output / 4..output / 4 + outputCount])
  {
    if inputCount != a.rows * a.inner || outputCount != a.rows * a.columns || workCount != a.rows * a.columns ||
       !Region(input, inputCount) || !Region(output, outputCount) || !Region(work, workCount) ||
       Overlap(work, workCount, input, inputCount) || Overlap(work, workCount, output, outputCount)
    {
      return 1;
    }
    Positive(a);
    CellsApart(work, workCount, input, inputCount);
    CellsApart(work, workCount, output, outputCount);
    code := Run(ar, a, mem, input / 4, output / 4, work / 4);
  }

  lemma Positive<F>(a: Affine<F>)
    requires Shaped(a)
    ensures a.rows * a.inner > 0 && a.rows * a.columns > 0
  {
    IndexInside(0, a.rows, a.inner, 0);
    IndexInside(0, a.rows, a.columns, 0);
  }

  /** The kernel once its buffers are accepted. */
  method Run<F>(ar: Arithmetic<F>, a: Affine<F>, mem: array<F>, input: nat, output: nat, work: nat) returns (code: int)
    requires Shaped(a)
    requires
      var inputs, outputs := a.rows * a.inner, a.rows * a.columns;
      && input + inputs <= mem.Length && output + outputs <= mem.Length && work + outputs <= mem.Length
      && Apart(input, inputs, work, outputs) && Apart(output, outputs, work, outputs)
    modifies mem
    ensures
      var inputs, outputs := a.rows * a.inner, a.rows * a.columns;
      var x := old(mem[input..input + inputs]);
      && (code == 0 || code == 2)
      && (code == 0 <==> AllFinite(ar, x) && AllFinite(ar, Rows(ar, a, x, a.rows)))
      && (code == 0 ==> mem[output..output + outputs] == Rows(ar, a, x, a.rows))
      && (code == 2 ==> mem[output..output + outputs] == old(mem[output..output + outputs]))
      && forall p | 0 <= p < mem.Length && !(work <= p < work + outputs) &&
                    (code != 0 || !(output <= p < output + outputs)) :: mem[p] == old(mem[p])
  {
    hide Shaped, AllFinite, Rows;
    ghost var x := mem[input..input + a.rows * a.inner];
    var fine := InputFinite(ar, mem, input, a.rows * a.inner);
    if !fine { return 2; }
    var ok := ComputeRows(ar, a, mem, input, work, x);
    if !ok {
      StaysStored(old(mem[..]), mem[..], output, a.rows * a.columns);
      return 2;
    }
    Commit(mem, output, work, a.rows * a.columns);
    return 0;
  }
}
