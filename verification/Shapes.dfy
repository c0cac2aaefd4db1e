/**
  * Overflow-guarded shape arithmetic: the element count of a tensor shape and the storage check of
  * the dialect's tensor verifier. Both multiply in 64 bits and divide first, so that no product
  * they form leaves the range; the model multiplies in unbounded integers and shows both that the
  * guards keep every product in range and that they refuse exactly the shapes that do not fit.
  */
module Shapes {
  const INT64_MAX: int := 0x7FFF_FFFF_FFFF_FFFF

  datatype Element = F32 | F16 | BF16 | Int(bits: nat) | Other

  predicate Positive(dims: seq<int>) {
    forall i | 0 <= i < |dims| :: dims[i] > 0
  }

  /** The mathematical product, taken from the left as the loops do. */
  function Product(dims: seq<int>): int {
    if dims == [] then 1 else Product(dims[..|dims| - 1]) * dims[|dims| - 1]
  }

  function Bytes(e: Element): (b: int)
    ensures b > 0
  {
    match e
    case F32 => 4
    case F16 => 2
    case BF16 => 2
    case Int(bits) => if bits == 0 then 1 else (bits + 7) / 8
    case Other => 1
  }

  predicate Supported(e: Element) {
    e == F32 || e == F16 || e == BF16 || e == Int(4) || e == Int(8) || e == Int(32)
  }

  lemma {:induction false} ProductPositive(dims: seq<int>)
    requires Positive(dims)
    ensures Product(dims) >= 1
  {
    if dims != [] {
      ProductPositive(dims[..|dims| - 1]);
      Grows(Product(dims[..|dims| - 1]), dims[|dims| - 1]);
    }
  }

  lemma Grows(a: int, b: int)
    requires a >= 1 && b >= 1
    ensures a * b >= a
  {
    assert a * b - a == a * (b - 1);
  }

  /** Dividing first is the overflow test of the product. */
  lemma GuardIsExact(a: int, limit: int, b: int)
    requires a >= 0 && b > 0 && limit >= 0
    ensures a > limit / b <==> a * b > limit
  {
    var q, r := limit / b, limit % b;
    assert limit == q * b + r && 0 <= r < b;
    if a > q {
      assert a * b >= (q + 1) * b by { MultiplyMono(q + 1, a, b); }
      assert (q + 1) * b == q * b + b;
    } else {
      MultiplyMono(a, q, b);
    }
  }

  lemma MultiplyMono(a: int, c: int, b: int)
    requires a <= c && b > 0
    ensures a * b <= c * b
  {
    assert c * b - a * b == (c - a) * b;
  }

  /** A prefix of a positive shape never has the larger product. */
  lemma {:induction false} PrefixProduct(dims: seq<int>, i: nat)
    requires Positive(dims) && i <= |dims|
    ensures Product(dims[..i]) <= Product(dims)
    decreases |dims| - i
  {
    if i < |dims| {
      PrefixProduct(dims, i + 1);
      assert dims[..i + 1][..i] == dims[..i];
      ProductPositive(dims[..i]);
      Grows(Product(dims[..i]), dims[i]);
    } else {
      assert dims[..i] == dims;
    }
  }

  method IsStatic(dims: seq<int>) returns (r: bool)
    ensures r <==> dims != [] && Positive(dims)
  {
    if dims == [] { return false; }
    for i := 0 to |dims|
      invariant Positive(dims[..i])
    {
      if dims[i] <= 0 { return false; }
      assert dims[..i + 1] == dims[..i] + [dims[i]];
    }
    assert dims[..|dims|] == dims;
    return true;
  }

  /** Multiplying one more dimension, under the guard. */
  lemma Step(dims: seq<int>, i: nat)
    requires i < |dims| && Positive(dims[..i]) && dims[i] > 0
    ensures Positive(dims[..i + 1])
    ensures Product(dims[..i]) >= 1 && Product(dims[..i + 1]) == Product(dims[..i]) * dims[i]
    ensures Product(dims[..i]) > INT64_MAX / dims[i] <==> Product(dims[..i + 1]) > INT64_MAX
    ensures Product(dims[..i + 1]) >= 1
  {
    assert dims[..i + 1] == dims[..i] + [dims[i]];
    assert dims[..i + 1][..i] == dims[..i];
    ProductPositive(dims[..i]);
    ProductPositive(dims[..i + 1]);
    GuardIsExact(Product(dims[..i]), INT64_MAX, dims[i]);
  }

  /** The true product when it fits 64 bits, zero for every other shape. */
  method ElementCount(dims: seq<int>) returns (count: int)
    ensures 0 <= count <= INT64_MAX
    ensures dims != [] && Positive(dims) && Product(dims) <= INT64_MAX ==> count == Product(dims)
    ensures !(dims != [] && Positive(dims) && Product(dims) <= INT64_MAX) ==> count == 0
  {
    var fixed := IsStatic(dims);
    if !fixed { return 0; }
    var total := 1;
    for i := 0 to |dims|
      invariant total == Product(dims[..i])
      invariant 1 <= total <= INT64_MAX
    {
      assert Positive(dims[..i]);
      Step(dims, i);
      if total > INT64_MAX / dims[i] {
        PrefixProduct(dims, i + 1);
        return 0;
      }
      total := total * dims[i];
    }
    assert dims[..|dims|] == dims;
    return total;
  }

  /** The storage of the shape in bytes fits 64 bits. */
  predicate Stored(dims: seq<int>, element: Element) {
    Product(dims) * Bytes(element) <= INT64_MAX
  }

  lemma Overflows(dims: seq<int>, i: nat, element: Element)
    requires i <= |dims| && Product(dims[..i]) > INT64_MAX && Positive(dims)
    ensures !Stored(dims, element)
  {
    PrefixProduct(dims, i);
    Grows(Product(dims), Bytes(element));
  }

  /**
    * Given a static shape of positive rank, no encoding and a supported element, accepts exactly
    * the shapes with positive dimensions whose storage in bytes fits 64 bits.
    */
  method VerifyTensor(dims: seq<int>, encoded: bool, element: Element) returns (ok: bool)
    ensures ok <==> dims != [] && !encoded && Supported(element) && Positive(dims) && Stored(dims, element)
  {
    hide Product, Stored;
    if dims == [] || encoded || !Supported(element) { return false; }
    var count := 1;
    EmptyProduct(dims);
    for i := 0 to |dims|
      invariant Positive(dims[..i])
      invariant count == Product(dims[..i])
      invariant 1 <= count <= INT64_MAX
    {
      if dims[i] <= 0 { return false; }
      Step(dims, i);
      if count > INT64_MAX / dims[i] {
        if Positive(dims) {
          Overflows(dims, i + 1, element);
        }
        return false;
      }
      count := count * dims[i];
    }
    assert dims[..|dims|] == dims;
    ok := WithinBytes(dims, count, element);
  }

  lemma EmptyProduct(dims: seq<int>)
    ensures dims[..0] == [] && Product(dims[..0]) == 1
  {
  }

  /** The byte bound, without multiplying a count that might overflow. */
  method WithinBytes(dims: seq<int>, count: int, element: Element) returns (ok: bool)
    requires count == Product(dims) && count >= 1
    ensures ok <==> Stored(dims, element)
  {
    GuardIsExact(count, INT64_MAX, Bytes(element));
    ok := count <= INT64_MAX / Bytes(element);
  }
}
