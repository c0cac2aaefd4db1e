/**
  * The digit classifier of the energy study: the reference that fits centroids and scores rows, and
  * the program emitted for it, which splits its input over two arrays, normalises a row at a time,
  * keeps the best label under a sentinel, and starts every repetition one row further on.
  *
  * Scores are real numbers, so that the two ways of computing them can be compared without
  * rounding. Integers of the emitted program are 32 bits wide and wrap.
  */
module DigitWorkload {
  import opened SemanticIR
  import opened Wrappers

  const FEATURES: nat := 64
  const LABELS: nat := 10
  const ROWS: nat := 1797
  const SPLIT: nat := 1024
  const SENTINEL: real := -1000000.0

  // ---------------------------------------------------------------------------------------------
  // The reference

  /** Features are integers from 0 to 16. */
  predicate GoodRow(row: seq<int>) {
    |row| == FEATURES && forall k | 0 <= k < |row| :: 0 <= row[k] <= 16
  }

  predicate GoodRows(rows: seq<seq<int>>) {
    forall i | 0 <= i < |rows| :: GoodRow(rows[i])
  }

  /** A centroid per label, its coordinates between zero and one. */
  predicate GoodCenters(centers: seq<seq<real>>) {
    |centers| == LABELS && forall c | 0 <= c < LABELS :: GoodCenter(centers[c])
  }

  predicate GoodCenter(center: seq<real>) {
    |center| == FEATURES && forall k | 0 <= k < FEATURES :: 0.0 <= center[k] <= 1.0
  }

  function Feature(row: seq<int>, k: nat): real
    requires k < |row|
  {
    row[k] as real / 16.0
  }

  /** The squared length of the first `n` coordinates. */
  function Norm(center: seq<real>, n: nat): real
    requires n <= |center|
  {
    if n == 0 then 0.0 else Norm(center, n - 1) + center[n - 1] * center[n - 1]
  }

  /** The weights, feature by feature and within a feature label by label. */
  function Weight(centers: seq<seq<real>>, k: nat, digit: nat): real
    requires GoodCenters(centers) && k < FEATURES && digit < LABELS
  {
    2.0 * centers[digit][k]
  }

  function Bias(centers: seq<seq<real>>, digit: nat): real
    requires GoodCenters(centers) && digit < LABELS
  {
    -Norm(centers[digit], FEATURES)
  }

  /** The score of a label over the first `n` features, from the bias and from the left. */
  function Score(centers: seq<seq<real>>, row: seq<int>, digit: nat, n: nat): real
    requires GoodCenters(centers) && GoodRow(row) && digit < LABELS && n <= FEATURES
  {
    if n == 0 then Bias(centers, digit)
    else Score(centers, row, digit, n - 1) + Feature(row, n - 1) * Weight(centers, n - 1, digit)
  }

  /** The first label with the largest score among the first `n`. */
  function Best(centers: seq<seq<real>>, row: seq<int>, n: nat): (best: nat)
    requires GoodCenters(centers) && GoodRow(row) && 0 < n <= LABELS
    ensures best < n
  {
    if n == 1 then 0
    else
      var best := Best(centers, row, n - 1);
      if Score(centers, row, n - 1, FEATURES) > Score(centers, row, best, FEATURES) then n - 1 else best
  }

  function Predict(centers: seq<seq<real>>, row: seq<int>): nat
    requires GoodCenters(centers) && GoodRow(row)
  {
    Best(centers, row, LABELS)
  }

  // ---------------------------------------------------------------------------------------------
  // The prediction is the nearest centroid

  /** The squared distance over the first `n` features. */
  function Distance(center: seq<real>, row: seq<int>, n: nat): real
    requires n <= |center| && n <= |row|
  {
    if n == 0 then 0.0
    else Distance(center, row, n - 1) + (Feature(row, n - 1) - center[n - 1]) * (Feature(row, n - 1) - center[n - 1])
  }

  function Length(row: seq<int>, n: nat): real
    requires n <= |row|
  {
    if n == 0 then 0.0 else Length(row, n - 1) + Feature(row, n - 1) * Feature(row, n - 1)
  }

  lemma Square(x: real, c: real)
    ensures (x - c) * (x - c) == x * x - x * (2.0 * c) + c * c
  {
  }

  /** Scores and distances add up to the same number for every label. */
  lemma {:induction false} ScoreAndDistance(centers: seq<seq<real>>, row: seq<int>, digit: nat, n: nat)
    requires GoodCenters(centers) && GoodRow(row) && digit < LABELS && n <= FEATURES
    ensures Score(centers, row, digit, n) + Distance(centers[digit], row, n) ==
            Length(row, n) + Norm(centers[digit], n) - Norm(centers[digit], FEATURES)
  {
    hide Feature;
    if n > 0 {
      ScoreAndDistance(centers, row, digit, n - 1);
      Square(Feature(row, n - 1), centers[digit][n - 1]);
    }
  }

  lemma {:induction false} BestIsFirstLargest(centers: seq<seq<real>>, row: seq<int>, n: nat, digit: nat)
    requires GoodCenters(centers) && GoodRow(row) && digit < n <= LABELS
    ensures
      var best := Best(centers, row, n);
      && Score(centers, row, digit, FEATURES) <= Score(centers, row, best, FEATURES)
      && (digit < best ==> Score(centers, row, digit, FEATURES) < Score(centers, row, best, FEATURES))
  {
    hide Score, GoodCenters, GoodRow;
    if n > 1 {
      if digit < n - 1 {
        BestIsFirstLargest(centers, row, n - 1, digit);
      }
      BestIsFirstLargest(centers, row, n - 1, Best(centers, row, n - 1));
    }
  }

  /** The predicted centroid is nearest to the row, and every lower label is farther. */
  lemma PredictIsNearest(centers: seq<seq<real>>, row: seq<int>, digit: nat)
    requires GoodCenters(centers) && GoodRow(row) && digit < LABELS
    ensures
      var best := Predict(centers, row);
      && Distance(centers[best], row, FEATURES) <= Distance(centers[digit], row, FEATURES)
      && (digit < best ==> Distance(centers[best], row, FEATURES) < Distance(centers[digit], row, FEATURES))
  {
    hide Score, Distance, Norm, Length, GoodRow, Best;
    var best := Predict(centers, row);
    BestIsFirstLargest(centers, row, LABELS, digit);
    ScoreAndDistance(centers, row, digit, FEATURES);
    ScoreAndDistance(centers, row, best, FEATURES);
  }

  // ---------------------------------------------------------------------------------------------
  // The sentinel never wins

  lemma {:induction false} NormBound(center: seq<real>, n: nat)
    requires GoodCenter(center) && n <= FEATURES
    ensures 0.0 <= Norm(center, n) <= n as real
  {
    if n > 0 {
      NormBound(center, n - 1);
      UnitSquare(center[n - 1]);
    }
  }

  lemma UnitSquare(x: real)
    requires 0.0 <= x <= 1.0
    ensures 0.0 <= x * x <= 1.0
  {
    NonNegative(x, 1.0 - x);
    NonNegative(x, x);
    assert x * (1.0 - x) == x - x * x;
  }

  lemma {:induction false} ScoreAboveBias(centers: seq<seq<real>>, row: seq<int>, digit: nat, n: nat)
    requires GoodCenters(centers) && GoodRow(row) && digit < LABELS && n <= FEATURES
    ensures Score(centers, row, digit, n) >= Bias(centers, digit)
  {
    if n > 0 {
      ScoreAboveBias(centers, row, digit, n - 1);
      assert GoodCenter(centers[digit]) && 0 <= row[n - 1];
      NonNegative(Feature(row, n - 1), Weight(centers, n - 1, digit));
    }
  }

  lemma NonNegative(a: real, b: real)
    requires a >= 0.0 && b >= 0.0
    ensures a * b >= 0.0
  {
  }

  lemma AboveSentinel(centers: seq<seq<real>>, row: seq<int>, digit: nat)
    requires GoodCenters(centers) && GoodRow(row) && digit < LABELS
    ensures Score(centers, row, digit, FEATURES) > SENTINEL
  {
    ScoreAboveBias(centers, row, digit, FEATURES);
    NormBound(centers[digit], FEATURES);
  }

  // ---------------------------------------------------------------------------------------------
  // Fitting

  /** The sum of one feature over the training rows with one label. */
  function FeatureSum(train: seq<seq<int>>, labels: seq<nat>, c: nat, k: nat, n: nat): int
    requires |train| == |labels| && n <= |train| && GoodRows(train) && k < FEATURES
  {
    if n == 0 then 0
    else FeatureSum(train, labels, c, k, n - 1) + if labels[n - 1] == c then train[n - 1][k] else 0
  }

  function Count(labels: seq<nat>, c: nat, n: nat): nat
    requires n <= |labels|
  {
    if n == 0 then 0 else Count(labels, c, n - 1) + if labels[n - 1] == c then 1 else 0
  }

  function Center(train: seq<seq<int>>, labels: seq<nat>, c: nat): seq<real>
    requires |train| == |labels| && GoodRows(train) && Count(labels, c, |labels|) > 0
  {
    seq(FEATURES, k requires 0 <= k < FEATURES =>
      FeatureSum(train, labels, c, k, |train|) as real / (16 * Count(labels, c, |labels|)) as real)
  }

  lemma {:induction false} SumBound(train: seq<seq<int>>, labels: seq<nat>, c: nat, k: nat, n: nat)
    requires |train| == |labels| && n <= |train| && GoodRows(train) && k < FEATURES
    ensures 0 <= FeatureSum(train, labels, c, k, n) <= 16 * Count(labels, c, n)
  {
    if n > 0 {
      SumBound(train, labels, c, k, n - 1);
      assert GoodRow(train[n - 1]);
    }
  }

  /** Every label that occurs gets a centroid within the unit cube. */
  lemma CenterIsGood(train: seq<seq<int>>, labels: seq<nat>, c: nat)
    requires |train| == |labels| && GoodRows(train) && Count(labels, c, |labels|) > 0
    ensures GoodCenter(Center(train, labels, c))
  {
    hide FeatureSum, Count;
    forall k | 0 <= k < FEATURES ensures 0.0 <= Center(train, labels, c)[k] <= 1.0 {
      SumBound(train, labels, c, k, |train|);
      Ratio(FeatureSum(train, labels, c, k, |train|), 16 * Count(labels, c, |labels|));
    }
  }

  lemma Ratio(a: int, b: int)
    requires 0 <= a <= b && b > 0
    ensures 0.0 <= a as real / b as real <= 1.0
  {
  }

  // ---------------------------------------------------------------------------------------------
  // The input of the program

  /** The rows one after another, as they are written and read. */
  function Stream(rows: seq<seq<int>>): (s: seq<int>)
    requires GoodRows(rows)
    ensures |s| == |rows| * 64
  {
    if rows == [] then [] else Stream(rows[..|rows| - 1]) + rows[|rows| - 1]
  }

  lemma {:induction false} StreamAt(rows: seq<seq<int>>, r: nat, k: nat)
    requires GoodRows(rows) && r < |rows| && k < FEATURES
    ensures r * 64 + k < |rows| * 64 && Stream(rows)[r * 64 + k] == rows[r][k]
  {
    if r < |rows| - 1 {
      StreamAt(rows[..|rows| - 1], r, k);
    }
  }

  /** The first 1024 rows are in one array and the rest in the other. */
  ghost predicate HoldsInput(raw0: array<real>, raw1: array<real>, stream: seq<int>)
    reads raw0, raw1
  {
    && raw0.Length == 65536 && raw1.Length == 49472 && |stream| == ROWS * 64
    && (forall i | 0 <= i < 65536 :: raw0[i] == stream[i] as real)
    && (forall i | 0 <= i < 49472 :: raw1[i] == stream[65536 + i] as real)
  }

  ghost predicate HoldsModel(weights: array<real>, bias: array<real>, centers: seq<seq<real>>)
    reads weights, bias
  {
    && GoodCenters(centers) && weights.Length == 640 && bias.Length == 10
    && (forall i | 0 <= i < 640 :: weights[i] == Weight(centers, i / 10, i % 10))
    && (forall c | 0 <= c < 10 :: bias[c] == Bias(centers, c))
  }

  method ReadInput(stream: seq<int>, raw0: array<real>, raw1: array<real>)
    requires raw0.Length == 65536 && raw1.Length == 49472 && raw0 != raw1 && |stream| == ROWS * 64
    modifies raw0, raw1
    ensures HoldsInput(raw0, raw1, stream)
  {
    for i := 0 to 65536
      invariant forall k | 0 <= k < i :: raw0[k] == stream[k] as real
    {
      raw0[i] := stream[i] as real;
    }
    for i := 0 to 49472
      invariant forall k | 0 <= k < 65536 :: raw0[k] == stream[k] as real
      invariant forall k | 0 <= k < i :: raw1[k] == stream[65536 + k] as real
    {
      raw1[i] := stream[65536 + i] as real;
    }
  }

  /** Normalises one row; every index stays inside the array the row is in. */
  method LoadRow(raw0: array<real>, raw1: array<real>, values: array<real>, inputRow: nat, ghost rows: seq<seq<int>>)
    requires GoodRows(rows) && |rows| == ROWS && HoldsInput(raw0, raw1, Stream(rows)) && inputRow < ROWS
    requires values.Length == FEATURES && values != raw0 && values != raw1
    modifies values
    ensures forall k | 0 <= k < FEATURES :: values[k] == Feature(rows[inputRow], k)
  {
    hide Stream;
    if inputRow < SPLIT {
      for i := 0 to FEATURES
        invariant forall k | 0 <= k < i :: values[k] == Feature(rows[inputRow], k)
      {
        StreamAt(rows, inputRow, i);
        values[i] := raw0[inputRow * 64 + i] / 16.0;
      }
    } else {
      for i := 0 to FEATURES
        invariant forall k | 0 <= k < i :: values[k] == Feature(rows[inputRow], k)
      {
        StreamAt(rows, inputRow, i);
        assert Stream(rows)[65536 + ((inputRow - 1024) * 64 + i)] == rows[inputRow][i];
        values[i] := raw1[(inputRow - 1024) * 64 + i] / 16.0;
      }
    }
  }

  // ---------------------------------------------------------------------------------------------
  // One row

  method ScoreOf(values: array<real>, weights: array<real>, bias: array<real>, digit: nat,
                 ghost centers: seq<seq<real>>, ghost row: seq<int>) returns (score: real)
    requires HoldsModel(weights, bias, centers) && GoodRow(row) && digit < LABELS
    requires values.Length == FEATURES && forall k | 0 <= k < FEATURES :: values[k] == Feature(row, k)
    ensures score == Score(centers, row, digit, FEATURES)
  {
    hide Feature, Weight, Bias, GoodCenters;
    score := bias[digit];
    for i := 0 to FEATURES
      invariant score == Score(centers, row, digit, i)
    {
      WeightAt(i, digit);
      score := score + values[i] * weights[i * 10 + digit];
    }
  }

  lemma WeightAt(k: nat, digit: nat)
    requires k < 64 && digit < 10
    ensures 0 <= k * 10 + digit < 640 && (k * 10 + digit) / 10 == k && (k * 10 + digit) % 10 == digit
  {
  }

  /** The scan over the labels, under a sentinel that every score exceeds. */
  method Classify(values: array<real>, weights: array<real>, bias: array<real>,
                  ghost centers: seq<seq<real>>, ghost row: seq<int>) returns (best: int)
    requires HoldsModel(weights, bias, centers) && GoodRow(row)
    requires values.Length == FEATURES && forall k | 0 <= k < FEATURES :: values[k] == Feature(row, k)
    ensures best == Predict(centers, row)
  {
    hide Feature, Score, GoodCenters, GoodRow;
    best := 0;
    var maximum := SENTINEL;
    for digit := 0 to LABELS
      invariant digit == 0 ==> best == 0 && maximum == SENTINEL
      invariant digit > 0 ==> best == Best(centers, row, digit) && maximum == Score(centers, row, best, FEATURES)
    {
      var score := ScoreOf(values, weights, bias, digit, centers, row);
      AboveSentinel(centers, row, digit);
      if score > maximum {
        maximum := score;
        best := digit;
      }
    }
  }

  // ---------------------------------------------------------------------------------------------
  // Repetitions

  lemma WrapAdds(a: int, b: int)
    ensures Wrap32(Wrap32(a) + b) == Wrap32(a + b)
  {
  }

  function Predictions(centers: seq<seq<real>>, rows: seq<seq<int>>): (p: seq<int>)
    requires GoodCenters(centers) && GoodRows(rows)
    ensures |p| == |rows|
  {
    seq(|rows|, r requires 0 <= r < |rows| => Predict(centers, rows[r]))
  }

  /** The sequence from one position on, followed by what comes before it. */
  function Rotated(p: seq<int>, shift: nat): (r: seq<int>)
    requires shift <= |p|
    ensures |r| == |p|
  {
    p[shift..] + p[..shift]
  }

  function Sum(p: seq<int>): int {
    if p == [] then 0 else Sum(p[..|p| - 1]) + p[|p| - 1]
  }

  lemma {:induction false} SumAdds(p: seq<int>, q: seq<int>)
    ensures Sum(p + q) == Sum(p) + Sum(q)
  {
    if q == [] {
      assert p + q == p;
    } else {
      SumAdds(p, q[..|q| - 1]);
      assert (p + q)[..|p + q| - 1] == p + q[..|q| - 1];
    }
  }

  lemma {:induction false} SumRotated(p: seq<int>, shift: nat)
    requires shift <= |p|
    ensures Sum(Rotated(p, shift)) == Sum(p)
  {
    hide Sum;
    SumAdds(p[shift..], p[..shift]);
    SumAdds(p[..shift], p[shift..]);
    assert p[..shift] + p[shift..] == p;
  }

  /** The arrays of the program: the input and the model are read, the rest is written. */
  ghost predicate Ready(raw0: array<real>, raw1: array<real>, values: array<real>, weights: array<real>, bias: array<real>,
                        predictions: array<int>, centers: seq<seq<real>>, rows: seq<seq<int>>)
    reads raw0, raw1, weights, bias
  {
    && GoodRows(rows) && |rows| == ROWS && HoldsInput(raw0, raw1, Stream(rows))
    && GoodCenters(centers) && HoldsModel(weights, bias, centers)
    && values.Length == FEATURES && predictions.Length == ROWS
    && values != raw0 && values != raw1 && values != weights && values != bias
  }

  /** One prediction, for the row that the shift puts in this place. */
  method PredictRow(raw0: array<real>, raw1: array<real>, values: array<real>, weights: array<real>, bias: array<real>,
                    predictions: array<int>, row: nat, shift: nat, ghost centers: seq<seq<real>>, ghost rows: seq<seq<int>>)
    returns (best: int)
    requires Ready(raw0, raw1, values, weights, bias, predictions, centers, rows) && row < ROWS && shift < ROWS
    modifies values, predictions
    ensures Ready(raw0, raw1, values, weights, bias, predictions, centers, rows)
    ensures best == Rotated(Predictions(centers, rows), shift)[row] && predictions[row] == best
    ensures forall i | 0 <= i < ROWS && i != row :: predictions[i] == old(predictions[i])
  {
    hide HoldsInput, HoldsModel, Stream, Predict, Feature;
    var inputRow := row + shift;
    if inputRow >= ROWS { inputRow := inputRow - ROWS; }
    LoadRow(raw0, raw1, values, inputRow, rows);
    best := Classify(values, weights, bias, centers, rows[inputRow]);
    predictions[row] := best;
  }

  /** One repetition. */
  method Repeat(raw0: array<real>, raw1: array<real>, values: array<real>, weights: array<real>, bias: array<real>,
                predictions: array<int>, checksum: int, shift: nat, ghost centers: seq<seq<real>>, ghost rows: seq<seq<int>>)
    returns (total: int)
    requires Ready(raw0, raw1, values, weights, bias, predictions, centers, rows) && shift < ROWS
    modifies values, predictions
    ensures Ready(raw0, raw1, values, weights, bias, predictions, centers, rows)
    ensures predictions[..] == Rotated(Predictions(centers, rows), shift)
    ensures total == Wrap32(checksum + Sum(Predictions(centers, rows)))
  {
    hide HoldsInput, HoldsModel, Stream, Predictions, Rotated, Wrap32;
    ghost var p := Rotated(Predictions(centers, rows), shift);
    total := Wrap32(checksum);
    for row := 0 to ROWS
      invariant Ready(raw0, raw1, values, weights, bias, predictions, centers, rows)
      invariant forall i | 0 <= i < row :: predictions[i] == p[i]
      invariant total == Wrap32(checksum + Sum(p[..row]))
    {
      var best := PredictRow(raw0, raw1, values, weights, bias, predictions, row, shift, centers, rows);
      assert p[..row + 1][..row] == p[..row];
      WrapAdds(checksum + Sum(p[..row]), best);
      total := Wrap32(total + best);
    }
    assert p[..ROWS] == p;
    SumRotated(Predictions(centers, rows), shift);
  }

  lemma NextShift(iteration: nat)
    ensures (iteration + 1) % ROWS == if iteration % ROWS + 1 >= ROWS then 0 else iteration % ROWS + 1
  {
  }

  lemma OneMore(iteration: nat, sum: int)
    ensures (iteration + 1) * sum == iteration * sum + sum
  {
  }

  /**
    * All repetitions. With none the predictions keep their values and the checksum is zero; after
    * the last of them the predictions are rotated by one less than their number, and the checksum
    * is that number times the sum of the predictions, in 32 bits.
    */
  method Run(repeats: int, raw0: array<real>, raw1: array<real>, values: array<real>, weights: array<real>, bias: array<real>,
             predictions: array<int>, ghost centers: seq<seq<real>>, ghost rows: seq<seq<int>>)
    returns (checksum: int)
    requires Ready(raw0, raw1, values, weights, bias, predictions, centers, rows)
    modifies values, predictions
    ensures repeats <= 0 ==> predictions[..] == old(predictions[..]) && checksum == 0
    ensures repeats > 0 ==> predictions[..] == Rotated(Predictions(centers, rows), (repeats - 1) % ROWS)
    ensures repeats > 0 ==> checksum == Wrap32(repeats * Sum(Predictions(centers, rows)))
  {
    hide HoldsInput, HoldsModel, Stream, Predictions, Rotated, Wrap32, Sum;
    checksum := 0;
    if repeats <= 0 { return; }
    var shift := 0;
    var iteration := 0;
    WrapZero();
    while iteration < repeats
      invariant 0 <= iteration <= repeats && shift == iteration % ROWS
      invariant Ready(raw0, raw1, values, weights, bias, predictions, centers, rows)
      invariant checksum == Wrap32(iteration * Sum(Predictions(centers, rows)))
      invariant iteration > 0 ==> predictions[..] == Rotated(Predictions(centers, rows), (iteration - 1) % ROWS)
    {
      ghost var sum := Sum(Predictions(centers, rows));
      checksum := Repeat(raw0, raw1, values, weights, bias, predictions, checksum, shift, centers, rows);
      WrapAdds(iteration * sum, sum);
      OneMore(iteration, sum);
      NextShift(iteration);
      shift := shift + 1;
      if shift >= ROWS { shift := 0; }
      iteration := iteration + 1;
    }
  }

  lemma WrapZero()
    ensures Wrap32(0) == 0
  {
  }

  lemma {:induction false} SumBounds(p: seq<int>)
    requires forall i | 0 <= i < |p| :: 0 <= p[i] < LABELS
    ensures 0 <= Sum(p) <= 9 * |p|
  {
    if p != [] {
      SumBounds(p[..|p| - 1]);
    }
  }

  /** The checksum is exact as long as it fits 32 bits, and only then; up to 132782 repetitions it always does. */
  lemma ChecksumIsExact(centers: seq<seq<real>>, rows: seq<seq<int>>, repeats: nat)
    requires GoodCenters(centers) && GoodRows(rows) && |rows| == ROWS
    ensures var total := repeats * Sum(Predictions(centers, rows)); Wrap32(total) == total <==> total <= 0x7FFF_FFFF
    ensures repeats <= 132782 ==> repeats * Sum(Predictions(centers, rows)) <= 0x7FFF_FFFF
  {
    hide Sum, Predict;
    var p := Predictions(centers, rows);
    forall i | 0 <= i < |p| ensures 0 <= p[i] < LABELS {
      PredictIsLabel(centers, rows[i]);
    }
    SumBounds(p);
    ProductBound(repeats, Sum(p), repeats, 16173);
    if repeats <= 132782 {
      ProductBound(repeats, Sum(p), 132782, 16173);
    }
  }

  lemma PredictIsLabel(centers: seq<seq<real>>, row: seq<int>)
    requires GoodCenters(centers) && GoodRow(row)
    ensures Predict(centers, row) < LABELS
  {
  }

  lemma ProductBound(a: int, b: int, c: int, d: int)
    requires 0 <= a <= c && 0 <= b <= d
    ensures 0 <= a * b <= c * d
  {
    assert a * b <= c * b by { assert (c - a) * b >= 0; }
    assert c * b <= c * d by { assert c * (d - b) >= 0; }
  }

  // ---------------------------------------------------------------------------------------------
  // The whole workload

  predicate GoodTraining(train: seq<seq<int>>, labels: seq<nat>) {
    GoodRows(train) && |train| == |labels| && forall i | 0 <= i < |labels| :: labels[i] < LABELS
  }

  predicate AllOccur(labels: seq<nat>) {
    forall c: nat | c < LABELS :: Count(labels, c, |labels|) > 0
  }

  function Centers(train: seq<seq<int>>, labels: seq<nat>): seq<seq<real>>
    requires GoodTraining(train, labels) && AllOccur(labels)
  {
    seq(LABELS, c requires 0 <= c < LABELS => Center(train, labels, c))
  }

  lemma CentersAreGood(train: seq<seq<int>>, labels: seq<nat>)
    requires GoodTraining(train, labels) && AllOccur(labels)
    ensures GoodCenters(Centers(train, labels))
  {
    hide Center, Count, GoodCenter;
    forall c: nat | c < LABELS ensures GoodCenter(Centers(train, labels)[c]) {
      CenterIsGood(train, labels, c);
    }
  }

  /** What one more training row adds to the sums of its label. */
  method Tally(row: seq<int>, digit: nat, sums: array2<int>, counts: array<int>)
    requires GoodRow(row) && digit < LABELS && sums.Length0 == LABELS && sums.Length1 == FEATURES && counts.Length == LABELS
    modifies sums, counts
    ensures forall c, k | 0 <= c < LABELS && 0 <= k < FEATURES :: sums[c, k] == old(sums[c, k]) + if c == digit then row[k] else 0
    ensures forall c | 0 <= c < LABELS :: counts[c] == old(counts[c]) + if c == digit then 1 else 0
  {
    counts[digit] := counts[digit] + 1;
    for i := 0 to FEATURES
      invariant forall c, k | 0 <= c < LABELS && 0 <= k < FEATURES ::
        sums[c, k] == old(sums[c, k]) + if c == digit && k < i then row[k] else 0
      invariant forall c | 0 <= c < LABELS :: counts[c] == old(counts[c]) + if c == digit then 1 else 0
    {
      sums[digit, i] := sums[digit, i] + row[i];
    }
  }

  /** The sums and counts of all labels. */
  ghost predicate Tallied(train: seq<seq<int>>, labels: seq<nat>, n: nat, sums: array2<int>, counts: array<int>)
    requires GoodTraining(train, labels) && n <= |train|
    reads sums, counts
  {
    && sums.Length0 == LABELS && sums.Length1 == FEATURES && counts.Length == LABELS
    && (forall c, k | 0 <= c < LABELS && 0 <= k < FEATURES :: sums[c, k] == FeatureSum(train, labels, c, k, n))
    && (forall c | 0 <= c < LABELS :: counts[c] == Count(labels, c, n))
  }

  method TallyAll(train: seq<seq<int>>, labels: seq<nat>) returns (sums: array2<int>, counts: array<int>)
    requires GoodTraining(train, labels)
    ensures Tallied(train, labels, |train|, sums, counts) && fresh(sums) && fresh(counts)
  {
    hide GoodRow;
    sums, counts := new int[LABELS, FEATURES]((_, _) => 0), new int[LABELS](_ => 0);
    for n := 0 to |train|
      invariant Tallied(train, labels, n, sums, counts)
    {
      Tally(train[n], labels[n], sums, counts);
    }
  }

  method Means(train: seq<seq<int>>, labels: seq<nat>, sums: array2<int>, counts: array<int>) returns (r: Maybe<seq<seq<real>>>)
    requires GoodTraining(train, labels) && Tallied(train, labels, |train|, sums, counts)
    ensures r.Just? <==> AllOccur(labels)
    ensures r.Just? ==> r.value == Centers(train, labels)
  {
    hide GoodRow, FeatureSum, Count;
    for c := 0 to LABELS
      invariant forall d: nat | d < c :: Count(labels, d, |labels|) > 0
    {
      if counts[c] == 0 { return Nothing; }
    }
    var centers := [];
    for c := 0 to LABELS
      invariant |centers| == c && forall d | 0 <= d < c :: centers[d] == Center(train, labels, d)
    {
      var center := Divide(sums, counts[c], c);
      assert center == Center(train, labels, c);
      centers := centers + [center];
    }
    r := Just(centers);
  }

  /** The centroids of the training rows; nothing when a label does not occur and its mean has no value. */
  method Fit(train: seq<seq<int>>, labels: seq<nat>) returns (r: Maybe<seq<seq<real>>>)
    requires GoodTraining(train, labels)
    ensures r.Just? <==> AllOccur(labels)
    ensures r.Just? ==> r.value == Centers(train, labels)
  {
    var sums, counts := TallyAll(train, labels);
    r := Means(train, labels, sums, counts);
  }

  method Divide(sums: array2<int>, count: int, c: nat) returns (center: seq<real>)
    requires sums.Length0 == LABELS && sums.Length1 == FEATURES && count > 0 && c < LABELS
    ensures |center| == FEATURES && forall k | 0 <= k < FEATURES :: center[k] == sums[c, k] as real / (16 * count) as real
  {
    center := [];
    for k := 0 to FEATURES
      invariant |center| == k && forall j | 0 <= j < k :: center[j] == sums[c, j] as real / (16 * count) as real
    {
      center := center + [sums[c, k] as real / (16 * count) as real];
    }
  }

  /** The constants the program is emitted with. */
  method Constants(centers: seq<seq<real>>) returns (weights: array<real>, bias: array<real>)
    requires GoodCenters(centers)
    ensures HoldsModel(weights, bias, centers) && fresh(weights) && fresh(bias) && weights != bias
  {
    weights, bias := new real[640], new real[10];
    for i := 0 to 640
      invariant forall k | 0 <= k < i :: weights[k] == Weight(centers, k / 10, k % 10)
    {
      weights[i] := 2.0 * centers[i % 10][i / 10];
    }
    for c := 0 to 10
      invariant forall k | 0 <= k < 640 :: weights[k] == Weight(centers, k / 10, k % 10)
      invariant forall k | 0 <= k < c :: bias[k] == Bias(centers, k)
    {
      var norm := NormOf(centers[c]);
      bias[c] := -norm;
    }
  }

  method NormOf(center: seq<real>) returns (norm: real)
    requires |center| == FEATURES
    ensures norm == Norm(center, FEATURES)
  {
    norm := 0.0;
    for k := 0 to FEATURES
      invariant norm == Norm(center, k)
    {
      norm := norm + center[k] * center[k];
    }
  }

  /**
    * From the training rows to the printed result: nothing is emitted unless every label occurs;
    * otherwise the program prints the predictions for the test rows by the fitted centroids,
    * rotated by one less than the repetitions, and their checksum.
    */
  method Workload(train: seq<seq<int>>, labels: seq<nat>, test: seq<seq<int>>, repeats: int) returns (r: Maybe<(seq<int>, int)>)
    requires GoodTraining(train, labels) && GoodRows(test) && |test| == ROWS
    ensures r.Just? <==> AllOccur(labels)
    ensures r.Just? && repeats > 0 ==>
      var centers := Centers(train, labels);
      && GoodCenters(centers)
      && r.value.0 == Rotated(Predictions(centers, test), (repeats - 1) % ROWS)
      && r.value.1 == Wrap32(repeats * Sum(Predictions(centers, test)))
  {
    hide GoodRow, GoodCenter, Predictions, Rotated, Sum, Stream, Centers, AllOccur, HoldsInput, HoldsModel, Wrap32;
    var fitted := Fit(train, labels);
    if fitted.Nothing? { return Nothing; }
    CentersAreGood(train, labels);
    var weights, bias := Constants(fitted.value);
    var raw0, raw1, values := new real[65536], new real[49472], new real[FEATURES];
    var predictions := new int[ROWS](_ => 0);
    StreamLength(test);
    ReadInput(Stream(test), raw0, raw1);
    var checksum := Run(repeats, raw0, raw1, values, weights, bias, predictions, fitted.value, test);
    r := Just((predictions[..], checksum));
  }

  lemma StreamLength(rows: seq<seq<int>>)
    requires GoodRows(rows)
    ensures |Stream(rows)| == |rows| * 64
  {
  }

  /** Fitted from training rows within the range, the prediction is the nearest centroid, the lowest label on ties. */
  lemma FittedIsNearest(train: seq<seq<int>>, labels: seq<nat>, row: seq<int>, digit: nat)
    requires GoodTraining(train, labels) && AllOccur(labels) && GoodRow(row) && digit < LABELS
    ensures GoodCenters(Centers(train, labels))
    ensures
      var centers := Centers(train, labels);
      var best := Predict(centers, row);
      && Distance(centers[best], row, FEATURES) <= Distance(centers[digit], row, FEATURES)
      && (digit < best ==> Distance(centers[best], row, FEATURES) < Distance(centers[digit], row, FEATURES))
  {
    hide Centers, GoodCenters, Distance, Predict, GoodRow, AllOccur;
    CentersAreGood(train, labels);
    PredictIsNearest(Centers(train, labels), row, digit);
  }
}
