/**
The transactional batch classifier. A call appends the rows of one batch to the caller's three
vectors, or leaves them as they were; it ranks each row by score, ties going to the smaller
label; and nothing it produces depends on what the workspace held before.
*/
module BatchClassifier {

  /** A float32 by value; the sign tells the zeros apart. */
  datatype Float32 = Finite(value: real, negative: bool) | NotFinite

  const ZERO := Finite(0.0, false)

  datatype Configuration = Configuration(
    features: nat, classes: nat, topK: nat, batch: nat, low: real, high: real, normalize: Float32 -> Float32)

  /** What the application's constructor has established. */
  predicate ConfigurationOk(c: Configuration) {
    0 < c.features <= 4096 && 2 <= c.classes <= 256 && 0 < c.topK <= c.classes && 0 < c.batch <= 1024 && c.low < c.high
  }

  /** The outcome of a session's run into a buffer: what it wrote, and what its result record says. */
  datatype Ran = Ran(success: bool, written: seq<Float32>, kept: nat, elements: nat)

  datatype Outcome = Completed | Failed(reason: string)

  // ----- ranking -----

  predicate Scores(row: seq<Float32>) {
    forall i | 0 <= i < |row| :: row[i].Finite?
  }

  /** Higher scores first; equal scores by label. */
  predicate Before(row: seq<Float32>, a: nat, b: nat)
    requires Scores(row) && a < |row| && b < |row|
  {
    if row[a].value == row[b].value then a < b else row[a].value > row[b].value
  }

  predicate Labels(row: seq<Float32>, s: seq<nat>) {
    forall i | 0 <= i < |s| :: s[i] < |row|
  }

  predicate Ordered(row: seq<Float32>, s: seq<nat>)
    requires Scores(row) && Labels(row, s)
  {
    forall i, j | 0 <= i < j < |s| :: Before(row, s[i], s[j])
  }

  function Inserted(row: seq<Float32>, s: seq<nat>, a: nat): (r: seq<nat>)
    requires Scores(row) && Labels(row, s) && a < |row|
    ensures Labels(row, r) && |r| == |s| + 1 && forall x :: x in r <==> x in s || x == a
  {
    if s == [] || Before(row, a, s[0]) then [a] + s
    else
      assert s == [s[0]] + s[1..];
      [s[0]] + Inserted(row, s[1..], a)
  }

  /** The first `n` labels in ranking order. */
  function Ranked(row: seq<Float32>, n: nat): (r: seq<nat>)
    requires Scores(row) && n <= |row|
    ensures |r| == n && Labels(row, r) && forall x: nat :: x in r <==> x < n
  {
    if n == 0 then [] else Inserted(row, Ranked(row, n - 1), n - 1)
  }

  lemma BeforeTrans(row: seq<Float32>, a: nat, b: nat, c: nat)
    requires Scores(row) && a < |row| && b < |row| && c < |row| && Before(row, a, b) && Before(row, b, c)
    ensures Before(row, a, c)
  {
  }

  lemma OrderedCons(row: seq<Float32>, a: nat, s: seq<nat>)
    requires Scores(row) && Labels(row, s) && a < |row| && Ordered(row, s) && forall j | 0 <= j < |s| :: Before(row, a, s[j])
    ensures Labels(row, [a] + s) && Ordered(row, [a] + s)
  {
    hide Before;
  }

  lemma {:induction false} InsertedOrdered(row: seq<Float32>, s: seq<nat>, a: nat)
    requires Scores(row) && Labels(row, s) && a < |row| && Ordered(row, s) && a !in s
    ensures Ordered(row, Inserted(row, s, a))
  {
    if s == [] || Before(row, a, s[0]) {
      forall j | 0 <= j < |s| ensures Before(row, a, s[j]) {
        if j > 0 {
          BeforeTrans(row, a, s[0], s[j]);
        }
      }
      OrderedCons(row, a, s);
    } else {
      var r := Inserted(row, s[1..], a);
      InsertedOrdered(row, s[1..], a);
      assert Before(row, s[0], a);
      hide Before;
      forall j | 0 <= j < |r| ensures Before(row, s[0], r[j]) {
        assert r[j] in r;
      }
      OrderedCons(row, s[0], r);
    }
  }

  lemma {:induction false} RankedOrdered(row: seq<Float32>, n: nat)
    requires Scores(row) && n <= |row|
    ensures Ordered(row, Ranked(row, n))
  {
    if n > 0 {
      RankedOrdered(row, n - 1);
      InsertedOrdered(row, Ranked(row, n - 1), n - 1);
    }
  }

  function Ranking(row: seq<Float32>): seq<nat>
    requires Scores(row)
  {
    Ranked(row, |row|)
  }

  lemma OrderedDistinct(row: seq<Float32>, s: seq<nat>, i: nat)
    requires Scores(row) && Labels(row, s) && Ordered(row, s) && i < |s|
    ensures s[i] !in s[..i]
  {
    forall j | 0 <= j < i ensures s[j] != s[i] {
      assert Before(row, s[j], s[i]);
    }
  }

  /** The label that comes before every label not yet placed is the next one of the ranking. */
  lemma NextInRanking(row: seq<Float32>, i: nat, a: nat)
    requires Scores(row) && i < |row| && a < |row| && a !in Ranking(row)[..i]
    requires forall b: nat | b < |row| && b !in Ranking(row)[..i] && b != a :: Before(row, a, b)
    ensures Ranking(row)[i] == a
  {
    RankedOrdered(row, |row|);
    var r := Ranking(row);
    OrderedDistinct(row, r, i);
    assert a in r;
    var j :| 0 <= j < |r| && r[j] == a;
    assert forall k | 0 <= k < i :: r[..i][k] == r[k];
  }

  /** The ranking is the only ordering of all labels. */
  lemma {:induction false} RankingIsUnique(row: seq<Float32>, s: seq<nat>, n: nat)
    requires Scores(row) && Labels(row, s) && Ordered(row, s) && |s| == |row| && (forall x: nat :: x < |row| ==> x in s) && n <= |s|
    ensures s[..n] == Ranking(row)[..n]
    decreases n
  {
    if n > 0 {
      var i := n - 1;
      RankingIsUnique(row, s, i);
      OrderedDistinct(row, s, i);
      assert forall k | 0 <= k < i :: s[..i][k] == s[k];
      forall b: nat | b < |row| && b !in s[..i] && b != s[i] ensures Before(row, s[i], b) {
        assert b in s;
        var j :| 0 <= j < |s| && s[j] == b;
        assert j > i;
      }
      NextInRanking(row, i, s[i]);
    }
  }

  /** Partial sort: the first `k` labels of the ranking. */
  method PartialSort(row: seq<Float32>, k: nat) returns (top: seq<nat>)
    requires Scores(row) && k <= |row|
    ensures top == Ranking(row)[..k]
  {
    hide Ranked, Before;
    top := [];
    for i := 0 to k
      invariant top == Ranking(row)[..i]
    {
      var best := BestOf(row, top);
      NextInRanking(row, i, best);
      top := top + [best];
    }
  }

  lemma {:induction false} SomeLeft(n: nat, s: seq<nat>)
    requires |s| < n
    ensures exists a: nat :: a < n && a !in s
    decreases n
  {
    if s != [] {
      var m := n - 1;
      if m in s {
        var i :| 0 <= i < |s| && s[i] == m;
        var t := s[..i] + s[i + 1..];
        SomeLeft(m, t);
        var a: nat :| a < m && a !in t;
        assert a !in s;
      }
    } else {
      assert 0 !in s;
    }
  }

  method BestOf(row: seq<Float32>, placed: seq<nat>) returns (best: nat)
    requires Scores(row) && |placed| < |row|
    ensures best < |row| && best !in placed
    ensures forall b: nat | b < |row| && b !in placed && b != best :: Before(row, best, b)
  {
    SomeLeft(|row|, placed);
    var found := false;
    best := 0;
    for a := 0 to |row|
      invariant !found ==> forall b: nat | b < a :: b in placed
      invariant found ==> best < a && best !in placed && forall b: nat | b < a && b !in placed && b != best :: Before(row, best, b)
    {
      if a !in placed {
        if !found || Before(row, a, best) {
          best, found := a, true;
        }
      }
    }
  }

  // ----- batches -----

  predicate InRange(c: Configuration, x: Float32) {
    x.Finite? && c.low <= x.value <= c.high
  }

  /** Every value is in range and stays finite under normalisation. */
  predicate Normalizable(c: Configuration, raw: seq<Float32>) {
    forall i | 0 <= i < |raw| :: InRange(c, raw[i]) && c.normalize(raw[i]).Finite?
  }

  function Zeros(n: nat): (z: seq<Float32>)
    ensures |z| == n && forall i | 0 <= i < n :: z[i] == ZERO
  {
    seq(n, _ => ZERO)
  }

  /** The session's input: the normalised rows, then zero rows up to the batch size. */
  function Padded(c: Configuration, raw: seq<Float32>): seq<Float32> {
    var size := c.batch * c.features;
    seq(|raw|, i requires 0 <= i < |raw| => c.normalize(raw[i])) + Zeros(if |raw| <= size then size - |raw| else 0)
  }

  predicate BatchOk(c: Configuration, raw: seq<Float32>)
    requires c.features > 0
  {
    raw != [] && |raw| % c.features == 0 && |raw| <= c.batch * c.features
  }

  predicate Aligned(c: Configuration, scores: nat, predictions: nat, top: nat) {
    scores == predictions * c.classes && top == predictions * c.topK
  }

  /** The output limits, for vectors of the given lengths and `count` new rows. */
  predicate Room(c: Configuration, scores: nat, predictions: nat, top: nat, count: nat) {
    && scores + count * c.classes <= 262144 && predictions + count <= 100000 && top + count * c.topK <= 262144
    && scores + c.batch * c.classes <= 16 * 1024 * 1024
  }

  predicate RunOk(c: Configuration, r: Ran) {
    r.success && r.kept == 0 && r.elements == c.batch * c.classes && |r.written| == c.batch * c.classes && Scores(r.written)
  }

  /** Exactly when a call succeeds; the workspace has no say in it. */
  predicate Succeeds(c: Configuration, session: seq<Float32> -> Ran, raw: seq<Float32>, scores: nat, predictions: nat, top: nat)
    requires c.features > 0
  {
    && BatchOk(c, raw) && Normalizable(c, raw) && Aligned(c, scores, predictions, top)
    && Room(c, scores, predictions, top, |raw| / c.features) && RunOk(c, session(Padded(c, raw)))
  }

  function Row(c: Configuration, written: seq<Float32>, i: nat): (r: seq<Float32>)
    requires (i + 1) * c.classes <= |written|
    ensures |r| == c.classes && (Scores(written) ==> Scores(r))
  {
    assert i * c.classes + c.classes == (i + 1) * c.classes;
    written[i * c.classes..i * c.classes + c.classes]
  }

  lemma RowFits(c: Configuration, i: nat, n: nat)
    requires i < n
    ensures (i + 1) * c.classes <= n * c.classes && (i + 1) * c.topK <= n * c.topK
  {
    assert n * c.classes == (i + 1) * c.classes + (n - i - 1) * c.classes;
    assert n * c.topK == (i + 1) * c.topK + (n - i - 1) * c.topK;
  }

  /** The predictions of the first `n` rows. */
  function Predictions(c: Configuration, written: seq<Float32>, n: nat): (p: seq<nat>)
    requires ConfigurationOk(c) && Scores(written) && n * c.classes <= |written|
    ensures |p| == n
  {
    if n == 0 then []
    else
      RowFits(c, n - 1, n);
      Predictions(c, written, n - 1) + [Ranking(Row(c, written, n - 1))[0]]
  }

  /** The top-k lists of the first `n` rows, one after the other. */
  function Tops(c: Configuration, written: seq<Float32>, n: nat): (t: seq<nat>)
    requires ConfigurationOk(c) && Scores(written) && n * c.classes <= |written|
    ensures |t| == n * c.topK
  {
    if n == 0 then []
    else
      RowFits(c, n - 1, n);
      assert n * c.topK == (n - 1) * c.topK + c.topK;
      Tops(c, written, n - 1) + Ranking(Row(c, written, n - 1))[..c.topK]
  }

  /** The vectors grew by the first `count` rows of what was written, their predictions and their top-k lists. */
  predicate Grown(c: Configuration, written: seq<Float32>, count: nat, scores: seq<Float32>, predictions: seq<nat>, top: seq<nat>,
                  scores': seq<Float32>, predictions': seq<nat>, top': seq<nat>) {
    && ConfigurationOk(c) && Scores(written) && count * c.classes <= |written|
    && scores' == scores + written[..count * c.classes]
    && predictions' == predictions + Predictions(c, written, count)
    && top' == top + Tops(c, written, count)
  }

  class Workspace {
    var input: seq<Float32>

    constructor ()
    {
      input := [];
    }
  }

  class Outputs {
    var scores: seq<Float32>
    var predictions: seq<nat>
    var topK: seq<nat>

    constructor ()
      ensures scores == [] && predictions == [] && topK == []
    {
      scores, predictions, topK := [], [], [];
    }

    /** Gives all three vectors their old lengths back. */
    method Rollback(scoreBase: nat, predictionBase: nat, topBase: nat)
      requires scoreBase <= |scores| && predictionBase <= |predictions| && topBase <= |topK|
      modifies this
      ensures scores == old(scores)[..scoreBase] && predictions == old(predictions)[..predictionBase] && topK == old(topK)[..topBase]
    {
      scores := scores[..scoreBase];
      predictions := predictions[..predictionBase];
      topK := topK[..topBase];
    }
  }

  /** Normalises into the workspace; the tail is cleared so that no earlier request shows through. */
  method Preprocess(c: Configuration, raw: seq<Float32>, ws: Workspace) returns (r: Outcome)
    requires ConfigurationOk(c) && BatchOk(c, raw)
    modifies ws
    ensures r.Completed? <==> Normalizable(c, raw)
    ensures r.Completed? ==> ws.input == Padded(c, raw)
  {
    var size := c.batch * c.features;
    ws.input := if |ws.input| >= size then ws.input[..size] else ws.input + Zeros(size - |ws.input|);
    for i := 0 to |raw|
      invariant |ws.input| == size
      invariant forall j | 0 <= j < i :: InRange(c, raw[j]) && c.normalize(raw[j]).Finite? && ws.input[j] == c.normalize(raw[j])
    {
      if !raw[i].Finite? || raw[i].value < c.low || raw[i].value > c.high {
        return Failed("application_input_outside_range");
      }
      ws.input := ws.input[i := c.normalize(raw[i])];
      if !ws.input[i].Finite? {
        return Failed("application_preprocessing_overflow");
      }
    }
    ws.input := ws.input[..|raw|] + Zeros(size - |raw|);
    r := Completed;
  }

  method AllFinite(xs: seq<Float32>, from: nat) returns (r: bool)
    requires from <= |xs|
    ensures r <==> Scores(xs[from..])
  {
    for i := from to |xs|
      invariant forall j | from <= j < i :: xs[j].Finite?
    {
      if !xs[i].Finite? {
        assert xs[from..][i - from] == xs[i];
        return false;
      }
    }
    r := true;
  }

  /** Writes one row's prediction and top-k list to their places. */
  method WriteRow(out: Outputs, order: seq<nat>, p: nat, t: nat)
    requires order != [] && p < |out.predictions| && t + |order| <= |out.topK|
    modifies out`predictions, out`topK
    ensures |out.predictions| == old(|out.predictions|) && out.predictions[..p + 1] == old(out.predictions[..p]) + [order[0]]
    ensures |out.topK| == old(|out.topK|) && out.topK[..t + |order|] == old(out.topK[..t]) + order
  {
    out.predictions := out.predictions[p := order[0]];
    out.topK := out.topK[..t] + order + out.topK[t + |order|..];
  }

  /** Ranks each new row and writes its prediction and top-k list behind the old ones. */
  method RankRows(c: Configuration, written: seq<Float32>, count: nat, out: Outputs, predictionBase: nat, topBase: nat)
    requires ConfigurationOk(c) && Scores(written) && count * c.classes <= |written|
    requires |out.predictions| == predictionBase + count && |out.topK| == topBase + count * c.topK
    modifies out`predictions, out`topK
    ensures out.predictions == old(out.predictions)[..predictionBase] + Predictions(c, written, count)
    ensures out.topK == old(out.topK)[..topBase] + Tops(c, written, count)
  {
    hide Ranking, Predictions, Tops;
    var size := count * c.topK;
    ghost var p0, t0 := out.predictions[..predictionBase], out.topK[..topBase];
    FirstRow(c, written);
    for row := 0 to count
      invariant |out.predictions| == predictionBase + count && |out.topK| == topBase + size
      invariant row * c.topK <= size && row * c.classes <= count * c.classes
      invariant out.predictions[..predictionBase + row] == p0 + Predictions(c, written, row)
      invariant out.topK[..topBase + row * c.topK] == t0 + Tops(c, written, row)
    {
      RowFits(c, row, count);
      NextRow(c, written, row);
      var order := PartialSort(Row(c, written, row), c.topK);
      WriteRow(out, order, predictionBase + row, topBase + row * c.topK);
      assert p0 + Predictions(c, written, row) + [order[0]] == p0 + Predictions(c, written, row + 1);
      assert t0 + Tops(c, written, row) + order == t0 + Tops(c, written, row + 1);
    }
    assert out.predictions[..predictionBase + count] == out.predictions && out.topK[..topBase + size] == out.topK;
  }

  lemma FirstRow(c: Configuration, written: seq<Float32>)
    requires ConfigurationOk(c) && Scores(written)
    ensures Predictions(c, written, 0) == [] && Tops(c, written, 0) == []
  {
  }

  lemma NextRow(c: Configuration, written: seq<Float32>, n: nat)
    requires ConfigurationOk(c) && Scores(written) && (n + 1) * c.classes <= |written|
    ensures n * c.classes <= (n + 1) * c.classes && (n + 1) * c.topK == n * c.topK + c.topK
    ensures var order := Ranking(Row(c, written, n))[..c.topK];
            && Predictions(c, written, n + 1) == Predictions(c, written, n) + [order[0]]
            && Tops(c, written, n + 1) == Tops(c, written, n) + order
  {
    RowFits(c, n, n + 1);
  }

  method ClassifyBatchAppend(c: Configuration, session: seq<Float32> -> Ran, raw: seq<Float32>, ws: Workspace, out: Outputs) returns (r: Outcome)
    requires ConfigurationOk(c)
    modifies ws, out
    ensures r.Completed? <==> Succeeds(c, session, raw, old(|out.scores|), old(|out.predictions|), old(|out.topK|))
    ensures r.Failed? ==> out.scores == old(out.scores) && out.predictions == old(out.predictions) && out.topK == old(out.topK)
    ensures r.Completed? ==>
              Grown(c, session(Padded(c, raw)).written, |raw| / c.features, old(out.scores), old(out.predictions), old(out.topK), out.scores, out.predictions, out.topK)
  {
    if !BatchOk(c, raw) {
      return Failed("invalid_application_batch");
    }
    r := Preprocess(c, raw, ws);
    if r.Failed? {
      return;
    }
    var count := |raw| / c.features;
    var scoreBase, predictionBase, topBase := |out.scores|, |out.predictions|, |out.topK|;
    if !Aligned(c, scoreBase, predictionBase, topBase) {
      return Failed("misaligned_application_output_buffers");
    }
    if !Room(c, scoreBase, predictionBase, topBase, count) {
      return Failed("application_output_limit");
    }
    r := Append(c, session, raw, ws, out, count);
  }

  lemma CountFits(c: Configuration, raw: seq<Float32>)
    requires ConfigurationOk(c) && BatchOk(c, raw)
    ensures var count := |raw| / c.features; count <= c.batch && count * c.classes <= c.batch * c.classes
  {
    var count := |raw| / c.features;
    assert |raw| == count * c.features;
    assert count > c.batch ==> count * c.features == (c.batch + 1) * c.features + (count - c.batch - 1) * c.features;
    assert count > c.batch ==> (count - c.batch - 1) * c.features >= 0;
    assert c.batch * c.classes == count * c.classes + (c.batch - count) * c.classes;
  }

  /** The part under the rollback guard. */
  method Append(c: Configuration, session: seq<Float32> -> Ran, raw: seq<Float32>, ws: Workspace, out: Outputs, count: nat) returns (r: Outcome)
    requires ConfigurationOk(c) && BatchOk(c, raw) && count == |raw| / c.features && ws.input == Padded(c, raw)
    modifies out
    ensures r.Completed? <==> RunOk(c, session(Padded(c, raw)))
    ensures r.Failed? ==> out.scores == old(out.scores) && out.predictions == old(out.predictions) && out.topK == old(out.topK)
    ensures r.Completed? ==>
              Grown(c, session(Padded(c, raw)).written, count, old(out.scores), old(out.predictions), old(out.topK), out.scores, out.predictions, out.topK)
  {
    hide Padded, Ranking, Predictions, Tops, Scores, ConfigurationOk, BatchOk;
    CountFits(c, raw);
    var scoreBase, predictionBase, topBase, padded := |out.scores|, |out.predictions|, |out.topK|, c.batch * c.classes;
    out.scores := out.scores + Zeros(padded);
    var ran := session(ws.input);
    // The session writes into the new tail and nowhere else.
    out.scores := out.scores[..scoreBase] + ran.written;
    assert out.scores[scoreBase..] == ran.written && out.scores[..scoreBase] == old(out.scores);
    var finite := AllFinite(out.scores, scoreBase);
    if !ran.success || ran.kept != 0 || ran.elements != padded || |ran.written| != padded || !finite {
      out.Rollback(scoreBase, predictionBase, topBase);
      return Failed("application_inference_failed");
    }
    Commit(c, ran.written, out, scoreBase, count);
    r := Completed;
  }

  /** Drops the padded rows and ranks the real ones. */
  method Commit(c: Configuration, written: seq<Float32>, out: Outputs, scoreBase: nat, count: nat)
    requires ConfigurationOk(c) && Scores(written) && count * c.classes <= |written|
    requires scoreBase <= |out.scores| && out.scores[scoreBase..] == written
    modifies out
    ensures out.scores == old(out.scores)[..scoreBase] + written[..count * c.classes]
    ensures out.predictions == old(out.predictions) + Predictions(c, written, count)
    ensures out.topK == old(out.topK) + Tops(c, written, count)
  {
    hide Ranking, Predictions, Tops, Scores;
    var predictionBase, topBase := |out.predictions|, |out.topK|;
    out.scores := out.scores[..scoreBase + count * c.classes];
    out.predictions := out.predictions + seq(count, _ => 0);
    out.topK := out.topK + seq(count * c.topK, _ => 0);
    assert out.predictions[..predictionBase] == old(out.predictions) && out.topK[..topBase] == old(out.topK);
    RankRows(c, written, count, out, predictionBase, topBase);
  }

  /** A successful call leaves the vectors aligned for the next one. */
  lemma StaysAligned(c: Configuration, scores: nat, predictions: nat, top: nat, count: nat)
    requires Aligned(c, scores, predictions, top)
    ensures Aligned(c, scores + count * c.classes, predictions + count, top + count * c.topK)
  {
    assert (predictions + count) * c.classes == predictions * c.classes + count * c.classes;
    assert (predictions + count) * c.topK == predictions * c.topK + count * c.topK;
  }

  /** The prediction of a row heads its top-k list, and no label of the row comes before it. */
  lemma PredictionLeads(c: Configuration, written: seq<Float32>, n: nat, i: nat, b: nat)
    requires ConfigurationOk(c) && Scores(written) && n * c.classes <= |written| && i < n && b < c.classes
    ensures i * c.topK < |Tops(c, written, n)| && Tops(c, written, n)[i * c.topK] == Predictions(c, written, n)[i]
    ensures (i + 1) * c.classes <= n * c.classes && Predictions(c, written, n)[i] < c.classes
    ensures b == Predictions(c, written, n)[i] || Before(Row(c, written, i), Predictions(c, written, n)[i], b)
    decreases n
  {
    hide Predictions, Tops;
    RowFits(c, i, n);
    NextRow(c, written, n - 1);
    if i == n - 1 {
      var row := Row(c, written, i);
      RankedOrdered(row, |row|);
      assert b in Ranking(row);
    } else {
      PredictionLeads(c, written, n - 1, i, b);
    }
  }
}
