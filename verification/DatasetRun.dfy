/**
Runs of many classification calls on the same output vectors: any sequence of calls, and the loop
that sends a whole data set through the classifier batch by batch.
*/
module DatasetRun {
  import opened BatchClassifier

  type Session = seq<Float32> -> Ran

  datatype Vectors = Vectors(scores: seq<Float32>, predictions: seq<nat>, top: seq<nat>)

  const NONE := Vectors([], [], [])

  function Contents(out: Outputs): Vectors
    reads out
  {
    Vectors(out.scores, out.predictions, out.topK)
  }

  function Join(v: Vectors, w: Vectors): Vectors {
    Vectors(v.scores + w.scores, v.predictions + w.predictions, v.top + w.top)
  }

  function Count(c: Configuration, raw: seq<Float32>): nat
    requires c.features > 0
  {
    |raw| / c.features
  }

  /** What the session writes for a call. */
  function Written(c: Configuration, session: Session, raw: seq<Float32>): seq<Float32> {
    session(Padded(c, raw)).written
  }

  predicate Runs(c: Configuration, session: Session, raw: seq<Float32>)
    requires c.features > 0
  {
    BatchOk(c, raw) && Normalizable(c, raw) && RunOk(c, session(Padded(c, raw)))
  }

  predicate Accepts(c: Configuration, session: Session, v: Vectors, raw: seq<Float32>)
    requires c.features > 0
  {
    Succeeds(c, session, raw, |v.scores|, |v.predictions|, |v.top|)
  }

  /** What a call that succeeds adds: the rows of the session's output, their predictions and their top-k lists. */
  function Added(c: Configuration, session: Session, raw: seq<Float32>): (w: Vectors)
    requires ConfigurationOk(c) && Runs(c, session, raw)
    ensures |w.scores| == Count(c, raw) * c.classes && |w.predictions| == Count(c, raw) && |w.top| == Count(c, raw) * c.topK
  {
    CountFits(c, raw);
    var count, written := Count(c, raw), Written(c, session, raw);
    Vectors(written[..count * c.classes], Predictions(c, written, count), Tops(c, written, count))
  }

  predicate InLine(c: Configuration, v: Vectors) {
    Aligned(c, |v.scores|, |v.predictions|, |v.top|)
  }

  // ----- any sequence of calls -----

  /** The vectors after a sequence of calls that started with empty ones; they stay aligned. */
  function After(c: Configuration, session: Session, calls: seq<seq<Float32>>): (v: Vectors)
    requires ConfigurationOk(c)
    ensures InLine(c, v)
  {
    if calls == [] then NONE
    else
      var v, raw := After(c, session, calls[..|calls| - 1]), calls[|calls| - 1];
      if Accepts(c, session, v, raw) then
        StaysAligned(c, |v.scores|, |v.predictions|, |v.top|, Count(c, raw));
        Join(v, Added(c, session, raw))
      else v
  }

  /** Whether call `j` of the sequence succeeds. */
  predicate Answers(c: Configuration, session: Session, calls: seq<seq<Float32>>, j: nat)
    requires ConfigurationOk(c) && j < |calls|
  {
    Accepts(c, session, After(c, session, calls[..j]), calls[j])
  }

  /** The number of rows in the vectors when call `j` is made. */
  function Start(c: Configuration, session: Session, calls: seq<seq<Float32>>, j: nat): nat
    requires ConfigurationOk(c) && j <= |calls|
  {
    |After(c, session, calls[..j]).predictions|
  }

  lemma OneMoreCall(c: Configuration, session: Session, calls: seq<seq<Float32>>, j: nat)
    requires ConfigurationOk(c) && j < |calls|
    ensures
      var v := After(c, session, calls[..j]);
      After(c, session, calls[..j + 1]) == if Answers(c, session, calls, j) then Join(v, Added(c, session, calls[j])) else v
  {
    hide Succeeds, Added;
    assert calls[..j + 1][..j] == calls[..j];
  }

  /** Makes the calls one after the other, on the same workspace and the same vectors. */
  method MakeCalls(c: Configuration, session: Session, calls: seq<seq<Float32>>, ws: Workspace, out: Outputs) returns (outcomes: seq<Outcome>)
    requires ConfigurationOk(c) && Contents(out) == NONE
    modifies ws, out
    ensures Contents(out) == After(c, session, calls)
    ensures |outcomes| == |calls| && forall j | 0 <= j < |calls| :: outcomes[j].Completed? <==> Answers(c, session, calls, j)
  {
    hide Succeeds, Grown, Added, After;
    outcomes := [];
    Beginning(c, session, calls);
    for j := 0 to |calls|
      invariant Contents(out) == After(c, session, calls[..j])
      invariant |outcomes| == j && forall i | 0 <= i < j :: outcomes[i].Completed? <==> Answers(c, session, calls, i)
    {
      ghost var v := Contents(out);
      var r := ClassifyBatchAppend(c, session, calls[j], ws, out);
      OneMoreCall(c, session, calls, j);
      if r.Completed? {
        GrownJoins(c, session, calls[j], v, Contents(out));
      }
      outcomes := outcomes + [r];
    }
    assert calls[..|calls|] == calls;
  }

  lemma Beginning(c: Configuration, session: Session, calls: seq<seq<Float32>>)
    requires ConfigurationOk(c)
    ensures After(c, session, calls[..0]) == NONE
  {
  }

  lemma GrownJoins(c: Configuration, session: Session, raw: seq<Float32>, v: Vectors, w: Vectors)
    requires ConfigurationOk(c) && Accepts(c, session, v, raw)
    requires Grown(c, session(Padded(c, raw)).written, |raw| / c.features, v.scores, v.predictions, v.top, w.scores, w.predictions, w.top)
    ensures w == Join(v, Added(c, session, raw))
  {
  }

  // ----- where the rows of a call are -----

  /** Row `k` of the vectors is row `i` of what was written, with its best label and its top-k list. */
  ghost predicate RowAt(c: Configuration, v: Vectors, k: nat, written: seq<Float32>, i: nat)
    requires ConfigurationOk(c) && Scores(written) && (i + 1) * c.classes <= |written|
  {
    var row := Row(c, written, i);
    (k + 1) * c.classes <= |v.scores| && Row(c, v.scores, k) == row && Listed(c, v.predictions, v.top, k, row)
  }

  lemma RowInside(c: Configuration, session: Session, raw: seq<Float32>, i: nat)
    requires ConfigurationOk(c) && Runs(c, session, raw) && i < Count(c, raw)
    ensures (i + 1) * c.classes <= Count(c, raw) * c.classes <= |Written(c, session, raw)|
  {
    hide Padded, Normalizable;
    CountFits(c, raw);
    RowFits(c, i, Count(c, raw));
  }

  /** Entry `k` of the predictions and of the top-k lists is that of the row. */
  predicate Listed(c: Configuration, predictions: seq<nat>, top: seq<nat>, k: nat, row: seq<Float32>)
    requires ConfigurationOk(c) && Scores(row) && |row| == c.classes
  {
    && k < |predictions| && 0 <= k * c.topK && k * c.topK + c.topK <= |top|
    && predictions[k] == Ranking(row)[0] && top[k * c.topK..k * c.topK + c.topK] == Ranking(row)[..c.topK]
  }

  lemma {:induction false} ListedAt(c: Configuration, written: seq<Float32>, n: nat, i: nat)
    requires ConfigurationOk(c) && Scores(written) && n * c.classes <= |written| && i < n
    ensures (i + 1) * c.classes <= |written| && Listed(c, Predictions(c, written, n), Tops(c, written, n), i, Row(c, written, i))
    decreases n
  {
    hide Predictions, Tops, Ranked, Scores;
    RowFits(c, i, n);
    NextRow(c, written, n - 1);
    Places(c, 0, i);
    var last := Ranking(Row(c, written, n - 1))[..c.topK];
    if i < n - 1 {
      ListedAt(c, written, n - 1, i);
      TakePrefix(Tops(c, written, n - 1), last, i * c.topK, i * c.topK + c.topK);
    } else {
      TakeSuffix(Tops(c, written, i), last, i * c.topK, 0, c.topK);
    }
  }

  lemma TakePrefix<T>(a: seq<T>, b: seq<T>, lo: nat, hi: nat)
    requires lo <= hi <= |a|
    ensures (a + b)[lo..hi] == a[lo..hi]
  {
  }

  lemma TakeSuffix<T>(a: seq<T>, b: seq<T>, at: nat, lo: nat, hi: nat)
    requires lo <= hi <= |b| && at == |a| + lo
    ensures (a + b)[at..at + (hi - lo)] == b[lo..hi]
  {
  }

  /** A call that succeeds puts its rows behind the old ones. */
  lemma AddedAt(c: Configuration, session: Session, v: Vectors, raw: seq<Float32>, i: nat)
    requires ConfigurationOk(c) && Runs(c, session, raw) && InLine(c, v) && i < Count(c, raw)
    ensures (i + 1) * c.classes <= |Written(c, session, raw)|
    ensures RowAt(c, Join(v, Added(c, session, raw)), |v.predictions| + i, Written(c, session, raw), i)
  {
    hide Ranking, Scores, Runs, Padded, Predictions, Tops, Row;
    RunsWrites(c, session, raw);
    var count, written, k := Count(c, raw), Written(c, session, raw), |v.predictions|;
    RowInside(c, session, raw, i);
    ListedAt(c, written, count, i);
    Places(c, k, i);
    RowFits(c, i, count);
    var w := Added(c, session, raw);
    TakeSuffix(v.top, w.top, (k + i) * c.topK, i * c.topK, i * c.topK + c.topK);
    RowOfJoin(c, v.scores, written, count, k, i);
  }

  lemma RunsWrites(c: Configuration, session: Session, raw: seq<Float32>)
    requires c.features > 0 && Runs(c, session, raw)
    ensures Scores(Written(c, session, raw)) && |Written(c, session, raw)| == c.batch * c.classes
  {
  }

  lemma Places(c: Configuration, k: nat, i: nat)
    ensures (k + i) * c.classes == k * c.classes + i * c.classes && (k + i) * c.topK == k * c.topK + i * c.topK
    ensures (k + i + 1) * c.classes == (k + i) * c.classes + c.classes && (k + i + 1) * c.topK == (k + i) * c.topK + c.topK
    ensures (i + 1) * c.classes == i * c.classes + c.classes && (i + 1) * c.topK == i * c.topK + c.topK
  {
  }

  lemma RowOfJoin(c: Configuration, old_: seq<Float32>, written: seq<Float32>, count: nat, k: nat, i: nat)
    requires |old_| == k * c.classes && i < count && count * c.classes <= |written| && (i + 1) * c.classes <= |written|
    ensures (k + i + 1) * c.classes <= |old_ + written[..count * c.classes]|
    ensures Row(c, old_ + written[..count * c.classes], k + i) == Row(c, written, i)
  {
    Places(c, k, i);
    RowFits(c, i, count);
    var n := count * c.classes;
    TakeSuffix(old_, written[..n], (k + i) * c.classes, i * c.classes, (i + 1) * c.classes);
    assert written[..n][i * c.classes..(i + 1) * c.classes] == written[i * c.classes..(i + 1) * c.classes];
  }

  /** Later calls leave the rows where they are. */
  lemma StaysAt(c: Configuration, v: Vectors, w: Vectors, k: nat, written: seq<Float32>, i: nat)
    requires ConfigurationOk(c) && Scores(written) && (i + 1) * c.classes <= |written| && RowAt(c, v, k, written, i)
    ensures RowAt(c, Join(v, w), k, written, i)
  {
    hide Ranking, Scores;
    Places(c, k, 0);
    TakePrefix(v.top, w.top, k * c.topK, k * c.topK + c.topK);
    TakePrefix(v.scores, w.scores, k * c.classes, k * c.classes + c.classes);
  }

  /** After any sequence of calls the vectors hold the rows of the successful calls, in order. */
  lemma {:induction false} RowsInOrder(c: Configuration, session: Session, calls: seq<seq<Float32>>, n: nat, j: nat, i: nat)
    requires ConfigurationOk(c) && j < n <= |calls| && Answers(c, session, calls, j) && i < Count(c, calls[j])
    ensures Runs(c, session, calls[j]) && (i + 1) * c.classes <= |Written(c, session, calls[j])|
    ensures RowAt(c, After(c, session, calls[..n]), Start(c, session, calls, j) + i, Written(c, session, calls[j]), i)
    decreases n
  {
    hide After, Added, RowAt, Scores, Row, Padded, Normalizable;
    var raw := calls[j];
    RunsWrites(c, session, raw);
    RowInside(c, session, raw, i);
    OneMoreCall(c, session, calls, n - 1);
    if n == j + 1 {
      AddedAt(c, session, After(c, session, calls[..j]), raw, i);
    } else {
      RowsInOrder(c, session, calls, n - 1, j, i);
      if Answers(c, session, calls, n - 1) {
        StaysAt(c, After(c, session, calls[..n - 1]), Added(c, session, calls[n - 1]),
                Start(c, session, calls, j) + i, Written(c, session, raw), i);
      }
    }
  }

  /** A call adds as many rows as it has when it succeeds, and none when it fails. */
  lemma StartOfNext(c: Configuration, session: Session, calls: seq<seq<Float32>>, j: nat)
    requires ConfigurationOk(c) && j < |calls|
    ensures Start(c, session, calls, j + 1) == Start(c, session, calls, j) + if Answers(c, session, calls, j) then Count(c, calls[j]) else 0
  {
    hide After, Succeeds;
    OneMoreCall(c, session, calls, j);
  }

  // ----- a whole data set -----

  /** What the reader of a data set has established. */
  predicate DatasetOk(c: Configuration, values: seq<Float32>)
    requires c.features > 0
  {
    |values| % c.features == 0 && Count(c, values) <= 100000 && Count(c, values) * c.classes <= 262144
  }

  function Min(a: nat, b: nat): nat { if a <= b then a else b }

  lemma Within(c: Configuration, values: seq<Float32>, lo: nat, hi: nat)
    requires c.features > 0 && |values| % c.features == 0 && lo <= hi <= Count(c, values)
    ensures 0 <= lo * c.features <= hi * c.features <= |values|
  {
    assert |values| == Count(c, values) * c.features;
    assert hi * c.features == lo * c.features + (hi - lo) * c.features;
    assert Count(c, values) * c.features == hi * c.features + (Count(c, values) - hi) * c.features;
  }

  /** Rows `lo` to `hi` of a data set. */
  function Rows(c: Configuration, values: seq<Float32>, lo: nat, hi: nat): seq<Float32>
    requires c.features > 0 && |values| % c.features == 0 && lo <= hi <= Count(c, values)
  {
    Within(c, values, lo, hi);
    values[lo * c.features..hi * c.features]
  }

  /** The first row of batch `k`, or the end of the data set. */
  function Offset(c: Configuration, values: seq<Float32>, k: nat): nat
    requires c.features > 0
  {
    Min(k * c.batch, Count(c, values))
  }

  lemma OffsetGrows(c: Configuration, values: seq<Float32>, k: nat)
    requires c.features > 0
    ensures Offset(c, values, k) <= Offset(c, values, k + 1)
    ensures k * c.batch <= Count(c, values) ==> Offset(c, values, k + 1) == k * c.batch + Min(c.batch, Count(c, values) - k * c.batch)
  {
    assert (k + 1) * c.batch == k * c.batch + c.batch;
  }

  lemma Divisible(c: Configuration, values: seq<Float32>)
    requires c.features > 0 && DatasetOk(c, values)
    ensures |values| % c.features == 0
  {
  }

  lemma OffsetIs(c: Configuration, values: seq<Float32>, k: nat)
    requires c.features > 0 && k * c.batch <= Count(c, values)
    ensures Offset(c, values, k) == k * c.batch
  {
  }

  lemma FirstOffset(c: Configuration, values: seq<Float32>)
    requires c.features > 0
    ensures Offset(c, values, 0) == 0
  {
    assert 0 * c.batch == 0;
  }

  function Batch(c: Configuration, values: seq<Float32>, k: nat): seq<Float32>
    requires c.features > 0 && |values| % c.features == 0
  {
    OffsetGrows(c, values, k);
    Rows(c, values, Offset(c, values, k), Offset(c, values, k + 1))
  }

  function Batches(c: Configuration, values: seq<Float32>, n: nat): (b: seq<seq<Float32>>)
    requires c.features > 0 && |values| % c.features == 0
    ensures |b| == n && forall k | 0 <= k < n :: b[k] == Batch(c, values, k)
  {
    seq(n, k requires 0 <= k < n => Batch(c, values, k))
  }

  /** The batches of a data set of a positive size: full ones, and a last one with what is left. */
  function BatchCount(c: Configuration, values: seq<Float32>): nat
    requires c.features > 0 && c.batch > 0
  {
    (Count(c, values) + c.batch - 1) / c.batch
  }

  lemma BatchesBefore(c: Configuration, values: seq<Float32>, k: nat)
    requires c.features > 0 && c.batch > 0
    ensures k < BatchCount(c, values) <==> k * c.batch < Count(c, values)
  {
    var n, total := BatchCount(c, values), Count(c, values);
    Ceiling(total, c.batch, n);
    if k < n {
      AtMost(k + 1, n, c.batch);
      OneMore(k, c.batch);
    } else {
      AtMost(n, k, c.batch);
    }
  }

  lemma Ceiling(total: nat, d: nat, n: nat)
    requires d > 0 && n == (total + d - 1) / d
    ensures n * d < total + d <= n * d + d
  {
    assert total + d - 1 == n * d + (total + d - 1) % d;
  }

  lemma OneMore(k: nat, d: nat)
    ensures (k + 1) * d == k * d + d
  {
  }

  lemma RowsLength(c: Configuration, values: seq<Float32>, lo: nat, hi: nat)
    requires ConfigurationOk(c) && |values| % c.features == 0 && lo <= hi <= Count(c, values)
    ensures |Rows(c, values, lo, hi)| == (hi - lo) * c.features && Count(c, Rows(c, values, lo, hi)) == hi - lo
    ensures hi - lo <= c.batch && lo < hi ==> BatchOk(c, Rows(c, values, lo, hi))
  {
    Within(c, values, lo, hi);
    var n := hi - lo;
    assert hi * c.features == lo * c.features + n * c.features;
    Multiple(n, c.features);
    assert n <= c.batch ==> c.batch * c.features == n * c.features + (c.batch - n) * c.features;
  }

  lemma Multiple(n: nat, d: nat)
    requires d > 0
    ensures n * d / d == n && n * d % d == 0
  {
    var q, r := n * d / d, n * d % d;
    assert q * d + r == n * d;
    Divides(n, d, q, r);
  }

  lemma Divides(n: nat, d: nat, q: nat, r: nat)
    requires q * d + r == n * d && r < d
    ensures q == n && r == 0
  {
    assert (n - q) * d == r;
    Vanishes(n - q, d);
  }

  lemma Vanishes(m: int, d: nat)
    requires 0 <= m * d < d
    ensures m == 0
  {
    if m > 0 {
      AtMost(1, m, d);
    } else if m < 0 {
      AtMost(1, -m, d);
    }
  }

  /** Every batch before the end of the data set is one that the classifier takes. */
  lemma BatchRows(c: Configuration, values: seq<Float32>, k: nat)
    requires ConfigurationOk(c) && |values| % c.features == 0 && k < BatchCount(c, values)
    ensures Offset(c, values, k) < Count(c, values)
    ensures BatchOk(c, Batch(c, values, k)) && Count(c, Batch(c, values, k)) == Min(c.batch, Count(c, values) - Offset(c, values, k))
  {
    hide BatchOk, Count;
    BatchesBefore(c, values, k);
    OffsetGrows(c, values, k);
    RowsLength(c, values, Offset(c, values, k), Offset(c, values, k + 1));
  }

  /** The loop's offset moves to the next batch, and reaches the end with the last one. */
  lemma NextOffset(c: Configuration, values: seq<Float32>, k: nat)
    requires ConfigurationOk(c) && k < BatchCount(c, values)
    ensures Offset(c, values, k) < Count(c, values)
    ensures Offset(c, values, k + 1) == Offset(c, values, k) + Min(c.batch, Count(c, values) - Offset(c, values, k))
    ensures Offset(c, values, k + 1) < Count(c, values) <==> k + 1 < BatchCount(c, values)
  {
    hide Count, BatchCount;
    BatchesBefore(c, values, k);
    BatchesBefore(c, values, k + 1);
    OffsetGrows(c, values, k);
  }

  /** Within the reader's limits no call fails for its vectors: only its values and the session decide. */
  lemma LimitsSuffice(c: Configuration, session: Session, values: seq<Float32>, v: Vectors, k: nat)
    requires ConfigurationOk(c) && DatasetOk(c, values) && k < BatchCount(c, values)
    requires InLine(c, v) && |v.predictions| == Offset(c, values, k)
    ensures Accepts(c, session, v, Batch(c, values, k)) <==> Runs(c, session, Batch(c, values, k))
  {
    hide Count, Batch, Runs, Accepts, Room, BatchCount, Offset, Aligned;
    BatchRows(c, values, k);
    NextOffset(c, values, k);
    RoomFor(c, |v.scores|, |v.predictions|, |v.top|, Count(c, Batch(c, values, k)), Count(c, values));
    RoomAccepts(c, session, v, Batch(c, values, k));
  }

  lemma RoomAccepts(c: Configuration, session: Session, v: Vectors, raw: seq<Float32>)
    requires c.features > 0 && InLine(c, v) && Room(c, |v.scores|, |v.predictions|, |v.top|, Count(c, raw))
    ensures Accepts(c, session, v, raw) <==> Runs(c, session, raw)
  {
    hide Room, Aligned, BatchOk, Normalizable, RunOk, Padded;
  }

  lemma RoomFor(c: Configuration, scores: nat, p: nat, top: nat, n: nat, total: nat)
    requires ConfigurationOk(c) && p + n <= total <= 100000 && total * c.classes <= 262144 && Aligned(c, scores, p, top)
    ensures Room(c, scores, p, top, n)
  {
    AtMost(p + n, total, c.classes);
    AtMost(p, p + n, c.classes);
    Places(c, p, n);
    Smaller(p + n, c.topK, c.classes);
    Smaller(c.batch, c.classes, 256);
  }

  lemma AtMost(a: nat, b: nat, d: nat)
    requires a <= b
    ensures a * d <= b * d
  {
    assert b * d == a * d + (b - a) * d;
  }

  lemma Smaller(a: nat, d: nat, e: nat)
    requires d <= e
    ensures a * d <= a * e
  {
    assert a * e == a * d + a * (e - d);
  }

  /** Every one of the first `n` batches has values in range and a session that answers. */
  predicate AllRun(c: Configuration, session: Session, values: seq<Float32>, n: nat)
    requires c.features > 0 && |values| % c.features == 0
  {
    forall k | 0 <= k < n :: Runs(c, session, Batch(c, values, k))
  }

  /** While every batch has run, batch `k` starts at its own row, and succeeds exactly when it runs. */
  lemma {:induction false} BatchStarts(c: Configuration, session: Session, values: seq<Float32>, n: nat, k: nat)
    requires ConfigurationOk(c) && DatasetOk(c, values) && k <= n <= BatchCount(c, values) && AllRun(c, session, values, k)
    ensures Start(c, session, Batches(c, values, n), k) == Offset(c, values, k)
    ensures k < n ==> (Answers(c, session, Batches(c, values, n), k) <==> Runs(c, session, Batch(c, values, k)))
    decreases k
  {
    hide Runs, Succeeds, After, Batch, Count, Offset, BatchCount;
    var calls := Batches(c, values, n);
    if k > 0 {
      BatchStarts(c, session, values, n, k - 1);
      StartOfNext(c, session, calls, k - 1);
      BatchRows(c, values, k - 1);
      NextOffset(c, values, k - 1);
      assert Runs(c, session, Batch(c, values, k - 1));
    } else {
      Beginning(c, session, calls);
      FirstOffset(c, values);
    }
    if k < n {
      LimitsSuffice(c, session, values, After(c, session, calls[..k]), k);
    }
  }

  /** When every batch runs, each row of the data set has its answer at its own place in the vectors. */
  lemma DatasetInOrder(c: Configuration, session: Session, values: seq<Float32>, k: nat, i: nat)
    requires ConfigurationOk(c) && DatasetOk(c, values) && AllRun(c, session, values, BatchCount(c, values))
    requires i < c.batch && k * c.batch + i < Count(c, values)
    ensures Runs(c, session, Batch(c, values, k)) && (i + 1) * c.classes <= |Written(c, session, Batch(c, values, k))|
    ensures Scores(Written(c, session, Batch(c, values, k)))
    ensures RowAt(c, After(c, session, Batches(c, values, BatchCount(c, values))), k * c.batch + i,
                  Written(c, session, Batch(c, values, k)), i)
  {
    hide Runs, Succeeds, After, Batch, Count, RowAt, BatchCount, Written, Scores, Offset;
    var n := BatchCount(c, values);
    var calls := Batches(c, values, n);
    BatchesBefore(c, values, k);
    BatchRows(c, values, k);
    OffsetIs(c, values, k);
    assert Runs(c, session, Batch(c, values, k));
    RunsWrites(c, session, Batch(c, values, k));
    BatchStarts(c, session, values, n, k);
    assert calls[..n] == calls;
    RowsInOrder(c, session, calls, n, k, i);
  }

  /**
  One pass over a data set, which ends at the first call that fails. It completes exactly when every
  batch has values in range and a session that answers, and then every row has its answer.
  */
  method ClassifyDataset(c: Configuration, session: Session, values: seq<Float32>, ws: Workspace, out: Outputs) returns (r: Outcome)
    requires ConfigurationOk(c) && DatasetOk(c, values) && Contents(out) == NONE
    modifies ws, out
    ensures r.Completed? <==> AllRun(c, session, values, BatchCount(c, values))
    ensures r.Completed? ==> Contents(out) == After(c, session, Batches(c, values, BatchCount(c, values)))
    ensures r.Completed? ==> |out.predictions| == Count(c, values)
  {
    hide Runs, Succeeds, Grown, Added, After, Batch, Count, BatchCount, Offset, DatasetOk;
    Divisible(c, values);
    var total, offset := Count(c, values), 0;
    ghost var k, n := 0, BatchCount(c, values);
    ghost var calls := Batches(c, values, n);
    Beginning(c, session, calls);
    FirstOffset(c, values);
    BatchesBefore(c, values, 0);
    while offset < total
      invariant k <= n && offset == Offset(c, values, k) <= total && (offset < total <==> k < n)
      invariant AllRun(c, session, values, k)
      invariant Contents(out) == After(c, session, calls[..k])
    {
      BatchRows(c, values, k);
      NextOffset(c, values, k);
      BatchStarts(c, session, values, n, k);
      var rowCount := Min(c.batch, total - offset);
      var raw := Rows(c, values, offset, offset + rowCount);
      assert raw == Batch(c, values, k) by { BatchIs(c, values, k); }
      ghost var v := Contents(out);
      r := ClassifyBatchAppend(c, session, raw, ws, out);
      if r.Failed? {
        return;
      }
      GrownJoins(c, session, raw, v, Contents(out));
      OneMoreCall(c, session, calls, k);
      offset, k := offset + rowCount, k + 1;
    }
    BatchStarts(c, session, values, n, n);
    assert calls[..n] == calls;
    r := Completed;
  }

  lemma BatchIs(c: Configuration, values: seq<Float32>, k: nat)
    requires c.features > 0 && |values| % c.features == 0
    ensures Offset(c, values, k) <= Offset(c, values, k + 1)
    ensures Batch(c, values, k) == Rows(c, values, Offset(c, values, k), Offset(c, values, k + 1))
  {
    OffsetGrows(c, values, k);
  }
}
