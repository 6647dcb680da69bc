/** GPU metric histories: backend/api/gpu_service.py, lines 21-37, 125-176 and
    303-339. */
module GpuHistory {
  import opened Wrappers

  const HISTORY_MAX_POINTS: nat := 60

  /** (history key, metric key) pairs, in the order they are updated. */
  const HISTORY_FIELDS: seq<(string, string)> := [
    ("usage", "usage"), ("memUsage", "memPercent"), ("temperature", "tempC"), ("power", "powerW"),
    ("powerPercent", "powerPercent"), ("clockCore", "clockMHz"), ("clockMem", "clockMemMHz"),
    ("fanSpeed", "fanPercent"), ("memController", "memControllerUtil")
  ]

  datatype Float = Finite(value: real) | PlusInfinity | MinusInfinity | NaN

  /** What a metrics dictionary holds under a key; `Convertible` covers every
      value `float()` accepts, `TooLarge` the integers for which it raises an error
      nothing in the loop catches. */
  datatype Reading = Missing | Unconvertible | TooLarge | Convertible(number: Float)

  datatype Gpu = Gpu(id: int, status: map<string, string>, readings: map<string, Reading>)

  /** `_history_sample` */
  function Sample(gpu: Gpu, metric: string): Option<Float> {
    if metric in gpu.status && gpu.status[metric] != "ok" then None
    else if metric !in gpu.readings then None
    else match gpu.readings[metric]
         case Missing => None
         case Unconvertible => None
         case TooLarge => None
         case Convertible(x) => if x == NaN then None else Some(x)
  }

  /** A sample is a number the metric holds, not NaN, with a status that is absent or
      "ok". */
  lemma SampleByCause(gpu: Gpu, metric: string, x: Float)
    ensures Sample(gpu, metric) == Some(x) <==>
            && (metric !in gpu.status || gpu.status[metric] == "ok")
            && metric in gpu.readings && gpu.readings[metric] == Convertible(x) && x != NaN
  {
  }

  /** `_history_sample` raises. */
  predicate Raises(gpu: Gpu, metric: string) {
    && (metric in gpu.status ==> gpu.status[metric] == "ok")
    && metric in gpu.readings && gpu.readings[metric] == TooLarge
  }

  /** It raises for a number too large, unless the status says the metric is not
      available. */
  lemma RaisesByCause(gpu: Gpu, metric: string)
    ensures Raises(gpu, metric) <==>
            && !(metric in gpu.status && gpu.status[metric] != "ok")
            && !(metric !in gpu.readings || gpu.readings[metric] != TooLarge)
  {
  }

  /** The fields of a GPU that are updated before one raises. */
  function FieldsReached(fields: seq<(string, string)>, gpu: Gpu): (n: nat)
    ensures n <= |fields|
    ensures forall i :: 0 <= i < n ==> !Raises(gpu, fields[i].1)
    ensures n < |fields| ==> Raises(gpu, fields[n].1)
  {
    if fields == [] || Raises(gpu, fields[0].1) then 0 else 1 + FieldsReached(fields[1..], gpu)
  }

  /** Some field of some of these GPUs raises, which ends the refresh. */
  predicate Aborts(fields: seq<(string, string)>, metrics: seq<Gpu>) {
    exists g :: 0 <= g < |metrics| && Stops(fields, metrics[g])
  }

  predicate Stops(fields: seq<(string, string)>, gpu: Gpu) {
    FieldsReached(fields, gpu) < |fields|
  }

  /** Appending to a `deque(maxlen=60)`. */
  function Push(points: seq<Float>, x: Float): seq<Float> {
    LastPoints(points + [x])
  }

  function LastPoints(points: seq<Float>): seq<Float> {
    if |points| <= HISTORY_MAX_POINTS then points else points[|points| - HISTORY_MAX_POINTS..]
  }

  function Record(points: seq<Float>, sample: Option<Float>): seq<Float> {
    if sample.Some? then Push(points, sample.value)
    else if points != [] then Push(points, points[|points| - 1])
    else points
  }

  type History = map<int, map<string, seq<Float>>>

  /** `getHistory` */
  function Points(h: History, id: int, field: string): seq<Float> {
    if id in h && field in h[id] then h[id][field] else []
  }

  /** The samples one refresh brings for a GPU's field, up to where it raises; an id
      may occur more than once. */
  function Samples(fields: seq<(string, string)>, metrics: seq<Gpu>, id: int, i: nat): seq<Option<Float>>
    requires i < |fields|
  {
    if metrics == [] then []
    else
      var n := |metrics| - 1;
      Samples(fields, metrics[..n], id, i) +
      if metrics[n].id == id && !Aborts(fields, metrics[..n]) && i < FieldsReached(fields, metrics[n])
      then [Sample(metrics[n], fields[i].1)] else []
  }

  function RecordAll(points: seq<Float>, samples: seq<Option<Float>>): seq<Float> {
    if samples == [] then points
    else Record(RecordAll(points, samples[..|samples| - 1]), samples[|samples| - 1])
  }

  datatype Op = Update(metrics: seq<Gpu>) | ClearAll

  /** All samples of a GPU's field since the last clear. */
  function Stream(fields: seq<(string, string)>, ops: seq<Op>, id: int, i: nat): seq<Option<Float>>
    requires i < |fields|
  {
    if ops == [] then []
    else match ops[|ops| - 1]
         case ClearAll => []
         case Update(metrics) => Stream(fields, ops[..|ops| - 1], id, i) + Samples(fields, metrics, id, i)
  }

  predicate Distinct(fields: seq<(string, string)>) {
    forall i, j :: 0 <= i < j < |fields| ==> fields[i].0 != fields[j].0
  }

  lemma ShippedFieldsAreDistinct()
    ensures Distinct(HISTORY_FIELDS)
  {
  }

  class GPUServiceBridge {
    const fields: seq<(string, string)>
    var history: History
    ghost var ops: seq<Op>

    constructor (fields: seq<(string, string)>)
      requires Distinct(fields)
      ensures this.fields == fields && Valid() && ops == []
    {
      this.fields := fields;
      history := map[];
      ops := [];
    }

    /** Rings exist for all fields, and every ring records its own stream. */
    ghost predicate Valid()
      reads this
    {
      && Distinct(fields)
      && HasRings(history)
      && forall id, i :: 0 <= i < |fields| ==>
           Points(history, id, fields[i].0) == RecordAll([], Stream(fields, ops, id, i))
    }

    ghost function FieldNames(): set<string> {
      set i | 0 <= i < |fields| :: fields[i].0
    }

    /** Every known GPU has a ring for each field, and no other. */
    ghost predicate HasRings(h: History) {
      forall id :: id in h ==> h[id].Keys == FieldNames()
    }

    method InitGpuHistory(id: int)
      requires HasRings(history)
      modifies this`history
      ensures HasRings(history) && history.Keys == old(history).Keys + {id}
      ensures forall other, field :: Points(history, other, field) == Points(old(history), other, field)
    {
      if id !in history {
        var rings: map<string, seq<Float>> := map[];
        for i := 0 to |fields|
          invariant forall k :: k in rings ==> rings[k] == []
          invariant rings.Keys == set j | 0 <= j < i :: fields[j].0
        {
          rings := rings[fields[i].0 := []];
        }
        history := history[id := rings];
      }
    }

    /** The loop over the fields, until one raises. */
    method UpdateRings(before: map<string, seq<Float>>, gpu: Gpu)
      returns (rings: map<string, seq<Float>>, raised: bool)
      requires Distinct(fields)
      requires forall j :: 0 <= j < |fields| ==> fields[j].0 in before
      ensures rings.Keys == before.Keys && (raised <==> Stops(fields, gpu))
      ensures forall j :: 0 <= j < |fields| ==>
                rings[fields[j].0] == RingAfter(fields, before[fields[j].0], gpu, j)
    {
      rings := before;
      for i := 0 to |fields|
        invariant rings.Keys == before.Keys && i <= FieldsReached(fields, gpu)
        invariant forall j :: 0 <= j < i ==> rings[fields[j].0] == Record(before[fields[j].0], Sample(gpu, fields[j].1))
        invariant forall j :: i <= j < |fields| ==> rings[fields[j].0] == before[fields[j].0]
      {
        if Raises(gpu, fields[i].1) {
          return rings, true;
        }
        var field := fields[i].0;
        var ring := UpdateRing(rings[field], Sample(gpu, fields[i].1));
        rings := rings[field := ring];
      }
      raised := false;
    }

    /** A sample is appended, else the last point is repeated. */
    method UpdateRing(ring: seq<Float>, sample: Option<Float>) returns (after: seq<Float>)
      ensures after == Record(ring, sample)
    {
      after := ring;
      if sample.Some? {
        after := Push(ring, sample.value);
      } else if ring != [] {
        after := Push(ring, ring[|ring| - 1]);
      }
    }

    method UpdateGpu(gpu: Gpu) returns (raised: bool)
      requires Distinct(fields) && HasRings(history)
      modifies this`history
      ensures HasRings(history) && (raised <==> Stops(fields, gpu))
      ensures forall id, i :: 0 <= i < |fields| ==>
                Points(history, id, fields[i].0) ==
                if id == gpu.id then RingAfter(fields, Points(old(history), id, fields[i].0), gpu, i)
                else Points(old(history), id, fields[i].0)
    {
      InitGpuHistory(gpu.id);
      assert forall j :: 0 <= j < |fields| ==> fields[j].0 in FieldNames();
      var rings;
      rings, raised := UpdateRings(history[gpu.id], gpu);
      RingsReplaced(history, rings, fields, gpu);
      history := history[gpu.id := rings];
    }

    /** Whether it raises or not, every ring records its own stream; the fields and
        GPUs behind the one that raises are left out of this refresh. */
    method UpdateHistory(metrics: seq<Gpu>) returns (raised: bool)
      requires Valid()
      modifies this
      ensures Valid() && ops == old(ops) + [Update(metrics)]
      ensures raised <==> Aborts(fields, metrics)
    {
      raised := UpdateAll(metrics);
      ops := ops + [Update(metrics)];
    }

    ghost predicate Recorded(metrics: seq<Gpu>)
      reads this
    {
      forall id, j :: 0 <= j < |fields| ==>
        Points(history, id, fields[j].0) ==
        RecordAll([], Stream(fields, ops, id, j) + Samples(fields, metrics, id, j))
    }

    method UpdateAll(metrics: seq<Gpu>) returns (raised: bool)
      requires Valid()
      modifies this`history
      ensures HasRings(history) && Recorded(metrics) && (raised <==> Aborts(fields, metrics))
    {
      forall id, j | 0 <= j < |fields|
        ensures Stream(fields, ops, id, j) + Samples(fields, metrics[..0], id, j) == Stream(fields, ops, id, j)
      {
      }
      for i := 0 to |metrics|
        invariant HasRings(history) && Recorded(metrics[..i]) && !Aborts(fields, metrics[..i])
      {
        ghost var before := history;
        var stopped := UpdateGpu(metrics[i]);
        forall id, j | 0 <= j < |fields|
          ensures Points(history, id, fields[j].0) ==
                  RecordAll([], Stream(fields, ops, id, j) + Samples(fields, metrics[..i + 1], id, j))
        {
          RecordOneMore(fields, Stream(fields, ops, id, j), metrics, i, id, j);
        }
        AbortsAt(fields, metrics, i);
        if stopped {
          NothingAfterAbort(fields, metrics, i);
          return true;
        }
      }
      assert metrics[..|metrics|] == metrics;
      raised := false;
    }

    method ClearHistory()
      requires Valid()
      modifies this
      ensures Valid() && ops == old(ops) + [ClearAll] && history == map[]
    {
      history := map[];
      ops := ops + [ClearAll];
    }

    /** The last 60 points of the field's carried-forward stream; an unknown
        field has none. */
    method GetHistory(id: int, field: string) returns (points: seq<Float>)
      requires Valid()
      ensures forall i :: 0 <= i < |fields| && fields[i].0 == field ==>
                points == LastPoints(Locf(Stream(fields, ops, id, i)))
      ensures (forall i :: 0 <= i < |fields| ==> fields[i].0 != field) ==> points == []
    {
      points := [];
      if id in history && field in history[id] {
        points := history[id][field];
      }
      forall i | 0 <= i < |fields| && fields[i].0 == field
        ensures points == LastPoints(Locf(Stream(fields, ops, id, i)))
      {
        RingIsTailOfLocf(Stream(fields, ops, id, i));
      }
    }
  }

  /** A ring after the update of its GPU. */
  function RingAfter(fields: seq<(string, string)>, ring: seq<Float>, gpu: Gpu, i: nat): seq<Float>
    requires i < |fields|
  {
    if i < FieldsReached(fields, gpu) then Record(ring, Sample(gpu, fields[i].1)) else ring
  }

  lemma RingsReplaced(h: History, rings: map<string, seq<Float>>, fields: seq<(string, string)>, gpu: Gpu)
    requires gpu.id in h && rings.Keys == h[gpu.id].Keys
    requires forall j :: 0 <= j < |fields| ==>
               fields[j].0 in rings && rings[fields[j].0] == RingAfter(fields, h[gpu.id][fields[j].0], gpu, j)
    ensures forall id, i :: 0 <= i < |fields| ==>
              Points(h[gpu.id := rings], id, fields[i].0) ==
              if id == gpu.id then RingAfter(fields, Points(h, id, fields[i].0), gpu, i)
              else Points(h, id, fields[i].0)
  {
  }

  lemma RecordOneMore(
    fields: seq<(string, string)>, stream: seq<Option<Float>>, metrics: seq<Gpu>, i: nat, id: int, j: nat)
    requires i < |metrics| && j < |fields| && !Aborts(fields, metrics[..i])
    ensures
      var before := RecordAll([], stream + Samples(fields, metrics[..i], id, j));
      RecordAll([], stream + Samples(fields, metrics[..i + 1], id, j)) ==
      if metrics[i].id == id then RingAfter(fields, before, metrics[i], j) else before
  {
    assert metrics[..i + 1][..i] == metrics[..i];
    var before := stream + Samples(fields, metrics[..i], id, j);
    if metrics[i].id == id && j < FieldsReached(fields, metrics[i]) {
      var after := stream + Samples(fields, metrics[..i + 1], id, j);
      assert after == before + [Sample(metrics[i], fields[j].1)];
      assert after[..|after| - 1] == before;
    } else {
      assert stream + (Samples(fields, metrics[..i], id, j) + []) == before;
    }
  }

  lemma AbortsAt(fields: seq<(string, string)>, metrics: seq<Gpu>, i: nat)
    requires i < |metrics| && !Aborts(fields, metrics[..i])
    ensures Aborts(fields, metrics[..i + 1]) <==> Stops(fields, metrics[i])
  {
    var next := metrics[..i + 1];
    assert next[i] == metrics[i];
    forall g | 0 <= g < i ensures !Stops(fields, next[g]) {
      assert metrics[..i][g] == next[g];
    }
  }

  lemma AbortsStay(fields: seq<(string, string)>, metrics: seq<Gpu>, n: nat)
    requires n <= |metrics| && Aborts(fields, metrics[..n])
    ensures Aborts(fields, metrics)
  {
    var g :| 0 <= g < n && Stops(fields, metrics[..n][g]);
    assert metrics[g] == metrics[..n][g];
  }

  lemma {:induction false} NoSamplesAfterAbort(fields: seq<(string, string)>, metrics: seq<Gpu>, n: nat, id: int, j: nat)
    requires n <= |metrics| && Aborts(fields, metrics[..n]) && j < |fields|
    ensures Samples(fields, metrics, id, j) == Samples(fields, metrics[..n], id, j)
    decreases |metrics|
  {
    if n == |metrics| {
      assert metrics[..n] == metrics;
    } else {
      var last := |metrics| - 1;
      assert metrics[..last][..n] == metrics[..n];
      AbortsStay(fields, metrics[..last], n);
      AbortedBringsNoMore(fields, metrics, id, j);
      NoSamplesAfterAbort(fields, metrics[..last], n, id, j);
    }
  }

  lemma AbortedBringsNoMore(fields: seq<(string, string)>, metrics: seq<Gpu>, id: int, j: nat)
    requires metrics != [] && Aborts(fields, metrics[..|metrics| - 1]) && j < |fields|
    ensures Samples(fields, metrics, id, j) == Samples(fields, metrics[..|metrics| - 1], id, j)
  {
  }

  /** Behind the GPU that raises a refresh brings no samples. */
  lemma NothingAfterAbort(fields: seq<(string, string)>, metrics: seq<Gpu>, i: nat)
    requires i < |metrics| && Aborts(fields, metrics[..i + 1])
    ensures Aborts(fields, metrics)
    ensures forall id, j :: 0 <= j < |fields| ==>
              Samples(fields, metrics, id, j) == Samples(fields, metrics[..i + 1], id, j)
  {
    AbortsStay(fields, metrics, i + 1);
    forall id, j | 0 <= j < |fields|
      ensures Samples(fields, metrics, id, j) == Samples(fields, metrics[..i + 1], id, j)
    {
      NoSamplesAfterAbort(fields, metrics, i + 1, id, j);
    }
  }

  // ---- what the rings hold ----

  /** Last observation carried forward; nothing before the first one. */
  function Locf(samples: seq<Option<Float>>): seq<Float> {
    if samples == [] then []
    else
      Carry(Locf(samples[..|samples| - 1]), samples[|samples| - 1])
  }

  /** A ring holds the last 60 points of the carried-forward stream. */
  lemma {:induction false} RingIsTailOfLocf(samples: seq<Option<Float>>)
    ensures RecordAll([], samples) == LastPoints(Locf(samples))
  {
    if samples != [] {
      RingIsTailOfLocf(samples[..|samples| - 1]);
      RecordOnTail(Locf(samples[..|samples| - 1]), samples[|samples| - 1]);
    }
  }

  function Carry(points: seq<Float>, x: Option<Float>): seq<Float> {
    if x.Some? then points + [x.value]
    else if points != [] then points + [points[|points| - 1]]
    else points
  }

  /** Cutting a full ring loses nothing that a later cut would keep. */
  lemma PushOnTail(points: seq<Float>, x: Float)
    ensures Push(LastPoints(points), x) == LastPoints(points + [x])
  {
  }

  lemma RecordOnTail(points: seq<Float>, x: Option<Float>)
    ensures Record(LastPoints(points), x) == LastPoints(Carry(points, x))
  {
    if x.Some? {
      PushOnTail(points, x.value);
    } else if points != [] {
      PushOnTail(points, points[|points| - 1]);
    }
  }

  /** The position of the first available sample. */
  function FirstGood(samples: seq<Option<Float>>): (n: nat)
    ensures n <= |samples|
    ensures n < |samples| ==> samples[n].Some?
    ensures forall i :: 0 <= i < n ==> samples[i] == None
  {
    if samples == [] || samples[0].Some? then 0 else 1 + FirstGood(samples[1..])
  }

  /** `j` is the latest available sample up to position `i`. */
  predicate LatestUpTo(samples: seq<Option<Float>>, i: nat, j: nat) {
    j <= i < |samples| && samples[j].Some? && forall k :: j < k <= i ==> samples[k] == None
  }

  lemma FirstGoodOfPrefix(samples: seq<Option<Float>>)
    requires samples != []
    ensures
      var n := |samples| - 1;
      FirstGood(samples) == if FirstGood(samples[..n]) < n then FirstGood(samples[..n])
                            else if samples[n].Some? then n else n + 1
  {
    var n := |samples| - 1;
    var f, g := FirstGood(samples[..n]), FirstGood(samples);
    assert forall i :: 0 <= i < n ==> samples[..n][i] == samples[i];
    assert f < n ==> samples[f].Some?;
  }

  /** Point `i` counted from the first available sample is the latest available
      one at that time: every stored value is a genuine earlier sample. */
  lemma {:induction false} LocfPoint(samples: seq<Option<Float>>, i: nat) returns (j: nat)
    requires FirstGood(samples) + i < |samples|
    ensures |Locf(samples)| == |samples| - FirstGood(samples)
    ensures LatestUpTo(samples, FirstGood(samples) + i, j)
    ensures Locf(samples)[i] == samples[j].value
  {
    var n := |samples| - 1;
    var before := samples[..n];
    FirstGoodOfPrefix(samples);
    LocfLength(before);
    LocfLength(samples);
    if FirstGood(samples) + i < n {
      j := LocfPoint(before, i);
      LatestInPrefix(samples, FirstGood(samples) + i, j);
    } else if samples[n].Some? {
      j := n;
    } else {
      j := LocfPoint(before, i - 1);
      LatestInPrefix(samples, n - 1, j);
    }
  }

  lemma LatestInPrefix(samples: seq<Option<Float>>, i: nat, j: nat)
    requires samples != [] && LatestUpTo(samples[..|samples| - 1], i, j)
    ensures LatestUpTo(samples, i, j) && samples[..|samples| - 1][j] == samples[j]
    ensures samples[|samples| - 1] == None && i == |samples| - 2 ==> LatestUpTo(samples, i + 1, j)
  {
    assert forall k :: 0 <= k < |samples| - 1 ==> samples[..|samples| - 1][k] == samples[k];
  }

  lemma {:induction false} LocfLength(samples: seq<Option<Float>>)
    ensures |Locf(samples)| == |samples| - FirstGood(samples)
  {
    if samples != [] {
      FirstGoodOfPrefix(samples);
      LocfLength(samples[..|samples| - 1]);
    }
  }

  /** What the last points of a metric stream are, one by one. */
  lemma HistoryIsTailOfStream(stream: seq<Option<Float>>, i: nat) returns (j: nat)
    requires i < |LastPoints(Locf(stream))|
    ensures
      var points := LastPoints(Locf(stream));
      var whole := |stream| - FirstGood(stream);
      && |points| == (if whole <= HISTORY_MAX_POINTS then whole else HISTORY_MAX_POINTS)
      && LatestUpTo(stream, |stream| - |points| + i, j) && points[i] == stream[j].value
  {
    LocfLength(stream);
    j := LocfPoint(stream, |Locf(stream)| - |LastPoints(Locf(stream))| + i);
  }
}
