/** Background workers as a step protocol: starts, late callbacks, cancels,
    heartbeats and watchdog checks, with worker ids that are used again.
    backend/core/workers.py, lines 67-177, and backend/api/backend_bridge.py,
    lines 1345-1427, 1565-1750, 2065-2165 and 3595-3605. */
module WorkerSpec {
  import opened Wrappers

  const DEFAULT_STALE_THRESHOLD_SEC := 15.0

  // ---- the run of one worker ----

  datatype TaskEnd = Returned | Raised

  datatype Terminal = FinishedSignal | ErrorSignal | CancelledSignal

  /** `CancellableWorker.run`: the timeout is checked before the cancellation,
      and an exception beats both. */
  function TerminalOf(end: TaskEnd, elapsedMs: real, timeoutMs: real, cancelled: bool): Terminal {
    if end == Raised || elapsedMs > timeoutMs then ErrorSignal
    else if cancelled then CancelledSignal
    else FinishedSignal
  }

  /** An error is reported for every exception and every overrun, cancelled or not;
      of the runs that return in time the cancelled ones say so. */
  lemma TerminalByCause(end: TaskEnd, elapsedMs: real, timeoutMs: real, cancelled: bool)
    ensures
      var signal := TerminalOf(end, elapsedMs, timeoutMs, cancelled);
      && (signal == ErrorSignal <==> end == Raised || elapsedMs > timeoutMs)
      && (signal == CancelledSignal <==> end == Returned && elapsedMs <= timeoutMs && cancelled)
      && (signal == FinishedSignal <==> end == Returned && elapsedMs <= timeoutMs && !cancelled)
  {
  }

  // ---- the watchdog's state ----

  /** `_workers` with its insertion order, and `_worker_thresholds`. */
  datatype Watch = Watch(order: seq<string>, beats: map<string, real>, thresholds: map<string, real>)

  ghost predicate ValidWatch(w: Watch) {
    && (forall i, j :: 0 <= i < j < |w.order| ==> w.order[i] != w.order[j])
    && (forall id :: id in w.order <==> id in w.beats)
  }

  function Threshold(t: Option<real>): real {
    if t.Some? then t.value else DEFAULT_STALE_THRESHOLD_SEC
  }

  function Register(w: Watch, id: string, threshold: Option<real>, now: real): Watch {
    Watch(if id in w.beats then w.order else w.order + [id],
          w.beats[id := now], w.thresholds[id := Threshold(threshold)])
  }

  function Beat(w: Watch, id: string, now: real): Watch {
    if id in w.beats then w.(beats := w.beats[id := now]) else w
  }

  function Remove(order: seq<string>, id: string): seq<string> {
    if order == [] then []
    else if order[0] == id then order[1..]
    else [order[0]] + Remove(order[1..], id)
  }

  function Unregister(w: Watch, id: string): Watch {
    Watch(Remove(w.order, id), w.beats - {id}, w.thresholds - {id})
  }

  predicate Overdue(w: Watch, id: string, now: real) {
    id in w.beats &&
    now - w.beats[id] > if id in w.thresholds then w.thresholds[id] else DEFAULT_STALE_THRESHOLD_SEC
  }

  /** The ids a check reports, in the order of the dictionary. */
  function Stale(w: Watch, order: seq<string>, now: real): seq<string> {
    if order == [] then []
    else
      var n := |order| - 1;
      Stale(w, order[..n], now) + if Overdue(w, order[n], now) then [order[n]] else []
  }

  // ---- the protocol ----

  /** `success` callbacks deliver unless saving their result raises; the
      callback of a stale worker is the callback of its id. */
  datatype Action =
    | Start(id: string, guarded: bool, threshold: Option<real>, now: real)
    | Callback(id: string, success: bool, saves: bool)
    | Heartbeat(id: string, now: real)
    | Cancel(id: string)
    | Check(now: real)

  datatype Record =
    | Started(id: string)
    | Replaced(id: string)
    | Delivered(id: string)
    | Removed(id: string)
    | Reported(id: string)
    | Stalled(id: string)

  datatype Life = Life(active: set<string>, watch: Watch, log: seq<Record>)

  const IDLE := Life({}, Watch([], map[], map[]), [])

  /** The stall handler, together with the clean-up of the check that emits. */
  function StallOne(s: Life, id: string): Life {
    Life(s.active - {id}, Unregister(s.watch, id),
         s.log + [Reported(id)] + if id in s.active then [Stalled(id)] else [])
  }

  function StallAll(s: Life, ids: seq<string>): Life {
    if ids == [] then s else StallOne(StallAll(s, ids[..|ids| - 1]), ids[|ids| - 1])
  }

  function Step(s: Life, a: Action): Life {
    match a
    case Start(id, guarded, threshold, now) =>
      if guarded && id in s.active then s
      else
        Life(s.active + {id}, Register(s.watch, id, threshold, now),
             s.log + (if id in s.active then [Replaced(id)] else []) + [Started(id)])
    case Callback(id, success, saves) =>
      if id !in s.active then s
      else
        Life(s.active - {id}, Unregister(s.watch, id),
             s.log + (if success && !saves then [] else [Delivered(id)]) + [Removed(id)])
    case Heartbeat(id, now) => s.(watch := Beat(s.watch, id, now))
    case Cancel(id) => s
    case Check(now) => StallAll(s, Stale(s.watch, s.watch.order, now))
  }

  function Run(s: Life, actions: seq<Action>): Life {
    if actions == [] then s
    else Step(Run(s, actions[..|actions| - 1]), actions[|actions| - 1])
  }

  // ---- the maps agree ----

  ghost predicate Agree(s: Life) {
    && ValidWatch(s.watch)
    && s.active == s.watch.beats.Keys == s.watch.thresholds.Keys
  }

  lemma {:induction false} RemoveElements(order: seq<string>, id: string)
    requires forall i, j :: 0 <= i < j < |order| ==> order[i] != order[j]
    ensures forall i, j :: 0 <= i < j < |Remove(order, id)| ==> Remove(order, id)[i] != Remove(order, id)[j]
    ensures forall x :: x in Remove(order, id) <==> x in order && x != id
  {
    if order != [] {
      assert order == [order[0]] + order[1..];
      RemoveElements(order[1..], id);
      var rest := Remove(order[1..], id);
      assert order[0] !in order[1..];
      assert order[0] != id ==> order[0] !in rest;
    }
  }

  lemma {:induction false} StallAllAgree(s: Life, ids: seq<string>)
    requires Agree(s)
    ensures Agree(StallAll(s, ids))
  {
    if ids != [] {
      StallAllAgree(s, ids[..|ids| - 1]);
      RemoveElements(StallAll(s, ids[..|ids| - 1]).watch.order, ids[|ids| - 1]);
    }
  }

  lemma StepAgree(s: Life, a: Action)
    requires Agree(s)
    ensures Agree(Step(s, a))
  {
    match a
    case Check(now) => StallAllAgree(s, Stale(s.watch, s.watch.order, now));
    case Callback(id, _, _) => RemoveElements(s.watch.order, id);
    case _ =>
  }

  /** After every step the three key sets are equal. */
  lemma {:induction false} MapsAlwaysAgree(s: Life, actions: seq<Action>)
    requires Agree(s)
    ensures Agree(Run(s, actions))
  {
    if actions != [] {
      MapsAlwaysAgree(s, actions[..|actions| - 1]);
      StepAgree(Run(s, actions[..|actions| - 1]), actions[|actions| - 1]);
    }
  }
}
