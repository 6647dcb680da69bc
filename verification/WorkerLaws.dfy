/** Laws of the worker protocol over every interleaving. */
module WorkerLaws {
  import opened Wrappers
  import opened WorkerSpec

  // ---- counting records ----

  function Count(log: seq<Record>, x: Record): nat {
    if log == [] then 0 else (if log[|log| - 1] == x then 1 else 0) + Count(log[..|log| - 1], x)
  }

  lemma {:induction false} CountAppend(a: seq<Record>, b: seq<Record>, x: Record)
    ensures Count(a + b, x) == Count(a, x) + Count(b, x)
  {
    if b == [] {
      assert a + b == a;
    } else {
      assert (a + b)[..|a + b| - 1] == a + b[..|b| - 1];
      CountAppend(a, b[..|b| - 1], x);
    }
  }

  lemma CountOne(a: Record, x: Record)
    ensures Count([a], x) == if a == x then 1 else 0
  {
  }

  /** What one step adds to the count of a record. */
  function Added(s: Life, a: Action, x: Record): int {
    Count(Step(s, a).log, x) - Count(s.log, x)
  }

  // ---- conservation ----

  function Starts(s: Life, id: string): nat { Count(s.log, Started(id)) }

  /** Every start is accounted for: delivered or dropped by a callback, stalled,
      replaced by an unguarded start, or still active. */
  predicate Balanced(s: Life, id: string) {
    Starts(s, id) == Count(s.log, Removed(id)) + Count(s.log, Stalled(id)) + Count(s.log, Replaced(id)) +
                     (if id in s.active then 1 else 0)
  }

  lemma StallOneCounts(s: Life, who: string, x: Record)
    ensures Count(StallOne(s, who).log, x) ==
            Count(s.log, x) + (if x == Reported(who) then 1 else 0) +
            (if x == Stalled(who) && who in s.active then 1 else 0)
  {
    CountAppend(s.log, [Reported(who)], x);
    CountOne(Reported(who), x);
    if who in s.active {
      CountAppend(s.log + [Reported(who)], [Stalled(who)], x);
      CountOne(Stalled(who), x);
    } else {
      assert s.log + [Reported(who)] + [] == s.log + [Reported(who)];
    }
  }

  lemma {:induction false} StallAllBalanced(s: Life, ids: seq<string>, id: string)
    requires Balanced(s, id)
    ensures Balanced(StallAll(s, ids), id)
    ensures forall x :: x == Started(id) || x == Removed(id) || x == Delivered(id) || x == Replaced(id) ==>
              Count(StallAll(s, ids).log, x) == Count(s.log, x)
  {
    if ids != [] {
      StallAllBalanced(s, ids[..|ids| - 1], id);
      var u, who := StallAll(s, ids[..|ids| - 1]), ids[|ids| - 1];
      StallOneCounts(u, who, Started(id));
      StallOneCounts(u, who, Removed(id));
      StallOneCounts(u, who, Delivered(id));
      StallOneCounts(u, who, Replaced(id));
      StallOneCounts(u, who, Stalled(id));
    }
  }

  lemma StartCounts(s: Life, a: Action, x: Record)
    requires a.Start? && !(a.guarded && a.id in s.active)
    ensures Added(s, a, x) ==
            (if x == Started(a.id) then 1 else 0) + (if x == Replaced(a.id) && a.id in s.active then 1 else 0)
  {
    if a.id in s.active {
      CountAppend(s.log + [Replaced(a.id)], [Started(a.id)], x);
      CountAppend(s.log, [Replaced(a.id)], x);
      CountOne(Replaced(a.id), x);
    } else {
      assert s.log + [] == s.log;
      CountAppend(s.log, [Started(a.id)], x);
    }
    CountOne(Started(a.id), x);
  }

  lemma CallbackCounts(s: Life, a: Action, x: Record)
    requires a.Callback? && a.id in s.active
    ensures Added(s, a, x) ==
            (if x == Removed(a.id) then 1 else 0) +
            (if x == Delivered(a.id) && !(a.success && !a.saves) then 1 else 0)
  {
    if a.success && !a.saves {
      assert s.log + [] == s.log;
      CountAppend(s.log, [Removed(a.id)], x);
    } else {
      CountAppend(s.log + [Delivered(a.id)], [Removed(a.id)], x);
      CountAppend(s.log, [Delivered(a.id)], x);
      CountOne(Delivered(a.id), x);
    }
    CountOne(Removed(a.id), x);
  }

  lemma StartBalanced(s: Life, a: Action, id: string)
    requires Balanced(s, id) && a.Start? && !(a.guarded && a.id in s.active)
    ensures Balanced(Step(s, a), id)
    ensures Added(s, a, Delivered(id)) <= Added(s, a, Removed(id))
    ensures Added(s, a, Replaced(id)) > 0 ==> !a.guarded && a.id == id
  {
    StartCounts(s, a, Started(id));
    StartCounts(s, a, Removed(id));
    StartCounts(s, a, Delivered(id));
    StartCounts(s, a, Replaced(id));
    StartCounts(s, a, Stalled(id));
  }

  lemma CallbackBalanced(s: Life, a: Action, id: string)
    requires Balanced(s, id) && a.Callback? && a.id in s.active
    ensures Balanced(Step(s, a), id)
    ensures Added(s, a, Delivered(id)) <= Added(s, a, Removed(id))
    ensures Added(s, a, Replaced(id)) == 0
  {
    CallbackCounts(s, a, Started(id));
    CallbackCounts(s, a, Removed(id));
    CallbackCounts(s, a, Delivered(id));
    CallbackCounts(s, a, Replaced(id));
    CallbackCounts(s, a, Stalled(id));
  }

  lemma StepBalanced(s: Life, a: Action, id: string)
    requires Balanced(s, id)
    ensures Balanced(Step(s, a), id)
    ensures Added(s, a, Delivered(id)) <= Added(s, a, Removed(id))
    ensures Added(s, a, Replaced(id)) > 0 ==> a.Start? && !a.guarded && a.id == id
  {
    match a
    case Start(who, guarded, threshold, now) =>
      if !(guarded && who in s.active) {
        StartBalanced(s, a, id);
      }
    case Callback(who, success, saves) =>
      if who in s.active {
        CallbackBalanced(s, a, id);
      }
    case Check(now) =>
      StallAllBalanced(s, Stale(s.watch, s.watch.order, now), id);
    case _ =>
  }

  /** No action starts this id without the duplicate guard. */
  predicate AlwaysGuarded(actions: seq<Action>, id: string) {
    forall a :: a in actions && a.Start? && a.id == id ==> a.guarded
  }

  /** Conservation per worker id, at every point of every interleaving; and at
      most one delivery per start. */
  lemma {:induction false} StartsAreConserved(actions: seq<Action>, id: string)
    ensures
      var s := Run(IDLE, actions);
      && Balanced(s, id)
      && Count(s.log, Delivered(id)) <= Count(s.log, Removed(id)) <= Starts(s, id)
      && (AlwaysGuarded(actions, id) ==> Count(s.log, Replaced(id)) == 0)
  {
    if actions != [] {
      var n := |actions| - 1;
      StartsAreConserved(actions[..n], id);
      StepBalanced(Run(IDLE, actions[..n]), actions[n], id);
    }
  }

  // ---- stalls ----

  /** The last sign of life of a worker registered at `t0`. */
  function LastBeat(actions: seq<Action>, id: string, t0: real): real {
    if actions == [] then t0
    else
      var a := actions[|actions| - 1];
      if a.Heartbeat? && a.id == id then a.now else LastBeat(actions[..|actions| - 1], id, t0)
  }

  /** Action `k` is a check that finds the worker silent for too long. */
  predicate TooLate(actions: seq<Action>, id: string, t0: real, limit: real, k: nat)
    requires k < |actions|
  {
    actions[k].Check? && actions[k].now - LastBeat(actions[..k], id, t0) > limit
  }

  lemma {:induction false} StaleElements(w: Watch, order: seq<string>, now: real)
    requires forall i, j :: 0 <= i < j < |order| ==> order[i] != order[j]
    ensures forall id :: id in Stale(w, order, now) <==> id in order && Overdue(w, id, now)
    ensures forall i, j :: 0 <= i < j < |Stale(w, order, now)| ==> Stale(w, order, now)[i] != Stale(w, order, now)[j]
  {
    if order != [] {
      var n := |order| - 1;
      StaleElements(w, order[..n], now);
      assert order == order[..n] + [order[n]];
      assert order[n] !in order[..n];
    }
  }

  /** A round of stalls reports each of its ids once and touches no other. */
  lemma {:induction false} StallAllPoint(s: Life, ids: seq<string>, id: string)
    requires forall i, j :: 0 <= i < j < |ids| ==> ids[i] != ids[j]
    requires id in s.active
    ensures
      var t := StallAll(s, ids);
      && (id in t.active <==> id !in ids)
      && Count(t.log, Reported(id)) == Count(s.log, Reported(id)) + (if id in ids then 1 else 0)
      && Count(t.log, Stalled(id)) == Count(s.log, Stalled(id)) + (if id in ids then 1 else 0)
      && (id !in ids && id in s.watch.beats && id in s.watch.thresholds ==>
            id in t.watch.beats && id in t.watch.thresholds &&
            t.watch.beats[id] == s.watch.beats[id] && t.watch.thresholds[id] == s.watch.thresholds[id])
  {
    if ids != [] {
      var n := |ids| - 1;
      StallAllPoint(s, ids[..n], id);
      assert ids == ids[..n] + [ids[n]];
      var u := StallAll(s, ids[..n]);
      StallOneCounts(u, ids[n], Reported(id));
      StallOneCounts(u, ids[n], Stalled(id));
      if id == ids[n] {
        assert id !in ids[..n];
      }
    }
  }

  /** The state of one registration after a stretch of other actions. */
  predicate Waiting(s: Life, id: string, beat: real, limit: real) {
    && id in s.active && id in s.watch.beats && id in s.watch.thresholds
    && s.watch.beats[id] == beat && s.watch.thresholds[id] == limit
  }

  lemma StepWhileWaiting(s: Life, a: Action, id: string, beat: real, limit: real)
    requires Agree(s) && Waiting(s, id, beat, limit)
    requires (a.Callback? ==> a.id != id) && (a.Start? && a.id == id ==> a.guarded)
    ensures
      var t := Step(s, a);
      var late := a.Check? && a.now - beat > limit;
      && Added(s, a, Stalled(id)) == Added(s, a, Reported(id)) == (if late then 1 else 0)
      && (late ==> id !in t.active)
      && (!late ==> Waiting(t, id, if a.Heartbeat? && a.id == id then a.now else beat, limit))
  {
    match a
    case Check(now) =>
      StaleElements(s.watch, s.watch.order, now);
      StallAllPoint(s, Stale(s.watch, s.watch.order, now), id);
    case Start(who, guarded, _, _) =>
      if !(guarded && who in s.active) {
        StartCounts(s, a, Stalled(id));
        StartCounts(s, a, Reported(id));
      }
    case Callback(who, _, _) =>
      if who in s.active {
        CallbackCounts(s, a, Stalled(id));
        CallbackCounts(s, a, Reported(id));
      }
    case _ =>
  }

  lemma {:induction false} StallAllLeavesOthers(s: Life, ids: seq<string>, id: string)
    requires id !in ids
    ensures id in StallAll(s, ids).active <==> id in s.active
    ensures Count(StallAll(s, ids).log, Stalled(id)) == Count(s.log, Stalled(id))
    ensures Count(StallAll(s, ids).log, Reported(id)) == Count(s.log, Reported(id))
  {
    if ids != [] {
      var n := |ids| - 1;
      assert ids == ids[..n] + [ids[n]];
      StallAllLeavesOthers(s, ids[..n], id);
      StallOneCounts(StallAll(s, ids[..n]), ids[n], Reported(id));
      StallOneCounts(StallAll(s, ids[..n]), ids[n], Stalled(id));
    }
  }

  /** After its removal a worker stays removed: heartbeats do not revive it. */
  lemma StepAfterRemoval(s: Life, a: Action, id: string)
    requires Agree(s) && id !in s.active
    requires a.Start? ==> a.id != id
    ensures id !in Step(s, a).active
    ensures Added(s, a, Stalled(id)) == 0 && Added(s, a, Reported(id)) == 0
  {
    match a
    case Check(now) =>
      StaleElements(s.watch, s.watch.order, now);
      StallAllLeavesOthers(s, Stale(s.watch, s.watch.order, now), id);
    case Start(who, guarded, _, _) =>
      if !(guarded && who in s.active) {
        StartCounts(s, a, Stalled(id));
        StartCounts(s, a, Reported(id));
      }
    case Callback(who, _, _) =>
      if who in s.active {
        CallbackCounts(s, a, Stalled(id));
        CallbackCounts(s, a, Reported(id));
      }
    case _ =>
  }

  ghost predicate EverTooLate(actions: seq<Action>, id: string, t0: real, limit: real) {
    exists k :: 0 <= k < |actions| && TooLate(actions, id, t0, limit, k)
  }

  /** Until the worker is stalled its id is at most asked for by guarded starts;
      afterwards at most its late callbacks come. */
  ghost predicate Undisturbed(actions: seq<Action>, id: string, t0: real, limit: real) {
    forall k :: 0 <= k < |actions| ==> Harmless(actions[k], id, EverTooLate(actions[..k], id, t0, limit))
  }

  predicate Harmless(a: Action, id: string, stalled: bool) {
    && (a.Start? && a.id == id ==> a.guarded && !stalled)
    && (a.Callback? && a.id == id ==> stalled)
  }

  lemma UndisturbedPrefix(actions: seq<Action>, id: string, t0: real, limit: real)
    requires actions != [] && Undisturbed(actions, id, t0, limit)
    ensures
      var n := |actions| - 1;
      && Undisturbed(actions[..n], id, t0, limit)
      && Harmless(actions[n], id, EverTooLate(actions[..n], id, t0, limit))
  {
    var n := |actions| - 1;
    forall k | 0 <= k < n ensures actions[..n][..k] == actions[..k] {
    }
  }

  /** A registered worker is reported exactly when some check comes more than
      its threshold after its last sign of life, and then exactly once; until
      then it waits with that last sign on record. */
  lemma {:induction false} StalledExactlyOnce(s: Life, actions: seq<Action>, id: string, t0: real, limit: real)
    requires Agree(s) && Waiting(s, id, t0, limit) && Undisturbed(actions, id, t0, limit)
    ensures
      var t := Run(s, actions);
      var late := EverTooLate(actions, id, t0, limit);
      && Count(t.log, Reported(id)) == Count(s.log, Reported(id)) + (if late then 1 else 0)
      && Count(t.log, Stalled(id)) == Count(s.log, Stalled(id)) + (if late then 1 else 0)
      && (late ==> id !in t.active)
      && (!late ==> Waiting(t, id, LastBeat(actions, id, t0), limit))
  {
    if actions != [] {
      var n := |actions| - 1;
      var before, a := actions[..n], actions[n];
      UndisturbedPrefix(actions, id, t0, limit);
      StalledExactlyOnce(s, before, id, t0, limit);
      MapsAlwaysAgree(s, before);
      LateIsLateInPrefix(actions, id, t0, limit);
      if EverTooLate(before, id, t0, limit) {
        StepAfterRemoval(Run(s, before), a, id);
      } else {
        StepWhileWaiting(Run(s, before), a, id, LastBeat(before, id, t0), limit);
      }
    }
  }

  lemma LateIsLateInPrefix(actions: seq<Action>, id: string, t0: real, limit: real)
    requires actions != []
    ensures
      var n := |actions| - 1;
      EverTooLate(actions, id, t0, limit) <==>
      EverTooLate(actions[..n], id, t0, limit) || TooLate(actions, id, t0, limit, n)
  {
    var n := |actions| - 1;
    forall k | 0 <= k < n
      ensures TooLate(actions, id, t0, limit, k) <==> TooLate(actions[..n], id, t0, limit, k)
    {
      assert actions[..n][..k] == actions[..k];
    }
  }

  // ---- workers whose heartbeats are not heard ----

  /** No heartbeat of this id reaches the watchdog. */
  predicate Unheard(actions: seq<Action>, id: string) {
    forall i :: 0 <= i < |actions| ==> !(actions[i].Heartbeat? && actions[i].id == id)
  }

  predicate SomeCheckAfter(actions: seq<Action>, deadline: real) {
    exists k :: 0 <= k < |actions| && actions[k].Check? && actions[k].now > deadline
  }

  lemma {:induction false} UnheardHasNoBeat(actions: seq<Action>, id: string, t0: real)
    requires Unheard(actions, id)
    ensures LastBeat(actions, id, t0) == t0
  {
    if actions != [] {
      UnheardHasNoBeat(actions[..|actions| - 1], id, t0);
    }
  }

  lemma UnheardIsLateByTheClock(actions: seq<Action>, id: string, t0: real, limit: real)
    requires Unheard(actions, id)
    ensures EverTooLate(actions, id, t0, limit) <==> SomeCheckAfter(actions, t0 + limit)
  {
    forall k | 0 <= k < |actions|
      ensures TooLate(actions, id, t0, limit, k) <==> actions[k].Check? && actions[k].now > t0 + limit
    {
      UnheardHasNoBeat(actions[..k], id, t0);
    }
  }

  /** The seconds a worker may stay silent: its own threshold, 15 if it has none. */
  function Patience(threshold: Option<real>): real {
    match threshold
    case None => 15.0
    case Some(seconds) => seconds
  }

  /** The network, file and URL scan slots do not connect their workers' heartbeats:
      such a worker, not called back, is stalled, once, if and only if some check
      comes later after its start than its threshold allows, 15 seconds by default,
      however alive it is. */
  lemma UnheardWorkerIsStalled(
    s: Life, start: Action, actions: seq<Action>)
    requires Agree(s) && start.Start? && start.id !in s.active
    requires Unheard(actions, start.id)
    requires Undisturbed(actions, start.id, start.now, Patience(start.threshold))
    ensures
      var t := Run(Step(s, start), actions);
      var late := SomeCheckAfter(actions, start.now + Patience(start.threshold));
      && Count(t.log, Stalled(start.id)) == Count(s.log, Stalled(start.id)) + (if late then 1 else 0)
      && (start.id in t.active <==> !late)
  {
    StepAgree(s, start);
    StartCounts(s, start, Stalled(start.id));
    UnheardIsLateByTheClock(actions, start.id, start.now, Patience(start.threshold));
    StalledExactlyOnce(Step(s, start), actions, start.id, start.now, Patience(start.threshold));
  }
}
