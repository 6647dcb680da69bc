/** The worker, watchdog and bridge objects: backend/core/workers.py, lines
    67-177, and backend/api/backend_bridge.py, lines 1405-1427, 1565-1645 and
    3595-3605. */
module Workers {
  import opened Wrappers
  import opened WorkerSpec
  import opened WorkerJobs

  class CancellableWorker {
    const workerId: string
    const timeoutMs: real
    var cancelled: bool

    constructor (workerId: string, timeoutMs: real)
      ensures this.workerId == workerId && this.timeoutMs == timeoutMs && !cancelled
    {
      this.workerId, this.timeoutMs := workerId, timeoutMs;
      cancelled := false;
    }

    method Cancel()
      modifies this
      ensures cancelled
    {
      cancelled := true;
    }

    /** The tail of `run`, once the worker function has ended. */
    method EndOfRun(end: TaskEnd, elapsedMs: real) returns (signal: Terminal)
      ensures signal == TerminalOf(end, elapsedMs, timeoutMs, cancelled)
      ensures signal == FinishedSignal <==> end == Returned && elapsedMs <= timeoutMs && !cancelled
      ensures signal == ErrorSignal <==> end == Raised || elapsedMs > timeoutMs
      ensures signal == CancelledSignal <==> end == Returned && elapsedMs <= timeoutMs && cancelled
    {
      if end == Raised {
        return ErrorSignal;
      }
      if elapsedMs > timeoutMs {
        return ErrorSignal;
      }
      if cancelled {
        return CancelledSignal;
      }
      return FinishedSignal;
    }
  }

  class WorkerWatchdog {
    var order: seq<string>
    var workers: map<string, real>
    var workerThresholds: map<string, real>

    constructor ()
      ensures Abs() == Watch([], map[], map[])
    {
      order, workers, workerThresholds := [], map[], map[];
    }

    function Abs(): Watch
      reads this
    {
      Watch(order, workers, workerThresholds)
    }

    method RegisterWorker(id: string, threshold: Option<real>, now: real)
      modifies this
      ensures Abs() == Register(old(Abs()), id, threshold, now)
    {
      if id !in workers {
        order := order + [id];
      }
      workers := workers[id := now];
      workerThresholds :=
        workerThresholds[id := if threshold.Some? then threshold.value else DEFAULT_STALE_THRESHOLD_SEC];
    }

    method Heartbeat(id: string, now: real)
      modifies this
      ensures Abs() == Beat(old(Abs()), id, now)
    {
      if id in workers {
        workers := workers[id := now];
      }
    }

    method UnregisterWorker(id: string)
      requires ValidWatch(Abs())
      modifies this
      ensures Abs() == Unregister(old(Abs()), id)
    {
      if id in workers {
        workers := workers - {id};
        order := Remove(order, id);
      } else {
        RemoveAbsent(order, id);
        DropTwice(workers, id);
      }
      DropTwice(workerThresholds, id);
      if id in workerThresholds {
        workerThresholds := workerThresholds - {id};
      }
    }

    /** The scan of `_check_workers`. */
    method StaleWorkers(now: real) returns (stalled: seq<string>)
      requires ValidWatch(Abs())
      ensures stalled == Stale(Abs(), order, now)
    {
      stalled := [];
      for i := 0 to |order|
        invariant stalled == Stale(Abs(), order[..i], now)
      {
        assert order[..i + 1][..i] == order[..i];
        assert order[i] in order;
        var elapsed := now - workers[order[i]];
        var threshold :=
          if order[i] in workerThresholds then workerThresholds[order[i]] else DEFAULT_STALE_THRESHOLD_SEC;
        if elapsed > threshold {
          stalled := stalled + [order[i]];
        }
      }
      assert order[..|order|] == order;
    }
  }

  lemma {:induction false} RemoveAbsent(order: seq<string>, id: string)
    requires id !in order
    ensures Remove(order, id) == order
  {
    if order != [] {
      RemoveAbsent(order[1..], id);
    }
  }

  lemma UnregisterTwice(w: Watch, id: string)
    requires ValidWatch(w)
    ensures ValidWatch(Unregister(w, id))
    ensures Unregister(Unregister(w, id), id) == Unregister(w, id)
  {
    RemoveElements(w.order, id);
    RemoveAbsent(Remove(w.order, id), id);
    DropTwice(w.beats, id);
    DropTwice(w.thresholds, id);
  }

  lemma DropTwice(m: map<string, real>, id: string)
    ensures m - {id} - {id} == m - {id}
    ensures id !in m ==> m - {id} == m
  {
  }

  lemma NothingToDrop(m: map<string, CancellableWorker>, id: string)
    requires id !in m
    ensures m - {id} == m
  {
  }

  lemma StallAllStep(s: Life, ids: seq<string>, i: nat)
    requires i < |ids|
    ensures StallAll(s, ids[..i + 1]) == StallOne(StallAll(s, ids[..i]), ids[i])
  {
    assert ids[..i + 1][..i] == ids[..i];
  }

  class BackendBridge {
    const watchdog: WorkerWatchdog
    var activeWorkers: map<string, CancellableWorker>
    var activeOrder: seq<string>
    var log: seq<Record>

    constructor ()
      ensures Abs() == IDLE && InOrder() && fresh(watchdog)
    {
      watchdog := new WorkerWatchdog();
      activeWorkers, activeOrder, log := map[], [], [];
    }

    function Abs(): Life
      reads this, watchdog
    {
      Life(activeWorkers.Keys, watchdog.Abs(), log)
    }

    /** `_active_workers` and the watchdog's `_workers` list their keys in the same
        order. */
    ghost predicate InOrder()
      reads this, watchdog
    {
      activeOrder == watchdog.order
    }

    /** The slots that start a scan; only `runNetworkScan` skips the guard. */
    method StartScan(id: string, guarded: bool, timeoutMs: real, threshold: Option<real>, now: real)
      requires Agree(Abs()) && InOrder()
      modifies this, watchdog
      ensures Abs() == Step(old(Abs()), Start(id, guarded, threshold, now)) && Agree(Abs()) && InOrder()
      ensures !(guarded && id in old(activeWorkers)) ==>
                id in activeWorkers && fresh(activeWorkers[id]) && !activeWorkers[id].cancelled &&
                activeWorkers[id].workerId == id && activeWorkers[id].timeoutMs == timeoutMs
      ensures guarded && id in old(activeWorkers) ==> activeWorkers == old(activeWorkers)
      ensures forall other :: other in old(activeWorkers) && other != id ==>
                other in activeWorkers && activeWorkers[other] == old(activeWorkers)[other]
    {
      StepAgree(Abs(), Start(id, guarded, threshold, now));
      if guarded && id in activeWorkers {
        return;
      }
      Launch(id, timeoutMs, threshold, now);
    }

    /** Make the worker, enter it in both tables, and start it. */
    method Launch(id: string, timeoutMs: real, threshold: Option<real>, now: real)
      requires Agree(Abs()) && InOrder()
      modifies this, watchdog
      ensures Abs() == Step(old(Abs()), Start(id, false, threshold, now)) && InOrder()
      ensures id in activeWorkers && fresh(activeWorkers[id]) && !activeWorkers[id].cancelled
      ensures activeWorkers[id].workerId == id && activeWorkers[id].timeoutMs == timeoutMs
      ensures activeWorkers == old(activeWorkers)[id := activeWorkers[id]]
    {
      var worker := new CancellableWorker(id, timeoutMs);
      var replaced := if id in activeWorkers then [Replaced(id)] else [];
      AddWorker(id, worker);
      watchdog.RegisterWorker(id, threshold, now);
      log := log + replaced + [Started(id)];
    }

    method AddWorker(id: string, worker: CancellableWorker)
      modifies this`activeWorkers, this`activeOrder
      ensures activeWorkers == old(activeWorkers)[id := worker]
      ensures activeWorkers.Keys == old(activeWorkers).Keys + {id}
      ensures activeOrder == if id in old(activeWorkers) then old(activeOrder) else old(activeOrder) + [id]
    {
      if id !in activeWorkers {
        activeOrder := activeOrder + [id];
      }
      activeWorkers := activeWorkers[id := worker];
    }

    /** `del self._active_workers[id]` */
    method RemoveWorker(id: string)
      requires id in activeWorkers
      modifies this`activeWorkers, this`activeOrder
      ensures activeWorkers == old(activeWorkers) - {id} && activeOrder == Remove(old(activeOrder), id)
    {
      activeWorkers := activeWorkers - {id};
      activeOrder := Remove(activeOrder, id);
    }

    /** `on_success`; `saves` is false when storing the result raises. */
    method OnSuccess(id: string, saves: bool)
      requires Agree(Abs()) && InOrder()
      modifies this, watchdog
      ensures Abs() == Step(old(Abs()), Callback(id, true, saves)) && Agree(Abs()) && InOrder()
      ensures activeWorkers == old(activeWorkers) - {id}
    {
      StepAgree(Abs(), Callback(id, true, saves));
      if id !in activeWorkers {
        NothingToDrop(activeWorkers, id);
        return;
      }
      if saves {
        log := log + [Delivered(id)];
      }
      RemoveWorker(id);
      watchdog.UnregisterWorker(id);
      log := log + [Removed(id)];
    }

    /** `on_error` */
    method OnError(id: string)
      requires Agree(Abs()) && InOrder()
      modifies this, watchdog
      ensures Abs() == Step(old(Abs()), Callback(id, false, true)) && Agree(Abs()) && InOrder()
      ensures activeWorkers == old(activeWorkers) - {id}
    {
      StepAgree(Abs(), Callback(id, false, true));
      if id !in activeWorkers {
        NothingToDrop(activeWorkers, id);
        return;
      }
      log := log + [Delivered(id)];
      RemoveWorker(id);
      watchdog.UnregisterWorker(id);
      log := log + [Removed(id)];
    }

    /** A queued signal of a worker: two of the three are connected to a slot. */
    method Deliver(worker: CancellableWorker, signal: Terminal, saves: bool)
      requires Agree(Abs()) && InOrder()
      modifies this, watchdog
      ensures Abs() == Run(old(Abs()), Connected(signal, worker.workerId, saves)) && Agree(Abs()) && InOrder()
    {
      match signal {
        case FinishedSignal =>
          OneAction(Abs(), Callback(worker.workerId, true, saves));
          OnSuccess(worker.workerId, saves);
        case ErrorSignal =>
          OneAction(Abs(), Callback(worker.workerId, false, true));
          OnError(worker.workerId);
        case CancelledSignal =>
      }
    }

    /** `_on_worker_stalled` */
    method OnWorkerStalled(id: string)
      requires ValidWatch(watchdog.Abs())
      modifies this, watchdog, activeWorkers.Values
      ensures activeWorkers == old(activeWorkers) - {id}
      ensures activeOrder == if id in old(activeWorkers) then Remove(old(activeOrder), id) else old(activeOrder)
      ensures watchdog.Abs() ==
              if id in old(activeWorkers) then Unregister(old(watchdog.Abs()), id) else old(watchdog.Abs())
      ensures log == old(log) + if id in old(activeWorkers) then [Stalled(id)] else []
      ensures forall w :: w in old(activeWorkers.Values) ==>
                (w.cancelled <==> old(w.cancelled) || (id in old(activeWorkers) && w == old(activeWorkers)[id]))
    {
      if id in activeWorkers {
        var worker := activeWorkers[id];
        RemoveWorker(id);
        log := log + [Stalled(id)];
        worker.Cancel();
        watchdog.UnregisterWorker(id);
      }
    }

    /** One stalled worker of a check: emit, handle, clean up. */
    method StallWorker(id: string)
      requires Agree(Abs()) && InOrder()
      modifies this, watchdog, activeWorkers.Values
      ensures Abs() == StallOne(old(Abs()), id) && Agree(Abs()) && InOrder()
      ensures activeWorkers == old(activeWorkers) - {id}
      ensures forall w :: w in old(activeWorkers.Values) ==>
                (w.cancelled <==> old(w.cancelled) || (id in old(activeWorkers) && w == old(activeWorkers)[id]))
    {
      StallFacts(Abs(), id);
      log := log + [Reported(id)];
      OnWorkerStalled(id);
      watchdog.UnregisterWorker(id);
    }

    /** The worker has left `_active_workers`. */
    ghost predicate Left(before: map<string, CancellableWorker>, w: CancellableWorker)
      reads this
    {
      exists id :: id in before && id !in activeWorkers && before[id] == w
    }

    ghost predicate Kept(before: map<string, CancellableWorker>)
      reads this
    {
      forall id :: id in activeWorkers ==> id in before && activeWorkers[id] == before[id]
    }

    /** Of the workers there were, with these flags, those that left and no others
        were told to stop. */
    ghost predicate Told(before: map<string, CancellableWorker>, flags: map<CancellableWorker, bool>)
      reads this, before.Values
    {
      && Kept(before)
      && forall w :: w in before.Values ==> w in flags && (w.cancelled <==> flags[w] || Left(before, w))
    }

    /** `_check_workers`, each stall handled as it is reported. */
    method CheckWorkers(now: real)
      requires Agree(Abs()) && InOrder()
      modifies this, watchdog, activeWorkers.Values
      ensures Abs() == Step(old(Abs()), Check(now)) && Agree(Abs()) && InOrder()
      ensures Kept(old(activeWorkers))
      ensures forall w :: w in old(activeWorkers.Values) ==>
                (w.cancelled <==> old(w.cancelled) || Left(old(activeWorkers), w))
    {
      ghost var flags := map w | w in activeWorkers.Values :: w.cancelled;
      var stalled := watchdog.StaleWorkers(now);
      StallWorkers(stalled, activeWorkers, flags);
    }

    method StallWorkers(
      stalled: seq<string>, ghost before: map<string, CancellableWorker>, ghost flags: map<CancellableWorker, bool>)
      requires Agree(Abs()) && InOrder() && activeWorkers == before && Told(before, flags)
      modifies this, watchdog, before.Values
      ensures Abs() == StallAll(old(Abs()), stalled) && Agree(Abs()) && InOrder() && Told(before, flags)
    {
      for i := 0 to |stalled|
        invariant Agree(Abs()) && InOrder() && Told(before, flags)
        invariant Abs() == StallAll(old(Abs()), stalled[..i])
      {
        StallAllStep(old(Abs()), stalled, i);
        StallNext(stalled[i], before, flags);
      }
      assert stalled[..|stalled|] == stalled;
    }

    method StallNext(
      id: string, ghost before: map<string, CancellableWorker>, ghost flags: map<CancellableWorker, bool>)
      requires Agree(Abs()) && InOrder() && Told(before, flags)
      modifies this, watchdog, before.Values
      ensures Abs() == StallOne(old(Abs()), id) && Agree(Abs()) && InOrder() && Told(before, flags)
    {
      assert activeWorkers.Values <= before.Values;
      StallWorker(id);
    }

    /** `cancelUrlScan`: asks the first URL scan of the dictionary to cancel, and
        changes nothing else. */
    method CancelUrlScan() returns (cancelled: Option<string>)
      requires Agree(Abs()) && InOrder()
      modifies activeWorkers.Values
      ensures Abs() == old(Abs()) && InOrder()
      ensures cancelled == FirstUrlScan(activeOrder)
      ensures cancelled.Some? ==> cancelled.value in activeWorkers
      ensures forall w :: w in activeWorkers.Values ==>
                (w.cancelled <==> old(w.cancelled) || (cancelled.Some? && w == activeWorkers[cancelled.value]))
    {
      for i := 0 to |activeOrder|
        invariant forall w :: w in activeWorkers.Values ==> w.cancelled == old(w.cancelled)
        invariant FirstUrlScan(activeOrder) == FirstUrlScan(activeOrder[i..])
      {
        assert activeOrder[i..][1..] == activeOrder[i + 1..];
        var id := activeOrder[i];
        assert id in watchdog.order;
        if "url-scan-" <= id {
          activeWorkers[id].Cancel();
          return Some(id);
        }
      }
      return None;
    }
  }

  function FirstUrlScan(order: seq<string>): (first: Option<string>)
    ensures first.Some? ==> first.value in order && "url-scan-" <= first.value
    ensures first == None ==> forall id :: id in order ==> !("url-scan-" <= id)
  {
    if order == [] then None
    else if "url-scan-" <= order[0] then Some(order[0])
    else
      assert order == [order[0]] + order[1..];
      FirstUrlScan(order[1..])
  }

  /** A stalled worker is out of the watchdog after the handler, and stays out when
      the check cleans up. */
  lemma StallFacts(s: Life, id: string)
    requires Agree(s)
    ensures Agree(StallOne(s, id))
    ensures ValidWatch(Unregister(s.watch, id)) && Unregister(Unregister(s.watch, id), id) == Unregister(s.watch, id)
    ensures id !in s.active ==> Unregister(s.watch, id) == s.watch
  {
    UnregisterTwice(s.watch, id);
    RemoveElements(s.watch.order, id);
    if id !in s.active {
      RemoveAbsent(s.watch.order, id);
      DropTwice(s.watch.beats, id);
      DropTwice(s.watch.thresholds, id);
    }
  }
}
