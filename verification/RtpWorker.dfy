/** The worker object: backend/core/realtime_protection.py, lines 796-840,
    1113-1272, 1318-1497 and 1758-1837. Every method does to the object what
    RtpSpec says of its abstract state. */
module RtpWorker {
  import opened Wrappers
  import opened Text
  import opened RtpPlan
  import opened RtpSpec
  import opened RtpRuns
  import opened RtpPolling

  class RealTimeProtectionWorker {
    const policy: Policy
    var scanOrder: seq<string>
    var scanEntries: map<string, Entry>
    var totalScanned: nat
    var threatsFound: nat
    var threatsKilled: nat
    var log: seq<Effect>

    constructor (policy: Policy)
      ensures this.policy == policy && Abs() == INITIAL
    {
      this.policy := policy;
      scanOrder, scanEntries := [], map[];
      totalScanned, threatsFound, threatsKilled := 0, 0, 0;
      log := [];
    }

    function CacheNow(): Cache
      reads this
    {
      Cache(scanOrder, scanEntries)
    }

    function Abs(): State
      reads this
    {
      State(CacheNow(), totalScanned, threatsFound, threatsKilled, log)
    }

    ghost predicate ValidState()
      reads this
    {
      ValidCache(CacheNow()) && 2 <= policy.cacheMax && |scanOrder| <= policy.cacheMax
    }

    /** Deletes the older half, one key at a time. */
    method DropOlderHalf()
      modifies this`scanOrder, this`scanEntries
      ensures scanOrder == old(scanOrder)[|old(scanOrder)| / 2..]
      ensures scanEntries == old(scanEntries) - set k | k in old(scanOrder)[..|old(scanOrder)| / 2]
    {
      var keys := scanOrder;
      for n := 0 to |keys| / 2
        invariant scanOrder == keys[n..]
        invariant scanEntries == old(scanEntries) - set k | k in keys[..n]
      {
        assert keys[..n + 1] == keys[..n] + [keys[n]];
        scanEntries := scanEntries - {keys[n]};
        scanOrder := scanOrder[1..];
      }
    }

    /** `_cache_scan_decision` */
    method CacheScanDecision(key: string, entry: Entry)
      requires ValidCache(CacheNow())
      modifies this`scanOrder, this`scanEntries
      ensures CacheNow() == Store(policy.cacheMax, old(CacheNow()), key, entry)
    {
      if |scanOrder| >= policy.cacheMax {
        DropOlderHalf();
      }
      if key !in scanEntries {
        scanOrder := scanOrder + [key];
      }
      scanEntries := scanEntries[key := entry];
    }

    /** `_get_cached_scan_entry` */
    method GetCachedScanEntry(key: string, now: Option<Fingerprint>) returns (hit: Option<Entry>)
      modifies this`scanOrder, this`scanEntries
      ensures hit == Lookup(old(CacheNow()), key, now)
      ensures CacheNow() == AfterLookup(old(CacheNow()), key, now)
    {
      if key !in scanEntries {
        return None;
      }
      var entry := scanEntries[key];
      if now == None || entry.fingerprint == None || entry.fingerprint != now {
        scanOrder := Filter(scanOrder, {key});
        scanEntries := scanEntries - {key};
        return None;
      }
      return Some(entry);
    }

    /** `_execute_process_action` */
    method ExecuteProcessAction(e: Event, action: ProcessAction, cached: bool) returns (result: ProcessResult)
      modifies this`threatsKilled, this`log
      ensures action == LogOnly ==> result == LoggedOnly
      ensures action == Allow ==> result == Allowed
      ensures action == KillProcess ==> result == KillResult(e, cached)
      ensures threatsKilled == old(threatsKilled) + if result == Terminated then 1 else 0
      ensures log == old(log) +
                     if action == KillProcess && ReachesKill(e, cached) then [KillCall(e.pid, e.live.kill)] else []
    {
      if action == LogOnly {
        return LoggedOnly;
      }
      if action != KillProcess {
        return Allowed;
      }
      match e.live {
        case ProcessGone => return AlreadyExited;
        case ProcessDenied => return AccessDenied;
        case ProcessError => return FailedToTerminate;
        case Live(liveName, exe, kill) =>
          if Lower(liveName) != e.name {
            return IdentityMismatch;
          }
          var pathVerified := false;
          match exe {
            case LivePath(live) =>
              if live != "" {
                pathVerified := true;
                if e.world.canonical(live) != e.world.canonical(e.path) {
                  return PathMismatch;
                }
              }
            case PathUnreadable =>
              if cached {
                return IdentityUnverified;
              }
            case NoPathAttribute =>
          }
          if cached && !pathVerified {
            return IdentityUnverified;
          }
          log := log + [KillCall(e.pid, kill)];
          match kill {
            case Killed =>
              threatsKilled := threatsKilled + 1;
              return Terminated;
            case KillGone => return AlreadyExited;
            case KillDenied => return AccessDenied;
            case KillFailed => return FailedToTerminate;
          }
      }
    }

    /** `_execute_file_action` */
    method ExecuteFileAction(e: Event, plan: Plan, processResult: ProcessResult) returns (result: FileResult)
      modifies this`log
      ensures result == FileOutcome(e, plan, processResult)
      ensures log == old(log) +
                     if result == Quarantined || result == QuarantineFailed then [QuarantineCall(e.path)] else []
    {
      if plan.file == AllowFile {
        return if plan.decisionAction == "block" then GuardrailAllow else FileAllowed;
      }
      if processResult != Terminated {
        return SkippedNotTerminated;
      }
      log := log + [QuarantineCall(e.path)];
      return if e.vaultAccepts then Quarantined else QuarantineFailed;
    }

    /** `_apply_enforcement` */
    method ApplyEnforcement(e: Event, plan: Plan, cached: bool)
      requires plan.process != Allow
      modifies this`threatsFound, this`threatsKilled, this`log
      ensures Abs() == Enforce(old(Abs()), e, plan, cached)
    {
      threatsFound := threatsFound + 1;
      var processResult := ExecuteProcessAction(e, plan.process, cached);
      var fileResult := ExecuteFileAction(e, plan, processResult);
      log := log + [ThreatSignal(Threat(e.pid, e.name, e.path, plan, processResult, fileResult))];
    }

    /** Judge by a cached scan, under the current parent. */
    method ActOnCached(e: Event, entry: Entry)
      modifies this`threatsFound, this`threatsKilled, this`log
      ensures
        var plan := BuildPlan(policy, e.world, e.name, e.path, entry.decision,
                              entry.context.(parentPid := e.parentPid));
        Abs() == Detected(Enforce(old(Abs()), e, plan, true), e)
    {
      var context := entry.context.(parentPid := e.parentPid);
      var plan := BuildPlan(policy, e.world, e.name, e.path, entry.decision, context);
      if plan.process != Allow {
        ApplyEnforcement(e, plan, true);
      }
      log := log + [DetectedSignal(e.time, e.name, e.pid)];
    }

    /** Judge by a scan just made. */
    method ActOnScan(e: Event, scan: Scan)
      modifies this`threatsFound, this`threatsKilled, this`log
      ensures
        var plan := BuildPlan(policy, e.world, e.name, e.path, scan.decision,
                              ContextOf(scan, e.scanPrint, e.parentPid));
        Abs() == Stats(Detected(Enforce(old(Abs()), e, plan, false), e))
    {
      var plan := BuildPlan(policy, e.world, e.name, e.path, scan.decision,
                            ContextOf(scan, e.scanPrint, e.parentPid));
      if plan.process != Allow {
        ApplyEnforcement(e, plan, false);
      }
      log := log + [DetectedSignal(e.time, e.name, e.pid)];
      if totalScanned % 10 == 0 {
        log := log + [StatsSignal(totalScanned, threatsFound, threatsKilled)];
      }
    }

    /** The part of the loop body behind the filters. */
    method InspectEvent(e: Event)
      requires ValidCache(CacheNow())
      modifies this
      ensures Abs() == Inspect(policy, old(Abs()), e)
    {
      var key := Lower(e.path);
      AfterLookupValid(CacheNow(), key, e.lookupPrint);
      var entry := GetCachedScanEntry(key, e.lookupPrint);
      if entry.Some? {
        ActOnCached(e, entry.value);
        return;
      }
      totalScanned := totalScanned + 1;
      log := log + [Scanning(totalScanned, e.name, e.pid)];
      var scan := ScanOf(policy.windows, e.answer);
      CacheScanDecision(key, EntryOf(policy, e));
      ActOnScan(e, scan);
    }

    /** One process-creation event, filters first. */
    method HandleEvent(e: Event)
      requires ValidState()
      modifies this
      ensures ValidState()
      ensures Abs() == Step(policy, old(Abs()), e)
    {
      StepKeepsCacheValid(policy, Abs(), e);
      if Screened(policy, e) || !e.exists_ {
        return;
      }
      if Trusted(policy, e) {
        log := log + [DetectedSignal(e.time, e.name, e.pid)];
        return;
      }
      InspectEvent(e);
    }

    /** The event loop of `run`: it goes on until the look-up of a file raises. */
    method RunWindows(arrivals: seq<Arrival>) returns (alive: bool)
      requires Abs() == INITIAL && 2 <= policy.cacheMax
      modifies this
      ensures Abs() == Run(policy, Watched(policy, arrivals))
      ensures alive <==> !Ended(policy, arrivals)
    {
      for i := 0 to |arrivals|
        invariant ValidState() && Abs() == Run(policy, Watched(policy, arrivals[..i]))
        invariant !Ended(policy, arrivals[..i])
      {
        WatcherAt(policy, arrivals, i);
        if Ends(policy, arrivals[i]) {
          return false;
        }
        HandleEvent(arrivals[i].e);
        RunOneMore(policy, Watched(policy, arrivals[..i]), arrivals[i].e);
      }
      assert arrivals[..|arrivals|] == arrivals;
      alive := true;
    }

    /** One poll of `_run_linux`; returns the pruned set of seen PIDs. */
    method PollProcesses(seenPids: set<nat>, poll: Poll) returns (seen: set<nat>)
      requires ValidState()
      modifies this
      ensures ValidState()
      ensures Loop(seen, Abs()) == AfterPoll(policy, Loop(seenPids, old(Abs())), poll)
    {
      seen := seenPids;
      var currentPids: set<nat> := {};
      ghost var start := Progress(seenPids, {}, Abs(), [], false);
      ghost var acted: seq<nat> := [];
      var failed := false;
      for i := 0 to |poll.items|
        invariant ValidState()
        invariant Progress(seen, currentPids, Abs(), acted, failed) == VisitAll(policy, start, poll.items[..i])
      {
        assert poll.items[..i + 1][..i] == poll.items[..i];
        var item := poll.items[i];
        if !failed && !item.Unreadable? {
          currentPids := currentPids + {item.e.pid};
          if item.e.pid !in seen {
            seen := seen + {item.e.pid};
            if !Screened(policy, item.e) {
              if item.Failing? {
                failed := true;
              } else {
                HandleEvent(item.e);
                acted := if item.e.exists_ then acted + [item.e.pid] else acted;
              }
            }
          }
        }
      }
      assert poll.items[..|poll.items|] == poll.items;
      if poll.completes && !failed {
        seen := seen * currentPids;
      }
    }

    /** The polling loop, from the first snapshot of PIDs on. */
    method RunLinux(snapshot: set<nat>, polls: seq<Poll>)
      requires Abs() == INITIAL && 2 <= policy.cacheMax
      modifies this
      ensures Abs() == RunPolls(policy, snapshot, polls).worker
    {
      var seen := snapshot;
      for i := 0 to |polls|
        invariant ValidState() && Loop(seen, Abs()) == RunPolls(policy, snapshot, polls[..i])
      {
        assert polls[..i + 1][..i] == polls[..i];
        seen := PollProcesses(seen, polls[i]);
      }
      assert polls[..|polls|] == polls;
    }
  }
}
