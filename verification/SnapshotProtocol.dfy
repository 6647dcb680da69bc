/** `SecuritySnapshotManager.get_snapshot` as interleaved thread steps, one read
    or write of the shared fields at a time: backend/utils/security_snapshot.py,
    lines 459-521 and 544-547. */
module SnapshotProtocol {
  import opened Wrappers

  /** Where a thread is inside the call; `now` is its own reading of the clock.
      The states from `Locked` to `Leave` hold the lock. */
  datatype Pc =
    | Idle
    | Called(force: bool)
    | Entered(force: bool, now: real)
    | TestAge(now: real)
    | TakeCached(now: real)
    | WaitForLock(force: bool, now: real)
    | Locked(force: bool, now: real)
    | RetestAge(now: real)
    | RetakeCached(now: real)
    | Collecting(force: bool, now: real)
    | WriteCache(force: bool, now: real)
    | WriteTime(force: bool, now: real)
    | Leave(force: bool, now: real, snapshot: Option<nat>)

  /** A begun collection; its snapshot is known by its index. `voided` is the number
      of collections begun before the last invalidation step seen by then. */
  datatype Collection = Collection(thread: nat, force: bool, arrival: real, voided: nat)

  datatype Result = Result(thread: nat, force: bool, now: real, snapshot: Option<nat>)

  /** `stamps` remembers the `_cache_time` written for each snapshot, `cleared`
      whether the cache was ever dropped. */
  datatype State = State(
    clock: real, cache: Option<nat>, cacheTime: real, lock: Option<nat>, threads: map<nat, Pc>,
    collections: seq<Collection>, stamps: map<nat, real>, results: seq<Result>, voided: nat, cleared: bool)

  /** The clock never runs back. */
  type Duration = d: real | d >= 0.0 witness 0.0

  datatype Action =
    | Tick(elapsed: Duration)
    | Call(thread: nat, force: bool)
    | Move(thread: nat, succeeds: bool)
    | DropCache
    | DropTime

  const TTL := 7.0

  function Start(clock: real): State {
    State(clock, None, 0.0, None, map[], [], map[], [], 0, false)
  }

  function At(s: State, t: nat): Pc {
    if t in s.threads then s.threads[t] else Idle
  }

  function Goto(s: State, t: nat, pc: Pc): State {
    s.(threads := s.threads[t := pc])
  }

  /** Where a thread is after its next step. */
  function NextPc(s: State, t: nat, succeeds: bool): Pc {
    match At(s, t)
    case Idle => Idle
    case Called(force) => Entered(force, s.clock)
    case Entered(force, now) => if !force && s.cache.Some? then TestAge(now) else WaitForLock(force, now)
    case TestAge(now) => if now - s.cacheTime < TTL then TakeCached(now) else WaitForLock(false, now)
    case TakeCached(now) => Idle
    case WaitForLock(force, now) => if s.lock == None then Locked(force, now) else WaitForLock(force, now)
    case Locked(force, now) => if !force && s.cache.Some? then RetestAge(now) else Collecting(force, now)
    case RetestAge(now) => if now - s.cacheTime < TTL then RetakeCached(now) else Collecting(false, now)
    case RetakeCached(now) => Leave(false, now, s.cache)
    case Collecting(force, now) => if succeeds then WriteCache(force, now) else Idle
    case WriteCache(force, now) => WriteTime(force, now)
    case WriteTime(force, now) => Leave(force, now, Some(Latest(s)))
    case Leave(force, now, snapshot) => Idle
  }

  function Begun(s: State, t: nat, force: bool, now: real): State {
    s.(collections := s.collections + [Collection(t, force, now, s.voided)])
  }

  /** What the step does to the shared fields. */
  function Shared(s: State, t: nat, succeeds: bool): State {
    match At(s, t)
    case TakeCached(now) => s.(results := s.results + [Result(t, false, now, s.cache)])
    case WaitForLock(force, now) => if s.lock == None then s.(lock := Some(t)) else s
    case Locked(force, now) => if !force && s.cache.Some? then s else Begun(s, t, force, now)
    case RetestAge(now) => if now - s.cacheTime < TTL then s else Begun(s, t, false, now)
    case Collecting(force, now) => if succeeds then s else s.(lock := None)
    case WriteCache(force, now) => s.(cache := Some(Latest(s)))
    case WriteTime(force, now) => s.(cacheTime := s.clock, stamps := s.stamps[Latest(s) := s.clock])
    case Leave(force, now, snapshot) => s.(lock := None, results := s.results + [Result(t, force, now, snapshot)])
    case _ => s
  }

  function Advance(s: State, t: nat, succeeds: bool): State {
    Shared(s, t, succeeds).(threads := s.threads[t := NextPc(s, t, succeeds)])
  }

  function Latest(s: State): nat {
    if s.collections == [] then 0 else |s.collections| - 1
  }

  function Step(s: State, a: Action): State {
    match a
    case Tick(elapsed) => s.(clock := s.clock + elapsed)
    case Call(t, force) => if At(s, t) == Idle then Goto(s, t, Called(force)) else s
    case Move(t, succeeds) => Advance(s, t, succeeds)
    case DropCache => s.(cache := None, voided := |s.collections|, cleared := true)
    case DropTime => s.(cacheTime := 0.0, voided := |s.collections|)
  }

  function Run(s: State, actions: seq<Action>): State {
    if actions == [] then s else Step(Run(s, actions[..|actions| - 1]), actions[|actions| - 1])
  }

  predicate Holds(pc: Pc) {
    pc.Locked? || pc.RetestAge? || pc.RetakeCached? || pc.Collecting? || pc.WriteCache? || pc.WriteTime? || pc.Leave?
  }

  predicate InCollection(pc: Pc) {
    pc.Collecting? || pc.WriteCache? || pc.WriteTime?
  }

  /** Exactly the owner of the lock is past it. */
  ghost predicate LockInv(s: State) {
    forall t: nat {:trigger At(s, t)} :: Holds(At(s, t)) <==> s.lock == Some(t)
  }

  lemma StepKeepsLock(s: State, a: Action)
    requires LockInv(s)
    ensures LockInv(Step(s, a))
  {
    forall t: nat ensures Holds(At(Step(s, a), t)) <==> Step(s, a).lock == Some(t) {
      assert Holds(At(s, t)) <==> s.lock == Some(t);
      if a.Move? {
        assert Holds(At(s, a.thread)) <==> s.lock == Some(a.thread);
      }
    }
  }

  /** At most one collection runs at a time, invalidations included. */
  lemma {:induction false} SingleFlight(clock: real, actions: seq<Action>, t: nat, u: nat)
    ensures LockInv(Run(Start(clock), actions))
    ensures
      var s := Run(Start(clock), actions);
      InCollection(At(s, t)) && InCollection(At(s, u)) ==> t == u
  {
    if actions != [] {
      var n := |actions| - 1;
      SingleFlight(clock, actions[..n], t, u);
      StepKeepsLock(Run(Start(clock), actions[..n]), actions[n]);
    }
    var s := Run(Start(clock), actions);
    assert Holds(At(s, t)) <==> s.lock == Some(t);
    assert Holds(At(s, u)) <==> s.lock == Some(u);
  }

  // ---- freshness ----

  predicate HasNow(pc: Pc) { !pc.Idle? && !pc.Called? }

  ghost predicate Clocks(s: State) {
    && 0.0 <= s.clock && s.cacheTime <= s.clock
    && (forall t: nat {:trigger At(s, t)} :: HasNow(At(s, t)) ==> At(s, t).now <= s.clock)
  }

  /** A stamped snapshot in the cache is no older than the cache time, an unstamped
      one belongs to a writer between its two writes, and no stamp is younger than
      the cache time unless an invalidation came after its collection began. */
  ghost predicate Stamped(s: State) {
    && s.voided <= |s.collections|
    && (forall j :: j in s.stamps ==> j < |s.collections| && 0.0 <= s.stamps[j] <= s.clock)
    && (forall j :: j in s.stamps && s.voided <= j ==> s.stamps[j] <= s.cacheTime && s.cache.Some?)
    && (s.cache.Some? ==> s.cache.value < |s.collections|)
    && (s.cache.Some? && s.cache.value in s.stamps ==> s.cacheTime <= s.stamps[s.cache.value])
    && (s.cache.Some? && s.cache.value !in s.stamps ==>
          s.lock.Some? && At(s, s.lock.value).WriteTime? && s.cache.value == Latest(s))
    && (forall t: nat {:trigger At(s, t)} ::
          (InCollection(At(s, t)) ==> s.collections != [] && Latest(s) !in s.stamps) &&
          (At(s, t).WriteTime? ==> Written(s)))
  }

  /** The writer's snapshot is in the cache, unless an invalidation took it out. */
  predicate Written(s: State) {
    s.cache == Some(Latest(s)) || (s.cache == None && Latest(s) < s.voided)
  }

  predicate GoodResult(s: State, now: real, snapshot: Option<nat>) {
    match snapshot
    case None => s.cleared
    case Some(v) => v < |s.collections| && (v in s.stamps ==> s.stamps[v] > now - TTL)
  }

  predicate Kept(s: State) {
    s.cleared || s.cache.Some?
  }

  predicate ReaderOk(s: State, pc: Pc) {
    match pc
    case TestAge(_) => Kept(s)
    case RetestAge(_) => Kept(s)
    case TakeCached(now) => Kept(s) && (s.cache.Some? ==> GoodResult(s, now, s.cache))
    case RetakeCached(now) => Kept(s) && (s.cache.Some? ==> GoodResult(s, now, s.cache))
    case Leave(_, now, snapshot) => GoodResult(s, now, snapshot)
    case _ => true
  }

  ghost predicate Readers(s: State) {
    forall t: nat {:trigger At(s, t)} :: ReaderOk(s, At(s, t))
  }

  ghost predicate Returned(s: State) {
    forall r :: r in s.results ==> r.now <= s.clock && GoodResult(s, r.now, r.snapshot)
  }

  /** Whoever collects without being forced arrived a whole TTL after every stamp
      of a collection that no invalidation step has followed. */
  predicate Spaced(s: State) {
    forall i, j :: 0 <= j < i < |s.collections| && !s.collections[i].force && j in s.stamps &&
                   s.collections[i].voided <= j ==>
      s.collections[i].arrival >= s.stamps[j] + TTL
  }

  lemma ClocksKept(s: State, a: Action)
    requires Clocks(s)
    ensures Clocks(Step(s, a))
  {
    forall t: nat | HasNow(At(Step(s, a), t)) ensures At(Step(s, a), t).now <= Step(s, a).clock {
      assert HasNow(At(s, t)) ==> At(s, t).now <= s.clock;
    }
  }

  lemma StampedKept(s: State, a: Action)
    requires LockInv(s) && Clocks(s) && Stamped(s)
    ensures Stamped(Step(s, a))
  {
    if a.Move? {
      StampedKeptByMove(s, a.thread, a.succeeds);
    } else {
      StampedKeptByOthers(s, a);
    }
  }

  /** A step that is no move changes no thread inside the call. */
  lemma StampedKeptByOthers(s: State, a: Action)
    requires LockInv(s) && Clocks(s) && Stamped(s) && !a.Move?
    ensures Stamped(Step(s, a))
  {
    match a
    case Call(t, force) => StampedKeptByCall(s, t, force);
    case _ => StampedKeptOutside(s, a);
  }

  lemma StampedKeptByCall(s: State, t: nat, force: bool)
    requires Stamped(s)
    ensures Stamped(Step(s, Call(t, force)))
  {
    var u := Step(s, Call(t, force));
    forall v: nat ensures At(u, v) == At(s, v) || (At(s, v).Idle? && At(u, v).Called?) {
    }
    assert s.lock.Some? ==> (At(s, s.lock.value).WriteTime? ==> At(u, s.lock.value).WriteTime?);
  }

  lemma StampedKeptOutside(s: State, a: Action)
    requires Clocks(s) && Stamped(s) && !a.Move? && !a.Call?
    ensures Stamped(Step(s, a))
  {
    var u := Step(s, a);
    assert u.threads == s.threads;
    forall v: nat ensures At(u, v) == At(s, v) {
    }
  }

  lemma StampedKeptByMove(s: State, t: nat, succeeds: bool)
    requires LockInv(s) && Clocks(s) && Stamped(s)
    ensures Stamped(Advance(s, t, succeeds))
  {
    assert Holds(At(s, t)) <==> s.lock == Some(t);
    assert InCollection(At(s, t)) ==> s.collections != [] && Latest(s) !in s.stamps;
    forall v: nat | v != t && s.lock == Some(t) ensures !InCollection(At(s, v)) && !At(s, v).WriteTime? {
      assert Holds(At(s, v)) <==> s.lock == Some(v);
    }
    if At(s, t).WriteCache? {
      AfterWriteCache(s, t);
    } else if At(s, t).WriteTime? {
      AfterWriteTime(s, t);
    } else if At(s, t).Locked? || At(s, t).RetestAge? {
      AfterLocked(s, t, succeeds);
    } else {
      AfterOther(s, t, succeeds);
    }
  }

  lemma AfterWriteCache(s: State, t: nat)
    requires LockInv(s) && Clocks(s) && Stamped(s) && At(s, t).WriteCache? && s.lock == Some(t)
    requires s.collections != [] && Latest(s) !in s.stamps
    requires forall v: nat {:trigger At(s, v)} :: v != t ==> !InCollection(At(s, v))
    ensures Stamped(Advance(s, t, true))
  {
    var u := Advance(s, t, true);
    forall v: nat ensures At(u, v) == if v == t then WriteTime(At(s, t).force, At(s, t).now) else At(s, v) {
    }
  }

  lemma AfterWriteTime(s: State, t: nat)
    requires LockInv(s) && Clocks(s) && Stamped(s) && At(s, t).WriteTime? && s.lock == Some(t)
    requires s.collections != [] && Latest(s) !in s.stamps
    requires forall v: nat {:trigger At(s, v)} :: v != t ==> !InCollection(At(s, v))
    ensures Stamped(Advance(s, t, true))
  {
    var u := Advance(s, t, true);
    assert Written(s);
    forall v: nat ensures v != t ==> At(u, v) == At(s, v) {
    }
    assert At(u, t).Leave?;
  }

  lemma AfterLocked(s: State, t: nat, succeeds: bool)
    requires LockInv(s) && Clocks(s) && Stamped(s) && (At(s, t).Locked? || At(s, t).RetestAge?) && s.lock == Some(t)
    requires forall v: nat {:trigger At(s, v)} :: v != t ==> !InCollection(At(s, v))
    ensures Stamped(Advance(s, t, succeeds))
  {
    var u := Advance(s, t, succeeds);
    forall v: nat ensures v != t ==> At(u, v) == At(s, v) {
    }
    assert !At(u, t).WriteTime?;
  }

  lemma AfterOther(s: State, t: nat, succeeds: bool)
    requires LockInv(s) && Stamped(s)
    requires !At(s, t).Locked? && !At(s, t).RetestAge? && !At(s, t).WriteCache? && !At(s, t).WriteTime?
    ensures Stamped(Advance(s, t, succeeds))
  {
    var u := Advance(s, t, succeeds);
    OthersStay(s, t, succeeds);
    if s.lock.Some? {
      assert At(u, s.lock.value).WriteTime? || !At(s, s.lock.value).WriteTime?;
      assert Holds(At(s, t)) <==> s.lock == Some(t);
    }
  }

  /** Outside the four steps that collect, nothing enters a collection. */
  lemma OthersStay(s: State, t: nat, succeeds: bool)
    requires !At(s, t).Locked? && !At(s, t).RetestAge? && !At(s, t).WriteCache? && !At(s, t).WriteTime?
    ensures
      var u := Advance(s, t, succeeds);
      && u.cache == s.cache && u.cacheTime == s.cacheTime && u.stamps == s.stamps && u.collections == s.collections
      && u.voided == s.voided && u.clock == s.clock
      && (forall v: nat {:trigger At(u, v)} ::
            (v != t ==> At(u, v) == At(s, v)) &&
            (InCollection(At(u, v)) ==> InCollection(At(s, v))) && (At(u, v).WriteTime? ==> At(s, v).WriteTime?))
  {
    OnlyOneMoves(s, t, succeeds);
    MoverLeavesCollection(s, t, succeeds);
  }

  lemma OnlyOneMoves(s: State, t: nat, succeeds: bool)
    ensures forall v: nat :: v != t ==> At(Advance(s, t, succeeds), v) == At(s, v)
  {
  }

  lemma MoverLeavesCollection(s: State, t: nat, succeeds: bool)
    requires !At(s, t).Locked? && !At(s, t).RetestAge? && !At(s, t).WriteCache? && !At(s, t).WriteTime?
    ensures
      var u := Advance(s, t, succeeds);
      && u.cache == s.cache && u.cacheTime == s.cacheTime && u.stamps == s.stamps && u.collections == s.collections
      && u.voided == s.voided && u.clock == s.clock
    ensures InCollection(At(Advance(s, t, succeeds), t)) ==> InCollection(At(s, t))
    ensures !At(Advance(s, t, succeeds), t).WriteTime?
  {
  }

  /** Stamps stay, and only the last collection gets a new one, that of the moment. */
  lemma StampsGrow(s: State, a: Action)
    requires LockInv(s) && Clocks(s) && Stamped(s)
    ensures
      var u := Step(s, a);
      && s.clock <= u.clock && |s.collections| <= |u.collections| && (s.cleared ==> u.cleared)
      && (forall j :: j in s.stamps ==> j in u.stamps && u.stamps[j] == s.stamps[j])
      && (forall j :: j in u.stamps && j !in s.stamps ==>
            j == Latest(s) && u.stamps[j] == s.clock && s.collections != [])
  {
    if a.Move? {
      assert InCollection(At(s, a.thread)) ==> s.collections != [] && Latest(s) !in s.stamps;
    }
  }

  lemma GoodStaysGood(s: State, a: Action, now: real, snapshot: Option<nat>)
    requires LockInv(s) && Clocks(s) && Stamped(s)
    requires GoodResult(s, now, snapshot) && now <= s.clock
    ensures GoodResult(Step(s, a), now, snapshot)
  {
    StampsGrow(s, a);
  }

  /** The cache changes by a write of a snapshot without a stamp, or is dropped. */
  lemma CacheChanges(s: State, a: Action)
    requires LockInv(s) && Clocks(s) && Stamped(s)
    ensures
      var u := Step(s, a);
      u.cache == s.cache || (u.cache == None && u.cleared) ||
      (u.cache == Some(Latest(s)) && s.collections != [] && u.stamps == s.stamps && Latest(s) !in s.stamps &&
       |s.collections| <= |u.collections|)
    ensures Kept(s) ==> Kept(Step(s, a))
  {
    if a.Move? {
      assert InCollection(At(s, a.thread)) ==> s.collections != [] && Latest(s) !in s.stamps;
    }
  }

  /** A thread that does not move stays where it may be. */
  lemma ReaderWaits(s: State, a: Action, pc: Pc)
    requires LockInv(s) && Clocks(s) && Stamped(s)
    requires ReaderOk(s, pc) && (HasNow(pc) ==> pc.now <= s.clock)
    ensures ReaderOk(Step(s, a), pc)
  {
    CacheChanges(s, a);
    if pc.Leave? {
      GoodStaysGood(s, a, pc.now, pc.snapshot);
    } else if (pc.TakeCached? || pc.RetakeCached?) && s.cache.Some? {
      GoodStaysGood(s, a, pc.now, s.cache);
    }
  }

  lemma ReaderMoves(s: State, t: nat, succeeds: bool)
    requires LockInv(s) && Clocks(s) && Stamped(s) && ReaderOk(s, At(s, t))
    ensures ReaderOk(Advance(s, t, succeeds), At(Advance(s, t, succeeds), t))
  {
    assert HasNow(At(s, t)) ==> At(s, t).now <= s.clock;
    assert InCollection(At(s, t)) ==> s.collections != [];
    assert Holds(At(s, t)) <==> s.lock == Some(t);
  }

  lemma ReadersKept(s: State, a: Action)
    requires LockInv(s) && Clocks(s) && Stamped(s) && Readers(s)
    ensures Readers(Step(s, a))
  {
    forall t: nat ensures ReaderOk(Step(s, a), At(Step(s, a), t)) {
      ReaderKept(s, a, t);
    }
  }

  lemma ReaderKept(s: State, a: Action, t: nat)
    requires LockInv(s) && Clocks(s) && Stamped(s) && Readers(s)
    ensures ReaderOk(Step(s, a), At(Step(s, a), t))
  {
    assert ReaderOk(s, At(s, t)) && (HasNow(At(s, t)) ==> At(s, t).now <= s.clock);
    if a.Move? && a.thread == t {
      ReaderMoves(s, t, a.succeeds);
    } else {
      Waits(s, a, t);
      ReaderWaits(s, a, At(s, t));
    }
  }

  /** A thread that does not move is at most called. */
  lemma Waits(s: State, a: Action, t: nat)
    requires !(a.Move? && a.thread == t)
    ensures At(Step(s, a), t) == At(s, t) || At(Step(s, a), t).Called?
  {
    if a.Move? {
      OnlyOneMoves(s, a.thread, a.succeeds);
    }
  }

  lemma ReturnedKept(s: State, a: Action)
    requires LockInv(s) && Clocks(s) && Stamped(s) && Readers(s) && Returned(s)
    ensures Returned(Step(s, a))
  {
    StampsGrow(s, a);
    var u := Step(s, a);
    forall r | r in u.results ensures r.now <= u.clock && GoodResult(u, r.now, r.snapshot) {
      if r in s.results {
        GoodStaysGood(s, a, r.now, r.snapshot);
      } else {
        NewResult(s, a.thread, a.succeeds, r);
      }
    }
  }

  lemma NewResult(s: State, t: nat, succeeds: bool, r: Result)
    requires Clocks(s) && Readers(s)
    requires r in Advance(s, t, succeeds).results && r !in s.results
    ensures
      var u := Advance(s, t, succeeds);
      r.now <= u.clock && GoodResult(u, r.now, r.snapshot)
  {
    assert ReaderOk(s, At(s, t)) && (HasNow(At(s, t)) ==> At(s, t).now <= s.clock);
  }

  lemma SpacedKept(s: State, a: Action)
    requires LockInv(s) && Clocks(s) && Stamped(s) && Spaced(s)
    ensures Spaced(Step(s, a))
  {
    StampsGrow(s, a);
  }

  ghost predicate Inv(s: State) {
    LockInv(s) && Clocks(s) && Stamped(s) && Readers(s) && Returned(s) && Spaced(s)
  }

  lemma {:induction false} Reachable(clock: real, actions: seq<Action>)
    requires clock >= 0.0
    ensures Inv(Run(Start(clock), actions))
    ensures Run(Start(clock), actions).cleared ==> DropCache in actions
  {
    if actions != [] {
      var n := |actions| - 1;
      var s, a := Run(Start(clock), actions[..n]), actions[n];
      assert a in actions;
      assert forall x :: x in actions[..n] ==> x in actions;
      Reachable(clock, actions[..n]);
      StepKeepsLock(s, a);
      ClocksKept(s, a);
      StampedKept(s, a);
      ReadersKept(s, a);
      ReturnedKept(s, a);
      SpacedKept(s, a);
      OnlyDropsClear(s, a);
    }
  }

  lemma OnlyDropsClear(s: State, a: Action)
    ensures Step(s, a).cleared ==> s.cleared || a == DropCache
  {
  }

  /** Over every interleaving, invalidations included, every result that is a
      snapshot has a stamp, once it has one, younger than the call's start minus
      the TTL; and no result is missing unless the cache was dropped. */
  lemma ResultsAreFresh(clock: real, actions: seq<Action>, r: Result)
    requires clock >= 0.0
    requires r in Run(Start(clock), actions).results
    ensures
      var s := Run(Start(clock), actions);
      match r.snapshot
      case None => DropCache in actions
      case Some(v) => v < |s.collections| && (v in s.stamps ==> s.stamps[v] > r.now - TTL)
  {
    Reachable(clock, actions);
  }

  /** A cache dropped between a reader's age test and its second read does return
      nothing. */
  lemma DropBeforeTakeReturnsNothing(s: State, t: nat, now: real)
    requires At(s, t) == TakeCached(now)
    ensures Step(Step(s, DropCache), Move(t, true)).results == s.results + [Result(t, false, now, None)]
  {
  }

  /** Of the callers that arrive before a collection's stamp has aged by the TTL,
      none starts another one unless forced or unless an invalidation step came
      after that collection began: a burst collects once. */
  lemma BurstCollectsOnce(clock: real, actions: seq<Action>, i: nat, j: nat)
    requires clock >= 0.0
    requires
      var s := Run(Start(clock), actions);
      j < i < |s.collections| && j in s.stamps && !s.collections[i].force && s.collections[i].voided <= j
    ensures
      var s := Run(Start(clock), actions);
      s.collections[i].arrival >= s.stamps[j] + TTL
  {
    Reachable(clock, actions);
  }

  // ---- what one call gets ----

  /** A collection begun by this thread, of this kind, after `base` others. */
  predicate Own(s: State, t: nat, force: bool, base: nat, i: nat) {
    base <= i < |s.collections| && s.collections[i].thread == t && s.collections[i].force == force
  }

  /** A thread inside a call made with `force` at clock `since`, when `base` collections
      had begun. */
  predicate Serving(s: State, t: nat, force: bool, since: real, base: nat) {
    && base <= |s.collections| && since <= s.clock
    && (HasNow(At(s, t)) ==> since <= At(s, t).now)
    && match At(s, t)
       case Idle => false
       case Called(f) => f == force
       case Entered(f, _) => f == force
       case TestAge(_) => !force
       case TakeCached(_) => !force
       case WaitForLock(f, _) => f == force
       case Locked(f, _) => f == force
       case RetestAge(_) => !force
       case RetakeCached(_) => !force
       case Collecting(f, _) => f == force && Own(s, t, force, base, Latest(s))
       case WriteCache(f, _) => f == force && Own(s, t, force, base, Latest(s))
       case WriteTime(f, _) => f == force && Own(s, t, force, base, Latest(s))
       case Leave(f, _, snapshot) =>
         f == force && (force ==> snapshot.Some? && Own(s, t, force, base, snapshot.value))
  }

  /** What a call may return: the force it was made with, a time no earlier than the
      call, and if forced a collection of its own. */
  predicate Served(s: State, r: Result, t: nat, force: bool, since: real, base: nat) {
    && r.thread == t && r.force == force && since <= r.now
    && (force ==> r.snapshot.Some? && Own(s, t, force, base, r.snapshot.value))
  }

  /** While another thread moves, nothing begins if this one is in a collection. */
  lemma OthersDoNotBegin(s: State, t: nat, v: nat, succeeds: bool)
    requires LockInv(s) && v != t && InCollection(At(s, t))
    ensures Advance(s, v, succeeds).collections == s.collections
  {
    assert Holds(At(s, t)) <==> s.lock == Some(t);
    assert Holds(At(s, v)) <==> s.lock == Some(v);
  }

  /** Collections are only added. */
  lemma CollectionsGrow(s: State, a: Action)
    ensures s.collections <= Step(s, a).collections && s.clock <= Step(s, a).clock
  {
  }

  lemma ServingWhileWaiting(s: State, a: Action, t: nat, force: bool, since: real, base: nat)
    requires LockInv(s) && Serving(s, t, force, since, base) && !(a.Move? && a.thread == t)
    ensures Serving(Step(s, a), t, force, since, base)
  {
    CollectionsGrow(s, a);
    InCallStays(s, a, t);
    if a.Move? && InCollection(At(s, t)) {
      OthersDoNotBegin(s, t, a.thread, a.succeeds);
    }
  }

  lemma InCallStays(s: State, a: Action, t: nat)
    requires At(s, t) != Idle && !(a.Move? && a.thread == t)
    ensures At(Step(s, a), t) == At(s, t)
  {
    if a.Move? {
      OnlyOneMoves(s, a.thread, a.succeeds);
    }
  }

  lemma ServingMoves(s: State, t: nat, succeeds: bool, force: bool, since: real, base: nat)
    requires LockInv(s) && Serving(s, t, force, since, base)
    ensures
      var u := Advance(s, t, succeeds);
      if At(u, t) != Idle then Serving(u, t, force, since, base)
      else if At(s, t).Collecting? then !succeeds && u.results == s.results
      else |u.results| == |s.results| + 1 && u.results[..|s.results|] == s.results &&
           Served(u, u.results[|s.results|], t, force, since, base)
  {
    MoverIsNext(s, t, succeeds);
  }

  lemma MoverIsNext(s: State, t: nat, succeeds: bool)
    ensures At(Advance(s, t, succeeds), t) == NextPc(s, t, succeeds)
  {
  }

  /** The thread is inside the call that action `k` made. */
  predicate SameCall(clock: real, actions: seq<Action>, t: nat, force: bool, k: nat, m: nat)
    requires k < m <= |actions|
  {
    && actions[k] == Call(t, force) && At(Run(Start(clock), actions[..k]), t) == Idle
    && forall j :: k < j <= m ==> At(Run(Start(clock), actions[..j]), t) != Idle
  }

  lemma RunStep(s: State, actions: seq<Action>, j: nat)
    requires j < |actions|
    ensures Run(s, actions[..j + 1]) == Step(Run(s, actions[..j]), actions[j])
  {
    assert actions[..j + 1][..j] == actions[..j];
  }

  lemma {:induction false} ServingDuringCall(
    clock: real, actions: seq<Action>, t: nat, force: bool, k: nat, m: nat)
    requires k < m <= |actions| && SameCall(clock, actions, t, force, k, m)
    ensures
      var begin := Run(Start(clock), actions[..k]);
      Serving(Run(Start(clock), actions[..m]), t, force, begin.clock, |begin.collections|)
    decreases m
  {
    var begin := Run(Start(clock), actions[..k]);
    RunStep(Start(clock), actions, m - 1);
    if m > k + 1 {
      ServingDuringCall(clock, actions, t, force, k, m - 1);
      var s := Run(Start(clock), actions[..m - 1]);
      SingleFlight(clock, actions[..m - 1], t, t);
      if actions[m - 1].Move? && actions[m - 1].thread == t {
        ServingMoves(s, t, actions[m - 1].succeeds, force, begin.clock, |begin.collections|);
      } else {
        ServingWhileWaiting(s, actions[m - 1], t, force, begin.clock, |begin.collections|);
      }
    }
  }

  /** Over every interleaving, invalidations included: a call ends with a result
      unless its own collection fails; the result is of the kind the call was made,
      and a forced call gets the snapshot of a collection that its own thread began
      after the call, never a cached one. */
  lemma CallIsServed(clock: real, actions: seq<Action>, t: nat, force: bool, k: nat, m: nat)
    requires k < m < |actions| && SameCall(clock, actions, t, force, k, m)
    requires At(Run(Start(clock), actions[..m + 1]), t) == Idle
    ensures
      var begin, s, u :=
        Run(Start(clock), actions[..k]), Run(Start(clock), actions[..m]), Run(Start(clock), actions[..m + 1]);
      if At(s, t).Collecting? then u.results == s.results
      else |u.results| == |s.results| + 1 && u.results[..|s.results|] == s.results &&
           Served(u, u.results[|s.results|], t, force, begin.clock, |begin.collections|)
  {
    var begin, s := Run(Start(clock), actions[..k]), Run(Start(clock), actions[..m]);
    ServingDuringCall(clock, actions, t, force, k, m);
    SingleFlight(clock, actions[..m], t, t);
    RunStep(Start(clock), actions, m);
    if !(actions[m].Move? && actions[m].thread == t) {
      ServingWhileWaiting(s, actions[m], t, force, begin.clock, |begin.collections|);
    } else {
      ServingMoves(s, t, actions[m].succeeds, force, begin.clock, |begin.collections|);
    }
  }

  /** A step begins a collection exactly under the lock, when forced, without a cached
      snapshot, or with one a whole TTL old. */
  lemma CollectsIff(s: State, t: nat, succeeds: bool)
    ensures |Advance(s, t, succeeds).collections| > |s.collections| <==>
            || (At(s, t).Locked? && (At(s, t).force || s.cache == None))
            || (At(s, t).RetestAge? && At(s, t).now - s.cacheTime >= TTL)
  {
  }

  /** An unforced call that finds the cache fresh takes it, and begins nothing. */
  lemma FreshCallTakesCache(s: State, t: nat)
    requires At(s, t) == Idle && s.cache.Some? && s.clock - s.cacheTime < TTL
    ensures
      var called := Step(s, Call(t, false));
      var tested := Step(Step(called, Move(t, true)), Move(t, true));
      var taken := Step(Step(tested, Move(t, true)), Move(t, true));
      taken.results == s.results + [Result(t, false, s.clock, s.cache)] && taken.collections == s.collections &&
      At(taken, t) == Idle
  {
    var called := Step(s, Call(t, false));
    var entered := Step(called, Move(t, true));
    assert At(called, t) == Called(false) && called.clock == s.clock;
    assert At(entered, t) == Entered(false, s.clock) && entered.cache == s.cache;
    var tested := Step(entered, Move(t, true));
    assert At(tested, t) == TestAge(s.clock) && tested.cacheTime == s.cacheTime;
    var taking := Step(tested, Move(t, true));
    assert At(taking, t) == TakeCached(s.clock) && taking.results == s.results;
  }

  /** After an invalidation the fields are as before any call, and the next call, if
      the lock is free, begins a collection. */
  lemma InvalidatedCallCollects(s: State, t: nat)
    requires At(s, t) == Idle && s.lock == None
    ensures
      var dropped := Step(Step(s, DropCache), DropTime);
      var called := Step(dropped, Call(t, false));
      var waiting := Step(Step(called, Move(t, true)), Move(t, true));
      var begun := Step(Step(waiting, Move(t, true)), Move(t, true));
      && dropped.cache == None && dropped.cacheTime == 0.0
      && begun.collections == s.collections + [Collection(t, false, s.clock, |s.collections|)]
  {
    var called := Step(Step(Step(s, DropCache), DropTime), Call(t, false));
    assert At(called, t) == Called(false) && called.clock == s.clock && called.lock == None && called.cache == None;
    var entered := Step(called, Move(t, true));
    assert At(entered, t) == Entered(false, s.clock) && entered.cache == None && entered.lock == None;
    var waiting := Step(entered, Move(t, true));
    assert At(waiting, t) == WaitForLock(false, s.clock) && waiting.lock == None && waiting.cache == None;
    var locked := Step(waiting, Move(t, true));
    assert At(locked, t) == Locked(false, s.clock) && locked.cache == None;
    assert locked.collections == s.collections && locked.voided == |s.collections|;
  }
}
