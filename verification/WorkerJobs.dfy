/** The workers behind the ids: which of them still run, which were cancelled, and
    the signals they leave for their slots. backend/core/workers.py, lines 29-100,
    and backend/api/backend_bridge.py, lines 1413-1429, 1565-1750 and 3595-3605. */
module WorkerJobs {
  import opened Wrappers
  import opened WorkerSpec
  import opened WorkerLaws

  /** One `CancellableWorker`. Its outcome is the signal `run` emitted, which stays
      queued until it is delivered. */
  datatype Job = Job(id: string, timeoutMs: real, cancelled: bool, outcome: Option<Terminal>, delivered: bool)

  /** `current` is `_active_workers`; a job is known by its number. */
  datatype System = System(life: Life, jobs: seq<Job>, current: map<string, nat>)

  datatype Event =
    | Begin(id: string, guarded: bool, timeoutMs: real, threshold: Option<real>, now: real)
    | End(job: nat, end: TaskEnd, elapsedMs: real)
    | Deliver(job: nat, saves: bool)
    | Alive(id: string, now: real)
    | CancelScan(id: string)
    | CheckAt(now: real)

  const NO_JOBS := System(IDLE, [], map[])

  /** What a delivered signal makes of the id: `finished` and `error` are connected
      to a slot, `cancelled` is not. */
  function Connected(signal: Terminal, id: string, saves: bool): seq<Action> {
    match signal
    case FinishedSignal => [Callback(id, true, saves)]
    case ErrorSignal => [Callback(id, false, true)]
    case CancelledSignal => []
  }

  predicate Deliverable(s: System, j: nat) {
    j < |s.jobs| && s.jobs[j].outcome.Some? && !s.jobs[j].delivered
  }

  /** What an event means to the ids and the watchdog. */
  function ActionsOf(s: System, e: Event): seq<Action> {
    match e
    case Begin(id, guarded, _, threshold, now) => [Start(id, guarded, threshold, now)]
    case End(_, _, _) => []
    case Deliver(j, saves) =>
      if Deliverable(s, j) then Connected(s.jobs[j].outcome.value, s.jobs[j].id, saves) else []
    case Alive(id, now) => [Heartbeat(id, now)]
    case CancelScan(id) => [Cancel(id)]
    case CheckAt(now) => [Check(now)]
  }

  function JobsAfter(s: System, e: Event, life: Life): seq<Job> {
    match e
    case Begin(id, guarded, timeoutMs, _, _) =>
      if guarded && id in s.life.active then s.jobs else s.jobs + [Job(id, timeoutMs, false, None, false)]
    case End(j, end, elapsedMs) =>
      if j < |s.jobs| && s.jobs[j].outcome == None then
        s.jobs[j := s.jobs[j].(outcome := Some(TerminalOf(end, elapsedMs, s.jobs[j].timeoutMs, s.jobs[j].cancelled)))]
      else s.jobs
    case Deliver(j, _) => if Deliverable(s, j) then s.jobs[j := s.jobs[j].(delivered := true)] else s.jobs
    case Alive(_, _) => s.jobs
    case CancelScan(id) => CancelWhere(s, {id})
    case CheckAt(_) => CancelWhere(s, s.life.active - life.active)
  }

  /** `cancel()` on the active workers of some ids. */
  function CancelWhere(s: System, ids: set<string>): (jobs: seq<Job>)
    ensures |jobs| == |s.jobs|
  {
    seq(|s.jobs|, j requires 0 <= j < |s.jobs| =>
      var job := s.jobs[j];
      if job.id in ids && job.id in s.current && s.current[job.id] == j then job.(cancelled := true) else job)
  }

  predicate Begins(s: System, e: Event) {
    e.Begin? && !(e.guarded && e.id in s.life.active)
  }

  function StepJobs(s: System, e: Event): System {
    var life := Run(s.life, ActionsOf(s, e));
    var begun := Begins(s, e);
    System(life, JobsAfter(s, e, life),
           if begun then s.current[e.id := |s.jobs|] else map id | id in s.current && id in life.active :: s.current[id])
  }

  function RunJobs(s: System, es: seq<Event>): System {
    if es == [] then s else StepJobs(RunJobs(s, es[..|es| - 1]), es[|es| - 1])
  }

  ghost predicate ValidSystem(s: System) {
    && Agree(s.life) && s.current.Keys == s.life.active
    && forall id :: id in s.current ==> s.current[id] < |s.jobs| && s.jobs[s.current[id]].id == id
  }

  // ---- the laws of ids hold of systems of jobs ----

  function ActionsOfRun(s: System, es: seq<Event>): seq<Action> {
    if es == [] then []
    else ActionsOfRun(s, es[..|es| - 1]) + ActionsOf(RunJobs(s, es[..|es| - 1]), es[|es| - 1])
  }

  lemma {:induction false} RunAppend(s: Life, a: seq<Action>, b: seq<Action>)
    ensures Run(s, a + b) == Run(Run(s, a), b)
  {
    if b == [] {
      assert a + b == a;
    } else {
      assert (a + b)[..|a + b| - 1] == a + b[..|b| - 1];
      RunAppend(s, a, b[..|b| - 1]);
    }
  }

  /** Forgetting the jobs, every run is a run of starts, callbacks and checks. */
  lemma {:induction false} JobsRunIsARun(s: System, es: seq<Event>)
    ensures RunJobs(s, es).life == Run(s.life, ActionsOfRun(s, es))
  {
    if es != [] {
      var n := |es| - 1;
      JobsRunIsARun(s, es[..n]);
      RunAppend(s.life, ActionsOfRun(s, es[..n]), ActionsOf(RunJobs(s, es[..n]), es[n]));
    }
  }

  lemma OneAction(s: Life, a: Action)
    ensures Run(s, [a]) == Step(s, a)
  {
    assert [a][..0] == [];
  }

  /** An event is at most one action. */
  lemma StepLife(s: System, e: Event)
    requires Agree(s.life)
    ensures Agree(StepJobs(s, e).life)
    ensures |ActionsOf(s, e)| <= 1
    ensures StepJobs(s, e).life == if ActionsOf(s, e) == [] then s.life else Step(s.life, ActionsOf(s, e)[0])
  {
    var actions := ActionsOf(s, e);
    if actions != [] {
      assert actions == [actions[0]];
      OneAction(s.life, actions[0]);
      StepAgree(s.life, actions[0]);
    }
  }

  lemma {:induction false} StallAllShrinks(s: Life, ids: seq<string>)
    ensures StallAll(s, ids).active <= s.active
  {
    if ids != [] {
      StallAllShrinks(s, ids[..|ids| - 1]);
    }
  }

  /** Only a start adds an id. */
  lemma ActiveAfter(s: Life, a: Action)
    ensures Step(s, a).active <= s.active + if a.Start? then {a.id} else {}
    ensures a.Start? ==> s.active + {a.id} == Step(s, a).active
  {
    if a.Check? {
      StallAllShrinks(s, Stale(s.watch, s.watch.order, a.now));
    }
  }

  lemma StepValid(s: System, e: Event)
    requires ValidSystem(s)
    ensures ValidSystem(StepJobs(s, e))
  {
    StepLife(s, e);
    StepKeys(s, e);
    IdsStay(s, e);
    CurrentAfter(s, e);
  }

  lemma StepKeys(s: System, e: Event)
    requires ValidSystem(s)
    ensures StepJobs(s, e).current.Keys == StepJobs(s, e).life.active
  {
    StepActive(s, e);
    var life := StepJobs(s, e).life;
    if !Begins(s, e) {
      assert (map id | id in s.current && id in life.active :: s.current[id]).Keys == life.active;
    }
  }

  lemma StepActive(s: System, e: Event)
    requires ValidSystem(s)
    ensures
      var active := StepJobs(s, e).life.active;
      if Begins(s, e) then active == s.life.active + {e.id} else active <= s.life.active
  {
    StepLife(s, e);
    if ActionsOf(s, e) != [] {
      ActiveAfter(s.life, ActionsOf(s, e)[0]);
    }
  }

  /** A job stays the current one of its id until the id is freed or started anew. */
  lemma CurrentAfter(s: System, e: Event)
    requires ValidSystem(s)
    ensures
      var t := StepJobs(s, e);
      forall id :: id in t.current ==>
        (id in s.current && t.current[id] == s.current[id]) ||
        (t.current[id] == |s.jobs| < |t.jobs| && t.jobs[|s.jobs|].id == id)
  {
  }

  /** Every job is still there, with its id and timeout. */
  predicate Continues(before: seq<Job>, after: seq<Job>) {
    && |before| <= |after|
    && forall j :: 0 <= j < |before| ==> after[j].id == before[j].id && after[j].timeoutMs == before[j].timeoutMs
  }

  lemma IdsStay(s: System, e: Event)
    ensures Continues(s.jobs, StepJobs(s, e).jobs)
    ensures
      var t := StepJobs(s, e);
      && |t.jobs| <= |s.jobs| + 1
      && (|t.jobs| > |s.jobs| ==>
            e.Begin? && !(e.guarded && e.id in s.life.active) && t.jobs[|s.jobs|].id == e.id)
  {
  }

  lemma {:induction false} SystemsStayValid(es: seq<Event>)
    ensures ValidSystem(RunJobs(NO_JOBS, es))
  {
    if es != [] {
      SystemsStayValid(es[..|es| - 1]);
      StepValid(RunJobs(NO_JOBS, es[..|es| - 1]), es[|es| - 1]);
    }
  }

  // ---- cancellation ----

  /** The job will not call back: it has done so, or it was cancelled before its end
      and ends with a signal that no slot hears. */
  predicate Silent(job: Job) {
    job.delivered || (job.cancelled && (job.outcome == None || job.outcome == Some(CancelledSignal)))
  }

  predicate AllSilent(jobs: seq<Job>, id: string) {
    forall j :: 0 <= j < |jobs| && jobs[j].id == id ==> Silent(jobs[j])
  }

  /** The jobs of this id return, and in time; its starts are guarded. */
  predicate Calm(jobs: seq<Job>, e: Event, id: string) {
    && (e.Begin? && e.id == id ==> e.guarded)
    && (e.End? && e.job < |jobs| && jobs[e.job].id == id ==>
          e.end == Returned && e.elapsedMs <= jobs[e.job].timeoutMs)
  }

  /** A cancelled worker whose task returns in time emits `cancelled`, and so stays
      silent whatever else happens. */
  lemma SilenceIsKept(s: System, e: Event, id: string)
    requires ValidSystem(s) && AllSilent(s.jobs, id) && Calm(s.jobs, e, id) && id in s.life.active
    ensures AllSilent(StepJobs(s, e).jobs, id)
    ensures forall a :: a in ActionsOf(s, e) ==>
              (a.Callback? ==> a.id != id) && (a.Start? && a.id == id ==> a.guarded)
  {
    IdsStay(s, e);
    var t := StepJobs(s, e);
    forall j | 0 <= j < |t.jobs| && t.jobs[j].id == id ensures Silent(t.jobs[j]) {
      JobStaysSilent(s, e, id, j);
    }
    if e.Deliver? && Deliverable(s, e.job) && s.jobs[e.job].id == id {
      assert Silent(s.jobs[e.job]);
    }
  }

  lemma JobStaysSilent(s: System, e: Event, id: string, j: nat)
    requires AllSilent(s.jobs, id) && Calm(s.jobs, e, id) && id in s.life.active
    requires j < |StepJobs(s, e).jobs| && StepJobs(s, e).jobs[j].id == id
    ensures Silent(StepJobs(s, e).jobs[j])
  {
    IdsStay(s, e);
    if j < |s.jobs| {
      assert Silent(s.jobs[j]);
    }
  }

  /** The signs of life and the checks among the events, at their places. */
  function Signs(es: seq<Event>): (actions: seq<Action>)
    ensures |actions| == |es|
    ensures forall k :: 0 <= k < |es| ==> actions[k] == Sign(es[k])
  {
    seq(|es|, k requires 0 <= k < |es| => Sign(es[k]))
  }

  function Sign(e: Event): Action {
    match e
    case Alive(id, now) => Heartbeat(id, now)
    case CheckAt(now) => Check(now)
    case _ => Cancel("")
  }

  lemma StepWhileSilent(s: System, e: Event, id: string, beat: real, limit: real)
    requires ValidSystem(s) && AllSilent(s.jobs, id) && Calm(s.jobs, e, id) && Waiting(s.life, id, beat, limit)
    ensures
      var t := StepJobs(s, e);
      var late := e.CheckAt? && e.now - beat > limit;
      && (late ==> id !in t.life.active)
      && (!late ==> Waiting(t.life, id, if e.Alive? && e.id == id then e.now else beat, limit))
  {
    SilenceIsKept(s, e, id);
    StepLife(s, e);
    if ActionsOf(s, e) != [] {
      StepWhileWaiting(s.life, ActionsOf(s, e)[0], id, beat, limit);
    }
  }

  lemma SignsOfPrefix(es: seq<Event>, id: string, t0: real, limit: real)
    requires es != []
    ensures
      var n := |es| - 1;
      && Signs(es)[..n] == Signs(es[..n])
      && (EverTooLate(Signs(es), id, t0, limit) <==>
          EverTooLate(Signs(es[..n]), id, t0, limit) ||
          (es[n].CheckAt? && es[n].now - LastBeat(Signs(es[..n]), id, t0) > limit))
      && LastBeat(Signs(es), id, t0) ==
         if es[n].Alive? && es[n].id == id then es[n].now else LastBeat(Signs(es[..n]), id, t0)
  {
    assert Signs(es)[..|es| - 1] == Signs(es[..|es| - 1]);
    LateIsLateInPrefix(Signs(es), id, t0, limit);
  }

  /** No job of this id was added. */
  predicate NoneNew(before: seq<Job>, after: seq<Job>, id: string) {
    Continues(before, after) && forall j :: |before| <= j < |after| ==> after[j].id != id
  }

  lemma CalmLater(before: seq<Job>, after: seq<Job>, e: Event, id: string)
    requires Calm(before, e, id) && NoneNew(before, after, id)
    ensures Calm(after, e, id)
  {
  }

  lemma NoneNewKept(before: seq<Job>, u: System, e: Event, id: string)
    requires NoneNew(before, u.jobs, id) && id in u.life.active && (e.Begin? && e.id == id ==> e.guarded)
    ensures NoneNew(before, StepJobs(u, e).jobs, id)
  {
    IdsStay(u, e);
  }

  lemma {:induction false} SilentWhileTaken(s: System, es: seq<Event>, id: string, t0: real, limit: real)
    requires ValidSystem(s) && AllSilent(s.jobs, id) && Waiting(s.life, id, t0, limit)
    requires forall e :: e in es ==> Calm(s.jobs, e, id)
    requires !EverTooLate(Signs(es), id, t0, limit)
    ensures
      var t := RunJobs(s, es);
      && ValidSystem(t) && AllSilent(t.jobs, id) && Waiting(t.life, id, LastBeat(Signs(es), id, t0), limit)
      && NoneNew(s.jobs, t.jobs, id)
  {
    if es != [] {
      var n := |es| - 1;
      SignsOfPrefix(es, id, t0, limit);
      SilentWhileTaken(s, es[..n], id, t0, limit);
      var u := RunJobs(s, es[..n]);
      CalmLater(s.jobs, u.jobs, es[n], id);
      StepValid(u, es[n]);
      SilenceIsKept(u, es[n], id);
      StepWhileSilent(u, es[n], id, LastBeat(Signs(es[..n]), id, t0), limit);
      NoneNewKept(s.jobs, u, es[n], id);
    }
  }

  lemma CancelSilences(s: System, id: string)
    requires ValidSystem(s) && id in s.current && s.jobs[s.current[id]].outcome == None
    requires forall j :: 0 <= j < |s.jobs| && j != s.current[id] && s.jobs[j].id == id ==> Silent(s.jobs[j])
    ensures
      var t := StepJobs(s, CancelScan(id));
      AllSilent(t.jobs, id) && t.life == s.life && NoneNew(s.jobs, t.jobs, id)
  {
    StepLife(s, CancelScan(id));
    IdsStay(s, CancelScan(id));
  }

  lemma RefusedBegin(s: System, again: Event)
    requires ValidSystem(s) && again.Begin? && again.guarded && again.id in s.life.active
    ensures StepJobs(s, again) == s
  {
    StepLife(s, again);
    assert (map id | id in s.current && id in s.life.active :: s.current[id]) == s.current;
  }

  /** Cancelling a running worker does not free its id. As long as its task, and
      those of its predecessors, return in time, nobody calls back: every guarded
      start is refused, and the id is freed by a check, the first one more than the
      threshold after the last heartbeat, and by nothing else. */
  lemma CancelledIdStaysTaken(
    s: System, es: seq<Event>, id: string, t0: real, limit: real, again: Event, now: real)
    requires ValidSystem(s) && id in s.current && s.jobs[s.current[id]].outcome == None
    requires forall j :: 0 <= j < |s.jobs| && j != s.current[id] && s.jobs[j].id == id ==> Silent(s.jobs[j])
    requires Waiting(s.life, id, t0, limit) && !EverTooLate(Signs(es), id, t0, limit)
    requires forall e :: e in es ==> Calm(s.jobs, e, id)
    requires again.Begin? && again.id == id && again.guarded
    ensures
      var t := RunJobs(StepJobs(s, CancelScan(id)), es);
      && id in t.current && StepJobs(t, again) == t
      && (id in StepJobs(t, CheckAt(now)).current <==> now - LastBeat(Signs(es), id, t0) <= limit)
  {
    var u := StepJobs(s, CancelScan(id));
    CancelSilences(s, id);
    StepValid(s, CancelScan(id));
    forall e | e in es ensures Calm(u.jobs, e, id) {
      CalmLater(s.jobs, u.jobs, e, id);
    }
    SilentWhileTaken(u, es, id, t0, limit);
    var t := RunJobs(u, es);
    RefusedBegin(t, again);
    StepWhileSilent(t, CheckAt(now), id, LastBeat(Signs(es), id, t0), limit);
    StepValid(t, CheckAt(now));
  }

  /** A worker that a check stalls is told to stop: if its task then returns in
      time, its end is as silent. */
  lemma StalledAreCancelled(s: System, now: real, id: string)
    requires ValidSystem(s) && id in s.current && id !in StepJobs(s, CheckAt(now)).current
    ensures StepJobs(s, CheckAt(now)).jobs[s.current[id]] == s.jobs[s.current[id]].(cancelled := true)
  {
    StepValid(s, CheckAt(now));
  }

  // ---- failing after a cancellation ----

  /** A queued signal waits unchanged until it is delivered. */
  lemma SignalWaits(s: System, e: Event, j: nat)
    requires j < |s.jobs| && s.jobs[j].outcome.Some? && !s.jobs[j].delivered
    requires e.Deliver? ==> e.job != j
    ensures
      var t := StepJobs(s, e);
      && j < |t.jobs| && t.jobs[j].outcome == s.jobs[j].outcome && !t.jobs[j].delivered
      && t.jobs[j].id == s.jobs[j].id
  {
    IdsStay(s, e);
  }

  lemma {:induction false} SignalWaitsLong(s: System, es: seq<Event>, j: nat)
    requires ValidSystem(s) && j < |s.jobs| && s.jobs[j].outcome.Some? && !s.jobs[j].delivered
    requires forall e :: e in es && e.Deliver? ==> e.job != j
    ensures
      var t := RunJobs(s, es);
      && ValidSystem(t) && j < |t.jobs| && t.jobs[j].outcome == s.jobs[j].outcome && !t.jobs[j].delivered
      && t.jobs[j].id == s.jobs[j].id
  {
    if es != [] {
      var n := |es| - 1;
      SignalWaitsLong(s, es[..n], j);
      assert es[n] in es;
      SignalWaits(RunJobs(s, es[..n]), es[n], j);
      StepValid(RunJobs(s, es[..n]), es[n]);
    }
  }

  /** The job ends with an exception, or too late. */
  predicate Fails(job: Job, end: TaskEnd, elapsedMs: real) {
    end == Raised || elapsedMs > job.timeoutMs
  }

  lemma FailureIsQueued(s: System, j: nat, end: TaskEnd, elapsedMs: real)
    requires ValidSystem(s) && j < |s.jobs| && s.jobs[j].outcome == None && Fails(s.jobs[j], end, elapsedMs)
    requires !s.jobs[j].delivered
    ensures
      var t := StepJobs(s, End(j, end, elapsedMs));
      && t.jobs[j].outcome == Some(ErrorSignal) && !t.jobs[j].delivered && t.jobs[j].id == s.jobs[j].id
      && |t.jobs| == |s.jobs|
  {
    TerminalByCause(end, elapsedMs, s.jobs[j].timeoutMs, s.jobs[j].cancelled);
  }

  lemma ErrorIsCallback(s: System, j: nat, saves: bool)
    requires Agree(s.life) && Deliverable(s, j) && s.jobs[j].outcome == Some(ErrorSignal)
    ensures StepJobs(s, Deliver(j, saves)).life == Step(s.life, Callback(s.jobs[j].id, false, true))
  {
    OneAction(s.life, Callback(s.jobs[j].id, false, true));
  }

  lemma ErrorFreesId(s: System, j: nat, saves: bool)
    requires ValidSystem(s) && Deliverable(s, j) && s.jobs[j].outcome == Some(ErrorSignal)
    ensures s.jobs[j].id !in StepJobs(s, Deliver(j, saves)).current
    ensures s.jobs[j].id in s.current ==>
              StepJobs(s, Deliver(j, saves)).life.log ==
              s.life.log + [Delivered(s.jobs[j].id)] + [Removed(s.jobs[j].id)]
  {
    ErrorIsCallback(s, j, saves);
    StepKeys(s, Deliver(j, saves));
  }

  /** The counterpart: a worker whose task raises or overruns, cancelled or not, frees
      its id when its signal is delivered, however long that takes. */
  lemma FailingJobFreesItsId(
    s: System, j: nat, end: TaskEnd, elapsedMs: real, es: seq<Event>, saves: bool)
    requires ValidSystem(s) && j < |s.jobs| && s.jobs[j].outcome == None && !s.jobs[j].delivered
    requires Fails(s.jobs[j], end, elapsedMs)
    requires forall e :: e in es && e.Deliver? ==> e.job != j
    ensures
      var ended := StepJobs(s, End(j, end, elapsedMs));
      s.jobs[j].id !in StepJobs(RunJobs(ended, es), Deliver(j, saves)).current
  {
    var ended := StepJobs(s, End(j, end, elapsedMs));
    FailureIsQueued(s, j, end, elapsedMs);
    StepValid(s, End(j, end, elapsedMs));
    SignalWaitsLong(ended, es, j);
    ErrorFreesId(RunJobs(ended, es), j, saves);
  }

  // ---- the plain course of a job ----

  lemma BegunJob(s: System, begin: Event)
    requires ValidSystem(s) && begin.Begin? && !(begin.guarded && begin.id in s.life.active)
    ensures
      var t := StepJobs(s, begin);
      && t.jobs == s.jobs + [Job(begin.id, begin.timeoutMs, false, None, false)]
      && t.current == s.current[begin.id := |s.jobs|]
      && t.life.log == s.life.log + (if begin.id in s.life.active then [Replaced(begin.id)] else []) + [Started(begin.id)]
  {
    StepLife(s, begin);
  }

  /** A task that returns in time, uncancelled, is queued as finished. */
  lemma ReturnIsQueued(s: System, j: nat, elapsedMs: real)
    requires j < |s.jobs| && s.jobs[j].outcome == None && !s.jobs[j].cancelled && elapsedMs <= s.jobs[j].timeoutMs
    ensures
      var t := StepJobs(s, End(j, Returned, elapsedMs));
      && t.life == s.life && |t.jobs| == |s.jobs|
      && t.jobs[j] == s.jobs[j].(outcome := Some(FinishedSignal))
  {
    TerminalByCause(Returned, elapsedMs, s.jobs[j].timeoutMs, s.jobs[j].cancelled);
  }

  /** A finished signal delivers its result if that can be saved, and frees the id in
      any case; delivered once, it is gone. */
  lemma FinishedFreesId(s: System, j: nat, saves: bool, again: bool)
    requires ValidSystem(s) && Deliverable(s, j) && s.jobs[j].outcome == Some(FinishedSignal)
    requires s.jobs[j].id in s.current
    ensures
      var id, t := s.jobs[j].id, StepJobs(s, Deliver(j, saves));
      && id !in t.current
      && t.life.log == s.life.log + (if saves then [Delivered(id)] else []) + [Removed(id)]
      && StepJobs(t, Deliver(j, again)).life == t.life
  {
    OneAction(s.life, Callback(s.jobs[j].id, true, saves));
    StepKeys(s, Deliver(j, saves));
  }

  lemma ReturnWaits(s: System, j: nat, elapsedMs: real)
    requires ValidSystem(s) && j < |s.jobs| && s.jobs[j].outcome == None && !s.jobs[j].cancelled
    requires !s.jobs[j].delivered && elapsedMs <= s.jobs[j].timeoutMs && s.jobs[j].id in s.current
    ensures
      var ended := StepJobs(s, End(j, Returned, elapsedMs));
      ValidSystem(ended) && Deliverable(ended, j) && s.jobs[j].id in ended.current
  {
    ReturnIsQueued(s, j, elapsedMs);
    StepValid(s, End(j, Returned, elapsedMs));
  }

  lemma EndedJob(s: System, begin: Event, elapsedMs: real)
    requires ValidSystem(s) && begin.Begin? && begin.id !in s.life.active && elapsedMs <= begin.timeoutMs
    ensures
      var ended := StepJobs(StepJobs(s, begin), End(|s.jobs|, Returned, elapsedMs));
      && ValidSystem(ended) && Deliverable(ended, |s.jobs|) && begin.id in ended.current
      && ended.jobs[|s.jobs|].outcome == Some(FinishedSignal) && ended.jobs[|s.jobs|].id == begin.id
      && ended.life.log == s.life.log + [Started(begin.id)]
  {
    var begun := StepJobs(s, begin);
    BegunJob(s, begin);
    StepValid(s, begin);
    ReturnIsQueued(begun, |s.jobs|, elapsedMs);
    ReturnWaits(begun, |s.jobs|, elapsedMs);
    assert s.life.log + [] + [Started(begin.id)] == s.life.log + [Started(begin.id)];
  }

  /** From its start to its end: the id is taken, the result delivered, the id free. */
  lemma CourseOfAJob(s: System, begin: Event, elapsedMs: real, saves: bool)
    requires ValidSystem(s) && begin.Begin? && begin.id !in s.life.active && elapsedMs <= begin.timeoutMs
    ensures
      var j := |s.jobs|;
      var ended := StepJobs(StepJobs(s, begin), End(j, Returned, elapsedMs));
      var done := StepJobs(ended, Deliver(j, saves));
      && begin.id in ended.current && begin.id !in done.current
      && done.life.log == s.life.log + [Started(begin.id)] +
                          (if saves then [Delivered(begin.id)] else []) + [Removed(begin.id)]
  {
    EndedJob(s, begin, elapsedMs);
    FinishedFreesId(StepJobs(StepJobs(s, begin), End(|s.jobs|, Returned, elapsedMs)), |s.jobs|, saves, saves);
  }
}
