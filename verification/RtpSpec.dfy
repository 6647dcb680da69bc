/** The real-time protection worker on values: the scan cache, one process
    event, and runs of events. backend/core/realtime_protection.py, lines
    351-376, 800-899, 1113-1272, 1369-1494 and 1758-1837. */
module RtpSpec {
  import opened Wrappers
  import opened Text
  import opened RtpPlan

  // ---- what the environment answers ----

  /** The static scanner's answer for one file; `probe` is the Authenticode
      fallback, asked only on Windows for an unsigned blocking result. */
  datatype Answer =
    | NoScanner
    | ScanRaised
    | Scanned(decision: Decision, sha256: string, signature: Tri, subject: string,
              infected: bool, probe: (Tri, string))

  datatype LivePath = LivePath(path: string) | PathUnreadable | NoPathAttribute

  datatype KillOutcome = Killed | KillGone | KillDenied | KillFailed

  /** What psutil says about the PID when a kill is attempted. */
  datatype LiveProcess =
    | ProcessGone
    | ProcessDenied
    | ProcessError
    | Live(name: string, exe: LivePath, kill: KillOutcome)

  /** One process-creation event with every answer given while it is handled.
      The fingerprint is read for the lookup, for the scan context, and again
      when the scan context has none. */
  datatype Event = Event(
    time: string, name: ProcessName, path: string, pid: nat, parentPid: Option<int>,
    exists_: bool, zombie: bool, userList: set<string>, world: World,
    lookupPrint: Option<Fingerprint>, answer: Answer,
    scanPrint: Option<Fingerprint>, storePrint: Option<Fingerprint>,
    live: LiveProcess, vaultAccepts: bool)

  // ---- screening ----

  predicate UserListed(policy: Policy, e: Event) {
    var name := Lower(StripRight(StripLeft(e.name)));
    var path := e.world.canonical(e.path);
    exists entry :: entry in e.userList && entry != "" &&
      (entry == name ||
       (path != "" && (path == entry || RStrip(entry, {'/', '\\'}) + policy.separator <= path)))
  }

  predicate HasVendorPrefix(policy: Policy, name: string) {
    exists p :: p in policy.whitelistPrefixes && p <= Lower(name)
  }

  /** `name.replace(".exe", "")` */
  function WithoutExe(name: string): string {
    if |name| < 4 then name
    else if name[..4] == ".exe" then WithoutExe(name[4..])
    else [name[0]] + WithoutExe(name[1..])
  }

  /** The filters an event passes before anything looks at its file. The Linux
      loop does not consult the whitelists of the Windows loop. */
  predicate Screened(policy: Policy, e: Event) {
    if policy.windows then
      e.name in policy.whitelist || HasVendorPrefix(policy, e.name) || UserListed(policy, e) || e.path == ""
    else
      e.path == "" || WithoutExe(e.name) in policy.linuxSkip || e.zombie
  }

  predicate Admitted(policy: Policy, e: Event) {
    !Screened(policy, e) && e.exists_
  }

  predicate Trusted(policy: Policy, e: Event) {
    TrustedHelper(policy, e.world, e.name, e.path, e.parentPid)
  }

  // ---- the scan cache ----

  datatype Entry = Entry(decision: Decision, sha256: string, context: Context, fingerprint: Option<Fingerprint>)

  /** A dict keeps its keys in insertion order. */
  datatype Cache = Cache(order: seq<string>, entries: map<string, Entry>)

  const EMPTY_CACHE := Cache([], map[])

  function Without(cache: Cache, keys: set<string>): Cache {
    Cache(Filter(cache.order, keys), cache.entries - keys)
  }

  function Filter(order: seq<string>, keys: set<string>): seq<string> {
    if order == [] then []
    else (if order[0] in keys then [] else [order[0]]) + Filter(order[1..], keys)
  }

  /** Overflow drops the older half; a present key keeps its place. */
  function Store(max: nat, cache: Cache, key: string, entry: Entry): Cache {
    var half := |cache.order| / 2;
    var kept :=
      if |cache.order| < max then cache
      else Cache(cache.order[half..], cache.entries - set k | k in cache.order[..half]);
    Cache(if key in kept.entries then kept.order else kept.order + [key], kept.entries[key := entry])
  }

  predicate Fresh(entry: Entry, now: Option<Fingerprint>) {
    now.Some? && entry.fingerprint == now
  }

  /** `_get_cached_scan_entry`: a stale entry is removed on sight. */
  function Lookup(cache: Cache, key: string, now: Option<Fingerprint>): Option<Entry> {
    if key in cache.entries && Fresh(cache.entries[key], now) then Some(cache.entries[key]) else None
  }

  function AfterLookup(cache: Cache, key: string, now: Option<Fingerprint>): Cache {
    if key in cache.entries && !Fresh(cache.entries[key], now) then Without(cache, {key}) else cache
  }

  ghost predicate ValidCache(cache: Cache) {
    && (forall i, j :: 0 <= i < j < |cache.order| ==> cache.order[i] != cache.order[j])
    && (forall k :: k in cache.order <==> k in cache.entries)
  }

  // ---- one scan ----

  function FailureDecision(source: string): Decision {
    Decision("allow", 0, "unknown", "Unknown", source, "")
  }

  datatype Scan = Scan(decision: Decision, sha256: string, signature: Tri, publisher: string, strong: bool)

  /** `_scan_process_decision`, with the loop's handling of an exception. */
  function ScanOf(windows: bool, answer: Answer): Scan {
    match answer
    case NoScanner => Scan(FailureDecision("scanner_unavailable"), "", Unknown, "", false)
    case ScanRaised => Scan(FailureDecision("scan_error"), "", Unknown, "", false)
    case Scanned(d, sha, signature, subject, infected, probe) =>
      var probed := windows && d.action == "block" && signature == Unknown &&
                    (probe.0 != Unknown || probe.1 != "");
      Scan(d, sha,
           if probed then probe.0 else signature,
           if probed && subject == "" then probe.1 else subject,
           infected || d.source == "explicit_override" || d.overrideType != "")
  }

  function ContextOf(scan: Scan, fingerprint: Option<Fingerprint>, parentPid: Option<int>): Context {
    Context(scan.signature, scan.publisher, scan.strong, fingerprint, parentPid)
  }

  function EntryOf(policy: Policy, e: Event): Entry {
    var scan := ScanOf(policy.windows, e.answer);
    var fingerprint := if e.scanPrint.Some? then e.scanPrint else e.storePrint;
    Entry(scan.decision, scan.sha256, ContextOf(scan, fingerprint, e.parentPid), fingerprint)
  }

  // ---- acting on a plan ----

  datatype ProcessResult =
    | Allowed | LoggedOnly | IdentityMismatch | PathMismatch | IdentityUnverified
    | Terminated | AlreadyExited | AccessDenied | FailedToTerminate

  datatype FileResult =
    | FileAllowed | GuardrailAllow | SkippedNotTerminated | Quarantined | QuarantineFailed

  predicate NameMatches(e: Event) {
    e.live.Live? && Lower(e.live.name) == e.name
  }

  predicate PathVerified(e: Event) {
    e.live.Live? && e.live.exe.LivePath? && e.live.exe.path != "" &&
    e.world.canonical(e.live.exe.path) == e.world.canonical(e.path)
  }

  predicate PathReadable(e: Event) {
    e.live.Live? && e.live.exe.LivePath? && e.live.exe.path != ""
  }

  /** Whether the attempt gets as far as `proc.kill()`. */
  predicate ReachesKill(e: Event, cached: bool) {
    NameMatches(e) && (if PathReadable(e) then PathVerified(e) else !cached)
  }

  /** `_execute_process_action` for `kill_process` */
  function KillResult(e: Event, cached: bool): ProcessResult {
    match e.live
    case ProcessGone => AlreadyExited
    case ProcessDenied => AccessDenied
    case ProcessError => FailedToTerminate
    case Live(name, exe, kill) =>
      if Lower(name) != e.name then IdentityMismatch
      else if PathReadable(e) && !PathVerified(e) then PathMismatch
      else if cached && !PathReadable(e) then IdentityUnverified
      else match kill
           case Killed => Terminated
           case KillGone => AlreadyExited
           case KillDenied => AccessDenied
           case KillFailed => FailedToTerminate
  }

  /** Each cause has its result, and what calls `proc.kill()` is exactly a live
      process with the event's name whose executable is the scanned one or, for a
      fresh verdict only, cannot be read. */
  lemma KillResultByCause(e: Event, cached: bool, name: string, exe: LivePath, kill: KillOutcome)
    requires e.live == Live(name, exe, kill)
    ensures
      var readable := exe.LivePath? && exe.path != "";
      var result := KillResult(e, cached);
      && (ReachesKill(e, cached) <==>
          Lower(name) == e.name &&
          (if readable then e.world.canonical(exe.path) == e.world.canonical(e.path) else !cached))
      && (Lower(name) != e.name ==> result == IdentityMismatch)
      && (Lower(name) == e.name && readable && e.world.canonical(exe.path) != e.world.canonical(e.path) ==>
            result == PathMismatch)
      && (Lower(name) == e.name && !readable && cached ==> result == IdentityUnverified)
      && (ReachesKill(e, cached) ==>
            result == match kill
                      case Killed => Terminated
                      case KillGone => AlreadyExited
                      case KillDenied => AccessDenied
                      case KillFailed => FailedToTerminate)
  {
  }

  /** Without a live process nothing is called, and the result says why. */
  lemma NoKillByCause(e: Event, cached: bool)
    requires !e.live.Live?
    ensures !ReachesKill(e, cached)
    ensures e.live == ProcessGone ==> KillResult(e, cached) == AlreadyExited
    ensures e.live == ProcessDenied ==> KillResult(e, cached) == AccessDenied
    ensures e.live == ProcessError ==> KillResult(e, cached) == FailedToTerminate
  {
  }

  /** A file is put into quarantine only on top of a termination, and the vault's
      answer is reported. */
  lemma FileResultByCause(e: Event, plan: Plan, result: ProcessResult)
    ensures FileOutcome(e, plan, result) == Quarantined <==>
            plan.file == QuarantineFile && result == Terminated && e.vaultAccepts
    ensures FileOutcome(e, plan, result) == QuarantineFailed <==>
            plan.file == QuarantineFile && result == Terminated && !e.vaultAccepts
    ensures FileOutcome(e, plan, result) == SkippedNotTerminated <==>
            plan.file == QuarantineFile && result != Terminated
    ensures FileOutcome(e, plan, result) == GuardrailAllow <==>
            plan.file == AllowFile && plan.decisionAction == "block"
  {
  }

  function ProcessOutcome(e: Event, plan: Plan, cached: bool): ProcessResult {
    match plan.process
    case Allow => Allowed
    case LogOnly => LoggedOnly
    case KillProcess => KillResult(e, cached)
  }

  function FileOutcome(e: Event, plan: Plan, result: ProcessResult): FileResult {
    if plan.file == AllowFile then (if plan.decisionAction == "block" then GuardrailAllow else FileAllowed)
    else if result != Terminated then SkippedNotTerminated
    else if e.vaultAccepts then Quarantined else QuarantineFailed
  }

  datatype Threat = Threat(
    pid: nat, name: ProcessName, path: string, plan: Plan, result: ProcessResult, fileResult: FileResult)

  /** Calls on the outside world and emitted signals, in order. */
  datatype Effect =
    | Scanning(count: nat, name: string, pid: nat)
    | KillCall(pid: nat, outcome: KillOutcome)
    | QuarantineCall(path: string)
    | ThreatSignal(threat: Threat)
    | DetectedSignal(time: string, name: string, pid: nat)
    | StatsSignal(scanned: nat, found: nat, killed: nat)

  datatype State = State(cache: Cache, scanned: nat, found: nat, killed: nat, log: seq<Effect>)

  const INITIAL := State(EMPTY_CACHE, 0, 0, 0, [])

  function Enforce(s: State, e: Event, plan: Plan, cached: bool): State {
    if plan.process == Allow then s
    else
      var result := ProcessOutcome(e, plan, cached);
      var file := FileOutcome(e, plan, result);
      var killed := plan.process == KillProcess && ReachesKill(e, cached);
      s.(found := s.found + 1,
         killed := s.killed + (if result == Terminated then 1 else 0),
         log := s.log +
                (if killed then [KillCall(e.pid, e.live.kill)] else []) +
                (if file == Quarantined || file == QuarantineFailed then [QuarantineCall(e.path)] else []) +
                [ThreatSignal(Threat(e.pid, e.name, e.path, plan, result, file))])
  }

  function Detected(s: State, e: Event): State {
    s.(log := s.log + [DetectedSignal(e.time, e.name, e.pid)])
  }

  /** The decision and context an event is judged by: the cached scan under the
      current parent PID, or a new scan. */
  function Judged(policy: Policy, cache: Cache, e: Event): (Decision, Context) {
    match Lookup(cache, Lower(e.path), e.lookupPrint)
    case Some(entry) => (entry.decision, entry.context.(parentPid := e.parentPid))
    case None =>
      var scan := ScanOf(policy.windows, e.answer);
      (scan.decision, ContextOf(scan, e.scanPrint, e.parentPid))
  }

  function PlanFor(policy: Policy, cache: Cache, e: Event): Plan {
    var (d, c) := Judged(policy, cache, e);
    BuildPlan(policy, e.world, e.name, e.path, d, c)
  }

  predicate Hit(cache: Cache, e: Event) {
    Lookup(cache, Lower(e.path), e.lookupPrint).Some?
  }

  function Stats(s: State): State {
    if s.scanned % 10 == 0 then s.(log := s.log + [StatsSignal(s.scanned, s.found, s.killed)]) else s
  }

  /** The common tail of both loops, for an admitted event. */
  function Inspect(policy: Policy, s: State, e: Event): State {
    var key := Lower(e.path);
    var plan := PlanFor(policy, s.cache, e);
    var s1 := s.(cache := AfterLookup(s.cache, key, e.lookupPrint));
    if Hit(s.cache, e) then Detected(Enforce(s1, e, plan, true), e)
    else
      var s2 := s1.(scanned := s.scanned + 1, log := s.log + [Scanning(s.scanned + 1, e.name, e.pid)],
                    cache := Store(policy.cacheMax, s1.cache, key, EntryOf(policy, e)));
      Stats(Detected(Enforce(s2, e, plan, false), e))
  }

  function Step(policy: Policy, s: State, e: Event): State {
    if !Admitted(policy, e) then s
    else if Trusted(policy, e) then Detected(s, e)
    else Inspect(policy, s, e)
  }

  function Run(policy: Policy, es: seq<Event>): State {
    if es == [] then INITIAL else Step(policy, Run(policy, es[..|es| - 1]), es[|es| - 1])
  }

  predicate Inspected(policy: Policy, e: Event) {
    Admitted(policy, e) && !Trusted(policy, e)
  }

  // ---- the Windows watcher ----

  /** An event as it arrives; looking up its file may raise, which nothing inside the
      loop catches. */
  datatype Arrival = Arrives(e: Event) | LookupRaises(e: Event)

  /** The look-up comes behind the filters. */
  predicate Ends(policy: Policy, a: Arrival) {
    a.LookupRaises? && !Screened(policy, a.e)
  }

  predicate Ended(policy: Policy, arrivals: seq<Arrival>) {
    exists i :: 0 <= i < |arrivals| && Ends(policy, arrivals[i])
  }

  /** The events the watcher handles: those before the first failing look-up. */
  function Watched(policy: Policy, arrivals: seq<Arrival>): seq<Event> {
    if arrivals == [] then []
    else
      var n := |arrivals| - 1;
      Watched(policy, arrivals[..n]) + if Ended(policy, arrivals) then [] else [arrivals[n].e]
  }

  lemma EndedForGood(policy: Policy, arrivals: seq<Arrival>, more: seq<Arrival>)
    requires Ended(policy, arrivals)
    ensures Ended(policy, arrivals + more)
  {
    var i :| 0 <= i < |arrivals| && Ends(policy, arrivals[i]);
    assert (arrivals + more)[i] == arrivals[i];
  }

  /** Whatever arrives after a failing look-up is not seen any more. */
  lemma {:induction false} WatcherStaysEnded(policy: Policy, arrivals: seq<Arrival>, more: seq<Arrival>)
    requires Ended(policy, arrivals)
    ensures Watched(policy, arrivals + more) == Watched(policy, arrivals)
  {
    if more == [] {
      assert arrivals + more == arrivals;
    } else {
      var n := |more| - 1;
      WatcherStaysEnded(policy, arrivals, more[..n]);
      assert (arrivals + more)[..|arrivals| + n] == arrivals + more[..n];
      EndedForGood(policy, arrivals, more);
    }
  }

  /** What the next arrival does to a watcher that has not ended. */
  lemma WatcherAt(policy: Policy, arrivals: seq<Arrival>, i: nat)
    requires i < |arrivals| && !Ended(policy, arrivals[..i])
    ensures Ends(policy, arrivals[i]) ==>
              Ended(policy, arrivals) && Watched(policy, arrivals) == Watched(policy, arrivals[..i])
    ensures !Ends(policy, arrivals[i]) ==>
              !Ended(policy, arrivals[..i + 1]) &&
              Watched(policy, arrivals[..i + 1]) == Watched(policy, arrivals[..i]) + [arrivals[i].e]
  {
    var next := arrivals[..i + 1];
    assert next[..i] == arrivals[..i] && next[i] == arrivals[i];
    forall k | 0 <= k < i ensures next[k] == arrivals[..i][k] {
    }
    if Ends(policy, arrivals[i]) {
      assert Ended(policy, next);
      assert arrivals == next + arrivals[i + 1..];
      WatcherStaysEnded(policy, next, arrivals[i + 1..]);
    }
  }

  /** Until then every event is handled. */
  lemma {:induction false} WatcherHandlesAll(policy: Policy, arrivals: seq<Arrival>)
    requires !Ended(policy, arrivals)
    ensures |Watched(policy, arrivals)| == |arrivals|
    ensures forall i :: 0 <= i < |arrivals| ==> Watched(policy, arrivals)[i] == arrivals[i].e
  {
    if arrivals != [] {
      var n := |arrivals| - 1;
      forall i | 0 <= i < n ensures arrivals[..n][i] == arrivals[i] {
      }
      WatcherHandlesAll(policy, arrivals[..n]);
    }
  }
}
