/** Which file a cached verdict is about: cache keys are lower-cased on every
    platform, and a fingerprint is read apart from the scan.
    backend/core/realtime_protection.py, lines 502-508, 800-840 and 842-899. */
module RtpPaths {
  import opened Wrappers
  import opened Text
  import opened RtpPlan
  import opened RtpSpec
  import opened RtpRuns
  import opened RtpTransparency

  // ---- events to show failures with ----

  const PLAIN_WORLD := World(0, (p: string) => p, (p: string) => p, (p: string) => false, None)

  /** A live process of a readable file, seen with these fingerprints. */
  function Process(name: ProcessName, path: string, lookup: Fingerprint, stored: Fingerprint, answer: Answer): Event {
    Event("", name, path, 1, None, true, false, {}, PLAIN_WORLD,
          Some(lookup), answer, Some(stored), Some(stored), Live(name, LivePath(path), Killed), true)
  }

  const FORCED := Scanned(
    Decision("block", 100, "malicious", "Malicious", "policy", "user"), "", Unknown, "", true, (Unknown, ""))

  const CLEAN := Scanned(
    Decision("allow", 0, "safe", "Safe", "policy", ""), "", Unknown, "", false, (Unknown, ""))

  /** A name the Linux loop does not skip. */
  predicate Ordinary(policy: Policy, name: ProcessName) {
    !policy.windows && WithoutExe(name) !in policy.linuxSkip
  }

  lemma ForcedIsOverridden()
    ensures Overridden(FORCED.decision)
  {
    assert StripLeft("user") == "user" && StripRight("user") == "user";
    assert |Lower("user")| == 4;
  }

  lemma ProcessIsInspected(policy: Policy, e: Event)
    requires Ordinary(policy, e.name) && e.path != "" && e.exists_ && !e.zombie && e.world == PLAIN_WORLD
    ensures Inspected(policy, e)
  {
  }

  lemma PlanOfForced(policy: Policy, cache: Cache, e: Event)
    requires e.world == PLAIN_WORLD && Judged(policy, cache, e).0 == FORCED.decision
    ensures PlanFor(policy, cache, e).process == KillProcess
  {
    ForcedIsOverridden();
    var (d, c) := Judged(policy, cache, e);
    LadderDecides(policy, e.world, e.name, e.path, d, c);
  }

  lemma PlanOfClean(policy: Policy, cache: Cache, e: Event)
    requires Judged(policy, cache, e).0 == CLEAN.decision
    ensures PlanFor(policy, cache, e).process == Allow
  {
    var (d, c) := Judged(policy, cache, e);
    LadderDecides(policy, e.world, e.name, e.path, d, c);
  }

  /** The cache after a first event. */
  lemma AfterFirst(policy: Policy, e: Event)
    requires Inspected(policy, e)
    ensures Run(policy, [e]).cache.entries == map[Lower(e.path) := EntryOf(policy, e)]
    ensures !Hit(EMPTY_CACHE, e)
  {
    assert [e][..0] == [];
    CacheAfterIsStep(policy, INITIAL, e);
  }

  /** The same key with the stored fingerprint is a hit. */
  lemma SecondHits(policy: Policy, e: Event, f: Event)
    requires Inspected(policy, e) && Lower(e.path) == Lower(f.path)
    requires f.lookupPrint.Some? && EntryOf(policy, e).fingerprint == f.lookupPrint
    ensures Hit(Run(policy, [e]).cache, f)
    ensures Judged(policy, Run(policy, [e]).cache, f).0 == EntryOf(policy, e).decision
  {
    AfterFirst(policy, e);
  }

  // ---- another file under the same key ----

  /** Two paths that differ in case only share an entry: the second process is
      killed on the scan of the first file, its own was never scanned. */
  lemma TwinIsKilledForOther(policy: Policy, name: ProcessName, p: string, q: string, at: Fingerprint)
    requires Ordinary(policy, name) && p != "" && q != "" && Lower(p) == Lower(q)
    ensures
      var es := [Process(name, p, at, at, FORCED), Process(name, q, at, at, CLEAN)];
      KillsAt(policy, es, 1) && !ScannedAt(policy, es, 1)
  {
    var e, f := Process(name, p, at, at, FORCED), Process(name, q, at, at, CLEAN);
    var es := [e, f];
    assert es[..1] == [e];
    ProcessIsInspected(policy, e);
    ProcessIsInspected(policy, f);
    SecondHits(policy, e, f);
    PlanOfForced(policy, Run(policy, [e]).cache, f);
  }

  ghost predicate NoTwins(paths: iset<string>) {
    forall p, q :: p in paths && q in paths && Lower(p) == Lower(q) ==> p == q
  }

  ghost predicate PathsIn(es: seq<Event>, paths: iset<string>) {
    forall i :: 0 <= i < |es| ==> es[i].path in paths
  }

  /** The last scan of the event's key was of the event's own path. */
  ghost predicate RestsOnOwnFile(policy: Policy, es: seq<Event>, i: nat)
    requires i < |es|
  {
    exists j: nat :: j <= i && LastScanOf(policy, es[..i + 1], Lower(es[i].path), j) && es[j].path == es[i].path
  }

  ghost predicate OwnFileAlways(policy: Policy, paths: iset<string>) {
    forall es: seq<Event>, i: nat :: i < |es| && PathsIn(es, paths) && KillsAt(policy, es, i) ==>
      RestsOnOwnFile(policy, es, i)
  }

  lemma NoTwinsRestOnOwnFile(policy: Policy, es: seq<Event>, i: nat, paths: iset<string>)
    requires i < |es| && PathsIn(es, paths) && KillsAt(policy, es, i) && NoTwins(paths)
    ensures RestsOnOwnFile(policy, es, i)
  {
    var j := KillIsJustified(policy, es, i);
    assert es[..i + 1][j] == es[j];
    assert es[j].path in paths && es[i].path in paths;
  }

  lemma TwinsDoNot(policy: Policy, name: ProcessName, p: string, q: string, at: Fingerprint)
    requires Ordinary(policy, name) && p != "" && q != "" && Lower(p) == Lower(q) && p != q
    ensures
      var es := [Process(name, p, at, at, FORCED), Process(name, q, at, at, CLEAN)];
      !RestsOnOwnFile(policy, es, 1)
  {
    var es := [Process(name, p, at, at, FORCED), Process(name, q, at, at, CLEAN)];
    TwinIsKilledForOther(policy, name, p, q, at);
    assert es[..2] == es;
  }

  /** On Linux, the kills of all runs over some paths rest on scans of the very
      files killed if and only if no two of the paths differ in case only. */
  lemma OwnFileIffNoTwins(policy: Policy, paths: iset<string>, name: ProcessName)
    requires Ordinary(policy, name) && "" !in paths
    ensures OwnFileAlways(policy, paths) <==> NoTwins(paths)
  {
    if NoTwins(paths) {
      forall es: seq<Event>, i: nat | i < |es| && PathsIn(es, paths) && KillsAt(policy, es, i)
        ensures RestsOnOwnFile(policy, es, i)
      {
        NoTwinsRestOnOwnFile(policy, es, i, paths);
      }
    } else {
      var p, q :| p in paths && q in paths && Lower(p) == Lower(q) && p != q;
      var es := [Process(name, p, (0, 0), (0, 0), FORCED), Process(name, q, (0, 0), (0, 0), CLEAN)];
      TwinIsKilledForOther(policy, name, p, q, (0, 0));
      TwinsDoNot(policy, name, p, q, (0, 0));
      assert PathsIn(es, paths);
    }
  }

  // ---- a verdict from the cache and an unreadable path ----

  /** The same process again, its executable's path unreadable this time: the cached
      loop refuses the kill that a loop without a cache makes. */
  lemma CachedLoopRefuses(policy: Policy, name: ProcessName, path: string, at: Fingerprint)
    requires Ordinary(policy, name) && path != ""
    ensures
      var e := Process(name, path, at, at, FORCED);
      var es := [e, e.(live := Live(name, PathUnreadable, Killed))];
      && !KillsAt(policy, es, 1) && KillsUncached(policy, es[1])
      && KillResult(es[1], true) == IdentityUnverified && KillResult(es[1], false) == Terminated
  {
    var e := Process(name, path, at, at, FORCED);
    var f := e.(live := Live(name, PathUnreadable, Killed));
    assert [e, f][..1] == [e];
    ProcessIsInspected(policy, e);
    ProcessIsInspected(policy, f);
    SecondHits(policy, e, f);
    PlanOfForced(policy, EMPTY_CACHE, f);
    KillResultByCause(f, true, name, PathUnreadable, Killed);
    KillResultByCause(f, false, name, PathUnreadable, Killed);
  }

  // ---- a file that changes while it is handled ----

  /** The fingerprint is read after the scan: a file replaced in between is stored
      with the verdict of its predecessor, and the cache shows. */
  lemma ReplacedFileShows(policy: Policy, name: ProcessName, path: string, old_: Fingerprint, new_: Fingerprint)
    requires Ordinary(policy, name) && path != ""
    ensures
      var es := [Process(name, path, old_, new_, CLEAN), Process(name, path, new_, new_, FORCED)];
      && PlanFor(policy, Run(policy, es[..1]).cache, es[1]).process == Allow
      && PlanUncached(policy, es[1]).process == KillProcess
  {
    var e, f := Process(name, path, old_, new_, CLEAN), Process(name, path, new_, new_, FORCED);
    assert [e, f][..1] == [e];
    ProcessIsInspected(policy, e);
    SecondHits(policy, e, f);
    PlanOfClean(policy, Run(policy, [e]).cache, f);
    PlanOfForced(policy, EMPTY_CACHE, f);
  }

  /** The plan for `f` from an entry, under the current parent. */
  function PlanFrom(policy: Policy, entry: Entry, f: Event): Plan {
    BuildPlan(policy, f.world, f.name, f.path, entry.decision, entry.context.(parentPid := f.parentPid))
  }

  /** A scan of `e` would answer for `f`. */
  predicate Answers(policy: Policy, e: Event, f: Event) {
    Inspected(policy, e) && Lower(e.path) == Lower(f.path) && Fresh(EntryOf(policy, e), f.lookupPrint)
  }

  lemma PlanOfHit(policy: Policy, cache: Cache, e: Event, f: Event)
    requires Hit(cache, f) && cache.entries[Lower(f.path)] == EntryOf(policy, e)
    ensures PlanFor(policy, cache, f) == PlanFrom(policy, EntryOf(policy, e), f)
    ensures Fresh(EntryOf(policy, e), f.lookupPrint)
  {
  }

  ghost predicate Transparent(policy: Policy, events: iset<Event>) {
    forall es: seq<Event>, i: nat :: i < |es| && (forall e :: e in es ==> e in events) ==>
      PlanFor(policy, Run(policy, es[..i]).cache, es[i]) == PlanUncached(policy, es[i])
  }

  ghost predicate PairsAgree(policy: Policy, events: iset<Event>) {
    forall e, f :: e in events && f in events && Answers(policy, e, f) ==>
      PlanFrom(policy, EntryOf(policy, e), f) == PlanUncached(policy, f)
  }

  lemma PairsDecide(policy: Policy, events: iset<Event>, es: seq<Event>, i: nat)
    requires PairsAgree(policy, events) && i < |es| && forall e :: e in es ==> e in events
    ensures PlanFor(policy, Run(policy, es[..i]).cache, es[i]) == PlanUncached(policy, es[i])
  {
    var cache, f := Run(policy, es[..i]).cache, es[i];
    if Hit(cache, f) {
      var j := EntryIsLastScan(policy, es[..i], Lower(f.path));
      assert es[..i][j] in es && f in es;
      PlanOfHit(policy, cache, es[j], f);
      assert Answers(policy, es[j], f);
    } else {
      MissScans(policy, cache, f);
    }
  }

  lemma PairIsARun(policy: Policy, e: Event, f: Event)
    requires Answers(policy, e, f)
    ensures PlanFor(policy, Run(policy, [e, f][..1]).cache, f) == PlanFrom(policy, EntryOf(policy, e), f)
  {
    assert [e, f][..1] == [e];
    AfterFirst(policy, e);
    PlanOfHit(policy, Run(policy, [e]).cache, e, f);
  }

  /** The cache cannot be seen in the plans of any run over some events if and only
      if it cannot for any two of them: whenever the scan of one would answer for
      the other, it must give the plan the other's own scan gives. */
  lemma TransparentIffPairsAgree(policy: Policy, events: iset<Event>)
    ensures Transparent(policy, events) <==> PairsAgree(policy, events)
  {
    if PairsAgree(policy, events) {
      forall es: seq<Event>, i: nat | i < |es| && (forall e :: e in es ==> e in events)
        ensures PlanFor(policy, Run(policy, es[..i]).cache, es[i]) == PlanUncached(policy, es[i])
      {
        PairsDecide(policy, events, es, i);
      }
    }
    if Transparent(policy, events) {
      forall e, f | e in events && f in events && Answers(policy, e, f)
        ensures PlanFrom(policy, EntryOf(policy, e), f) == PlanUncached(policy, f)
      {
        PairIsARun(policy, e, f);
        assert [e, f][1] == f;
      }
    }
  }
}
