/** The scan cache cannot be seen in the plans: backend/core/realtime_protection.py,
    lines 800-840 and 1404-1492. */
module RtpTransparency {
  import opened Wrappers
  import opened Text
  import opened RtpPlan
  import opened RtpSpec
  import opened RtpRuns

  /** A scan's outcome, failures included, is a function of the lower-cased path
      and of each fingerprint the worker reads of the file while it handles it. */
  ghost predicate Reproducible(policy: Policy, es: seq<Event>, scan: (string, Fingerprint) -> Scan) {
    forall e :: e in es ==>
      && Explains(policy, e, e.lookupPrint, scan)
      && Explains(policy, e, EntryOf(policy, e).fingerprint, scan)
  }

  predicate Explains(
    policy: Policy, e: Event, at: Option<Fingerprint>, scan: (string, Fingerprint) -> Scan)
  {
    at.Some? ==> ScanOf(policy.windows, e.answer) == scan(Lower(e.path), at.value)
  }

  /** The plan of a loop that scans every time. */
  function PlanUncached(policy: Policy, e: Event): Plan {
    PlanFor(policy, EMPTY_CACHE, e)
  }

  predicate KillsUncached(policy: Policy, e: Event) {
    Kills(policy, EMPTY_CACHE, e)
  }

  lemma PlansAreTheSame(
    policy: Policy, es: seq<Event>, scan: (string, Fingerprint) -> Scan, i: nat)
    requires Reproducible(policy, es, scan) && i < |es|
    ensures PlanFor(policy, Run(policy, es[..i]).cache, es[i]) == PlanUncached(policy, es[i])
  {
    var cache, e := Run(policy, es[..i]).cache, es[i];
    if Hit(cache, e) {
      var j := EntryIsLastScan(policy, es[..i], Lower(e.path));
      assert es[..i][j] in es && e in es;
      HitRepeatsScan(policy, cache, es[j], e, scan);
    } else {
      MissScans(policy, cache, e);
    }
  }

  lemma MissScans(policy: Policy, cache: Cache, e: Event)
    requires !Hit(cache, e)
    ensures Judged(policy, cache, e) == Judged(policy, EMPTY_CACHE, e)
  {
  }

  /** A hit on an entry of an earlier scan judges as a new scan would. */
  lemma HitRepeatsScan(policy: Policy, cache: Cache, f: Event, e: Event, scan: (string, Fingerprint) -> Scan)
    requires Reproducible(policy, [f, e], scan) && Hit(cache, e) && Lower(f.path) == Lower(e.path)
    requires cache.entries[Lower(e.path)] == EntryOf(policy, f)
    ensures PlanFor(policy, cache, e) == PlanFor(policy, EMPTY_CACHE, e)
  {
    SameScan(policy, f, e, scan);
    SameScanSamePlan(policy, cache, f, e);
  }

  lemma SameScan(policy: Policy, f: Event, e: Event, scan: (string, Fingerprint) -> Scan)
    requires Reproducible(policy, [f, e], scan) && Lower(f.path) == Lower(e.path)
    requires Fresh(EntryOf(policy, f), e.lookupPrint)
    ensures ScanOf(policy.windows, f.answer) == ScanOf(policy.windows, e.answer)
  {
    assert f in [f, e] && e in [f, e];
    assert Explains(policy, f, EntryOf(policy, f).fingerprint, scan);
    assert Explains(policy, e, e.lookupPrint, scan);
  }

  lemma SameScanSamePlan(policy: Policy, cache: Cache, f: Event, e: Event)
    requires Hit(cache, e) && cache.entries[Lower(e.path)] == EntryOf(policy, f)
    requires ScanOf(policy.windows, f.answer) == ScanOf(policy.windows, e.answer)
    ensures PlanFor(policy, cache, e) == PlanFor(policy, EMPTY_CACHE, e)
  {
    var scan := ScanOf(policy.windows, e.answer);
    assert Judged(policy, EMPTY_CACHE, e) == (scan.decision, ContextOf(scan, e.scanPrint, e.parentPid));
    assert Judged(policy, cache, e) ==
           (scan.decision, ContextOf(scan, EntryOf(policy, f).fingerprint, e.parentPid));
    PlanIgnoresFingerprint(policy, e, scan, e.scanPrint, EntryOf(policy, f).fingerprint);
  }

  lemma PlanIgnoresFingerprint(
    policy: Policy, e: Event, scan: Scan, a: Option<Fingerprint>, b: Option<Fingerprint>)
    ensures BuildPlan(policy, e.world, e.name, e.path, scan.decision, ContextOf(scan, a, e.parentPid)) ==
            BuildPlan(policy, e.world, e.name, e.path, scan.decision, ContextOf(scan, b, e.parentPid))
  {
  }

  /** The cached loop kills exactly what the uncached one kills, except where a
      cached verdict meets a process whose path cannot be read. */
  lemma KillsAreASubset(
    policy: Policy, es: seq<Event>, scan: (string, Fingerprint) -> Scan, i: nat)
    requires Reproducible(policy, es, scan) && i < |es|
    ensures KillsAt(policy, es, i) <==>
            KillsUncached(policy, es[i]) &&
            (Hit(Run(policy, es[..i]).cache, es[i]) ==> PathReadable(es[i]))
  {
    PlansAreTheSame(policy, es, scan, i);
  }

  // ---- parents play no part later ----

  predicate EntriesAlike(a: Entry, b: Entry) {
    b == a.(context := a.context.(parentPid := b.context.parentPid))
  }

  /** Two caches that differ at most in stored parent PIDs. */
  predicate CachesAlike(a: Cache, b: Cache) {
    && a.order == b.order && a.entries.Keys == b.entries.Keys
    && forall k :: k in a.entries ==> EntriesAlike(a.entries[k], b.entries[k])
  }

  lemma AlikeLookups(a: Cache, b: Cache, key: string, now: Option<Fingerprint>)
    requires CachesAlike(a, b)
    ensures Lookup(a, key, now).Some? == Lookup(b, key, now).Some?
    ensures Lookup(a, key, now).Some? ==> EntriesAlike(Lookup(a, key, now).value, Lookup(b, key, now).value)
    ensures CachesAlike(AfterLookup(a, key, now), AfterLookup(b, key, now))
  {
  }

  lemma AlikeStores(max: nat, a: Cache, b: Cache, key: string, x: Entry, y: Entry)
    requires CachesAlike(a, b) && EntriesAlike(x, y)
    ensures CachesAlike(Store(max, a, key, x), Store(max, b, key, y))
  {
  }

  lemma AlikePlans(policy: Policy, a: Cache, b: Cache, e: Event)
    requires CachesAlike(a, b)
    ensures Hit(a, e) == Hit(b, e) && Judged(policy, a, e) == Judged(policy, b, e)
  {
    AlikeLookups(a, b, Lower(e.path), e.lookupPrint);
  }

  /** The same event, perhaps under another parent, but no more or less a helper. */
  ghost predicate SameButParent(policy: Policy, e: Event, f: Event) {
    f == e.(parentPid := f.parentPid) && Trusted(policy, e) == Trusted(policy, f)
  }

  lemma EntriesOfSame(policy: Policy, e: Event, f: Event)
    requires SameButParent(policy, e, f)
    ensures EntriesAlike(EntryOf(policy, e), EntryOf(policy, f))
    ensures Inspected(policy, e) == Inspected(policy, f)
    ensures Lower(e.path) == Lower(f.path) && e.lookupPrint == f.lookupPrint
  {
  }

  /** The cache after an event. */
  function CacheAfter(policy: Policy, cache: Cache, e: Event): Cache {
    var looked := AfterLookup(cache, Lower(e.path), e.lookupPrint);
    if !Inspected(policy, e) then cache
    else if Hit(cache, e) then looked
    else Store(policy.cacheMax, looked, Lower(e.path), EntryOf(policy, e))
  }

  lemma CacheAfterIsStep(policy: Policy, s: State, e: Event)
    ensures Step(policy, s, e).cache == CacheAfter(policy, s.cache, e)
  {
  }

  lemma AlikeAfter(policy: Policy, a: Cache, b: Cache, e: Event, f: Event)
    requires CachesAlike(a, b) && SameButParent(policy, e, f)
    ensures CachesAlike(CacheAfter(policy, a, e), CacheAfter(policy, b, f))
  {
    EntriesOfSame(policy, e, f);
    var key := Lower(e.path);
    AlikeLookups(a, b, key, e.lookupPrint);
    AlikeStores(policy.cacheMax, AfterLookup(a, key, e.lookupPrint), AfterLookup(b, key, e.lookupPrint), key,
                EntryOf(policy, e), EntryOf(policy, f));
  }

  ghost predicate SameButParents(policy: Policy, es: seq<Event>, fs: seq<Event>) {
    |es| == |fs| && forall i :: 0 <= i < |es| ==> SameButParent(policy, es[i], fs[i])
  }

  lemma {:induction false} ParentsStayInEntries(policy: Policy, es: seq<Event>, fs: seq<Event>)
    requires SameButParents(policy, es, fs)
    ensures CachesAlike(Run(policy, es).cache, Run(policy, fs).cache)
  {
    if es != [] {
      var n := |es| - 1;
      ParentsStayInEntries(policy, es[..n], fs[..n]);
      CacheAfterIsStep(policy, Run(policy, es[..n]), es[n]);
      CacheAfterIsStep(policy, Run(policy, fs[..n]), fs[n]);
      AlikeAfter(policy, Run(policy, es[..n]).cache, Run(policy, fs[..n]).cache, es[n], fs[n]);
    }
  }

  /** Over every run: had the earlier events come under other parents (and been
      helpers or not as before), every later event would be judged alike. */
  lemma CachedParentIsIgnored(policy: Policy, es: seq<Event>, fs: seq<Event>, e: Event)
    requires SameButParents(policy, es, fs)
    ensures PlanFor(policy, Run(policy, es).cache, e) == PlanFor(policy, Run(policy, fs).cache, e)
    ensures Hit(Run(policy, es).cache, e) == Hit(Run(policy, fs).cache, e)
  {
    ParentsStayInEntries(policy, es, fs);
    AlikePlans(policy, Run(policy, es).cache, Run(policy, fs).cache, e);
  }
}
