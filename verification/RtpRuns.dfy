/** What holds over every run of the worker. */
module RtpRuns {
  import opened Wrappers
  import opened Text
  import opened RtpPlan
  import opened RtpSpec

  // ---- the cache stays a bounded dict ----

  lemma {:induction false} FilterElements(order: seq<string>, keys: set<string>)
    ensures |Filter(order, keys)| <= |order|
    ensures forall k :: k in Filter(order, keys) <==> k in order && k !in keys
    ensures (forall i, j :: 0 <= i < j < |order| ==> order[i] != order[j]) ==>
              forall i, j :: 0 <= i < j < |Filter(order, keys)| ==>
                Filter(order, keys)[i] != Filter(order, keys)[j]
  {
    if order != [] {
      FilterElements(order[1..], keys);
      var rest := Filter(order[1..], keys);
      assert order == [order[0]] + order[1..];
      if order[0] !in keys && (forall i, j :: 0 <= i < j < |order| ==> order[i] != order[j]) {
        assert order[0] !in rest;
      }
    }
  }

  lemma AfterLookupValid(cache: Cache, key: string, now: Option<Fingerprint>)
    requires ValidCache(cache)
    ensures ValidCache(AfterLookup(cache, key, now))
    ensures |AfterLookup(cache, key, now).order| <= |cache.order|
  {
    FilterElements(cache.order, {key});
  }

  /** The younger half of a valid cache is a valid cache. */
  lemma YoungerHalfValid(cache: Cache, half: nat)
    requires ValidCache(cache) && half <= |cache.order|
    ensures ValidCache(Cache(cache.order[half..], cache.entries - set k | k in cache.order[..half]))
  {
    var kept := cache.order[half..];
    assert cache.order == cache.order[..half] + kept;
    forall k ensures k in kept <==> k in cache.entries && k !in cache.order[..half] {
      if k in kept {
        var j :| 0 <= j < |kept| && kept[j] == k;
        assert k == cache.order[half + j];
      }
    }
  }

  lemma InsertValid(cache: Cache, key: string, entry: Entry)
    requires ValidCache(cache)
    ensures ValidCache(Cache(if key in cache.entries then cache.order else cache.order + [key],
                             cache.entries[key := entry]))
  {
  }

  /** The number of kept keys never exceeds the maximum. */
  lemma StoreValid(max: nat, cache: Cache, key: string, entry: Entry)
    requires ValidCache(cache) && 2 <= max && |cache.order| <= max
    ensures ValidCache(Store(max, cache, key, entry))
    ensures |Store(max, cache, key, entry).order| <= max
  {
    var half := |cache.order| / 2;
    if |cache.order| >= max {
      YoungerHalfValid(cache, half);
      InsertValid(Cache(cache.order[half..], cache.entries - set k | k in cache.order[..half]), key, entry);
    } else {
      InsertValid(cache, key, entry);
    }
  }

  /** A store at the maximum keeps exactly the younger half, at any other time all;
      and the new entry stands in any case. */
  lemma StoreKeepsYounger(max: nat, cache: Cache, key: string, entry: Entry, i: nat)
    requires ValidCache(cache) && i < |cache.order|
    ensures
      var k := cache.order[i];
      var after := Store(max, cache, key, entry);
      && key in after.entries && after.entries[key] == entry
      && (k != key ==>
            (k in after.entries <==> |cache.order| < max || i >= |cache.order| / 2) &&
            (k in after.entries ==> after.entries[k] == cache.entries[k]))
  {
    var half := |cache.order| / 2;
    assert cache.order[i] in cache.order;
    if |cache.order| >= max && i >= half {
      forall j | 0 <= j < half ensures cache.order[..half][j] != cache.order[i] {
      }
    }
    if i < half {
      assert cache.order[..half][i] == cache.order[i];
    }
  }

  lemma StepKeepsCacheValid(policy: Policy, s: State, e: Event)
    requires ValidCache(s.cache) && 2 <= policy.cacheMax && |s.cache.order| <= policy.cacheMax
    ensures ValidCache(Step(policy, s, e).cache)
    ensures |Step(policy, s, e).cache.order| <= policy.cacheMax
  {
    if Inspected(policy, e) {
      var key := Lower(e.path);
      AfterLookupValid(s.cache, key, e.lookupPrint);
      StoreValid(policy.cacheMax, AfterLookup(s.cache, key, e.lookupPrint), key, EntryOf(policy, e));
    }
  }

  lemma {:induction false} CacheStaysBounded(policy: Policy, es: seq<Event>)
    requires 2 <= policy.cacheMax
    ensures ValidCache(Run(policy, es).cache)
    ensures |Run(policy, es).cache.order| <= policy.cacheMax
  {
    if es != [] {
      var n := |es| - 1;
      CacheStaysBounded(policy, es[..n]);
      StepKeepsCacheValid(policy, Run(policy, es[..n]), es[n]);
    }
  }

  // ---- where cached entries come from ----

  /** Event `i` of the run was scanned, not answered from the cache. */
  predicate ScannedAt(policy: Policy, es: seq<Event>, i: nat)
    requires i < |es|
  {
    Inspected(policy, es[i]) && !Hit(Run(policy, es[..i]).cache, es[i])
  }

  predicate LastScanOf(policy: Policy, es: seq<Event>, key: string, j: nat) {
    && j < |es| && ScannedAt(policy, es, j) && Lower(es[j].path) == key
    && forall i :: j < i < |es| && ScannedAt(policy, es, i) ==> Lower(es[i].path) != key
  }

  lemma StoreLookup(max: nat, cache: Cache, key: string, entry: Entry, k: string)
    requires k in Store(max, cache, key, entry).entries
    ensures Store(max, cache, key, entry).entries[k] ==
            if k == key then entry else if k in cache.entries then cache.entries[k] else entry
    ensures k == key || k in cache.entries
  {
  }

  lemma CacheAfterStep(policy: Policy, s: State, e: Event, k: string)
    requires k in Step(policy, s, e).cache.entries
    ensures
      var scanned := Inspected(policy, e) && !Hit(s.cache, e);
      if scanned && k == Lower(e.path) then Step(policy, s, e).cache.entries[k] == EntryOf(policy, e)
      else k in s.cache.entries && Step(policy, s, e).cache.entries[k] == s.cache.entries[k]
  {
    if Inspected(policy, e) {
      var key := Lower(e.path);
      var c := AfterLookup(s.cache, key, e.lookupPrint);
      if !Hit(s.cache, e) {
        StoreLookup(policy.cacheMax, c, key, EntryOf(policy, e), k);
      }
    }
  }

  /** Every entry is the last scan of its key. */
  lemma {:induction false} EntryIsLastScan(policy: Policy, es: seq<Event>, key: string) returns (j: nat)
    requires key in Run(policy, es).cache.entries
    ensures LastScanOf(policy, es, key, j)
    ensures Run(policy, es).cache.entries[key] == EntryOf(policy, es[j])
  {
    var n := |es| - 1;
    var s, e := Run(policy, es[..n]), es[n];
    CacheAfterStep(policy, s, e, key);
    if ScannedAt(policy, es, n) && Lower(e.path) == key {
      j := n;
    } else {
      j := EntryIsLastScan(policy, es[..n], key);
      assert es[..n][..j] == es[..j];
      assert forall i :: j < i < n ==> es[..n][..i] == es[..i];
      forall i | j < i < |es| && ScannedAt(policy, es, i) ensures Lower(es[i].path) != key {
        if i < n {
          assert ScannedAt(policy, es[..n], i);
        }
      }
    }
  }

  // ---- what may be killed ----

  /** Event `i` makes the worker call `proc.kill()`. */
  predicate KillsAt(policy: Policy, es: seq<Event>, i: nat)
    requires i < |es|
  {
    Kills(policy, Run(policy, es[..i]).cache, es[i])
  }

  predicate Kills(policy: Policy, cache: Cache, e: Event) {
    Inspected(policy, e) && PlanFor(policy, cache, e).process == KillProcess && ReachesKill(e, Hit(cache, e))
  }

  predicate Quarantines(policy: Policy, cache: Cache, e: Event) {
    Kills(policy, cache, e) && e.live.kill == Killed && PlanFor(policy, cache, e).strong
  }

  function ThreatOf(policy: Policy, cache: Cache, e: Event): Threat {
    var plan := PlanFor(policy, cache, e);
    var result := ProcessOutcome(e, plan, Hit(cache, e));
    Threat(e.pid, e.name, e.path, plan, result, FileOutcome(e, plan, result))
  }

  predicate Flags(policy: Policy, cache: Cache, e: Event) {
    Inspected(policy, e) && PlanFor(policy, cache, e).process != Allow
  }

  function When(b: bool, x: Effect): seq<Effect> {
    if b then [x] else []
  }

  function EnforceEffects(policy: Policy, cache: Cache, e: Event): seq<Effect> {
    When(Kills(policy, cache, e), KillCall(e.pid, if e.live.Live? then e.live.kill else KillFailed)) +
    When(Quarantines(policy, cache, e), QuarantineCall(e.path)) +
    When(Flags(policy, cache, e), ThreatSignal(ThreatOf(policy, cache, e)))
  }

  lemma QuarantineFollowsKill(policy: Policy, cache: Cache, e: Event)
    requires Inspected(policy, e)
    ensures
      var plan := PlanFor(policy, cache, e);
      var result := ProcessOutcome(e, plan, Hit(cache, e));
      var file := FileOutcome(e, plan, result);
      && (result == Terminated <==> Kills(policy, cache, e) && e.live.kill == Killed)
      && (file == Quarantined || file == QuarantineFailed <==> Quarantines(policy, cache, e))
  {
    var (d, c) := Judged(policy, cache, e);
    LadderDecides(policy, e.world, e.name, e.path, d, c);
  }

  /** Everything one event makes the worker do, in order. */
  function EventEffects(policy: Policy, s: State, e: Event): seq<Effect> {
    EffectsUpTo(policy, s, e, Step(policy, s, e))
  }

  function EffectsUpTo(policy: Policy, s: State, e: Event, t: State): seq<Effect> {
    if !Admitted(policy, e) then []
    else Around(Inspected(policy, e) && !Hit(s.cache, e), s.scanned + 1, e, EnforceEffects(policy, s.cache, e), t)
  }

  /** The enforcement with the signals around it. */
  function Around(scanned: bool, count: nat, e: Event, enforcement: seq<Effect>, t: State): seq<Effect> {
    When(scanned, Scanning(count, e.name, e.pid)) + enforcement + [DetectedSignal(e.time, e.name, e.pid)] +
    When(scanned && t.scanned % 10 == 0, StatsSignal(t.scanned, t.found, t.killed))
  }

  lemma EffectsOfAdmitted(policy: Policy, s: State, e: Event, t: State)
    requires Admitted(policy, e)
    ensures EffectsUpTo(policy, s, e, t) ==
            Around(Inspected(policy, e) && !Hit(s.cache, e), s.scanned + 1, e, EnforceEffects(policy, s.cache, e), t)
  {
  }

  /** A state grows by some effects and counts. */
  predicate Grown(s: State, t: State, effects: seq<Effect>, scanned: nat, found: nat, killed: nat) {
    && t.log == s.log + effects && t.scanned == s.scanned + scanned
    && t.found == s.found + found && t.killed == s.killed + killed
  }

  function One(b: bool): nat { if b then 1 else 0 }

  lemma EnforceGrows(policy: Policy, cache: Cache, s: State, e: Event)
    requires Inspected(policy, e)
    ensures Grown(s, Enforce(s, e, PlanFor(policy, cache, e), Hit(cache, e)), EnforceEffects(policy, cache, e),
                  0, One(Flags(policy, cache, e)), One(Kills(policy, cache, e) && e.live.kill == Killed))
  {
    QuarantineFollowsKill(policy, cache, e);
  }

  lemma CachedTailGrows(s: State, a: State, t: State, effects: seq<Effect>, found: nat, killed: nat, e: Event)
    requires Grown(a, t, effects, 0, found, killed)
    requires a.found == s.found && a.killed == s.killed && a.log == s.log && a.scanned == s.scanned
    ensures
      var u := Detected(t, e);
      Grown(s, u, Around(false, s.scanned + 1, e, effects, u), 0, found, killed)
  {
  }

  lemma ScannedTailGrows(s: State, a: State, t: State, effects: seq<Effect>, found: nat, killed: nat, e: Event)
    requires Grown(a, t, effects, 0, found, killed)
    requires a.found == s.found && a.killed == s.killed && a.scanned == s.scanned + 1
    requires a.log == s.log + [Scanning(s.scanned + 1, e.name, e.pid)]
    ensures
      var u := Stats(Detected(t, e));
      Grown(s, u, Around(true, s.scanned + 1, e, effects, u), 1, found, killed)
  {
    LogOfScan(s.log, Scanning(s.scanned + 1, e.name, e.pid), effects, t, e);
  }

  lemma LogOfScan(log: seq<Effect>, scanning: Effect, effects: seq<Effect>, t: State, e: Event)
    requires t.log == (log + [scanning]) + effects
    ensures
      var u := Stats(Detected(t, e));
      && u.log == log + ([scanning] + effects + [DetectedSignal(e.time, e.name, e.pid)] +
                         When(u.scanned % 10 == 0, StatsSignal(u.scanned, u.found, u.killed)))
      && u.scanned == t.scanned && u.found == t.found && u.killed == t.killed
  {
  }

  lemma HitInNumbers(policy: Policy, s: State, e: Event)
    requires Inspected(policy, e) && Hit(s.cache, e)
    ensures
      var u := Inspect(policy, s, e);
      Grown(s, u, Around(false, s.scanned + 1, e, EnforceEffects(policy, s.cache, e), u),
            0, One(Flags(policy, s.cache, e)), One(Kills(policy, s.cache, e) && e.live.kill == Killed))
  {
    var s1 := s.(cache := AfterLookup(s.cache, Lower(e.path), e.lookupPrint));
    EnforceGrows(policy, s.cache, s1, e);
    CachedTailGrows(s, s1, Enforce(s1, e, PlanFor(policy, s.cache, e), true), EnforceEffects(policy, s.cache, e),
                    One(Flags(policy, s.cache, e)), One(Kills(policy, s.cache, e) && e.live.kill == Killed), e);
  }

  /** The state between the scan and the enforcement. */
  function WithScan(policy: Policy, s: State, e: Event): State {
    var key := Lower(e.path);
    s.(scanned := s.scanned + 1, log := s.log + [Scanning(s.scanned + 1, e.name, e.pid)],
       cache := Store(policy.cacheMax, AfterLookup(s.cache, key, e.lookupPrint), key, EntryOf(policy, e)))
  }

  lemma MissUnfolds(policy: Policy, s: State, e: Event)
    requires !Hit(s.cache, e)
    ensures Inspect(policy, s, e) ==
            Stats(Detected(Enforce(WithScan(policy, s, e), e, PlanFor(policy, s.cache, e), false), e))
  {
  }

  lemma MissInNumbers(policy: Policy, s: State, e: Event)
    requires Inspected(policy, e) && !Hit(s.cache, e)
    ensures
      var u := Inspect(policy, s, e);
      Grown(s, u, Around(true, s.scanned + 1, e, EnforceEffects(policy, s.cache, e), u),
            1, One(Flags(policy, s.cache, e)), One(Kills(policy, s.cache, e) && e.live.kill == Killed))
  {
    var s2 := WithScan(policy, s, e);
    MissUnfolds(policy, s, e);
    EnforceGrows(policy, s.cache, s2, e);
    MissTail(policy, s, e, PlanFor(policy, s.cache, e), EnforceEffects(policy, s.cache, e),
             One(Flags(policy, s.cache, e)), One(Kills(policy, s.cache, e) && e.live.kill == Killed));
  }

  lemma MissTail(policy: Policy, s: State, e: Event, plan: Plan, effects: seq<Effect>, found: nat, killed: nat)
    requires Grown(WithScan(policy, s, e), Enforce(WithScan(policy, s, e), e, plan, false), effects, 0, found, killed)
    ensures
      var u := Stats(Detected(Enforce(WithScan(policy, s, e), e, plan, false), e));
      Grown(s, u, Around(true, s.scanned + 1, e, effects, u), 1, found, killed)
  {
    var s2 := WithScan(policy, s, e);
    ScannedTailGrows(s, s2, Enforce(s2, e, plan, false), effects, found, killed, e);
  }

  lemma UninspectedHasNoEnforcement(policy: Policy, cache: Cache, e: Event)
    requires !Inspected(policy, e)
    ensures EnforceEffects(policy, cache, e) == [] && !Flags(policy, cache, e) && !Kills(policy, cache, e)
  {
  }

  lemma TrustedInNumbers(s: State, e: Event)
    ensures
      var u := Detected(s, e);
      Grown(s, u, Around(false, s.scanned + 1, e, [], u), 0, 0, 0)
  {
  }

  lemma StepInNumbers(policy: Policy, s: State, e: Event)
    ensures Grown(s, Step(policy, s, e), EventEffects(policy, s, e),
                  One(Inspected(policy, e) && !Hit(s.cache, e)), One(Flags(policy, s.cache, e)),
                  One(Kills(policy, s.cache, e) && e.live.kill == Killed))
  {
    if Inspected(policy, e) {
      if Hit(s.cache, e) {
        HitInNumbers(policy, s, e);
      } else {
        MissInNumbers(policy, s, e);
      }
    } else {
      UninspectedHasNoEnforcement(policy, s.cache, e);
      TrustedInNumbers(s, e);
    }
  }

  /** A kill is justified by the last scan of the same file, unchanged since,
      judged by the facts of the moment of the kill; the process killed carries
      the name of the event (so on Windows none of the whitelisted ones), and
      its executable, where it can be read, is the scanned one. */
  lemma KillIsJustified(policy: Policy, es: seq<Event>, i: nat) returns (j: nat)
    requires i < |es| && KillsAt(policy, es, i)
    ensures j <= i && LastScanOf(policy, es[..i + 1], Lower(es[i].path), j)
    ensures
      var e := es[i];
      var scan := ScanOf(policy.windows, es[j].answer);
      && es[j].answer.Scanned? && es[j].answer.decision.action == "block"
      && MayKill(policy, e.world, e.name, e.path, scan.decision, ContextOf(scan, None, e.parentPid))
    ensures j < i ==>
              && es[i].lookupPrint.Some? && EntryOf(policy, es[j]).fingerprint == es[i].lookupPrint
              && PathVerified(es[i])
    ensures es[i].live.Live? && Lower(es[i].live.name) == es[i].name
    ensures PathReadable(es[i]) ==> PathVerified(es[i])
    ensures PlanFor(policy, Run(policy, es[..i]).cache, es[i]).strong ==
            ScanOf(policy.windows, es[j].answer).strong
    ensures policy.windows ==> Lower(es[i].live.name) !in policy.whitelist
  {
    var s, e := Run(policy, es[..i]), es[i];
    var key := Lower(e.path);
    var (d, c) := Judged(policy, s.cache, e);
    LadderDecides(policy, e.world, e.name, e.path, d, c);
    assert es[..i + 1][..i] == es[..i];
    if Hit(s.cache, e) {
      j := EntryIsLastScan(policy, es[..i], key);
      LastScanSurvivesHit(policy, es, i, key, j);
    } else {
      j := i;
      assert ScannedAt(policy, es[..i + 1], i);
    }
    assert ContextOf(ScanOf(policy.windows, es[j].answer), None, e.parentPid) == c.(fingerprint := None);
  }

  lemma LastScanSurvivesHit(policy: Policy, es: seq<Event>, i: nat, key: string, j: nat)
    requires i < |es| && Hit(Run(policy, es[..i]).cache, es[i])
    requires LastScanOf(policy, es[..i], key, j)
    ensures LastScanOf(policy, es[..i + 1], key, j)
  {
    var long, short := es[..i + 1], es[..i];
    assert long[..i] == short;
    assert forall k :: 0 <= k <= i ==> long[..k] == short[..k];
    assert ScannedAt(policy, long, j);
    forall k | j < k < |long| && ScannedAt(policy, long, k) ensures Lower(long[k].path) != key {
      if k < i {
        assert ScannedAt(policy, short, k);
      }
    }
  }

  /** A quarantine comes only on top of a successful kill, and only for a file
      whose last scan had corroborating evidence. */
  lemma QuarantineIsJustified(policy: Policy, es: seq<Event>, i: nat) returns (j: nat)
    requires i < |es| && Quarantines(policy, Run(policy, es[..i]).cache, es[i])
    ensures KillsAt(policy, es, i) && es[i].live.kill == Killed
    ensures j <= i && LastScanOf(policy, es[..i + 1], Lower(es[i].path), j) && es[j].answer.Scanned?
    ensures es[j].answer.infected || es[j].answer.decision.source == "explicit_override" ||
            es[j].answer.decision.overrideType != ""
  {
    j := KillIsJustified(policy, es, i);
  }

  /** The scanner, or on Windows the fallback for what it left open, found the
      signature valid. */
  predicate SeenAsSigned(policy: Policy, answer: Answer) {
    answer.Scanned? &&
    (answer.signature == Yes || (policy.windows && answer.signature == Unknown && answer.probe.0 == Yes))
  }

  /** An unforced kill of a validly signed file rests on an infection found or on
      an override recorded by its last scan. */
  lemma SignedKillNeedsEvidence(policy: Policy, es: seq<Event>, i: nat) returns (j: nat)
    requires i < |es| && KillsAt(policy, es, i)
    ensures j <= i && LastScanOf(policy, es[..i + 1], Lower(es[i].path), j) && es[j].answer.Scanned?
    ensures SeenAsSigned(policy, es[j].answer) && !Overridden(es[j].answer.decision) ==>
              es[j].answer.infected || es[j].answer.decision.overrideType != ""
  {
    j := KillIsJustified(policy, es, i);
    ForcedSourceOverrides(es[j].answer.decision);
  }

  lemma ForcedSourceOverrides(d: Decision)
    ensures d.source == "explicit_override" ==> Overridden(d)
  {
  }

  lemma ListedIsScreened(policy: Policy, e: Event, entry: string, rest: string)
    requires policy.windows && entry in e.userList && entry != "" && policy.separator != ""
    requires || entry == Lower(StripRight(StripLeft(e.name)))
             || entry == e.world.canonical(e.path)
             || e.world.canonical(e.path) == RStrip(entry, {'/', '\\'}) + policy.separator + rest
    ensures Screened(policy, e)
  {
    var dir := RStrip(entry, {'/', '\\'}) + policy.separator;
    assert e.world.canonical(e.path) == dir + rest ==> dir <= e.world.canonical(e.path);
  }

  lemma RunOneMore(policy: Policy, es: seq<Event>, e: Event)
    ensures Run(policy, es + [e]) == Step(policy, Run(policy, es), e)
  {
    assert (es + [e])[..|es|] == es;
  }

  lemma {:induction false} ScreenedIsAsIfAbsent(policy: Policy, before: seq<Event>, e: Event, after: seq<Event>)
    requires Screened(policy, e)
    ensures Run(policy, before + [e] + after) == Run(policy, before + after)
  {
    if after == [] {
      RunOneMore(policy, before, e);
      assert before + [e] + after == before + [e] && before + after == before;
    } else {
      var n := |after| - 1;
      ScreenedIsAsIfAbsent(policy, before, e, after[..n]);
      RunOneMore(policy, before + [e] + after[..n], after[n]);
      RunOneMore(policy, before + after[..n], after[n]);
      assert before + [e] + after == before + [e] + after[..n] + [after[n]];
      assert before + after == before + after[..n] + [after[n]];
    }
  }

  /** Who a Windows user lists, by name, by path or by a directory above, is left
      alone: every run goes on as if the event had not come. */
  lemma ListedByUserIsLeftAlone(
    policy: Policy, before: seq<Event>, e: Event, after: seq<Event>, entry: string, rest: string)
    requires policy.windows && entry in e.userList && entry != "" && policy.separator != ""
    requires || entry == Lower(StripRight(StripLeft(e.name)))
             || entry == e.world.canonical(e.path)
             || e.world.canonical(e.path) == RStrip(entry, {'/', '\\'}) + policy.separator + rest
    ensures Run(policy, before + [e] + after) == Run(policy, before + after)
  {
    ListedIsScreened(policy, e, entry, rest);
    ScreenedIsAsIfAbsent(policy, before, e, after);
  }

  /** The Linux loop never looks at that list. */
  lemma LinuxIgnoresUserList(policy: Policy, s: State, e: Event, list: set<string>)
    requires !policy.windows
    ensures Step(policy, s, e.(userList := list)) == Step(policy, s, e)
  {
    var f := e.(userList := list);
    if Inspected(policy, e) {
      InspectIgnoresUserList(policy, s, e, list);
    }
  }

  lemma InspectIgnoresUserList(policy: Policy, s: State, e: Event, list: set<string>)
    ensures Inspect(policy, s, e.(userList := list)) == Inspect(policy, s, e)
  {
    var f := e.(userList := list);
    PlanIgnoresUserList(policy, s.cache, e, list);
    var plan := PlanFor(policy, s.cache, e);
    if Hit(s.cache, e) {
      var s1 := s.(cache := AfterLookup(s.cache, Lower(e.path), e.lookupPrint));
      EnforceIgnoresUserList(s1, e, plan, true, list);
    } else {
      assert WithScan(policy, s, f) == WithScan(policy, s, e);
      MissUnfolds(policy, s, e);
      MissUnfolds(policy, s, f);
      EnforceIgnoresUserList(WithScan(policy, s, e), e, plan, false, list);
    }
  }

  lemma EnforceIgnoresUserList(t: State, e: Event, plan: Plan, cached: bool, list: set<string>)
    ensures Detected(Enforce(t, e.(userList := list), plan, cached), e.(userList := list)) ==
            Detected(Enforce(t, e, plan, cached), e)
  {
  }

  lemma PlanIgnoresUserList(policy: Policy, cache: Cache, e: Event, list: set<string>)
    ensures PlanFor(policy, cache, e.(userList := list)) == PlanFor(policy, cache, e)
    ensures EntryOf(policy, e.(userList := list)) == EntryOf(policy, e)
    ensures Hit(cache, e.(userList := list)) == Hit(cache, e)
  {
  }

  // ---- the counters shown to the user ----

  function Count(log: seq<Effect>, p: Effect -> bool): nat {
    if log == [] then 0 else (if p(log[0]) then 1 else 0) + Count(log[1..], p)
  }

  lemma {:induction false} CountAppend(a: seq<Effect>, b: seq<Effect>, p: Effect -> bool)
    ensures Count(a + b, p) == Count(a, p) + Count(b, p)
  {
    if a == [] {
      assert a + b == b;
    } else {
      assert (a + b)[1..] == a[1..] + b;
      CountAppend(a[1..], b, p);
    }
  }

  lemma CountSandwich(a: seq<Effect>, b: seq<Effect>, c: seq<Effect>, d: seq<Effect>, p: Effect -> bool)
    requires Count(a, p) == 0 && Count(c, p) == 0 && Count(d, p) == 0
    ensures Count(a + b + c + d, p) == Count(b, p)
  {
    CountAppend(a + b + c, d, p);
    CountAppend(a + b, c, p);
    CountAppend(a, b, p);
  }

  predicate Action(x: Effect) { x.ThreatSignal? || x.KillCall? || x.QuarantineCall? }

  lemma CountAround(scanned: bool, count: nat, e: Event, b: seq<Effect>, t: State, p: Effect -> bool)
    requires forall x :: p(x) ==> Action(x)
    ensures Count(Around(scanned, count, e, b, t), p) == Count(b, p)
  {
    var scanning := Scanning(count, e.name, e.pid);
    var detected := DetectedSignal(e.time, e.name, e.pid);
    var stats := StatsSignal(t.scanned, t.found, t.killed);
    assert !Action(scanning) && !Action(detected) && !Action(stats);
    CountSandwich(When(scanned, scanning), b, [detected], When(scanned && t.scanned % 10 == 0, stats), p);
  }

  lemma CountOfEvent(policy: Policy, s: State, e: Event, t: State, p: Effect -> bool)
    requires Admitted(policy, e)
    requires forall x :: p(x) ==> Action(x)
    ensures Count(EffectsUpTo(policy, s, e, t), p) == Count(EnforceEffects(policy, s.cache, e), p)
  {
    EffectsOfAdmitted(policy, s, e, t);
    CountAround(Inspected(policy, e) && !Hit(s.cache, e), s.scanned + 1, e,
                EnforceEffects(policy, s.cache, e), t, p);
  }

  lemma CountOfEnforcement(policy: Policy, cache: Cache, e: Event, p: Effect -> bool)
    ensures
      Count(EnforceEffects(policy, cache, e), p) ==
      (if Kills(policy, cache, e) && p(KillCall(e.pid, if e.live.Live? then e.live.kill else KillFailed)) then 1 else 0) +
      (if Quarantines(policy, cache, e) && p(QuarantineCall(e.path)) then 1 else 0) +
      (if Flags(policy, cache, e) && p(ThreatSignal(ThreatOf(policy, cache, e))) then 1 else 0)
  {
    var a := When(Kills(policy, cache, e), KillCall(e.pid, if e.live.Live? then e.live.kill else KillFailed));
    var b := When(Quarantines(policy, cache, e), QuarantineCall(e.path));
    var c := When(Flags(policy, cache, e), ThreatSignal(ThreatOf(policy, cache, e)));
    CountAppend(a + b, c, p);
    CountAppend(a, b, p);
  }

  predicate IsThreat(x: Effect) { x.ThreatSignal? }
  predicate IsTermination(x: Effect) { x.ThreatSignal? && x.threat.result == Terminated }
  predicate IsSuccessfulKill(x: Effect) { x.KillCall? && x.outcome == Killed }
  predicate IsQuarantine(x: Effect) { x.QuarantineCall? }

  /** What each event adds to the numbers. */
  lemma EventCounts(policy: Policy, s: State, e: Event)
    ensures
      var t := Step(policy, s, e);
      && t.found - s.found == Count(t.log, IsThreat) - Count(s.log, IsThreat)
      && t.killed - s.killed == Count(t.log, IsTermination) - Count(s.log, IsTermination)
      && t.killed - s.killed == Count(t.log, IsSuccessfulKill) - Count(s.log, IsSuccessfulKill)
      && Count(t.log, IsQuarantine) - Count(s.log, IsQuarantine) <= t.killed - s.killed <= t.found - s.found
  {
    StepInNumbers(policy, s, e);
    if Inspected(policy, e) {
      QuarantineFollowsKill(policy, s.cache, e);
    }
    forall p: Effect -> bool
      ensures Count(Step(policy, s, e).log, p) == Count(s.log, p) + Count(EventEffects(policy, s, e), p)
    {
      CountAppend(s.log, EventEffects(policy, s, e), p);
    }
    if Admitted(policy, e) {
      forall p: Effect -> bool | p == IsThreat || p == IsTermination || p == IsSuccessfulKill || p == IsQuarantine
        ensures Count(EventEffects(policy, s, e), p) == Count(EnforceEffects(policy, s.cache, e), p)
      {
        CountOfEvent(policy, s, e, Step(policy, s, e), p);
      }
      CountOfEnforcement(policy, s.cache, e, IsThreat);
      CountOfEnforcement(policy, s.cache, e, IsTermination);
      CountOfEnforcement(policy, s.cache, e, IsSuccessfulKill);
      CountOfEnforcement(policy, s.cache, e, IsQuarantine);
    }
  }

  /** The counters equal what was reported and done, and no run quarantines
      more files than it killed processes. */
  lemma {:induction false} CountersAreHonest(policy: Policy, es: seq<Event>)
    ensures
      var t := Run(policy, es);
      && t.found == Count(t.log, IsThreat)
      && t.killed == Count(t.log, IsTermination) == Count(t.log, IsSuccessfulKill)
      && Count(t.log, IsQuarantine) <= t.killed <= t.found
  {
    if es != [] {
      var n := |es| - 1;
      CountersAreHonest(policy, es[..n]);
      EventCounts(policy, Run(policy, es[..n]), es[n]);
    }
  }

  /** Every quarantine in the log directly follows a successful kill. */
  lemma {:induction false} QuarantinesFollowKills(policy: Policy, es: seq<Event>, q: nat)
    requires q < |Run(policy, es).log| && Run(policy, es).log[q].QuarantineCall?
    ensures q > 0 && IsSuccessfulKill(Run(policy, es).log[q - 1])
  {
    var n := |es| - 1;
    var s, e := Run(policy, es[..n]), es[n];
    LogGrows(policy, s, e);
    if q < |s.log| {
      QuarantinesFollowKills(policy, es[..n], q);
    } else {
      QuarantinePosition(policy, s, e, q - |s.log|);
    }
  }

  lemma LogGrows(policy: Policy, s: State, e: Event)
    ensures Step(policy, s, e).log == s.log + EventEffects(policy, s, e)
  {
    StepInNumbers(policy, s, e);
  }

  lemma QuarantinePosition(policy: Policy, s: State, e: Event, q: nat)
    requires q < |EventEffects(policy, s, e)| && EventEffects(policy, s, e)[q].QuarantineCall?
    ensures q > 0 && IsSuccessfulKill(EventEffects(policy, s, e)[q - 1])
  {
  }
}
