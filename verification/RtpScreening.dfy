/** Which events are looked at, and what one scan brings, in plain terms:
    backend/core/realtime_protection.py, lines 362-392, 823-899, 1369-1387 and
    1598-1620. */
module RtpScreening {
  import opened Wrappers
  import opened Text
  import opened RtpPlan
  import opened RtpSpec

  // ---- the filters ----

  /** An entry of the user's list names the process, its file or a directory above. */
  ghost predicate NamesEvent(policy: Policy, e: Event, entry: string) {
    var path := e.world.canonical(e.path);
    && entry != ""
    && (|| entry == Lower(StripRight(StripLeft(e.name)))
        || entry == path
        || (path != "" && Starts(path, RStrip(entry, {'/', '\\'}) + policy.separator)))
  }

  lemma UserListedIs(policy: Policy, e: Event)
    ensures UserListed(policy, e) <==> exists entry :: entry in e.userList && NamesEvent(policy, e, entry)
  {
    var path := e.world.canonical(e.path);
    forall entry
      ensures RStrip(entry, {'/', '\\'}) + policy.separator <= path <==>
              Starts(path, RStrip(entry, {'/', '\\'}) + policy.separator)
    {
      PrefixHasRest(path, RStrip(entry, {'/', '\\'}) + policy.separator);
    }
    forall entry | entry in e.userList && entry != ""
      ensures NamesEvent(policy, e, entry) <==>
              entry == Lower(StripRight(StripLeft(e.name))) ||
              (path != "" && (path == entry || RStrip(entry, {'/', '\\'}) + policy.separator <= path))
    {
    }
  }

  ghost predicate Starts(s: string, front: string) {
    exists rest :: s == front + rest
  }

  lemma PrefixHasRest(s: string, front: string)
    ensures front <= s <==> Starts(s, front)
  {
    if front <= s {
      assert s == front + s[|front|..];
    }
  }

  lemma VendorPrefixIs(policy: Policy, name: string)
    ensures HasVendorPrefix(policy, name) <==>
            exists p :: p in policy.whitelistPrefixes && Starts(Lower(name), p)
  {
    forall p | p in policy.whitelistPrefixes ensures p <= Lower(name) <==> Starts(Lower(name), p) {
      PrefixHasRest(Lower(name), p);
    }
  }

  const EXE := ".exe"

  lemma HoldsAtFront(s: string, part: string)
    ensures part <= s ==> Holds(s, part)
  {
    if part <= s {
      assert s == "" + part + s[|part|..];
    }
  }

  lemma HoldsInRest(s: string, part: string)
    requires s != "" && Holds(s[1..], part)
    ensures Holds(s, part)
  {
    var a, b :| s[1..] == a + part + b;
    assert s == ([s[0]] + a) + part + b;
  }

  lemma SkipsChar(s: string)
    requires s != "" && !(EXE <= s)
    ensures WithoutExe(s) == [s[0]] + WithoutExe(s[1..])
  {
    if |s| < 4 {
      assert s == [s[0]] + s[1..];
    } else {
      assert s[..4] == EXE ==> EXE <= s;
    }
  }

  lemma CutsFront(b: string)
    ensures WithoutExe(EXE + b) == WithoutExe(b)
  {
    assert (EXE + b)[..4] == EXE && (EXE + b)[4..] == b;
  }

  /** Nothing is cut out of a name that does not hold ".exe". */
  lemma {:induction false} WithoutExeKeeps(s: string)
    requires !Holds(s, EXE)
    ensures WithoutExe(s) == s
  {
    if s != "" {
      HoldsAtFront(s, EXE);
      if Holds(s[1..], EXE) {
        HoldsInRest(s, EXE);
      }
      SkipsChar(s);
      WithoutExeKeeps(s[1..]);
    }
  }

  lemma NoneInFront(a: string, s: string)
    requires a != "" && a <= s && forall i :: 0 <= i < |a| ==> !(EXE <= s[i..])
    ensures !(EXE <= s)
    ensures forall i :: 0 <= i < |a[1..]| ==> !(EXE <= s[1..][i..])
  {
    assert s[0..] == s;
    forall i | 0 <= i < |a[1..]| ensures !(EXE <= s[1..][i..]) {
      assert s[1..][i..] == s[i + 1..];
    }
  }

  /** Its first occurrence is cut out, and then those in the rest. */
  lemma {:induction false} WithoutExeCuts(a: string, b: string)
    requires forall i :: 0 <= i < |a| ==> !(EXE <= (a + EXE + b)[i..])
    ensures WithoutExe(a + EXE + b) == a + WithoutExe(b)
  {
    var s := a + EXE + b;
    if a == "" {
      assert s == EXE + b;
      CutsFront(b);
    } else {
      NoneInFront(a, s);
      assert s[1..] == a[1..] + EXE + b;
      SkipsChar(s);
      WithoutExeCuts(a[1..], b);
      assert WithoutExe(s) == [a[0]] + (a[1..] + WithoutExe(b));
    }
  }

  /** What the Windows loop passes over. */
  ghost predicate PassedOnWindows(policy: Policy, e: Event) {
    || e.path == ""
    || e.name in policy.whitelist
    || (exists p :: p in policy.whitelistPrefixes && Starts(Lower(e.name), p))
    || (exists entry :: entry in e.userList && NamesEvent(policy, e, entry))
  }

  /** What the Linux loop passes over. */
  predicate PassedOnLinux(policy: Policy, e: Event) {
    e.path == "" || e.zombie || WithoutExe(e.name) in policy.linuxSkip
  }

  /** An event changes nothing but by being admitted: not passed over, and its file on
      disk. */
  lemma AdmittedByCause(policy: Policy, e: Event)
    ensures policy.windows ==> (Admitted(policy, e) <==> !PassedOnWindows(policy, e) && e.exists_)
    ensures !policy.windows ==> (Admitted(policy, e) <==> !PassedOnLinux(policy, e) && e.exists_)
  {
    UserListedIs(policy, e);
    VendorPrefixIs(policy, e.name);
  }

  /** A failing look-up ends the watcher only behind the filters. */
  lemma EndsByCause(policy: Policy, e: Event)
    requires policy.windows
    ensures Ends(policy, LookupRaises(e)) <==> !PassedOnWindows(policy, e)
    ensures !Ends(policy, Arrives(e))
  {
    UserListedIs(policy, e);
    VendorPrefixIs(policy, e.name);
  }

  // ---- one scan ----

  /** No scanner and a failed scan allow, and leave nothing known. */
  lemma FailedScanAllows(windows: bool, answer: Answer)
    requires answer == NoScanner || answer == ScanRaised
    ensures
      var scan := ScanOf(windows, answer);
      && scan.decision.action == "allow" && scan.decision.score == 0 && scan.decision.verdictCode == "unknown"
      && scan.decision.source == (if answer == NoScanner then "scanner_unavailable" else "scan_error")
      && scan.decision.overrideType == ""
      && scan.signature == Unknown && scan.publisher == "" && !scan.strong && scan.sha256 == ""
  {
  }

  /** A scan passes on the decision and the hash; on Windows a block whose signature it
      left open gets signature and, if it named none, publisher from the fallback; an
      infection or an override is strong evidence. */
  lemma ScanByCause(windows: bool, answer: Answer)
    requires answer.Scanned?
    ensures
      var scan := ScanOf(windows, answer);
      var open := windows && answer.decision.action == "block" && answer.signature == Unknown;
      && scan.decision == answer.decision && scan.sha256 == answer.sha256
      && scan.signature == (if open then answer.probe.0 else answer.signature)
      && scan.publisher == (if open && answer.subject == "" then answer.probe.1 else answer.subject)
      && (scan.strong <==>
          answer.infected || answer.decision.source == "explicit_override" || answer.decision.overrideType != "")
  {
  }

  /** The fingerprint stored is the one of the scan's context or, failing that, one
      read again. */
  lemma EntryByCause(policy: Policy, e: Event)
    ensures
      var scan, entry := ScanOf(policy.windows, e.answer), EntryOf(policy, e);
      && entry.decision == scan.decision && entry.sha256 == scan.sha256
      && entry.context.signature == scan.signature && entry.context.publisher == scan.publisher
      && entry.context.strong == scan.strong && entry.context.parentPid == e.parentPid
      && entry.fingerprint == entry.context.fingerprint
      && match e.scanPrint
         case Some(at) => entry.fingerprint == Some(at)
         case None => entry.fingerprint == e.storePrint
  {
  }

  /** A look-up answers with the entry of its key if the fingerprint now can be read
      and is the stored one; otherwise the key is gone, and no other ever. */
  lemma LookupByCause(cache: Cache, key: string, now: Option<Fingerprint>, k: string)
    ensures
      var good := key in cache.entries && now.Some? && cache.entries[key].fingerprint == now;
      && Lookup(cache, key, now) == (if good then Some(cache.entries[key]) else None)
      && (k in AfterLookup(cache, key, now).entries <==> k in cache.entries && (k == key ==> good))
      && (k in AfterLookup(cache, key, now).entries ==> AfterLookup(cache, key, now).entries[k] == cache.entries[k])
  {
  }

  /** An allowed process is left alone, a flagged one only reported. */
  lemma OutcomeByPlan(e: Event, plan: Plan, cached: bool)
    ensures plan.process == Allow ==> ProcessOutcome(e, plan, cached) == Allowed
    ensures plan.process == LogOnly ==> ProcessOutcome(e, plan, cached) == LoggedOnly
    ensures plan.process == KillProcess ==> ProcessOutcome(e, plan, cached) == KillResult(e, cached)
  {
  }
}
