/** The Linux polling loop: which PIDs are acted on, and which are remembered.
    backend/core/realtime_protection.py, lines 1569-1620 and 1732-1751. */
module RtpPolling {
  import opened Wrappers
  import opened RtpPlan
  import opened RtpSpec

  /** One entry of `process_iter`. An unreadable entry raises before its PID is
      known; a failing one raises when its file is looked up, which ends the
      poll. */
  datatype Item = Unreadable | Listed(e: Event) | Failing(e: Event)

  /** `completes` is false when the iterator itself raises after the items. */
  datatype Poll = Poll(items: seq<Item>, completes: bool)

  datatype Progress = Progress(
    seen: set<nat>, current: set<nat>, worker: State, acted: seq<nat>, failed: bool)

  function VisitNew(policy: Policy, p: Progress, e: Event, raises: bool): Progress {
    if Screened(policy, e) then p
    else if raises then p.(failed := true)
    else p.(worker := Step(policy, p.worker, e), acted := if e.exists_ then p.acted + [e.pid] else p.acted)
  }

  function Visit(policy: Policy, p: Progress, item: Item): Progress {
    if p.failed || item.Unreadable? then p
    else
      var q := p.(current := p.current + {item.e.pid});
      if item.e.pid in p.seen then q
      else VisitNew(policy, q.(seen := p.seen + {item.e.pid}), item.e, item.Failing?)
  }

  function VisitAll(policy: Policy, p: Progress, items: seq<Item>): Progress {
    if items == [] then p
    else Visit(policy, VisitAll(policy, p, items[..|items| - 1]), items[|items| - 1])
  }

  /** State of the loop between polls. */
  datatype Loop = Loop(seen: set<nat>, worker: State)

  function PollOnce(policy: Policy, l: Loop, poll: Poll): Progress {
    VisitAll(policy, Progress(l.seen, {}, l.worker, [], false), poll.items)
  }

  predicate Completed(policy: Policy, l: Loop, poll: Poll) {
    poll.completes && !PollOnce(policy, l, poll).failed
  }

  /** After a completed poll the seen PIDs are pruned to the current ones. */
  function AfterPoll(policy: Policy, l: Loop, poll: Poll): Loop {
    var p := PollOnce(policy, l, poll);
    Loop(if Completed(policy, l, poll) then p.seen * p.current else p.seen, p.worker)
  }

  function RunPolls(policy: Policy, snapshot: set<nat>, polls: seq<Poll>): Loop {
    if polls == [] then Loop(snapshot, INITIAL)
    else AfterPoll(policy, RunPolls(policy, snapshot, polls[..|polls| - 1]), polls[|polls| - 1])
  }

  /** The loop state in which poll `n` starts. */
  function At(policy: Policy, snapshot: set<nat>, polls: seq<Poll>, n: nat): Loop
    requires n <= |polls|
  {
    RunPolls(policy, snapshot, polls[..n])
  }

  /** The PIDs poll `n` got to read. */
  function ReadIn(policy: Policy, snapshot: set<nat>, polls: seq<Poll>, n: nat): set<nat>
    requires n < |polls|
  {
    PollOnce(policy, At(policy, snapshot, polls, n), polls[n]).current
  }

  predicate CompletedAt(policy: Policy, snapshot: set<nat>, polls: seq<Poll>, n: nat)
    requires n < |polls|
  {
    Completed(policy, At(policy, snapshot, polls, n), polls[n])
  }

  /** Poll `n` acts on a new process with this PID. */
  predicate ActsOn(policy: Policy, snapshot: set<nat>, polls: seq<Poll>, n: nat, pid: nat)
    requires n < |polls|
  {
    pid in PollOnce(policy, At(policy, snapshot, polls, n), polls[n]).acted
  }

  lemma {:induction false} VisitedAreSeen(policy: Policy, p: Progress, items: seq<Item>)
    requires p.current <= p.seen
    ensures
      var q := VisitAll(policy, p, items);
      && q.seen == p.seen + q.current
      && (forall pid :: pid in q.acted ==> pid in p.acted || (pid !in p.seen && pid in q.seen))
  {
    if items != [] {
      VisitedAreSeen(policy, p, items[..|items| - 1]);
    }
  }

  /** Entry `k` makes the poll fail: new to the loop and to this poll, past the
      filters, and its look-up raises. */
  predicate FailsAt(policy: Policy, seen: set<nat>, items: seq<Item>, k: nat) {
    && k < |items| && items[k].Failing? && !Screened(policy, items[k].e) && items[k].e.pid !in seen
    && forall i :: 0 <= i < k && !items[i].Unreadable? ==> items[i].e.pid != items[k].e.pid
  }

  lemma {:induction false} SeenWhileNotFailed(policy: Policy, p: Progress, items: seq<Item>, pid: nat)
    requires !VisitAll(policy, p, items).failed
    ensures pid in VisitAll(policy, p, items).seen <==>
            pid in p.seen || exists i :: 0 <= i < |items| && !items[i].Unreadable? && items[i].e.pid == pid
    ensures !p.failed
  {
    if items != [] {
      var n := |items| - 1;
      SeenWhileNotFailed(policy, p, items[..n], pid);
      assert forall i :: 0 <= i < n ==> items[..n][i] == items[i];
      assert items[n] == items[n];
    }
  }

  lemma FailsAtLast(policy: Policy, p: Progress, items: seq<Item>)
    requires items != [] && !VisitAll(policy, p, items[..|items| - 1]).failed
    ensures VisitAll(policy, p, items).failed <==> FailsAt(policy, p.seen, items, |items| - 1)
  {
    var n := |items| - 1;
    if !items[n].Unreadable? {
      SeenWhileNotFailed(policy, p, items[..n], items[n].e.pid);
      assert forall i :: 0 <= i < n ==> items[..n][i] == items[i];
    }
  }

  lemma {:induction false} FailsIff(policy: Policy, p: Progress, items: seq<Item>)
    requires !p.failed
    ensures VisitAll(policy, p, items).failed <==> exists k: nat :: FailsAt(policy, p.seen, items, k)
  {
    if items != [] {
      var n := |items| - 1;
      FailsIff(policy, p, items[..n]);
      forall k: nat | k < n ensures FailsAt(policy, p.seen, items[..n], k) <==> FailsAt(policy, p.seen, items, k) {
        FailsAtInPrefix(policy, p.seen, items, n, k);
      }
      if VisitAll(policy, p, items[..n]).failed {
        var k: nat :| FailsAt(policy, p.seen, items[..n], k);
        assert FailsAt(policy, p.seen, items, k);
      } else {
        FailsAtLast(policy, p, items);
      }
    }
  }

  lemma FailsAtInPrefix(policy: Policy, seen: set<nat>, items: seq<Item>, n: nat, k: nat)
    requires k < n <= |items|
    ensures FailsAt(policy, seen, items[..n], k) <==> FailsAt(policy, seen, items, k)
  {
    assert forall i :: 0 <= i < n ==> items[..n][i] == items[i];
  }

  /** A poll completes exactly if its iterator does and no look-up in it raises. */
  lemma CompletedByCause(policy: Policy, l: Loop, poll: Poll)
    ensures Completed(policy, l, poll) <==>
            poll.completes && !exists k: nat :: FailsAt(policy, l.seen, poll.items, k)
  {
    FailsIff(policy, Progress(l.seen, {}, l.worker, [], false), poll.items);
  }

  /** A completed poll leaves exactly the PIDs it read; an aborted one adds
      those it got to. */
  lemma SeenAfterPoll(policy: Policy, l: Loop, poll: Poll)
    ensures
      var p := PollOnce(policy, l, poll);
      AfterPoll(policy, l, poll).seen == if Completed(policy, l, poll) then p.current else l.seen + p.current
  {
    VisitedAreSeen(policy, Progress(l.seen, {}, l.worker, [], false), poll.items);
  }

  /** Some poll read the PID (or the first snapshot held it), and every poll
      completed since then read it too. */
  predicate RememberedFrom(policy: Policy, snapshot: set<nat>, polls: seq<Poll>, pid: nat, a: nat)
    requires a <= |polls|
  {
    && (if a == 0 then pid in snapshot else pid in ReadIn(policy, snapshot, polls, a - 1))
    && forall c :: a <= c < |polls| && CompletedAt(policy, snapshot, polls, c) ==>
                     pid in ReadIn(policy, snapshot, polls, c)
  }

  lemma PrefixRun(policy: Policy, snapshot: set<nat>, polls: seq<Poll>, k: nat, n: nat)
    requires k <= n <= |polls|
    ensures At(policy, snapshot, polls[..n], k) == At(policy, snapshot, polls, k)
  {
    assert polls[..n][..k] == polls[..k];
  }

  lemma {:induction false} SeenMeansRemembered(policy: Policy, snapshot: set<nat>, polls: seq<Poll>, pid: nat)
    returns (a: nat)
    requires pid in RunPolls(policy, snapshot, polls).seen
    ensures a <= |polls| && RememberedFrom(policy, snapshot, polls, pid, a)
  {
    if polls == [] {
      a := 0;
    } else {
      var n := |polls| - 1;
      var before := polls[..n];
      SeenAfterPoll(policy, At(policy, snapshot, polls, n), polls[n]);
      if pid in ReadIn(policy, snapshot, polls, n) &&
         (pid !in RunPolls(policy, snapshot, before).seen || CompletedAt(policy, snapshot, polls, n)) {
        a := n + 1;
      } else {
        a := SeenMeansRemembered(policy, snapshot, before, pid);
        forall k | 0 <= k <= n ensures At(policy, snapshot, before, k) == At(policy, snapshot, polls, k) {
          PrefixRun(policy, snapshot, polls, k, n);
        }
        assert forall c :: 0 <= c < n ==>
          (CompletedAt(policy, snapshot, before, c) <==> CompletedAt(policy, snapshot, polls, c));
      }
    }
  }

  lemma {:induction false} RememberedMeansSeen(
    policy: Policy, snapshot: set<nat>, polls: seq<Poll>, pid: nat, a: nat)
    requires a <= |polls| && RememberedFrom(policy, snapshot, polls, pid, a)
    ensures pid in RunPolls(policy, snapshot, polls).seen
    decreases |polls|
  {
    if polls != [] {
      var n := |polls| - 1;
      var before := polls[..n];
      SeenAfterPoll(policy, At(policy, snapshot, polls, n), polls[n]);
      if a <= n {
        forall k | 0 <= k <= n ensures At(policy, snapshot, before, k) == At(policy, snapshot, polls, k) {
          PrefixRun(policy, snapshot, polls, k, n);
        }
        assert forall c :: 0 <= c < n ==>
          (CompletedAt(policy, snapshot, before, c) <==> CompletedAt(policy, snapshot, polls, c));
        RememberedMeansSeen(policy, snapshot, before, pid, a);
        assert CompletedAt(policy, snapshot, polls, n) ==> pid in ReadIn(policy, snapshot, polls, n);
      }
    }
  }

  /** What the seen set means. */
  lemma SeenIffRemembered(policy: Policy, snapshot: set<nat>, polls: seq<Poll>, pid: nat)
    ensures pid in RunPolls(policy, snapshot, polls).seen <==>
            exists a :: 0 <= a <= |polls| && RememberedFrom(policy, snapshot, polls, pid, a)
  {
    if pid in RunPolls(policy, snapshot, polls).seen {
      var a := SeenMeansRemembered(policy, snapshot, polls, pid);
    }
    if a: nat :| a <= |polls| && RememberedFrom(policy, snapshot, polls, pid, a) {
      RememberedMeansSeen(policy, snapshot, polls, pid, a);
    }
  }

  lemma ActedWereNew(policy: Policy, snapshot: set<nat>, polls: seq<Poll>, n: nat, pid: nat)
    requires n < |polls| && ActsOn(policy, snapshot, polls, n, pid)
    ensures pid !in At(policy, snapshot, polls, n).seen && pid in ReadIn(policy, snapshot, polls, n)
  {
    var l := At(policy, snapshot, polls, n);
    VisitedAreSeen(policy, Progress(l.seen, {}, l.worker, [], false), polls[n].items);
  }

  /** A PID some poll got to read, whether it acted on it or failed at it, is acted
      on later only if a completed poll in between did not list it, that is, the
      process was gone. */
  lemma ReadThenActedMeansGoneBetween(
    policy: Policy, snapshot: set<nat>, polls: seq<Poll>, a: nat, b: nat, pid: nat)
    returns (c: nat)
    requires a < b < |polls|
    requires pid in ReadIn(policy, snapshot, polls, a) && ActsOn(policy, snapshot, polls, b, pid)
    ensures a < c < b && CompletedAt(policy, snapshot, polls, c) && pid !in ReadIn(policy, snapshot, polls, c)
  {
    ActedWereNew(policy, snapshot, polls, b, pid);
    var before := polls[..b];
    forall k | 0 <= k <= b ensures At(policy, snapshot, before, k) == At(policy, snapshot, polls, k) {
      PrefixRun(policy, snapshot, polls, k, b);
    }
    if forall c :: a < c < b && CompletedAt(policy, snapshot, polls, c) ==> pid in ReadIn(policy, snapshot, polls, c) {
      assert forall c :: 0 <= c < b ==>
        (CompletedAt(policy, snapshot, before, c) <==> CompletedAt(policy, snapshot, polls, c));
      RememberedMeansSeen(policy, snapshot, before, pid, a + 1);
      assert false;
    }
    c :| a < c < b && CompletedAt(policy, snapshot, polls, c) && pid !in ReadIn(policy, snapshot, polls, c);
  }

  /** So a PID is acted on twice only if it was gone in between. */
  lemma ActedTwiceMeansGoneBetween(
    policy: Policy, snapshot: set<nat>, polls: seq<Poll>, a: nat, b: nat, pid: nat)
    returns (c: nat)
    requires a < b < |polls|
    requires ActsOn(policy, snapshot, polls, a, pid) && ActsOn(policy, snapshot, polls, b, pid)
    ensures a < c < b && CompletedAt(policy, snapshot, polls, c) && pid !in ReadIn(policy, snapshot, polls, c)
  {
    ActedWereNew(policy, snapshot, polls, a, pid);
    c := ReadThenActedMeansGoneBetween(policy, snapshot, polls, a, b, pid);
  }

  /** The first entry of a PID that a poll gets to. */
  predicate FirstReached(policy: Policy, l: Loop, poll: Poll, k: nat) {
    && FirstEntry(poll.items, k)
    && !VisitAll(policy, Progress(l.seen, {}, l.worker, [], false), poll.items[..k]).failed
  }

  predicate FirstEntry(items: seq<Item>, k: nat) {
    && k < |items| && !items[k].Unreadable?
    && forall i :: 0 <= i < k && !items[i].Unreadable? ==> items[i].e.pid != items[k].e.pid
  }

  lemma {:induction false} ReadWhileNotFailed(policy: Policy, p: Progress, items: seq<Item>, pid: nat)
    requires !VisitAll(policy, p, items).failed
    ensures pid in VisitAll(policy, p, items).current <==>
            pid in p.current || exists i :: 0 <= i < |items| && !items[i].Unreadable? && items[i].e.pid == pid
  {
    if items != [] {
      var n := |items| - 1;
      ReadWhileNotFailed(policy, p, items[..n], pid);
      assert forall i :: 0 <= i < n ==> items[..n][i] == items[i];
      assert items[n] == items[n];
    }
  }

  lemma {:induction false} ReadIsReached(policy: Policy, p: Progress, items: seq<Item>, pid: nat)
    returns (k: nat)
    requires pid in VisitAll(policy, p, items).current && pid !in p.current
    ensures FirstEntry(items, k) && items[k].e.pid == pid && !VisitAll(policy, p, items[..k]).failed
  {
    var n := |items| - 1;
    var front := items[..n];
    assert forall i :: 0 <= i < n ==> front[i] == items[i];
    if pid in VisitAll(policy, p, front).current {
      k := ReadIsReached(policy, p, front, pid);
      assert front[..k] == items[..k];
    } else {
      k := n;
      ReadWhileNotFailed(policy, p, front, pid);
    }
  }

  /** What a poll got to read are the PIDs of the entries reached first. */
  lemma ReadIffReached(policy: Policy, snapshot: set<nat>, polls: seq<Poll>, n: nat, pid: nat)
    requires n < |polls|
    ensures pid in ReadIn(policy, snapshot, polls, n) <==>
            exists k: nat :: FirstReached(policy, At(policy, snapshot, polls, n), polls[n], k) &&
                             polls[n].items[k].e.pid == pid
  {
    var l, items := At(policy, snapshot, polls, n), polls[n].items;
    var p := Progress(l.seen, {}, l.worker, [], false);
    if pid in ReadIn(policy, snapshot, polls, n) {
      var k := ReadIsReached(policy, p, items, pid);
      assert FirstReached(policy, l, polls[n], k);
    }
    forall k: nat | FirstReached(policy, l, polls[n], k) ensures items[k].e.pid in ReadIn(policy, snapshot, polls, n) {
      assert items[..k + 1][..k] == items[..k];
      CurrentStays(policy, p, items, k + 1, items[k].e.pid);
    }
  }

  lemma {:induction false} UnreachedStaysNew(policy: Policy, p: Progress, items: seq<Item>, pid: nat)
    requires forall i :: 0 <= i < |items| && !items[i].Unreadable? ==> items[i].e.pid != pid
    ensures pid in VisitAll(policy, p, items).seen <==> pid in p.seen
  {
    if items != [] {
      UnreachedStaysNew(policy, p, items[..|items| - 1], pid);
    }
  }

  lemma {:induction false} SeenIsNotActedOn(policy: Policy, p: Progress, items: seq<Item>, k: nat, pid: nat)
    requires k <= |items| && pid in VisitAll(policy, p, items[..k]).seen
    ensures pid in VisitAll(policy, p, items).seen
    ensures pid in VisitAll(policy, p, items).acted <==> pid in VisitAll(policy, p, items[..k]).acted
    decreases |items|
  {
    if k == |items| {
      assert items[..k] == items;
    } else {
      assert items[..|items| - 1][..k] == items[..k];
      SeenIsNotActedOn(policy, p, items[..|items| - 1], k, pid);
    }
  }

  lemma {:induction false} CurrentStays(policy: Policy, p: Progress, items: seq<Item>, k: nat, pid: nat)
    requires k <= |items| && pid in VisitAll(policy, p, items[..k]).current
    ensures pid in VisitAll(policy, p, items).current
    decreases |items|
  {
    if k == |items| {
      assert items[..k] == items;
    } else {
      assert items[..|items| - 1][..k] == items[..k];
      CurrentStays(policy, p, items[..|items| - 1], k, pid);
    }
  }

  lemma {:induction false} UnreachedIsNotActedOn(policy: Policy, p: Progress, items: seq<Item>, pid: nat)
    requires forall i :: 0 <= i < |items| && !items[i].Unreadable? ==> items[i].e.pid != pid
    ensures pid in VisitAll(policy, p, items).acted <==> pid in p.acted
  {
    if items != [] {
      UnreachedIsNotActedOn(policy, p, items[..|items| - 1], pid);
    }
  }

  /** The PID is marked before its file is looked up: a new PID that a poll gets
      to is remembered in any case, and acted on exactly if it is admitted and
      its look-up does not raise. */
  lemma NewPidIsActedOnIff(policy: Policy, snapshot: set<nat>, polls: seq<Poll>, n: nat, k: nat)
    requires n < |polls| && FirstReached(policy, At(policy, snapshot, polls, n), polls[n], k)
    requires polls[n].items[k].e.pid !in At(policy, snapshot, polls, n).seen
    ensures
      var item := polls[n].items[k];
      && item.e.pid in ReadIn(policy, snapshot, polls, n)
      && (ActsOn(policy, snapshot, polls, n, item.e.pid) <==> item.Listed? && Admitted(policy, item.e))
  {
    var l := At(policy, snapshot, polls, n);
    var p := Progress(l.seen, {}, l.worker, [], false);
    var items := polls[n].items;
    var e := items[k].e;
    UnreachedStaysNew(policy, p, items[..k], e.pid);
    UnreachedIsNotActedOn(policy, p, items[..k], e.pid);
    assert items[..k + 1][..k] == items[..k];
    SeenIsNotActedOn(policy, p, items, k + 1, e.pid);
    CurrentStays(policy, p, items, k + 1, e.pid);
  }

  /** A process whose look-up raised is not looked at again while it lives: no
      later poll acts on its PID unless a completed poll in between missed it. */
  lemma FailedIsForgotten(policy: Policy, snapshot: set<nat>, polls: seq<Poll>, n: nat, k: nat, b: nat)
    requires n < b < |polls| && FirstReached(policy, At(policy, snapshot, polls, n), polls[n], k)
    requires polls[n].items[k].Failing? && polls[n].items[k].e.pid !in At(policy, snapshot, polls, n).seen
    requires forall c :: n < c < b && CompletedAt(policy, snapshot, polls, c) ==>
               polls[n].items[k].e.pid in ReadIn(policy, snapshot, polls, c)
    ensures !ActsOn(policy, snapshot, polls, n, polls[n].items[k].e.pid)
    ensures !ActsOn(policy, snapshot, polls, b, polls[n].items[k].e.pid)
  {
    NewPidIsActedOnIff(policy, snapshot, polls, n, k);
    if ActsOn(policy, snapshot, polls, b, polls[n].items[k].e.pid) {
      var c := ReadThenActedMeansGoneBetween(policy, snapshot, polls, n, b, polls[n].items[k].e.pid);
    }
  }

  // ---- the worker state of a polled run is a run of events ----

  /** The events the loop passes on, in order. */
  function Handled(policy: Policy, p: Progress, items: seq<Item>): seq<Event> {
    if items == [] then []
    else
      var n := |items| - 1;
      var q := VisitAll(policy, p, items[..n]);
      Handled(policy, p, items[..n]) +
      if PassesOn(q, items[n]) then [items[n].e] else []
  }

  function Fold(policy: Policy, s: State, es: seq<Event>): State {
    if es == [] then s else Step(policy, Fold(policy, s, es[..|es| - 1]), es[|es| - 1])
  }

  lemma {:induction false} VisitsFoldEvents(policy: Policy, p: Progress, items: seq<Item>)
    ensures VisitAll(policy, p, items).worker == Fold(policy, p.worker, Handled(policy, p, items))
  {
    if items != [] {
      var n := |items| - 1;
      VisitsFoldEvents(policy, p, items[..n]);
      var q := VisitAll(policy, p, items[..n]);
      VisitOneFolds(policy, q, items[n], p.worker, Handled(policy, p, items[..n]));
    }
  }

  predicate PassesOn(q: Progress, item: Item) {
    !q.failed && item.Listed? && item.e.pid !in q.seen
  }

  lemma VisitOneFolds(policy: Policy, q: Progress, item: Item, start: State, before: seq<Event>)
    requires q.worker == Fold(policy, start, before)
    ensures Visit(policy, q, item).worker ==
            Fold(policy, start, before + if PassesOn(q, item) then [item.e] else [])
  {
    if PassesOn(q, item) {
      assert (before + [item.e])[..|before|] == before;
      assert Screened(policy, item.e) ==> Step(policy, q.worker, item.e) == q.worker;
    } else {
      assert before + [] == before;
    }
  }

  lemma {:induction false} FoldOnRun(policy: Policy, es: seq<Event>, more: seq<Event>)
    ensures Fold(policy, Run(policy, es), more) == Run(policy, es + more)
  {
    if more == [] {
      assert es + more == es;
    } else {
      var n := |more| - 1;
      FoldOnRun(policy, es, more[..n]);
      assert (es + more)[..|es| + n] == es + more[..n];
    }
  }

  /** All events the polls pass on, poll after poll. */
  function HandledInRun(policy: Policy, snapshot: set<nat>, polls: seq<Poll>): seq<Event> {
    if polls == [] then []
    else
      var n := |polls| - 1;
      HandledInRun(policy, snapshot, polls[..n]) +
      Handled(policy, Opening(RunPolls(policy, snapshot, polls[..n])), polls[n].items)
  }

  function Opening(l: Loop): Progress {
    Progress(l.seen, {}, l.worker, [], false)
  }

  /** So everything proved of runs holds of the polling loop, event by event. */
  lemma {:induction false} PolledRunIsARun(policy: Policy, snapshot: set<nat>, polls: seq<Poll>)
    ensures RunPolls(policy, snapshot, polls).worker == Run(policy, HandledInRun(policy, snapshot, polls))
  {
    if polls != [] {
      var n := |polls| - 1;
      PolledRunIsARun(policy, snapshot, polls[..n]);
      var p := Opening(RunPolls(policy, snapshot, polls[..n]));
      VisitsFoldEvents(policy, p, polls[n].items);
      FoldOnRun(policy, HandledInRun(policy, snapshot, polls[..n]), Handled(policy, p, polls[n].items));
    }
  }

  /** The PIDs of the admitted ones among some events. */
  function AdmittedPids(policy: Policy, es: seq<Event>): seq<nat> {
    if es == [] then []
    else
      var n := |es| - 1;
      AdmittedPids(policy, es[..n]) + if Admitted(policy, es[n]) then [es[n].pid] else []
  }

  /** What a poll passes on was listed in it, and what it acts on are the admitted
      ones of these events, in order. */
  lemma {:induction false} HandledWereListed(policy: Policy, p: Progress, items: seq<Item>)
    ensures forall e :: e in Handled(policy, p, items) ==> Listed(e) in items
    ensures VisitAll(policy, p, items).acted == p.acted + AdmittedPids(policy, Handled(policy, p, items))
  {
    HandledAreItems(policy, p, items);
    ActedAreAdmitted(policy, p, items);
  }

  lemma {:induction false} HandledAreItems(policy: Policy, p: Progress, items: seq<Item>)
    ensures forall e :: e in Handled(policy, p, items) ==> Listed(e) in items
  {
    if items != [] {
      var n := |items| - 1;
      HandledAreItems(policy, p, items[..n]);
      assert items == items[..n] + [items[n]];
    }
  }

  lemma {:induction false} ActedAreAdmitted(policy: Policy, p: Progress, items: seq<Item>)
    ensures VisitAll(policy, p, items).acted == p.acted + AdmittedPids(policy, Handled(policy, p, items))
  {
    if items != [] {
      var n := |items| - 1;
      ActedAreAdmitted(policy, p, items[..n]);
      ActedOneMore(policy, p, items);
      VisitActs(policy, VisitAll(policy, p, items[..n]), items[n], Handled(policy, p, items[..n]));
    }
  }

  lemma ActedOneMore(policy: Policy, p: Progress, items: seq<Item>)
    requires items != []
    ensures
      var n := |items| - 1;
      var q := VisitAll(policy, p, items[..n]);
      && VisitAll(policy, p, items) == Visit(policy, q, items[n])
      && Handled(policy, p, items) ==
         Handled(policy, p, items[..n]) + if PassesOn(q, items[n]) then [items[n].e] else []
  {
  }

  lemma VisitActs(policy: Policy, q: Progress, item: Item, before: seq<Event>)
    ensures
      var passed := PassesOn(q, item);
      && Visit(policy, q, item).acted == q.acted + (if passed && Admitted(policy, item.e) then [item.e.pid] else [])
      && AdmittedPids(policy, before + if passed then [item.e] else []) ==
         AdmittedPids(policy, before) + (if passed && Admitted(policy, item.e) then [item.e.pid] else [])
  {
    if PassesOn(q, item) {
      assert (before + [item.e])[..|before|] == before;
    } else {
      assert before + [] == before;
    }
  }

  lemma {:induction false} PolledEventsWereListed(
    policy: Policy, snapshot: set<nat>, polls: seq<Poll>, e: Event) returns (n: nat)
    requires e in HandledInRun(policy, snapshot, polls)
    ensures n < |polls| && Listed(e) in polls[n].items
    ensures e in Handled(policy, Opening(At(policy, snapshot, polls, n)), polls[n].items)
  {
    var m := |polls| - 1;
    var p := Opening(RunPolls(policy, snapshot, polls[..m]));
    if e in Handled(policy, p, polls[m].items) {
      HandledWereListed(policy, p, polls[m].items);
      n := m;
    } else {
      n := PolledEventsWereListed(policy, snapshot, polls[..m], e);
      assert polls[..m][..n] == polls[..n];
    }
  }
}
