/** The bridge object that labels detections, and its FIFO dialogue with the
    worker: backend/core/realtime_protection.py, lines 1417-1428, 1836-1837 and
    2147-2179. */
module RtpBridge {
  import opened Wrappers
  import opened Text
  import opened RtpPlan
  import opened RtpSpec
  import opened RtpRuns
  import opened RtpDisplay

  datatype Mark = FlaggedMark | BlockedMark
  datatype Outcome = AllowedOutcome | FlaggedOutcome | BlockedOutcome
  datatype LogLine = LogLine(time: string, outcome: Outcome, name: string, pid: string)

  /** The two signals the labels depend on. */
  datatype Signal = ThreatText(text: string) | ProcessSeen(time: string, name: string, pid: string)

  datatype Bridge = Bridge(outcomes: map<string, Mark>, eventLog: seq<LogLine>)

  const QUIET := Bridge(map[], [])

  function MarkIn(text: string): Option<Mark> {
    if Contains(text, LOG_MARK) then Some(FlaggedMark)
    else if Contains(text, KILL_MARK) then Some(BlockedMark)
    else None
  }

  function OutcomeOf(outcomes: map<string, Mark>, pid: string): Outcome {
    if pid !in outcomes then AllowedOutcome
    else match outcomes[pid]
         case BlockedMark => BlockedOutcome
         case FlaggedMark => FlaggedOutcome
  }

  function Receive(b: Bridge, signal: Signal): Bridge {
    match signal
    case ThreatText(text) =>
      var pid := FirstPid(text);
      var mark := MarkIn(text);
      if pid.Some? && mark.Some? then b.(outcomes := b.outcomes[pid.value := mark.value]) else b
    case ProcessSeen(time, name, pid) =>
      Bridge(b.outcomes - {pid}, b.eventLog + [LogLine(time, OutcomeOf(b.outcomes, pid), name, pid)])
  }

  /** What the worker puts on the queue, and the text it becomes. */
  datatype Sent = ThreatSent(display: Display) | ProcessSent(time: string, name: string, pid: nat)

  function AsSignal(sent: Sent): Signal {
    match sent
    case ThreatSent(d) => ThreatText(Message(d))
    case ProcessSent(time, name, pid) => ProcessSeen(time, name, Digits(pid))
  }

  /** FIFO delivery. */
  function ReceiveAll(b: Bridge, queue: seq<Sent>): Bridge {
    if queue == [] then b
    else Receive(ReceiveAll(b, queue[..|queue| - 1]), AsSignal(queue[|queue| - 1]))
  }

  class RealTimeProtectionBridge {
    var processOutcomes: map<string, Mark>
    var eventLog: seq<LogLine>

    constructor ()
      ensures Abs() == QUIET
    {
      processOutcomes, eventLog := map[], [];
    }

    function Abs(): Bridge
      reads this
    {
      Bridge(processOutcomes, eventLog)
    }

    /** `_on_threat` */
    method OnThreat(message: string)
      modifies this
      ensures Abs() == Receive(old(Abs()), ThreatText(message))
    {
      var pid := FirstPid(message);
      if pid == None {
        return;
      }
      if Contains(message, LOG_MARK) {
        processOutcomes := processOutcomes[pid.value := FlaggedMark];
      } else if Contains(message, KILL_MARK) {
        processOutcomes := processOutcomes[pid.value := BlockedMark];
      }
    }

    /** `_on_process_detected` */
    method OnProcessDetected(time: string, name: string, pid: string)
      modifies this
      ensures Abs() == Receive(old(Abs()), ProcessSeen(time, name, pid))
    {
      var outcome := AllowedOutcome;
      if pid in processOutcomes {
        if processOutcomes[pid] == BlockedMark {
          outcome := BlockedOutcome;
        } else {
          outcome := FlaggedOutcome;
        }
        processOutcomes := processOutcomes - {pid};
      }
      eventLog := eventLog + [LogLine(time, outcome, name, pid)];
    }
  }

  // ---- what the worker sends ----

  function TranslateOne(effect: Effect, texts: Texts): seq<Sent> {
    match effect
    case ThreatSignal(t) => [ThreatSent(Display(t.name, t.pid, t.plan.process, texts.(path := t.path)))]
    case DetectedSignal(time, name, pid) => [ProcessSent(time, name, pid)]
    case _ => []
  }

  function Translate(effects: seq<Effect>, texts: Texts): seq<Sent> {
    if effects == [] then [] else TranslateOne(effects[0], texts) + Translate(effects[1..], texts)
  }

  lemma {:induction false} TranslateAppend(a: seq<Effect>, b: seq<Effect>, texts: Texts)
    ensures Translate(a + b, texts) == Translate(a, texts) + Translate(b, texts)
  {
    if a == [] {
      assert a + b == b;
    } else {
      assert (a + b)[1..] == a[1..] + b;
      TranslateAppend(a[1..], b, texts);
      var one := TranslateOne(a[0], texts);
      assert one + (Translate(a[1..], texts) + Translate(b, texts)) ==
             one + Translate(a[1..], texts) + Translate(b, texts);
    }
  }

  lemma TranslateWhen(w: bool, x: Effect, texts: Texts)
    ensures Translate(When(w, x), texts) == if w then TranslateOne(x, texts) else []
  {
  }

  /** Only the enforcement and the detection leave signals. */
  lemma TranslateSandwich(
    v: bool, a: Effect, b: seq<Effect>, c: Effect, w: bool, d: Effect, texts: Texts)
    requires TranslateOne(a, texts) == [] && TranslateOne(d, texts) == []
    ensures Translate(When(v, a) + b + [c] + When(w, d), texts) ==
            Translate(b, texts) + TranslateOne(c, texts)
  {
    TranslateAppend(When(v, a) + b + [c], When(w, d), texts);
    TranslateAppend(When(v, a) + b, [c], texts);
    TranslateAppend(When(v, a), b, texts);
    TranslateWhen(v, a, texts);
    TranslateWhen(true, c, texts);
    TranslateWhen(w, d, texts);
  }

  /** The signals of one event, in the order they are emitted. */
  function SignalsOf(policy: Policy, cache: Cache, e: Event, texts: Texts): seq<Sent> {
    ThreatSignals(policy, cache, e, texts) +
    (if Admitted(policy, e) then [ProcessSent(e.time, e.name, e.pid)] else [])
  }

  function ThreatSignals(policy: Policy, cache: Cache, e: Event, texts: Texts): seq<Sent> {
    if Flags(policy, cache, e) then [ThreatSent(DisplayOf(policy, cache, e, texts))] else []
  }

  function DisplayOf(policy: Policy, cache: Cache, e: Event, texts: Texts): Display {
    Display(e.name, e.pid, PlanFor(policy, cache, e).process, texts.(path := e.path))
  }

  lemma AroundAsSignals(
    scanned: bool, count: nat, e: Event, b: seq<Effect>, t: State, texts: Texts)
    ensures Translate(Around(scanned, count, e, b, t), texts) ==
            Translate(b, texts) + [ProcessSent(e.time, e.name, e.pid)]
  {
    TranslateSandwich(scanned, Scanning(count, e.name, e.pid), b, DetectedSignal(e.time, e.name, e.pid),
                      scanned && t.scanned % 10 == 0, StatsSignal(t.scanned, t.found, t.killed), texts);
  }

  lemma EffectsAsSignals(policy: Policy, s: State, e: Event, t: State, texts: Texts)
    ensures Translate(EffectsUpTo(policy, s, e, t), texts) == SignalsOf(policy, s.cache, e, texts)
  {
    if Admitted(policy, e) {
      AdmittedAsSignals(policy, s, e, t, texts);
    } else {
      UninspectedHasNoEnforcement(policy, s.cache, e);
    }
  }

  lemma AdmittedAsSignals(policy: Policy, s: State, e: Event, t: State, texts: Texts)
    requires Admitted(policy, e)
    ensures Translate(EffectsUpTo(policy, s, e, t), texts) ==
            ThreatSignals(policy, s.cache, e, texts) + [ProcessSent(e.time, e.name, e.pid)]
  {
    EffectsOfAdmitted(policy, s, e, t);
    EnforcementAsSignals(policy, s.cache, e, texts);
    AroundAsSignals(Inspected(policy, e) && !Hit(s.cache, e), s.scanned + 1, e,
                    EnforceEffects(policy, s.cache, e), t, texts);
  }

  lemma EnforcementAsSignals(policy: Policy, cache: Cache, e: Event, texts: Texts)
    ensures Translate(EnforceEffects(policy, cache, e), texts) == ThreatSignals(policy, cache, e, texts)
  {
    var a := When(Kills(policy, cache, e), KillCall(e.pid, if e.live.Live? then e.live.kill else KillFailed));
    var b := When(Quarantines(policy, cache, e), QuarantineCall(e.path));
    var c := When(Flags(policy, cache, e), ThreatSignal(ThreatOf(policy, cache, e)));
    TranslateAppend(a + b, c, texts);
    TranslateAppend(a, b, texts);
  }

  /** All signals of a run; `texts[i]` are the free texts of event `i`. */
  function SignalsOfRun(policy: Policy, es: seq<Event>, texts: seq<Texts>): seq<Sent>
    requires |texts| == |es|
  {
    if es == [] then []
    else
      var n := |es| - 1;
      SignalsOfRun(policy, es[..n], texts[..n]) + SignalsOf(policy, Run(policy, es[..n]).cache, es[n], texts[n])
  }

  // ---- the labels ----

  /** The plan's own label. */
  function LabelOf(plan: Plan): Outcome {
    match plan.process
    case KillProcess => BlockedOutcome
    case LogOnly => FlaggedOutcome
    case Allow => AllowedOutcome
  }

  ghost predicate OtherLineSays(d: Display, mark: string) {
    exists l :: (l in Above(d) || l in LinesBelow(d) || l in LinesAfterAction(d)) && Contains(l, mark)
  }

  /** A text of a kill that imitates the log-only marker in another line. */
  ghost predicate ImitatesLogOnly(d: Display) {
    d.action == KillProcess && OtherLineSays(d, LOG_MARK)
  }

  lemma MarkReadBack(d: Display)
    requires d.action != Allow
    ensures MarkIn(Message(d)) ==
            Some(if d.action == LogOnly || OtherLineSays(d, LOG_MARK) then FlaggedMark else BlockedMark)
  {
    MarkIsOneLine();
    var lines := Above(d) + (LinesBelow(d) + [ActionLine(d.action)] + LinesAfterAction(d));
    ContainsInLines('\n', lines, LOG_MARK);
    ContainsInLines('\n', lines, KILL_MARK);
    ActionLineMarks(d.action);
    LinesOf(d);
  }

  lemma LinesOf(d: Display)
    ensures forall l :: l in Above(d) + (LinesBelow(d) + [ActionLine(d.action)] + LinesAfterAction(d)) <==>
              l in Above(d) || l in LinesBelow(d) || l in LinesAfterAction(d) || l == ActionLine(d.action)
  {
  }

  ghost function ReadMark(d: Display): Mark {
    if d.action == LogOnly || OtherLineSays(d, LOG_MARK) then FlaggedMark else BlockedMark
  }

  function ShownLine(e: Event, outcome: Outcome): LogLine {
    LogLine(e.time, outcome, e.name, Digits(e.pid))
  }

  /** The label a flagged event gets. */
  ghost function ShownLabel(d: Display): Outcome {
    if ReadMark(d) == FlaggedMark then FlaggedOutcome else BlockedOutcome
  }

  /** What a flagged event does to a bridge, whatever is pending there: its mark is
      kept under its own PID and used up by its own line. */
  lemma FlaggedEventReceived(policy: Policy, cache: Cache, e: Event, texts: Texts, b: Bridge)
    requires Flags(policy, cache, e) && '(' !in texts.header
    ensures
      var d := DisplayOf(policy, cache, e, texts);
      && ReceiveAll(b, SignalsOf(policy, cache, e, texts)[..1]) ==
         b.(outcomes := b.outcomes[Digits(e.pid) := ReadMark(d)])
      && ReceiveAll(b, SignalsOf(policy, cache, e, texts)) ==
         Bridge(b.outcomes - {Digits(e.pid)}, b.eventLog + [ShownLine(e, ShownLabel(d))])
  {
    var d := DisplayOf(policy, cache, e, texts);
    PidReadBack(d);
    MarkReadBack(d);
    TwoReceived(b, ThreatSent(d), ProcessSent(e.time, e.name, e.pid));
    assert SignalsOf(policy, cache, e, texts) == [ThreatSent(d)] + [ProcessSent(e.time, e.name, e.pid)];
    assert b.outcomes[Digits(e.pid) := ReadMark(d)] - {Digits(e.pid)} == b.outcomes - {Digits(e.pid)};
  }

  lemma TwoReceived(b: Bridge, x: Sent, y: Sent)
    ensures ReceiveAll(b, ([x] + [y])[..1]) == Receive(b, AsSignal(x))
    ensures ReceiveAll(b, [x] + [y]) == Receive(Receive(b, AsSignal(x)), AsSignal(y))
  {
    assert ([x] + [y])[..1] == [x];
    OneReceived(b, x);
  }

  lemma OneReceived(b: Bridge, x: Sent)
    ensures ReceiveAll(b, [x]) == Receive(b, AsSignal(x))
  {
    assert [x][..0] == [];
  }

  /** What any other event does. */
  lemma PlainEventReceived(policy: Policy, cache: Cache, e: Event, texts: Texts, b: Bridge)
    requires !Flags(policy, cache, e)
    ensures ReceiveAll(b, SignalsOf(policy, cache, e, texts)) ==
            if Admitted(policy, e)
            then Bridge(b.outcomes - {Digits(e.pid)}, b.eventLog + [ShownLine(e, OutcomeOf(b.outcomes, Digits(e.pid)))])
            else b
  {
    var sent := ProcessSent(e.time, e.name, e.pid);
    if Admitted(policy, e) {
      assert SignalsOf(policy, cache, e, texts) == [sent];
      OneReceived(b, sent);
    } else {
      assert SignalsOf(policy, cache, e, texts) == [];
    }
  }

  /** A flagged event is labelled by its own plan, whatever came before, if and only
      if its text does not imitate the log-only marker. */
  lemma LabelIsRightIff(policy: Policy, cache: Cache, e: Event, texts: Texts, b: Bridge)
    requires Flags(policy, cache, e) && '(' !in texts.header
    ensures ReceiveAll(b, SignalsOf(policy, cache, e, texts)).eventLog ==
            b.eventLog + [ShownLine(e, LabelOf(PlanFor(policy, cache, e)))] <==>
            !ImitatesLogOnly(DisplayOf(policy, cache, e, texts))
  {
    var d := DisplayOf(policy, cache, e, texts);
    FlaggedEventReceived(policy, cache, e, texts, b);
    SameLastLine(b.eventLog, ShownLine(e, ShownLabel(d)), ShownLine(e, LabelOf(PlanFor(policy, cache, e))));
  }

  lemma ContainsBehind(front: string, s: string, mark: string)
    requires Contains(s, mark)
    ensures Contains(front + s, mark)
  {
    var i :| 0 <= i <= |s| && mark <= s[i..];
    assert (front + s)[|front| + i..] == s[i..];
  }

  /** A file whose path holds the marker does imitate it: its kill is shown as
      flagged. */
  lemma PathImitates(policy: Policy, cache: Cache, e: Event, texts: Texts, b: Bridge)
    requires Flags(policy, cache, e) && PlanFor(policy, cache, e).process == KillProcess
    requires '(' !in texts.header && Contains(e.path, LOG_MARK)
    ensures ReceiveAll(b, SignalsOf(policy, cache, e, texts)).eventLog ==
            b.eventLog + [ShownLine(e, FlaggedOutcome)]
    ensures LabelOf(PlanFor(policy, cache, e)) == BlockedOutcome
  {
    var d := DisplayOf(policy, cache, e, texts);
    ContainsBehind("   Path    : ", e.path, LOG_MARK);
    assert LinesBelow(d)[0] == "   Path    : " + e.path;
    FlaggedEventReceived(policy, cache, e, texts, b);
  }

  // ---- whole runs ----

  /** The line each admitted event should produce. */
  function LinesOfRun(policy: Policy, es: seq<Event>): seq<LogLine> {
    if es == [] then []
    else
      var n := |es| - 1;
      LinesOfRun(policy, es[..n]) + RightLine(policy, Run(policy, es[..n]).cache, es[n])
  }

  function RightLine(policy: Policy, cache: Cache, e: Event): seq<LogLine> {
    if !Admitted(policy, e) then []
    else [ShownLine(e, if Trusted(policy, e) then AllowedOutcome else LabelOf(PlanFor(policy, cache, e)))]
  }

  predicate FlaggedAt(policy: Policy, es: seq<Event>, i: nat)
    requires i < |es|
  {
    Flags(policy, Run(policy, es[..i]).cache, es[i])
  }

  function DisplayAt(policy: Policy, es: seq<Event>, texts: seq<Texts>, i: nat): Display
    requires |texts| == |es| && i < |es|
  {
    DisplayOf(policy, Run(policy, es[..i]).cache, es[i], texts[i])
  }

  /** The heading is an icon, a time and two words. */
  predicate PlainHeaders(texts: seq<Texts>) {
    forall i :: 0 <= i < |texts| ==> '(' !in texts[i].header
  }

  /** No text of a kill imitates the log-only marker. */
  ghost predicate NoneImitates(policy: Policy, es: seq<Event>, texts: seq<Texts>)
    requires |texts| == |es|
  {
    forall i :: 0 <= i < |es| ==> !ImitatesAt(policy, es, texts, i)
  }

  ghost predicate ImitatesAt(policy: Policy, es: seq<Event>, texts: seq<Texts>, i: nat)
    requires |texts| == |es| && i < |es|
  {
    FlaggedAt(policy, es, i) && ImitatesLogOnly(DisplayAt(policy, es, texts, i))
  }

  /** The bridge after a whole run. */
  function BridgeAfter(policy: Policy, es: seq<Event>, texts: seq<Texts>): Bridge
    requires |texts| == |es|
  {
    ReceiveAll(QUIET, SignalsOfRun(policy, es, texts))
  }

  lemma {:induction false} ReceiveAppend(b: Bridge, x: seq<Sent>, y: seq<Sent>)
    ensures ReceiveAll(b, x + y) == ReceiveAll(ReceiveAll(b, x), y)
  {
    if y == [] {
      assert x + y == x;
    } else {
      assert (x + y)[..|x + y| - 1] == x + y[..|y| - 1];
      ReceiveAppend(b, x, y[..|y| - 1]);
    }
  }

  lemma BridgeAfterOneMore(policy: Policy, es: seq<Event>, texts: seq<Texts>)
    requires |texts| == |es| && es != []
    ensures
      var n := |es| - 1;
      BridgeAfter(policy, es, texts) ==
      ReceiveAll(BridgeAfter(policy, es[..n], texts[..n]),
                 SignalsOf(policy, Run(policy, es[..n]).cache, es[n], texts[n]))
  {
    var n := |es| - 1;
    ReceiveAppend(QUIET, SignalsOfRun(policy, es[..n], texts[..n]),
                  SignalsOf(policy, Run(policy, es[..n]).cache, es[n], texts[n]));
  }

  /** One event seen from a bridge with nothing pending: it leaves nothing pending,
      and adds the right lines unless its text imitates. */
  lemma OneEventReceived(policy: Policy, cache: Cache, e: Event, texts: Texts, b: Bridge)
    returns (lines: seq<LogLine>)
    requires '(' !in texts.header && b.outcomes == map[]
    ensures ReceiveAll(b, SignalsOf(policy, cache, e, texts)) == Bridge(map[], b.eventLog + lines)
    ensures |lines| == |RightLine(policy, cache, e)|
    ensures lines == RightLine(policy, cache, e) <==>
            !(Flags(policy, cache, e) && ImitatesLogOnly(DisplayOf(policy, cache, e, texts)))
  {
    if Flags(policy, cache, e) {
      FlaggedEventReceived(policy, cache, e, texts, b);
      lines := [ShownLine(e, ShownLabel(DisplayOf(policy, cache, e, texts)))];
    } else {
      PlainEventReceived(policy, cache, e, texts, b);
      lines := if Admitted(policy, e) then [ShownLine(e, AllowedOutcome)] else [];
    }
  }

  lemma SameLastLine(log: seq<LogLine>, x: LogLine, y: LogLine)
    ensures log + [x] == log + [y] <==> x == y
  {
    assert (log + [x])[|log|] == x && (log + [y])[|log|] == y;
  }

  lemma SameEnds(a: seq<LogLine>, b: seq<LogLine>, x: seq<LogLine>, y: seq<LogLine>)
    requires |a| == |b| && |x| == |y|
    ensures a + x == b + y <==> a == b && x == y
  {
    assert (a + x)[..|a|] == a && (a + x)[|a|..] == x;
    assert (b + y)[..|b|] == b && (b + y)[|b|..] == y;
  }

  lemma ImitatesInPrefix(policy: Policy, es: seq<Event>, texts: seq<Texts>, n: nat, i: nat)
    requires |texts| == |es| && i < n <= |es|
    ensures ImitatesAt(policy, es[..n], texts[..n], i) == ImitatesAt(policy, es, texts, i)
  {
    assert es[..n][..i] == es[..i];
  }

  lemma ImitatesLast(policy: Policy, es: seq<Event>, texts: seq<Texts>)
    requires |texts| == |es| && es != []
    ensures
      var n := |es| - 1;
      var cache := Run(policy, es[..n]).cache;
      ImitatesAt(policy, es, texts, n) <==>
      Flags(policy, cache, es[n]) && ImitatesLogOnly(DisplayOf(policy, cache, es[n], texts[n]))
  {
  }

  lemma NoneImitatesOneMore(policy: Policy, es: seq<Event>, texts: seq<Texts>)
    requires |texts| == |es| && es != []
    ensures NoneImitates(policy, es, texts) <==>
            NoneImitates(policy, es[..|es| - 1], texts[..|es| - 1]) && !ImitatesAt(policy, es, texts, |es| - 1)
  {
    var n := |es| - 1;
    forall i | 0 <= i < n ensures ImitatesAt(policy, es[..n], texts[..n], i) == ImitatesAt(policy, es, texts, i) {
      ImitatesInPrefix(policy, es, texts, n, i);
    }
  }

  /** Over every run, nothing stays pending between events, and the detection lines
      are those of the events' own plans if and only if no text of a kill imitates
      the log-only marker. */
  lemma {:induction false} LabelsMatchPlans(policy: Policy, es: seq<Event>, texts: seq<Texts>)
    requires |texts| == |es| && PlainHeaders(texts)
    ensures BridgeAfter(policy, es, texts).outcomes == map[]
    ensures BridgeAfter(policy, es, texts).eventLog == LinesOfRun(policy, es) <==> NoneImitates(policy, es, texts)
    ensures |BridgeAfter(policy, es, texts).eventLog| == |LinesOfRun(policy, es)|
  {
    if es != [] {
      var n := |es| - 1;
      var cache := Run(policy, es[..n]).cache;
      var before := BridgeAfter(policy, es[..n], texts[..n]);
      LabelsMatchPlans(policy, es[..n], texts[..n]);
      NoneImitatesOneMore(policy, es, texts);
      ImitatesLast(policy, es, texts);
      BridgeAfterOneMore(policy, es, texts);
      var lines := OneEventReceived(policy, cache, es[n], texts[n], before);
      SameEnds(before.eventLog, LinesOfRun(policy, es[..n]), lines, RightLine(policy, cache, es[n]));
    }
  }

  // ---- at most one pending PID ----

  predicate OneDuring(b: Bridge, queue: seq<Sent>) {
    forall k :: 0 <= k <= |queue| ==> |ReceiveAll(b, queue[..k]).outcomes| <= 1
  }

  lemma OneDuringEvent(policy: Policy, cache: Cache, e: Event, texts: Texts, b: Bridge)
    requires '(' !in texts.header && b.outcomes == map[]
    ensures OneDuring(b, SignalsOf(policy, cache, e, texts))
  {
    var last := SignalsOf(policy, cache, e, texts);
    assert last[..0] == [] && last[..|last|] == last;
    AtMostTwoSignals(policy, cache, e, texts);
    var lines := OneEventReceived(policy, cache, e, texts, b);
    if Flags(policy, cache, e) {
      FlaggedEventReceived(policy, cache, e, texts, b);
    }
  }

  lemma AtMostTwoSignals(policy: Policy, cache: Cache, e: Event, texts: Texts)
    ensures |SignalsOf(policy, cache, e, texts)| ==
            if Flags(policy, cache, e) then 2 else if Admitted(policy, e) then 1 else 0
  {
  }

  lemma OneDuringTwo(b: Bridge, x: seq<Sent>, y: seq<Sent>)
    requires OneDuring(b, x) && OneDuring(ReceiveAll(b, x), y)
    ensures OneDuring(b, x + y)
  {
    forall k | 0 <= k <= |x + y| ensures |ReceiveAll(b, (x + y)[..k]).outcomes| <= 1 {
      if k <= |x| {
        assert (x + y)[..k] == x[..k];
      } else {
        assert (x + y)[..k] == x + y[..k - |x|];
        ReceiveAppend(b, x, y[..k - |x|]);
      }
    }
  }

  /** Over every run, at most one PID is pending at every moment of the delivery. */
  lemma {:induction false} AtMostOnePending(policy: Policy, es: seq<Event>, texts: seq<Texts>)
    requires |texts| == |es| && PlainHeaders(texts)
    ensures OneDuring(QUIET, SignalsOfRun(policy, es, texts))
  {
    if es != [] {
      var n := |es| - 1;
      var cache := Run(policy, es[..n]).cache;
      AtMostOnePending(policy, es[..n], texts[..n]);
      LabelsMatchPlans(policy, es[..n], texts[..n]);
      OneDuringEvent(policy, cache, es[n], texts[n], BridgeAfter(policy, es[..n], texts[..n]));
      OneDuringTwo(QUIET, SignalsOfRun(policy, es[..n], texts[..n]), SignalsOf(policy, cache, es[n], texts[n]));
    }
  }

  /** The queue of a run is what its log leaves on the two signals. */
  lemma {:induction false} QueueComesFromLog(policy: Policy, es: seq<Event>, texts: Texts)
    ensures Translate(Run(policy, es).log, texts) ==
            SignalsOfRun(policy, es, seq(|es|, i requires 0 <= i < |es| => texts))
  {
    if es != [] {
      var n := |es| - 1;
      var s := Run(policy, es[..n]);
      QueueComesFromLog(policy, es[..n], texts);
      LogGrows(policy, s, es[n]);
      TranslateAppend(s.log, EventEffects(policy, s, es[n]), texts);
      EffectsAsSignals(policy, s, es[n], Step(policy, s, es[n]), texts);
      assert seq(|es|, i requires 0 <= i < |es| => texts)[..n] == seq(n, i requires 0 <= i < n => texts);
    }
  }
}
