/** The threat text the worker sends and what the bridge reads back out of it:
    backend/core/realtime_protection.py, lines 125-154 and 2147-2179. */
module RtpDisplay {
  import opened Wrappers
  import opened Text
  import opened RtpPlan

  predicate AllDigits(s: string) {
    forall i :: 0 <= i < |s| ==> '0' <= s[i] <= '9'
  }

  function Digits(n: nat): (s: string)
    ensures s != "" && AllDigits(s)
  {
    (if n < 10 then "" else Digits(n / 10)) + [(n % 10) as char + '0']
  }

  /** Everything in the text that is not the PID or the process action. */
  datatype Texts = Texts(
    header: string, path: string, verdict: string, rules: string, score: string, decision: string,
    fileAction: string, reason: string, result: string, fileResult: string, publisher: string,
    signature: string)

  datatype Display = Display(name: ProcessName, pid: nat, action: ProcessAction, texts: Texts)

  function ActionText(a: ProcessAction): string {
    match a
    case Allow => "ALLOW"
    case LogOnly => "LOG_ONLY"
    case KillProcess => "KILL_PROCESS"
  }

  function ActionLine(a: ProcessAction): string { "   Process Action: " + ActionText(a) }

  function ProcessLine(name: string, pid: nat): string {
    "   Process : " + name + " (PID " + Digits(pid) + ")"
  }

  function LinesBelow(d: Display): seq<string> {
    [ "   Path    : " + d.texts.path,
      "   Verdict : " + d.texts.verdict,
      "   Rules   : " + d.texts.rules,
      "   Score   : " + d.texts.score + "/100",
      "   Decision: " + d.texts.decision ]
  }

  function LinesAfterAction(d: Display): seq<string> {
    [ "   File Action   : " + d.texts.fileAction,
      "   Reason  : " + d.texts.reason,
      "   Result  : " + d.texts.result,
      "   File Result: " + d.texts.fileResult,
      "   Publisher: " + d.texts.publisher,
      "   Signature: " + d.texts.signature ]
  }

  function Above(d: Display): seq<string> {
    [d.texts.header, ProcessLine(d.name, d.pid)]
  }

  /** `to_display_string` */
  function Message(d: Display): string {
    Join('\n', Above(d) + (LinesBelow(d) + [ActionLine(d.action)] + LinesAfterAction(d)))
  }

  // ---- reading the PID: `re.search(r"\(PID (\d+)\)", message)` ----

  function DigitRun(s: string): (n: nat)
    ensures n <= |s|
  {
    if s != "" && '0' <= s[0] <= '9' then 1 + DigitRun(s[1..]) else 0
  }

  function PidAtFront(s: string): Option<string> {
    if "(PID " <= s then
      var k := DigitRun(s[5..]);
      if k > 0 && 5 + k < |s| && s[5 + k] == ')' then Some(s[5..5 + k]) else None
    else None
  }

  function FirstPid(s: string): Option<string> {
    if s == "" then None
    else if PidAtFront(s).Some? then PidAtFront(s) else FirstPid(s[1..])
  }

  lemma {:induction false} SkipText(a: string, b: string)
    requires '(' !in a
    ensures FirstPid(a + b) == FirstPid(b)
  {
    if a == "" {
      assert a + b == b;
    } else {
      assert (a + b)[1..] == a[1..] + b;
      assert (a + b)[0] == a[0];
      SkipText(a[1..], b);
    }
  }

  lemma {:induction false} DigitRunOf(s: string, tail: string)
    requires tail != "" && !('0' <= tail[0] <= '9')
    ensures DigitRun(s + tail) == DigitRun(s)
  {
    if s == "" {
      assert s + tail == tail;
    } else {
      assert (s + tail)[1..] == s[1..] + tail;
      DigitRunOf(s[1..], tail);
    }
  }

  lemma {:induction false} DigitRunOfDigits(s: string)
    requires AllDigits(s)
    ensures DigitRun(s) == |s|
  {
    if s != "" {
      DigitRunOfDigits(s[1..]);
    }
  }

  /** No match can reach out of a text into the blank and bracket behind it. */
  lemma FrontMatchStaysInside(s: string, rest: string)
    requires s != ""
    ensures PidAtFront(s + " (" + rest) == PidAtFront(s)
  {
    var all := s + " (" + rest;
    var tail := " (" + rest;
    assert all == s + tail;
    if |s| < 5 {
      assert "(PID " <= all ==> all[|s|] == "(PID "[|s|];
      assert all[|s|] == ' ' && all[|s| + 1] == '(';
    } else {
      assert all[5..] == s[5..] + tail;
      DigitRunOf(s[5..], tail);
      var k := DigitRun(s[5..]);
      assert all[..5] == s[..5];
      assert 5 + k == |s| ==> all[5 + k] == ' ';
      assert all[5..5 + k] == s[5..5 + k];
    }
  }

  lemma {:induction false} FirstPidBehindText(s: string, rest: string)
    ensures FirstPid(s + " (" + rest) == if FirstPid(s).Some? then FirstPid(s) else FirstPid("(" + rest)
  {
    var all := s + " (" + rest;
    if s == "" {
      assert all[1..] == "(" + rest;
      assert all[0] == ' ';
    } else {
      FrontMatchStaysInside(s, rest);
      assert all[1..] == s[1..] + " (" + rest;
      FirstPidBehindText(s[1..], rest);
    }
  }

  lemma PidInBrackets(digits: string, rest: string)
    requires digits != "" && AllDigits(digits)
    ensures FirstPid("(PID " + digits + ")" + rest) == Some(digits)
  {
    var s := "(PID " + digits + ")" + rest;
    assert s[5..] == digits + (")" + rest);
    DigitRunOf(digits, ")" + rest);
    DigitRunOfDigits(digits);
    assert s[5..5 + |digits|] == digits;
  }

  lemma JoinTwo(sep: char, a: string, b: string, rest: seq<string>)
    requires rest != []
    ensures Join(sep, [a, b] + rest) == a + [sep] + (b + ([sep] + Join(sep, rest)))
  {
  }

  /** What is read is a bracketed number of the text. */
  lemma {:induction false} PidIsInText(s: string)
    requires FirstPid(s).Some?
    ensures FirstPid(s).value != "" && AllDigits(FirstPid(s).value)
    ensures Holds(s, "(PID " + FirstPid(s).value + ")")
  {
    if PidAtFront(s).Some? {
      var digits := PidAtFront(s).value;
      DigitsOfRun(s[5..]);
      assert digits == s[5..][..DigitRun(s[5..])];
      assert s == "" + ("(PID " + digits + ")") + s[6 + |digits|..];
    } else {
      PidIsInText(s[1..]);
      var a, b :| s[1..] == a + ("(PID " + FirstPid(s).value + ")") + b;
      assert s == ([s[0]] + a) + ("(PID " + FirstPid(s).value + ")") + b;
    }
  }

  lemma {:induction false} DigitsOfRun(s: string)
    ensures AllDigits(s[..DigitRun(s)])
  {
    if s != "" && '0' <= s[0] <= '9' {
      DigitsOfRun(s[1..]);
      var k := DigitRun(s[1..]);
      assert s[..k + 1] == [s[0]] + s[1..][..k];
    }
  }

  function ValueOf(s: string): nat
    requires AllDigits(s)
  {
    if s == "" then 0 else ValueOf(s[..|s| - 1]) * 10 + (s[|s| - 1] - '0') as nat
  }

  /** The digits printed are those of the number, without leading zeros. */
  lemma {:induction false} DigitsSpellTheNumber(n: nat)
    ensures ValueOf(Digits(n)) == n
    ensures n > 0 ==> Digits(n)[0] != '0'
  {
    var front := if n < 10 then "" else Digits(n / 10);
    var s := Digits(n);
    assert s[..|s| - 1] == front;
    if n >= 10 {
      DigitsSpellTheNumber(n / 10);
    }
  }

  /** The pattern is case-sensitive, so a lower-cased name holds no match of it. */
  lemma {:induction false} LowerHoldsNoPid(s: string)
    requires Lower(s) == s
    ensures FirstPid(s) == None
  {
    if s != "" {
      assert |s| > 1 ==> s[1] == Lower(s)[1] == LowerChar(s[1]);
      assert Lower(s[1..]) == Lower(s)[1..];
      LowerHoldsNoPid(s[1..]);
    }
  }

  /** The PID the bridge reads is that of the event. */
  lemma PidReadBack(d: Display)
    requires '(' !in d.texts.header
    ensures FirstPid(Message(d)) == Some(Digits(d.pid))
  {
    LowerHoldsNoPid(d.name);
    PidOfText(d.texts.header, d.name, d.pid, LinesBelow(d) + [ActionLine(d.action)] + LinesAfterAction(d));
  }

  lemma PidOfText(header: string, name: string, pid: nat, rest: seq<string>)
    requires '(' !in header && rest != []
    ensures FirstPid(Join('\n', [header, ProcessLine(name, pid)] + rest)) ==
            if FirstPid(name).Some? then FirstPid(name) else Some(Digits(pid))
  {
    var digits := Digits(pid);
    var tail := ['\n'] + Join('\n', rest);
    var front := header + ['\n'] + "   Process : ";
    JoinTwo('\n', header, ProcessLine(name, pid), rest);
    TextOfLines(header, name, digits, tail);
    PidOfLines(front, name, digits, tail);
  }

  lemma TextOfLines(header: string, name: string, digits: string, tail: string)
    ensures header + ['\n'] + (("   Process : " + name + " (PID " + digits + ")") + tail) ==
            (header + ['\n'] + "   Process : ") + (name + " (" + ("PID " + digits + ")" + tail))
  {
  }

  lemma PidOfLines(front: string, name: string, digits: string, tail: string)
    requires '(' !in front && digits != "" && AllDigits(digits)
    ensures FirstPid(front + (name + " (" + ("PID " + digits + ")" + tail))) ==
            if FirstPid(name).Some? then FirstPid(name) else Some(digits)
  {
    var rest := "PID " + digits + ")" + tail;
    SkipText(front, name + " (" + rest);
    FirstPidBehindText(name, rest);
    PidInBrackets(digits, tail);
    BracketText(digits, tail);
  }

  lemma BracketText(digits: string, tail: string)
    ensures "(" + ("PID " + digits + ")" + tail) == "(PID " + digits + ")" + tail
  {
  }

  // ---- reading the process action: `"Process Action: LOG_ONLY" in message` ----

  const LOG_MARK := "Process Action: LOG_ONLY"
  const KILL_MARK := "Process Action: KILL_PROCESS"

  lemma MarkIsOneLine()
    ensures '\n' !in LOG_MARK && LOG_MARK != "" && '\n' !in KILL_MARK && KILL_MARK != ""
  {
  }

  lemma LogLineIsMarked()
    ensures Contains(ActionLine(LogOnly), LOG_MARK)
  {
    var line := ActionLine(LogOnly);
    assert line[3..] == LOG_MARK;
  }

  lemma KillLineIsMarked()
    ensures Contains(ActionLine(KillProcess), KILL_MARK)
  {
    var line := ActionLine(KillProcess);
    assert line[3..] == KILL_MARK;
  }

  lemma ActionLineMarks(a: ProcessAction)
    ensures Contains(ActionLine(a), LOG_MARK) <==> a == LogOnly
    ensures a == KillProcess ==> Contains(ActionLine(a), KILL_MARK)
  {
    LogLineIsMarked();
    KillLineIsMarked();
    if a != LogOnly {
      var line := ActionLine(a);
      forall i | 0 <= i <= |line| ensures !(LOG_MARK <= line[i..]) {
        NoLogMark(a, i);
      }
    }
  }

  lemma NoLogMark(a: ProcessAction, i: nat)
    requires a != LogOnly && i <= |ActionLine(a)|
    ensures !(LOG_MARK <= ActionLine(a)[i..])
  {
    var rest := ActionLine(a)[i..];
    assert LOG_MARK[0] == 'P' && LOG_MARK[16] == 'L';
    if |rest| >= |LOG_MARK| {
      assert rest[0] == ActionLine(a)[i] && rest[16] == ActionLine(a)[i + 16];
    }
  }
}
