/** From one scan decision to an enforcement plan, through the guardrails:
    backend/core/realtime_protection.py, lines 351-681 and 849-1111. */
module RtpPlan {
  import opened Wrappers
  import opened Text

  /** Both loops lower-case the reported name, and call a nameless process
      "unknown", before anything looks at it. */
  type ProcessName = s: string | s != "" && Lower(s) == s witness "unknown"

  /** `True`, `False` or `None`. */
  datatype Tri = Yes | No | Unknown

  /** Size and modification time of a file. */
  type Fingerprint = (int, int)

  datatype Decision = Decision(
    action: string, score: int, verdictCode: string, verdictLabel: string,
    source: string, overrideType: string)

  /** What a scan learned besides the decision. */
  datatype Context = Context(
    signature: Tri, publisher: string, strong: bool,
    fingerprint: Option<Fingerprint>, parentPid: Option<int>)

  datatype ProcessAction = Allow | LogOnly | KillProcess
  datatype FileAction = AllowFile | QuarantineFile

  datatype Plan = Plan(
    decisionAction: string, process: ProcessAction, file: FileAction,
    trustedInstall: bool, protectedSignedInstall: bool, trustedHelper: bool,
    strong: bool, publisher: string, signature: Tri)

  datatype BrowserRule = BrowserRule(publishers: seq<string>, pathHints: seq<string>)

  /** The constant tables of the platform the worker runs on. */
  datatype Policy = Policy(
    windows: bool,
    cacheMax: nat,
    whitelist: set<string>,
    whitelistPrefixes: seq<string>,
    linuxSkip: set<string>,
    helperNames: set<string>,
    mainNames: set<string>,
    browsers: map<string, BrowserRule>,
    installRoots: seq<string>,
    systemRoot: string,
    separator: string)

  /** The answers of the operating system while one event is handled. */
  datatype World = World(
    ownPid: int,
    canonical: string -> string,
    baseName: string -> string,
    inSentinelTree: string -> bool,
    parentExe: Option<string>)

  // ---- trust predicates ----

  predicate InternalHelperPath(policy: Policy, w: World, name: string, path: string) {
    var shown := Lower(if name != "" then name else w.baseName(path));
    && shown in policy.helperNames
    && Lower(w.baseName(path)) == shown
    && path != "" && w.inSentinelTree(path)
  }

  predicate MainProcessPath(policy: Policy, w: World, path: string) {
    path != "" && Lower(w.baseName(path)) in policy.mainNames && w.inSentinelTree(path)
  }

  predicate ParentIsSentinel(policy: Policy, w: World, parentPid: Option<int>) {
    && parentPid.Some? && parentPid.value > 0
    && (parentPid.value == w.ownPid ||
        (w.parentExe.Some? && MainProcessPath(policy, w, w.parentExe.value)))
  }

  predicate TrustedHelper(policy: Policy, w: World, name: string, path: string, parentPid: Option<int>) {
    InternalHelperPath(policy, w, name, path) && ParentIsSentinel(policy, w, parentPid)
  }

  predicate TrustedInstall(policy: Policy, w: World, path: string) {
    var p := w.canonical(path);
    p != "" && exists root :: root in policy.installRoots && root != "" &&
                              (p == root || root + policy.separator <= p)
  }

  predicate ProtectedBrowser(policy: Policy, w: World, name: string, path: string, publisher: string, signature: Tri) {
    var key := Lower(name);
    key in policy.browsers &&
    ((exists hint :: hint in policy.browsers[key].pathHints && Contains(w.canonical(path), hint)) ||
     (signature == Yes &&
      exists token :: token in policy.browsers[key].publishers && Contains(Lower(publisher), token)))
  }

  predicate SystemPath(policy: Policy, w: World, path: string) {
    var p := w.canonical(path);
    policy.windows && p != "" && policy.systemRoot != "" &&
    (p == policy.systemRoot || policy.systemRoot + "\\" <= p || policy.systemRoot + "/" <= p)
  }

  predicate ProtectedInstall(policy: Policy, w: World, name: string, path: string, c: Context) {
    || ProtectedBrowser(policy, w, name, path, c.publisher, c.signature)
    || (SystemPath(policy, w, path) && c.signature != No)
    || (c.signature == Yes && TrustedInstall(policy, w, path))
  }

  predicate Overridden(d: Decision) {
    Normal(d.source) == "explicit_override" || Normal(d.overrideType) != ""
  }

  function Verdict(d: Decision): string {
    Normal(if d.verdictCode != "" then d.verdictCode else d.verdictLabel)
  }

  predicate Inconclusive(verdict: string) {
    verdict == "" || verdict == "unknown" || verdict == "safe" || verdict == "suspicious"
  }

  /** `_decision_supports_destructive_enforcement` */
  predicate Complete(d: Decision) {
    if Overridden(d) then true
    else if Normal(d.action) != "block" then false
    else if d.score <= 0 then false
    else !Inconclusive(Verdict(d))
  }

  /** `_build_enforcement_plan`: the ladder of guardrails. */
  function BuildPlan(policy: Policy, w: World, name: string, path: string, d: Decision, c: Context): Plan {
    var helper := TrustedHelper(policy, w, name, path, c.parentPid);
    var install := TrustedInstall(policy, w, path);
    var signedInstall := c.signature == Yes && install;
    var plan := (process, file, strong) =>
      Plan(if d.action == "" then "allow" else d.action, process, file, install, signedInstall, helper,
           strong, c.publisher, c.signature);
    if d.action != "block" then plan(Allow, AllowFile, c.strong)
    else if helper then plan(LogOnly, AllowFile, c.strong)
    else if !Complete(d) then plan(LogOnly, AllowFile, c.strong)
    else if ProtectedInstall(policy, w, name, path, c) && !Overridden(d) then plan(LogOnly, AllowFile, c.strong)
    else if c.signature == Yes && !c.strong && !Overridden(d) then plan(LogOnly, AllowFile, false)
    else plan(KillProcess, if c.strong then QuarantineFile else AllowFile, c.strong)
  }

  // ---- who may be killed, from the tables and the path alone ----

  /** A path at a root or below it. */
  ghost predicate AtOrBelow(path: string, root: string, separator: string) {
    path == root || exists rest :: path == root + separator + rest
  }

  /** A rule or an operator forced the decision. */
  predicate Forced(d: Decision) {
    Normal(d.source) == "explicit_override" || Normal(d.overrideType) != ""
  }

  /** A positive score with a verdict, the code before the label, that is none of the
      four that authorise nothing. */
  predicate Convicts(d: Decision) {
    && d.score > 0
    && var verdict := Normal(if d.verdictCode == "" then d.verdictLabel else d.verdictCode);
       verdict != "" && verdict != "unknown" && verdict != "safe" && verdict != "suspicious"
  }

  /** A browser, by a fragment of its path or by the publisher of its valid
      signature. */
  ghost predicate IsBrowser(rule: BrowserRule, path: string, c: Context) {
    || (exists hint :: hint in rule.pathHints && Holds(path, hint))
    || (c.signature == Yes && exists token :: token in rule.publishers && Holds(Lower(c.publisher), token))
  }

  /** Unless it is invalidly signed, a file at or below the Windows directory. */
  ghost predicate IsSystemFile(policy: Policy, path: string, c: Context) {
    && policy.windows && path != "" && policy.systemRoot != ""
    && (AtOrBelow(path, policy.systemRoot, "\\") || AtOrBelow(path, policy.systemRoot, "/"))
    && (c.signature == Yes || c.signature == Unknown)
  }

  ghost predicate IsInstalled(policy: Policy, path: string) {
    path != "" && exists root :: root in policy.installRoots && root != "" && AtOrBelow(path, root, policy.separator)
  }

  /** One of the program's own helpers, by its name and the file's, both out of the
      program's tree, started by this process or by the program's main executable. */
  predicate OwnHelper(policy: Policy, w: World, name: string, path: string, parentPid: Option<int>) {
    var base := Lower(w.baseName(path));
    && path != "" && w.inSentinelTree(path)
    && base in policy.helperNames && (name == "" || Lower(name) == base)
    && match parentPid
       case None => false
       case Some(pid) =>
         && pid > 0
         && (pid == w.ownPid ||
             match w.parentExe
             case None => false
             case Some(exe) =>
               exe != "" && w.inSentinelTree(exe) && Lower(w.baseName(exe)) in policy.mainNames)
  }

  /** Who may be killed: a blocking decision, forced or convicting; never a helper of
      our own; and unless forced no browser, no file of the system, and nothing
      validly signed that is installed or not corroborated. */
  ghost predicate MayKill(policy: Policy, w: World, name: string, path: string, d: Decision, c: Context) {
    && d.action == "block"
    && !OwnHelper(policy, w, name, path, c.parentPid)
    && (Forced(d) ||
        (&& Convicts(d)
         && !(Lower(name) in policy.browsers && IsBrowser(policy.browsers[Lower(name)], w.canonical(path), c))
         && !IsSystemFile(policy, w.canonical(path), c)
         && !(c.signature == Yes && (IsInstalled(policy, w.canonical(path)) || !c.strong))))
  }

  lemma PrefixIsBelow(path: string, root: string, separator: string)
    ensures path == root || root + separator <= path <==> AtOrBelow(path, root, separator)
  {
    if root + separator <= path {
      assert path == root + separator + path[|root + separator|..];
    }
  }

  lemma SystemPathIs(policy: Policy, w: World, path: string, c: Context)
    ensures SystemPath(policy, w, path) && c.signature != No <==> IsSystemFile(policy, w.canonical(path), c)
  {
    PrefixIsBelow(w.canonical(path), policy.systemRoot, "\\");
    PrefixIsBelow(w.canonical(path), policy.systemRoot, "/");
  }

  lemma TrustedInstallIs(policy: Policy, w: World, path: string)
    ensures TrustedInstall(policy, w, path) <==> IsInstalled(policy, w.canonical(path))
  {
    forall root | root in policy.installRoots
      ensures w.canonical(path) == root || root + policy.separator <= w.canonical(path) <==>
              AtOrBelow(w.canonical(path), root, policy.separator)
    {
      PrefixIsBelow(w.canonical(path), root, policy.separator);
    }
  }

  lemma ProtectedBrowserIs(policy: Policy, w: World, name: string, path: string, c: Context)
    ensures ProtectedBrowser(policy, w, name, path, c.publisher, c.signature) <==>
            Lower(name) in policy.browsers && IsBrowser(policy.browsers[Lower(name)], w.canonical(path), c)
  {
    forall part ensures Contains(w.canonical(path), part) <==> Holds(w.canonical(path), part) {
      ContainsIsHolds(w.canonical(path), part);
    }
    forall part ensures Contains(Lower(c.publisher), part) <==> Holds(Lower(c.publisher), part) {
      ContainsIsHolds(Lower(c.publisher), part);
    }
  }

  lemma ProtectedInstallIs(policy: Policy, w: World, name: string, path: string, c: Context)
    ensures ProtectedInstall(policy, w, name, path, c) <==>
            || (Lower(name) in policy.browsers && IsBrowser(policy.browsers[Lower(name)], w.canonical(path), c))
            || IsSystemFile(policy, w.canonical(path), c)
            || (c.signature == Yes && IsInstalled(policy, w.canonical(path)))
  {
    ProtectedBrowserIs(policy, w, name, path, c);
    SystemPathIs(policy, w, path, c);
    TrustedInstallIs(policy, w, path);
  }

  lemma TrustedHelperIs(policy: Policy, w: World, name: string, path: string, parentPid: Option<int>)
    ensures TrustedHelper(policy, w, name, path, parentPid) <==> OwnHelper(policy, w, name, path, parentPid)
  {
  }

  lemma CompleteIs(d: Decision)
    ensures d.action == "block" ==> (Complete(d) <==> Forced(d) || Convicts(d))
    ensures Overridden(d) <==> Forced(d)
  {
  }

  /** The ladder kills exactly those, flags every other blocking decision, and
      quarantines exactly on top of a kill with strong evidence. */
  lemma LadderDecides(policy: Policy, w: World, name: string, path: string, d: Decision, c: Context)
    ensures
      var plan := BuildPlan(policy, w, name, path, d, c);
      && (plan.process == KillProcess <==> MayKill(policy, w, name, path, d, c))
      && (plan.process == Allow <==> d.action != "block")
      && (plan.file == QuarantineFile <==> plan.process == KillProcess && c.strong)
      && plan.strong == c.strong && plan.publisher == c.publisher && plan.signature == c.signature
      && (plan.decisionAction == "block" <==> d.action == "block")
      && (plan.trustedHelper <==> OwnHelper(policy, w, name, path, c.parentPid))
      && (plan.trustedInstall <==> IsInstalled(policy, w.canonical(path)))
      && (plan.protectedSignedInstall <==> plan.trustedInstall && c.signature == Yes)
  {
    ProtectedInstallIs(policy, w, name, path, c);
    TrustedInstallIs(policy, w, path);
    TrustedHelperIs(policy, w, name, path, c.parentPid);
    CompleteIs(d);
  }

  /** Without an override nothing at or below the Windows directory is killed, by
      either separator, whether its signature is valid or unknown. */
  lemma SystemFilesAreSpared(
    policy: Policy, w: World, name: string, path: string, d: Decision, c: Context, separator: string, rest: string)
    requires policy.windows && policy.systemRoot != "" && (separator == "\\" || separator == "/")
    requires w.canonical(path) == policy.systemRoot || w.canonical(path) == policy.systemRoot + separator + rest
    requires (c.signature == Yes || c.signature == Unknown)
    requires Normal(d.source) != "explicit_override" && Normal(d.overrideType) == ""
    ensures BuildPlan(policy, w, name, path, d, c).process != KillProcess
  {
    LadderDecides(policy, w, name, path, d, c);
  }

  /** Nor anything signed at or below an install root. */
  lemma SignedInstallsAreSpared(
    policy: Policy, w: World, name: string, path: string, d: Decision, c: Context, root: string, rest: string)
    requires root in policy.installRoots && root != "" && c.signature == Yes
    requires w.canonical(path) == root || w.canonical(path) == root + policy.separator + rest
    requires Normal(d.source) != "explicit_override" && Normal(d.overrideType) == ""
    ensures BuildPlan(policy, w, name, path, d, c).process != KillProcess
  {
    LadderDecides(policy, w, name, path, d, c);
  }

  /** Nor a browser whose path holds one of its fragments, or whose valid signature
      names one of its publishers. */
  lemma BrowsersAreSpared(
    policy: Policy, w: World, name: string, path: string, d: Decision, c: Context, a: string, part: string, b: string)
    requires Lower(name) in policy.browsers
    requires || (part in policy.browsers[Lower(name)].pathHints && w.canonical(path) == a + part + b)
             || (c.signature == Yes && part in policy.browsers[Lower(name)].publishers &&
                 Lower(c.publisher) == a + part + b)
    requires Normal(d.source) != "explicit_override" && Normal(d.overrideType) == ""
    ensures BuildPlan(policy, w, name, path, d, c).process != KillProcess
  {
    LadderDecides(policy, w, name, path, d, c);
  }
}
