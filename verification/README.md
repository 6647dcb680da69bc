# Sentinel: verified models of its stateful core

This project models five parts of Sentinel, an endpoint-security desktop
program, and proves what each of them promises over every input and every run.

* **Real-time protection** (`Rtp*.dfy`). A worker sees process-creation events,
  screens them, consults a fingerprint-checked scan cache, derives an enforcement
  plan through a ladder of guardrails, and acts: a process action, then a file
  action that depends on it. A bridge object labels the detections it reads back
  out of the worker's signal texts. `RtpPlan` holds the ladder, `RtpSpec` one
  event and a run of events on values, `RtpScreening` which events are looked at,
  `RtpWorker` the object whose methods do exactly that to its fields, `RtpPolling`
  the Linux polling loop, `RtpRuns` and `RtpTransparency` the laws of whole runs,
  `RtpPaths` which file a verdict is about, `RtpDisplay` and `RtpBridge` the text
  protocol, `RtpTables` the shipped tables. The scanner, the vault and the
  operating system are adversaries: their answers are part of each event.
* **The import migration** (`Import*.dfy`, on top of `Text.dfy`). Files move from
  `app/` to `backend/`, and import statements are rewritten as strings, by longest
  dotted prefix, with relative names resolved against an old package that is
  recovered from the new location. `ImportStatements` says which statements get the
  name their module is meant to have, `ImportFiles` which statements of which
  files, rewritten or walked past, name after the move the file their module has
  become; relative names resolve as in section 5.7
  of the Python Language Reference ("Package Relative Imports").
* **Background workers** (`WorkerSpec.dfy`, `WorkerLaws.dfy`, `WorkerJobs.dfy`,
  `Workers.dfy`). Starts, late callbacks, cancels, heartbeats and watchdog checks
  over worker ids that are used again; `WorkerJobs` adds the workers behind the ids
  and the signals they leave.
* **Caches that must agree with something simpler.** `ResultCache.dfy` (TTL cache
  and its JSON file against a plain timed map), `SnapshotProtocol.dfy`
  (double-checked locking, one shared read or write per step), `GpuHistory.dfy`
  (rings of 60 points against the carried-forward metric stream).
* **Two imperative loops.** `Shredder.dfy` (multi-pass overwriting of a byte array
  with cancellation) and `Notifications.dfy` (a capped list with an unread counter).

Objects of the program are classes here; each of their methods is proved to do to
the object's abstract state what a step function says, and the laws are lemmas
about runs of that step function. Theorems about tables hold for all tables with
the properties named in `ImportTables.WellFormed` and `ImportApplication.RelTable`,
and the shipped tables are proved to have them.

## What the proofs found

* Import statements that do not survive the migration by name, each with an input:
  a relative import with one dot more than its package is deep, and a module
  behind the dots, becomes a valid `.m` (`ImportShipped.OneDotTooManyHappens`);
  a single-dot import of a relocated sub-package in a root module other than
  application.py keeps its old name (`ImportShipped.SingleDotOfRelocatedHappens`);
  `import apple` becomes `import backendle`
  (`ImportShipped.LongerFirstWordHappens`). The condition is
  `ImportStatements.Survives`.
* Statements that survive by name and lose their file: `from ..helper` of a root
  module the plan does not list (`ImportShipped.UnlistedModuleIsLost`) and
  `from tools.build` of a tool it does not move (`ImportShipped.UnmovedToolIsLost`).
* In opened files outside app the recovered package is empty, and a two-dot import
  loses a dot (`ImportShipped.TwoDotsOutsideAreLost`).
* Files the script moves or leaves but does not open keep their lines: those whose
  path holds "build", "archive" or another of six parts, among them the sandbox's report_builder.py
  (`ImportShipped.SkippedFileIsLost`, `ImportShipped.ReportBuilderIsSkipped`), and
  everything outside the visited directories (`ImportShipped.RootScriptIsLost`).
* The exact condition for the file, in opened files and others, is
  `ImportFiles.KeepsItsFile`.
* The single-dot rewriter of application.py also captures names that merely extend
  `sandbox_vmware`; that is its only disagreement with the absolute rewriter
  (`ImportShipped.ShippedRewritersAgree`).
* The cached loop can refuse a kill that an uncached loop would make: exactly when
  the verdict comes from the cache and the live path cannot be read
  (`RtpTransparency.KillsAreASubset`; an input is `RtpPaths.CachedLoopRefuses`).
* The Linux loop never consults the user whitelist (`RtpRuns.LinuxIgnoresUserList`).
* All helper names are on the Windows process whitelist, so on Windows the
  trusted-helper branch of the event loop is never taken
  (`RtpTables.WindowsNeverReachesTrustedHelpers`).
* Over a run some detection carries a wrong label exactly if the text of one planned
  to be killed imitates the log-only marker in another line
  (`RtpBridge.LabelsMatchPlans`), as the path of a file can
  (`RtpBridge.PathImitates`).
* Cache keys are lower-cased on Linux too, so a process can be killed on the scan of
  another file (`RtpPaths.TwinIsKilledForOther`), exactly over paths of which two
  differ in case only (`RtpPaths.OwnFileIffNoTwins`).
* A file replaced between its scan and the reading of its fingerprint is cached with
  the wrong verdict (`RtpPaths.ReplacedFileShows`).
* The Linux poller marks a PID before it looks at its file: if that raises, the
  process is never looked at (`RtpPolling.FailedIsForgotten`).
* The network, file and URL scan slots do not connect their workers' heartbeats, so
  these are stalled by the first check more than 15 seconds after their start,
  however alive (`WorkerLaws.UnheardWorkerIsStalled`).
* On Windows a look-up of a file that raises ends the watcher
  (`RtpSpec.WatcherStaysEnded`).
* A cancelled worker whose task returns in time keeps its id taken until a check
  stalls it (`WorkerJobs.CancelledIdStaysTaken`); one whose task fails does not
  (`WorkerJobs.FailingJobFreesItsId`).
* A reader of the security snapshot can return nothing if the cache is invalidated
  between its two reads (`SnapshotProtocol.DropBeforeTakeReturnsNothing`).
* Entries dropped by `invalidate` come back after a restart if they were still alive
  at the last write (`ResultCache.RestartAgreesUnlessInvalidated`), and setting the
  clock back makes clean-ups observable (`ResultCache.ClockSetBackShows`; exact
  condition in `ResultCache.GetAgreesUnlessDropped`).
* The notification badge counts evicted unread notifications
  (`Notifications.BadgeIsRightIffNothingEvicted`).
* `shred_file` reports success even if its verification still sees the file
  (`Shredder.FileShredder.ShredFile`).

Where code and comment disagree: `_check_workers` (backend/core/workers.py:157-177)
says it emits `workerStalled` outside its mutex but emits inside, and the connected
handler takes the same non-recursive mutex. The model delivers each stall as one
atomic step, as the comment intends; everywhere else it follows the code.

## Model

| member | source | states |
|---|---|---|
| Text.JoinOfSplit | scripts/refactor_project.py:171-177 | joining the split of a dotted string gives the string back |
| Text.SplitOfJoin | scripts/refactor_project.py:171-177 | splitting the join of dot-free components gives the components back |
| Text.PrefixTestIsComponentTest | scripts/refactor_project.py:120-128 | the string tests `name == p` and `name.startswith(p + ".")` hold exactly when the components of `p` are a prefix of those of `name`, and the cut-off tail is the remaining components: `app.sandbox` never captures `app.sandbox_vmware` |
| ImportTables.PlanMoves | scripts/refactor_project.py:289-320 | the plan is the list of candidate moves whose source exists, in order; as a set it holds exactly the present sub-packages and root modules of app/ |
| ImportTables.MoveNameIsWhereTheFileLands | scripts/refactor_project.py:289-320 | executing the plan puts the file of an `app` module where its new dotted name points if and only if the plan moves that module |
| ImportTables.BuildAbsImportMap | scripts/refactor_project.py:78-96 | the map holds every sub-package and root-module pair and the catch-all, each as often as listed, longest old prefix first |
| ImportTables.SortLongestFirst | scripts/refactor_project.py:93-94 | the sort is a permutation ordered by falling length of the old prefix |
| ImportTables.BuildReverseMap | scripts/refactor_project.py:107-116 | every new package maps to its old one, `backend` to `app`, and there is no other key |
| ImportTables.ShippedTablesAreWellFormed | scripts/refactor_project.py:51-73 | the shipped tables have distinct old names, prefix-free new paths and no root module named like a sub-package |
| ImportRewrite.RewriteLongest | scripts/refactor_project.py:120-128 | the first matching rule of the sorted map is a longest match |
| ImportRewrite.RewriteIsMoveName | scripts/refactor_project.py:120-128 | rewriting a dotted string is the move on module names, whatever order the sort gave to prefixes of equal length |
| ImportRewrite.RewriteIsIdempotent | scripts/refactor_project.py:120-128 | rewriting twice is rewriting once, on every string |
| ImportRewrite.RewriteToolsIsMoveTool | scripts/refactor_project.py:99-103 | the tools map replaces the first component `tools` by `payload` and nothing else |
| ImportStatements.OldPackageInvertsMove | scripts/refactor_project.py:139-159 | the recovered old package is the one the directory was moved from, at any depth below every mapped sub-package |
| ImportStatements.LoopStopsAtSubpackage | scripts/refactor_project.py:150-158 | the longest-prefix loop stops exactly at the sub-package's own path and never at a wrong entry |
| ImportStatements.MoveIsInjective | scripts/refactor_project.py:51-66 | no two moved packages end up at the same place |
| ImportStatements.ResolveAgrees | scripts/refactor_project.py:161-177 | the string resolver gives what section 5.7 of the Python Language Reference gives where that is defined, and says what it gives where Python reports an error |
| ImportStatements.ClimbingImports | scripts/refactor_project.py:196-209 | an import with two or more dots gets the name its module is meant to have if and only if it survives by name |
| ImportStatements.SiblingImports | scripts/refactor_project.py:196-209 | an untouched single-dot import reads as the name its module is meant to have if and only if it survives by name: always inside a moved sub-package |
| ImportStatements.AbsoluteImports | scripts/refactor_project.py:211-234 | `from a.b import c` gets the name the module is meant to have, whichever file it stands in |
| ImportStatements.BareImports | scripts/refactor_project.py:186-194 | `import a.b` gets the name the module is meant to have if and only if its first word does not merely extend `app` or `tools` |
| ImportStatements.ImportsOfPackage | scripts/refactor_project.py:196-243 | rewritten for its own old package, every statement of a moved package of app gets the name its module is meant to have if and only if it survives by name |
| ImportStatements.MigrationPreservesImports | scripts/refactor_project.py:139-243 | the same with the package recovered from the new directory; whether a file is to be found under that name, in the files the script opens and in the others, is ImportFiles.FilesKeepTheirImports |
| ImportStatements.ClimbingImportsReachTheMovedFile | scripts/refactor_project.py:196-209 | for a moved target the rewritten relative import names the very file the plan put there |
| ImportFiles.RelocateIsLanding | scripts/refactor_project.py:289-320 | executing the plan puts every file on disk, of app, tools, qml or elsewhere, at one stated place |
| ImportFiles.LandingOfSource | scripts/refactor_project.py:289-320 | on source files and on module names that place is the same |
| ImportFiles.LandsIff | scripts/refactor_project.py:120-137 | the name the rewriters give a module is the one its file lands under exactly when the plan moves it out of app or tools, or it lies outside app, tools and qml |
| ImportFiles.SourceFileIsInjective | scripts/refactor_project.py:289-320 | two modules of one kind have one file only if they are one |
| ImportFiles.FilesKeepTheirImports | scripts/refactor_project.py:359-447 | the whole migration, for every Python file on disk (moved or staying; opened where it lands and passed over once or, application.py, twice; not visited by the walk or skipped by it), every statement in it and every kind of target: it names the file its module has become exactly under a condition on table entries, package depth and dots |
| ImportFiles.OpenedIsWalked | scripts/refactor_project.py:362-393 | which files the script opens, directory by directory and part by part |
| ImportFiles.AbsoluteImportIsKeptIff | scripts/refactor_project.py:359-447 | an absolute import of a module that moves with app or tools is kept exactly in the files that land below backend/, frontend/, payload/ or scripts/, or are main.py or _diag.py, with none of the six skipped parts in their path |
| ImportFiles.ScriptIsKept | scripts/refactor_project.py:384-386 | so it is in a script, which does not move |
| ImportFiles.StatementsOfAppFiles | scripts/refactor_project.py:196-243 | in the other opened files of app: if and only if it survives by name and its target lands under that name |
| ImportFiles.RelativeFilesOutside | scripts/refactor_project.py:139-209 | relative imports of opened files outside app: if and only if they do not put two dots before a name (except at top level) and file and target both move or both stay |
| ImportFiles.UntouchedAppFiles | scripts/refactor_project.py:384-393 | in moved files of app that are not opened: absolute and bare imports if and only if their target stays; relative ones if and only if their target moves with them, out of the sub-package only if its new place is beside theirs |
| ImportFiles.UntouchedStayingFiles | scripts/refactor_project.py:384-393 | in files that stay and are not opened: if and only if the target stays |
| ImportFiles.SkippedIsOnComponents | scripts/refactor_project.py:388-393 | the skip test on the path as a text is one on its components, with either separator |
| ImportFiles.ApplicationKeepsItsImports | scripts/refactor_project.py:427-433 | for application.py after both rewriters: the file of the module is named if and only if the statement survives there and its target lands under that name |
| ImportFiles.RelativeOutsideBackend | scripts/refactor_project.py:139-177 | for files outside backend/ the recovered package is empty: a two-dot import of a module loses a dot, every other relative import stays as it is |
| ImportApplication.RewritersAgree | scripts/refactor_project.py:245-284 | resolving the single-dot rewrite in `backend` equals the absolute rewrite of the same module if and only if its first word does not overrun an entry without a trailing dot |
| ImportApplication.OverrunRewrite | scripts/refactor_project.py:264-284 | every overrunning name is changed although its module stays where it is |
| ImportApplication.ApplicationPreservesImports | scripts/refactor_project.py:427-433 | for every statement of application.py, both passes together give the name its module is meant to have if and only if it survives there: single-dot imports exactly when their first word overruns no entry |
| ImportShipped.ShippedRelTable | scripts/refactor_project.py:264-274 | the shipped single-dot table lists exactly the sub-packages that change their place |
| ImportShipped.ShippedRewritersAgree | scripts/refactor_project.py:245-284 | with the shipped tables the two rewriters agree if and only if the first word does not properly extend `sandbox_vmware` |
| ImportShipped.RelRewriteIsIdempotent | scripts/refactor_project.py:275-284 | the single-dot rewriter applied twice equals once, on every string |
| ImportShipped.OneDotTooMany | scripts/refactor_project.py:161-177 | at every depth, one dot too many in front of a word is not preserved |
| ImportShipped.OneDotTooManyHappens | scripts/refactor_project.py:161-177 | `from ..core` in a root module is not preserved |
| ImportShipped.SingleDotOfRelocatedHappens | scripts/refactor_project.py:196-209 | `from .ui` in a root module that gets no second pass is not preserved |
| ImportShipped.LongerFirstWordHappens | scripts/refactor_project.py:186-194 | `import apple` is not preserved |
| ImportShipped.UnlistedModuleIsLost | scripts/refactor_project.py:69-73 | a two-dot import of a root module missing from the list survives by name, and its file is lost, in opened files and others |
| ImportShipped.HelperIsSuchAModule | scripts/refactor_project.py:69-73 | the shipped tables have such an input: `from ..helper` in app/core |
| ImportShipped.UnmovedToolIsLost | scripts/refactor_project.py:313-318 | `from tools.<word>` of a module beside the two moved directories survives by name, and its file is kept, in a file of app, exactly if the script does not open that file |
| ImportShipped.TwoDotsOutsideAreLost | scripts/refactor_project.py:139-177 | in no opened file outside app, except at top level, does a two-dot import of a word keep its file |
| ImportShipped.SkippedFileIsLost | scripts/refactor_project.py:388-393 | in a file of a sub-package whose name holds a skipped part every absolute import of a moved module is lost |
| ImportShipped.ReportBuilderIsSkipped | scripts/refactor_project.py:388-393 | app/sandbox/report_builder.py is such a file |
| ImportShipped.RootScriptIsLost | scripts/refactor_project.py:362-384 | so it is in every root script but main.py and _diag.py, which the walk does not visit |
| RtpPlan.LadderDecides | backend/core/realtime_protection.py:901-1111 | the ladder plans a kill exactly for the decisions that may kill, told from the tables and the canonical path alone: blocking, forced or convicting (a positive score, a verdict other than the four that authorise nothing, code before label), no own helper; unless forced no browser, no file of the Windows directory without an invalid signature, and nothing validly signed that is installed or uncorroborated; it allows exactly what is not a block, and quarantines exactly on a kill with strong evidence |
| RtpPlan.SystemFilesAreSpared | backend/core/realtime_protection.py:574-587 | without an override nothing at or below the Windows directory, by either separator, is killed with a valid or an unknown signature |
| RtpPlan.SignedInstallsAreSpared | backend/core/realtime_protection.py:511-546 | nor anything validly signed at or below an install root |
| RtpPlan.BrowsersAreSpared | backend/core/realtime_protection.py:548-571 | nor a browser by a fragment of its path or by the publisher of its valid signature |
| RtpPlan.TrustedHelperIs | backend/core/realtime_protection.py:451-499 | who counts as a helper: name and file name, both out of the own tree, and the parent, conjunct by conjunct |
| RtpPlan.CompleteIs | backend/core/realtime_protection.py:589-620 | which blocking decisions authorise a kill |
| RtpSpec.KillResultByCause | backend/core/realtime_protection.py:1113-1200 | for a live process, which of the results comes out for which name, path and kill answer, and that the kill is called exactly for the event's name with the scanned executable or, on a fresh verdict only, an unreadable one |
| RtpSpec.NoKillByCause | backend/core/realtime_protection.py:1113-1200 | without a live process no kill is called, and the result says why |
| RtpSpec.FileResultByCause | backend/core/realtime_protection.py:1202-1272 | the file result for each plan, process result and answer of the vault |
| RtpScreening.AdmittedByCause | backend/core/realtime_protection.py:1369-1387 | an event is looked at exactly if the loop does not pass over it and its file is there: on Windows it passes over events without a path, names on the whitelist or with a vendor's prefix, and those whose name, path or directory the user lists; on Linux over events without a path, zombies and the skipped names |
| RtpScreening.WithoutExeCuts | backend/core/realtime_protection.py:1598-1607 | for the skipped names the first ".exe" of a name is cut out, then those of the rest |
| RtpRuns.StoreValid | backend/core/realtime_protection.py:800-821 | storing keeps the dictionary well-formed and within the maximum |
| RtpRuns.StoreKeepsYounger | backend/core/realtime_protection.py:800-821 | an overflow keeps exactly the younger half with its entries, any other store everything; the new entry stands |
| RtpRuns.CacheStaysBounded | backend/core/realtime_protection.py:800-840 | over every run the cache never exceeds its maximum |
| RtpRuns.EntryIsLastScan | backend/core/realtime_protection.py:800-840 | every cached entry is the last scan made of its lower-cased path |
| RtpRuns.KillIsJustified | backend/core/realtime_protection.py:901-1200 | every kill of every run rests on the last scan of the same lower-cased path with an unchanged fingerprint, whose blocking decision may kill under the facts of the moment; the killed process has the event's name (so on Windows none of the whitelisted ones), and its path, where readable, is the event's |
| RtpRuns.SignedKillNeedsEvidence | backend/core/realtime_protection.py:842-899 | an unforced kill of a file whose last scan, or on Windows its fallback probe, found a valid signature rests on a found infection or a recorded override type |
| RtpRuns.QuarantineIsJustified | backend/core/realtime_protection.py:1202-1272 | every quarantine is of an event whose process was just killed and whose last scan found strong evidence |
| RtpRuns.QuarantinesFollowKills | backend/core/realtime_protection.py:1773-1837 | in the log of every run each quarantine directly follows a successful kill |
| RtpRuns.StepInNumbers | backend/core/realtime_protection.py:1384-1497 | what one event adds to the three counters and, in order, to the log of calls and signals |
| RtpRuns.CountersAreHonest | backend/core/realtime_protection.py:1773-1837 | over every run the found counter equals the threats reported, the killed counter equals both the terminations reported and the kills that succeeded, and quarantines <= killed <= found |
| RtpRuns.ListedByUserIsLeftAlone | backend/core/realtime_protection.py:362-386 | on Windows every run goes on as if an event whose name, path or directory the user lists had not come |
| RtpRuns.LinuxIgnoresUserList | backend/core/realtime_protection.py:1569-1740 | on Linux the user's list has no influence on what an event does |
| RtpTransparency.PlansAreTheSame | backend/core/realtime_protection.py:1404-1492 | if a scan outcome, failures included, depends only on the lower-cased path and whichever fingerprints are read while the file is handled, every plan of the cached loop is the plan of a loop that rescans every time |
| RtpTransparency.KillsAreASubset | backend/core/realtime_protection.py:1160-1182 | under the same hypothesis the cached loop kills exactly what the uncached one kills, less the cache hits whose live path is not readable |
| RtpTransparency.CachedParentIsIgnored | backend/core/realtime_protection.py:1404-1429 | over every run, had the earlier events come under other parents (and been trusted helpers or not as before), every later event would be judged alike |
| RtpPaths.TwinIsKilledForOther | backend/core/realtime_protection.py:800-840 | on Linux, of two paths that differ in case only, one's process is killed on the scan of the other, its own file never scanned |
| RtpPaths.OwnFileIffNoTwins | backend/core/realtime_protection.py:800-840 | the kills of all runs over some paths rest on scans of the very files killed if and only if no two of the paths differ in case only |
| RtpPaths.CachedLoopRefuses | backend/core/realtime_protection.py:1160-1182 | a run in which the cached loop refuses a kill, for an unreadable path, that a loop without a cache makes |
| RtpPaths.ReplacedFileShows | backend/core/realtime_protection.py:842-899 | a file replaced between its scan and the reading of its fingerprint is stored with its predecessor's verdict, and the plan differs from that of a rescan |
| RtpPaths.TransparentIffPairsAgree | backend/core/realtime_protection.py:1404-1492 | with no assumption on fingerprints: the cache cannot be seen in the plans of any run over some events if and only if, whenever the scan of one of them would answer for another, it gives the plan of the other's own scan |
| RtpTables.ShippedKillsAreOfOwnFileIff | backend/core/realtime_protection.py:800-840 | the same for the shipped Linux tables |
| RtpWorker.RealTimeProtectionWorker.CacheScanDecision | backend/core/realtime_protection.py:800-821 | storing a decision, the older half dropped key by key on overflow, is the specified store |
| RtpWorker.RealTimeProtectionWorker.DropOlderHalf | backend/core/realtime_protection.py:809-814 | an overflow removes exactly the oldest-inserted half |
| RtpWorker.RealTimeProtectionWorker.GetCachedScanEntry | backend/core/realtime_protection.py:823-840 | a hit has the current fingerprint; a stale entry is removed and every other one kept |
| RtpWorker.RealTimeProtectionWorker.ExecuteProcessAction | backend/core/realtime_protection.py:1113-1200 | the result for every live identity, and a kill call exactly when identity and path allow it |
| RtpWorker.RealTimeProtectionWorker.ExecuteFileAction | backend/core/realtime_protection.py:1202-1272 | the file result, and a vault call exactly after a termination |
| RtpWorker.RealTimeProtectionWorker.ApplyEnforcement | backend/core/realtime_protection.py:1773-1837 | the object changes as the enforcement step says, counters and order of calls included |
| RtpWorker.RealTimeProtectionWorker.InspectEvent | backend/core/realtime_protection.py:1404-1497 | the object changes as the inspection step says, on hits and on misses |
| RtpWorker.RealTimeProtectionWorker.HandleEvent | backend/core/realtime_protection.py:1318-1497 | one event takes the object's whole state to the specified next state and keeps the cache valid |
| RtpWorker.RealTimeProtectionWorker.RunWindows | backend/core/realtime_protection.py:1318-1497 | the event loop computes the run, its laws are proved of, of the events before the first look-up that raises, and reports whether one did |
| RtpSpec.WatcherStaysEnded | backend/core/realtime_protection.py:1384-1386 | nothing that arrives after a look-up that raises is handled |
| RtpSpec.WatcherHandlesAll | backend/core/realtime_protection.py:1384-1386 | until then every arrival is |
| RtpWorker.RealTimeProtectionWorker.PollProcesses | backend/core/realtime_protection.py:1569-1751 | one poll, aborted or completed, changes seen PIDs and worker state as specified |
| RtpWorker.RealTimeProtectionWorker.RunLinux | backend/core/realtime_protection.py:1544-1756 | the polling loop computes the polled run its laws are proved of |
| RtpPolling.SeenAfterPoll | backend/core/realtime_protection.py:1742-1751 | after a completed poll the seen PIDs are exactly those it listed; an aborted one only adds those it got to |
| RtpPolling.CompletedByCause | backend/core/realtime_protection.py:1569-1751 | a poll completes exactly if its iterator does and no look-up of a new process that it does not pass over raises |
| RtpPolling.SeenIffRemembered | backend/core/realtime_protection.py:1569-1620 | a PID is remembered if and only if some poll (or the first snapshot) listed it and every completed poll since listed it too |
| RtpPolling.ActedTwiceMeansGoneBetween | backend/core/realtime_protection.py:1569-1620 | a PID is acted on twice only if some completed poll in between did not list it |
| RtpPolling.ReadIffReached | backend/core/realtime_protection.py:1569-1620 | the PIDs a poll got to read are exactly those of the readable entries before its first failure |
| RtpPolling.NewPidIsActedOnIff | backend/core/realtime_protection.py:1608-1640 | a PID no poll has marked yet, because polls aborted too, is remembered by the first poll that gets to it and acted on exactly if its event is admitted and its look-up does not raise |
| RtpPolling.FailedIsForgotten | backend/core/realtime_protection.py:1617-1619 | a process whose look-up raised is marked all the same: no later poll acts on it unless a completed poll in between missed it |
| RtpPolling.ReadThenActedMeansGoneBetween | backend/core/realtime_protection.py:1569-1620 | a PID a poll got to read is acted on later only if some completed poll in between did not list it |
| RtpPolling.HandledWereListed | backend/core/realtime_protection.py:1569-1620 | what a poll passes on was listed in it, and what it acts on are the admitted ones of these, in order |
| RtpPolling.PolledEventsWereListed | backend/core/realtime_protection.py:1544-1756 | every event of a polled run was listed, new, in one of its polls |
| RtpPolling.PolledRunIsARun | backend/core/realtime_protection.py:1544-1756 | the worker state of every polled run is that of the run of exactly the events its polls pass on, poll after poll, so all laws of runs hold of them event by event |
| RtpDisplay.PidReadBack | backend/core/realtime_protection.py:125-154 | the bracketed PID found first in the printed text is the event's, because names arrive lower-cased and the pattern is not |
| RtpDisplay.DigitsSpellTheNumber | backend/core/realtime_protection.py:125-154 | the digits printed for a PID spell that number, so what is read back is the PID itself |
| RtpDisplay.ActionLineMarks | backend/core/realtime_protection.py:125-154 | the printed process-action line carries the log-only marker exactly for that action and the kill marker for a kill |
| RtpDisplay.ContainsInLines | backend/core/realtime_protection.py:2147-2159 | a marker without line breaks occurs in the text exactly if it occurs in one of its lines |
| RtpBridge.RealTimeProtectionBridge.OnThreat | backend/core/realtime_protection.py:2147-2159 | the pending outcomes change as the specified reception of a threat text says |
| RtpBridge.RealTimeProtectionBridge.OnProcessDetected | backend/core/realtime_protection.py:2170-2179 | a detection consumes its pending outcome and appends its line |
| RtpBridge.LabelIsRightIff | backend/core/realtime_protection.py:2147-2179 | a flagged event is labelled by its own plan, whatever came before, if and only if it is not a kill whose text imitates the log-only marker in another line |
| RtpBridge.LabelsMatchPlans | backend/core/realtime_protection.py:1417-1428 | over every run, with first-in-first-out delivery, nothing stays pending between events, and the detection lines carry the labels of their own events' plans if and only if no text of a kill imitates the log-only marker |
| RtpBridge.PathImitates | backend/core/realtime_protection.py:2147-2179 | a file whose path holds the log-only marker: its kill is shown as flagged |
| RtpBridge.AtMostOnePending | backend/core/realtime_protection.py:2147-2179 | over every run, at most one PID is pending at every moment of the delivery |
| RtpBridge.QueueComesFromLog | backend/core/realtime_protection.py:1836-1837 | the delivered queue is what the log of the same run leaves on the two signals |
| RtpTables.ShippedCachesStayBounded | backend/core/realtime_protection.py:786-821 | with the shipped tables of either platform no run keeps more than 5000 scans |
| RtpTables.HelperNamesAreWhitelisted | backend/core/realtime_protection.py:178-337 | every helper name is on the process whitelist |
| RtpTables.WindowsNeverReachesTrustedHelpers | backend/core/realtime_protection.py:1369-1402 | with the Windows tables every admitted event is inspected |
| WorkerSpec.MapsAlwaysAgree | backend/core/workers.py:125-177 | after every step the active workers, the watched workers and the thresholds have the same keys |
| WorkerLaws.StartsAreConserved | backend/api/backend_bridge.py:1565-1645 | per id: starts = callback removals + stalls + unguarded replacements + 1 if active; deliveries never exceed removals; guarded ids are never replaced |
| WorkerLaws.StalledExactlyOnce | backend/core/workers.py:154-177 | a registered worker is reported, and stalled, exactly once if some check comes more than its threshold after its last heartbeat, else not at all, and until then it stays active; guarded starts before that and late callbacks after it change nothing |
| WorkerLaws.StepAfterRemoval | backend/core/workers.py:139-152 | a heartbeat, check or late callback after the removal neither revives nor reports a worker |
| WorkerLaws.UnheardWorkerIsStalled | backend/api/backend_bridge.py:1638-1645 | a worker whose heartbeats are not connected, whatever its threshold, and not called back, is stalled, once, if and only if some check comes later than that threshold after its start: by default 15 seconds |
| WorkerJobs.JobsRunIsARun | backend/core/workers.py:67-99 | every run of workers with their queued signals is, on the ids, a run of starts, callbacks and checks, so all laws of ids hold of it |
| WorkerJobs.SystemsStayValid | backend/api/backend_bridge.py:1565-1750 | after every run each active id has its worker, and the three key sets agree |
| WorkerJobs.SilenceIsKept | backend/core/workers.py:67-99 | a worker cancelled before its task returns in time emits only the signal no slot hears, whatever else happens |
| WorkerJobs.CancelledIdStaysTaken | backend/api/backend_bridge.py:3595-3605 | after the cancellation of a running worker, as long as tasks of its id return in time: every guarded start is refused, and the id is freed by a check exactly when it comes more than the threshold after the last heartbeat |
| WorkerJobs.FailingJobFreesItsId | backend/core/workers.py:70-99 | the counterpart: a worker whose task raises or overruns, cancelled or not, frees its id when its signal is delivered, however late |
| WorkerJobs.CourseOfAJob | backend/api/backend_bridge.py:1565-1645 | from start to end: a worker whose task returns in time holds its id, its signal delivers the result if that can be saved, and the id is free |
| WorkerJobs.StalledAreCancelled | backend/api/backend_bridge.py:1413-1429 | the worker that a check stalls is told to stop, so its end is as silent |
| Workers.CancellableWorker.EndOfRun | backend/core/workers.py:67-99 | which of the three terminal signals a run emits: `error` exactly for an exception or an overrun, `cancelled` and `finished` exactly for the returns in time that were and were not cancelled |
| Workers.WorkerWatchdog.RegisterWorker | backend/core/workers.py:125-137 | registration sets heartbeat and threshold and keeps dictionary order |
| Workers.WorkerWatchdog.Heartbeat | backend/core/workers.py:139-143 | a heartbeat of an unknown worker changes nothing |
| Workers.WorkerWatchdog.UnregisterWorker | backend/core/workers.py:145-152 | the worker leaves both maps, everyone else stays |
| Workers.WorkerWatchdog.StaleWorkers | backend/core/workers.py:154-170 | a check finds exactly the overdue workers, in dictionary order |
| Workers.BackendBridge.StartScan | backend/api/backend_bridge.py:1565-1579 | a guarded start of an active id changes nothing; any other registers a new uncancelled worker and leaves the others |
| Workers.BackendBridge.OnSuccess | backend/api/backend_bridge.py:1580-1626 | a success callback delivers unless saving raises, and removes the id from all three maps; late ones of an inactive id do nothing |
| Workers.BackendBridge.OnError | backend/api/backend_bridge.py:1627-1645 | an error callback delivers and removes; late ones do nothing |
| Workers.BackendBridge.Deliver | backend/api/backend_bridge.py:1638-1645 | a queued signal runs the slot it is connected to; `cancelled` runs none |
| Workers.BackendBridge.OnWorkerStalled | backend/api/backend_bridge.py:1413-1429 | a stall removes the worker everywhere and cancels that worker and no other |
| Workers.BackendBridge.CheckWorkers | backend/core/workers.py:154-177 | a check stalls exactly the overdue workers; those that leave, and only those, are cancelled |
| Workers.BackendBridge.CancelUrlScan | backend/api/backend_bridge.py:3595-3605 | the first active URL scan in dictionary order, if any, is asked to cancel; maps and all other workers stay as they are |
| ResultCache.Cache.GetValue | backend/core/result_cache.py:39-60 | a live value or a miss, and an expired entry is dropped |
| ResultCache.Cache.SetValue | backend/core/result_cache.py:62-80 | the entry with its expiry, a TTL of 0 meaning the default, and the file written |
| ResultCache.Cache.CleanupExpired | backend/core/result_cache.py:99-112 | exactly the expired entries are dropped, the file stays |
| ResultCache.Cache.ClearAll | backend/core/result_cache.py:89-97 | cache and file are emptied |
| ResultCache.Cache.InvalidateKey | backend/core/result_cache.py:82-87 | the key is dropped from memory, the file stays |
| ResultCache.Cache.SaveToDisk | backend/core/result_cache.py:114-136 | the file holds exactly the serializable entries |
| ResultCache.Cache.LoadFromDisk | backend/core/result_cache.py:138-157 | the cache holds exactly the unexpired entries of the file |
| ResultCache.GetRefinesTimedMap | backend/core/result_cache.py:39-112 | with a clock that never runs back, `get` answers like the last `set` of the key, or what the last restart found for it, not since invalidated or cleared, exactly before its expiry |
| ResultCache.SetLivesForItsTtl | backend/core/result_cache.py:62-80 | a value set is there until its own TTL has passed, or the default one if none or zero was given |
| ResultCache.CacheHoldsLastSets | backend/core/result_cache.py:39-112 | over any number of sessions, on every history and clock, what is in memory (the last sets, or what a restart loaded, not since dropped as expired) and what is on file |
| ResultCache.GetAgreesUnlessDropped | backend/core/result_cache.py:39-112 | on every history and every clock, `get` answers like the plain timed map if and only if the key was not dropped as expired while the clock now says it is alive |
| ResultCache.ClockSetBackShows | backend/core/result_cache.py:99-112 | for every key, value and TTL: a clean-up at or after the expiry shows to a clock set back before it |
| ResultCache.FileIsLastWrite | backend/core/result_cache.py:114-136 | the file is what the last `set` or `clear` left, or what was there before any |
| ResultCache.OnFileIsLastWrite | backend/core/result_cache.py:114-136 | for each key the file holds the JSON copy of what memory held at the last write, over any restarts |
| ResultCache.RestartRoundTrip | backend/core/result_cache.py:138-157 | over any sessions and on every clock, a restart finds exactly what memory held at the last write, as JSON copies it, that is still unexpired, with its expiry |
| ResultCache.RestartAgreesUnlessInvalidated | backend/core/result_cache.py:82-87 | on every history, clock and JSON copy, when a restart answers like the running cache: without writes since the last restart, if what the file holds alive was not invalidated or dropped; otherwise, if what memory held alive at the last write was not and is copied unchanged, or was and cannot be written |
| SnapshotProtocol.SingleFlight | backend/utils/security_snapshot.py:477-521 | under every interleaving, invalidations included, the lock is held exactly by the thread inside it and at most one collection runs |
| SnapshotProtocol.ResultsAreFresh | backend/utils/security_snapshot.py:477-521 | under every interleaving, invalidations included, every snapshot returned has a stamp, once written, later than the call's start minus the TTL, and nothing is returned instead only if the cache was dropped |
| SnapshotProtocol.CallIsServed | backend/utils/security_snapshot.py:477-521 | under every interleaving, invalidations included, a call ends with a result of its own kind and no earlier time unless its own collection fails, and a forced call gets the snapshot of a collection its own thread began after the call |
| SnapshotProtocol.CollectsIff | backend/utils/security_snapshot.py:489-511 | a step begins a collection exactly under the lock when forced, without a cached snapshot, or with one a whole TTL old |
| SnapshotProtocol.FreshCallTakesCache | backend/utils/security_snapshot.py:489-499 | an unforced call that finds the cache fresh returns it and begins nothing |
| SnapshotProtocol.InvalidatedCallCollects | backend/utils/security_snapshot.py:540-543 | the first call after an invalidation begins a collection |
| SnapshotProtocol.DropBeforeTakeReturnsNothing | backend/utils/security_snapshot.py:491-503 | a cache dropped between a reader's test and its second read makes it return nothing |
| SnapshotProtocol.BurstCollectsOnce | backend/utils/security_snapshot.py:491-521 | an unforced caller collects again only if it arrived a whole TTL after the stamp of every earlier collection that no invalidation step had followed |
| GpuHistory.GPUServiceBridge.UpdateHistory | backend/api/gpu_service.py:140-156 | every ring of every GPU records its own stream, and no other; a number too large to convert ends the refresh there, with the fields before it recorded |
| GpuHistory.GPUServiceBridge.UpdateGpu | backend/api/gpu_service.py:143-156 | one GPU's metrics extend exactly that GPU's rings, up to the field that raises |
| GpuHistory.GPUServiceBridge.ClearHistory | backend/api/gpu_service.py:335-339 | all histories start again |
| GpuHistory.GPUServiceBridge.GetHistory | backend/api/gpu_service.py:303-319 | the last 60 points of the field's carried-forward metric stream since the last clear, and none for an unknown field |
| GpuHistory.RingIsTailOfLocf | backend/api/gpu_service.py:125-156 | a ring holds the last 60 points of the last-observation-carried-forward stream since the last clear |
| GpuHistory.LocfPoint | backend/api/gpu_service.py:140-156 | every carried-forward point is the latest genuine sample at its time, and nothing precedes the first one |
| GpuHistory.SampleByCause | backend/api/gpu_service.py:158-176 | a sample is a number the metric holds, not NaN, with a status that is absent or "ok" |
| GpuHistory.HistoryIsTailOfStream | backend/api/gpu_service.py:303-319 | point by point, what these last points are: the latest genuine samples at their times |
| GpuHistory.ShippedFieldsAreDistinct | backend/api/gpu_service.py:21-37 | no two metrics share a ring |
| Shredder.ChunkExtendsPrefix | backend/utils/secure_delete.py:177-192 | a chunk behind a written-once prefix makes a longer written-once prefix |
| Shredder.PercentGrows | backend/utils/secure_delete.py:190-191 | the exact percentage never falls, stays within 100 and ends at 100 |
| Shredder.PercentIsShare | backend/utils/secure_delete.py:190-191 | the percentage is the share written, rounded down |
| Shredder.FileShredder.NextChunk | backend/utils/secure_delete.py:186-191 | one chunk extends the overwritten prefix by at most the chunk size and the progress with it |
| Shredder.FileShredder.OverwritePass | backend/utils/secure_delete.py:170-197 | a finished pass overwrote every byte exactly once; an unfinished one an exact prefix, and for a stated reason |
| Shredder.FileShredder.ShredFile | backend/utils/secure_delete.py:147-230 | for every size, pass count, cancellation point and refused call: the exact contents and writes; the file removed if and only if no poll of the run finds the event set and no call of it is refused, and then with all passes finished and the stated number of polls; success exactly if also the verification, when asked for, has an answer; cancellation at the first poll that finds the event set; failure only by a call that raises |
| Notifications.NotificationService.PushNotification | backend/api/notification_service.py:33-63 | the new item comes first, the list is cut at 100, the counter grows |
| Notifications.NotificationService.ClearNotification | backend/api/notification_service.py:131-151 | the first item with the id is removed, found or not is reported, the counter falls if it was unread |
| Notifications.NotificationService.MarkAsRead | backend/api/notification_service.py:172-179 | the first unread item with the id is marked and counted off |
| Notifications.NotificationService.MarkAllAsRead | backend/api/notification_service.py:163-169 | every item is read and the counter is zero |
| Notifications.NotificationService.ClearAllNotifications | backend/api/notification_service.py:154-161 | the list is empty and the counter zero |
| Notifications.UnreadIsConserved | backend/api/notification_service.py:57-63 | over every operation sequence the counter is the unread items in the list plus those evicted unread since the last reset; the list is newest first and at most 100 long |
| Notifications.ClampIsIdle | backend/api/notification_service.py:141-179 | the clamp at zero never takes effect |
| Notifications.BadgeIsRightIffNothingEvicted | backend/api/notification_service.py:112-115 | the badge equals the unread items in the list if and only if none was evicted since the last reset |

## Left out

* Import lines as regular expressions: a line is a parsed statement (dots, module
  path, or the text behind `import`, one module each); imported names, string
  literals and the reading and writing of files are not modelled.
* Moving files beyond the move function; QML, TOML and spec patching; new
  `__init__.py` files; verification and clean-up of the tree.
* `\w`, `\d`, lower-casing and stripping cover ASCII only.
* Canonical paths, base names, the own directory tree and parent executables are
  answers given with each event; symbolic links are not resolved by the model.
* The scanner, `build_final_decision` (except its failure decision) and the
  quarantine vault are arbitrary answers; `signature_valid` is one of true, false
  and unknown.
* Reason strings, log texts, hashes in the plan, and time formatting; the free
  texts of a threat are arbitrary.
* The Windows event source, its reconnects and sleeping, stop requests in the middle
  of an event, and threat records beyond the counters and signals.
* Packages without an `__init__.py`; files that cannot be read or decoded, which the
  script also leaves alone.
- ImportFiles.FilesKeepTheirImports: leaves out files of a backend/ directory that existed before the migration, because the script takes them for moved ones, and files below directories whose names are no identifiers, because nothing in them is importable by name.
- RtpRuns.CacheStaysBounded: assumes a maximum of at least 2, because with 0 or 1 the dropped half is empty; the shipped maximum is 5000.
- RtpTransparency.PlansAreTheSame: assumes that the outcome of a scan is explained by every fingerprint read in that event, because the code reads it up to three times; without the assumption the exact condition is RtpPaths.TransparentIffPairsAgree.
- RtpBridge.LabelsMatchPlans: assumes that no heading holds an opening bracket, because headings are an icon, a time and two words.
* In-progress flags, their resets, toasts and results shown; the other slots of
  the bridge object; network, AI and sandbox workers beyond the shared protocol.
* The mutex of the watchdog and Qt's thread pool: each operation is one step.
* I/O errors and locks of the result cache, `make_key`; a stored `None` cannot be
  told from a miss.
* The singleton and what a snapshot contains.
* GPU worker process, circuit breaker and getters other than the history.
* The shredder's path validation, log, messages and rename, delete and verify
  reports; percentages are exact integers; a chunk is written completely or not
  at all.
* Titles, texts and types of notifications; toasts.
