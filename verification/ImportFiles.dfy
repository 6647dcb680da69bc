/** Where files land, and which import statements of which files keep naming the
    file they named: scripts/refactor_project.py, lines 139-320 and 359-433. */
module ImportFiles {
  import opened Wrappers
  import opened Text
  import opened ImportTables
  import opened ImportRewrite
  import opened ImportStatements
  import opened ImportApplication

  // ---- where a file lands ----

  /** The file and every directory above it exist. */
  ghost predicate OnDisk(present: set<Path>, path: Path) {
    forall n :: 0 < n <= |path| ==> path[..n] in present
  }

  predicate InTools(path: Path) {
    |path| > 1 && path[0] == "tools" && path[1] in TOOL_DIRS
  }

  predicate InQml(path: Path) {
    path != [] && path[0] == "qml"
  }

  /** All of the plan in one expression. */
  function Landing(subs: seq<Sub>, roots: seq<string>, path: Path): Path {
    if |path| > 1 && path[0] == "app" then
      if Find(subs, path[1]) != [] then ["backend"] + Find(subs, path[1])[0].newParts + path[2..]
      else if path[1] in roots then ["backend"] + path[1..]
      else path
    else if InTools(path) then ["payload"] + path[1..]
    else if InQml(path) then ["frontend"] + path
    else path
  }

  lemma TopsDiffer()
    ensures "app" != "tools" && "app" != "qml" && "tools" != "qml"
  {
    assert "app"[0] == 'a' && "tools"[0] == 't' && "qml"[0] == 'q';
  }

  lemma AppMoveLands(
    subs: seq<Sub>, roots: seq<string>, present: set<Path>, moves: seq<Move>, m: Move, path: Path)
    requires WellFormed(subs, roots) && IsPlan(moves, subs, roots, present)
    requires m in moves && path != [] && path[0] == "app" && m.src <= path
    ensures m.dst + path[|m.src|..] == Landing(subs, roots, path)
  {
    MovesOutOfApp(subs, roots, present, moves, m, path);
    EntryLands(subs, roots, m, path);
  }

  lemma EntryLands(subs: seq<Sub>, roots: seq<string>, m: Move, path: Path)
    requires WellFormed(subs, roots) && |path| > 1 && path[0] == "app" && TakesEntry(subs, roots, path[1], m)
    requires m.src == path[..2]
    ensures m.dst + path[|m.src|..] == Landing(subs, roots, path)
  {
    EntryKinds(subs, roots, path[1]);
    if Find(subs, path[1]) == [] {
      assert ["backend", path[1]] + path[2..] == ["backend"] + path[1..];
    }
  }

  lemma OtherMoveLands(subs: seq<Sub>, roots: seq<string>, m: Move, path: Path)
    requires IsOtherMove(m) && m.src <= path
    ensures m.dst + path[|m.src|..] == Landing(subs, roots, path)
  {
    TopsDiffer();
    if m == QmlMove() {
      assert path[0] == m.src[0];
      assert ["frontend", "qml"] + path[1..] == ["frontend"] + path;
    } else {
      var d :| d in TOOL_DIRS && m == ToolMove(d);
      assert path[0] == m.src[0] && path[1] == m.src[1];
      assert ["payload", d] + path[2..] == ["payload"] + path[1..];
    }
  }

  lemma MoveLands(
    subs: seq<Sub>, roots: seq<string>, present: set<Path>, moves: seq<Move>, m: Move, path: Path)
    requires WellFormed(subs, roots) && IsPlan(moves, subs, roots, present)
    requires m in moves && m.src <= path
    ensures m.dst + path[|m.src|..] == Landing(subs, roots, path)
  {
    if IsOtherMove(m) {
      OtherMoveLands(subs, roots, m, path);
    } else {
      assert m.src[0] == path[0];
      AppMoveLands(subs, roots, present, moves, m, path);
    }
  }

  lemma OtherMoveExists(subs: seq<Sub>, roots: seq<string>, present: set<Path>, moves: seq<Move>, path: Path)
    requires IsPlan(moves, subs, roots, present) && OnDisk(present, path)
    requires InTools(path) || InQml(path)
    ensures exists m :: m in moves && m.src <= path
  {
    if InTools(path) {
      assert path[..2] == ["tools", path[1]];
      assert ToolMove(path[1]) in moves;
    } else {
      assert path[..1] == ["qml"];
      assert QmlMove() in moves;
    }
  }

  /** What would land elsewhere has its move in the plan. */
  lemma MoveOfLanding(subs: seq<Sub>, roots: seq<string>, present: set<Path>, moves: seq<Move>, path: Path)
    requires WellFormed(subs, roots) && IsPlan(moves, subs, roots, present) && OnDisk(present, path)
    requires Landing(subs, roots, path) != path
    ensures exists m :: m in moves && m.src <= path
  {
    if |path| > 1 && path[0] == "app" {
      AppMoveExists(subs, roots, present, moves, path);
    } else {
      OtherMoveExists(subs, roots, present, moves, path);
    }
  }

  /** The plan, executed move by move, puts every file on disk where `Landing` says. */
  lemma RelocateIsLanding(
    subs: seq<Sub>, roots: seq<string>, present: set<Path>, moves: seq<Move>, path: Path)
    requires WellFormed(subs, roots) && IsPlan(moves, subs, roots, present) && OnDisk(present, path)
    ensures Relocate(moves, path) == Landing(subs, roots, path)
  {
    if exists m :: m in moves && m.src <= path {
      var m := RelocateSome(moves, path);
      MoveLands(subs, roots, present, moves, m, path);
    } else {
      RelocateNone(moves, path);
      if Landing(subs, roots, path) != path {
        MoveOfLanding(subs, roots, present, moves, path);
      }
    }
  }

  // ---- the same on module names ----

  predicate ToolMoved(kind: Kind, name: Name) {
    |name| > 1 && name[0] == "tools" && name[1] in TOOL_DIRS && (|name| > 2 || kind == Package)
  }

  predicate QmlMoved(kind: Kind, name: Name) {
    name != [] && name[0] == "qml" && (|name| > 1 || kind == Package)
  }

  /** The module name of the place where the module's file lands. */
  function LandedName(subs: seq<Sub>, roots: seq<string>, kind: Kind, name: Name): Name {
    if Moved(subs, roots, kind, name) then MoveName(subs, name)
    else if ToolMoved(kind, name) then ["payload"] + name[1..]
    else if QmlMoved(kind, name) then ["frontend"] + name
    else name
  }

  /** The module lands where the rewriters believe it does: outside app, tools and
      qml every module; inside, those the plan moves, except that nothing renames
      what was below qml. */
  predicate Lands(subs: seq<Sub>, roots: seq<string>, kind: Kind, name: Name) {
    name != [] &&
    if name[0] == "app" then Moved(subs, roots, kind, name)
    else if name[0] == "tools" then ToolMoved(kind, name)
    else !QmlMoved(kind, name)
  }

  /** A name that does not end in a file's suffix. */
  lemma FileNameDiffers(word: string, entry: string)
    requires Identifier(entry)
    ensures word + ".py" != entry
  {
    FileNamesAreNotIdentifiers(word);
  }

  lemma ToolDirsAreIdentifiers(d: string)
    requires d in TOOL_DIRS
    ensures Identifier(d)
  {
    ToolDirectoriesAreIdentifiers();
  }

  lemma TopsAreWords()
    ensures Identifier("app") && Identifier("tools") && Identifier("qml")
  {
  }

  lemma SourceHead(kind: Kind, name: Name, top: string)
    requires name != [] && Identifiers(name) && Identifier(top)
    ensures SourceFile(kind, name)[0] == top <==> name[0] == top && (|name| > 1 || kind == Package)
    ensures name[0] == top && (|name| > 1 || kind == Package) ==> |SourceFile(kind, name)| > 1
  {
    FileNameDiffers(name[0], top);
  }

  lemma SourceSecond(kind: Kind, name: Name, d: string)
    requires |name| > 1 && Identifiers(name) && Identifier(d)
    ensures SourceFile(kind, name)[1] == d <==> name[1] == d && (|name| > 2 || kind == Package)
  {
    FileNameDiffers(name[1], d);
  }

  lemma SourceOfTools(kind: Kind, name: Name)
    requires name != [] && Identifiers(name)
    ensures InTools(SourceFile(kind, name)) <==> ToolMoved(kind, name)
    ensures ToolMoved(kind, name) ==>
              ["payload"] + SourceFile(kind, name)[1..] == SourceFile(kind, ["payload"] + name[1..])
  {
    TopsAreWords();
    SourceHead(kind, name, "tools");
    if name[0] == "tools" && |name| > 1 {
      forall d | d in TOOL_DIRS ensures Identifier(d) {
        ToolDirsAreIdentifiers(d);
      }
      SecondInTools(kind, name);
    } else if name[0] == "tools" && kind == Package {
      assert SourceFile(kind, name)[1] == "" + "__init__" + ".py";
      forall d | d in TOOL_DIRS ensures d != "__init__" + ".py" {
        ToolDirsAreIdentifiers(d);
        FileNameDiffers("__init__", d);
      }
    }
    if ToolMoved(kind, name) {
      SourceBelow(kind, name, ["payload"]);
    }
  }

  lemma SecondInTools(kind: Kind, name: Name)
    requires |name| > 1 && Identifiers(name)
    ensures SourceFile(kind, name)[1] in TOOL_DIRS <==> name[1] in TOOL_DIRS && (|name| > 2 || kind == Package)
  {
    var second := SourceFile(kind, name)[1];
    if second in TOOL_DIRS {
      ToolDirsAreIdentifiers(second);
      SourceSecond(kind, name, second);
    }
    if name[1] in TOOL_DIRS {
      ToolDirsAreIdentifiers(name[1]);
      SourceSecond(kind, name, name[1]);
    }
  }

  lemma SourceBelow(kind: Kind, name: Name, above: Name)
    requires |name| > 1
    ensures above + SourceFile(kind, name)[1..] == SourceFile(kind, above + name[1..])
  {
    SourceFileBelow(kind, name[..1], name[1..]);
    SourceFileBelow(kind, above, name[1..]);
    assert name == name[..1] + name[1..];
  }

  lemma SourceOfQml(kind: Kind, name: Name)
    requires name != [] && Identifiers(name)
    ensures InQml(SourceFile(kind, name)) <==> QmlMoved(kind, name)
    ensures ["frontend"] + SourceFile(kind, name) == SourceFile(kind, ["frontend"] + name)
  {
    TopsAreWords();
    SourceHead(kind, name, "qml");
    SourceFileBelow(kind, ["frontend"], name);
  }

  lemma SourceOfApp(subs: seq<Sub>, roots: seq<string>, kind: Kind, name: Name)
    requires WellFormed(subs, roots) && Identifiers(name) && name != [] && name[0] == "app"
    ensures Landing(subs, roots, SourceFile(kind, name)) ==
            SourceFile(kind, if Moved(subs, roots, kind, name) then MoveName(subs, name) else name)
  {
    if Moved(subs, roots, kind, name) {
      MovedSource(subs, roots, kind, name);
    } else if |name| > 1 {
      UnmovedSource(subs, roots, kind, name);
    } else {
      SourceOfAppItself(subs, roots, kind, name);
    }
  }

  lemma UnmovedSource(subs: seq<Sub>, roots: seq<string>, kind: Kind, name: Name)
    requires WellFormed(subs, roots) && Identifiers(name) && |name| > 1 && name[0] == "app"
    requires !Moved(subs, roots, kind, name)
    ensures Landing(subs, roots, SourceFile(kind, name)) == SourceFile(kind, name)
  {
    TopsAreWords();
    SourceHead(kind, name, "app");
    EntryOfModule(subs, roots, kind, name);
  }

  lemma SourceOfAppItself(subs: seq<Sub>, roots: seq<string>, kind: Kind, name: Name)
    requires WellFormed(subs, roots) && Identifiers(name) && |name| == 1 && name[0] == "app"
    ensures Landing(subs, roots, SourceFile(kind, name)) == SourceFile(kind, name)
  {
    if kind == Package {
      AppItself(subs, roots, kind);
      assert name == ["app"] && "__init__" + ".py" == "__init__.py";
      assert SourceFile(kind, name) == ["app", "__init__" + ".py"];
      InitStays(subs, roots, "__init__" + ".py");
    } else {
      TopsAreWords();
      SourceHead(kind, name, "qml");
      TopsDiffer();
    }
  }

  lemma InitStays(subs: seq<Sub>, roots: seq<string>, f: string)
    requires Find(subs, f) == [] && f !in roots
    ensures Landing(subs, roots, ["app", f]) == ["app", f]
  {
    TopsDiffer();
  }

  /** The package app itself has no entry in the plan. */
  lemma AppItself(subs: seq<Sub>, roots: seq<string>, kind: Kind)
    requires WellFormed(subs, roots)
    ensures Find(subs, "__init__" + ".py") == [] && "__init__" + ".py" !in roots
  {
    if Find(subs, "__init__" + ".py") != [] {
      FindIsMapped(subs, roots, "__init__" + ".py");
      FileNamesAreNotIdentifiers("__init__");
    }
    assert "__init__" + ".py" == "__init__.py";
  }

  lemma MovedSource(subs: seq<Sub>, roots: seq<string>, kind: Kind, name: Name)
    requires WellFormed(subs, roots) && Identifiers(name) && Moved(subs, roots, kind, name)
    ensures Landing(subs, roots, SourceFile(kind, name)) == SourceFile(kind, MoveName(subs, name))
  {
    var file := SourceFile(kind, name);
    EntryOfModule(subs, roots, kind, name);
    if Find(subs, file[1]) != [] {
      LandingOfModule(subs, roots, kind, name, SubMove(Find(subs, file[1])[0]));
    } else {
      LandingOfModule(subs, roots, kind, name, RootMove(file[1]));
      assert ["backend", file[1]] + file[2..] == ["backend"] + file[1..];
    }
  }

  /** On files and on names the plan does the same. */
  lemma LandingOfSource(subs: seq<Sub>, roots: seq<string>, kind: Kind, name: Name)
    requires WellFormed(subs, roots) && Identifiers(name) && name != []
    ensures Landing(subs, roots, SourceFile(kind, name)) == SourceFile(kind, LandedName(subs, roots, kind, name))
  {
    TopsAreWords();
    TopsDiffer();
    SourceHead(kind, name, "app");
    if name[0] == "app" {
      SourceOfApp(subs, roots, kind, name);
    } else {
      SourceOfTools(kind, name);
      SourceOfQml(kind, name);
    }
  }

  lemma SourceFileIsInjective(kind: Kind, a: Name, b: Name)
    requires a != [] && b != []
    ensures SourceFile(kind, a) == SourceFile(kind, b) <==> a == b
  {
    if SourceFile(kind, a) == SourceFile(kind, b) {
      var m, n := |a| - 1, |b| - 1;
      if kind == Package {
        assert SourceFile(kind, a)[..|a|] == a && SourceFile(kind, b)[..|b|] == b;
      } else {
        assert SourceFile(kind, a)[..m] == a[..m] && SourceFile(kind, b)[..n] == b[..n];
        assert (a[m] + ".py")[..|a[m]|] == a[m] && (b[n] + ".py")[..|b[n]|] == b[n];
        assert a == a[..m] + [a[m]] && b == b[..n] + [b[n]];
      }
    }
  }

  /** `Lands` says when the rewriters' name is the landed one. */
  lemma LandsIff(subs: seq<Sub>, roots: seq<string>, kind: Kind, name: Name)
    requires WellFormed(subs, roots) && Identifiers(name) && name != []
    ensures Lands(subs, roots, kind, name) <==> NewName(subs, name) == LandedName(subs, roots, kind, name)
  {
    TopsDiffer();
    NewNamesAreIdentifiers(subs, roots, name);
    if name[0] == "app" {
      assert "backend"[0] != "app"[0];
    } else if name[0] == "tools" {
      assert "payload"[0] != "tools"[0];
    }
  }

  // ---- statements of files ----

  /** The import names, before the migration, a module that has a file there; and
      afterwards the file this module's file has become. An import that Python
      rejects stays one. */
  predicate KeepsFile(moves: seq<Move>, kind: Kind, before: Option<Name>, after: Option<Name>) {
    match before
    case None => after == None
    case Some(t) =>
      && t != [] && after.Some? && after.value != []
      && SourceFile(kind, after.value) == Relocate(moves, SourceFile(kind, t))
  }

  /** The target, if there is one, exists. */
  ghost predicate TargetOnDisk(present: set<Path>, kind: Kind, target: Option<Name>) {
    target.Some? && target.value != [] ==> OnDisk(present, SourceFile(kind, target.value))
  }

  predicate TargetLands(subs: seq<Sub>, roots: seq<string>, kind: Kind, target: Option<Name>) {
    target.Some? ==> Lands(subs, roots, kind, target.value)
  }

  lemma KeepsFileIff(
    subs: seq<Sub>, roots: seq<string>, present: set<Path>, moves: seq<Move>, kind: Kind, t: Name, after: Option<Name>)
    requires WellFormed(subs, roots) && IsPlan(moves, subs, roots, present)
    requires t != [] && Identifiers(t) && OnDisk(present, SourceFile(kind, t))
    ensures KeepsFile(moves, kind, Some(t), after) <==> after == Some(LandedName(subs, roots, kind, t))
  {
    RelocateIsLanding(subs, roots, present, moves, SourceFile(kind, t));
    LandingOfSource(subs, roots, kind, t);
    LandedIsNotEmpty(subs, roots, kind, t);
    NamesOneFile(moves, kind, t, LandedName(subs, roots, kind, t), after);
  }

  lemma LandedIsNotEmpty(subs: seq<Sub>, roots: seq<string>, kind: Kind, t: Name)
    requires t != []
    ensures LandedName(subs, roots, kind, t) != []
  {
  }

  lemma NamesOneFile(moves: seq<Move>, kind: Kind, t: Name, landed: Name, after: Option<Name>)
    requires t != [] && landed != [] && Relocate(moves, SourceFile(kind, t)) == SourceFile(kind, landed)
    ensures KeepsFile(moves, kind, Some(t), after) <==> after == Some(landed)
  {
    if after.Some? && after.value != [] {
      SourceFileIsInjective(kind, after.value, landed);
    }
  }

  lemma MeaningIsAName(package: Name, stmt: Stmt)
    requires Identifiers(package) && WellFormedStmt(stmt)
    ensures match Meaning(package, stmt)
            case None => stmt.FromRelative?
            case Some(t) => t != [] && Identifiers(t) && (stmt.FromRelative? ==> package != [] && t[0] == package[0])
  {
    match stmt
    case FromRelative(dots, m) =>
      if package != [] {
        ResolveAgrees(package, dots, m);
      }
    case FromAbsolute(m) => GoodNamesAreDotted(m);
    case ImportBare(text) =>
      var name, tail :| name != [] && Identifiers(name) && Boundary(tail) && text == Dotted(name) + tail;
      MeaningOfBare(package, name, tail);
  }

  /** By the rewriters' names a statement is kept, and its target lands there: then
      and only then its file is kept, provided it never names an unmoved one. */
  lemma KeptByNameAndLanded(
    subs: seq<Sub>, roots: seq<string>, present: set<Path>, moves: seq<Move>, kind: Kind,
    before: Option<Name>, after: Option<Name>, survives: bool)
    requires WellFormed(subs, roots) && IsPlan(moves, subs, roots, present)
    requires before.Some? ==> before.value != [] && Identifiers(before.value)
    requires TargetOnDisk(present, kind, before)
    requires survives <==> match before
                           case None => after == None
                           case Some(t) => after == Some(NewName(subs, t))
    requires before.Some? && !Lands(subs, roots, kind, before.value) ==>
               survives || after != Some(LandedName(subs, roots, kind, before.value))
    ensures KeepsFile(moves, kind, before, after) <==> survives && TargetLands(subs, roots, kind, before)
  {
    if before.Some? {
      KeepsFileIff(subs, roots, present, moves, kind, before.value, after);
      LandsIff(subs, roots, kind, before.value);
    }
  }

  // ---- the files of app ----

  /** `_get_old_package` on a file's new place. */
  function RecoveredPackage(reverse: map<string, string>, file: Path): string {
    if |file| > 1 && file[0] == "backend" then OldPackage(reverse, file[1..|file| - 1]) else ""
  }

  function PackageOf(file: Path): Name
    requires file != []
  {
    file[..|file| - 1]
  }

  // ---- the files the script opens ----

  const SEARCH_DIRS: seq<string> := ["backend", "frontend", "payload", "scripts"]
  const EXTRA_FILES: seq<string> := ["main.py", "_diag.py"]
  const SKIP_PARTS: seq<string> :=
    ["_cleanup_archive", "archive", "build", ".venv", "__pycache__", "refactor_project"]

  /** The walk, after the moves. */
  predicate Visited(file: Path) {
    if |file| == 1 then file[0] in EXTRA_FILES else file != [] && file[0] in SEARCH_DIRS
  }

  predicate Skipped(file: Path) {
    exists i, k :: 0 <= i < |SKIP_PARTS| && 0 <= k < |file| && Contains(file[k], SKIP_PARTS[i])
  }

  /** `any(skip in rel_str for skip in (...))` */
  predicate SkippedText(separator: char, file: Path) {
    exists i :: 0 <= i < |SKIP_PARTS| && Contains(Join(separator, file), SKIP_PARTS[i])
  }

  lemma SkipPartsHaveNoSeparator(i: nat)
    requires i < |SKIP_PARTS|
    ensures SKIP_PARTS[i] != "" && '/' !in SKIP_PARTS[i] && '\\' !in SKIP_PARTS[i]
  {
  }

  lemma SkipPartInOneComponent(separator: char, file: Path, i: nat)
    requires (separator == '/' || separator == '\\') && file != [] && i < |SKIP_PARTS|
    ensures Contains(Join(separator, file), SKIP_PARTS[i]) <==>
            exists k :: 0 <= k < |file| && Contains(file[k], SKIP_PARTS[i])
  {
    SkipPartsHaveNoSeparator(i);
    ContainsInLines(separator, file, SKIP_PARTS[i]);
    if l :| l in file && Contains(l, SKIP_PARTS[i]) {
      var k :| 0 <= k < |file| && file[k] == l;
    }
  }

  /** The test on the path as a text is one on its components. */
  lemma SkippedIsOnComponents(separator: char, file: Path)
    requires (separator == '/' || separator == '\\') && file != []
    ensures SkippedText(separator, file) <==> Skipped(file)
  {
    forall i | 0 <= i < |SKIP_PARTS|
      ensures Contains(Join(separator, file), SKIP_PARTS[i]) <==>
              exists k :: 0 <= k < |file| && Contains(file[k], SKIP_PARTS[i])
    {
      SkipPartInOneComponent(separator, file, i);
    }
  }

  predicate Opened(file: Path) {
    Visited(file) && !Skipped(file)
  }

  const APPLICATION_PY: Path := ["backend", "application" + ".py"]

  /** What becomes of a statement in a file that has landed here: nothing, one pass,
      or both. */
  function StatementAfter(
    rel: seq<Rule>, rules: seq<Rule>, reverse: map<string, string>, landed: Path, stmt: Stmt): Stmt
  {
    if !Opened(landed) then stmt
    else
      var once := RewriteLine(rules, RecoveredPackage(reverse, landed), stmt);
      if landed == APPLICATION_PY then RewriteApplication(rel, once) else once
  }

  /** The whole migration on one statement of one file: the file is moved and, if the
      script opens it where it lands, the line rewritten. */
  predicate KeptInFile(
    rel: seq<Rule>, rules: seq<Rule>, reverse: map<string, string>, moves: seq<Move>,
    file: Path, kind: Kind, stmt: Stmt)
    requires file != []
  {
    var landed := Relocate(moves, file);
    landed != [] &&
    KeepsFile(moves, kind, Meaning(PackageOf(file), stmt),
              Meaning(PackageOf(landed), StatementAfter(rel, rules, reverse, landed, stmt)))
  }

  predicate SourcePath(file: Path) {
    && file != [] && Identifiers(PackageOf(file))
    && |file[|file| - 1]| >= 3 && file[|file| - 1][|file[|file| - 1]| - 3..] == ".py"
  }

  lemma LastIsNoWord(file: Path, word: string)
    requires SourcePath(file) && Identifier(word)
    ensures file[|file| - 1] != word
  {
    var f := file[|file| - 1];
    FileNameDiffers(f[..|f| - 3], word);
    assert f == f[..|f| - 3] + ".py";
  }

  /** A file of app that the plan moves lies in a moved package, and lands in the
      directory of its package's new name. */
  lemma MovedFileOfApp(subs: seq<Sub>, roots: seq<string>, file: Path)
    requires WellFormed(subs, roots) && SourcePath(file) && |file| > 1 && file[0] == "app"
    requires Landing(subs, roots, file) != file
    ensures MovedPackage(subs, PackageOf(file))
    ensures Landing(subs, roots, file) == MoveName(subs, PackageOf(file)) + [file[|file| - 1]]
  {
    if |file| == 2 {
      MovedRootFile(subs, roots, file);
    } else {
      MovedDeepFile(subs, roots, file);
    }
  }

  lemma MovedRootFile(subs: seq<Sub>, roots: seq<string>, file: Path)
    requires WellFormed(subs, roots) && SourcePath(file) && |file| == 2 && file[0] == "app"
    requires Landing(subs, roots, file) != file
    ensures MovedPackage(subs, PackageOf(file))
    ensures Landing(subs, roots, file) == MoveName(subs, PackageOf(file)) + [file[1]]
  {
    if Find(subs, file[1]) != [] {
      FindIsMapped(subs, roots, file[1]);
      LastIsNoWord(file, file[1]);
    }
    assert PackageOf(file) == ["app"];
  }

  lemma MovedDeepFile(subs: seq<Sub>, roots: seq<string>, file: Path)
    requires WellFormed(subs, roots) && SourcePath(file) && |file| > 2 && file[0] == "app"
    requires Landing(subs, roots, file) != file
    ensures MovedPackage(subs, PackageOf(file))
    ensures Landing(subs, roots, file) == MoveName(subs, PackageOf(file)) + [file[|file| - 1]]
  {
    DeepFileIsMapped(subs, roots, file);
    DeepFileLands(subs, roots, file);
  }

  lemma DeepFileIsMapped(subs: seq<Sub>, roots: seq<string>, file: Path)
    requires WellFormed(subs, roots) && SourcePath(file) && |file| > 2 && file[0] == "app"
    requires Landing(subs, roots, file) != file
    ensures MovedPackage(subs, PackageOf(file)) && Find(subs, file[1]) != []
  {
    TopsDiffer();
    assert file[1] == PackageOf(file)[1] && Identifier(PackageOf(file)[1]);
    EntryKinds(subs, roots, file[1]);
  }

  lemma DeepFileLands(subs: seq<Sub>, roots: seq<string>, file: Path)
    requires |file| > 2 && file[0] == "app" && Find(subs, file[1]) != []
    ensures Landing(subs, roots, file) == MoveName(subs, PackageOf(file)) + [file[|file| - 1]]
  {
    var package := PackageOf(file);
    MoveNameBelowApp(subs, package);
    assert package[1] == file[1] && file[2..] == package[2..] + [file[|file| - 1]];
  }

  lemma RecoveredOfMovedFile(
    reverse: map<string, string>, subs: seq<Sub>, roots: seq<string>, file: Path)
    requires WellFormed(subs, roots) && IsReverseMap(reverse, subs)
    requires SourcePath(file) && |file| > 1 && file[0] == "app" && Landing(subs, roots, file) != file
    ensures RecoveredPackage(reverse, Landing(subs, roots, file)) == Dotted(PackageOf(file))
    ensures PackageOf(Landing(subs, roots, file)) == MoveName(subs, PackageOf(file))
  {
    MovedFileOfApp(subs, roots, file);
    var after := MoveName(subs, PackageOf(file));
    NewNamesAreIdentifiers(subs, roots, PackageOf(file));
    var landed := after + [file[|file| - 1]];
    assert landed[1..|landed| - 1] == after[1..];
    OldPackageInvertsMove(reverse, subs, roots, PackageOf(file));
  }

  /** A bare import that does not survive names neither app nor tools nor qml. */
  lemma LostBareImportsLand(
    subs: seq<Sub>, roots: seq<string>, kind: Kind, package: Name, stmt: Stmt, t: Name)
    requires stmt.ImportBare? && WellFormedStmt(stmt) && Identifiers(package)
    requires !Survives(subs, package, stmt) && Meaning(package, stmt) == Some(t)
    ensures Lands(subs, roots, kind, t)
  {
    var name, tail :| name != [] && Identifiers(name) && Boundary(tail) && stmt.text == Dotted(name) + tail;
    MeaningOfBare(package, name, tail);
    LongerIsOther(name[0]);
  }

  lemma LongerIsOther(word: string)
    requires "app" < word || "tools" < word
    ensures word != "app" && word != "tools" && word != "qml"
  {
    assert "app"[0] == 'a' && "tools"[0] == 't' && "qml"[0] == 'q';
    assert "app" < word ==> word[0] == "app"[0];
    assert "tools" < word ==> word[0] == "tools"[0];
  }

  /** A statement of a moved file of app never names the old place of an unmoved
      module, unless it survives. */
  lemma UnmovedIsNotNamed(
    rules: seq<Rule>, subs: seq<Sub>, roots: seq<string>, kind: Kind, package: Name, stmt: Stmt, t: Name)
    requires WellFormed(subs, roots) && MovedPackage(subs, package) && WellFormedStmt(stmt)
    requires Meaning(package, stmt) == Some(t) && !Lands(subs, roots, kind, t) && !Survives(subs, package, stmt)
    ensures Meaning(MoveName(subs, package), RewriteLine(rules, Dotted(package), stmt)) !=
            Some(LandedName(subs, roots, kind, t))
  {
    if stmt.ImportBare? {
      LostBareImportsLand(subs, roots, kind, package, stmt, t);
    } else {
      MeaningIsAName(package, stmt);
      SiblingStaysInBackend(subs, roots, package, stmt.m);
    }
  }

  lemma SiblingStaysInBackend(subs: seq<Sub>, roots: seq<string>, package: Name, m: string)
    requires WellFormed(subs, roots) && MovedPackage(subs, package)
    ensures
      var after := Resolve(MoveName(subs, package), 1, Parts(m));
      after.Some? && after.value != [] && after.value[0] == "backend" && "backend" != "app"
  {
    NewNamesAreIdentifiers(subs, roots, package);
    var moved := MoveName(subs, package);
    assert moved[..|moved|] == moved;
    assert "backend"[0] != "app"[0];
  }

  lemma StatementsOfAppFiles(
    rules: seq<Rule>, subs: seq<Sub>, roots: seq<string>,
    present: set<Path>, moves: seq<Move>, package: Name, kind: Kind, stmt: Stmt)
    requires WellFormed(subs, roots) && IsPlan(moves, subs, roots, present) && IsAbsImportMap(rules, subs, roots)
    requires MovedPackage(subs, package) && WellFormedStmt(stmt)
    requires TargetOnDisk(present, kind, Meaning(package, stmt))
    ensures
      var before := Meaning(package, stmt);
      KeepsFile(moves, kind, before, Meaning(MoveName(subs, package), RewriteLine(rules, Dotted(package), stmt))) <==>
      Survives(subs, package, stmt) && TargetLands(subs, roots, kind, before)
  {
    var before := Meaning(package, stmt);
    MeaningIsAName(package, stmt);
    ImportsOfPackage(rules, subs, roots, package, stmt);
    if before.Some? && !Lands(subs, roots, kind, before.value) && !Survives(subs, package, stmt) {
      UnmovedIsNotNamed(rules, subs, roots, kind, package, stmt, before.value);
    }
    KeptByNameAndLanded(subs, roots, present, moves, kind, before,
                        Meaning(MoveName(subs, package), RewriteLine(rules, Dotted(package), stmt)),
                        Survives(subs, package, stmt));
  }

  // ---- application.py, both passes ----

  lemma UnmovedIsNotNamedInApplication(
    rel: seq<Rule>, rules: seq<Rule>, subs: seq<Sub>, roots: seq<string>, kind: Kind, stmt: Stmt, t: Name)
    requires WellFormed(subs, roots) && MovedPackage(subs, ["app"]) && WellFormedStmt(stmt)
    requires Meaning(["app"], stmt) == Some(t) && !Lands(subs, roots, kind, t)
    requires !SurvivesInApplication(rel, subs, stmt)
    ensures Meaning(["backend"], RewriteApplication(rel, RewriteLine(rules, "app", stmt))) !=
            Some(LandedName(subs, roots, kind, t))
  {
    if stmt.ImportBare? {
      LostBareImportsLand(subs, roots, kind, ["app"], stmt, t);
    } else {
      MeaningIsAName(["app"], stmt);
      SecondPass(rel, rules, stmt);
      SiblingStaysInBackend(subs, roots, ["app"], RelRewrite(rel, stmt.m));
    }
  }

  /** The same for application.py, whose lines go through both rewriters. */
  lemma ApplicationKeepsItsImports(
    rel: seq<Rule>, rules: seq<Rule>, subs: seq<Sub>, roots: seq<string>,
    present: set<Path>, moves: seq<Move>, kind: Kind, stmt: Stmt)
    requires WellFormed(subs, roots) && IsPlan(moves, subs, roots, present)
    requires IsAbsImportMap(rules, subs, roots) && RelTable(rel, subs)
    requires WellFormedStmt(stmt) && TargetOnDisk(present, kind, Meaning(["app"], stmt))
    ensures
      var before := Meaning(["app"], stmt);
      var after := Meaning(["backend"], RewriteApplication(rel, RewriteLine(rules, "app", stmt)));
      KeepsFile(moves, kind, before, after) <==>
      SurvivesInApplication(rel, subs, stmt) && TargetLands(subs, roots, kind, before)
  {
    TopsAreWords();
    MeaningIsAName(["app"], stmt);
    var twice := RewriteApplication(rel, RewriteLine(rules, "app", stmt));
    ApplicationByName(rel, rules, subs, roots, stmt, twice);
    ApplicationNotUnmoved(rel, rules, subs, roots, kind, stmt, twice);
    KeptByNameAndLanded(subs, roots, present, moves, kind, Meaning(["app"], stmt), Meaning(["backend"], twice),
                        SurvivesInApplication(rel, subs, stmt));
  }

  lemma ApplicationByName(
    rel: seq<Rule>, rules: seq<Rule>, subs: seq<Sub>, roots: seq<string>, stmt: Stmt, twice: Stmt)
    requires WellFormed(subs, roots) && IsAbsImportMap(rules, subs, roots) && RelTable(rel, subs)
    requires MovedPackage(subs, ["app"]) && WellFormedStmt(stmt)
    requires twice == RewriteApplication(rel, RewriteLine(rules, "app", stmt))
    ensures SurvivesInApplication(rel, subs, stmt) <==>
            match Meaning(["app"], stmt)
            case None => Meaning(["backend"], twice) == None
            case Some(t) => Meaning(["backend"], twice) == Some(NewName(subs, t))
  {
    assert MoveName(subs, ["app"]) == ["backend"];
    ApplicationPreservesImports(rel, rules, subs, roots, stmt);
  }

  lemma ApplicationNotUnmoved(
    rel: seq<Rule>, rules: seq<Rule>, subs: seq<Sub>, roots: seq<string>, kind: Kind, stmt: Stmt, twice: Stmt)
    requires WellFormed(subs, roots) && MovedPackage(subs, ["app"]) && WellFormedStmt(stmt)
    requires twice == RewriteApplication(rel, RewriteLine(rules, "app", stmt))
    ensures
      var before := Meaning(["app"], stmt);
      before.Some? && !Lands(subs, roots, kind, before.value) && !SurvivesInApplication(rel, subs, stmt) ==>
        Meaning(["backend"], twice) != Some(LandedName(subs, roots, kind, before.value))
  {
    var before := Meaning(["app"], stmt);
    if before.Some? && !Lands(subs, roots, kind, before.value) && !SurvivesInApplication(rel, subs, stmt) {
      UnmovedIsNotNamedInApplication(rel, rules, subs, roots, kind, stmt, before.value);
    }
  }

  // ---- files outside app ----

  predicate MovedDir(package: Name) {
    InTools(package) || InQml(package)
  }

  function NewDir(package: Name): Name {
    if InTools(package) then ["payload"] + package[1..]
    else if InQml(package) then ["frontend"] + package
    else package
  }

  /** No old package is recovered outside backend/. */
  lemma FileOutsideApp(reverse: map<string, string>, subs: seq<Sub>, roots: seq<string>, file: Path)
    requires SourcePath(file) && (|file| > 1 ==> file[0] != "app" && file[0] != "backend")
    ensures Landing(subs, roots, file) == NewDir(PackageOf(file)) + [file[|file| - 1]]
    ensures RecoveredPackage(reverse, Landing(subs, roots, file)) == ""
  {
    TopsAreWords();
    var package := PackageOf(file);
    assert file == package + [file[|file| - 1]];
    if |file| == 1 {
      LastIsNoWord(file, "qml");
    } else if |file| == 2 && file[0] == "tools" {
      forall d | d in TOOL_DIRS ensures file[1] != d {
        ToolDirsAreIdentifiers(d);
        LastIsNoWord(file, d);
      }
    } else if |file| > 2 {
      assert file[1] == package[1];
    }
    assert "payload"[0] == 'p' && "frontend"[0] == 'f' && "backend"[0] == 'b';
  }

  /** There, a two-dot import of a module loses a dot, and every other relative
      import is left as it is. */
  lemma RelativeOutsideBackend(rules: seq<Rule>, subs: seq<Sub>, roots: seq<string>, dots: nat, m: string)
    requires WellFormed(subs, roots) && IsAbsImportMap(rules, subs, roots) && dots >= 1 && GoodName(m)
    ensures RewriteLine(rules, "", FromRelative(dots, m)) ==
            FromRelative(if dots == 2 && m != "" then 1 else dots, m)
  {
    if dots >= 2 {
      ResolveInNoPackage(dots, m);
      if dots == 2 && m != "" {
        LeadingDotIsKept(rules, subs, roots, m);
      }
    }
  }

  lemma ResolveInNoPackage(dots: nat, m: string)
    requires dots >= 2
    ensures ResolveRelative("", dots, m) == if dots == 2 && m != "" then "." + m else ""
  {
    assert Split('.', "") == [""];
    assert [""][..0] == [];
    assert "" + "." + m == "." + m;
  }

  predicate MovedAway(kind: Kind, name: Name) {
    ToolMoved(kind, name) || QmlMoved(kind, name)
  }

  /** Which statements of a file outside app keep their file. */
  predicate SurvivesOutside(subs: seq<Sub>, roots: seq<string>, kind: Kind, package: Name, stmt: Stmt) {
    if stmt.FromRelative? then
      if stmt.dots == 2 && stmt.m != "" then package == []
      else if Meaning(package, stmt).Some? then MovedAway(kind, Meaning(package, stmt).value) == MovedDir(package)
      else stmt.dots - 1 > |package| || !InQml(package)
    else Survives(subs, package, stmt) && TargetLands(subs, roots, kind, Meaning(package, stmt))
  }

  lemma UntouchedOutside(
    subs: seq<Sub>, roots: seq<string>, kind: Kind, package: Name, dots: nat, m: Name)
    requires 1 <= dots <= |package| && package[0] != "app" && Identifiers(package) && Identifiers(m)
    ensures
      var t := Resolve(package, dots, m).value;
      && t != [] && Identifiers(t) && t[0] == package[0]
      && (Resolve(NewDir(package), dots, m) == Some(LandedName(subs, roots, kind, t)) <==>
          (MovedAway(kind, t) <==> MovedDir(package)))
  {
    var k := |package| - (dots - 1);
    var t := package[..k] + m;
    TopsDiffer();
    assert t[0] == package[0];
    assert Identifiers(t);
    var new_ := NewDir(package);
    if InTools(package) {
      assert new_[..k] + m == ["payload"] + t[1..];
      assert "payload"[0] != "tools"[0];
    } else if InQml(package) {
      assert new_[..k + 1] + m == ["frontend"] + t;
    }
  }

  lemma LostDotOutside(subs: seq<Sub>, roots: seq<string>, kind: Kind, package: Name, m: Name)
    requires package != [] && package[0] != "app" && m != []
    ensures match Resolve(package, 2, m)
            case None => Resolve(NewDir(package), 1, m) != None
            case Some(t) => Resolve(NewDir(package), 1, m) != Some(LandedName(subs, roots, kind, t))
  {
    var new_ := NewDir(package);
    assert new_[..|new_|] == new_;
    if |package| > 1 {
      var t := package[..|package| - 1] + m;
      assert t[0] == package[0];
      assert |LandedName(subs, roots, kind, t)| <= |new_| - 1 + |m|;
    }
  }

  lemma RelativeFilesOutside(
    rules: seq<Rule>, subs: seq<Sub>, roots: seq<string>, present: set<Path>, moves: seq<Move>,
    package: Name, kind: Kind, dots: nat, m: string)
    requires WellFormed(subs, roots) && IsPlan(moves, subs, roots, present) && IsAbsImportMap(rules, subs, roots)
    requires Identifiers(package) && (package != [] ==> package[0] != "app")
    requires dots >= 1 && GoodName(m) && TargetOnDisk(present, kind, Resolve(package, dots, Parts(m)))
    ensures
      var stmt := FromRelative(dots, m);
      KeepsFile(moves, kind, Meaning(package, stmt), Meaning(NewDir(package), RewriteLine(rules, "", stmt))) <==>
      SurvivesOutside(subs, roots, kind, package, stmt)
  {
    GoodNamesAreDotted(m);
    RelativeOutsideBackend(rules, subs, roots, dots, m);
    var rewritten := if dots == 2 && m != "" then 1 else dots;
    var after := Resolve(NewDir(package), rewritten, Parts(m));
    if package != [] {
      if dots == 2 && m != "" {
        LostDotOutside(subs, roots, kind, package, Parts(m));
      }
      if dots <= |package| {
        UntouchedOutside(subs, roots, kind, package, dots, Parts(m));
        KeepsFileIff(subs, roots, present, moves, kind, Resolve(package, dots, Parts(m)).value, after);
      }
    }
  }

  lemma OtherImportsOutside(
    rules: seq<Rule>, subs: seq<Sub>, roots: seq<string>, present: set<Path>, moves: seq<Move>,
    package: Name, kind: Kind, stmt: Stmt)
    requires WellFormed(subs, roots) && IsPlan(moves, subs, roots, present) && IsAbsImportMap(rules, subs, roots)
    requires Identifiers(package) && WellFormedStmt(stmt) && !stmt.FromRelative?
    requires TargetOnDisk(present, kind, Meaning(package, stmt))
    ensures KeepsFile(moves, kind, Meaning(package, stmt), Meaning(NewDir(package), RewriteLine(rules, "", stmt))) <==>
            SurvivesOutside(subs, roots, kind, package, stmt)
  {
    TopsAreWords();
    MeaningIsAName(package, stmt);
    StatementsOfAppFiles(rules, subs, roots, present, moves, ["app"], kind, stmt);
    var once := RewriteLine(rules, "", stmt);
    SameInAnyPackage(rules, subs, package, ["app"], "", Dotted(["app"]), stmt);
    SameInAnyPackage(rules, subs, NewDir(package), MoveName(subs, ["app"]), "", "", once);
  }

  /** Absolute and bare imports mean and become the same in every file. */
  lemma SameInAnyPackage(
    rules: seq<Rule>, subs: seq<Sub>, a: Name, b: Name, s: string, t: string, stmt: Stmt)
    requires !stmt.FromRelative?
    ensures Meaning(a, stmt) == Meaning(b, stmt)
    ensures Survives(subs, a, stmt) == Survives(subs, b, stmt)
    ensures RewriteLine(rules, s, stmt) == RewriteLine(rules, t, stmt) && !RewriteLine(rules, s, stmt).FromRelative?
  {
  }

  // ---- files that are not opened ----

  /** The plan moves the module's file. */
  predicate MovedFile(subs: seq<Sub>, roots: seq<string>, kind: Kind, name: Name) {
    Moved(subs, roots, kind, name) || MovedAway(kind, name)
  }

  lemma LandedElsewhere(subs: seq<Sub>, roots: seq<string>, kind: Kind, name: Name)
    ensures LandedName(subs, roots, kind, name) == name <==> !MovedFile(subs, roots, kind, name)
  {
    if Moved(subs, roots, kind, name) {
      assert MoveName(subs, name)[0] == "backend" && "backend"[0] != "app"[0];
    } else if ToolMoved(kind, name) {
      assert "payload"[0] != "tools"[0];
    }
  }

  /** Where the parent of a moved package of app ends up below backend. */
  function NewParent(subs: seq<Sub>, package: Name): Name {
    if |package| <= 1 || Target(subs, package[1]) == [] then []
    else Target(subs, package[1])[..|Target(subs, package[1])| - 1]
  }

  /** An import that climbs out of its sub-package finds the target beside the
      sub-package's new place. */
  predicate StaysBeside(subs: seq<Sub>, package: Name, dots: nat, m: Name)
    requires 1 <= dots <= |package|
  {
    dots < |package| || (m != [] && Target(subs, m[0]) == NewParent(subs, package) + [m[0]])
  }

  /** Which statements keep their file without being rewritten, in a file that the
      plan moves or leaves. */
  predicate SurvivesUntouched(
    subs: seq<Sub>, roots: seq<string>, kind: Kind, package: Name, moved: bool, after: Name, stmt: Stmt)
  {
    match Meaning(package, stmt)
    case None => stmt.FromRelative? && stmt.dots - 1 >= |after|
    case Some(t) =>
      if stmt.FromRelative? then
        && MovedFile(subs, roots, kind, t) == moved
        && (moved && package != [] && package[0] == "app" && 1 <= stmt.dots <= |package| ==>
              StaysBeside(subs, package, stmt.dots, Parts(stmt.m)))
      else !MovedFile(subs, roots, kind, t)
  }

  lemma SameAfterBackend(a: Name, b: Name, c: Name)
    ensures ["backend"] + a + c == ["backend"] + b + c <==> a == b
  {
    if ["backend"] + a + c == ["backend"] + b + c {
      assert (["backend"] + a + c)[1..][..|a|] == a;
      assert (["backend"] + b + c)[1..][..|b|] == b;
    }
  }

  /** A climb that stays inside the sub-package. */
  lemma InsideSubpackage(subs: seq<Sub>, roots: seq<string>, package: Name, dots: nat, m: Name)
    requires WellFormed(subs, roots) && MovedPackage(subs, package) && 1 <= dots < |package|
    ensures Resolve(MoveName(subs, package), dots, m) == Some(MoveName(subs, Resolve(package, dots, m).value))
  {
    var k := |package| - (dots - 1);
    TargetIsNotEmpty(subs, roots, package[1]);
    assert Resolve(MoveName(subs, package), dots, m) == Some(["backend"] + Target(subs, package[1]) + package[2..k] + m) by {
      MoveNameBelowApp(subs, package);
      ResolveInside(Target(subs, package[1]), package, k, dots, m);
    }
    NameBelowSubpackage(subs, package, k, m);
  }

  lemma ResolveInside(target: Name, package: Name, k: nat, dots: nat, m: Name)
    requires 2 <= k <= |package| && k == |package| - (dots - 1) && dots >= 1
    ensures Resolve(["backend"] + target + package[2..], dots, m) == Some(["backend"] + target + package[2..k] + m)
  {
    FrontOfPackage(target, package, k, dots);
  }

  lemma NameBelowSubpackage(subs: seq<Sub>, package: Name, k: nat, m: Name)
    requires 2 <= k <= |package| && package[0] == "app"
    ensures MoveName(subs, package[..k] + m) == ["backend"] + Target(subs, package[1]) + package[2..k] + m
  {
    var t := package[..k] + m;
    MoveNameBelowApp(subs, t);
    assert t[1] == package[1] && t[2..] == package[2..k] + m;
  }

  lemma FrontOfPackage(target: Name, package: Name, k: nat, dots: nat)
    requires 2 <= k <= |package| && k == |package| - (dots - 1) && dots >= 1
    ensures
      var new_ := ["backend"] + target + package[2..];
      dots - 1 < |new_| && new_[..|new_| - (dots - 1)] == ["backend"] + target + package[2..k]
  {
  }

  /** A climb out of it, to app itself. */
  lemma OutOfSubpackage(subs: seq<Sub>, roots: seq<string>, package: Name, m: Name)
    requires WellFormed(subs, roots) && MovedPackage(subs, package)
    requires |package| > 1 ==> Target(subs, package[1]) != []
    ensures Resolve(package, |package|, m) == Some(["app"] + m)
    ensures Resolve(MoveName(subs, package), |package|, m) == Some(["backend"] + NewParent(subs, package) + m)
  {
    assert package[..1] == ["app"];
    var new_ := MoveName(subs, package);
    if |package| > 1 {
      MoveNameBelowApp(subs, package);
      var target := Target(subs, package[1]);
      assert |new_| - (|package| - 1) == |target|;
      assert new_[..|target|] == ["backend"] + target[..|target| - 1];
    } else {
      assert new_[..1] == ["backend"];
      assert ["backend"] + [] + m == ["backend"] + m;
    }
  }

  lemma BesideIff(subs: seq<Sub>, package: Name, m: Name)
    requires m != []
    ensures ["backend"] + NewParent(subs, package) + m == MoveName(subs, ["app"] + m) <==>
            Target(subs, m[0]) == NewParent(subs, package) + [m[0]]
  {
    MoveNameBelowApp(subs, ["app"] + m);
    assert (["app"] + m)[2..] == m[1..];
    var up := NewParent(subs, package);
    assert ["backend"] + up + m == ["backend"] + (up + [m[0]]) + m[1..];
    SameAfterBackend(Target(subs, m[0]), up + [m[0]], m[1..]);
  }

  /** An untouched relative import of a moved file of app. */
  lemma UntouchedInApp(
    subs: seq<Sub>, roots: seq<string>, kind: Kind, package: Name, dots: nat, m: Name)
    requires WellFormed(subs, roots) && MovedPackage(subs, package) && 1 <= dots <= |package|
    requires |package| > 1 ==> Target(subs, package[1]) != []
    ensures
      var t := Resolve(package, dots, m).value;
      Resolve(MoveName(subs, package), dots, m) == Some(LandedName(subs, roots, kind, t)) <==>
      MovedFile(subs, roots, kind, t) && StaysBeside(subs, package, dots, m)
  {
    var t := Resolve(package, dots, m).value;
    LandedOfApp(subs, roots, kind, t);
    if dots < |package| {
      InsideSubpackage(subs, roots, package, dots, m);
      MovedTop(subs, t);
    } else {
      OutOfSubpackage(subs, roots, package, m);
      if m != [] {
        BesideIff(subs, package, m);
      }
    }
  }

  lemma LandedOfApp(subs: seq<Sub>, roots: seq<string>, kind: Kind, t: Name)
    requires t != [] && t[0] == "app"
    ensures MovedFile(subs, roots, kind, t) <==> Moved(subs, roots, kind, t)
    ensures LandedName(subs, roots, kind, t) == if Moved(subs, roots, kind, t) then MoveName(subs, t) else t
    ensures "backend" != "app"
  {
    TopsDiffer();
    assert "backend"[0] != "app"[0];
  }

  lemma MovedTop(subs: seq<Sub>, t: Name)
    requires t != [] && t[0] == "app"
    ensures MoveName(subs, t)[0] == "backend"
  {
  }

  lemma NewPackageIsLonger(subs: seq<Sub>, roots: seq<string>, package: Name)
    requires WellFormed(subs, roots) && MovedPackage(subs, package)
    ensures |MoveName(subs, package)| >= |package|
    ensures |package| > 1 ==> Target(subs, package[1]) != []
  {
    if |package| > 1 {
      TargetIsNotEmpty(subs, roots, package[1]);
      MoveNameBelowApp(subs, package);
    }
  }

  lemma UntouchedAppFiles(
    subs: seq<Sub>, roots: seq<string>, present: set<Path>, moves: seq<Move>,
    package: Name, kind: Kind, stmt: Stmt)
    requires WellFormed(subs, roots) && IsPlan(moves, subs, roots, present)
    requires MovedPackage(subs, package) && WellFormedStmt(stmt)
    requires TargetOnDisk(present, kind, Meaning(package, stmt))
    ensures KeepsFile(moves, kind, Meaning(package, stmt), Meaning(MoveName(subs, package), stmt)) <==>
            SurvivesUntouched(subs, roots, kind, package, true, MoveName(subs, package), stmt)
  {
    MeaningIsAName(package, stmt);
    NewPackageIsLonger(subs, roots, package);
    var before := Meaning(package, stmt);
    if before.Some? {
      KeepsFileIff(subs, roots, present, moves, kind, before.value, Meaning(MoveName(subs, package), stmt));
      if stmt.FromRelative? {
        UntouchedInApp(subs, roots, kind, package, stmt.dots, Parts(stmt.m));
      } else {
        LandedElsewhere(subs, roots, kind, before.value);
      }
    }
  }

  /** A file that stays where it is. */
  lemma UntouchedStayingFiles(
    subs: seq<Sub>, roots: seq<string>, present: set<Path>, moves: seq<Move>,
    package: Name, kind: Kind, stmt: Stmt)
    requires WellFormed(subs, roots) && IsPlan(moves, subs, roots, present)
    requires Identifiers(package) && WellFormedStmt(stmt)
    requires TargetOnDisk(present, kind, Meaning(package, stmt))
    ensures KeepsFile(moves, kind, Meaning(package, stmt), Meaning(package, stmt)) <==>
            SurvivesUntouched(subs, roots, kind, package, false, package, stmt)
  {
    MeaningIsAName(package, stmt);
    var before := Meaning(package, stmt);
    if before.Some? {
      KeepsFileIff(subs, roots, present, moves, kind, before.value, before);
      LandedElsewhere(subs, roots, kind, before.value);
    }
  }

  /** A file that moves with tools or qml. */
  lemma UntouchedOtherFiles(
    subs: seq<Sub>, roots: seq<string>, present: set<Path>, moves: seq<Move>,
    package: Name, kind: Kind, stmt: Stmt)
    requires WellFormed(subs, roots) && IsPlan(moves, subs, roots, present)
    requires Identifiers(package) && MovedDir(package) && WellFormedStmt(stmt)
    requires TargetOnDisk(present, kind, Meaning(package, stmt))
    ensures KeepsFile(moves, kind, Meaning(package, stmt), Meaning(NewDir(package), stmt)) <==>
            SurvivesUntouched(subs, roots, kind, package, true, NewDir(package), stmt)
  {
    TopsDiffer();
    MeaningIsAName(package, stmt);
    var before := Meaning(package, stmt);
    if before.Some? {
      KeepsFileIff(subs, roots, present, moves, kind, before.value, Meaning(NewDir(package), stmt));
      if stmt.FromRelative? {
        UntouchedOutside(subs, roots, kind, package, stmt.dots, Parts(stmt.m));
      } else {
        LandedElsewhere(subs, roots, kind, before.value);
      }
    }
  }

  // ---- every file ----

  /** Which statements of which files keep naming the file they named, told before
      anything is moved or rewritten. */
  ghost predicate KeepsItsFile(
    rel: seq<Rule>, subs: seq<Sub>, roots: seq<string>, kind: Kind, file: Path, stmt: Stmt)
    requires file != []
  {
    var landed := Landing(subs, roots, file);
    var package := PackageOf(file);
    var target := Meaning(package, stmt);
    landed != [] &&
    if !Opened(landed) then
      SurvivesUntouched(subs, roots, kind, package, landed != file, PackageOf(landed), stmt)
    else if |file| > 1 && file[0] == "app" then
      && TargetLands(subs, roots, kind, target)
      && if landed == APPLICATION_PY then SurvivesInApplication(rel, subs, stmt) else Survives(subs, package, stmt)
    else SurvivesOutside(subs, roots, kind, package, stmt)
  }

  lemma AppIsNotVisited(file: Path)
    requires |file| > 1 && file[0] == "app"
    ensures !Visited(file)
  {
    assert SEARCH_DIRS[0][0] == 'b' && SEARCH_DIRS[1][0] == 'f' && SEARCH_DIRS[2][0] == 'p' && SEARCH_DIRS[3][0] == 's';
    assert "app"[0] == 'a';
  }

  lemma ApplicationLands(subs: seq<Sub>, roots: seq<string>, file: Path)
    requires WellFormed(subs, roots) && SourcePath(file) && |file| > 1 && file[0] == "app"
    requires Landing(subs, roots, file) != file && Landing(subs, roots, file) == APPLICATION_PY
    ensures PackageOf(file) == ["app"]
  {
    MovedFileOfApp(subs, roots, file);
    var package := PackageOf(file);
    NewPackageIsLonger(subs, roots, package);
    assert |package| == 1;
    assert package == [package[0]];
  }

  lemma OnlyAppLandsThere(file: Path)
    requires SourcePath(file) && (|file| > 1 ==> file[0] != "app" && file[0] != "backend")
    ensures NewDir(PackageOf(file)) + [file[|file| - 1]] != APPLICATION_PY
  {
    var landed := NewDir(PackageOf(file)) + [file[|file| - 1]];
    assert "payload"[0] == 'p' && "frontend"[0] == 'f' && "backend"[0] == 'b';
    if |file| > 1 {
      assert PackageOf(file)[0] == file[0];
      assert landed[0] == NewDir(PackageOf(file))[0];
    }
  }

  lemma OpenedFileOfApp(
    rel: seq<Rule>, rules: seq<Rule>, reverse: map<string, string>, subs: seq<Sub>, roots: seq<string>,
    present: set<Path>, moves: seq<Move>, file: Path, kind: Kind, stmt: Stmt)
    requires WellFormed(subs, roots) && IsPlan(moves, subs, roots, present) && RelTable(rel, subs)
    requires IsAbsImportMap(rules, subs, roots) && IsReverseMap(reverse, subs)
    requires SourcePath(file) && |file| > 1 && file[0] == "app"
    requires Landing(subs, roots, file) != file && Opened(Landing(subs, roots, file))
    requires WellFormedStmt(stmt) && TargetOnDisk(present, kind, Meaning(PackageOf(file), stmt))
    ensures
      var landed := Landing(subs, roots, file);
      landed != [] &&
      (KeepsFile(moves, kind, Meaning(PackageOf(file), stmt),
                 Meaning(PackageOf(landed), StatementAfter(rel, rules, reverse, landed, stmt))) <==>
       KeepsItsFile(rel, subs, roots, kind, file, stmt))
  {
    var landed := Landing(subs, roots, file);
    MovedFileOfApp(subs, roots, file);
    RecoveredOfMovedFile(reverse, subs, roots, file);
    if landed == APPLICATION_PY {
      ApplicationLands(subs, roots, file);
      OneWord("app");
      assert MoveName(subs, ["app"]) == ["backend"];
      ApplicationKeepsItsImports(rel, rules, subs, roots, present, moves, kind, stmt);
    } else {
      StatementsOfAppFiles(rules, subs, roots, present, moves, PackageOf(file), kind, stmt);
    }
  }

  lemma OpenedFileOutside(
    rel: seq<Rule>, rules: seq<Rule>, reverse: map<string, string>, subs: seq<Sub>, roots: seq<string>,
    present: set<Path>, moves: seq<Move>, file: Path, kind: Kind, stmt: Stmt)
    requires WellFormed(subs, roots) && IsPlan(moves, subs, roots, present) && IsAbsImportMap(rules, subs, roots)
    requires SourcePath(file) && (|file| > 1 ==> file[0] != "app" && file[0] != "backend")
    requires Opened(Landing(subs, roots, file))
    requires WellFormedStmt(stmt) && TargetOnDisk(present, kind, Meaning(PackageOf(file), stmt))
    ensures
      var landed := Landing(subs, roots, file);
      landed != [] &&
      (KeepsFile(moves, kind, Meaning(PackageOf(file), stmt),
                 Meaning(PackageOf(landed), StatementAfter(rel, rules, reverse, landed, stmt))) <==>
       KeepsItsFile(rel, subs, roots, kind, file, stmt))
  {
    FileOutsideApp(reverse, subs, roots, file);
    OnlyAppLandsThere(file);
    var package := PackageOf(file);
    assert PackageOf(Landing(subs, roots, file)) == NewDir(package);
    assert package != [] ==> package[0] == file[0];
    if stmt.FromRelative? {
      RelativeFilesOutside(rules, subs, roots, present, moves, package, kind, stmt.dots, stmt.m);
    } else {
      OtherImportsOutside(rules, subs, roots, present, moves, package, kind, stmt);
    }
  }

  lemma UntouchedFile(
    rel: seq<Rule>, rules: seq<Rule>, reverse: map<string, string>, subs: seq<Sub>, roots: seq<string>,
    present: set<Path>, moves: seq<Move>, file: Path, kind: Kind, stmt: Stmt)
    requires WellFormed(subs, roots) && IsPlan(moves, subs, roots, present)
    requires SourcePath(file) && (|file| > 1 ==> file[0] != "backend")
    requires !Opened(Landing(subs, roots, file))
    requires WellFormedStmt(stmt) && TargetOnDisk(present, kind, Meaning(PackageOf(file), stmt))
    ensures
      var landed := Landing(subs, roots, file);
      landed != [] &&
      (KeepsFile(moves, kind, Meaning(PackageOf(file), stmt),
                 Meaning(PackageOf(landed), StatementAfter(rel, rules, reverse, landed, stmt))) <==>
       KeepsItsFile(rel, subs, roots, kind, file, stmt))
  {
    var landed := Landing(subs, roots, file);
    var package := PackageOf(file);
    if landed == file {
      UntouchedStayingFiles(subs, roots, present, moves, package, kind, stmt);
    } else if |file| > 1 && file[0] == "app" {
      MovedFileOfApp(subs, roots, file);
      assert PackageOf(landed) == MoveName(subs, package);
      UntouchedAppFiles(subs, roots, present, moves, package, kind, stmt);
    } else {
      FileOutsideApp(map[], subs, roots, file);
      MovedFileOutside(subs, roots, file);
      assert PackageOf(landed) == NewDir(package);
      UntouchedOtherFiles(subs, roots, present, moves, package, kind, stmt);
    }
  }

  lemma MovedFileOutside(subs: seq<Sub>, roots: seq<string>, file: Path)
    requires SourcePath(file) && (|file| > 1 ==> file[0] != "app" && file[0] != "backend")
    requires Landing(subs, roots, file) != file
    ensures MovedDir(PackageOf(file))
  {
    FileOutsideApp(map[], subs, roots, file);
    assert file == PackageOf(file) + [file[|file| - 1]];
  }

  /** The whole migration: every statement of every Python file, whether it is moved or
      stays, whether the script opens it where it lands and passes over its lines once
      or twice, or walks past it, keeps naming the file it named exactly under the
      stated condition. */
  lemma FilesKeepTheirImports(
    rel: seq<Rule>, rules: seq<Rule>, reverse: map<string, string>, subs: seq<Sub>, roots: seq<string>,
    present: set<Path>, moves: seq<Move>, file: Path, kind: Kind, stmt: Stmt)
    requires WellFormed(subs, roots) && IsPlan(moves, subs, roots, present) && RelTable(rel, subs)
    requires IsAbsImportMap(rules, subs, roots) && IsReverseMap(reverse, subs)
    requires SourcePath(file) && (|file| > 1 ==> file[0] != "backend") && OnDisk(present, file)
    requires WellFormedStmt(stmt) && TargetOnDisk(present, kind, Meaning(PackageOf(file), stmt))
    ensures KeptInFile(rel, rules, reverse, moves, file, kind, stmt) <==>
            KeepsItsFile(rel, subs, roots, kind, file, stmt)
  {
    RelocateIsLanding(subs, roots, present, moves, file);
    if !Opened(Landing(subs, roots, file)) {
      UntouchedFile(rel, rules, reverse, subs, roots, present, moves, file, kind, stmt);
    } else if |file| > 1 && file[0] == "app" {
      AppIsNotVisited(file);
      OpenedFileOfApp(rel, rules, reverse, subs, roots, present, moves, file, kind, stmt);
    } else {
      OpenedFileOutside(rel, rules, reverse, subs, roots, present, moves, file, kind, stmt);
    }
  }

  // ---- which files those are, spelled out ----

  ghost predicate NamesNoSkippedPart(c: string) {
    && !Holds(c, "_cleanup_archive") && !Holds(c, "archive") && !Holds(c, "build")
    && !Holds(c, ".venv") && !Holds(c, "__pycache__") && !Holds(c, "refactor_project")
  }

  /** Below one of the four directories, or one of two root scripts, and with none of
      the six parts in its path. */
  ghost predicate Walked(file: Path) {
    && (file == ["main.py"] || file == ["_diag.py"] ||
        (|file| > 1 &&
         (file[0] == "backend" || file[0] == "frontend" || file[0] == "payload" || file[0] == "scripts")))
    && forall c :: c in file ==> NamesNoSkippedPart(c)
  }

  lemma VisitedIs(file: Path)
    ensures Visited(file) <==>
            file == ["main.py"] || file == ["_diag.py"] ||
            (|file| > 1 &&
             (file[0] == "backend" || file[0] == "frontend" || file[0] == "payload" || file[0] == "scripts"))
  {
    if |file| == 1 {
      assert file == [file[0]];
      assert file[0] in EXTRA_FILES <==> file[0] == EXTRA_FILES[0] || file[0] == EXTRA_FILES[1];
    }
    assert |file| > 1 ==>
             (file[0] in SEARCH_DIRS <==>
              file[0] == SEARCH_DIRS[0] || file[0] == SEARCH_DIRS[1] || file[0] == SEARCH_DIRS[2] ||
              file[0] == SEARCH_DIRS[3]);
  }

  lemma PartsOfComponent(c: string)
    ensures NamesNoSkippedPart(c) <==> forall i :: 0 <= i < |SKIP_PARTS| ==> !Contains(c, SKIP_PARTS[i])
  {
    forall i | 0 <= i < |SKIP_PARTS| ensures Contains(c, SKIP_PARTS[i]) <==> Holds(c, SKIP_PARTS[i]) {
      ContainsIsHolds(c, SKIP_PARTS[i]);
    }
    SixParts();
  }

  lemma SixParts()
    ensures |SKIP_PARTS| == 6
    ensures SKIP_PARTS[0] == "_cleanup_archive" && SKIP_PARTS[1] == "archive" && SKIP_PARTS[2] == "build"
    ensures SKIP_PARTS[3] == ".venv" && SKIP_PARTS[4] == "__pycache__" && SKIP_PARTS[5] == "refactor_project"
  {
  }

  lemma SkippedIs(file: Path)
    ensures Skipped(file) <==> exists c :: c in file && !NamesNoSkippedPart(c)
  {
    forall c ensures NamesNoSkippedPart(c) <==> forall i :: 0 <= i < |SKIP_PARTS| ==> !Contains(c, SKIP_PARTS[i]) {
      PartsOfComponent(c);
    }
    if c :| c in file && !NamesNoSkippedPart(c) {
      var k :| 0 <= k < |file| && file[k] == c;
    }
    if i, k :| 0 <= i < |SKIP_PARTS| && 0 <= k < |file| && Contains(file[k], SKIP_PARTS[i]) {
      PartsOfComponent(file[k]);
      assert file[k] in file;
    }
  }

  lemma OpenedIsWalked(file: Path)
    ensures Opened(file) <==> Walked(file)
  {
    VisitedIs(file);
    SkippedIs(file);
  }

  lemma AbsoluteSurvivesIff(
    rel: seq<Rule>, subs: seq<Sub>, roots: seq<string>, file: Path, kind: Kind, name: Name)
    requires WellFormed(subs, roots) && SourcePath(file)
    requires name != [] && Identifiers(name) && (Moved(subs, roots, kind, name) || ToolMoved(kind, name))
    ensures KeepsItsFile(rel, subs, roots, kind, file, FromAbsolute(Dotted(name))) <==>
            Opened(Landing(subs, roots, file))
  {
    AbsoluteTarget(rel, subs, PackageOf(file), name);
    MovedTargetLands(subs, roots, kind, name);
    if Opened(Landing(subs, roots, file)) {
      KeptWhereOpened(rel, subs, roots, file, kind, FromAbsolute(Dotted(name)), name);
    } else {
      LostWherePassed(rel, subs, roots, file, kind, FromAbsolute(Dotted(name)), name);
    }
  }

  lemma KeptWhereOpened(
    rel: seq<Rule>, subs: seq<Sub>, roots: seq<string>, file: Path, kind: Kind, stmt: Stmt, name: Name)
    requires file != [] && Opened(Landing(subs, roots, file)) && !stmt.FromRelative?
    requires Meaning(PackageOf(file), stmt) == Some(name) && Lands(subs, roots, kind, name)
    requires Survives(subs, PackageOf(file), stmt) && SurvivesInApplication(rel, subs, stmt)
    ensures KeepsItsFile(rel, subs, roots, kind, file, stmt)
  {
    LandingIsNotEmpty(subs, roots, file);
  }

  lemma LostWherePassed(
    rel: seq<Rule>, subs: seq<Sub>, roots: seq<string>, file: Path, kind: Kind, stmt: Stmt, name: Name)
    requires file != [] && !Opened(Landing(subs, roots, file)) && !stmt.FromRelative?
    requires Meaning(PackageOf(file), stmt) == Some(name) && MovedFile(subs, roots, kind, name)
    ensures !KeepsItsFile(rel, subs, roots, kind, file, stmt)
  {
  }

  lemma AbsoluteTarget(rel: seq<Rule>, subs: seq<Sub>, package: Name, name: Name)
    requires name != [] && Identifiers(name)
    ensures
      var stmt := FromAbsolute(Dotted(name));
      && Meaning(package, stmt) == Some(name) && WellFormedStmt(stmt)
      && Survives(subs, package, stmt) && SurvivesInApplication(rel, subs, stmt)
  {
    PartsOfDotted(name);
  }

  lemma MovedTargetLands(subs: seq<Sub>, roots: seq<string>, kind: Kind, name: Name)
    requires name != [] && (Moved(subs, roots, kind, name) || ToolMoved(kind, name))
    ensures Lands(subs, roots, kind, name) && MovedFile(subs, roots, kind, name)
  {
    TopsDiffer();
  }

  lemma LandingIsNotEmpty(subs: seq<Sub>, roots: seq<string>, file: Path)
    requires file != []
    ensures Landing(subs, roots, file) != []
  {
  }

  /** An absolute import of a module that moves with app or with tools is kept in every
      file that lands where the script walks, and lost in every other one. */
  lemma AbsoluteImportIsKeptIff(
    rel: seq<Rule>, rules: seq<Rule>, reverse: map<string, string>, subs: seq<Sub>, roots: seq<string>,
    present: set<Path>, moves: seq<Move>, file: Path, kind: Kind, name: Name)
    requires WellFormed(subs, roots) && IsPlan(moves, subs, roots, present) && RelTable(rel, subs)
    requires IsAbsImportMap(rules, subs, roots) && IsReverseMap(reverse, subs)
    requires SourcePath(file) && (|file| > 1 ==> file[0] != "backend") && OnDisk(present, file)
    requires name != [] && Identifiers(name) && (Moved(subs, roots, kind, name) || ToolMoved(kind, name))
    requires OnDisk(present, SourceFile(kind, name))
    ensures KeptInFile(rel, rules, reverse, moves, file, kind, FromAbsolute(Dotted(name))) <==>
            Walked(Relocate(moves, file))
  {
    PartsOfDotted(name);
    RelocateIsLanding(subs, roots, present, moves, file);
    OpenedIsWalked(Landing(subs, roots, file));
    AbsoluteSurvivesIff(rel, subs, roots, file, kind, name);
    FilesKeepTheirImports(rel, rules, reverse, subs, roots, present, moves, file, kind, FromAbsolute(Dotted(name)));
  }

  /** A script, which does not move, is among those files. */
  lemma ScriptIsKept(
    rel: seq<Rule>, rules: seq<Rule>, reverse: map<string, string>, subs: seq<Sub>, roots: seq<string>,
    present: set<Path>, moves: seq<Move>, f: string, kind: Kind, name: Name)
    requires WellFormed(subs, roots) && IsPlan(moves, subs, roots, present) && RelTable(rel, subs)
    requires IsAbsImportMap(rules, subs, roots) && IsReverseMap(reverse, subs)
    requires SourcePath(["scripts", f]) && NamesNoSkippedPart(f)
    requires OnDisk(present, ["scripts", f])
    requires name != [] && Identifiers(name) && (Moved(subs, roots, kind, name) || ToolMoved(kind, name))
    requires OnDisk(present, SourceFile(kind, name))
    ensures KeptInFile(rel, rules, reverse, moves, ["scripts", f], kind, FromAbsolute(Dotted(name)))
  {
    ScriptStays(subs, roots, f);
    RelocateIsLanding(subs, roots, present, moves, ["scripts", f]);
    ScriptIsWalked(f);
    AbsoluteImportIsKeptIff(rel, rules, reverse, subs, roots, present, moves, ["scripts", f], kind, name);
  }

  lemma LacksChar(s: string, part: string, ch: char)
    requires ch in part && ch !in s
    ensures !Holds(s, part)
  {
    forall a, b ensures s != a + part + b {
      assert ch in a + part + b;
    }
  }

  lemma ScriptsIsNoSkippedPart()
    ensures NamesNoSkippedPart("scripts")
  {
    assert "build"[0] == 'b' && "archive"[0] == 'a' && ".venv"[0] == '.' && "__pycache__"[0] == '_';
    assert "_cleanup_archive"[0] == '_' && "refactor_project"[3] == 'a';
    LacksChar("scripts", "build", 'b');
    LacksChar("scripts", "archive", 'a');
    LacksChar("scripts", ".venv", '.');
    LacksChar("scripts", "__pycache__", '_');
    LacksChar("scripts", "_cleanup_archive", '_');
    LacksChar("scripts", "refactor_project", 'a');
  }

  lemma ScriptIsWalked(f: string)
    requires NamesNoSkippedPart(f)
    ensures Walked(["scripts", f])
  {
    ScriptsIsNoSkippedPart();
    forall c | c in ["scripts", f] ensures NamesNoSkippedPart(c) {
    }
  }

  lemma ScriptStays(subs: seq<Sub>, roots: seq<string>, f: string)
    ensures Landing(subs, roots, ["scripts", f]) == ["scripts", f]
    ensures "scripts" != "backend"
  {
    assert "scripts"[0] == 's' && "app"[0] == 'a' && "tools"[0] == 't' && "qml"[0] == 'q' && "backend"[0] == 'b';
  }
}
