/** The migration theorems at the tables the script ships with, and one input
    for each way a statement can fail to survive. */
module ImportShipped {
  import opened Wrappers
  import opened Text
  import opened ImportTables
  import opened ImportRewrite
  import opened ImportStatements
  import opened ImportApplication
  import opened ImportFiles

  lemma EntryTexts0()
    ensures |APP_REL_MAP| == 9
    ensures APP_REL_MAP[0] == Rule("ui" + ".", "api" + ".")
    ensures APP_REL_MAP[1] == Rule("sandbox_vmware", "engines." + "sandbox_vmware")
  {
  }

  lemma EntryTexts2()
    ensures APP_REL_MAP[2] == Rule("filefunction" + ".", "engines." + "filefunction" + ".")
    ensures APP_REL_MAP[3] == Rule("ai" + ".", "engines." + "ai" + ".")
  {
  }

  lemma EntryTexts4()
    ensures APP_REL_MAP[4] == Rule("scanning" + ".", "engines." + "scanning" + ".")
    ensures APP_REL_MAP[5] == Rule("sandbox" + ".", "engines." + "sandbox" + ".")
  {
  }

  lemma EntryTexts6()
    ensures APP_REL_MAP[6] == Rule("scancenter" + ".", "engines." + "scancenter" + ".")
    ensures APP_REL_MAP[7] == Rule("intel" + ".", "engines." + "intel" + ".")
    ensures APP_REL_MAP[8] == Rule("gpu" + ".", "engines." + "gpu" + ".")
  {
  }

  lemma SubpackageEntries()
    ensures |SUBPACKAGE_MAP| == 14
    ensures SUBPACKAGE_MAP[4] == Sub("ui", ["api"])
    ensures SUBPACKAGE_MAP[8] == Sub("sandbox_vmware", ["engines", "sandbox_vmware"])
    ensures SUBPACKAGE_MAP[12] == Sub("filefunction", ["engines", "filefunction"])
    ensures SUBPACKAGE_MAP[5] == Sub("ai", ["engines", "ai"])
    ensures SUBPACKAGE_MAP[6] == Sub("scanning", ["engines", "scanning"])
    ensures SUBPACKAGE_MAP[7] == Sub("sandbox", ["engines", "sandbox"])
    ensures SUBPACKAGE_MAP[9] == Sub("scancenter", ["engines", "scancenter"])
    ensures SUBPACKAGE_MAP[10] == Sub("intel", ["engines", "intel"])
    ensures SUBPACKAGE_MAP[11] == Sub("gpu", ["engines", "gpu"])
  {
  }

  lemma EngineEntry(r: Rule, s: Sub, x: string)
    requires s == Sub(x, ["engines", x]) && r == Rule(x + ".", "engines." + x + ".")
    ensures Closed(r, s) && Relocates(s)
  {
    PairIsDotted("engines", x);
  }

  /** The sub-package behind each entry. */
  function SubIndex(i: nat): (j: nat)
    requires i < 9
    ensures j < 14
  {
    [4, 8, 12, 5, 6, 7, 9, 10, 11][i]
  }

  /** Only the entry of `sandbox_vmware` has no dot. */
  lemma EntryOf(i: nat)
    requires i < 9
    ensures |APP_REL_MAP| == 9 && |SUBPACKAGE_MAP| == 14
    ensures Relocates(SUBPACKAGE_MAP[SubIndex(i)])
    ensures if i == 1 then Loose(APP_REL_MAP[i], SUBPACKAGE_MAP[SubIndex(i)])
            else Closed(APP_REL_MAP[i], SUBPACKAGE_MAP[SubIndex(i)])
  {
    EntryTexts0();
    EntryTexts2();
    EntryTexts4();
    EntryTexts6();
    SubpackageEntries();
    if i == 0 {
      UiEntry(APP_REL_MAP[0], SUBPACKAGE_MAP[4]);
    } else if i == 1 {
      PairIsDotted("engines", "sandbox_vmware");
      LooseEngineEntry(APP_REL_MAP[1], SUBPACKAGE_MAP[8], "sandbox_vmware");
    } else if i == 2 {
      EngineEntry(APP_REL_MAP[2], SUBPACKAGE_MAP[12], "filefunction");
    } else if i == 3 {
      EngineEntry(APP_REL_MAP[3], SUBPACKAGE_MAP[5], "ai");
    } else if i == 4 {
      EngineEntry(APP_REL_MAP[4], SUBPACKAGE_MAP[6], "scanning");
    } else if i == 5 {
      EngineEntry(APP_REL_MAP[5], SUBPACKAGE_MAP[7], "sandbox");
    } else if i == 6 {
      EngineEntry(APP_REL_MAP[6], SUBPACKAGE_MAP[9], "scancenter");
    } else if i == 7 {
      EngineEntry(APP_REL_MAP[7], SUBPACKAGE_MAP[10], "intel");
    } else if i == 8 {
      EngineEntry(APP_REL_MAP[8], SUBPACKAGE_MAP[11], "gpu");
    }
  }

  lemma UiEntry(r: Rule, s: Sub)
    requires s == Sub("ui", ["api"]) && r == Rule("ui" + ".", "api" + ".")
    ensures Closed(r, s) && Relocates(s)
  {
    assert Dotted(["api"]) == "api";
    assert "api" != "ui";
  }

  lemma LooseEngineEntry(r: Rule, s: Sub, x: string)
    requires s == Sub(x, ["engines", x]) && r == Rule(x, "engines." + x)
    ensures Loose(r, s) && Relocates(s)
  {
    PairIsDotted("engines", x);
  }

  predicate ListedSubpackage(j: nat) {
    4 <= j < 13
  }

  lemma UnlistedSubpackagesStay(j: nat)
    requires j < |SUBPACKAGE_MAP| && !ListedSubpackage(j)
    ensures !Relocates(SUBPACKAGE_MAP[j])
  {
  }

  /** The entry of each sub-package that changes its place. */
  function EntryIndex(j: nat): (i: nat)
    requires ListedSubpackage(j)
    ensures i < 9 && SubIndex(i) == j
  {
    [0, 3, 4, 5, 1, 6, 7, 8, 2][j - 4]
  }

  /** A sub-package name that starts with `sandbox_vmware` is that name. */
  lemma NothingExtendsTheLooseEntry(j: nat)
    requires j < |SUBPACKAGE_MAP|
    ensures !("sandbox_vmware" < SUBPACKAGE_MAP[j].oldName)
  {
  }

  lemma EntryHasSubpackage(r: Rule) returns (s: Sub)
    requires r in APP_REL_MAP
    ensures s in SUBPACKAGE_MAP && Relocates(s) && (Closed(r, s) || Loose(r, s))
    ensures Identifier(r.from) ==> r.from == "sandbox_vmware"
  {
    var i :| 0 <= i < |APP_REL_MAP| && APP_REL_MAP[i] == r;
    EntryTexts0();
    EntryOf(i);
    s := SUBPACKAGE_MAP[SubIndex(i)];
    if i != 1 {
      ClosedIsNoIdentifier(r, s);
    }
  }

  lemma SubpackageHasEntry(s: Sub) returns (r: Rule)
    requires s in SUBPACKAGE_MAP && Relocates(s)
    ensures r in APP_REL_MAP && (Closed(r, s) || Loose(r, s))
  {
    var j :| 0 <= j < |SUBPACKAGE_MAP| && SUBPACKAGE_MAP[j] == s;
    if !ListedSubpackage(j) {
      UnlistedSubpackagesStay(j);
    }
    EntryOf(EntryIndex(j));
    r := APP_REL_MAP[EntryIndex(j)];
  }

  lemma NoSubpackageExtends(s: Sub)
    requires s in SUBPACKAGE_MAP
    ensures !("sandbox_vmware" < s.oldName)
  {
    var j :| 0 <= j < |SUBPACKAGE_MAP| && SUBPACKAGE_MAP[j] == s;
    NothingExtendsTheLooseEntry(j);
  }

  lemma ShippedRelTable()
    ensures RelTable(APP_REL_MAP, SUBPACKAGE_MAP)
  {
    forall r | r in APP_REL_MAP
      ensures exists s :: s in SUBPACKAGE_MAP && Relocates(s) && (Closed(r, s) || Loose(r, s))
    {
      var s := EntryHasSubpackage(r);
    }
    forall s | s in SUBPACKAGE_MAP && Relocates(s)
      ensures exists r :: r in APP_REL_MAP && (Closed(r, s) || Loose(r, s))
    {
      var r := SubpackageHasEntry(s);
    }
    forall r, s | r in APP_REL_MAP && s in SUBPACKAGE_MAP && Identifier(r.from)
      ensures !(r.from < s.oldName)
    {
      var t := EntryHasSubpackage(r);
      NoSubpackageExtends(s);
    }
  }

  lemma SandboxIsAnEntry()
    ensures Rule("sandbox_vmware", "engines.sandbox_vmware") in APP_REL_MAP
    ensures Identifier("sandbox_vmware")
  {
    assert APP_REL_MAP[1] in APP_REL_MAP;
  }

  /** Only names that run past `sandbox_vmware` are treated differently. */
  lemma ShippedRewritersAgree(rules: seq<Rule>, mc: Name)
    requires IsAbsImportMap(rules, SUBPACKAGE_MAP, ROOT_MODULE_FILES)
    requires mc != [] && Identifiers(mc)
    ensures "backend." + RelRewrite(APP_REL_MAP, Dotted(mc)) == Rewrite(rules, "app." + Dotted(mc))
            <==> !("sandbox_vmware" < mc[0])
  {
    ShippedTablesAreWellFormed();
    ShippedRelTable();
    RewritersAgree(APP_REL_MAP, rules, SUBPACKAGE_MAP, ROOT_MODULE_FILES, mc);
    if "sandbox_vmware" < mc[0] {
      SandboxIsAnEntry();
      assert Overrun(APP_REL_MAP, mc[0]);
    } else {
      forall r | r in APP_REL_MAP && Identifier(r.from) ensures !(r.from < mc[0]) {
        var s := EntryHasSubpackage(r);
      }
    }
  }

  predicate NewFront(s: string) {
    |s| >= 2 && ((s[0] == 'a' && s[1] == 'p') || (s[0] == 'e' && s[1] == 'n'))
  }

  predicate OldFront(s: string) {
    |s| >= 2 && !NewFront(s)
  }

  lemma OldFronts(j: nat)
    requires j < |SUBPACKAGE_MAP|
    ensures OldFront(SUBPACKAGE_MAP[j].oldName)
  {
  }

  lemma NewFronts(j: nat)
    requires j < |SUBPACKAGE_MAP| && ListedSubpackage(j)
    ensures SUBPACKAGE_MAP[j].newParts != [] && NewFront(SUBPACKAGE_MAP[j].newParts[0])
  {
  }

  lemma FrontsDiffer(s: Sub)
    requires s in SUBPACKAGE_MAP && Relocates(s)
    ensures OldFront(s.oldName) && s.newParts != [] && NewFront(s.newParts[0])
  {
    var j :| 0 <= j < |SUBPACKAGE_MAP| && SUBPACKAGE_MAP[j] == s;
    OldFronts(j);
    if !ListedSubpackage(j) {
      UnlistedSubpackagesStay(j);
    }
    NewFronts(j);
  }

  lemma FrontOfName(name: Name)
    requires name != [] && NewFront(name[0])
    ensures NewFront(Dotted(name))
  {
    assert Dotted(name)[..|name[0]|] == name[0];
  }

  lemma EntryFronts(subs: seq<Sub>, roots: seq<string>, r: Rule, s: Sub, m: string)
    requires WellFormed(subs, roots) && s in subs && (Closed(r, s) || Loose(r, s))
    requires OldFront(s.oldName) && NewFront(s.newParts[0]) && Hits(r, m)
    ensures OldFront(m) && NewFront(Applied(r, m))
  {
    EntryShape(subs, roots, r, s);
    FrontOfName(s.newParts);
    assert s.oldName <= m;
  }

  lemma HitsChangeTheFront(r: Rule, m: string)
    requires r in APP_REL_MAP && Hits(r, m)
    ensures OldFront(m) && NewFront(Applied(r, m))
  {
    var s := EntryHasSubpackage(r);
    FrontsDiffer(s);
    ShippedTablesAreWellFormed();
    EntryFronts(SUBPACKAGE_MAP, ROOT_MODULE_FILES, r, s, m);
  }

  /** The single-dot rewriter is a projection, on every string. */
  lemma RelRewriteIsIdempotent(m: string)
    ensures RelRewrite(APP_REL_MAP, RelRewrite(APP_REL_MAP, m)) == RelRewrite(APP_REL_MAP, m)
  {
    if exists r :: r in APP_REL_MAP && Hits(r, m) {
      var r := RelRewriteSome(APP_REL_MAP, m);
      HitsChangeTheFront(r, m);
      var t := Applied(r, m);
      forall q | q in APP_REL_MAP ensures !Hits(q, t) {
        if Hits(q, t) {
          HitsChangeTheFront(q, t);
        }
      }
      RelRewriteNone(APP_REL_MAP, t);
    } else {
      RelRewriteNone(APP_REL_MAP, m);
    }
  }

  // ---- statements that do not survive ----

  ghost predicate Kept(
    rules: seq<Rule>, reverse: map<string, string>, subs: seq<Sub>, package: Name, stmt: Stmt)
    requires MovedPackage(subs, package)
  {
    var recovered := OldPackage(reverse, MoveName(subs, package)[1..]);
    Preserved(rules, subs, package, stmt, RewriteLine(rules, recovered, stmt))
  }

  lemma WordIsOnePart(word: string)
    requires Identifier(word)
    ensures GoodName(word) && Parts(word) == [word] && word == Dotted([word])
    ensures WordRun(word) == |word|
  {
    SplitOfAtom('.', word);
    WordRunOf(word, "");
    assert word + "" == word;
  }

  /** One dot too many, with a name behind it: Python rejects the import, the
      rewrite turns it into a valid `.word`. In application.py: `from ..core`. */
  lemma OneDotTooMany(
    rules: seq<Rule>, reverse: map<string, string>, subs: seq<Sub>, roots: seq<string>,
    package: Name, word: string)
    requires WellFormed(subs, roots) && IsAbsImportMap(rules, subs, roots) && IsReverseMap(reverse, subs)
    requires MovedPackage(subs, package) && Identifier(word)
    ensures !Kept(rules, reverse, subs, package, FromRelative(|package| + 1, word))
  {
    WordIsOnePart(word);
    MigrationPreservesImports(rules, reverse, subs, roots, package, FromRelative(|package| + 1, word));
  }

  lemma CommonWords()
    ensures Identifiers(["core", "apple"])
  {
  }

  lemma AppIsMoved(subs: seq<Sub>)
    ensures MovedPackage(subs, ["app"])
  {
    TopsAreIdentifiers();
  }

  /** `from ..core import x` in application.py. */
  lemma OneDotTooManyHappens(rules: seq<Rule>, reverse: map<string, string>)
    requires IsAbsImportMap(rules, SUBPACKAGE_MAP, ROOT_MODULE_FILES)
    requires IsReverseMap(reverse, SUBPACKAGE_MAP)
    ensures MovedPackage(SUBPACKAGE_MAP, ["app"])
    ensures !Kept(rules, reverse, SUBPACKAGE_MAP, ["app"], FromRelative(2, "core"))
  {
    ShippedTablesAreWellFormed();
    AppIsMoved(SUBPACKAGE_MAP);
    CommonWords();
    assert Identifier(["core", "apple"][0]);
    OneDotTooMany(rules, reverse, SUBPACKAGE_MAP, ROOT_MODULE_FILES, ["app"], "core");
  }

  lemma UiIsRelocated()
    ensures Target(SUBPACKAGE_MAP, "ui") != ["ui"]
    ensures Identifier("ui")
  {
    assert ["api"][0] != ["ui"][0];
    ShippedTablesAreWellFormed();
    SubpackageEntries();
    var ui := SUBPACKAGE_MAP[4];
    FindMapped(SUBPACKAGE_MAP, ROOT_MODULE_FILES, ui);
  }

  lemma SingleDotOfRelocated(
    rules: seq<Rule>, reverse: map<string, string>, subs: seq<Sub>, roots: seq<string>, word: string)
    requires WellFormed(subs, roots) && IsAbsImportMap(rules, subs, roots) && IsReverseMap(reverse, subs)
    requires MovedPackage(subs, ["app"]) && Identifier(word) && Target(subs, word) != [word]
    ensures !Kept(rules, reverse, subs, ["app"], FromRelative(1, word))
  {
    WordIsOnePart(word);
    MigrationPreservesImports(rules, reverse, subs, roots, ["app"], FromRelative(1, word));
  }

  /** `from .ui import x` in __main__.py: only application.py gets the second
      pass, and `ui` is now `api`. */
  lemma SingleDotOfRelocatedHappens(rules: seq<Rule>, reverse: map<string, string>)
    requires IsAbsImportMap(rules, SUBPACKAGE_MAP, ROOT_MODULE_FILES)
    requires IsReverseMap(reverse, SUBPACKAGE_MAP)
    ensures MovedPackage(SUBPACKAGE_MAP, ["app"])
    ensures !Kept(rules, reverse, SUBPACKAGE_MAP, ["app"], FromRelative(1, "ui"))
  {
    ShippedTablesAreWellFormed();
    AppIsMoved(SUBPACKAGE_MAP);
    UiIsRelocated();
    SingleDotOfRelocated(rules, reverse, SUBPACKAGE_MAP, ROOT_MODULE_FILES, "ui");
  }

  lemma LongerFirstWordDoesNotSurvive(subs: seq<Sub>, top: string, word: string)
    requires Identifier(word) && top == "app" && top < word
    ensures WellFormedStmt(ImportBare(word))
    ensures !Survives(subs, ["app"], ImportBare(word))
  {
    WordIsOnePart(word);
    var name: Name, tail: string := [word], "";
    assert name != [] && Identifiers(name) && Boundary(tail) && word == Dotted(name) + tail;
    assert word[..|word|] == word;
  }

  /** `import apple` becomes `import backendle`. */
  lemma LongerFirstWordHappens(
    rules: seq<Rule>, reverse: map<string, string>, subs: seq<Sub>, roots: seq<string>)
    requires WellFormed(subs, roots) && IsAbsImportMap(rules, subs, roots) && IsReverseMap(reverse, subs)
    ensures MovedPackage(subs, ["app"])
    ensures !Kept(rules, reverse, subs, ["app"], ImportBare("apple"))
  {
    CommonWords();
    AppIsMoved(subs);
    assert Identifier(["core", "apple"][1]);
    assert "apple"[..3] == "app";
    LongerFirstWordDoesNotSurvive(subs, "app", "apple");
    MigrationPreservesImports(rules, reverse, subs, roots, ["app"], ImportBare("apple"));
  }

  // ---- statements that survive by name only ----

  lemma UnlistedTarget(subs: seq<Sub>, roots: seq<string>, sub: string, word: string)
    requires Identifier(word) && Find(subs, word) == [] && word + ".py" !in roots
    ensures
      var stmt := FromRelative(2, word);
      && Meaning(["app", sub], stmt) == Some(["app", word]) && WellFormedStmt(stmt)
      && SourceFile(Module, ["app", word]) == ["app", word + ".py"]
      && !Lands(subs, roots, Module, ["app", word])
      && Survives(subs, ["app", sub], stmt)
  {
    WordIsOnePart(word);
    assert ["app", sub][..1] + [word] == ["app", word];
  }

  /** A relative import of a root module the plan does not list survives by name and
      is lost, whether the line is rewritten or not: the module stays behind. */
  lemma UnlistedModuleIsLost(
    rel: seq<Rule>, rules: seq<Rule>, reverse: map<string, string>, subs: seq<Sub>, roots: seq<string>,
    present: set<Path>, moves: seq<Move>, sub: string, f: string, word: string)
    requires WellFormed(subs, roots) && IsPlan(moves, subs, roots, present) && RelTable(rel, subs)
    requires IsAbsImportMap(rules, subs, roots) && IsReverseMap(reverse, subs)
    requires Find(subs, sub) != [] && SourcePath(["app", sub, f]) && OnDisk(present, ["app", sub, f])
    requires Identifier(word) && Find(subs, word) == [] && word + ".py" !in roots
    requires OnDisk(present, ["app", word + ".py"])
    ensures Survives(subs, ["app", sub], FromRelative(2, word))
    ensures !KeptInFile(rel, rules, reverse, moves, ["app", sub, f], Module, FromRelative(2, word))
  {
    UnlistedTarget(subs, roots, sub, word);
    UnlistedIsNotKept(rel, subs, roots, sub, f, word);
    UnlistedIsOnDisk(subs, roots, present, sub, f, word);
    NotKept(rel, rules, reverse, subs, roots, present, moves, ["app", sub, f], Module, FromRelative(2, word));
  }

  lemma UnlistedIsOnDisk(
    subs: seq<Sub>, roots: seq<string>, present: set<Path>, sub: string, f: string, word: string)
    requires Identifier(word) && Find(subs, word) == [] && word + ".py" !in roots
    requires OnDisk(present, ["app", word + ".py"])
    ensures TargetOnDisk(present, Module, Meaning(PackageOf(["app", sub, f]), FromRelative(2, word)))
  {
    assert PackageOf(["app", sub, f]) == ["app", sub];
    UnlistedTarget(subs, roots, sub, word);
  }

  lemma NotKept(
    rel: seq<Rule>, rules: seq<Rule>, reverse: map<string, string>, subs: seq<Sub>, roots: seq<string>,
    present: set<Path>, moves: seq<Move>, file: Path, kind: Kind, stmt: Stmt)
    requires WellFormed(subs, roots) && IsPlan(moves, subs, roots, present) && RelTable(rel, subs)
    requires IsAbsImportMap(rules, subs, roots) && IsReverseMap(reverse, subs)
    requires SourcePath(file) && (|file| > 1 ==> file[0] != "backend") && OnDisk(present, file)
    requires WellFormedStmt(stmt) && TargetOnDisk(present, kind, Meaning(PackageOf(file), stmt))
    requires !KeepsItsFile(rel, subs, roots, kind, file, stmt)
    ensures !KeptInFile(rel, rules, reverse, moves, file, kind, stmt)
  {
    FilesKeepTheirImports(rel, rules, reverse, subs, roots, present, moves, file, kind, stmt);
  }

  lemma UnlistedIsNotKept(
    rel: seq<Rule>, subs: seq<Sub>, roots: seq<string>, sub: string, f: string, word: string)
    requires Find(subs, sub) != [] && Identifier(word) && Find(subs, word) == [] && word + ".py" !in roots
    ensures !KeepsItsFile(rel, subs, roots, Module, ["app", sub, f], FromRelative(2, word))
  {
    var file := ["app", sub, f];
    assert PackageOf(file) == ["app", sub];
    UnlistedTarget(subs, roots, sub, word);
    LandingMoves(subs, roots, file);
    TopsDiffer();
  }

  lemma LandingMoves(subs: seq<Sub>, roots: seq<string>, file: Path)
    requires |file| > 1 && file[0] == "app" && Find(subs, file[1]) != []
    ensures Landing(subs, roots, file) != file
  {
    assert Landing(subs, roots, file)[0] == "backend" && "backend"[0] != "app"[0];
  }

  lemma ExampleWords()
    ensures Identifier("helper") && Identifier("build") && Identifier("x") && Identifier("core")
  {
  }

  lemma HelperIsNoSubpackage(i: nat)
    requires i < |SUBPACKAGE_MAP|
    ensures SUBPACKAGE_MAP[i].oldName != "" && SUBPACKAGE_MAP[i].oldName[0] != 'h'
  {
  }

  lemma HelperIsNoRoot(i: nat)
    requires i < |ROOT_MODULE_FILES|
    ensures ROOT_MODULE_FILES[i] != "" && ROOT_MODULE_FILES[i][0] != 'h'
  {
  }

  lemma HelperIsUnlisted()
    ensures Find(SUBPACKAGE_MAP, "helper") == [] && "helper" + ".py" !in ROOT_MODULE_FILES
  {
    var found := Find(SUBPACKAGE_MAP, "helper");
    if found != [] {
      assert found[0] in found;
      var i :| 0 <= i < |SUBPACKAGE_MAP| && SUBPACKAGE_MAP[i] == found[0];
      HelperIsNoSubpackage(i);
    }
    if "helper" + ".py" in ROOT_MODULE_FILES {
      var i :| 0 <= i < |ROOT_MODULE_FILES| && ROOT_MODULE_FILES[i] == "helper" + ".py";
      HelperIsNoRoot(i);
    }
  }

  lemma CoreIsMapped()
    ensures Find(SUBPACKAGE_MAP, "core") != []
  {
    assert SUBPACKAGE_MAP[0] == Sub("core", ["core"]);
    ShippedTablesAreWellFormed();
    FindMapped(SUBPACKAGE_MAP, ROOT_MODULE_FILES, SUBPACKAGE_MAP[0]);
  }

  lemma ExamplePath(top: string, sub: string, word: string)
    requires Identifier(top) && Identifier(sub)
    ensures SourcePath([top, sub, word + ".py"])
  {
    var file := [top, sub, word + ".py"];
    assert PackageOf(file) == [top, sub];
    assert (word + ".py")[|word|..] == ".py";
  }

  /** With the shipped tables this is `from ..helper import x` in any file of
      app/core, with app/helper.py on disk. */
  lemma HelperIsSuchAModule()
    ensures Find(SUBPACKAGE_MAP, "core") != [] && Identifier("helper")
    ensures Find(SUBPACKAGE_MAP, "helper") == [] && "helper" + ".py" !in ROOT_MODULE_FILES
  {
    ExampleWords();
    HelperIsUnlisted();
    CoreIsMapped();
  }

  lemma UnmovedToolTarget(subs: seq<Sub>, roots: seq<string>, package: Name, word: string)
    requires Identifier(word)
    ensures
      var stmt := FromAbsolute(Dotted(["tools", word]));
      && Meaning(package, stmt) == Some(["tools", word]) && WellFormedStmt(stmt)
      && SourceFile(Module, ["tools", word]) == ["tools", word + ".py"]
      && !Lands(subs, roots, Module, ["tools", word])
  {
    TopsAreIdentifiers();
    TopsDiffer();
    PartsOfDotted(["tools", word]);
  }

  /** `from tools.<word> import x`, in any moved file of app: the plan moves two
      directories of tools and no module beside them, so the import is lost exactly
      where the script opens the file. */
  lemma UnmovedToolIsLost(
    rel: seq<Rule>, rules: seq<Rule>, reverse: map<string, string>, subs: seq<Sub>, roots: seq<string>,
    present: set<Path>, moves: seq<Move>, file: Path, word: string)
    requires WellFormed(subs, roots) && IsPlan(moves, subs, roots, present) && RelTable(rel, subs)
    requires IsAbsImportMap(rules, subs, roots) && IsReverseMap(reverse, subs)
    requires SourcePath(file) && |file| > 1 && file[0] == "app" && OnDisk(present, file)
    requires Identifier(word) && OnDisk(present, ["tools", word + ".py"])
    ensures Survives(subs, PackageOf(file), FromAbsolute(Dotted(["tools", word])))
    ensures KeptInFile(rel, rules, reverse, moves, file, Module, FromAbsolute(Dotted(["tools", word]))) <==>
            !Opened(Landing(subs, roots, file))
  {
    UnmovedToolTarget(subs, roots, PackageOf(file), word);
    UnmovedToolIsKeptIff(rel, subs, roots, file, word);
    FilesKeepTheirImports(rel, rules, reverse, subs, roots, present, moves, file, Module,
                          FromAbsolute(Dotted(["tools", word])));
  }

  lemma UnmovedToolIsKeptIff(rel: seq<Rule>, subs: seq<Sub>, roots: seq<string>, file: Path, word: string)
    requires |file| > 1 && file[0] == "app" && Identifier(word)
    ensures KeepsItsFile(rel, subs, roots, Module, file, FromAbsolute(Dotted(["tools", word]))) <==>
            !Opened(Landing(subs, roots, file))
  {
    UnmovedToolTarget(subs, roots, PackageOf(file), word);
    TopsDiffer();
    LandingIsNotEmpty(subs, roots, file);
    assert !MovedFile(subs, roots, Module, ["tools", word]);
  }

  /** A two-dot import of a module in a file outside app that the script opens: the
      recovered package is empty, a dot is lost, and so is the module. */
  lemma TwoDotsOutsideAreLost(
    rel: seq<Rule>, rules: seq<Rule>, reverse: map<string, string>, subs: seq<Sub>, roots: seq<string>,
    present: set<Path>, moves: seq<Move>, file: Path, kind: Kind, word: string)
    requires WellFormed(subs, roots) && IsPlan(moves, subs, roots, present) && RelTable(rel, subs)
    requires IsAbsImportMap(rules, subs, roots) && IsReverseMap(reverse, subs)
    requires SourcePath(file) && |file| > 1 && file[0] != "app" && file[0] != "backend" && OnDisk(present, file)
    requires Opened(Landing(subs, roots, file))
    requires Identifier(word) && TargetOnDisk(present, kind, Meaning(PackageOf(file), FromRelative(2, word)))
    ensures !KeptInFile(rel, rules, reverse, moves, file, kind, FromRelative(2, word))
  {
    WordIsOnePart(word);
    FilesKeepTheirImports(rel, rules, reverse, subs, roots, present, moves, file, kind, FromRelative(2, word));
  }

  // ---- files the script walks past ----

  /** There every absolute import of a module that moves is lost. */
  lemma WalkedPastIsLost(
    rel: seq<Rule>, rules: seq<Rule>, reverse: map<string, string>, subs: seq<Sub>, roots: seq<string>,
    present: set<Path>, moves: seq<Move>, file: Path, kind: Kind, name: Name)
    requires WellFormed(subs, roots) && IsPlan(moves, subs, roots, present) && RelTable(rel, subs)
    requires IsAbsImportMap(rules, subs, roots) && IsReverseMap(reverse, subs)
    requires SourcePath(file) && (|file| > 1 ==> file[0] != "backend") && OnDisk(present, file)
    requires !Opened(Landing(subs, roots, file))
    requires name != [] && Identifiers(name) && MovedFile(subs, roots, kind, name)
    requires OnDisk(present, SourceFile(kind, name))
    ensures !KeptInFile(rel, rules, reverse, moves, file, kind, FromAbsolute(Dotted(name)))
  {
    PartsOfDotted(name);
    FilesKeepTheirImports(rel, rules, reverse, subs, roots, present, moves, file, kind, FromAbsolute(Dotted(name)));
  }

  lemma PartIsSkipped(subs: seq<Sub>, roots: seq<string>, sub: string, f: string, i: nat)
    requires Find(subs, sub) != [] && i < |SKIP_PARTS| && Contains(f, SKIP_PARTS[i])
    ensures !Opened(Landing(subs, roots, ["app", sub, f]))
  {
    var landed := Landing(subs, roots, ["app", sub, f]);
    assert landed[|landed| - 1] == f;
  }

  /** A file of a sub-package whose name holds one of the skipped parts: moved, not
      opened, and every absolute import of a moved module in it is lost. */
  lemma SkippedFileIsLost(
    rel: seq<Rule>, rules: seq<Rule>, reverse: map<string, string>, subs: seq<Sub>, roots: seq<string>,
    present: set<Path>, moves: seq<Move>, sub: string, f: string, i: nat, kind: Kind, name: Name)
    requires WellFormed(subs, roots) && IsPlan(moves, subs, roots, present) && RelTable(rel, subs)
    requires IsAbsImportMap(rules, subs, roots) && IsReverseMap(reverse, subs)
    requires Find(subs, sub) != [] && name != [] && Identifiers(name) && MovedFile(subs, roots, kind, name)
    requires i < |SKIP_PARTS| && Contains(f, SKIP_PARTS[i])
    requires SourcePath(["app", sub, f]) && OnDisk(present, ["app", sub, f])
    requires OnDisk(present, SourceFile(kind, name))
    ensures !KeptInFile(rel, rules, reverse, moves, ["app", sub, f], kind, FromAbsolute(Dotted(name)))
  {
    PartIsSkipped(subs, roots, sub, f, i);
    AppIsNoBackend();
    WalkedPastIsLost(rel, rules, reverse, subs, roots, present, moves, ["app", sub, f], kind, name);
  }

  lemma AppIsNoBackend()
    ensures "app" != "backend"
  {
    assert "app"[0] == 'a' && "backend"[0] == 'b';
  }

  /** The repository has such a file: report_builder.py of the sandbox. */
  lemma ReportBuilderIsSkipped()
    ensures Contains("report_builder" + ".py", SKIP_PARTS[2])
    ensures SourcePath(["app", "sandbox", "report_builder" + ".py"])
    ensures Find(SUBPACKAGE_MAP, "sandbox") != []
  {
    var f := "report_builder" + ".py";
    assert f[7..][..5] == SKIP_PARTS[2];
    SandboxWord();
    TopsAreIdentifiers();
    ExamplePath("app", "sandbox", "report_builder");
    SandboxIsMapped();
  }

  lemma SandboxIsMapped()
    ensures Find(SUBPACKAGE_MAP, "sandbox") != []
  {
    assert SUBPACKAGE_MAP[7] == Sub("sandbox", ["engines", "sandbox"]);
    ShippedTablesAreWellFormed();
    FindMapped(SUBPACKAGE_MAP, ROOT_MODULE_FILES, SUBPACKAGE_MAP[7]);
  }

  lemma SandboxWord()
    ensures Identifier("sandbox")
  {
  }

  /** A script beside app that the walk does not visit: every root script but two. */
  lemma RootScriptIsLost(
    rel: seq<Rule>, rules: seq<Rule>, reverse: map<string, string>, subs: seq<Sub>, roots: seq<string>,
    present: set<Path>, moves: seq<Move>, f: string, kind: Kind, name: Name)
    requires WellFormed(subs, roots) && IsPlan(moves, subs, roots, present) && RelTable(rel, subs)
    requires IsAbsImportMap(rules, subs, roots) && IsReverseMap(reverse, subs)
    requires name != [] && Identifiers(name) && MovedFile(subs, roots, kind, name)
    requires SourcePath([f]) && f !in EXTRA_FILES && OnDisk(present, [f])
    requires OnDisk(present, SourceFile(kind, name))
    ensures !KeptInFile(rel, rules, reverse, moves, [f], kind, FromAbsolute(Dotted(name)))
  {
    RootScriptStays(subs, roots, f);
    WalkedPastIsLost(rel, rules, reverse, subs, roots, present, moves, [f], kind, name);
  }

  lemma RootScriptStays(subs: seq<Sub>, roots: seq<string>, f: string)
    requires SourcePath([f])
    ensures Landing(subs, roots, [f]) == [f]
  {
    TopsAreWords();
    LastIsNoWord([f], "qml");
  }
}
