/** The tables of the app/ to backend/ migration and the move they describe:
    scripts/refactor_project.py, lines 49-118 and 289-323. */
module ImportTables {
  import opened Text

  /** The components of a dotted module name. */
  type Name = seq<string>
  /** A path relative to the repository root. */
  type Path = seq<string>

  /** One `SUBPACKAGE_MAP` entry; the new path is kept as its components. */
  datatype Sub = Sub(oldName: string, newParts: Name)

  /** One (old prefix, new prefix) pair of a rewrite map. */
  datatype Rule = Rule(from: string, to: string)

  datatype Move = Move(src: Path, dst: Path)

  const SUBPACKAGE_MAP: seq<Sub> := [
    Sub("core", ["core"]),
    Sub("config", ["config"]),
    Sub("utils", ["utils"]),
    Sub("infra", ["infra"]),
    Sub("ui", ["api"]),
    Sub("ai", ["engines", "ai"]),
    Sub("scanning", ["engines", "scanning"]),
    Sub("sandbox", ["engines", "sandbox"]),
    Sub("sandbox_vmware", ["engines", "sandbox_vmware"]),
    Sub("scancenter", ["engines", "scancenter"]),
    Sub("intel", ["engines", "intel"]),
    Sub("gpu", ["engines", "gpu"]),
    Sub("filefunction", ["engines", "filefunction"]),
    Sub("tests", ["tests"])
  ]

  const ROOT_MODULE_FILES: seq<string> := ["__main__.py", "__version__.py", "application.py"]

  function Dotted(name: Name): string { Join('.', name) }

  predicate IsWord(c: char) {
    'a' <= c <= 'z' || 'A' <= c <= 'Z' || '0' <= c <= '9' || c == '_'
  }

  lemma SmallLetters(c: char)
    ensures 'a' <= c <= 'z' <==> c in "abcdefghijklmnopqrstuvwxyz"
  {
    assert 'a' <= c <= 'z' ==> "abcdefghijklmnopqrstuvwxyz"[c as int - 'a' as int] == c;
  }

  lemma CapitalLetters(c: char)
    ensures 'A' <= c <= 'Z' <==> c in "ABCDEFGHIJKLMNOPQRSTUVWXYZ"
  {
    assert 'A' <= c <= 'Z' ==> "ABCDEFGHIJKLMNOPQRSTUVWXYZ"[c as int - 'A' as int] == c;
  }

  lemma Digits(c: char)
    ensures '0' <= c <= '9' <==> c in "0123456789"
  {
    assert '0' <= c <= '9' ==> "0123456789"[c as int - '0' as int] == c;
  }

  /** `\w` is a letter, a digit or an underscore. */
  lemma WordChars(c: char)
    ensures IsWord(c) <==>
            || c in "abcdefghijklmnopqrstuvwxyz"
            || c in "ABCDEFGHIJKLMNOPQRSTUVWXYZ"
            || c in "0123456789"
            || c == '_'
  {
    SmallLetters(c);
    CapitalLetters(c);
    Digits(c);
  }

  /** A non-empty run of `\w` characters. */
  predicate Identifier(s: string) {
    s != "" && forall i :: 0 <= i < |s| ==> IsWord(s[i])
  }

  predicate Identifiers(name: Name) {
    forall s :: s in name ==> Identifier(s)
  }

  predicate RootFile(f: string) {
    |f| > 3 && f[|f| - 3..] == ".py" && f != "__init__.py"
  }

  /** What the proofs use of the shipped tables: distinct old names, new paths
      of which none is a prefix of another, and no root module named like a
      sub-package. */
  ghost predicate WellFormed(subs: seq<Sub>, roots: seq<string>) {
    && (forall sub :: sub in subs ==>
          Identifier(sub.oldName) && sub.newParts != [] && Identifiers(sub.newParts))
    && (forall s, t :: s in subs && t in subs && s.oldName == t.oldName ==> s == t)
    && (forall s, t :: s in subs && t in subs && s.newParts <= t.newParts ==> s == t)
    && (forall f :: f in roots ==> RootFile(f) && Identifier(f[..|f| - 3]))
    && (forall f, s :: f in roots && s in subs ==> f[..|f| - 3] != s.oldName)
  }

  // ---- the move on module names, and on files ----

  function Find(subs: seq<Sub>, key: string): (r: seq<Sub>)
    ensures |r| <= 1
    ensures forall s :: s in r ==> s in subs && s.oldName == key
    ensures r == [] ==> forall s :: s in subs ==> s.oldName != key
  {
    if subs == [] then []
    else if subs[0].oldName == key then [subs[0]]
    else Find(subs[1..], key)
  }

  /** Where the migration means a module to live afterwards. */
  function MoveName(subs: seq<Sub>, name: Name): Name {
    if name == [] || name[0] != "app" then name
    else if |name| == 1 then ["backend"]
    else
      var hit := Find(subs, name[1]);
      if hit == [] then ["backend"] + name[1..]
      else ["backend"] + hit[0].newParts + name[2..]
  }

  function SubMove(sub: Sub): Move {
    Move(["app", sub.oldName], ["backend"] + sub.newParts)
  }

  function RootMove(f: string): Move {
    Move(["app", f], ["backend", f])
  }

  function ToolMove(d: string): Move {
    Move(["tools", d], ["payload", d])
  }

  /** Everything the plan would move if it were there, in the plan's order. */
  function Candidates(subs: seq<Sub>, roots: seq<string>): seq<Move> {
    SubMoves(subs) + RootMoves(roots) + [QmlMove()] + ToolMoves()
  }

  function SubMoves(subs: seq<Sub>): seq<Move> {
    seq(|subs|, i requires 0 <= i < |subs| => SubMove(subs[i]))
  }

  function RootMoves(roots: seq<string>): seq<Move> {
    seq(|roots|, i requires 0 <= i < |roots| => RootMove(roots[i]))
  }

  function QmlMove(): Move { Move(["qml"], ["frontend", "qml"]) }

  const TOOL_DIRS: seq<string> := ["sandbox_agent", "url_detonator"]

  function ToolMoves(): seq<Move> {
    seq(|TOOL_DIRS|, i requires 0 <= i < |TOOL_DIRS| => ToolMove(TOOL_DIRS[i]))
  }

  /** The candidates whose source exists. */
  function Existing(candidates: seq<Move>, present: set<Path>): seq<Move> {
    if candidates == [] then []
    else
      var n := |candidates| - 1;
      Existing(candidates[..n], present) +
      if candidates[n].src in present then [candidates[n]] else []
  }

  lemma {:induction false} ExistingElements(candidates: seq<Move>, present: set<Path>, m: Move)
    ensures m in Existing(candidates, present) <==> m in candidates && m.src in present
  {
    if candidates != [] {
      var n := |candidates| - 1;
      ExistingElements(candidates[..n], present, m);
      assert candidates == candidates[..n] + [candidates[n]];
    }
  }

  lemma {:induction false} ExistingAppend(a: seq<Move>, b: seq<Move>, present: set<Path>)
    ensures Existing(a + b, present) == Existing(a, present) + Existing(b, present)
  {
    if b == [] {
      assert a + b == a;
    } else {
      var n := |b| - 1;
      assert (a + b)[..|a| + n] == a + b[..n];
      ExistingAppend(a, b[..n], present);
    }
  }

  method PlanSubpackages(subs: seq<Sub>, present: set<Path>) returns (moves: seq<Move>)
    ensures moves == Existing(SubMoves(subs), present)
  {
    moves := [];
    for i := 0 to |subs|
      invariant moves == Existing(SubMoves(subs)[..i], present)
    {
      assert SubMoves(subs)[..i + 1][..i] == SubMoves(subs)[..i];
      var move := SubMove(subs[i]);
      if move.src in present {
        moves := moves + [move];
      }
    }
    assert SubMoves(subs)[..|subs|] == SubMoves(subs);
  }

  method PlanRootModules(roots: seq<string>, present: set<Path>) returns (moves: seq<Move>)
    ensures moves == Existing(RootMoves(roots), present)
  {
    moves := [];
    for i := 0 to |roots|
      invariant moves == Existing(RootMoves(roots)[..i], present)
    {
      assert RootMoves(roots)[..i + 1][..i] == RootMoves(roots)[..i];
      var move := RootMove(roots[i]);
      if move.src in present {
        moves := moves + [move];
      }
    }
    assert RootMoves(roots)[..|roots|] == RootMoves(roots);
  }

  method PlanMoves(subs: seq<Sub>, roots: seq<string>, present: set<Path>)
    returns (moves: seq<Move>)
    ensures moves == Existing(Candidates(subs, roots), present)
    ensures IsPlan(moves, subs, roots, present)
  {
    var subMoves := PlanSubpackages(subs, present);
    var rootMoves := PlanRootModules(roots, present);
    moves := subMoves + rootMoves;
    ExistingAppend(SubMoves(subs), RootMoves(roots), present);
    var rest := [QmlMove()] + ToolMoves();
    for i := 0 to |rest|
      invariant moves == subMoves + rootMoves + Existing(rest[..i], present)
    {
      assert rest[..i + 1][..i] == rest[..i];
      if rest[i].src in present {
        moves := moves + [rest[i]];
      }
    }
    assert rest[..|rest|] == rest;
    ExistingAppend(SubMoves(subs) + RootMoves(roots), rest, present);
    assert Candidates(subs, roots) == SubMoves(subs) + RootMoves(roots) + rest;
    PlanElements(subs, roots, present);
  }

  /** The plan as a set: what it may contain, and what it must. */
  ghost predicate IsPlan(moves: seq<Move>, subs: seq<Sub>, roots: seq<string>, present: set<Path>) {
    && (forall m :: m in moves ==>
          || (exists s :: s in subs && m == SubMove(s))
          || (exists f :: f in roots && m == RootMove(f))
          || IsOtherMove(m))
    && (forall s :: s in subs && SubMove(s).src in present ==> SubMove(s) in moves)
    && (forall f :: f in roots && RootMove(f).src in present ==> RootMove(f) in moves)
    && (QmlMove().src in present ==> QmlMove() in moves)
    && (forall d :: d in TOOL_DIRS && ToolMove(d).src in present ==> ToolMove(d) in moves)
  }

  /** A move that takes nothing out of app/. */
  ghost predicate IsOtherMove(m: Move) {
    m == QmlMove() || exists d :: d in TOOL_DIRS && m == ToolMove(d)
  }

  lemma PlanElements(subs: seq<Sub>, roots: seq<string>, present: set<Path>)
    ensures IsPlan(Existing(Candidates(subs, roots), present), subs, roots, present)
  {
    var all := Candidates(subs, roots);
    forall m ensures m in Existing(all, present) <==> m in all && m.src in present {
      ExistingElements(all, present, m);
    }
    forall s | s in subs ensures SubMove(s) in all {
      var i :| 0 <= i < |subs| && subs[i] == s;
      assert SubMoves(subs)[i] == SubMove(s);
    }
    forall f | f in roots ensures RootMove(f) in all {
      var i :| 0 <= i < |roots| && roots[i] == f;
      assert RootMoves(roots)[i] == RootMove(f);
    }
    forall d | d in TOOL_DIRS ensures ToolMove(d) in all {
      var i :| 0 <= i < |TOOL_DIRS| && TOOL_DIRS[i] == d;
      assert ToolMoves()[i] == ToolMove(d);
    }
    forall m | m in all && !IsOtherMove(m)
      ensures (exists s :: s in subs && m == SubMove(s)) || (exists f :: f in roots && m == RootMove(f))
    {
      CandidateKinds(subs, roots, m);
    }
    assert QmlMove() in all;
  }

  lemma CandidateKinds(subs: seq<Sub>, roots: seq<string>, m: Move)
    requires m in Candidates(subs, roots)
    ensures (exists s :: s in subs && m == SubMove(s)) || (exists f :: f in roots && m == RootMove(f)) || IsOtherMove(m)
  {
    if m in SubMoves(subs) {
      var i :| 0 <= i < |subs| && SubMoves(subs)[i] == m;
      assert subs[i] in subs;
    } else if m in RootMoves(roots) {
      var i :| 0 <= i < |roots| && RootMoves(roots)[i] == m;
      assert roots[i] in roots;
    } else if m in ToolMoves() {
      var i :| 0 <= i < |TOOL_DIRS| && ToolMoves()[i] == m;
      assert TOOL_DIRS[i] in TOOL_DIRS;
    }
  }

  /** Executing the planned moves, as it affects one path. */
  function Relocate(moves: seq<Move>, path: Path): Path {
    if moves == [] then path
    else if moves[0].src <= path then moves[0].dst + path[|moves[0].src|..]
    else Relocate(moves[1..], path)
  }

  datatype Kind = Module | Package

  /** The file that defines a module or a package. */
  function SourceFile(kind: Kind, name: Name): Path
    requires name != []
  {
    if kind == Package then name + ["__init__.py"]
    else name[..|name| - 1] + [name[|name| - 1] + ".py"]
  }

  /** The modules whose file the plan moves: everything below a mapped
      sub-package, and the listed root modules. */
  predicate Moved(subs: seq<Sub>, roots: seq<string>, kind: Kind, name: Name) {
    && |name| >= 2 && name[0] == "app"
    && if Find(subs, name[1]) != [] then |name| > 2 || kind == Package
       else |name| == 2 && kind == Module && name[1] + ".py" in roots
  }

  lemma {:induction false} RelocateNone(moves: seq<Move>, path: Path)
    requires forall m :: m in moves ==> !(m.src <= path)
    ensures Relocate(moves, path) == path
  {
    if moves != [] {
      RelocateNone(moves[1..], path);
    }
  }

  lemma {:induction false} RelocateSome(moves: seq<Move>, path: Path) returns (m: Move)
    requires exists m :: m in moves && m.src <= path
    ensures m in moves && m.src <= path
    ensures Relocate(moves, path) == m.dst + path[|m.src|..]
  {
    if moves[0].src <= path {
      m := moves[0];
    } else {
      m := RelocateSome(moves[1..], path);
    }
  }

  lemma FileNamesAreNotIdentifiers(f: string)
    ensures !Identifier(f + ".py")
  {
    assert (f + ".py")[|f|] == '.';
    assert '.' in f + ".py";
  }

  lemma FindMapped(subs: seq<Sub>, roots: seq<string>, s: Sub)
    requires WellFormed(subs, roots) && s in subs
    ensures Find(subs, s.oldName) == [s]
  {
    var hit := Find(subs, s.oldName);
    assert hit != [];
    assert hit[0] in hit;
  }

  lemma FindIsMapped(subs: seq<Sub>, roots: seq<string>, key: string)
    requires WellFormed(subs, roots) && Find(subs, key) != []
    ensures Find(subs, key)[0] in subs && Find(subs, key)[0].oldName == key && Identifier(key)
  {
    assert Find(subs, key)[0] in Find(subs, key);
  }

  /** The entry of app/ that a move takes away. */
  predicate TakesEntry(subs: seq<Sub>, roots: seq<string>, entry: string, m: Move) {
    || (Find(subs, entry) != [] && m == SubMove(Find(subs, entry)[0]))
    || (entry in roots && m == RootMove(entry))
  }

  lemma OtherMovesLeaveApp(m: Move, path: Path)
    requires IsOtherMove(m) && path != [] && path[0] == "app"
    ensures !(m.src <= path)
  {
    assert "qml"[0] != "app"[0] && "tools"[0] != "app"[0];
    assert m.src != [] && m.src[0] != "app";
  }

  lemma MovesOutOfApp(
    subs: seq<Sub>, roots: seq<string>, present: set<Path>, moves: seq<Move>, m: Move, path: Path)
    requires WellFormed(subs, roots) && IsPlan(moves, subs, roots, present)
    requires m in moves && path != [] && path[0] == "app" && m.src <= path
    ensures |path| > 1 && m.src == path[..2] && TakesEntry(subs, roots, path[1], m)
  {
    if IsOtherMove(m) {
      OtherMovesLeaveApp(m, path);
    } else if s :| s in subs && m == SubMove(s) {
      SubMoveTakes(subs, roots, s, path);
    } else {
      var f :| f in roots && m == RootMove(f);
      RootMoveTakes(subs, roots, f, path);
    }
  }

  lemma RootMoveTakes(subs: seq<Sub>, roots: seq<string>, f: string, path: Path)
    requires f in roots && RootMove(f).src <= path
    ensures |path| > 1 && RootMove(f).src == path[..2] && TakesEntry(subs, roots, path[1], RootMove(f))
  {
    assert RootMove(f).src[1] == path[1];
  }

  lemma SubMoveTakes(subs: seq<Sub>, roots: seq<string>, s: Sub, path: Path)
    requires WellFormed(subs, roots) && s in subs && SubMove(s).src <= path
    ensures |path| > 1 && SubMove(s).src == path[..2] && TakesEntry(subs, roots, path[1], SubMove(s))
  {
    assert SubMove(s).src[1] == path[1];
    FindMapped(subs, roots, s);
  }

  /** Directory entries of app/ fall in two kinds that never overlap. */
  lemma EntryKinds(subs: seq<Sub>, roots: seq<string>, entry: string)
    requires WellFormed(subs, roots)
    ensures Find(subs, entry) != [] ==> Identifier(entry)
    ensures entry in roots ==> !Identifier(entry)
  {
    if Find(subs, entry) != [] {
      FindIsMapped(subs, roots, entry);
    }
    if entry in roots {
      FileNamesAreNotIdentifiers(entry[..|entry| - 3]);
      assert entry == entry[..|entry| - 3] + ".py";
    }
  }

  /** The plan moves a module exactly when it takes its entry of app/. */
  lemma EntryOfModule(subs: seq<Sub>, roots: seq<string>, kind: Kind, name: Name)
    requires WellFormed(subs, roots)
    requires |name| > 1 && name[0] == "app" && Identifiers(name)
    ensures
      var entry := SourceFile(kind, name)[1];
      Moved(subs, roots, kind, name) <==> Find(subs, entry) != [] || entry in roots
  {
    var entry := SourceFile(kind, name)[1];
    assert Identifier(name[1]);
    EntryKinds(subs, roots, entry);
    FileNamesAreNotIdentifiers(name[1]);
    if |name| == 2 && kind == Module {
      assert entry[..|entry| - 3] == name[1];
      if Find(subs, name[1]) != [] {
        FindIsMapped(subs, roots, name[1]);
      }
    }
  }

  lemma SourceFileBelow(kind: Kind, above: Name, name: Name)
    requires name != []
    ensures SourceFile(kind, above + name) == above + SourceFile(kind, name)
  {
    assert (above + name)[..|above + name| - 1] == above + name[..|name| - 1];
  }

  lemma LandingOfModule(subs: seq<Sub>, roots: seq<string>, kind: Kind, name: Name, m: Move)
    requires WellFormed(subs, roots) && Identifiers(name)
    requires Moved(subs, roots, kind, name)
    requires TakesEntry(subs, roots, SourceFile(kind, name)[1], m)
    ensures m.dst + SourceFile(kind, name)[2..] == SourceFile(kind, MoveName(subs, name))
  {
    EntryKinds(subs, roots, SourceFile(kind, name)[1]);
    assert Identifier(name[1]);
    FileNamesAreNotIdentifiers(name[1]);
    if Find(subs, name[1]) == [] {
      assert SourceFile(kind, name)[1] == name[1] + ".py";
      assert name[1..] == [name[1]];
    } else {
      assert SourceFile(kind, name)[1] == name[1];
      LandingInSubpackage(subs, kind, name, m);
    }
  }

  lemma LandingInSubpackage(subs: seq<Sub>, kind: Kind, name: Name, m: Move)
    requires |name| > 1 && name[0] == "app" && Find(subs, name[1]) != [] && (|name| > 2 || kind == Package)
    requires m == SubMove(Find(subs, name[1])[0])
    ensures m.dst + SourceFile(kind, name)[2..] == SourceFile(kind, MoveName(subs, name))
  {
    if |name| > 2 {
      assert name == name[..2] + name[2..];
      SourceFileBelow(kind, name[..2], name[2..]);
      SourceFileBelow(kind, m.dst, name[2..]);
    } else {
      assert SourceFile(kind, name)[2..] == ["__init__.py"];
    }
  }

  lemma AppMoveExists(subs: seq<Sub>, roots: seq<string>, present: set<Path>, moves: seq<Move>, path: Path)
    requires WellFormed(subs, roots) && IsPlan(moves, subs, roots, present)
    requires |path| > 1 && path[0] == "app" && path[..2] in present
    requires Find(subs, path[1]) != [] || path[1] in roots
    ensures exists m :: m in moves && m.src <= path
  {
    assert path[..2] == ["app", path[1]];
    if Find(subs, path[1]) != [] {
      FindIsMapped(subs, roots, path[1]);
      assert SubMove(Find(subs, path[1])[0]) in moves;
    } else {
      assert RootMove(path[1]) in moves;
    }
  }

  lemma MoveOfModuleExists(
    subs: seq<Sub>, roots: seq<string>, present: set<Path>, moves: seq<Move>, kind: Kind, name: Name)
    requires WellFormed(subs, roots) && IsPlan(moves, subs, roots, present) && Identifiers(name)
    requires Moved(subs, roots, kind, name) && SourceFile(kind, name)[..2] in present
    ensures exists m :: m in moves && m.src <= SourceFile(kind, name)
  {
    EntryOfModule(subs, roots, kind, name);
    AppMoveExists(subs, roots, present, moves, SourceFile(kind, name));
  }

  lemma MovedModuleLands(
    subs: seq<Sub>, roots: seq<string>, present: set<Path>, moves: seq<Move>, kind: Kind, name: Name)
    requires WellFormed(subs, roots) && IsPlan(moves, subs, roots, present) && Identifiers(name)
    requires Moved(subs, roots, kind, name) && SourceFile(kind, name)[..2] in present
    ensures Relocate(moves, SourceFile(kind, name)) == SourceFile(kind, MoveName(subs, name))
  {
    var file := SourceFile(kind, name);
    MoveOfModuleExists(subs, roots, present, moves, kind, name);
    var m := RelocateSome(moves, file);
    MovesOutOfApp(subs, roots, present, moves, m, file);
    LandingOfModule(subs, roots, kind, name, m);
  }

  lemma OtherModuleStays(
    subs: seq<Sub>, roots: seq<string>, present: set<Path>, moves: seq<Move>, kind: Kind, name: Name)
    requires WellFormed(subs, roots) && IsPlan(moves, subs, roots, present) && Identifiers(name)
    requires |name| > 1 && name[0] == "app" && !Moved(subs, roots, kind, name)
    ensures Relocate(moves, SourceFile(kind, name)) == SourceFile(kind, name)
  {
    var file := SourceFile(kind, name);
    EntryOfModule(subs, roots, kind, name);
    forall m | m in moves ensures !(m.src <= file) {
      if m.src <= file {
        MovesOutOfApp(subs, roots, present, moves, m, file);
      }
    }
    RelocateNone(moves, file);
  }

  /** The file of an `app` module lands where its rewritten name points if and
      only if the plan moves that module. */
  lemma MoveNameIsWhereTheFileLands(
    subs: seq<Sub>, roots: seq<string>, present: set<Path>, moves: seq<Move>, kind: Kind, name: Name)
    requires WellFormed(subs, roots) && IsPlan(moves, subs, roots, present) && Identifiers(name)
    requires |name| > 1 && name[0] == "app" && SourceFile(kind, name)[..2] in present
    ensures Relocate(moves, SourceFile(kind, name)) == SourceFile(kind, MoveName(subs, name))
            <==> Moved(subs, roots, kind, name)
  {
    if Moved(subs, roots, kind, name) {
      MovedModuleLands(subs, roots, present, moves, kind, name);
    } else {
      OtherModuleStays(subs, roots, present, moves, kind, name);
      NewNameIsElsewhere(subs, roots, kind, name);
    }
  }

  lemma NewNameIsElsewhere(subs: seq<Sub>, roots: seq<string>, kind: Kind, name: Name)
    requires WellFormed(subs, roots) && |name| > 1 && name[0] == "app"
    ensures SourceFile(kind, name) != SourceFile(kind, MoveName(subs, name))
  {
    NewNameIsBelowBackend(subs, roots, name);
    assert SourceFile(kind, name)[0] == "app" && SourceFile(kind, MoveName(subs, name))[0] == "backend";
    assert "app"[0] == 'a' && "backend"[0] == 'b';
  }

  lemma NewNameIsBelowBackend(subs: seq<Sub>, roots: seq<string>, name: Name)
    requires WellFormed(subs, roots) && |name| > 1 && name[0] == "app"
    ensures |MoveName(subs, name)| > 1 && MoveName(subs, name)[0] == "backend"
  {
    if Find(subs, name[1]) != [] {
      FindIsMapped(subs, roots, name[1]);
    }
  }

  // ---- the rewrite maps ----

  function SubRule(sub: Sub): Rule {
    Rule("app." + sub.oldName, "backend." + Dotted(sub.newParts))
  }

  function RootRule(f: string): Rule
    requires |f| >= 3
  {
    Rule("app." + f[..|f| - 3], "backend." + f[..|f| - 3])
  }

  predicate LongestFirst(rules: seq<Rule>) {
    forall i, j :: 0 <= i < j < |rules| ==> |rules[i].from| >= |rules[j].from|
  }

  /** The stable `pairs.sort(key=lambda p: -len(p[0]))`. */
  function SortLongestFirst(rules: seq<Rule>): (sorted: seq<Rule>)
    ensures multiset(sorted) == multiset(rules)
    ensures LongestFirst(sorted)
  {
    if rules == [] then []
    else
      assert rules == [rules[0]] + rules[1..];
      InsertRule(rules[0], SortLongestFirst(rules[1..]))
  }

  function InsertRule(r: Rule, rules: seq<Rule>): (sorted: seq<Rule>)
    requires LongestFirst(rules)
    ensures multiset(sorted) == multiset(rules) + multiset{r}
    ensures LongestFirst(sorted)
  {
    if rules == [] || |r.from| >= |rules[0].from| then [r] + rules
    else
      var rest := InsertRule(r, rules[1..]);
      assert rules == [rules[0]] + rules[1..];
      InsertedAreShorter(r, rules, rest);
      PrependLongest(rules[0], rest);
      [rules[0]] + rest
  }

  lemma InsertedAreShorter(r: Rule, rules: seq<Rule>, rest: seq<Rule>)
    requires rules != [] && LongestFirst(rules) && |r.from| < |rules[0].from|
    requires multiset(rest) == multiset(rules[1..]) + multiset{r}
    ensures forall q :: q in rest ==> |q.from| <= |rules[0].from|
  {
    forall q | q in rest ensures |q.from| <= |rules[0].from| {
      assert q in multiset(rest);
      assert q == r || q in rules[1..];
    }
  }

  lemma PrependLongest(r: Rule, rules: seq<Rule>)
    requires LongestFirst(rules) && forall q :: q in rules ==> |q.from| <= |r.from|
    ensures LongestFirst([r] + rules)
  {
    assert forall k :: 0 < k < |[r] + rules| ==> ([r] + rules)[k] == rules[k - 1];
  }

  function RootRules(roots: seq<string>): seq<Rule> {
    if roots == [] then []
    else
      var f := roots[|roots| - 1];
      RootRules(roots[..|roots| - 1]) + if RootFile(f) then [RootRule(f)] else []
  }

  /** The pairs in the order they are appended. */
  function RawRules(subs: seq<Sub>, roots: seq<string>): seq<Rule> {
    seq(|subs|, i requires 0 <= i < |subs| => SubRule(subs[i])) + RootRules(roots) +
    [Rule("app", "backend")]
  }

  /** `ABS_IMPORT_MAP`: all the pairs, longest old prefix first. */
  ghost predicate IsAbsImportMap(rules: seq<Rule>, subs: seq<Sub>, roots: seq<string>) {
    && LongestFirst(rules)
    && multiset(rules) == multiset(RawRules(subs, roots))
  }

  method BuildAbsImportMap(subs: seq<Sub>, roots: seq<string>) returns (rules: seq<Rule>)
    ensures IsAbsImportMap(rules, subs, roots)
  {
    ghost var raw := RawRules(subs, roots);
    var pairs: seq<Rule> := [];
    for i := 0 to |subs|
      invariant pairs == raw[..i]
    {
      pairs := pairs + [SubRule(subs[i])];
    }
    ghost var before := pairs;
    for i := 0 to |roots|
      invariant pairs == before + RootRules(roots[..i])
    {
      assert roots[..i + 1][..i] == roots[..i];
      if RootFile(roots[i]) {
        pairs := pairs + [RootRule(roots[i])];
      }
    }
    assert roots[..|roots|] == roots;
    pairs := pairs + [Rule("app", "backend")];
    assert pairs == raw;
    rules := SortLongestFirst(pairs);
  }

  function NewPackage(sub: Sub): string { "backend." + Dotted(sub.newParts) }

  /** `REVERSE_MAP` */
  ghost predicate IsReverseMap(m: map<string, string>, subs: seq<Sub>) {
    && (forall s :: s in subs ==> NewPackage(s) in m && m[NewPackage(s)] == "app." + s.oldName)
    && (forall k :: k in m ==> k == "backend" || exists s :: s in subs && k == NewPackage(s))
    && "backend" in m && m["backend"] == "app"
  }

  lemma NewPackagesAreDistinct(subs: seq<Sub>, roots: seq<string>, s: Sub, t: Sub)
    requires WellFormed(subs, roots) && s in subs && t in subs
    requires NewPackage(s) == NewPackage(t)
    ensures s == t
  {
    assert Dotted(s.newParts) == NewPackage(s)[8..];
    assert Dotted(t.newParts) == NewPackage(t)[8..];
    SplitOfJoin('.', s.newParts);
    SplitOfJoin('.', t.newParts);
  }

  function ReverseOf(subs: seq<Sub>): map<string, string> {
    if subs == [] then map[]
    else
      var n := |subs| - 1;
      ReverseOf(subs[..n])[NewPackage(subs[n]) := "app." + subs[n].oldName]
  }

  lemma {:induction false} ReverseOfKeys(subs: seq<Sub>)
    ensures forall k :: k in ReverseOf(subs) <==> exists s :: s in subs && k == NewPackage(s)
  {
    if subs != [] {
      var n := |subs| - 1;
      ReverseOfKeys(subs[..n]);
      assert subs == subs[..n] + [subs[n]];
    }
  }

  lemma {:induction false} ReverseOfValue(subs: seq<Sub>, s: Sub)
    requires s in subs
    requires forall t :: t in subs && NewPackage(t) == NewPackage(s) ==> t == s
    ensures NewPackage(s) in ReverseOf(subs)
    ensures ReverseOf(subs)[NewPackage(s)] == "app." + s.oldName
  {
    var n := |subs| - 1;
    assert subs == subs[..n] + [subs[n]];
    if NewPackage(subs[n]) != NewPackage(s) {
      ReverseOfValue(subs[..n], s);
    }
  }

  lemma ReverseOfIsReverseMap(subs: seq<Sub>, roots: seq<string>)
    requires WellFormed(subs, roots)
    ensures IsReverseMap(ReverseOf(subs)["backend" := "app"], subs)
  {
    ReverseOfKeys(subs);
    var m := ReverseOf(subs)["backend" := "app"];
    forall s | s in subs
      ensures NewPackage(s) in m && m[NewPackage(s)] == "app." + s.oldName
    {
      NewPackageIsNotBackend(s);
      ReverseOfSub(subs, roots, s);
    }
  }

  lemma NewPackageIsNotBackend(s: Sub)
    ensures NewPackage(s) != "backend"
  {
    assert |NewPackage(s)| > |"backend"|;
  }

  lemma ReverseOfSub(subs: seq<Sub>, roots: seq<string>, s: Sub)
    requires WellFormed(subs, roots) && s in subs
    ensures NewPackage(s) in ReverseOf(subs) && ReverseOf(subs)[NewPackage(s)] == "app." + s.oldName
  {
    forall t | t in subs && NewPackage(t) == NewPackage(s) ensures t == s {
      NewPackagesAreDistinct(subs, roots, s, t);
    }
    ReverseOfValue(subs, s);
  }

  method BuildReverseMap(subs: seq<Sub>, ghost roots: seq<string>) returns (m: map<string, string>)
    requires WellFormed(subs, roots)
    ensures IsReverseMap(m, subs)
  {
    m := map[];
    for i := 0 to |subs|
      invariant m == ReverseOf(subs[..i])
    {
      assert subs[..i + 1][..i] == subs[..i];
      m := m[NewPackage(subs[i]) := "app." + subs[i].oldName];
    }
    assert subs[..|subs|] == subs;
    m := m["backend" := "app"];
    ReverseOfIsReverseMap(subs, roots);
  }

  lemma ShippedNamesAreIdentifiers()
    ensures Identifiers(["core", "config", "utils", "infra", "ui", "api", "tests"])
    ensures Identifiers(["engines", "ai", "intel", "gpu", "scanning"])
    ensures Identifiers(["sandbox", "sandbox_vmware", "scancenter", "filefunction"])
  {
    ShortNamesAreIdentifiers();
    EngineNamesAreIdentifiers();
    LongNamesAreIdentifiers();
  }

  lemma ShortNamesAreIdentifiers()
    ensures Identifiers(["core", "config", "utils", "infra", "ui", "api", "tests"])
  {
  }

  lemma EngineNamesAreIdentifiers()
    ensures Identifiers(["engines", "ai", "intel", "gpu", "scanning"])
  {
  }

  lemma LongNamesAreIdentifiers()
    ensures Identifiers(["sandbox", "sandbox_vmware", "scancenter", "filefunction"])
  {
  }

  lemma ShippedOldNamesDiffer()
    ensures forall i, j :: 0 <= i < j < |SUBPACKAGE_MAP| ==>
              SUBPACKAGE_MAP[i].oldName != SUBPACKAGE_MAP[j].oldName
  {
  }

  function Leaf(s: Sub): string
    requires s.newParts != []
  {
    s.newParts[|s.newParts| - 1]
  }

  lemma ShippedPaths()
    ensures forall i :: 0 <= i < |SUBPACKAGE_MAP| ==>
              var p := SUBPACKAGE_MAP[i].newParts;
              |p| == 1 || (|p| == 2 && p[0] == "engines")
  {
  }

  lemma ShippedLeavesAreNotGroups()
    ensures forall i :: 0 <= i < |SUBPACKAGE_MAP| && SUBPACKAGE_MAP[i].newParts != [] ==>
              Leaf(SUBPACKAGE_MAP[i]) != "engines"
  {
  }

  lemma ShippedLeavesDiffer()
    ensures forall i, j | 0 <= i < j < |SUBPACKAGE_MAP| && SUBPACKAGE_MAP[i].newParts != [] &&
              SUBPACKAGE_MAP[j].newParts != [] ::
              Leaf(SUBPACKAGE_MAP[i]) != Leaf(SUBPACKAGE_MAP[j])
  {
    assert SUBPACKAGE_MAP[4].newParts == ["api"];
    forall i | 0 <= i < |SUBPACKAGE_MAP| && i != 4
      ensures Leaf(SUBPACKAGE_MAP[i]) == SUBPACKAGE_MAP[i].oldName
    {
    }
    ShippedOldNamesDiffer();
    forall i | 0 <= i < |SUBPACKAGE_MAP| && i != 4
      ensures SUBPACKAGE_MAP[i].oldName != "api"
    {
    }
  }

  lemma ShippedNewPathsPrefixFree(s: Sub, t: Sub)
    requires s in SUBPACKAGE_MAP && t in SUBPACKAGE_MAP && s.newParts <= t.newParts
    ensures s == t
  {
    ShippedPaths();
    ShippedLeavesDiffer();
    ShippedLeavesAreNotGroups();
    assert Leaf(s) == t.newParts[|s.newParts| - 1];
    assert Leaf(s) == Leaf(t);
    var i :| 0 <= i < |SUBPACKAGE_MAP| && SUBPACKAGE_MAP[i] == s;
    var j :| 0 <= j < |SUBPACKAGE_MAP| && SUBPACKAGE_MAP[j] == t;
    assert i == j;
  }

  lemma ShippedRootModules(f: string)
    requires f in ROOT_MODULE_FILES
    ensures RootFile(f)
    ensures f[..|f| - 3] in ["__main__", "__version__", "application"]
  {
    assert ROOT_MODULE_FILES[0] == "__main__" + ".py";
    assert ROOT_MODULE_FILES[1] == "__version__" + ".py";
    assert ROOT_MODULE_FILES[2] == "application" + ".py";
  }

  lemma RootModuleNamesAreIdentifiers(m: string)
    requires m in ["__main__", "__version__", "application"]
    ensures Identifier(m)
  {
  }

  lemma ShippedRootsAreNotSubpackages(m: string, s: Sub)
    requires m in ["__main__", "__version__", "application"] && s in SUBPACKAGE_MAP
    ensures m != s.oldName
  {
  }

  lemma ShippedSubpackage(s: Sub)
    requires s in SUBPACKAGE_MAP
    ensures Identifier(s.oldName) && s.newParts != [] && Identifiers(s.newParts)
  {
    ShippedNamesAreIdentifiers();
  }

  lemma ShippedOldNamesDistinct(s: Sub, t: Sub)
    requires s in SUBPACKAGE_MAP && t in SUBPACKAGE_MAP && s.oldName == t.oldName
    ensures s == t
  {
    ShippedOldNamesDiffer();
    var i :| 0 <= i < |SUBPACKAGE_MAP| && SUBPACKAGE_MAP[i] == s;
    var j :| 0 <= j < |SUBPACKAGE_MAP| && SUBPACKAGE_MAP[j] == t;
    assert i == j;
  }

  lemma ShippedTablesAreWellFormed()
    ensures WellFormed(SUBPACKAGE_MAP, ROOT_MODULE_FILES)
  {
    forall s | s in SUBPACKAGE_MAP
      ensures Identifier(s.oldName) && s.newParts != [] && Identifiers(s.newParts)
    {
      ShippedSubpackage(s);
    }
    forall f | f in ROOT_MODULE_FILES ensures RootFile(f) && Identifier(f[..|f| - 3]) {
      ShippedRootModules(f);
      RootModuleNamesAreIdentifiers(f[..|f| - 3]);
    }
    forall f, s | f in ROOT_MODULE_FILES && s in SUBPACKAGE_MAP ensures f[..|f| - 3] != s.oldName {
      ShippedRootModules(f);
      ShippedRootsAreNotSubpackages(f[..|f| - 3], s);
    }
    forall s, t | s in SUBPACKAGE_MAP && t in SUBPACKAGE_MAP && s.oldName == t.oldName
      ensures s == t
    {
      ShippedOldNamesDistinct(s, t);
    }
    forall s, t | s in SUBPACKAGE_MAP && t in SUBPACKAGE_MAP && s.newParts <= t.newParts
      ensures s == t
    {
      ShippedNewPathsPrefixFree(s, t);
    }
  }
}
