/** Import statements before and after the migration, and when they keep naming
    the same module: scripts/refactor_project.py, lines 139-284. Relative names
    resolve as in section 5.7 of the Python Language Reference. */
module ImportStatements {
  import opened Wrappers
  import opened Text
  import opened ImportTables
  import opened ImportRewrite

  // ---- the old package of a moved file: `_get_old_package` ----

  function OldPackage(reverse: map<string, string>, parents: seq<string>): string {
    if parents == [] then "app" else FindBase(reverse, parents, |parents|)
  }

  function FindBase(reverse: map<string, string>, parents: seq<string>, length: nat): string
    requires length <= |parents|
  {
    if length == 0 then "app"
    else
      var candidate := "backend." + Dotted(parents[..length]);
      if candidate in reverse then
        var suffix := parents[length..];
        if suffix != [] then reverse[candidate] + "." + Dotted(suffix) else reverse[candidate]
      else FindBase(reverse, parents, length - 1)
  }

  lemma CandidateIsMapped(
    reverse: map<string, string>, subs: seq<Sub>, roots: seq<string>, parts: Name)
    returns (s: Sub)
    requires WellFormed(subs, roots) && IsReverseMap(reverse, subs)
    requires parts != [] && Identifiers(parts) && "backend." + Dotted(parts) in reverse
    ensures s in subs && s.newParts == parts
  {
    var key := "backend." + Dotted(parts);
    assert key[7] == '.' && |"backend"| == 7;
    s :| s in subs && key == NewPackage(s);
    assert Dotted(parts) == key[8..];
    assert Dotted(s.newParts) == NewPackage(s)[8..];
    NamesAreAtoms(parts);
    NamesAreAtoms(s.newParts);
    SplitOfJoin('.', parts);
    SplitOfJoin('.', s.newParts);
  }

  lemma LongerIsUnmapped(
    reverse: map<string, string>, subs: seq<Sub>, roots: seq<string>, s: Sub, parts: Name)
    requires WellFormed(subs, roots) && IsReverseMap(reverse, subs) && s in subs
    requires s.newParts < parts && Identifiers(parts)
    ensures "backend." + Dotted(parts) !in reverse
  {
    if "backend." + Dotted(parts) in reverse {
      var t := CandidateIsMapped(reverse, subs, roots, parts);
    }
  }

  /** The longest-prefix loop stops exactly at the sub-package's own path. */
  lemma {:induction false} LoopStopsAtSubpackage(
    reverse: map<string, string>, subs: seq<Sub>, roots: seq<string>, s: Sub, parents: Name, length: nat)
    requires WellFormed(subs, roots) && IsReverseMap(reverse, subs) && s in subs
    requires s.newParts <= parents && Identifiers(parents)
    requires |s.newParts| <= length <= |parents|
    ensures FindBase(reverse, parents, length) ==
            "app." + s.oldName +
            if |parents| == |s.newParts| then "" else "." + Dotted(parents[|s.newParts|..])
  {
    if length == |s.newParts| {
      LoopStopsHere(reverse, subs, s, parents);
    } else {
      LongerIsUnmapped(reverse, subs, roots, s, parents[..length]);
      LoopGoesOn(reverse, parents, length);
      LoopStopsAtSubpackage(reverse, subs, roots, s, parents, length - 1);
    }
  }

  lemma LoopGoesOn(reverse: map<string, string>, parents: Name, length: nat)
    requires 0 < length <= |parents| && "backend." + Dotted(parents[..length]) !in reverse
    ensures FindBase(reverse, parents, length) == FindBase(reverse, parents, length - 1)
  {
  }

  lemma LoopStopsHere(reverse: map<string, string>, subs: seq<Sub>, s: Sub, parents: Name)
    requires IsReverseMap(reverse, subs) && s in subs && s.newParts <= parents && s.newParts != []
    ensures FindBase(reverse, parents, |s.newParts|) ==
            "app." + s.oldName +
            if |parents| == |s.newParts| then "" else "." + Dotted(parents[|s.newParts|..])
  {
    assert parents[..|s.newParts|] == s.newParts;
    assert NewPackage(s) in reverse && reverse[NewPackage(s)] == "app." + s.oldName;
  }

  lemma BaseOfMovedDirectory(
    reverse: map<string, string>, subs: seq<Sub>, roots: seq<string>, s: Sub, rest: Name)
    requires WellFormed(subs, roots) && IsReverseMap(reverse, subs) && s in subs
    requires Identifiers(rest)
    ensures OldPackage(reverse, s.newParts + rest) ==
            "app." + s.oldName + if rest == [] then "" else "." + Dotted(rest)
  {
    var parents := s.newParts + rest;
    assert s.newParts <= parents && parents[|s.newParts|..] == rest;
    LoopStopsAtSubpackage(reverse, subs, roots, s, parents, |parents|);
  }

  lemma DottedBelowApp(x: string, rest: Name)
    ensures Dotted(["app", x] + rest) ==
            "app." + x + if rest == [] then "" else "." + Dotted(rest)
  {
    PairIsDotted("app", x);
    DottedCons(["app", x], rest);
  }

  lemma MoveNameBelowApp(subs: seq<Sub>, name: Name)
    requires |name| > 1 && name[0] == "app"
    ensures MoveName(subs, name) == ["backend"] + Target(subs, name[1]) + name[2..]
  {
    assert name[1..] == [name[1]] + name[2..];
  }

  lemma MovedDirectory(subs: seq<Sub>, roots: seq<string>, package: Name) returns (s: Sub)
    requires WellFormed(subs, roots) && MovedPackage(subs, package) && |package| > 1
    ensures s in subs && package[1] == s.oldName
    ensures MoveName(subs, package)[1..] == s.newParts + package[2..]
  {
    FindIsMapped(subs, roots, package[1]);
    s := Find(subs, package[1])[0];
    MoveNameBelowApp(subs, package);
    assert (["backend"] + s.newParts + package[2..])[1..] == s.newParts + package[2..];
  }

  lemma DottedOfAppPackage(package: Name)
    requires |package| > 1 && package[0] == "app"
    ensures Dotted(package) ==
            "app." + package[1] + if package[2..] == [] then "" else "." + Dotted(package[2..])
  {
    assert package == ["app", package[1]] + package[2..];
    DottedBelowApp(package[1], package[2..]);
  }

  /** `_get_old_package` undoes the move of every directory that the plan moves. */
  lemma OldPackageInvertsMove(
    reverse: map<string, string>, subs: seq<Sub>, roots: seq<string>, package: Name)
    requires WellFormed(subs, roots) && IsReverseMap(reverse, subs)
    requires MovedPackage(subs, package)
    ensures OldPackage(reverse, MoveName(subs, package)[1..]) == Dotted(package)
  {
    if |package| > 1 {
      var s := MovedDirectory(subs, roots, package);
      BaseOfMovedDirectory(reverse, subs, roots, s, package[2..]);
      DottedOfAppPackage(package);
    }
  }

  /** Packages whose modules the plan moves. */
  predicate MovedPackage(subs: seq<Sub>, package: Name) {
    && package != [] && package[0] == "app" && Identifiers(package)
    && (|package| > 1 ==> Find(subs, package[1]) != [])
  }

  /** No two moved packages end up at the same place. */
  lemma MoveIsInjective(
    reverse: map<string, string>, subs: seq<Sub>, roots: seq<string>, a: Name, b: Name)
    requires WellFormed(subs, roots) && IsReverseMap(reverse, subs)
    requires MovedPackage(subs, a) && MovedPackage(subs, b)
    requires MoveName(subs, a) == MoveName(subs, b)
    ensures a == b
  {
    OldPackageInvertsMove(reverse, subs, roots, a);
    OldPackageInvertsMove(reverse, subs, roots, b);
    NamesAreAtoms(a);
    NamesAreAtoms(b);
    SplitOfJoin('.', a);
    SplitOfJoin('.', b);
  }

  // ---- relative names ----

  /** `_resolve_relative`; "" stands for "invalid". */
  function ResolveRelative(package: string, dots: nat, m: string): string
    requires dots >= 1
  {
    var parts := Split('.', package);
    if dots - 1 > |parts| then ""
    else
      var base := Dotted(parts[..|parts| - (dots - 1)]);
      if m != "" then base + "." + m else base
  }

  /** Python's own rule: a name may not climb above the top-level package. */
  function Resolve(package: Name, dots: nat, m: Name): Option<Name>
    requires dots >= 1
  {
    if dots - 1 < |package| then Some(package[..|package| - (dots - 1)] + m) else None
  }

  predicate GoodName(m: string) {
    m == "" || Identifiers(Split('.', m))
  }

  function Parts(m: string): Name {
    if m == "" then [] else Split('.', m)
  }

  lemma GoodNamesAreDotted(m: string)
    requires GoodName(m)
    ensures Identifiers(Parts(m)) && (m != "" <==> Parts(m) != [])
    ensures m == Dotted(Parts(m))
  {
    if m != "" {
      JoinOfSplit('.', m);
    }
  }

  lemma ResolveAgrees(package: Name, dots: nat, m: string)
    requires package != [] && Identifiers(package) && GoodName(m) && dots >= 1
    ensures match Resolve(package, dots, Parts(m))
            case Some(t) =>
              && t != [] && t[0] == package[0] && Identifiers(t)
              && ResolveRelative(Dotted(package), dots, m) == Dotted(t)
            case None =>
              ResolveRelative(Dotted(package), dots, m) ==
              if dots - 1 == |package| && m != "" then "." + m else ""
  {
    NamesAreAtoms(package);
    SplitOfJoin('.', package);
    GoodNamesAreDotted(m);
    if dots - 1 < |package| {
      var base := package[..|package| - (dots - 1)];
      DottedCons(base, Parts(m));
    } else if dots - 1 == |package| {
      assert package[..|package| - (dots - 1)] == [];
      assert "" + "." + m == "." + m;
    }
  }

  // ---- statements ----

  /** A parsed import line; `text` of a bare import is all that follows the
      keyword. */
  datatype Stmt =
    | FromRelative(dots: nat, m: string)
    | FromAbsolute(m: string)
    | ImportBare(text: string)

  function LeadingDots(s: string): (n: nat)
    ensures n <= |s|
  {
    if s != "" && s[0] == '.' then 1 + LeadingDots(s[1..]) else 0
  }

  /** How Python reads the line `from <target> import ...`. */
  function ReadFrom(target: string): Stmt {
    var n := LeadingDots(target);
    if n == 0 then FromAbsolute(target) else FromRelative(n, target[n..])
  }

  function WordRun(s: string): (n: nat)
    ensures n <= |s|
    ensures forall i :: 0 <= i < n ==> IsWord(s[i])
    ensures n < |s| ==> !IsWord(s[n])
  {
    if s != "" && IsWord(s[0]) then 1 + WordRun(s[1..]) else 0
  }

  /** The length of the longest match of `(\.\w+)*`. */
  function DottedRun(s: string): (n: nat)
    ensures n <= |s|
  {
    if s != "" && s[0] == '.' && WordRun(s[1..]) > 0 then
      var k := 1 + WordRun(s[1..]);
      k + DottedRun(s[k..])
    else 0
  }

  /** The match ends behind a word, where no dot with a word follows. */
  lemma {:induction false} DottedRunEnds(s: string)
    ensures
      var n := DottedRun(s);
      && (n > 0 ==> s[0] == '.' && IsWord(s[n - 1]) && (n < |s| ==> !IsWord(s[n])))
      && (n < |s| - 1 && s[n] == '.' ==> !IsWord(s[n + 1]))
      && forall i :: 0 <= i < n && !IsWord(s[i]) ==> s[i] == '.' && IsWord(s[i + 1])
  {
    if s != "" && s[0] == '.' && WordRun(s[1..]) > 0 {
      DottedRunEnds(s[1 + WordRun(s[1..])..]);
    }
  }

  /** Rewrites the longest `top(\.\w+)*` at the front of the text. */
  function RewriteHead(rules: seq<Rule>, top: string, text: string): string
    requires top <= text
  {
    var n := |top| + DottedRun(text[|top|..]);
    Rewrite(rules, text[..n]) + text[n..]
  }

  /** `import <text>`: the expression has no word boundary after the package. */
  function RewriteBare(rules: seq<Rule>, text: string): string {
    if "app" <= text then RewriteHead(rules, "app", text)
    else if "tools" <= text then RewriteHead(TOOLS_IMPORT_MAP, "tools", text)
    else text
  }

  predicate Under(top: string, m: string) {
    m == top || top + "." <= m
  }

  /** `rewrite_line` */
  function RewriteLine(rules: seq<Rule>, package: string, stmt: Stmt): Stmt {
    match stmt
    case FromRelative(dots, m) =>
      if dots < 2 then stmt
      else
        var oldAbs := ResolveRelative(package, dots, m);
        if oldAbs != "" then ReadFrom(Rewrite(rules, oldAbs)) else stmt
    case FromAbsolute(m) =>
      if Under("app", m) then FromAbsolute(Rewrite(rules, m))
      else if Under("tools", m) then FromAbsolute(Rewrite(TOOLS_IMPORT_MAP, m))
      else stmt
    case ImportBare(text) => ImportBare(RewriteBare(rules, text))
  }

  /** The module a statement imports from, for a file in `package`. */
  function Meaning(package: Name, stmt: Stmt): Option<Name> {
    match stmt
    case FromRelative(dots, m) => if dots == 0 then None else Resolve(package, dots, Parts(m))
    case FromAbsolute(m) => Some(Parts(m))
    case ImportBare(text) => Some(Split('.', text[..WordRun(text) + DottedRun(text[WordRun(text)..])]))
  }

  /** Where a module is meant to be after the migration. */
  function NewName(subs: seq<Sub>, name: Name): Name {
    MoveTool(MoveName(subs, name))
  }

  /** What may follow the dotted name of a bare import. */
  predicate Boundary(tail: string) {
    tail == "" || (!IsWord(tail[0]) && tail[0] != '.')
  }

  ghost predicate WellFormedStmt(stmt: Stmt) {
    match stmt
    case FromRelative(dots, m) => dots >= 1 && GoodName(m)
    case FromAbsolute(m) => m != "" && GoodName(m)
    case ImportBare(text) =>
      exists name, tail :: name != [] && Identifiers(name) && Boundary(tail) && text == Dotted(name) + tail
  }

  /** Which statements survive the migration, told before it is run. */
  predicate Survives(subs: seq<Sub>, package: Name, stmt: Stmt) {
    match stmt
    case FromRelative(dots, m) =>
      if dots >= 2 then
        || dots - 1 < |package|
        || (dots - 1 >= |MoveName(subs, package)| && (dots - 1 > |package| || m == ""))
      else
        |package| > 1 || m == "" || Target(subs, Parts(m)[0]) == [Parts(m)[0]]
    case FromAbsolute(m) => true
    case ImportBare(text) =>
      var top := text[..WordRun(text)];
      !("app" < top) && !("tools" < top)
  }

  /** The rewritten statement, read in the moved file, names the moved module. */
  predicate Preserved(rules: seq<Rule>, subs: seq<Sub>, package: Name, stmt: Stmt, rewritten: Stmt) {
    var after := Meaning(MoveName(subs, package), rewritten);
    match Meaning(package, stmt)
    case Some(t) => after == Some(NewName(subs, t))
    case None => after == None
  }

  lemma HeadOfDotted(name: Name)
    requires name != [] && Identifiers(name)
    ensures Identifier(name[0]) && name[0] <= Dotted(name)
    ensures Dotted(name) != "" && Dotted(name)[0] == name[0][0] && IsWord(name[0][0])
  {
    assert name[0] in name;
    assert Dotted(name)[..|name[0]|] == name[0];
  }

  lemma PartsOfDotted(name: Name)
    requires name != [] && Identifiers(name)
    ensures Dotted(name) != "" && Parts(Dotted(name)) == name
  {
    HeadOfDotted(name);
    NamesAreAtoms(name);
    SplitOfJoin('.', name);
  }

  lemma NewNamesAreIdentifiers(subs: seq<Sub>, roots: seq<string>, name: Name)
    requires WellFormed(subs, roots) && name != [] && Identifiers(name)
    ensures MoveName(subs, name) != [] && Identifiers(MoveName(subs, name))
    ensures name[0] == "app" ==> MoveName(subs, name)[0] == "backend" && NewName(subs, name) == MoveName(subs, name)
    ensures NewName(subs, name) != [] && Identifiers(NewName(subs, name))
  {
    assert Identifier("backend") && Identifier("payload");
    if name[0] == "app" && |name| > 1 {
      TargetIsNotEmpty(subs, roots, name[1]);
    }
  }

  lemma ReadOfDotted(name: Name)
    requires name != [] && Identifiers(name)
    ensures ReadFrom(Dotted(name)) == FromAbsolute(Dotted(name))
  {
    HeadOfDotted(name);
  }

  /** Two or more dots. */
  lemma ClimbingImports(
    rules: seq<Rule>, subs: seq<Sub>, roots: seq<string>, package: Name, dots: nat, m: string)
    requires WellFormed(subs, roots) && IsAbsImportMap(rules, subs, roots)
    requires MovedPackage(subs, package) && dots >= 2 && GoodName(m)
    ensures
      var stmt := FromRelative(dots, m);
      Preserved(rules, subs, package, stmt, RewriteLine(rules, Dotted(package), stmt)) <==>
      Survives(subs, package, stmt)
  {
    ResolveAgrees(package, dots, m);
    match Resolve(package, dots, Parts(m))
    case Some(t) =>
      RewriteIsMoveName(rules, subs, roots, t);
      NewNamesAreIdentifiers(subs, roots, t);
      ReadOfDotted(NewName(subs, t));
      PartsOfDotted(NewName(subs, t));
      PartsOfDotted(t);
    case None =>
      BeyondTopLevel(rules, subs, roots, package, dots, m);
  }

  /** Imports that Python rejects before the migration. */
  lemma BeyondTopLevel(
    rules: seq<Rule>, subs: seq<Sub>, roots: seq<string>, package: Name, dots: nat, m: string)
    requires WellFormed(subs, roots) && IsAbsImportMap(rules, subs, roots)
    requires MovedPackage(subs, package) && dots >= 2 && GoodName(m)
    requires Resolve(package, dots, Parts(m)) == None
    ensures
      var stmt := FromRelative(dots, m);
      Preserved(rules, subs, package, stmt, RewriteLine(rules, Dotted(package), stmt)) <==>
      Survives(subs, package, stmt)
  {
    ResolveAgrees(package, dots, m);
    NewNamesAreIdentifiers(subs, roots, package);
    if dots - 1 == |package| && m != "" {
      LeadingDotIsKept(rules, subs, roots, m);
    }
  }

  lemma LeadingDotIsKept(rules: seq<Rule>, subs: seq<Sub>, roots: seq<string>, m: string)
    requires WellFormed(subs, roots) && IsAbsImportMap(rules, subs, roots)
    requires m != "" && GoodName(m)
    ensures ReadFrom(Rewrite(rules, "." + m)) == FromRelative(1, m)
  {
    var s := "." + m;
    forall r | r in rules ensures !Matches(r, s) {
      MapElements(rules, subs, roots, r);
      RulesLeadFromAppToBackend(subs, roots, r);
      DottedIsNoMatch(r, s);
    }
    RewriteNone(rules, s);
    GoodNamesAreDotted(m);
    HeadOfDotted(Parts(m));
    ReadOneDot(m);
  }

  lemma DottedIsNoMatch(r: Rule, s: string)
    requires r.from != "" && r.from[0] == 'a' && s != "" && s[0] == '.'
    ensures !Matches(r, s)
  {
    assert (r.from + ".")[0] == 'a';
  }

  lemma ReadOneDot(m: string)
    requires m != "" && IsWord(m[0])
    ensures ReadFrom("." + m) == FromRelative(1, m)
  {
    assert ("." + m)[0] == '.' && ("." + m)[1..] == m;
    assert LeadingDots(m) == 0;
  }

  /** A single dot: the line is left alone. */
  lemma SiblingImports(
    rules: seq<Rule>, subs: seq<Sub>, roots: seq<string>, package: Name, m: string)
    requires WellFormed(subs, roots) && IsAbsImportMap(rules, subs, roots)
    requires MovedPackage(subs, package) && GoodName(m)
    ensures
      var stmt := FromRelative(1, m);
      Preserved(rules, subs, package, stmt, RewriteLine(rules, Dotted(package), stmt)) <==>
      Survives(subs, package, stmt)
  {
    GoodNamesAreDotted(m);
    var mc := Parts(m);
    var after := MoveName(subs, package);
    assert package[..|package| - 0] == package;
    NewNamesAreIdentifiers(subs, roots, package);
    assert after[..|after| - 0] == after;
    NewNamesAreIdentifiers(subs, roots, package + mc);
    SiblingMoves(subs, roots, package, mc);
  }

  lemma NamesBelowSubpackagesMoveAlong(subs: seq<Sub>, package: Name, mc: Name)
    requires |package| > 1 && package[0] == "app"
    ensures MoveName(subs, package + mc) == MoveName(subs, package) + mc
  {
    assert (package + mc)[2..] == package[2..] + mc;
    MoveNameBelowApp(subs, package);
    MoveNameBelowApp(subs, package + mc);
  }

  lemma NamesBelowApp(subs: seq<Sub>, roots: seq<string>, mc: Name)
    requires WellFormed(subs, roots) && mc != []
    ensures MoveName(subs, ["app"] + mc) == ["backend"] + mc <==> Target(subs, mc[0]) == [mc[0]]
  {
    assert (["app"] + mc)[2..] == mc[1..];
    MoveNameBelowApp(subs, ["app"] + mc);
    TargetIsNotEmpty(subs, roots, mc[0]);
    SameHead(Target(subs, mc[0]), mc);
  }

  /** When moving a package moves a name below it along with it. */
  lemma SiblingMoves(subs: seq<Sub>, roots: seq<string>, package: Name, mc: Name)
    requires WellFormed(subs, roots) && MovedPackage(subs, package)
    ensures MoveName(subs, package) + mc == MoveName(subs, package + mc) <==>
            |package| > 1 || mc == [] || Target(subs, mc[0]) == [mc[0]]
  {
    if |package| > 1 {
      NamesBelowSubpackagesMoveAlong(subs, package, mc);
    } else if mc == [] {
      assert package + mc == package;
      assert MoveName(subs, package) + mc == MoveName(subs, package);
    } else {
      assert package == ["app"];
      NamesBelowApp(subs, roots, mc);
    }
  }

  lemma SameHead(target: Name, mc: Name)
    requires target != [] && mc != []
    ensures ["backend"] + mc == ["backend"] + target + mc[1..] <==> target == [mc[0]]
  {
    if ["backend"] + mc == ["backend"] + target + mc[1..] {
      assert |target| == 1;
      assert (["backend"] + mc)[1] == (["backend"] + target + mc[1..])[1];
    }
    assert mc == [mc[0]] + mc[1..];
  }

  /** `from app...` and `from tools...`, and everything else spelled absolutely. */
  lemma AbsoluteRewrite(
    rules: seq<Rule>, subs: seq<Sub>, roots: seq<string>, package: string, name: Name)
    requires WellFormed(subs, roots) && IsAbsImportMap(rules, subs, roots)
    requires name != [] && Identifiers(name)
    ensures RewriteLine(rules, package, FromAbsolute(Dotted(name))) == FromAbsolute(Dotted(NewName(subs, name)))
  {
    UnderIsFirstComponent("app", name);
    UnderIsFirstComponent("tools", name);
    if name[0] == "app" {
      NewNamesAreIdentifiers(subs, roots, name);
      RewriteIsMoveName(rules, subs, roots, name);
    } else if name[0] == "tools" {
      RewriteToolsIsMoveTool(name);
    }
  }

  /** `from a.b import c` names the moved module, whichever file it stands in. */
  lemma AbsoluteImports(
    rules: seq<Rule>, subs: seq<Sub>, roots: seq<string>, package: string, after: Name, m: string)
    requires WellFormed(subs, roots) && IsAbsImportMap(rules, subs, roots)
    requires m != "" && GoodName(m)
    ensures Meaning(after, RewriteLine(rules, package, FromAbsolute(m))) == Some(NewName(subs, Parts(m)))
  {
    GoodNamesAreDotted(m);
    AbsoluteRewrite(rules, subs, roots, package, Parts(m));
    NewNamesAreIdentifiers(subs, roots, Parts(m));
    PartsOfDotted(NewName(subs, Parts(m)));
  }

  lemma UnderIsFirstComponent(top: string, name: Name)
    requires Identifier(top) && name != [] && Identifiers(name)
    ensures Under(top, Dotted(name)) <==> name[0] == top
  {
    MatchIsComponentPrefix(Rule(top, ""), [top], name);
    assert [top] <= name <==> name[0] == top;
  }

  // ---- bare imports ----

  lemma {:induction false} WordRunOf(s: string, tail: string)
    requires forall i :: 0 <= i < |s| ==> IsWord(s[i])
    requires tail == "" || !IsWord(tail[0])
    ensures WordRun(s + tail) == |s|
  {
    if s == "" {
      assert s + tail == tail;
    } else {
      assert (s + tail)[1..] == s[1..] + tail;
      WordRunOf(s[1..], tail);
    }
  }

  lemma DottedRunStep(word: string, tail: string)
    requires Identifier(word) && (tail == "" || !IsWord(tail[0]))
    ensures WordRun(word + tail) == |word| && (word + tail)[|word|..] == tail
    ensures DottedRun("." + word + tail) == 1 + |word| + DottedRun(tail)
  {
    var s := "." + word + tail;
    WordRunOf(word, tail);
    assert s[1..] == word + tail;
    assert s[1 + |word|..] == tail;
  }

  function DottedTail(name: Name): string {
    if |name| <= 1 then "" else "." + Dotted(name[1..])
  }

  lemma DottedIsHeadAndTail(name: Name, tail: string)
    requires name != []
    ensures Dotted(name) + tail == name[0] + (DottedTail(name) + tail)
  {
    assert "." == ['.'];
  }

  lemma TailBehindWord(name: Name, tail: string)
    requires |name| > 1 && Boundary(tail)
    ensures
      var rest := DottedTail(name[1..]) + tail;
      DottedTail(name) + tail == "." + name[1] + rest && (rest == "" || !IsWord(rest[0]))
  {
    var rest := DottedTail(name[1..]) + tail;
    DottedIsHeadAndTail(name[1..], tail);
    assert DottedTail(name) + tail == "." + (Dotted(name[1..]) + tail);
    assert "." + (name[1] + rest) == "." + name[1] + rest;
  }

  lemma {:induction false} RunOfDottedTail(name: Name, tail: string)
    requires name != [] && Identifiers(name) && Boundary(tail)
    ensures DottedRun(DottedTail(name) + tail) == |DottedTail(name)|
  {
    if |name| > 1 {
      var rest := DottedTail(name[1..]) + tail;
      assert name[1] in name;
      TailBehindWord(name, tail);
      DottedRunStep(name[1], rest);
      RunOfDottedTail(name[1..], tail);
    } else {
      assert DottedTail(name) + tail == tail;
    }
  }

  /** The expression reads a whole dotted name, up to its boundary. */
  lemma RunsOf(name: Name, tail: string)
    requires name != [] && Identifiers(name) && Boundary(tail)
    ensures WordRun(Dotted(name) + tail) == |name[0]|
    ensures (Dotted(name) + tail)[|name[0]|..] == DottedTail(name) + tail
    ensures |name[0]| + DottedRun(DottedTail(name) + tail) == |Dotted(name)|
  {
    assert name[0] in name;
    DottedIsHeadAndTail(name, tail);
    DottedIsHeadAndTail(name, "");
    assert DottedTail(name) + tail == "" || !IsWord((DottedTail(name) + tail)[0]);
    WordRunOf(name[0], DottedTail(name) + tail);
    RunOfDottedTail(name, tail);
  }

  lemma MeaningOfBare(package: Name, name: Name, tail: string)
    requires name != [] && Identifiers(name) && Boundary(tail)
    ensures Meaning(package, ImportBare(Dotted(name) + tail)) == Some(name)
    ensures (Dotted(name) + tail)[..WordRun(Dotted(name) + tail)] == name[0]
  {
    RunsOf(name, tail);
    HeadOfDotted(name);
    PartsOfDotted(name);
    assert (Dotted(name) + tail)[..|Dotted(name)|] == Dotted(name);
  }

  /** A bare import whose first word is the package itself. */
  lemma BareImportOfPackage(rules: seq<Rule>, top: string, name: Name, moved: Name, tail: string)
    requires Identifier(top) && name != [] && Identifiers(name) && name[0] == top && Boundary(tail)
    requires Rewrite(rules, Dotted(name)) == Dotted(moved)
    ensures top <= Dotted(name) + tail
    ensures RewriteHead(rules, top, Dotted(name) + tail) == Dotted(moved) + tail
  {
    var text := Dotted(name) + tail;
    RunsOf(name, tail);
    HeadOfDotted(name);
    assert text[..|Dotted(name)|] == Dotted(name);
    assert text[|Dotted(name)|..] == tail;
  }

  lemma NoRunInsideWord(s: string)
    requires s != "" && IsWord(s[0])
    ensures DottedRun(s) == 0
  {
  }

  /** The name with the front `top` of its first word replaced. */
  function Longer(top: string, to: string, name: Name): Name
    requires name != [] && top <= name[0]
  {
    [to + name[0][|top|..]] + name[1..]
  }

  lemma RewriteInsideWord(rules: seq<Rule>, top: string, to: string, text: string)
    requires top <= text && |top| < |text| && IsWord(text[|top|]) && Rewrite(rules, top) == to
    ensures RewriteHead(rules, top, text) == to + text[|top|..]
  {
    NoRunInsideWord(text[|top|..]);
  }

  lemma LongerText(top: string, to: string, name: Name, tail: string)
    requires name != [] && top <= name[0]
    ensures top <= Dotted(name) + tail
    ensures Dotted(Longer(top, to, name)) + tail == to + (Dotted(name) + tail)[|top|..]
  {
    var rest := DottedTail(name) + tail;
    var longer := Longer(top, to, name);
    DottedIsHeadAndTail(name, tail);
    DottedIsHeadAndTail(longer, tail);
    assert longer[1..] == name[1..];
    assert (name[0] + rest)[|top|..] == name[0][|top|..] + rest;
    assert (to + name[0][|top|..]) + rest == to + (name[0][|top|..] + rest);
  }

  /** The expression has no word boundary: it also rewrites the front of a
      longer first word. */
  lemma BareImportOfLongerName(rules: seq<Rule>, top: string, to: string, name: Name, tail: string)
    requires name != [] && Identifiers(name)
    requires top < name[0] && Rewrite(rules, top) == to
    ensures top <= Dotted(name) + tail
    ensures RewriteHead(rules, top, Dotted(name) + tail) ==
            Dotted(Longer(top, to, name)) + tail
  {
    var text := Dotted(name) + tail;
    HeadOfDotted(name);
    LongerText(top, to, name, tail);
    assert text[|top|] == name[0][|top|];
    RewriteInsideWord(rules, top, to, text);
  }

  lemma LongerWordIsIdentifier(to: string, word: string, n: nat)
    requires Identifier(to) && Identifier(word) && n <= |word|
    ensures Identifier(to + word[n..])
  {
  }

  lemma OneWord(word: string)
    ensures Dotted([word]) == word
  {
  }

  lemma RewriteOfApp(rules: seq<Rule>, subs: seq<Sub>, roots: seq<string>)
    requires WellFormed(subs, roots) && IsAbsImportMap(rules, subs, roots)
    ensures Rewrite(rules, "app") == "backend"
  {
    TopsAreIdentifiers();
    OneWord("app");
    OneWord("backend");
    RewriteIsMoveName(rules, subs, roots, ["app"]);
  }

  lemma RewriteOfTools()
    ensures Rewrite(TOOLS_IMPORT_MAP, "tools") == "payload"
  {
    TopsAreIdentifiers();
    OneWord("tools");
    OneWord("payload");
    RewriteToolsIsMoveTool(["tools"]);
    assert MoveTool(["tools"]) == ["payload"];
  }

  /** The first word decides which branch rewrites a bare import. */
  lemma FirstWordDecides(name: Name, tail: string, top: string)
    requires name != [] && Identifiers(name) && Boundary(tail) && Identifier(top)
    ensures top <= Dotted(name) + tail <==> top <= name[0]
  {
    HeadOfDotted(name);
    var text := Dotted(name) + tail;
    DottedIsHeadAndTail(name, tail);
    var rest := DottedTail(name) + tail;
    assert rest == "" || !IsWord(rest[0]);
    assert rest != "" ==> text[|name[0]|] == rest[0];
    assert |name[0]| < |top| ==> IsWord(top[|name[0]|]);
    assert |top| <= |name[0]| ==> text[..|top|] == name[0][..|top|];
  }

  /** One of the two bare-import rewrites, on names that start with its package. */
  lemma BareImportCases(
    rules: seq<Rule>, top: string, to: string, name: Name, moved: Name, tail: string)
    requires Identifier(top) && name != [] && Identifiers(name) && Boundary(tail)
    requires top <= name[0] && Rewrite(rules, top) == to
    requires name[0] == top ==> Rewrite(rules, Dotted(name)) == Dotted(moved)
    ensures top <= Dotted(name) + tail
    ensures RewriteHead(rules, top, Dotted(name) + tail) ==
            if name[0] == top then Dotted(moved) + tail else Dotted(Longer(top, to, name)) + tail
  {
    if name[0] == top {
      BareImportOfPackage(rules, top, name, moved, tail);
    } else {
      BareImportOfLongerName(rules, top, to, name, tail);
    }
  }

  lemma LongerNameIsOther(top: string, to: string, name: Name, package: Name, tail: string)
    requires Identifier(top) && Identifier(to) && name != [] && Identifiers(name) && Boundary(tail)
    requires top <= name[0] && to[0] != top[0]
    ensures Longer(top, to, name) != name
    ensures Meaning(package, ImportBare(Dotted(Longer(top, to, name)) + tail)) ==
            Some(Longer(top, to, name))
  {
    var longer := Longer(top, to, name);
    assert name[0] in name;
    LongerWordIsIdentifier(to, name[0], |top|);
    MeaningOfBare(package, longer, tail);
    assert longer[0][0] == to[0] && name[0][0] == top[0];
  }

  lemma TopsAreIdentifiers()
    ensures Identifier("app") && Identifier("tools") && Identifier("backend") && Identifier("payload")
  {
  }

  lemma BareAppImports(
    rules: seq<Rule>, subs: seq<Sub>, roots: seq<string>, package: Name, name: Name, tail: string)
    requires WellFormed(subs, roots) && IsAbsImportMap(rules, subs, roots)
    requires name != [] && Identifiers(name) && Boundary(tail) && "app" <= name[0]
    ensures
      var after := Meaning(package, ImportBare(RewriteBare(rules, Dotted(name) + tail)));
      after == Some(NewName(subs, name)) <==> name[0] == "app"
  {
    TopsAreIdentifiers();
    RewriteOfApp(rules, subs, roots);
    RewriteIsMoveName(rules, subs, roots, name);
    NewNamesAreIdentifiers(subs, roots, name);
    BareImportCases(rules, "app", "backend", name, MoveName(subs, name), tail);
    LongerNameIsOther("app", "backend", name, package, tail);
    MeaningOfBare(package, MoveName(subs, name), tail);
    assert name[0] != "app" ==> NewName(subs, name) == name by {
      assert name[0][0] == 'a' && "tools"[0] == 't';
    }
  }

  lemma BareToolImports(
    rules: seq<Rule>, subs: seq<Sub>, roots: seq<string>, package: Name, name: Name, tail: string)
    requires WellFormed(subs, roots) && IsAbsImportMap(rules, subs, roots)
    requires name != [] && Identifiers(name) && Boundary(tail)
    requires "tools" <= name[0] && !("app" <= name[0])
    ensures
      var after := Meaning(package, ImportBare(RewriteBare(rules, Dotted(name) + tail)));
      after == Some(NewName(subs, name)) <==> name[0] == "tools"
  {
    TopsAreIdentifiers();
    FirstWordDecides(name, tail, "app");
    RewriteOfTools();
    RewriteToolsIsMoveTool(name);
    NewNamesAreIdentifiers(subs, roots, name);
    BareImportCases(TOOLS_IMPORT_MAP, "tools", "payload", name, MoveTool(name), tail);
    LongerNameIsOther("tools", "payload", name, package, tail);
    MeaningOfBare(package, NewName(subs, name), tail);
  }

  lemma OtherBareImports(rules: seq<Rule>, subs: seq<Sub>, package: Name, name: Name, tail: string)
    requires name != [] && Identifiers(name) && Boundary(tail)
    requires !("app" <= name[0]) && !("tools" <= name[0])
    ensures Meaning(package, ImportBare(RewriteBare(rules, Dotted(name) + tail))) == Some(name)
    ensures NewName(subs, name) == name
  {
    TopsAreIdentifiers();
    FirstWordDecides(name, tail, "app");
    FirstWordDecides(name, tail, "tools");
    MeaningOfBare(package, name, tail);
  }

  lemma BareImports(
    rules: seq<Rule>, subs: seq<Sub>, roots: seq<string>, package: Name, name: Name, tail: string)
    requires WellFormed(subs, roots) && IsAbsImportMap(rules, subs, roots)
    requires name != [] && Identifiers(name) && Boundary(tail)
    ensures
      var stmt := ImportBare(Dotted(name) + tail);
      Preserved(rules, subs, package, stmt, RewriteLine(rules, Dotted(package), stmt)) <==>
      Survives(subs, package, stmt)
  {
    MeaningOfBare(package, name, tail);
    var after := MoveName(subs, package);
    if "app" <= name[0] {
      BareAppImports(rules, subs, roots, after, name, tail);
      assert !("tools" < name[0]) by {
        assert name[0][0] == "app"[0];
      }
    } else if "tools" <= name[0] {
      BareToolImports(rules, subs, roots, after, name, tail);
    } else {
      OtherBareImports(rules, subs, after, name, tail);
    }
  }

  /** Every statement, rewritten for its own old package. */
  lemma ImportsOfPackage(
    rules: seq<Rule>, subs: seq<Sub>, roots: seq<string>, package: Name, stmt: Stmt)
    requires WellFormed(subs, roots) && IsAbsImportMap(rules, subs, roots)
    requires MovedPackage(subs, package) && WellFormedStmt(stmt)
    ensures Preserved(rules, subs, package, stmt, RewriteLine(rules, Dotted(package), stmt)) <==>
            Survives(subs, package, stmt)
  {
    match stmt
    case FromRelative(dots, m) =>
      if dots == 1 {
        SiblingImports(rules, subs, roots, package, m);
      } else {
        ClimbingImports(rules, subs, roots, package, dots, m);
      }
    case FromAbsolute(m) =>
      AbsoluteImports(rules, subs, roots, Dotted(package), MoveName(subs, package), m);
    case ImportBare(text) =>
      var name, tail :|
        name != [] && Identifiers(name) && Boundary(tail) && text == Dotted(name) + tail;
      BareImports(rules, subs, roots, package, name, tail);
  }

  /** The migration as a whole: a statement of a moved file, rewritten with the
      package the script recovers from the file's new directory, still names the
      same module (at its new place) exactly when it is one that survives. */
  lemma MigrationPreservesImports(
    rules: seq<Rule>, reverse: map<string, string>, subs: seq<Sub>, roots: seq<string>,
    package: Name, stmt: Stmt)
    requires WellFormed(subs, roots)
    requires IsAbsImportMap(rules, subs, roots) && IsReverseMap(reverse, subs)
    requires MovedPackage(subs, package) && WellFormedStmt(stmt)
    ensures
      var recovered := OldPackage(reverse, MoveName(subs, package)[1..]);
      Preserved(rules, subs, package, stmt, RewriteLine(rules, recovered, stmt)) <==>
      Survives(subs, package, stmt)
  {
    OldPackageInvertsMove(reverse, subs, roots, package);
    ImportsOfPackage(rules, subs, roots, package, stmt);
  }

  /** For moved targets of climbing imports there is no exception: the rewritten
      line names the file the plan put there. */
  lemma ClimbingImportsReachTheMovedFile(
    rules: seq<Rule>, reverse: map<string, string>, subs: seq<Sub>, roots: seq<string>,
    present: set<Path>, moves: seq<Move>, package: Name, dots: nat, m: string, kind: Kind)
    requires WellFormed(subs, roots) && IsPlan(moves, subs, roots, present)
    requires IsAbsImportMap(rules, subs, roots) && IsReverseMap(reverse, subs)
    requires MovedPackage(subs, package) && dots >= 2 && GoodName(m)
    requires Resolve(package, dots, Parts(m)).Some?
    requires Moved(subs, roots, kind, Resolve(package, dots, Parts(m)).value)
    requires SourceFile(kind, Resolve(package, dots, Parts(m)).value)[..2] in present
    ensures
      var recovered := OldPackage(reverse, MoveName(subs, package)[1..]);
      var old_ := Resolve(package, dots, Parts(m)).value;
      var new_ := Meaning(MoveName(subs, package), RewriteLine(rules, recovered, FromRelative(dots, m)));
      new_.Some? && new_.value != [] &&
      SourceFile(kind, new_.value) == Relocate(moves, SourceFile(kind, old_))
  {
    var t := Resolve(package, dots, Parts(m)).value;
    ResolveAgrees(package, dots, m);
    NewNamesAreIdentifiers(subs, roots, t);
    MigrationPreservesImports(rules, reverse, subs, roots, package, FromRelative(dots, m));
    MoveNameIsWhereTheFileLands(subs, roots, present, moves, kind, t);
  }
}
