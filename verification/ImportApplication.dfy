/** The second rewriter, for single-dot imports of application.py:
    scripts/refactor_project.py, lines 245-284; and the statements the two
    rewriters get wrong. */
module ImportApplication {
  import opened Wrappers
  import opened Text
  import opened ImportTables
  import opened ImportRewrite
  import opened ImportStatements

  const APP_REL_MAP: seq<Rule> := [
    Rule("ui.", "api."),
    Rule("sandbox_vmware", "engines.sandbox_vmware"),
    Rule("filefunction.", "engines.filefunction."),
    Rule("ai.", "engines.ai."),
    Rule("scanning.", "engines.scanning."),
    Rule("sandbox.", "engines.sandbox."),
    Rule("scancenter.", "engines.scancenter."),
    Rule("intel.", "engines.intel."),
    Rule("gpu.", "engines.gpu.")
  ]

  function RelRewrite(rel: seq<Rule>, m: string): string {
    if rel == [] then m
    else if m == RStrip(rel[0].from, {'.'}) then RStrip(rel[0].to, {'.'})
    else if rel[0].from <= m then rel[0].to + m[|rel[0].from|..]
    else RelRewrite(rel[1..], m)
  }

  /** `rewrite_application_py_relative` */
  function RewriteApplication(rel: seq<Rule>, stmt: Stmt): Stmt {
    match stmt
    case FromRelative(dots, m) =>
      if dots == 1 && m != "" then FromRelative(1, RelRewrite(rel, m)) else stmt
    case _ => stmt
  }

  predicate Closed(r: Rule, s: Sub) {
    r.from == s.oldName + "." && r.to == Dotted(s.newParts) + "."
  }

  /** An entry without its trailing dot. */
  predicate Loose(r: Rule, s: Sub) {
    r.from == s.oldName && r.to == Dotted(s.newParts)
  }

  predicate Relocates(s: Sub) { s.newParts != [s.oldName] }

  /** The table lists exactly the sub-packages that change their place below
      backend, and no sub-package extends the name of a loose entry. */
  ghost predicate RelTable(rel: seq<Rule>, subs: seq<Sub>) {
    && (forall r :: r in rel ==> exists s :: s in subs && Relocates(s) && (Closed(r, s) || Loose(r, s)))
    && (forall s :: s in subs && Relocates(s) ==> exists r :: r in rel && (Closed(r, s) || Loose(r, s)))
    && (forall r, s :: r in rel && s in subs && Identifier(r.from) ==> !(r.from < s.oldName))
  }

  /** The first word merely extends an entry that has no trailing dot. */
  ghost predicate Overrun(rel: seq<Rule>, word: string) {
    exists r :: r in rel && Identifier(r.from) && r.from < word
  }

  predicate Hits(r: Rule, m: string) {
    m == RStrip(r.from, {'.'}) || r.from <= m
  }

  function Applied(r: Rule, m: string): string {
    if m == RStrip(r.from, {'.'}) then RStrip(r.to, {'.'})
    else if r.from <= m then r.to + m[|r.from|..] else m
  }

  lemma {:induction false} RelRewriteNone(rel: seq<Rule>, m: string)
    requires forall r :: r in rel ==> !Hits(r, m)
    ensures RelRewrite(rel, m) == m
  {
    if rel != [] {
      assert rel[0] in rel;
      RelRewriteNone(rel[1..], m);
    }
  }

  lemma {:induction false} RelRewriteSome(rel: seq<Rule>, m: string) returns (r: Rule)
    requires exists r :: r in rel && Hits(r, m)
    ensures r in rel && Hits(r, m) && RelRewrite(rel, m) == Applied(r, m)
  {
    if Hits(rel[0], m) {
      r := rel[0];
    } else {
      r := RelRewriteSome(rel[1..], m);
    }
  }

  lemma StripsDot(s: string)
    requires s == "" || s[|s| - 1] != '.'
    ensures RStrip(s, {'.'}) == s
    ensures RStrip(s + ".", {'.'}) == s
  {
    assert (s + ".")[..|s|] == s;
  }

  lemma DottedEndsInWord(name: Name)
    requires name != [] && Identifiers(name)
    ensures Dotted(name) != "" && Dotted(name)[|Dotted(name)| - 1] != '.'
    decreases |name|
  {
    assert name[|name| - 1] in name;
    if |name| > 1 {
      DottedEndsInWord(name[1..]);
    } else {
      assert Dotted(name) == name[0];
    }
  }

  /** What an entry does, whichever of the two shapes it has. */
  lemma EntryShape(subs: seq<Sub>, roots: seq<string>, r: Rule, s: Sub)
    requires WellFormed(subs, roots) && s in subs && (Closed(r, s) || Loose(r, s))
    ensures RStrip(r.from, {'.'}) == s.oldName
    ensures RStrip(r.to, {'.'}) == Dotted(s.newParts)
    ensures Closed(r, s) ==> !Identifier(r.from)
    ensures Loose(r, s) ==> Identifier(r.from)
  {
    WordsEndInNoDot(s.oldName);
    StripsDot(s.oldName);
    DottedEndsInWord(s.newParts);
    StripsDot(Dotted(s.newParts));
    ClosedIsNoIdentifier(r, s);
  }

  lemma WordsEndInNoDot(word: string)
    requires Identifier(word)
    ensures word[|word| - 1] != '.'
  {
    assert IsWord(word[|word| - 1]);
  }

  lemma ClosedIsNoIdentifier(r: Rule, s: Sub)
    ensures Closed(r, s) ==> !Identifier(r.from)
  {
    if Closed(r, s) {
      assert r.from[|s.oldName|] == '.';
    }
  }

  lemma ClosedEntryHits(r: Rule, s: Sub, mc: Name)
    requires Identifier(s.oldName) && Closed(r, s) && mc != [] && Identifiers(mc)
    ensures r.from <= Dotted(mc) <==> |mc| > 1 && mc[0] == s.oldName
    ensures r.from <= Dotted(mc) ==> r.to + Dotted(mc)[|r.from|..] == Dotted(s.newParts) + "." + Dotted(mc[1..])
  {
    NamesAreAtoms(mc);
    NamesAreAtoms([s.oldName]);
    PrefixTestIsComponentTest('.', [s.oldName], mc);
    assert [s.oldName] < mc <==> |mc| > 1 && mc[0] == s.oldName;
    assert r.from == Dotted([s.oldName]) + ['.'];
  }

  lemma SingleWord(mc: Name)
    requires mc != [] && Identifiers(mc)
    ensures Dotted(mc) == mc[0] <==> |mc| == 1
    ensures |mc| > 1 ==> Dotted(mc)[|mc[0]|..] == "." + Dotted(mc[1..])
  {
    DottedIsHeadAndTail(mc, "");
  }

  lemma LooseHits(r: Rule, s: Sub, mc: Name)
    requires Identifier(s.oldName) && Loose(r, s) && mc != [] && Identifiers(mc)
    ensures r.from <= Dotted(mc) <==> s.oldName <= mc[0]
  {
    FirstWordDecides(mc, "", s.oldName);
    assert Dotted(mc) + "" == Dotted(mc);
  }

  lemma LooseEntry(subs: seq<Sub>, roots: seq<string>, r: Rule, s: Sub, mc: Name)
    requires WellFormed(subs, roots) && s in subs && Loose(r, s)
    requires mc != [] && Identifiers(mc)
    ensures Hits(r, Dotted(mc)) <==> s.oldName <= mc[0]
    ensures mc[0] == s.oldName ==> Applied(r, Dotted(mc)) == Dotted(s.newParts + mc[1..])
    ensures s.oldName < mc[0] ==>
              Applied(r, Dotted(mc)) == Dotted(s.newParts) + Dotted(mc)[|s.oldName|..]
  {
    EntryShape(subs, roots, r, s);
    LooseHits(r, s, mc);
    HeadOfDotted(mc);
    SingleWord(mc);
    DottedCons(s.newParts, mc[1..]);
  }

  lemma ClosedEntry(subs: seq<Sub>, roots: seq<string>, r: Rule, s: Sub, mc: Name)
    requires WellFormed(subs, roots) && s in subs && Closed(r, s)
    requires mc != [] && Identifiers(mc)
    ensures Hits(r, Dotted(mc)) <==> mc[0] == s.oldName
    ensures mc[0] == s.oldName ==> Applied(r, Dotted(mc)) == Dotted(s.newParts + mc[1..])
  {
    EntryShape(subs, roots, r, s);
    ClosedEntryHits(r, s, mc);
    SingleWord(mc);
    WholeNameIsWord(mc, s.oldName);
    DottedCons(s.newParts, mc[1..]);
  }

  lemma WholeNameIsWord(mc: Name, word: string)
    requires mc != [] && Identifiers(mc) && Identifier(word)
    ensures Dotted(mc) == word <==> mc == [word]
  {
    NamesAreAtoms(mc);
    NamesAreAtoms([word]);
    PrefixTestIsComponentTest('.', [word], mc);
  }

  /** The absolute rewriter's answer for the same module, below backend. */
  function Expected(subs: seq<Sub>, mc: Name): Name
    requires mc != []
  {
    Target(subs, mc[0]) + mc[1..]
  }

  lemma NamesUnderApp(mc: Name)
    requires mc != [] && Identifiers(mc)
    ensures Identifiers(["app"] + mc) && Dotted(["app"] + mc) == "app." + Dotted(mc)
  {
    TopsAreIdentifiers();
    DottedCons(["app"], mc);
  }

  lemma NamesUnderBackend(mc: Name)
    requires mc != []
    ensures Dotted(["backend"] + mc) == "backend." + Dotted(mc)
  {
    DottedCons(["backend"], mc);
  }

  lemma MovedNameIsExpected(subs: seq<Sub>, mc: Name)
    requires mc != []
    ensures MoveName(subs, ["app"] + mc) == ["backend"] + Expected(subs, mc)
  {
    MoveNameBelowApp(subs, ["app"] + mc);
    assert (["app"] + mc)[2..] == mc[1..];
  }

  lemma AbsoluteAnswer(rules: seq<Rule>, subs: seq<Sub>, roots: seq<string>, mc: Name)
    requires WellFormed(subs, roots) && IsAbsImportMap(rules, subs, roots)
    requires mc != [] && Identifiers(mc)
    ensures Rewrite(rules, "app." + Dotted(mc)) == "backend." + Dotted(Expected(subs, mc))
  {
    NamesUnderApp(mc);
    RewriteIsMoveName(rules, subs, roots, ["app"] + mc);
    MovedNameIsExpected(subs, mc);
    TargetIsNotEmpty(subs, roots, mc[0]);
    NamesUnderBackend(Expected(subs, mc));
  }

  lemma SameAfterPrefix(p: string, a: string, b: string)
    ensures p + a == p + b <==> a == b
  {
    assert (p + a)[|p|..] == a && (p + b)[|p|..] == b;
  }

  /** The two rewriters agree on a single-dot import of application.py if and
      only if its first word does not run past an entry without a dot. */
  lemma RewritersAgree(
    rel: seq<Rule>, rules: seq<Rule>, subs: seq<Sub>, roots: seq<string>, mc: Name)
    requires WellFormed(subs, roots) && IsAbsImportMap(rules, subs, roots) && RelTable(rel, subs)
    requires mc != [] && Identifiers(mc)
    ensures
      var absolute := Rewrite(rules, "app." + Dotted(mc));
      var relative := RelRewrite(rel, Dotted(mc));
      "backend." + relative == absolute <==> !Overrun(rel, mc[0])
  {
    AbsoluteAnswer(rules, subs, roots, mc);
    RelativeRewriter(rel, subs, roots, mc);
    SameAfterPrefix("backend.", RelRewrite(rel, Dotted(mc)), Dotted(Expected(subs, mc)));
  }

  lemma RelativeRewriter(rel: seq<Rule>, subs: seq<Sub>, roots: seq<string>, mc: Name)
    requires WellFormed(subs, roots) && RelTable(rel, subs)
    requires mc != [] && Identifiers(mc)
    ensures RelRewrite(rel, Dotted(mc)) == Dotted(Expected(subs, mc)) <==> !Overrun(rel, mc[0])
  {
    if Overrun(rel, mc[0]) {
      OverrunRewrite(rel, subs, roots, mc);
    } else if exists r :: r in rel && Hits(r, Dotted(mc)) {
      ListedMoves(rel, subs, roots, mc);
    } else {
      RelRewriteNone(rel, Dotted(mc));
      UnlistedStays(rel, subs, roots, mc);
    }
  }

  lemma ListedMoves(rel: seq<Rule>, subs: seq<Sub>, roots: seq<string>, mc: Name)
    requires WellFormed(subs, roots) && RelTable(rel, subs)
    requires mc != [] && Identifiers(mc) && !Overrun(rel, mc[0])
    requires exists r :: r in rel && Hits(r, Dotted(mc))
    ensures RelRewrite(rel, Dotted(mc)) == Dotted(Expected(subs, mc))
  {
    var r := RelRewriteSome(rel, Dotted(mc));
    var s :| s in subs && Relocates(s) && (Closed(r, s) || Loose(r, s));
    EntryMoves(subs, roots, r, s, mc);
  }

  lemma EntryMoves(subs: seq<Sub>, roots: seq<string>, r: Rule, s: Sub, mc: Name)
    requires WellFormed(subs, roots) && s in subs && (Closed(r, s) || Loose(r, s))
    requires mc != [] && Identifiers(mc) && Hits(r, Dotted(mc)) && !(Identifier(r.from) && r.from < mc[0])
    ensures Applied(r, Dotted(mc)) == Dotted(Expected(subs, mc))
  {
    EntryShape(subs, roots, r, s);
    if Closed(r, s) {
      ClosedEntry(subs, roots, r, s, mc);
    } else {
      LooseEntry(subs, roots, r, s, mc);
    }
    FindMapped(subs, roots, s);
  }

  lemma UnlistedStays(rel: seq<Rule>, subs: seq<Sub>, roots: seq<string>, mc: Name)
    requires WellFormed(subs, roots) && RelTable(rel, subs)
    requires mc != [] && Identifiers(mc)
    requires forall r :: r in rel ==> !Hits(r, Dotted(mc))
    ensures Expected(subs, mc) == mc
  {
    if Find(subs, mc[0]) != [] {
      FindIsMapped(subs, roots, mc[0]);
      var s := Find(subs, mc[0])[0];
      if Relocates(s) {
        var r :| r in rel && (Closed(r, s) || Loose(r, s));
        if Closed(r, s) {
          ClosedEntry(subs, roots, r, s, mc);
        } else {
          LooseEntry(subs, roots, r, s, mc);
        }
      }
    }
  }

  lemma OverrunIsUnmapped(rel: seq<Rule>, subs: seq<Sub>, roots: seq<string>, q: Rule, word: string)
    requires WellFormed(subs, roots) && RelTable(rel, subs)
    requires q in rel && Identifier(q.from) && q.from < word
    ensures Find(subs, word) == []
  {
    if Find(subs, word) != [] {
      FindIsMapped(subs, roots, word);
    }
  }

  lemma EntryChangesOverrun(
    rel: seq<Rule>, subs: seq<Sub>, roots: seq<string>, r: Rule, mc: Name)
    requires WellFormed(subs, roots) && RelTable(rel, subs) && r in rel
    requires mc != [] && Identifiers(mc) && Find(subs, mc[0]) == [] && Hits(r, Dotted(mc))
    ensures Applied(r, Dotted(mc)) != Dotted(mc)
  {
    var s :| s in subs && Relocates(s) && (Closed(r, s) || Loose(r, s));
    if Closed(r, s) {
      ClosedEntry(subs, roots, r, s, mc);
    } else {
      LooseEntry(subs, roots, r, s, mc);
      FrontChanges(s, mc);
    }
  }

  lemma OverrunHits(q: Rule, mc: Name)
    requires mc != [] && q.from <= mc[0]
    ensures Hits(q, Dotted(mc))
  {
    assert mc[0] == Dotted(mc)[..|mc[0]|];
  }

  /** What happens to a name that overruns an entry. */
  lemma OverrunRewrite(rel: seq<Rule>, subs: seq<Sub>, roots: seq<string>, mc: Name)
    requires WellFormed(subs, roots) && RelTable(rel, subs)
    requires mc != [] && Identifiers(mc) && Overrun(rel, mc[0])
    ensures Expected(subs, mc) == mc && RelRewrite(rel, Dotted(mc)) != Dotted(mc)
  {
    var q :| q in rel && Identifier(q.from) && q.from < mc[0];
    OverrunIsUnmapped(rel, subs, roots, q, mc[0]);
    OverrunHits(q, mc);
    var r := RelRewriteSome(rel, Dotted(mc));
    EntryChangesOverrun(rel, subs, roots, r, mc);
  }

  lemma FrontChanges(s: Sub, mc: Name)
    requires Identifier(s.oldName) && s.newParts != [] && Identifiers(s.newParts)
    requires Relocates(s) && mc != [] && Identifiers(mc) && s.oldName < mc[0]
    ensures |s.oldName| <= |Dotted(mc)|
    ensures Dotted(s.newParts) + Dotted(mc)[|s.oldName|..] != Dotted(mc)
  {
    HeadOfDotted(mc);
    var m := Dotted(mc);
    assert m[..|s.oldName|] == s.oldName;
    assert m == s.oldName + m[|s.oldName|..];
    if Dotted(s.newParts) + m[|s.oldName|..] == m {
      assert |Dotted(s.newParts)| == |s.oldName|;
      assert Dotted(s.newParts) == m[..|s.oldName|];
      WholeNameIsWord(s.newParts, s.oldName);
    }
  }

  // ---- application.py as a whole: both passes ----

  /** What survives in application.py. */
  ghost predicate SurvivesInApplication(rel: seq<Rule>, subs: seq<Sub>, stmt: Stmt) {
    if stmt.FromRelative? && stmt.dots == 1 then stmt.m == "" || !Overrun(rel, Parts(stmt.m)[0])
    else Survives(subs, ["app"], stmt)
  }

  lemma PartsAreOnlyOf(s: string, name: Name)
    requires name != [] && Identifiers(name)
    ensures Parts(s) == name <==> s == Dotted(name)
  {
    PartsOfDotted(name);
    JoinOfSplit('.', s);
  }

  lemma SingleDotInApplication(
    rel: seq<Rule>, rules: seq<Rule>, subs: seq<Sub>, roots: seq<string>, m: string)
    requires WellFormed(subs, roots) && RelTable(rel, subs) && GoodName(m) && m != ""
    ensures Preserved(rules, subs, ["app"], FromRelative(1, m), FromRelative(1, RelRewrite(rel, m))) <==>
            !Overrun(rel, Parts(m)[0])
  {
    GoodNamesAreDotted(m);
    var mc := Parts(m);
    RelativeRewriter(rel, subs, roots, mc);
    MovedNameIsExpected(subs, mc);
    TargetIsNotEmpty(subs, roots, mc[0]);
    PartsAreOnlyOf(RelRewrite(rel, m), Expected(subs, mc));
    SingleDotMeaning(subs, mc, RelRewrite(rel, m));
  }

  lemma SingleDotMeaning(subs: seq<Sub>, mc: Name, to: string)
    requires mc != []
    ensures Resolve(["app"], 1, mc) == Some(["app"] + mc)
    ensures Resolve(MoveName(subs, ["app"]), 1, Parts(to)) == Some(["backend"] + Parts(to))
    ensures ["backend"] + Parts(to) == ["backend"] + Expected(subs, mc) <==> Parts(to) == Expected(subs, mc)
  {
    assert ["app"][..1] == ["app"] && ["backend"][..1] == ["backend"];
    assert (["backend"] + Parts(to))[1..] == Parts(to);
    assert (["backend"] + Expected(subs, mc))[1..] == Expected(subs, mc);
  }

  /** A climbing import of application.py is never changed for the better by the
      second pass. */
  lemma ClimbingInApplication(
    rel: seq<Rule>, rules: seq<Rule>, subs: seq<Sub>, roots: seq<string>, dots: nat, m: string)
    requires WellFormed(subs, roots) && IsAbsImportMap(rules, subs, roots)
    requires GoodName(m) && dots >= 2 && MovedPackage(subs, ["app"])
    ensures
      var stmt := FromRelative(dots, m);
      var once := RewriteLine(rules, "app", stmt);
      Preserved(rules, subs, ["app"], stmt, RewriteApplication(rel, once)) <==>
      Preserved(rules, subs, ["app"], stmt, once)
  {
  }

  lemma SecondPass(rel: seq<Rule>, rules: seq<Rule>, stmt: Stmt)
    ensures !stmt.FromRelative? ==>
              RewriteApplication(rel, RewriteLine(rules, "app", stmt)) == RewriteLine(rules, "app", stmt)
    ensures stmt.FromRelative? && stmt.dots == 1 ==>
              RewriteApplication(rel, RewriteLine(rules, "app", stmt)) ==
              if stmt.m == "" then RewriteLine(rules, "app", stmt) else FromRelative(1, RelRewrite(rel, stmt.m))
  {
  }

  /** Where the second pass makes no difference. */
  lemma FirstPassDecides(
    rel: seq<Rule>, rules: seq<Rule>, subs: seq<Sub>, roots: seq<string>, stmt: Stmt)
    requires WellFormed(subs, roots) && IsAbsImportMap(rules, subs, roots)
    requires MovedPackage(subs, ["app"]) && WellFormedStmt(stmt)
    requires !(stmt.FromRelative? && stmt.dots == 1 && stmt.m != "")
    ensures
      var once := RewriteLine(rules, "app", stmt);
      Preserved(rules, subs, ["app"], stmt, RewriteApplication(rel, once)) <==>
      Preserved(rules, subs, ["app"], stmt, once)
  {
    if stmt.FromRelative? && stmt.dots > 1 {
      ClimbingInApplication(rel, rules, subs, roots, stmt.dots, stmt.m);
    } else {
      SecondPass(rel, rules, stmt);
    }
  }

  lemma ImportsOfApp(rules: seq<Rule>, subs: seq<Sub>, roots: seq<string>, stmt: Stmt)
    requires WellFormed(subs, roots) && IsAbsImportMap(rules, subs, roots)
    requires MovedPackage(subs, ["app"]) && WellFormedStmt(stmt)
    ensures Preserved(rules, subs, ["app"], stmt, RewriteLine(rules, "app", stmt)) <==>
            Survives(subs, ["app"], stmt)
  {
    OneWord("app");
    ImportsOfPackage(rules, subs, roots, ["app"], stmt);
  }

  lemma SurvivingInApplication(rel: seq<Rule>, subs: seq<Sub>, stmt: Stmt)
    requires !(stmt.FromRelative? && stmt.dots == 1 && stmt.m != "")
    ensures SurvivesInApplication(rel, subs, stmt) <==> Survives(subs, ["app"], stmt)
  {
  }

  /** Both passes over a statement of application.py keep its module if and only
      if it survives there. */
  lemma ApplicationPreservesImports(
    rel: seq<Rule>, rules: seq<Rule>, subs: seq<Sub>, roots: seq<string>, stmt: Stmt)
    requires WellFormed(subs, roots) && IsAbsImportMap(rules, subs, roots) && RelTable(rel, subs)
    requires MovedPackage(subs, ["app"]) && WellFormedStmt(stmt)
    ensures Preserved(rules, subs, ["app"], stmt, RewriteApplication(rel, RewriteLine(rules, "app", stmt))) <==>
            SurvivesInApplication(rel, subs, stmt)
  {
    if stmt.FromRelative? && stmt.dots == 1 && stmt.m != "" {
      SecondPass(rel, rules, stmt);
      SingleDotInApplication(rel, rules, subs, roots, stmt.m);
    } else {
      FirstPassDecides(rel, rules, subs, roots, stmt);
      ImportsOfApp(rules, subs, roots, stmt);
      SurvivingInApplication(rel, subs, stmt);
    }
  }
}
