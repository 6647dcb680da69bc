/** Rewriting of import statements during the migration, and what keeps its
    meaning: scripts/refactor_project.py, lines 120-284. */
module ImportRewrite {
  import opened Text
  import opened ImportTables

  // ---- name rewriting: `_old_abs_to_new_abs`, `_tools_to_payload` ----

  const TOOLS_IMPORT_MAP: seq<Rule> := [
    Rule("tools.url_detonator", "payload.url_detonator"),
    Rule("tools.sandbox_agent", "payload.sandbox_agent"),
    Rule("tools", "payload")
  ]

  function Rewrite(rules: seq<Rule>, name: string): string {
    if rules == [] then name
    else if name == rules[0].from then rules[0].to
    else if rules[0].from + "." <= name then rules[0].to + name[|rules[0].from|..]
    else Rewrite(rules[1..], name)
  }

  predicate Matches(r: Rule, name: string) {
    name == r.from || r.from + "." <= name
  }

  lemma {:induction false} RewriteNone(rules: seq<Rule>, name: string)
    requires forall r :: r in rules ==> !Matches(r, name)
    ensures Rewrite(rules, name) == name
  {
    if rules != [] {
      assert rules[0] in rules;
      RewriteNone(rules[1..], name);
    }
  }

  /** In a list sorted longest-first, the rule applied is a longest match. */
  lemma {:induction false} RewriteLongest(rules: seq<Rule>, name: string) returns (r: Rule)
    requires LongestFirst(rules)
    requires exists r :: r in rules && Matches(r, name)
    ensures r in rules && Matches(r, name)
    ensures Rewrite(rules, name) == r.to + name[|r.from|..]
    ensures forall q :: q in rules && Matches(q, name) ==> |q.from| <= |r.from|
  {
    if Matches(rules[0], name) {
      r := rules[0];
    } else {
      r := RewriteLongest(rules[1..], name);
    }
  }

  lemma {:induction false} RootRulesElements(roots: seq<string>, r: Rule)
    ensures r in RootRules(roots) <==> exists f :: f in roots && RootFile(f) && r == RootRule(f)
  {
    if roots != [] {
      var n := |roots| - 1;
      RootRulesElements(roots[..n], r);
      assert roots == roots[..n] + [roots[n]];
    }
  }

  /** What one rule of the absolute map looks like. */
  ghost predicate IsRule(r: Rule, subs: seq<Sub>, roots: seq<string>) {
    || (exists s :: s in subs && r == SubRule(s))
    || (exists f :: f in roots && RootFile(f) && r == RootRule(f))
    || r == Rule("app", "backend")
  }

  lemma MapElements(rules: seq<Rule>, subs: seq<Sub>, roots: seq<string>, r: Rule)
    requires IsAbsImportMap(rules, subs, roots)
    ensures r in rules <==> IsRule(r, subs, roots)
  {
    var raw := RawRules(subs, roots);
    assert r in rules <==> r in multiset(rules);
    assert r in raw <==> r in multiset(raw);
    RootRulesElements(roots, r);
    var front := seq(|subs|, i requires 0 <= i < |subs| => SubRule(subs[i]));
    assert r in raw <==> r in front || r in RootRules(roots) || r == Rule("app", "backend");
    if s :| s in subs && r == SubRule(s) {
      var i :| 0 <= i < |subs| && subs[i] == s;
      assert front[i] == r;
    }
  }

  /** The target of the specific rule for `app.<module>`. */
  function Target(subs: seq<Sub>, module_: string): Name {
    if Find(subs, module_) != [] then Find(subs, module_)[0].newParts else [module_]
  }

  lemma SpecificRule(subs: seq<Sub>, roots: seq<string>, r: Rule)
    returns (m: string)
    requires WellFormed(subs, roots) && IsRule(r, subs, roots) && r != Rule("app", "backend")
    ensures Identifier(m) && r.from == "app." + m && r.to == "backend." + Dotted(Target(subs, m))
  {
    if s :| s in subs && r == SubRule(s) {
      m := s.oldName;
      FindMapped(subs, roots, s);
    } else {
      var f :| f in roots && RootFile(f) && r == RootRule(f);
      m := f[..|f| - 3];
      if Find(subs, m) != [] {
        FindIsMapped(subs, roots, m);
      }
    }
  }

  lemma NamesAreAtoms(name: Name)
    requires Identifiers(name)
    ensures Atoms('.', name)
  {
  }

  /** A rule applies to the names that have its prefix, component by component. */
  lemma MatchIsComponentPrefix(r: Rule, p: Name, name: Name)
    requires p != [] && name != [] && Identifiers(p) && Identifiers(name)
    requires r.from == Dotted(p)
    ensures Matches(r, Dotted(name)) <==> p <= name
    ensures p <= name ==>
              Dotted(name)[|r.from|..] == if p == name then "" else "." + Dotted(name[|p|..])
  {
    NamesAreAtoms(p);
    NamesAreAtoms(name);
    PrefixTestIsComponentTest('.', p, name);
  }

  lemma PairIsDotted(a: string, b: string)
    ensures Dotted([a, b]) == a + "." + b
  {
    assert [a, b][1..] == [b];
    assert Join('.', [b]) == b;
    assert "." == ['.'];
  }

  lemma CatchAllMatches(r: Rule, name: Name)
    requires r.from == "app" && name != [] && Identifiers(name)
    ensures Matches(r, Dotted(name)) <==> name[0] == "app"
    ensures name[0] == "app" ==>
              Dotted(name)[3..] == if |name| == 1 then "" else "." + Dotted(name[1..])
  {
    assert Identifier("app");
    MatchIsComponentPrefix(r, ["app"], name);
    assert ["app"] <= name <==> name[0] == "app";
  }

  lemma SpecificMatches(r: Rule, m: string, name: Name)
    requires r.from == "app." + m && Identifier(m) && name != [] && Identifiers(name)
    ensures Matches(r, Dotted(name)) <==> |name| > 1 && name[0] == "app" && name[1] == m
    ensures Matches(r, Dotted(name)) ==>
              Dotted(name)[|r.from|..] == if |name| == 2 then "" else "." + Dotted(name[2..])
  {
    assert Identifier("app");
    PairIsDotted("app", m);
    MatchIsComponentPrefix(r, ["app", m], name);
    assert ["app", m] <= name <==> |name| > 1 && name[0] == "app" && name[1] == m;
  }

  lemma DottedCons(head: Name, tail: Name)
    requires head != []
    ensures Dotted(head + tail) == Dotted(head) + if tail == [] then "" else "." + Dotted(tail)
  {
    if tail == [] {
      assert head + tail == head;
    } else {
      JoinAppend('.', head, tail);
    }
  }

  /** The target of the specific rule for a second component is unique. */
  lemma SpecificResult(subs: seq<Sub>, name: Name, tail: string)
    requires |name| > 1 && name[0] == "app"
    requires Target(subs, name[1]) != []
    requires tail == if |name| == 2 then "" else "." + Dotted(name[2..])
    ensures "backend." + Dotted(Target(subs, name[1])) + tail == Dotted(MoveName(subs, name))
  {
    var t := Target(subs, name[1]);
    assert MoveName(subs, name) == (["backend"] + t) + name[2..];
    DottedCons(["backend"] + t, name[2..]);
    DottedCons(["backend"], t);
  }

  lemma CatchAllResult(subs: seq<Sub>, name: Name)
    requires name != [] && name[0] == "app" && (|name| > 1 ==> Find(subs, name[1]) == [])
    ensures "backend" + (if |name| == 1 then "" else "." + Dotted(name[1..])) ==
            Dotted(MoveName(subs, name))
  {
    DottedCons(["backend"], name[1..]);
  }

  lemma TargetIsNotEmpty(subs: seq<Sub>, roots: seq<string>, m: string)
    requires WellFormed(subs, roots)
    ensures Target(subs, m) != []
    ensures Identifier(m) ==> Identifiers(Target(subs, m))
  {
    if Find(subs, m) != [] {
      FindIsMapped(subs, roots, m);
    }
  }

  /** The string rewriter computes the move on module names, whatever order
      `sort` gave to prefixes of equal length. */
  lemma RewriteIsMoveName(rules: seq<Rule>, subs: seq<Sub>, roots: seq<string>, name: Name)
    requires WellFormed(subs, roots) && IsAbsImportMap(rules, subs, roots)
    requires name != [] && Identifiers(name)
    ensures Rewrite(rules, Dotted(name)) == Dotted(MoveName(subs, name))
  {
    var all := Rule("app", "backend");
    MapElements(rules, subs, roots, all);
    CatchAllMatches(all, name);
    if name[0] != "app" {
      forall r | r in rules ensures !Matches(r, Dotted(name)) {
        MapElements(rules, subs, roots, r);
        if r != all {
          var m := SpecificRule(subs, roots, r);
          SpecificMatches(r, m, name);
        }
      }
      RewriteNone(rules, Dotted(name));
    } else {
      var r := RewriteLongest(rules, Dotted(name));
      MapElements(rules, subs, roots, r);
      if r == all {
        if |name| > 1 && Find(subs, name[1]) != [] {
          LongerRuleExists(rules, subs, roots, name);
        }
        CatchAllResult(subs, name);
      } else {
        var m := SpecificRule(subs, roots, r);
        SpecificMatches(r, m, name);
        TargetIsNotEmpty(subs, roots, m);
        SpecificResult(subs, name, Dotted(name)[|r.from|..]);
      }
    }
  }

  lemma LongerRuleExists(rules: seq<Rule>, subs: seq<Sub>, roots: seq<string>, name: Name)
    requires WellFormed(subs, roots) && IsAbsImportMap(rules, subs, roots) && Identifiers(name)
    requires |name| > 1 && name[0] == "app" && Find(subs, name[1]) != []
    ensures exists q :: q in rules && Matches(q, Dotted(name)) && |q.from| > |"app"|
  {
    FindIsMapped(subs, roots, name[1]);
    var q := SubRule(Find(subs, name[1])[0]);
    MapElements(rules, subs, roots, q);
    SpecificMatches(q, name[1], name);
  }

  /** The name rewriter is a projection, on every string. */
  lemma RewriteIsIdempotent(rules: seq<Rule>, subs: seq<Sub>, roots: seq<string>, s: string)
    requires WellFormed(subs, roots) && IsAbsImportMap(rules, subs, roots)
    ensures Rewrite(rules, Rewrite(rules, s)) == Rewrite(rules, s)
  {
    if exists r :: r in rules && Matches(r, s) {
      var r := RewriteLongest(rules, s);
      var t := Rewrite(rules, s);
      MapElements(rules, subs, roots, r);
      RulesLeadFromAppToBackend(subs, roots, r);
      assert t[0] == 'b';
      forall q | q in rules ensures !Matches(q, t) {
        MapElements(rules, subs, roots, q);
        RulesLeadFromAppToBackend(subs, roots, q);
      }
      RewriteNone(rules, t);
    } else {
      RewriteNone(rules, s);
      RewriteNone(rules, Rewrite(rules, s));
    }
  }

  lemma RulesLeadFromAppToBackend(subs: seq<Sub>, roots: seq<string>, r: Rule)
    requires WellFormed(subs, roots) && IsRule(r, subs, roots)
    ensures r.from != "" && r.from[0] == 'a' && r.to != "" && r.to[0] == 'b'
  {
    if r != Rule("app", "backend") {
      var m := SpecificRule(subs, roots, r);
    }
  }

  function MoveTool(name: Name): Name {
    if name != [] && name[0] == "tools" then ["payload"] + name[1..] else name
  }

  /** A rule that renames the package `a` to `b`, possibly only below `a.x`. */
  ghost predicate RenamesPackage(r: Rule, a: string, b: string) {
    || r == Rule(a, b)
    || exists x :: Identifier(x) && r == Rule(a + "." + x, b + "." + x)
  }

  lemma WholePackageRuleAgrees(r: Rule, a: string, b: string, name: Name)
    requires Identifier(a) && r == Rule(a, b)
    requires name != [] && Identifiers(name) && Matches(r, Dotted(name))
    ensures name[0] == a
    ensures r.to + Dotted(name)[|r.from|..] == Dotted([b] + name[1..])
  {
    MatchIsComponentPrefix(r, [a], name);
    DottedCons([b], name[1..]);
  }

  lemma SubmoduleRuleAgrees(r: Rule, a: string, b: string, x: string, name: Name)
    requires Identifier(a) && Identifier(x) && r == Rule(a + "." + x, b + "." + x)
    requires name != [] && Identifiers(name) && Matches(r, Dotted(name))
    ensures name[0] == a
    ensures r.to + Dotted(name)[|r.from|..] == Dotted([b] + name[1..])
  {
    PairIsDotted(a, x);
    PairIsDotted(b, x);
    MatchIsComponentPrefix(r, [a, x], name);
    assert name[0] == a && name[1] == x;
    DottedCons([b, x], name[2..]);
    assert [b] + name[1..] == [b, x] + name[2..];
  }

  lemma RenamingRuleAgrees(r: Rule, a: string, b: string, name: Name)
    requires Identifier(a) && RenamesPackage(r, a, b)
    requires name != [] && Identifiers(name) && Matches(r, Dotted(name))
    ensures name[0] == a
    ensures r.to + Dotted(name)[|r.from|..] == Dotted([b] + name[1..])
  {
    if r == Rule(a, b) {
      WholePackageRuleAgrees(r, a, b, name);
    } else {
      var x :| Identifier(x) && r == Rule(a + "." + x, b + "." + x);
      SubmoduleRuleAgrees(r, a, b, x, name);
    }
  }

  lemma RenamingRulesAgree(rules: seq<Rule>, a: string, b: string, name: Name)
    requires Identifier(a) && LongestFirst(rules) && Rule(a, b) in rules
    requires forall r :: r in rules ==> RenamesPackage(r, a, b)
    requires name != [] && Identifiers(name)
    ensures Rewrite(rules, Dotted(name)) ==
            Dotted(if name[0] == a then [b] + name[1..] else name)
  {
    MatchIsComponentPrefix(Rule(a, b), [a], name);
    if name[0] == a {
      assert Matches(Rule(a, b), Dotted(name));
      var r := RewriteLongest(rules, Dotted(name));
      RenamingRuleAgrees(r, a, b, name);
    } else {
      forall r | r in rules ensures !Matches(r, Dotted(name)) {
        if Matches(r, Dotted(name)) {
          RenamingRuleAgrees(r, a, b, name);
        }
      }
      RewriteNone(rules, Dotted(name));
    }
  }

  lemma ToolRulesAreSorted()
    ensures LongestFirst(TOOLS_IMPORT_MAP)
  {
  }

  lemma ToolRuleRenames(r: Rule, x: string)
    requires Identifier(x) && r == Rule("tools." + x, "payload." + x)
    ensures RenamesPackage(r, "tools", "payload")
  {
    assert "tools" + "." + x == "tools." + x;
    assert "payload" + "." + x == "payload." + x;
  }

  lemma ToolDirectoriesAreIdentifiers()
    ensures Identifier("url_detonator") && Identifier("sandbox_agent")
  {
  }

  lemma DetonatorRule()
    ensures |TOOLS_IMPORT_MAP| == 3
    ensures TOOLS_IMPORT_MAP[0] == Rule("tools." + "url_detonator", "payload." + "url_detonator")
  {
  }

  lemma AgentRule()
    ensures |TOOLS_IMPORT_MAP| == 3
    ensures TOOLS_IMPORT_MAP[1] == Rule("tools." + "sandbox_agent", "payload." + "sandbox_agent")
  {
  }

  lemma ToolRulesByDirectory()
    ensures |TOOLS_IMPORT_MAP| == 3
    ensures TOOLS_IMPORT_MAP[0] == Rule("tools." + "url_detonator", "payload." + "url_detonator")
    ensures TOOLS_IMPORT_MAP[1] == Rule("tools." + "sandbox_agent", "payload." + "sandbox_agent")
    ensures TOOLS_IMPORT_MAP[2] == Rule("tools", "payload")
  {
    DetonatorRule();
    AgentRule();
  }

  lemma ToolRulesRename(r: Rule)
    requires r in TOOLS_IMPORT_MAP
    ensures RenamesPackage(r, "tools", "payload")
  {
    ToolDirectoriesAreIdentifiers();
    ToolRulesByDirectory();
    var i :| 0 <= i < |TOOLS_IMPORT_MAP| && TOOLS_IMPORT_MAP[i] == r;
    if i == 0 {
      ToolRuleRenames(r, "url_detonator");
    } else if i == 1 {
      ToolRuleRenames(r, "sandbox_agent");
    }
  }

  lemma RewriteToolsIsMoveTool(name: Name)
    requires name != [] && Identifiers(name)
    ensures Rewrite(TOOLS_IMPORT_MAP, Dotted(name)) == Dotted(MoveTool(name))
  {
    ToolRulesAreSorted();
    forall r | r in TOOLS_IMPORT_MAP ensures RenamesPackage(r, "tools", "payload") {
      ToolRulesRename(r);
    }
    assert Identifier("tools");
    assert Rule("tools", "payload") == TOOLS_IMPORT_MAP[2];
    RenamingRulesAgree(TOOLS_IMPORT_MAP, "tools", "payload", name);
  }
}
