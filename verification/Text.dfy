/** String operations the modelled Python code relies on, with the laws of
    `sep.join` and `str.split(sep)`. Case mapping and stripping cover ASCII. */
module Text {

  function LowerChar(c: char): char {
    if 'A' <= c <= 'Z' then c - 'A' + 'a' else c
  }

  function Lower(s: string): (r: string)
    ensures |r| == |s|
  {
    seq(|s|, i requires 0 <= i < |s| => LowerChar(s[i]))
  }

  lemma LowerLetters(c: char)
    ensures Lower("ABCDEFGHIJKLMNOPQRSTUVWXYZ") == "abcdefghijklmnopqrstuvwxyz"
    ensures c !in "ABCDEFGHIJKLMNOPQRSTUVWXYZ" ==> LowerChar(c) == c
  {
    assert 'A' <= c <= 'Z' ==> "ABCDEFGHIJKLMNOPQRSTUVWXYZ"[c as int - 'A' as int] == c;
  }

  predicate IsSpace(c: char) {
    c == ' ' || c == '\t' || c == '\n' || c == '\r'
  }

  function StripLeft(s: string): string {
    if s != "" && IsSpace(s[0]) then StripLeft(s[1..]) else s
  }

  function StripRight(s: string): string {
    if s != "" && IsSpace(s[|s| - 1]) then StripRight(s[..|s| - 1]) else s
  }

  /** Blanks are cut off in front, until another character comes. */
  lemma {:induction false} StripsFront(s: string)
    ensures
      var r := StripLeft(s);
      && |r| <= |s| && s[|s| - |r|..] == r
      && (forall i :: 0 <= i < |s| - |r| ==> IsSpace(s[i]))
      && (r != "" ==> !IsSpace(r[0]))
  {
    if s != "" && IsSpace(s[0]) {
      StripsFront(s[1..]);
      var r := StripLeft(s);
      assert forall i :: 1 <= i < |s| - |r| ==> s[i] == s[1..][i - 1];
    }
  }

  /** And behind. */
  lemma {:induction false} StripsBack(s: string)
    ensures
      var r := StripRight(s);
      && r <= s
      && (forall i :: |r| <= i < |s| ==> IsSpace(s[i]))
      && (r != "" ==> !IsSpace(r[|r| - 1]))
  {
    if s != "" && IsSpace(s[|s| - 1]) {
      StripsBack(s[..|s| - 1]);
      var r := StripRight(s);
      assert forall i :: |r| <= i < |s| - 1 ==> s[i] == s[..|s| - 1][i];
    }
  }

  /** `s.strip().lower()`, the normal form of every decision field. */
  function Normal(s: string): string {
    Lower(StripRight(StripLeft(s)))
  }

  /** `s.rstrip(chars)` */
  function RStrip(s: string, chars: set<char>): (r: string)
    ensures r <= s
    ensures r != "" ==> r[|r| - 1] !in chars
  {
    if s != "" && s[|s| - 1] in chars then RStrip(s[..|s| - 1], chars) else s
  }

  /** `part in s` */
  predicate Contains(s: string, part: string) {
    exists i | 0 <= i <= |s| :: part <= s[i..]
  }

  /** The text has this part somewhere. */
  ghost predicate Holds(s: string, part: string) {
    exists a, b :: s == a + part + b
  }

  lemma ContainsIsHolds(s: string, part: string)
    ensures Contains(s, part) <==> Holds(s, part)
  {
    if Contains(s, part) {
      var i :| 0 <= i <= |s| && part <= s[i..];
      assert s == s[..i] + part + s[i..][|part|..];
    }
    if a, b :| s == a + part + b {
      assert s[|a|..] == part + b;
    }
  }

  /** `sep.join(parts)` */
  function Join(sep: char, parts: seq<string>): string {
    if parts == [] then ""
    else if |parts| == 1 then parts[0]
    else parts[0] + [sep] + Join(sep, parts[1..])
  }

  /** `s.split(sep)`; like Python's, it never returns an empty list. */
  function Split(sep: char, s: string): (parts: seq<string>)
    ensures parts != []
    ensures forall p :: p in parts ==> sep !in p
  {
    if s == "" then [""]
    else
      var rest := Split(sep, s[1..]);
      if s[0] == sep then [""] + rest else [[s[0]] + rest[0]] + rest[1..]
  }

  /** No part contains the separator. */
  predicate Atoms(sep: char, parts: seq<string>) {
    forall p :: p in parts ==> sep !in p
  }

  lemma {:induction false} JoinOfSplit(sep: char, s: string)
    ensures Join(sep, Split(sep, s)) == s
  {
    if s != "" {
      JoinOfSplit(sep, s[1..]);
      var rest := Split(sep, s[1..]);
      if s[0] == sep {
        assert ([""] + rest)[1..] == rest;
        assert s == [sep] + s[1..];
      } else {
        assert ([[s[0]] + rest[0]] + rest[1..])[1..] == rest[1..];
        assert s == [s[0]] + s[1..];
      }
    }
  }

  /** A separator in the text splits it into the splits of both sides. */
  lemma {:induction false} SplitAtSeparator(sep: char, a: string, b: string)
    ensures Split(sep, a + [sep] + b) == Split(sep, a) + Split(sep, b)
  {
    var s := a + [sep] + b;
    if a == "" {
      assert s[1..] == b;
    } else {
      assert s[1..] == a[1..] + [sep] + b;
      SplitAtSeparator(sep, a[1..], b);
    }
  }

  lemma {:induction false} SplitOfAtom(sep: char, s: string)
    requires sep !in s
    ensures Split(sep, s) == [s]
  {
    if s != "" {
      SplitOfAtom(sep, s[1..]);
      assert s == [s[0]] + s[1..];
    }
  }

  lemma {:induction false} SplitOfJoin(sep: char, parts: seq<string>)
    requires parts != [] && Atoms(sep, parts)
    ensures Split(sep, Join(sep, parts)) == parts
  {
    SplitOfAtom(sep, parts[0]);
    if |parts| > 1 {
      SplitAtSeparator(sep, parts[0], Join(sep, parts[1..]));
      SplitOfJoin(sep, parts[1..]);
    }
  }

  lemma {:induction false} JoinAppend(sep: char, a: seq<string>, b: seq<string>)
    requires a != [] && b != []
    ensures Join(sep, a + b) == Join(sep, a) + [sep] + Join(sep, b)
  {
    if |a| == 1 {
      assert (a + b)[1..] == b;
    } else {
      assert (a + b)[1..] == a[1..] + b;
      JoinAppend(sep, a[1..], b);
    }
  }

  lemma StringPrefixIsComponentPrefix(sep: char, p: seq<string>, name: seq<string>)
    requires p != [] && name != [] && Atoms(sep, p) && Atoms(sep, name)
    requires Join(sep, p) + [sep] <= Join(sep, name)
    ensures p < name
  {
    var t := Join(sep, p);
    var rest := Join(sep, name)[|t| + 1..];
    assert Join(sep, name) == t + [sep] + rest;
    SplitAtSeparator(sep, t, rest);
    SplitOfJoin(sep, p);
    SplitOfJoin(sep, name);
    assert name == p + Split(sep, rest);
  }

  lemma ComponentPrefixIsStringPrefix(sep: char, p: seq<string>, name: seq<string>)
    requires p != [] && p < name
    ensures Join(sep, name) == Join(sep, p) + [sep] + Join(sep, name[|p|..])
  {
    assert name == p + name[|p|..];
    JoinAppend(sep, p, name[|p|..]);
  }

  /** The string tests `name == p` and `name.startswith(p + sep)` hold exactly
      on component boundaries. */
  lemma PrefixTestIsComponentTest(sep: char, p: seq<string>, name: seq<string>)
    requires p != [] && name != [] && Atoms(sep, p) && Atoms(sep, name)
    ensures Join(sep, name) == Join(sep, p) <==> name == p
    ensures Join(sep, p) + [sep] <= Join(sep, name) <==> p < name
    ensures p < name ==> Join(sep, name)[|Join(sep, p)|..] == [sep] + Join(sep, name[|p|..])
  {
    assert Join(sep, name) == Join(sep, p) ==> name == p by {
      SplitOfJoin(sep, p);
      SplitOfJoin(sep, name);
    }
    if p < name {
      ComponentPrefixIsStringPrefix(sep, p, name);
    }
    if Join(sep, p) + [sep] <= Join(sep, name) {
      StringPrefixIsComponentPrefix(sep, p, name);
    }
  }

  lemma MarkAcross(a: string, sep: char, b: string, mark: string, i: nat)
    requires sep !in mark && i <= |a| < i + |mark|
    ensures !(mark <= (a + [sep] + b)[i..])
  {
    assert (a + [sep] + b)[i..][|a| - i] == sep;
    assert mark[|a| - i] in mark;
  }

  /** A mark without the separator sits on one side of it. */
  lemma ContainsAcross(a: string, sep: char, b: string, mark: string)
    requires sep !in mark && mark != ""
    ensures Contains(a + [sep] + b, mark) <==> Contains(a, mark) || Contains(b, mark)
  {
    var s := a + [sep] + b;
    if i :| 0 <= i <= |s| && mark <= s[i..] {
      if i + |mark| <= |a| {
        assert s[i..][..|mark|] == a[i..][..|mark|];
        assert mark <= a[i..];
      } else if i > |a| {
        assert s[i..] == b[i - |a| - 1..];
      } else {
        MarkAcross(a, sep, b, mark, i);
      }
    }
    if i :| 0 <= i <= |a| && mark <= a[i..] {
      assert s[i..][..|mark|] == mark;
    }
    if i :| 0 <= i <= |b| && mark <= b[i..] {
      assert s[|a| + 1 + i..] == b[i..];
    }
  }

  lemma {:induction false} ContainsInLines(sep: char, lines: seq<string>, mark: string)
    requires sep !in mark && mark != "" && lines != []
    ensures Contains(Join(sep, lines), mark) <==> exists l :: l in lines && Contains(l, mark)
  {
    if |lines| == 1 {
      assert lines == [lines[0]];
    } else {
      ContainsAcross(lines[0], sep, Join(sep, lines[1..]), mark);
      ContainsInLines(sep, lines[1..], mark);
      assert lines == [lines[0]] + lines[1..];
    }
  }
}
