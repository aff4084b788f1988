/** The glob compiler of the scope guard (execution/scope_guard.py) and what its
    globs mean: character by character, and segment by segment. */
module Glob {
  import opened Wrappers
  import opened Regex

  /* ---- Globs --------------------------------------------------------------------- */

  datatype Token = AnyDirs | AnyText | AnyName | AnyChar | Literal(c: char)

  /** The token at the front of a pattern, in the order the compiler tests. */
  function FirstToken(pattern: string): Token
    requires pattern != ""
  {
    if "**/" <= pattern then AnyDirs
    else if "**" <= pattern then AnyText
    else if pattern[0] == '*' then AnyName
    else if pattern[0] == '?' then AnyChar
    else Literal(pattern[0])
  }

  function Width(token: Token): (n: nat)
    ensures 1 <= n <= 3
  {
    match token
    case AnyDirs => 3
    case AnyText => 2
    case _ => 1
  }

  function AfterFirst(pattern: string): (rest: string)
    requires pattern != ""
    ensures |rest| < |pattern|
  {
    pattern[Width(FirstToken(pattern))..]
  }

  predicate Crossable(text: string, newlines: bool) {
    newlines || '\n' !in text
  }

  /** Whether `text` may stand for one token. The parameter `newlines` says
      whether `**` may run across a newline, as the documented meaning has it. */
  predicate TokenMatches(token: Token, text: string, newlines: bool) {
    match token
    case AnyDirs =>
      text == "" || (text[|text| - 1] == '/' && Crossable(text[..|text| - 1], newlines))
    case AnyText => Crossable(text, newlines)
    case AnyName => '/' !in text
    case AnyChar => |text| == 1 && text[0] != '/'
    case Literal(c) => text == [c]
  }

  /** The direct reading of a glob: some prefix of the path stands for the first
      token and the rest of the path matches the rest of the pattern. */
  predicate Glob(pattern: string, path: string, newlines: bool) {
    if pattern == "" then path == ""
    else exists k :: 0 <= k <= |path|
                     && TokenMatches(FirstToken(pattern), path[..k], newlines)
                     && Glob(AfterFirst(pattern), path[k..], newlines)
  }

  predicate GlobMatch(pattern: string, path: string) {
    Glob(pattern, path, true)
  }

  lemma LastToken(pattern: string, path: string, newlines: bool)
    requires pattern != "" && AfterFirst(pattern) == ""
    ensures Glob(pattern, path, newlines) <==> TokenMatches(FirstToken(pattern), path, newlines)
  {
    assert path[..|path|] == path && path[|path|..] == "";
    if Glob(pattern, path, newlines) {
      var k :| 0 <= k <= |path| && TokenMatches(FirstToken(pattern), path[..k], newlines)
               && Glob(AfterFirst(pattern), path[k..], newlines);
      assert k == |path|;
    }
  }

  /** What the special patterns match by themselves, as documented. */
  lemma SpecialPatterns(path: string)
    ensures GlobMatch("?", path) <==> |path| == 1 && path[0] != '/'
    ensures GlobMatch("*", path) <==> '/' !in path
    ensures GlobMatch("**", path)
    ensures GlobMatch("**/", path) <==> path == "" || path[|path| - 1] == '/'
  {
    LastToken("?", path, true);
    LastToken("*", path, true);
    LastToken("**", path, true);
    LastToken("**/", path, true);
  }

  /** A pattern without `*` and `?` matches itself and nothing else. */
  lemma {:induction false} PlainPattern(name: string, path: string)
    requires '*' !in name && '?' !in name
    ensures GlobMatch(name, path) <==> path == name
  {
    if name != "" {
      assert name[0] in name && forall c <- name[1..] :: c in name;
      assert FirstToken(name) == Literal(name[0]) && AfterFirst(name) == name[1..];
      LiteralFirst(name, path);
      if path != "" {
        PlainPattern(name[1..], path[1..]);
        assert path == [path[0]] + path[1..] && name == [name[0]] + name[1..];
      }
    }
  }

  lemma LiteralFirst(name: string, path: string)
    requires name != "" && FirstToken(name) == Literal(name[0]) && AfterFirst(name) == name[1..]
    ensures GlobMatch(name, path) <==> path != "" && path[0] == name[0] && GlobMatch(name[1..], path[1..])
  {
    if GlobMatch(name, path) {
      var k :| 0 <= k <= |path| && TokenMatches(FirstToken(name), path[..k], true)
               && Glob(AfterFirst(name), path[k..], true);
      assert k == 1 && path[..k][0] == path[0];
    }
    if path != "" && path[0] == name[0] {
      assert path[..1] == [name[0]];
    }
  }

  /* ---- The compiler ------------------------------------------------------------------ */

  /** The characters `re.escape` puts a backslash before. */
  const ESCAPED: set<char> :=
    {'(', ')', '[', ']', '{', '}', '?', '*', '+', '-', '|', '^', '$', '\\', '.', '&', '~', '#',
     ' ', '\t', '\n', '\r', '\U{0B}', '\U{0C}'}

  function Escape(c: char): string {
    if c in ESCAPED then ['\\', c] else [c]
  }

  function Emit(token: Token): string {
    match token
    case AnyDirs => "(?:" + ".*/" + ")?"
    case AnyText => ".*"
    case AnyName => "[^/]*"
    case AnyChar => "[^/]"
    case Literal(c) => Escape(c)
  }

  function EmitAll(pattern: string): string {
    if pattern == "" then "" else Emit(FirstToken(pattern)) + EmitAll(AfterFirst(pattern))
  }

  /** The regular expression a token is meant to become. */
  function NodeOf(token: Token): Node {
    var anything := Star(Class(Not('\n')));
    match token
    case AnyDirs => Opt(Group([anything, Class(One('/'))]))
    case AnyText => anything
    case AnyName => Star(Class(Not('/')))
    case AnyChar => Class(Not('/'))
    case Literal(c) => Class(One(c))
  }

  function NodesOf(pattern: string): seq<Node> {
    if pattern == "" then [] else [NodeOf(FirstToken(pattern))] + NodesOf(AfterFirst(pattern))
  }

  /* ---- The emitted text parses to the intended nodes --------------------------------- */

  /** The parse of `rest`, with one node more in front. */
  function WithNode(node: Node, parsed: Option<(seq<Node>, string)>): Option<(seq<Node>, string)> {
    match parsed
    case None => None
    case Some((items, end)) => Some(([node] + items, end))
  }

  lemma TokenParses(token: Token, rest: string)
    requires rest != "" && !IsQuantifier(rest[0])
    ensures ParseItems(Emit(token) + rest) == WithNode(NodeOf(token), ParseItems(rest))
  {
    match token
    case AnyDirs => DirsParse(rest);
    case AnyText => StarParses(rest);
    case AnyName => NameParses(rest);
    case AnyChar => CharParses(rest);
    case Literal(c) => LiteralParses(c, rest);
  }

  lemma StarParses(rest: string)
    requires rest != "" && !IsQuantifier(rest[0])
    ensures ParseItems(".*" + rest) == WithNode(NodeOf(AnyText), ParseItems(rest))
  {
    var t := ".*" + rest;
    assert t[1..] == "*" + rest && ("*" + rest)[1..] == rest;
  }

  lemma NameParses(rest: string)
    requires rest != "" && !IsQuantifier(rest[0])
    ensures ParseItems("[^/]*" + rest) == WithNode(NodeOf(AnyName), ParseItems(rest))
  {
    var t := "[^/]*" + rest;
    assert t[4..] == "*" + rest && ("*" + rest)[1..] == rest;
  }

  lemma CharParses(rest: string)
    requires rest != "" && !IsQuantifier(rest[0])
    ensures ParseItems("[^/]" + rest) == WithNode(NodeOf(AnyChar), ParseItems(rest))
  {
    var t := "[^/]" + rest;
    assert t[4..] == rest;
  }

  lemma LiteralParses(c: char, rest: string)
    requires rest != "" && !IsQuantifier(rest[0])
    ensures ParseItems(Escape(c) + rest) == WithNode(NodeOf(Literal(c)), ParseItems(rest))
  {
    var t := Escape(c) + rest;
    if c in ESCAPED {
      assert t[2..] == rest && !IsAlnum(c);
    } else {
      assert t[1..] == rest;
    }
  }

  const DIRS_BODY: seq<Node> := [Star(Class(Not('\n'))), Class(One('/'))]

  lemma DirsBodyParses(close: string)
    requires close != "" && close[0] == ')'
    ensures ParseItems(".*/" + close) == Some((DIRS_BODY, close))
  {
    var anything, slash := Class(Not('\n')), Class(One('/'));
    var t2 := "/" + close;
    var t1 := "*" + t2;
    var t0 := ".*/" + close;
    assert t0[1..] == t1 && t1[1..] == t2 && t2[1..] == close;
    assert [slash] + [] == [slash] && [Star(anything)] + [slash] == DIRS_BODY;
    ItemsCons(t2, slash, close, slash, close, [], close);
    ItemsCons(t0, anything, t1, Star(anything), t2, [slash], close);
  }

  lemma GroupParses(body: string, items: seq<Node>, close: string)
    requires ParseItems(body) == Some((items, close)) && close != "" && close[0] == ')'
    ensures ParseAtom("(?:" + body) == Some((Group(items), close[1..]))
  {
    var t := "(?:" + body;
    assert t[0] == '(' && t[1] == '?' && t[2] == ':' && t[3..] == body;
  }

  lemma DirsParse(rest: string)
    requires rest != "" && !IsQuantifier(rest[0])
    ensures ParseItems(Emit(AnyDirs) + rest) == WithNode(NodeOf(AnyDirs), ParseItems(rest))
  {
    var close := ")?" + rest;
    Reassociate("(?:", ".*/", ")?", rest);
    DirsBodyParses(close);
    GroupParses(".*/" + close, DIRS_BODY, close);
    assert close[1..] == "?" + rest && ("?" + rest)[1..] == rest;
    assert NodeOf(AnyDirs) == Opt(Group(DIRS_BODY));
    var t := "(?:" + (".*/" + close);
    assert t[0] == '(';
    assert ParsePostfix(Group(DIRS_BODY), "?" + rest) == Some((NodeOf(AnyDirs), rest));
    if ParseItems(rest).Some? {
      var (items, end) := ParseItems(rest).value;
      ItemsCons(t, Group(DIRS_BODY), "?" + rest, NodeOf(AnyDirs), rest, items, end);
    }
  }

  lemma Reassociate(a: string, b: string, c: string, d: string)
    ensures (a + b + c) + d == a + (b + (c + d))
  {
  }

  lemma EmittedStart(pattern: string)
    ensures var t := EmitAll(pattern) + "$"; t != "" && !IsQuantifier(t[0])
  {
  }

  lemma {:induction false} EmittedParses(pattern: string)
    ensures ParseItems(EmitAll(pattern) + "$") == Some((NodesOf(pattern) + [Eol], ""))
    decreases |pattern|
  {
    if pattern == "" {
      assert EmitAll(pattern) + "$" == "$" && "$"[1..] == "";
      ItemsCons("$", Eol, "", Eol, "", [], "");
      assert NodesOf(pattern) + [Eol] == [Eol] + [];
    } else {
      var rest := AfterFirst(pattern);
      var tail := EmitAll(rest) + "$";
      EmittedStart(rest);
      EmittedParses(rest);
      TokenParses(FirstToken(pattern), tail);
      assert EmitAll(pattern) + "$" == Emit(FirstToken(pattern)) + tail;
      assert NodesOf(pattern) + [Eol] == [NodeOf(FirstToken(pattern))] + (NodesOf(rest) + [Eol]);
    }
  }

  /** Every pattern compiles, and to the nodes of its tokens between the anchors:
      no character of a pattern can act as regular-expression syntax. */
  lemma CompiledIsParsed(pattern: string)
    ensures Compile(RegexText(pattern)) == Some([Bol] + (NodesOf(pattern) + [Eol]))
  {
    var t := EmitAll(pattern) + "$";
    EmittedParses(pattern);
    EmittedStart(pattern);
    assert "^" + EmitAll(pattern) + "$" == "^" + t && ("^" + t)[1..] == t;
    ItemsCons("^" + t, Bol, t, Bol, t, NodesOf(pattern) + [Eol], "");
  }

  /* ---- The nodes mean what the tokens mean --------------------------------------------- */

  lemma {:induction false} RepeatedClass(c: char, s: string, i: nat, j: nat)
    requires i <= j <= |s|
    ensures Repeats(Class(Not(c)), s, i, j) <==> c !in s[i..j]
    decreases j - i
  {
    if i < j {
      RepeatedClass(c, s, i + 1, j);
      assert s[i..j] == [s[i]] + s[i + 1..j];
      assert Matches(Class(Not(c)), s, i, i + 1) <==> s[i] != c;
    }
  }

  lemma NodeMeaning(token: Token, s: string, i: nat, j: nat)
    requires i <= j <= |s|
    ensures Matches(NodeOf(token), s, i, j) <==> TokenMatches(token, s[i..j], false)
  {
    match token
    case AnyDirs => DirsMeaning(s, i, j);
    case AnyText => RepeatedClass('\n', s, i, j);
    case AnyName => RepeatedClass('/', s, i, j);
    case AnyChar =>
    case Literal(c) =>
  }

  lemma DirsMeaning(s: string, i: nat, j: nat)
    requires i <= j <= |s|
    ensures Matches(NodeOf(AnyDirs), s, i, j) <==> TokenMatches(AnyDirs, s[i..j], false)
  {
    hide MatchesAll, Repeats;
    assert Matches(NodeOf(AnyDirs), s, i, j) <==> i == j || MatchesAll(DIRS_BODY, s, i, j);
    if i < j {
      DirsBodyMeaning(s, i, j);
      RepeatedClass('\n', s, i, j - 1);
      var text := s[i..j];
      assert text[..|text| - 1] == s[i..j - 1] && text[|text| - 1] == s[j - 1];
    }
  }

  lemma DirsBodyMeaning(s: string, i: nat, j: nat)
    requires i < j <= |s|
    ensures MatchesAll(DIRS_BODY, s, i, j) <==> Repeats(Class(Not('\n')), s, i, j - 1) && s[j - 1] == '/'
  {
    hide MatchesAll, Repeats;
    var anything, slash := Star(Class(Not('\n'))), Class(One('/'));
    assert DIRS_BODY == [anything] + [slash];
    MatchesCons(anything, [slash], s, i, j);
    forall k: nat | i <= k <= j
      ensures MatchesAll([slash], s, k, j) <==> k == j - 1 && s[k] == '/'
      ensures Matches(anything, s, i, k) <==> Repeats(Class(Not('\n')), s, i, k)
    {
      MatchesOne(slash, s, k, j);
    }
    assert MatchesAll([slash], s, j - 1, j) <==> s[j - 1] == '/';
    assert Matches(anything, s, i, j - 1) <==> Repeats(Class(Not('\n')), s, i, j - 1);
  }

  /** A glob splits a stretch of `s` at some point `m`. */
  lemma GlobSplit(pattern: string, s: string, i: nat, j: nat) returns (m: nat)
    requires i <= j <= |s| && pattern != "" && Glob(pattern, s[i..j], false)
    ensures i <= m <= j && TokenMatches(FirstToken(pattern), s[i..m], false)
    ensures Glob(AfterFirst(pattern), s[m..j], false)
  {
    var w := s[i..j];
    var k :| 0 <= k <= |w| && TokenMatches(FirstToken(pattern), w[..k], false)
             && Glob(AfterFirst(pattern), w[k..], false);
    m := i + k;
    assert w[..k] == s[i..m] && w[k..] == s[m..j];
  }

  lemma GlobJoin(pattern: string, s: string, i: nat, m: nat, j: nat)
    requires i <= m <= j <= |s| && pattern != "" && TokenMatches(FirstToken(pattern), s[i..m], false)
    requires Glob(AfterFirst(pattern), s[m..j], false)
    ensures Glob(pattern, s[i..j], false)
  {
    var w := s[i..j];
    assert w[..m - i] == s[i..m] && w[m - i..] == s[m..j];
  }

  lemma {:induction false} NodesToGlob(pattern: string, s: string, i: nat, j: nat)
    requires i <= j <= |s| && MatchesAll(NodesOf(pattern), s, i, j)
    ensures Glob(pattern, s[i..j], false)
    decreases |pattern|
  {
    if pattern != "" {
      var m := MatchesSplit(NodesOf(pattern), s, i, j);
      assert NodesOf(pattern)[1..] == NodesOf(AfterFirst(pattern));
      NodeMeaning(FirstToken(pattern), s, i, m);
      NodesToGlob(AfterFirst(pattern), s, m, j);
      GlobJoin(pattern, s, i, m, j);
    }
  }

  lemma {:induction false} GlobToNodes(pattern: string, s: string, i: nat, j: nat)
    requires i <= j <= |s| && Glob(pattern, s[i..j], false)
    ensures MatchesAll(NodesOf(pattern), s, i, j)
    decreases |pattern|
  {
    if pattern != "" {
      var m := GlobSplit(pattern, s, i, j);
      NodeMeaning(FirstToken(pattern), s, i, m);
      GlobToNodes(AfterFirst(pattern), s, m, j);
      MatchesJoin(NodeOf(FirstToken(pattern)), NodesOf(AfterFirst(pattern)), s, i, m, j);
    }
  }

  lemma {:induction false} EndAnchor(items: seq<Node>, s: string, i: nat, j: nat)
    requires i <= j <= |s|
    ensures MatchesAll(items + [Eol], s, i, j) <==> MatchesAll(items, s, i, j) && AtEnd(s, j)
    decreases |items|
  {
    if items == [] {
      assert [Eol][1..] == [] && items + [Eol] == [Eol];
      assert MatchesAll([Eol], s, i, j) ==> i == j;
      if i == j && AtEnd(s, j) {
        assert Matches(Eol, s, i, j) && MatchesAll([], s, j, j);
      }
    } else {
      assert (items + [Eol])[1..] == items[1..] + [Eol] && (items + [Eol])[0] == items[0];
      forall k | i <= k <= j
        ensures MatchesAll(items[1..] + [Eol], s, k, j) <==> MatchesAll(items[1..], s, k, j) && AtEnd(s, j)
      {
        EndAnchor(items[1..], s, k, j);
      }
    }
  }

  lemma StartAnchor(items: seq<Node>, s: string, j: nat)
    requires j <= |s|
    ensures MatchesAll([Bol] + items, s, 0, j) <==> MatchesAll(items, s, 0, j)
  {
    assert ([Bol] + items)[1..] == items;
    if MatchesAll(items, s, 0, j) {
      assert Matches(Bol, s, 0, 0);
    }
  }

  /* ---- What path_matches_glob decides --------------------------------------------------- */

  /** `path_matches_glob` on every path, newlines included: `**` stops at a
      newline, and a final newline may be ignored. */
  predicate PathMatchesGlob(path: string, pattern: string) {
    || Glob(pattern, path, false)
    || (path != "" && path[|path| - 1] == '\n' && Glob(pattern, path[..|path| - 1], false))
  }

  lemma PythonDecides(pattern: string, path: string)
    ensures PythonMatch(RegexText(pattern), path) <==> PathMatchesGlob(path, pattern)
  {
    CompiledIsParsed(pattern);
    var items := NodesOf(pattern) + [Eol];
    forall j | 0 <= j <= |path|
      ensures MatchesAll([Bol] + items, path, 0, j) <==> Glob(pattern, path[..j], false) && AtEnd(path, j)
    {
      StartAnchor(items, path, j);
      EndAnchor(NodesOf(pattern), path, 0, j);
      if MatchesAll(NodesOf(pattern), path, 0, j) {
        NodesToGlob(pattern, path, 0, j);
      }
      if Glob(pattern, path[0..j], false) {
        GlobToNodes(pattern, path, 0, j);
      }
      assert path[0..j] == path[..j];
    }
    assert path[..|path|] == path;
    if PathMatchesGlob(path, pattern) {
      var j := if Glob(pattern, path, false) then |path| else |path| - 1;
      assert MatchesAll([Bol] + items, path, 0, j);
    }
  }

  lemma {:induction false} NewlineFreeGlob(pattern: string, path: string)
    requires '\n' !in path
    ensures Glob(pattern, path, false) <==> Glob(pattern, path, true)
    decreases |pattern|
  {
    if pattern != "" {
      forall k | 0 <= k <= |path|
        ensures Glob(AfterFirst(pattern), path[k..], false) <==> Glob(AfterFirst(pattern), path[k..], true)
        ensures TokenMatches(FirstToken(pattern), path[..k], false)
                <==> TokenMatches(FirstToken(pattern), path[..k], true)
      {
        NewlineFreeGlob(AfterFirst(pattern), path[k..]);
      }
    }
  }

  /** The compiler preserves meaning: on a path without a newline the compiled
      regular expression accepts exactly what the glob means. */
  lemma CompilerPreservesMeaning(pattern: string, path: string)
    requires '\n' !in path
    ensures PythonMatch(RegexText(pattern), path) <==> GlobMatch(pattern, path)
  {
    PythonDecides(pattern, path);
    NewlineFreeGlob(pattern, path);
    assert path != "" ==> path[|path| - 1] in path;
  }

  function RegexText(pattern: string): string {
    "^" + EmitAll(pattern) + "$"
  }

  /** What is built so far, with what is still to come, is the whole text. */
  predicate Building(parts: string, pattern: string, i: nat)
    requires i <= |pattern|
  {
    parts + EmitAll(pattern[i..]) == "^" + EmitAll(pattern)
  }

  /** What the loop emits next, and how far it moves. */
  lemma TokenAt(pattern: string, i: nat)
    requires i < |pattern|
    ensures var token := FirstToken(pattern[i..]);
            && i + Width(token) <= |pattern|
            && token == if i + 3 <= |pattern| && pattern[i..i + 3] == "**/" then AnyDirs
                        else if i + 2 <= |pattern| && pattern[i..i + 2] == "**" then AnyText
                        else if pattern[i] == '*' then AnyName
                        else if pattern[i] == '?' then AnyChar else Literal(pattern[i])
  {
    var rest := pattern[i..];
    assert "**/" <= rest <==> i + 3 <= |pattern| && pattern[i..i + 3] == "**/" by {
      if i + 3 <= |pattern| {
        assert pattern[i..i + 3] == rest[..3];
      }
    }
    assert "**" <= rest <==> i + 2 <= |pattern| && pattern[i..i + 2] == "**" by {
      if i + 2 <= |pattern| {
        assert pattern[i..i + 2] == rest[..2];
      }
    }
  }

  lemma BuildingStep(parts: string, pattern: string, i: nat)
    requires i < |pattern| && Building(parts, pattern, i)
    requires i + Width(FirstToken(pattern[i..])) <= |pattern|
    ensures var token := FirstToken(pattern[i..]); Building(parts + Emit(token), pattern, i + Width(token))
  {
    hide FirstToken, Emit;
    var rest := pattern[i..];
    var token := FirstToken(rest);
    var later := EmitAll(pattern[i + Width(token)..]);
    assert AfterFirst(rest) == pattern[i + Width(token)..];
    assert (parts + Emit(token)) + later == parts + (Emit(token) + later);
  }

  /** `_glob_to_regex`, the index loop. */
  method GlobToRegex(pattern: string) returns (text: string)
    ensures text == RegexText(pattern)
  {
    var parts := "^";
    var i := 0;
    while i < |pattern|
      invariant 0 <= i <= |pattern| && Building(parts, pattern, i)
    {
      TokenAt(pattern, i);
      BuildingStep(parts, pattern, i);
      if i + 3 <= |pattern| && pattern[i..i + 3] == "**/" {
        parts := parts + Emit(AnyDirs);
        i := i + 3;
      } else if i + 2 <= |pattern| && pattern[i..i + 2] == "**" {
        parts := parts + Emit(AnyText);
        i := i + 2;
      } else if pattern[i] == '*' {
        parts := parts + Emit(AnyName);
        i := i + 1;
      } else if pattern[i] == '?' {
        parts := parts + Emit(AnyChar);
        i := i + 1;
      } else {
        parts := parts + Escape(pattern[i]);
        i := i + 1;
      }
    }
    assert pattern[i..] == "" && parts == "^" + EmitAll(pattern);
    text := parts + "$";
  }

  /* ---- Exactly which paths the compiler is faithful on ----------------------------------- */

  /** The pattern that spells out the segments of `w` and nothing else: a `?` for
      every other character. */
  function Shape(w: string): string {
    if w == "" then "" else [if w[0] == '/' then '/' else '?'] + Shape(w[1..])
  }

  lemma HeadToken(head: char, tail: string)
    requires head != '*'
    ensures FirstToken([head] + tail) == if head == '?' then AnyChar else Literal(head)
    ensures AfterFirst([head] + tail) == tail
  {
    var t := [head] + tail;
    assert t[0] == head && t[1..] == tail;
  }

  lemma ShapeToken(w: string)
    requires w != ""
    ensures Shape(w) != "" && AfterFirst(Shape(w)) == Shape(w[1..])
    ensures FirstToken(Shape(w)) == if w[0] == '/' then Literal('/') else AnyChar
  {
    var head, tail := if w[0] == '/' then '/' else '?', Shape(w[1..]);
    HeadToken(head, tail);
  }

  lemma {:induction false} ShapeMatches(w: string, path: string)
    ensures Glob(Shape(w), w, false)
    ensures Glob(Shape(w), path, true) ==> |path| == |w|
    decreases |w|
  {
    if w != "" {
      var rest := Shape(w[1..]);
      ShapeToken(w);
      assert TokenMatches(FirstToken(Shape(w)), w[..1], false);
      ShapeMatches(w[1..], "");
      if Glob(Shape(w), path, true) {
        var k :| 0 <= k <= |path| && TokenMatches(FirstToken(Shape(w)), path[..k], true)
                 && Glob(rest, path[k..], true);
        ShapeMatches(w[1..], path[k..]);
      }
    }
  }

  lemma StarStarMatches(path: string, newlines: bool)
    ensures Glob("**", path, newlines) <==> Crossable(path, newlines)
  {
    assert FirstToken("**") == AnyText && AfterFirst("**") == "";
    assert path[..|path|] == path && path[|path|..] == "";
    if Glob("**", path, newlines) {
      var k :| 0 <= k <= |path| && TokenMatches(AnyText, path[..k], newlines) && Glob("", path[k..], newlines);
      assert k == |path|;
    }
  }

  /** The compiled pattern agrees with the documented meaning for all patterns
      exactly on the paths without a newline: `.` stops at one, and `$` overlooks
      a final one. */
  lemma FaithfulExactlyWithoutNewlines(path: string)
    ensures (forall pattern :: PythonMatch(RegexText(pattern), path) <==> GlobMatch(pattern, path))
            <==> '\n' !in path
  {
    if '\n' !in path {
      forall pattern ensures PythonMatch(RegexText(pattern), path) <==> GlobMatch(pattern, path) {
        CompilerPreservesMeaning(pattern, path);
      }
    } else {
      var w := path[..|path| - 1];
      var odd := if path[|path| - 1] == '\n' && '\n' !in w then Shape(w) else "**";
      PythonDecides(odd, path);
      ShapeMatches(w, path);
      StarStarMatches(path, false);
      StarStarMatches(path, true);
      StarStarMatches(w, false);
      assert PythonMatch(RegexText(odd), path) != GlobMatch(odd, path);
    }
  }

  /* ---- Segment by segment ----------------------------------------------------------------- */

  /** A pattern as a list of segments: `**`, or a name pattern free of `/` and `**`. */
  datatype Segment = AnyDepth | Name(text: string)

  predicate Plain(t: string) {
    '/' !in t && forall i :: 0 <= i < |t| - 1 ==> t[i] != '*' || t[i + 1] != '*'
  }

  predicate PlainSegments(segs: seq<Segment>) {
    forall seg <- segs :: seg.Name? ==> seg.text != "" && Plain(seg.text)
  }

  function SegmentText(seg: Segment): string {
    if seg.AnyDepth? then "**" else seg.text
  }

  function PatternOf(segs: seq<Segment>): string {
    if segs == [] then ""
    else if |segs| == 1 then SegmentText(segs[0])
    else SegmentText(segs[0]) + "/" + PatternOf(segs[1..])
  }

  predicate PathNames(names: seq<string>) {
    forall name <- names :: name != "" && '/' !in name
  }

  function PathOf(names: seq<string>): string {
    if names == [] then ""
    else if |names| == 1 then names[0]
    else names[0] + "/" + PathOf(names[1..])
  }

  /** The meaning over whole path segments: an inner `**` stands for any number
      of segments, a final `**` for one or more, a name for one. */
  predicate SegmentsMatch(segs: seq<Segment>, names: seq<string>)
    decreases |segs| + |names|
  {
    if segs == [] then names == []
    else if segs[0].AnyDepth? then
      if |segs| == 1 then names != []
      else SegmentsMatch(segs[1..], names) || (names != [] && SegmentsMatch(segs, names[1..]))
    else names != [] && GlobMatch(segs[0].text, names[0]) && SegmentsMatch(segs[1..], names[1..])
  }

  lemma PlainToken(t: string, more: string)
    requires t != "" && Plain(t) && (more == "" || more[0] == '/')
    ensures var token := FirstToken(t + more);
            && token == FirstToken(t) && Width(token) == 1
            && AfterFirst(t) == t[1..] && AfterFirst(t + more) == t[1..] + more && Plain(t[1..])
            && forall x: string, newlines :: TokenMatches(token, x, newlines) ==> '/' !in x
  {
    assert forall i :: 0 <= i < |t| - 1 ==> t[1..][i] == t[i + 1];
    assert |t| > 1 ==> t[0] != '*' || t[1] != '*';
    assert !("**" <= t) && !("**" <= t + more);
    assert !("**/" <= t) && !("**/" <= t + more);
  }

  lemma FromHere(path: string, c: nat, k: nat)
    requires k <= c < |path| && path[c] == '/' && '/' !in path[..c]
    ensures path[k..][c - k] == '/' && '/' !in path[k..][..c - k]
    ensures path[k..][..c - k] == path[k..c] && path[k..][c - k + 1..] == path[c + 1..]
  {
    assert forall x :: x in path[k..c] ==> x in path[..c];
  }

  lemma SlashAlone(p: string, path: string, c: nat)
    requires c < |path| && path[c] == '/' && '/' !in path[..c]
    ensures Glob("/" + p, path, true) <==> Glob("", path[..c], true) && Glob(p, path[c + 1..], true)
  {
    var more := "/" + p;
    assert more[0] == '/' && more[1..] == p;
    assert AfterFirst(more) == p && FirstToken(more) == Literal('/');
    if c == 0 {
      assert path[..1] == "/";
    }
    if Glob(more, path, true) {
      var k :| 0 <= k <= |path| && TokenMatches(Literal('/'), path[..k], true) && Glob(p, path[k..], true);
      assert path[..k][0] == path[0];
    }
  }

  /** A plain name pattern before a slash takes exactly the first path segment. */
  lemma {:induction false} NameThenSlash(t: string, p: string, path: string, c: nat)
    requires Plain(t) && c < |path| && path[c] == '/' && '/' !in path[..c]
    ensures Glob(t + ("/" + p), path, true) <==> Glob(t, path[..c], true) && Glob(p, path[c + 1..], true)
    decreases |t|
  {
    if t == "" {
      assert t + ("/" + p) == "/" + p;
      SlashAlone(p, path, c);
    } else {
      hide Glob, FirstToken, Plain;
      PlainToken(t, "/" + p);
      forall k: nat | k <= c ensures RestTakesSegment(t, p, path, c, k) {
        FromHere(path, c, k);
        NameThenSlash(t[1..], p, path[k..], c - k);
      }
      NameStep(t, p, path, c);
    }
  }

  /** From `k` on, the rest of the name takes the rest of the segment. */
  ghost predicate RestTakesSegment(t: string, p: string, path: string, c: nat, k: nat)
    requires t != "" && k <= c < |path|
  {
    Glob(t[1..] + ("/" + p), path[k..], true) <==> Glob(t[1..], path[k..c], true) && Glob(p, path[c + 1..], true)
  }

  lemma NameStep(t: string, p: string, path: string, c: nat)
    requires t != "" && Plain(t) && c < |path| && path[c] == '/'
    requires forall k: nat | k <= c :: RestTakesSegment(t, p, path, c, k)
    ensures Glob(t + ("/" + p), path, true) <==> Glob(t, path[..c], true) && Glob(p, path[c + 1..], true)
  {
    hide Glob, FirstToken, TokenMatches, Plain;
    assert t + "" == t && t[1..] + "" == t[1..];
    CutBefore(t, "/" + p, path, c);
    CutBefore(t, "", path[..c], c);
    forall k: nat | k <= c ensures path[..c][..k] == path[..k] && path[..c][k..] == path[k..c] {
    }
    if k: nat :| k <= c && TokenMatches(FirstToken(t), path[..k], true) && Glob(t[1..] + ("/" + p), path[k..], true) {
      assert RestTakesSegment(t, p, path, c, k);
      assert TokenMatches(FirstToken(t), path[..c][..k], true) && Glob(t[1..] + "", path[..c][k..], true);
    }
    if k: nat :| k <= c && TokenMatches(FirstToken(t), path[..c][..k], true)
                 && Glob(t[1..] + "", path[..c][k..], true) {
      assert RestTakesSegment(t, p, path, c, k);
      assert Glob(p, path[c + 1..], true) ==>
               TokenMatches(FirstToken(t), path[..k], true) && Glob(t[1..] + ("/" + p), path[k..], true);
    }
  }

  lemma SlashInside(path: string, k: nat, c: nat)
    requires k <= |path| && c <= |path| && (c < |path| ==> path[c] == '/')
    ensures k > c ==> '/' in path[..k]
  {
    assert k > c ==> path[..k][c] == path[c];
  }

  /** The first token of a plain name ends no later than the first slash. */
  lemma CutBefore(t: string, more: string, path: string, c: nat)
    requires t != "" && Plain(t) && (more == "" || more[0] == '/')
    requires c <= |path| && (c < |path| ==> path[c] == '/')
    ensures Glob(t + more, path, true)
            <==> exists k: nat :: k <= c && TokenMatches(FirstToken(t), path[..k], true)
                                  && Glob(t[1..] + more, path[k..], true)
  {
    PlainToken(t, more);
    if Glob(t + more, path, true) {
      var k: nat :| k <= |path| && TokenMatches(FirstToken(t), path[..k], true)
                    && Glob(t[1..] + more, path[k..], true);
      SlashInside(path, k, c);
    }
  }

  lemma {:induction false} PlainNeedsNoSlash(t: string, path: string)
    requires Plain(t) && Glob(t, path, true)
    ensures '/' !in path
    decreases |t|
  {
    if t != "" {
      PlainToken(t, "");
      assert t + "" == t;
      var k :| 0 <= k <= |path| && TokenMatches(FirstToken(t), path[..k], true) && Glob(t[1..], path[k..], true);
      PlainNeedsNoSlash(t[1..], path[k..]);
      assert path == path[..k] + path[k..];
    }
  }

  lemma {:induction false} NeedsSlash(t: string, p: string, path: string)
    requires Plain(t) && Glob(t + ("/" + p), path, true)
    ensures '/' in path
    decreases |t|
  {
    var more := "/" + p;
    var whole := t + more;
    var k :| 0 <= k <= |path| && TokenMatches(FirstToken(whole), path[..k], true)
             && Glob(AfterFirst(whole), path[k..], true);
    if t == "" {
      assert whole == more && more[0] == '/';
      assert FirstToken(more) == Literal('/');
      assert path[..k][0] == path[0] == '/';
    } else {
      PlainToken(t, more);
      NeedsSlash(t[1..], p, path[k..]);
      assert path == path[..k] + path[k..];
    }
  }

  predicate SegmentStart(path: string, k: int) {
    0 <= k <= |path| && (k == 0 || path[k - 1] == '/')
  }

  /** `**` followed by `/` skips to the start of some segment. */
  lemma DirsSkip(p: string, path: string)
    ensures Glob("**/" + p, path, true) <==> exists k :: SegmentStart(path, k) && Glob(p, path[k..], true)
  {
    assert ("**/" + p)[3..] == p && FirstToken("**/" + p) == AnyDirs;
    forall k | 0 <= k <= |path| ensures TokenMatches(AnyDirs, path[..k], true) <==> SegmentStart(path, k) {
      assert k > 0 ==> path[..k][|path[..k]| - 1] == path[k - 1];
    }
    if k :| SegmentStart(path, k) && Glob(p, path[k..], true) {
      assert TokenMatches(AnyDirs, path[..k], true) && Glob(AfterFirst("**/" + p), path[k..], true);
    }
  }

  /** Without a slash to stop at, an inner `**` can only stand for nothing. */
  lemma DirsWithoutSlash(p: string, path: string)
    requires '/' !in path
    ensures Glob("**/" + p, path, true) <==> Glob(p, path, true)
  {
    DirsSkip(p, path);
    assert path[0..] == path;
    assert SegmentStart(path, 0);
  }

  /** With a first segment of length `c`, it stands for nothing or takes it. */
  lemma DirsTakeOne(p: string, path: string, c: nat)
    requires c < |path| && path[c] == '/' && '/' !in path[..c]
    ensures Glob("**/" + p, path, true) <==> Glob(p, path, true) || Glob("**/" + p, path[c + 1..], true)
  {
    var rest := path[c + 1..];
    DirsSkip(p, path);
    DirsSkip(p, rest);
    assert path[0..] == path && SegmentStart(path, 0);
    forall m | 0 <= m <= |rest|
      ensures rest[m..] == path[c + 1 + m..] && (SegmentStart(rest, m) <==> SegmentStart(path, c + 1 + m))
    {
    }
    forall i | 0 <= i < c ensures path[i] != '/' {
      assert path[i] == path[..c][i];
    }
    if k :| SegmentStart(path, k) && Glob(p, path[k..], true) && k > 0 {
      assert SegmentStart(rest, k - (c + 1));
    }
    if m :| SegmentStart(rest, m) && Glob(p, rest[m..], true) {
      assert SegmentStart(path, c + 1 + m);
    }
  }

  lemma {:induction false} NoNames(segs: seq<Segment>)
    requires segs != []
    ensures !SegmentsMatch(segs, [])
  {
    if segs[0].AnyDepth? && |segs| > 1 {
      NoNames(segs[1..]);
    }
  }

  lemma FirstSlash(names: seq<string>)
    requires PathNames(names) && |names| > 1
    ensures var path, c := PathOf(names), |names[0]|;
            && c < |path| && path[c] == '/' && path[..c] == names[0] && '/' !in path[..c]
            && path[c + 1..] == PathOf(names[1..])
  {
  }

  lemma TailsFit(segs: seq<Segment>, names: seq<string>)
    requires segs != [] && names != [] && PlainSegments(segs) && PathNames(names)
    ensures PlainSegments(segs[1..]) && PathNames(names[1..])
  {
    assert forall seg <- segs[1..] :: seg in segs;
    assert forall name <- names[1..] :: name in names;
  }

  lemma LoneName(names: seq<string>)
    requires PathNames(names) && |names| == 1
    ensures PathOf(names) == names[0] && '/' !in PathOf(names) && names[1..] == []
  {
  }

  /** The segment meaning of an inner `**`, given that of what comes after it. */
  lemma DepthMeaning(segs: seq<Segment>, names: seq<string>)
    requires |segs| > 1 && names != [] && segs[0].AnyDepth? && PathNames(names)
    requires GlobMatch(PatternOf(segs[1..]), PathOf(names)) <==> SegmentsMatch(segs[1..], names)
    requires |names| > 1 ==>
               (GlobMatch(PatternOf(segs), PathOf(names[1..])) <==> SegmentsMatch(segs, names[1..]))
    ensures GlobMatch(PatternOf(segs), PathOf(names)) <==> SegmentsMatch(segs, names)
  {
    var p := PatternOf(segs[1..]);
    assert PatternOf(segs) == "**/" + p;
    hide Glob, PatternOf, PathOf, PathNames;
    if |names| > 1 {
      FirstSlash(names);
      DirsTakeOne(p, PathOf(names), |names[0]|);
    } else {
      LoneName(names);
      DirsWithoutSlash(p, names[0]);
      NoNames(segs);
    }
  }

  /** The segment meaning of a name, given that of what comes after it. */
  lemma NameMeaning(segs: seq<Segment>, names: seq<string>)
    requires |segs| > 1 && names != [] && segs[0].Name? && Plain(segs[0].text) && PathNames(names)
    requires |names| > 1 ==>
               (GlobMatch(PatternOf(segs[1..]), PathOf(names[1..])) <==> SegmentsMatch(segs[1..], names[1..]))
    ensures GlobMatch(PatternOf(segs), PathOf(names)) <==> SegmentsMatch(segs, names)
  {
    var t, p := segs[0].text, PatternOf(segs[1..]);
    assert PatternOf(segs) == t + ("/" + p);
    hide Glob, PatternOf, PathOf, PathNames;
    if |names| > 1 {
      FirstSlash(names);
      NameThenSlash(t, p, PathOf(names), |names[0]|);
    } else {
      LoneName(names);
      NoNames(segs[1..]);
      if Glob(t + ("/" + p), names[0], true) {
        NeedsSlash(t, p, names[0]);
      }
    }
  }

  lemma LastMeaning(seg: Segment, names: seq<string>)
    requires names != [] && PlainSegments([seg]) && PathNames(names)
    ensures GlobMatch(PatternOf([seg]), PathOf(names)) <==> SegmentsMatch([seg], names)
  {
    var segs := [seg];
    assert segs[0] == seg && segs[1..] == [];
    if seg.AnyDepth? {
      StarStarMatches(PathOf(names), true);
    } else if |names| > 1 {
      FirstSlash(names);
      assert PathOf(names)[|names[0]|] in PathOf(names);
      if Glob(seg.text, PathOf(names), true) {
        PlainNeedsNoSlash(seg.text, PathOf(names));
      }
    } else {
      LoneName(names);
    }
  }

  /** On paths made of non-empty names, a pattern at segment boundaries matches
      segment by segment: an inner `**` is any number of whole segments. */
  lemma {:induction false} SegmentMeaning(segs: seq<Segment>, names: seq<string>)
    requires segs != [] && names != [] && PlainSegments(segs) && PathNames(names)
    ensures GlobMatch(PatternOf(segs), PathOf(names)) <==> SegmentsMatch(segs, names)
    decreases |segs| + |names|
  {
    TailsFit(segs, names);
    if |segs| == 1 {
      assert segs == [segs[0]];
      LastMeaning(segs[0], names);
    } else if segs[0].AnyDepth? {
      SegmentMeaning(segs[1..], names);
      if |names| > 1 {
        SegmentMeaning(segs, names[1..]);
      }
      DepthMeaning(segs, names);
    } else {
      if |names| > 1 {
        SegmentMeaning(segs[1..], names[1..]);
      }
      NameMeaning(segs, names);
    }
  }
}
