/** The part of Python's `re` that the scope guard's compiled globs use: its
    concrete syntax, and what a pattern matches, defined without reference to
    globs. */
module Regex {
  import opened Wrappers

  datatype CharClass = One(c: char) | Not(c: char) {
    predicate Has(x: char) {
      match this
      case One(c) => x == c
      case Not(c) => x != c
    }
  }

  datatype Node =
    | Bol | Eol
    | Class(cls: CharClass)
    | Star(body: Node)
    | Opt(body: Node)
    | Group(items: seq<Node>)

  /* ---- Meaning ------------------------------------------------------------------ */

  /** `$` matches at the very end and also just before a final newline. */
  predicate AtEnd(s: string, i: nat) {
    i == |s| || (i + 1 == |s| && s[i] == '\n')
  }

  /** `n` can match exactly the stretch `s[i..j]`. */
  ghost predicate Matches(n: Node, s: string, i: nat, j: nat)
    requires i <= j <= |s|
    decreases n, 2, 0
  {
    match n
    case Bol => i == j == 0
    case Eol => i == j && AtEnd(s, i)
    case Class(cls) => j == i + 1 && cls.Has(s[i])
    case Opt(body) => i == j || Matches(body, s, i, j)
    case Star(body) => Repeats(body, s, i, j)
    case Group(items) => MatchesAll(items, s, i, j)
  }

  ghost predicate Repeats(n: Node, s: string, i: nat, j: nat)
    requires i <= j <= |s|
    decreases n, 3, j - i
  {
    i == j || exists k: nat :: i < k <= j && Matches(n, s, i, k) && Repeats(n, s, k, j)
  }

  ghost predicate MatchesAll(items: seq<Node>, s: string, i: nat, j: nat)
    requires i <= j <= |s|
    decreases items, 1, 0
  {
    if items == [] then i == j
    else exists k: nat :: i <= k <= j && Matches(items[0], s, i, k) && MatchesAll(items[1..], s, k, j)
  }

  lemma MatchesSplit(items: seq<Node>, s: string, i: nat, j: nat) returns (k: nat)
    requires i <= j <= |s| && items != [] && MatchesAll(items, s, i, j)
    ensures i <= k <= j && Matches(items[0], s, i, k) && MatchesAll(items[1..], s, k, j)
  {
    k :| i <= k <= j && Matches(items[0], s, i, k) && MatchesAll(items[1..], s, k, j);
  }

  lemma MatchesJoin(n: Node, rest: seq<Node>, s: string, i: nat, k: nat, j: nat)
    requires i <= k <= j <= |s| && Matches(n, s, i, k) && MatchesAll(rest, s, k, j)
    ensures MatchesAll([n] + rest, s, i, j)
  {
    var items := [n] + rest;
    assert items[0] == n && items[1..] == rest;
    assert Matches(items[0], s, i, k) && MatchesAll(items[1..], s, k, j);
  }

  lemma MatchesCons(n: Node, rest: seq<Node>, s: string, i: nat, j: nat)
    requires i <= j <= |s|
    ensures MatchesAll([n] + rest, s, i, j)
            <==> exists k: nat :: i <= k <= j && Matches(n, s, i, k) && MatchesAll(rest, s, k, j)
  {
    var items := [n] + rest;
    assert items[0] == n && items[1..] == rest;
    if MatchesAll(items, s, i, j) {
      var k := MatchesSplit(items, s, i, j);
      assert Matches(n, s, i, k) && MatchesAll(rest, s, k, j);
    }
    if k: nat :| i <= k <= j && Matches(n, s, i, k) && MatchesAll(rest, s, k, j) {
      MatchesJoin(n, rest, s, i, k, j);
    }
  }

  lemma MatchesOne(n: Node, s: string, i: nat, j: nat)
    requires i <= j <= |s|
    ensures MatchesAll([n], s, i, j) <==> Matches(n, s, i, j)
  {
    assert [n] == [n] + [];
    MatchesCons(n, [], s, i, j);
    if Matches(n, s, i, j) {
      assert MatchesAll([], s, j, j);
    }
  }

  /* ---- Concrete syntax ------------------------------------------------------------ */

  predicate IsAlnum(c: char) {
    'a' <= c <= 'z' || 'A' <= c <= 'Z' || '0' <= c <= '9'
  }

  predicate IsQuantifier(c: char) {
    c in {'*', '?', '+', '{'}
  }

  /** One atom at the front of `t`, and the text after it. */
  function ParseAtom(t: string): (r: Option<(Node, string)>)
    requires t != ""
    ensures r.Some? ==> |r.value.1| < |t|
    decreases |t|, 0
  {
    if t[0] == '^' then Some((Bol, t[1..]))
    else if t[0] == '$' then Some((Eol, t[1..]))
    else if t[0] == '.' then Some((Class(Not('\n')), t[1..]))
    else if t[0] == '\\' then
      if |t| > 1 && !IsAlnum(t[1]) then Some((Class(One(t[1])), t[2..])) else None
    else if t[0] == '[' then
      if |t| > 3 && t[1] == '^' && t[2] !in {']', '\\', '['} && t[3] == ']'
      then Some((Class(Not(t[2])), t[4..])) else None
    else if t[0] == '(' then
      if |t| > 2 && t[1] == '?' && t[2] == ':' then
        match ParseItems(t[3..])
        case None => None
        case Some((items, rest)) =>
          if rest != "" && rest[0] == ')' then Some((Group(items), rest[1..])) else None
      else None
    else if IsQuantifier(t[0]) || t[0] in {')', '|'} then None
    else Some((Class(One(t[0])), t[1..]))
  }

  /** A quantifier after an atom; stacked quantifiers are outside this subset. */
  function ParsePostfix(atom: Node, t: string): (r: Option<(Node, string)>)
    ensures r.Some? ==> |r.value.1| <= |t|
  {
    if t == "" || !IsQuantifier(t[0]) then Some((atom, t))
    else if |t| > 1 && IsQuantifier(t[1]) then None
    else if t[0] == '*' then Some((Star(atom), t[1..]))
    else if t[0] == '?' then Some((Opt(atom), t[1..]))
    else None
  }

  /** Items up to the end of the text or an unmatched closing parenthesis. */
  function ParseItems(t: string): (r: Option<(seq<Node>, string)>)
    ensures r.Some? ==> |r.value.1| <= |t|
    decreases |t|, 1
  {
    if t == "" || t[0] == ')' then Some(([], t))
    else
      match ParseAtom(t)
      case None => None
      case Some((atom, rest)) =>
        match ParsePostfix(atom, rest)
        case None => None
        case Some((item, rest')) =>
          match ParseItems(rest')
          case None => None
          case Some((items, rest'')) => Some(([item] + items, rest''))
  }

  lemma ItemsCons(t: string, atom: Node, rest: string, item: Node, rest': string, items: seq<Node>, end: string)
    requires t != "" && t[0] != ')'
    requires ParseAtom(t) == Some((atom, rest))
    requires ParsePostfix(atom, rest) == Some((item, rest'))
    requires ParseItems(rest') == Some((items, end))
    ensures ParseItems(t) == Some(([item] + items, end))
  {
  }

  /** `re.compile(text)`: None is a syntax error (or beyond this subset). */
  function Compile(text: string): Option<seq<Node>> {
    match ParseItems(text)
    case None => None
    case Some((items, rest)) => if rest == "" then Some(items) else None
  }

  /** `re.compile(text).match(s) is not None` */
  ghost predicate PythonMatch(text: string, s: string) {
    Compile(text).Some? && exists j: nat :: 0 <= j <= |s| && MatchesAll(Compile(text).value, s, 0, j)
  }
}
