/** The secret redactor (persistence/artifacts.py): five patterns, substituted one
    after the other. Bytes are written as characters of the same code. */
module Redaction {
  import opened Wrappers

  /* ---- Patterns ----------------------------------------------------------------------- */

  /** `Token`: one character of each class in `prefix`, then `min` characters of
      `tail`, or at least `min` and as many as there are if `greedy`.
      `Block`: an opening line, anything, and the nearest closing line after it. */
  datatype Pattern =
    | Token(prefix: seq<set<char>>, tail: set<char>, min: nat, greedy: bool)
    | Block(openings: seq<string>, closings: seq<string>)

  const UPPER_DIGITS: set<char> := set c: char | 'A' <= c <= 'Z' || '0' <= c <= '9'
  const ALNUM: set<char> := set c: char | 'A' <= c <= 'Z' || 'a' <= c <= 'z' || '0' <= c <= '9'

  function Exactly(s: string): seq<set<char>> {
    seq(|s|, i requires 0 <= i < |s| => {s[i]})
  }

  function KeyLine(word: string, algorithm: string): string {
    "-----" + word + (algorithm + "PRIVATE KEY-----")
  }

  function KeyLines(word: string): seq<string> {
    [KeyLine(word, "RSA "), KeyLine(word, "EC "), KeyLine(word, "OPENSSH "), KeyLine(word, "")]
  }

  const SECRET_PATTERNS: seq<Pattern> :=
    [Token(Exactly("sk-"), ALNUM, 20, true),
     Token(Exactly("ghp_"), ALNUM, 36, false),
     Token(Exactly("AKIA"), UPPER_DIGITS, 16, false),
     Token(Exactly("xox") + [{'b', 'a', 'p', 'r', 's'}] + Exactly("-"), ALNUM + {'-'}, 10, true),
     Block(KeyLines("BEGIN "), KeyLines("END "))]

  const MARK := "[REDACTED]"

  predicate Occurs(s: string, i: nat, w: string) {
    i + |w| <= |s| && forall j: nat :: j < |w| ==> s[i + j] == w[j]
  }

  function WindowLength(p: Pattern): nat
    requires p.Token?
  {
    |p.prefix| + p.min
  }

  /** The classes of the shortest match of a token, position by position. */
  function ClassAt(p: Pattern, j: nat): set<char>
    requires p.Token?
  {
    if j < |p.prefix| then p.prefix[j] else p.tail
  }

  /** A match of `p` starts at `i`. */
  ghost predicate Hit(p: Pattern, s: string, i: nat) {
    match p
    case Token(_, _, _, _) =>
      && i + WindowLength(p) <= |s|
      && forall j: nat :: j < WindowLength(p) ==> s[i + j] in ClassAt(p, j)
    case Block(openings, closings) =>
      exists o, c, k: nat :: o in openings && c in closings && Occurs(s, i, o) && i + |o| <= k && Occurs(s, k, c)
  }

  ghost predicate Contains(p: Pattern, s: string) {
    exists i: nat :: Hit(p, s, i)
  }

  /* ---- Matching ------------------------------------------------------------------------- */

  function RunEnd(tail: set<char>, s: string, i: nat): (e: nat)
    requires i <= |s|
    ensures i <= e <= |s|
    ensures forall j :: i <= j < e ==> s[j] in tail
    ensures e < |s| ==> s[e] !in tail
    decreases |s| - i
  {
    if i < |s| && s[i] in tail then RunEnd(tail, s, i + 1) else i
  }

  predicate PrefixAt(prefix: seq<set<char>>, s: string, i: nat) {
    i + |prefix| <= |s| && forall j: nat :: j < |prefix| ==> s[i + j] in prefix[j]
  }

  /** The first of `words` that occurs at `i`, by its length. */
  function WordAt(words: seq<string>, s: string, i: nat): (n: Option<nat>)
    ensures n.Some? ==> i + n.value <= |s|
  {
    if words == [] then None
    else if Occurs(s, i, words[0]) then Some(|words[0]|)
    else WordAt(words[1..], s, i)
  }

  /** The end of the nearest of `closings` from `k` on. */
  function NearestEnd(closings: seq<string>, s: string, k: nat): (e: Option<nat>)
    ensures e.Some? ==> k <= e.value <= |s|
    decreases |s| - k
  {
    if WordAt(closings, s, k).Some? then Some(k + WordAt(closings, s, k).value)
    else if k >= |s| then None
    else NearestEnd(closings, s, k + 1)
  }

  /** The opening lines are tried in order, each with its nearest closing line. */
  function BlockEnd(openings: seq<string>, closings: seq<string>, s: string, i: nat): (e: Option<nat>)
    ensures e.Some? ==> i <= e.value <= |s|
  {
    if openings == [] then None
    else if Occurs(s, i, openings[0]) && NearestEnd(closings, s, i + |openings[0]|).Some? then
      NearestEnd(closings, s, i + |openings[0]|)
    else BlockEnd(openings[1..], closings, s, i)
  }

  /** Where the match that starts at `i` ends, if one does. */
  function MatchEnd(p: Pattern, s: string, i: nat): Option<nat> {
    match p
    case Token(prefix, tail, min, greedy) =>
      if !PrefixAt(prefix, s, i) then None
      else
        var start := i + |prefix|;
        var end := RunEnd(tail, s, start);
        if end - start < min then None else Some(if greedy then end else start + min)
    case Block(openings, closings) => BlockEnd(openings, closings, s, i)
  }

  lemma {:induction false} RunCovers(tail: set<char>, s: string, i: nat, e: nat)
    requires i <= e <= |s| && forall j :: i <= j < e ==> s[j] in tail
    ensures e <= RunEnd(tail, s, i)
    decreases e - i
  {
    if i < e {
      RunCovers(tail, s, i + 1, e);
    }
  }

  /** The matcher finds a match exactly where there is one. */
  lemma MatchIffHit(p: Pattern, s: string, i: nat)
    ensures MatchEnd(p, s, i).Some? <==> Hit(p, s, i)
  {
    match p
    case Token(prefix, tail, min, greedy) => TokenIffHit(p, s, i);
    case Block(openings, closings) => BlockIffHit(p, s, i);
  }

  lemma TokenIffHit(p: Pattern, s: string, i: nat)
    requires p.Token?
    ensures MatchEnd(p, s, i).Some? <==> Hit(p, s, i)
  {
    var start := i + |p.prefix|;
    if Hit(p, s, i) {
      forall j: nat | j < |p.prefix| ensures s[i + j] in p.prefix[j] {
        assert s[i + j] in ClassAt(p, j);
      }
      forall j | start <= j < start + p.min ensures s[j] in p.tail {
        assert s[i + (j - i)] in ClassAt(p, j - i);
      }
      RunCovers(p.tail, s, start, start + p.min);
    }
  }

  lemma {:induction false} WordFound(words: seq<string>, s: string, i: nat, w: string)
    requires w in words && Occurs(s, i, w)
    ensures WordAt(words, s, i).Some?
  {
    if words[0] != w && !Occurs(s, i, words[0]) {
      WordFound(words[1..], s, i, w);
    }
  }

  lemma {:induction false} WordOf(words: seq<string>, s: string, i: nat) returns (w: string)
    requires WordAt(words, s, i).Some?
    ensures w in words && Occurs(s, i, w) && WordAt(words, s, i) == Some(|w|)
  {
    if Occurs(s, i, words[0]) {
      w := words[0];
    } else {
      w := WordOf(words[1..], s, i);
    }
  }

  lemma {:induction false} ClosingFound(closings: seq<string>, s: string, k: nat, j: nat, c: string)
    requires k <= j && c in closings && Occurs(s, j, c)
    ensures NearestEnd(closings, s, k).Some?
    decreases j - k
  {
    hide Occurs;
    if k == j {
      WordFound(closings, s, j, c);
    } else {
      assert j <= |s| by {
        OccursInside(s, j, c);
      }
      ClosingFound(closings, s, k + 1, j, c);
    }
  }

  lemma OccursInside(s: string, j: nat, w: string)
    requires Occurs(s, j, w)
    ensures j + |w| <= |s|
  {
  }

  /** The closing line a block ends with. */
  lemma {:induction false} ClosingLine(closings: seq<string>, s: string, k: nat) returns (j: nat, c: string)
    requires NearestEnd(closings, s, k).Some?
    ensures k <= j && c in closings && Occurs(s, j, c) && NearestEnd(closings, s, k) == Some(j + |c|)
    decreases |s| - k
  {
    hide Occurs;
    if WordAt(closings, s, k).Some? {
      j := k;
      c := WordOf(closings, s, k);
    } else {
      j, c := ClosingLine(closings, s, k + 1);
    }
  }

  lemma {:induction false} OpeningFound(openings: seq<string>, closings: seq<string>, s: string, i: nat, o: string)
    requires o in openings && Occurs(s, i, o) && NearestEnd(closings, s, i + |o|).Some?
    ensures BlockEnd(openings, closings, s, i).Some?
  {
    hide Occurs, NearestEnd;
    if openings[0] != o {
      OpeningFound(openings[1..], closings, s, i, o);
    }
  }

  /** The opening line a block starts with. */
  lemma {:induction false} OpeningLine(openings: seq<string>, closings: seq<string>, s: string,
                                       i: nat) returns (o: string)
    requires BlockEnd(openings, closings, s, i).Some?
    ensures o in openings && Occurs(s, i, o) && NearestEnd(closings, s, i + |o|) == BlockEnd(openings, closings, s, i)
  {
    hide Occurs, NearestEnd;
    if Occurs(s, i, openings[0]) && NearestEnd(closings, s, i + |openings[0]|).Some? {
      o := openings[0];
    } else {
      o := OpeningLine(openings[1..], closings, s, i);
    }
  }

  lemma BlockIffHit(p: Pattern, s: string, i: nat)
    requires p.Block?
    ensures MatchEnd(p, s, i).Some? <==> Hit(p, s, i)
  {
    hide Occurs, NearestEnd, BlockEnd;
    if Hit(p, s, i) {
      var o, c, k: nat :| o in p.openings && c in p.closings && Occurs(s, i, o) && i + |o| <= k && Occurs(s, k, c);
      ClosingFound(p.closings, s, i + |o|, k, c);
      OpeningFound(p.openings, p.closings, s, i, o);
    }
    if MatchEnd(p, s, i).Some? {
      var o := OpeningLine(p.openings, p.closings, s, i);
      var k, c := ClosingLine(p.closings, s, i + |o|);
      assert Occurs(s, i, o) && Occurs(s, k, c);
    }
  }

  /* ---- Substitution ------------------------------------------------------------------------ */

  predicate Unmarked(w: string) {
    '[' !in w && ']' !in w
  }

  predicate Wide(words: seq<string>) {
    forall w <- words :: |w| >= |MARK| && Unmarked(w)
  }

  /** The two facts about a pattern that make redaction work: no class of it has a
      bracket, and no window it looks for fits into the mark. */
  predicate Safe(p: Pattern) {
    match p
    case Token(prefix, tail, min, _) =>
      WindowLength(p) >= |MARK| && '[' !in tail && ']' !in tail
      && forall j :: 0 <= j < |prefix| ==> '[' !in prefix[j] && ']' !in prefix[j]
    case Block(openings, closings) => Wide(openings) && Wide(closings)
  }

  lemma MatchesAreLong(p: Pattern, s: string, i: nat)
    requires Safe(p) && MatchEnd(p, s, i).Some?
    ensures i + |MARK| <= MatchEnd(p, s, i).value <= |s|
  {
    if p.Block? {
      BlockIsLong(p.openings, p.closings, s, i);
    }
  }

  lemma {:induction false} BlockIsLong(openings: seq<string>, closings: seq<string>, s: string, i: nat)
    requires Wide(openings) && BlockEnd(openings, closings, s, i).Some?
    ensures i + |MARK| <= BlockEnd(openings, closings, s, i).value
  {
    if !(Occurs(s, i, openings[0]) && NearestEnd(closings, s, i + |openings[0]|).Some?) {
      assert forall w <- openings[1..] :: w in openings;
      BlockIsLong(openings[1..], closings, s, i);
    } else {
      assert openings[0] in openings;
    }
  }

  /** `pattern.subn` from position `i` on: the leftmost match is replaced by the
      mark, and the scan goes on after it. */
  function Sub(p: Pattern, s: string, i: nat): string
    requires Safe(p)
    decreases |s| - i
  {
    if i >= |s| then ""
    else if MatchEnd(p, s, i).Some? then
      MatchesAreLong(p, s, i);
      MARK + Sub(p, s, MatchEnd(p, s, i).value)
    else [s[i]] + Sub(p, s, i + 1)
  }

  /** `u` is `t` without its first `a` characters. */
  ghost predicate Tail(t: string, a: nat, u: string) {
    |t| == a + |u| && forall j: nat :: j < |u| ==> t[a + j] == u[j]
  }

  lemma TailOfTail(t: string, a: nat, u: string, b: nat, v: string)
    requires Tail(t, a, u) && Tail(u, b, v)
    ensures Tail(t, a + b, v)
  {
    forall j: nat | j < |v| ensures t[a + b + j] == v[j] {
      assert u[b + j] == v[j];
    }
  }

  lemma SubStep(p: Pattern, s: string, i: nat)
    requires Safe(p) && i < |s|
    ensures MatchEnd(p, s, i).None? ==> Tail(Sub(p, s, i), 1, Sub(p, s, i + 1)) && Sub(p, s, i)[0] == s[i]
    ensures MatchEnd(p, s, i).Some? ==>
              && i < MatchEnd(p, s, i).value <= |s|
              && Tail(Sub(p, s, i), |MARK|, Sub(p, s, MatchEnd(p, s, i).value))
              && Sub(p, s, i)[0] == '[' && Sub(p, s, i)[9] == ']'
  {
    hide MatchEnd, Safe;
    if MatchEnd(p, s, i).Some? {
      MatchesAreLong(p, s, i);
    }
  }

  /** As long as no mark appears, the output is the input. */
  lemma {:induction false} PlainOutputIsCopied(p: Pattern, s: string, i: nat, n: nat)
    requires Safe(p) && i <= |s| && n <= |Sub(p, s, i)|
    requires forall j: nat :: j < n ==> Sub(p, s, i)[j] != '['
    ensures i + n <= |s|
    ensures forall j: nat :: j < n ==> Sub(p, s, i)[j] == s[i + j]
    ensures Tail(Sub(p, s, i), n, Sub(p, s, i + n))
    decreases n
  {
    hide MatchEnd, Safe, Sub;
    var t := Sub(p, s, i);
    if n > 0 {
      assert i < |s| by {
        SubEnds(p, s, i);
      }
      SubStep(p, s, i);
      var rest := Sub(p, s, i + 1);
      assert t[0] != '[';
      forall j: nat | j < n - 1 ensures rest[j] != '[' {
        assert t[1 + j] == rest[j];
      }
      PlainOutputIsCopied(p, s, i + 1, n - 1);
      TailOfTail(t, 1, rest, n - 1, Sub(p, s, i + n));
      forall j: nat | 0 < j < n ensures t[j] == s[i + j] {
        assert t[1 + (j - 1)] == rest[j - 1] == s[i + 1 + (j - 1)];
      }
    }
  }

  lemma SubEnds(p: Pattern, s: string, i: nat)
    requires Safe(p)
    ensures i >= |s| ==> Sub(p, s, i) == ""
  {
  }

  ghost predicate Plain(t: string, a: nat, n: nat)
    requires a + n <= |t|
  {
    forall j: nat :: a <= j < a + n ==> t[j] != '[' && t[j] != ']'
  }

  /** `n` characters at `a` in the output and at `b` in the input are the same, the
      scan found no match at `b`, and was at `b + n` after them. */
  ghost predicate Copied(p: Pattern, s: string, b: nat, t: string, a: nat, n: nat)
    requires Safe(p)
  {
    && b + n <= |s| && a + n <= |t|
    && (forall x: nat :: a <= x < a + n ==> t[x] == s[b + (x - a)])
    && MatchEnd(p, s, b).None?
    && Tail(t, a + n, Sub(p, s, b + n))
  }

  lemma CopiedFurther(p: Pattern, s: string, b: nat, t: string, k: nat, u: string, a: nat, n: nat)
    requires Safe(p) && Tail(t, k, u) && Copied(p, s, b, u, a, n)
    ensures Copied(p, s, b, t, k + a, n)
  {
    hide MatchEnd, Safe, Sub;
    TailOfTail(t, k, u, a + n, Sub(p, s, b + n));
    forall x: nat | k + a <= x < k + a + n ensures t[x] == s[b + (x - (k + a))] {
      assert t[k + (x - k)] == u[x - k];
    }
  }

  lemma PlainFurther(t: string, k: nat, u: string, a: nat, n: nat)
    requires Tail(t, k, u) && k <= a && a + n <= |t| && Plain(t, a, n)
    ensures a - k + n <= |u| && Plain(u, a - k, n)
  {
    forall j: nat | a - k <= j < a - k + n ensures u[j] != '[' && u[j] != ']' {
      assert t[k + j] == u[j];
    }
  }

  /** A stretch of output without brackets, too long to fit into a mark, is a
      stretch of input the scan went over and found no match at the start of. */
  lemma {:induction false} WindowComesFromInput(p: Pattern, s: string, i: nat, a: nat, n: nat) returns (b: nat)
    requires Safe(p) && i <= |s| && n >= |MARK| && a + n <= |Sub(p, s, i)| && Plain(Sub(p, s, i), a, n)
    ensures i <= b && Copied(p, s, b, Sub(p, s, i), a, n)
    decreases |s| - i
  {
    hide MatchEnd, Safe, Sub;
    var t := Sub(p, s, i);
    SubEnds(p, s, i);
    SubStep(p, s, i);
    if MatchEnd(p, s, i).Some? {
      var e := MatchEnd(p, s, i).value;
      assert a >= |MARK| by {
        assert t[9] == ']';
      }
      PlainFurther(t, |MARK|, Sub(p, s, e), a, n);
      b := WindowComesFromInput(p, s, e, a - |MARK|, n);
      CopiedFurther(p, s, b, t, |MARK|, Sub(p, s, e), a - |MARK|, n);
    } else if a > 0 {
      PlainFurther(t, 1, Sub(p, s, i + 1), a, n);
      b := WindowComesFromInput(p, s, i + 1, a - 1, n);
      CopiedFurther(p, s, b, t, 1, Sub(p, s, i + 1), a - 1, n);
    } else {
      PlainOutputIsCopied(p, s, i, n);
      b := i;
    }
  }

  /* ---- What a substitution removes and what it keeps ------------------------------------------ */

  /** The place in the input a match in the output comes from; the scan found no
      match of `p` there. */
  lemma HitComesFromInput(p: Pattern, q: Pattern, s: string, a: nat) returns (b: nat)
    requires Safe(p) && Safe(q) && Hit(q, Sub(p, s, 0), a)
    ensures Hit(q, s, b) && MatchEnd(p, s, b).None?
  {
    match q
    case Token(_, _, _, _) => b := TokenComesFromInput(p, q, s, a);
    case Block(_, _) => b := BlockComesFromInput(p, q, s, a);
  }

  lemma TokenComesFromInput(p: Pattern, q: Pattern, s: string, a: nat) returns (b: nat)
    requires Safe(p) && Safe(q) && q.Token? && Hit(q, Sub(p, s, 0), a)
    ensures Hit(q, s, b) && MatchEnd(p, s, b).None?
  {
    hide MatchEnd, Sub;
    var t, n := Sub(p, s, 0), WindowLength(q);
    forall k: nat | a <= k < a + n ensures t[k] != '[' && t[k] != ']' {
      assert t[a + (k - a)] in ClassAt(q, k - a);
    }
    b := WindowComesFromInput(p, s, 0, a, n);
    forall j: nat | j < n ensures s[b + j] in ClassAt(q, j) {
      assert t[a + j] == s[b + j];
    }
  }

  lemma WordIsPlain(t: string, a: nat, w: string)
    requires Occurs(t, a, w) && Unmarked(w)
    ensures Plain(t, a, |w|)
  {
    forall k: nat | a <= k < a + |w| ensures t[k] != '[' && t[k] != ']' {
      assert t[a + (k - a)] == w[k - a] && w[k - a] in w;
    }
  }

  lemma WordIsCopied(p: Pattern, s: string, b: nat, t: string, a: nat, w: string)
    requires Safe(p) && Occurs(t, a, w) && Copied(p, s, b, t, a, |w|)
    ensures Occurs(s, b, w)
  {
    forall j: nat | j < |w| ensures s[b + j] == w[j] {
      assert t[a + j] == s[b + j];
    }
  }

  lemma BlockComesFromInput(p: Pattern, q: Pattern, s: string, a: nat) returns (b: nat)
    requires Safe(p) && Safe(q) && q.Block? && Hit(q, Sub(p, s, 0), a)
    ensures Hit(q, s, b) && MatchEnd(p, s, b).None?
  {
    hide MatchEnd, Sub;
    var t := Sub(p, s, 0);
    var o, c, k: nat :| o in q.openings && c in q.closings && Occurs(t, a, o) && a + |o| <= k && Occurs(t, k, c);
    WordIsPlain(t, a, o);
    b := WindowComesFromInput(p, s, 0, a, |o|);
    WordIsCopied(p, s, b, t, a, o);
    var u, k' := Sub(p, s, b + |o|), k - (a + |o|);
    assert Tail(t, a + |o|, u);
    forall j: nat | j < |c| ensures k' + j < |u| && u[k' + j] == c[j] {
      assert t[k + j] == c[j];
      assert t[(a + |o|) + (k' + j)] == u[k' + j];
    }
    WordIsPlain(u, k', c);
    var d := WindowComesFromInput(p, s, b + |o|, k', |c|);
    WordIsCopied(p, s, d, u, k', c);
  }

  /** After its substitution a pattern is gone. */
  lemma SubRemoves(p: Pattern, s: string)
    requires Safe(p)
    ensures !Contains(p, Sub(p, s, 0))
  {
    forall a: nat ensures !Hit(p, Sub(p, s, 0), a) {
      if Hit(p, Sub(p, s, 0), a) {
        var b := HitComesFromInput(p, p, s, a);
        MatchIffHit(p, s, b);
        assert false;
      }
    }
  }

  /** No substitution brings about a match that was not there before. */
  lemma SubCreatesNothing(p: Pattern, q: Pattern, s: string)
    requires Safe(p) && Safe(q) && Contains(q, Sub(p, s, 0))
    ensures Contains(q, s)
  {
    var a: nat :| Hit(q, Sub(p, s, 0), a);
    var b := HitComesFromInput(p, q, s, a);
  }

  lemma {:induction false} SubIdentity(p: Pattern, s: string, i: nat)
    requires Safe(p) && i <= |s| && !Contains(p, s)
    ensures Sub(p, s, i) == s[i..]
    decreases |s| - i
  {
    if i < |s| {
      MatchIffHit(p, s, i);
      SubIdentity(p, s, i + 1);
    }
  }

  lemma KeyLineIsSafe(word: string, algorithm: string)
    requires Unmarked(word) && Unmarked(algorithm)
    ensures |KeyLine(word, algorithm)| >= |MARK| && Unmarked(KeyLine(word, algorithm))
  {
    var rest := algorithm + "PRIVATE KEY-----";
    assert Unmarked("-----") && Unmarked("PRIVATE KEY-----");
    assert Unmarked(rest);
  }

  lemma KeyLinesAreWide(word: string)
    requires Unmarked(word)
    ensures Wide(KeyLines(word))
  {
    assert Unmarked("RSA ") && Unmarked("EC ") && Unmarked("OPENSSH ") && Unmarked("");
    KeyLineIsSafe(word, "RSA ");
    KeyLineIsSafe(word, "EC ");
    KeyLineIsSafe(word, "OPENSSH ");
    KeyLineIsSafe(word, "");
  }

  lemma ExactlyIsSafe(s: string)
    requires Unmarked(s)
    ensures |Exactly(s)| == |s|
    ensures forall j :: 0 <= j < |s| ==> '[' !in Exactly(s)[j] && ']' !in Exactly(s)[j]
  {
    forall j | 0 <= j < |s| ensures '[' !in Exactly(s)[j] && ']' !in Exactly(s)[j] {
      assert s[j] in s;
    }
  }

  lemma PatternsAreSafe()
    ensures forall p <- SECRET_PATTERNS :: Safe(p)
  {
    hide KeyLines, Exactly;
    assert Unmarked("BEGIN ") && Unmarked("END ");
    KeyLinesAreWide("BEGIN ");
    KeyLinesAreWide("END ");
    assert Unmarked("sk-") && Unmarked("ghp_") && Unmarked("AKIA") && Unmarked("xox") && Unmarked("-");
    ExactlyIsSafe("sk-");
    ExactlyIsSafe("ghp_");
    ExactlyIsSafe("AKIA");
    ExactlyIsSafe("xox");
    ExactlyIsSafe("-");
    assert '[' !in ALNUM && ']' !in ALNUM && '[' !in UPPER_DIGITS && ']' !in UPPER_DIGITS;
    hide ALNUM, UPPER_DIGITS, Unmarked;
    assert Safe(SECRET_PATTERNS[0]) && Safe(SECRET_PATTERNS[1]) && Safe(SECRET_PATTERNS[2]);
    assert Safe(SECRET_PATTERNS[3]) && Safe(SECRET_PATTERNS[4]);
  }

  /* ---- What the five patterns look for --------------------------------------------------------- */

  predicate IsUpperOrDigit(c: char) {
    'A' <= c <= 'Z' || '0' <= c <= '9'
  }

  predicate IsAlphanumeric(c: char) {
    IsUpperOrDigit(c) || 'a' <= c <= 'z'
  }

  /** "sk-" and at least twenty alphanumeric characters. */
  lemma FirstPattern(s: string, i: nat)
    ensures Hit(SECRET_PATTERNS[0], s, i) <==>
              && i + 23 <= |s| && s[i] == 's' && s[i + 1] == 'k' && s[i + 2] == '-'
              && forall j :: i + 3 <= j < i + 23 ==> IsAlphanumeric(s[j])
    ensures SECRET_PATTERNS[0].greedy
  {
    var p := SECRET_PATTERNS[0];
    assert WindowLength(p) == 23;
    if Hit(p, s, i) {
      assert s[i + 0] in ClassAt(p, 0) && s[i + 1] in ClassAt(p, 1) && s[i + 2] in ClassAt(p, 2);
      forall j | i + 3 <= j < i + 23 ensures IsAlphanumeric(s[j]) {
        assert s[i + (j - i)] in ClassAt(p, j - i);
      }
    }
  }

  /** "ghp_" and thirty-six alphanumeric characters. */
  lemma SecondPattern(s: string, i: nat)
    ensures Hit(SECRET_PATTERNS[1], s, i) <==>
              && i + 40 <= |s| && s[i] == 'g' && s[i + 1] == 'h' && s[i + 2] == 'p' && s[i + 3] == '_'
              && forall j :: i + 4 <= j < i + 40 ==> IsAlphanumeric(s[j])
    ensures !SECRET_PATTERNS[1].greedy
  {
    var p := SECRET_PATTERNS[1];
    assert WindowLength(p) == 40;
    if Hit(p, s, i) {
      assert s[i + 0] in ClassAt(p, 0) && s[i + 1] in ClassAt(p, 1);
      assert s[i + 2] in ClassAt(p, 2) && s[i + 3] in ClassAt(p, 3);
      forall j | i + 4 <= j < i + 40 ensures IsAlphanumeric(s[j]) {
        assert s[i + (j - i)] in ClassAt(p, j - i);
      }
    }
  }

  /** "AKIA" and sixteen upper-case letters or digits. */
  lemma ThirdPattern(s: string, i: nat)
    ensures Hit(SECRET_PATTERNS[2], s, i) <==>
              && i + 20 <= |s| && s[i] == 'A' && s[i + 1] == 'K' && s[i + 2] == 'I' && s[i + 3] == 'A'
              && forall j :: i + 4 <= j < i + 20 ==> IsUpperOrDigit(s[j])
    ensures !SECRET_PATTERNS[2].greedy
  {
    var p := SECRET_PATTERNS[2];
    assert WindowLength(p) == 20;
    if Hit(p, s, i) {
      assert s[i + 0] in ClassAt(p, 0) && s[i + 1] in ClassAt(p, 1);
      assert s[i + 2] in ClassAt(p, 2) && s[i + 3] in ClassAt(p, 3);
      forall j | i + 4 <= j < i + 20 ensures IsUpperOrDigit(s[j]) {
        assert s[i + (j - i)] in ClassAt(p, j - i);
      }
    }
  }

  /** "xox", one of five letters, "-", and at least ten alphanumeric characters or dashes. */
  lemma FourthPattern(s: string, i: nat)
    ensures Hit(SECRET_PATTERNS[3], s, i) <==>
              && i + 15 <= |s| && s[i] == 'x' && s[i + 1] == 'o' && s[i + 2] == 'x'
              && (s[i + 3] == 'b' || s[i + 3] == 'a' || s[i + 3] == 'p' || s[i + 3] == 'r' || s[i + 3] == 's')
              && s[i + 4] == '-'
              && forall j :: i + 5 <= j < i + 15 ==> IsAlphanumeric(s[j]) || s[j] == '-'
    ensures SECRET_PATTERNS[3].greedy
  {
    var p := SECRET_PATTERNS[3];
    assert WindowLength(p) == 15;
    if Hit(p, s, i) {
      assert s[i + 0] in ClassAt(p, 0) && s[i + 1] in ClassAt(p, 1) && s[i + 2] in ClassAt(p, 2);
      assert s[i + 3] in ClassAt(p, 3) && s[i + 4] in ClassAt(p, 4);
      forall j | i + 5 <= j < i + 15 ensures IsAlphanumeric(s[j]) || s[j] == '-' {
        assert s[i + (j - i)] in ClassAt(p, j - i);
      }
    }
  }

  /** One of the four lines that begin, or end, a key. */
  predicate IsKeyLine(w: string, head: string) {
    || w == head + "RSA PRIVATE KEY-----" || w == head + "EC PRIVATE KEY-----"
    || w == head + "OPENSSH PRIVATE KEY-----" || w == head + "PRIVATE KEY-----"
  }

  lemma KeyLinesSpelled(word: string, head: string, w: string)
    requires head == "-----" + word
    ensures w in KeyLines(word) <==> IsKeyLine(w, head)
  {
    var rsa, ec, openssh := "RSA " + "PRIVATE KEY-----", "EC " + "PRIVATE KEY-----", "OPENSSH " + "PRIVATE KEY-----";
    assert rsa == "RSA PRIVATE KEY-----" && ec == "EC PRIVATE KEY-----" && openssh == "OPENSSH PRIVATE KEY-----";
    assert KeyLine(word, "RSA ") == head + rsa && KeyLine(word, "EC ") == head + ec;
    assert KeyLine(word, "OPENSSH ") == head + openssh && KeyLine(word, "") == head + "PRIVATE KEY-----";
    var lines := KeyLines(word);
    assert lines[0] in lines && lines[1] in lines && lines[2] in lines && lines[3] in lines;
  }

  lemma LinesOfTheFifth(w: string)
    ensures w in SECRET_PATTERNS[4].openings <==> IsKeyLine(w, "-----BEGIN ")
    ensures w in SECRET_PATTERNS[4].closings <==> IsKeyLine(w, "-----END ")
  {
    hide KeyLines, IsKeyLine;
    assert "-----BEGIN " == "-----" + "BEGIN " && "-----END " == "-----" + "END ";
    KeyLinesSpelled("BEGIN ", "-----BEGIN ", w);
    KeyLinesSpelled("END ", "-----END ", w);
  }

  /** A key: from an opening line to the nearest closing line after it, so that what
      stands between two keys is kept. */
  ghost predicate KeyFrom(s: string, i: nat, o: string, j: nat, c: string) {
    IsKeyLine(o, "-----BEGIN ") && Occurs(s, i, o) && i + |o| <= j && IsKeyLine(c, "-----END ") && Occurs(s, j, c)
  }

  lemma FifthPattern(s: string, i: nat)
    ensures Hit(SECRET_PATTERNS[4], s, i) <==> exists o, j: nat, c :: KeyFrom(s, i, o, j, c)
    ensures MatchEnd(SECRET_PATTERNS[4], s, i).Some? ==>
              exists o, j: nat, c ::
                && KeyFrom(s, i, o, j, c) && MatchEnd(SECRET_PATTERNS[4], s, i).value == j + |c|
                && forall x: nat, w :: i + |o| <= x < j && IsKeyLine(w, "-----END ") ==> !Occurs(s, x, w)
  {
    hide Occurs, MatchEnd, KeyLines, IsKeyLine;
    var p := SECRET_PATTERNS[4];
    forall w ensures w in p.openings <==> IsKeyLine(w, "-----BEGIN ") {
      LinesOfTheFifth(w);
    }
    forall w ensures w in p.closings <==> IsKeyLine(w, "-----END ") {
      LinesOfTheFifth(w);
    }
    assert (exists o, j: nat, c :: KeyFrom(s, i, o, j, c)) ==> Hit(p, s, i);
    if Hit(p, s, i) {
      MatchIffHit(p, s, i);
      var o, j, c := BlockTakesNearest(p, s, i);
      assert KeyFrom(s, i, o, j, c);
    }
    if MatchEnd(p, s, i).Some? {
      var o, j, c := BlockTakesNearest(p, s, i);
      assert KeyFrom(s, i, o, j, c);
    }
  }

  /** None of the lines occurs from `k` up to before `j`. */
  ghost predicate NoneBefore(lines: seq<string>, s: string, k: nat, j: nat) {
    forall x: nat, w :: k <= x < j && w in lines ==> !Occurs(s, x, w)
  }

  lemma {:induction false} NearestHasNoneBefore(closings: seq<string>, s: string, k: nat) returns (j: nat, c: string)
    requires NearestEnd(closings, s, k).Some?
    ensures k <= j && c in closings && Occurs(s, j, c) && NearestEnd(closings, s, k) == Some(j + |c|)
    ensures NoneBefore(closings, s, k, j)
    decreases |s| - k
  {
    hide Occurs;
    if WordAt(closings, s, k).Some? {
      j := k;
      c := WordOf(closings, s, k);
    } else {
      j, c := NearestHasNoneBefore(closings, s, k + 1);
      forall x: nat, w | k <= x < j && w in closings ensures !Occurs(s, x, w) {
        if x == k && Occurs(s, x, w) {
          WordFound(closings, s, k, w);
        }
      }
    }
  }

  lemma BlockTakesNearest(p: Pattern, s: string, i: nat) returns (o: string, j: nat, c: string)
    requires p.Block? && MatchEnd(p, s, i).Some?
    ensures o in p.openings && c in p.closings && Occurs(s, i, o) && i + |o| <= j && Occurs(s, j, c)
    ensures MatchEnd(p, s, i) == Some(j + |c|) && NoneBefore(p.closings, s, i + |o|, j)
  {
    hide Occurs, NearestEnd, BlockEnd;
    o := OpeningLine(p.openings, p.closings, s, i);
    j, c := NearestHasNoneBefore(p.closings, s, i + |o|);
  }

  /* ---- What a substitution leaves alone ------------------------------------------------------ */

  /** A scan cut into what it kept, character by character, and what it masked. */
  datatype Piece = Kept(c: char) | Masked(secret: string)

  function Original(pieces: seq<Piece>): string {
    if pieces == [] then ""
    else (if pieces[0].Kept? then [pieces[0].c] else pieces[0].secret) + Original(pieces[1..])
  }

  function Rendered(pieces: seq<Piece>): string {
    if pieces == [] then ""
    else (if pieces[0].Kept? then [pieces[0].c] else "[REDACTED]") + Rendered(pieces[1..])
  }

  /** The pieces of a scan from `i` on. */
  function Pieces(p: Pattern, s: string, i: nat): seq<Piece>
    requires Safe(p)
    decreases |s| - i
  {
    if i >= |s| then []
    else if MatchEnd(p, s, i).Some? then
      MatchesAreLong(p, s, i);
      [Masked(s[i..MatchEnd(p, s, i).value])] + Pieces(p, s, MatchEnd(p, s, i).value)
    else [Kept(s[i])] + Pieces(p, s, i + 1)
  }

  /** What is replaced is itself a match, from its first character on. */
  lemma MatchedTextMatches(p: Pattern, s: string, i: nat)
    requires Safe(p) && MatchEnd(p, s, i).Some?
    ensures i <= MatchEnd(p, s, i).value <= |s| && Hit(p, s[i..MatchEnd(p, s, i).value], 0)
  {
    MatchesAreLong(p, s, i);
    if p.Token? {
      TokenTextMatches(p, s, i);
    } else {
      BlockTextMatches(p, s, i);
    }
  }

  lemma TokenTextMatches(p: Pattern, s: string, i: nat)
    requires p.Token? && MatchEnd(p, s, i).Some? && i <= MatchEnd(p, s, i).value <= |s|
    ensures Hit(p, s[i..MatchEnd(p, s, i).value], 0)
  {
    MatchIffHit(p, s, i);
    var w := s[i..MatchEnd(p, s, i).value];
    forall j: nat | j < WindowLength(p) ensures j < |w| && w[0 + j] in ClassAt(p, j) {
      assert s[i + j] in ClassAt(p, j);
    }
  }

  lemma BlockTextMatches(p: Pattern, s: string, i: nat)
    requires p.Block? && MatchEnd(p, s, i).Some? && i <= MatchEnd(p, s, i).value <= |s|
    ensures Hit(p, s[i..MatchEnd(p, s, i).value], 0)
  {
    var e := MatchEnd(p, s, i).value;
    var o := OpeningLine(p.openings, p.closings, s, i);
    var j, c := ClosingLine(p.closings, s, i + |o|);
    hide MatchEnd, NearestEnd, Occurs;
    WordInside(s, i, e, i, o);
    WordInside(s, i, e, j, c);
    var at := j - i;
    assert Occurs(s[i..e], 0, o) && Occurs(s[i..e], at, c) && 0 + |o| <= at;
  }

  lemma WordInside(s: string, i: nat, e: nat, j: nat, w: string)
    requires i <= j && j + |w| <= e <= |s| && Occurs(s, j, w)
    ensures Occurs(s[i..e], j - i, w)
  {
    forall x: nat | x < |w| ensures s[i..e][j - i + x] == w[x] {
      assert s[j + x] == w[x];
    }
  }

  /** A token of fixed length takes no more than that. */
  lemma FixedLengthIsTaken(p: Pattern, s: string, i: nat)
    requires p.Token? && !p.greedy && MatchEnd(p, s, i).Some?
    ensures MatchEnd(p, s, i) == Some(i + |p.prefix| + p.min)
  {
  }

  /** A greedy token takes the whole run, so that no rest of a secret stays behind. */
  lemma WholeRunIsTaken(p: Pattern, s: string, i: nat)
    requires p.Token? && p.greedy && MatchEnd(p, s, i).Some?
    ensures var e := MatchEnd(p, s, i).value; e == |s| || (e < |s| && s[e] !in p.tail)
  {
  }

  /** A substitution only masks: putting the masked texts back gives the input,
      each of them is a match, and everything else is copied. */
  lemma {:induction false} SubOnlyMasks(p: Pattern, s: string, i: nat)
    requires Safe(p) && i <= |s|
    ensures Original(Pieces(p, s, i)) == s[i..] && Rendered(Pieces(p, s, i)) == Sub(p, s, i)
    ensures forall piece <- Pieces(p, s, i) :: piece.Masked? ==> Hit(p, piece.secret, 0)
    decreases |s| - i
  {
    hide Hit, MatchEnd, Safe;
    if i < |s| {
      if MatchEnd(p, s, i).Some? {
        MatchedTextMatches(p, s, i);
        MatchesAreLong(p, s, i);
        var e := MatchEnd(p, s, i).value;
        SubOnlyMasks(p, s, e);
        assert MARK == "[REDACTED]";
        assert s[i..] == s[i..e] + s[e..];
        assert Pieces(p, s, i)[1..] == Pieces(p, s, e);
      } else {
        SubOnlyMasks(p, s, i + 1);
        assert s[i..] == [s[i]] + s[i + 1..];
        assert Pieces(p, s, i)[1..] == Pieces(p, s, i + 1);
      }
    }
  }

  /* ---- _redact -------------------------------------------------------------------------------- */

  function SubAll(patterns: seq<Pattern>, s: string): string
    requires forall p <- patterns :: Safe(p)
  {
    if patterns == [] then s else SubAll(patterns[1..], Sub(patterns[0], s, 0))
  }

  ghost predicate ContainsAny(patterns: seq<Pattern>, s: string) {
    exists p <- patterns :: Contains(p, s)
  }

  /** Completeness and no invention, over the whole series of substitutions. */
  lemma {:induction false} SubAllRemoves(patterns: seq<Pattern>, s: string, q: Pattern)
    requires (forall p <- patterns :: Safe(p)) && Safe(q) && Contains(q, SubAll(patterns, s))
    ensures Contains(q, s) && q !in patterns
  {
    if patterns != [] {
      var next := Sub(patterns[0], s, 0);
      SubAllRemoves(patterns[1..], next, q);
      SubCreatesNothing(patterns[0], q, s);
      SubRemoves(patterns[0], s);
    }
  }

  lemma {:induction false} SubAllIdentity(patterns: seq<Pattern>, s: string)
    requires (forall p <- patterns :: Safe(p)) && !ContainsAny(patterns, s)
    ensures SubAll(patterns, s) == s
  {
    if patterns != [] {
      assert patterns[0] in patterns;
      SubIdentity(patterns[0], s, 0);
      assert forall p <- patterns[1..] :: p in patterns;
      SubAllIdentity(patterns[1..], s);
    }
  }

  /** How many matches a substitution replaces. */
  function Count(p: Pattern, s: string, i: nat): nat
    requires Safe(p)
    decreases |s| - i
  {
    if i >= |s| then 0
    else if MatchEnd(p, s, i).Some? then
      MatchesAreLong(p, s, i);
      1 + Count(p, s, MatchEnd(p, s, i).value)
    else Count(p, s, i + 1)
  }

  lemma HitsAreInside(p: Pattern, s: string, i: nat)
    requires Safe(p) && Hit(p, s, i)
    ensures i < |s|
  {
    if p.Block? {
      var o, c, k: nat :| o in p.openings && c in p.closings && Occurs(s, i, o) && i + |o| <= k && Occurs(s, k, c);
    }
  }

  lemma {:induction false} CountIffHit(p: Pattern, s: string, i: nat)
    requires Safe(p) && i <= |s|
    ensures Count(p, s, i) > 0 <==> exists j: nat :: i <= j && Hit(p, s, j)
    decreases |s| - i
  {
    hide Safe, MatchEnd, Hit;
    if i < |s| {
      MatchIffHit(p, s, i);
      if MatchEnd(p, s, i).None? {
        CountIffHit(p, s, i + 1);
      }
    } else if j: nat :| i <= j && Hit(p, s, j) {
      HitsAreInside(p, s, j);
    }
  }

  /** What `_redact` returns as its first value. */
  function Redacted(content: string): string {
    PatternsAreSafe();
    SubAll(SECRET_PATTERNS, content)
  }

  /** `contains_secret_pattern` */
  predicate ContainsSecret(content: string) {
    exists p <- SECRET_PATTERNS :: exists i :: 0 <= i < |content| && MatchEnd(p, content, i).Some?
  }

  lemma SecretsAreHits(content: string)
    ensures ContainsSecret(content) <==> ContainsAny(SECRET_PATTERNS, content)
  {
    hide SECRET_PATTERNS, MatchEnd, Hit, Safe;
    PatternsAreSafe();
    forall p <- SECRET_PATTERNS
      ensures Contains(p, content) <==> exists i :: 0 <= i < |content| && MatchEnd(p, content, i).Some?
    {
      forall i: nat ensures MatchEnd(p, content, i).Some? <==> Hit(p, content, i) {
        MatchIffHit(p, content, i);
      }
      if Contains(p, content) {
        var i: nat :| Hit(p, content, i);
        HitsAreInside(p, content, i);
      }
    }
  }

  /** The patterns are substituted in their order. */
  lemma RedactedInOrder(content: string)
    ensures |SECRET_PATTERNS| == 5 && (forall p <- SECRET_PATTERNS :: Safe(p))
    ensures var p := SECRET_PATTERNS;
            Redacted(content) == Sub(p[4], Sub(p[3], Sub(p[2], Sub(p[1], Sub(p[0], content, 0), 0), 0), 0), 0)
  {
    PatternsAreSafe();
    var p := SECRET_PATTERNS;
    assert |p| == 5 && p == [p[0], p[1], p[2], p[3], p[4]];
    hide Sub, Safe, SECRET_PATTERNS, SubAll;
    InOrder(p[0], p[1], p[2], p[3], p[4], content);
  }

  lemma FirstFirst(p: Pattern, rest: seq<Pattern>, s: string)
    requires Safe(p) && forall q <- rest :: Safe(q)
    ensures SubAll([p] + rest, s) == SubAll(rest, Sub(p, s, 0))
  {
    assert ([p] + rest)[1..] == rest;
  }

  lemma InOrder(a: Pattern, b: Pattern, c: Pattern, d: Pattern, e: Pattern, s: string)
    requires Safe(a) && Safe(b) && Safe(c) && Safe(d) && Safe(e)
    ensures SubAll([a, b, c, d, e], s) == Sub(e, Sub(d, Sub(c, Sub(b, Sub(a, s, 0), 0), 0), 0), 0)
  {
    hide Sub, Safe, SubAll;
    var s1 := Sub(a, s, 0);
    var s2 := Sub(b, s1, 0);
    var s3 := Sub(c, s2, 0);
    assert [a, b, c, d, e] == [a] + [b, c, d, e] && [b, c, d, e] == [b] + [c, d, e];
    assert [c, d, e] == [c] + [d, e] && [d, e] == [d] + [e] && [e] == [e] + [];
    FirstFirst(a, [b, c, d, e], s);
    FirstFirst(b, [c, d, e], s1);
    FirstFirst(c, [d, e], s2);
    FirstFirst(d, [e], s3);
    FirstFirst(e, [], Sub(d, s3, 0));
    NoneLeft(Sub(e, Sub(d, s3, 0), 0));
  }

  lemma NoneLeft(s: string)
    ensures SubAll([], s) == s
  {
  }

  /** `_redact`: nothing secret is left, the flag tells exactly whether there was
      anything, and clean content is not touched. */
  method Redact(content: string) returns (redacted: string, changed: bool)
    ensures redacted == Redacted(content)
    ensures !ContainsSecret(redacted)
    ensures changed <==> ContainsSecret(content)
    ensures !changed ==> redacted == content
  {
    hide SECRET_PATTERNS, MatchEnd, Hit, Safe, Sub, Contains;
    PatternsAreSafe();
    redacted, changed := content, false;
    for i := 0 to |SECRET_PATTERNS|
      invariant SubAll(SECRET_PATTERNS[i..], redacted) == SubAll(SECRET_PATTERNS, content)
      invariant changed <==> ContainsAny(SECRET_PATTERNS[..i], content)
      invariant !changed ==> redacted == content
      invariant forall q :: Safe(q) && Contains(q, redacted) ==> Contains(q, content)
    {
      var p := SECRET_PATTERNS[i];
      assert p in SECRET_PATTERNS && SECRET_PATTERNS[i..][0] == p;
      assert SECRET_PATTERNS[i..][1..] == SECRET_PATTERNS[i + 1..];
      var next, count := Sub(p, redacted, 0), Count(p, redacted, 0);
      CountIffContains(p, redacted);
      AnyOfPrefix(SECRET_PATTERNS, i, content);
      forall q | Safe(q) && Contains(q, next) ensures Contains(q, content) {
        SubCreatesNothing(p, q, redacted);
      }
      if count != 0 {
        redacted := next;
        changed := true;
      } else {
        SubIdentity(p, redacted, 0);
      }
    }
    assert SECRET_PATTERNS[..|SECRET_PATTERNS|] == SECRET_PATTERNS;
    SecretsAreHits(content);
    SecretsAreHits(redacted);
    RedactionIsComplete(content);
  }

  lemma CleanIsUntouched(content: string)
    ensures !ContainsSecret(content) ==> Redacted(content) == content
  {
    hide SECRET_PATTERNS, MatchEnd, Hit, Safe, Sub, Contains;
    PatternsAreSafe();
    SecretsAreHits(content);
    if !ContainsSecret(content) {
      SubAllIdentity(SECRET_PATTERNS, content);
    }
  }

  lemma CountIffContains(p: Pattern, s: string)
    requires Safe(p)
    ensures Count(p, s, 0) > 0 <==> Contains(p, s)
  {
    CountIffHit(p, s, 0);
  }

  lemma AnyOfPrefix(patterns: seq<Pattern>, i: nat, s: string)
    requires i < |patterns|
    ensures ContainsAny(patterns[..i + 1], s) <==> ContainsAny(patterns[..i], s) || Contains(patterns[i], s)
  {
    assert patterns[..i + 1] == patterns[..i] + [patterns[i]];
  }

  /** No pattern matches the output: not the ones substituted early either. */
  lemma RedactionIsComplete(content: string)
    ensures !ContainsSecret(Redacted(content))
    ensures Redacted(Redacted(content)) == Redacted(content)
  {
    hide SECRET_PATTERNS, MatchEnd, Hit, Safe, Sub, Contains;
    PatternsAreSafe();
    var out := Redacted(content);
    if ContainsAny(SECRET_PATTERNS, out) {
      var q :| q in SECRET_PATTERNS && Contains(q, out);
      SubAllRemoves(SECRET_PATTERNS, content, q);
    }
    SecretsAreHits(out);
    SubAllIdentity(SECRET_PATTERNS, out);
  }
}
