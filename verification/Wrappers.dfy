/** Option and Result, the two failure types every other module uses, and dicts
    built from lists. */
module Wrappers {

  /** A value the source may leave as `None`. */
  datatype Option<+T> = None | Some(value: T) {
    function GetOr(default: T): T {
      match this
      case Some(v) => v
      case None => default
    }
  }

  /** A returned value, or the exception the source raises instead. */
  datatype Result<+R, +E> = Success(value: R) | Failure(error: E) {
    predicate IsFailure() {
      Failure?
    }

    function PropagateFailure<U>(): (r: Result<U, E>)
      requires Failure?
    {
      Failure(error)
    }

    function Extract(): R
      requires Success?
    {
      value
    }
  }

  /** A dict comprehension over a list: a later item replaces an earlier one that
      has the same key. */
  function Dict<T>(items: seq<T>, key: T -> string): (d: map<string, T>)
    ensures forall k <- d :: d[k] in items && key(d[k]) == k
    ensures forall x <- items :: key(x) in d
  {
    if items == [] then map[]
    else
      var n := |items| - 1;
      Dict(items[..n], key)[key(items[n]) := items[n]]
  }

  /** The value kept for a key is the last item with it. */
  lemma {:induction false} DictKeepsLast<T>(items: seq<T>, key: T -> string, i: nat)
    requires i < |items|
    requires forall j :: i < j < |items| ==> key(items[j]) != key(items[i])
    ensures key(items[i]) in Dict(items, key) && Dict(items, key)[key(items[i])] == items[i]
  {
    var n := |items| - 1;
    if i < n {
      DictKeepsLast(items[..n], key, i);
    }
  }

  /** A later item has the same key. */
  predicate Replaced<T>(items: seq<T>, key: T -> string, i: nat)
    requires i < |items|
  {
    exists j :: i < j < |items| && key(items[j]) == key(items[i])
  }

  lemma ReplacedNext<T>(items: seq<T>, y: T, key: T -> string, i: nat)
    requires i < |items|
    ensures Replaced(items + [y], key, i) <==> Replaced(items, key, i) || key(y) == key(items[i])
  {
    var longer := items + [y];
    if Replaced(longer, key, i) {
      var j :| i < j < |longer| && key(longer[j]) == key(longer[i]);
      assert j < |items| ==> longer[j] == items[j];
    }
    if Replaced(items, key, i) {
      var j :| i < j < |items| && key(items[j]) == key(items[i]);
      assert longer[j] == items[j];
    }
    if key(y) == key(items[i]) {
      assert longer[|items|] == y;
    }
  }

  lemma DictNext<T>(items: seq<T>, y: T, key: T -> string)
    ensures Dict(items + [y], key) == Dict(items, key)[key(y) := y]
  {
    assert (items + [y])[..|items|] == items;
  }

  /** Every value of a dict is the last item with its key. */
  lemma {:induction false} DictHas<T>(items: seq<T>, key: T -> string, k: string) returns (i: nat)
    requires k in Dict(items, key)
    ensures i < |items| && key(items[i]) == k && Dict(items, key)[k] == items[i]
    ensures forall j :: i < j < |items| ==> key(items[j]) != k
  {
    NoItems(key);
    hide Dict;
    var n := |items| - 1;
    assert items == items[..n] + [items[n]];
    DictNext(items[..n], items[n], key);
    if key(items[n]) == k {
      i := n;
    } else {
      i := DictHas(items[..n], key, k);
    }
  }

  lemma NoItems<T>(key: T -> string)
    ensures Dict([], key) == map[]
  {
  }

  lemma PutTwice<T>(d: map<string, T>, j: string, x: T, k: string, y: T)
    ensures d[j := x][k := y] == if j == k then d[k := y] else d[k := y][j := x]
  {
  }

  lemma LastIsNotReplaced<T>(items: seq<T>, key: T -> string)
    requires items != []
    ensures !Replaced(items, key, |items| - 1)
  {
  }

  ghost predicate Overlooks<T>(items: seq<T>, key: T -> string, i: nat, x: T)
    requires i < |items|
  {
    Dict(items[i := x], key)
    == if Replaced(items, key, i) then Dict(items, key) else Dict(items, key)[key(x) := x]
  }

  lemma OverlooksNext<T>(items: seq<T>, y: T, key: T -> string, i: nat, x: T)
    requires i < |items| && key(x) == key(items[i]) && Overlooks(items, key, i, x)
    ensures Overlooks(items + [y], key, i, x)
  {
    hide Replaced, Dict;
    assert (items + [y])[i := x] == items[i := x] + [y];
    DictNext(items, y, key);
    DictNext(items[i := x], y, key);
    ReplacedNext(items, y, key, i);
    PutTwice(Dict(items, key), key(x), x, key(y), y);
  }

  lemma OverlooksLast<T>(items: seq<T>, y: T, key: T -> string, x: T)
    requires key(x) == key(y)
    ensures Overlooks(items + [y], key, |items|, x)
  {
    hide Dict;
    assert (items + [y])[|items| := x] == items + [x];
    DictNext(items, y, key);
    DictNext(items, x, key);
  }

  /** An item shows in the dict exactly when no later one replaces it. */
  lemma {:induction false} DictOverlooks<T>(items: seq<T>, key: T -> string, i: nat, x: T)
    requires i < |items| && key(x) == key(items[i])
    ensures Overlooks(items, key, i, x)
  {
    hide Overlooks;
    var n := |items| - 1;
    assert items == items[..n] + [items[n]];
    if i < n {
      DictOverlooks(items[..n], key, i, x);
      OverlooksNext(items[..n], items[n], key, i, x);
    } else {
      OverlooksLast(items[..n], items[n], key, x);
    }
  }

  /** A name for each number. */
  function Tally(n: nat): (name: string)
    ensures |name| == n
  {
    seq(n, i => 'x')
  }
}
