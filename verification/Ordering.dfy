/**
 Edge keys and the order every adapter sorts by: source id, target id, protocol, port.

 Strings compare by code point, first difference first, which is what Go's and Python's `<` do.
 */
module Ordering {
  import opened Tallies

  datatype EdgeKey = EdgeKey(source: string, target: string, protocol: string, port: int)

  predicate StrLess(a: string, b: string) {
    b != [] && (a == [] || a[0] < b[0] || (a[0] == b[0] && StrLess(a[1..], b[1..])))
  }

  predicate KeyLess(a: EdgeKey, b: EdgeKey) {
    if a.source != b.source then StrLess(a.source, b.source)
    else if a.target != b.target then StrLess(a.target, b.target)
    else if a.protocol != b.protocol then StrLess(a.protocol, b.protocol)
    else a.port < b.port
  }

  /** A plain text as a key, for sorting texts. */
  function TextKey(text: string): EdgeKey { EdgeKey(text, "", "", 0) }

  lemma {:induction false} StrLessTrichotomy(a: string, b: string)
    ensures a != b <==> StrLess(a, b) || StrLess(b, a)
    ensures !(StrLess(a, b) && StrLess(b, a))
  {
    if a != [] && b != [] {
      StrLessTrichotomy(a[1..], b[1..]);
      assert a == [a[0]] + a[1..] && b == [b[0]] + b[1..];
    }
  }

  lemma {:induction false} StrLessTransitive(a: string, b: string, c: string)
    requires StrLess(a, b) && StrLess(b, c)
    ensures StrLess(a, c)
  {
    if a != [] && a[0] == b[0] == c[0] {
      StrLessTransitive(a[1..], b[1..], c[1..]);
    }
  }

  /** Texts compare at their first difference, and a text comes before its extensions. */
  lemma {:induction false} StrLessIff(a: string, b: string)
    ensures StrLess(a, b) <==>
      exists i: nat :: i <= |a| && i < |b| && a[..i] == b[..i] && (i < |a| ==> a[i] < b[i])
  {
    if a == [] || b == [] {
      assert b != [] ==> a[..0] == b[..0];
    } else {
      StrLessIff(a[1..], b[1..]);
      if a[0] < b[0] {
        assert a[..0] == b[..0];
      } else if a[0] == b[0] {
        if StrLess(a[1..], b[1..]) {
          var x, y := a[1..], b[1..];
          var i: nat :| i <= |x| && i < |y| && x[..i] == y[..i] && (i < |x| ==> x[i] < y[i]);
          assert a[..i + 1] == [a[0]] + a[1..][..i] && b[..i + 1] == [b[0]] + b[1..][..i];
        }
        forall i: nat | i <= |a| && i < |b| && a[..i] == b[..i] && (i < |a| ==> a[i] < b[i])
          ensures StrLess(a[1..], b[1..])
        {
          assert i > 0;
          assert a[1..][..i - 1] == a[..i][1..] && b[1..][..i - 1] == b[..i][1..];
        }
      } else {
        forall i: nat | i <= |a| && 0 < i < |b| ensures a[..i] != b[..i] {
          assert a[..i][0] == a[0] && b[..i][0] == b[0];
        }
      }
    }
  }

  /** Keys compare by source, then target, then protocol, then port. */
  lemma KeyLessIff(a: EdgeKey, b: EdgeKey)
    ensures KeyLess(a, b) <==>
      || StrLess(a.source, b.source)
      || (a.source == b.source && StrLess(a.target, b.target))
      || (a.source == b.source && a.target == b.target && StrLess(a.protocol, b.protocol))
      || (a.source == b.source && a.target == b.target && a.protocol == b.protocol && a.port < b.port)
  {
    StrLessTrichotomy(a.source, b.source);
    StrLessTrichotomy(a.target, b.target);
    StrLessTrichotomy(a.protocol, b.protocol);
  }

  /** The sort key is a strict total order. */
  lemma KeyLessTotal(a: EdgeKey, b: EdgeKey)
    ensures a != b <==> KeyLess(a, b) || KeyLess(b, a)
    ensures !(KeyLess(a, b) && KeyLess(b, a))
  {
    StrLessTrichotomy(a.source, b.source);
    StrLessTrichotomy(a.target, b.target);
    StrLessTrichotomy(a.protocol, b.protocol);
  }

  lemma KeyLessTransitive(a: EdgeKey, b: EdgeKey, c: EdgeKey)
    requires KeyLess(a, b) && KeyLess(b, c)
    ensures KeyLess(a, c)
  {
    if a.source != b.source && b.source != c.source {
      StrLessTransitive(a.source, b.source, c.source);
      StrLessTrichotomy(a.source, c.source);
      StrLessTrichotomy(a.source, a.source);
      StrLessTrichotomy(b.source, a.source);
    } else if a.source == b.source == c.source && a.target != b.target && b.target != c.target {
      StrLessTransitive(a.target, b.target, c.target);
      StrLessTrichotomy(b.target, a.target);
    } else if a.source == b.source == c.source && a.target == b.target == c.target
           && a.protocol != b.protocol && b.protocol != c.protocol {
      StrLessTransitive(a.protocol, b.protocol, c.protocol);
      StrLessTrichotomy(b.protocol, a.protocol);
    }
  }

  ghost predicate Sorted<T>(xs: seq<T>, key: T -> EdgeKey) {
    forall i, j :: 0 <= i < j < |xs| ==> KeyLess(key(xs[i]), key(xs[j]))
  }

  lemma SortedTail<T>(xs: seq<T>, ys: seq<T>, key: T -> EdgeKey)
    requires xs != [] && ys != [] && xs[0] == ys[0]
    requires Sorted(xs, key) && Sorted(ys, key)
    requires forall x :: x in xs <==> x in ys
    ensures forall x :: x in xs[1..] <==> x in ys[1..]
  {
    forall x ensures x in xs[1..] <==> x in ys[1..] {
      assert xs == [xs[0]] + xs[1..] && ys == [ys[0]] + ys[1..];
      KeyLessTotal(key(xs[0]), key(xs[0]));
      assert xs[0] !in xs[1..] && ys[0] !in ys[1..];
      assert x in xs <==> x == xs[0] || x in xs[1..];
      assert x in ys <==> x == ys[0] || x in ys[1..];
    }
  }

  /** Sorted output is determined by its contents: no freedom is left to dictionary order. */
  lemma {:induction false} SortedUnique<T>(xs: seq<T>, ys: seq<T>, key: T -> EdgeKey)
    requires Sorted(xs, key) && Sorted(ys, key)
    requires forall x :: x in xs <==> x in ys
    ensures xs == ys
  {
    if xs == [] {
      assert forall y :: y !in ys;
      assert forall i :: 0 <= i < |ys| ==> ys[i] in ys;
    } else {
      assert xs[0] in ys;
      assert ys[0] in xs;
      if xs[0] != ys[0] {
        var i :| 0 <= i < |ys| && ys[i] == xs[0];
        var j :| 0 <= j < |xs| && xs[j] == ys[0];
        KeyLessTotal(key(xs[0]), key(ys[0]));
        assert false;
      }
      SortedTail(xs, ys, key);
      SortedUnique(xs[1..], ys[1..], key);
      assert xs == [xs[0]] + xs[1..] && ys == [ys[0]] + ys[1..];
    }
  }

  /** In order, equal keys allowed. */
  ghost predicate WeaklySorted<T>(xs: seq<T>, key: T -> EdgeKey) {
    forall i, j :: 0 <= i < j < |xs| ==> !KeyLess(key(xs[j]), key(xs[i]))
  }

  predicate KeysDiffer<T>(xs: seq<T>, key: T -> EdgeKey) {
    forall i, j :: 0 <= i < j < |xs| ==> key(xs[i]) != key(xs[j])
  }

  method Insert<T>(r: seq<T>, x: T, key: T -> EdgeKey) returns (r': seq<T>)
    requires WeaklySorted(r, key)
    ensures WeaklySorted(r', key)
    ensures multiset(r') == multiset(r) + multiset{x}
  {
    var at := 0;
    while at < |r| && !KeyLess(key(x), key(r[at]))
      invariant 0 <= at <= |r|
      invariant forall i :: 0 <= i < at ==> !KeyLess(key(x), key(r[i]))
    {
      at := at + 1;
    }
    InsertKeepsSorted(r, at, x, key);
    assert r == r[..at] + r[at..];
    r' := r[..at] + [x] + r[at..];
  }

  /** The library sort, by insertion. Distinct keys make the result strictly sorted. */
  method SortByKey<T>(xs: seq<T>, key: T -> EdgeKey) returns (r: seq<T>)
    ensures WeaklySorted(r, key) && multiset(r) == multiset(xs)
    ensures KeysDiffer(xs, key) ==> Sorted(r, key)
  {
    r := [];
    for n := 0 to |xs|
      invariant WeaklySorted(r, key)
      invariant multiset(r) == multiset(xs[..n])
    {
      assert xs[..n + 1] == xs[..n] + [xs[n]];
      r := Insert(r, xs[n], key);
    }
    assert xs[..|xs|] == xs;
    if KeysDiffer(xs, key) {
      StrictlySorted(r, xs, key);
    }
  }

  lemma InsertKeepsSorted<T>(r: seq<T>, at: nat, x: T, key: T -> EdgeKey)
    requires WeaklySorted(r, key) && at <= |r|
    requires forall i :: 0 <= i < at ==> !KeyLess(key(x), key(r[i]))
    requires at < |r| ==> KeyLess(key(x), key(r[at]))
    ensures WeaklySorted(r[..at] + [x] + r[at..], key)
  {
    forall i | at <= i < |r| ensures !KeyLess(key(r[i]), key(x)) {
      KeyLessTotal(key(r[i]), key(x));
      if at < i && KeyLess(key(r[i]), key(x)) {
        KeyLessTransitive(key(r[i]), key(x), key(r[at]));
      }
    }
  }

  /** Elements with the same key are the same element, in whatever order they are listed. */
  lemma StrictlySorted<T>(r: seq<T>, xs: seq<T>, key: T -> EdgeKey)
    requires WeaklySorted(r, key) && multiset(r) == multiset(xs) && KeysDiffer(xs, key)
    ensures Sorted(r, key)
  {
    SameElements(r, xs);
    forall i, j | 0 <= i < j < |r| ensures KeyLess(key(r[i]), key(r[j])) {
      KeysStillDiffer(r, xs, key, i, j);
      KeyLessTotal(key(r[i]), key(r[j]));
    }
  }

  lemma {:induction false} KeysStillDiffer<T>(r: seq<T>, xs: seq<T>, key: T -> EdgeKey, i: nat, j: nat)
    requires multiset(r) == multiset(xs) && KeysDiffer(xs, key) && i < j < |r|
    ensures key(r[i]) != key(r[j])
  {
    SameElements(r, xs);
    assert r[i] in xs && r[j] in xs;
    var a :| 0 <= a < |xs| && xs[a] == r[i];
    var b :| 0 <= b < |xs| && xs[b] == r[j];
    if a == b {
      TwiceListed(r, i, j);
      OnceListed(xs, key, a);
    }
  }

  lemma TwiceListed<T>(r: seq<T>, i: nat, j: nat)
    requires i < j < |r| && r[i] == r[j]
    ensures multiset(r)[r[i]] >= 2
  {
    assert r == r[..j] + [r[j]] + r[j + 1..];
    assert r[i] in r[..j] by { assert r[..j][i] == r[i]; }
    assert multiset(r) == multiset(r[..j]) + multiset{r[j]} + multiset(r[j + 1..]);
  }

  lemma OnceListed<T>(xs: seq<T>, key: T -> EdgeKey, a: nat)
    requires KeysDiffer(xs, key) && a < |xs|
    ensures multiset(xs)[xs[a]] == 1
  {
    assert xs == xs[..a] + [xs[a]] + xs[a + 1..];
    assert multiset(xs) == multiset(xs[..a]) + multiset{xs[a]} + multiset(xs[a + 1..]);
    assert xs[a] !in xs[..a] by {
      forall i | 0 <= i < a ensures xs[..a][i] != xs[a] {}
    }
    var rest := xs[a + 1..];
    assert xs[a] !in rest by {
      forall i | 0 <= i < |rest| ensures rest[i] != xs[a] { assert rest[i] == xs[a + 1 + i]; }
    }
  }

  /** `rows` holds the value of every key outside `todo`, once. */
  ghost predicate ListsBut<T>(rows: seq<T>, m: map<EdgeKey, T>, todo: set<EdgeKey>, key: T -> EdgeKey) {
    && (forall x :: x in rows ==> key(x) in m && key(x) !in todo && m[key(x)] == x)
    && (forall k :: k in m && k !in todo ==> m[k] in rows)
    && (forall i, j :: 0 <= i < j < |rows| ==> key(rows[i]) != key(rows[j]))
  }

  lemma ListOneMore<T>(rows: seq<T>, m: map<EdgeKey, T>, todo: set<EdgeKey>, key: T -> EdgeKey, k: EdgeKey)
    requires forall k :: k in m ==> key(m[k]) == k
    requires ListsBut(rows, m, todo, key) && k in todo && k in m
    ensures ListsBut(rows + [m[k]], m, todo - {k}, key)
  {
    var rows' := rows + [m[k]];
    forall x | x in rows' ensures key(x) in m && key(x) !in todo - {k} && m[key(x)] == x {
      assert x in rows || x == m[k];
    }
    forall j | j in m && j !in todo - {k} ensures m[j] in rows' {
      assert j == k || m[j] in rows;
    }
    forall i | 0 <= i < |rows| ensures key(rows[i]) != k { assert rows[i] in rows; }
  }

  /** A dictionary's values, sorted by their keys. The dictionary is walked in no particular order. */
  method SortedValues<T>(m: map<EdgeKey, T>, key: T -> EdgeKey) returns (r: seq<T>)
    requires forall k :: k in m ==> key(m[k]) == k
    ensures Sorted(r, key)
    ensures forall x :: x in r ==> key(x) in m && m[key(x)] == x
    ensures forall k :: k in m ==> m[k] in r
    ensures |r| == |m|
  {
    var rows: seq<T> := [];
    var todo := m.Keys;
    while todo != {}
      invariant todo <= m.Keys
      invariant ListsBut(rows, m, todo, key)
      invariant |rows| + |todo| == |m|
    {
      var k :| k in todo;
      ListOneMore(rows, m, todo, key, k);
      todo := todo - {k};
      rows := rows + [m[k]];
    }
    r := SortByKey(rows, key);
    SameElements(r, rows);
  }

  lemma SameElements<T>(a: seq<T>, b: seq<T>)
    requires multiset(a) == multiset(b)
    ensures |a| == |b|
    ensures forall x :: x in a <==> x in b
  {
    assert |a| == |multiset(a)| && |b| == |multiset(b)|;
    forall x ensures x in a <==> x in b {
      assert x in a <==> x in multiset(a);
      assert x in b <==> x in multiset(b);
    }
  }

  lemma SortedByEqualKeys<S, T>(xs: seq<S>, f: S -> EdgeKey, ys: seq<T>, g: T -> EdgeKey)
    requires Sorted(xs, f) && |xs| == |ys|
    requires forall i :: 0 <= i < |xs| ==> f(xs[i]) == g(ys[i])
    ensures Sorted(ys, g)
  {
  }
}
