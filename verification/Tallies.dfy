/**
 What one edge accumulates, and what it means to add observations up.

 The agent, both storage adapters and the grouped view all fold the same record: sums,
 sums that may be "not measured", a minimum and a maximum. Here the record is a commutative
 semigroup, `Scan` is the naive answer (walk the raw items, keep those whose key is wanted),
 and `GroupsScanAlike` says that any correct grouping of the items answers every scan the raw
 items answer. The other modules state their results against `Scan`.
 */
module Tallies {

  datatype Option<+T> = None | Some(value: T)

  datatype Tally = Tally(
    conns: nat,
    failed: Option<nat>,
    latencyCount: nat,
    latencySum: nat,
    sent: Option<nat>,
    received: Option<nat>,
    first: int,
    last: int
  )

  function Min(a: int, b: int): int { if b < a then b else a }

  function Max(a: int, b: int): int { if b > a then b else a }

  /** "Absent stays absent": None is "not measured" and only a measurement replaces it. */
  function AddMeasured(a: Option<nat>, b: Option<nat>): Option<nat> {
    if a.None? then b else if b.None? then a else Some(a.value + b.value)
  }

  function Merge(a: Tally, b: Tally): Tally {
    Tally(a.conns + b.conns,
          AddMeasured(a.failed, b.failed),
          a.latencyCount + b.latencyCount,
          a.latencySum + b.latencySum,
          AddMeasured(a.sent, b.sent),
          AddMeasured(a.received, b.received),
          Min(a.first, b.first),
          Max(a.last, b.last))
  }

  /** Merge with a unit: None is "nothing seen". */
  function Join(a: Option<Tally>, b: Option<Tally>): Option<Tally> {
    if a.None? then b else if b.None? then a else Some(Merge(a.value, b.value))
  }

  /** The failed count of an edge, with "not measured" read as none. */
  function Measured(o: Option<nat>): nat { if o.Some? then o.value else 0 }

  /** Successful plus failed connections. */
  function Attempts(t: Option<Tally>): nat {
    if t.None? then 0 else t.value.conns + Measured(t.value.failed)
  }

  datatype Item<K> = Item(key: K, tally: Tally)

  /** The naive answer: fold every item whose key is in `keys`, in order. */
  ghost function Scan<K>(items: seq<Item<K>>, keys: iset<K>): Option<Tally> {
    if items == [] then None
    else
      var rest := Scan(items[..|items| - 1], keys);
      var item := items[|items| - 1];
      if item.key in keys then Join(rest, Some(item.tally)) else rest
  }

  /** The elements of `xs` that satisfy `p`, in order. */
  function Select<T>(xs: seq<T>, p: T -> bool): seq<T> {
    if xs == [] then []
    else
      var rest, x := Select(xs[..|xs| - 1], p), xs[|xs| - 1];
      if p(x) then rest + [x] else rest
  }

  lemma SelectSnoc<T>(xs: seq<T>, x: T, p: T -> bool)
    ensures Select(xs + [x], p) == if p(x) then Select(xs, p) + [x] else Select(xs, p)
  {
    assert (xs + [x])[..|xs|] == xs;
  }

  function Lookup<K, V>(m: map<K, V>, k: K): Option<V> {
    if k in m then Some(m[k]) else None
  }

  ghost predicate DistinctKeys<K>(items: seq<Item<K>>) {
    forall i, j :: 0 <= i < j < |items| ==> items[i].key != items[j].key
  }

  ghost function KeysOf<K>(items: seq<Item<K>>): iset<K> {
    iset i | 0 <= i < |items| :: items[i].key
  }

  /** `groups` holds each key of `items` once, with the fold of everything under that key. */
  ghost predicate Groups<K>(groups: seq<Item<K>>, items: seq<Item<K>>) {
    && DistinctKeys(groups)
    && KeysOf(groups) == KeysOf(items)
    && forall i :: 0 <= i < |groups| ==> Scan(items, iset{groups[i].key}) == Some(groups[i].tally)
  }

  /** `m` is an index of `items`: every lookup, hit or miss, is the naive scan for that key. */
  ghost predicate Indexes<K(!new)>(m: map<K, Tally>, items: seq<Item<K>>) {
    forall k :: Lookup(m, k) == Scan(items, iset{k})
  }

  /** Successful plus failed connections over a list of edges. */
  function TotalAttempts<K>(items: seq<Item<K>>): nat {
    if items == [] then 0 else TotalAttempts(items[..|items| - 1]) + Attempts(Some(items[|items| - 1].tally))
  }

  /** Appending an item updates an index at that item's key only. */
  lemma IndexAppend<K(!new)>(m: map<K, Tally>, items: seq<Item<K>>, item: Item<K>)
    requires Indexes(m, items)
    ensures Indexes(m[item.key := Join(Lookup(m, item.key), Some(item.tally)).value], items + [item])
  {
    var m' := m[item.key := Join(Lookup(m, item.key), Some(item.tally)).value];
    forall k ensures Lookup(m', k) == Scan(items + [item], iset{k}) {
      assert Lookup(m, k) == Scan(items, iset{k});
      ScanSnoc(items, item, iset{k});
    }
  }

  lemma JoinLaws(a: Option<Tally>, b: Option<Tally>, c: Option<Tally>)
    ensures Join(a, b) == Join(b, a)
    ensures Join(Join(a, b), c) == Join(a, Join(b, c))
    ensures Attempts(Join(a, b)) == Attempts(a) + Attempts(b)
  {
  }

  lemma ScanSnoc<K>(items: seq<Item<K>>, item: Item<K>, keys: iset<K>)
    ensures Scan(items + [item], keys)
         == if item.key in keys then Join(Scan(items, keys), Some(item.tally)) else Scan(items, keys)
  {
    assert (items + [item])[..|items|] == items;
  }

  /** Scanning a concatenation joins the scans of the parts. */
  lemma {:induction false} ScanConcat<K>(a: seq<Item<K>>, b: seq<Item<K>>, keys: iset<K>)
    ensures Scan(a + b, keys) == Join(Scan(a, keys), Scan(b, keys))
  {
    if b == [] {
      assert a + b == a;
    } else {
      var init, last := b[..|b| - 1], b[|b| - 1];
      ScanConcat(a, init, keys);
      assert b == init + [last] && a + b == (a + init) + [last];
      ScanSnoc(a + init, last, keys);
      ScanSnoc(init, last, keys);
      JoinLaws(Scan(a, keys), Scan(init, keys), Some(last.tally));
    }
  }

  /** A scan only looks at the keys that occur. */
  lemma {:induction false} ScanAgree<K>(items: seq<Item<K>>, p: iset<K>, q: iset<K>)
    requires forall i :: 0 <= i < |items| ==> (items[i].key in p <==> items[i].key in q)
    ensures Scan(items, p) == Scan(items, q)
  {
    if items != [] {
      ScanAgree(items[..|items| - 1], p, q);
    }
  }

  lemma {:induction false} ScanNone<K>(items: seq<Item<K>>, keys: iset<K>)
    ensures Scan(items, keys) == None <==> KeysOf(items) !! keys
  {
    if items != [] {
      var init, last := items[..|items| - 1], items[|items| - 1];
      ScanNone(init, keys);
      assert KeysOf(items) ==
        KeysOf(init) + iset{last.key} by { KeysOfSnoc(init, last); assert items == init + [last]; }
    }
  }

  lemma KeysOfSnoc<K>(items: seq<Item<K>>, item: Item<K>)
    ensures KeysOf(items + [item]) == KeysOf(items) + iset{item.key}
  {
    var s := items + [item];
    forall k | k in KeysOf(items) ensures k in KeysOf(s) {
      var i :| 0 <= i < |items| && items[i].key == k;
      assert s[i].key == k;
    }
    assert s[|items|].key == item.key;
  }

  /** Disjoint key sets split a scan. */
  lemma {:induction false} ScanSplit<K>(items: seq<Item<K>>, p: iset<K>, q: iset<K>)
    requires p !! q
    ensures Scan(items, p + q) == Join(Scan(items, p), Scan(items, q))
  {
    if items != [] {
      var init, last := items[..|items| - 1], items[|items| - 1];
      ScanSplit(init, p, q);
      JoinLaws(Scan(init, p), Scan(init, q), Some(last.tally));
      JoinLaws(Scan(init, p), Some(last.tally), Scan(init, q));
      JoinLaws(Scan(init, q), Some(last.tally), Scan(init, p));
    }
  }

  lemma {:induction false} GroupPrefixScan<K>(groups: seq<Item<K>>, items: seq<Item<K>>, keys: iset<K>, n: nat)
    requires n <= |groups| && Groups(groups, items)
    ensures Scan(groups[..n], keys) == Scan(items, keys * KeysOf(groups[..n]))
  {
    if n == 0 {
      ScanNone(items, keys * KeysOf(groups[..0]));
    } else {
      var init, last := groups[..n - 1], groups[n - 1];
      GroupPrefixScan(groups, items, keys, n - 1);
      assert groups[..n] == init + [last];
      ScanSnoc(init, last, keys);
      KeysOfSnoc(init, last);
      if last.key in keys {
        assert keys * KeysOf(groups[..n]) == keys * KeysOf(init) + iset{last.key};
        ScanSplit(items, keys * KeysOf(init), iset{last.key});
      } else {
        assert keys * KeysOf(groups[..n]) == keys * KeysOf(init);
      }
    }
  }

  /** Fusion: a grouping answers every scan, over any set of keys, exactly as the raw items do. */
  lemma GroupsScanAlike<K>(groups: seq<Item<K>>, items: seq<Item<K>>, keys: iset<K>)
    requires Groups(groups, items)
    ensures Scan(groups, keys) == Scan(items, keys)
  {
    GroupPrefixScan(groups, items, keys, |groups|);
    assert groups[..|groups|] == groups;
    forall i | 0 <= i < |items| ensures items[i].key in keys <==> items[i].key in keys * KeysOf(groups) {
      assert items[i].key in KeysOf(items);
    }
    ScanAgree(items, keys * KeysOf(groups), keys);
  }

  /** Plain sum of one counter over the items whose key is wanted. */
  ghost function Sum<K>(items: seq<Item<K>>, keys: iset<K>, counter: Tally -> nat): nat {
    if items == [] then 0
    else
      var item := items[|items| - 1];
      Sum(items[..|items| - 1], keys, counter) + if item.key in keys then counter(item.tally) else 0
  }

  ghost predicate Contributes<K>(items: seq<Item<K>>, keys: iset<K>, i: int) {
    0 <= i < |items| && items[i].key in keys
  }

  /** What a scan's fields mean: each counter is the plain sum of that counter, an optional counter
      is absent exactly when every contributor left it absent, and the interval is the tight hull. */
  lemma ScanMeans<K>(items: seq<Item<K>>, keys: iset<K>)
    requires Scan(items, keys).Some?
    ensures var t := Scan(items, keys).value;
      && t.conns == Sum(items, keys, (x: Tally) => x.conns)
      && t.latencyCount == Sum(items, keys, (x: Tally) => x.latencyCount)
      && t.latencySum == Sum(items, keys, (x: Tally) => x.latencySum)
      && Measured(t.failed) == Sum(items, keys, (x: Tally) => Measured(x.failed))
      && Measured(t.sent) == Sum(items, keys, (x: Tally) => Measured(x.sent))
      && Measured(t.received) == Sum(items, keys, (x: Tally) => Measured(x.received))
    ensures var t := Scan(items, keys).value;
      && (t.failed.None? <==> forall i :: Contributes(items, keys, i) ==> items[i].tally.failed.None?)
      && (t.sent.None? <==> forall i :: Contributes(items, keys, i) ==> items[i].tally.sent.None?)
      && (t.received.None? <==> forall i :: Contributes(items, keys, i) ==> items[i].tally.received.None?)
    ensures var t := Scan(items, keys).value;
      && (forall i :: Contributes(items, keys, i) ==> t.first <= items[i].tally.first && items[i].tally.last <= t.last)
      && (exists i :: Contributes(items, keys, i) && items[i].tally.first == t.first)
      && (exists i :: Contributes(items, keys, i) && items[i].tally.last == t.last)
  {
    ScanSums(items, keys);
    ScanAbsence(items, keys);
    ScanHull(items, keys);
  }

  ghost predicate SumsTo<K>(items: seq<Item<K>>, keys: iset<K>, t: Option<Tally>) {
    && (if t.Some? then t.value.conns else 0) == Sum(items, keys, (x: Tally) => x.conns)
    && (if t.Some? then t.value.latencyCount else 0) == Sum(items, keys, (x: Tally) => x.latencyCount)
    && (if t.Some? then t.value.latencySum else 0) == Sum(items, keys, (x: Tally) => x.latencySum)
    && (if t.Some? then Measured(t.value.failed) else 0) == Sum(items, keys, (x: Tally) => Measured(x.failed))
    && (if t.Some? then Measured(t.value.sent) else 0) == Sum(items, keys, (x: Tally) => Measured(x.sent))
    && (if t.Some? then Measured(t.value.received) else 0) == Sum(items, keys, (x: Tally) => Measured(x.received))
  }

  lemma {:induction false} ScanSums<K>(items: seq<Item<K>>, keys: iset<K>)
    ensures SumsTo(items, keys, Scan(items, keys))
  {
    if items != [] { ScanSums(items[..|items| - 1], keys); }
  }

  lemma ContributesInit<K>(items: seq<Item<K>>, keys: iset<K>)
    requires items != []
    ensures forall i :: Contributes(items, keys, i)
                   <==> Contributes(items[..|items| - 1], keys, i) || (i == |items| - 1 && items[i].key in keys)
  {
  }

  lemma {:induction false} ScanAbsence<K>(items: seq<Item<K>>, keys: iset<K>)
    ensures Scan(items, keys).Some? <==> exists i :: Contributes(items, keys, i)
    ensures var t := Scan(items, keys);
      t.Some? ==>
        && (t.value.failed.None? <==> forall i :: Contributes(items, keys, i) ==> items[i].tally.failed.None?)
        && (t.value.sent.None? <==> forall i :: Contributes(items, keys, i) ==> items[i].tally.sent.None?)
        && (t.value.received.None? <==> forall i :: Contributes(items, keys, i) ==> items[i].tally.received.None?)
  {
    if items != [] {
      ContributesInit(items, keys);
      ScanAbsence(items[..|items| - 1], keys);
    }
  }

  lemma {:induction false} ScanHull<K>(items: seq<Item<K>>, keys: iset<K>)
    requires Scan(items, keys).Some?
    ensures var t := Scan(items, keys).value;
      && (forall i :: Contributes(items, keys, i) ==> t.first <= items[i].tally.first && items[i].tally.last <= t.last)
      && (exists i :: Contributes(items, keys, i) && items[i].tally.first == t.first)
      && (exists i :: Contributes(items, keys, i) && items[i].tally.last == t.last)
  {
    var init, last := items[..|items| - 1], items[|items| - 1];
    ContributesInit(items, keys);
    ScanAbsence(init, keys);
    assert last.key in keys ==> Contributes(items, keys, |init|);
    if Scan(init, keys).Some? {
      ScanHull(init, keys);
      assert forall i :: Contributes(init, keys, i) ==> Contributes(items, keys, i) && items[i] == init[i];
    }
  }

  lemma {:induction false} TotalIsScan<K>(items: seq<Item<K>>, keys: iset<K>)
    requires forall i :: 0 <= i < |items| ==> items[i].key in keys
    ensures TotalAttempts(items) == Attempts(Scan(items, keys))
  {
    if items != [] { TotalIsScan(items[..|items| - 1], keys); }
  }

  lemma {:induction false} TotalConcat<K>(a: seq<Item<K>>, b: seq<Item<K>>)
    ensures TotalAttempts(a + b) == TotalAttempts(a) + TotalAttempts(b)
  {
    if b == [] {
      assert a + b == a;
    } else {
      TotalConcat(a, b[..|b| - 1]);
      assert (a + b)[..|a + b| - 1] == a + b[..|b| - 1];
    }
  }

  /** Grouping neither loses nor makes up an attempt. */
  lemma GroupingConserves<K>(groups: seq<Item<K>>, items: seq<Item<K>>)
    requires Groups(groups, items)
    ensures TotalAttempts(groups) == TotalAttempts(items)
  {
    var keys := KeysOf(items);
    forall i | 0 <= i < |items| ensures items[i].key in keys {}
    forall i | 0 <= i < |groups| ensures groups[i].key in keys { assert groups[i].key in KeysOf(groups); }
    TotalIsScan(groups, keys);
    TotalIsScan(items, keys);
    GroupsScanAlike(groups, items, keys);
  }

  function Rekey<J, K>(items: seq<Item<J>>, h: J -> K): (r: seq<Item<K>>)
    ensures |r| == |items|
    ensures forall i :: 0 <= i < |r| ==> r[i] == Item(h(items[i].key), items[i].tally)
  {
    seq(|items|, i requires 0 <= i < |items| => Item(h(items[i].key), items[i].tally))
  }

  ghost function Preimage<J(!new), K>(h: J -> K, keys: iset<K>): iset<J> {
    iset j: J | h(j) in keys
  }

  lemma {:induction false} ScanRekey<J(!new), K>(items: seq<Item<J>>, h: J -> K, keys: iset<K>)
    ensures Scan(Rekey(items, h), keys) == Scan(items, Preimage(h, keys))
  {
    if items != [] {
      ScanRekey(items[..|items| - 1], h, keys);
      assert Rekey(items, h)[..|items| - 1] == Rekey(items[..|items| - 1], h);
    }
  }

  lemma {:induction false} SubsetSize<T>(a: set<T>, b: set<T>)
    requires a <= b
    ensures |a| <= |b|
  {
    if a != {} {
      var x :| x in a;
      SubsetSize(a - {x}, b - {x});
    }
  }
}
