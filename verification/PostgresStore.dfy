/**
 The PostgreSQL storage adapter, as tables of rows, and its agreement with the in-memory one.

 The adapter merges a batch's nodes before it writes them, upserts rows under NULL-aware rules,
 aggregates in SQL and purges in bounded steps. Rows are compared as maps: SQL's collation may
 order text differently from Python. The `query` text filter is compared nowhere here.
 */
module PostgresStore {
  import opened Tallies
  import opened Ordering
  import opened Contract
  import opened MemoryStore
  import A = Aggregate

  const PURGE_BATCH := 5_000

  datatype RowKey = RowKey(cluster: string, bucket: BucketKey)

  /** ingest_batches (with received_at), edge_buckets and nodes. */
  datatype Tables = Tables(
    received: map<string, int>,
    buckets: map<RowKey, Tally>,
    nodes: map<string, StoredNode>)

  // ---- Ingestion, on values ----

  /** One mention of a node. PostgreSQL's pre-merge keeps the latest ref, the in-memory adapter the first. */
  function Note(m: map<string, Sighting>, ref: NodeRef, first: int, last: int, latest: bool): map<string, Sighting> {
    if ref.id in m then
      var seen := m[ref.id];
      m[ref.id := Sighting(if latest then ref else seen.ref, Min(seen.first, first), Max(seen.last, last))]
    else
      m[ref.id := Sighting(ref, first, last)]
  }

  function PreMerge(edges: seq<Edge>, latest: bool): map<string, Sighting> {
    if edges == [] then map[]
    else
      var e := edges[|edges| - 1];
      var m := Note(PreMerge(edges[..|edges| - 1], latest), e.source, e.tally.first, e.tally.last, latest);
      Note(m, e.target, e.tally.first, e.tally.last, latest)
  }

  /** INSERT ... ON CONFLICT (id) DO UPDATE SET first_seen = LEAST(...), last_seen = GREATEST(...). */
  function UpsertRow(nodes: map<string, StoredNode>, cluster: string, m: Sighting): map<string, StoredNode> {
    Upsert(nodes, cluster, m.ref, m.first, m.last)
  }

  /** Every mention upserted. The order does not matter, so none is given. */
  function UpsertAll(nodes: map<string, StoredNode>, cluster: string, m: map<string, Sighting>): map<string,
      StoredNode> {
    map id | id in nodes.Keys + m.Keys ::
      if id !in m then nodes[id]
      else if id in nodes then
        nodes[id].(first := Min(nodes[id].first, m[id].first), last := Max(nodes[id].last, m[id].last))
      else
        StoredNode(id, cluster, m[id].ref.kind, m[id].ref.namespace, m[id].ref.name, m[id].ref.name, m[id].first,
          m[id].last)
  }

  /** CASE WHEN both NULL THEN NULL ELSE COALESCE(a, 0) + COALESCE(b, 0) END. */
  function CaseSum(a: Option<nat>, b: Option<nat>): Option<nat> {
    if a.None? && b.None? then None else Some(Measured(a) + Measured(b))
  }

  function SqlMerge(row: Tally, excluded: Tally): Tally {
    Tally(row.conns + excluded.conns,
          CaseSum(row.failed, excluded.failed),
          row.latencyCount + excluded.latencyCount,
          row.latencySum + excluded.latencySum,
          CaseSum(row.sent, excluded.sent),
          CaseSum(row.received, excluded.received),
          Min(row.first, excluded.first),
          Max(row.last, excluded.last))
  }

  function UpsertBucket(buckets: map<RowKey, Tally>, cluster: string, e: Edge): map<RowKey, Tally> {
    var k := RowKey(cluster, KeyFor(e));
    buckets[k := if k in buckets then SqlMerge(buckets[k], e.tally) else e.tally]
  }

  function UpsertBuckets(buckets: map<RowKey, Tally>, cluster: string, edges: seq<Edge>): map<RowKey, Tally> {
    if edges == [] then buckets
    else UpsertBucket(UpsertBuckets(buckets, cluster, edges[..|edges| - 1]), cluster, edges[|edges| - 1])
  }

  /** The transaction. `now` is the database's clock at insert. */
  function Transact(t: Tables, b: Batch, now: int): (Tables, Outcome) {
    if b.id in t.received then (t, AlreadyIngested)
    else (Tables(t.received[b.id := now],
                 UpsertBuckets(t.buckets, b.cluster, b.edges),
                 UpsertAll(t.nodes, b.cluster, PreMerge(b.edges, true))), Ingested)
  }

  // ---- The same merge twice ----

  /** What the in-memory adapter would hold for one cluster. */
  function View(t: Tables, cluster: string): Store {
    Store(cluster, t.received.Keys, BucketsOf(t.buckets, cluster), t.nodes)
  }

  function BucketsOf(buckets: map<RowKey, Tally>, cluster: string): map<BucketKey, Tally> {
    map k | k in (set r | r in buckets && r.cluster == cluster :: r.bucket) :: buckets[RowKey(cluster, k)]
  }

  lemma SqlMergeIsMerge(a: Tally, b: Tally)
    ensures SqlMerge(a, b) == Merge(a, b)
  {
  }

  lemma BucketsOfAt(rows: map<RowKey, Tally>, cluster: string, k: BucketKey)
    ensures Lookup(BucketsOf(rows, cluster), k) == Lookup(rows, RowKey(cluster, k))
  {
    if RowKey(cluster, k) in rows { assert RowKey(cluster, k).bucket == k; }
  }

  lemma BucketAgrees(rows: map<RowKey, Tally>, cluster: string, e: Edge)
    ensures BucketsOf(UpsertBucket(rows, cluster, e), cluster) == MergeBucket(BucketsOf(rows, cluster), e)
  {
    var a, b := BucketsOf(UpsertBucket(rows, cluster, e), cluster), MergeBucket(BucketsOf(rows, cluster), e);
    forall k ensures Lookup(a, k) == Lookup(b, k) {
      BucketsOfAt(rows, cluster, k);
      BucketsOfAt(UpsertBucket(rows, cluster, e), cluster, k);
      BucketsOfAt(rows, cluster, KeyFor(e));
      if RowKey(cluster, k) in rows { SqlMergeIsMerge(rows[RowKey(cluster, k)], e.tally); }
    }
    SameLookups(a, b);
  }

  lemma SameLookups<K, V>(a: map<K, V>, b: map<K, V>)
    requires forall k :: Lookup(a, k) == Lookup(b, k)
    ensures a == b
  {
    forall k ensures k in a <==> k in b { assert Lookup(a, k) == Lookup(b, k); }
    forall k | k in a ensures a[k] == b[k] { assert Lookup(a, k) == Lookup(b, k); }
  }

  lemma {:induction false} BucketsAgree(rows: map<RowKey, Tally>, s: Store, edges: seq<Edge>)
    requires BucketsOf(rows, s.cluster) == s.buckets
    ensures BucketsOf(UpsertBuckets(rows, s.cluster, edges), s.cluster) == IngestEdges(s, edges).buckets
  {
    if edges != [] {
      var init, e := edges[..|edges| - 1], edges[|edges| - 1];
      BucketsAgree(rows, s, init);
      BucketAgrees(UpsertBuckets(rows, s.cluster, init), s.cluster, e);
    }
  }

  lemma {:induction false} IngestEdgesFrame(s: Store, edges: seq<Edge>)
    ensures IngestEdges(s, edges).cluster == s.cluster && IngestEdges(s, edges).batches == s.batches
  {
    if edges != [] { IngestEdgesFrame(s, edges[..|edges| - 1]); }
  }

  lemma UpsertAllNote(nodes: map<string, StoredNode>, cluster: string, m: map<string, Sighting>, ref: NodeRef,
      first: int, last: int)
    requires forall id :: id in m ==> m[id].ref.id == id
    ensures UpsertAll(nodes, cluster, Note(m, ref, first, last, false))
         == Upsert(UpsertAll(nodes, cluster, m), cluster, ref, first, last)
  {
  }

  lemma {:induction false} MentionsNameThemselves(edges: seq<Edge>, latest: bool)
    ensures forall id :: id in PreMerge(edges, latest) ==> PreMerge(edges, latest)[id].ref.id == id
  {
    if edges != [] { MentionsNameThemselves(edges[..|edges| - 1], latest); }
  }

  /** The in-memory adapter's edge-by-edge upserts amount to a pre-merge that keeps first refs. */
  lemma {:induction false} MemoryNodes(s: Store, edges: seq<Edge>)
    ensures IngestEdges(s, edges).nodes == UpsertAll(s.nodes, s.cluster, PreMerge(edges, false))
  {
    if edges != [] {
      var init, e := edges[..|edges| - 1], edges[|edges| - 1];
      MemoryNodes(s, init);
      IngestEdgesFrame(s, init);
      MentionsNameThemselves(init, false);
      var m := PreMerge(init, false);
      var m' := Note(m, e.source, e.tally.first, e.tally.last, false);
      UpsertAllNote(s.nodes, s.cluster, m, e.source, e.tally.first, e.tally.last);
      UpsertAllNote(s.nodes, s.cluster, m', e.target, e.tally.first, e.tally.last);
    }
  }

  lemma {:induction false} PreMergesDifferOnlyInRef(edges: seq<Edge>)
    ensures PreMerge(edges, true).Keys == PreMerge(edges, false).Keys
    ensures forall id :: id in PreMerge(edges, true) ==>
      PreMerge(edges, true)[id].(ref := PreMerge(edges, false)[id].ref) == PreMerge(edges, false)[id]
  {
    if edges != [] { PreMergesDifferOnlyInRef(edges[..|edges| - 1]); }
  }

  /** Every mention of a node in a batch, in order: each edge names its source and then its target. */
  function Mentions(edges: seq<Edge>): seq<Sighting> {
    if edges == [] then []
    else
      var e := edges[|edges| - 1];
      Mentions(edges[..|edges| - 1]) +
        [Sighting(e.source, e.tally.first, e.tally.last), Sighting(e.target, e.tally.first, e.tally.last)]
  }

  predicate IsFirst(ms: seq<Sighting>, i: nat) {
    i < |ms| && forall k :: 0 <= k < i ==> ms[k].ref.id != ms[i].ref.id
  }

  predicate IsLast(ms: seq<Sighting>, i: nat) {
    i < |ms| && forall k :: i < k < |ms| ==> ms[k].ref.id != ms[i].ref.id
  }

  /** Every node a batch brings in anew is described the same way by its first and last mention. */
  ghost predicate StableRefs(known: set<string>, edges: seq<Edge>) {
    var ms := Mentions(edges);
    forall i: nat, j: nat ::
      IsFirst(ms, i) && IsLast(ms, j) && ms[i].ref.id == ms[j].ref.id && ms[i].ref.id !in known ==>
      ms[i].ref == ms[j].ref
  }

  function NoteAll(ms: seq<Sighting>, latest: bool): map<string, Sighting> {
    if ms == [] then map[]
    else
      var m := ms[|ms| - 1];
      Note(NoteAll(ms[..|ms| - 1], latest), m.ref, m.first, m.last, latest)
  }

  lemma {:induction false} PreMergeNotesAll(edges: seq<Edge>, latest: bool)
    ensures PreMerge(edges, latest) == NoteAll(Mentions(edges), latest)
  {
    if edges != [] {
      var e := edges[|edges| - 1];
      var before := Mentions(edges[..|edges| - 1]);
      PreMergeNotesAll(edges[..|edges| - 1], latest);
      var source, target := Sighting(e.source, e.tally.first, e.tally.last),
        Sighting(e.target, e.tally.first, e.tally.last);
      var all := before + [source, target];
      assert all[..|all| - 1] == before + [source] && (before + [source])[..|before|] == before;
      hide Note;
      assert NoteAll(before + [source], latest) ==
        Note(NoteAll(before, latest), source.ref, source.first, source.last, latest);
    }
  }

  lemma {:induction false} NotedIsMentioned(ms: seq<Sighting>, latest: bool, id: string)
    ensures id in NoteAll(ms, latest) <==> exists i :: 0 <= i < |ms| && ms[i].ref.id == id
  {
    if ms != [] {
      var init := ms[..|ms| - 1];
      NotedIsMentioned(init, latest, id);
      assert forall i :: 0 <= i < |init| ==> init[i] == ms[i];
    }
  }

  /** Keeping the ref already noted keeps the first mention's ... */
  lemma {:induction false} FirstIsKept(ms: seq<Sighting>, i: nat)
    requires IsFirst(ms, i)
    ensures ms[i].ref.id in NoteAll(ms, false) && NoteAll(ms, false)[ms[i].ref.id].ref == ms[i].ref
  {
    var init := ms[..|ms| - 1];
    assert forall k :: 0 <= k < |init| ==> init[k] == ms[k];
    if i < |init| {
      FirstIsKept(init, i);
    } else {
      NotedIsMentioned(init, false, ms[i].ref.id);
    }
  }

  /** ... and replacing it each time keeps the last one's. */
  lemma {:induction false} LastIsKept(ms: seq<Sighting>, i: nat)
    requires IsLast(ms, i)
    ensures ms[i].ref.id in NoteAll(ms, true) && NoteAll(ms, true)[ms[i].ref.id].ref == ms[i].ref
  {
    var init := ms[..|ms| - 1];
    assert forall k :: 0 <= k < |init| ==> init[k] == ms[k];
    if i < |init| {
      LastIsKept(init, i);
    }
  }

  lemma {:induction false} HasFirstAndLast(ms: seq<Sighting>, n: nat) returns (i: nat, j: nat)
    requires n < |ms|
    ensures IsFirst(ms, i) && IsLast(ms, j) && ms[i].ref.id == ms[j].ref.id == ms[n].ref.id
  {
    i, j := n, n;
    while exists k :: 0 <= k < i && ms[k].ref.id == ms[n].ref.id
      invariant i < |ms| && ms[i].ref.id == ms[n].ref.id
      decreases i
    {
      var k :| 0 <= k < i && ms[k].ref.id == ms[n].ref.id;
      i := k;
    }
    while exists k :: j < k < |ms| && ms[k].ref.id == ms[n].ref.id
      invariant j < |ms| && ms[j].ref.id == ms[n].ref.id
      decreases |ms| - j
    {
      var k :| j < k < |ms| && ms[k].ref.id == ms[n].ref.id;
      j := k;
    }
  }

  predicate SameDescriptions(known: set<string>, first: map<string, Sighting>, last: map<string, Sighting>) {
    forall id :: id in first && id in last && id !in known ==> first[id].ref == last[id].ref
  }

  /** The condition on the batch is the condition on the two pre-merges. */
  lemma StableMeansSameDescriptions(known: set<string>, edges: seq<Edge>)
    ensures StableRefs(known, edges) <==> SameDescriptions(known, PreMerge(edges, false), PreMerge(edges, true))
  {
    var ms := Mentions(edges);
    PreMergeNotesAll(edges, false);
    PreMergeNotesAll(edges, true);
    var first, last := NoteAll(ms, false), NoteAll(ms, true);
    hide NoteAll, PreMerge, Mentions;
    forall i: nat, j: nat | IsFirst(ms, i) && IsLast(ms, j) && ms[i].ref.id == ms[j].ref.id
      ensures ms[i].ref.id in first && first[ms[i].ref.id].ref == ms[i].ref
      ensures ms[i].ref.id in last && last[ms[i].ref.id].ref == ms[j].ref
    {
      FirstIsKept(ms, i);
      LastIsKept(ms, j);
    }
    if StableRefs(known, edges) {
      forall id | id in first && id in last && id !in known ensures first[id].ref == last[id].ref {
        NotedIsMentioned(ms, false, id);
        var n :| 0 <= n < |ms| && ms[n].ref.id == id;
        var i, j := HasFirstAndLast(ms, n);
        assert first[id].ref == ms[i].ref && last[id].ref == ms[j].ref;
      }
    }
  }

  /** The two adapters agree after one batch: always on buckets, gate and outcome; on the node table
      exactly when no newly named node changes its description inside the batch. */
  lemma AdaptersAgree(t: Tables, b: Batch, now: int)
    ensures var (t', o) := Transact(t, b, now);
      var (s', o') := Ingest(View(t, b.cluster), b);
      && o == o'
      && View(t', b.cluster).buckets == s'.buckets
      && View(t', b.cluster).batches == s'.batches
      && (View(t', b.cluster) == s' <==> b.id in t.received || StableRefs(t.nodes.Keys, b.edges))
  {
    if b.id !in t.received {
      FreshBatchAgrees(t, b, now);
      NodesAgreeIff(t.nodes, b.cluster, b.edges);
    }
  }

  lemma FreshBatchAgrees(t: Tables, b: Batch, now: int)
    requires b.id !in t.received
    ensures var t' := View(Transact(t, b, now).0, b.cluster);
      var s' := Ingest(View(t, b.cluster), b).0;
      && t'.cluster == s'.cluster && t'.batches == s'.batches && t'.buckets == s'.buckets
      && t'.nodes == UpsertAll(t.nodes, b.cluster, PreMerge(b.edges, true))
      && s'.nodes == UpsertAll(t.nodes, b.cluster, PreMerge(b.edges, false))
  {
    hide IngestEdges, UpsertBuckets, UpsertAll, PreMerge, BucketsOf;
    var s := View(t, b.cluster);
    var gated := s.(batches := s.batches + {b.id});
    BucketsAgree(t.buckets, gated, b.edges);
    IngestEdgesFrame(gated, b.edges);
    MemoryNodes(gated, b.edges);
    assert t.received[b.id := now].Keys == t.received.Keys + {b.id};
  }

  lemma NodesAgreeIff(nodes: map<string, StoredNode>, cluster: string, edges: seq<Edge>)
    ensures UpsertAll(nodes, cluster, PreMerge(edges, true)) == UpsertAll(nodes, cluster, PreMerge(edges, false))
       <==> StableRefs(nodes.Keys, edges)
  {
    var last, first := PreMerge(edges, true), PreMerge(edges, false);
    StableMeansSameDescriptions(nodes.Keys, edges);
    PreMergesDifferOnlyInRef(edges);
    MentionsNameThemselves(edges, true);
    MentionsNameThemselves(edges, false);
    var a, b := UpsertAll(nodes, cluster, last), UpsertAll(nodes, cluster, first);
    if a == b {
      forall id | id in first && id in last && id !in nodes ensures first[id].ref == last[id].ref {
        assert a[id] == b[id];
      }
    }
  }

  /** A batch whose edges describe one new node two ways leaves the adapters apart. */
  lemma AdaptersCanDiffer(t: Tables, b: Batch, e: Edge, f: Edge, now: int)
    requires b.edges == [e, f] && b.id !in t.received && e.source.id !in t.nodes
    requires e.source.id == f.source.id && e.source != f.source
    requires e.target.id != e.source.id && f.target.id != f.source.id
    ensures View(Transact(t, b, now).0, b.cluster) != Ingest(View(t, b.cluster), b).0
  {
    AdaptersAgree(t, b, now);
    StableMeansSameDescriptions(t.nodes.Keys, b.edges);
    TwoDescriptions(e, f, true);
    TwoDescriptions(e, f, false);
  }

  lemma TwoDescriptions(e: Edge, f: Edge, latest: bool)
    requires e.source.id == f.source.id && e.target.id != e.source.id && f.target.id != f.source.id
    ensures var m := PreMerge([e, f], latest);
      e.source.id in m && m[e.source.id].ref == if latest then f.source else e.source
  {
    assert [e, f][..1] == [e] && [e][..0] == [];
    var m0: map<string, Sighting> := map[];
    assert PreMerge([e][..0], latest) == m0;
    assert PreMerge([e], latest)[e.source.id].ref == e.source;
  }

  // ---- Aggregation ----

  /** What GROUP BY with SUM, MIN and MAX promises for the rows of one group. */
  ghost predicate IsAggregate<K>(rows: seq<Item<K>>, group: iset<K>, t: Tally) {
    && t.conns == Sum(rows, group, (x: Tally) => x.conns)
    && t.latencyCount == Sum(rows, group, (x: Tally) => x.latencyCount)
    && t.latencySum == Sum(rows, group, (x: Tally) => x.latencySum)
    && t.failed == SqlSum(rows, group, (x: Tally) => x.failed)
    && t.sent == SqlSum(rows, group, (x: Tally) => x.sent)
    && t.received == SqlSum(rows, group, (x: Tally) => x.received)
    && (forall i :: Contributes(rows, group, i) ==> t.first <= rows[i].tally.first && rows[i].tally.last <= t.last)
    && (exists i :: Contributes(rows, group, i) && rows[i].tally.first == t.first)
    && (exists i :: Contributes(rows, group, i) && rows[i].tally.last == t.last)
  }

  /** SUM over a nullable column: NULL exactly when every value is NULL. */
  ghost function SqlSum<K>(rows: seq<Item<K>>, group: iset<K>, column: Tally -> Option<nat>): Option<nat> {
    if forall i :: Contributes(rows, group, i) ==> column(rows[i].tally).None? then None
    else Some(Sum(rows, group, (x: Tally) => Measured(column(x))))
  }

  /** SQL's column-wise aggregate of a group is the row-by-row merge of it, and there is one iff there is a row. */
  lemma AggregateIsScan<K>(rows: seq<Item<K>>, group: iset<K>, t: Tally)
    ensures IsAggregate(rows, group, t) <==> Scan(rows, group) == Some(t)
  {
    if Scan(rows, group).Some? {
      ScanMeans(rows, group);
      SumsAgree(rows, group);
    } else {
      ScanNone(rows, group);
      forall i | 0 <= i < |rows| ensures !Contributes(rows, group, i) {
        assert rows[i].key in KeysOf(rows);
      }
    }
  }

  lemma SumsAgree<K>(rows: seq<Item<K>>, group: iset<K>)
    ensures Sum(rows, group, (x: Tally) => Measured(((y: Tally) => y.failed)(x))) ==
      Sum(rows, group, (x: Tally) => Measured(x.failed))
    ensures Sum(rows, group, (x: Tally) => Measured(((y: Tally) => y.sent)(x))) ==
      Sum(rows, group, (x: Tally) => Measured(x.sent))
    ensures Sum(rows, group, (x: Tally) => Measured(((y: Tally) => y.received)(x))) ==
      Sum(rows, group, (x: Tally) => Measured(x.received))
  {
    SumCongruence(rows, group, (x: Tally) => Measured(((y: Tally) => y.failed)(x)), (x: Tally) => Measured(x.failed));
    SumCongruence(rows, group, (x: Tally) => Measured(((y: Tally) => y.sent)(x)), (x: Tally) => Measured(x.sent));
    SumCongruence(rows, group, (x: Tally) => Measured(((y: Tally) => y.received)(x)),
      (x: Tally) => Measured(x.received));
  }

  lemma {:induction false} SumCongruence<K>(rows: seq<Item<K>>, group: iset<K>, f: Tally -> nat, g: Tally -> nat)
    requires forall t :: f(t) == g(t)
    ensures Sum(rows, group, f) == Sum(rows, group, g)
  {
    if rows != [] { SumCongruence(rows[..|rows| - 1], group, f, g); }
  }

  /** `rows` is a result set of the whole table, in whatever order the database returned it. */
  ghost predicate Enumerates<K(!new)>(rows: seq<Item<K>>, m: map<K, Tally>) {
    && DistinctKeys(rows)
    && (forall k :: k in KeysOf(rows) <==> k in m)
    && forall i :: 0 <= i < |rows| ==> Lookup(m, rows[i].key) == Some(rows[i].tally)
  }

  lemma TableGroupsLog<K(!new)>(rows: seq<Item<K>>, m: map<K, Tally>, items: seq<Item<K>>)
    requires Enumerates(rows, m) && Indexes(m, items)
    ensures Groups(rows, items)
  {
    forall k ensures k in KeysOf(rows) <==> k in KeysOf(items) {
      assert Lookup(m, k) == Scan(items, iset{k});
      ScanNone(items, iset{k});
    }
  }

  /** The WHERE clause over the two joined node rows, without the text search. */
  predicate Selected(nodes: map<string, StoredNode>, source: string, target: string, f: Filters) {
    && source in nodes && target in nodes
    && var s, t := nodes[source], nodes[target];
    && (!f.includeExternal ==> s.id != EXTERNAL_NODE_ID && t.id != EXTERNAL_NODE_ID)
    && (f.namespaces != [] ==> InNamespace(s, f) || InNamespace(t, f))
    && (f.kind != "" ==> s.kind == f.kind || t.kind == f.kind)
  }

  /** For every edge, SQL returns the row `agg` exactly when a naive scan of the log answers `agg`. */
  lemma SqlQueryAnswersLog(t: Tables, cluster: string, log: seq<Edge>, rows: seq<Item<BucketKey>>, w: Window,
      f: Filters, casefold: string -> string, edge: EdgeKey, agg: Tally)
    requires Invariant(View(t, cluster), log)
    requires Enumerates(rows, BucketsOf(t.buckets, cluster))
    requires f.query == ""
    ensures Selected(t.nodes, edge.source, edge.target, f) && IsAggregate(rows, InWindow(w, edge), agg)
       <==> Answer(log, t.nodes, w, f, casefold, edge) == Some(agg)
  {
    TableGroupsLog(rows, BucketsOf(t.buckets, cluster), Items(log));
    GroupsScanAlike(rows, Items(log), InWindow(w, edge));
    AggregateIsScan(rows, InWindow(w, edge), agg);
    assert Selected(t.nodes, edge.source, edge.target, f) <==> Passes(t.nodes, edge.source, edge.target, f, casefold);
  }

  // ---- Retention ----

  function Referenced(buckets: map<RowKey, Tally>): set<string> {
    (set r | r in buckets :: r.bucket.edge.source) + (set r | r in buckets :: r.bucket.edge.target)
  }

  /** Unlike the in-memory adapter, retention also forgets old batch ids. */
  function Sweep(t: Tables, before: int): Tables {
    var buckets := map r | r in t.buckets && r.bucket.minute >= before :: t.buckets[r];
    Tables(map id | id in t.received && t.received[id] >= before :: t.received[id],
           buckets,
           map id | id in t.nodes && id in Referenced(buckets) :: t.nodes[id])
  }

  ghost predicate OneCluster(t: Tables, cluster: string) {
    forall r :: r in t.buckets ==> r.cluster == cluster
  }

  lemma SweepAgrees(t: Tables, cluster: string, before: int)
    requires OneCluster(t, cluster)
    ensures OneCluster(Sweep(t, before), cluster)
    ensures View(Sweep(t, before), cluster).buckets == Purge(View(t, cluster), before).buckets
    ensures View(Sweep(t, before), cluster).nodes == Purge(View(t, cluster), before).nodes
  {
    var a, b := View(Sweep(t, before), cluster), Purge(View(t, cluster), before);
    forall k ensures Lookup(a.buckets, k) == Lookup(b.buckets, k) {
      BucketsOfAt(Sweep(t, before).buckets, cluster, k);
      BucketsOfAt(t.buckets, cluster, k);
    }
    SameLookups(a.buckets, b.buckets);
    var rows := Sweep(t, before).buckets;
    forall id ensures id in Referenced(rows) <==> id in Endpoints(b.buckets) {
      EndpointsAre(b.buckets, id);
      if id in Referenced(rows) {
        var r :| r in rows && (r.bucket.edge.source == id || r.bucket.edge.target == id);
        assert r == RowKey(cluster, r.bucket);
        BucketsOfAt(rows, cluster, r.bucket);
      }
      if id in Endpoints(b.buckets) {
        var k :| k in b.buckets && (k.edge.source == id || k.edge.target == id);
        BucketsOfAt(rows, cluster, k);
        assert RowKey(cluster, k) in rows;
      }
    }
  }

  /** A replay counts twice exactly when retention has forgotten its id: its edges join the log again. */
  lemma ReplayAfterSweep(t: Tables, b: Batch, before: int, now: int, log: seq<Edge>)
    requires b.id in t.received && OneCluster(t, b.cluster) && Invariant(View(t, b.cluster), log)
    ensures Transact(t, b, now).1 == AlreadyIngested
    ensures Transact(Sweep(t, before), b, now).1 == Ingested <==> t.received[b.id] < before
    ensures var again := Transact(Sweep(t, before), b, now).0;
      Indexes(View(again, b.cluster).buckets,
        Items(Keep(log, before) + if t.received[b.id] < before then b.edges else []))
  {
    var swept := Sweep(t, before);
    SweptIndex(t, b.cluster, before, log);
    if b.id in swept.received {
      assert Keep(log, before) + [] == Keep(log, before);
      hide Invariant, Keep;
      IndexOnly(View(swept, b.cluster), Keep(log, before));
    } else {
      hide Invariant, Keep, Sweep, View;
      AdaptersAgree(swept, b, now);
      IngestKeeps(View(swept, b.cluster), Keep(log, before), b);
      IndexOnly(Ingest(View(swept, b.cluster), b).0, Keep(log, before) + b.edges);
      assert b.id !in View(swept, b.cluster).batches by { NotReceived(swept, b); }
      hide Ingest, Transact;
    }
  }

  lemma NotReceived(t: Tables, b: Batch)
    ensures b.id in View(t, b.cluster).batches <==> b.id in t.received
  {
  }

  lemma SweptIndex(t: Tables, cluster: string, before: int, log: seq<Edge>)
    requires OneCluster(t, cluster) && Invariant(View(t, cluster), log)
    ensures Invariant(View(Sweep(t, before), cluster), Keep(log, before))
  {
    SweepAgrees(t, cluster, before);
    PurgeKeeps(View(t, cluster), log, before);
    hide Keep, Sweep, BucketsOf, Indexes;
  }

  lemma IndexOnly(s: Store, log: seq<Edge>)
    requires Invariant(s, log)
    ensures Indexes(s.buckets, Items(log))
  {
  }

  // ---- Purging is several transactions ----

  /** Each statement of a purge commits by itself, so batches may be stored in between. */
  datatype Statement =
    | DropRows(rows: set<RowKey>, before: int)
    | DropOrphans
    | ForgetIds(before: int)
    | Commit(batch: Batch, now: int)

  predicate Allowed(t: Tables, st: Statement) {
    st.DropRows? ==> forall r :: r in st.rows ==> r in t.buckets && r.bucket.minute < st.before
  }

  function Execute(t: Tables, st: Statement): Tables {
    match st
    case DropRows(rows, _) => t.(buckets := t.buckets - rows)
    case DropOrphans => t.(nodes := map id | id in t.nodes && id in Referenced(t.buckets) :: t.nodes[id])
    case ForgetIds(before) => t.(received := map id | id in t.received && t.received[id] >= before :: t.received[id])
    case Commit(b, now) => Transact(t, b, now).0
  }

  predicate CanExecute(t: Tables, sts: seq<Statement>)
    decreases |sts|
  {
    sts == [] || (Allowed(t, sts[0]) && CanExecute(Execute(t, sts[0]), sts[1..]))
  }

  function ExecuteAll(t: Tables, sts: seq<Statement>): Tables
    decreases |sts|
  {
    if sts == [] then t else ExecuteAll(Execute(t, sts[0]), sts[1..])
  }

  /** Every bucket's ends are in the node table. */
  predicate Rooted(t: Tables) { Referenced(t.buckets) <= t.nodes.Keys }

  lemma {:induction false} UpsertsAreMentioned(rows: map<RowKey, Tally>, cluster: string, edges: seq<Edge>)
    ensures rows.Keys <= UpsertBuckets(rows, cluster, edges).Keys
    ensures Referenced(UpsertBuckets(rows, cluster, edges)) <= Referenced(rows) + PreMerge(edges, true).Keys
  {
    if edges != [] {
      var init, e := edges[..|edges| - 1], edges[|edges| - 1];
      UpsertsAreMentioned(rows, cluster, init);
      var mid := UpsertBuckets(rows, cluster, init);
      assert KeyFor(e).edge == e.Key();
      assert Referenced(UpsertBucket(mid, cluster, e)) <= Referenced(mid) + {e.source.id, e.target.id};
      var m := Note(PreMerge(init, true), e.source, e.tally.first, e.tally.last, true);
      assert PreMerge(init, true).Keys + {e.source.id, e.target.id} ==
        Note(m, e.target, e.tally.first, e.tally.last, true).Keys;
    }
  }

  lemma ExecuteKeepsRooted(t: Tables, st: Statement)
    requires Rooted(t) && Allowed(t, st)
    ensures Rooted(Execute(t, st))
    ensures forall r :: r in t.buckets && (st.DropRows? ==> st.before <= r.bucket.minute) ==>
      r in Execute(t, st).buckets
  {
    match st
    case DropRows(rows, _) =>
      assert forall r :: r in t.buckets - rows ==> r in t.buckets;
      assert Referenced(t.buckets - rows) <= Referenced(t.buckets);
    case Commit(b, now) => UpsertsAreMentioned(t.buckets, b.cluster, b.edges);
    case _ =>
  }

  /**
   In whatever order the statements of purges and the ingestion of batches commit, both ends of every
   bucket stay in the node table, and no bucket at or after the latest cut is dropped.
   */
  lemma {:induction false} StatementsKeepEndpoints(t: Tables, sts: seq<Statement>, cut: int)
    requires Rooted(t) && CanExecute(t, sts) && forall st :: st in sts && st.DropRows? ==> st.before <= cut
    ensures Rooted(ExecuteAll(t, sts))
    ensures forall r :: r in t.buckets && cut <= r.bucket.minute ==> r in ExecuteAll(t, sts).buckets
    decreases |sts|
  {
    if sts != [] {
      assert sts[0] in sts;
      ExecuteKeepsRooted(t, sts[0]);
      hide Rooted, Allowed, Execute;
      StatementsKeepEndpoints(Execute(t, sts[0]), sts[1..], cut);
    }
  }

  // ---- Whole histories ----

  datatype Event = Arrive(batch: Batch, now: int) | Retain(before: int)

  function PlainOp(e: Event): Op {
    match e
    case Arrive(b, _) => IngestOp(b)
    case Retain(before) => PurgeOp(before)
  }

  function PlainOps(events: seq<Event>): (r: seq<Op>)
    ensures |r| == |events|
    ensures forall i :: 0 <= i < |r| ==> r[i] == PlainOp(events[i])
  {
    seq(|events|, i requires 0 <= i < |events| => PlainOp(events[i]))
  }

  function RunTables(events: seq<Event>): Tables {
    if events == [] then Tables(map[], map[], map[])
    else
      var t := RunTables(events[..|events| - 1]);
      match events[|events| - 1]
      case Arrive(b, now) => Transact(t, b, now).0
      case Retain(before) => Sweep(t, before)
  }

  /** The same rows; PostgreSQL may have forgotten batch ids. */
  predicate Alike(v: Store, s: Store) {
    v.buckets == s.buckets && v.nodes == s.nodes && v.batches <= s.batches
  }

  predicate Agree(events: seq<Event>, cluster: string) {
    Alike(View(RunTables(events), cluster), Run(cluster, PlainOps(events)))
  }

  /** After every event of the history. */
  predicate AgreeThroughout(events: seq<Event>, cluster: string) {
    forall n :: 0 <= n <= |events| ==> Agree(events[..n], cluster)
  }

  // ---- How long an id is remembered, by arrival times and cuts alone ----

  predicate IsArrival(events: seq<Event>, i: int, id: string) {
    0 <= i < |events| && events[i].Arrive? && events[i].batch.id == id
  }

  predicate IsFirstArrival(events: seq<Event>, i: int, id: string) {
    IsArrival(events, i, id) && forall h :: 0 <= h < i ==> !IsArrival(events, h, id)
  }

  /** No retention after event `i` has cut past the time of that event. */
  predicate Uncut(events: seq<Event>, i: int, until: int)
    requires 0 <= i < |events| && events[i].Arrive? && until <= |events|
  {
    forall k :: i < k < until && events[k].Retain? ==> events[k].before <= events[i].now
  }

  /** The time on file for an id: that of its first arrival, or of the next one after a cut past it. */
  function Stamp(events: seq<Event>, id: string): Option<int> {
    if events == [] then None
    else
      var stamp := Stamp(events[..|events| - 1], id);
      match events[|events| - 1]
      case Arrive(b, now) => if b.id == id && stamp.None? then Some(now) else stamp
      case Retain(before) => if stamp.Some? && stamp.value < before then None else stamp
  }

  lemma {:induction false} ReceivedIsStamped(events: seq<Event>, id: string)
    ensures Lookup(RunTables(events).received, id) == Stamp(events, id)
  {
    if events != [] {
      hide UpsertBuckets, UpsertAll, PreMerge, Referenced;
      ReceivedIsStamped(events[..|events| - 1], id);
    }
  }

  /** A replay arrives only while no cut has passed the first arrival. */
  ghost predicate Punctual(events: seq<Event>, id: string) {
    forall i, j :: IsFirstArrival(events, i, id) && IsArrival(events, j, id) ==> Uncut(events, i, j)
  }

  lemma InitArrivals(events: seq<Event>, id: string)
    requires events != []
    ensures var init := events[..|events| - 1];
      && (forall i :: IsArrival(init, i, id) <==> IsArrival(events, i, id) && i < |init|)
      && (forall i :: IsFirstArrival(init, i, id) <==> IsFirstArrival(events, i, id) && i < |init|)
  {
    var init := events[..|events| - 1];
    forall i ensures IsArrival(init, i, id) <==> IsArrival(events, i, id) && i < |init| {}
  }

  lemma InitUncut(events: seq<Event>, i: int, until: int)
    requires events != [] && 0 <= i < |events| - 1 && events[i].Arrive? && until < |events|
    ensures Uncut(events[..|events| - 1], i, until) <==> Uncut(events, i, until)
  {
    var init := events[..|events| - 1];
    assert forall k :: i < k < until ==> init[k] == events[k];
  }

  lemma InitPunctual(events: seq<Event>, id: string)
    requires events != []
    ensures var init, last := events[..|events| - 1], |events| - 1;
      Punctual(events, id) <==>
      && Punctual(init, id)
      && (IsArrival(events, last, id) ==> forall i :: IsFirstArrival(init, i, id) ==> Uncut(init, i, last))
  {
    var init, last := events[..|events| - 1], |events| - 1;
    InitArrivals(events, id);
    forall i, j | IsFirstArrival(init, i, id) && j <= last ensures Uncut(init, i, j) <==> Uncut(events, i, j) {
      InitUncut(events, i, j);
    }
    hide IsFirstArrival, IsArrival;
    if IsFirstArrival(events, last, id) {
      assert forall j :: IsArrival(events, j, id) ==> Uncut(events, last, j) by { UncutAfterLast(events, id); }
    }
  }

  lemma UncutAfterLast(events: seq<Event>, id: string)
    requires IsArrival(events, |events| - 1, id)
    ensures forall j :: IsArrival(events, j, id) ==> Uncut(events, |events| - 1, j)
  {
  }

  lemma {:induction false} NeverArrived(events: seq<Event>, id: string)
    requires forall i :: !IsArrival(events, i, id)
    ensures Stamp(events, id) == None
  {
    if events != [] {
      assert !IsArrival(events, |events| - 1, id);
      InitArrivals(events, id);
      NeverArrived(events[..|events| - 1], id);
    }
  }

  /** With no late replay, an id is on file exactly until a cut passes its first arrival. */
  lemma {:induction false} StampOfFirst(events: seq<Event>, id: string, i: int)
    requires IsFirstArrival(events, i, id) && Punctual(events, id)
    ensures Stamp(events, id) == if Uncut(events, i, |events|) then Some(events[i].now) else None
  {
    var init, last := events[..|events| - 1], |events| - 1;
    InitArrivals(events, id);
    InitPunctual(events, id);
    if i == last {
      NeverArrived(init, id);
    } else {
      StampOfFirst(init, id, i);
      InitUncut(events, i, last);
      assert Uncut(events, i, |events|) <==>
        Uncut(events, i, last) && (events[last].Retain? ==> events[last].before <= events[i].now);
      assert IsArrival(events, last, id) ==> Uncut(init, i, last);
    }
  }

  /** An id that arrived once is remembered exactly until retention cuts past the time of that arrival. */
  lemma RememberedIff(events: seq<Event>, i: nat)
    requires i < |events| && events[i].Arrive?
    requires forall j :: IsArrival(events, j, events[i].batch.id) ==> j == i
    ensures events[i].batch.id in RunTables(events).received <==>
      forall k :: i < k < |events| && events[k].Retain? ==> events[k].before <= events[i].now
  {
    var id := events[i].batch.id;
    ReceivedIsStamped(events, id);
    assert IsFirstArrival(events, i, id);
    assert Punctual(events, id);
    StampOfFirst(events, id, i);
  }

  /** A new id is written with the time of writing, so the next cut drops it exactly when it is later. */
  lemma NewIdOutlastsIff(t: Tables, b: Batch, now: int, before: int)
    requires b.id !in t.received
    ensures b.id in Sweep(Transact(t, b, now).0, before).received <==> before <= now
  {
  }

  // ---- When the adapters agree ----

  /** A batch leaves the adapters alike: nothing to write, or new to both and describing new nodes in one way. */
  ghost predicate Harmless(b: Batch, onFile: bool, s: Store) {
    || onFile
    || b.edges == []
    || (b.id !in s.batches && StableRefs(s.nodes.Keys, b.edges))
  }

  /** Every batch of the history is, given what the in-memory adapter holds and how long SQL keeps an id. */
  ghost predicate Faithful(events: seq<Event>, cluster: string) {
    events != [] ==>
      var init, last := events[..|events| - 1], events[|events| - 1];
      && Faithful(init, cluster)
      && (last.Arrive? ==> Harmless(last.batch, Stamp(init, last.batch.id).Some?, Run(cluster, PlainOps(init))))
  }

  /** Every batch is of one cluster, and every edge of it records an attempt. */
  ghost predicate Counted(events: seq<Event>, cluster: string) {
    forall i :: 0 <= i < |events| && events[i].Arrive? ==> CountedBatch(events[i].batch, cluster)
  }

  ghost predicate CountedBatch(b: Batch, cluster: string) {
    b.cluster == cluster && forall e :: e in b.edges ==> Attempts(Some(e.tally)) > 0
  }

  lemma {:induction false} UpsertBucketsOneCluster(rows: map<RowKey, Tally>, cluster: string, edges: seq<Edge>)
    requires forall r :: r in rows ==> r.cluster == cluster
    ensures forall r :: r in UpsertBuckets(rows, cluster, edges) ==> r.cluster == cluster
  {
    if edges != [] { UpsertBucketsOneCluster(rows, cluster, edges[..|edges| - 1]); }
  }

  /** Over a whole history the two adapters hold the same rows throughout exactly when every batch is harmless. */
  lemma {:induction false} HistoriesAgree(events: seq<Event>, cluster: string)
    requires Counted(events, cluster)
    ensures OneCluster(RunTables(events), cluster)
    ensures AgreeThroughout(events, cluster) <==> Faithful(events, cluster)
  {
    ThroughoutSnoc(events, cluster);
    if events != [] {
      var init := events[..|events| - 1];
      assert forall i :: 0 <= i < |init| ==> init[i] == events[i];
      hide Agree, AgreeThroughout, Harmless, RunTables, OneCluster;
      HistoriesAgree(init, cluster);
      EventAgrees(events, cluster);
      ThroughoutSnoc(init, cluster);
    }
  }

  lemma ThroughoutSnoc(events: seq<Event>, cluster: string)
    ensures AgreeThroughout(events, cluster) <==>
      Agree(events, cluster) && (events != [] ==> AgreeThroughout(events[..|events| - 1], cluster))
  {
    hide Agree;
    assert events[..|events|] == events;
    if events != [] {
      var init := events[..|events| - 1];
      forall n | 0 <= n <= |init| ensures init[..n] == events[..n] {}
      if AgreeThroughout(events, cluster) {
        forall n | 0 <= n <= |init| ensures Agree(init[..n], cluster) {
          assert Agree(events[..n], cluster);
        }
      }
    }
  }

  lemma EventAgrees(events: seq<Event>, cluster: string)
    requires events != [] && Counted(events, cluster)
    requires OneCluster(RunTables(events[..|events| - 1]), cluster)
    ensures OneCluster(RunTables(events), cluster)
    ensures var init, last := events[..|events| - 1], events[|events| - 1];
      Agree(init, cluster) ==>
        (Agree(events, cluster) <==>
         (last.Arrive? ==>
           Harmless(last.batch, Stamp(init, last.batch.id).Some?, Run(cluster, PlainOps(init)))))
  {
    OneMoreEvent(events, cluster);
    hide Invariant, Alike, Transact, Sweep, Purge, Ingest, View, Harmless, OneCluster, Stamp, RunTables, Run, PlainOps;
    var init := events[..|events| - 1];
    var t, s := RunTables(init), Run(cluster, PlainOps(init));
    StoreIndexesSurvivors(cluster, PlainOps(init));
    match events[|events| - 1]
    case Arrive(b, now) =>
      ReceivedIsStamped(init, b.id);
      ArrivalIsOneCluster(t, cluster, b, now);
      if Agree(init, cluster) { ArrivalAgrees(t, s, Survivors(PlainOps(init)), b, now); }
    case Retain(before) =>
      SweepAgrees(t, cluster, before);
      if Agree(init, cluster) { RetainAgrees(t, s, before); }
  }

  /** What one event does on either side. */
  lemma OneMoreEvent(events: seq<Event>, cluster: string)
    requires events != []
    ensures var init := events[..|events| - 1];
      var t, s := RunTables(init), Run(cluster, PlainOps(init));
      match events[|events| - 1]
      case Arrive(b, now) =>
        RunTables(events) == Transact(t, b, now).0 && Run(cluster, PlainOps(events)) == Ingest(s, b).0
      case Retain(before) =>
        RunTables(events) == Sweep(t, before) && Run(cluster, PlainOps(events)) == Purge(s, before)
  {
    hide Transact, Sweep, Purge, Ingest;
    assert PlainOps(events)[..|events| - 1] == PlainOps(events[..|events| - 1]);
  }

  lemma ArrivalIsOneCluster(t: Tables, cluster: string, b: Batch, now: int)
    requires OneCluster(t, cluster) && b.cluster == cluster
    ensures OneCluster(Transact(t, b, now).0, cluster)
  {
    UpsertBucketsOneCluster(t.buckets, cluster, b.edges);
  }

  lemma RetainAgrees(t: Tables, s: Store, before: int)
    requires OneCluster(t, s.cluster) && Alike(View(t, s.cluster), s)
    ensures Alike(View(Sweep(t, before), s.cluster), Purge(s, before))
  {
    SweepAgrees(t, s.cluster, before);
    var v := View(t, s.cluster);
    assert Purge(v, before).buckets == Purge(s, before).buckets && Purge(v, before).nodes == Purge(s, before).nodes;
    assert Sweep(t, before).received.Keys <= t.received.Keys;
  }

  lemma ArrivalAgrees(t: Tables, s: Store, log: seq<Edge>, b: Batch, now: int)
    requires CountedBatch(b, s.cluster) && Alike(View(t, s.cluster), s) && Invariant(s, log)
    ensures Alike(View(Transact(t, b, now).0, s.cluster), Ingest(s, b).0) <==>
      Harmless(b, b.id in t.received, s)
  {
    hide Invariant;
    if b.id in t.received {
    } else if b.id in s.batches {
      ForgottenReplay(t, s, log, b, now);
    } else {
      NewArrival(t, s, b, now);
    }
  }

  /** A batch new to both: the node tables decide. */
  lemma NewArrival(t: Tables, s: Store, b: Batch, now: int)
    requires b.cluster == s.cluster && b.id !in t.received && b.id !in s.batches && Alike(View(t, s.cluster), s)
    ensures Alike(View(Transact(t, b, now).0, s.cluster), Ingest(s, b).0) <==> StableRefs(t.nodes.Keys, b.edges)
    ensures b.edges == [] ==> StableRefs(t.nodes.Keys, b.edges)
  {
    FreshBatchAgrees(t, b, now);
    NodesAgreeIff(t.nodes, b.cluster, b.edges);
    var v := View(t, s.cluster);
    var gated, gated' := v.(batches := v.batches + {b.id}), s.(batches := s.batches + {b.id});
    assert gated'.(batches := gated.batches) == gated;
    BatchesDoNotMatter(gated', b.edges, gated.batches);
    IngestEdgesFrame(gated', b.edges);
    IngestEdgesFrame(gated, b.edges);
  }

  /** A replay PostgreSQL has forgotten: it counts the batch again, which shows unless the batch is empty. */
  lemma ForgottenReplay(t: Tables, s: Store, log: seq<Edge>, b: Batch, now: int)
    requires CountedBatch(b, s.cluster) && b.id !in t.received && b.id in s.batches
    requires Alike(View(t, s.cluster), s) && Invariant(s, log)
    ensures Alike(View(Transact(t, b, now).0, s.cluster), Ingest(s, b).0) <==> b.edges == []
  {
    var v := View(t, s.cluster);
    FreshBatchAgrees(t, b, now);
    IngestKeeps(v, log, b);
    if b.edges != [] {
      hide Ingest, Transact, Invariant;
      IndexOnly(s, log);
      IndexOnly(Ingest(v, b).0, log + b.edges);
      GrowingLogShows(s.buckets, Ingest(v, b).0.buckets, log, b.edges);
    }
  }

  lemma GrowingLogShows(m: map<BucketKey, Tally>, m': map<BucketKey, Tally>, log: seq<Edge>, edges: seq<Edge>)
    requires Indexes(m, Items(log)) && Indexes(m', Items(log + edges))
    requires edges != [] && forall e :: e in edges ==> Attempts(Some(e.tally)) > 0
    ensures m != m'
  {
    var init, e := edges[..|edges| - 1], edges[|edges| - 1];
    var k := KeyFor(e);
    assert log + edges == (log + init) + [e];
    ItemsSnoc(log + init, e);
    assert Items(log + init) == Items(log) + Items(init);
    ScanSnoc(Items(log + init), Item(k, e.tally), iset{k});
    ScanConcat(Items(log), Items(init), iset{k});
    JoinLaws(Scan(Items(log), iset{k}), Scan(Items(init), iset{k}), Some(e.tally));
    JoinLaws(Scan(Items(log + init), iset{k}), Some(e.tally), None);
    assert Attempts(Lookup(m', k)) > Attempts(Lookup(m, k));
  }

  // ---- Batches that agents make ----

  ghost predicate AgentMade(edges: seq<Edge>) {
    exists infraPorts, log :: log != [] && A.Genuine(infraPorts, log) && A.Flushed(log, edges)
  }

  /** An agent's batch describes every node in one way, so the adapters differ only on forgotten replays. */
  lemma AgentRefsAreStable(known: set<string>, edges: seq<Edge>)
    requires AgentMade(edges)
    ensures StableRefs(known, edges)
  {
    var infraPorts, log :| log != [] && A.Genuine(infraPorts, log) && A.Flushed(log, edges);
    var ms := Mentions(edges);
    forall i: nat, j: nat | i < |ms| && j < |ms| && ms[i].ref.id == ms[j].ref.id ensures ms[i].ref == ms[j].ref {
      MentionsComeFromEdges(edges, i);
      MentionsComeFromEdges(edges, j);
      A.FlushedRefsAgree(infraPorts, log, edges, ms[i].ref, ms[j].ref);
    }
  }

  lemma {:induction false} MentionsComeFromEdges(edges: seq<Edge>, i: nat)
    requires i < |Mentions(edges)|
    ensures exists e :: e in edges && (Mentions(edges)[i].ref == e.source || Mentions(edges)[i].ref == e.target)
  {
    var init, e := edges[..|edges| - 1], edges[|edges| - 1];
    if i < |Mentions(init)| {
      MentionsComeFromEdges(init, i);
      var f :| f in init && (Mentions(init)[i].ref == f.source || Mentions(init)[i].ref == f.target);
      assert f in edges && Mentions(edges)[i] == Mentions(init)[i];
    } else {
      assert e in edges;
    }
  }

  ghost predicate Timely(events: seq<Event>) {
    forall j :: 0 <= j < |events| && events[j].Arrive? ==> Punctual(events, events[j].batch.id)
  }

  /** A batch first arrived at `i`, retention `k` cut past that time, and the batch came back at `j`. */
  predicate LateReplay(events: seq<Event>, i: int, k: int, j: int) {
    && 0 <= i < k < j < |events| && events[j].Arrive? && IsFirstArrival(events, i, events[j].batch.id)
    && events[k].Retain? && events[i].now < events[k].before
  }

  /** Whatever agents send, the adapters hold the same rows throughout exactly when no batch comes back after
      retention has cut past its first arrival. */
  lemma {:induction false} AgentHistoriesAgree(events: seq<Event>, cluster: string)
    requires forall i :: 0 <= i < |events| && events[i].Arrive? ==>
      events[i].batch.cluster == cluster && AgentMade(events[i].batch.edges)
    ensures AgreeThroughout(events, cluster) <==>
      !exists i, k, j :: LateReplay(events, i, k, j)
  {
    forall i | 0 <= i < |events| && events[i].Arrive? ensures CountedBatch(events[i].batch, cluster) {
      AgentEdgesCount(events[i].batch.edges);
    }
    HistoriesAgree(events, cluster);
    AgentsAreFaithful(events, cluster);
    hide Faithful, AgreeThroughout, AgentMade, Counted;
    TimelyIff(events);
  }

  lemma TimelyIff(events: seq<Event>)
    ensures Timely(events) <==>
      !exists i, k, j :: LateReplay(events, i, k, j)
  {
    if Timely(events) {
      forall i, j | 0 <= j < |events| && events[j].Arrive? && IsFirstArrival(events, i, events[j].batch.id)
        ensures Uncut(events, i, j)
      {
        assert IsArrival(events, j, events[j].batch.id);
      }
    } else {
      var j :| 0 <= j < |events| && events[j].Arrive? && !Punctual(events, events[j].batch.id);
      var id := events[j].batch.id;
      var i, l :| IsFirstArrival(events, i, id) && IsArrival(events, l, id) && !Uncut(events, i, l);
      var k :| i < k < l && events[k].Retain? && !(events[k].before <= events[i].now);
      assert LateReplay(events, i, k, l);
    }
  }

  lemma {:induction false} AgentsAreFaithful(events: seq<Event>, cluster: string)
    requires forall i :: 0 <= i < |events| && events[i].Arrive? ==> AgentMade(events[i].batch.edges)
    ensures Faithful(events, cluster) <==> Timely(events)
  {
    if events != [] {
      var init, last := events[..|events| - 1], events[|events| - 1];
      assert forall i :: 0 <= i < |init| ==> init[i] == events[i];
      AgentsAreFaithful(init, cluster);
      StoreIndexesSurvivors(cluster, PlainOps(init));
      if last.Arrive? {
        AgentEdgesCount(last.batch.edges);
        AgentRefsAreStable(Run(cluster, PlainOps(init)).nodes.Keys, last.batch.edges);
        ArrivedIff(init, last.batch.id);
      }
      hide AgentMade, StableRefs, Run, Accepted;
      LastIsTimely(events);
    }
  }

  lemma ArrivedIff(events: seq<Event>, id: string)
    ensures id in Accepted(PlainOps(events)) <==> exists i :: IsArrival(events, i, id)
  {
    var ops := PlainOps(events);
    if id in Accepted(ops) {
      var i :| 0 <= i < |ops| && ops[i].IngestOp? && ops[i].batch.id == id;
      assert IsArrival(events, i, id);
    }
    forall i | IsArrival(events, i, id) ensures id in Accepted(ops) {
      assert ops[i].IngestOp? && ops[i].batch.id == id;
    }
  }

  /** One more event keeps the history timely exactly when it is no replay of an id no longer on file. */
  lemma LastIsTimely(events: seq<Event>)
    requires events != []
    ensures var init, last := events[..|events| - 1], events[|events| - 1];
      Timely(events) <==>
      Timely(init) &&
      (last.Arrive? ==> Stamp(init, last.batch.id).Some? || forall i :: !IsArrival(init, i, last.batch.id))
  {
    var init, n := events[..|events| - 1], |events| - 1;
    forall j | 0 <= j < n && events[j].Arrive?
      ensures Punctual(events, events[j].batch.id) ==> Punctual(init, events[j].batch.id)
      ensures !IsArrival(events, n, events[j].batch.id) && Punctual(init, events[j].batch.id) ==>
        Punctual(events, events[j].batch.id)
    {
      InitPunctual(events, events[j].batch.id);
    }
    if events[n].Arrive? {
      LastIsPunctual(events);
    }
    hide Punctual, Stamp;
  }

  lemma LastIsPunctual(events: seq<Event>)
    requires events != [] && events[|events| - 1].Arrive?
    ensures var init, id := events[..|events| - 1], events[|events| - 1].batch.id;
      && (Punctual(events, id) ==> Punctual(init, id))
      && ((forall i :: !IsArrival(init, i, id)) ==> Punctual(init, id))
      && (Punctual(init, id) ==>
          (Punctual(events, id) <==> Stamp(init, id).Some? || forall i :: !IsArrival(init, i, id)))
  {
    var init, n := events[..|events| - 1], |events| - 1;
    var id := events[n].batch.id;
    InitPunctual(events, id);
    if i :| IsArrival(init, i, id) {
      var f := FirstArrivalOf(init, id, i);
      if Punctual(init, id) { StampOfFirst(init, id, f); }
      assert forall g :: IsFirstArrival(init, g, id) ==> g == f;
    }
  }

  lemma FirstArrivalOf(events: seq<Event>, id: string, i: int) returns (f: int)
    requires IsArrival(events, i, id)
    ensures IsFirstArrival(events, f, id)
    decreases i
  {
    f := i;
    if h :| 0 <= h < i && IsArrival(events, h, id) {
      f := FirstArrivalOf(events, id, h);
    }
  }

  lemma AgentEdgesCount(edges: seq<Edge>)
    requires AgentMade(edges)
    ensures edges != [] && forall e :: e in edges ==> Attempts(Some(e.tally)) > 0
  {
    var infraPorts, log :| log != [] && A.Genuine(infraPorts, log) && A.Flushed(log, edges);
    assert edges != [] by { A.FlushConserves(log, edges); }
    forall e | e in edges ensures Attempts(Some(e.tally)) > 0 {
      var i :| 0 <= i < |edges| && edges[i] == e;
      assert EdgeItems(edges)[i] == Item(e.Key(), e.tally);
      assert Scan(A.ObsItems(log), iset{e.Key()}) == Some(e.tally);
      A.FoldShape(log, iset{e.Key()});
    }
  }

  lemma {:induction false} BatchesDoNotMatter(s: Store, edges: seq<Edge>, batches: set<string>)
    ensures IngestEdges(s.(batches := batches), edges) == IngestEdges(s, edges).(batches := batches)
  {
    if edges != [] { BatchesDoNotMatter(s, edges[..|edges| - 1], batches); }
  }

  // ---- The adapter's own loops ----

  /** DELETE ... WHERE ctid IN (SELECT ctid ... LIMIT n): some `n` expired rows, or all if fewer. */
  method LimitedDelete(rows: map<RowKey, Tally>, before: int, limit: nat) returns (rest: map<RowKey, Tally>,
      removed: nat)
    ensures rest.Keys <= rows.Keys && forall r :: r in rest ==> rest[r] == rows[r]
    ensures forall r :: r in rows && r.bucket.minute >= before ==> r in rest
    ensures removed == |rows| - |rest| && removed <= limit
    ensures removed < limit ==> forall r :: r in rest ==> r.bucket.minute >= before
  {
    rest, removed := rows, 0;
    while removed < limit && exists r :: r in rest && r.bucket.minute < before
      invariant rest.Keys <= rows.Keys && forall r :: r in rest ==> rest[r] == rows[r]
      invariant forall r :: r in rows && r.bucket.minute >= before ==> r in rest
      invariant removed == |rows| - |rest| && removed <= limit
      decreases limit - removed
    {
      var r :| r in rest && r.bucket.minute < before;
      var next := map k | k in rest && k != r :: rest[k];
      assert next.Keys == rest.Keys - {r};
      assert |next| == |next.Keys| && |rest| == |rest.Keys|;
      rest, removed := next, removed + 1;
    }
  }

  class PostgresRepository {
    var tables: Tables

    constructor ()
      ensures tables == RunTables([])
    {
      tables := Tables(map[], map[], map[]);
    }

    /** The transaction, statement by statement. */
    method IngestBatch(batch: Batch, now: int) returns (outcome: Outcome)
      modifies this
      ensures (tables, outcome) == Transact(old(tables), batch, now)
      ensures tables.received ==
        if outcome.Ingested? then old(tables.received)[batch.id := now] else old(tables.received)
    {
      if batch.id in tables.received {
        return AlreadyIngested;
      }
      var received := tables.received[batch.id := now];
      var mentions: map<string, Sighting> := map[];
      for i := 0 to |batch.edges|
        invariant mentions == PreMerge(batch.edges[..i], true)
      {
        var e := batch.edges[i];
        mentions := Note(mentions, e.source, e.tally.first, e.tally.last, true);
        mentions := Note(mentions, e.target, e.tally.first, e.tally.last, true);
        assert batch.edges[..i + 1][..i] == batch.edges[..i];
      }
      assert batch.edges[..|batch.edges|] == batch.edges;
      MentionsNameThemselves(batch.edges, true);
      var nodes := WriteNodes(tables.nodes, batch.cluster, mentions);
      var buckets := tables.buckets;
      for i := 0 to |batch.edges|
        invariant buckets == UpsertBuckets(tables.buckets, batch.cluster, batch.edges[..i])
      {
        var e := batch.edges[i];
        var row := RowKey(batch.cluster, KeyFor(e));
        buckets := buckets[row := if row in buckets then SqlMerge(buckets[row], e.tally) else e.tally];
        assert batch.edges[..i + 1][..i] == batch.edges[..i];
      }
      tables := Tables(received, buckets, nodes);
      outcome := Ingested;
    }

    /** Bounded deletes until a short one. It ends, and removes what one unbounded delete would. */
    method PurgeExpired(before: int) returns (stats: PurgeStats)
      modifies this
      ensures tables == Sweep(old(tables), before)
      ensures stats.bucketsDeleted == |old(tables.buckets)| - |tables.buckets|
      ensures stats.nodesDeleted == |old(tables.nodes)| - |tables.nodes|
    {
      var buckets, deleted := SweepBuckets(tables.buckets, before);
      var referenced := Referenced(buckets);
      var orphaned := set id | id in tables.nodes && id !in referenced;
      var nodes := DeleteAll(tables.nodes, orphaned);
      stats := PurgeStats(deleted, |orphaned|);
      var received := map id | id in tables.received && tables.received[id] >= before :: tables.received[id];
      tables := Tables(received, buckets, nodes);
    }
  }

  /** The upserts, one node at a time in any order. */
  method WriteNodes(nodes: map<string, StoredNode>, cluster: string, mentions: map<string, Sighting>)
    returns (r: map<string, StoredNode>)
    requires forall id :: id in mentions ==> mentions[id].ref.id == id
    ensures r == UpsertAll(nodes, cluster, mentions)
  {
    r := nodes;
    var todo := mentions.Keys;
    while todo != {}
      invariant todo <= mentions.Keys
      invariant r == UpsertAll(nodes, cluster, map id | id in mentions && id !in todo :: mentions[id])
    {
      var id :| id in todo;
      todo := todo - {id};
      r := UpsertRow(r, cluster, mentions[id]);
    }
    assert mentions == map id | id in mentions && id !in todo :: mentions[id];
  }

  method SweepBuckets(rows: map<RowKey, Tally>, before: int) returns (rest: map<RowKey, Tally>, deleted: nat)
    ensures rest == map r | r in rows && r.bucket.minute >= before :: rows[r]
    ensures deleted == |rows| - |rest|
  {
    rest, deleted := rows, 0;
    while true
      invariant rest.Keys <= rows.Keys && forall r :: r in rest ==> rest[r] == rows[r]
      invariant forall r :: r in rows && r.bucket.minute >= before ==> r in rest
      invariant deleted == |rows| - |rest|
      decreases |rest|
    {
      var removed;
      rest, removed := LimitedDelete(rest, before, PURGE_BATCH);
      deleted := deleted + removed;
      if removed < PURGE_BATCH {
        break;
      }
    }
  }
}
