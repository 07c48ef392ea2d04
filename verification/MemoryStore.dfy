/**
 The in-memory storage adapter: a batch-id gate, one-minute buckets and a node table.

 Every state is an index over a log of accepted edge observations. `Invariant` says so, each
 operation keeps it, and `QueryEdges` therefore answers as a naive scan of that log would.
 Every aware timestamp is already UTC here, so truncation to the minute is arithmetic.
 */
module MemoryStore {
  import opened Tallies
  import opened Ordering
  import opened Contract

  const MINUTE := 60_000_000

  function BucketStart(t: int): (b: int)
    ensures b <= t < b + MINUTE && b % MINUTE == 0
  {
    t - t % MINUTE
  }

  datatype BucketKey = BucketKey(minute: int, edge: EdgeKey)

  datatype StoredNode = StoredNode(
    id: string, cluster: string, kind: string, namespace: Option<string>, name: string, display: string,
    first: int, last: int)

  datatype Window = Window(start: int, end: int)

  /** Empty `namespaces`, `kind` and `query` filter nothing. */
  datatype Filters = Filters(namespaces: seq<string>, kind: string, query: string, includeExternal: bool)

  datatype Outcome = Ingested | AlreadyIngested

  datatype Store = Store(
    cluster: string,
    batches: set<string>,
    buckets: map<BucketKey, Tally>,
    nodes: map<string, StoredNode>)

  // ---- The operations, on values ----

  function KeyFor(e: Edge): BucketKey { BucketKey(BucketStart(e.tally.last), e.Key()) }

  function Upsert(nodes: map<string, StoredNode>, cluster: string, ref: NodeRef, first: int, last: int):
    map<string, StoredNode>
  {
    if ref.id in nodes then
      var known := nodes[ref.id];
      nodes[ref.id := known.(first := Min(known.first, first), last := Max(known.last, last))]
    else
      nodes[ref.id := StoredNode(ref.id, cluster, ref.kind, ref.namespace, ref.name, ref.name, first, last)]
  }

  function MergeBucket(buckets: map<BucketKey, Tally>, e: Edge): map<BucketKey, Tally> {
    var k := KeyFor(e);
    buckets[k := if k in buckets then Merge(buckets[k], e.tally) else e.tally]
  }

  function IngestEdge(s: Store, e: Edge): Store {
    var nodes := Upsert(s.nodes, s.cluster, e.source, e.tally.first, e.tally.last);
    s.(nodes := Upsert(nodes, s.cluster, e.target, e.tally.first, e.tally.last),
       buckets := MergeBucket(s.buckets, e))
  }

  function IngestEdges(s: Store, edges: seq<Edge>): Store {
    if edges == [] then s else IngestEdge(IngestEdges(s, edges[..|edges| - 1]), edges[|edges| - 1])
  }

  function Ingest(s: Store, b: Batch): (Store, Outcome) {
    if b.id in s.batches then (s, AlreadyIngested)
    else (IngestEdges(s.(batches := s.batches + {b.id}), b.edges), Ingested)
  }

  function Endpoints(buckets: map<BucketKey, Tally>): set<string> {
    (set k | k in buckets :: k.edge.source) + (set k | k in buckets :: k.edge.target)
  }

  function Purge(s: Store, before: int): Store {
    var buckets := map k | k in s.buckets && k.minute >= before :: s.buckets[k];
    s.(buckets := buckets, nodes := map id | id in s.nodes && id in Endpoints(buckets) :: s.nodes[id])
  }

  /** Whether an edge between these two nodes survives the filters: EITHER endpoint may match. */
  predicate Passes(nodes: map<string, StoredNode>, source: string, target: string, f: Filters,
      casefold: string -> string) {
    && source in nodes && target in nodes
    && var s, t := nodes[source], nodes[target];
    && (f.includeExternal || (s.id != EXTERNAL_NODE_ID && t.id != EXTERNAL_NODE_ID))
    && (f.namespaces == [] || InNamespace(s, f) || InNamespace(t, f))
    && (f.kind == "" || s.kind == f.kind || t.kind == f.kind)
    && (f.query == "" || Contains(casefold(s.display), casefold(f.query)) ||
      Contains(casefold(t.display), casefold(f.query)))
  }

  predicate InNamespace(n: StoredNode, f: Filters) {
    n.namespace.Some? && n.namespace.value in f.namespaces
  }

  predicate Contains(text: string, needle: string) {
    exists i :: 0 <= i <= |text| && needle <= text[i..]
  }

  /** The search text occurs somewhere in the display name. */
  lemma ContainsIff(text: string, needle: string)
    ensures Contains(text, needle) <==> exists a, b :: text == a + needle + b
  {
    if Contains(text, needle) {
      var i :| 0 <= i <= |text| && needle <= text[i..];
      assert text == text[..i] + needle + text[i + |needle|..];
    }
    forall a, b | text == a + needle + b ensures Contains(text, needle) {
      assert text[|a|..] == needle + b;
      assert 0 <= |a| <= |text|;
    }
  }

  predicate Touches(nodes: map<string, StoredNode>, ids: set<string>, p: StoredNode -> bool) {
    exists id :: id in ids && id in nodes && p(nodes[id])
  }

  /**
   An edge is answered exactly when both its ends are known and no filter excludes it: the outside world may be
   asked to stay out, and each of namespace, kind and search text must fit one of the two ends.
   */
  lemma PassesIff(nodes: map<string, StoredNode>, source: string, target: string, f: Filters,
      casefold: string -> string)
    requires forall id :: id in nodes ==> nodes[id].id == id
    ensures Passes(nodes, source, target, f, casefold) <==>
      && {source, target} <= nodes.Keys
      && (f.includeExternal || EXTERNAL_NODE_ID !in {source, target})
      && (f.namespaces != [] ==>
          Touches(nodes, {source, target}, (n: StoredNode) => n.namespace.Some? && n.namespace.value in f.namespaces))
      && (f.kind != "" ==> Touches(nodes, {source, target}, (n: StoredNode) => n.kind == f.kind))
      && (f.query != "" ==>
          Touches(nodes, {source, target}, (n: StoredNode) => Contains(casefold(n.display), casefold(f.query))))
  {
    hide Contains;
    assert source in {source, target} && target in {source, target};
  }

  // ---- The log a state stands for ----

  function Items(log: seq<Edge>): (r: seq<Item<BucketKey>>)
    ensures |r| == |log|
    ensures forall i :: 0 <= i < |r| ==> r[i] == Item(KeyFor(log[i]), log[i].tally)
  {
    seq(|log|, i requires 0 <= i < |log| => Item(KeyFor(log[i]), log[i].tally))
  }

  /** What retention leaves of a log. */
  function Keep(log: seq<Edge>, before: int): seq<Edge> {
    if log == [] then []
    else
      var rest, e := Keep(log[..|log| - 1], before), log[|log| - 1];
      if BucketStart(e.tally.last) >= before then rest + [e] else rest
  }

  ghost predicate Invariant(s: Store, log: seq<Edge>) {
    && Indexes(s.buckets, Items(log))
    && s.nodes.Keys == Endpoints(s.buckets)
    && forall id :: id in s.nodes ==> s.nodes[id].id == id && s.nodes[id].cluster == s.cluster
  }

  lemma ItemsSnoc(log: seq<Edge>, e: Edge)
    ensures Items(log + [e]) == Items(log) + [Item(KeyFor(e), e.tally)]
  {
  }

  lemma EndpointsAre(buckets: map<BucketKey, Tally>, id: string)
    ensures id in Endpoints(buckets) <==> exists k :: k in buckets && (k.edge.source == id || k.edge.target == id)
  {
  }

  lemma IngestEdgeKeeps(s: Store, log: seq<Edge>, e: Edge)
    requires Invariant(s, log)
    ensures Invariant(IngestEdge(s, e), log + [e])
  {
    var s' := IngestEdge(s, e);
    ItemsSnoc(log, e);
    IndexAppend(s.buckets, Items(log), Item(KeyFor(e), e.tally));
    forall id ensures id in s'.nodes <==> id in Endpoints(s'.buckets) {
      EndpointsAre(s.buckets, id);
      EndpointsAre(s'.buckets, id);
      assert KeyFor(e) in s'.buckets;
      assert id in s'.nodes <==> id in s.nodes || id == e.source.id || id == e.target.id;
      assert forall k :: k in s'.buckets <==> k in s.buckets || k == KeyFor(e);
    }
  }

  lemma {:induction false} IngestEdgesKeeps(s: Store, log: seq<Edge>, edges: seq<Edge>)
    requires Invariant(s, log)
    ensures Invariant(IngestEdges(s, edges), log + edges)
    ensures IngestEdges(s, edges).batches == s.batches && IngestEdges(s, edges).cluster == s.cluster
  {
    if edges == [] {
      assert log + edges == log;
    } else {
      var init, e := edges[..|edges| - 1], edges[|edges| - 1];
      IngestEdgesKeeps(s, log, init);
      IngestEdgeKeeps(IngestEdges(s, init), log + init, e);
      assert log + edges == log + init + [e];
    }
  }

  /** Ingest appends a new batch's edges to the log; a replay changes nothing at all. */
  lemma IngestKeeps(s: Store, log: seq<Edge>, b: Batch)
    requires Invariant(s, log)
    ensures var (s', outcome) := Ingest(s, b);
      && (outcome.AlreadyIngested? <==> b.id in s.batches)
      && (outcome.AlreadyIngested? ==> s' == s)
      && (outcome.Ingested? ==> Invariant(s', log + b.edges) && s'.batches == s.batches + {b.id})
      && Ingest(s', b) == (s', AlreadyIngested)
  {
    IngestEdgesKeeps(s.(batches := s.batches + {b.id}), log, b.edges);
  }

  ghost function Since(before: int): iset<BucketKey> { iset k: BucketKey | k.minute >= before }

  lemma {:induction false} ScanKeep(log: seq<Edge>, before: int, keys: iset<BucketKey>)
    ensures Scan(Items(Keep(log, before)), keys) == Scan(Items(log), keys * Since(before))
  {
    if log != [] {
      var init, e := log[..|log| - 1], log[|log| - 1];
      ScanKeep(init, before, keys);
      assert log == init + [e];
      ItemsSnoc(init, e);
      ItemsSnoc(Keep(init, before), e);
      ScanSnoc(Items(init), Item(KeyFor(e), e.tally), keys * Since(before));
      ScanSnoc(Items(Keep(init, before)), Item(KeyFor(e), e.tally), keys);
    }
  }

  /** Purge keeps exactly the log's tail, and exactly the nodes the remaining buckets name. */
  lemma PurgeKeeps(s: Store, log: seq<Edge>, before: int)
    requires Invariant(s, log)
    ensures Invariant(Purge(s, before), Keep(log, before))
    ensures Purge(s, before).nodes.Keys == Endpoints(Purge(s, before).buckets)
  {
    var s' := Purge(s, before);
    forall k ensures Lookup(s'.buckets, k) == Scan(Items(Keep(log, before)), iset{k}) {
      ScanKeep(log, before, iset{k});
      assert Lookup(s.buckets, k) == Scan(Items(log), iset{k});
      if k.minute >= before {
        assert iset{k} * Since(before) == iset{k};
      } else {
        ScanNone(Items(log), iset{k} * Since(before));
      }
    }
    forall id ensures id in s'.nodes <==> id in Endpoints(s'.buckets) {
      EndpointsAre(s.buckets, id);
      EndpointsAre(s'.buckets, id);
    }
  }

  // ---- Queries against the log ----

  ghost function InWindow(w: Window, edge: EdgeKey): iset<BucketKey> {
    iset k: BucketKey | w.start <= k.minute < w.end && k.edge == edge
  }

  /** The naive answer for one edge: scan the log over the half-open window. */
  ghost function Answer(log: seq<Edge>, nodes: map<string, StoredNode>, w: Window, f: Filters,
                        casefold: string -> string, edge: EdgeKey): Option<Tally>
  {
    if Passes(nodes, edge.source, edge.target, f, casefold) then Scan(Items(log), InWindow(w, edge)) else None
  }

  function AggregateKey(a: Item<EdgeKey>): EdgeKey { a.key }

  /** `out` lists, strictly sorted, exactly the edges with an answer, each with its answer. */
  ghost predicate Answers(out: seq<Item<EdgeKey>>, log: seq<Edge>, nodes: map<string, StoredNode>, w: Window,
      f: Filters, casefold: string -> string)
  {
    && Sorted(out, AggregateKey)
    && (forall i :: 0 <= i < |out| ==> Answer(log, nodes, w, f, casefold, out[i].key) == Some(out[i].tally))
    && (forall k :: Answer(log, nodes, w, f, casefold, k).Some? ==> exists i :: 0 <= i < |out| && out[i].key == k)
  }

  /** A query's result is fully determined by the log: two correct answers are the same list. */
  lemma AnswersUnique(a: seq<Item<EdgeKey>>, b: seq<Item<EdgeKey>>, log: seq<Edge>, nodes: map<string, StoredNode>,
                      w: Window, f: Filters, casefold: string -> string)
    requires Answers(a, log, nodes, w, f, casefold) && Answers(b, log, nodes, w, f, casefold)
    ensures a == b
  {
    forall x ensures x in a <==> x in b {
      if x in a {
        var i :| 0 <= i < |b| && b[i].key == x.key;
        assert b[i] == x;
      }
      if x in b {
        var i :| 0 <= i < |a| && a[i].key == x.key;
        assert a[i] == x;
      }
    }
    SortedUnique(a, b, AggregateKey);
  }

  /** Half-open windows tile: [a, c) is the merge of [a, b) and [b, c). */
  lemma WindowsTile(log: seq<Edge>, nodes: map<string, StoredNode>, a: int, b: int, c: int, f: Filters,
                    casefold: string -> string, edge: EdgeKey)
    requires a <= b <= c
    ensures Answer(log, nodes, Window(a, c), f, casefold, edge)
         == Join(Answer(log, nodes, Window(a, b), f, casefold, edge),
           Answer(log, nodes, Window(b, c), f, casefold, edge))
  {
    ScanSplit(Items(log), InWindow(Window(a, b), edge), InWindow(Window(b, c), edge));
    assert InWindow(Window(a, b), edge) + InWindow(Window(b, c), edge) == InWindow(Window(a, c), edge);
  }

  /** An edge with anything in the window has both endpoints in the node table. */
  lemma AnsweredEdgeHasNodes(s: Store, log: seq<Edge>, w: Window, edge: EdgeKey)
    requires Invariant(s, log) && Scan(Items(log), InWindow(w, edge)).Some?
    ensures edge.source in s.nodes && edge.target in s.nodes
  {
    ScanNone(Items(log), InWindow(w, edge));
    var k :| k in KeysOf(Items(log)) && k in InWindow(w, edge);
    ScanNone(Items(log), iset{k});
    assert Lookup(s.buckets, k) == Scan(Items(log), iset{k});
    EndpointsAre(s.buckets, edge.source);
    EndpointsAre(s.buckets, edge.target);
  }

  /** Purge is invisible to every window that starts at or after the cut, under any filters. */
  lemma PurgeInvisible(s: Store, log: seq<Edge>, before: int, w: Window, f: Filters, casefold: string -> string,
      edge: EdgeKey)
    requires Invariant(s, log) && before <= w.start
    ensures Answer(Keep(log, before), Purge(s, before).nodes, w, f, casefold, edge)
         == Answer(log, s.nodes, w, f, casefold, edge)
  {
    var s' := Purge(s, before);
    PurgeKeeps(s, log, before);
    ScanKeep(log, before, InWindow(w, edge));
    assert InWindow(w, edge) * Since(before) == InWindow(w, edge);
    if Scan(Items(log), InWindow(w, edge)).Some? {
      AnsweredEdgeHasNodes(s', Keep(log, before), w, edge);
    }
  }

  // ---- Whole histories ----

  datatype Op = IngestOp(batch: Batch) | PurgeOp(before: int)

  function Empty(cluster: string): Store { Store(cluster, {}, map[], map[]) }

  function Run(cluster: string, ops: seq<Op>): Store {
    if ops == [] then Empty(cluster)
    else
      var s := Run(cluster, ops[..|ops| - 1]);
      match ops[|ops| - 1]
      case IngestOp(b) => Ingest(s, b).0
      case PurgeOp(before) => Purge(s, before)
  }

  /** The ids a history has ever accepted. */
  ghost function Accepted(ops: seq<Op>): set<string> {
    set i | 0 <= i < |ops| && ops[i].IngestOp? :: ops[i].batch.id
  }

  /** The observations a history leaves: each distinct batch once, minus what retention cut. */
  ghost function Survivors(ops: seq<Op>): seq<Edge> {
    if ops == [] then []
    else
      var init := ops[..|ops| - 1];
      match ops[|ops| - 1]
      case IngestOp(b) => if b.id in Accepted(init) then Survivors(init) else Survivors(init) + b.edges
      case PurgeOp(before) => Keep(Survivors(init), before)
  }

  /** After any sequence of ingests, replays and purges the store is an index of the survivors. */
  lemma {:induction false} StoreIndexesSurvivors(cluster: string, ops: seq<Op>)
    ensures Invariant(Run(cluster, ops), Survivors(ops))
    ensures Run(cluster, ops).batches == Accepted(ops) && Run(cluster, ops).cluster == cluster
  {
    if ops == [] {
      forall k ensures Lookup(Empty(cluster).buckets, k) == Scan(Items([]), iset{k}) {
        ScanNone(Items([]), iset{k});
      }
    } else {
      var init, op := ops[..|ops| - 1], ops[|ops| - 1];
      StoreIndexesSurvivors(cluster, init);
      assert Accepted(ops) == Accepted(init) + if op.IngestOp? then {op.batch.id} else {} by {
        assert ops == init + [op];
        forall i | 0 <= i < |init| ensures ops[i] == init[i] {}
      }
      match op
      case IngestOp(b) =>
        IngestKeeps(Run(cluster, init), Survivors(init), b);
        IngestEdgesKeeps(Run(cluster, init).(batches := Run(cluster, init).batches + {b.id}), Survivors(init), b.edges);
      case PurgeOp(before) => PurgeKeeps(Run(cluster, init), Survivors(init), before);
    }
  }

  // ---- What the node table says ----

  /** One mention of a node, with the times of the edge that mentions it. */
  datatype Sighting = Sighting(ref: NodeRef, first: int, last: int)

  function SightingOf(e: Edge, ref: NodeRef, id: string): seq<Sighting> {
    if ref.id == id then [Sighting(ref, e.tally.first, e.tally.last)] else []
  }

  /** A batch's mentions of a node, in order: each edge names its source and then its target. */
  function SightingsIn(edges: seq<Edge>, id: string): seq<Sighting> {
    if edges == [] then []
    else
      var e := edges[|edges| - 1];
      SightingsIn(edges[..|edges| - 1], id) + SightingOf(e, e.source, id) + SightingOf(e, e.target, id)
  }

  ghost predicate Mentioned(log: seq<Edge>, id: string) {
    exists i :: 0 <= i < |log| && (log[i].source.id == id || log[i].target.id == id)
  }

  /** The accepted mentions of a node since a purge last left no edge to it. */
  ghost function Sightings(ops: seq<Op>, id: string): seq<Sighting> {
    if ops == [] then []
    else
      var init := ops[..|ops| - 1];
      match ops[|ops| - 1]
      case IngestOp(b) => Sightings(init, id) + if b.id in Accepted(init) then [] else SightingsIn(b.edges, id)
      case PurgeOp(before) => if Mentioned(Keep(Survivors(init), before), id) then Sightings(init, id) else []
  }

  /** As first described, and seen over the tight hull of all the mentions. */
  ghost predicate Describes(n: StoredNode, ss: seq<Sighting>) {
    && ss != [] && n.kind == ss[0].ref.kind && n.namespace == ss[0].ref.namespace &&
      n.name == n.display == ss[0].ref.name
    && (forall i :: 0 <= i < |ss| ==> n.first <= ss[i].first && ss[i].last <= n.last)
    && (exists i :: 0 <= i < |ss| && n.first == ss[i].first) && (exists i :: 0 <= i < |ss| && n.last == ss[i].last)
  }

  ghost predicate Tells(nodes: map<string, StoredNode>, id: string, ss: seq<Sighting>) {
    (id in nodes <==> ss != []) && (id in nodes ==> Describes(nodes[id], ss))
  }

  lemma OneMoreSighting(n: StoredNode, ss: seq<Sighting>, x: Sighting)
    requires Describes(n, ss)
    ensures Describes(n.(first := Min(n.first, x.first), last := Max(n.last, x.last)), ss + [x])
  {
    var m, ss' := n.(first := Min(n.first, x.first), last := Max(n.last, x.last)), ss + [x];
    var i :| 0 <= i < |ss| && n.first == ss[i].first;
    var j :| 0 <= j < |ss| && n.last == ss[j].last;
    assert ss'[|ss|] == x && ss'[i] == ss[i] && ss'[j] == ss[j] && ss'[0] == ss[0];
    assert m.first == ss'[if x.first < n.first then |ss| else i].first;
    assert m.last == ss'[if x.last > n.last then |ss| else j].last;
  }

  lemma UpsertTells(nodes: map<string, StoredNode>, cluster: string, e: Edge, ref: NodeRef, id: string,
      ss: seq<Sighting>)
    requires Tells(nodes, id, ss)
    ensures Tells(Upsert(nodes, cluster, ref, e.tally.first, e.tally.last), id, ss + SightingOf(e, ref, id))
  {
    var x := Sighting(ref, e.tally.first, e.tally.last);
    assert ss + [] == ss;
    if ref.id == id && id in nodes {
      OneMoreSighting(nodes[id], ss, x);
    } else if ref.id == id {
      assert [][..] + [x] == [x] && (ss + [x])[0] == x;
    }
  }

  lemma IngestEdgeTells(s: Store, e: Edge, id: string, ss: seq<Sighting>)
    requires Tells(s.nodes, id, ss)
    ensures Tells(IngestEdge(s, e).nodes, id, ss + SightingOf(e, e.source, id) + SightingOf(e, e.target, id))
  {
    hide Tells, Upsert, SightingOf, MergeBucket;
    UpsertTells(s.nodes, s.cluster, e, e.source, id, ss);
    var nodes := Upsert(s.nodes, s.cluster, e.source, e.tally.first, e.tally.last);
    UpsertTells(nodes, s.cluster, e, e.target, id, ss + SightingOf(e, e.source, id));
  }

  lemma {:induction false} IngestEdgesTells(s: Store, edges: seq<Edge>, id: string, ss: seq<Sighting>)
    requires Tells(s.nodes, id, ss)
    ensures Tells(IngestEdges(s, edges).nodes, id, ss + SightingsIn(edges, id))
  {
    hide Tells, IngestEdge, SightingOf;
    if edges == [] {
      assert ss + [] == ss;
    } else {
      var init, e := edges[..|edges| - 1], edges[|edges| - 1];
      IngestEdgesTells(s, init, id, ss);
      IngestEdgeTells(IngestEdges(s, init), e, id, ss + SightingsIn(init, id));
      Regrouped(ss, SightingsIn(init, id), SightingOf(e, e.source, id), SightingOf(e, e.target, id));
    }
  }

  lemma Regrouped(a: seq<Sighting>, b: seq<Sighting>, c: seq<Sighting>, d: seq<Sighting>)
    ensures a + b + c + d == a + (b + c + d)
  {
  }

  lemma EndpointsAreMentioned(s: Store, log: seq<Edge>, id: string)
    requires Invariant(s, log)
    ensures id in s.nodes <==> Mentioned(log, id)
  {
    EndpointsAre(s.buckets, id);
    if id in s.nodes {
      var k :| k in s.buckets && (k.edge.source == id || k.edge.target == id);
      assert Lookup(s.buckets, k) == Scan(Items(log), iset{k});
      ScanNone(Items(log), iset{k});
      var i :| 0 <= i < |log| && Items(log)[i].key == k;
    }
    if Mentioned(log, id) {
      var i :| 0 <= i < |log| && (log[i].source.id == id || log[i].target.id == id);
      var k := Items(log)[i].key;
      assert k in KeysOf(Items(log));
      assert Lookup(s.buckets, k) == Scan(Items(log), iset{k});
      ScanNone(Items(log), iset{k});
    }
  }

  /**
   After any history, a node is in the table exactly when it has been mentioned since a purge last left no
   edge to it, is described as the first of those mentions describes it, and spans the times of all of them.
   */
  lemma {:induction false} NodesAreAsSighted(cluster: string, ops: seq<Op>, id: string)
    ensures Tells(Run(cluster, ops).nodes, id, Sightings(ops, id))
  {
    if ops != [] {
      var init, op := ops[..|ops| - 1], ops[|ops| - 1];
      var s := Run(cluster, init);
      NodesAreAsSighted(cluster, init, id);
      StoreIndexesSurvivors(cluster, init);
      match op
      case IngestOp(b) =>
        hide Tells;
        if b.id in Accepted(init) {
          assert Sightings(init, id) + [] == Sightings(init, id);
        } else {
          IngestEdgesTells(s.(batches := s.batches + {b.id}), b.edges, id, Sightings(init, id));
        }
      case PurgeOp(before) =>
        PurgeKeeps(s, Survivors(init), before);
        EndpointsAreMentioned(Purge(s, before), Keep(Survivors(init), before), id);
    }
  }

  // ---- The adapter itself ----

  datatype PurgeStats = PurgeStats(bucketsDeleted: nat, nodesDeleted: nat)

  /** What a lookup-or-start followed by the in-place updates does to one accumulator. */
  method Accumulate(acc: Tally, t: Tally) returns (r: Tally)
    ensures r == Merge(acc, t)
  {
    r := acc.(conns := acc.conns + t.conns,
              latencyCount := acc.latencyCount + t.latencyCount,
              latencySum := acc.latencySum + t.latencySum);
    if t.failed.Some? {
      r := r.(failed := Some(Measured(r.failed) + t.failed.value));
    }
    r := r.(first := Min(r.first, t.first), last := Max(r.last, t.last));
    if t.sent.Some? {
      r := r.(sent := Some(Measured(r.sent) + t.sent.value));
    }
    if t.received.Some? {
      r := r.(received := Some(Measured(r.received) + t.received.value));
    }
  }

  /** Buckets of `s` already visited when `todo` is left. */
  ghost function Done(s: Store, todo: set<BucketKey>): iset<BucketKey> {
    iset k: BucketKey | k in s.buckets && k !in todo
  }

  /** `summed` is right for every edge, counting only the buckets outside `todo`. */
  ghost predicate SummedBut(todo: set<BucketKey>, summed: map<EdgeKey, Tally>, s: Store, log: seq<Edge>, w: Window,
                            pass: EdgeKey -> bool)
  {
    forall k :: Lookup(summed, k) == if pass(k) then Scan(Items(log), InWindow(w, k) * Done(s, todo)) else None
  }

  lemma NothingSummed(s: Store, log: seq<Edge>, w: Window, pass: EdgeKey -> bool)
    ensures SummedBut(s.buckets.Keys, map[], s, log, w, pass)
  {
    forall k: EdgeKey ensures Scan(Items(log), InWindow(w, k) * Done(s, s.buckets.Keys)) == None {
      ScanNone(Items(log), InWindow(w, k) * Done(s, s.buckets.Keys));
    }
  }

  lemma VisitBucket(todo: set<BucketKey>, key: BucketKey, s: Store, log: seq<Edge>, w: Window, k: EdgeKey)
    requires Invariant(s, log) && key in todo && todo <= s.buckets.Keys
    ensures var before := Scan(Items(log), InWindow(w, k) * Done(s, todo));
      Scan(Items(log), InWindow(w, k) * Done(s, todo - {key}))
      == if key in InWindow(w, k) then Join(before, Some(s.buckets[key])) else before
  {
    assert Lookup(s.buckets, key) == Scan(Items(log), iset{key});
    if key in InWindow(w, k) {
      assert InWindow(w, k) * Done(s, todo - {key}) == InWindow(w, k) * Done(s, todo) + iset{key};
      ScanSplit(Items(log), InWindow(w, k) * Done(s, todo), iset{key});
    } else {
      assert InWindow(w, k) * Done(s, todo - {key}) == InWindow(w, k) * Done(s, todo);
    }
  }

  lemma SummedStep(todo: set<BucketKey>, key: BucketKey, summed: map<EdgeKey, Tally>, s: Store, log: seq<Edge>,
      w: Window, pass: EdgeKey -> bool)
    requires Invariant(s, log) && key in todo && todo <= s.buckets.Keys
    requires SummedBut(todo, summed, s, log, w, pass)
    ensures var summed' := if w.start <= key.minute < w.end && pass(key.edge)
                           then summed[key.edge := Join(Lookup(summed, key.edge), Some(s.buckets[key])).value]
                           else summed;
      SummedBut(todo - {key}, summed', s, log, w, pass)
  {
    var summed' := if w.start <= key.minute < w.end && pass(key.edge)
                   then summed[key.edge := Join(Lookup(summed, key.edge), Some(s.buckets[key])).value] else summed;
    forall k: EdgeKey
      ensures Lookup(summed', k) == if pass(k) then Scan(Items(log), InWindow(w, k) * Done(s, todo - {key})) else None
    {
      VisitBucket(todo, key, s, log, w, k);
    }
  }

  lemma AllSummed(summed: map<EdgeKey, Tally>, s: Store, log: seq<Edge>, w: Window, pass: EdgeKey -> bool)
    requires Invariant(s, log) && SummedBut({}, summed, s, log, w, pass)
    ensures forall k :: Lookup(summed, k) == if pass(k) then Scan(Items(log), InWindow(w, k)) else None
  {
    var items := Items(log);
    forall i | 0 <= i < |items| ensures items[i].key in Done(s, {}) {
      assert Lookup(s.buckets, items[i].key) == Scan(items, iset{items[i].key});
      ScanNone(items, iset{items[i].key});
      assert items[i].key in KeysOf(items);
    }
    forall k: EdgeKey ensures Scan(items, InWindow(w, k) * Done(s, {})) == Scan(items, InWindow(w, k)) {
      ScanAgree(items, InWindow(w, k) * Done(s, {}), InWindow(w, k));
    }
  }

  /** Delete the given keys one at a time. */
  method DeleteAll<K, V>(m: map<K, V>, doomed: set<K>) returns (r: map<K, V>)
    requires doomed <= m.Keys
    ensures r == map k | k in m && k !in doomed :: m[k]
    ensures |r| == |m| - |doomed|
  {
    r := m;
    var todo := doomed;
    while todo != {}
      invariant todo <= doomed
      invariant r == map k | k in m && (k !in doomed || k in todo) :: m[k]
      invariant |r| == |m| - |doomed| + |todo|
    {
      var key :| key in todo;
      var next := map k | k in r && k != key :: r[k];
      assert next.Keys == r.Keys - {key};
      assert |next| == |next.Keys| && |r| == |r.Keys|;
      todo := todo - {key};
      r := next;
    }
  }

  class InMemoryRepository {
    const cluster: string
    var batches: set<string>
    var buckets: map<BucketKey, Tally>
    var nodes: map<string, StoredNode>

    /** The accepted observations not yet cut by retention. */
    ghost var log: seq<Edge>

    function State(): Store
      reads this
    {
      Store(cluster, batches, buckets, nodes)
    }

    ghost predicate Valid()
      reads this
    {
      Invariant(State(), log)
    }

    constructor (cluster: string)
      ensures Valid() && this.cluster == cluster && State() == Empty(cluster) && log == []
    {
      this.cluster := cluster;
      batches, buckets, nodes, log := {}, map[], map[], [];
      new;
      StoreIndexesSurvivors(cluster, []);
    }

    method UpsertNode(ref: NodeRef, first: int, last: int)
      modifies this`nodes
      ensures nodes == Upsert(old(nodes), cluster, ref, first, last)
    {
      if ref.id !in nodes {
        nodes := nodes[ref.id := StoredNode(ref.id, cluster, ref.kind, ref.namespace, ref.name, ref.name, first, last)];
        return;
      }
      var existing := nodes[ref.id];
      nodes := nodes[ref.id :=
        StoredNode(existing.id, existing.cluster, existing.kind, existing.namespace, existing.name,
                                          existing.display, Min(existing.first, first), Max(existing.last, last))];
    }

    method IngestOne(edge: Edge)
      modifies this`nodes, this`buckets
      ensures State() == IngestEdge(old(State()), edge)
    {
      UpsertNode(edge.source, edge.tally.first, edge.tally.last);
      UpsertNode(edge.target, edge.tally.first, edge.tally.last);
      var key := BucketKey(BucketStart(edge.tally.last), edge.Key());
      if key !in buckets {
        buckets := buckets[key := edge.tally];
      } else {
        var merged := Accumulate(buckets[key], edge.tally);
        buckets := buckets[key := merged];
      }
    }

    /** A replayed batch id moves no counter; a new one adds its edges to the log, once. */
    method IngestBatch(batch: Batch) returns (outcome: Outcome)
      requires Valid()
      modifies this
      ensures Valid()
      ensures (State(), outcome) == Ingest(old(State()), batch)
      ensures outcome == (if batch.id in old(batches) then AlreadyIngested else Ingested)
      ensures log == (if outcome.Ingested? then old(log) + batch.edges else old(log))
    {
      if batch.id in batches {
        return AlreadyIngested;
      }
      batches := batches + {batch.id};
      ghost var gated := State();
      IngestEdgesKeeps(gated, log, batch.edges);
      for i := 0 to |batch.edges|
        invariant State() == IngestEdges(gated, batch.edges[..i])
        invariant log == old(log)
      {
        hide IngestEdge;
        IngestOne(batch.edges[i]);
        assert batch.edges[..i + 1][..i] == batch.edges[..i];
      }
      assert batch.edges[..|batch.edges|] == batch.edges;
      log := log + batch.edges;
      outcome := Ingested;
    }

    /** Strictly sorted, one row per edge, each row the naive scan of the log over the window. */
    method QueryEdges(w: Window, f: Filters, casefold: string -> string) returns (out: seq<Item<EdgeKey>>)
      requires Valid()
      ensures Answers(out, log, nodes, w, f, casefold)
    {
      var summed: map<EdgeKey, Tally> := map[];
      var todo := buckets.Keys;
      ghost var table := nodes;
      ghost var pass := (k: EdgeKey) => Passes(table, k.source, k.target, f, casefold);
      NothingSummed(State(), log, w, pass);
      while todo != {}
        invariant todo <= buckets.Keys
        invariant SummedBut(todo, summed, State(), log, w, pass)
      {
        var key :| key in todo;
        var value := buckets[key];
        SummedStep(todo, key, summed, State(), log, w, pass);
        todo := todo - {key};
        if w.start <= key.minute < w.end && Passes(nodes, key.edge.source, key.edge.target, f, casefold) {
          var acc := if key.edge in summed then summed[key.edge]
                     else Tally(0, None, 0, 0, None, None, value.first, value.last);
          var sum := Accumulate(acc, value);
          summed := summed[key.edge := sum];
        }
      }
      AllSummed(summed, State(), log, w, pass);
      out := Rows(summed, log, nodes, w, f, casefold);
    }

    /** Drops expired buckets, then nodes no remaining bucket names. */
    method PurgeExpired(before: int) returns (stats: PurgeStats)
      requires Valid()
      modifies this
      ensures Valid()
      ensures State() == Purge(old(State()), before)
      ensures log == Keep(old(log), before)
      ensures stats.bucketsDeleted == |old(buckets)| - |buckets| && stats.nodesDeleted == |old(nodes)| - |nodes|
    {
      PurgeKeeps(State(), log, before);
      buckets, nodes, stats := PurgeTables(State(), before);
      log := Keep(log, before);
    }
  }

  /** Delete expired buckets, then orphaned nodes, counting both. */
  method PurgeTables(s: Store, before: int)
    returns (buckets: map<BucketKey, Tally>, nodes: map<string, StoredNode>, stats: PurgeStats)
    ensures buckets == Purge(s, before).buckets && nodes == Purge(s, before).nodes
    ensures stats.bucketsDeleted == |s.buckets| - |buckets| && stats.nodesDeleted == |s.nodes| - |nodes|
  {
    var expired := set k | k in s.buckets && k.minute < before;
    buckets := DeleteAll(s.buckets, expired);
    assert buckets == Purge(s, before).buckets;
    var referenced := Endpoints(buckets);
    var orphaned := set id | id in s.nodes && id !in referenced;
    nodes := DeleteAll(s.nodes, orphaned);
    stats := PurgeStats(|expired|, |orphaned|);
  }

  /** The sorted list of a finished summary. */
  method Rows(summed: map<EdgeKey, Tally>, ghost log: seq<Edge>, ghost nodes: map<string, StoredNode>, ghost w: Window,
              ghost f: Filters, ghost casefold: string -> string) returns (out: seq<Item<EdgeKey>>)
    requires forall k :: Lookup(summed, k) == Answer(log, nodes, w, f, casefold, k)
    ensures Answers(out, log, nodes, w, f, casefold)
  {
    var rows := map k | k in summed :: Item(k, summed[k]);
    out := SortedValues(rows, AggregateKey);
    forall i | 0 <= i < |out| ensures Answer(log, nodes, w, f, casefold, out[i].key) == Some(out[i].tally) {
      assert out[i] in out;
      assert Lookup(summed, out[i].key) == Answer(log, nodes, w, f, casefold, out[i].key);
    }
    forall k | Answer(log, nodes, w, f, casefold, k).Some? ensures exists i :: 0 <= i < |out| && out[i].key == k {
      assert Lookup(summed, k).Some?;
      assert rows[k] in out;
    }
  }
}
