/**
 The agent's aggregator: observations fold into one heap entry per edge key until a flush
 detaches them as a batch.

 A flushed edge points into its entry (the failed count is a pointer on the wire type), so that a
 batch stays as it was is a fact about the heap: later additions only write entries made later.
 */
module Aggregate {
  import opened Tallies
  import opened Ordering
  import opened Contract
  import opened R = Resolver
  import I = Identity

  datatype Observation = Observation(
    source: Endpoint, target: Endpoint, protocol: string, port: nat, time: int, failed: bool, latency: Option<int>)

  datatype Verdict = InfraPort | Unresolved | NotGraphable | IncompleteId | Accepted

  function Judge(infraPorts: set<nat>, o: Observation): Verdict {
    if o.port in infraPorts then InfraPort
    else if o.source.category.UnresolvedClass? || o.target.category.UnresolvedClass? then Unresolved
    else if !o.source.IsGraphable() || !o.target.IsGraphable() then NotGraphable
    else if o.source.id == "" || o.target.id == "" then IncompleteId
    else Accepted
  }

  function KeyOf(o: Observation): EdgeKey { EdgeKey(o.source.id, o.target.id, o.protocol, o.port) }

  /** What one accepted observation adds. A failed attempt carries no timing. */
  function Contribution(o: Observation): Tally {
    var timed := !o.failed && o.latency.Some? && o.latency.value >= 0;
    Tally(if o.failed then 0 else 1, Some(if o.failed then 1 else 0),
          if timed then 1 else 0, if timed then o.latency.value else 0, None, None, o.time, o.time)
  }

  function ObsItems(log: seq<Observation>): (r: seq<Item<EdgeKey>>)
    ensures |r| == |log|
    ensures forall i :: 0 <= i < |r| ==> r[i] == Item(KeyOf(log[i]), Contribution(log[i]))
  {
    seq(|log|, i requires 0 <= i < |log| => Item(KeyOf(log[i]), Contribution(log[i])))
  }

  /** An absent namespace stays null on the wire; the empty string is not one. */
  function RefOf(e: Endpoint): NodeRef {
    NodeRef(e.id, e.kind, if e.namespace == "" then None else Some(e.namespace), e.name)
  }

  function KeyOfEdge(e: Edge): EdgeKey { e.Key() }

  /** `edges` is the flushed form of `log`: one edge per key, strictly sorted, each the fold of its
      observations and described by one of them. */
  ghost predicate Flushed(log: seq<Observation>, edges: seq<Edge>) {
    && Sorted(edges, KeyOfEdge)
    && Groups(EdgeItems(edges), ObsItems(log))
    && forall e :: e in edges ==> DescribedBy(log, e)
  }

  ghost predicate DescribedBy(log: seq<Observation>, e: Edge) {
    exists o :: o in log && KeyOf(o) == e.Key() && e.source == RefOf(o.source) && e.target == RefOf(o.target)
  }

  /** A reference says of an endpoint what the endpoint says of itself; no namespace is null. */
  predicate Depicts(n: NodeRef, e: Endpoint) {
    && n.id == e.id && n.kind == e.kind && n.name == e.name
    && (if e.namespace == "" then n.namespace.None? else n.namespace == Some(e.namespace))
  }

  // ---- Facts about flushed batches ----

  /** Each accepted observation is one attempt, successful or failed. */
  lemma {:induction false} AttemptsAreObservations(log: seq<Observation>)
    ensures TotalAttempts(ObsItems(log)) == |log|
  {
    if log != [] {
      AttemptsAreObservations(log[..|log| - 1]);
      assert ObsItems(log)[..|log| - 1] == ObsItems(log[..|log| - 1]);
    }
  }

  /** No attempt is lost or made up by a flush: a batch's edges add up to its observations. */
  lemma FlushConserves(log: seq<Observation>, edges: seq<Edge>)
    requires Flushed(log, edges)
    ensures TotalAttempts(EdgeItems(edges)) == |log|
  {
    GroupingConserves(EdgeItems(edges), ObsItems(log));
    AttemptsAreObservations(log);
  }

  // ---- What the counters of an edge mean ----

  /** The observation is one of this edge. */
  predicate IsOf(o: Observation, k: EdgeKey) {
    o.source.id == k.source && o.target.id == k.target && o.protocol == k.protocol && o.port == k.port
  }

  predicate Connected(o: Observation) { !o.failed }
  predicate Refused(o: Observation) { o.failed }
  predicate Clocked(o: Observation) { !o.failed && o.latency.Some? && o.latency.value >= 0 }

  function TotalLatency(os: seq<Observation>): int {
    if os == [] then 0
    else
      var o := os[|os| - 1];
      TotalLatency(os[..|os| - 1]) + if o.latency.Some? then o.latency.value else 0
  }

  predicate Counts(t: Tally, os: seq<Observation>) {
    && t.conns == |Select(os, Connected)|
    && t.failed == Some(|Select(os, Refused)|)
    && t.latencyCount == |Select(os, Clocked)|
    && t.latencySum == TotalLatency(Select(os, Clocked))
    && t.sent.None? && t.received.None?
  }

  predicate Spans(t: Tally, os: seq<Observation>) {
    && (forall i :: 0 <= i < |os| ==> t.first <= os[i].time <= t.last)
    && (exists i :: 0 <= i < |os| && os[i].time == t.first)
    && (exists i :: 0 <= i < |os| && os[i].time == t.last)
  }

  /** `t` is what counting `os` by hand gives: nothing for no observation, else every counter and the time span. */
  predicate Recounted(t: Option<Tally>, os: seq<Observation>) {
    if t.None? then os == [] else Counts(t.value, os) && Spans(t.value, os)
  }

  lemma CountOneMore(t: Tally, os: seq<Observation>, o: Observation)
    requires Counts(t, os)
    ensures Counts(Merge(t, Contribution(o)), os + [o])
  {
    SelectSnoc(os, o, Connected);
    SelectSnoc(os, o, Refused);
    SelectSnoc(os, o, Clocked);
    LatencySnoc(Select(os, Clocked), o);
    hide Select, TotalLatency;
  }

  lemma LatencySnoc(os: seq<Observation>, o: Observation)
    ensures TotalLatency(os + [o]) == TotalLatency(os) + if o.latency.Some? then o.latency.value else 0
  {
    assert (os + [o])[..|os|] == os;
  }

  lemma SpanOneMore(t: Tally, os: seq<Observation>, o: Observation)
    requires Spans(t, os)
    ensures Spans(Merge(t, Contribution(o)), os + [o])
  {
    var t', os' := Merge(t, Contribution(o)), os + [o];
    var i :| 0 <= i < |os| && os[i].time == t.first;
    var j :| 0 <= j < |os| && os[j].time == t.last;
    assert os'[|os|] == o && os'[i] == os[i] && os'[j] == os[j];
  }

  lemma CountOne(o: Observation)
    ensures Recounted(Some(Contribution(o)), [o])
  {
    hide Counts, Spans, Contribution;
    CountSingle(o);
    SpanSingle(o);
  }

  lemma SpanSingle(o: Observation)
    ensures Spans(Contribution(o), [o])
  {
    assert [o][0].time == o.time;
  }

  lemma CountSingle(o: Observation)
    ensures Counts(Contribution(o), [o])
  {
    var none: seq<Observation> := [];
    assert none + [o] == [o];
    SelectSnoc(none, o, Connected);
    SelectSnoc(none, o, Refused);
    SelectSnoc(none, o, Clocked);
    assert Select(none, Connected) == none && Select(none, Refused) == none && Select(none, Clocked) == none;
    hide Select;
    LatencySnoc(none, o);
    assert TotalLatency(none) == 0;
    hide TotalLatency;
  }

  lemma RecountOneMore(t: Option<Tally>, os: seq<Observation>, o: Observation)
    requires Recounted(t, os)
    ensures Recounted(Join(t, Some(Contribution(o))), os + [o])
  {
    hide Counts, Spans, Contribution;
    if t.None? {
      assert os + [o] == [o];
      CountOne(o);
    } else {
      CountOneMore(t.value, os, o);
      SpanOneMore(t.value, os, o);
    }
  }

  /** The fold of a log under one key is what counting that edge's observations by hand gives. */
  lemma {:induction false} FoldRecounts(log: seq<Observation>, k: EdgeKey)
    ensures Recounted(Scan(ObsItems(log), iset{k}), Select(log, o => IsOf(o, k)))
  {
    if log != [] {
      var init, o := log[..|log| - 1], log[|log| - 1];
      FoldRecounts(init, k);
      assert ObsItems(log)[..|log| - 1] == ObsItems(init);
      RecountOneMore(Scan(ObsItems(init), iset{k}), Select(init, o => IsOf(o, k)), o);
      hide Recounted, Contribution;
    }
  }

  /** Every edge of a flush counts the successes, failures, timings and the time span of its own observations. */
  lemma FlushRecounts(log: seq<Observation>, edges: seq<Edge>, i: nat)
    requires Flushed(log, edges) && i < |edges|
    ensures Recounted(Some(edges[i].tally), Select(log, o => IsOf(o, edges[i].Key())))
    ensures exists o ::
      && o in log && IsOf(o, edges[i].Key())
      && Depicts(edges[i].source, o.source) && Depicts(edges[i].target, o.target)
  {
    hide Recounted;
    assert DescribedBy(log, edges[i]);
    assert EdgeItems(edges)[i] == Item(edges[i].Key(), edges[i].tally);
    FoldRecounts(log, edges[i].Key());
  }

  /** The counters of any fold of observations are consistent. */
  lemma {:induction false} FoldShape(log: seq<Observation>, keys: iset<EdgeKey>)
    ensures var t := Scan(ObsItems(log), keys);
      t.Some? ==>
        && t.value.failed.Some? && t.value.conns + t.value.failed.value > 0
        && t.value.latencyCount <= t.value.conns && (t.value.latencyCount == 0 ==> t.value.latencySum == 0)
        && t.value.first <= t.value.last && t.value.sent.None? && t.value.received.None?
  {
    if log != [] {
      var init := log[..|log| - 1];
      FoldShape(init, keys);
      assert ObsItems(log)[..|log| - 1] == ObsItems(init);
    }
  }

  /** An observation as the agent makes it: TCP, a port, a real time, and ends from the resolver. */
  ghost predicate Captured(o: Observation) {
    && o.protocol == PROTOCOL_TCP && o.port <= 65535 && o.time != ZERO_TIME
    && IsSource(o.source) && IsDestination(o.target, o.port)
  }

  ghost predicate Genuine(infraPorts: set<nat>, log: seq<Observation>) {
    forall o :: o in log ==> Captured(o) && Judge(infraPorts, o).Accepted?
  }

  predicate PortsNamed(log: seq<Observation>) { forall o :: o in log ==> o.port >= 1 }

  lemma {:induction false} FoldTimes(log: seq<Observation>, keys: iset<EdgeKey>)
    requires forall o :: o in log ==> o.time != ZERO_TIME
    ensures var t := Scan(ObsItems(log), keys);
      t.Some? ==> t.value.first != ZERO_TIME && t.value.last != ZERO_TIME
  {
    if log != [] {
      var init := log[..|log| - 1];
      assert log[|log| - 1] in log;
      FoldTimes(init, keys);
      assert ObsItems(log)[..|log| - 1] == ObsItems(init);
    }
  }

  lemma AcceptedEndsAreSound(infraPorts: set<nat>, o: Observation)
    requires Captured(o) && Judge(infraPorts, o).Accepted?
    ensures NodeFault(RefOf(o.source)).None? && NodeFault(RefOf(o.target)).None?
  {
    EmittedIsNamed(o.source, o.port);
    EmittedIsNamed(o.target, o.port);
  }

  lemma IdTellsRef(e: Endpoint, p: nat, f: Endpoint, q: nat)
    requires (IsSource(e) || IsDestination(e, p)) && e.IsGraphable() && e.id != ""
    requires (IsSource(f) || IsDestination(f, q)) && f.IsGraphable() && f.id != ""
    requires e.id == f.id
    ensures RefOf(e) == RefOf(f)
  {
    var m := NameBehind(e, p);
    var n := NameBehind(f, q);
    I.NodeIdInjective(m, n);
  }

  /** Whichever of its observations describe them, a flush describes one node in one way. */
  lemma FlushedRefsAgree(infraPorts: set<nat>, log: seq<Observation>, edges: seq<Edge>, a: NodeRef, b: NodeRef)
    requires Flushed(log, edges) && Genuine(infraPorts, log) && a.id == b.id
    requires exists e :: e in edges && (a == e.source || a == e.target)
    requires exists e :: e in edges && (b == e.source || b == e.target)
    ensures a == b
  {
    var e, o := EndOf(infraPorts, log, edges, a);
    var f, p := EndOf(infraPorts, log, edges, b);
    IdTellsRef(e, o.port, f, p.port);
  }

  lemma EndOf(infraPorts: set<nat>, log: seq<Observation>, edges: seq<Edge>, a: NodeRef)
      returns (end: Endpoint, o: Observation)
    requires Flushed(log, edges) && Genuine(infraPorts, log)
    requires exists e :: e in edges && (a == e.source || a == e.target)
    ensures a == RefOf(end) && (IsSource(end) || IsDestination(end, o.port)) && end.IsGraphable() && end.id != ""
  {
    var e :| e in edges && (a == e.source || a == e.target);
    o :| o in log && KeyOf(o) == e.Key() && e.source == RefOf(o.source) && e.target == RefOf(o.target);
    end := if a == e.source then o.source else o.target;
  }

  /** The only thing that can be wrong with a flushed edge is port 0. */
  lemma FlushedEdgeIsValid(infraPorts: set<nat>, log: seq<Observation>, edges: seq<Edge>, i: nat)
    requires Flushed(log, edges) && i < |edges| && Genuine(infraPorts, log)
    ensures FaultOf(edges[i]) == if edges[i].port >= 1 then None else Some(BadPort)
  {
    var e := edges[i];
    assert e in edges;
    var o :| o in log && KeyOf(o) == e.Key() && e.source == RefOf(o.source) && e.target == RefOf(o.target);
    AcceptedEndsAreSound(infraPorts, o);
    assert EdgeItems(edges)[i] == Item(e.Key(), e.tally);
    assert Scan(ObsItems(log), iset{e.Key()}) == Some(e.tally);
    FoldShape(log, iset{e.Key()});
    FoldTimes(log, iset{e.Key()});
  }

  /** The edges of a flush carry the ports observed. */
  lemma FlushedPorts(log: seq<Observation>, edges: seq<Edge>)
    requires Flushed(log, edges)
    ensures PortsNamed(log) <==> forall i :: 0 <= i < |edges| ==> edges[i].port >= 1
  {
    forall i | 0 <= i < |edges| ensures exists o :: o in log && o.port == edges[i].port {
      assert DescribedBy(log, edges[i]);
      var o :| o in log && KeyOf(o) == edges[i].Key();
    }
    forall o | o in log ensures exists i :: 0 <= i < |edges| && edges[i].port == o.port {
      var n :| 0 <= n < |log| && log[n] == o;
      assert ObsItems(log)[n].key in KeysOf(EdgeItems(edges));
      var i :| 0 <= i < |edges| && EdgeItems(edges)[i].key == ObsItems(log)[n].key;
      assert edges[i].port == o.port;
    }
  }

  /** A flushed batch passes the contract's validation exactly when its header does and no port is 0. */
  lemma FlushedBatchIsValid(infraPorts: set<nat>, log: seq<Observation>, b: Batch)
    requires Flushed(log, b.edges) && Genuine(infraPorts, log)
    ensures Validate(b).None? <==> HeaderFault(b).None? && PortsNamed(log)
  {
    FlushedPorts(log, b.edges);
    forall i | 0 <= i < |b.edges| ensures FaultOf(b.edges[i]).None? <==> b.edges[i].port >= 1 {
      FlushedEdgeIsValid(infraPorts, log, b.edges, i);
    }
  }

  /** A header as a flush writes it is sound up to an hour; the configuration admits longer intervals. */
  lemma HeaderIsSound(cluster: string, agent: string, id: string, now: int, interval: int, edges: seq<Edge>)
    requires cluster != "" && agent != "" && IsUlid(id) && now != ZERO_TIME && interval >= 1
    ensures HeaderFault(Batch(SCHEMA_VERSION, cluster, agent, id, now, interval, edges)).None? <==> interval <= 3600
  {
  }

  const LONE_POD := Pod("shop", "web", OwnerRef("", ""))

  const ONE_POD := R.Resolver("c", Caches(
    (ip: Addr) => Some(LONE_POD), (ip: Addr) => None, (ip: Addr, port: nat) => [], (s: ServiceRef) => [],
    (ns: string, owner: OwnerRef) => None, (ip: Addr) => false))

  /** A refused connection from that pod to itself, on port 0. */
  const PORT_ZERO := Observation(
    ResolveSource(ONE_POD, Addr(10, 0, 0, 1)), ResolveDestination(ONE_POD, Addr(10, 0, 0, 2), 0),
    PROTOCOL_TCP, 0, 1, true, None)

  lemma PortZeroIsAccepted(infraPorts: set<nat>)
    requires 0 !in infraPorts
    ensures Captured(PORT_ZERO) && Judge(infraPorts, PORT_ZERO).Accepted?
  {
    assert IsSegment("c") && IsSegment("shop") && IsSegment("Pod") && IsSegment("web");
    assert PORT_ZERO.source.id == IdOrEmpty("c", "shop", "Pod", "web") == PORT_ZERO.target.id;
    assert IsSource(PORT_ZERO.source) && IsDestination(PORT_ZERO.target, 0);
  }

  /** Port 0 gets past every filter, and no batch of an interval that holds it is valid. */
  lemma PortZeroSpoilsTheInterval(infraPorts: set<nat>, before: seq<Observation>, after: seq<Observation>, b: Batch)
    requires 0 !in infraPorts && Flushed(before + [PORT_ZERO] + after, b.edges)
    ensures Captured(PORT_ZERO) && Judge(infraPorts, PORT_ZERO).Accepted?
    ensures Validate(b).Some?
  {
    var log := before + [PORT_ZERO] + after;
    assert log[|before|] == PORT_ZERO && PORT_ZERO in log;
    FlushedPorts(log, b.edges);
    hide Flushed, Captured, Judge;
    PortZeroIsAccepted(infraPorts);
    var i :| 0 <= i < |b.edges| && b.edges[i].port < 1;
    assert FaultOf(b.edges[i]).Some?;
  }

  // ---- The aggregator itself ----

  datatype Counters = Counters(
    observed: nat, infraPort: nat, notGraphable: nat, incompleteId: nat, unresolved: nat, edgesFlushed: nat,
      batchesFlushed: nat)

  function Count(c: Counters, v: Verdict): Counters {
    var c := c.(observed := c.observed + 1);
    match v
    case InfraPort => c.(infraPort := c.infraPort + 1)
    case Unresolved => c.(unresolved := c.unresolved + 1)
    case NotGraphable => c.(notGraphable := c.notGraphable + 1)
    case IncompleteId => c.(incompleteId := c.incompleteId + 1)
    case Accepted => c
  }

  function CountAll(c: Counters, infraPorts: set<nat>, os: seq<Observation>): Counters {
    if os == [] then c
    else Count(CountAll(c, infraPorts, os[..|os| - 1]), Judge(infraPorts, os[|os| - 1]))
  }

  /** Both ends are drawn: a workload, a service or the outside world, not a host address. */
  predicate Drawn(o: Observation) {
    && (o.source.category == WorkloadClass || o.source.category == ServiceClass || o.source.category == ExternalClass)
    && (o.target.category == WorkloadClass || o.target.category == ServiceClass || o.target.category == ExternalClass)
  }

  predicate Unclear(o: Observation) { o.source.category == UnresolvedClass || o.target.category == UnresolvedClass }

  predicate Nameless(o: Observation) { o.source.id == "" || o.target.id == "" }

  /** Over any run, each reason for leaving an observation out counts those it applies to and no earlier one does. */
  lemma {:induction false} ReasonsAreCounted(c: Counters, infraPorts: set<nat>, os: seq<Observation>)
    ensures var c' := CountAll(c, infraPorts, os);
      && c'.observed == c.observed + |os|
      && c'.infraPort == c.infraPort + |Select(os, (o: Observation) => o.port in infraPorts)|
      && c'.unresolved == c.unresolved + |Select(os, (o: Observation) => o.port !in infraPorts && Unclear(o))|
      && c'.notGraphable == c.notGraphable
         + |Select(os, (o: Observation) => o.port !in infraPorts && !Unclear(o) && !Drawn(o))|
      && c'.incompleteId == c.incompleteId
         + |Select(os, (o: Observation) => o.port !in infraPorts && Drawn(o) && Nameless(o))|
      && c'.edgesFlushed == c.edgesFlushed && c'.batchesFlushed == c.batchesFlushed
  {
    if os != [] {
      ReasonsAreCounted(c, infraPorts, os[..|os| - 1]);
    }
  }

  /** What is left after that: the observations that join the log. */
  lemma {:induction false} KeptAre(infraPorts: set<nat>, os: seq<Observation>)
    ensures Select(os, (o: Observation) => Judge(infraPorts, o).Accepted?) ==
      Select(os, (o: Observation) => o.port !in infraPorts && Drawn(o) && !Nameless(o))
  {
    if os != [] { KeptAre(infraPorts, os[..|os| - 1]); }
  }

  /** Empty flushes count as batches too. */
  function CountFlush(c: Counters, edges: nat): Counters {
    c.(batchesFlushed := c.batchesFlushed + 1, edgesFlushed := c.edgesFlushed + edges)
  }

  function Discarded(c: Counters): nat { c.infraPort + c.unresolved + c.notGraphable + c.incompleteId }

  datatype Snapshot = Snapshot(source: Endpoint, target: Endpoint, tally: Tally)

  /** What an observation does to its edge's snapshot; the first one also names the ends. */
  function Folded(view: map<EdgeKey, Snapshot>, o: Observation): map<EdgeKey, Snapshot> {
    var k := KeyOf(o);
    view[k := if k in view then view[k].(tally := Merge(view[k].tally, Contribution(o)))
              else Snapshot(o.source, o.target, Contribution(o))]
  }

  function TalliesOf(view: map<EdgeKey, Snapshot>): map<EdgeKey, Tally> {
    map k | k in view :: view[k].tally
  }

  /** `view` is what the log adds up to: per key the fold, and the ends as some observation named them. */
  ghost predicate Tells(view: map<EdgeKey, Snapshot>, log: seq<Observation>) {
    && Indexes(TalliesOf(view), ObsItems(log))
    && forall k :: k in view ==> Describes(log, k, view[k].source, view[k].target)
  }

  /** Conservation: everything observed was discarded for a counted reason, flushed, or is in the log. */
  ghost predicate Accounts(c: Counters, flushed: seq<Item<EdgeKey>>, view: map<EdgeKey, Snapshot>,
      log: seq<Observation>) {
    && Tells(view, log)
    && c.edgesFlushed == |flushed|
    && c.observed == Discarded(c) + TotalAttempts(flushed) + |log|
  }

  class Entry {
    const source: Endpoint
    const target: Endpoint
    var count: nat
    var failedCount: nat
    var latencyCount: nat
    var latencySum: nat
    var first: int
    var last: int

    constructor (o: Observation)
      ensures source == o.source && target == o.target && first == last == o.time
      ensures count == failedCount == latencyCount == latencySum == 0
    {
      source, target, first, last := o.source, o.target, o.time, o.time;
      count, failedCount, latencyCount, latencySum := 0, 0, 0, 0;
    }

    function Value(): Tally
      reads this
    {
      Tally(count, Some(failedCount), latencyCount, latencySum, None, None, first, last)
    }

    function Snap(): Snapshot
      reads this
    {
      Snapshot(source, target, Value())
    }

    /** Folds one observation into the entry. */
    method Fold(o: Observation)
      modifies this
      ensures Value() == Merge(old(Value()), Contribution(o))
      ensures count == old(count) + (if o.failed then 0 else 1)
      ensures failedCount == old(failedCount) + (if o.failed then 1 else 0)
    {
      if o.failed {
        failedCount := failedCount + 1;
      } else {
        count := count + 1;
        if o.latency.Some? && o.latency.value >= 0 {
          latencyCount := latencyCount + 1;
          latencySum := latencySum + o.latency.value;
        }
      }
      if o.time < first {
        first := o.time;
      }
      if o.time > last {
        last := o.time;
      }
    }
  }

  /** A flushed edge as the agent holds it: the failed count is a pointer into the old entry. */
  datatype WireEdge = WireEdge(
    source: NodeRef, target: NodeRef, protocol: string, port: int,
    count: nat, failedAt: Entry, latencyCount: nat, latencySum: nat, first: int, last: int)
  {
    function Key(): EdgeKey { EdgeKey(source.id, target.id, protocol, port) }

    /** What serializing it now would send. */
    function Read(): Edge
      reads failedAt
    {
      Edge(source, target, protocol, port,
           Tally(count, Some(failedAt.failedCount), latencyCount, latencySum, None, None, first, last))
    }
  }

  function WireKey(w: WireEdge): EdgeKey { w.Key() }

  datatype WireBatch = WireBatch(
    schemaVersion: int, cluster: string, agent: string, id: string, observedAt: int, interval: int,
      edges: seq<WireEdge>)
  {
    /** What sending it now would deliver. */
    function Read(): Batch
      reads Pointees(edges)
    {
      Batch(schemaVersion, cluster, agent, id, observedAt, interval, ReadAll(edges))
    }
  }

  /** How the flush renders one entry. */
  function WireFor(k: EdgeKey, e: Entry): WireEdge
    reads e
  {
    WireEdge(RefOf(e.source), RefOf(e.target), k.protocol, k.port,
             e.count, e, e.latencyCount, e.latencySum, e.first, e.last)
  }

  function Pointees(ws: seq<WireEdge>): set<Entry> { set w | w in ws :: w.failedAt }

  function ReadAll(ws: seq<WireEdge>): (r: seq<Edge>)
    reads Pointees(ws)
    ensures |r| == |ws|
    ensures forall i :: 0 <= i < |ws| ==> r[i] == ws[i].Read()
  {
    seq(|ws|, i requires 0 <= i < |ws| reads Pointees(ws) => assert ws[i] in ws; ws[i].Read())
  }

  class Aggregator {
    const cluster: string
    const agent: string
    const infraPorts: set<nat>
    var edges: map<EdgeKey, Entry>
    var counters: Counters

    /** Accepted since the last flush; what that adds up to; the entries made since; everything ever flushed. */
    ghost var log: seq<Observation>
    ghost var view: map<EdgeKey, Snapshot>
    ghost var entries: set<Entry>
    ghost var flushed: seq<Item<EdgeKey>>

    /** The heap holds `view`: one entry of its own per key. */
    ghost predicate Holds()
      reads this`edges, this`view, this`entries, entries
    {
      && edges.Keys == view.Keys
      && (forall k :: k in edges ==> edges[k] in entries && edges[k].Snap() == view[k])
      && (forall j, k :: j in edges && k in edges && j != k ==> edges[j] != edges[k])
    }

    ghost predicate Valid()
      reads this, entries
    {
      Holds() && Accounts(counters, flushed, view, log)
    }

    constructor (cluster: string, agent: string, infraPorts: set<nat>)
      ensures this.cluster == cluster && this.agent == agent && this.infraPorts == infraPorts
      ensures Valid() && edges == map[] && log == [] && flushed == []
      ensures counters == Counters(0, 0, 0, 0, 0, 0, 0) && entries == {}
    {
      hide Accounts;
      this.cluster, this.agent, this.infraPorts := cluster, agent, infraPorts;
      edges, log, flushed, view, entries := map[], [], [], map[], {};
      counters := Counters(0, 0, 0, 0, 0, 0, 0);
      new;
      NothingAccounted();
    }

    /** Every observation is counted once: discarded under exactly one reason, or folded into its edge. */
    method Add(o: Observation)
      requires Valid()
      modifies this`edges, this`counters, this`log, this`view, this`entries, entries
      ensures Valid()
      ensures counters == Count(old(counters), Judge(infraPorts, o))
      ensures log == (if Judge(infraPorts, o).Accepted? then old(log) + [o] else old(log))
      ensures fresh(entries - old(entries))
    {
      hide Accounts, Folded, Holds;
      AddAccounts(counters, flushed, view, log, o, Judge(infraPorts, o));
      counters := counters.(observed := counters.observed + 1);
      if o.port in infraPorts {
        counters := counters.(infraPort := counters.infraPort + 1);
        return;
      }
      if o.source.category == UnresolvedClass || o.target.category == UnresolvedClass {
        counters := counters.(unresolved := counters.unresolved + 1);
        return;
      }
      if !o.source.IsGraphable() || !o.target.IsGraphable() {
        counters := counters.(notGraphable := counters.notGraphable + 1);
        return;
      }
      if o.source.id == "" || o.target.id == "" {
        counters := counters.(incompleteId := counters.incompleteId + 1);
        return;
      }
      Accept(o);
      log := log + [o];
    }

    /** The accepting path: find or make the entry, then fold. */
    method Accept(o: Observation)
      requires Holds()
      modifies this`edges, this`view, this`entries, entries
      ensures Holds()
      ensures view == Folded(old(view), o)
      ensures fresh(entries - old(entries))
    {
      hide Merge, Contribution;
      var key := EdgeKey(o.source.id, o.target.id, o.protocol, o.port);
      if key !in edges {
        Open(key, o);
        FirstFold(o);
      }
      FoldAt(key, o);
      assert view == Folded(old(view), o);
    }

    method FoldAt(key: EdgeKey, o: Observation)
      requires Holds() && key in view
      modifies this`view, entries
      ensures Holds()
      ensures view == old(view)[key := old(view)[key].(tally := Merge(old(view)[key].tally, Contribution(o)))]
    {
      hide Merge, Contribution;
      edges[key].Fold(o);
      view := view[key := view[key].(tally := Merge(view[key].tally, Contribution(o)))];
    }

    /** A new, empty entry under a key that has none. */
    method Open(key: EdgeKey, o: Observation)
      requires Holds() && key !in edges
      modifies this`edges, this`view, this`entries
      ensures Holds()
      ensures view ==
        old(view)[key := Snapshot(o.source, o.target, Tally(0, Some(0), 0, 0, None, None, o.time, o.time))]
      ensures fresh(entries - old(entries))
    {
      var entry := new Entry(o);
      edges := edges[key := entry];
      entries := entries + {entry};
      view := view[key := entry.Snap()];
    }

    /** Any run of later additions: a batch flushed earlier still reads as it did, though it points into entries. */
    method AddAll(os: seq<Observation>, ghost held: WireBatch)
      requires Valid()
      requires Pointees(held.edges) !! entries
      modifies this`edges, this`counters, this`log, this`view, this`entries, entries
      ensures Valid()
      ensures counters == CountAll(old(counters), infraPorts, os)
      ensures log == old(log) + Select(os, (o: Observation) => o.port !in infraPorts && Drawn(o) && !Nameless(o))
      ensures held.Read() == old(held.Read())
      ensures Pointees(held.edges) !! entries
    {
      hide Accounts, Holds, Judge, Count;
      for i := 0 to |os|
        invariant Valid()
        invariant counters == CountAll(old(counters), infraPorts, os[..i])
        invariant log == old(log) + Select(os[..i], (o: Observation) => Judge(infraPorts, o).Accepted?)
        invariant fresh(entries - old(entries))
        invariant forall e :: e in Pointees(held.edges) ==> unchanged(e)
        invariant Pointees(held.edges) !! entries
      {
        assert os[..i + 1] == os[..i] + [os[i]] && os[..i + 1][..i] == os[..i];
        Add(os[i]);
      }
      assert os[..|os|] == os;
      KeptAre(infraPorts, os);
    }

    /** Detaches everything accumulated: what was accepted since the last flush comes back as one valid,
        sorted batch, and no entry it points into is one this aggregator will write again. */
    method Flush(id: string, now: int, interval: int) returns (batch: Option<WireBatch>)
      requires Valid()
      modifies this
      ensures Valid()
      ensures log == [] && entries == {}
      ensures batch.None? <==> old(log) == []
      ensures batch.Some? ==>
        && batch.value.Read() == Batch(SCHEMA_VERSION, cluster, agent, id, now, interval, batch.value.Read().edges)
        && Flushed(old(log), batch.value.Read().edges)
        && Pointees(batch.value.edges) <= old(entries)
        && flushed == old(flushed) + EdgeItems(batch.value.Read().edges)
      ensures batch.None? ==> flushed == old(flushed)
      ensures counters == CountFlush(old(counters), |old(edges)|)
    {
      hide Valid, Flushed;
      var ws := Detach();
      if ws == [] {
        assert EdgeItems(ReadAll(ws)) == [];
        return None;
      }
      batch := Some(WireBatch(SCHEMA_VERSION, cluster, agent, id, now, interval, ws));
    }

    /** Takes the accumulated edges out, rendered and sorted, and starts over. */
    method Detach() returns (ws: seq<WireEdge>)
      requires Valid()
      modifies this
      ensures Valid()
      ensures log == [] && entries == {}
      ensures Flushed(old(log), ReadAll(ws)) && (ws == [] <==> old(log) == [])
      ensures Pointees(ws) <= old(entries)
      ensures flushed == old(flushed) + EdgeItems(ReadAll(ws))
      ensures counters == CountFlush(old(counters), |old(edges)|)
    {
      hide Accounts, Flushed, Lists, CountFlush;
      FlushReady(counters, flushed, view, log);
      ws := Export(edges, view, entries);
      ghost var read := ReadAll(ws);
      FlushAccounts(counters, flushed, view, log, read);
      counters := CountFlush(counters, |edges|);
      flushed := flushed + EdgeItems(read);
      Reset();
      assert ReadAll(ws) == read;
    }

    /** A fresh table; the old entries stay as they are, with whoever holds them. */
    method Reset()
      modifies this`edges, this`log, this`view, this`entries
      ensures Holds() && log == [] && view == map[] && entries == {}
    {
      edges, log, view, entries := map[], [], map[], {};
    }
  }

  /** One rendered edge per entry, in key order. */
  method Export(taken: map<EdgeKey, Entry>, ghost view: map<EdgeKey, Snapshot>, ghost entries: set<Entry>)
    returns (ws: seq<WireEdge>)
    requires taken.Keys == view.Keys
    requires forall k :: k in taken ==> taken[k] in entries && taken[k].Snap() == view[k]
    requires forall k :: k in view ==> view[k].source.id == k.source && view[k].target.id == k.target
    ensures Lists(ReadAll(ws), view)
    ensures Pointees(ws) <= entries && |ws| == |taken|
  {
    hide Sorted, RefOf;
    var wires := Wires(taken, view);
    ws := SortedValues(wires, WireKey);
    RenderLists(ws, wires, view);
    forall w | w in ws ensures w.failedAt in entries {
      assert wires[WireKey(w)] == w;
    }
  }

  method Wires(taken: map<EdgeKey, Entry>, ghost view: map<EdgeKey, Snapshot>) returns (wires: map<EdgeKey, WireEdge>)
    requires taken.Keys == view.Keys
    requires forall k :: k in taken ==> taken[k].Snap() == view[k]
    requires forall k :: k in view ==> view[k].source.id == k.source && view[k].target.id == k.target
    ensures wires.Keys == view.Keys && |wires| == |taken|
    ensures forall k :: k in wires ==> wires[k].Key() == k && wires[k].failedAt == taken[k]
    ensures forall k :: k in wires ==> wires[k].Read() == EdgeFor(view, k)
  {
    wires := map k | k in taken :: WireFor(k, taken[k]);
    assert wires.Keys == taken.Keys;
    assert |wires| == |wires.Keys| && |taken| == |taken.Keys|;
  }

  lemma RenderLists(ws: seq<WireEdge>, wires: map<EdgeKey, WireEdge>, view: map<EdgeKey, Snapshot>)
    requires wires.Keys == view.Keys
    requires forall k :: k in wires ==> wires[k].Key() == k && wires[k].Read() == EdgeFor(view, k)
    requires Sorted(ws, WireKey)
    requires forall w :: w in ws ==> w.Key() in wires && wires[w.Key()] == w
    requires forall k :: k in wires ==> wires[k] in ws
    ensures Lists(ReadAll(ws), view)
  {
    hide EdgeFor, Sorted;
    var edges := ReadAll(ws);
    forall i | 0 <= i < |ws|
      ensures edges[i].Key() == ws[i].Key() && ws[i].Key() in view && edges[i] == EdgeFor(view, ws[i].Key())
    {
      assert ws[i] in ws;
      assert edges[i] == ws[i].Read();
    }
    SortedByEqualKeys(ws, WireKey, edges, KeyOfEdge);
    forall k | k in view ensures EdgeFor(view, k) in edges {
      var i :| 0 <= i < |ws| && ws[i] == wires[k];
      assert edges[i] == EdgeFor(view, k);
    }
  }

  /** `edges` renders `view`: one edge per key, in key order. */
  ghost predicate Lists(edges: seq<Edge>, view: map<EdgeKey, Snapshot>) {
    && Sorted(edges, KeyOfEdge)
    && (forall i :: 0 <= i < |edges| ==> edges[i].Key() in view && edges[i] == EdgeFor(view, edges[i].Key()))
    && (forall k :: k in view ==> EdgeFor(view, k) in edges)
  }

  ghost function EdgeFor(view: map<EdgeKey, Snapshot>, k: EdgeKey): Edge
    requires k in view
  {
    Edge(RefOf(view[k].source), RefOf(view[k].target), k.protocol, k.port, view[k].tally)
  }

  lemma ToldIds(view: map<EdgeKey, Snapshot>, log: seq<Observation>)
    requires Tells(view, log)
    ensures forall k :: k in view ==> view[k].source.id == k.source && view[k].target.id == k.target
  {
    forall k | k in view ensures view[k].source.id == k.source && view[k].target.id == k.target {
      assert Describes(log, k, view[k].source, view[k].target);
    }
  }

  lemma ExportIsFlush(view: map<EdgeKey, Snapshot>, log: seq<Observation>, edges: seq<Edge>)
    requires Tells(view, log) && Lists(edges, view)
    ensures Flushed(log, edges)
    ensures edges == [] <==> log == []
  {
    ListedGroups(view, log, edges);
    forall e | e in edges ensures DescribedBy(log, e) {
      var k := e.Key();
      assert Describes(log, k, view[k].source, view[k].target);
    }
    assert EdgeItems(edges) == [] <==> edges == [];
    assert ObsItems(log) == [] <==> log == [];
    EmptyTogether(EdgeItems(edges), ObsItems(log));
  }

  lemma EmptyTogether<K>(a: seq<Item<K>>, b: seq<Item<K>>)
    requires KeysOf(a) == KeysOf(b)
    ensures a == [] <==> b == []
  {
    if a != [] { assert a[0].key in KeysOf(a); }
    if b != [] { assert b[0].key in KeysOf(b); }
  }

  lemma ListedGroups(view: map<EdgeKey, Snapshot>, log: seq<Observation>, edges: seq<Edge>)
    requires Tells(view, log) && Lists(edges, view)
    ensures Groups(EdgeItems(edges), ObsItems(log))
  {
    hide KeyLess;
    var groups, items := EdgeItems(edges), ObsItems(log);
    forall i | 0 <= i < |groups| ensures Scan(items, iset{groups[i].key}) == Some(groups[i].tally) {
      assert Lookup(TalliesOf(view), groups[i].key) == Scan(items, iset{groups[i].key});
    }
    forall i, j | 0 <= i < j < |groups| ensures groups[i].key != groups[j].key {
      KeyLessTotal(edges[i].Key(), edges[j].Key());
    }
    ListedKeys(view, log, edges);
  }

  lemma ListedKeys(view: map<EdgeKey, Snapshot>, log: seq<Observation>, edges: seq<Edge>)
    requires Tells(view, log) && Lists(edges, view)
    ensures KeysOf(EdgeItems(edges)) == KeysOf(ObsItems(log))
  {
    var groups, items := EdgeItems(edges), ObsItems(log);
    ToldIds(view, log);
    forall k ensures k in KeysOf(groups) <==> k in KeysOf(items) {
      assert Lookup(TalliesOf(view), k) == Scan(items, iset{k});
      ScanNone(items, iset{k});
      if k in view {
        var i :| 0 <= i < |edges| && edges[i] == EdgeFor(view, k);
        assert groups[i].key == k;
      }
    }
  }

  /** An entry starts empty at the observation's own time, so the first fold is just the observation. */
  lemma FirstFold(o: Observation)
    ensures Merge(Tally(0, Some(0), 0, 0, None, None, o.time, o.time), Contribution(o)) == Contribution(o)
  {
  }

  lemma FoldTells(view: map<EdgeKey, Snapshot>, log: seq<Observation>, o: Observation)
    requires Tells(view, log)
    ensures Tells(Folded(view, o), log + [o])
  {
    IndexAppend(TalliesOf(view), ObsItems(log), Item(KeyOf(o), Contribution(o)));
    assert ObsItems(log + [o]) == ObsItems(log) + [Item(KeyOf(o), Contribution(o))];
    assert TalliesOf(Folded(view, o))
        == TalliesOf(view)[KeyOf(o) := Join(Lookup(TalliesOf(view), KeyOf(o)), Some(Contribution(o))).value];
    AddedDescriptions(log, o);
  }

  lemma NothingTold()
    ensures Tells(map[], [])
  {
    var none: map<EdgeKey, Snapshot> := map[];
    assert ObsItems([]) == [];
    assert TalliesOf(none) == map[];
    assert forall k :: Scan<EdgeKey>([], iset{k}) == None;
  }

  lemma NothingAccounted()
    ensures Accounts(Counters(0, 0, 0, 0, 0, 0, 0), [], map[], [])
  {
    hide *;
    NothingTold();
    AccountsOfNothing();
  }

  lemma AccountsOfNothing()
    requires Tells(map[], [])
    ensures Accounts(Counters(0, 0, 0, 0, 0, 0, 0), [], map[], [])
  {
    hide Tells, Scan, Merge, Attempts;
    var none: seq<Item<EdgeKey>> := [];
    assert TotalAttempts(none) == 0;
    hide TotalAttempts;
    assert Discarded(Counters(0, 0, 0, 0, 0, 0, 0)) == 0;
  }

  lemma AddAccounts(c: Counters, flushed: seq<Item<EdgeKey>>, view: map<EdgeKey, Snapshot>, log: seq<Observation>,
                    o: Observation, v: Verdict)
    requires Accounts(c, flushed, view, log)
    ensures if v.Accepted? then Accounts(Count(c, v), flushed, Folded(view, o), log + [o])
            else Accounts(Count(c, v), flushed, view, log)
  {
    hide Tells, Scan, Folded;
    FoldTells(view, log, o);
  }

  lemma FlushReady(c: Counters, flushed: seq<Item<EdgeKey>>, view: map<EdgeKey, Snapshot>, log: seq<Observation>)
    requires Accounts(c, flushed, view, log)
    ensures forall k :: k in view ==> view[k].source.id == k.source && view[k].target.id == k.target
  {
    ToldIds(view, log);
  }

  lemma FlushAccounts(c: Counters, flushed: seq<Item<EdgeKey>>, view: map<EdgeKey, Snapshot>, log: seq<Observation>,
      edges: seq<Edge>)
    requires Accounts(c, flushed, view, log) && Lists(edges, view)
    ensures Flushed(log, edges) && (edges == [] <==> log == [])
    ensures Accounts(CountFlush(c, |edges|), flushed + EdgeItems(edges), map[], [])
  {
    hide Scan, Flushed, Lists, Tells;
    ExportIsFlush(view, log, edges);
    FlushConserves(log, edges);
    TotalConcat(flushed, EdgeItems(edges));
    NothingTold();
  }

  /** Observed is discarded, plus the attempts in every flushed edge, plus those in the edges still pending. */
  lemma ObservedIsConserved(c: Counters, flushed: seq<Item<EdgeKey>>, view: map<EdgeKey, Snapshot>,
      log: seq<Observation>, pending: seq<Edge>)
    requires Accounts(c, flushed, view, log) && Lists(pending, view)
    ensures c.observed == Discarded(c) + TotalAttempts(flushed) + TotalAttempts(EdgeItems(pending))
  {
    hide Tells, Lists, Flushed;
    ExportIsFlush(view, log, pending);
    FlushConserves(log, pending);
  }

  lemma AddedDescriptions(log: seq<Observation>, o: Observation)
    ensures forall k, s, t :: Describes(log, k, s, t) ==> Describes(log + [o], k, s, t)
    ensures Describes(log + [o], KeyOf(o), o.source, o.target)
  {
    assert o in log + [o];
    forall k, s, t | Describes(log, k, s, t) ensures Describes(log + [o], k, s, t) {
      var x :| x in log && KeyOf(x) == k && x.source == s && x.target == t;
      assert x in log + [o];
    }
  }

  ghost predicate Describes(log: seq<Observation>, k: EdgeKey, source: Endpoint, target: Endpoint) {
    exists o :: o in log && KeyOf(o) == k && o.source == source && o.target == target
  }
}
