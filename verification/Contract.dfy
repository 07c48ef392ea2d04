/**
 The wire contract: node references, edge observations, batches, the batch validator, and the
 identity grammar that names nodes, edges and anomalies.

 Times are microseconds since the Unix epoch. Counters are natural numbers, so the source's
 "must not be negative" checks hold by type.
 */
module Contract {
  import opened Tallies
  import opened Ordering

  const SCHEMA_VERSION := 1
  const EXTERNAL_NODE_ID := "external:EXTERNAL"
  const PROTOCOL_TCP := "TCP"

  /** Go's zero time, 1 January of year 1. */
  const ZERO_TIME := -62_135_596_800_000_000

  const ALLOWED_KINDS: set<string> := {"Service", "Deployment", "StatefulSet", "DaemonSet", "Job", "Pod"}

  datatype NodeRef = NodeRef(id: string, kind: string, namespace: Option<string>, name: string)

  datatype Edge = Edge(source: NodeRef, target: NodeRef, protocol: string, port: int, tally: Tally) {
    function Key(): EdgeKey { EdgeKey(source.id, target.id, protocol, port) }
  }

  datatype Batch = Batch(
    schemaVersion: int, cluster: string, agent: string, id: string,
    observedAt: int, interval: int, edges: seq<Edge>)

  function EdgeItems(edges: seq<Edge>): (r: seq<Item<EdgeKey>>)
    ensures |r| == |edges|
    ensures forall i :: 0 <= i < |r| ==> r[i] == Item(edges[i].Key(), edges[i].tally)
  {
    seq(|edges|, i requires 0 <= i < |edges| => Item(edges[i].Key(), edges[i].tally))
  }

  // ---- Validation ----

  datatype EdgeFault =
    | EmptyNodeId | EmptyNodeName | BadKind | BadProtocol | BadPort | NoConnection | BadTiming
    | NoTimestamps | ReversedInterval

  datatype Fault =
    | BadSchema | NoCluster | NoAgent | BadBatchId | NoObservedAt | BadInterval
    | BadEdge(index: nat, why: EdgeFault)

  function NodeFault(n: NodeRef): Option<EdgeFault> {
    if n.id == "" then Some(EmptyNodeId)
    else if n.name == "" then Some(EmptyNodeName)
    else if n.kind !in ALLOWED_KINDS then Some(BadKind)
    else None
  }

  function FaultOf(e: Edge): Option<EdgeFault> {
    var t := e.tally;
    if NodeFault(e.source).Some? then NodeFault(e.source)
    else if NodeFault(e.target).Some? then NodeFault(e.target)
    else if e.protocol != PROTOCOL_TCP then Some(BadProtocol)
    else if e.port < 1 || e.port > 65535 then Some(BadPort)
    else if t.conns == 0 && (t.failed == None || t.failed == Some(0)) then Some(NoConnection)
    else if t.latencyCount > t.conns || (t.latencyCount == 0 && t.latencySum != 0) then Some(BadTiming)
    else if t.first == ZERO_TIME || t.last == ZERO_TIME then Some(NoTimestamps)
    else if t.last < t.first then Some(ReversedInterval)
    else None
  }

  predicate SoundRef(n: NodeRef) { n.id != "" && n.name != "" && n.kind in ALLOWED_KINDS }

  /** An edge passes exactly when nothing about it is out of line. */
  lemma SoundEdgeIff(e: Edge)
    ensures FaultOf(e).None? <==>
      && SoundRef(e.source) && SoundRef(e.target)
      && e.protocol == "TCP" && 1 <= e.port <= 65535
      && e.tally.conns + Measured(e.tally.failed) > 0
      && e.tally.latencyCount <= e.tally.conns && (e.tally.latencySum > 0 ==> e.tally.latencyCount > 0)
      && e.tally.first != ZERO_TIME && e.tally.last != ZERO_TIME && e.tally.first <= e.tally.last
  {
  }

  /** A header passes exactly when it is of this version, names its origin and its batch, and spans up to an hour.
      Batch ids are 26 digits of Crockford's base 32, which has no I, L, O or U. */
  lemma SoundHeaderIff(b: Batch)
    ensures HeaderFault(b).None? <==>
      && b.schemaVersion == 1 && b.cluster != "" && b.agent != "" && b.observedAt != ZERO_TIME
      && 1 <= b.interval <= 3600 && |b.id| == 26
      && forall c :: c in b.id ==> ('0' <= c <= '9' || 'A' <= c <= 'Z') && c !in {'I', 'L', 'O', 'U'}
  {
    forall c ensures IsUlidChar(c) <==> ('0' <= c <= '9' || 'A' <= c <= 'Z') && c !in {'I', 'L', 'O', 'U'} {}
  }

  predicate IsUlidChar(c: char) {
    || '0' <= c <= '9' || 'A' <= c <= 'H' || 'J' <= c <= 'K' || 'M' <= c <= 'N'
    || 'P' <= c <= 'T' || 'V' <= c <= 'Z'
  }

  predicate IsUlid(id: string) {
    |id| == 26 && forall c :: c in id ==> IsUlidChar(c)
  }

  function HeaderFault(b: Batch): Option<Fault> {
    if b.schemaVersion != SCHEMA_VERSION then Some(BadSchema)
    else if b.cluster == "" then Some(NoCluster)
    else if b.agent == "" then Some(NoAgent)
    else if !IsUlid(b.id) then Some(BadBatchId)
    else if b.observedAt == ZERO_TIME then Some(NoObservedAt)
    else if b.interval < 1 || b.interval > 3600 then Some(BadInterval)
    else None
  }

  /** The batch's first fault, or None: header first, then edges in order. */
  function Validate(b: Batch): (r: Option<Fault>)
    ensures r.None? <==> HeaderFault(b).None? && forall i :: 0 <= i < |b.edges| ==> FaultOf(b.edges[i]).None?
    ensures r.Some? && r.value.BadEdge? ==>
      && r.value.index < |b.edges|
      && FaultOf(b.edges[r.value.index]) == Some(r.value.why)
      && forall i :: 0 <= i < r.value.index ==> FaultOf(b.edges[i]).None?
  {
    if HeaderFault(b).Some? then HeaderFault(b) else FirstEdgeFault(b.edges, 0)
  }

  function FirstEdgeFault(edges: seq<Edge>, from: nat): (r: Option<Fault>)
    requires from <= |edges|
    decreases |edges| - from
    ensures r.None? <==> forall i :: from <= i < |edges| ==> FaultOf(edges[i]).None?
    ensures r.Some? ==>
      && r.value.BadEdge?
      && from <= r.value.index < |edges|
      && FaultOf(edges[r.value.index]) == Some(r.value.why)
      && forall i :: from <= i < r.value.index ==> FaultOf(edges[i]).None?
  {
    if from == |edges| then None
    else if FaultOf(edges[from]).Some? then Some(BadEdge(from, FaultOf(edges[from]).value))
    else FirstEdgeFault(edges, from + 1)
  }

  // ---- Identity ----

  predicate IsSegment(s: string) { s != "" && ':' !in s }

  /** None is the source's error: an empty segment, or one holding the separator. */
  function BuildNodeId(cluster: string, namespace: string, kind: string, name: string): Option<string> {
    if IsSegment(cluster) && IsSegment(namespace) && IsSegment(kind) && IsSegment(name)
    then Some("k8s:" + (cluster + ":" + (namespace + ":" + (kind + ":" + name))))
    else None
  }

  function Digit(n: nat): char
    requires n < 10
  {
    '0' + n as char
  }

  function Decimal(n: nat): string {
    if n < 10 then [Digit(n)] else Decimal(n / 10) + [Digit(n % 10)]
  }

  function BuildEdgeId(k: EdgeKey): string
    requires 0 <= k.port
  {
    k.source + "|" + (k.target + "|" + (k.protocol + "|" + Decimal(k.port)))
  }

  datatype NodeName = External | Workload(cluster: string, namespace: string, kind: string, name: string)

  /** The ids the pipeline ever emits: the external node and what BuildNodeId accepts. */
  function NodeId(n: NodeName): Option<string> {
    match n
    case External => Some(EXTERNAL_NODE_ID)
    case Workload(c, ns, k, name) => BuildNodeId(c, ns, k, name)
  }

  ghost predicate Canonical(id: string) {
    exists n :: NodeId(n) == Some(id)
  }

  /** Keys the store can hold. The protocol is a fixed word; it holds neither separator. */
  ghost predicate CanonicalKey(k: EdgeKey) {
    && Canonical(k.source) && Canonical(k.target)
    && '|' !in k.protocol && ':' !in k.protocol && 0 <= k.port
  }

  /** How many characters come before the first `sep` ... */
  function Before(s: string, sep: char): nat {
    if s == "" || s[0] == sep then 0 else 1 + Before(s[1..], sep)
  }

  /** ... and after the last one. */
  function After(s: string, sep: char): nat {
    if s == "" || s[|s| - 1] == sep then 0 else 1 + After(s[..|s| - 1], sep)
  }

  lemma {:induction false} BeforeIs(a: string, x: string, sep: char)
    requires sep !in a
    ensures Before(a + [sep] + x, sep) == |a|
  {
    if a != "" {
      BeforeIs(a[1..], x, sep);
      assert (a + [sep] + x)[1..] == a[1..] + [sep] + x;
    }
  }

  lemma {:induction false} AfterIs(a: string, x: string, sep: char)
    requires sep !in x
    ensures After(a + [sep] + x, sep) == |x|
  {
    var s := a + [sep] + x;
    if x != "" {
      AfterIs(a, x[..|x| - 1], sep);
      assert s[..|s| - 1] == a + [sep] + x[..|x| - 1];
    }
  }

  /** A string is cut uniquely at the first separator, and at the last one. */
  lemma Cut(a: string, x: string, b: string, y: string, sep: char)
    requires a + [sep] + x == b + [sep] + y
    requires (sep !in a && sep !in b) || (sep !in x && sep !in y)
    ensures a == b && x == y
  {
    var s := a + [sep] + x;
    if sep !in a && sep !in b {
      BeforeIs(a, x, sep);
      BeforeIs(b, y, sep);
    } else {
      AfterIs(a, x, sep);
      AfterIs(b, y, sep);
    }
    assert |a| == |b|;
    assert a == s[..|a|] && b == s[..|a|];
    assert x == s[|a| + 1..] && y == s[|a| + 1..];
  }
}
