/**
 Collapsing namespaces in the drawn graph: every node of a collapsed namespace is represented by one
 synthetic node, and edges between the same two representatives are summed.

 Edges are mutable objects, as in the view; the sums are kept in new objects, so no edge passed in
 can change. First and last times are strings there, compared as text (`Timestamps`). JSON rendering is a
 parameter: `quote` for a namespace, `render` for an edge's key, the
 latter injective.
 */
module Grouping {
  import opened Tallies
  import opened Ordering
  import T = Timestamps

  const EXTERNAL := "External"

  datatype Node = Node(id: string, kind: string, namespace: Option<string>, name: string, title: string)

  datatype Edge = Edge(
    id: string, source: string, target: string, protocol: string, port: int,
    conns: nat, failed: Option<nat>, latencyCount: Option<nat>, latencySum: Option<nat>,
    sent: Option<nat>, received: Option<nat>, first: T.Stamp, last: T.Stamp)
  {
    function Key(): EdgeKey { EdgeKey(source, target, protocol, port) }

    /** What the grouped view counts: byte counts are dropped, a missing latency is none, and times stand
        in the order of their texts. */
    function Reading(): Tally {
      Tally(conns, failed, Measured(latencyCount), Measured(latencySum), None, None, T.Rank(first), T.Rank(last))
    }
  }

  // ---------- synthetic ids ----------

  function Padded(k: nat, id: string): string { if k == 0 then id else "_" + Padded(k - 1, id) }

  lemma PaddedLength(k: nat, id: string)
    ensures |Padded(k, id)| == k + |id|
  {
  }

  function AtLeast(ids: set<string>, n: nat): set<string> { set r | r in ids && |r| >= n }

  function SyntheticId(namespace: string, quote: string -> string): string { "namespace:" + quote(namespace) }

  /** Pads until the id is free: the least number of underscores that will do. */
  method PickId(namespace: string, quote: string -> string, reserved: set<string>) returns (id: string,
      ghost padding: nat)
    ensures id !in reserved && id == Padded(padding, SyntheticId(namespace, quote))
    ensures forall k :: 0 <= k < padding ==> Padded(k, SyntheticId(namespace, quote)) in reserved
  {
    id, padding := SyntheticId(namespace, quote), 0;
    while id in reserved
      invariant id == Padded(padding, SyntheticId(namespace, quote))
      invariant forall k :: 0 <= k < padding ==> Padded(k, SyntheticId(namespace, quote)) in reserved
      decreases |AtLeast(reserved, |id|)|
    {
      assert id in AtLeast(reserved, |id|);
      assert AtLeast(reserved, |id| + 1) <= AtLeast(reserved, |id|) - {id};
      SubsetSize(AtLeast(reserved, |id| + 1), AtLeast(reserved, |id|) - {id});
      id, padding := "_" + id, padding + 1;
    }
  }

  predicate Named(n: Node) { n.kind != EXTERNAL && n.namespace.Some? }

  function Namespaces(nodes: seq<Node>): set<string> { set n | n in nodes && Named(n) :: n.namespace.value }

  function Ids(nodes: seq<Node>): set<string> { set n | n in nodes :: n.id }

  /** One new id for each namespace, none of them a node's and no two the same. */
  ghost predicate FreshIds(names: map<string, string>, taken: set<string>) {
    && (forall ns :: ns in names ==> names[ns] !in taken && names[ns] != "")
    && (forall a, b :: a in names && b in names && a != b ==> names[a] != names[b])
  }

  /** The namespaces are taken in sorted order, so the ids depend on nothing else. */
  method NamespaceIds(nodes: seq<Node>, quote: string -> string) returns (names: map<string, string>)
    ensures names.Keys == Namespaces(nodes) && FreshIds(names, Ids(nodes))
  {
    var sorted := SortedNames(Namespaces(nodes));
    var reserved := Ids(nodes);
    names := map[];
    for i := 0 to |sorted|
      invariant names.Keys == set s | s in sorted[..i]
      invariant FreshIds(names, Ids(nodes))
      invariant Ids(nodes) <= reserved && forall ns :: ns in names ==> names[ns] in reserved
    {
      var id, padding := PickId(sorted[i], quote, reserved);
      PaddedLength(padding, SyntheticId(sorted[i], quote));
      assert sorted[..i + 1] == sorted[..i] + [sorted[i]];
      reserved := reserved + {id};
      names := names[sorted[i] := id];
    }
    assert sorted[..|sorted|] == sorted;
  }

  method SortedNames(names: set<string>) returns (sorted: seq<string>)
    ensures Sorted(sorted, TextKey)
    ensures forall s :: s in sorted <==> s in names
  {
    var listed: seq<string> := [];
    var todo := names;
    while todo != {}
      invariant todo <= names
      invariant forall s :: s in listed <==> s in names && s !in todo
      invariant forall i, j :: 0 <= i < j < |listed| ==> listed[i] != listed[j]
      decreases |todo|
    {
      var s :| s in todo;
      forall i | 0 <= i < |listed| ensures listed[i] != s { assert listed[i] in listed; }
      listed := listed + [s];
      todo := todo - {s};
    }
    sorted := SortByKey(listed, TextKey);
    SameElements(sorted, listed);
  }

  // ---------- representatives ----------

  predicate Stays(n: Node, expanded: set<string>) { !Named(n) || n.namespace.value in expanded }

  function RepOf(n: Node, names: map<string, string>, expanded: set<string>): string
    requires Named(n) ==> n.namespace.value in names
  {
    if Stays(n, expanded) then n.id else names[n.namespace.value]
  }

  /** A node of a namespace that is not expanded. */
  predicate IsHidden(n: Node, expanded: set<string>) {
    n.kind != "External" && n.namespace != None && !(n.namespace.value in expanded)
  }

  /** Two nodes are drawn as one exactly when both are hidden in one namespace, or neither is and they are the same. */
  lemma DrawnTogetherIff(nodes: seq<Node>, names: map<string, string>, expanded: set<string>, m: Node, n: Node)
    requires m in nodes && n in nodes && Covers(names, nodes) && FreshIds(names, Ids(nodes))
    ensures RepOf(m, names, expanded) == RepOf(n, names, expanded) <==>
      || (IsHidden(m, expanded) && IsHidden(n, expanded) && m.namespace == n.namespace)
      || (!IsHidden(m, expanded) && !IsHidden(n, expanded) && m.id == n.id)
    ensures !IsHidden(n, expanded) ==> RepOf(n, names, expanded) == n.id
    ensures IsHidden(n, expanded) ==> RepOf(n, names, expanded) !in Ids(nodes)
  {
    assert m.id in Ids(nodes) && n.id in Ids(nodes);
  }

  predicate Covers(names: map<string, string>, nodes: seq<Node>) {
    forall n :: n in nodes && Named(n) ==> n.namespace.value in names
  }

  /** A node listed twice is represented as its last listing says. */
  function Reps(nodes: seq<Node>, names: map<string, string>, expanded: set<string>): map<string, string>
    requires Covers(names, nodes)
  {
    if nodes == [] then map[]
    else
      var n := nodes[|nodes| - 1];
      Reps(nodes[..|nodes| - 1], names, expanded)[n.id := RepOf(n, names, expanded)]
  }

  /** The last listing of an id; what it says is what counts. */
  function LastOf(nodes: seq<Node>, id: string): (i: nat)
    requires id in Ids(nodes)
    ensures i < |nodes| && nodes[i].id == id && forall j :: i < j < |nodes| ==> nodes[j].id != id
  {
    var k := |nodes| - 1;
    assert nodes == nodes[..k] + [nodes[k]];
    if nodes[k].id == id then k else LastOf(nodes[..k], id)
  }

  /** Exactly the listed nodes are represented, each as its last listing says. */
  lemma {:induction false} RepsAre(nodes: seq<Node>, names: map<string, string>, expanded: set<string>, id: string)
    requires Covers(names, nodes)
    ensures id in Reps(nodes, names, expanded) <==> id in Ids(nodes)
    ensures id in Ids(nodes) ==> Reps(nodes, names, expanded)[id] == RepOf(nodes[LastOf(nodes, id)], names, expanded)
  {
    if nodes != [] {
      var k := |nodes| - 1;
      var init := nodes[..k];
      RepsAre(init, names, expanded, id);
      assert nodes == init + [nodes[k]];
      assert Ids(nodes) == Ids(init) + {nodes[k].id};
      if nodes[k].id != id && id in Ids(init) {
        var i, j := LastOf(nodes, id), LastOf(init, id);
        assert i < k && init[i] == nodes[i] && init[j] == nodes[j];
        assert i == j;
      }
    }
  }

  /** The ids in the view. */
  function Shown(nodes: seq<Node>, names: map<string, string>, expanded: set<string>): set<string>
    requires Covers(names, nodes)
  {
    if nodes == [] then {}
    else Shown(nodes[..|nodes| - 1], names, expanded) + {RepOf(nodes[|nodes| - 1], names, expanded)}
  }

  /** Exactly the representatives of the listed nodes are shown. */
  lemma {:induction false} ShownAreRepresentatives(nodes: seq<Node>, names: map<string, string>, expanded: set<string>,
      id: string)
    requires Covers(names, nodes)
    ensures id in Shown(nodes, names, expanded) <==>
      exists i :: 0 <= i < |nodes| && RepOf(nodes[i], names, expanded) == id
  {
    hide RepOf;
    if nodes != [] {
      var k := |nodes| - 1;
      ShownAreRepresentatives(nodes[..k], names, expanded, id);
      assert forall i :: 0 <= i < k ==> nodes[..k][i] == nodes[i];
    }
  }

  /** What is drawn under an id: a listed node as it is, or a hidden one under its namespace's name. */
  predicate Depicts(d: Node, id: string, nodes: seq<Node>, expanded: set<string>) {
    exists i :: 0 <= i < |nodes| &&
      if IsHidden(nodes[i], expanded)
      then d == Node(id, nodes[i].kind, nodes[i].namespace, nodes[i].namespace.value, nodes[i].namespace.value)
      else d == nodes[i] && d.id == id
  }

  lemma ItselfDepicted(nodes: seq<Node>, i: nat, expanded: set<string>)
    requires i < |nodes| && !IsHidden(nodes[i], expanded)
    ensures Depicts(nodes[i], nodes[i].id, nodes, expanded)
  {
  }

  lemma NamespaceDepicted(nodes: seq<Node>, i: nat, expanded: set<string>, id: string)
    requires i < |nodes| && IsHidden(nodes[i], expanded)
    ensures var ns := nodes[i].namespace.value;
      Depicts(nodes[i].(id := id, name := ns, title := ns), id, nodes, expanded)
  {
  }

  /** The node loop: representatives, and how many nodes each collapsed namespace stands for. */
  method Represent(nodes: seq<Node>, names: map<string, string>, expanded: set<string>)
    returns (reps: map<string, string>, workloads: map<string, nat>, drawn: map<string, Node>)
    requires Covers(names, nodes) && FreshIds(names, Ids(nodes))
    ensures reps == Reps(nodes, names, expanded)
    ensures drawn.Keys == Shown(nodes, names, expanded)
    ensures forall id :: id in workloads ==> id in drawn
    ensures forall id :: id in drawn ==> Depicts(drawn[id], id, nodes, expanded)
    ensures forall ns :: ns in names ==>
      (if names[ns] in workloads then workloads[names[ns]] else 0) == Collapsed(nodes, ns, expanded)
  {
    hide Depicts;
    reps, workloads, drawn := map[], map[], map[];
    for i := 0 to |nodes|
      invariant reps == Reps(nodes[..i], names, expanded)
      invariant drawn.Keys == Shown(nodes[..i], names, expanded)
      invariant forall id :: id in workloads ==> id in drawn
      invariant forall id :: id in drawn ==> Depicts(drawn[id], id, nodes, expanded)
      invariant forall ns :: ns in names ==>
        (if names[ns] in workloads then workloads[names[ns]] else 0) == Collapsed(nodes[..i], ns, expanded)
    {
      var n := nodes[i];
      assert nodes[..i + 1][..i] == nodes[..i];
      if n.kind == EXTERNAL || n.namespace.None? || n.namespace.value in expanded {
        ItselfDepicted(nodes, i, expanded);
        reps, drawn := reps[n.id := n.id], drawn[n.id := n];
      } else {
        var id := names[n.namespace.value];
        reps := reps[n.id := id];
        if id in workloads {
          workloads := workloads[id := workloads[id] + 1];
        } else {
          NamespaceDepicted(nodes, i, expanded, id);
          workloads := workloads[id := 1];
          drawn := drawn[id := n.(id := id, name := n.namespace.value, title := n.namespace.value)];
        }
      }
    }
    assert nodes[..|nodes|] == nodes;
  }

  /** How many listed nodes of a namespace are drawn as one. */
  function Collapsed(nodes: seq<Node>, ns: string, expanded: set<string>): nat {
    if nodes == [] then 0
    else
      var n := nodes[|nodes| - 1];
      Collapsed(nodes[..|nodes| - 1], ns, expanded) + if !Stays(n, expanded) && n.namespace.value == ns then 1 else 0
  }

  /** That is the number of its hidden nodes. */
  lemma {:induction false} CollapsedCounts(nodes: seq<Node>, ns: string, expanded: set<string>)
    ensures Collapsed(nodes, ns, expanded) == |Select(nodes, n => IsHidden(n, expanded) && n.namespace == Some(ns))|
  {
    if nodes != [] {
      CollapsedCounts(nodes[..|nodes| - 1], ns, expanded);
    }
  }

  // ---------- edges ----------

  predicate Known(e: Edge, reps: map<string, string>) {
    e.source in reps && e.target in reps && reps[e.source] != "" && reps[e.target] != ""
  }

  function KeyUnder(e: Edge, reps: map<string, string>): EdgeKey
    requires Known(e, reps)
  {
    EdgeKey(reps[e.source], reps[e.target], e.protocol, e.port)
  }

  /** The edges with known ends, as readings under their representatives' keys. */
  function Readings(es: seq<Edge>, reps: map<string, string>): seq<Item<EdgeKey>> {
    if es == [] then []
    else
      var rest, e := Readings(es[..|es| - 1], reps), es[|es| - 1];
      if Known(e, reps) then rest + [Item(KeyUnder(e, reps), e.Reading())] else rest
  }

  function Adopt(e: Edge, key: EdgeKey, render: EdgeKey -> string): Edge {
    Edge(render(key), key.source, key.target, e.protocol, e.port, e.conns, e.failed,
         Some(Measured(e.latencyCount)), Some(Measured(e.latencySum)), None, None, e.first, e.last)
  }

  function Absorb(a: Edge, e: Edge): Edge {
    a.(conns := a.conns + e.conns,
       failed := if a.failed.None? && e.failed.None? then None else Some(Measured(a.failed) + Measured(e.failed)),
       latencyCount := Some(Measured(a.latencyCount) + Measured(e.latencyCount)),
       latencySum := Some(Measured(a.latencySum) + Measured(e.latencySum)),
       first := if T.TextLess(a.first, e.first) then a.first else e.first,
       last := if T.TextLess(e.last, a.last) then a.last else e.last)
  }

  ghost predicate Injective(render: EdgeKey -> string) {
    forall a, b :: render(a) == render(b) ==> a == b
  }

  /** The table of sums, and the order in which its entries were made. */
  ghost predicate Tabled(table: map<string, Edge>, order: seq<string>, items: seq<Item<EdgeKey>>,
      render: EdgeKey -> string) {
    && (forall i, j :: 0 <= i < j < |order| ==> order[i] != order[j])
    && (forall id :: id in order <==> id in table)
    && (forall id :: id in table ==> id == table[id].id == render(table[id].Key()))
    && (forall k :: ReadingAt(table, render(k)) == Scan(items, iset{k}))
  }

  function ReadingAt(table: map<string, Edge>, id: string): Option<Tally> {
    if id in table then Some(table[id].Reading()) else None
  }

  function Recorded(table: map<string, Edge>, e: Edge, key: EdgeKey, render: EdgeKey -> string): map<string, Edge> {
    var id := render(key);
    table[id := if id in table then Absorb(table[id], e) else Adopt(e, key, render)]
  }

  /** Adding an edge to a row merges their readings, times in text order. */
  lemma AbsorbMerges(a: Edge, e: Edge)
    ensures Absorb(a, e).Reading() == Merge(a.Reading(), e.Reading()).(sent := None, received := None)
    ensures Absorb(a, e).Key() == a.Key() && Absorb(a, e).id == a.id
  {
    T.RankOrder(a.first, e.first);
    T.RankOrder(e.last, a.last);
  }

  lemma RecordSums(table: map<string, Edge>, items: seq<Item<EdgeKey>>, e: Edge, key: EdgeKey,
      render: EdgeKey -> string, k: EdgeKey)
    requires Injective(render) && ReadingAt(table, render(k)) == Scan(items, iset{k})
    ensures ReadingAt(Recorded(table, e, key, render), render(k)) == Scan(items + [Item(key, e.Reading())], iset{k})
  {
    ScanSnoc(items, Item(key, e.Reading()), iset{k});
    hide Scan;
    assert render(k) == render(key) ==> k == key;
    if render(key) in table {
      AbsorbMerges(table[render(key)], e);
    }
    hide Absorb;
  }

  lemma RecordKeepsTable(table: map<string, Edge>, order: seq<string>, items: seq<Item<EdgeKey>>, e: Edge,
      key: EdgeKey, render: EdgeKey -> string)
    requires Injective(render) && Tabled(table, order, items, render) && e.protocol == key.protocol &&
      e.port == key.port
    ensures Tabled(Recorded(table, e, key, render), if render(key) in table then order else order + [render(key)],
      items + [Item(key, e.Reading())], render)
  {
    var table', items' := Recorded(table, e, key, render), items + [Item(key, e.Reading())];
    forall k ensures ReadingAt(table', render(k)) == Scan(items', iset{k}) {
      hide Scan, Injective, Recorded, ReadingAt;
      assert ReadingAt(table, render(k)) == Scan(items, iset{k});
      RecordSums(table, items, e, key, render, k);
    }
    hide Scan, Injective, ReadingAt;
  }

  /** The table's entries in order, read as items. */
  function Listed(table: map<string, Edge>, order: seq<string>): seq<Item<EdgeKey>>
    requires forall id :: id in order ==> id in table
  {
    seq(|order|, i requires 0 <= i < |order| => Item(table[order[i]].Key(), table[order[i]].Reading()))
  }

  /** The finished table is the grouping of the readings. */
  lemma TableGroups(table: map<string, Edge>, order: seq<string>, items: seq<Item<EdgeKey>>, render: EdgeKey -> string)
    requires Injective(render) && Tabled(table, order, items, render)
    ensures Groups(Listed(table, order), items)
  {
    var rows := Listed(table, order);
    forall i | 0 <= i < |rows|
      ensures Scan(items, iset{rows[i].key}) == Some(rows[i].tally) && rows[i].key in KeysOf(items)
    {
      assert order[i] in order;
      assert ReadingAt(table, render(rows[i].key)) == Scan(items, iset{rows[i].key});
      ScanNone(items, iset{rows[i].key});
    }
    forall i, j | 0 <= i < j < |rows| ensures rows[i].key != rows[j].key {
      assert order[i] in order && order[j] in order;
    }
    forall k | k in KeysOf(items) ensures k in KeysOf(rows) {
      ScanNone(items, iset{k});
      assert ReadingAt(table, render(k)) == Scan(items, iset{k});
      var i :| 0 <= i < |order| && order[i] == render(k);
      assert rows[i].key == k;
    }
  }

  /** An edge object of the view. */
  class Row {
    var e: Edge

    constructor (e: Edge)
      ensures this.e == e
    {
      this.e := e;
    }

    method Add(o: Edge)
      modifies this
      ensures e == Absorb(old(e), o)
    {
      e := e.(conns := e.conns + o.conns);
      var unmeasured := e.failed.None? && o.failed.None?;
      e := e.(failed := if unmeasured then None else Some(Measured(e.failed) + Measured(o.failed)));
      e := e.(latencyCount := Some(Measured(e.latencyCount) + Measured(o.latencyCount)));
      e := e.(latencySum := Some(Measured(e.latencySum) + Measured(o.latencySum)));
      e := e.(first := if T.TextLess(e.first, o.first) then e.first else o.first);
      e := e.(last := if T.TextLess(o.last, e.last) then e.last else o.last);
    }
  }

  function Values(rows: seq<Row>): (es: seq<Edge>)
    reads rows
    ensures |es| == |rows|
  {
    seq(|rows|, i requires 0 <= i < |rows| reads rows => rows[i].e)
  }

  /** The objects behind a table: one each, none of them shared. */
  ghost predicate Holds(cells: map<string, Row>, table: map<string, Edge>)
    reads cells.Values
  {
    && cells.Keys == table.Keys
    && (forall id :: id in cells ==> cells[id].e == table[id])
    && (forall a, b :: a in cells && b in cells && a != b ==> cells[a] != cells[b])
  }

  /** The edge loop. Nothing that existed before the call is changed. */
  method SumUp(edges: seq<Row>, reps: map<string, string>, render: EdgeKey -> string)
    returns (cells: map<string, Row>, order: seq<string>, ghost table: map<string, Edge>)
    requires Injective(render)
    ensures forall r :: r in cells.Values ==> fresh(r)
    ensures Holds(cells, table) && Tabled(table, order, Readings(Values(edges), reps), render)
  {
    hide Injective;
    cells, order, table := map[], [], map[];
    ghost var es := Values(edges);
    EmptyTable(render);
    for n := 0 to |edges|
      invariant forall r :: r in cells.Values ==> fresh(r)
      invariant Holds(cells, table)
      invariant Tabled(table, order, Readings(es[..n], reps), render)
      invariant forall i :: 0 <= i < |edges| ==> edges[i].e == es[i]
    {
      hide Tabled, Holds;
      assert es[..n + 1][..n] == es[..n];
      cells, order, table := Visit(edges[n].e, reps, render, cells, order, table, Readings(es[..n], reps));
      assert Readings(es[..n + 1], reps) == Extended(Readings(es[..n], reps), es[n], reps);
    }
    assert es[..|edges|] == es && Values(edges) == es;
  }

  lemma EmptyTable(render: EdgeKey -> string)
    ensures Tabled(map[], [], [], render)
  {
  }

  function Extended(items: seq<Item<EdgeKey>>, e: Edge, reps: map<string, string>): seq<Item<EdgeKey>> {
    if Known(e, reps) then items + [Item(KeyUnder(e, reps), e.Reading())] else items
  }

  method Visit(e: Edge, reps: map<string, string>, render: EdgeKey -> string,
               cells: map<string, Row>, order: seq<string>, ghost table: map<string, Edge>,
                 ghost items: seq<Item<EdgeKey>>)
    returns (cells': map<string, Row>, order': seq<string>, ghost table': map<string, Edge>)
    requires Injective(render) && Holds(cells, table) && Tabled(table, order, items, render)
    modifies cells.Values
    ensures Holds(cells', table') && Tabled(table', order', Extended(items, e, reps), render)
    ensures forall r :: r in cells'.Values ==> r in cells.Values || fresh(r)
  {
    hide Injective, Tabled, Holds, Recorded;
    cells', order', table' := cells, order, table;
    if Known(e, reps) {
      var key := KeyUnder(e, reps);
      RecordKeepsTable(table, order, items, e, key, render);
      cells', order' := Record(cells, order, e, key, render, table);
      table' := Recorded(table, e, key, render);
    }
  }

  method GroupEdges(edges: seq<Row>, reps: map<string, string>, render: EdgeKey -> string) returns (out: seq<Row>)
    requires Injective(render)
    ensures forall r :: r in out ==> fresh(r)
    ensures Groups(RowItems(Values(out)), Readings(Values(edges), reps))
    ensures forall i :: 0 <= i < |out| ==> out[i].e.id == render(out[i].e.Key())
  {
    hide Injective, Groups, Scan, Readings, Holds;
    var cells, order, table := SumUp(edges, reps, render);
    TableGroups(table, order, Readings(Values(edges), reps), render);
    out := Collect(cells, order, table);
    assert forall i :: 0 <= i < |out| ==> order[i] in order;
  }

  method Collect(cells: map<string, Row>, order: seq<string>, ghost table: map<string, Edge>) returns (out: seq<Row>)
    requires Holds(cells, table) && forall id :: id in order ==> id in table
    ensures |out| == |order| && forall i :: 0 <= i < |out| ==> out[i] in cells.Values && out[i].e == table[order[i]]
    ensures RowItems(Values(out)) == Listed(table, order)
  {
    out := seq(|order|, i requires 0 <= i < |order| && order[i] in cells => cells[order[i]]);
  }

  function RowItems(es: seq<Edge>): seq<Item<EdgeKey>> {
    seq(|es|, i requires 0 <= i < |es| => Item(es[i].Key(), es[i].Reading()))
  }

  method Record(cells: map<string, Row>, order: seq<string>, e: Edge, key: EdgeKey, render: EdgeKey -> string,
      ghost table: map<string, Edge>)
    returns (cells': map<string, Row>, order': seq<string>)
    requires Holds(cells, table)
    modifies cells.Values
    ensures Holds(cells', Recorded(table, e, key, render))
    ensures forall r :: r in cells'.Values ==> r in cells.Values || fresh(r)
    ensures order' == if render(key) in table then order else order + [render(key)]
  {
    var id := render(key);
    if id in cells {
      cells[id].Add(e);
      cells', order' := cells, order;
    } else {
      var row := new Row(Adopt(e, key, render));
      cells', order' := cells[id := row], order + [id];
    }
  }

  /** The whole view: synthetic ids, representatives, then the summed edges. */
  method GroupTopology(nodes: seq<Node>, edges: seq<Row>, expanded: set<string>, quote: string -> string,
      render: EdgeKey -> string)
    returns (names: map<string, string>, workloads: map<string, nat>, drawn: map<string, Node>, out: seq<Row>)
    requires Injective(render)
    ensures names.Keys == Namespaces(nodes) && FreshIds(names, Ids(nodes)) && Covers(names, nodes)
    ensures forall ns :: ns in names ==>
      (if names[ns] in workloads then workloads[names[ns]] else 0) == Collapsed(nodes, ns, expanded)
    ensures forall r :: r in out ==> fresh(r)
    ensures Groups(RowItems(Values(out)), Readings(Values(edges), Reps(nodes, names, expanded)))
    ensures drawn.Keys == Shown(nodes, names, expanded)
  {
    hide Injective, Groups, Readings, Reps, Collapsed, Shown;
    names := NamespaceIds(nodes, quote);
    forall n | n in nodes && Named(n) ensures n.namespace.value in names {
      assert n.namespace.value in Namespaces(nodes);
    }
    hide FreshIds, Covers;
    var reps;
    reps, workloads, drawn := Represent(nodes, names, expanded);
    out := GroupEdges(edges, reps, render);
  }

  // ---------- what grouping keeps ----------

  /** A listed end keeps its edges, unless it stays in the view under the empty id, which reads as missing. */
  predicate Keeps(nodes: seq<Node>, expanded: set<string>, id: string) {
    id in Ids(nodes) && (id == "" ==> !Stays(nodes[LastOf(nodes, id)], expanded))
  }

  lemma KnownIff(e: Edge, nodes: seq<Node>, names: map<string, string>, expanded: set<string>)
    requires Covers(names, nodes) && FreshIds(names, Ids(nodes))
    ensures Known(e, Reps(nodes, names, expanded)) <==>
      Keeps(nodes, expanded, e.source) && Keeps(nodes, expanded, e.target)
  {
    RepsAre(nodes, names, expanded, e.source);
    RepsAre(nodes, names, expanded, e.target);
  }

  const NAMELESS := Node("", "Pod", None, "n", "n")

  /** Such a node loses even its edge to itself. */
  lemma NamelessLosesItsEdges(e: Edge, expanded: set<string>)
    requires e.source == "" && e.target == ""
    ensures Readings([e], Reps([NAMELESS], map[], expanded)) == []
    ensures "" in Reps([NAMELESS], map[], expanded)
  {
    assert NAMELESS in [NAMELESS];
    assert Reps([NAMELESS], map[], expanded) == map["" := ""];
    assert [e][..0] == [];
  }

  /** What collapsing more namespaces does to a node already drawn. */
  function Further(nodes: seq<Node>, names: map<string, string>, expanded: set<string>): string -> string
    requires Covers(names, nodes)
  {
    var reps := Reps(nodes, names, expanded);
    (id: string) => if id in reps then reps[id] else id
  }

  /** The representative under fewer expanded namespaces is found from the one under more. */
  lemma RepsCompose(nodes: seq<Node>, names: map<string, string>, more: set<string>, fewer: set<string>, id: string)
    requires Covers(names, nodes) && FreshIds(names, Ids(nodes)) && fewer <= more
    requires id in Reps(nodes, names, more)
    ensures id in Reps(nodes, names, fewer)
    ensures Reps(nodes, names, fewer)[id] == Further(nodes, names, fewer)(Reps(nodes, names, more)[id])
  {
    RepsAre(nodes, names, more, id);
    RepsAre(nodes, names, fewer, id);
    var n := nodes[LastOf(nodes, id)];
    if !Stays(n, more) {
      RepsAre(nodes, names, fewer, names[n.namespace.value]);
    }
  }

  function FurtherKey(nodes: seq<Node>, names: map<string, string>, expanded: set<string>): EdgeKey -> EdgeKey
    requires Covers(names, nodes)
  {
    var h := Further(nodes, names, expanded);
    (k: EdgeKey) => EdgeKey(h(k.source), h(k.target), k.protocol, k.port)
  }

  /** Collapsing further does not bring a nameless node out of the view. */
  predicate SameNameless(nodes: seq<Node>, more: set<string>, fewer: set<string>) {
    "" in Ids(nodes) ==> (Stays(nodes[LastOf(nodes, "")], more) <==> Stays(nodes[LastOf(nodes, "")], fewer))
  }

  lemma {:induction false} ReadingsCompose(es: seq<Edge>, nodes: seq<Node>, names: map<string, string>,
      more: set<string>, fewer: set<string>)
    requires Covers(names, nodes) && FreshIds(names, Ids(nodes)) && fewer <= more && SameNameless(nodes, more, fewer)
    ensures Readings(es, Reps(nodes, names, fewer)) ==
      Rekey(Readings(es, Reps(nodes, names, more)), FurtherKey(nodes, names, fewer))
  {
    if es != [] {
      var e := es[|es| - 1];
      ReadingsCompose(es[..|es| - 1], nodes, names, more, fewer);
      KnownIff(e, nodes, names, more);
      KnownIff(e, nodes, names, fewer);
      if Known(e, Reps(nodes, names, more)) {
        RepsCompose(nodes, names, more, fewer, e.source);
        RepsCompose(nodes, names, more, fewer, e.target);
      }
    }
  }

  /** A grouping of the raw items under coarser keys is a grouping of any finer grouping of them. */
  lemma GroupsRegroup<J(!new), K(!new)>(fine: seq<Item<J>>, items: seq<Item<J>>, h: J -> K, coarse: seq<Item<K>>)
    requires Groups(fine, items) && Groups(coarse, Rekey(items, h))
    ensures Groups(coarse, Rekey(fine, h))
  {
    forall i | 0 <= i < |coarse| ensures Scan(Rekey(fine, h), iset{coarse[i].key}) == Some(coarse[i].tally) {
      var keys := iset{coarse[i].key};
      ScanRekey(fine, h, keys);
      ScanRekey(items, h, keys);
      GroupsScanAlike(fine, items, Preimage(h, keys));
    }
    forall k ensures k in KeysOf(Rekey(fine, h)) <==> k in KeysOf(Rekey(items, h)) {
      SameKeys(fine, items, h, k);
      SameKeys(items, fine, h, k);
    }
  }

  lemma SameKeys<J(!new), K(!new)>(a: seq<Item<J>>, b: seq<Item<J>>, h: J -> K, k: K)
    requires KeysOf(a) == KeysOf(b)
    ensures k in KeysOf(Rekey(a, h)) ==> k in KeysOf(Rekey(b, h))
  {
    if k in KeysOf(Rekey(a, h)) {
      var i :| 0 <= i < |a| && Rekey(a, h)[i].key == k;
      assert a[i].key in KeysOf(b);
      var j :| 0 <= j < |b| && b[j].key == a[i].key;
      assert Rekey(b, h)[j].key == k;
    }
  }

  /**
   Collapsing more namespaces is summing the finer view: the rows drawn with fewer namespaces expanded
   are a grouping of the rows drawn with more, each filed under what its ends collapse to.
   */
  lemma CollapsingSumsTheFinerView(
    nodes: seq<Node>, names: map<string, string>, more: set<string>, fewer: set<string>, es: seq<Edge>,
      fine: seq<Edge>, coarse: seq<Edge>)
    requires Covers(names, nodes) && FreshIds(names, Ids(nodes)) && fewer <= more && SameNameless(nodes, more, fewer)
    requires Groups(RowItems(fine), Readings(es, Reps(nodes, names, more)))
    requires Groups(RowItems(coarse), Readings(es, Reps(nodes, names, fewer)))
    ensures Groups(RowItems(coarse), Rekey(RowItems(fine), FurtherKey(nodes, names, fewer)))
  {
    ReadingsCompose(es, nodes, names, more, fewer);
    GroupsRegroup(RowItems(fine), Readings(es, Reps(nodes, names, more)), FurtherKey(nodes, names, fewer),
      RowItems(coarse));
  }

  /** The readings of the edges both of whose ends keep them, under their own keys. */
  function Listings(es: seq<Edge>, nodes: seq<Node>, expanded: set<string>): seq<Item<EdgeKey>> {
    if es == [] then []
    else
      var rest, e := Listings(es[..|es| - 1], nodes, expanded), es[|es| - 1];
      if Keeps(nodes, expanded, e.source) && Keeps(nodes, expanded, e.target) then rest + [Item(e.Key(), e.Reading())]
        else rest
  }

  predicate AnyKey(k: EdgeKey) { true }

  ghost function EveryKey(): iset<EdgeKey> { iset k: EdgeKey | AnyKey(k) }

  lemma {:induction false} ReadingsTotal(es: seq<Edge>, nodes: seq<Node>, names: map<string, string>,
      expanded: set<string>)
    requires Covers(names, nodes) && FreshIds(names, Ids(nodes))
    ensures Scan(Readings(es, Reps(nodes, names, expanded)), EveryKey()) ==
      Scan(Listings(es, nodes, expanded), EveryKey())
  {
    if es != [] {
      var init, e, reps := es[..|es| - 1], es[|es| - 1], Reps(nodes, names, expanded);
      ReadingsTotal(init, nodes, names, expanded);
      KnownIff(e, nodes, names, expanded);
      hide Scan, Keeps, Known;
      if Known(e, reps) {
        ScanSnoc(Readings(init, reps), Item(KeyUnder(e, reps), e.Reading()), EveryKey());
        ScanSnoc(Listings(init, nodes, expanded), Item(e.Key(), e.Reading()), EveryKey());
      }
    }
  }

  /**
   Whatever is expanded, the view as a whole folds to what the edges between listed nodes fold to: the
   same connections, failures, latency counts and sums, failures absent only if absent throughout, and
   the same first and last time in text order.
   */
  lemma ViewConserves(nodes: seq<Node>, names: map<string, string>, expanded: set<string>, es: seq<Edge>,
      out: seq<Edge>)
    requires Covers(names, nodes) && FreshIds(names, Ids(nodes))
    requires Groups(RowItems(out), Readings(es, Reps(nodes, names, expanded)))
    ensures Scan(RowItems(out), EveryKey()) == Scan(Listings(es, nodes, expanded), EveryKey())
    ensures SumsTo(RowItems(out), EveryKey(), Scan(Listings(es, nodes, expanded), EveryKey()))
    ensures SumsTo(Listings(es, nodes, expanded), EveryKey(), Scan(Listings(es, nodes, expanded), EveryKey()))
  {
    hide Groups, Scan, SumsTo;
    GroupsScanAlike(RowItems(out), Readings(es, Reps(nodes, names, expanded)), EveryKey());
    ReadingsTotal(es, nodes, names, expanded);
    ScanSums(RowItems(out), EveryKey());
    ScanSums(Listings(es, nodes, expanded), EveryKey());
  }

  /**
   A row's counters are what its contributors add up to: a failed count is absent exactly when every
   contributor's is.
   */
  lemma RowMeans(reps: map<string, string>, es: seq<Edge>, out: seq<Edge>, i: nat)
    requires Groups(RowItems(out), Readings(es, reps)) && i < |out|
    ensures SumsTo(Readings(es, reps), iset{out[i].Key()}, Some(out[i].Reading()))
    ensures out[i].failed.None? <==>
      forall j :: Contributes(Readings(es, reps), iset{out[i].Key()}, j) ==> Readings(es, reps)[j].tally.failed.None?
  {
    var items, keys := Readings(es, reps), iset{out[i].Key()};
    assert RowItems(out)[i] == Item(out[i].Key(), out[i].Reading());
    assert Scan(items, keys) == Some(out[i].Reading());
    hide Groups, Scan, Readings;
    ScanSums(items, keys);
    ScanAbsence(items, keys);
    assert out[i].Reading().failed == out[i].failed;
  }

  // ---------- the times of a row ----------

  predicate FeedsRow(e: Edge, reps: map<string, string>, key: EdgeKey) { Known(e, reps) && KeyUnder(e, reps) == key }

  /** The edges that feed a row, in order. */
  function Feeding(es: seq<Edge>, reps: map<string, string>, key: EdgeKey): seq<Edge> {
    if es == [] then []
    else
      var rest, e := Feeding(es[..|es| - 1], reps, key), es[|es| - 1];
      if FeedsRow(e, reps, key) then rest + [e] else rest
  }

  function Firsts(es: seq<Edge>): (ts: seq<T.Stamp>)
    ensures |ts| == |es| && forall i :: 0 <= i < |ts| ==> ts[i] == es[i].first
  {
    seq(|es|, i requires 0 <= i < |es| => es[i].first)
  }

  function Lasts(es: seq<Edge>): (ts: seq<T.Stamp>)
    ensures |ts| == |es| && forall i :: 0 <= i < |ts| ==> ts[i] == es[i].last
  {
    seq(|es|, i requires 0 <= i < |es| => es[i].last)
  }

  lemma {:induction false} FeedingIsReadings(es: seq<Edge>, reps: map<string, string>, key: EdgeKey)
    ensures Scan(Readings(es, reps), iset{key}) == Scan(Alike(Feeding(es, reps, key), key), iset{key})
  {
    if es != [] {
      var init, e := es[..|es| - 1], es[|es| - 1];
      FeedingIsReadings(init, reps, key);
      hide Scan;
      var before, fed := Readings(init, reps), Feeding(init, reps, key);
      if Known(e, reps) {
        ScanSnoc(before, Item(KeyUnder(e, reps), e.Reading()), iset{key});
      }
      if FeedsRow(e, reps, key) {
        assert Alike(fed + [e], key) == Alike(fed, key) + [Item(key, e.Reading())];
        ScanSnoc(Alike(fed, key), Item(key, e.Reading()), iset{key});
      }
    }
  }

  /** Edges all read under one key. */
  function Alike(es: seq<Edge>, key: EdgeKey): (items: seq<Item<EdgeKey>>)
    ensures |items| == |es| && forall i :: 0 <= i < |es| ==> items[i] == Item(key, es[i].Reading())
  {
    seq(|es|, i requires 0 <= i < |es| => Item(key, es[i].Reading()))
  }

  /** A row's times are the first and the last, in text, of the edges that feed it. */
  lemma RowTimes(reps: map<string, string>, es: seq<Edge>, out: seq<Edge>, i: nat)
    requires Groups(RowItems(out), Readings(es, reps)) && i < |out|
    ensures var fed := Feeding(es, reps, out[i].Key());
      T.FirstInText(Firsts(fed), out[i].first) && T.LastInText(Lasts(fed), out[i].last)
  {
    var row, key := out[i], out[i].Key();
    var fed := Feeding(es, reps, key);
    var items := Alike(fed, key);
    assert RowItems(out)[i] == Item(key, row.Reading());
    FeedingIsReadings(es, reps, key);
    assert Scan(items, iset{key}) == Some(row.Reading());
    hide Groups, Scan, Readings, Feeding;
    ScanHull(items, iset{key});
    forall j | 0 <= j < |fed| ensures !T.TextLess(fed[j].first, row.first) && !T.TextLess(row.last, fed[j].last) {
      assert Contributes(items, iset{key}, j);
      T.RankOrder(fed[j].first, row.first);
      T.RankOrder(row.last, fed[j].last);
    }
    var a :| Contributes(items, iset{key}, a) && items[a].tally.first == T.Rank(row.first);
    var b :| Contributes(items, iset{key}, b) && items[b].tally.last == T.Rank(row.last);
    T.RankOrder(fed[a].first, row.first);
    T.RankOrder(fed[b].last, row.last);
    assert Firsts(fed)[a] == row.first && Lasts(fed)[b] == row.last;
  }

  /**
   A row's first time is the earliest of the edges that feed it unless it has a fraction and its second
   also occurs whole; its last time is the latest unless it is whole and its second also occurs with a
   fraction.
   */
  lemma RowTimesAreTimesIff(reps: map<string, string>, es: seq<Edge>, out: seq<Edge>, i: nat)
    requires Groups(RowItems(out), Readings(es, reps)) && i < |out|
    ensures var ts := Firsts(Feeding(es, reps, out[i].Key()));
      (forall t :: t in ts ==> !T.Earlier(t, out[i].first)) <==>
      (out[i].first.micros == 0 || T.Stamp(out[i].first.second, 0) !in ts)
    ensures var ts := Lasts(Feeding(es, reps, out[i].Key()));
      (forall t :: t in ts ==> !T.Earlier(out[i].last, t)) <==>
      (out[i].last.micros != 0 || forall t :: t in ts ==> t.second != out[i].last.second || t.micros == 0)
  {
    RowTimes(reps, es, out, i);
    T.FirstIsEarliestIff(Firsts(Feeding(es, reps, out[i].Key())), out[i].first);
    T.LastIsLatestIff(Lasts(Feeding(es, reps, out[i].Key())), out[i].last);
  }

  /** Two edges of one row, seen at a whole second and half a second later: the row claims it began later. */
  lemma RowForgetsTheWholeSecond(a: Edge, e: Edge, second: int)
    requires a.first == T.Stamp(second, 0) && e.first == T.Stamp(second, 500_000)
    ensures Absorb(a, e).first == e.first && T.Earlier(a.first, Absorb(a, e).first)
    ensures Absorb(e, a).first == e.first
  {
    T.HalfPastSortsFirst();
    assert T.TextLess(e.first, a.first);
  }
}
