/**
 The identity grammar is unambiguous: ids of nodes, edges and anomalies determine what they name,
 although a workload's own name may hold the edge id's separator '|'.
 */
module Identity {
  import opened Tallies
  import opened Ordering
  import opened Contract

  function Head(n: NodeName): string { if n.External? then "external" else "k8s" }

  function LastName(n: NodeName): string { if n.External? then "EXTERNAL" else n.name }

  /** What follows the head: three colon-free segments and a remainder that may hold anything. */
  function Body(c: string, ns: string, k: string, r: string): string {
    c + [':'] + (ns + [':'] + (k + [':'] + r))
  }

  /** An id followed by `u`, cut at its first colon. */
  function RestWith(n: NodeName, u: string): string {
    if n.External? then "EXTERNAL" + u else Body(n.cluster, n.namespace, n.kind, n.name + u)
  }

  lemma IdWith(n: NodeName, u: string)
    requires NodeId(n).Some?
    ensures NodeId(n).value + u == Head(n) + [':'] + RestWith(n, u)
  {
    if n.Workload? {
      WorkloadId(n.cluster, n.namespace, n.kind, n.name);
      BodyWith(n.cluster, n.namespace, n.kind, n.name, u);
      hide Body;
      Extend("k8s", Body(n.cluster, n.namespace, n.kind, n.name), u);
    } else {
      assert EXTERNAL_NODE_ID == "external" + [':'] + "EXTERNAL";
      Extend("external", "EXTERNAL", u);
    }
  }

  lemma Extend(h: string, r: string, u: string)
    ensures (h + [':'] + r) + u == h + [':'] + (r + u)
  {
  }

  lemma BodyWith(c: string, ns: string, k: string, r: string, u: string)
    ensures Body(c, ns, k, r) + u == Body(c, ns, k, r + u)
  {
    Extend(k, r, u);
    Extend(ns, k + [':'] + r, u);
    Extend(c, ns + [':'] + (k + [':'] + r), u);
  }

  lemma WorkloadId(c: string, ns: string, k: string, name: string)
    requires BuildNodeId(c, ns, k, name).Some?
    ensures BuildNodeId(c, ns, k, name).value == "k8s" + [':'] + Body(c, ns, k, name)
  {
    hide IsSegment;
    assert "k8s:" == "k8s" + [':'];
  }

  lemma BodyInjective(c: string, ns: string, k: string, r: string, c': string, ns': string, k': string, r': string)
    requires ':' !in c && ':' !in ns && ':' !in k && ':' !in c' && ':' !in ns' && ':' !in k'
    requires Body(c, ns, k, r) == Body(c', ns', k', r')
    ensures c == c' && ns == ns' && k == k' && r == r'
  {
    Cut(c, ns + [':'] + (k + [':'] + r), c', ns' + [':'] + (k' + [':'] + r'), ':');
    Cut(ns, k + [':'] + r, ns', k' + [':'] + r', ':');
    Cut(k, r, k', r', ':');
  }

  /** Whatever follows, everything of a node id but its last segment can be read off the front. */
  lemma PeelNode(m: NodeName, u: string, n: NodeName, v: string)
    requires NodeId(m).Some? && NodeId(n).Some?
    requires NodeId(m).value + u == NodeId(n).value + v
    ensures m.External? == n.External?
    ensures m.Workload? ==> m.(name := n.name) == n
    ensures LastName(m) + u == LastName(n) + v
  {
    IdWith(m, u);
    IdWith(n, v);
    Cut(Head(m), RestWith(m, u), Head(n), RestWith(n, v), ':');
    assert "external"[0] != "k8s"[0];
    if m.Workload? {
      BodyInjective(m.cluster, m.namespace, m.kind, m.name + u, n.cluster, n.namespace, n.kind, n.name + v);
    }
  }

  /** Node ids name one node: accepted segments map one-to-one to ids, never to the external id. */
  lemma NodeIdInjective(m: NodeName, n: NodeName)
    requires NodeId(m).Some? && NodeId(m) == NodeId(n)
    ensures m == n
  {
    PeelNode(m, "", n, "");
    assert LastName(m) + "" == LastName(m) && LastName(n) + "" == LastName(n);
  }

  /** The order of the parts, in a node id ... */
  lemma NodeIdAsWritten()
    ensures NodeId(Workload("c", "n", "Pod", "p")) == Some("k8s:c:n:Pod:p")
  {
    assert IsSegment("c") && IsSegment("n") && IsSegment("Pod") && IsSegment("p");
    hide IsSegment;
    assert "Pod" + ":" + "p" == "Pod:p";
    assert "n" + ":" + "Pod:p" == "n:Pod:p";
    assert "k8s:" + ("c" + ":" + "n:Pod:p") == "k8s:c:n:Pod:p";
  }

  /** ... and in an edge id. */
  lemma EdgeIdAsWritten()
    ensures BuildEdgeId(EdgeKey("a", "b", "TCP", 80)) == "a|b|TCP|80"
  {
    assert Decimal(8) == "8" && Decimal(80) == "80";
    hide Decimal;
    assert "TCP" + "|" + "80" == "TCP|80";
  }

  lemma {:induction false} DecimalShape(n: nat)
    ensures |Decimal(n)| >= 1 && (|Decimal(n)| == 1 <==> n < 10)
    ensures forall c :: c in Decimal(n) ==> '0' <= c <= '9'
  {
    if n >= 10 { DecimalShape(n / 10); }
  }

  lemma {:induction false} DecimalInjective(m: nat, n: nat)
    requires Decimal(m) == Decimal(n)
    ensures m == n
  {
    DecimalShape(m);
    DecimalShape(n);
    if m >= 10 {
      var p, q := Decimal(m), Decimal(n);
      assert p[..|p| - 1] == Decimal(m / 10) && p[|p| - 1] == Digit(m % 10);
      assert q[..|q| - 1] == Decimal(n / 10) && q[|q| - 1] == Digit(n % 10);
      DecimalInjective(m / 10, n / 10);
    }
  }

  lemma Regroup(l: string, h: string, r: string, sep: char)
    ensures l + (['|'] + (h + [sep] + r)) == (l + ['|'] + h) + [sep] + r
  {
  }

  lemma Shift(a: string, b: string)
    ensures a + "|" + b == a + (['|'] + b)
  {
  }

  /** `l|h:r` with '|' absent from the head `h`: all three parts can be read off. */
  lemma CutHead(l: string, h: string, r: string, l': string, h': string, r': string)
    requires l + (['|'] + (h + [':'] + r)) == l' + (['|'] + (h' + [':'] + r'))
    requires ':' !in l && ':' !in l' && ':' !in h && ':' !in h' && '|' !in h && '|' !in h'
    ensures l == l' && h == h' && r == r'
  {
    Regroup(l, h, r, ':');
    Regroup(l', h', r', ':');
    Cut(l + ['|'] + h, r, l' + ['|'] + h', r', ':');
    Cut(l, h, l', h', '|');
  }

  /** `l|p|d` with '|' absent from `p` and `d`: all three parts can be read off. */
  lemma CutTail(l: string, p: string, d: string, l': string, p': string, d': string)
    requires l + (['|'] + (p + ['|'] + d)) == l' + (['|'] + (p' + ['|'] + d'))
    requires '|' !in p && '|' !in p' && '|' !in d && '|' !in d'
    ensures l == l' && p == p' && d == d'
  {
    Regroup(l, p, d, '|');
    Regroup(l', p', d', '|');
    Cut(l + ['|'] + p, d, l' + ['|'] + p', d', '|');
    Cut(l, p, l', p', '|');
  }

  /** Source, then everything after it, can be read off an edge id. */
  lemma PeelSource(s: NodeName, t: NodeName, u: string, s': NodeName, t': NodeName, v: string)
    requires NodeId(s).Some? && NodeId(t).Some? && NodeId(s').Some? && NodeId(t').Some?
    requires NodeId(s).value + (['|'] + (NodeId(t).value + u)) == NodeId(s').value + (['|'] + (NodeId(t').value + v))
    ensures s == s' && NodeId(t).value + u == NodeId(t').value + v
  {
    PeelNode(s, ['|'] + (NodeId(t).value + u), s', ['|'] + (NodeId(t').value + v));
    IdWith(t, u);
    IdWith(t', v);
    CutHead(LastName(s), Head(t), RestWith(t, u), LastName(s'), Head(t'), RestWith(t', v));
  }

  /** Edge ids name one edge, even when names hold the separator. */
  lemma EdgeIdInjective(j: EdgeKey, k: EdgeKey)
    requires CanonicalKey(j) && CanonicalKey(k)
    requires BuildEdgeId(j) == BuildEdgeId(k)
    ensures j == k
  {
    var s, t :| NodeId(s) == Some(j.source) && NodeId(t) == Some(j.target);
    var s', t' :| NodeId(s') == Some(k.source) && NodeId(t') == Some(k.target);
    var dj, dk := Decimal(j.port), Decimal(k.port);
    EdgeIdShape(j);
    EdgeIdShape(k);
    PeelSource(s, t, ['|'] + (j.protocol + ['|'] + dj), s', t', ['|'] + (k.protocol + ['|'] + dk));
    PeelNode(t, ['|'] + (j.protocol + ['|'] + dj), t', ['|'] + (k.protocol + ['|'] + dk));
    DecimalShape(j.port);
    DecimalShape(k.port);
    CutTail(LastName(t), j.protocol, dj, LastName(t'), k.protocol, dk);
    DecimalInjective(j.port, k.port);
  }

  lemma EdgeIdShape(k: EdgeKey)
    requires 0 <= k.port
    ensures BuildEdgeId(k) == k.source + (['|'] + (k.target + (['|'] + (k.protocol + ['|'] + Decimal(k.port)))))
  {
    var tail := k.protocol + "|" + Decimal(k.port);
    Shift(k.target, tail);
    Shift(k.source, k.target + "|" + tail);
  }
}
