/**
 Anomaly detection over one window against a baseline. Ratios and means are exact.

 The output lists every rule that fired, once, by edge key and then by the fixed order of the rules,
 and no two anomalies share an id.
 */
module Anomalies {
  import opened Tallies
  import opened Ordering
  import opened Contract
  import Identity

  datatype Kind = CanaryContact | NewExternalEgress | NewEdge | FailureSpike | SlowSetup

  function Index(k: Kind): nat {
    match k
    case CanaryContact => 0
    case NewExternalEgress => 1
    case NewEdge => 2
    case FailureSpike => 3
    case SlowSetup => 4
  }

  function Word(k: Kind): string {
    match k
    case CanaryContact => "CANARY_CONTACT"
    case NewExternalEgress => "NEW_EXTERNAL_EGRESS"
    case NewEdge => "NEW_EDGE"
    case FailureSpike => "FAILURE_SPIKE"
    case SlowSetup => "SLOW_SETUP"
  }

  const SLOW_SETUP_FLOOR := 1000.0

  datatype Thresholds = Thresholds(minAttempts: int, failureRatio: real, setupFactor: real)

  /** One edge's aggregate over a window. */
  datatype Aggregate = Aggregate(key: EdgeKey, conns: nat, failed: Option<nat>, latencyCount: nat, latencySum: nat) {
    function Attempts(): nat { conns + Measured(failed) }
  }

  function KeyOf(e: Aggregate): EdgeKey { e.key }

  datatype Anomaly = Anomaly(
    id: string, edgeId: string, kind: Kind, key: EdgeKey,
    conns: nat, failed: Option<nat>, baselineConns: nat, baselineFailed: Option<nat>)

  /** What the rules look at besides the edge itself. */
  datatype Setting = Setting(baseline: map<EdgeKey, Aggregate>, canaries: set<string>, th: Thresholds)

  /** None when failures were not measured: absent is not zero. */
  function FailureRatio(e: Option<Aggregate>): Option<real> {
    if e.None? then Some(0.0)
    else if e.value.failed.None? then None
    else if e.value.Attempts() == 0 then Some(0.0)
    else Some(e.value.failed.value as real / e.value.Attempts() as real)
  }

  function MeanSetup(e: Option<Aggregate>): Option<real> {
    if e.None? || e.value.latencyCount == 0 then None
    else Some(e.value.latencySum as real / e.value.latencyCount as real)
  }

  predicate Spikes(e: Aggregate, before: Option<Aggregate>, th: Thresholds) {
    var now, was := FailureRatio(Some(e)), FailureRatio(before);
    now.Some? && was.Some? && e.Attempts() >= th.minAttempts && now.value >= th.failureRatio &&
      now.value - was.value >= th.failureRatio
  }

  predicate Slows(e: Aggregate, before: Option<Aggregate>, th: Thresholds) {
    var now, was := MeanSetup(Some(e)), MeanSetup(before);
    && now.Some? && was.Some? && before.Some?
    && e.latencyCount >= th.minAttempts && before.value.latencyCount >= th.minAttempts
    && now.value >= th.setupFactor * was.value && now.value - was.value >= SLOW_SETUP_FLOOR
  }

  /** Which rules an edge with traffic breaks. */
  predicate Fires(s: Setting, e: Aggregate, k: Kind) {
    var before := Lookup(s.baseline, e.key);
    e.Attempts() > 0 &&
    match k
    case CanaryContact => e.key.target in s.canaries
    case NewExternalEgress => before.None? && s.baseline != map[] && e.key.target == EXTERNAL_NODE_ID
    case NewEdge => before.None? && s.baseline != map[] && e.key.target != EXTERNAL_NODE_ID
    case FailureSpike => Spikes(e, before, s.th)
    case SlowSetup => Slows(e, before, s.th)
  }

  // ---------- the thresholds, on the counters ----------

  lemma RatioIff(x: real, y: real, r: real)
    requires y > 0.0
    ensures x / y >= r <==> x >= r * y
  {
    var q := x / y;
    assert q * y == x;
    assert (q - r) * y == x - r * y;
    assert q >= r <==> (q - r) * y >= 0.0;
  }

  lemma DifferenceIff(f: real, n: real, g: real, m: real, r: real)
    requires n > 0.0 && m > 0.0
    ensures f / n - g / m >= r <==> f * m - g * n >= r * (n * m)
  {
    var p, q := f / n, g / m;
    assert p * n == f && q * m == g;
    assert f * m - g * n == (p * n) * m - (q * m) * n == (p - q) * (n * m);
    assert n * m > 0.0;
    assert p - q >= r <==> (p - q) * (n * m) >= r * (n * m) by { Scale(p - q, r, n * m); }
  }

  lemma FactorIff(x: real, c: real, y: real, d: real, k: real)
    requires c > 0.0 && d > 0.0
    ensures x / c >= k * (y / d) <==> x * d >= k * (y * c)
  {
    var p, q := x / c, y / d;
    assert p * c == x && q * d == y;
    assert x * d == (p * c) * d == p * (c * d);
    assert k * (y * c) == k * ((q * d) * c) == (k * q) * (c * d);
    assert c * d > 0.0;
    Scale(p, k * q, c * d);
  }

  lemma Scale(x: real, y: real, m: real)
    requires m > 0.0
    ensures x >= y <==> x * m >= y * m
  {
    assert (x - y) * m == x * m - y * m;
  }

  /**
   Failures spike exactly when they are measured on both sides, there are enough attempts, and the failed
   share is at least the threshold and at least that much above the baseline's; counted, not divided.
   */
  lemma SpikesIff(e: Aggregate, before: Option<Aggregate>, th: Thresholds)
    requires e.conns + Measured(e.failed) > 0
    ensures Spikes(e, before, th) <==>
      && e.failed.Some? && (before.Some? ==> before.value.failed.Some?)
      && e.conns + e.failed.value >= th.minAttempts
      && e.failed.value as real >= th.failureRatio * (e.conns + e.failed.value) as real
      && (before.Some? && before.value.conns + before.value.failed.value > 0 ==>
          var n, m := (e.conns + e.failed.value) as real, (before.value.conns + before.value.failed.value) as real;
          e.failed.value as real * m - before.value.failed.value as real * n >= th.failureRatio * (n * m))
  {
    if e.failed.Some? && (before.Some? ==> before.value.failed.Some?) {
      var f, n := e.failed.value as real, (e.conns + e.failed.value) as real;
      RatioIff(f, n, th.failureRatio);
      if before.Some? && before.value.conns + before.value.failed.value > 0 {
        var g, m := before.value.failed.value as real, (before.value.conns + before.value.failed.value) as real;
        DifferenceIff(f, n, g, m, th.failureRatio);
        assert FailureRatio(before) == Some(g / m);
      } else {
        assert FailureRatio(before) == Some(0.0);
      }
      assert FailureRatio(Some(e)) == Some(f / n);
    }
  }

  /**
   Setup slows exactly when both sides have enough timings, and the mean is at least the factor times the
   baseline's and at least a millisecond above it; counted, not divided.
   */
  lemma SlowsIff(e: Aggregate, before: Option<Aggregate>, th: Thresholds)
    ensures Slows(e, before, th) <==>
      && before.Some? && e.latencyCount > 0 && before.value.latencyCount > 0
      && e.latencyCount >= th.minAttempts && before.value.latencyCount >= th.minAttempts
      && (var sum, count := e.latencySum as real, e.latencyCount as real;
          var sum', count' := before.value.latencySum as real, before.value.latencyCount as real;
          && sum * count' >= th.setupFactor * (sum' * count)
          && sum * count' - sum' * count >= 1000.0 * (count * count'))
  {
    if before.Some? && e.latencyCount > 0 && before.value.latencyCount > 0 {
      var sum, count := e.latencySum as real, e.latencyCount as real;
      var sum', count' := before.value.latencySum as real, before.value.latencyCount as real;
      FactorIff(sum, count, sum', count', th.setupFactor);
      DifferenceIff(sum, count, sum', count', 1000.0);
      assert MeanSetup(Some(e)) == Some(sum / count) && MeanSetup(before) == Some(sum' / count');
    }
  }

  /** With something to compare with, an edge with traffic is new exactly when the baseline has none of it, and is
      then reported once: as egress when it leaves the cluster, else as an edge. With nothing, nothing is new. */
  lemma NoveltyIff(s: Setting, e: Aggregate)
    requires e.conns + Measured(e.failed) > 0
    ensures Fires(s, e, NewEdge) || Fires(s, e, NewExternalEgress) <==> s.baseline.Keys != {} && e.key !in s.baseline
    ensures !(Fires(s, e, NewEdge) && Fires(s, e, NewExternalEgress))
    ensures Fires(s, e, NewExternalEgress) ==> e.key.target == EXTERNAL_NODE_ID
    ensures Fires(s, e, NewEdge) ==> e.key.target != EXTERNAL_NODE_ID
    ensures Fires(s, e, CanaryContact) <==> e.key.target in s.canaries
  {
    assert s.baseline == map[] <==> s.baseline.Keys == {};
  }

  /** An edge without a single attempt is never reported. */
  lemma SilentEdges(s: Setting, e: Aggregate, k: Kind)
    requires e.conns == 0 && (e.failed == None || e.failed == Some(0))
    ensures !Fires(s, e, k)
  {
  }

  predicate Ascending(ks: seq<Kind>) {
    forall i, j :: 0 <= i < j < |ks| ==> Index(ks[i]) < Index(ks[j])
  }

  /** The rules in the order the code tries them, which is already their listing order. */
  method Rules(s: Setting, e: Aggregate) returns (fired: seq<Kind>)
    ensures Ascending(fired) && forall k :: k in fired <==> Fires(s, e, k)
  {
    fired := [];
    if e.Attempts() == 0 {
      return;
    }
    var before := Lookup(s.baseline, e.key);
    if e.key.target in s.canaries {
      fired := fired + [CanaryContact];
    }
    if before.None? && s.baseline != map[] {
      if e.key.target == EXTERNAL_NODE_ID {
        fired := fired + [NewExternalEgress];
      } else {
        fired := fired + [NewEdge];
      }
    }
    if Spikes(e, before, s.th) {
      fired := fired + [FailureSpike];
    }
    if Slows(e, before, s.th) {
      fired := fired + [SlowSetup];
    }
  }

  function AnomalyId(key: EdgeKey, k: Kind): string
    requires 0 <= key.port
  {
    BuildEdgeId(key) + ['|'] + Word(k)
  }

  function Report(s: Setting, e: Aggregate, k: Kind): Anomaly
    requires 0 <= e.key.port
  {
    var before := Lookup(s.baseline, e.key);
    Anomaly(AnomalyId(e.key, k), BuildEdgeId(e.key), k, e.key, e.conns, e.failed,
            if before.Some? then before.value.conns else 0, if before.Some? then before.value.failed else Some(0))
  }

  /** An anomaly carries its own edge, the counts now, and the counts before: none for an edge that is new. */
  lemma ReportTells(s: Setting, e: Aggregate, k: Kind)
    requires 0 <= e.key.port
    ensures var a := Report(s, e, k);
      && a.edgeId == BuildEdgeId(e.key) && a.id == a.edgeId + "|" + Word(k) && a.kind == k && a.key == e.key
      && a.conns == e.conns && a.failed == e.failed
      && (e.key in s.baseline ==>
          a.baselineConns == s.baseline[e.key].conns && a.baselineFailed == s.baseline[e.key].failed)
      && (e.key !in s.baseline ==> a.baselineConns == 0 && a.baselineFailed == Some(0))
  {
  }

  predicate Precedes(a: Anomaly, b: Anomaly) {
    KeyLess(a.key, b.key) || (a.key == b.key && Index(a.kind) < Index(b.kind))
  }

  ghost predicate InOrder(found: seq<Anomaly>) {
    forall i, j :: 0 <= i < j < |found| ==> Precedes(found[i], found[j])
  }

  predicate Ports(es: seq<Aggregate>) { forall i :: 0 <= i < |es| ==> 0 <= es[i].key.port }

  predicate IsReport(a: Anomaly, s: Setting, e: Aggregate) {
    0 <= e.key.port && Fires(s, e, a.kind) && a == Report(s, e, a.kind)
  }

  /** Some edge breaks the rule an anomaly reports. */
  predicate Backed(a: Anomaly, s: Setting, es: seq<Aggregate>) { exists i :: 0 <= i < |es| && IsReport(a, s, es[i]) }

  /** Every rule an edge breaks is reported. */
  predicate Told(found: seq<Anomaly>, s: Setting, e: Aggregate)
    requires 0 <= e.key.port
  {
    forall k :: Fires(s, e, k) ==> Report(s, e, k) in found
  }

  /** `found` reports exactly the rules the edges break. */
  ghost predicate Reports(found: seq<Anomaly>, s: Setting, es: seq<Aggregate>)
    requires Ports(es)
  {
    && (forall n :: 0 <= n < |found| ==> Backed(found[n], s, es))
    && (forall i :: 0 <= i < |es| ==> Told(found, s, es[i]))
  }

  method ReportEdge(s: Setting, e: Aggregate) returns (found: seq<Anomaly>)
    requires 0 <= e.key.port
    ensures InOrder(found) && Reports(found, s, [e])
  {
    var fired := Rules(s, e);
    found := seq(|fired|, i requires 0 <= i < |fired| => Report(s, e, fired[i]));
    forall n | 0 <= n < |found| ensures Backed(found[n], s, [e]) {
      assert fired[n] in fired;
      assert IsReport(found[n], s, [e][0]);
    }
    forall k | Fires(s, e, k) ensures Report(s, e, k) in found {
      var n :| 0 <= n < |fired| && fired[n] == k;
      assert found[n] == Report(s, e, k);
    }
  }

  lemma OneMoreEdge(found: seq<Anomaly>, more: seq<Anomaly>, s: Setting, es: seq<Aggregate>, e: Aggregate)
    requires Ports(es) && 0 <= e.key.port && Reports(found, s, es) && Reports(more, s, [e])
    ensures Ports(es + [e]) && Reports(found + more, s, es + [e])
  {
    hide Fires, Report, IsReport;
    var es', all := es + [e], found + more;
    forall n | 0 <= n < |all| ensures Backed(all[n], s, es') {
      if n < |found| {
        var i :| 0 <= i < |es| && IsReport(found[n], s, es[i]);
        assert es'[i] == es[i];
      } else {
        assert Backed(more[n - |found|], s, [e]);
        assert es'[|es|] == e;
      }
    }
    forall i | 0 <= i < |es'| ensures Told(all, s, es'[i]) {
      if i < |es| {
        assert Told(found, s, es[i]);
      } else {
        assert Told(more, s, [e][0]);
      }
    }
  }

  /** Reports of a later edge follow those of all earlier ones. */
  lemma LaterEdgeFollows(found: seq<Anomaly>, more: seq<Anomaly>, s: Setting, es: seq<Aggregate>, e: Aggregate)
    requires Ports(es) && 0 <= e.key.port && Reports(found, s, es) && Reports(more, s, [e])
    requires InOrder(found) && InOrder(more) && forall i :: 0 <= i < |es| ==> KeyLess(es[i].key, e.key)
    ensures InOrder(found + more)
  {
    hide Fires, KeyLess, Told;
    forall n, m | 0 <= n < |found| && 0 <= m < |more| ensures Precedes(found[n], more[m]) {
      assert Backed(found[n], s, es) && Backed(more[m], s, [e]);
      var i :| 0 <= i < |es| && IsReport(found[n], s, es[i]);
      var j :| 0 <= j < |[e]| && IsReport(more[m], s, [e][j]);
      assert found[n].key == es[i].key && more[m].key == e.key;
    }
  }

  function EdgeOf(a: Anomaly): EdgeKey { a.key }

  /** The same for edges that may share a key: the reports stay in key order. */
  lemma NoEarlierEdgeFollows(found: seq<Anomaly>, more: seq<Anomaly>, s: Setting, es: seq<Aggregate>, e: Aggregate)
    requires Ports(es) && 0 <= e.key.port && Reports(found, s, es) && Reports(more, s, [e])
    requires WeaklySorted(found, EdgeOf) && forall i :: 0 <= i < |es| ==> !KeyLess(e.key, es[i].key)
    ensures WeaklySorted(found + more, EdgeOf)
  {
    hide Fires, KeyLess, Told;
    forall m | 0 <= m < |more| ensures more[m].key == e.key {
      assert Backed(more[m], s, [e]);
    }
    forall n | 0 <= n < |found| ensures !KeyLess(e.key, found[n].key) {
      assert Backed(found[n], s, es);
    }
    KeyLessTotal(e.key, e.key);
  }

  /** The baseline edges that carried traffic, by key. */
  function Baseline(es: seq<Aggregate>): map<EdgeKey, Aggregate> {
    if es == [] then map[]
    else
      var rest, e := Baseline(es[..|es| - 1]), es[|es| - 1];
      if e.Attempts() > 0 then rest[e.key := e] else rest
  }

  /** What counts as before: the last baseline edge of that key that carried an attempt. */
  lemma {:induction false} BaselineIs(es: seq<Aggregate>, k: EdgeKey)
    ensures k in Baseline(es) <==> exists i :: 0 <= i < |es| && Carries(es[i], k)
    ensures forall i :: 0 <= i < |es| && Carries(es[i], k) && (forall j :: i < j < |es| ==> !Carries(es[j], k)) ==>
      k in Baseline(es) && Baseline(es)[k] == es[i]
  {
    if es != [] {
      var init := es[..|es| - 1];
      BaselineIs(init, k);
      assert forall i :: 0 <= i < |init| ==> init[i] == es[i];
      if Carries(es[|init|], k) {
        assert Baseline(es)[k] == es[|init|];
      } else {
        assert Lookup(Baseline(es), k) == Lookup(Baseline(init), k);
      }
    }
  }

  predicate Carries(e: Aggregate, k: EdgeKey) { e.key == k && e.conns + Measured(e.failed) > 0 }

  method Detect(current: seq<Aggregate>, baselineEdges: seq<Aggregate>, canaries: set<string>, th: Thresholds)
    returns (found: seq<Anomaly>, observed: bool)
    requires Ports(current)
    ensures WeaklySorted(found, EdgeOf) && (KeysDiffer(current, KeyOf) ==> InOrder(found))
    ensures Reports(found, Setting(Baseline(baselineEdges), canaries, th), current)
    ensures observed <==> Baseline(baselineEdges) != map[]
  {
    var baseline: map<EdgeKey, Aggregate> := map[];
    for i := 0 to |baselineEdges|
      invariant baseline == Baseline(baselineEdges[..i])
    {
      assert baselineEdges[..i + 1][..i] == baselineEdges[..i];
      if baselineEdges[i].Attempts() > 0 {
        baseline := baseline[baselineEdges[i].key := baselineEdges[i]];
      }
    }
    assert baselineEdges[..|baselineEdges|] == baselineEdges;
    observed := baseline != map[];
    var s := Setting(baseline, canaries, th);
    var sorted := SortByKey(current, KeyOf);
    SameElements(sorted, current);
    forall i | 0 <= i < |sorted| ensures 0 <= sorted[i].key.port { assert sorted[i] in current; }
    found := ReportAll(s, sorted);
    SameEdges(found, s, sorted, current);
  }

  method ReportAll(s: Setting, sorted: seq<Aggregate>) returns (found: seq<Anomaly>)
    requires WeaklySorted(sorted, KeyOf) && Ports(sorted)
    ensures WeaklySorted(found, EdgeOf) && Reports(found, s, sorted)
    ensures Sorted(sorted, KeyOf) ==> InOrder(found)
  {
    found := [];
    for n := 0 to |sorted|
      invariant Ports(sorted[..n]) && Reports(found, s, sorted[..n])
      invariant WeaklySorted(found, EdgeOf) && (Sorted(sorted, KeyOf) ==> InOrder(found))
    {
      var more := ReportEdge(s, sorted[n]);
      assert forall i :: 0 <= i < n ==> !KeyLess(KeyOf(sorted[n]), KeyOf(sorted[i]));
      hide Reports, InOrder, KeyLess;
      NoEarlierEdgeFollows(found, more, s, sorted[..n], sorted[n]);
      if Sorted(sorted, KeyOf) {
        assert forall i :: 0 <= i < n ==> KeyLess(KeyOf(sorted[i]), KeyOf(sorted[n]));
        LaterEdgeFollows(found, more, s, sorted[..n], sorted[n]);
      }
      OneMoreEdge(found, more, s, sorted[..n], sorted[n]);
      assert sorted[..n + 1] == sorted[..n] + [sorted[n]];
      found := found + more;
    }
    assert sorted[..|sorted|] == sorted;
  }

  lemma SameEdges(found: seq<Anomaly>, s: Setting, a: seq<Aggregate>, b: seq<Aggregate>)
    requires Ports(a) && Ports(b) && Reports(found, s, a) && forall e :: e in a <==> e in b
    ensures Reports(found, s, b)
  {
    hide IsReport, Told;
    forall n | 0 <= n < |found| ensures Backed(found[n], s, b) {
      var i :| 0 <= i < |a| && IsReport(found[n], s, a[i]);
      assert a[i] in b;
    }
    forall i | 0 <= i < |b| ensures Told(found, s, b[i]) {
      assert b[i] in a;
    }
  }

  lemma EmptyIff(xs: seq<Anomaly>)
    ensures xs == [] <==> forall a :: a !in xs
  {
    if xs != [] {
      assert xs[0] in xs;
    }
  }

  /** Sorted output is determined: identical inputs give identical output, in whatever order they came. */
  lemma {:induction false} OrderedUnique(xs: seq<Anomaly>, ys: seq<Anomaly>)
    requires InOrder(xs) && InOrder(ys) && forall a :: a in xs <==> a in ys
    ensures xs == ys
  {
    EmptyIff(xs);
    EmptyIff(ys);
    if xs != [] {
      assert xs[0] in ys && ys[0] in xs;
      FirstIsLeast(xs, ys);
      TailsAgree(xs, ys);
      OrderedUnique(xs[1..], ys[1..]);
      assert xs == [xs[0]] + xs[1..] && ys == [ys[0]] + ys[1..];
    }
  }

  lemma FirstIsLeast(xs: seq<Anomaly>, ys: seq<Anomaly>)
    requires InOrder(xs) && InOrder(ys) && xs != [] && ys != [] && xs[0] in ys && ys[0] in xs
    ensures xs[0] == ys[0]
  {
    var i :| 0 <= i < |ys| && ys[i] == xs[0];
    var j :| 0 <= j < |xs| && xs[j] == ys[0];
    KeyLessTotal(xs[0].key, ys[0].key);
    assert i > 0 ==> Precedes(ys[0], xs[0]);
    assert j > 0 ==> Precedes(xs[0], ys[0]);
  }

  lemma TailsAgree(xs: seq<Anomaly>, ys: seq<Anomaly>)
    requires InOrder(xs) && InOrder(ys) && xs != [] && ys != [] && xs[0] == ys[0] && forall a :: a in xs <==> a in ys
    ensures forall a :: a in xs[1..] <==> a in ys[1..]
  {
    KeyLessTotal(xs[0].key, xs[0].key);
    assert xs == [xs[0]] + xs[1..] && ys == [ys[0]] + ys[1..];
    assert forall i :: 1 <= i < |xs| ==> Precedes(xs[0], xs[i]);
    assert forall i :: 1 <= i < |ys| ==> Precedes(ys[0], ys[i]);
    assert xs[0] !in xs[1..] && ys[0] !in ys[1..];
    forall a ensures a in xs[1..] <==> a in ys[1..] {
      assert a in xs <==> a == xs[0] || a in xs[1..];
      assert a in ys <==> a == ys[0] || a in ys[1..];
    }
  }

  lemma SameReports(xs: seq<Anomaly>, ys: seq<Anomaly>, s: Setting, es: seq<Aggregate>)
    requires Ports(es) && Reports(xs, s, es) && Reports(ys, s, es)
    ensures forall a :: a in xs ==> a in ys
  {
    hide Fires, Report;
    forall a | a in xs ensures a in ys {
      var n :| 0 <= n < |xs| && xs[n] == a;
      assert Backed(xs[n], s, es);
      var i :| 0 <= i < |es| && IsReport(a, s, es[i]);
      assert Told(ys, s, es[i]);
    }
  }

  /** The same edges in whatever order they come, and the same baseline, give the same output. */
  lemma DetectIsOrderFree(xs: seq<Anomaly>, ys: seq<Anomaly>, s: Setting, a: seq<Aggregate>, b: seq<Aggregate>)
    requires Ports(a) && Ports(b) && forall e :: e in a <==> e in b
    requires InOrder(xs) && Reports(xs, s, a) && InOrder(ys) && Reports(ys, s, b)
    ensures xs == ys
  {
    SameEdges(xs, s, a, b);
    SameReports(xs, ys, s, b);
    SameReports(ys, xs, s, b);
    OrderedUnique(xs, ys);
  }

  lemma WordsDiffer(j: Kind, k: Kind)
    ensures Word(j) == Word(k) <==> j == k
    ensures '|' !in Word(k)
  {
  }

  /** An anomaly's id gives back its edge and its rule, whatever characters the workload names hold. */
  lemma AnomalyIdInjective(a: EdgeKey, j: Kind, b: EdgeKey, k: Kind)
    requires CanonicalKey(a) && CanonicalKey(b) && AnomalyId(a, j) == AnomalyId(b, k)
    ensures a == b && j == k
  {
    WordsDiffer(j, k);
    WordsDiffer(k, j);
    hide Word;
    Cut(BuildEdgeId(a), Word(j), BuildEdgeId(b), Word(k), '|');
    Identity.EdgeIdInjective(a, b);
  }

  /** All ids of one run differ. */
  lemma IdsDiffer(found: seq<Anomaly>, s: Setting, es: seq<Aggregate>, n: nat, m: nat)
    requires Ports(es) && Reports(found, s, es) && InOrder(found) && n < m < |found|
    requires CanonicalKey(found[n].key) && CanonicalKey(found[m].key)
    ensures found[n].id != found[m].id
  {
    assert Backed(found[n], s, es) && Backed(found[m], s, es);
    assert found[n].id == AnomalyId(found[n].key, found[n].kind) &&
      found[m].id == AnomalyId(found[m].key, found[m].kind);
    hide AnomalyId;
    KeyLessTotal(found[n].key, found[m].key);
    assert Precedes(found[n], found[m]);
    assert found[n].key != found[m].key || found[n].kind != found[m].kind;
    if found[n].id == found[m].id {
      AnomalyIdInjective(found[n].key, found[n].kind, found[m].key, found[m].kind);
    }
  }
}
