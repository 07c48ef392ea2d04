/**
 From addresses to identities: the ladders that name the two ends of a connection.

 The informer caches are read-only lookups. A destination follows a Service to the workload behind
 it, which is what makes a destination and a source meet at one node.
 */
module Resolver {
  import opened Tallies
  import opened Contract
  import opened Identity

  datatype Class = WorkloadClass | ServiceClass | ExternalClass | HostClass | UnresolvedClass

  datatype Endpoint = Endpoint(
    id: string, kind: string, namespace: string, name: string, category: Class, candidates: seq<string>)
  {
    predicate IsGraphable() { category.WorkloadClass? || category.ServiceClass? || category.ExternalClass? }
  }

  datatype OwnerRef = OwnerRef(kind: string, name: string)
  datatype Pod = Pod(namespace: string, name: string, owner: OwnerRef)
  datatype ServiceRef = ServiceRef(namespace: string, name: string)

  /** An IPv4 address, most significant byte first. */
  datatype Addr = Addr(b0: nat, b1: nat, b2: nat, b3: nat)

  datatype Caches = Caches(
    podByIp: Addr -> Option<Pod>,
    serviceByClusterIp: Addr -> Option<ServiceRef>,
    servicesForEndpoint: (Addr, nat) -> seq<ServiceRef>,
    endpointsForService: ServiceRef -> seq<Addr>,
    resolveOwner: (string, OwnerRef) -> Option<OwnerRef>,
    isNodeIp: Addr -> bool)

  datatype Resolver = Resolver(cluster: string, caches: Caches)

  const EXTERNAL := Endpoint(EXTERNAL_NODE_ID, "Pod", "", "EXTERNAL", ExternalClass, [])
  const UNRESOLVED := Endpoint("", "", "", "unresolved", UnresolvedClass, [])
  const HOST := Endpoint("", "", "", "host", HostClass, [])

  /** The empty id stands for a name the grammar rejects. */
  function IdOrEmpty(cluster: string, namespace: string, kind: string, name: string): string {
    var id := BuildNodeId(cluster, namespace, kind, name);
    if id.Some? then id.value else ""
  }

  /** A pod collapses to its stable owner: ReplicaSet to Deployment, the others directly. */
  function WorkloadFor(r: Resolver, pod: Pod): Endpoint {
    var next := r.caches.resolveOwner(pod.namespace, pod.owner);
    var (kind, name) :=
      if pod.owner.kind == "ReplicaSet" then
        if next.Some? && next.value.kind == "Deployment" then ("Deployment", next.value.name) else ("Pod", pod.name)
      else if pod.owner.kind in {"StatefulSet", "DaemonSet", "Job"} then (pod.owner.kind, pod.owner.name)
      else ("Pod", pod.name);
    Endpoint(IdOrEmpty(r.cluster, pod.namespace, kind, name), kind, pod.namespace, name, WorkloadClass, [])
  }

  /** What a pod's connections are attributed to. A bare ReplicaSet, or an owner of another kind, leaves the pod. */
  ghost predicate StandsFor(r: Resolver, pod: Pod, kind: string, name: string) {
    || (kind == "Deployment" && pod.owner.kind == "ReplicaSet" &&
        r.caches.resolveOwner(pod.namespace, pod.owner) == Some(OwnerRef("Deployment", name)))
    || (kind in {"StatefulSet", "DaemonSet", "Job"} && pod.owner == OwnerRef(kind, name))
    || (kind == "Pod" && name == pod.name && pod.owner.kind !in {"ReplicaSet", "StatefulSet", "DaemonSet", "Job"})
    || (kind == "Pod" && name == pod.name && pod.owner.kind == "ReplicaSet" &&
        forall d :: r.caches.resolveOwner(pod.namespace, pod.owner) != Some(OwnerRef("Deployment", d)))
  }

  lemma WorkloadIs(r: Resolver, pod: Pod)
    ensures var w := WorkloadFor(r, pod);
      && StandsFor(r, pod, w.kind, w.name) && w.namespace == pod.namespace && w.category == WorkloadClass
      && w.id == IdOrEmpty(r.cluster, pod.namespace, w.kind, w.name)
  {
  }

  /** Two nameable pods share an identity exactly when they stand for the same owner in the same namespace. */
  lemma ReplicasShareIdentityIff(r: Resolver, p: Pod, q: Pod)
    requires WorkloadFor(r, p).id != "" && WorkloadFor(r, q).id != ""
    ensures WorkloadFor(r, p).id == WorkloadFor(r, q).id <==>
      p.namespace == q.namespace && exists kind, name :: StandsFor(r, p, kind, name) && StandsFor(r, q, kind, name)
  {
    var v, w := WorkloadFor(r, p), WorkloadFor(r, q);
    WorkloadIs(r, p);
    WorkloadIs(r, q);
    if v.id == w.id {
      SameIdSameWorkload(r, p, q);
      assert StandsFor(r, p, v.kind, v.name) && StandsFor(r, q, v.kind, v.name);
    }
    forall kind, name | StandsFor(r, p, kind, name) && StandsFor(r, q, kind, name)
      ensures kind == v.kind == w.kind && name == v.name == w.name
    {
      StandsForOne(r, p, kind, name, v.kind, v.name);
      StandsForOne(r, q, kind, name, w.kind, w.name);
    }
  }

  lemma StandsForOne(r: Resolver, pod: Pod, kind: string, name: string, kind': string, name': string)
    requires StandsFor(r, pod, kind, name) && StandsFor(r, pod, kind', name')
    ensures kind == kind' && name == name'
  {
  }

  function ServiceEndpoint(r: Resolver, s: ServiceRef): Endpoint {
    Endpoint(IdOrEmpty(r.cluster, s.namespace, "Service", s.name), "Service", s.namespace, s.name, ServiceClass, [])
  }

  /** The nameable workloads behind the addresses, in order. */
  function Workloads(r: Resolver, addrs: seq<Addr>): seq<Endpoint> {
    if addrs == [] then []
    else
      var rest := Workloads(r, addrs[..|addrs| - 1]);
      var pod := r.caches.podByIp(addrs[|addrs| - 1]);
      if pod.Some? && WorkloadFor(r, pod.value).id != "" then rest + [WorkloadFor(r, pod.value)] else rest
  }

  predicate AllNamed(ws: seq<Endpoint>, id: string) {
    forall i :: 0 <= i < |ws| ==> ws[i].id == id
  }

  /** The one workload serving a Service, or None: no ready endpoint, or several workloads. */
  function Behind(r: Resolver, addrs: seq<Addr>): Option<Endpoint> {
    var ws := Workloads(r, addrs);
    if ws != [] && AllNamed(ws, ws[0].id) then Some(ws[0]) else None
  }

  method WorkloadBehindService(r: Resolver, s: ServiceRef) returns (e: Option<Endpoint>)
    ensures e == Behind(r, r.caches.endpointsForService(s))
  {
    var addrs := r.caches.endpointsForService(s);
    var resolved: Option<Endpoint> := None;
    for i := 0 to |addrs|
      invariant resolved == (if Workloads(r, addrs[..i]) == [] then None else Some(Workloads(r, addrs[..i])[0]))
      invariant resolved.Some? ==> AllNamed(Workloads(r, addrs[..i]), resolved.value.id)
    {
      assert addrs[..i + 1][..i] == addrs[..i];
      var pod := r.caches.podByIp(addrs[i]);
      if pod.None? {
        continue;
      }
      var workload := WorkloadFor(r, pod.value);
      if workload.id == "" {
        continue;
      }
      if resolved.None? {
        resolved := Some(workload);
        continue;
      }
      if workload.id != resolved.value.id {
        PrefixWorkloads(r, addrs, i + 1);
        var ws := Workloads(r, addrs[..i + 1]);
        assert ws[0].id != ws[|ws| - 1].id;
        return None;
      }
    }
    assert addrs[..|addrs|] == addrs;
    e := resolved;
  }

  lemma {:induction false} PrefixWorkloads(r: Resolver, addrs: seq<Addr>, n: nat)
    requires n <= |addrs|
    ensures Workloads(r, addrs[..n]) <= Workloads(r, addrs)
    decreases |addrs|
  {
    if n < |addrs| {
      var init := addrs[..|addrs| - 1];
      PrefixWorkloads(r, init, n);
      assert init[..n] == addrs[..n];
    } else {
      assert addrs[..n] == addrs;
    }
  }

  /** Whether `w` is a nameable workload behind one of the addresses. */
  ghost predicate Serves(r: Resolver, addrs: seq<Addr>, w: Endpoint) {
    exists a :: a in addrs && r.caches.podByIp(a).Some? && w == WorkloadFor(r, r.caches.podByIp(a).value) && w.id != ""
  }

  lemma {:induction false} WorkloadsAre(r: Resolver, addrs: seq<Addr>, w: Endpoint)
    ensures w in Workloads(r, addrs) <==> Serves(r, addrs, w)
  {
    if addrs != [] {
      var init, last := addrs[..|addrs| - 1], addrs[|addrs| - 1];
      WorkloadsAre(r, init, w);
      assert addrs == init + [last];
      assert forall a :: a in addrs <==> a in init || a == last;
    }
  }

  /** Through the id grammar, workloads with one id are one workload in every field. */
  lemma SameIdSameWorkload(r: Resolver, p: Pod, q: Pod)
    requires WorkloadFor(r, p).id == WorkloadFor(r, q).id != ""
    ensures WorkloadFor(r, p) == WorkloadFor(r, q)
  {
    var v, w := WorkloadFor(r, p), WorkloadFor(r, q);
    NodeIdInjective(Workload(r.cluster, v.namespace, v.kind, v.name), Workload(r.cluster, w.namespace, w.kind, w.name));
  }

  /** A Service resolves to `w` exactly when `w` serves it and nothing with another id does. */
  lemma BehindExactly(r: Resolver, addrs: seq<Addr>, w: Endpoint)
    ensures Behind(r, addrs) == Some(w) <==> Serves(r, addrs, w) && forall v :: Serves(r, addrs, v) ==> v.id == w.id
  {
    var ws := Workloads(r, addrs);
    forall v ensures v in ws <==> Serves(r, addrs, v) { WorkloadsAre(r, addrs, v); }
    if Serves(r, addrs, w) && forall v :: Serves(r, addrs, v) ==> v.id == w.id {
      assert w in ws;
      assert ws[0] in ws;
      forall i | 0 <= i < |ws| ensures ws[i].id == w.id { assert ws[i] in ws; }
      var a :| a in addrs && r.caches.podByIp(a).Some? && w == WorkloadFor(r, r.caches.podByIp(a).value) && w.id != "";
      var b :| b in addrs && r.caches.podByIp(b).Some? && ws[0] == WorkloadFor(r, r.caches.podByIp(b).value) &&
        ws[0].id != "";
      SameIdSameWorkload(r, r.caches.podByIp(a).value, r.caches.podByIp(b).value);
    }
    if Behind(r, addrs) == Some(w) {
      assert ws[0] in ws;
      forall v | Serves(r, addrs, v) ensures v.id == w.id {
        assert v in ws;
        var i :| 0 <= i < |ws| && ws[i] == v;
      }
      assert Serves(r, addrs, w);
    }
  }

  /** The full answer, not only its id, is the same in whatever order and multiplicity endpoints come. */
  lemma BehindOrderFree(r: Resolver, a: seq<Addr>, b: seq<Addr>)
    requires forall x :: x in a <==> x in b
    ensures Behind(r, a) == Behind(r, b)
  {
    forall w ensures Serves(r, a, w) <==> Serves(r, b, w) {}
    if Behind(r, a).Some? {
      BehindExactly(r, a, Behind(r, a).value);
      BehindExactly(r, b, Behind(r, a).value);
    } else if Behind(r, b).Some? {
      BehindExactly(r, a, Behind(r, b).value);
      BehindExactly(r, b, Behind(r, b).value);
    }
  }

  // ---- The ladders ----

  /** Node address first: every host-network pod shares it. */
  function ResolveSource(r: Resolver, ip: Addr): Endpoint {
    if r.caches.isNodeIp(ip) then HOST
    else
      var pod := r.caches.podByIp(ip);
      if pod.Some? then WorkloadFor(r, pod.value) else UNRESOLVED
  }

  function ResolveDestination(r: Resolver, ip: Addr, port: nat): Endpoint {
    var service := r.caches.serviceByClusterIp(ip);
    if service.Some? then
      var workload := Behind(r, r.caches.endpointsForService(service.value));
      if workload.Some? then workload.value else ServiceEndpoint(r, service.value)
    else
      var pod := r.caches.podByIp(ip);
      if pod.Some? then
        var matches := r.caches.servicesForEndpoint(ip, port);
        if |matches| > 1 then WorkloadFor(r, pod.value).(candidates := Names(matches)) else WorkloadFor(r, pod.value)
      else if r.caches.isNodeIp(ip) then HOST
      else if IsRoutable(ip) then EXTERNAL
      else UNRESOLVED
  }

  function Names(refs: seq<ServiceRef>): seq<string> {
    seq(|refs|, i requires 0 <= i < |refs| => refs[i].namespace + "/" + refs[i].name)
  }

  predicate IsRoutable(ip: Addr) {
    && !(ip.b0 == 0 && ip.b1 == 0 && ip.b2 == 0 && ip.b3 == 0)
    && ip.b0 != 127
    && ip.b0 != 10 && !(ip.b0 == 172 && 16 <= ip.b1 <= 31) && !(ip.b0 == 192 && ip.b1 == 168)
    && !(ip.b0 == 169 && ip.b1 == 254)
    && !(224 <= ip.b0 <= 239)
    && !(ip.b0 == 100 && 64 <= ip.b1 <= 127)
  }

  function Number(ip: Addr): int { ((ip.b0 * 256 + ip.b1) * 256 + ip.b2) * 256 + ip.b3 }

  /** An address is taken for the outside world unless it lies in one of the reserved blocks. */
  lemma RoutableIff(ip: Addr)
    requires ip.b0 < 256 && ip.b1 < 256 && ip.b2 < 256 && ip.b3 < 256
    ensures IsRoutable(ip) <==>
      && Number(ip) != 0
      && !(0x0A00_0000 <= Number(ip) <= 0x0AFF_FFFF)     // 10.0.0.0/8
      && !(0x6440_0000 <= Number(ip) <= 0x647F_FFFF)     // 100.64.0.0/10
      && !(0x7F00_0000 <= Number(ip) <= 0x7FFF_FFFF)     // 127.0.0.0/8
      && !(0xA9FE_0000 <= Number(ip) <= 0xA9FE_FFFF)     // 169.254.0.0/16
      && !(0xAC10_0000 <= Number(ip) <= 0xAC1F_FFFF)     // 172.16.0.0/12
      && !(0xC0A8_0000 <= Number(ip) <= 0xC0A8_FFFF)     // 192.168.0.0/16
      && !(0xE000_0000 <= Number(ip) <= 0xEFFF_FFFF)     // 224.0.0.0/4
  {
  }

  /** The initiating end: a node address is the host whatever pod claims it, and it is never a Service or external. */
  lemma SourceIs(r: Resolver, ip: Addr)
    ensures var e := ResolveSource(r, ip);
      && (e == HOST <==> r.caches.isNodeIp(ip))
      && (e == UNRESOLVED <==> !r.caches.isNodeIp(ip) && r.caches.podByIp(ip).None?)
      && (e.category == WorkloadClass <==> !r.caches.isNodeIp(ip) && r.caches.podByIp(ip).Some?)
  {
  }

  /** One workload, and no other, is behind the Service. */
  ghost predicate ServedByOne(r: Resolver, s: ServiceRef) {
    exists w ::
      && Serves(r, r.caches.endpointsForService(s), w)
      && forall v :: Serves(r, r.caches.endpointsForService(s), v) ==> v.id == w.id
  }

  /** The receiving end, first match wins. A cluster IP is the one workload behind it, or else the Service ... */
  lemma ClusterIpIs(r: Resolver, ip: Addr, port: nat, s: ServiceRef)
    requires r.caches.serviceByClusterIp(ip) == Some(s)
    ensures var e := ResolveDestination(r, ip, port);
      if ServedByOne(r, s) then e.category == WorkloadClass && Serves(r, r.caches.endpointsForService(s), e)
      else e == Endpoint(IdOrEmpty(r.cluster, s.namespace, "Service", s.name), "Service", s.namespace, s.name,
                         ServiceClass, [])
  {
    var addrs := r.caches.endpointsForService(s);
    if Behind(r, addrs).Some? {
      var w := Behind(r, addrs).value;
      BehindExactly(r, addrs, w);
      assert ServedByOne(r, s);
    } else if ServedByOne(r, s) {
      var w :| Serves(r, addrs, w) && forall v :: Serves(r, addrs, v) ==> v.id == w.id;
      BehindExactly(r, addrs, w);
      assert false;
    }
  }

  /** ... a pod's address is its workload, with the Services that share it when there are several ... */
  lemma PodAddressIs(r: Resolver, ip: Addr, port: nat, pod: Pod)
    requires r.caches.serviceByClusterIp(ip).None? && r.caches.podByIp(ip) == Some(pod)
    ensures var e, shared := ResolveDestination(r, ip, port), r.caches.servicesForEndpoint(ip, port);
      && e.(candidates := []) == WorkloadFor(r, pod)
      && |e.candidates| == (if |shared| > 1 then |shared| else 0)
      && forall i :: 0 <= i < |e.candidates| ==> e.candidates[i] == shared[i].namespace + "/" + shared[i].name
  {
  }

  /** ... and of the rest a node is the host, a routable address is external, and nothing else is guessed at. */
  lemma OtherAddressIs(r: Resolver, ip: Addr, port: nat)
    requires r.caches.serviceByClusterIp(ip).None? && r.caches.podByIp(ip).None?
    ensures ResolveDestination(r, ip, port) ==
      if r.caches.isNodeIp(ip) then HOST else if IsRoutable(ip) then EXTERNAL else UNRESOLVED
  {
  }

  /** A pod address that is neither node nor cluster IP has one identity at both ends. */
  lemma OneIdentityAtBothEnds(r: Resolver, ip: Addr, port: nat)
    requires !r.caches.isNodeIp(ip) && r.caches.serviceByClusterIp(ip).None? && r.caches.podByIp(ip).Some?
    ensures ResolveDestination(r, ip, port).(candidates := []) == ResolveSource(r, ip)
    ensures ResolveSource(r, ip).category == WorkloadClass
  {
  }

  /** A cluster IP resolves to exactly what any of its pods is as a source, iff one workload serves it. */
  lemma ServiceMeetsItsPods(r: Resolver, vip: Addr, port: nat, s: ServiceRef, ip: Addr)
    requires r.caches.serviceByClusterIp(vip) == Some(s)
    requires ip in r.caches.endpointsForService(s)
    requires !r.caches.isNodeIp(ip) && r.caches.podByIp(ip).Some? && ResolveSource(r, ip).id != ""
    ensures ResolveDestination(r, vip, port) == ResolveSource(r, ip)
       <==> forall v :: Serves(r, r.caches.endpointsForService(s), v) ==> v.id == ResolveSource(r, ip).id
  {
    var addrs, w := r.caches.endpointsForService(s), ResolveSource(r, ip);
    assert Serves(r, addrs, w);
    BehindExactly(r, addrs, w);
  }

  /** What a ladder emits for the graph has either the empty id or a canonical one, and an allowed kind. */
  lemma GraphableIdsAreCanonical(r: Resolver, ip: Addr, port: nat, e: Endpoint)
    requires e == ResolveSource(r, ip) || e == ResolveDestination(r, ip, port)
    requires e.IsGraphable()
    ensures e.id == "" || Canonical(e.id)
    ensures e.kind in ALLOWED_KINDS
    ensures e.id != "" ==> e.name != ""
  {
    EmittedShape(r, ip, port, e);
    assert NodeId(External) == Some(EXTERNAL.id);
    assert e.category != ExternalClass && e.id != "" ==>
      NodeId(Workload(r.cluster, e.namespace, e.kind, e.name)) == Some(e.id);
  }

  lemma EmittedShape(r: Resolver, ip: Addr, port: nat, e: Endpoint)
    requires e == ResolveSource(r, ip) || e == ResolveDestination(r, ip, port)
    ensures e.category == ExternalClass ==> e == EXTERNAL
    ensures e.category == WorkloadClass || e.category == ServiceClass ==>
      e.id == IdOrEmpty(r.cluster, e.namespace, e.kind, e.name) && e.kind in ALLOWED_KINDS
  {
    var service := r.caches.serviceByClusterIp(ip);
    if e == ResolveDestination(r, ip, port) && service.Some? {
      var addrs := r.caches.endpointsForService(service.value);
      if Behind(r, addrs).Some? {
        BehindExactly(r, addrs, e);
        assert Serves(r, addrs, e);
      }
    }
  }

  /** What the ladders can emit, whatever the caches hold at the time. */
  ghost predicate IsSource(e: Endpoint) { exists r: Resolver, ip: Addr :: e == ResolveSource(r, ip) }

  ghost predicate IsDestination(e: Endpoint, port: nat) {
    exists r: Resolver, ip: Addr :: e == ResolveDestination(r, ip, port)
  }

  /** A graphable endpoint with an id passes the contract's checks on nodes. */
  lemma EmittedIsNamed(e: Endpoint, port: nat)
    requires IsSource(e) || IsDestination(e, port)
    requires e.IsGraphable() && e.id != ""
    ensures e.kind in ALLOWED_KINDS && e.name != ""
  {
    if IsSource(e) {
      var r: Resolver, ip :| e == ResolveSource(r, ip);
      GraphableIdsAreCanonical(r, ip, port, e);
    } else {
      var r: Resolver, ip :| e == ResolveDestination(r, ip, port);
      GraphableIdsAreCanonical(r, ip, port, e);
    }
  }

  /** The name an emitted endpoint's id spells, and what the endpoint then says of itself. */
  lemma NameBehind(e: Endpoint, port: nat) returns (name: NodeName)
    requires IsSource(e) || IsDestination(e, port)
    requires e.IsGraphable() && e.id != ""
    ensures NodeId(name) == Some(e.id)
    ensures match name
      case External => e == EXTERNAL
      case Workload(_, namespace, kind, own) => e.namespace == namespace && e.kind == kind && e.name == own
  {
    var r: Resolver, ip :| e == ResolveSource(r, ip) || e == ResolveDestination(r, ip, port);
    EmittedShape(r, ip, port, e);
    hide ResolveSource, ResolveDestination;
    name := if e.category == ExternalClass then External else Workload(r.cluster, e.namespace, e.kind, e.name);
  }
}
