/**
 End to end: any number of agents observe, flush, queue, post over a network that loses, delays and
 repeats requests and replies, and one backend that stores each batch id once.

 Agents behave as `Aggregate.Flushed` and `Delivery.Next` say, the backend as `MemoryStore.Ingest`
 says, in any interleaving. The store then holds, for every edge, exactly the fold of the
 observations of the ingested batches, each once. When nothing is left on the way and no counter shows
 a loss, those are the observations of every interval whose batch was valid; the others, which the
 agent drops without counting them, are exactly the ones with a faulty header or a port 0. Retention is
 not part of a run.
 */
module Pipeline {
  import opened Tallies
  import opened Ordering
  import opened Contract
  import opened Aggregate
  import M = MemoryStore
  import D = Delivery

  /** One accepted observation: whose, and in which of that agent's flush intervals. */
  datatype Seen = Seen(agent: nat, epoch: nat, obs: Observation)

  datatype Tag = Tag(agent: nat, epoch: nat, edge: EdgeKey)

  /** A flushed batch, whose and from which interval it is, and whether it passed its own validation. */
  datatype Minted = Minted(agent: nat, epoch: nat, batch: Batch, valid: bool)

  datatype Agent = Agent(log: seq<Observation>, epoch: nat, queue: D.State)

  datatype World = World(
    infraPorts: set<nat>,
    agents: map<nat, Agent>,
    store: M.Store,
    wire: set<Batch>,                        // requests that may still arrive, any number of times
    replies: set<(string, D.Outcome)>,       // what the backend has answered, per batch id
    seen: seq<Seen>,                         // history from here on
    minted: map<string, Minted>,
    ingested: seq<Batch>,
    discarded: nat)                          // batches refused by the agent's own validation

  datatype Step =
    | Observe(agent: nat, obs: Observation)
    | Flush(agent: nat, batch: Batch)
    | Internal(agent: nat, step: D.Step)
    | Send(agent: nat)
    | Refuse(batch: Batch, outcome: D.Outcome)   // 4xx or 5xx: the backend stores nothing
    | Store(batch: Batch)
    | Answer(agent: nat, outcome: D.Outcome)

  predicate IsInternal(s: D.Step) { !s.Enqueue? && !s.Answer? }

  ghost predicate Enabled(w: World, s: Step) {
    match s
    case Observe(a, o) => a in w.agents && Captured(o) && Judge(w.infraPorts, o).Accepted?
    case Flush(a, b) =>
      && a in w.agents && w.agents[a].queue.q.producer.Idle?
      && w.agents[a].log != [] && Flushed(w.agents[a].log, b.edges)
      && b.id !in w.minted
    case Internal(a, d) => a in w.agents && IsInternal(d) && D.Enabled(w.agents[a].queue.q, d)
    case Send(a) => a in w.agents && w.agents[a].queue.q.consumer.Posting?
    case Refuse(b, o) => b in w.wire && (o.Permanent? || o.Retryable?)
    case Store(b) => b in w.wire
    case Answer(a, o) =>
      && a in w.agents && w.agents[a].queue.q.consumer.Posting?
      // a failed exchange looks retryable, an unsendable batch permanent; anything else was answered
      && (o.Retryable? || o.Permanent? || (w.agents[a].queue.q.consumer.batch.id, o) in w.replies)
  }

  function WithQueue(w: World, a: nat, d: D.Step): World
    requires a in w.agents && D.Enabled(w.agents[a].queue.q, d)
  {
    w.(agents := w.agents[a := w.agents[a].(queue := D.Next(w.agents[a].queue, d))])
  }

  /** The agent takes its interval out and either queues the batch or, if invalid, logs and drops it. */
  function DoFlush(w: World, a: nat, b: Batch): World
    requires a in w.agents && w.agents[a].queue.q.producer.Idle?
  {
    var agent := w.agents[a];
    var valid := Validate(b).None?;
    var queue := if valid then D.Next(agent.queue, D.Enqueue(b)) else agent.queue;
    w.(agents := w.agents[a := Agent([], agent.epoch + 1, queue)],
       minted := w.minted[b.id := Minted(a, agent.epoch, b, valid)],
       discarded := if valid then w.discarded else w.discarded + 1)
  }

  /** The ingest route: 202 for a new batch, 200 for one already stored. */
  function DoStore(w: World, b: Batch): World {
    var (store, outcome) := M.Ingest(w.store, b);
    w.(store := store,
       ingested := if outcome.Ingested? then w.ingested + [b] else w.ingested,
       replies := w.replies + {(b.id, D.OutcomeOf(D.Status(if outcome.Ingested? then 202 else 200)))})
  }

  ghost function Next(w: World, s: Step): World
    requires Enabled(w, s)
  {
    match s
    case Observe(a, o) =>
      var agent := w.agents[a];
      w.(agents := w.agents[a := agent.(log := agent.log + [o])], seen := w.seen + [Seen(a, agent.epoch, o)])
    case Flush(a, b) => DoFlush(w, a, b)
    case Internal(a, d) => WithQueue(w, a, d)
    case Send(a) => w.(wire := w.wire + {w.agents[a].queue.q.consumer.batch})
    case Refuse(b, o) => w.(replies := w.replies + {(b.id, o)})
    case Store(b) => DoStore(w, b)
    case Answer(a, o) => WithQueue(w, a, D.Answer(o))
  }

  // ---- Reading the history ----

  function TagItems(seen: seq<Seen>): (r: seq<Item<Tag>>)
    ensures |r| == |seen|
    ensures forall i :: 0 <= i < |r| ==>
      r[i] == Item(Tag(seen[i].agent, seen[i].epoch, KeyOf(seen[i].obs)), Contribution(seen[i].obs))
  {
    seq(|seen|, i requires 0 <= i < |seen| =>
      Item(Tag(seen[i].agent, seen[i].epoch, KeyOf(seen[i].obs)), Contribution(seen[i].obs)))
  }

  function StoredEdges(ingested: seq<Batch>): seq<Edge> {
    if ingested == [] then [] else StoredEdges(ingested[..|ingested| - 1]) + ingested[|ingested| - 1].edges
  }

  /** What an agent's interval amounts to for one edge. */
  ghost function Interval(w: World, agent: nat, epoch: nat, edge: EdgeKey): Option<Tally> {
    Scan(TagItems(w.seen), iset{Tag(agent, epoch, edge)})
  }

  // ---- The invariant, in four parts ----

  /** Accumulators hold their own current interval, minted batches theirs, and every interval is one or the other. */
  ghost predicate Histories(w: World) {
    && (forall a, k :: a in w.agents ==>
      Scan(ObsItems(w.agents[a].log), iset{k}) == Interval(w, a, w.agents[a].epoch, k))
    && (forall id, k :: id in w.minted ==>
          Scan(EdgeItems(w.minted[id].batch.edges), iset{k}) == Interval(w, w.minted[id].agent, w.minted[id].epoch, k))
    && (forall x :: x in w.seen ==>
          && x.agent in w.agents && x.epoch <= w.agents[x.agent].epoch
          && (x.epoch < w.agents[x.agent].epoch ==> HasTicket(w, x.agent, x.epoch)))
  }

  ghost predicate HasTicket(w: World, agent: nat, epoch: nat) {
    exists id :: id in w.minted && w.minted[id].agent == agent && w.minted[id].epoch == epoch
  }

  /** Ids and intervals name each other, and an interval is minted once, after it ended. */
  ghost predicate Tickets(w: World) {
    && (forall id :: id in w.minted ==>
          && w.minted[id].batch.id == id
          && w.minted[id].agent in w.agents
          && w.minted[id].epoch < w.agents[w.minted[id].agent].epoch)
    && (forall i, j :: i in w.minted && j in w.minted && SameInterval(w.minted[i], w.minted[j]) ==> i == j)
  }

  predicate SameInterval(m: Minted, n: Minted) { m.agent == n.agent && m.epoch == n.epoch }

  /** A batch some agent minted, and found valid: only those leave the agent. */
  ghost predicate Known(w: World, b: Batch) { b.id in w.minted && w.minted[b.id].batch == b && w.minted[b.id].valid }

  /** Every queue is sound and handles this agent's own batches only. */
  ghost predicate Queues(w: World) {
    && (forall a :: a in w.agents ==> D.Invariant(w.agents[a].queue))
    && (forall a, b :: a in w.agents && b in w.agents[a].queue.h.appended ==> Known(w, b))
    && (forall a :: a in w.agents && D.Held(w.agents[a].queue.q.producer).Some? ==>
          Known(w, D.Held(w.agents[a].queue.q.producer).value))
    && (forall b :: b in w.wire ==> Known(w, b))
  }

  /** The store is the ingested batches, each once; a positive answer means stored. */
  ghost predicate Stored(w: World) {
    && M.Invariant(w.store, StoredEdges(w.ingested))
    && w.store.batches == Ids(w.ingested)
    && D.DistinctIds(w.ingested)
    && (forall b :: b in w.ingested ==> Known(w, b))
    && (forall r :: r in w.replies && (r.1.Accepted? || r.1.Duplicate?) ==> r.0 in w.store.batches)
  }

  /** A loss some counter of this agent shows, or is about to show. */
  predicate Lossy(q: D.Queue) { q.counters.dropped + q.counters.rejected + D.Uncounted(q) > 0 }

  /** The batch is stored, still held by the agent, its loss is counted, or the agent's own validation refused it. */
  ghost predicate Accounted(w: World, m: Minted) {
    || m.batch.id in w.store.batches
    || !m.valid
    || (m.agent in w.agents
        && (|| m.batch in w.agents[m.agent].queue.q.pending
            || D.Held(w.agents[m.agent].queue.q.producer) == Some(m.batch)
            || Lossy(w.agents[m.agent].queue.q)))
  }

  ghost predicate Fates(w: World) {
    && (forall id :: id in w.minted ==> Accounted(w, w.minted[id]))
    && (forall a :: a in w.agents && w.agents[a].queue.q.consumer.Settled? ==>
          w.agents[a].queue.q.consumer.batch.id in w.store.batches || w.agents[a].queue.q.counters.rejected > 0)
  }

  ghost predicate Invariant(w: World) {
    Histories(w) && Tickets(w) && Queues(w) && Stored(w) && Fates(w)
  }

  // ---- Histories and tickets ----

  /** Same observations, same batches, same intervals: the queues and the network may differ. */
  ghost predicate SameHistory(w: World, v: World) {
    && w.seen == v.seen && w.minted == v.minted && w.agents.Keys == v.agents.Keys
    && forall a :: a in w.agents ==> w.agents[a].log == v.agents[a].log && w.agents[a].epoch == v.agents[a].epoch
  }

  lemma HistoryFrame(w: World, v: World)
    requires SameHistory(w, v) && Histories(w) && Tickets(w)
    ensures Histories(v) && Tickets(v)
  {
    forall a, k | a in v.agents
      ensures Scan(ObsItems(v.agents[a].log), iset{k}) == Interval(v, a, v.agents[a].epoch, k)
    {
      assert Scan(ObsItems(w.agents[a].log), iset{k}) == Interval(w, a, w.agents[a].epoch, k);
    }
    forall id, k | id in v.minted
      ensures Scan(EdgeItems(v.minted[id].batch.edges), iset{k}) ==
        Interval(v, v.minted[id].agent, v.minted[id].epoch, k)
    {
      assert Scan(EdgeItems(w.minted[id].batch.edges), iset{k}) ==
        Interval(w, w.minted[id].agent, w.minted[id].epoch, k);
    }
    forall x | x in v.seen && x.epoch < v.agents[x.agent].epoch ensures HasTicket(v, x.agent, x.epoch) {
      assert HasTicket(w, x.agent, x.epoch);
    }
  }

  lemma ObserveInterval(w: World, a: nat, o: Observation, agent: nat, epoch: nat, k: EdgeKey)
    requires Enabled(w, Observe(a, o))
    ensures var before, after := Interval(w, agent, epoch, k), Interval(Next(w, Observe(a, o)), agent, epoch, k);
      after == if agent == a && epoch == w.agents[a].epoch && k == KeyOf(o) then Join(before, Some(Contribution(o)))
        else before
  {
    var x := Seen(a, w.agents[a].epoch, o);
    assert TagItems(w.seen + [x]) == TagItems(w.seen) + [Item(Tag(a, x.epoch, KeyOf(o)), Contribution(o))];
    ScanSnoc(TagItems(w.seen), Item(Tag(a, x.epoch, KeyOf(o)), Contribution(o)), iset{Tag(agent, epoch, k)});
  }

  lemma ObserveHistories(w: World, a: nat, o: Observation)
    requires Histories(w) && Tickets(w) && Enabled(w, Observe(a, o))
    ensures Histories(Next(w, Observe(a, o))) && Tickets(Next(w, Observe(a, o)))
  {
    hide Captured, Judge;
    var v := Next(w, Observe(a, o));
    forall c, k | c in v.agents
      ensures Scan(ObsItems(v.agents[c].log), iset{k}) == Interval(v, c, v.agents[c].epoch, k)
    {
      assert Scan(ObsItems(w.agents[c].log), iset{k}) == Interval(w, c, w.agents[c].epoch, k);
      ObserveInterval(w, a, o, c, w.agents[c].epoch, k);
      if c == a {
        var log := w.agents[a].log;
        assert ObsItems(log + [o]) == ObsItems(log) + [Item(KeyOf(o), Contribution(o))];
        ScanSnoc(ObsItems(log), Item(KeyOf(o), Contribution(o)), iset{k});
      }
    }
    forall id, k | id in v.minted
      ensures Scan(EdgeItems(v.minted[id].batch.edges), iset{k}) ==
        Interval(v, v.minted[id].agent, v.minted[id].epoch, k)
    {
      assert Scan(EdgeItems(w.minted[id].batch.edges), iset{k}) ==
        Interval(w, w.minted[id].agent, w.minted[id].epoch, k);
      ObserveInterval(w, a, o, w.minted[id].agent, w.minted[id].epoch, k);
    }
    forall x | x in v.seen
      ensures x.agent in v.agents && x.epoch <= v.agents[x.agent].epoch
      ensures x.epoch < v.agents[x.agent].epoch ==> HasTicket(v, x.agent, x.epoch)
    {
      assert x in w.seen || x == Seen(a, w.agents[a].epoch, o);
      if x in w.seen && x.epoch < w.agents[x.agent].epoch { assert HasTicket(w, x.agent, x.epoch); }
    }
  }

  lemma FutureIsEmpty(w: World, a: nat, k: EdgeKey)
    requires Histories(w) && a in w.agents
    ensures Interval(w, a, w.agents[a].epoch + 1, k) == None
  {
    var items, t := TagItems(w.seen), Tag(a, w.agents[a].epoch + 1, k);
    forall i | 0 <= i < |items| ensures items[i].key != t { assert w.seen[i] in w.seen; }
    ScanNone(items, iset{t});
  }

  lemma FlushIntervals(w: World, a: nat, b: Batch)
    requires Histories(w) && Enabled(w, Flush(a, b))
    ensures var v := DoFlush(w, a, b);
      && (forall c, k :: c in v.agents ==>
        Scan(ObsItems(v.agents[c].log), iset{k}) == Interval(v, c, v.agents[c].epoch, k))
      && (forall id, k :: id in v.minted ==>
            Scan(EdgeItems(v.minted[id].batch.edges), iset{k}) ==
              Interval(v, v.minted[id].agent, v.minted[id].epoch, k))
  {
    hide D.Next, Validate;
    var v := DoFlush(w, a, b);
    forall c, k | c in v.agents
      ensures Scan(ObsItems(v.agents[c].log), iset{k}) == Interval(v, c, v.agents[c].epoch, k)
    {
      assert Scan(ObsItems(w.agents[c].log), iset{k}) == Interval(w, c, w.agents[c].epoch, k);
      if c == a { FutureIsEmpty(w, a, k); assert ObsItems([]) == []; }
    }
    forall id, k | id in v.minted
      ensures Scan(EdgeItems(v.minted[id].batch.edges), iset{k}) ==
        Interval(v, v.minted[id].agent, v.minted[id].epoch, k)
    {
      if id == b.id {
        GroupsScanAlike(EdgeItems(b.edges), ObsItems(w.agents[a].log), iset{k});
        assert Scan(ObsItems(w.agents[a].log), iset{k}) == Interval(w, a, w.agents[a].epoch, k);
      } else {
        assert Scan(EdgeItems(w.minted[id].batch.edges), iset{k}) ==
          Interval(w, w.minted[id].agent, w.minted[id].epoch, k);
      }
    }
  }

  lemma FlushHistories(w: World, a: nat, b: Batch)
    requires Histories(w) && Tickets(w) && Enabled(w, Flush(a, b))
    ensures Histories(DoFlush(w, a, b)) && Tickets(DoFlush(w, a, b))
  {
    hide D.Next, Validate, Interval, Scan, Flushed;
    var v, epoch := DoFlush(w, a, b), w.agents[a].epoch;
    FlushIntervals(w, a, b);
    assert v.minted[b.id].agent == a && v.minted[b.id].epoch == epoch;
    assert HasTicket(v, a, epoch);
    forall x | x in v.seen && x.epoch < v.agents[x.agent].epoch ensures HasTicket(v, x.agent, x.epoch) {
      if x.agent != a || x.epoch < epoch {
        assert HasTicket(w, x.agent, x.epoch);
        var id :| id in w.minted && w.minted[id].agent == x.agent && w.minted[id].epoch == x.epoch;
        assert v.minted[id] == w.minted[id];
      }
    }
  }

  // ---- Queues ----

  /** Only a batch the producer holds joins a queue's history. */
  lemma QueueStepGrowth(st: D.State, d: D.Step)
    requires D.Enabled(st.q, d) && !d.Enqueue?
    ensures var held, next := D.Held(st.q.producer), D.Next(st, d);
      && (forall b :: b in next.h.appended ==> b in st.h.appended || held == Some(b))
      && (D.Held(next.q.producer).Some? ==> D.Held(next.q.producer) == held)
  {
  }

  lemma QueueStepQueues(w: World, a: nat, d: D.Step)
    requires Queues(w) && a in w.agents && D.Enabled(w.agents[a].queue.q, d) && !d.Enqueue?
    ensures Queues(WithQueue(w, a, d))
  {
    hide D.Invariant, D.Next;
    var v := WithQueue(w, a, d);
    assert D.Invariant(w.agents[a].queue);
    D.StepKeeps(w.agents[a].queue, d);
    QueueStepGrowth(w.agents[a].queue, d);
    forall x | Known(w, x) ensures Known(v, x) {}
  }

  lemma EnqueueGrowth(st: D.State, b: Batch)
    requires D.Enabled(st.q, D.Enqueue(b))
    ensures var next := D.Next(st, D.Enqueue(b));
      && (forall x :: x in next.h.appended ==> x in st.h.appended || x == b)
      && (D.Held(next.q.producer).Some? ==> D.Held(next.q.producer) == Some(b))
  {
  }

  lemma FlushQueues(w: World, a: nat, b: Batch)
    requires Queues(w) && Tickets(w) && Enabled(w, Flush(a, b))
    ensures Queues(DoFlush(w, a, b))
  {
    hide Validate, Flushed, D.Invariant, D.Next;
    var v, queue := DoFlush(w, a, b), w.agents[a].queue;
    forall x | Known(w, x) ensures Known(v, x) {}
    forall x | x in queue.h.appended ensures x.id != b.id { assert Known(w, x); }
    assert D.FreshId(queue, D.Enqueue(b)) && D.Invariant(queue);
    D.StepKeeps(queue, D.Enqueue(b));
    EnqueueGrowth(queue, b);
    assert Validate(b).None? ==> Known(v, b);
  }

  // ---- Fates ----

  /** Whatever was queued stays queued, unless something is evicted, which then shows. */
  lemma EnqueueKeepsOrCounts(st: D.State, b: Batch)
    requires D.Enabled(st.q, D.Enqueue(b))
    ensures var q, q' := st.q, D.Next(st, D.Enqueue(b)).q;
      && (b in q'.pending || D.Held(q'.producer) == Some(b))
      && (forall x :: x in q.pending ==> x in q'.pending || Lossy(q'))
      && (Lossy(q) ==> Lossy(q'))
      && q'.consumer == q.consumer && q'.counters == q.counters
  {
    var q := st.q;
    if q.pending != [] { assert q.pending == [q.pending[0]] + q.pending[1..]; }
  }

  lemma FlushAccounts(w: World, a: nat, b: Batch, m: Minted)
    requires Enabled(w, Flush(a, b)) && Accounted(w, m)
    ensures Accounted(DoFlush(w, a, b), m)
  {
    hide Validate, D.Perform, D.Record, Flushed;
    EnqueueKeepsOrCounts(w.agents[a].queue, b);
  }

  lemma FlushFates(w: World, a: nat, b: Batch)
    requires Fates(w) && Enabled(w, Flush(a, b))
    ensures Fates(DoFlush(w, a, b))
  {
    hide Validate, D.Perform, D.Record, Flushed;
    var v := DoFlush(w, a, b);
    EnqueueKeepsOrCounts(w.agents[a].queue, b);
    forall id | id in v.minted ensures Accounted(v, v.minted[id]) {
      if id != b.id { FlushAccounts(w, a, b, w.minted[id]); }
    }
  }

  /** A step of a queue other than Enqueue lets go of a batch only after it is settled. */
  lemma QueueStepKeepsOrSettled(st: D.State, d: D.Step)
    requires D.Invariant(st) && D.Enabled(st.q, d) && !d.Enqueue?
    ensures var q, q' := st.q, D.Next(st, d).q;
      && (forall x :: x in q.pending ==> x in q'.pending || (d.Pop? && x == q.consumer.batch))
      && (forall x :: D.Held(q.producer) == Some(x) ==> x in q'.pending || D.Held(q'.producer) == Some(x))
      && (Lossy(q) ==> Lossy(q'))
      && q.counters.rejected <= q'.counters.rejected
  {
    if d.Pop? {
      D.PopIsSafe(st);
      if st.q.pending != [] { assert st.q.pending == [st.q.pending[0]] + st.q.pending[1..]; }
    }
  }

  lemma SettlingStep(q: D.Queue, d: D.Step)
    requires D.Enabled(q, d) && !d.Enqueue?
    ensures var q' := D.Perform(q, d);
      q'.consumer.Settled? ==>
        || q.consumer == q'.consumer
        || (d.Answer? && q.consumer.Posting? && q.consumer.batch == q'.consumer.batch
            && (d.outcome.Accepted? || d.outcome.Duplicate? || q'.counters.rejected > 0))
  {
  }

  lemma QueueStepFates(w: World, a: nat, d: D.Step)
    requires Fates(w) && Queues(w) && Stored(w)
    requires a in w.agents && D.Enabled(w.agents[a].queue.q, d) && !d.Enqueue?
    requires d.Answer? ==> Enabled(w, Answer(a, d.outcome))
    ensures Fates(WithQueue(w, a, d))
  {
    hide D.Perform, D.Record, D.Invariant;
    var v, st := WithQueue(w, a, d), w.agents[a].queue;
    assert D.Invariant(st);
    QueueStepKeepsOrSettled(st, d);
    SettlingStep(st.q, d);
    forall id | id in v.minted ensures Accounted(v, v.minted[id]) {
      assert Accounted(w, w.minted[id]);
    }
  }

  // ---- The store ----

  ghost function Ids(bs: seq<Batch>): set<string> { set b | b in bs :: b.id }

  lemma IngestedSnoc(bs: seq<Batch>, b: Batch)
    requires D.DistinctIds(bs) && b.id !in Ids(bs)
    ensures D.DistinctIds(bs + [b]) && Ids(bs + [b]) == Ids(bs) + {b.id}
    ensures StoredEdges(bs + [b]) == StoredEdges(bs) + b.edges
  {
    assert (bs + [b])[..|bs|] == bs;
    forall x ensures x in bs + [b] <==> x in bs || x == b {}
    forall i | 0 <= i < |bs| ensures bs[i].id != b.id { assert bs[i] in bs; }
  }

  lemma StoreStored(w: World, b: Batch)
    requires Stored(w) && Known(w, b)
    ensures Stored(DoStore(w, b)) && w.store.batches <= DoStore(w, b).store.batches
  {
    hide M.Invariant, M.IngestEdges, D.DistinctIds, StoredEdges;
    var v := DoStore(w, b);
    M.IngestKeeps(w.store, StoredEdges(w.ingested), b);
    forall x | Known(w, x) ensures Known(v, x) {}
    if b.id !in w.store.batches {
      IngestedSnoc(w.ingested, b);
    }
  }

  lemma StoreFates(w: World, b: Batch)
    requires Fates(w) && w.store.batches <= DoStore(w, b).store.batches
    ensures Fates(DoStore(w, b))
  {
    var v := DoStore(w, b);
    forall id | id in v.minted ensures Accounted(v, v.minted[id]) { assert Accounted(w, w.minted[id]); }
  }

  lemma MintingKeepsStored(w: World, a: nat, b: Batch)
    requires Stored(w) && Enabled(w, Flush(a, b))
    ensures Stored(DoFlush(w, a, b))
  {
    hide M.Invariant, Validate, D.Next;
    var v := DoFlush(w, a, b);
    forall x | x in v.ingested ensures Known(v, x) { assert Known(w, x); }
  }

  // ---- Every step keeps the invariant ----

  /** Any move of any agent, the network or the backend. */
  lemma StepKeeps(w: World, s: Step)
    requires Invariant(w) && Enabled(w, s)
    ensures Invariant(Next(w, s))
  {
    hide Invariant;
    match s
    case Observe(a, o) => ObserveKeeps(w, a, o);
    case Flush(a, b) => FlushKeeps(w, a, b);
    case Internal(a, d) => QueueStepKeeps(w, a, d);
    case Send(a) => SendKeeps(w, a);
    case Refuse(b, o) => RefuseKeeps(w, b, o);
    case Store(b) => StoreKeeps(w, b);
    case Answer(a, o) => QueueStepKeeps(w, a, D.Answer(o));
  }

  lemma FlushKeeps(w: World, a: nat, b: Batch)
    requires Invariant(w) && Enabled(w, Flush(a, b))
    ensures Invariant(DoFlush(w, a, b))
  {
    hide Histories, Tickets, Queues, Stored, Fates, DoFlush;
    FlushHistories(w, a, b);
    FlushQueues(w, a, b);
    MintingKeepsStored(w, a, b);
    FlushFates(w, a, b);
  }

  lemma RefuseKeeps(w: World, b: Batch, o: D.Outcome)
    requires Invariant(w) && Enabled(w, Refuse(b, o))
    ensures Invariant(Next(w, Refuse(b, o)))
  {
    hide Histories, Tickets, Stored, Fates, D.Invariant;
    NetworkKeeps(w, w.(replies := w.replies + {(b.id, o)}));
  }

  lemma ObserveKeeps(w: World, a: nat, o: Observation)
    requires Invariant(w) && Enabled(w, Observe(a, o))
    ensures Invariant(Next(w, Observe(a, o)))
  {
    hide Histories, Tickets, M.Invariant, D.Invariant, Captured, Judge;
    ObserveHistories(w, a, o);
    var v := Next(w, Observe(a, o));
    forall x | Known(w, x) ensures Known(v, x) {}
    forall id | id in v.minted ensures Accounted(v, v.minted[id]) { assert Accounted(w, w.minted[id]); }
  }

  lemma QueueStepKeeps(w: World, a: nat, d: D.Step)
    requires Invariant(w) && a in w.agents && D.Enabled(w.agents[a].queue.q, d) && !d.Enqueue?
    requires d.Answer? ==> Enabled(w, Answer(a, d.outcome))
    ensures Invariant(WithQueue(w, a, d))
  {
    hide Histories, Tickets, Queues, Fates, M.Invariant, D.Next;
    QueueStepQueues(w, a, d);
    QueueStepFates(w, a, d);
    var v := WithQueue(w, a, d);
    HistoryFrame(w, v);
    forall x | Known(w, x) ensures Known(v, x) {}
  }

  lemma SendKeeps(w: World, a: nat)
    requires Invariant(w) && Enabled(w, Send(a))
    ensures Invariant(Next(w, Send(a)))
  {
    hide Histories, Tickets, Stored, Fates;
    var b := w.agents[a].queue.q.consumer.batch;
    assert D.FlightKnown(w.agents[a].queue);
    assert b in w.agents[a].queue.h.appended;
    assert Known(w, b);
    NetworkKeeps(w, Next(w, Send(a)));
  }

  /** More requests of known batches, or more negative answers, change nothing else. */
  lemma NetworkKeeps(w: World, v: World)
    requires Invariant(w) && w.wire <= v.wire && w.replies <= v.replies
    requires v == w.(wire := v.wire, replies := v.replies)
    requires forall b :: b in v.wire ==> Known(w, b)
    requires forall r :: r in v.replies - w.replies ==> r.1.Permanent? || r.1.Retryable?
    ensures Invariant(v)
  {
    hide Histories, Tickets, M.Invariant, D.Invariant;
    HistoryFrame(w, v);
    forall x | Known(w, x) ensures Known(v, x) {}
    forall id | id in v.minted ensures Accounted(v, v.minted[id]) { assert Accounted(w, w.minted[id]); }
  }

  lemma StoreKeeps(w: World, b: Batch)
    requires Invariant(w) && Enabled(w, Store(b))
    ensures Invariant(DoStore(w, b))
  {
    hide Histories, Tickets, Stored, Fates, D.Invariant;
    assert Known(w, b);
    StoreStored(w, b);
    StoreFates(w, b);
    var v := DoStore(w, b);
    HistoryFrame(w, v);
    forall x | Known(w, x) ensures Known(v, x) {}
  }

  // ---- Runs ----

  /** Nothing observed yet; each agent has its own queue size. */
  function Start(infraPorts: set<nat>, cluster: string, queueSizes: map<nat, int>): World {
    World(infraPorts, map a | a in queueSizes :: Agent([], 0, D.Start(queueSizes[a])), M.Empty(cluster), {}, {},
          [], map[], [], 0)
  }

  ghost predicate CanRun(w: World, steps: seq<Step>)
    decreases |steps|
  {
    steps == [] || (Enabled(w, steps[0]) && CanRun(Next(w, steps[0]), steps[1..]))
  }

  ghost function RunSteps(w: World, steps: seq<Step>): World
    requires CanRun(w, steps)
    decreases |steps|
  {
    if steps == [] then w else RunSteps(Next(w, steps[0]), steps[1..])
  }

  lemma StartHolds(infraPorts: set<nat>, cluster: string, queueSizes: map<nat, int>)
    ensures Invariant(Start(infraPorts, cluster, queueSizes)) && Refusals(Start(infraPorts, cluster, queueSizes))
  {
    var w := Start(infraPorts, cluster, queueSizes);
    forall a, k | a in w.agents
      ensures Scan(ObsItems(w.agents[a].log), iset{k}) == Interval(w, a, w.agents[a].epoch, k)
    {
      assert ObsItems([]) == [] && TagItems([]) == [];
    }
    M.StoreIndexesSurvivors(cluster, []);
  }

  lemma {:induction false} RunKeeps(w: World, steps: seq<Step>)
    requires Invariant(w) && CanRun(w, steps)
    ensures Invariant(RunSteps(w, steps))
    decreases |steps|
  {
    hide Invariant, Enabled, Next;
    if steps != [] {
      StepKeeps(w, steps[0]);
      RunKeeps(Next(w, steps[0]), steps[1..]);
    }
  }

  // ---- Exactly once ----

  ghost function AllTime(k: EdgeKey): iset<M.BucketKey> { iset b: M.BucketKey | b.edge == k }

  /** The intervals these batches were flushed from. */
  ghost predicate FromOneOf(w: World, bs: seq<Batch>, t: Tag) {
    exists b :: b in bs && b.id in w.minted && w.minted[b.id].agent == t.agent && w.minted[b.id].epoch == t.epoch
  }

  ghost function TagsOf(w: World, bs: seq<Batch>, k: EdgeKey): iset<Tag> {
    iset t: Tag | t.edge == k && FromOneOf(w, bs, t)
  }

  lemma BucketsByEdge(edges: seq<Edge>, k: EdgeKey)
    ensures Scan(M.Items(edges), AllTime(k)) == Scan(EdgeItems(edges), iset{k})
  {
    var h := (b: M.BucketKey) => b.edge;
    assert Rekey(M.Items(edges), h) == EdgeItems(edges);
    ScanRekey(M.Items(edges), h, iset{k});
    assert Preimage(h, iset{k}) == AllTime(k);
  }

  lemma EdgeItemsConcat(a: seq<Edge>, b: seq<Edge>)
    ensures EdgeItems(a + b) == EdgeItems(a) + EdgeItems(b)
  {
  }

  lemma OneMoreTag(w: World, bs: seq<Batch>, b: Batch, k: EdgeKey)
    requires Tickets(w) && Known(w, b) && b !in bs
    requires forall x :: x in bs ==> Known(w, x)
    ensures var t := Tag(w.minted[b.id].agent, w.minted[b.id].epoch, k);
      t !in TagsOf(w, bs, k) && TagsOf(w, bs + [b], k) == TagsOf(w, bs, k) + iset{t}
  {
    var m := w.minted[b.id];
    var t := Tag(m.agent, m.epoch, k);
    forall x | x in bs && x.id in w.minted ensures !SameInterval(w.minted[x.id], m) {
      assert Known(w, x);
      assert SameInterval(w.minted[x.id], m) ==> x.id == b.id;
    }
    forall u: Tag ensures FromOneOf(w, bs + [b], u) <==>
      FromOneOf(w, bs, u) || (u.agent == m.agent && u.epoch == m.epoch) {
      assert b in bs + [b];
      forall x ensures x in bs + [b] <==> x in bs || x == b {}
    }
  }

  /** One more ingested batch adds exactly its interval. */
  lemma OneMoreBatch(w: World, bs: seq<Batch>, b: Batch, k: EdgeKey)
    requires Histories(w) && Tickets(w) && Known(w, b) && b !in bs
    requires forall x :: x in bs ==> Known(w, x)
    requires Scan(EdgeItems(StoredEdges(bs)), iset{k}) == Scan(TagItems(w.seen), TagsOf(w, bs, k))
    ensures Scan(EdgeItems(StoredEdges(bs + [b])), iset{k}) == Scan(TagItems(w.seen), TagsOf(w, bs + [b], k))
  {
    var t := Tag(w.minted[b.id].agent, w.minted[b.id].epoch, k);
    assert Scan(EdgeItems(w.minted[b.id].batch.edges), iset{k}) == Interval(w, t.agent, t.epoch, k);
    hide Histories, FromOneOf, Scan;
    OneMoreTag(w, bs, b, k);
    assert (bs + [b])[..|bs|] == bs;
    EdgeItemsConcat(StoredEdges(bs), b.edges);
    ScanConcat(EdgeItems(StoredEdges(bs)), EdgeItems(b.edges), iset{k});
    ScanSplit(TagItems(w.seen), TagsOf(w, bs, k), iset{t});
  }

  lemma {:induction false} IngestedPrefix(w: World, n: nat, k: EdgeKey)
    requires Histories(w) && Tickets(w) && n <= |w.ingested| && D.DistinctIds(w.ingested)
    requires forall x :: x in w.ingested ==> Known(w, x)
    ensures Scan(EdgeItems(StoredEdges(w.ingested[..n])), iset{k}) ==
      Scan(TagItems(w.seen), TagsOf(w, w.ingested[..n], k))
  {
    hide Histories, Tickets, Scan;
    if n == 0 {
      NoTags(w, k);
      assert w.ingested[..0] == [];
    } else {
      var init, b := w.ingested[..n - 1], w.ingested[n - 1];
      IngestedPrefix(w, n - 1, k);
      assert w.ingested[..n] == init + [b];
      forall x | x in init ensures Known(w, x) && x != b {
        var i :| 0 <= i < n - 1 && w.ingested[i] == x;
        assert x in w.ingested;
      }
      assert b in w.ingested;
      OneMoreBatch(w, init, b, k);
    }
  }

  lemma NoTags(w: World, k: EdgeKey)
    ensures Scan(EdgeItems(StoredEdges([])), iset{k}) == Scan(TagItems(w.seen), TagsOf(w, [], k))
  {
    ScanNone(TagItems(w.seen), TagsOf(w, [], k));
    assert EdgeItems([]) == [];
  }

  /** In every reachable state the store holds, for every edge, the observations of the ingested
      intervals, each interval once, however often its batch was sent, lost, repeated or evicted. */
  lemma ExactlyOnce(infraPorts: set<nat>, cluster: string, queueSizes: map<nat, int>, steps: seq<Step>, k: EdgeKey)
    requires CanRun(Start(infraPorts, cluster, queueSizes), steps)
    ensures var w := RunSteps(Start(infraPorts, cluster, queueSizes), steps);
      && M.Invariant(w.store, StoredEdges(w.ingested))
      && Scan(M.Items(StoredEdges(w.ingested)), AllTime(k)) == Scan(TagItems(w.seen), TagsOf(w, w.ingested, k))
  {
    StartHolds(infraPorts, cluster, queueSizes);
    RunKeeps(Start(infraPorts, cluster, queueSizes), steps);
    var w := RunSteps(Start(infraPorts, cluster, queueSizes), steps);
    BucketsByEdge(StoredEdges(w.ingested), k);
    IngestedPrefix(w, |w.ingested|, k);
    assert w.ingested[..|w.ingested|] == w.ingested;
  }

  // ---- What the agent's own validation refuses ----

  /** No observation of the interval names port 0. */
  ghost predicate Clean(w: World, agent: nat, epoch: nat) {
    forall x :: x in w.seen && x.agent == agent && x.epoch == epoch ==> x.obs.port >= 1
  }

  ghost predicate CurrentLog(w: World, a: nat)
    requires a in w.agents
  {
    Genuine(w.infraPorts, w.agents[a].log) && (PortsNamed(w.agents[a].log) <==> Clean(w, a, w.agents[a].epoch))
  }

  /** A batch was refused exactly when its header is faulty or its interval is not clean. */
  ghost predicate Judged(w: World, m: Minted) {
    m.valid <==> HeaderFault(m.batch).None? && Clean(w, m.agent, m.epoch)
  }

  ghost predicate AllValid(minted: map<string, Minted>) { forall id :: id in minted ==> minted[id].valid }

  ghost predicate Refusals(w: World) {
    && (forall a :: a in w.agents ==> CurrentLog(w, a))
    && (forall id :: id in w.minted ==> Judged(w, w.minted[id]))
    && (w.discarded == 0 <==> AllValid(w.minted))
  }

  lemma RefusalsFrame(w: World, v: World)
    requires SameHistory(w, v) && v.infraPorts == w.infraPorts && v.discarded == w.discarded && Refusals(w)
    ensures Refusals(v)
  {
    hide Genuine, PortsNamed, HeaderFault;
    assert forall a, e :: Clean(v, a, e) <==> Clean(w, a, e);
    forall a | a in v.agents ensures CurrentLog(v, a) { assert CurrentLog(w, a); }
    forall id | id in v.minted ensures Judged(v, v.minted[id]) { assert Judged(w, w.minted[id]); }
  }

  lemma ObserveClean(w: World, a: nat, o: Observation, agent: nat, epoch: nat)
    requires Enabled(w, Observe(a, o))
    ensures Clean(Next(w, Observe(a, o)), agent, epoch)
       <==> Clean(w, agent, epoch) && (agent == a && epoch == w.agents[a].epoch ==> o.port >= 1)
  {
    var x := Seen(a, w.agents[a].epoch, o);
    forall y ensures y in w.seen + [x] <==> y in w.seen || y == x {}
  }

  lemma ObserveRefusals(w: World, a: nat, o: Observation)
    requires Tickets(w) && Refusals(w) && Enabled(w, Observe(a, o))
    ensures Refusals(Next(w, Observe(a, o)))
  {
    var v := Next(w, Observe(a, o));
    forall c | c in v.agents ensures CurrentLog(v, c) {
      assert CurrentLog(w, c);
      ObserveClean(w, a, o, c, w.agents[c].epoch);
      LogGrows(w.infraPorts, w.agents[a].log, o);
    }
    hide Captured, Judge;
    forall id | id in v.minted ensures Judged(v, v.minted[id]) {
      assert Judged(w, w.minted[id]);
      ObserveClean(w, a, o, w.minted[id].agent, w.minted[id].epoch);
    }
  }

  lemma LogGrows(infraPorts: set<nat>, log: seq<Observation>, o: Observation)
    ensures Genuine(infraPorts, log + [o]) <==>
      Genuine(infraPorts, log) && Captured(o) && Judge(infraPorts, o).Accepted?
    ensures PortsNamed(log + [o]) <==> PortsNamed(log) && o.port >= 1
  {
    hide Captured, Judge;
    forall x ensures x in log + [o] <==> x in log || x == o {}
  }

  lemma FlushRefusals(w: World, a: nat, b: Batch)
    requires Histories(w) && Refusals(w) && Enabled(w, Flush(a, b))
    ensures Refusals(DoFlush(w, a, b))
  {
    hide Validate, Flushed, D.Next, D.Enabled, HeaderFault, Genuine, Captured;
    var v := DoFlush(w, a, b);
    FlushJudged(w, a, b);
    NothingAhead(w, a);
    hide Histories;
    GenuineNothing(v.infraPorts);
    assert forall c, e :: Clean(v, c, e) <==> Clean(w, c, e);
    forall c | c in v.agents ensures CurrentLog(v, c) { assert CurrentLog(w, c); }
    forall id | id in v.minted ensures Judged(v, v.minted[id]) {
      if id != b.id { assert Judged(w, w.minted[id]); }
    }
    MintedOneMore(w.minted, b.id, v.minted[b.id]);
  }

  lemma FlushJudged(w: World, a: nat, b: Batch)
    requires Refusals(w) && Enabled(w, Flush(a, b))
    ensures Judged(DoFlush(w, a, b), Minted(a, w.agents[a].epoch, b, Validate(b).None?))
  {
    assert CurrentLog(w, a);
    FlushedBatchIsValid(w.infraPorts, w.agents[a].log, b);
    hide Validate, Flushed, D.Next, HeaderFault, Genuine;
  }

  lemma MintedOneMore(minted: map<string, Minted>, id: string, m: Minted)
    requires id !in minted
    ensures AllValid(minted[id := m]) <==> AllValid(minted) && m.valid
  {
    var more := minted[id := m];
    assert id in more && more[id] == m;
    assert forall i :: i in minted ==> i in more && more[i] == minted[i];
    assert forall i :: i in more ==> i == id || (i in minted && more[i] == minted[i]);
  }

  lemma NothingAhead(w: World, a: nat)
    requires Histories(w) && a in w.agents
    ensures Clean(w, a, w.agents[a].epoch + 1)
  {
  }

  lemma GenuineNothing(infraPorts: set<nat>)
    ensures Genuine(infraPorts, [])
  {
  }

  lemma StepKeepsRefusals(w: World, s: Step)
    requires Invariant(w) && Refusals(w) && Enabled(w, s)
    ensures Refusals(Next(w, s))
  {
    match s
    case Observe(a, o) => ObserveRefusals(w, a, o);
    case Flush(a, b) => FlushRefusals(w, a, b);
    case _ =>
      hide Refusals, Invariant;
      OtherStepsKeepHistory(w, s);
      RefusalsFrame(w, Next(w, s));
  }

  lemma OtherStepsKeepHistory(w: World, s: Step)
    requires Enabled(w, s) && !s.Observe? && !s.Flush?
    ensures var v := Next(w, s); SameHistory(w, v) && v.infraPorts == w.infraPorts && v.discarded == w.discarded
  {
    hide D.Next, D.Enabled, M.Ingest, Captured, Flushed;
  }

  lemma {:induction false} RunKeepsRefusals(w: World, steps: seq<Step>)
    requires Invariant(w) && Refusals(w) && CanRun(w, steps)
    ensures Refusals(RunSteps(w, steps))
    decreases |steps|
  {
    hide Invariant, Refusals, Enabled, Next;
    if steps != [] {
      StepKeeps(w, steps[0]);
      StepKeepsRefusals(w, steps[0]);
      RunKeepsRefusals(Next(w, steps[0]), steps[1..]);
    }
  }

  /** The interval's batch passes validation: its header is sound and it is clean. */
  ghost predicate Sendable(w: World, agent: nat, epoch: nat) {
    && Clean(w, agent, epoch)
    && exists id ::
      id in w.minted && w.minted[id].agent == agent && w.minted[id].epoch == epoch &&
      HeaderFault(w.minted[id].batch).None?
  }

  // ---- Nothing lost silently ----

  /** Accumulators and queues are empty, and no agent's counters show a loss. */
  ghost predicate Delivered(w: World) {
    forall a :: a in w.agents ==>
      && w.agents[a].log == []
      && w.agents[a].queue.q.pending == [] && w.agents[a].queue.q.producer.Idle?
      && w.agents[a].queue.q.counters.dropped == 0 && w.agents[a].queue.q.counters.rejected == 0
  }

  function Observations(seen: seq<Seen>): (r: seq<Observation>)
    ensures |r| == |seen|
    ensures forall i :: 0 <= i < |r| ==> r[i] == seen[i].obs
  {
    seq(|seen|, i requires 0 <= i < |seen| => seen[i].obs)
  }

  /** Once everything is delivered, an observation's interval is stored exactly when it was sendable. */
  lemma IngestedIffSendable(w: World, i: nat)
    requires Invariant(w) && Refusals(w) && Delivered(w) && i < |w.seen|
    ensures var x := w.seen[i];
      FromOneOf(w, w.ingested, Tag(x.agent, x.epoch, KeyOf(x.obs))) <==> Sendable(w, x.agent, x.epoch)
  {
    var x := w.seen[i];
    assert x in w.seen;
    IntervalClosed(w, i);
    assert HasTicket(w, x.agent, x.epoch);
    hide Histories;
    var id :| id in w.minted && w.minted[id].agent == x.agent && w.minted[id].epoch == x.epoch;
    ValidIffSendable(w, id);
    hide Refusals, Sendable;
    if w.minted[id].valid {
      MintedIsStored(w, id);
      hide Queues, Fates, Delivered, Tickets;
      var b :| b in w.ingested && b.id == id;
    } else {
      hide Queues, Fates, Delivered;
      NotIngested(w, id);
    }
  }

  lemma ValidIffSendable(w: World, id: string)
    requires Tickets(w) && Refusals(w) && id in w.minted
    ensures w.minted[id].valid <==> Sendable(w, w.minted[id].agent, w.minted[id].epoch)
  {
    hide Genuine, PortsNamed, HeaderFault, Clean;
    var m := w.minted[id];
    assert Judged(w, m);
    assert forall j :: j in w.minted && SameInterval(w.minted[j], m) ==> j == id;
  }

  lemma NotIngested(w: World, id: string)
    requires Stored(w) && Tickets(w) && id in w.minted && !w.minted[id].valid
    ensures forall t: Tag :: t.agent == w.minted[id].agent && t.epoch == w.minted[id].epoch ==>
      !FromOneOf(w, w.ingested, t)
  {
    forall b | b in w.ingested && b.id in w.minted ensures !SameInterval(w.minted[b.id], w.minted[id]) {
      assert Known(w, b);
      assert SameInterval(w.minted[b.id], w.minted[id]) ==> b.id == id;
    }
  }

  lemma MintedIsStored(w: World, id: string)
    requires Queues(w) && Fates(w) && Delivered(w) && id in w.minted && w.minted[id].valid
    ensures w.minted[id].batch.id in w.store.batches
  {
    hide Known;
    var m := w.minted[id];
    assert Accounted(w, m);
    if m.agent in w.agents {
      assert D.Invariant(w.agents[m.agent].queue);
    }
  }

  /** With the accumulators empty, every observation's interval has been flushed. */
  lemma IntervalClosed(w: World, i: nat)
    requires Histories(w) && i < |w.seen| && w.agents[w.seen[i].agent].log == []
    ensures w.seen[i].epoch < w.agents[w.seen[i].agent].epoch
  {
    var x, items := w.seen[i], TagItems(w.seen);
    var k := KeyOf(x.obs);
    assert x in w.seen;
    assert items[i].key in KeysOf(items);
    ScanNone(items, iset{Tag(x.agent, x.epoch, k)});
    assert Scan(ObsItems(w.agents[x.agent].log), iset{k}) == Interval(w, x.agent, w.agents[x.agent].epoch, k);
    assert ObsItems([]) == [];
  }

  ghost function SendableTags(w: World, k: EdgeKey): iset<Tag> {
    iset t: Tag | t.edge == k && Sendable(w, t.agent, t.epoch)
  }

  lemma DeliveredIsSendable(w: World, k: EdgeKey)
    requires Invariant(w) && Refusals(w) && Delivered(w)
    ensures Scan(TagItems(w.seen), TagsOf(w, w.ingested, k)) == Scan(TagItems(w.seen), SendableTags(w, k))
  {
    hide Invariant, Refusals, Delivered, Scan, FromOneOf, Sendable;
    var items := TagItems(w.seen);
    forall i | 0 <= i < |items|
      ensures items[i].key in TagsOf(w, w.ingested, k) <==> items[i].key in SendableTags(w, k)
    {
      IngestedIffSendable(w, i);
    }
    ScanAgree(items, TagsOf(w, w.ingested, k), SendableTags(w, k));
  }

  lemma AllSendable(w: World, k: EdgeKey)
    requires forall i :: 0 <= i < |w.seen| ==> Sendable(w, w.seen[i].agent, w.seen[i].epoch)
    ensures Scan(TagItems(w.seen), SendableTags(w, k)) == Scan(ObsItems(Observations(w.seen)), iset{k})
  {
    hide Scan, Sendable;
    var items, h := TagItems(w.seen), (t: Tag) => t.edge;
    assert Rekey(items, h) == ObsItems(Observations(w.seen));
    ScanRekey(items, h, iset{k});
    assert forall i :: 0 <= i < |items| ==>
      (items[i].key in SendableTags(w, k) <==> items[i].key in Preimage(h, iset{k}));
    ScanAgree(items, SendableTags(w, k), Preimage(h, iset{k}));
  }

  /** With every interval flushed, nothing was refused exactly when every header is sound and no port is 0. */
  lemma NothingRefusedIff(w: World)
    requires Invariant(w) && Refusals(w) && forall a :: a in w.agents ==> w.agents[a].log == []
    ensures w.discarded == 0 <==>
      && (forall id :: id in w.minted ==> HeaderFault(w.minted[id].batch).None?)
      && (forall x :: x in w.seen ==> x.obs.port >= 1)
    ensures w.discarded == 0 ==> forall i :: 0 <= i < |w.seen| ==> Sendable(w, w.seen[i].agent, w.seen[i].epoch)
  {
    hide Genuine, HeaderFault;
    forall i | 0 <= i < |w.seen| ensures HasTicket(w, w.seen[i].agent, w.seen[i].epoch) {
      assert w.seen[i] in w.seen;
      IntervalClosed(w, i);
    }
    hide Histories, Tickets, Queues, Stored, Fates;
    if w.discarded == 0 {
      forall i | 0 <= i < |w.seen| ensures Sendable(w, w.seen[i].agent, w.seen[i].epoch) && w.seen[i].obs.port >= 1 {
        assert HasTicket(w, w.seen[i].agent, w.seen[i].epoch);
        assert w.seen[i] in w.seen;
        var id :| id in w.minted && w.minted[id].agent == w.seen[i].agent && w.minted[id].epoch == w.seen[i].epoch;
        assert Judged(w, w.minted[id]);
      }
    }
    forall id | id in w.minted && w.minted[id].valid ensures HeaderFault(w.minted[id].batch).None? {
      assert Judged(w, w.minted[id]);
    }
  }

  /** The observations of an edge whose interval made a valid batch. */
  ghost function SentOf(w: World, seen: seq<Seen>, k: EdgeKey): seq<Observation> {
    Observations(Select(seen, (x: Seen) => IsOf(x.obs, k) && Sendable(w, x.agent, x.epoch)))
  }

  lemma {:induction false} SentRecounts(w: World, seen: seq<Seen>, k: EdgeKey)
    ensures Recounted(Scan(TagItems(seen), SendableTags(w, k)), SentOf(w, seen, k))
  {
    hide Recounted, Sendable;
    if seen == [] {
      assert TagItems(seen) == [] && SentOf(w, seen, k) == [];
      NothingRecounts();
    } else {
      var init, x := seen[..|seen| - 1], seen[|seen| - 1];
      SentRecounts(w, init, k);
      assert TagItems(seen)[..|seen| - 1] == TagItems(init);
      RecountOneMore(Scan(TagItems(init), SendableTags(w, k)), SentOf(w, init, k), x.obs);
      hide Contribution;
      assert IsOf(x.obs, k) && Sendable(w, x.agent, x.epoch) ==>
        SentOf(w, seen, k) == SentOf(w, init, k) + [x.obs];
    }
  }

  lemma NothingRecounts()
    ensures Recounted(None, [])
  {
  }

  /** The observations of a run, in order. */
  function Observed(steps: seq<Step>): seq<Observation> {
    if steps == [] then []
    else (if steps[0].Observe? then [steps[0].obs] else []) + Observed(steps[1..])
  }

  lemma {:induction false} SeenIsObserved(w: World, steps: seq<Step>)
    requires CanRun(w, steps)
    ensures Observations(RunSteps(w, steps).seen) == Observations(w.seen) + Observed(steps)
    decreases |steps|
  {
    if steps != [] {
      var v := Next(w, steps[0]);
      assert Observations(v.seen) ==
        Observations(w.seen) + if steps[0].Observe? then [steps[0].obs] else [] by { StepSees(w, steps[0]); }
      hide Enabled, Next;
      SeenIsObserved(v, steps[1..]);
    }
  }

  lemma StepSees(w: World, s: Step)
    requires Enabled(w, s)
    ensures Observations(Next(w, s).seen) == Observations(w.seen) + if s.Observe? then [s.obs] else []
  {
    hide Validate, D.Next, D.Enabled, M.Ingest, Flushed, Captured;
  }

  const NO_FILTERS := M.Filters([], "", "", true)

  ghost predicate Covers(window: M.Window, edges: seq<Edge>) {
    forall e :: e in edges ==> window.start <= M.BucketStart(e.tally.last) < window.end
  }

  /**
   Once nothing is on the way and the agents' counters show no loss, an unfiltered query over a window
   that covers the stored buckets answers, for every edge, the fold of exactly the observations whose
   interval made a valid batch: as many connections, failures and timings as there were. What is missing
   is the intervals the agent's own validation refused, of which it keeps no count.
   */
  lemma OnlyRefusedIntervalsAreMissing(
    infraPorts: set<nat>, cluster: string, queueSizes: map<nat, int>, steps: seq<Step>,
    window: M.Window, casefold: string -> string, k: EdgeKey)
    requires CanRun(Start(infraPorts, cluster, queueSizes), steps)
    requires var w := RunSteps(Start(infraPorts, cluster, queueSizes), steps);
      Delivered(w) && Covers(window, StoredEdges(w.ingested))
    ensures var w := RunSteps(Start(infraPorts, cluster, queueSizes), steps);
      var answer := M.Answer(StoredEdges(w.ingested), w.store.nodes, window, NO_FILTERS, casefold, k);
      answer == Scan(TagItems(w.seen), SendableTags(w, k)) && Recounted(answer, SentOf(w, w.seen, k))
  {
    RunIsSound(infraPorts, cluster, queueSizes, steps);
    var w := RunSteps(Start(infraPorts, cluster, queueSizes), steps);
    ExactlyOnce(infraPorts, cluster, queueSizes, steps, k);
    DeliveredIsSendable(w, k);
    WideQuery(w.store, StoredEdges(w.ingested), window, casefold, k);
    SentRecounts(w, w.seen, k);
    hide Recounted;
  }

  lemma RunIsSound(infraPorts: set<nat>, cluster: string, queueSizes: map<nat, int>, steps: seq<Step>)
    requires CanRun(Start(infraPorts, cluster, queueSizes), steps)
    ensures Invariant(RunSteps(Start(infraPorts, cluster, queueSizes), steps))
    ensures Refusals(RunSteps(Start(infraPorts, cluster, queueSizes), steps))
  {
    StartHolds(infraPorts, cluster, queueSizes);
    RunKeeps(Start(infraPorts, cluster, queueSizes), steps);
    RunKeepsRefusals(Start(infraPorts, cluster, queueSizes), steps);
  }

  /** Every observation names a port and every flush writes a sound header. */
  predicate Benign(steps: seq<Step>) {
    forall s :: s in steps ==> (s.Observe? ==> s.obs.port >= 1) && (s.Flush? ==> HeaderFault(s.batch).None?)
  }

  lemma {:induction false} BenignRuns(w: World, steps: seq<Step>)
    requires CanRun(w, steps) && Benign(steps)
    requires forall id :: id in w.minted ==> HeaderFault(w.minted[id].batch).None?
    requires forall x :: x in w.seen ==> x.obs.port >= 1
    ensures forall id :: id in RunSteps(w, steps).minted ==> HeaderFault(RunSteps(w, steps).minted[id].batch).None?
    ensures forall x :: x in RunSteps(w, steps).seen ==> x.obs.port >= 1
    decreases |steps|
  {
    hide HeaderFault;
    if steps != [] {
      assert steps[0] in steps;
      BenignStep(w, steps[0]);
      hide Enabled, Next;
      BenignRuns(Next(w, steps[0]), steps[1..]);
    }
  }

  lemma BenignStep(w: World, s: Step)
    requires Enabled(w, s) && (s.Observe? ==> s.obs.port >= 1) && (s.Flush? ==> HeaderFault(s.batch).None?)
    requires forall id :: id in w.minted ==> HeaderFault(w.minted[id].batch).None?
    requires forall x :: x in w.seen ==> x.obs.port >= 1
    ensures forall id :: id in Next(w, s).minted ==> HeaderFault(Next(w, s).minted[id].batch).None?
    ensures forall x :: x in Next(w, s).seen ==> x.obs.port >= 1
  {
    hide HeaderFault, Validate, D.Next, M.Ingest, Flushed;
    if s.Observe? {
      var x := Seen(s.agent, w.agents[s.agent].epoch, s.obs);
      forall y ensures y in w.seen + [x] <==> y in w.seen || y == x {}
    }
  }

  lemma BenignSends(infraPorts: set<nat>, cluster: string, queueSizes: map<nat, int>, steps: seq<Step>, k: EdgeKey)
    requires CanRun(Start(infraPorts, cluster, queueSizes), steps) && Benign(steps)
    requires Delivered(RunSteps(Start(infraPorts, cluster, queueSizes), steps))
    ensures var w := RunSteps(Start(infraPorts, cluster, queueSizes), steps);
      w.discarded == 0 && Scan(TagItems(w.seen), SendableTags(w, k)) == Scan(ObsItems(Observed(steps)), iset{k})
  {
    var start := Start(infraPorts, cluster, queueSizes);
    RunIsSound(infraPorts, cluster, queueSizes, steps);
    BenignRuns(start, steps);
    SeenIsObserved(start, steps);
    assert Observations(start.seen) + Observed(steps) == Observed(steps);
    hide RunSteps, CanRun, Scan, Sendable;
    var w := RunSteps(start, steps);
    NothingRefusedIff(w);
    hide Invariant, Refusals;
    AllSendable(w, k);
  }

  /** With ports named and headers sound, nothing is refused, and the answer counts every accepted observation. */
  lemma NothingLostSilently(
    infraPorts: set<nat>, cluster: string, queueSizes: map<nat, int>, steps: seq<Step>,
    window: M.Window, casefold: string -> string, k: EdgeKey)
    requires CanRun(Start(infraPorts, cluster, queueSizes), steps) && Benign(steps)
    requires var w := RunSteps(Start(infraPorts, cluster, queueSizes), steps);
      Delivered(w) && Covers(window, StoredEdges(w.ingested))
    ensures var w := RunSteps(Start(infraPorts, cluster, queueSizes), steps);
      && w.discarded == 0
      && Recounted(M.Answer(StoredEdges(w.ingested), w.store.nodes, window, NO_FILTERS, casefold, k),
                   Select(Observed(steps), o => IsOf(o, k)))
  {
    hide Recounted, RunSteps, CanRun, Benign, Delivered, Covers, Scan, Start, M.Answer;
    OnlyRefusedIntervalsAreMissing(infraPorts, cluster, queueSizes, steps, window, casefold, k);
    BenignSends(infraPorts, cluster, queueSizes, steps, k);
    FoldRecounts(Observed(steps), k);
  }

  lemma WideQuery(s: M.Store, edges: seq<Edge>, window: M.Window, casefold: string -> string, k: EdgeKey)
    requires M.Invariant(s, edges) && Covers(window, edges)
    ensures M.Answer(edges, s.nodes, window, NO_FILTERS, casefold, k) == Scan(M.Items(edges), AllTime(k))
  {
    var items := M.Items(edges);
    forall i | 0 <= i < |items| ensures items[i].key in M.InWindow(window, k) <==> items[i].key in AllTime(k) {
      assert edges[i] in edges;
    }
    ScanAgree(items, M.InWindow(window, k), AllTime(k));
    if Scan(items, M.InWindow(window, k)).Some? {
      M.AnsweredEdgeHasNodes(s, edges, window, k);
    }
  }
}
