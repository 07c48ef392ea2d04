/**
 The agent's delivery client: a bounded queue that evicts its oldest batch, one producer that
 enqueues and one consumer that posts, retries and pops by id.

 `Enqueue` takes the queue's lock twice and the counters' lock in between, so the two threads
 interleave at that grain. `Step` lists the atomic sections; `Invariant` holds in every reachable
 state of every interleaving.
 */
module Delivery {
  import opened Tallies
  import opened Contract

  // ---- What a post can come back with ----

  datatype Outcome = Accepted | Duplicate | Permanent | Retryable

  /** Unsendable: the batch or request could not even be built. NoResponse: the exchange failed. */
  datatype Reply = Unsendable | NoResponse | Status(code: int)

  function OutcomeOf(r: Reply): Outcome {
    match r
    case Unsendable => Permanent
    case NoResponse => Retryable
    case Status(code) =>
      if code == 200 then Duplicate
      else if code == 202 then Accepted
      else if code == 408 || code == 429 || code >= 500 then Retryable
      else if code >= 400 then Permanent
      else Retryable
  }

  /** The backend has the batch: it took it in, or says it had it already. */
  predicate Arrived(r: Reply) { r == Status(200) || r == Status(202) }

  /** Trying again may help: nothing came back, the backend is busy or broken, or it said something unexpected. */
  predicate MayHelp(r: Reply) {
    || r.NoResponse?
    || (r.Status? && (r.code >= 500 || r.code == 408 || r.code == 429))
    || (r.Status? && r.code < 400 && !Arrived(r))
  }

  /** Every reply is one of these, or a refusal for good: a client error, or a batch that cannot be sent. */
  lemma RepliesAre(r: Reply)
    ensures Arrived(r) <==> OutcomeOf(r).Accepted? || OutcomeOf(r).Duplicate?
    ensures r == Status(200) <==> OutcomeOf(r).Duplicate?
    ensures MayHelp(r) <==> OutcomeOf(r).Retryable?
    ensures OutcomeOf(r).Permanent? <==>
      r.Unsendable? || (r.Status? && 400 <= r.code < 500 && r.code != 408 && r.code != 429)
  {
  }

  datatype Counters = Counters(sent: nat, duplicate: nat, retried: nat, dropped: nat, rejected: nat, queueHigh: nat)

  /** What one outcome does to the counters. While draining only deliveries are counted. */
  function Count(c: Counters, o: Outcome, draining: bool): Counters {
    match o
    case Accepted => c.(sent := c.sent + 1)
    case Duplicate => if draining then c.(sent := c.sent + 1) else c.(sent := c.sent + 1, duplicate := c.duplicate + 1)
    case Permanent => if draining then c else c.(rejected := c.rejected + 1)
    case Retryable => if draining then c else c.(retried := c.retried + 1)
  }

  /** While draining only what arrives is counted. */
  lemma DrainingCounts(c: Counters, r: Reply)
    ensures Count(c, OutcomeOf(r), true) == if Arrived(r) then c.(sent := c.sent + 1) else c
  {
  }

  function RemoveById(pending: seq<Batch>, id: string): seq<Batch> {
    if pending == [] then []
    else if pending[0].id == id then pending[1..]
    else [pending[0]] + RemoveById(pending[1..], id)
  }

  // ---- The two threads ----

  /** Evicted: the head is gone but not yet counted. Ready: counted, not yet appended. */
  datatype Producer = Idle | Evicted(batch: Batch) | Ready(batch: Batch) | Appended(depth: nat)

  datatype Consumer = Resting | Posting(batch: Batch) | Settled(batch: Batch) | Stopped

  datatype Queue = Queue(
    max: nat, pending: seq<Batch>, counters: Counters, producer: Producer, consumer: Consumer, draining: bool)

  /** Everything ever appended, how many left the front, where the batch in flight stands in it, and
      how many batches were both dropped and settled. */
  datatype History = History(appended: seq<Batch>, gone: nat, flight: nat, both: nat)

  datatype State = State(q: Queue, h: History)

  datatype Step =
    | Enqueue(batch: Batch)   // first locked section: evict if full, else append at once
    | CountDrop               // Dropped++
    | Append                  // second locked section
    | CountDepth              // QueueHigh
    | Peek
    | Answer(outcome: Outcome)
    | GiveUp                  // the context ended while waiting to retry
    | Pop
    | Cancel                  // the context ended while the queue was empty
    | Halt                    // the drain found nothing left, or its deadline passed

  function InFlight(c: Consumer): Option<Batch> {
    match c
    case Posting(b) => Some(b)
    case Settled(b) => Some(b)
    case _ => None
  }

  predicate Enabled(q: Queue, s: Step) {
    match s
    case Enqueue(_) => q.producer.Idle?
    case CountDrop => q.producer.Evicted?
    case Append => q.producer.Ready?
    case CountDepth => q.producer.Appended?
    case Peek => q.consumer.Resting? && q.pending != []
    case Answer(_) => q.consumer.Posting?
    case GiveUp => q.consumer.Posting? && !q.draining
    case Pop => q.consumer.Settled?
    case Cancel => q.consumer.Resting? && !q.draining && q.pending == []
    case Halt => q.consumer.Resting? && q.draining
  }

  function Perform(q: Queue, s: Step): Queue
    requires Enabled(q, s)
  {
    match s
    case Enqueue(b) =>
      if |q.pending| >= q.max && q.pending != [] then q.(pending := q.pending[1..], producer := Evicted(b))
      else q.(pending := q.pending + [b], producer := Appended(|q.pending| + 1))
    case CountDrop =>
      q.(counters := q.counters.(dropped := q.counters.dropped + 1), producer := Ready(q.producer.batch))
    case Append => q.(pending := q.pending + [q.producer.batch], producer := Appended(|q.pending| + 1))
    case CountDepth =>
      q.(counters := q.counters.(queueHigh := Max(q.counters.queueHigh, q.producer.depth)), producer := Idle)
    case Peek => q.(consumer := Posting(q.pending[0]))
    case Answer(o) =>
      var b := q.consumer.batch;
      q.(counters := Count(q.counters, o, q.draining),
         consumer :=
           if o.Accepted? || o.Duplicate? then Settled(b)
           else if q.draining then Stopped
           else if o.Permanent? then Settled(b)
           else Posting(b))
    case GiveUp => q.(consumer := Resting, draining := true)
    case Pop => q.(pending := RemoveById(q.pending, q.consumer.batch.id), consumer := Resting)
    case Cancel => q.(draining := true)
    case Halt => q.(consumer := Stopped)
  }

  /** The batch in flight is still at the front. */
  predicate AtFront(st: State) { st.h.flight == st.h.gone }

  /** Whether this step makes one batch count both as dropped and as settled. */
  predicate CountsTwice(st: State, s: Step)
    requires Enabled(st.q, s)
  {
    match s
    case Enqueue(_) => |st.q.pending| >= st.q.max && st.q.pending != [] && st.q.consumer.Settled? && AtFront(st)
    case Answer(_) => Perform(st.q, s).consumer.Settled? && !AtFront(st)
    case _ => false
  }

  function Record(st: State, s: Step): History
    requires Enabled(st.q, s)
  {
    var q', h := Perform(st.q, s), st.h;
    var h := if CountsTwice(st, s) then h.(both := h.both + 1) else h;
    match s
    case Enqueue(b) => if q'.producer.Evicted? then h.(gone := h.gone + 1) else h.(appended := h.appended + [b])
    case Append => h.(appended := h.appended + [st.q.producer.batch])
    case Peek => h.(flight := h.gone)
    case Pop => if |q'.pending| < |st.q.pending| then h.(gone := h.gone + 1) else h
    case _ => h
  }

  function Next(st: State, s: Step): State
    requires Enabled(st.q, s)
  {
    State(Perform(st.q, s), Record(st, s))
  }

  // ---- The invariant ----

  predicate DistinctIds(bs: seq<Batch>) {
    forall i, j :: 0 <= i < j < |bs| ==> bs[i].id != bs[j].id
  }

  function Held(p: Producer): Option<Batch> {
    match p
    case Evicted(b) => Some(b)
    case Ready(b) => Some(b)
    case _ => None
  }

  /** Batches counted as settled but not popped yet, and evicted but not counted yet. */
  function Unpopped(st: State): nat { if st.q.consumer.Settled? && AtFront(st) then 1 else 0 }

  function Uncounted(q: Queue): nat { if q.producer.Evicted? then 1 else 0 }

  predicate Suffix(st: State) {
    && st.h.gone <= |st.h.appended|
    && st.q.pending == st.h.appended[st.h.gone..]
  }

  predicate FlightKnown(st: State) {
    InFlight(st.q.consumer).Some? ==>
      && st.h.flight <= st.h.gone && st.h.flight < |st.h.appended|
      && st.h.appended[st.h.flight] == InFlight(st.q.consumer).value
  }

  predicate Balanced(st: State) {
    st.q.counters.sent + st.q.counters.rejected + st.q.counters.dropped + |st.q.pending| + Uncounted(st.q)
    == |st.h.appended| + st.h.both + Unpopped(st)
  }

  predicate Invariant(st: State) {
    && 1 <= st.q.max
    && |st.q.pending| + (if Held(st.q.producer).Some? then 1 else 0) <= st.q.max
    && Suffix(st)
    && DistinctIds(st.h.appended)
    && (Held(st.q.producer).Some? ==> forall b :: b in st.h.appended ==> b.id != Held(st.q.producer).value.id)
    && FlightKnown(st)
    && Balanced(st)
  }

  /** Ids are unique: what is enqueued was never enqueued before. */
  predicate FreshId(st: State, s: Step) {
    s.Enqueue? ==> forall b :: b in st.h.appended ==> b.id != s.batch.id
  }

  lemma {:induction false} RemoveAbsent(pending: seq<Batch>, id: string)
    requires forall b :: b in pending ==> b.id != id
    ensures RemoveById(pending, id) == pending
  {
    if pending != [] { RemoveAbsent(pending[1..], id); }
  }

  /** Pop takes out the settled batch if it is still at the front, and otherwise nothing: never a
      batch that is not settled. */
  lemma PopIsSafe(st: State)
    requires Invariant(st) && st.q.consumer.Settled?
    ensures var after := Perform(st.q, Pop).pending;
      if AtFront(st) then st.q.pending != [] && st.q.pending[0] == st.q.consumer.batch && after == st.q.pending[1..]
      else after == st.q.pending && st.q.consumer.batch !in st.q.pending
  {
    var b, h := st.q.consumer.batch, st.h;
    if AtFront(st) {
      assert st.q.pending[0] == h.appended[h.gone];
    } else {
      forall x | x in st.q.pending ensures x.id != b.id {
        var i :| 0 <= i < |st.q.pending| && st.q.pending[i] == x;
        assert x == h.appended[h.gone + i];
      }
      RemoveAbsent(st.q.pending, b.id);
    }
  }

  /** Every atomic step of either thread keeps the invariant. */
  lemma StepKeeps(st: State, s: Step)
    requires Invariant(st) && Enabled(st.q, s) && FreshId(st, s)
    ensures Invariant(Next(st, s))
  {
    match s
    case Enqueue(b) => EnqueueKeeps(st, b);
    case Append => AppendKeeps(st);
    case Peek => PeekKeeps(st);
    case Answer(o) => AnswerKeeps(st, o);
    case Pop => PopKeeps(st);
    case _ => BookkeepingKeeps(st, s);
  }

  lemma PeekKeeps(st: State)
    requires Invariant(st) && Enabled(st.q, Peek)
    ensures Invariant(Next(st, Peek))
  {
    assert st.q.pending[0] == st.h.appended[st.h.gone];
  }

  lemma AnswerKeeps(st: State, o: Outcome)
    requires Invariant(st) && Enabled(st.q, Answer(o))
    ensures Invariant(Next(st, Answer(o)))
  {
  }

  lemma PopKeeps(st: State)
    requires Invariant(st) && Enabled(st.q, Pop)
    ensures Invariant(Next(st, Pop))
  {
    PopIsSafe(st);
  }

  lemma BookkeepingKeeps(st: State, s: Step)
    requires Invariant(st) && Enabled(st.q, s)
    requires s.CountDrop? || s.CountDepth? || s.GiveUp? || s.Cancel? || s.Halt?
    ensures Invariant(Next(st, s))
  {
  }

  lemma EnqueueKeeps(st: State, b: Batch)
    requires Invariant(st) && Enabled(st.q, Enqueue(b)) && FreshId(st, Enqueue(b))
    ensures Invariant(Next(st, Enqueue(b)))
  {
    var h := st.h;
    if |st.q.pending| >= st.q.max {
      assert h.appended[h.gone..][1..] == h.appended[h.gone + 1..];
    } else {
      assert (h.appended + [b])[h.gone..] == h.appended[h.gone..] + [b];
    }
  }

  lemma AppendKeeps(st: State)
    requires Invariant(st) && Enabled(st.q, Append)
    ensures Invariant(Next(st, Append))
  {
    var h, b := st.h, st.q.producer.batch;
    assert (h.appended + [b])[h.gone..] == h.appended[h.gone..] + [b];
  }

  // ---- Whole runs ----

  function Start(max: int): State {
    State(Queue(if max < 1 then 1 else max, [], Counters(0, 0, 0, 0, 0, 0), Idle, Resting, false), History([], 0, 0, 0))
  }

  /** Every step of the run is enabled where it is taken, and ids are never reused. */
  predicate CanRun(st: State, steps: seq<Step>)
    decreases |steps|
  {
    steps == [] || (Enabled(st.q, steps[0]) && FreshId(st, steps[0]) && CanRun(Next(st, steps[0]), steps[1..]))
  }

  function RunSteps(st: State, steps: seq<Step>): State
    requires CanRun(st, steps)
    decreases |steps|
  {
    if steps == [] then st else RunSteps(Next(st, steps[0]), steps[1..])
  }

  lemma {:induction false} RunKeeps(st: State, steps: seq<Step>)
    requires Invariant(st) && CanRun(st, steps)
    ensures Invariant(RunSteps(st, steps))
    decreases |steps|
  {
    if steps != [] {
      StepKeeps(st, steps[0]);
      RunKeeps(Next(st, steps[0]), steps[1..]);
    }
  }

  /** In every reachable state the queue is a contiguous tail of what was enqueued and within its bound;
      once both threads are between operations, every batch is accounted for. */
  lemma QueueInvariant(max: int, steps: seq<Step>)
    requires CanRun(Start(max), steps)
    ensures var st := RunSteps(Start(max), steps);
      && |st.q.pending| <= st.q.max
      && (exists n :: 0 <= n <= |st.h.appended| && st.q.pending == st.h.appended[n..])
      && (st.q.producer.Idle? && InFlight(st.q.consumer).None? ==>
            st.q.counters.sent + st.q.counters.rejected + st.q.counters.dropped + |st.q.pending|
            == |st.h.appended| + st.h.both)
  {
    RunKeeps(Start(max), steps);
    RunKeepsMax(Start(max), steps);
    var st := RunSteps(Start(max), steps);
    assert Suffix(st);
  }

  lemma {:induction false} RunKeepsMax(st: State, steps: seq<Step>)
    requires CanRun(st, steps)
    ensures RunSteps(st, steps).q.max == st.q.max
    decreases |steps|
  {
    if steps != [] { RunKeepsMax(Next(st, steps[0]), steps[1..]); }
  }

  // ---- Why there is one producer ----

  /** A queue with any number of producers; `held` are those that have evicted and not yet appended. */
  datatype Crowd = Crowd(max: nat, producers: nat, pending: seq<Batch>, held: map<nat, Batch>)

  /** A producer enters, a producer that evicted appends, or a batch is popped. */
  datatype Turn = Enter(p: nat, batch: Batch) | Rejoin(p: nat) | Leave(id: string)

  predicate MayTake(c: Crowd, t: Turn) {
    match t
    case Enter(p, _) => p < c.producers && p !in c.held
    case Rejoin(p) => p in c.held
    case Leave(_) => true
  }

  function Take(c: Crowd, t: Turn): Crowd
    requires MayTake(c, t)
  {
    match t
    case Enter(p, b) =>
      if |c.pending| >= c.max && c.pending != [] then c.(pending := c.pending[1..], held := c.held[p := b])
      else c.(pending := c.pending + [b])
    case Rejoin(p) => c.(pending := c.pending + [c.held[p]], held := c.held - {p})
    case Leave(id) => c.(pending := RemoveById(c.pending, id))
  }

  predicate MayTakeAll(c: Crowd, turns: seq<Turn>)
    decreases |turns|, 0
  {
    turns == [] ||
      (MayTakeAll(c, turns[..|turns| - 1]) && MayTake(TakeAll(c, turns[..|turns| - 1]), turns[|turns| - 1]))
  }

  function TakeAll(c: Crowd, turns: seq<Turn>): Crowd
    requires MayTakeAll(c, turns)
    decreases |turns|, 1
  {
    if turns == [] then c else Take(TakeAll(c, turns[..|turns| - 1]), turns[|turns| - 1])
  }

  function UpTo(n: nat): set<nat> { if n == 0 then {} else UpTo(n - 1) + {n - 1} }

  lemma {:induction false} UpToIs(n: nat)
    ensures |UpTo(n)| == n && forall i: nat :: i in UpTo(n) <==> i < n
  {
    if n > 0 { UpToIs(n - 1); }
  }

  predicate Bounded(c: Crowd) {
    && 1 <= c.max && 1 <= c.producers && c.held.Keys <= UpTo(c.producers)
    && |c.pending| + |c.held| <= c.max + c.producers - 1
  }

  lemma {:induction false} RemovalShrinks(pending: seq<Batch>, id: string)
    ensures |RemoveById(pending, id)| <= |pending|
  {
    if pending != [] {
      RemovalShrinks(pending[1..], id);
    }
  }

  lemma TurnKeepsBound(c: Crowd, t: Turn)
    requires Bounded(c) && MayTake(c, t)
    ensures Bounded(Take(c, t))
  {
    match t
    case Enter(p, b) => EnterKeepsBound(c, p, b);
    case Rejoin(p) => RejoinSize(c.held, p);
    case Leave(id) => RemovalShrinks(c.pending, id);
  }

  lemma RejoinSize(held: map<nat, Batch>, p: nat)
    requires p in held
    ensures (held - {p}).Keys == held.Keys - {p} && |held - {p}| == |held| - 1
  {
    assert |held| == |held.Keys| && |held - {p}| == |(held - {p}).Keys|;
  }

  lemma EnterSize(held: map<nat, Batch>, p: nat, b: Batch, n: nat)
    requires held.Keys <= UpTo(n) && p < n && p !in held
    ensures held[p := b].Keys <= UpTo(n) && |held[p := b]| == |held| + 1 <= n
  {
    var all := UpTo(n);
    UpToIs(n);
    assert p in all;
    hide UpTo;
    assert held.Keys <= all - {p};
    SubsetSize(held.Keys, all - {p});
    OneMoreKey(held, p, b);
  }

  lemma OneMoreKey(held: map<nat, Batch>, p: nat, b: Batch)
    requires p !in held
    ensures held[p := b].Keys == held.Keys + {p} && |held[p := b]| == |held| + 1 && |held| == |held.Keys|
  {
    assert |held[p := b]| == |held[p := b].Keys| && |held| == |held.Keys|;
  }

  lemma EnterKeepsBound(c: Crowd, p: nat, b: Batch)
    requires Bounded(c) && p < c.producers && p !in c.held
    ensures Bounded(Take(c, Enter(p, b)))
  {
    hide UpTo;
    EnterSize(c.held, p, b, c.producers);
  }

  /** With n producers the queue never holds more than n - 1 batches over its bound ... */
  lemma {:induction false} ProducersOverrunBy(c: Crowd, turns: seq<Turn>)
    requires 1 <= c.max && 1 <= c.producers && |c.pending| <= c.max && c.held == map[] && MayTakeAll(c, turns)
    ensures Bounded(TakeAll(c, turns)) && TakeAll(c, turns).max == c.max && TakeAll(c, turns).producers == c.producers
    ensures |TakeAll(c, turns).pending| <= c.max + c.producers - 1
  {
    if turns != [] {
      var init := turns[..|turns| - 1];
      ProducersOverrunBy(c, init);
      TurnKeepsBound(TakeAll(c, init), turns[|turns| - 1]);
    }
  }

  lemma AnotherTurn(c: Crowd, turns: seq<Turn>, t: Turn)
    requires MayTakeAll(c, turns) && MayTake(TakeAll(c, turns), t)
    ensures MayTakeAll(c, turns + [t]) && TakeAll(c, turns + [t]) == Take(TakeAll(c, turns), t)
  {
    assert (turns + [t])[..|turns|] == turns;
  }

  /** A full queue with producers 0 to k - 1 waiting to append. */
  predicate Waiting(d: Crowd, max: nat, producers: nat, k: nat) {
    d.max == max && d.producers == producers && |d.pending| == max && d.held.Keys == UpTo(k)
  }

  lemma OneMoreWaits(d: Crowd, max: nat, producers: nat, k: nat, b: Batch)
    requires 1 <= max && k < producers - 1 && Waiting(d, max, producers, k)
    ensures MayTake(d, Enter(k, b)) && MayTake(Take(d, Enter(k, b)), Enter(producers - 1, b))
    ensures Waiting(Take(Take(d, Enter(k, b)), Enter(producers - 1, b)), max, producers, k + 1)
  {
    assert UpTo(k + 1) == UpTo(k) + {k};
    assert k !in UpTo(k) && producers - 1 !in UpTo(k + 1) by { UpToIs(k); UpToIs(k + 1); }
    hide UpTo;
    OneMoreKey(d.held, k, b);
    assert Take(d, Enter(k, b)) == d.(pending := d.pending[1..], held := d.held[k := b]);
  }

  lemma ProducersWait(c: Crowd, b: Batch) returns (turns: seq<Turn>)
    requires 1 <= c.max == |c.pending| && 1 <= c.producers && c.held == map[]
    ensures MayTakeAll(c, turns) && Waiting(TakeAll(c, turns), c.max, c.producers, c.producers - 1)
  {
    turns := [];
    for k := 0 to c.producers - 1
      invariant MayTakeAll(c, turns) && Waiting(TakeAll(c, turns), c.max, c.producers, k)
    {
      hide Waiting, Take, MayTake, TakeAll, MayTakeAll;
      OneMoreWaits(TakeAll(c, turns), c.max, c.producers, k, b);
      AnotherTurn(c, turns, Enter(k, b));
      turns := turns + [Enter(k, b)];
      AnotherTurn(c, turns, Enter(c.producers - 1, b));
      turns := turns + [Enter(c.producers - 1, b)];
    }
  }

  lemma OneRejoins(d: Crowd, all: nat, k: nat)
    requires k < all && d.held.Keys == UpTo(all) - UpTo(k)
    ensures MayTake(d, Rejoin(k)) && |Take(d, Rejoin(k)).pending| == |d.pending| + 1
    ensures Take(d, Rejoin(k)).held.Keys == UpTo(all) - UpTo(k + 1)
  {
    assert UpTo(k + 1) == UpTo(k) + {k};
    assert k in UpTo(all) && k !in UpTo(k) by { UpToIs(all); UpToIs(k); }
    hide UpTo;
    assert (d.held - {k}).Keys == d.held.Keys - {k};
  }

  /** ... and from a full queue some schedule brings it there. */
  lemma ProducersDoOverrun(c: Crowd, b: Batch) returns (turns: seq<Turn>)
    requires 1 <= c.max == |c.pending| && 1 <= c.producers && c.held == map[]
    ensures MayTakeAll(c, turns) && |TakeAll(c, turns).pending| == c.max + c.producers - 1
  {
    turns := ProducersWait(c, b);
    var all := c.producers - 1;
    assert UpTo(all) - UpTo(0) == UpTo(all);
    for k := 0 to all
      invariant MayTakeAll(c, turns)
      invariant |TakeAll(c, turns).pending| == c.max + k && TakeAll(c, turns).held.Keys == UpTo(all) - UpTo(k)
    {
      hide Take, MayTake, TakeAll, MayTakeAll, UpTo;
      OneRejoins(TakeAll(c, turns), all, k);
      AnotherTurn(c, turns, Rejoin(k));
      turns := turns + [Rejoin(k)];
    }
  }

  // ---- The client, one thread's operations at a time ----

  const BASE_BACKOFF_MS := 500
  const MAX_BACKOFF_MS := 30_000

  function Pow2(n: nat): nat { if n == 0 then 1 else 2 * Pow2(n - 1) }

  /** The wait bound before retry n: doubling from the base, capped. */
  function Backoff(n: nat): nat {
    if BASE_BACKOFF_MS * Pow2(n) > MAX_BACKOFF_MS then MAX_BACKOFF_MS else BASE_BACKOFF_MS * Pow2(n)
  }

  lemma BackoffDoubles(n: nat)
    ensures Backoff(n + 1) == if 2 * Backoff(n) > MAX_BACKOFF_MS then MAX_BACKOFF_MS else 2 * Backoff(n)
  {
  }

  /** One attempt: what the post returned, and whether the wait after it ran its course. */
  datatype Exchange = Exchange(reply: Reply, waited: bool)

  /** How many of the exchanges are retries the loop gets past. */
  function Retries(script: seq<Exchange>): nat {
    if script != [] && MayHelp(script[0].reply) && script[0].waited then 1 + Retries(script[1..]) else 0
  }

  class Client {
    const maxSize: nat
    var pending: seq<Batch>
    var counters: Counters

    constructor (maxPending: int)
      ensures maxSize == (if maxPending < 1 then 1 else maxPending) && pending == [] &&
        counters == Counters(0, 0, 0, 0, 0, 0)
    {
      maxSize := if maxPending < 1 then 1 else maxPending;
      pending := [];
      counters := Counters(0, 0, 0, 0, 0, 0);
    }

    function View(p: Producer, c: Consumer, draining: bool): Queue
      reads this
    {
      Queue(maxSize, pending, counters, p, c, draining)
    }

    /** Left alone, Enqueue is its steps in order: the newest maxSize batches stay. */
    method Enqueue(batch: Batch)
      requires 1 <= maxSize
      modifies this
      ensures var q := old(View(Idle, Resting, false));
        var first := Perform(q, Step.Enqueue(batch));
        View(Idle, Resting, false)
        == if first.producer.Evicted? then Perform(Perform(Perform(first, CountDrop), Append), CountDepth)
           else Perform(first, CountDepth)
      ensures |old(pending)| <= maxSize ==> |pending| <= maxSize && pending[|pending| - 1] == batch
      ensures counters.queueHigh == if |pending| > old(counters.queueHigh) then |pending| else old(counters.queueHigh)
      ensures counters.dropped == old(counters.dropped) + if |old(pending)| >= maxSize then 1 else 0
    {
      if |pending| >= maxSize {
        pending := pending[1..];
        counters := counters.(dropped := counters.dropped + 1);
      }
      pending := pending + [batch];
      var depth := |pending|;
      if depth > counters.queueHigh {
        counters := counters.(queueHigh := depth);
      }
    }

    method Peek() returns (head: Option<Batch>)
      ensures head == if pending == [] then None else Some(pending[0])
    {
      head := if |pending| == 0 then None else Some(pending[0]);
    }

    /** By id, not by position: the head may have been evicted since it was peeked. */
    method Pop(id: string)
      modifies this`pending
      ensures pending == RemoveById(old(pending), id)
    {
      for i := 0 to |pending|
        invariant pending == old(pending)
        invariant forall j :: 0 <= j < i ==> pending[j].id != id
      {
        if pending[i].id == id {
          RemoveAt(pending, id, i);
          pending := pending[..i] + pending[i + 1..];
          return;
        }
      }
      RemoveAbsent(pending, id);
    }

    /** Retries until the batch is settled or the context ends, pacing itself by a capped doubling wait. */
    method AttemptWithRetry(script: seq<Exchange>) returns (settled: bool, waits: seq<nat>)
      modifies this`counters
      ensures var n := Retries(script);
        && n <= |script|
        && (forall i :: 0 <= i < |waits| ==> waits[i] == Backoff(i))
        && (settled <==> n < |script| && !MayHelp(script[n].reply))
        && |waits| == (if settled || n == |script| then n else n + 1)
        && counters == (if settled then Count(AddRetries(old(counters), n), OutcomeOf(script[n].reply), false)
                        else AddRetries(old(counters), |waits|))
        && counters.retried == old(counters.retried) + |waits|
        && counters.dropped == old(counters.dropped) && counters.queueHigh == old(counters.queueHigh)
        && counters.sent == old(counters.sent) + (if settled && Arrived(script[n].reply) then 1 else 0)
        && counters.duplicate == old(counters.duplicate) + (if settled && script[n].reply == Status(200) then 1 else 0)
        && counters.rejected == old(counters.rejected) + (if settled && !Arrived(script[n].reply) then 1 else 0)
    {
      var backoff := BASE_BACKOFF_MS;
      waits := [];
      settled := false;
      for attempt := 0 to |script|
        invariant backoff == Backoff(attempt) && |waits| == attempt
        invariant Retries(script) == attempt + Retries(script[attempt..])
        invariant forall i :: 0 <= i < |waits| ==> waits[i] == Backoff(i)
        invariant counters == AddRetries(old(counters), attempt)
      {
        assert script[attempt..][1..] == script[attempt + 1..];
        var outcome := OutcomeOf(script[attempt].reply);
        RepliesAre(script[attempt].reply);
        match outcome {
          case Accepted =>
            counters := counters.(sent := counters.sent + 1);
            settled := true;
            return;
          case Duplicate =>
            counters := counters.(sent := counters.sent + 1, duplicate := counters.duplicate + 1);
            settled := true;
            return;
          case Permanent =>
            counters := counters.(rejected := counters.rejected + 1);
            settled := true;
            return;
          case Retryable =>
            counters := counters.(retried := counters.retried + 1);
        }
        waits := waits + [backoff];
        if !script[attempt].waited {
          return;
        }
        BackoffDoubles(attempt);
        backoff := backoff * 2;
        if backoff > MAX_BACKOFF_MS {
          backoff := MAX_BACKOFF_MS;
        }
      }
    }

    /** One attempt per batch until the queue is empty, a post fails or the deadline passes (the script ends). */
    method Drain(replies: seq<Reply>) returns (delivered: nat)
      requires DistinctIds(pending)
      modifies this
      ensures delivered <= |old(pending)| && delivered <= |replies|
      ensures pending == old(pending)[delivered..]
      ensures counters == old(counters).(sent := old(counters).sent + delivered)
      ensures forall i :: 0 <= i < delivered ==> Arrived(replies[i])
      ensures delivered == |old(pending)| || delivered == |replies| || !Arrived(replies[delivered])
    {
      delivered := 0;
      while delivered < |replies|
        invariant delivered <= |old(pending)| && delivered <= |replies|
        invariant pending == old(pending)[delivered..]
        invariant counters == old(counters).(sent := old(counters).sent + delivered)
        invariant forall i :: 0 <= i < delivered ==> Arrived(replies[i])
      {
        var head := Peek();
        if head.None? {
          return;
        }
        var outcome := OutcomeOf(replies[delivered]);
        RepliesAre(replies[delivered]);
        if outcome.Accepted? || outcome.Duplicate? {
          counters := counters.(sent := counters.sent + 1);
          Pop(head.value.id);
          assert old(pending)[delivered..][1..] == old(pending)[delivered + 1..];
          delivered := delivered + 1;
        } else {
          return;
        }
      }
    }
  }

  function AddRetries(c: Counters, n: nat): Counters { c.(retried := c.retried + n) }

  lemma {:induction false} RemoveAt(pending: seq<Batch>, id: string, i: nat)
    requires i < |pending| && pending[i].id == id
    requires forall j :: 0 <= j < i ==> pending[j].id != id
    ensures RemoveById(pending, id) == pending[..i] + pending[i + 1..]
  {
    if i > 0 {
      RemoveAt(pending[1..], id, i - 1);
      assert RemoveById(pending, id) == [pending[0]] + RemoveById(pending[1..], id);
      hide RemoveById;
      assert pending[1..][..i - 1] == pending[1..i] && pending[1..][i..] == pending[i + 1..];
      assert [pending[0]] + pending[1..i] == pending[..i];
    }
  }
}
