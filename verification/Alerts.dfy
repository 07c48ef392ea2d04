/**
 Alert dispatch: a cooldown per (source, canary, port), one bounded queue, one delivering loop.

 The cooldown table is pruned when it is large; under a clock that never goes back this changes no
 decision. Deliveries wait between attempts; each message ends, per channel, in exactly one counter.
 */
module Alerts {
  import opened Tallies

  const QUEUE_CAPACITY := 100
  const ATTEMPTS := 3
  const MAX_RETRY_AFTER := 30.0
  const COOLDOWN_TABLE_LIMIT := 1024

  // ---------- the cooldown ----------

  datatype Contact = Contact(source: string, canary: string, port: int)

  type Table = map<Contact, real>

  predicate Cooling(table: Table, k: Contact, now: real, cooldown: real) {
    k in table && now - table[k] < cooldown
  }

  function Pruned(table: Table, now: real, cooldown: real): Table {
    map k | k in table && now - table[k] < cooldown :: table[k]
  }

  /** One call: whether a message goes out, and the table after it. */
  function Notify(table: Table, k: Contact, now: real, cooldown: real): (bool, Table) {
    if Cooling(table, k, now, cooldown) then (false, table)
    else (true, (if |table| >= COOLDOWN_TABLE_LIMIT then Pruned(table, now, cooldown) else table)[k := now])
  }

  datatype Call = Call(contact: Contact, now: real)

  predicate Monotone(calls: seq<Call>) {
    forall i, j :: 0 <= i < j < |calls| ==> calls[i].now <= calls[j].now
  }

  /** The table and the decisions after a run of calls. */
  function Run(calls: seq<Call>, cooldown: real): (Table, seq<bool>) {
    if calls == [] then (map[], [])
    else
      var before, c := Run(calls[..|calls| - 1], cooldown), calls[|calls| - 1];
      var (sends, table) := Notify(before.0, c.contact, c.now, cooldown);
      (table, before.1 + [sends])
  }

  /** An earlier call for the same contact sent within the cooldown. */
  predicate Recently(calls: seq<Call>, s: seq<bool>, c: Call, cooldown: real)
    requires |s| == |calls|
  {
    exists i :: 0 <= i < |calls| && s[i] && calls[i].contact == c.contact && c.now - calls[i].now < cooldown
  }

  /** The decisions as they are meant, with no table at all. */
  function Sends(calls: seq<Call>, cooldown: real): (s: seq<bool>)
    ensures |s| == |calls|
  {
    if calls == [] then []
    else
      var n := |calls| - 1;
      var s := Sends(calls[..n], cooldown);
      s + [!Recently(calls[..n], s, calls[n], cooldown)]
  }

  /** What the table must remember: for each contact, its latest message, unless that has cooled down. */
  ghost predicate Remembers(table: Table, calls: seq<Call>, s: seq<bool>, now: real, cooldown: real)
    requires |s| == |calls|
  {
    && (forall k :: k in table ==> exists i :: 0 <= i < |calls| && s[i] && calls[i] == Call(k, table[k]))
    && (forall i :: 0 <= i < |calls| && s[i] && now - calls[i].now < cooldown ==>
      calls[i].contact in table && calls[i].now <= table[calls[i].contact])
  }

  lemma NotifyDecides(table: Table, calls: seq<Call>, s: seq<bool>, c: Call, cooldown: real)
    requires |s| == |calls| && Remembers(table, calls, s, c.now, cooldown)
    ensures Cooling(table, c.contact, c.now, cooldown) <==> Recently(calls, s, c, cooldown)
  {
    if Cooling(table, c.contact, c.now, cooldown) {
      var i :| 0 <= i < |calls| && s[i] && calls[i] == Call(c.contact, table[c.contact]);
    }
  }

  lemma NotifyRemembers(table: Table, calls: seq<Call>, s: seq<bool>, c: Call, cooldown: real)
    requires |s| == |calls| && forall i :: 0 <= i < |calls| ==> calls[i].now <= c.now
    requires Remembers(table, calls, s, c.now, cooldown)
    ensures Remembers(Notify(table, c.contact, c.now, cooldown).1, calls + [c],
      s + [Notify(table, c.contact, c.now, cooldown).0], c.now, cooldown)
  {
    var (sends, table') := Notify(table, c.contact, c.now, cooldown);
    var calls', s' := calls + [c], s + [sends];
    assert forall i :: 0 <= i < |calls| ==> calls'[i] == calls[i] && s'[i] == s[i];
    forall k | k in table' ensures exists i :: 0 <= i < |calls'| && s'[i] && calls'[i] == Call(k, table'[k]) {
      if k == c.contact && sends {
        assert calls'[|calls|] == Call(k, table'[k]);
      } else {
        var i :| 0 <= i < |calls| && s[i] && calls[i] == Call(k, table[k]);
        assert calls'[i] == Call(k, table'[k]);
      }
    }
  }

  lemma LaterRemembers(table: Table, calls: seq<Call>, s: seq<bool>, now: real, later: real, cooldown: real)
    requires |s| == |calls| && now <= later && Remembers(table, calls, s, now, cooldown)
    ensures Remembers(table, calls, s, later, cooldown)
  {
  }

  /** Under a clock that never goes back, the pruned table decides exactly as intended. */
  lemma {:induction false} PrunedDecidesAlike(calls: seq<Call>, cooldown: real, now: real)
    requires Monotone(calls) && forall i :: 0 <= i < |calls| ==> calls[i].now <= now
    ensures Run(calls, cooldown).1 == Sends(calls, cooldown)
    ensures Remembers(Run(calls, cooldown).0, calls, Sends(calls, cooldown), now, cooldown)
  {
    if calls != [] {
      var n := |calls| - 1;
      var init, c := calls[..n], calls[n];
      PrunedDecidesAlike(init, cooldown, c.now);
      assert calls == init + [c];
      hide Remembers, Recently, Monotone, Cooling;
      NotifyDecides(Run(init, cooldown).0, init, Sends(init, cooldown), c, cooldown);
      hide Pruned;
      NotifyRemembers(Run(init, cooldown).0, init, Sends(init, cooldown), c, cooldown);
      LaterRemembers(Run(calls, cooldown).0, calls, Sends(calls, cooldown), c.now, now, cooldown);
    }
  }

  lemma {:induction false} SendsAreSpaced(calls: seq<Call>, cooldown: real, i: nat, j: nat)
    requires i < j < |calls| && calls[i].contact == calls[j].contact
    ensures Sends(calls, cooldown)[i] && Sends(calls, cooldown)[j] ==> calls[j].now - calls[i].now >= cooldown
  {
    var n := |calls| - 1;
    assert calls[..n][i] == calls[i];
    if j < n {
      assert calls[..n][j] == calls[j];
      SendsAreSpaced(calls[..n], cooldown, i, j);
    }
  }

  lemma {:induction false} SilenceHasSent(calls: seq<Call>, cooldown: real, j: nat)
    requires j < |calls| && !Sends(calls, cooldown)[j]
    ensures exists i ::
      0 <= i < j && Sends(calls, cooldown)[i] && calls[i].contact == calls[j].contact &&
      calls[j].now - calls[i].now < cooldown
  {
    var n := |calls| - 1;
    var s := Sends(calls[..n], cooldown);
    if j < n {
      SilenceHasSent(calls[..n], cooldown, j);
      var i :| 0 <= i < j && s[i] && calls[..n][i].contact == calls[..n][j].contact &&
        calls[..n][j].now - calls[..n][i].now < cooldown;
      assert Sends(calls, cooldown)[i];
    } else {
      var i :| 0 <= i < n && s[i] && calls[..n][i].contact == calls[n].contact &&
        calls[n].now - calls[..n][i].now < cooldown;
      assert Sends(calls, cooldown)[i];
    }
  }

  /** Under a clock that never goes back, two messages about one contact are at least the cooldown apart ... */
  lemma MessagesAreSpaced(calls: seq<Call>, cooldown: real, i: nat, j: nat)
    requires Monotone(calls) && i < j < |calls| && calls[i].contact == calls[j].contact
    ensures |Run(calls, cooldown).1| == |calls|
    ensures Run(calls, cooldown).1[i] && Run(calls, cooldown).1[j] ==> calls[j].now - calls[i].now >= cooldown
  {
    PrunedDecidesAlike(calls, cooldown, calls[|calls| - 1].now);
    SendsAreSpaced(calls, cooldown, i, j);
  }

  /** ... and a call stays silent only when a message about its contact went out within the cooldown. */
  lemma SilenceHasACause(calls: seq<Call>, cooldown: real, j: nat)
    requires Monotone(calls) && j < |calls|
    ensures |Run(calls, cooldown).1| == |calls|
    ensures !Run(calls, cooldown).1[j] ==>
      exists i ::
        0 <= i < j && Run(calls, cooldown).1[i] && calls[i].contact == calls[j].contact &&
        calls[j].now - calls[i].now < cooldown
  {
    PrunedDecidesAlike(calls, cooldown, calls[|calls| - 1].now);
    if !Sends(calls, cooldown)[j] {
      SilenceHasSent(calls, cooldown, j);
    }
  }

  // ---------- one delivery ----------

  /** What came back; no status when no response arrived. */
  datatype Reply = Reply(status: Option<int>, retryAfter: Option<real>)

  predicate Accepted(r: Reply) { r.status.Some? && 200 <= r.status.value < 300 }

  predicate Retryable(r: Reply) { r.status.None? || r.status.value == 429 || r.status.value >= 500 }

  function Backoff(attempt: nat): real { if attempt == 1 then 1.0 else 4.0 }

  /** The wait after a failed attempt: at least the backoff, at most what the cap allows. */
  function Delay(attempt: nat, r: Reply): (d: real)
    ensures Backoff(attempt) <= d <= MAX_RETRY_AFTER
    ensures r.retryAfter.Some? && Backoff(attempt) <= r.retryAfter.value <= MAX_RETRY_AFTER ==> d == r.retryAfter.value
    ensures r.retryAfter.Some? && r.retryAfter.value > 30.0 ==> d == 30.0
    ensures r.retryAfter.None? || r.retryAfter.value < 1.0 ==> d == if attempt == 1 then 1.0 else 4.0
  {
    if r.retryAfter.None? then Backoff(attempt)
    else
      var longer := if r.retryAfter.value > Backoff(attempt) then r.retryAfter.value else Backoff(attempt);
      if longer < MAX_RETRY_AFTER then longer else MAX_RETRY_AFTER
  }

  /** The message goes out exactly when one of the first three attempts is accepted and those before it were
      worth repeating. */
  ghost predicate GetsThrough(replies: nat -> Reply) {
    exists n ::
      && 1 <= n <= 3 && replies(n).status.Some? && 200 <= replies(n).status.value <= 299
      && forall m :: 1 <= m < n ==>
        replies(m).status.None? || replies(m).status.value == 429 || replies(m).status.value >= 500
  }

  /** The waits before the nth attempt, together. */
  function Waits(replies: nat -> Reply, n: nat): real {
    if n <= 1 then 0.0 else Waits(replies, n - 1) + Delay(n - 1, replies(n - 1))
  }

  /** `replies(n)` answers the nth attempt. */
  method Deliver(replies: nat -> Reply) returns (sent: bool, attempts: nat, waited: real)
    ensures 1 <= attempts <= ATTEMPTS && 0.0 <= waited <= 60.0
    ensures forall n :: 1 <= n < attempts ==> !Accepted(replies(n)) && Retryable(replies(n))
    ensures sent <==> Accepted(replies(attempts))
    ensures sent <==> GetsThrough(replies)
    ensures !sent ==> attempts == ATTEMPTS || !Retryable(replies(attempts))
    ensures waited == Waits(replies, attempts)
  {
    waited := 0.0;
    attempts := 1;
    while true
      invariant 1 <= attempts <= ATTEMPTS && 0.0 <= waited <= MAX_RETRY_AFTER * (attempts - 1) as real
      invariant forall n :: 1 <= n < attempts ==> !Accepted(replies(n)) && Retryable(replies(n))
      invariant waited == Waits(replies, attempts)
      decreases ATTEMPTS - attempts
    {
      var reply := replies(attempts);
      if Accepted(reply) {
        return true, attempts, waited;
      }
      if !Retryable(reply) || attempts == ATTEMPTS {
        return false, attempts, waited;
      }
      waited := waited + Delay(attempts, reply);
      attempts := attempts + 1;
    }
  }

  // ---------- the dispatcher ----------

  datatype Counts = Counts(sent: nat, failed: nat, dropped: nat) {
    function Total(): nat { sent + failed + dropped }
  }

  class Dispatcher {
    const channels: nat
    const cooldown: real
    var canarySent: Table
    var queue: seq<string>
    var current: Option<string>       // the message being delivered,
    var next: nat                     // and the channel it goes to next
    var counts: seq<Counts>
    ghost var submitted: nat

    /**
     Per channel, every submitted message is counted once, or is queued, or is the one in hand and has
     not reached that channel yet. Any interleaving of the methods below keeps this.
     */
    ghost predicate Valid()
      reads this
    {
      && |counts| == channels && |queue| <= QUEUE_CAPACITY
      && (current.Some? ==> next < channels) && (current.None? ==> next == 0)
      && forall i :: 0 <= i < channels ==>
        counts[i].Total() + |queue| + (if current.Some? && next <= i then 1 else 0) == submitted
    }

    constructor (channels: nat, cooldown: real)
      ensures Valid() && submitted == 0 && queue == [] && current.None? && canarySent == map[]
      ensures this.channels == channels && this.cooldown == cooldown
    {
      this.channels, this.cooldown := channels, cooldown;
      canarySent, queue, current, next, submitted := map[], [], None, 0, 0;
      counts := seq(channels, _ => Counts(0, 0, 0));
    }

    method NotifyCanary(k: Contact, now: real, message: string) returns (ghost sends: bool)
      requires Valid()
      modifies this
      ensures Valid() && (sends, canarySent) == Notify(old(canarySent), k, now, cooldown)
      ensures submitted == old(submitted) + if sends then 1 else 0
      ensures !sends ==> queue == old(queue) && counts == old(counts)
      ensures sends && |old(queue)| < QUEUE_CAPACITY ==> queue == old(queue) + [message] && counts == old(counts)
      ensures current == old(current) && next == old(next)
    {
      if k in canarySent && now - canarySent[k] < cooldown {
        return false;
      }
      if |canarySent| >= COOLDOWN_TABLE_LIMIT {
        canarySent := map t | t in canarySent && now - canarySent[t] < cooldown :: canarySent[t];
      }
      canarySent := canarySent[k := now];
      Submit(message);
      sends := true;
    }

    method Submit(message: string)
      requires Valid()
      modifies this`queue, this`counts, this`submitted
      ensures Valid() && submitted == old(submitted) + 1
      ensures |old(queue)| < QUEUE_CAPACITY ==> queue == old(queue) + [message] && counts == old(counts)
      ensures |old(queue)| == QUEUE_CAPACITY ==>
        queue == old(queue) && forall i :: 0 <= i < channels ==>
        counts[i] == old(counts)[i].(dropped := old(counts)[i].dropped + 1)
    {
      submitted := submitted + 1;
      if |queue| < QUEUE_CAPACITY {
        queue := queue + [message];
      } else {
        for i := 0 to channels
          invariant |counts| == channels && queue == old(queue) && submitted == old(submitted) + 1
          invariant forall j :: 0 <= j < i ==> counts[j] == old(counts)[j].(dropped := old(counts)[j].dropped + 1)
          invariant forall j :: i <= j < channels ==> counts[j] == old(counts)[j]
        {
          counts := counts[i := counts[i].(dropped := counts[i].dropped + 1)];
        }
      }
    }

    /** The loop takes the oldest message. With no channels it is done at once. */
    method Take()
      requires Valid() && current.None? && queue != []
      modifies this
      ensures Valid() && queue == old(queue)[1..] && counts == old(counts) && submitted == old(submitted) &&
        canarySent == old(canarySent)
      ensures channels > 0 ==> current == Some(old(queue)[0]) && next == 0
    {
      if channels > 0 {
        current := Some(queue[0]);
      }
      queue := queue[1..];
    }

    /** The message in hand has been delivered to the next channel, or has failed there. */
    method Settle(delivered: bool)
      requires Valid() && current.Some?
      modifies this
      ensures Valid() && queue == old(queue) && submitted == old(submitted) && canarySent == old(canarySent)
      ensures counts ==
        old(counts)[old(next) :=
        if delivered then old(counts)[old(next)].(sent := old(counts)[old(next)].sent + 1)
        else old(counts)[old(next)].(failed := old(counts)[old(next)].failed + 1)]
      ensures old(next) + 1 < channels ==> current == old(current) && next == old(next) + 1
      ensures old(next) + 1 == channels ==> current.None?
    {
      var c := counts[next];
      counts := counts[next := if delivered then c.(sent := c.sent + 1) else c.(failed := c.failed + 1)];
      next := next + 1;
      if next == channels {
        current, next := None, 0;
      }
    }
  }
}
