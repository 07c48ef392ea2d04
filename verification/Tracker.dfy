/**
 The kernel program that watches TCP state changes (section 3.3.2 of RFC 9293).

 `starts` remembers when a socket entered SYN_SENT, in a bounded map that may forget any entry at any
 time. Each active open that settles becomes one record in a ring buffer, or one counted drop. A
 trace is well formed when each transition leaves the state the socket's previous one entered, a
 socket keeps its family and protocol while in SYN_SENT, and no update of the map fails on a transition
 from SYN_SENT to itself; a socket may be seen for the first time in any state, as when the program is
 attached mid-handshake.
 */
module Tracker {
  import opened Tallies

  const AF_INET := 2
  const IPPROTO_TCP := 6
  const ESTABLISHED := 1
  const SYN_SENT := 2
  const CLOSE := 7
  const SCHEMA_VERSION := 2

  const SUBMITTED := 0
  const DROPPED := 1
  const FILTERED_FAMILY := 2
  const FILTERED_PROTOCOL := 3
  const FILTERED_TRANSITION := 4
  const TRACKING_MISSED := 5
  const TRACKING_FAILED := 6
  const STAT_MAX := 7

  type Byte = x | 0 <= x < 0x100
  type Word = x | 0 <= x < 0x1_0000
  type Double = x | 0 <= x < 0x1_0000_0000
  type Quad = x | 0 <= x < 0x1_0000_0000_0000_0000

  type Address = a: seq<Byte> | |a| == 4 witness [0, 0, 0, 0]

  /** What the tracepoint is handed. */
  datatype Transition = Transition(
    socket: Quad, family: int, protocol: int, oldState: int, newState: int,
    source: Address, target: Address, sourcePort: Word, targetPort: Word)

  /** The record written to the ring buffer. */
  datatype Record = Record(
    timestamp: Quad, pid: Double, source: Address, target: Address, sourcePort: Word, targetPort: Word,
    family: Byte, protocol: Byte, version: Byte, outcome: Byte, durationKnown: Byte, durationUs: Quad)

  /** A state change, with what the kernel helpers answered; or the map dropping an entry. */
  datatype Input =
    | Fire(t: Transition, now: Quad, pid: Double, updateFails: bool, ringFull: bool)
    | Evict(socket: Quad)

  type Starts = map<Quad, Quad>

  datatype State = State(starts: Starts, stats: seq<nat>, ring: seq<Record>)

  predicate IsTcp(t: Transition) { t.family == AF_INET && t.protocol == IPPROTO_TCP }

  predicate Opens(t: Transition) { IsTcp(t) && t.newState == SYN_SENT }

  /** The transitions that settle an active open. */
  predicate Settles(t: Transition) {
    IsTcp(t) && t.oldState == SYN_SENT && (t.newState == ESTABLISHED || t.newState == CLOSE)
  }

  predicate Timed(starts: Starts, t: Transition, now: Quad) {
    t.socket in starts && t.newState == ESTABLISHED && now >= starts[t.socket]
  }

  function RecordOf(starts: Starts, t: Transition, now: Quad, pid: Double): Record {
    var known := Timed(starts, t, now);
    Record(now, pid, t.source, t.target, t.sourcePort, t.targetPort, AF_INET, IPPROTO_TCP, SCHEMA_VERSION,
           if t.newState == CLOSE then 1 else 0, if known then 1 else 0,
             if known then (now - starts[t.socket]) / 1000 else 0)
  }

  function Bump(stats: seq<nat>, i: nat): seq<nat>
    requires i < |stats|
  {
    stats[i := stats[i] + 1]
  }

  // ---------- the program as the source writes it ----------

  class Program {
    var starts: Starts
    const stats: array<nat>
    var ring: seq<Record>

    ghost predicate Valid()
      reads this, stats
    {
      stats.Length == STAT_MAX
    }

    ghost function View(): State
      reads this, stats
    {
      State(starts, stats[..], ring)
    }

    constructor ()
      ensures Valid() && fresh(stats) && View() == Empty()
    {
      starts, ring := map[], [];
      stats := new nat[STAT_MAX](_ => 0);
      new;
      assert stats[..] == Empty().stats;
    }

    method Inc(i: nat)
      requires Valid() && i < STAT_MAX
      modifies stats
      ensures Valid() && stats[..] == Bump(old(stats[..]), i)
    {
      stats[i] := stats[i] + 1;
    }

    method Forget(socket: Quad)
      requires Valid()
      modifies `starts
      ensures Valid() && View() == Next(old(View()), Evict(socket))
    {
      starts := starts - {socket};
    }

    /** One call of the tracepoint handler. */
    method Trace(t: Transition, now: Quad, pid: Double, updateFails: bool, ringFull: bool)
      requires Valid()
      modifies this, stats
      ensures Valid() && View() == Next(old(View()), Fire(t, now, pid, updateFails, ringFull))
    {
      if t.family != AF_INET {
        Inc(FILTERED_FAMILY);
        return;
      }
      if t.protocol != IPPROTO_TCP {
        Inc(FILTERED_PROTOCOL);
        return;
      }
      if t.newState == SYN_SENT {
        if updateFails {
          Inc(TRACKING_FAILED);
        } else {
          starts := starts[t.socket := now];
        }
        return;
      }
      if t.oldState != SYN_SENT || (t.newState != ESTABLISHED && t.newState != CLOSE) {
        if t.oldState == SYN_SENT || t.newState == CLOSE {
          starts := starts - {t.socket};
        }
        Inc(FILTERED_TRANSITION);
        return;
      }
      Settle(t, now, pid, ringFull);
    }

    method Settle(t: Transition, now: Quad, pid: Double, ringFull: bool)
      requires Valid() && Settles(t)
      modifies this, stats
      ensures Valid() && View() == Next(old(View()), Fire(t, now, pid, false, ringFull))
    {
      var durationUs: Quad, durationKnown: Byte := 0, 0;
      if t.socket in starts {
        var start := starts[t.socket];
        if t.newState == ESTABLISHED && now >= start {
          durationUs, durationKnown := (now - start) / 1000, 1;
        }
      } else {
        Inc(TRACKING_MISSED);
      }
      starts := starts - {t.socket};
      if ringFull {
        Inc(DROPPED);
        return;
      }
      ring := ring +
        [Record(now, pid, t.source, t.target, t.sourcePort, t.targetPort, AF_INET, IPPROTO_TCP, SCHEMA_VERSION,
                             if t.newState == CLOSE then 1 else 0, durationKnown, durationUs)];
      Inc(SUBMITTED);
    }
  }

  function Empty(): State { State(map[], [0, 0, 0, 0, 0, 0, 0], []) }

  function AfterSettling(s: State, t: Transition, now: Quad, pid: Double, ringFull: bool): State
    requires |s.stats| == STAT_MAX
  {
    var stats := if t.socket in s.starts then s.stats else Bump(s.stats, TRACKING_MISSED);
    State(s.starts - {t.socket}, Bump(stats, if ringFull then DROPPED else SUBMITTED),
          if ringFull then s.ring else s.ring + [RecordOf(s.starts, t, now, pid)])
  }

  function Next(s: State, input: Input): (s': State)
    requires |s.stats| == STAT_MAX
    ensures |s'.stats| == STAT_MAX
  {
    match input
    case Evict(socket) => s.(starts := s.starts - {socket})
    case Fire(t, now, pid, updateFails, ringFull) =>
      if t.family != AF_INET then s.(stats := Bump(s.stats, FILTERED_FAMILY))
      else if t.protocol != IPPROTO_TCP then s.(stats := Bump(s.stats, FILTERED_PROTOCOL))
      else if t.newState == SYN_SENT then
        (if updateFails then s.(stats := Bump(s.stats, TRACKING_FAILED)) else s.(starts := s.starts[t.socket := now]))
      else if Settles(t) then AfterSettling(s, t, now, pid, ringFull)
      else State(if t.oldState == SYN_SENT || t.newState == CLOSE then s.starts - {t.socket} else s.starts,
                 Bump(s.stats, FILTERED_TRANSITION), s.ring)
  }

  // ---------- the sockets themselves ----------

  /** A socket as last seen: its state, what it is, and when it entered that state. */
  datatype Socket = Socket(state: int, family: int, protocol: int, since: Quad)

  type Sockets = map<Quad, Socket>

  predicate Fits(ks: Sockets, input: Input) {
    input.Fire? ==>
      && !(input.t.oldState == SYN_SENT && input.t.newState == SYN_SENT && input.updateFails)
      && (input.t.socket in ks ==>
            && ks[input.t.socket].state == input.t.oldState
            && (input.t.oldState == SYN_SENT ==>
              ks[input.t.socket].family == input.t.family && ks[input.t.socket].protocol == input.t.protocol))
  }

  function Move(ks: Sockets, input: Input): Sockets {
    match input
    case Evict(_) => ks
    case Fire(t, now, _, _, _) => ks[t.socket := Socket(t.newState, t.family, t.protocol, now)]
  }

  predicate Ipv4Tcp(i: Input) { i.Fire? && i.t.family == AF_INET && i.t.protocol == IPPROTO_TCP }

  /** The sockets whose last transition opened them with a successful update, and were not evicted since. */
  function Note(noted: set<Quad>, input: Input): set<Quad> {
    match input
    case Evict(k) => noted - {k}
    case Fire(t, _, _, updateFails, _) =>
      if Ipv4Tcp(input) && t.newState == SYN_SENT && !updateFails then noted + {t.socket} else noted - {t.socket}
  }

  /** A socket this host is opening, as far as the trace has shown. */
  predicate Opening(ks: Sockets, k: Quad) {
    k in ks && ks[k].state == SYN_SENT && ks[k].family == AF_INET && ks[k].protocol == IPPROTO_TCP
  }

  /** Every remembered start is a socket now in SYN_SENT, mapped to the time it got there. */
  predicate Tracks(ks: Sockets, starts: Starts) {
    forall k :: k in starts ==> Opening(ks, k) && starts[k] == ks[k].since
  }

  lemma NextTracks(ks: Sockets, s: State, input: Input)
    requires |s.stats| == STAT_MAX && Tracks(ks, s.starts) && Fits(ks, input)
    ensures Tracks(Move(ks, input), Next(s, input).starts)
  {
    var ks', starts' := Move(ks, input), Next(s, input).starts;
    forall k | k in starts' ensures Opening(ks', k) && starts'[k] == ks'[k].since {
      if input.Fire? && k == input.t.socket {
        assert Opens(input.t) || k in s.starts;
      }
    }
  }

  /** What is remembered is exactly what the trace shows to be noted. */
  lemma NextNotes(ks: Sockets, s: State, input: Input)
    requires |s.stats| == STAT_MAX && Tracks(ks, s.starts) && Fits(ks, input)
    ensures Next(s, input).starts.Keys == Note(s.starts.Keys, input)
  {
    if input.Fire? && !Opens(input.t) {
      assert input.t.socket in s.starts ==> Opening(ks, input.t.socket);
    }
  }

  /** Why a failed update on SYN_SENT to SYN_SENT is left out: the old start would stay. */
  lemma ReopeningBreaksTracking(ks: Sockets, s: State, input: Input)
    requires |s.stats| == STAT_MAX && Tracks(ks, s.starts) && input.Fire? && Opens(input.t) && input.updateFails
    requires input.t.socket in s.starts && s.starts[input.t.socket] != input.now
    ensures !Tracks(Move(ks, input), Next(s, input).starts)
  {
    assert Next(s, input).starts[input.t.socket] != Move(ks, input)[input.t.socket].since;
  }

  // ---------- whole traces ----------

  ghost predicate WellFormed(ks: Sockets, inputs: seq<Input>)
    decreases |inputs|
  {
    inputs == [] || (Fits(ks, inputs[0]) && WellFormed(Move(ks, inputs[0]), inputs[1..]))
  }

  function Run(s: State, inputs: seq<Input>): (s': State)
    requires |s.stats| == STAT_MAX
    ensures |s'.stats| == STAT_MAX
    decreases |inputs|
  {
    if inputs == [] then s else Run(Next(s, inputs[0]), inputs[1..])
  }

  function After(ks: Sockets, inputs: seq<Input>): Sockets
    decreases |inputs|
  {
    if inputs == [] then ks else After(Move(ks, inputs[0]), inputs[1..])
  }

  /** In every reachable state, whatever was evicted, failed or dropped on the way. */
  lemma {:induction false} RunTracks(ks: Sockets, s: State, inputs: seq<Input>)
    requires |s.stats| == STAT_MAX && Tracks(ks, s.starts) && WellFormed(ks, inputs)
    ensures Tracks(After(ks, inputs), Run(s, inputs).starts)
    decreases |inputs|
  {
    if inputs != [] {
      NextTracks(ks, s, inputs[0]);
      RunTracks(Move(ks, inputs[0]), Next(s, inputs[0]), inputs[1..]);
    }
  }

  /** An active open that settled: the transition, when the attempt began if the trace showed it, and whether
      that start was noted and still remembered. */
  datatype Attempt = Attempt(t: Transition, now: Quad, began: Option<Quad>, noted: bool)
  {
    /** A connection that succeeded, whose start was kept and does not lie in the future. */
    predicate Measurable() { t.newState == ESTABLISHED && noted && began.Some? && began.value <= now }
  }

  /** An IPv4 TCP socket leaves SYN_SENT for ESTABLISHED or CLOSE. */
  predicate Settling(i: Input) {
    && Ipv4Tcp(i)
    && i.t.oldState == SYN_SENT && i.t.newState in {ESTABLISHED, CLOSE}
  }

  predicate Reported(i: Input) { Settling(i) && !i.ringFull }

  /** The attempts a trace reports, read off the sockets rather than off the tracker's map. */
  function Attempts(ks: Sockets, noted: set<Quad>, inputs: seq<Input>): seq<Attempt>
    decreases |inputs|
  {
    if inputs == [] then []
    else
      var rest := Attempts(Move(ks, inputs[0]), Note(noted, inputs[0]), inputs[1..]);
      if Reported(inputs[0]) then [AttemptOf(ks, noted, inputs[0])] + rest else rest
  }

  /** The record tells the attempt as it was; it has a duration, its own, exactly when there is one to tell. */
  predicate Tells(r: Record, a: Attempt) {
    && r.timestamp == a.now && (r.outcome == 1 <==> a.t.newState == CLOSE)
    && r.source == a.t.source && r.target == a.t.target && r.sourcePort == a.t.sourcePort &&
      r.targetPort == a.t.targetPort
    && (r.durationKnown == 1 <==> a.Measurable())
    && (a.Measurable() ==> r.durationUs == (a.now - a.began.value) / 1000)
  }

  predicate TellsAll(rs: seq<Record>, attempts: seq<Attempt>) {
    |rs| == |attempts| && forall i :: 0 <= i < |rs| ==> Tells(rs[i], attempts[i])
  }

  function AttemptOf(ks: Sockets, noted: set<Quad>, input: Input): Attempt
    requires Reported(input)
  {
    Attempt(input.t, input.now, if input.t.socket in ks then Some(ks[input.t.socket].since) else None,
            input.t.socket in noted)
  }

  lemma NextReports(ks: Sockets, s: State, input: Input)
    requires |s.stats| == STAT_MAX && Tracks(ks, s.starts)
    ensures if Reported(input)
      then |Next(s, input).ring| == |s.ring| + 1 && Next(s, input).ring[..|s.ring|] == s.ring &&
      Tells(Next(s, input).ring[|s.ring|], AttemptOf(ks, s.starts.Keys, input)) else Next(s, input).ring == s.ring
  {
    if Reported(input) {
      assert input.t.socket in s.starts ==> Opening(ks, input.t.socket);
    }
  }

  lemma TellsOneMore(ring: seq<Record>, n: nat, a: Attempt, rest: seq<Attempt>)
    requires n < |ring| && Tells(ring[n], a) && TellsAll(ring[n + 1..], rest)
    ensures TellsAll(ring[n..], [a] + rest)
  {
    hide Tells;
    assert ring[n..] == [ring[n]] + ring[n + 1..];
  }

  /** The ring buffer receives exactly the reported attempts, in order, each told truthfully. */
  lemma {:induction false} RingTellsAttempts(ks: Sockets, s: State, inputs: seq<Input>)
    requires |s.stats| == STAT_MAX && Tracks(ks, s.starts) && WellFormed(ks, inputs)
    ensures |s.ring| <= |Run(s, inputs).ring| && Run(s, inputs).ring[..|s.ring|] == s.ring
    ensures TellsAll(Run(s, inputs).ring[|s.ring|..], Attempts(ks, s.starts.Keys, inputs))
    decreases |inputs|
  {
    if inputs != [] {
      var s1, ks1 := Next(s, inputs[0]), Move(ks, inputs[0]);
      NextTracks(ks, s, inputs[0]);
      NextNotes(ks, s, inputs[0]);
      RingTellsAttempts(ks1, s1, inputs[1..]);
      var ring := Run(s, inputs).ring;
      NextReports(ks, s, inputs[0]);
      hide Next, Tells, Tracks, Move, Note, TellsAll, Fits;
      if Reported(inputs[0]) {
        assert ring[..|s.ring|] == ring[..|s1.ring|][..|s.ring|];
        assert ring[|s.ring|] == ring[..|s1.ring|][|s.ring|];
        TellsOneMore(ring, |s.ring|, AttemptOf(ks, s.starts.Keys, inputs[0]),
                     Attempts(ks1, s1.starts.Keys, inputs[1..]));
      }
    }
  }

  function Count(inputs: seq<Input>, p: Input -> bool): nat {
    if inputs == [] then 0 else (if p(inputs[0]) then 1 else 0) + Count(inputs[1..], p)
  }

  predicate OtherFamily(i: Input) { i.Fire? && i.t.family != AF_INET }
  predicate OtherProtocol(i: Input) { i.Fire? && i.t.family == AF_INET && i.t.protocol != IPPROTO_TCP }
  predicate Irrelevant(i: Input) { Ipv4Tcp(i) && i.t.newState != SYN_SENT && !Settling(i) }
  predicate OpenUntracked(i: Input) { Ipv4Tcp(i) && i.t.newState == SYN_SENT && i.updateFails }

  /** How far a counter has moved. */
  function Grown(s: State, s': State, i: nat): int
    requires i < |s.stats| && i < |s'.stats|
  {
    s'.stats[i] as int - s.stats[i] as int
  }

  /**
   The counters are a partition of the trace: every active open that settled was either submitted or
   counted as dropped, and every other transition under the one heading it belongs to.
   */
  lemma {:induction false} CountersPartition(s: State, inputs: seq<Input>)
    requires |s.stats| == STAT_MAX
    ensures Grown(s, Run(s, inputs), SUBMITTED) + Grown(s, Run(s, inputs), DROPPED) == Count(inputs, Settling)
    ensures Grown(s, Run(s, inputs), SUBMITTED) == |Run(s, inputs).ring| - |s.ring|
    ensures Grown(s, Run(s, inputs), FILTERED_FAMILY) == Count(inputs, OtherFamily)
    ensures Grown(s, Run(s, inputs), FILTERED_PROTOCOL) == Count(inputs, OtherProtocol)
    ensures Grown(s, Run(s, inputs), FILTERED_TRANSITION) == Count(inputs, Irrelevant)
    ensures Grown(s, Run(s, inputs), TRACKING_FAILED) == Count(inputs, OpenUntracked)
    decreases |inputs|
  {
    if inputs != [] {
      StepCounts(s, inputs[0]);
      hide Next, Settling, OtherFamily, OtherProtocol, Irrelevant, OpenUntracked;
      CountersPartition(Next(s, inputs[0]), inputs[1..]);
    }
  }

  lemma StepCounts(s: State, i: Input)
    requires |s.stats| == STAT_MAX
    ensures Grown(s, Next(s, i), SUBMITTED) + Grown(s, Next(s, i), DROPPED) == if Settling(i) then 1 else 0
    ensures Grown(s, Next(s, i), SUBMITTED) == |Next(s, i).ring| - |s.ring|
    ensures Grown(s, Next(s, i), FILTERED_FAMILY) == if OtherFamily(i) then 1 else 0
    ensures Grown(s, Next(s, i), FILTERED_PROTOCOL) == if OtherProtocol(i) then 1 else 0
    ensures Grown(s, Next(s, i), FILTERED_TRANSITION) == if Irrelevant(i) then 1 else 0
    ensures Grown(s, Next(s, i), TRACKING_FAILED) == if OpenUntracked(i) then 1 else 0
  {
    hide RecordOf;
  }

  // ---------- timing is lost only for a reason ----------

  /** Active opens under way whose start is not remembered. */
  function Lost(ks: Sockets, starts: Starts): set<Quad> {
    set k | k in ks && Opening(ks, k) && k !in starts
  }

  /** Settled attempts of sockets first seen when they settled. */
  function Unseen(ks: Sockets, inputs: seq<Input>): nat
    decreases |inputs|
  {
    if inputs == [] then 0
    else
      var late := Settling(inputs[0]) && inputs[0].t.socket !in ks;
      Unseen(Move(ks, inputs[0]), inputs[1..]) + if late then 1 else 0
  }

  predicate IsEviction(i: Input) { i.Evict? }

  lemma Shrinks(small: set<Quad>, big: set<Quad>, k: Quad)
    ensures small <= big ==> |small| <= |big|
    ensures small <= big + {k} ==> |small| <= |big| + 1
    ensures small <= big - {k} && k in big ==> |small| <= |big| - 1
  {
    if small <= big { SubsetSize(small, big); }
    if small <= big + {k} { SubsetSize(small, big + {k}); }
    if small <= big - {k} && k in big { SubsetSize(small, big - {k}); }
  }

  lemma StepLosesForAReason(ks: Sockets, s: State, input: Input)
    requires |s.stats| == STAT_MAX && Tracks(ks, s.starts) && Fits(ks, input)
    ensures |Lost(Move(ks, input), Next(s, input).starts)| + Grown(s, Next(s, input), TRACKING_MISSED)
              <= |Lost(ks, s.starts)| + Grown(s, Next(s, input), TRACKING_FAILED) + Count([input], IsEviction) +
                Unseen(ks, [input])
  {
    var s', ks' := Next(s, input), Move(ks, input);
    var before, now := Lost(ks, s.starts), Lost(ks', s'.starts);
    if input.Evict? {
      assert now <= before + {input.socket};
      Shrinks(now, before, input.socket);
    } else {
      var k := input.t.socket;
      Shrinks(now, before, k);
      if Opens(input.t) {
        assert input.updateFails ==> now <= before + {k};
        assert !input.updateFails ==> now <= before;
      } else {
        assert now <= before - {k};
        assert Settles(input.t) && k in ks && k !in s.starts ==> k in before;
      }
    }
  }

  /**
   Every settled attempt whose start was not found is paid for by an eviction, a failed map update or
   a socket first seen mid-handshake.
   */
  lemma {:induction false} MissesAreExplained(ks: Sockets, s: State, inputs: seq<Input>)
    requires |s.stats| == STAT_MAX && Tracks(ks, s.starts) && WellFormed(ks, inputs)
    ensures |Lost(After(ks, inputs), Run(s, inputs).starts)| + Grown(s, Run(s, inputs), TRACKING_MISSED)
              <= |Lost(ks, s.starts)| + Grown(s, Run(s, inputs), TRACKING_FAILED) + Count(inputs, IsEviction) +
                Unseen(ks, inputs)
    decreases |inputs|
  {
    if inputs != [] {
      StepLosesForAReason(ks, s, inputs[0]);
      NextTracks(ks, s, inputs[0]);
      MissesAreExplained(Move(ks, inputs[0]), Next(s, inputs[0]), inputs[1..]);
      assert Count([inputs[0]], IsEviction) == if IsEviction(inputs[0]) then 1 else 0;
      assert Unseen(ks, [inputs[0]]) + Unseen(Move(ks, inputs[0]), inputs[1..]) == Unseen(ks, inputs);
    }
  }

  /** Settled attempts whose start was not noted, or no longer. */
  function Untimed(noted: set<Quad>, inputs: seq<Input>): nat
    decreases |inputs|
  {
    if inputs == [] then 0
    else
      Untimed(Note(noted, inputs[0]), inputs[1..]) +
        if Settling(inputs[0]) && inputs[0].t.socket !in noted then 1 else 0
  }

  /** And each of those is counted, dropped records included. */
  lemma {:induction false} MissesAreCounted(ks: Sockets, s: State, inputs: seq<Input>)
    requires |s.stats| == STAT_MAX && Tracks(ks, s.starts) && WellFormed(ks, inputs)
    ensures Grown(s, Run(s, inputs), TRACKING_MISSED) == Untimed(s.starts.Keys, inputs)
    decreases |inputs|
  {
    if inputs != [] {
      var s1 := Next(s, inputs[0]);
      NextTracks(ks, s, inputs[0]);
      NextNotes(ks, s, inputs[0]);
      MissesAreCounted(Move(ks, inputs[0]), s1, inputs[1..]);
      hide RecordOf, Note, Move, Tracks, Fits;
    }
  }

  // ---------- the 40-byte record ----------

  function LittleEndian(n: nat, width: nat): (b: seq<Byte>)
    ensures |b| == width
  {
    if width == 0 then [] else [n % 0x100] + LittleEndian(n / 0x100, width - 1)
  }

  function Value(b: seq<Byte>): nat {
    if b == [] then 0 else b[0] + 0x100 * Value(b[1..])
  }

  function Capacity(width: nat): nat { if width == 0 then 1 else 0x100 * Capacity(width - 1) }

  lemma {:induction false} ReadsBack(n: nat, width: nat)
    requires n < Capacity(width)
    ensures Value(LittleEndian(n, width)) == n
  {
    if width > 0 {
      ReadsBack(n / 0x100, width - 1);
      assert LittleEndian(n, width)[1..] == LittleEndian(n / 0x100, width - 1);
    }
  }

  lemma {:induction false} WritesBack(b: seq<Byte>)
    ensures Value(b) < Capacity(|b|)
    ensures LittleEndian(Value(b), |b|) == b
  {
    if b != [] {
      WritesBack(b[1..]);
      LowByte(b[0], Value(b[1..]));
      assert LittleEndian(Value(b), |b|) == [b[0]] + LittleEndian(Value(b[1..]), |b| - 1);
    }
  }

  lemma LowByte(x: Byte, v: nat)
    ensures (x + 0x100 * v) % 0x100 == x && (x + 0x100 * v) / 0x100 == v
  {
  }

  lemma Widths()
    ensures Capacity(2) == 0x1_0000 && Capacity(4) == 0x1_0000_0000 && Capacity(8) == 0x1_0000_0000_0000_0000
  {
    assert Capacity(1) == 0x100 && Capacity(3) == 0x100_0000;
    assert Capacity(5) == 0x100_0000_0000 && Capacity(6) == 0x1_0000_0000_0000 && Capacity(7) == 0x100_0000_0000_0000;
  }

  const EVENT_SIZE := 40

  /** The record as the compiler lays the struct out. */
  function Layout(r: Record): (b: seq<Byte>)
    ensures |b| == EVENT_SIZE
  {
    LittleEndian(r.timestamp, 8) + LittleEndian(r.pid, 4) + r.source + r.target
    + LittleEndian(r.sourcePort, 2) + LittleEndian(r.targetPort, 2)
    + [r.family, r.protocol, r.version, r.outcome, r.durationKnown, 0, 0, 0]
    + LittleEndian(r.durationUs, 8)
  }

  function Unmarshal(b: seq<Byte>): Record
    requires |b| >= EVENT_SIZE
  {
    Widths();
    WritesBack(b[0..8]); WritesBack(b[8..12]);
    WritesBack(b[20..22]); WritesBack(b[22..24]); WritesBack(b[32..40]);
    Record(Value(b[0..8]), Value(b[8..12]), b[12..16], b[16..20], Value(b[20..22]), Value(b[22..24]),
           b[24], b[25], b[26], b[27], b[28], Value(b[32..40]))
  }

  datatype Event = Event(
    failed: bool, latencyUs: Option<nat>, timestamp: Quad, pid: Double,
    source: Address, target: Address, sourcePort: Word, targetPort: Word)

  datatype Decoded = Ok(event: Event) | TooShort | WrongVersion | BadFlags

  const INT64_MAX := 0x7FFF_FFFF_FFFF_FFFF

  function Decode(b: seq<Byte>): Decoded {
    if |b| < EVENT_SIZE then TooShort
    else
      var r := Unmarshal(b);
      if r.version != SCHEMA_VERSION then WrongVersion
      else if r.outcome > 1 || r.durationKnown > 1 || r.durationUs > INT64_MAX ||
        (r.outcome == 1 && r.durationKnown != 0) || (r.durationKnown == 0 && r.durationUs != 0) then BadFlags
      else Ok(Event(r.outcome == 1, if r.durationKnown == 1 then Some(r.durationUs) else None, r.timestamp, r.pid,
        r.source, r.target, r.sourcePort, r.targetPort))
  }

  /** The offsets at which the fields of a record lie. */
  lemma FieldOffsets(a: seq<Byte>, b: seq<Byte>, c: seq<Byte>, d: seq<Byte>, e: seq<Byte>, f: seq<Byte>, g: seq<Byte>,
      h: seq<Byte>, rest: seq<Byte>)
    requires |a| == 8 && |b| == 4 && |c| == 4 && |d| == 4 && |e| == 2 && |f| == 2 && |g| == 8 && |h| == 8
    ensures var w := a + b + c + d + e + f + g + h + rest;
      && w[0..8] == a && w[8..12] == b && w[12..16] == c && w[16..20] == d && w[20..22] == e && w[22..24] == f &&
        w[32..40] == h
      && w[24] == g[0] && w[25] == g[1] && w[26] == g[2] && w[27] == g[3] && w[28] == g[4]
  {
  }

  /** Where the fields lie, least significant byte first. */
  lemma LayoutIs(r: Record)
    ensures var b := Layout(r);
      && b[20] == r.sourcePort % 0x100 && b[21] == r.sourcePort / 0x100
      && b[22] == r.targetPort % 0x100 && b[23] == r.targetPort / 0x100
      && b[12..16] == r.source && b[16..20] == r.target
      && b[24] == r.family && b[25] == r.protocol && b[26] == r.version && b[27] == r.outcome
      && b[28] == r.durationKnown && b[29..32] == [0, 0, 0]
      && b[0..8] == LittleEndian(r.timestamp, 8) && b[8..12] == LittleEndian(r.pid, 4)
      && b[32..40] == LittleEndian(r.durationUs, 8)
  {
    TwoBytes(r.sourcePort);
    TwoBytes(r.targetPort);
    hide LittleEndian;
    var b := Layout(r);
    FieldOffsets(LittleEndian(r.timestamp, 8), LittleEndian(r.pid, 4), r.source, r.target,
                 LittleEndian(r.sourcePort, 2), LittleEndian(r.targetPort, 2),
                 [r.family, r.protocol, r.version, r.outcome, r.durationKnown, 0, 0, 0],
                 LittleEndian(r.durationUs, 8), []);
    assert b + [] == b;
    assert b[20] == b[20..22][0] && b[21] == b[20..22][1] && b[22] == b[22..24][0] && b[23] == b[22..24][1];
  }

  lemma TwoBytes(n: Word)
    ensures LittleEndian(n, 2) == [n % 0x100, n / 0x100]
  {
    assert LittleEndian(n / 0x100 / 0x100, 0) == [];
    assert LittleEndian(n / 0x100, 1) == [n / 0x100 % 0x100];
  }

  /** Reading what was written gives every field back, whatever follows the record in the buffer. */
  lemma RecordRoundTrip(r: Record, rest: seq<Byte>)
    ensures Unmarshal(Layout(r) + rest) == r
  {
    Widths();
    ReadsBack(r.timestamp, 8); ReadsBack(r.pid, 4); ReadsBack(r.sourcePort, 2); ReadsBack(r.targetPort, 2);
      ReadsBack(r.durationUs, 8);
    hide LittleEndian, Value, Capacity;
    FieldOffsets(LittleEndian(r.timestamp, 8), LittleEndian(r.pid, 4), r.source, r.target,
                 LittleEndian(r.sourcePort, 2), LittleEndian(r.targetPort, 2),
                 [r.family, r.protocol, r.version, r.outcome, r.durationKnown, 0, 0, 0], LittleEndian(r.durationUs, 8),
                   rest);
  }

  lemma Rejoined(b: seq<Byte>)
    requires |b| == EVENT_SIZE && b[29..32] == [0, 0, 0]
    ensures b ==
      b[0..8] + b[8..12] + b[12..16] + b[16..20] + b[20..22] + b[22..24] +
      [b[24], b[25], b[26], b[27], b[28], 0, 0, 0] + b[32..40]
  {
    assert b[29] == b[29..32][0] && b[30] == b[29..32][1] && b[31] == b[29..32][2];
    assert b[24..32] == [b[24], b[25], b[26], b[27], b[28], 0, 0, 0];
    assert b == b[..24] + b[24..32] + b[32..40];
    assert b[..24] == b[0..8] + b[8..12] + b[12..16] + b[16..20] + b[20..22] + b[22..24];
  }

  /** And writing what was read gives the bytes back: nothing but the padding is left unread. */
  lemma BytesRoundTrip(b: seq<Byte>)
    requires |b| == EVENT_SIZE && b[29..32] == [0, 0, 0]
    ensures Layout(Unmarshal(b)) == b
  {
    WritesBack(b[0..8]); WritesBack(b[8..12]); WritesBack(b[20..22]); WritesBack(b[22..24]); WritesBack(b[32..40]);
    hide LittleEndian, Value, Capacity;
    Rejoined(b);
  }

  /**
   What the program emits, the agent accepts: for all 64-bit clocks the decoder reaches none of its
   error branches, and the event says exactly what the record meant.
   */
  lemma EmittedDecodes(starts: Starts, t: Transition, now: Quad, pid: Double, rest: seq<Byte>)
    requires Settles(t)
    ensures Decode(Layout(RecordOf(starts, t, now, pid)) + rest) ==
      Ok(Event(t.newState == CLOSE,
               if t.newState == ESTABLISHED && t.socket in starts && starts[t.socket] <= now
               then Some((now - starts[t.socket]) / 1000) else None,
               now, pid, t.source, t.target, t.sourcePort, t.targetPort))
  {
    RecordRoundTrip(RecordOf(starts, t, now, pid), rest);
  }

  /** The flags of a record as the decoder wants them. */
  predicate Sound(r: Record) {
    && r.version == SCHEMA_VERSION && r.outcome <= 1 && r.durationKnown <= 1 && r.durationUs <= INT64_MAX
    && (r.outcome == 1 ==> r.durationKnown == 0) && (r.durationKnown == 0 ==> r.durationUs == 0)
  }

  function EventOf(r: Record): Event {
    Event(r.outcome == 1, if r.durationKnown == 1 then Some(r.durationUs) else None, r.timestamp, r.pid,
          r.source, r.target, r.sourcePort, r.targetPort)
  }

  /** Decoding a laid-out record succeeds exactly when its flags are sound, and then gives its event. */
  lemma DecodesIff(r: Record, rest: seq<Byte>)
    ensures Decode(Layout(r) + rest) == Ok(EventOf(r)) <==> Sound(r)
    ensures Decode(Layout(r) + rest).Ok? <==> Sound(r)
  {
    RecordRoundTrip(r, rest);
    hide Layout, Unmarshal;
  }

  lemma {:induction false} RingIsSound(s: State, inputs: seq<Input>)
    requires |s.stats| == STAT_MAX && forall i :: 0 <= i < |s.ring| ==> Sound(s.ring[i])
    ensures forall i :: 0 <= i < |Run(s, inputs).ring| ==> Sound(Run(s, inputs).ring[i])
    decreases |inputs|
  {
    if inputs != [] {
      RingIsSound(Next(s, inputs[0]), inputs[1..]);
    }
  }

  /** The event says what happened to the attempt, with its latency exactly when there is one to tell. */
  predicate Recounts(e: Event, a: Attempt) {
    && e.timestamp == a.now && (e.failed <==> a.t.newState == CLOSE)
    && e.source == a.t.source && e.target == a.t.target && e.sourcePort == a.t.sourcePort &&
      e.targetPort == a.t.targetPort
    && e.latencyUs == if a.Measurable() then Some((a.now - a.began.value) / 1000) else None
  }

  /**
   From the kernel to the agent: over every well-formed trace, whatever was evicted or dropped, the
   agent decodes one event per reported attempt, in order, and each recounts its own attempt.
   */
  lemma EveryEventRecountsItsAttempt(ks: Sockets, inputs: seq<Input>, i: nat, rest: seq<Byte>)
    requires WellFormed(ks, inputs) && i < |Attempts(ks, {}, inputs)|
    ensures |Run(Empty(), inputs).ring| == |Attempts(ks, {}, inputs)|
    ensures var d := Decode(Layout(Run(Empty(), inputs).ring[i]) + rest);
      d.Ok? && Recounts(d.event, Attempts(ks, {}, inputs)[i])
  {
    RingTellsAttempts(ks, Empty(), inputs);
    RingIsSound(Empty(), inputs);
    var ring := Run(Empty(), inputs).ring;
    assert ring[0..] == ring && Empty().starts.Keys == {};
    hide Run, Attempts, WellFormed, Layout, Decode;
    assert Tells(ring[i], Attempts(ks, {}, inputs)[i]);
    DecodesIff(ring[i], rest);
  }

  // ---------- undisturbed, every connection is timed ----------

  /** No entry is evicted, no update fails, and the clock never goes back. */
  predicate Calm(inputs: seq<Input>) {
    && (forall i :: 0 <= i < |inputs| ==> inputs[i].Fire? && !inputs[i].updateFails)
    && (forall i, j :: 0 <= i < j < |inputs| && inputs[i].Fire? && inputs[j].Fire? ==> inputs[i].now <= inputs[j].now)
  }

  /** Every open under way is noted, and no socket was last seen after the trace goes on. */
  predicate UpToDate(ks: Sockets, noted: set<Quad>, inputs: seq<Input>) {
    && (forall k :: Opening(ks, k) ==> k in noted)
    && (forall k, i :: k in ks && 0 <= i < |inputs| && inputs[i].Fire? ==> ks[k].since <= inputs[i].now)
  }

  lemma CalmStep(ks: Sockets, noted: set<Quad>, inputs: seq<Input>)
    requires inputs != [] && Calm(inputs) && UpToDate(ks, noted, inputs) && Fits(ks, inputs[0])
    ensures Calm(inputs[1..]) && UpToDate(Move(ks, inputs[0]), Note(noted, inputs[0]), inputs[1..])
    ensures Reported(inputs[0]) && inputs[0].t.socket in ks && inputs[0].t.newState == ESTABLISHED ==>
      AttemptOf(ks, noted, inputs[0]).Measurable()
  {
    var ks', rest := Move(ks, inputs[0]), inputs[1..];
    forall i | 0 <= i < |rest| ensures rest[i] == inputs[i + 1] {}
    forall k | Opening(ks', k) ensures k in Note(noted, inputs[0]) {
      assert k != inputs[0].t.socket ==> Opening(ks, k);
    }
    if Reported(inputs[0]) && inputs[0].t.socket in ks {
      assert Opening(ks, inputs[0].t.socket);
    }
  }

  lemma {:induction false} CalmAttempts(ks: Sockets, noted: set<Quad>, inputs: seq<Input>, i: nat)
    requires WellFormed(ks, inputs) && Calm(inputs) && UpToDate(ks, noted, inputs) && Unseen(ks, inputs) == 0
    requires i < |Attempts(ks, noted, inputs)| && Attempts(ks, noted, inputs)[i].t.newState == ESTABLISHED
    ensures Attempts(ks, noted, inputs)[i].Measurable()
    decreases |inputs|
  {
    CalmStep(ks, noted, inputs);
    hide Calm, UpToDate, Move, Note, Fits;
    var ks', noted' := Move(ks, inputs[0]), Note(noted, inputs[0]);
    var rest := Attempts(ks', noted', inputs[1..]);
    if Reported(inputs[0]) {
      assert Attempts(ks, noted, inputs) == [AttemptOf(ks, noted, inputs[0])] + rest;
      if i > 0 {
        assert Attempts(ks, noted, inputs)[i] == rest[i - 1];
        CalmAttempts(ks', noted', inputs[1..], i - 1);
      }
    } else {
      CalmAttempts(ks', noted', inputs[1..], i);
    }
  }

  /**
   With nothing evicted, no update failing, no socket first seen when it settles and a clock that never goes
   back, every reported connection that succeeds reaches the agent with its latency.
   */
  lemma EveryConnectionIsTimed(inputs: seq<Input>, i: nat, rest: seq<Byte>)
    requires WellFormed(map[], inputs) && Calm(inputs) && Unseen(map[], inputs) == 0
    requires i < |Attempts(map[], {}, inputs)| && Attempts(map[], {}, inputs)[i].t.newState == ESTABLISHED
    ensures var a := Attempts(map[], {}, inputs)[i];
      && a.began.Some? && a.began.value <= a.now && |Run(Empty(), inputs).ring| == |Attempts(map[], {}, inputs)|
      && var d := Decode(Layout(Run(Empty(), inputs).ring[i]) + rest);
      d.Ok? && d.event.latencyUs == Some((a.now - a.began.value) / 1000)
  {
    CalmAttempts(map[], {}, inputs, i);
    EveryEventRecountsItsAttempt(map[], inputs, i, rest);
    hide Attempts, Run, WellFormed, Calm, Unseen, Layout, Decode;
  }
}
