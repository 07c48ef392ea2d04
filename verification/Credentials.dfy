/**
 Credential refresh between processes that share one credentials file.

 A call reads the file without the lock; only when its ID token needs replacing does it take the
 lock, read again, redeem the refresh token, and replace the file. `World` is any number of such
 processes, one lock, one file and a provider that rotates refresh tokens (section 6 of RFC 6749)
 and never issues the same token twice. Lost replies, crashes and failed writes are steps of their
 own.
 */
module Credentials {
  import opened Tallies

  const REFRESH_WINDOW := 60

  /** One server's sign-in: the configuration given at login, and the tokens. "" means none. */
  datatype Entry = Entry(config: string, idToken: string, expiry: int, refreshToken: string) {
    predicate SignedIn() { idToken != "" }

    function Cleared(): Entry { Entry(config, "", 0, "") }

    function Renewed(reply: Reply): Entry
      requires reply.Rotated?
    {
      Entry(config, reply.idToken, reply.expiry, if reply.refreshToken == "" then refreshToken else reply.refreshToken)
    }
  }

  type File = map<string, Entry>

  /** What a redemption came to. `Rotated` may carry no refresh token: the stored one stays in use. */
  datatype Reply =
    | Rotated(idToken: string, expiry: int, refreshToken: string)
    | Denied                    // the endpoint said no
    | Unusable                  // it granted, but no acceptable ID token
    | NoAnswer                  // it could not be asked, or not be understood
  {
    predicate Definitive() { Denied? || Unusable? }
    predicate Spends() { Unusable? || (Rotated? && refreshToken != "") }
  }

  /** What the token response grants, and whether its ID token passed the checks on issuer, client and shape. */
  datatype Grant = Grant(idToken: string, acceptable: bool, expiry: int, refreshToken: string)

  /**
   What the attempt to redeem came to on the wire: nothing at all, or an HTTP response with its status,
   its OAuth error code if any, and the grant if the body held one.
   */
  datatype Exchanged = NoResponse | Response(status: int, error: string, grant: Option<Grant>)

  predicate Succeeded(x: Exchanged) { x.Response? && 200 <= x.status <= 299 && x.error == "" }

  /** A status or code that says no is a refusal; a response that cannot be read counts as none. */
  function ReplyTo(x: Exchanged): Reply {
    if x.NoResponse? then NoAnswer
    else if !Succeeded(x) then Denied
    else if x.grant.None? then NoAnswer
    else if x.grant.value.idToken == "" || !x.grant.value.acceptable then Unusable
    else Rotated(x.grant.value.idToken, x.grant.value.expiry, x.grant.value.refreshToken)
  }

  datatype Result = Token(id: string) | NotSignedIn | Failed

  datatype Call = Call(server: string, rejected: string)

  predicate NeedsRefresh(e: Entry, rejected: string, now: int) {
    if rejected != "" then e.idToken == rejected else e.expiry <= now + REFRESH_WINDOW
  }

  // ---------- the three decisions of one call ----------

  /** The lock-free read; None means the lock is needed. */
  function Peek(file: File, c: Call, now: int, secure: bool): Option<Result> {
    if c.server !in file then Some(Token(""))
    else if !file[c.server].SignedIn() then Some(NotSignedIn)
    else if !secure then Some(Failed)
    else if !NeedsRefresh(file[c.server], c.rejected, now) then Some(Token(file[c.server].idToken))
    else None
  }

  datatype Decision = Settle(result: Result) | Clear | Redeem

  /** The second look, under the lock. */
  function Decide(file: File, c: Call, now: int): Decision {
    if c.server !in file || !file[c.server].SignedIn() then Settle(NotSignedIn)
    else if !NeedsRefresh(file[c.server], c.rejected, now) then Settle(Token(file[c.server].idToken))
    else if file[c.server].refreshToken == "" then Clear
    else Redeem
  }

  predicate HoldsToken(file: File, server: string, token: string) {
    server in file && file[server].refreshToken == token
  }

  datatype Conclusion = Leave(result: Result) | Write(next: File, result: Result)

  /** What to do with the reply, given the copy read when the lock was taken and the file as it is now. */
  function Conclude(copy: File, file: File, c: Call, reply: Reply): Conclusion
    requires c.server in copy
  {
    if reply.Rotated? then Write(copy[c.server := copy[c.server].Renewed(reply)], Token(reply.idToken))
    else if reply.NoAnswer? then Leave(Failed)
    else if HoldsToken(file, c.server, copy[c.server].refreshToken) then
      Write(file[c.server := file[c.server].Cleared()], NotSignedIn)
    else if c.server in file && file[c.server].SignedIn() then Leave(Token(file[c.server].idToken))
    else Leave(NotSignedIn)
  }

  /** One uninterrupted pass under the lock. */
  function Pass(file: File, c: Call, now: int, reply: Reply): Conclusion {
    match Decide(file, c, now)
    case Settle(r) => Leave(r)
    case Clear => Write(file[c.server := file[c.server].Cleared()], NotSignedIn)
    case Redeem => Conclude(file, file, c, reply)
  }

  function Saved(file: File, c: Conclusion): File { if c.Write? then c.next else file }

  /** The token reported is the one on file, or, with none reported, it has a minute or less to live. */
  predicate Due(e: Entry, c: Call, now: int) {
    (c.rejected != "" && e.idToken == c.rejected) || (c.rejected == "" && e.expiry - now <= 60)
  }

  /** Without the lock, a call is answered exactly when there is nothing to ask for or nothing due. */
  lemma FastPathIff(file: File, c: Call, now: int, secure: bool)
    ensures c.server !in file ==> Peek(file, c, now, secure) == Some(Token(""))
    ensures c.server in file && file[c.server].idToken == "" ==> Peek(file, c, now, secure) == Some(NotSignedIn)
    ensures c.server in file && file[c.server].idToken != "" ==>
      Peek(file, c, now, secure) ==
        if !secure then Some(Failed)
        else if Due(file[c.server], c, now) then None
        else Some(Token(file[c.server].idToken))
  {
  }

  /** Under the lock it is answered from the file exactly when another process has replaced what was due. */
  lemma LockedPathIff(file: File, c: Call, now: int)
    ensures c.server !in file || file[c.server].idToken == "" ==> Decide(file, c, now) == Settle(NotSignedIn)
    ensures c.server in file && file[c.server].idToken != "" ==>
      && (Decide(file, c, now) == Settle(Token(file[c.server].idToken)) <==> !Due(file[c.server], c, now))
      && (Decide(file, c, now).Redeem? <==> Due(file[c.server], c, now) && file[c.server].refreshToken != "")
      && (Decide(file, c, now).Clear? <==> Due(file[c.server], c, now) && file[c.server].refreshToken == "")
  {
  }

  /**
   A pass changes nothing but the caller's own entry, keeps its configuration, and takes tokens away
   exactly when a refresh is due and either no refresh token is stored or the provider answered
   without a usable ID token. Whether the provider could be reached is what decides: an HTTP error of
   any kind is an answer.
   */
  lemma PassTakesTokensIff(file: File, c: Call, now: int, reply: Reply)
    requires c.server in file && file[c.server].SignedIn()
    requires reply.Rotated? ==> reply.idToken != ""
    ensures forall s :: s in file && s != c.server ==>
      s in Saved(file, Pass(file, c, now, reply)) && Saved(file, Pass(file, c, now, reply))[s] == file[s]
    ensures Saved(file, Pass(file, c, now, reply)).Keys == file.Keys
    ensures Saved(file, Pass(file, c, now, reply))[c.server].config == file[c.server].config
    ensures !Saved(file, Pass(file, c, now, reply))[c.server].SignedIn() <==>
      Due(file[c.server], c, now) && (file[c.server].refreshToken == "" || reply.Definitive())
    ensures reply.Rotated? && Due(file[c.server], c, now) && file[c.server].refreshToken != "" ==>
      Saved(file, Pass(file, c, now, reply))[c.server] ==
      Entry(file[c.server].config, reply.idToken, reply.expiry,
            if reply.refreshToken == "" then file[c.server].refreshToken else reply.refreshToken)
    ensures !Due(file[c.server], c, now) ==> Saved(file, Pass(file, c, now, reply)) == file
    ensures reply.NoAnswer? && file[c.server].refreshToken != "" ==> Saved(file, Pass(file, c, now, reply)) == file
    ensures match Pass(file, c, now, reply).result
      case Token(id) => id == Saved(file, Pass(file, c, now, reply))[c.server].idToken
      case NotSignedIn => !Saved(file, Pass(file, c, now, reply))[c.server].SignedIn()
      case Failed => reply.NoAnswer? && Due(file[c.server], c, now)
  {
    assert c.server in file.Keys;
  }

  /** A due refresh with a refresh token signs the user out exactly when the endpoint answered and granted
      nothing usable. */
  lemma ResponseSignsOutIff(file: File, c: Call, now: int, x: Exchanged)
    requires c.server in file && file[c.server].SignedIn() && file[c.server].refreshToken != ""
    requires Due(file[c.server], c, now)
    ensures !Saved(file, Pass(file, c, now, ReplyTo(x)))[c.server].SignedIn() <==>
      x.Response? &&
        (!(200 <= x.status <= 299) || x.error != "" ||
        (x.grant.Some? && (x.grant.value.idToken == "" || !x.grant.value.acceptable)))
  {
    PassTakesTokensIff(file, c, now, ReplyTo(x));
  }

  /** A due refresh stores what the endpoint granted: the ID token, its expiry, and the refresh token if one came. */
  lemma GrantIsStored(file: File, c: Call, now: int, x: Exchanged)
    requires c.server in file && file[c.server].SignedIn() && file[c.server].refreshToken != ""
    requires Due(file[c.server], c, now)
    requires x.Response? && 200 <= x.status <= 299 && x.error == "" && x.grant.Some?
    requires x.grant.value.acceptable && x.grant.value.idToken != ""
    ensures var e, g := Saved(file, Pass(file, c, now, ReplyTo(x)))[c.server], x.grant.value;
      && e.config == file[c.server].config && e.idToken == g.idToken && e.expiry == g.expiry
      && e.refreshToken == (if g.refreshToken == "" then file[c.server].refreshToken else g.refreshToken)
      && Pass(file, c, now, ReplyTo(x)).result == Token(g.idToken)
  {
    PassTakesTokensIff(file, c, now, ReplyTo(x));
  }

  /** A token endpoint that is merely unavailable for a moment signs the user out. */
  lemma UnavailableSignsOut(file: File, c: Call, now: int, grant: Option<Grant>)
    requires c.server in file && file[c.server].SignedIn() && file[c.server].refreshToken != ""
    requires Due(file[c.server], c, now)
    ensures ReplyTo(Response(503, "", grant)) == Denied
    ensures Saved(file, Pass(file, c, now, Denied))[c.server] == file[c.server].Cleared()
    ensures Saved(file, Pass(file, c, now, ReplyTo(NoResponse))) == file
  {
    ResponseSignsOutIff(file, c, now, Response(503, "", grant));
  }

  // ---------- the store as the source writes it ----------

  class Store {
    var servers: File

    constructor ()
      ensures servers == map[]
    {
      servers := map[];
    }

    method ClearIfRefreshTokenIs(server: string, failed: string) returns (cleared: bool)
      modifies this
      ensures cleared <==> HoldsToken(old(servers), server, failed)
      ensures servers == if cleared then old(servers)[server := old(servers)[server].Cleared()] else old(servers)
    {
      if server !in servers || servers[server].refreshToken != failed {
        return false;
      }
      servers := servers[server := servers[server].Cleared()];
      return true;
    }

    /** The callback `get` runs under the lock; `reply` is what the provider will say if asked. */
    method UnderLock(c: Call, now: int, reply: Reply) returns (result: Result)
      modifies this
      ensures servers == Saved(old(servers), Pass(old(servers), c, now, reply))
      ensures result == Pass(old(servers), c, now, reply).result
    {
      if c.server !in servers || !servers[c.server].SignedIn() {
        return NotSignedIn;
      }
      var e := servers[c.server];
      if !NeedsRefresh(e, c.rejected, now) {
        return Token(e.idToken);
      }
      if e.refreshToken == "" {
        servers := servers[c.server := e.Cleared()];
        return NotSignedIn;
      }
      match reply {
        case Rotated(id, _, _) =>
          servers := servers[c.server := e.Renewed(reply)];
          return Token(id);
        case NoAnswer =>
          return Failed;
        case _ =>
          var _ := ClearIfRefreshTokenIs(c.server, e.refreshToken);
          return NotSignedIn;
      }
    }

    /** Removes one server's entry, or all of them; `keys` is the order the map yields. */
    method Logout(all: bool, server: string, keys: seq<string>) returns (removed: seq<string>)
      requires forall k :: k in keys <==> k in servers
      modifies this
      ensures forall k :: k in removed <==> k in old(servers) && (all || k == server)
      ensures servers == old(servers) - (set k | k in removed)
    {
      removed := [];
      for i := 0 to |keys|
        invariant forall k :: k in removed <==> k in keys[..i] && (all || k == server)
        invariant servers == old(servers) - (set k | k in removed)
      {
        if all || keys[i] == server {
          removed := removed + [keys[i]];
          servers := servers - {keys[i]};
        }
      }
      assert keys[..|keys|] == keys;
    }
  }

  // ---------- many processes ----------

  datatype Phase =
    | Idle
    | Waiting(call: Call)
    // lock held since `at`: about to redeem, answer in hand, about to rename
    | Asking(call: Call, copy: File, at: int)
    | Told(call: Call, copy: File, at: int, reply: Reply)
    | Saving(call: Call, next: File, at: int, result: Result, reply: Reply)
  {
    predicate Holding() { Asking? || Told? || Saving? }
    predicate Answered() { Told? || Saving? }
  }

  datatype Provider = Provider(issued: set<string>, spent: set<string>, ids: set<string>)

  datatype Redemption = Redemption(server: string, from: string, to: string)

  /** When a token was read from the file, and its expiry there. */
  datatype Reading = Reading(expiry: int, now: int)

  /** What a call returned; with a token, where it was read, unless the provider had just issued it. */
  datatype Settled = Settled(call: Call, result: Result, read: Option<Reading>)

  datatype World = World(
    procs: map<nat, Phase>,
    lock: Option<nat>,
    file: File,
    provider: Provider,
    refused: set<string>,                 // history: refresh tokens that were definitively refused
    replays: nat,                         // history: how often a spent refresh token was presented
    redemptions: seq<Redemption>,         // history: successful redemptions
    results: seq<Settled>)                // history: what calls returned

  datatype Step =
    | Begin(p: nat, call: Call, now: int, secure: bool)
    | GiveUp(p: nat)
    | Acquire(p: nat, now: int)
    | Exchange(p: nat, reply: Reply)
    | LostReply(p: nat, reply: Reply)
    | Finish(p: nat)
    | Save(p: nat)
    | FailSave(p: nat)
    | Crash(p: nat)
    | Login(server: string, entry: Entry)
    | Logout(servers: set<string>)

  predicate Presenting(w: World, p: nat) {
    p in w.procs && w.procs[p].Asking? && w.procs[p].call.server in w.procs[p].copy
  }

  function Presented(w: World, p: nat): string
    requires Presenting(w, p)
  {
    w.procs[p].copy[w.procs[p].call.server].refreshToken
  }

  /** A provider rotates only live tokens, and whatever it issues is new. */
  predicate MayReply(v: Provider, token: string, reply: Reply) {
    match reply
    case Rotated(id, _, next) =>
      && token in v.issued && token !in v.spent
      && id != "" && id !in v.ids && (next == "" || next !in v.issued)
    case Unusable => token in v.issued && token !in v.spent
    case Denied => true
    case NoAnswer => true
  }

  predicate Enabled(w: World, s: Step) {
    match s
    case Begin(p, _, _, _) => p in w.procs && w.procs[p].Idle?
    case GiveUp(p) => p in w.procs && w.procs[p].Waiting?
    case Acquire(p, _) => p in w.procs && w.procs[p].Waiting? && w.lock.None?
    case Exchange(p, reply) => Presenting(w, p) && MayReply(w.provider, Presented(w, p), reply)
    case LostReply(p, reply) => Presenting(w, p) && MayReply(w.provider, Presented(w, p), reply)
    case Finish(p) => p in w.procs && w.procs[p].Told? && w.procs[p].call.server in w.procs[p].copy
    case Save(p) => p in w.procs && w.procs[p].Saving?
    case FailSave(p) => p in w.procs && w.procs[p].Saving?
    case Crash(p) => p in w.procs
    case Login(_, e) =>
      && w.lock.None?
      && e.idToken != "" && e.idToken !in w.provider.ids
      && (e.refreshToken == "" || e.refreshToken !in w.provider.issued)
    case Logout(_) => w.lock.None?
  }

  function Issue(v: Provider, id: string, refresh: string): Provider {
    Provider(v.issued + (if refresh == "" then {} else {refresh}), v.spent, v.ids + {id})
  }

  function AfterReply(v: Provider, token: string, reply: Reply): Provider {
    var v := if reply.Spends() then v.(spent := v.spent + {token}) else v;
    if reply.Rotated? then Issue(v, reply.idToken, reply.refreshToken) else v
  }

  /** The request reaches the provider; what comes back to the caller is `heard`. */
  function Redeemed(w: World, p: nat, reply: Reply, heard: Reply): World
    requires Presenting(w, p)
  {
    var c, copy, token := w.procs[p].call, w.procs[p].copy, Presented(w, p);
    w.(procs := w.procs[p := Told(c, copy, w.procs[p].at, heard)],
       provider := AfterReply(w.provider, token, reply),
       replays := if token in w.provider.spent && !reply.NoAnswer? then w.replays + 1 else w.replays,
       refused := if reply.Definitive() then w.refused + {token} else w.refused,
       redemptions :=
         if reply.Rotated? then w.redemptions + [Redemption(c.server, copy[c.server].idToken, reply.idToken)]
         else w.redemptions)
  }

  function Return(w: World, p: nat, c: Call, r: Result, read: Option<Reading>): World {
    w.(procs := w.procs[p := Idle], lock := if w.lock == Some(p) then None else w.lock,
      results := w.results + [Settled(c, r, read)])
  }

  function ReadFrom(file: File, c: Call, r: Result, now: int): Option<Reading> {
    if r.Token? && c.server in file then Some(Reading(file[c.server].expiry, now)) else None
  }

  function Next(w: World, s: Step): World
    requires Enabled(w, s)
  {
    match s
    case Begin(p, c, now, secure) =>
      (match Peek(w.file, c, now, secure)
       case None => w.(procs := w.procs[p := Waiting(c)])
       case Some(r) => Return(w, p, c, r, ReadFrom(w.file, c, r, now)))
    case GiveUp(p) => Return(w, p, w.procs[p].call, Failed, None)
    case Acquire(p, now) =>
      var c := w.procs[p].call;
      (match Decide(w.file, c, now)
       case Settle(r) => Return(w, p, c, r, ReadFrom(w.file, c, r, now))
       case Clear => w.(lock := Some(p), procs :=
         w.procs[p := Saving(c, w.file[c.server := w.file[c.server].Cleared()], now, NotSignedIn, NoAnswer)])
       case Redeem => w.(lock := Some(p), procs := w.procs[p := Asking(c, w.file, now)]))
    case Exchange(p, reply) => Redeemed(w, p, reply, reply)
    case LostReply(p, reply) => Redeemed(w, p, reply, NoAnswer)
    case Finish(p) =>
      var t := w.procs[p];
      (match Conclude(t.copy, w.file, t.call, t.reply)
       case Leave(r) => Return(w, p, t.call, r, None)
       case Write(next, r) => w.(procs := w.procs[p := Saving(t.call, next, t.at, r, t.reply)]))
    case Save(p) => Return(w, p, w.procs[p].call, w.procs[p].result, None).(file := w.procs[p].next)
    case FailSave(p) => Return(w, p, w.procs[p].call, Failed, None)
    case Crash(p) => w.(procs := w.procs[p := Idle], lock := if w.lock == Some(p) then None else w.lock)
    case Login(server, e) => w.(file := w.file[server := e], provider := Issue(w.provider, e.idToken, e.refreshToken))
    case Logout(servers) => w.(file := w.file - servers)
  }

  // ---------- what every step keeps, disturbed or not ----------

  predicate Locking(w: World) {
    && (w.lock.Some? ==> w.lock.value in w.procs && w.procs[w.lock.value].Holding())
    && (forall p :: p in w.procs && w.procs[p].Holding() ==> w.lock == Some(p))
  }

  /** Tokens on file are the provider's, signed-in or cleared as a whole, and no two servers share one. */
  predicate Tokens(file: File, v: Provider) {
    && v.spent <= v.issued && "" !in v.issued && "" !in v.ids
    && (forall s :: s in file ==> (file[s].refreshToken == "" || file[s].refreshToken in v.issued))
    && (forall s :: s in file ==> (file[s].idToken == "" || file[s].idToken in v.ids))
    && (forall s, t :: s in file && t in file && s != t && file[s].refreshToken != "" ==>
      file[s].refreshToken != file[t].refreshToken)
    && (forall s, t :: s in file && t in file && s != t && file[s].idToken != "" ==> file[s].idToken != file[t].idToken)
  }

  /** A pair of tokens the provider issued and no entry holds yet. */
  predicate Unfiled(file: File, v: Provider, reply: Reply) {
    reply.Rotated? ==>
      && reply.idToken != "" && reply.idToken in v.ids
      && (forall s :: s in file ==> file[s].idToken != reply.idToken)
      && (reply.refreshToken == "" || (reply.refreshToken in v.issued && reply.refreshToken !in v.spent))
      && (forall s :: s in file ==> reply.refreshToken == "" || file[s].refreshToken != reply.refreshToken)
  }

  /** The entry a lock holder is working on, as it found it on taking the lock. */
  predicate Working(w: World, c: Call, at: int) {
    c.server in w.file && w.file[c.server].SignedIn() && Due(w.file[c.server], c, at)
  }

  predicate HolderKnows(w: World, ph: Phase) {
    match ph
    case Asking(c, copy, at) => copy == w.file && Working(w, c, at) && w.file[c.server].refreshToken != ""
    case Told(c, copy, at, reply) =>
      && copy == w.file && Working(w, c, at) && w.file[c.server].refreshToken != ""
      && Unfiled(w.file, w.provider, reply)
      && (reply.Spends() ==> w.file[c.server].refreshToken in w.provider.spent)
      && (reply.Definitive() ==> w.file[c.server].refreshToken in w.refused)
    case Saving(c, next, at, result, reply) =>
      && Working(w, c, at)
      && Unfiled(w.file, w.provider, reply)
      && (reply.Spends() ==> w.file[c.server].refreshToken in w.provider.spent)
      && (reply.Rotated? ==>
        next == w.file[c.server := w.file[c.server].Renewed(reply)] && result == Token(reply.idToken))
      && (!reply.Rotated? ==>
            && next == w.file[c.server := w.file[c.server].Cleared()] && result == NotSignedIn
            && (w.file[c.server].refreshToken == "" || w.file[c.server].refreshToken in w.refused))
      && (c.rejected != "" ==> result != Token(c.rejected))
    case _ => true
  }

  /** A call that reported a token as rejected is working on exactly that token. */
  predicate Targets(w: World, ph: Phase) {
    (ph.Asking? || ph.Told?) && ph.call.rejected != "" ==>
      ph.call.server in w.file && w.file[ph.call.server].idToken == ph.call.rejected
  }

  /** A token reported is never the one returned, and none is returned off the file in its last minute. */
  predicate Answers(s: Settled) {
    && (s.result.Token? && s.call.rejected != "" ==> s.result.id != s.call.rejected)
    && (s.read.Some? && s.call.rejected == "" ==> s.read.value.expiry - s.read.value.now > 60)
  }

  predicate Invariant(w: World) {
    && Locking(w)
    && Tokens(w.file, w.provider)
    && (forall p :: p in w.procs ==> HolderKnows(w, w.procs[p]) && Targets(w, w.procs[p]))
    && (forall i :: 0 <= i < |w.results| ==> Answers(w.results[i]))
  }

  lemma ReturnKeeps(w: World, p: nat, c: Call, r: Result, read: Option<Reading>)
    requires Invariant(w) && p in w.procs && Answers(Settled(c, r, read))
    ensures Invariant(Return(w, p, c, r, read))
  {
    var w' := Return(w, p, c, r, read);
    assert forall q :: q in w'.procs && q != p ==> w'.procs[q] == w.procs[q];
    assert forall q :: q in w'.procs ==> HolderKnows(w', w'.procs[q]) && Targets(w', w'.procs[q]);
  }

  lemma AcquireKeeps(w: World, p: nat, now: int)
    requires Invariant(w) && Enabled(w, Acquire(p, now))
    ensures Invariant(Next(w, Acquire(p, now)))
  {
    hide Tokens;
    var c := w.procs[p].call;
    if Decide(w.file, c, now).Settle? {
      var r := Decide(w.file, c, now).result;
      ReturnKeeps(w, p, c, r, ReadFrom(w.file, c, r, now));
    } else {
      var w' := Next(w, Acquire(p, now));
      assert forall q :: q in w'.procs && q != p ==> w'.procs[q] == w.procs[q];
      assert HolderKnows(w', w'.procs[p]) && Targets(w', w'.procs[p]);
    }
  }

  lemma RedeemKeeps(w: World, p: nat, reply: Reply, heard: Reply)
    requires Invariant(w) && Presenting(w, p) && MayReply(w.provider, Presented(w, p), reply)
    requires heard == reply || heard.NoAnswer?
    ensures Invariant(Redeemed(w, p, reply, heard))
  {
    var w' := Redeemed(w, p, reply, heard);
    assert HolderKnows(w, w.procs[p]) && Targets(w, w.procs[p]);
    assert HolderKnows(w', w'.procs[p]) && Targets(w', w'.procs[p]);
    assert forall q :: q in w'.procs && q != p ==> w'.procs[q] == w.procs[q] && !w'.procs[q].Holding();
  }

  lemma FinishKeeps(w: World, p: nat)
    requires Invariant(w) && Enabled(w, Finish(p))
    ensures Invariant(Next(w, Finish(p)))
  {
    var t := w.procs[p];
    assert HolderKnows(w, t) && Targets(w, t);
    match Conclude(t.copy, w.file, t.call, t.reply) {
      case Leave(r) => ReturnKeeps(w, p, t.call, r, None);
      case Write(next, r) =>
        var w' := Next(w, Finish(p));
        assert HolderKnows(w', w'.procs[p]);
        assert forall q :: q in w'.procs && q != p ==> w'.procs[q] == w.procs[q];
    }
  }

  lemma SaveKeeps(w: World, p: nat)
    requires Invariant(w) && Enabled(w, Save(p))
    ensures Invariant(Next(w, Save(p)))
  {
    var w' := Next(w, Save(p));
    assert HolderKnows(w, w.procs[p]);
    assert Tokens(w'.file, w'.provider);
    assert forall q :: q in w'.procs ==> !w'.procs[q].Holding();
  }

  /** Between steps nobody but the lock holder is in the middle of anything. */
  lemma LoginKeeps(w: World, s: Step)
    requires Invariant(w) && Enabled(w, s) && (s.Login? || s.Logout?)
    ensures Invariant(Next(w, s))
  {
    assert forall q :: q in w.procs ==> !w.procs[q].Holding();
  }

  lemma StepKeeps(w: World, s: Step)
    requires Invariant(w) && Enabled(w, s)
    ensures Invariant(Next(w, s))
  {
    hide Invariant;
    match s
    case Begin(p, c, now, secure) => BeginKeeps(w, s);
    case GiveUp(p) => ReturnKeeps(w, p, w.procs[p].call, Failed, None);
    case Acquire(p, now) => AcquireKeeps(w, p, now);
    case Exchange(p, reply) => RedeemKeeps(w, p, reply, reply);
    case LostReply(p, reply) => RedeemKeeps(w, p, reply, NoAnswer);
    case Finish(p) => FinishKeeps(w, p);
    case Save(p) => SaveKeeps(w, p);
    case FailSave(p) => ReturnKeeps(w, p, w.procs[p].call, Failed, None);
    case Crash(p) => CrashKeeps(w, p);
    case Login(_, _) => LoginKeeps(w, s);
    case Logout(_) => LoginKeeps(w, s);
  }

  lemma BeginKeeps(w: World, s: Step)
    requires Invariant(w) && s.Begin? && Enabled(w, s)
    ensures Invariant(Next(w, s))
  {
    hide Tokens, Unfiled;
    match Peek(w.file, s.call, s.now, s.secure) {
      case Some(r) => ReturnKeeps(w, s.p, s.call, r, ReadFrom(w.file, s.call, r, s.now));
      case None => assert forall q :: q in w.procs && q != s.p ==> Next(w, s).procs[q] == w.procs[q];
    }
  }

  lemma CrashKeeps(w: World, p: nat)
    requires Invariant(w) && p in w.procs
    ensures Invariant(Next(w, Crash(p)))
  {
    var w' := Next(w, Crash(p));
    assert forall q :: q in w'.procs && q != p ==> w'.procs[q] == w.procs[q];
    assert forall q :: q in w'.procs ==> HolderKnows(w', w'.procs[q]) && Targets(w', w'.procs[q]);
  }

  // ---------- runs ----------

  predicate CanRun(w: World, steps: seq<Step>)
    decreases |steps|
  {
    steps == [] || (Enabled(w, steps[0]) && CanRun(Next(w, steps[0]), steps[1..]))
  }

  function Run(w: World, steps: seq<Step>): World
    requires CanRun(w, steps)
    decreases |steps|
  {
    if steps == [] then w else Run(Next(w, steps[0]), steps[1..])
  }

  lemma {:induction false} RunKeeps(w: World, steps: seq<Step>)
    requires Invariant(w) && CanRun(w, steps)
    ensures Invariant(Run(w, steps))
    decreases |steps|
  {
    hide Invariant;
    if steps != [] {
      StepKeeps(w, steps[0]);
      RunKeeps(Next(w, steps[0]), steps[1..]);
    }
  }

  // ---------- no refresh token is presented twice ----------

  /** The step strands a refresh token the provider has just spent. */
  predicate Strands(w: World, s: Step) {
    match s
    case LostReply(_, reply) => reply.Spends()
    case FailSave(p) => p in w.procs && w.procs[p].Saving? && w.procs[p].reply.Spends()
    case Crash(p) => p in w.procs && w.procs[p].Answered() && w.procs[p].reply.Spends()
    case _ => false
  }

  /** Whoever spent the refresh token on file for `server` holds the lock and has its replacement in hand. */
  predicate BeingReplaced(w: World, server: string) {
    && w.lock.Some? && w.lock.value in w.procs
    && w.procs[w.lock.value].Answered()
    && w.procs[w.lock.value].call.server == server
    && w.procs[w.lock.value].reply.Spends()
  }

  predicate Live(w: World) {
    forall s :: s in w.file && w.file[s].refreshToken != "" && w.file[s].refreshToken in w.provider.spent ==>
      BeingReplaced(w, s)
  }

  lemma ExchangeKeepsLive(w: World, p: nat, reply: Reply)
    requires Invariant(w) && Live(w) && Enabled(w, Exchange(p, reply))
    ensures Live(Next(w, Exchange(p, reply))) && Next(w, Exchange(p, reply)).replays == w.replays
  {
    assert HolderKnows(w, w.procs[p]);
    var w' := Next(w, Exchange(p, reply));
    var c := w.procs[p].call;
    forall s | s in w'.file && w'.file[s].refreshToken != "" && w'.file[s].refreshToken in w'.provider.spent
      ensures BeingReplaced(w', s)
    {
      assert w.file[s].refreshToken !in w.provider.spent;
      assert s == c.server;
    }
  }

  lemma SaveKeepsLive(w: World, p: nat)
    requires Invariant(w) && Live(w) && Enabled(w, Save(p))
    ensures Live(Next(w, Save(p)))
  {
    assert HolderKnows(w, w.procs[p]);
    var w' := Next(w, Save(p));
    var c := w.procs[p].call;
    forall s | s in w'.file && w'.file[s].refreshToken != "" ensures w'.file[s].refreshToken !in w.provider.spent {
      if s != c.server {
        assert w'.file[s] == w.file[s];
      } else {
        assert w.procs[p].reply.Rotated?;
      }
    }
  }

  lemma FinishKeepsLive(w: World, p: nat)
    requires Invariant(w) && Live(w) && Enabled(w, Finish(p))
    ensures Live(Next(w, Finish(p)))
  {
    assert HolderKnows(w, w.procs[p]);
    var w' := Next(w, Finish(p));
    forall s | s in w'.file && w'.file[s].refreshToken != "" && w'.file[s].refreshToken in w'.provider.spent
      ensures BeingReplaced(w', s)
    {
      assert BeingReplaced(w, s);
    }
  }

  lemma StepKeepsLive(w: World, s: Step)
    requires Invariant(w) && Live(w) && Enabled(w, s) && !Strands(w, s)
    ensures Live(Next(w, s)) && Next(w, s).replays == w.replays
  {
    match s
    case Exchange(p, reply) => ExchangeKeepsLive(w, p, reply);
    case Save(p) => SaveKeepsLive(w, p);
    case Finish(p) => FinishKeepsLive(w, p);
    case _ => OtherKeepsLive(w, s);
  }

  lemma OtherKeepsLive(w: World, s: Step)
    requires Invariant(w) && Live(w) && Enabled(w, s) && !Strands(w, s)
    requires !s.Exchange? && !s.Save? && !s.Finish?
    ensures Live(Next(w, s)) && Next(w, s).replays == w.replays
  {
    var w' := Next(w, s);
    forall v | v in w'.file && w'.file[v].refreshToken != "" && w'.file[v].refreshToken in w'.provider.spent
      ensures BeingReplaced(w', v)
    {
      assert w'.provider.spent == w.provider.spent;
      assert v in w.file && w'.file[v] == w.file[v];
      assert BeingReplaced(w, v);
      var h := w.lock.value;
      assert HolderKnows(w, w.procs[h]);
      assert w'.lock == Some(h) && w'.procs[h] == w.procs[h];
    }
  }

  predicate Strandless(w: World, steps: seq<Step>)
    requires CanRun(w, steps)
    decreases |steps|
  {
    steps == [] || (!Strands(w, steps[0]) && Strandless(Next(w, steps[0]), steps[1..]))
  }

  /**
   Over every interleaving in which no spent token is stranded, a refresh token the provider has
   rotated away is never presented again.
   */
  lemma {:induction false} NoReplay(w: World, steps: seq<Step>)
    requires Invariant(w) && Live(w) && CanRun(w, steps) && Strandless(w, steps)
    ensures Run(w, steps).replays == w.replays
    ensures Live(Run(w, steps))
    decreases |steps|
  {
    hide Invariant, Live, Strands;
    if steps != [] {
      StepKeeps(w, steps[0]);
      StepKeepsLive(w, steps[0]);
      NoReplay(Next(w, steps[0]), steps[1..]);
    }
  }

  function Retry(p: nat, server: string, id: string): seq<Step> {
    [Begin(p, Call(server, id), 0, true), Acquire(p, 0), Exchange(p, Denied)]
  }

  /** With the lock free and a spent token on file, one more call presents it. */
  lemma StrandedIsReplayed(w: World, p: nat, server: string)
    requires Locking(w) && w.lock.None? && p in w.procs && w.procs[p].Idle?
    requires server in w.file && w.file[server].SignedIn()
    requires w.file[server].refreshToken != "" && w.file[server].refreshToken in w.provider.spent
    ensures CanRun(w, Retry(p, server, w.file[server].idToken))
    ensures Run(w, Retry(p, server, w.file[server].idToken)).replays == w.replays + 1
  {
    var id := w.file[server].idToken;
    var steps := Retry(p, server, id);
    var w1 := Next(w, steps[0]);
    assert w1.procs[p] == Waiting(Call(server, id));
    var w2 := Next(w1, steps[1]);
    assert w2.procs[p] == Asking(Call(server, id), w.file, w2.procs[p].at);
    var w3 := Next(w2, steps[2]);
    assert steps[1..] == [steps[1], steps[2]] && steps[1..][1..] == [steps[2]] && [steps[2]][1..] == [];
    assert CanRun(w3, []) && Run(w3, []) == w3;
    assert CanRun(w2, [steps[2]]) && Run(w2, [steps[2]]) == w3;
    assert CanRun(w1, steps[1..]) && Run(w1, steps[1..]) == w3;
  }

  /**
   The condition is exact: whenever a step strands a spent token, some continuation presents it.
   Together with `NoReplay`, replay is possible just when a reply that spent the token is lost, or its
   holder crashes or fails to write before the replacement is on disk.
   */
  lemma StrandingCanReplay(w: World, s: Step) returns (more: seq<Step>)
    requires Invariant(w) && Enabled(w, s) && Strands(w, s)
    ensures CanRun(w, [s] + more) && Run(w, [s] + more).replays == w.replays + 1
  {
    var p := s.p;
    assert HolderKnows(w, w.procs[p]);
    var server, id := w.procs[p].call.server, w.file[w.procs[p].call.server].idToken;
    var w1 := Next(w, s);
    StepKeeps(w, s);
    if s.LostReply? {
      assert Told(w.procs[p].call, w.file, w.procs[p].at, NoAnswer) == w1.procs[p];
      var w2 := Next(w1, Finish(p));
      StepKeeps(w1, Finish(p));
      StrandedIsReplayed(w2, p, server);
      more := [Finish(p)] + Retry(p, server, id);
      assert more[1..] == Retry(p, server, id);
      assert CanRun(w1, more) && Run(w1, more) == Run(w2, more[1..]);
    } else {
      StrandedIsReplayed(w1, p, server);
      more := Retry(p, server, id);
    }
    assert ([s] + more)[1..] == more;
  }

  // ---------- one redemption per ID token ----------

  predicate Undisturbed(s: Step) { !s.LostReply? && !s.FailSave? && !s.Crash? }

  /** Whoever replaced the ID token on file for `server` holds the lock and is about to write. */
  predicate BeingRenewed(w: World, server: string) {
    && w.lock.Some? && w.lock.value in w.procs
    && w.procs[w.lock.value].Answered()
    && w.procs[w.lock.value].call.server == server
    && w.procs[w.lock.value].reply.Rotated?
  }

  predicate Renewals(w: World) {
    && (forall i :: 0 <= i < |w.redemptions| ==> w.redemptions[i].from in w.provider.ids)
    && (forall i, j :: 0 <= i < j < |w.redemptions| ==> w.redemptions[i].from != w.redemptions[j].from)
    && (forall i, s :: 0 <= i < |w.redemptions| && s in w.file && w.file[s].idToken == w.redemptions[i].from ==>
      BeingRenewed(w, s))
    && (forall i, p ::
      0 <= i < |w.redemptions| && p in w.procs && w.procs[p].Answered() && w.procs[p].reply.Rotated? ==>
      w.redemptions[i].from != w.procs[p].reply.idToken)
  }

  lemma ExchangeRenews(w: World, p: nat, reply: Reply)
    requires Invariant(w) && Renewals(w) && Enabled(w, Exchange(p, reply)) && reply.Rotated?
    ensures Renewals(Next(w, Exchange(p, reply)))
  {
    assert HolderKnows(w, w.procs[p]);
    var w', server := Next(w, Exchange(p, reply)), w.procs[p].call.server;
    assert Tokens(w.file, w.provider);
    assert w'.procs[p] == Told(w.procs[p].call, w.file, w.procs[p].at, reply);
    assert forall q :: q in w'.procs && q != p ==> !w'.procs[q].Answered();
    assert BeingRenewed(w', server);
    RenewalAppended(w, w', p, server);
  }

  lemma RenewalAppended(w: World, w': World, p: nat, server: string)
    requires Renewals(w) && Tokens(w.file, w.provider)
    requires forall s :: !BeingRenewed(w, s)
    requires BeingRenewed(w', server) && server in w.file && w.file[server].SignedIn()
    requires w'.file == w.file && w.provider.ids <= w'.provider.ids
    requires forall q :: q in w'.procs && q != p ==> !w'.procs[q].Answered()
    requires p in w'.procs && w'.procs[p].Told? && w'.procs[p].reply.Rotated? &&
      w'.procs[p].reply.idToken !in w.provider.ids
    requires w'.redemptions == w.redemptions + [Redemption(server, w.file[server].idToken, w'.procs[p].reply.idToken)]
    ensures Renewals(w')
  {
    var n := |w.redemptions|;
    assert forall i :: 0 <= i < n ==> w'.redemptions[i] == w.redemptions[i];
    forall i | 0 <= i < n ensures w.redemptions[i].from != w.file[server].idToken {
      assert !BeingRenewed(w, server);
    }
    forall i, s | 0 <= i < |w'.redemptions| && s in w'.file && w'.file[s].idToken == w'.redemptions[i].from
      ensures BeingRenewed(w', s)
    {
      assert !BeingRenewed(w, s);
      assert i == n && s == server;
    }
  }

  lemma SaveRenews(w: World, p: nat)
    requires Invariant(w) && Renewals(w) && Enabled(w, Save(p))
    ensures Renewals(Next(w, Save(p)))
  {
    assert HolderKnows(w, w.procs[p]);
    var w', c, reply := Next(w, Save(p)), w.procs[p].call, w.procs[p].reply;
    assert forall q :: q in w'.procs ==> !w'.procs[q].Answered();
    forall i, s | 0 <= i < |w.redemptions| && s in w'.file ensures w'.file[s].idToken != w.redemptions[i].from {
      if s != c.server {
        assert w'.file[s] == w.file[s];
        assert !BeingRenewed(w, s);
      } else if reply.Rotated? {
        assert w'.file[s].idToken == reply.idToken;
      } else {
        assert w'.file[s].idToken == "";
      }
    }
  }

  lemma FinishRenews(w: World, p: nat)
    requires Invariant(w) && Renewals(w) && Enabled(w, Finish(p))
    ensures Renewals(Next(w, Finish(p)))
  {
    assert HolderKnows(w, w.procs[p]);
    var w', t := Next(w, Finish(p)), w.procs[p];
    assert w.lock == Some(p);
    if t.reply.Rotated? {
      assert w'.procs[p].Saving? && w'.procs[p].call == t.call && w'.procs[p].reply == t.reply && w'.lock == w.lock;
      hide Invariant, HolderKnows, Conclude;
      assert forall s :: BeingRenewed(w, s) ==> BeingRenewed(w', s);
      assert forall q :: q in w'.procs && q != p ==> w'.procs[q] == w.procs[q];
    } else {
      assert forall s :: !BeingRenewed(w, s);
      assert forall q :: q in w'.procs && w'.procs[q].Answered() ==> !w'.procs[q].reply.Rotated?;
    }
  }

  lemma OtherRenews(w: World, s: Step)
    requires Invariant(w) && Renewals(w) && Enabled(w, s) && Undisturbed(s)
    requires !s.Save? && !s.Finish? && !(s.Exchange? && s.reply.Rotated?)
    ensures Renewals(Next(w, s))
  {
    var w' := Next(w, s);
    assert w'.redemptions == w.redemptions && w.provider.ids <= w'.provider.ids;
    forall i, v | 0 <= i < |w'.redemptions| && v in w'.file && w'.file[v].idToken == w'.redemptions[i].from
      ensures BeingRenewed(w', v)
    {
      assert v in w.file && w'.file[v] == w.file[v];
      assert BeingRenewed(w, v);
      var h := w.lock.value;
      assert w'.lock == Some(h) && w'.procs[h] == w.procs[h];
    }
    forall p | p in w'.procs && w'.procs[p].Answered() && w'.procs[p].reply.Rotated? ensures w'.procs[p] == w.procs[p] {
    }
  }

  /**
   Each ID token is replaced by at most one successful redemption, however many processes report it
   as rejected, in every run without crashes, lost replies or failed writes.
   */
  lemma {:induction false} OneRedemptionEach(w: World, steps: seq<Step>)
    requires Invariant(w) && Renewals(w) && CanRun(w, steps)
    requires forall s :: s in steps ==> Undisturbed(s)
    ensures Renewals(Run(w, steps))
    decreases |steps|
  {
    if steps != [] {
      var s := steps[0];
      StepKeeps(w, s);
      hide Invariant, Renewals;
      if s.Exchange? && s.reply.Rotated? {
        ExchangeRenews(w, s.p, s.reply);
      } else if s.Save? {
        SaveRenews(w, s.p);
      } else if s.Finish? {
        FinishRenews(w, s.p);
      } else {
        OtherRenews(w, s);
      }
      OneRedemptionEach(Next(w, s), steps[1..]);
    }
  }

  // ---------- the processes that reported the same token share its replacement ----------

  /** The provider issued `id` to a redemption for `server`. */
  predicate Issued(w: World, server: string, id: string) {
    exists i :: 0 <= i < |w.redemptions| && w.redemptions[i].server == server && w.redemptions[i].to == id
  }

  predicate Legitimate(w: World, server: string, logins: set<string>, id: string) {
    id == "" || id in logins || Issued(w, server, id)
  }

  /** Whoever holds a new token for `server` has it from a redemption. */
  predicate InHand(w: World, server: string) {
    forall p ::
      p in w.procs && w.procs[p].Answered() && w.procs[p].call.server == server && w.procs[p].reply.Rotated? ==>
      Issued(w, server, w.procs[p].reply.idToken)
  }

  /** Where the ID tokens of `server` come from, `first` being the one it started with. */
  predicate Lineage(w: World, server: string, first: string, logins: set<string>) {
    && (server in w.file ==> w.file[server].idToken == first || Legitimate(w, server, logins, w.file[server].idToken))
    && InHand(w, server)
    && (forall i :: 0 <= i < |w.results| && w.results[i].call == Call(server, first) && w.results[i].result.Token? ==>
          Legitimate(w, server, logins, w.results[i].result.id))
  }

  /** Any login for `server` installs one of `logins`. */
  predicate Installs(s: Step, server: string, logins: set<string>) {
    s.Login? && s.server == server ==> s.entry.idToken in logins
  }

  lemma IssuedStays(w: World, w': World, server: string)
    requires w.redemptions <= w'.redemptions
    ensures forall id :: Issued(w, server, id) ==> Issued(w', server, id)
  {
    forall id | Issued(w, server, id) ensures Issued(w', server, id) {
      var i :| 0 <= i < |w.redemptions| && w.redemptions[i].server == server && w.redemptions[i].to == id;
      assert w'.redemptions[i] == w.redemptions[i];
    }
  }

  /** What one step hands out to a call that reported `first`. */
  lemma StepServes(w: World, s: Step, server: string, first: string, logins: set<string>)
    requires Invariant(w) && Enabled(w, s) && Lineage(w, server, first, logins) && first != ""
    ensures w.results <= Next(w, s).results && |Next(w, s).results| <= |w.results| + 1
    ensures |Next(w, s).results| > |w.results| ==>
      var x := Next(w, s).results[|w.results|];
      x.call == Call(server, first) && x.result.Token? ==> Legitimate(w, server, logins, x.result.id)
  {
    hide Tokens, Unfiled, Answers, Issued;
    if s.Finish? || s.Save? {
      assert HolderKnows(w, w.procs[s.p]);
    }
  }

  /** Only an answer for `server` can put a new token in hand, and that answer was a redemption. */
  lemma StepAnswers(w: World, s: Step, server: string, p: nat)
    requires Invariant(w) && Enabled(w, s) && InHand(w, server)
    requires var v := Next(w, s);
      p in v.procs && v.procs[p].Answered() && v.procs[p].call.server == server && v.procs[p].reply.Rotated?
    ensures Issued(Next(w, s), server, Next(w, s).procs[p].reply.idToken)
  {
    hide Tokens, Unfiled, Answers, Targets, HolderKnows;
    var v := Next(w, s);
    IssuedStays(w, v, server);
    if s.Exchange? && s.p == p {
      assert v.redemptions[|w.redemptions|] ==
        Redemption(server, w.procs[p].copy[server].idToken, v.procs[p].reply.idToken);
    } else {
      assert p in w.procs && w.procs[p].Answered() && w.procs[p].call == v.procs[p].call &&
        w.procs[p].reply == v.procs[p].reply;
    }
  }

  lemma StepKeepsLineage(w: World, s: Step, server: string, first: string, logins: set<string>)
    requires Invariant(w) && Enabled(w, s) && Lineage(w, server, first, logins) && first != "" &&
      Installs(s, server, logins)
    ensures Lineage(Next(w, s), server, first, logins)
  {
    var v := Next(w, s);
    StepServes(w, s, server, first, logins);
    forall p | p in v.procs && v.procs[p].Answered() && v.procs[p].call.server == server && v.procs[p].reply.Rotated?
      ensures Issued(v, server, v.procs[p].reply.idToken)
    {
      StepAnswers(w, s, server, p);
    }
    assert w.redemptions <= v.redemptions;
    IssuedStays(w, v, server);
    if server in v.file {
      FiledLineage(w, s, server, first, logins);
    }
  }

  lemma FiledLineage(w: World, s: Step, server: string, first: string, logins: set<string>)
    requires Invariant(w) && Enabled(w, s) && Lineage(w, server, first, logins) && Installs(s, server, logins)
    requires server in Next(w, s).file
    ensures Next(w, s).file[server].idToken == first || Legitimate(w, server, logins, Next(w, s).file[server].idToken)
  {
    hide Tokens, Unfiled, Answers, Targets, Issued;
    if s.Save? {
      assert HolderKnows(w, w.procs[s.p]);
    }
  }

  lemma {:induction false} RunKeepsLineage(w: World, steps: seq<Step>, server: string, first: string,
      logins: set<string>)
    requires Invariant(w) && Lineage(w, server, first, logins) && first != "" && CanRun(w, steps)
    requires forall s :: s in steps ==> Installs(s, server, logins)
    ensures Lineage(Run(w, steps), server, first, logins)
    decreases |steps|
  {
    hide Invariant, Lineage, Installs;
    if steps != [] {
      StepKeeps(w, steps[0]);
      StepKeepsLineage(w, steps[0], server, first, logins);
      RunKeepsLineage(Next(w, steps[0]), steps[1..], server, first, logins);
    }
  }

  /** A token handed out for `server` without having been read from the file was issued by a redemption. */
  predicate Served(w: World, server: string) {
    && InHand(w, server)
    && forall i ::
      0 <= i < |w.results| && w.results[i].call.server == server && w.results[i].read.None? &&
      w.results[i].result.Token? && w.results[i].result.id != "" ==>
      Issued(w, server, w.results[i].result.id)
  }

  lemma StepKeepsServed(w: World, s: Step, server: string)
    requires Invariant(w) && Enabled(w, s) && Served(w, server)
    ensures Served(Next(w, s), server)
  {
    var v := Next(w, s);
    forall p | p in v.procs && v.procs[p].Answered() && v.procs[p].call.server == server && v.procs[p].reply.Rotated?
      ensures Issued(v, server, v.procs[p].reply.idToken)
    {
      StepAnswers(w, s, server, p);
    }
    assert w.redemptions <= v.redemptions && w.results <= v.results;
    IssuedStays(w, v, server);
    StepHandsOut(w, s, server);
  }

  lemma StepHandsOut(w: World, s: Step, server: string)
    requires Invariant(w) && Enabled(w, s) && InHand(w, server)
    ensures |Next(w, s).results| <= |w.results| + 1
    ensures |Next(w, s).results| > |w.results| ==>
      var x := Next(w, s).results[|w.results|];
      x.call.server == server && x.read.None? && x.result.Token? && x.result.id != "" ==>
      Issued(w, server, x.result.id)
  {
    hide Tokens, Unfiled, Answers, Issued;
    if s.Finish? || s.Save? {
      assert HolderKnows(w, w.procs[s.p]);
    }
  }

  lemma {:induction false} RunKeepsServed(w: World, steps: seq<Step>, server: string)
    requires Invariant(w) && Served(w, server) && CanRun(w, steps)
    ensures Served(Run(w, steps), server)
    decreases |steps|
  {
    hide Invariant, Served;
    if steps != [] {
      StepKeeps(w, steps[0]);
      StepKeepsServed(w, steps[0], server);
      RunKeepsServed(Next(w, steps[0]), steps[1..], server);
    }
  }

  /**
   Over every run, a call that reports no token is never given one in its last minute: what it is given had
   more than a minute left when it was read from the file, or came from a redemption of that run.
   */
  lemma TokensServedAreFresh(w: World, steps: seq<Step>, x: Settled)
    requires Invariant(w) && AtRest(w) && CanRun(w, steps) && x in Run(w, steps).results
    requires x.call.rejected == "" && x.result.Token? && x.result.id != ""
    ensures if x.read.Some? then x.read.value.expiry - x.read.value.now > 60
      else Issued(Run(w, steps), x.call.server, x.result.id)
  {
    RunKeeps(w, steps);
    RunKeepsServed(w, steps, x.call.server);
    var v := Run(w, steps);
    var i :| 0 <= i < |v.results| && v.results[i] == x;
    assert Answers(v.results[i]);
  }

  /** The ID tokens that logins for `server` install in a run. */
  function LoginTokens(steps: seq<Step>, server: string): set<string> {
    set s | s in steps && s.Login? && s.server == server :: s.entry.idToken
  }

  /** At rest, with nothing recorded yet. */
  predicate AtRest(w: World) {
    w.redemptions == [] && w.results == [] && forall p :: p in w.procs ==> w.procs[p].Idle?
  }

  /** A call that reported `rejected` was given a token. */
  predicate ServedFor(x: Settled, server: string, rejected: string) {
    x.call == Call(server, rejected) && x.result.Token? && x.result.id != ""
  }

  /**
   Every process that reports the ID token on file as rejected and is given a token is given another one:
   issued by a redemption for that server within the run, or installed by a login. This holds over every
   run, whatever else the processes call, and however disturbed.
   */
  lemma RejectedTokenIsReplaced(w: World, steps: seq<Step>, server: string, x: Settled)
    requires Invariant(w) && AtRest(w) && CanRun(w, steps) && server in w.file && w.file[server].SignedIn()
    requires x in Run(w, steps).results && ServedFor(x, server, w.file[server].idToken)
    ensures x.result.id != w.file[server].idToken
    ensures x.result.id in LoginTokens(steps, server) || Issued(Run(w, steps), server, x.result.id)
  {
    var first, logins := w.file[server].idToken, LoginTokens(steps, server);
    RunKeeps(w, steps);
    RunKeepsLineage(w, steps, server, first, logins);
    var v := Run(w, steps);
    var i :| 0 <= i < |v.results| && v.results[i] == x;
    assert Answers(v.results[i]);
  }

  function Of(rs: seq<Redemption>, server: string): seq<Redemption> {
    if rs == [] then []
    else if rs[|rs| - 1].server == server then Of(rs[..|rs| - 1], server) + [rs[|rs| - 1]]
    else Of(rs[..|rs| - 1], server)
  }

  lemma {:induction false} OfIs(rs: seq<Redemption>, server: string, i: nat)
    requires i < |rs| && rs[i].server == server
    ensures rs[i] in Of(rs, server)
  {
    if i < |rs| - 1 {
      assert rs[..|rs| - 1][i] == rs[i];
      OfIs(rs[..|rs| - 1], server, i);
    }
  }

  /**
   However many processes report the same rejected ID token, and whatever other calls they and others
   make, at most one successful redemption replaces it; and when it is the server's only one and nobody
   signs in or out, every one of them that is given a token is given the token it issued.
   */
  lemma CohortSharesOneRedemption(w: World, steps: seq<Step>, server: string)
    requires Invariant(w) && AtRest(w) && CanRun(w, steps) && server in w.file && w.file[server].SignedIn()
    requires forall s :: s in steps ==> Undisturbed(s)
    ensures var rs := Run(w, steps).redemptions;
      forall i, j :: 0 <= i < j < |rs| ==>
        !(rs[i].from == w.file[server].idToken && rs[j].from == w.file[server].idToken)
    ensures var rs := Of(Run(w, steps).redemptions, server);
      |rs| == 1 && LoginTokens(steps, server) == {} ==>
        forall x :: x in Run(w, steps).results && ServedFor(x, server, w.file[server].idToken) ==>
          x.result.id == rs[0].to
  {
    OneRedemptionEach(w, steps);
    hide Invariant, Run, CanRun, AtRest, Of, LoginTokens, ServedFor;
    var rs := Of(Run(w, steps).redemptions, server);
    if |rs| == 1 && LoginTokens(steps, server) == {} {
      forall x | x in Run(w, steps).results && ServedFor(x, server, w.file[server].idToken)
        ensures x.result.id == rs[0].to
      {
        RejectedTokenIsReplaced(w, steps, server, x);
        IssuedIsTheOne(Run(w, steps), server, x.result.id);
      }
    }
  }

  lemma IssuedIsTheOne(v: World, server: string, id: string)
    requires Issued(v, server, id) && |Of(v.redemptions, server)| == 1
    ensures id == Of(v.redemptions, server)[0].to
  {
    var i :| 0 <= i < |v.redemptions| && v.redemptions[i].server == server && v.redemptions[i].to == id;
    OfIs(v.redemptions, server, i);
  }

  /** Every call about `server` reports `rejected`, and so every redemption for it replaces that token. */
  predicate SameComplaint(w: World, server: string, rejected: string) {
    && (forall p :: p in w.procs && !w.procs[p].Idle? && w.procs[p].call.server == server ==>
      w.procs[p].call.rejected == rejected)
    && (forall i :: 0 <= i < |w.redemptions| && w.redemptions[i].server == server ==> w.redemptions[i].from == rejected)
  }

  predicate Complains(s: Step, server: string, rejected: string) {
    s.Begin? && s.call.server == server ==> s.call.rejected == rejected
  }

  lemma {:induction false} RunKeepsComplaint(w: World, steps: seq<Step>, server: string, rejected: string)
    requires Invariant(w) && SameComplaint(w, server, rejected) && rejected != "" && CanRun(w, steps)
    requires forall s :: s in steps ==> Complains(s, server, rejected)
    ensures SameComplaint(Run(w, steps), server, rejected)
    decreases |steps|
  {
    hide Invariant, SameComplaint, Complains;
    if steps != [] {
      StepKeeps(w, steps[0]);
      StepKeepsComplaint(w, steps[0], server, rejected);
      RunKeepsComplaint(Next(w, steps[0]), steps[1..], server, rejected);
    }
  }

  lemma StepKeepsComplaint(w: World, s: Step, server: string, rejected: string)
    requires Invariant(w) && Enabled(w, s) && SameComplaint(w, server, rejected) && rejected != "" &&
      Complains(s, server, rejected)
    ensures SameComplaint(Next(w, s), server, rejected)
  {
    hide Tokens, Unfiled, Answers;
    if s.Exchange? || s.LostReply? {
      assert HolderKnows(w, w.procs[s.p]) && Targets(w, w.procs[s.p]);
    }
  }

  /** Processes that do nothing but report one token cause at most one redemption for that server. */
  lemma ComplaintsRedeemOnce(w: World, steps: seq<Step>, server: string)
    requires Invariant(w) && AtRest(w) && CanRun(w, steps) && server in w.file && w.file[server].SignedIn()
    requires forall s :: s in steps ==> Undisturbed(s) && Complains(s, server, w.file[server].idToken)
    ensures var rs := Run(w, steps).redemptions;
      forall i, j :: 0 <= i < j < |rs| ==> !(rs[i].server == server && rs[j].server == server)
  {
    OneRedemptionEach(w, steps);
    RunKeepsComplaint(w, steps, server, w.file[server].idToken);
  }

  // ---------- a sign-in is never lost wrongly ----------

  /**
   In any state of any run, disturbed or not: an entry disappears only by logging out; its tokens
   are taken away only when the ID token on file was due for a refresh, by a write that follows a
   definitive refusal of the very refresh token still on file, or that found none stored; its
   configuration stays; and only a write for that server or a login touches it at all.
   */
  lemma SignInsAreSafe(w: World, s: Step, server: string)
    requires Invariant(w) && Enabled(w, s) && server in w.file
    ensures server !in Next(w, s).file ==> s.Logout? && server in s.servers
    ensures server in Next(w, s).file && Next(w, s).file[server] != w.file[server] ==>
              (s.Login? && s.server == server) ||
                (s.Save? && w.procs[s.p].call.server == server &&
                Next(w, s).file[server].config == w.file[server].config)
    ensures server in Next(w, s).file && w.file[server].SignedIn() && !Next(w, s).file[server].SignedIn() ==>
              && s.Save? && Due(w.file[server], w.procs[s.p].call, w.procs[s.p].at)
              && (w.file[server].refreshToken == "" || w.file[server].refreshToken in w.refused)
    ensures |Next(w, s).results| > |w.results| && Next(w, s).results[|w.results|].result.Failed? ==>
      Next(w, s).file == w.file
  {
    if s.Save? {
      assert HolderKnows(w, w.procs[s.p]);
    }
  }

  /** Signed in with a refresh token, and nobody holding the lock is about to clear it. */
  predicate Secure(w: World, server: string) {
    && server in w.file && w.file[server].SignedIn() && w.file[server].refreshToken != ""
    && forall p :: p in w.procs && w.procs[p].Answered() && w.procs[p].call.server == server ==>
      SparesTokens(w.procs[p])
  }

  predicate SparesTokens(ph: Phase)
    requires ph.Answered()
  {
    if ph.Told? then !ph.reply.Definitive() else ph.reply.Rotated?
  }

  /** The user signs out, signs in without a refresh token, or the provider refuses the one on file. */
  predicate EndsSignIn(w: World, s: Step, server: string) {
    match s
    case Logout(servers) => server in servers
    case Login(v, e) => v == server && e.refreshToken == ""
    case Exchange(p, reply) => p in w.procs && w.procs[p].Asking? && w.procs[p].call.server == server &&
      reply.Definitive()
    case _ => false
  }

  predicate NeverEnds(w: World, steps: seq<Step>, server: string)
    requires CanRun(w, steps)
    decreases |steps|
  {
    steps == [] || (!EndsSignIn(w, steps[0], server) && NeverEnds(Next(w, steps[0]), steps[1..], server))
  }

  lemma StaysSecure(w: World, s: Step, server: string)
    requires Invariant(w) && Enabled(w, s) && Secure(w, server) && !EndsSignIn(w, s, server)
    ensures Secure(Next(w, s), server)
  {
    hide Tokens, Targets, Answers;
    var w' := Next(w, s);
    if s.Login? || s.Logout? {
      assert w'.procs == w.procs;
    } else {
      assert HolderKnows(w, w.procs[s.p]);
      assert forall q :: q in w'.procs && q != s.p ==> w'.procs[q] == w.procs[q];
      assert w'.procs[s.p].Answered() && w'.procs[s.p].call.server == server ==> SparesTokens(w'.procs[s.p]);
    }
  }

  /**
   Unreachable providers, lost replies, failed writes, crashes and other processes' calls never sign
   anyone out: over every run, a sign-in with a refresh token lasts until its owner ends it or the
   provider refuses that token.
   */
  lemma {:induction false} SignInLasts(w: World, steps: seq<Step>, server: string)
    requires Invariant(w) && Secure(w, server) && CanRun(w, steps) && NeverEnds(w, steps, server)
    ensures server in Run(w, steps).file && Run(w, steps).file[server].SignedIn()
    decreases |steps|
  {
    if steps != [] {
      StepKeeps(w, steps[0]);
      StaysSecure(w, steps[0], server);
      hide Invariant, Secure, EndsSignIn;
      SignInLasts(Next(w, steps[0]), steps[1..], server);
    }
  }

  /** Only the holder of the lock ever writes, so the second read before a clear finds what the first did. */
  lemma RereadAgrees(w: World, p: nat)
    requires Invariant(w) && p in w.procs && w.procs[p].Told?
    ensures w.procs[p].copy == w.file
    ensures w.procs[p].reply.Definitive() ==>
              Conclude(w.file, w.file, w.procs[p].call, w.procs[p].reply) ==
                Write(w.file[w.procs[p].call.server := w.file[w.procs[p].call.server].Cleared()], NotSignedIn)
  {
    assert HolderKnows(w, w.procs[p]);
  }

  // ---------- where runs begin ----------

  /** Nobody signed in and every process idle. */
  function Start(procs: set<nat>): World {
    World(map p | p in procs :: Idle, None, map[], Provider({}, {}, {}), {}, 0, [], [])
  }

  lemma StartHolds(procs: set<nat>)
    ensures Invariant(Start(procs)) && Live(Start(procs)) && Renewals(Start(procs)) && AtRest(Start(procs))
  {
  }

  // ---------- the API client's single retry ----------

  const UNAUTHORIZED := 401

  /** Having no token at all is an error once the server has asked for one. */
  function RefreshResult(r: Result): Result { if r == Token("") then NotSignedIn else r }

  /**
   One API call. `first` is the token source's answer, `answer` the server's status for a request
   carrying a token, `renewed` what the source returned, in some run of all the processes, when told
   that token was rejected.
   */
  method Fetch(server: string, first: Result, answer: string -> int, canRefresh: bool, renewed: Result,
      ghost start: World, ghost steps: seq<Step>)
    returns (sent: seq<string>, status: Option<int>)
    requires Invariant(start) && CanRun(start, steps)
    requires first.Token? && first.id != "" ==>
      exists read :: Settled(Call(server, first.id), renewed, read) in Run(start, steps).results
    ensures |sent| <= 2
    ensures |sent| == 2 ==> sent[0] != sent[1] && sent[0] != "" && sent[1] != "" && answer(sent[0]) == UNAUTHORIZED
    ensures sent == [] <==> !first.Token?
    ensures first.Token? ==> sent[0] == first.id
    ensures |sent| == 2 <==>
      && first.Token? && first.id != "" && answer(first.id) == 401
      && canRefresh && renewed.Token? && renewed.id != ""
    ensures |sent| == 2 ==> sent[1] == renewed.id
    ensures status.Some? <==>
      sent != [] && (|sent| == 1 ==> !(canRefresh && first.id != "" && answer(first.id) == UNAUTHORIZED))
    ensures status.Some? ==> status.value == answer(sent[|sent| - 1])
  {
    if !first.Token? {
      return [], None;
    }
    sent, status := [first.id], Some(answer(first.id));
    if first.id != "" {
      ghost var read :| Settled(Call(server, first.id), renewed, read) in Run(start, steps).results;
      assert Answers(Settled(Call(server, first.id), renewed, read)) by { RunKeeps(start, steps); }
    }
    hide Invariant;
    if status.value == UNAUTHORIZED && first.id != "" && canRefresh {
      var next := RefreshResult(renewed);
      if !next.Token? {
        return sent, None;
      }
      sent, status := sent + [next.id], Some(answer(next.id));
    }
  }
}
