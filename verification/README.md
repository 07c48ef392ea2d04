# Verified model of the topology visualizer

A Dafny model of the measurement pipeline behind the runtime topology graph, and of the protocols
and algorithms around it, with proofs. `dafny verify dfyconfig.toml` checks the whole project.

The pipeline: a kernel program turns TCP state changes into records (`Tracker`); the agent resolves
addresses to workloads (`Resolver`), folds observations into edges (`Aggregate`) and posts batches
from a bounded queue over a lossy network (`Delivery`); the backend stores each batch id once in
one-minute buckets, in memory (`MemoryStore`) or in SQL (`PostgresStore`), and answers windowed
queries. `Pipeline` puts agents, queues, network and store into one step system and proves that the
store counts every ingested interval exactly once, and that once everything is delivered nothing is
missing but what some counter shows and the batches an agent refused to send.
Everything that adds up is stated against one definition, `Tallies.Scan`, the naive walk over the
raw items; `Identity` shows that the ids everything is keyed by are injective.

Around it: credential refresh between processes sharing one file (`Credentials`), the layout pass
that separates boxes (`Separation`), edge routing around discs (`Routing`), namespace collapsing
(`Grouping`), alert cooldown and dispatch (`Alerts`) and anomaly detection (`Anomalies`).

Where the source updates things in place the model is a class or a method with loops, proved against
a function on values; the theorems over runs are about those functions.

## What the proofs found

- A batch that fails the agent's own validation is dropped with a log line and no counter
  (agent/cmd/agent/main.go:322-326), and with it every observation of the interval. A connection to
  port 0 is enough: it passes every filter, the infrastructure ports cannot name it, and it makes the
  whole batch invalid (`Aggregate.PortZeroSpoilsTheInterval`). So is a flush interval above an hour,
  which the configuration accepts (`Aggregate.HeaderIsSound`). `Aggregate.FlushedBatchIsValid` shows
  that nothing else can be wrong, and `Pipeline.OnlyRefusedIntervalsAreMissing` that nothing else goes
  uncounted.
- The queue's bound holds only for one producer, as wired; with n producers it can be exceeded by
  n - 1 and no more (`Delivery.ProducersOverrunBy`, `Delivery.ProducersDoOverrun`).
- The two storage adapters keep different descriptions of a new node that one batch describes two
  ways: one keeps the first, the other the last (`PostgresStore.AdaptersAgree` gives the exact
  condition on the batch). Agents make no such batch (`PostgresStore.AgentRefsAreStable`), so for agents'
  batches the adapters part only on the next point (`PostgresStore.AgentHistoriesAgree`).
- After retention has swept a batch id, SQL storage accepts a replay of that batch again; in-memory
  storage never does (`PostgresStore.ReplayAfterSweep`).
- Any HTTP error status from the token endpoint, a passing 503 included, counts as a definitive
  refusal and clears the sign-in (`Credentials.ResponseSignsOutIff`,
  `Credentials.UnavailableSignsOut`); a grant without a valid ID token clears it too. No response, or
  one that cannot be read, keeps it.
- Since every writer takes the lock, the branch of a refused refresh that finds a changed file is
  never taken (`Credentials.RereadAgrees`).
- The bend cap can leave an edge crossing a disc it set out to avoid; `Routing.ChosenClearsIff` says
  exactly when.
- The collapsed view compares timestamps as text (frontend/src/features/graph/grouping.ts:47-48). The API
  leaves the fraction out of a whole second (backend/app/domain/models.py:180-181), and "." sorts before
  "Z", so within one second a whole time counts as the latest. A row can then claim a later start or an
  earlier end than its edges had; `Grouping.RowTimesAreTimesIff` says exactly when.
- A node with the empty id that stays in the collapsed view loses its edges, because an empty
  representative reads as missing (`Grouping.KnownIff`, `Grouping.NamelessLosesItsEdges`). The API
  admits no such id (backend/app/domain/models.py:71).

## Assumptions

Clocks, random waits, ids, network replies, evictions and crashes are parameters or steps, so every
theorem is about all of them. Batch ids and issued tokens are unique. Pixel coordinates, square roots,
ratios and means are exact reals. A trace of socket states is well formed as described in
`Tracker.dfy`. JSON rendering of edge keys is injective. The API writes times in UTC, to the second in 19
characters that sort chronologically, then six digits of fraction unless they are zero, then "Z". The
OAuth library reports a status outside 200 to 299, or an error code in the body (section 5.2 of RFC
6749), as the endpoint's refusal, and any other failure to obtain a token as a failure to connect.

## Model

| member | source | states |
|---|---|---|
| `Tallies.GroupsScanAlike` | backend/app/persistence/memory.py:146-199 | A correct grouping answers every query a scan of the raw items answers, for any set of keys. |
| `Tallies.ScanMeans` | backend/app/persistence/memory.py:98-112 | A fold is the plain sum of each counter; an optional counter is absent exactly when every contributor left it absent; the times are the tight hull. |
| `Tallies.GroupingConserves` | agent/internal/aggregate/aggregate.go:187-244 | Grouping neither loses nor makes up an attempt. |
| `Ordering.KeyLessTotal` | backend/app/persistence/memory.py:182-199 | Of two different sort keys exactly one comes first. |
| `Ordering.KeyLessTransitive` | backend/app/persistence/memory.py:182-199 | The order of sort keys is transitive. |
| `Ordering.KeyLessIff` | agent/internal/aggregate/aggregate.go:221-233 | Keys compare by source, then target, then protocol, then port. |
| `Ordering.StrLessIff` | agent/internal/aggregate/aggregate.go:221-233 | Texts compare at their first difference, and a text comes before its extensions. |
| `Ordering.SortedUnique` | agent/internal/aggregate/aggregate.go:219-233 | Sorted output is determined by its contents; map iteration order leaves no trace. |
| `Ordering.SortByKey` | agent/internal/aggregate/aggregate.go:219-233 | Sorting gives a sorted permutation, strictly sorted when keys differ. |
| `Ordering.SortedValues` | agent/internal/aggregate/aggregate.go:201-233 | Walking a map in any order and sorting lists every value once, by key. |
| `Contract.Validate` | agent/internal/contract/batch.go:117-193 | The first fault found is returned; a batch passes exactly when its header and every edge are sound. |
| `Contract.FirstEdgeFault` | agent/internal/contract/batch.go:132-143 | The fault reported is that of the first faulty edge. |
| `Contract.SoundEdgeIff` | agent/internal/contract/batch.go:145-193 | An edge passes exactly when its ends are named and of an allowed kind, it is TCP on a port 1 to 65535, it counts an attempt, and its timings and times are consistent. |
| `Contract.SoundHeaderIff` | agent/internal/contract/batch.go:117-136 | A header passes exactly when it is of version 1, names cluster and agent, has a 26-character Crockford id, a time and an interval of 1 to 3600 seconds. |
| `Contract.Cut` | backend/app/domain/models.py:32-60 | A string is cut uniquely at its first separator and at its last. |
| `Identity.NodeIdInjective` | agent/internal/contract/batch.go:86-101 | Accepted segments map one to one to node ids, none of which is the external id. |
| `Identity.EdgeIdInjective` | backend/app/domain/models.py:54-60 | Edge ids are injective over canonical node ids even when workload names hold the separator. |
| `Identity.DecimalInjective` | backend/app/domain/models.py:54-60 | Ports print distinctly. |
| `Identity.NodeIdAsWritten` | agent/internal/contract/batch.go:100-100 | The order of the parts in a node id. |
| `Identity.EdgeIdAsWritten` | backend/app/domain/models.py:54-60 | The order of the parts in an edge id. |
| `Aggregate.Entry.Fold` | agent/internal/aggregate/aggregate.go:162-176 | One observation changes an entry as the merge of its contribution does: a failure adds to the failures only, a success to the connections only. |
| `Aggregate.Aggregator.Add` | agent/internal/aggregate/aggregate.go:114-177 | Each observation is counted once, discarded under exactly one reason or folded into its edge; the conservation invariant is kept. |
| `Aggregate.Aggregator.Accept` | agent/internal/aggregate/aggregate.go:144-176 | The entry of the observation's key is found or made, and only it changes. |
| `Aggregate.Aggregator.Flush` | agent/internal/aggregate/aggregate.go:187-244 | Everything accepted since the last flush comes back as one sorted batch of distinct edges; nothing when nothing was accepted, though the flush is counted. |
| `Aggregate.Aggregator.AddAll` | agent/internal/aggregate/aggregate.go:114-244 | A batch flushed earlier, although it points into old entries, reads the same after any run of later additions; what joins the log is exactly the observations on other than infrastructure ports whose ends are both drawn and named. |
| `Aggregate.Export` | agent/internal/aggregate/aggregate.go:201-233 | The rendered edges list every entry once, in key order. |
| `Aggregate.FlushConserves` | agent/internal/aggregate/aggregate.go:187-244 | A batch's successes and failures add up to its observations. |
| `Aggregate.FlushRecounts` | agent/internal/aggregate/aggregate.go:162-216 | Every edge of a flush carries the number of its own observations that succeeded, the number that failed, the count and sum of the non-negative latencies of the successful ones, the least and the greatest of their times, and the ends as one of them has them. |
| `Aggregate.FoldRecounts` | agent/internal/aggregate/aggregate.go:162-176 | The same for the fold of any log under any key, present or not. |
| `Aggregate.ReasonsAreCounted` | agent/internal/aggregate/aggregate.go:114-142 | Over any run each discard counter grows by the number of observations its reason applies to and no earlier reason does. |
| `Aggregate.KeptAre` | agent/internal/aggregate/aggregate.go:114-142 | The rest are the observations on other than infrastructure ports whose ends are both drawn and named. |
| `Aggregate.ObservedIsConserved` | agent/internal/aggregate/aggregate.go:45-53 | Observed equals the discards plus all attempts in flushed and in pending edges, in every state. |
| `Aggregate.FlushedRefsAgree` | agent/internal/aggregate/aggregate.go:201-233 | Whichever observations describe them, two references of one flush with the same id are the same. |
| `Aggregate.FlushedEdgeIsValid` | agent/internal/contract/batch.go:145-180 | The only fault a flushed edge can have is port 0. |
| `Aggregate.FlushedBatchIsValid` | agent/internal/contract/batch.go:117-193 | With ends from the resolver, TCP and a real time, a flushed batch passes validation exactly when its header does and no observation names port 0. |
| `Aggregate.PortZeroSpoilsTheInterval` | agent/cmd/agent/main.go:288-296 | A connection to port 0 gets past every filter, and no batch of an interval that holds one is valid. |
| `Aggregate.HeaderIsSound` | agent/cmd/agent/main.go:90-96 | A flush writes a sound header exactly for intervals up to an hour, which the configuration does not enforce. |
| `Aggregate.ExportIsFlush` | agent/internal/aggregate/aggregate.go:187-233 | Listing the accumulated entries is a grouping of the accepted observations. |
| `Delivery.Client.Enqueue` | agent/internal/delivery/delivery.go:81-113 | Undisturbed, it is its atomic steps in order: a full queue loses its oldest batch, the newest is kept. |
| `Delivery.Client.Pop` | agent/internal/delivery/delivery.go:283-292 | Removes the batch with that id and no other. |
| `Delivery.Client.AttemptWithRetry` | agent/internal/delivery/delivery.go:147-189 | Retries exactly the replies by status that may get better, waits by the capped doubling backoff, and counts each retry, the delivery, the duplicate or the rejection. |
| `Delivery.Client.Drain` | agent/internal/delivery/delivery.go:238-270 | Delivers a prefix of the queue in order and stops at the first failure or the deadline. |
| `Delivery.BackoffDoubles` | agent/internal/delivery/delivery.go:147-189 | Each wait doubles the last until the cap. |
| `Delivery.RepliesAre` | agent/internal/delivery/delivery.go:200-232 | 200 and 202 mean the backend has the batch; no response, 408, 429, 500 and above or an unexpected status below 400 is retried; any other client error, or a batch that cannot be sent, is given up. |
| `Delivery.DrainingCounts` | agent/internal/delivery/delivery.go:238-270 | While draining only deliveries are counted. |
| `Delivery.PopIsSafe` | agent/internal/delivery/delivery.go:283-292 | Pop never removes a batch that is not settled, even when the head was evicted while in flight. |
| `Delivery.StepKeeps` | agent/internal/delivery/delivery.go:81-189 | Every atomic step of producer and consumer keeps the queue invariant. |
| `Delivery.QueueInvariant` | agent/internal/delivery/delivery.go:81-143 | In every interleaving of one producer and one consumer the queue is a contiguous suffix of what was enqueued and within its bound; at rest, sent, rejected, dropped and pending add up to enqueued plus those evicted in flight and then settled. |
| `Delivery.ProducersOverrunBy` | agent/internal/delivery/delivery.go:81-113 | With n producers the queue is never more than n - 1 over its bound, in any run. |
| `Delivery.ProducersDoOverrun` | agent/internal/delivery/delivery.go:81-113 | From a full queue some schedule of n producers reaches n - 1 over: the lock is released between evicting and appending. |
| `MemoryStore.BucketStart` | backend/app/domain/window.py:47-54 | The minute a moment falls in. |
| `MemoryStore.InMemoryRepository.UpsertNode` | backend/app/persistence/memory.py:116-142 | A known node keeps its description and widens its times; an unknown one is added. |
| `MemoryStore.InMemoryRepository.IngestOne` | backend/app/persistence/memory.py:75-112 | Both ends are upserted and the edge's bucket merged. |
| `MemoryStore.InMemoryRepository.IngestBatch` | backend/app/persistence/memory.py:67-114 | A replayed id changes nothing; a new batch adds its edges to the raw log once. |
| `MemoryStore.InMemoryRepository.QueryEdges` | backend/app/persistence/memory.py:146-199 | Strictly sorted, one row per edge, each row the naive scan of the log over the window and filters. |
| `MemoryStore.InMemoryRepository.PurgeExpired` | backend/app/persistence/memory.py:246-257 | Drops the buckets before the cut and the nodes no bucket names; the counts returned are exact. |
| `MemoryStore.IngestKeeps` | backend/app/persistence/memory.py:67-114 | Ingest keeps the index; ingesting again is a no-op. |
| `MemoryStore.PurgeKeeps` | backend/app/persistence/memory.py:246-257 | After a purge the store indexes the log's tail and the node table is exactly the endpoints of the remaining buckets. |
| `MemoryStore.StoreIndexesSurvivors` | backend/app/persistence/memory.py:67-257 | After any sequence of ingests, replays and purges, the buckets index the surviving accepted edges and the node table holds exactly their ends. |
| `MemoryStore.NodesAreAsSighted` | backend/app/persistence/memory.py:116-142 | After any history a node is described as its first mention since it was last absent describes it, and spans the times of all mentions since. |
| `MemoryStore.AnswersUnique` | backend/app/persistence/memory.py:182-199 | Two correct answers to one query are the same list. |
| `MemoryStore.PassesIff` | backend/app/persistence/memory.py:201-227 | An edge is answered exactly when both ends are known, the outside world is asked for or not an end, and namespace, kind and search text each fit one of its ends. |
| `MemoryStore.ContainsIff` | backend/app/persistence/memory.py:222-225 | The search text fits when it occurs anywhere in the case-folded label. |
| `MemoryStore.WindowsTile` | backend/app/domain/window.py:42-54 | The answer over [a, c) is the merge of those over [a, b) and [b, c). |
| `MemoryStore.AnsweredEdgeHasNodes` | backend/app/persistence/memory.py:201-227 | Every edge with anything in a window has both ends in the node table. |
| `MemoryStore.PurgeInvisible` | backend/app/persistence/memory.py:246-257 | A query whose window starts at or after the cut answers as it did before the purge, under any filters. |
| `PostgresStore.PostgresRepository.IngestBatch` | backend/app/persistence/postgres.py:184-296 | The statements together are the transaction the comparison speaks of. |
| `PostgresStore.PostgresRepository.PurgeExpired` | backend/app/persistence/postgres.py:430-475 | The bounded delete loop ends and, uninterrupted, leaves what one unbounded delete leaves. |
| `PostgresStore.LimitedDelete` | backend/app/persistence/postgres.py:441-455 | A bounded delete removes only expired rows, and all of them when it removes fewer than its limit. |
| `PostgresStore.SweepBuckets` | backend/app/persistence/postgres.py:436-457 | Repeating bounded deletes until a short one removes exactly the expired rows. |
| `PostgresStore.WriteNodes` | backend/app/persistence/postgres.py:216-235 | Upserting the pre-merged nodes one by one, in any order, gives the merged table. |
| `PostgresStore.SqlMergeIsMerge` | backend/app/persistence/postgres.py:249-278 | The NULL-aware CASE and COALESCE rules are the in-memory merge. |
| `PostgresStore.AdaptersAgree` | backend/app/persistence/postgres.py:184-296 | After one batch the two adapters agree on outcome, ids and buckets always, and on nodes if and only if every newly named node is described alike by its first and its last mention in the batch. |
| `PostgresStore.FirstIsKept` | backend/app/persistence/memory.py:116-142 | Upserting mention by mention keeps the first description. |
| `PostgresStore.LastIsKept` | backend/app/persistence/postgres.py:202-214 | The pre-merge keeps the last description. |
| `PostgresStore.StableMeansSameDescriptions` | backend/app/persistence/postgres.py:202-214 | The condition on the batch is the condition on the two tables. |
| `PostgresStore.AdaptersCanDiffer` | backend/app/persistence/postgres.py:202-214 | A batch describing one new node two ways leaves the node tables apart. |
| `PostgresStore.HistoriesAgree` | backend/app/persistence/postgres.py:171-296 | Over any history of one cluster's batches and purges, every edge counting an attempt, the adapters hold the same buckets and nodes throughout if and only if each batch is still on file in SQL by arrival times and cuts, or empty, or new to both with its new nodes described alike by first and last mention. |
| `PostgresStore.AgentRefsAreStable` | agent/internal/aggregate/aggregate.go:201-233 | A batch an agent makes describes every node in one way. |
| `PostgresStore.AgentHistoriesAgree` | backend/app/persistence/postgres.py:171-296 | Over any history of one cluster's agent-made batches and purges, the adapters hold the same rows throughout if and only if no batch comes back after retention has cut past the time of its first arrival. |
| `PostgresStore.AggregateIsScan` | backend/app/persistence/postgres.py:309-359 | SQL's column-wise aggregate of a group is the row-by-row merge of it. |
| `PostgresStore.SqlQueryAnswersLog` | backend/app/persistence/postgres.py:300-380 | SQL returns a row for an edge exactly when a naive scan of the log answers that row. |
| `PostgresStore.SweepAgrees` | backend/app/persistence/postgres.py:430-475 | Both purges leave the same buckets and the same nodes. |
| `PostgresStore.RememberedIff` | backend/app/persistence/postgres.py:187-202 | A batch id that arrived once is on file exactly as long as no retention has cut past the time of that arrival. |
| `PostgresStore.StampOfFirst` | backend/app/persistence/postgres.py:187-202 | The same for an id that was replayed only while on file: the first arrival counts. |
| `PostgresStore.ReceivedIsStamped` | backend/app/persistence/postgres.py:473-473 | The time on file for an id follows from arrival times and cuts alone. |
| `PostgresStore.NewIdOutlastsIff` | backend/app/persistence/postgres.py:473-473 | A new id is written with the time of writing: the next cut keeps it exactly when it is no later. |
| `PostgresStore.ReplayAfterSweep` | backend/app/persistence/postgres.py:473-473 | Retention also forgets batch ids: a replay is accepted again, and its edges counted again, exactly when its id has been swept. |
| `PostgresStore.StatementsKeepEndpoints` | backend/app/persistence/postgres.py:430-475 | However the statements of purges and the ingestion of batches interleave, every bucket keeps both ends in the node table and none after the cut is dropped. |
| `Pipeline.StepKeeps` | agent/cmd/agent/main.go:245-267 | Every move of any agent, the network or the backend keeps the end-to-end invariant. |
| `Pipeline.ExactlyOnce` | agent/internal/delivery/delivery.go:117-189 | In every interleaving of any number of agents, the store holds for every edge the observations of the ingested intervals, each once. |
| `Pipeline.OnlyRefusedIntervalsAreMissing` | agent/cmd/agent/main.go:308-332 | Once nothing is on the way and no counter shows a loss, an unfiltered query answers, for every edge, as many connections, failures and timings, over the same span of time, as there were observations whose interval made a valid batch. |
| `Pipeline.NothingRefusedIff` | agent/cmd/agent/main.go:322-326 | With every interval flushed, no batch was refused exactly when every header was sound and no observation named port 0. |
| `Pipeline.NothingLostSilently` | backend/app/persistence/memory.py:67-114 | With ports named and headers sound nothing is refused, and the same query counts the successes, failures and timings of every accepted observation of the run. |
| `Resolver.WorkloadBehindService` | agent/internal/resolver/resolver.go:269-292 | The loop over endpoints computes the order-free definition. |
| `Resolver.BehindExactly` | agent/internal/resolver/resolver.go:269-292 | A Service resolves to w exactly when w serves it and nothing with another id does. |
| `Resolver.BehindOrderFree` | agent/internal/resolver/resolver.go:269-292 | The full answer is the same under every order and multiplicity of endpoints. |
| `Resolver.WorkloadIs` | agent/internal/resolver/resolver.go:231-258 | A pod stands for its Deployment through a ReplicaSet, for its StatefulSet, DaemonSet or Job, and else for itself. |
| `Resolver.ReplicasShareIdentityIff` | agent/internal/resolver/resolver.go:231-258 | Two nameable pods share an id exactly when they stand for the same owner in the same namespace. |
| `Resolver.SourceIs` | agent/internal/resolver/resolver.go:150-172 | As a source, a node address is the host whatever pod claims it; otherwise a pod is its workload and anything else unresolved. |
| `Resolver.ClusterIpIs` | agent/internal/resolver/resolver.go:183-195 | As a destination, a cluster IP is the workload behind it if there is one and no other, and else the Service itself. |
| `Resolver.PodAddressIs` | agent/internal/resolver/resolver.go:197-213 | Otherwise a pod address is its workload, with the Services that share it when there are several. |
| `Resolver.OtherAddressIs` | agent/internal/resolver/resolver.go:215-227 | Otherwise a node is the host, a routable address external, and anything else unresolved. |
| `Resolver.RoutableIff` | agent/internal/resolver/resolver.go:319-337 | Routable means outside the seven reserved blocks and not 0.0.0.0. |
| `Resolver.OneIdentityAtBothEnds` | agent/internal/resolver/resolver.go:150-229 | A pod address that is neither node nor cluster IP has one identity as source and as destination. |
| `Resolver.ServiceMeetsItsPods` | agent/internal/resolver/resolver.go:183-229 | A cluster IP resolves to what its pod is as a source exactly when one workload serves it. |
| `Resolver.GraphableIdsAreCanonical` | agent/internal/resolver/resolver.go:231-315 | What is emitted for the graph has a canonical id or none, and an allowed kind. |
| `Resolver.EmittedIsNamed` | agent/internal/resolver/resolver.go:150-315 | Whatever the caches hold, an emitted endpoint with an id has an allowed kind and a name. |
| `Credentials.PassTakesTokensIff` | cli/internal/auth/source.go:105-161 | One pass under the lock touches only its server's entry, keeps the configuration, and takes tokens away exactly when the token reported is the one on file, or none is reported and it has a minute or less to live, and no refresh token is stored or the provider answered without a usable ID token; a rotation stores the new ID token, its expiry and the new refresh token if there is one; what it returns is what is then on file. |
| `Credentials.FastPathIff` | cli/internal/auth/source.go:84-105 | Without the lock, a signed-in call is given the token on file exactly when that is not the one it reports, or, reporting none, when more than a minute is left. |
| `Credentials.LockedPathIff` | cli/internal/auth/source.go:107-127 | Under the lock the same decides between the token on file, a redemption, and clearing when no refresh token is stored. |
| `Credentials.ResponseSignsOutIff` | cli/internal/auth/login.go:360-380 | A due refresh signs the user out exactly when the endpoint answered with a status outside 200 to 299, an OAuth error code, or a grant without an acceptable ID token. |
| `Credentials.UnavailableSignsOut` | cli/internal/auth/login.go:360-374 | A status of 503 clears the sign-in; no response at all changes nothing. |
| `Credentials.GrantIsStored` | cli/internal/auth/source.go:196-213 | A due refresh that is granted stores the ID token, its expiry and the refresh token if one came, keeps the configuration, and returns the new token. |
| `Credentials.Store.ClearIfRefreshTokenIs` | cli/internal/auth/source.go:217-224 | Clears exactly when the stored refresh token is still the one that failed. |
| `Credentials.Store.UnderLock` | cli/internal/auth/source.go:107-156 | The callback run under the lock computes that pass. |
| `Credentials.Store.Logout` | cli/internal/auth/commands.go:162-174 | Removes exactly the named entry, or all of them. |
| `Credentials.StepKeeps` | cli/internal/auth/store.go:94-119 | Every step of every process, crashes, lost replies and failed writes included, keeps the invariant. |
| `Credentials.RereadAgrees` | cli/internal/auth/source.go:134-152 | Only the lock holder writes, so the read before a clear finds what the first read did; the branch for a changed file is never taken. |
| `Credentials.NoReplay` | cli/internal/auth/source.go:84-161 | Over every interleaving in which no spent token is stranded, a rotated refresh token is never presented again. |
| `Credentials.StrandingCanReplay` | cli/internal/auth/source.go:153-160 | Whenever a reply that spent the token is lost, or its holder crashes or fails to write, some continuation presents it again: the condition is exact. |
| `Credentials.OneRedemptionEach` | cli/internal/auth/source.go:117-120 | Each ID token is replaced by at most one successful redemption. |
| `Credentials.RejectedTokenIsReplaced` | cli/internal/auth/source.go:71-81 | Over every run, with any other calls and any disturbance, a process that reports the ID token on file and is given a token is given a different one, issued by a redemption for that server or installed by a login. |
| `Credentials.TokensServedAreFresh` | cli/internal/auth/source.go:163-168 | Over every run, a call that reports no token is given one that had more than a minute left when read from the file, or one a redemption of the run issued. |
| `Credentials.CohortSharesOneRedemption` | cli/internal/auth/source.go:84-161 | Over every undisturbed run at most one redemption replaces a given ID token; when it is the only one for its server and nobody signs in, every process that reported that token and is given one is given the token it issued. |
| `Credentials.ComplaintsRedeemOnce` | cli/internal/auth/source.go:114-120 | Processes that do nothing but report one token cause at most one redemption for that server. |
| `Credentials.StartHolds` | cli/internal/auth/store.go:85-93 | With nobody signed in and every process idle, all the invariants hold. |
| `Credentials.SignInsAreSafe` | cli/internal/auth/source.go:121-152 | In any state of any run an entry disappears only by logging out, and loses its tokens only when its ID token was the one reported or had a minute or less to live, and the refresh token on file was refused or none was stored; a failed call changes nothing. |
| `Credentials.SignInLasts` | cli/internal/auth/source.go:128-133 | Unreachable providers, lost replies, failed writes, crashes and other calls never end a sign-in that has a refresh token. |
| `Credentials.Fetch` | cli/internal/api/client.go:210-234 | One API call sends at most two requests, never the same token twice, the second exactly after a 401 for which the source has another token, whatever run of all processes produced it. |
| `Tracker.Program.Trace` | agent/bpf/tcp_connect.bpf.c:96-174 | One call of the handler makes the transition the theorems speak of. |
| `Tracker.Program.Settle` | agent/bpf/tcp_connect.bpf.c:128-173 | The part that reports an outcome, branch by branch. |
| `Tracker.NextTracks` | agent/bpf/tcp_connect.bpf.c:109-140 | Every step keeps: each remembered start is a socket now in SYN_SENT, mapped to the time it got there. |
| `Tracker.RunTracks` | agent/bpf/tcp_connect.bpf.c:96-174 | The same for every well-formed trace with arbitrary evictions. |
| `Tracker.NextNotes` | agent/bpf/tcp_connect.bpf.c:109-140 | The starts remembered are exactly those of sockets whose last transition opened them with a successful update and that were not evicted since. |
| `Tracker.RingTellsAttempts` | agent/bpf/tcp_connect.bpf.c:128-171 | The ring receives exactly the reported attempts in order, each told truthfully; it has a duration, its own, exactly when it succeeded, its start was noted and kept, and the clock did not go back. |
| `Tracker.CountersPartition` | agent/bpf/tcp_connect.bpf.c:31-40 | Submitted plus dropped equals the settled active opens, and every other transition is counted under its one heading. |
| `Tracker.MissesAreExplained` | agent/bpf/tcp_connect.bpf.c:84-91 | Every attempt without a remembered start is paid for by an eviction, a failed update or a socket first seen mid-handshake. |
| `Tracker.MissesAreCounted` | agent/bpf/tcp_connect.bpf.c:136-138 | The counter of misses grows by the settled attempts whose start was not noted or not kept. |
| `Tracker.EveryConnectionIsTimed` | agent/bpf/tcp_connect.bpf.c:128-171 | With no eviction, no failed update, no socket first seen when it settles and a clock that never goes back, every reported connection that succeeds reaches the agent with its latency. |
| `Tracker.ReopeningBreaksTracking` | agent/bpf/tcp_connect.bpf.c:111-115 | A transition from SYN_SENT to SYN_SENT with a failed update would leave an old start behind. |
| `Tracker.LayoutIs` | agent/bpf/tcp_connect.bpf.c:63-77 | Where each field of the 40-byte record lies, least significant byte first. |
| `Tracker.RecordRoundTrip` | agent/internal/collector/layout.go:37-76 | Reading the 40-byte layout gives every field back, whatever follows it. |
| `Tracker.BytesRoundTrip` | agent/bpf/tcp_connect.bpf.c:63-77 | Writing what was read gives the bytes back; only padding is unread. |
| `Tracker.EmittedDecodes` | agent/internal/collector/collector.go:166-199 | Every record the program emits, for all 64-bit clocks, decodes without reaching an error branch and says what the record meant. |
| `Tracker.DecodesIff` | agent/internal/collector/collector.go:173-181 | Decoding a laid-out record succeeds exactly when its flags are sound. |
| `Tracker.EveryEventRecountsItsAttempt` | agent/internal/collector/collector.go:135-199 | Over every well-formed trace the agent decodes one event per reported attempt, in order, each telling its own attempt, with a latency exactly when there is one to tell. |
| `Separation.Drop` | frontend/src/features/graph/layout.ts:201-216 | The inner loop ends, at the least height not above the start that is clear of every placed box. |
| `Separation.Layout.Separate` | frontend/src/features/graph/layout.ts:195-220 | Each entry is put down straight below where its node stood, at the least height clear of those before it; of any two boxes one ends at least 32 pixels beside, above or below the other, nothing moves sideways or up, other positions stay. |
| `Separation.PlacedIsSettled` | frontend/src/features/graph/layout.ts:195-220 | With no node listed twice that is the settled layout. |
| `Separation.SettledIsSeparated` | frontend/src/features/graph/layout.ts:184-194 | A settled layout is separated and is the old one exactly when that was already apart. |
| `Separation.SettledUnique` | frontend/src/features/graph/layout.ts:206-214 | The outcome does not depend on which hit is found first. |
| `Routing.EdgeBends` | frontend/src/features/graph/edgeGeometry.ts:12-24 | A lone edge is straight; each sibling gets one step for every id of its pair that sorts no later; an id used between several pairs gets the bend of the pair listed last. |
| `Routing.BasesDiffer` | frontend/src/features/graph/edgeGeometry.ts:12-24 | Edges sharing a node pair get different, positive bends. |
| `Routing.BasesStep` | frontend/src/features/graph/edgeGeometry.ts:12-24 | Siblings step outwards 22 pixels at a time in the order of their ids, and a lone edge is straight. |
| `Routing.RouteEdge` | frontend/src/features/graph/edgeGeometry.ts:52-105 | The loop over discs computes the bend the theorems speak of. |
| `Routing.RouteBends` | frontend/src/features/graph/edgeGeometry.ts:45-107 | Every edge gets its bend, the last listed under an id deciding, and nothing else does. |
| `Routing.PassesAt` | frontend/src/features/graph/edgeGeometry.ts:122-131 | Where a disc projects, the curve stands off its centre by exactly the sway of the bend less the disc's offset. |
| `Routing.BlocksIff` | frontend/src/features/graph/edgeGeometry.ts:79-83 | A disc is in the way exactly when it projects strictly between the ends and lies within its radius and the clearance of the straight line there. |
| `Routing.ObstaclesAre` | frontend/src/features/graph/edgeGeometry.ts:77-78 | Every disc is considered but those of the edge's own ends. |
| `Routing.NeedsAreExact` | frontend/src/features/graph/edgeGeometry.ts:73-97 | A bend clears every obstacle exactly when it reaches one of the two computed needs. |
| `Routing.ChosenClearsIff` | frontend/src/features/graph/edgeGeometry.ts:98-104 | The chosen bend clears every obstacle if and only if the smaller need fits the cap plus the parallel bend. |
| `Routing.ChosenIsGentlest` | frontend/src/features/graph/edgeGeometry.ts:31-44 | No curve that clears every obstacle bends less than the chosen one, its parallel bend apart. |
| `Routing.ChosenBends` | frontend/src/features/graph/edgeGeometry.ts:102-103 | The chosen bend is the smaller need, or the cap when that is smaller, plus exactly the parallel bend, on the side of the smaller need. |
| `Routing.RoutedBend` | frontend/src/features/graph/edgeGeometry.ts:52-105 | With no other node in the way an edge keeps its parallel bend; otherwise it clears all of them whenever a need fits the cap, and no clearing curve bends less. |
| `Routing.CapCanCut` | frontend/src/features/graph/edgeGeometry.ts:102-104 | Four nodes of drawn sizes, laid out apart, among which an edge is cut by the cap and does not clear its obstacles. |
| `Routing.NeedsReversed` | frontend/src/features/graph/edgeGeometry.ts:67-97 | Travelling the other way exchanges the two needs. |
| `Routing.SiblingsNeverMeet` | frontend/src/features/graph/edgeGeometry.ts:4-24 | The routed curves of two edges sharing a node pair have no point in common between their ends, in either direction and around any obstacles. |
| `Grouping.PickId` | frontend/src/features/graph/grouping.ts:13-14 | The search ends with the least padding that makes the id free. |
| `Grouping.NamespaceIds` | frontend/src/features/graph/grouping.ts:10-17 | One new id per namespace, none of them a node's and no two alike. |
| `Grouping.Represent` | frontend/src/features/graph/grouping.ts:18-33 | Every node has its representative and each collapsed namespace counts its workloads. |
| `Grouping.ShownAreRepresentatives` | frontend/src/features/graph/grouping.ts:18-33 | Exactly the representatives of the listed nodes are drawn. |
| `Grouping.DrawnTogetherIff` | frontend/src/features/graph/grouping.ts:18-33 | Two nodes are drawn as one exactly when both belong to one namespace that is not expanded and neither is external, or they are the same node. |
| `Grouping.CollapsedCounts` | frontend/src/features/graph/grouping.ts:25-31 | The number drawn on a namespace is the number of its nodes it hides. |
| `Grouping.Row.Add` | frontend/src/features/graph/grouping.ts:42-48 | One edge is added to a row in place: counters are summed and the times compared as text. |
| `Grouping.GroupEdges` | frontend/src/features/graph/grouping.ts:34-51 | The rows are new objects and a grouping of the edges with known ends, times in text order; no object passed in changes. |
| `Grouping.GroupTopology` | frontend/src/features/graph/grouping.ts:6-52 | The three loops together, times in text order. |
| `Grouping.KnownIff` | frontend/src/features/graph/grouping.ts:36-38 | An edge is kept exactly when both ends are listed and neither stays in the view under the empty id. |
| `Grouping.NamelessLosesItsEdges` | frontend/src/features/graph/grouping.ts:38-38 | A node with the empty id that stays in the view loses even its edge to itself. |
| `Grouping.ViewConserves` | frontend/src/features/graph/grouping.ts:34-51 | Whatever is expanded, connections, failures, latency counts and latency sums drawn are each those of the edges between listed nodes; the first and last time drawn are theirs in text order. |
| `Grouping.RowMeans` | frontend/src/features/graph/grouping.ts:40-49 | A row's counters are its contributors' sums; failures are absent exactly when all contributors' are. |
| `Grouping.CollapsingSumsTheFinerView` | frontend/src/features/graph/grouping.ts:18-51 | Collapsing more namespaces is summing the finer view, times in text order. |
| `Grouping.RowTimes` | frontend/src/features/graph/grouping.ts:47-48 | A row's times are the first and the last, as text, of the edges that feed it. |
| `Grouping.RowTimesAreTimesIff` | frontend/src/features/graph/grouping.ts:47-48 | A row's first time is the earliest if and only if it is whole or its second does not also occur whole; its last is the latest if and only if it has a fraction or its second does not also occur with one. |
| `Grouping.RowForgetsTheWholeSecond` | frontend/src/features/graph/grouping.ts:47-48 | An edge seen at a whole second, joined with one seen half a second later, makes a row that claims the later start. |
| `Timestamps.TextOrder` | frontend/src/features/graph/grouping.ts:47-48 | Comparing the texts is comparing by second, and within one second a whole time comes after every fraction. |
| `Timestamps.TextIsTimeIff` | frontend/src/features/graph/grouping.ts:47-48 | The order of the texts is the order in time unless, within one second, exactly one of the two is whole. |
| `Timestamps.HalfPastSortsFirst` | frontend/src/features/graph/grouping.ts:47-48 | Half a second past sorts before the second itself. |
| `Timestamps.FirstIsEarliestIff` | frontend/src/features/graph/grouping.ts:47-47 | When what comes first as text is the earliest. |
| `Timestamps.LastIsLatestIff` | frontend/src/features/graph/grouping.ts:48-48 | When what comes last as text is the latest. |
| `Alerts.Dispatcher.NotifyCanary` | backend/app/alerts/dispatch.py:123-147 | Decides and updates the table as the model says; submits exactly when it decides to. |
| `Alerts.PrunedDecidesAlike` | backend/app/alerts/dispatch.py:129-136 | Under a clock that never goes back the pruned table decides as if every message were remembered. |
| `Alerts.MessagesAreSpaced` | backend/app/alerts/dispatch.py:126-131 | Under a clock that never goes back, two messages the pruning dispatcher sends about one contact are at least the cooldown apart. |
| `Alerts.SilenceHasACause` | backend/app/alerts/dispatch.py:129-131 | Under such a clock, a call is silent only when a message for its contact went out within the cooldown. |
| `Alerts.Dispatcher.Submit` | backend/app/alerts/dispatch.py:169-175 | Queues the message, or counts a drop on every channel when full. |
| `Alerts.Dispatcher.Take` | backend/app/alerts/dispatch.py:181-183 | Takes the oldest message and loses nothing from the account. |
| `Alerts.Dispatcher.Settle` | backend/app/alerts/dispatch.py:183-194 | Each channel's delivery ends in exactly one counter; submitted stays sent plus failed plus dropped plus queued or in hand. |
| `Alerts.Delay` | backend/app/alerts/dispatch.py:207-209 | At least the backoff, at most thirty seconds, and what the server asked for in between. |
| `Alerts.Deliver` | backend/app/alerts/dispatch.py:196-224 | At most three attempts and sixty seconds of waiting; the message goes out exactly when one of the first three attempts is accepted and those before it were retryable. |
| `Anomalies.Rules` | backend/app/domain/anomalies.py:145-207 | The rules tried fire exactly as defined, already in listing order. |
| `Anomalies.SpikesIff` | backend/app/domain/anomalies.py:171-179 | Failures spike exactly when measured on both sides, over enough attempts, with a failed share at least the threshold and at least that much above the baseline's, by cross-multiplied counts. |
| `Anomalies.SlowsIff` | backend/app/domain/anomalies.py:189-199 | Setup slows exactly when both sides have enough timings and the mean is at least the factor times the baseline's and a millisecond above it, by cross-multiplied counts. |
| `Anomalies.NoveltyIff` | backend/app/domain/anomalies.py:150-169 | Given a baseline, an edge with traffic is new exactly when it is absent there, and is reported once, as egress when it leaves the cluster. |
| `Anomalies.SilentEdges` | backend/app/domain/anomalies.py:145-146 | An edge without an attempt is never reported. |
| `Anomalies.BaselineIs` | backend/app/domain/anomalies.py:138-139 | What counts as before is the last baseline edge of that key that carried an attempt. |
| `Anomalies.ReportTells` | backend/app/domain/anomalies.py:209-231 | An anomaly carries its edge, the counts now and the counts before, none for a new edge. |
| `Anomalies.Detect` | backend/app/domain/anomalies.py:124-235 | The output is sorted by edge key, strictly by key and then rule when keys differ, and reports exactly the rules broken. |
| `Anomalies.DetectIsOrderFree` | backend/app/domain/anomalies.py:135-137 | The same edges in any order, against the same baseline, give the same output. |
| `Anomalies.AnomalyIdInjective` | backend/app/domain/anomalies.py:209-215 | An anomaly's id determines its edge and its rule. |
| `Anomalies.IdsDiffer` | backend/app/domain/anomalies.py:209-216 | All ids of one run differ. |

## Left out

- HTTP, TLS, routing of requests, metrics text, configuration and deployment: plumbing around the modelled logic.
- The eBPF loader and ring-buffer reader, the informer caches and the SQL driver: they appear as arbitrary inputs, read-only functions and maps.
- Conversion of a record's monotonic timestamp to wall-clock time: it depends only on two clock readings.
- Browser sign-in, PKCE, JWT parsing, file permissions and malformed credentials files: the provider is an abstract issuer and the lock a mutex.
- The text filter in the comparison of storage adapters: SQL pattern matching and case-folded search differ; the in-memory query has it.
- SQL collation: tables are compared as maps, and the order of SQL rows is not.
- Retention within `Pipeline` runs: purging is covered by the store's own theorems.
- Cancellation of the alert loop at shutdown: a message in hand then goes uncounted.
- The size of the cooldown table: it can exceed its limit while all entries are live, so no bound is claimed.
- Node ids holding a NUL character in the pair key of parallel edges: the key is modelled as a pair.
- Drawing order of collapsed nodes, labels, render caps, history stepping and the text renderers: few branches each.
- Reason strings, severities, mean setup times carried in anomalies and floating-point rounding in ratios: text and rounding detail.
- Routing.SiblingsNeverMeet: curves run from centre to centre, whereas the drawn paths start and end on the circles (frontend/src/features/graph/edgeGeometry.ts:134-138); the same holds of `Routing.PassesAt` and the clearance theorems.
- PostgresStore.PostgresRepository.PurgeExpired: one purge nothing interrupts; `PostgresStore.StatementsKeepEndpoints` covers statements of other transactions in between.
