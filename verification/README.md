# Killswitch, modelled and proved in Dafny

Killswitch is a multi-tenant webhook queue. Every message is sealed under a data key (DEK) of its tenant, the DEK is
wrapped by a key the tenant owns at an external KMS, and the service may use a DEK in the clear only while it holds a
short lease. Disable the key and, within a published bound, nothing of that tenant can be read any more.

This project models the parts that promise something and proves the promises for every input, every run and every
interleaving. Instants and durations are nanoseconds as integers, 0 standing for Go's zero time; tenants are grid
indexes where the source uses them so.

## How it is built

**The key-lease protocol** (`internal/cmek`). `KeyState.dfy` has one function for every critical section that runs under
a tenant's lock. `Cell.dfy` is the tenant struct as a class whose methods update its fields in place, each proved equal
to the function. `Protocol.dfy` is one tenant in the world: its goroutines inside `EncryptKey`, `DecryptKey`, `probe`
and `warm`, each at one of fifteen points between two atomic actions; singleflight, the in-flight cap, the provider's
semaphore shared with other tenants, the KMS with the key's flag, the DEK store, one monotone clock, mode switches at
any time. A step is one section, one singleflight transition or one KMS interaction; a call may fail at any moment, and
a section works from a clock reading `at` that may be older than now (`apply` reads the clock before it takes the lock,
internal/cmek/fetcher.go:223-224). Whatever is proved of `Run` holds for every interleaving. On it stand:

- `RevocationBound.dfy`, `RevocationTight.dfy`: the bound on revocation, in all four fetch modes, and that it is exact
- `CacheSafety.dfy`: no key in the clear without authority; the state diagram
- `StaleAnswers.dfy`: an old OK never undoes a newer deny; leases move forward
- `References.dfy` (on `Structure.dfy` and `Steps.dfy`): DEK ids, installation, and which key hides behind which id
- `Permits.dfy`, `Progress.dfy`: `probing`, waiters, in-flight counts and tokens are conserved; nothing gets stuck
- `Sections.dfy`: what every section answers, on the tenant's own fields: when a handle is given and on what, each refusal
  and its condition, what the sweep cools and starts, and that messages are counted exactly when handles to seal are given
- `Slots.dfy`: the failure count behind the backoff and the next probe's slot, exactly
- `Healing.dfy`, `Recovery.dfy`: when the next probe comes, what brings a tenant back, and that ACTIVE is in reach
- `OneGenerate.dfy`, `Economy.dfy`: one generate per need, and the pace of renewals
- `EndToEnd.dfy`, `Delivery.dfy`: many tenants, ingest and opening over the protocol, with `Envelope.dfy` for sealing;
  and the same joined to the queue, its workers and its sweeps in one system
- `DirectCalls.dfy`, `Witnesses.dfy`: what the no-cache modes do differently, exactly when, and runs that get there

**The queue** (`internal/queue`). `Ledger.dfy` has each SQL statement as a table update and each counter update beside
it; `Rows.dfy` says which rows each statement touches, on the rows alone; `Store.dfy` is the store with its arrays of
counters; `Workers.dfy` a worker's turn over a batch, `Turns.dfy` the same turn step by step; `Conservation.dfy` and
`Waste.dfy` workers, inserts, sweeps and censuses in any interleaving, and `S4.dfy` the checker's count over a census.
`Scheduler.dfy` is the two-class ring.

**Admission** (`Admission.dfy`), **the percentile window** (`Histogram.dfy`), **the evidence** (`Sink.dfy`,
`Revocations.dfy`, `Checker.dfy`, `FakeKms.dfy`) and **the error text** (`KmsText.dfy`) stand on their own.
`Prelude.dfy` holds a few shared definitions.

A method or class is used where the source loops or updates in place; each is proved against a function, and the
results are lemmas about that function.

## What came out false

- The backlog bound the checker judges is not an invariant of admission. `CheckerBoundExact` says for which
  configurations it holds, `BacklogBound` and `BacklogBoundReached` give the true largest backlog, and
  `CheckerBoundBroken` is the run 13 + 7 + 5 = 25 > 24.
- The stale-OK guard fails when two denies take effect against the order of their clock readings: for any two instants
  a < b a run reaches a state with the key disabled, the denial recorded at a, the latest deny checked at b, and an OK
  from before it that makes the tenant ACTIVE (`DeniesOutOfOrder`). Over all reachable states no such OK takes effect
  if and only if the recorded denial is no older than that check (`GuardExact`), which holds on every run whose denies
  take effect in order (`NoStaleOkTakesEffect`).
- S4 can go red although no reclaim touches a delivered row: it is enough that a worker is slower than the claim timeout
  (`SlowWorkerTurnsS4Red`). `S4Exactly` says when a census is green, for every run.
- S3 misses late deliveries when a restore and a new revoke fall between two passes (`QuickReRevokeHides`, `S3CanMiss`).
  `S3Accounting` says exactly by how much the count is off.
- In pass-through a generate whose OK is stale hands out a DEK that is never installed (`UninstalledReached` is a run).
  It does so exactly when that OK was stale at its own apply and the tenant is authorized by the time the call ends,
  whatever ran in between (`UninstalledDek`); its messages are refused as poison on every further run
  (`UninstalledDekIsPoison`).
- A direct seal that joins a generate led by a renewal crashes on the flight's empty value (`CrashReached` is a run).
  A goroutine crashes exactly when a direct seal wakes from a flight that a probe or a cold caller led (`CrashExactly`).
- Not every KMS error comes back from its flattened text: behind any text without "kms " every error of a provider is read
  back in its own frame if and only if the provider's name has no ": " in it (`ReadableProviders`). A name with one can
  turn a deny into an outage (`ProviderWithSeparatorMisreads`).
- `Ack`, `Release` and `Dead` keep the ledger exactly when every row they hit is the caller's tenant's (`AckAgrees`,
  `ReleaseAgrees`, `DeadAgrees`).

## Model

Rows marked (step) are facts about one section or one step that the results over runs are built from.

| member | source | states |
|---|---|---|
| RevocationBound.BoundedRevocation | internal/cmek/lease.go:28-35 | in every reachable state of every mode with the key disabled since t, every handle ever issued refuses Seal and Open at any instant from t + TTL - Early on |
| RevocationBound.NoLeaseLeft | internal/cmek/lease.go:33-35 | in such a state the tenant's lease is not usable at such an instant, so no new handle comes out either |
| RevocationTight.BoundIsTight | internal/cmek/lease.go:28-35 | the bound cannot be improved: in some reachable state with the key disabled since t a handle seals at an instant if and only if it is before t + TTL - Early |
| RevocationBound.MoveFed | internal/cmek/fetcher.go:69-83 | (step) the step behind it: an OK on its way to a lease was sent no later than the last instant the key was enabled |
| RevocationBound.StepFed | internal/kms/fake.go:148-179 | (step) every step keeps leases, replies under way and handles within that bound |
| CacheSafety.NoKeyWithoutAuthority | internal/cmek/fetcher.go:240-298 | in every reachable state a parked tenant, one without a lease and one in a no-cache mode hold no key in the clear, and the published state is the state |
| CacheSafety.SweptMeansUsable | internal/cmek/manager.go:386-406 | after every sweep a key in the clear means a usable lease |
| CacheSafety.OnlyDiagramEdges | internal/cmek/fetcher.go:300-306 | every step of every run takes an edge of the state diagram, or ACTIVE to KEY_UNAVAILABLE |
| CacheSafety.ApplySafe | internal/cmek/fetcher.go:222-298 | (step) apply keeps the cache safe for every outcome |
| CacheSafety.ModeSafe | internal/cmek/manager.go:88-106 | (step) switching the fetch mode keeps it, whichever mode to whichever |
| StaleAnswers.NoStaleOkTakesEffect | internal/cmek/fetcher.go:241-247 | on runs whose denies take effect in order, an OK that changes the tenant was checked no earlier than the latest applied deny |
| StaleAnswers.GuardedWhenInOrder | internal/cmek/fetcher.go:241-247 | in every reachable state, whatever the order before, it holds if the recorded denial is no older than the latest deny's check |
| StaleAnswers.LeasesMoveForward | internal/cmek/lease.go:19-26 | in such a run, of any two leases held the later one was sent no earlier, although every deny zeroes the lease |
| StaleAnswers.AtOnceIsTimely | internal/cmek/fetcher.go:223-225 | reading the clock and applying as one step is enough for that order |
| Witnesses.GuardExact | internal/cmek/fetcher.go:242-245 | for a denied tenant, no OK checked before the latest deny takes effect in any reachable state with that record if and only if the recorded denial is no older than that deny's check |
| Witnesses.DeniesOutOfOrder | internal/cmek/fetcher.go:223-272 | for any a < b a run reaches a state with the key disabled and the tenant revoked, denial recorded at a, latest deny checked at b, where an OK from before it makes the tenant ACTIVE |
| References.EveryKeyIsItsIds | internal/cmek/manager.go:188-196 | in every reachable state a handle on an installed DEK carries exactly that DEK's key |
| References.InstalledIsStored | internal/cmek/fetcher.go:193-215 | an installed DEK was stored before, and its id carries the tenant's own name |
| References.NewIdsAreNew | internal/cmek/fetcher.go:202-207 | in every reachable state the id drawn for a new DEK is not in the store yet |
| References.StepKeyed | internal/cmek/fetcher.go:248-254 | (step) no step removes a DEK, redraws an id or changes the key behind one, from any goroutine |
| Permits.PermitsConserved | internal/cmek/fetcher.go:41-84 | in every reachable state waiters, in-flight count and `probing` equal the goroutines that stand for them, and waiters, in-flight calls and provider tokens are within their caps, timeouts and mode switches included |
| Permits.StepSound | internal/cmek/manager.go:204-263 | (step) every step keeps that, and that every flight key has exactly one leader and every joiner a leader or a result |
| Progress.RankFalls | internal/cmek/fetcher.go:119-191 | every step of a goroutine brings its end nearer, so it takes at most fourteen |
| Progress.SomeCanStep | internal/cmek/fetcher.go:129-141 | a goroutine that waits for a flight waits for one that can step |
| Progress.AlwaysCleared | internal/cmek/fetcher.go:159-191 | from every reachable state, even if every call fails from now on, a run clears `probing` and gives back every place, count and token |
| Healing.NextProbeNotFar | internal/cmek/fetcher.go:267-281 | in every reachable state the next probe is due no later than the last applied failure plus max(RevokedReprobe, BackoffMax * (1 + jitter)) |
| Healing.ProbedInTime | internal/cmek/manager.go:406-424 | a sweep that late finds a parked tenant's probe outstanding or starts one, unless fetch is sync |
| Healing.DueSweepProbes | internal/cmek/manager.go:407-410 | (step) the first sweep at or after the slot starts the probe if none is outstanding |
| Healing.OnlyFailuresMoveTheSlot | internal/cmek/fetcher.go:226-247 | (step) an OK, stale or not, a busy tenant and a store error leave the slot alone |
| Healing.OkUnparks | internal/cmek/fetcher.go:241-263 | (step) an OK makes a parked tenant ACTIVE if and only if it was not sent before the last denial |
| Slots.AttemptsCounted | internal/cmek/fetcher.go:240-298 | in every reachable state the failure count is the number of answered failures applied since the last OK that took effect, and the probe's slot is the one the latest failure or deny set |
| Slots.FailureSetsSlot | internal/cmek/fetcher.go:267-281 | so the k-th such failure in a row, applied at t with draw u, puts the next probe at t + Backoff(k), and a deny puts it RevokedReprobe ahead and leaves the count |
| Slots.NoProbeBeforeSlot | internal/cmek/manager.go:406-410 | in every reachable state no sweep and no call starts the probe of a parked tenant before that slot |
| Slots.BackoffDoubles | internal/cmek/lease.go:50-60 | the delay written out for every attempt and draw: min(BackoffMin * 2^(k-1), BackoffMax) times 1 + jitter * (2u - 1), and with the middle draw just that minimum |
| Sections.DecryptKeyGives | internal/cmek/manager.go:270-321 | in every reachable state DecryptKey hands out a handle with that DEK, its key and sentAt + TTL - Early if and only if the tenant caches, is ACTIVE or RIDING_THROUGH, the DEK is in the clear and the lease holds; without a cache it starts a direct call |
| Sections.DecryptKeyRefuses | internal/cmek/manager.go:276-321 | and each refusal has its own exact condition |
| Sections.DecryptKeyInline | internal/cmek/manager.go:284-304 | (step) when the caller itself probes or warms first, in sync fetch |
| Sections.EncryptKeyGives | internal/cmek/manager.go:218-240 | in every reachable state EncryptKey hands out at once a handle on the active DEK if and only if that DEK is in the clear, the lease holds and, while ACTIVE, neither messages nor age have worn it out |
| Sections.EncryptKeyStarts | internal/cmek/manager.go:225-247 | (step) and what it starts instead or beside: a renewal, a cold fetch under the waiters' cap, or a direct call |
| Sections.EncryptKeyRefuses | internal/cmek/manager.go:218-246 | (step) revoked, unavailable and too many waiters, each exactly |
| Sections.ColdPathAnswers | internal/cmek/manager.go:250-262 | (step) the cold path's answers, each with its exact condition |
| Sections.DirectAnswers | internal/cmek/manager.go:163-186 | (step) a direct call's answers, likewise |
| Sections.JoinersSeeTheFlight | internal/cmek/fetcher.go:125-141 | (step) the leader and every joiner of a flight go on with the same outcome |
| Sections.WarmRechecks | internal/cmek/fetcher.go:169-185 | (step) a warm that finds its key in the clear ends without a call, and the key is no longer waited for |
| Sections.WarmArrives | internal/cmek/fetcher.go:248-263 | in every reachable state a warm's OK that counts leaves its DEK in the clear, nothing waiting for it and the tenant ACTIVE |
| Sections.CapDecides | internal/cmek/fetcher.go:41-56 | (step) a naive tenant passes the cap and the semaphore by, and a full one is turned away without a call |
| Sections.MessagesAreSeals | internal/cmek/manager.go:188-196 | in every reachable state a step counts one message on exactly the DEK it hands out to seal with and none on any other, whichever path hands it out |
| Sections.SealsInTime | internal/cmek/manager.go:80-83 | a handle given at once to an ACTIVE tenant is on a DEK that was below its cap of messages and its age |
| Sections.HotAnswers | internal/cmek/manager.go:326-353 | the scheduler's answer in each mode and the kick, on the tenant's fields |
| Sections.HotMeansOpenable | internal/cmek/manager.go:332-341 | in a reachable cached state the gate lets through, every installed DEK opens at once or is only cold |
| Sections.WarmAnswers | internal/cmek/manager.go:363-381 | (step) which warm is recorded and when it starts the unwrap |
| Sections.ModeAnswers | internal/cmek/manager.go:88-106 | (step) a mode switch drops keys and warms exactly when it leaves the cache |
| Sections.SweepCools | internal/cmek/manager.go:388-406 | (step) which keys a sweep cools and whom it parks |
| Sections.SweepStarts | internal/cmek/manager.go:406-420 | (step) a due probe first, else any one due warm, else nothing |
| Sections.RenewalCallsFor | internal/cmek/fetcher.go:119-157 | (step) when a renewal generates and when another flight has met its need |
| Sections.OkDoes | internal/cmek/fetcher.go:241-263 | (step) an OK that counts: ACTIVE, leased from the send, the DEK installed, everything else as it was |
| Sections.DenyDoes | internal/cmek/fetcher.go:264-272 | (step) a deny: revoked, no lease, every key cold |
| Sections.FailureDoes | internal/cmek/fetcher.go:273-298 | (step) a failure: who rides through, who parks and what stays in the clear |
| Sections.NothingDone | internal/cmek/fetcher.go:226-247 | (step) busy, a store error and a stale OK leave the tenant alone but for a warm put off |
| Recovery.CanRecover | internal/cmek/manager.go:198-216 | in every mode, from every reachable state with the key enabled, a run reaches ACTIVE no later than that longest wait from now |
| Recovery.LapWins | internal/cmek/fetcher.go:119-142 | (step) a probe the KMS answers brings its tenant back |
| OneGenerate.OneGeneratePerNeed | internal/cmek/fetcher.go:114-157 | any number of cold callers, probes and warms on a DEK-less cached tenant, with calls that succeed and a DEK fresh meanwhile, make at most one generate call and one DEK at any point, and exactly one once all have ended |
| OneGenerate.ColdCallersSeal | internal/cmek/manager.go:241-263 | every cold caller that comes back in such a run has a valid handle on that DEK |
| Economy.RenewalsTakeTime | internal/cmek/manager.go:230-239 | in a run without failed calls, mode switches to no cache and worn DEKs, n renewals take n times min(SoftTTL, TTL - Early), whatever the request rate |
| Economy.RenewalsNeverCloser | internal/cmek/fetcher.go:144-157 | in such a run each renewal is sent at least that long after the one before |
| Economy.UnsatisfiedIsDue | internal/cmek/fetcher.go:151-156 | (step) the recheck inside the flight lets a renewal through only when it is due |
| Delivery.EndToEndDelivery | internal/queue/workers.go:139-179 | in every reachable world of protocols, queue, workers and sweeps, each delivery carries the payload ingested under its tenant and id, each dead letter was refused by the sink, the ledger is the table and every accepted row is accounted for |
| Delivery.HeadOpenIs | internal/queue/workers.go:141-162 | (step) the message in a worker's hand opens to what was ingested, or the lease is over |
| Delivery.HandIsDelivered | internal/queue/workers.go:139-173 | in every reachable world, a worker whose message's DEK is in the clear under a lease that lasts until it opens gets its handle, and if the sink accepts delivers the payload ingested, acknowledging that row |
| Delivery.IngestStores | internal/world/ingest.go:46-70 | in every reachable world a handle used before its end takes the message in as a ready row of its tenant under that DEK, and one used later changes nothing |
| Delivery.FateOfRow | internal/queue/workers.go:139-173 | any row under a handle on its DEK, foreign or tampered ones too: dead if and only if the DEK is not the tenant's, or the handle was given in time and the cipher does not open under it or the sink refuses; delivered if and only if it was given in time, the cipher opens and the sink takes it |
| EndToEnd.DeliveredIsIngested | internal/world/ingest.go:46-70 | in every reachable world of tenants kept in async or sync fetch, a row's DEK is never foreign to its tenant, and under any handle on it the row opens to exactly the payload ingested, or the lease has expired |
| EndToEnd.NoRowDiesOfItsKey | internal/queue/workers.go:139-173 | so a worker lets such a row die only because the sink refuses it |
| EndToEnd.OpensNowhereElse | internal/cmek/envelope.go:35-51 | a row never opens under another tenant or another message id, whichever handle is used |
| DirectCalls.UninstalledDek | internal/cmek/manager.go:149-178 | in every reachable state, the end of a call hands out an uninstalled DEK if and only if it is a direct generate whose OK was stale at its own apply, and the tenant is not revoked and its lease usable at that end |
| DirectCalls.LooseAtItsOwnApply | internal/cmek/fetcher.go:241-247 | (step) an id is left uninstalled exactly by its own apply, when its OK was sent before the denial recorded there |
| DirectCalls.EntryHandlesInstalled | internal/cmek/manager.go:225-240 | in every reachable state a handle given out at once is on an installed DEK |
| Witnesses.UninstalledReached | internal/cmek/manager.go:149-186 | a run that ends with a handle on a DEK the tenant does not have |
| DirectCalls.UninstalledDekIsPoison | internal/cmek/manager.go:276-281 | such a DEK stays uninstalled along every further run, so every row sealed under it is refused as poison for good |
| DirectCalls.CrashExactly | internal/cmek/manager.go:149-159 | in every reachable state, a step crashes its goroutine if and only if it is a direct seal waking from a flight that a probe or a cold caller led |
| Witnesses.SealJoinsRenewal | internal/cmek/fetcher.go:125-136 | a run in which a direct seal joins the generate a kicked probe leads |
| Witnesses.CrashReached | internal/cmek/manager.go:149-159 | and one in which it then crashes |
| DirectCalls.CachedIsSafe | internal/cmek/manager.go:126-160 | in no reachable world of tenants kept in async or sync fetch does either happen |
| KeyState.BackoffAtMost | internal/cmek/lease.go:50-60 | a delay is between 0 and BackoffMax * (1 + jitter), for every attempt and draw |
| KeyState.BackoffGrows | internal/cmek/lease.go:50-60 | with the same draw a further failure never waits less |
| Cell.KeyCell.Apply | internal/cmek/fetcher.go:222-298 | updates the tenant's fields in place exactly as the function the protocol runs on |
| Cell.KeyCell.Purge | internal/cmek/lease.go:126-139 | drops every key in the clear and every pending warm, and counts the keys that were hot |
| Cell.KeyCell.Hot | internal/cmek/lease.go:115-124 | counts exactly the DEKs in the clear |
| Cell.KeyCell.EncryptSection | internal/cmek/manager.go:218-247 | EncryptKey's section: its answer and the tenant it leaves |
| Cell.KeyCell.ColdEndSection | internal/cmek/manager.go:250-262 | the cold path's last section |
| Cell.KeyCell.TakeHandle | internal/cmek/manager.go:188-196 | a handle exactly when the tenant may seal, counted on the DEK |
| Cell.KeyCell.WarmSection | internal/cmek/manager.go:363-381 | records the wanted DEK and says whether to start the unwrap |
| Cell.KeyCell.HotSection | internal/cmek/manager.go:332-352 | the scheduler's answer and the kick |
| Cell.KeyCell.TickSection | internal/cmek/manager.go:388-420 | one tenant's share of the sweep: lapse, ageing, then a due task if and only if there is one |
| Cell.KeyCell.SetFetch | internal/cmek/manager.go:94-106 | the mode switch, purging on the way into a mode without cache |
| Cell.KeyCell.TakePlace | internal/cmek/fetcher.go:42-56 | call's first section: busy exactly at the cap, and never for a naive tenant |
| Cell.KeyCell.GivePlace | internal/cmek/fetcher.go:50-54 | call's deferred section gives the place back |
| Cell.KeyCell.DrawId | internal/cmek/fetcher.go:202-206 | generate's section: the next DEK id |
| Cell.KeyCell.ClearProbing | internal/cmek/fetcher.go:187-191 | the flag's end |
| Cell.Manager.Tick | internal/cmek/manager.go:386-425 | the sweep does each tenant's section and touches nothing else |
| Envelope.AadInjectiveSameLength | internal/cmek/envelope.go:10-17 | with tenant ids of one length the associated data names one tenant, message and DEK |
| Envelope.AadInjective | internal/cmek/envelope.go:10-17 | with each tenant's own DEKs it does so for ids of any length |
| Envelope.RenderInjective | internal/cmek/fetcher.go:205-205 | two DEK ids with the same text are the same |
| Envelope.AadReads | internal/cmek/envelope.go:10-17 | the associated data reads back as the tenant, the id as eight bytes big endian, the DEK's tenant and its number in decimal |
| Envelope.OpensOnlyItsOwn | internal/cmek/envelope.go:19-51 | what was sealed opens to the same plaintext for its tenant and id, and is poison for any other |
| Envelope.SealsExactly | internal/cmek/envelope.go:19-33 | (step) Seal's answers, each with its exact condition |
| Envelope.OpensExactly | internal/cmek/envelope.go:35-51 | (step) Open's answers, likewise, in the source's order |
| Envelope.ForeignDekSlides | internal/cmek/envelope.go:10-17 | (one collision) with a foreign DEK id the parts of the associated data can slide into each other |
| Ledger.InsertAgrees | internal/queue/store.go:253-263 | the ledger agrees with the table after an insert |
| Ledger.ClaimAgrees | internal/queue/store.go:274-314 | after a claim |
| Ledger.ClaimCountedAgrees | internal/queue/store.go:296-314 | a claim whose cursor broke keeps the agreement if and only if the count it fell back on is the number of rows changed |
| Ledger.AckAgrees | internal/queue/store.go:322-337 | an ack keeps it if and only if every row it deletes is the caller's tenant's |
| Ledger.ReleaseAgrees | internal/queue/store.go:340-352 | likewise a release |
| Ledger.DeadAgrees | internal/queue/store.go:355-370 | likewise a dead letter |
| Ledger.ReclaimAgrees | internal/queue/store.go:375-418 | count-then-update reclaim keeps the agreement for every tenant at once |
| Ledger.ExpireAgrees | internal/queue/store.go:423-469 | count-then-delete expiry does too, limit included |
| Rows.ExpireTakes | internal/queue/store.go:423-469 | expiry deletes only ready rows older than the given instant, the lowest ids first and exactly up to the limit, and changes no other row |
| Rows.ExpireTakesAll | internal/queue/store.go:173-175 | with no limit, or one they fit in, exactly the ready rows older than it are gone |
| Rows.ReclaimTakes | internal/queue/store.go:375-418 | a reclaim frees exactly the claimed rows whose claim ran out, attempts untouched |
| Rows.ClaimTakes | internal/queue/store.go:275-314 | a claim takes the tenant's ready rows, the lowest ids first and exactly up to n, until the given instant, and changes no other row |
| Rows.AckTakes | internal/queue/store.go:322-337 | an ack deletes exactly the named rows that are claimed, and counts them |
| Rows.ReleaseTakes | internal/queue/store.go:340-352 | a release frees exactly those, attempts untouched |
| Rows.DeadTakes | internal/queue/store.go:355-370 | a dead letter moves exactly the one row, if claimed, with one more attempt |
| Store.GroupBy | internal/queue/store.go:173-175 | GROUP BY tenant lists each tenant with rows once, with its count |
| Store.Tally | internal/queue/store.go:388-401 | the loop over it gives each tenant's count and their sum, which is the number of rows |
| Store.Store.Claim | internal/queue/store.go:275-314 | arrays and table after a claim, cursor faults included |
| Store.Store.Ack | internal/queue/store.go:322-337 | arrays and table after an ack |
| Store.Store.Reclaim | internal/queue/store.go:375-418 | arrays and table after a reclaim; the source's impossible branch is impossible |
| Store.Store.Expire | internal/queue/store.go:423-469 | arrays and table after an expiry; likewise |
| Conservation.NothingLost | internal/queue/store.go:482-532 | at every census of every run the ledger is the table, accepted = delivered + ready + claimed + expired + dead, and the sink saw every delivery counted |
| Conservation.S4StaysGreen | internal/check/checker.go:244-278 | S4 is green on every run whose reclaims time out no row a live worker holds |
| Conservation.SlowWorkerTurnsS4Red | internal/queue/workers.go:126-179 | sparing only delivered rows is not enough: two workers deliver one row |
| Waste.S4Exactly | internal/check/checker.go:258-276 | on every run a tenant's census is green if and only if its unaccounted deliveries and its delivered-but-unacked rows fit among its claimed rows |
| S4.CountBad | internal/check/checker.go:252-271 | the loop over a census counts exactly the tenants that are not green and names the first |
| S4.GreenIsCensusGreen | internal/check/checker.go:258-260 | that count is zero if and only if every tenant's census is green in the sense of the two results above |
| Workers.SplitPartitions | internal/queue/workers.go:139-179 | a turn splits its batch: each row acked, dead or released once, the released ones a tail |
| Workers.KeyTroubleNeverKills | internal/queue/workers.go:141-162 | a cold, unavailable, revoked or lapsed key releases the row and never kills or delivers it |
| Workers.FateExactly | internal/queue/workers.go:139-173 | a row is dead-lettered if and only if the walk gets past it and it is poison or refused, acknowledged if and only if the walk gets past it and it is neither, and released if and only if the walk ended at or before it |
| Workers.TurnLeaves | internal/queue/workers.go:139-179 | the row in the table after the turn, by that fate |
| Workers.Worker.Turn | internal/queue/workers.go:139-179 | the loop leaves exactly that in the store, ledger in agreement, and asks for a warm exactly when it ended on a cold DEK |
| Turns.StepsAreTheTurn | internal/queue/workers.go:139-179 | the worker's steps of the queue system, done one after the other from any point of a batch, leave the same table as the loop over the whole batch |
| Turns.TurnInSteps | internal/queue/workers.go:139-179 | so from a fresh claim on they are the loop, on the table and in the sink's count |
| Scheduler.FairRing.Next | internal/queue/scheduler.go:49-66 | cursors and turn move as the ring function says, for any readings |
| Scheduler.WithinShareNotStarved | internal/queue/scheduler.go:49-82 | a tenant that stays ready, hot and within its share is returned within 2n calls, whatever the others do |
| Scheduler.OverShareNotStarved | internal/queue/scheduler.go:49-82 | one that stays over its share is returned within (LightTurns + 1) n calls |
| Scheduler.OneClassNotStarved | internal/queue/scheduler.go:49-82 | with one class the bound is n |
| Scheduler.GivesUpOnlyIdle | internal/queue/scheduler.go:49-66 | Next gives up if and only if no tenant is dispatchable in either class, and then moves nothing |
| Admission.BacklogBound | internal/admit/gate.go:58-85 | on every run the total is at most the sum over ranks j up to the tenants backlogged of min(TenantCap, GlobalCap / j + 1) |
| Admission.BacklogBoundReached | internal/admit/gate.go:58-85 | and some run reaches it |
| Admission.CheckerBoundExact | internal/check/checker.go:364-367 | the checker's bound holds on every run if and only if that sum fits under it |
| Admission.CheckerBoundBroken | internal/check/checker.go:364-367 | a configuration and run that break it |
| Admission.PlainCapHolds | internal/admit/gate.go:62-64 | without fair share the cap is never passed |
| Admission.VerdictExactly | internal/admit/gate.go:58-85 | each verdict's exact condition on backlog, total, share and token, in the gate's order |
| Sink.Sink.Deliver | internal/traffic/sink.go:59-81 | ring slot, count and history after a delivery |
| Sink.Sink.DeliveredBetween | internal/traffic/sink.go:83-110 | the exact count over (sinceSeq, total] and (lo, hi], with an overrun reported exactly when more than Ring deliveries followed |
| Sink.ResumeIsExact | internal/traffic/sink.go:83-110 | two resumed counts add up to one over the whole range |
| Sink.BetweenCounts | internal/traffic/sink.go:83-110 | the count is the number of deliveries with such a number and instant |
| Checker.Windows | internal/check/checker.go:163-184 | the episodes paired from the log, sorted by tenant, each tenant's in order |
| Checker.Checker.S3 | internal/check/checker.go:188-225 | a pass moves every tenant by its own accounting step, and the totals with them |
| Revocations.EpisodesAreOutages | internal/check/checker.go:163-184 | an instant lies in one of a tenant's paired episodes if and only if the log of its key has it disabled then |
| Revocations.S3Accounting | internal/check/checker.go:188-225 | after any run the count is off by exactly the late deliveries stepped over, so it is right if and only if there were none |
| Revocations.S3Exact | internal/check/checker.go:188-225 | with a pass per lease and every restore seen before the next revoke it is the count from scratch |
| Revocations.SumIsUnion | internal/check/checker.go:203-216 | summing over a tenant's episodes counts each late delivery once |
| Revocations.QuickReRevokeHides | internal/check/checker.go:199-202 | a restore and re-revoke between two passes hide every late delivery since the first |
| Revocations.S3CanMiss | internal/check/checker.go:199-202 | so there is a run that reports none when there was one |
| FakeKms.Fake.Flip | internal/kms/fake.go:127-143 | a flip changes flag and log together, or nothing when the key is already so; every key's log stays in order and tells its flag |
| FakeKms.Fake.Check | internal/kms/fake.go:172-178 | a call is refused exactly while an episode of its key is open in the log |
| Histogram.PercentileIsExact | internal/metrics/hist.go:43-66 | whichever order sorts the n samples, the one at position floor(99n/100) from zero is in a bucket if and only if at most that many samples lie below the bucket and more than that many in it or below |
| Histogram.Window.P99 | internal/metrics/hist.go:43-66 | the loops select the bucket with those counts and interpolate to lo + (hi - lo)(k - 1/2)/in for the k-th of its samples, and the fall-through is never reached |
| Histogram.EdgeIs | internal/metrics/hist.go:31-34 | the bucket edges are 1 ms * (3/2)^b |
| Histogram.Window.Roll | internal/metrics/hist.go:75-85 | a roll drops the oldest tick of the window |
| Histogram.Window.Record | internal/metrics/hist.go:69-72 | a record adds the sample to the newest tick |
| KmsText.Frame | internal/kms/kms.go:93-113 | the skipping scanner finds the first frame of the text |
| KmsText.FrameRoundTrip | internal/kms/kms.go:93-113 | the printed frame is found behind any prefix if and only if no other frame starts inside the prefix |
| KmsText.TextRoundTrip | internal/kms/kms.go:62-91 | for any prefix without "kms ", any provider without ": " and any message, echoed frames included, code and cause come back |
| KmsText.WithoutFrame | internal/kms/kms.go:62-91 | a text without a frame reads as a timeout from its first context deadline on, and with neither stands as it is |
| KmsText.ClassifyThroughLayers | internal/cmek/classify.go:16-37 | through any stack of wrapping layers the class is that of the typed error |
| KmsText.ClassesExactly | internal/cmek/classify.go:16-37 | each class exactly: nil, poison by identity in the chain, a refusal by the typed code or else by the text's first frame, and everything else transient |
| KmsText.ReadableProviders | internal/kms/kms.go:93-113 | behind any text without "kms ", every code and message of a provider is read back in its own frame if and only if its name has no ": " |
| KmsText.ProviderWithSeparatorMisreads | internal/kms/kms.go:102-108 | and names for which a flattened deny becomes an outage |

## Left out

- KeyCell: DEKs are values in a map, not shared structs; the source keeps one struct in both the map and `active`, the model
  shares the id.
- KeyCell.EncryptSection: the inline probe of sync fetch is a step of its own (`EncryptInline`), after which the section
  may be entered at any time, also by callers whose probe is still under way.
- Cell.Manager.Tick: the sweep is proved for all tenants on the class; in the step system each tenant's section is a step.
- StaleAnswers.NoStaleOkTakesEffect: one direction, for runs whose denies take effect in order; over all reachable states
  the if-and-only-if is `Witnesses.GuardExact`.
- Permits.PermitsConserved: a call gives back its provider token and its place in one step, the source in two.
- Revocations.S3Exact: `Deliver` is one step and the sink is quiescent during a pass; the source reads a delivery's clock
  before it records it, and a pass may run in between.
- Delivery.EndToEndDelivery: workers act one message at a time on their batch, with other steps in between; the class of
  `Workers.dfy` runs a whole batch, and `Turns.TurnInSteps` compares the two when nothing runs in between.
- OneGenerate.OneGeneratePerNeed: its circumstances (successful calls, fresh DEK, cached modes) are conditions on the run.
- Conservation.S4StaysGreen: a sufficient condition on the reclaims; the exact one is `S4Exactly`.
- Histogram.Window: counters are unbounded where the source's are 32 bits, and bucket edges are exact reals; the rounding
  of log and pow is not modelled.
- KeyState.BackoffAtMost: backoff over the reals, truncated once; floating-point rounding is not modelled.
- Admission.BacklogBound: admit and insert are one step, as the bound itself needs; events admitted but not yet inserted
  would each add one.
- FakeKms.Fake: faults, latency and error rates only decide whether a call is answered, which the protocol leaves open.
- Workers.Worker.Turn: statements succeed; a worker that stops early, retries and waiting are not modelled.
- SQLite, Tink, `x/time/rate` and `singleflight` are contracts: a table update, an ideal AEAD, a refusal the environment
  chooses, flights of one key that never overlap.
- Audit lines, logs, metrics tiles, timelines and the viewer hub record what happens and change nothing.
- HTTP, server-sent events, the web page, scripts and deployment have no property beyond a mapping; so has the mapping
  of errors to HTTP status.
- The load generator, latency draws and scenario scripts are random or timers.
- The checker's lights L1 and L4 and its scans S1 and S2 are thresholds and searches over service aggregates; only the
  backlog bound that L4 judges is taken up.
