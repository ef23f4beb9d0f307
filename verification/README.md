# A verified model of the node's metering, admission and settlement

The node sells model inference. It limits how many requests run per model, counts
what it streams and signs receipts for it, reports usage to an escrow contract
and releases the consumer's locked funds, and guards all this with keys, tokens
and attestations. This project models that logic in Dafny 4.11 and proves what it
promises, for every input, every interleaving and every pattern of failed remote
calls. `dafny verify dfyconfig.toml` checks all of it.

## How it is built

**Admission** (`Admission*.dfy`). The lock-free limiter is a small-step machine:
each atomic operation of `acquire`, `slot_for` and the guard's `drop` is one
event, so a list of events is one interleaving of any number of callers.
`AdmissionSafety` proves an invariant of every step, `AdmissionTheorems` reads off
the promises, and `AdmissionCode` writes the code as the loops it is, over mutable
fields, and shows that each of its atomic operations is an event of the machine.
`AdmissionCoalescing` shows what the limiter does not do.

**Settlement** (`Sessions`, `Pricing`, `Escrow`, `SettlementState`, `Environment`,
`SettlementVisit`, `SettlementTick`, `SettlementRuns`). The session manager, its
store and the escrow are classes. At every point where the loop waits for a
remote call, an arbitrary script lets streams count, sessions open and close,
consumers lock funds and the router record usage, and decides whether the call
fails. A visit to a session may fail only with an excuse (`SettlementVisit.Excused`):
one of its own calls failed, the contract does not know the session, the registry
names another operator, or the report overflows. Each tick leaves a ledger of its
visits without gaps, so a failure excuses nothing about other escrow sessions. The
escrow keeps ghost logs of what it accepts, which nobody else writes. The invariant on plain values (`SettlementState.Inv`) is kept by every piece. It
makes the contract's figures the sums over its logs, ties the watermarks of each
session to what was accepted and confirmed for it, and each escrow session to the
usage the node last read. `SettlementRuns` states the results at every point of
any run, and from any point to any later one, and shows that a tick whose calls all
succeed settles whatever is due.
`SettlementSchedule` states the independence of payments from the tick schedule
on its own, with the same split and the same contract rules. `Scheduler` is the
loop with two timers against two independent clocks, and `BlockCadence` the gate
on block numbers.

**Streams, keys, attestation, tokens, receipts.** `Streams` is the chunk loop with
its receipts and its clean-up guard, `KeyRotation` the encryption keys over
rotations, failed writes and restarts, `AttestationCache` the cached hash over
runs of refreshes. `SessionIds`, `Base58` and `Bearer` are the codecs, over
`Positional` and `Encoding`. `ReceiptsRoot` is the root in an epoch record.

Hash functions, signatures, JSON and white space are arbitrary functions. No
injectivity is assumed of a hash: where a result depends on it, the lemma names
the two inputs that would collide.

## What turned out otherwise

- A free slot may stay unused beside a parked caller: two releases before the
  waiter polls leave one permit. This cannot happen exactly when the limit is at
  most one or there is no queue (`AdmissionCoalescing.WorkConservingIff`), and
  with the queue the server configures exactly when the limit is at most one
  (`AdmissionCoalescing.ServerConservesIff`).
- The block gate opens too early exactly at block 2^64 - 1, where its addition
  saturates (`BlockCadence.OpensTooEarlyIff`). Over a run the anchors are n blocks
  apart if and only if nothing is settled at that block with the anchor fewer than n
  below it (`BlockCadence.SpacedIff`); two settlements one block apart at n = 2 are
  the failing input (`BlockCadence.SpacedFails`).
- `persist_encryption_key_rotation` accepts version 0, and then the new key is
  usually not the one chosen for that version (`KeyRotation.CurrentKeyChosenIff`; a
  failing record for every hash is in `KeyRotation.RotationToZeroFails`). Its only
  caller never passes 0. A stored identity at version 0 that also holds a
  legacy key passes the reload check although its own key is never chosen
  (`KeyRotation.LoadedKeyChosenIff`, `KeyRotation.LoadedKeyHidden`).
- After `0x`, a plus sign with up to fifteen digits passes for a session id
  (`SessionIds.OtherwiseOnlySigned`): `0x+1` is read as 1
  (`SessionIds.SignPasses`). Everything else that is not hexadecimal is
  refused.
- A stream panics where it puts a due receipt into a chunk that is JSON but
  neither an object nor null, such as a line `data: 1`. The chunk is counted and
  its receipt stored, but never forwarded, and the session is closed as if the
  consumer had left (`Streams.NumberTrips`). A stream whose consumer stays gets
  through if and only if no chunk for which a receipt is due and signed is of that
  kind (`Streams.ChatStream`).
- Attestation freshness is measured at the start of a refresh: a slow failing call
  can return a hash that has expired meanwhile (`AttestationCache.MayExpireMeanwhile`).
  The hash is still fresh if and only if the call took less time than the hash had
  left (`AttestationCache.StillFreshIff`).
- A restart recovers the Opening and Active sessions and no others
  (`Sessions.RestartIsExact`), so a Completed session that was not settled is no
  longer pending afterwards, although it is stored (`Sessions.CompletedIsLost`).
- Splitting a usage report can make it cheaper, because the contract rounds the
  price of every report down (`Pricing.SplitCanLose`); it costs the same if and
  only if the remainders make up no further unit (`Pricing.SplitLosesNothingIff`).
  The independence of payments from the schedule is about given recorded usage.

## Model

| member | source | states |
|---|---|---|
| `AdmissionSafety.StepKeeps` | src/capacity.rs:71-145 | every atomic step of every caller keeps the invariant of counters, slots and waiters |
| `AdmissionSafety.ReachableInv` | src/capacity.rs:53-145 | the invariant holds in every state any interleaving reaches |
| `AdmissionTheorems.CountersExact` | src/capacity.rs:71-128 | active is the number of live limited guards, at most the limit; queued the number of waiting callers, at most the queue size |
| `AdmissionTheorems.NoStrandedWaiter` | src/capacity.rs:71-128 | a caller that saw a full model or waits is never left without a live guard, a release under way, a notified caller or a stored permit, and a stored permit finds nobody parked |
| `AdmissionTheorems.ParkedCallerHasHelp` | src/capacity.rs:104-128 | behind every parked caller there is another caller of the model that will notify or take over |
| `AdmissionTheorems.NoWrapAround` | src/capacity.rs:74-127 | no counter underflows or overflows: each moves by exactly one |
| `AdmissionTheorems.OneSlotPerModel` | src/capacity.rs:131-145 | racing first calls share one slot, different models never do |
| `AdmissionTheorems.RefusedOnlyWhenFull` | src/capacity.rs:91-98 | a queue-full refusal follows a time of the run at which every slot was taken, and then or later one at which every queue place was |
| `AdmissionTheorems.RunRemembers` | src/capacity.rs:72-107 | what a caller remembers of the counters is what they were at earlier times of the run |
| `AdmissionTheorems.NeverStuck` | src/capacity.rs:53-145 | every unfinished caller that is not parked has a possible step |
| `AdmissionCoalescing.WorkConservingIff` | src/capacity.rs:104-128 | no free slot is left beside a parked caller, in all reachable states, if and only if the limit is at most one or there is no queue |
| `AdmissionCoalescing.ServerConservesIff` | src/capacity.rs:161-167 | with the configured queue depth, for any ratio, if and only if the limit is at most one |
| `AdmissionCoalescing.MaxQueueDepth` | src/capacity.rs:161-167 | the depth is zero exactly for unlimited models, otherwise at least one and the product rounded down |
| `AdmissionCode.ModelAdmission.Acquire` | src/capacity.rs:53-122 | the acquire loop, under any interference, continues the run of the machine: it takes its steps in every round, no compare-exchange fails by itself more often than the world says, and it stays undecided only after all rounds or parked before its deadline; alone, it returns a guard exactly below the limit, a refusal exactly without a queue place, and waits otherwise |
| `AdmissionCode.ModelAdmission.QueueUp` | src/capacity.rs:91-119 | the queueing part of a round: refused, notified, timed out after the deadline, or beaten to the place; alone, exactly by queue counter, permit and deadline |
| `AdmissionCode.ModelAdmission.Wait` | src/capacity.rs:104-108 | the wait ends with a notification, or with the deadline when it has passed and nobody has woken the caller |
| `AdmissionCode.ModelAdmission.CompareExchangeActive` | src/capacity.rs:74-89 | the weak compare-exchange: when it succeeds, and the counter before and after |
| `AdmissionCode.ModelAdmission.CompareExchangeQueued` | src/capacity.rs:100-118 | the same for the queue counter |
| `AdmissionCode.ModelAdmission.CountOut` | src/capacity.rs:109-117 | the wait ends with a decrement by exactly one |
| `AdmissionCode.ModelAdmission.SlotFor` | src/capacity.rs:131-145 | the caller gets the slot the map has for its model, with other callers in between |
| `AdmissionCode.ModelAdmission.OrInsert` | src/capacity.rs:141-144 | the slot of whoever inserted first is the one both get |
| `AdmissionCode.ModelAdmission.Release` | src/capacity.rs:124-158 | dropping a guard is two events of the machine, others in between, and ends with one waiter woken or the permit stored |
| `AdmissionCode.ModelAdmission.DropCount` | src/capacity.rs:126 | the active counter goes down by exactly one |
| `AdmissionCode.ModelAdmission.NotifyOneWaiter` | src/capacity.rs:127 | the permit is stored exactly when nobody is parked on the slot, otherwise one such caller is woken |
| `Scheduler.RunEpochLoop` | src/settlement/mod.rs:42-67 | the merged loop's log is exactly what two independent clocks do, each pass sleeps and does something, and the number of passes is the ticks of both clocks less the common ones |
| `Scheduler.ClocksSound` | src/settlement/mod.rs:42-67 | the two clocks' log has exactly the due seconds, in order of time |
| `Scheduler.PassCount` | src/settlement/mod.rs:50-67 | T/a + T/b - T/lcm(a, b) entries by second T |
| `Scheduler.BothDue` | src/settlement/mod.rs:59-67 | both timers fire together exactly at multiples of the least common multiple |
| `Sessions.SessionManager.OpenWithTee` | src/session.rs:96-127 | a new session: each field of its record, in memory and in the store |
| `Sessions.SessionManager.RecordChunk` | src/session.rs:129-135 | counts tokens of one session, writes it through, leaves the rest alone |
| `Sessions.SessionManager.UpdateEvmTokensSynced` | src/session.rs:137-144 | moves the usage watermarks of one session |
| `Sessions.SessionManager.AddReceipt` | src/session.rs:146-154 | appends a receipt, saves it under session and number |
| `Sessions.SessionManager.Close` | src/session.rs:156-163 | sets state and end of one session, whatever the state was |
| `Sessions.SessionManager.UpdateEvmTeeAnchorTokens` | src/session.rs:231-237 | moves the settlement anchor of one session |
| `Sessions.SessionManager.PendingSettlement` | src/session.rs:171-183 | lists the Completed sessions and no others, each once |
| `Sessions.SessionManager.PendingBestEffortCompletedSettlement` | src/session.rs:186-200 | lists the Completed best-effort sessions and no others, each once |
| `Sessions.SessionManager.TeeTouchCandidates` | src/session.rs:203-229 | lists the linked TEE sessions that are Completed, or Active with new output since the anchor of at least the threshold, and no others, each once |
| `Sessions.SessionManager.RecoverFromStore` | src/session.rs:239-247 | takes over exactly the stored Opening and Active records |
| `Sessions.Perform` | src/session.rs:71-247 | a real manager and store, over any run with restarts, follow the reference on maps |
| `Sessions.RestartIsExact` | src/session.rs:239-247 | after any run every record in memory is the stored one, and a restart recovers exactly the live records, field for field |
| `Sessions.CompletedIsLost` | src/session.rs:171-247 | the failing input: a completed session that a restart takes off the pending list |
| `Escrow.SettlementEscrow.OpenSession` | contracts/src/SettlementEscrow.sol:297-341 | locks a positive amount for a new session |
| `Escrow.SettlementEscrow.RecordUsage` | contracts/src/SettlementEscrow.sol:355-381 | who may record usage, when, at what price, and what the books and the log gain |
| `Escrow.SettlementEscrow.ApplyUsage` | contracts/src/SettlementEscrow.sol:370-381 | a report is booked exactly when no checked operation overflows, with its price and its token counts |
| `Pricing.Price` | contracts/src/SettlementEscrow.sol:370-376 | the price step by step: when a checked operation reverts, and the price otherwise |
| `Pricing.CostIs` | contracts/src/SettlementEscrow.sol:370-376 | how far rounding takes the price below the exact one |
| `Pricing.SplitLosesNothingIff` | contracts/src/SettlementEscrow.sol:370-376 | splitting a report never costs more, and as much if and only if the remainders make up no further unit |
| `Pricing.SplitCanLose` | contracts/src/SettlementEscrow.sol:373 | two reports that are free where one is not |
| `Escrow.SettlementEscrow.SettleByOperator` | contracts/src/SettlementEscrow.sol:394-457 | the operator's partial and full settlements: which are accepted, what they move and what the log gains |
| `Escrow.PartialsAre` | contracts/src/SettlementEscrow.sol:394-407 | what is counted as the partial settlements of a session |
| `SettlementState.AcceptedIsBooked` | contracts/src/SettlementEscrow.sol:378-443 | an accepted transaction moves the sums of its own escrow session by its amounts, and no others |
| `Environments.Environment.Await` | src/settlement/evm.rs:193-257 | whatever goes on during a wait keeps the invariant and moves no mark and no money, and the call ends as the script says |
| `SettlementVisit.SyncTokenUsageOnChain` | src/settlement/evm.rs:499-543 | after a success the contract has accepted exactly the deltas, once, and the watermarks are the copy's counts; after a failure it has accepted nothing |
| `SettlementVisit.SplitIsExact` | src/settlement/evm.rs:255-282 | nothing saturates, the contract accepts the split exactly when it moves anything, a full one always moves all, and the provider then has min(usage read, opening lock) |
| `SettlementVisit.SettleKeeps` | src/settlement/evm.rs:255-303 | a settlement computed from a read keeps every escrow session and its books in order, however much usage was recorded since |
| `SettlementVisit.FirstLook` | src/settlement/evm.rs:198-211 | a settled session closes the record as Settled; it is an error exactly when the call fails or the session is unknown |
| `SettlementVisit.BeginVisit` | src/settlement/evm.rs:198-231 | only an open session of this node's operator is settled, and it is an error exactly when a call fails, the session is unknown, or it is open and the operator another |
| `SettlementVisit.LookAgain` | src/settlement/evm.rs:244-258 | the second read sees an open session as it is, unless its call fails |
| `SettlementVisit.Refresh` | src/settlement/evm.rs:190-258 | everything before the split: no money moves, the contract accepts at most one report, the usage read includes it, and it stops with an error only for an excuse |
| `SettlementVisit.SendSettlement` | src/settlement/evm.rs:283-303 | a settlement is accepted exactly once and leaves the provider paid as due, if and only if its call succeeds |
| `SettlementVisit.Finish` | src/settlement/evm.rs:305-326 | after confirmation the anchor is the copy's count, or the session is Settled |
| `SettlementVisit.Release` | src/settlement/evm.rs:255-329 | the whole settlement of an open session: it fails exactly when its call fails, and otherwise leaves the provider paid as due |
| `SettlementVisit.SettleSession` | src/settlement/evm.rs:188-344 | a visit fails only because one of its calls failed, the session is unknown, the operator another, or the report overflows; otherwise the tokens are reported, the provider is paid min(usage including that report, opening lock), a finished session is settled in the contract and the record, and the contract has accepted just the report and the settlement |
| `SettlementTick.VisitAll` | src/settlement/evm.rs:187-344 | every listed session has its own visit with its own calls, which attends to it but for an excuse of its own, so one failing session does not keep the others from being served |
| `SettlementTick.SettleTee` | src/settlement/evm.rs:161-346 | a closed gate sends nothing, an open one visits every candidate; the anchor moves exactly when something settled, to the head the chain reported |
| `SettlementTick.FetchHead` | src/settlement/evm.rs:161-174 | the head is the one the chain reports, asked for only when the gate needs it |
| `SettlementTick.SettleBestEffort` | src/settlement/evm.rs:348-465 | every Completed best-effort session is visited and ends up settled, but for excuses |
| `SettlementTick.CheckOperator` | src/settlement/evm.rs:85-147 | the tick goes on if and only if the settings are usable, the call succeeds and the contract names this node's account, not the zero account |
| `SettlementTick.ProcessSettlementTick` | src/settlement/evm.rs:72-466 | a whole tick: nothing moves back, no settlement is refused, every due session is visited and served but for excuses of visits to it, the head is the reported one, and the attempt says what the TEE part settled |
| `SettlementTick.MetStill` | src/settlement/evm.rs:188-344 | no visit undoes an earlier one, even where two records share an escrow session |
| `SettlementTick.PaidFor` | src/settlement/evm.rs:244-282 | however a tick visits an escrow session, the usage behind its payments covers all that was on record when the tick began |
| `SettlementRuns.RunNode` | src/settlement/mod.rs:48-115 | any run of ticks, other tasks and restarts: every tick serves whom it must, at heads the chain reported; at every point usage is reported once (accepted deltas are the watermarks), partial settlements times max(threshold, 1) are at most the anchor, accepted amounts are those paid and refunded, which with the lock make up the opening lock, and no settlement is refused; from any point to any later one nothing moves back; anchors are spaced |
| `SettlementRuns.WholeRun` | src/settlement/mod.rs:48-115 | the promises at and between the points follow for any run of such steps |
| `SettlementRuns.DueIsServed` | src/settlement/evm.rs:72-466 | a tick whose calls all succeed settles what is due, by tier, state, tokens and block distance: the provider is paid for all the usage on record at its start up to the lock, and Completed sessions end up settled with nothing left locked, unless a report overflows |
| `SettlementRuns.HeldBack` | src/settlement/evm.rs:161-186 | while the head is unknown or fewer than n blocks above the anchor, the TEE part of a tick sends nothing and the anchor stays |
| `SettlementRuns.CountersAgree` | contracts/src/SettlementEscrow.sol:379-380 | the contract's own token counters are the node's watermarks plus what the router metered |
| `SettlementRuns.NothingMovesBack` | src/settlement/evm.rs:72-466 | over any stretch of a run, restarts included, watermarks and anchors never decrease, accepted transactions stay, and a settled escrow session never changes |
| `SettlementRuns.AnchorsOfRun` | src/settlement/evm.rs:474-489 | in one process of a run the anchor advances at heads reported by the chain that are at least n apart |
| `SettlementRuns.WindowOfRun` | src/settlement/evm.rs:474-489 | any window of w blocks holds at most w/n + 1 anchor heads of a process of the run, all reported by the chain |
| `SettlementRuns.AdvanceSettled` | src/settlement/evm.rs:330-346 | the anchor advances only at a TEE tick in which the contract accepted a settlement, to the head reported to that tick |
| `SettlementSchedule.ScheduleIndependent` | src/settlement/evm.rs:255-295 | any interleaving of usage records, stale reads and partial settlements ends with the payments of one full settlement, min(all recorded usage, opening lock), whatever is recorded after the final read |
| `SettlementSchedule.PartialPays` | src/settlement/evm.rs:255-266 | a partial settlement pays all the usage read, up to the lock |
| `SettlementSchedule.FinalPays` | src/settlement/evm.rs:255-295 | the final settlement pays min(usage at its read, opening lock), late usage notwithstanding |
| `SettlementSchedule.PartialsOnlyPay` | src/settlement/evm.rs:264-266 | before the end nothing is refunded and no payment passes the usage |
| `BlockCadence.SpacedIff` | src/settlement/evm.rs:474-489 | the anchor moves at heads at least n apart over a run if and only if no attempt settles at the last block with the anchor fewer than n below it |
| `BlockCadence.SpacedFails` | src/settlement/evm.rs:485-488 | the failing input: two settlements one block apart at a cadence of two |
| `BlockCadence.GateIff` | src/settlement/evm.rs:474-489 | the gate is open if and only if there is no cadence, or a known head is n blocks above the anchor, or there is no anchor, or at the last block |
| `BlockCadence.WindowBound` | src/settlement/evm.rs:474-489 | any window of w blocks holds at most w/n + 1 anchor heads |
| `BlockCadence.OpensTooEarlyIff` | src/settlement/evm.rs:485-488 | the one block at which the gate opens too early, if and only if |
| `Streams.HandleChunk` | src/server/inference.rs:269-288 | one chunk: counted once, a receipt exactly when due and signed, the same in the session and the store; it panics exactly when that receipt does not fit the JSON |
| `Streams.Counted` | src/server/inference.rs:271-288 | the receipt chain goes on: numbers without gaps, growing multiples of the cadence, hash of the right chunk, this provider, time and signature as signed then, the session's quote hash |
| `Streams.Forward` | src/server/inference.rs:261-289 | a counted chunk is forwarded as one event, or lost in a panic |
| `Streams.HandleLine` | src/server/inference.rs:244-289 | a line is ignored, ends the stream, or is one chunk |
| `Streams.LineMeans` | src/server/inference.rs:244-268 | what a line is: behind the prefix and within white space, `[DONE]` is the end, other JSON a chunk, anything else nothing |
| `Streams.PrefixAgain` | src/server/inference.rs:247 | a repeated prefix is dropped too |
| `Streams.Pump` | src/server/inference.rs:240-301 | the two loops forward exactly the expected chunks up to the end, an error, the first chunk that trips, or the consumer's leaving |
| `Streams.Conclude` | src/server/inference.rs:249-311 | usage summary, close, last message; a consumer leaving at the summary leaves the session open |
| `Streams.CleanUp` | src/server/inference.rs:33-40 | an unfinished stream closes its session as disconnected, a finished one not again |
| `Streams.ChatStream` | src/server/inference.rs:191-311 | a whole stream: closed exactly once; receipts 1..n with n = tokens / cadence when signing works; if the consumer stays, all promised chunks and the promised state if and only if no promised chunk trips it |
| `Streams.OrdinaryStream` | src/server/inference.rs:240-311 | a backend that sends JSON payloads and then `[DONE]`, its end or an error: a consumer that stays receives exactly these payloads, if none trips the stream |
| `Streams.NumberTrips` | src/server/inference.rs:283-286 | the failing input: one line with a number, at cadence 1 |
| `KeyRotation.PreimageParts` | src/identity.rs:73-79 | what is hashed into an encryption secret: signing key, label, version in 4 bytes |
| `KeyRotation.SecretsDiffer` | src/identity.rs:73-79 | two versions or nodes share a secret only by a collision |
| `KeyRotation.RotationKeeps` | src/identity.rs:369-425 | a rotation to a version from 1 on keeps every past key available |
| `KeyRotation.SecretForIff` | src/identity.rs:304-324 | which secret is chosen for a version, and when there is none |
| `KeyRotation.CurrentKeyChosenIff` | src/identity.rs:310-323 | after a rotation to any version the new key is the one chosen, if and only if |
| `KeyRotation.RotationToZeroFails` | src/identity.rs:310-425 | the failing input: a node that keeps a legacy key rotates to version 0 |
| `KeyRotation.LoadedKeyChosenIff` | src/identity.rs:149-158 | a record that passes the reload check has its own key chosen, if and only if |
| `KeyRotation.LoadedKeyHidden` | src/identity.rs:149-158 | the failing input: a stored version 0 beside another legacy key |
| `KeyRotation.Identity.LoadExisting` | src/identity.rs:119-176 | a stored secret is loaded exactly when it passes the check |
| `KeyRotation.Identity.Generated` | src/identity.rs:226-268 | a first start stores version 1 with its derived secret and loads what it stored |
| `KeyRotation.Identity.PrepareEncryptionRotation` | src/identity.rs:360-366 | the next version is the successor and never 0, with the secret and the public key of that version |
| `KeyRotation.Identity.PersistEncryptionKeyRotation` | src/identity.rs:369-425 | what is accepted, and what memory and files hold after each possible write failure |
| `KeyRotation.Identity.BindStore` | src/identity.rs:52-69 | putting an old copy back loses a rotation in memory but no key |
| `KeyRotation.Identity.Run` | src/identity.rs:300-425 | over any run the key chosen for a version is the one that was current, now and after a reload, and the stored secret passes the check |
| `AttestationCache.NormalizeKeepsBytes` | src/attestation/runtime.rs:58-69 | exactly 32 bytes of hexadecimal pass; the result is canonical, has the same bytes and is its own normal form |
| `Encoding.HexDigits` | src/attestation/runtime.rs:61 | the values of the hexadecimal digits, in either case |
| `AttestationCache.TtlIs` | src/attestation/runtime.rs:71-73 | the time to live is that many days, up to the largest value |
| `AttestationCache.NrasRuntimeState.MaybeUseCacheOnFailure` | src/attestation/runtime.rs:97-143 | the cached hash exactly when young enough, and shown as such |
| `AttestationCache.NrasRuntimeState.Refresh` | src/attestation/runtime.rs:148-273 | which hash is returned; verified is shown exactly when there is one, and then the same |
| `AttestationCache.ReturnedIsJustified` | src/attestation/runtime.rs:148-273 | a returned hash was verified in that call, or less than the time to live before it with nothing disabling since |
| `AttestationCache.JustifiedIsReturned` | src/attestation/runtime.rs:148-273 | and a justified hash is returned, unless the service's address is missing |
| `AttestationCache.Run` | src/attestation/runtime.rs:148-273 | over whole runs with a clock that never runs backwards: every result is justified or empty, justified hashes are returned, and the interface agrees after every call |
| `AttestationCache.StillFreshIff` | src/attestation/runtime.rs:110-111 | a cached hash is still fresh when returned if and only if the call took less time than it had left |
| `AttestationCache.MayExpireMeanwhile` | src/attestation/runtime.rs:187-188 | a run in which a returned hash has expired |
| `SessionIds.HexIdExact` | src/router_client/activate.rs:92-110 | hexadecimal of any length and padding is accepted exactly when below 2^64, with that value |
| `SessionIds.LongNeverSucceeds` | src/router_client/activate.rs:102-107 | the padded branch never succeeds |
| `SessionIds.DecimalIdExact` | src/router_client/activate.rs:109 | the decimal text of a number, with any leading zeros, is accepted exactly when below 2^64, with that value |
| `SessionIds.DecimalOnly` | src/router_client/activate.rs:109 | without 0x, exactly decimal digits below 2^64 are accepted, with or without a plus sign |
| `SessionIds.OtherwiseOnlySigned` | src/router_client/activate.rs:94-107 | what else is accepted after 0x, exactly |
| `SessionIds.SignPasses` | src/router_client/activate.rs:94-101 | the failing input: a signed text that is not hexadecimal is read as a number |
| `Base58.DecodeEncoded58` | src/router_client/activate.rs:153 | decoding undoes encoding, leading zeros included |
| `Base58.EncodeDecoded58` | src/router_client/activate.rs:170-172 | and encoding undoes decoding: bytes have one text only |
| `Base58.AlphabetInOrder` | src/router_client/activate.rs:153 | the digits of the alphabet are in the order of their characters, from 1 to z |
| `Bearer.MintSkBearer` | src/router_client/activate.rs:142-154 | the payload assembled in place gives the specified token |
| `Bearer.ReaderRecovers` | src/server/auth.rs:121-155 | the header reader recovers id and token from every minted one (section 2.1 of RFC 6750) |
| `Bearer.ReaderReadsId` | src/server/auth.rs:121-155 | a header with a decimal session id is read as that id without a token, and refused from 2^64 on |
| `Bearer.SecretInputParts` | src/router_client/activate.rs:156-163 | what is hashed into a token: label, node secret, id in 8 bytes, user |
| `Bearer.AcceptsExactlyMinted` | src/router_client/activate.rs:166-190 | verification accepts the minted token and no other text |
| `Bearer.BoundToSession` | src/router_client/activate.rs:181-184 | a different session id is always rejected |
| `Bearer.BoundToUser` | src/router_client/activate.rs:185-188 | acceptance for another user or node key exhibits a hash collision |
| `ReceiptsRoot.ComputeReceiptsRoot` | src/settlement/mod.rs:119-128 | the root is the hash of all receipt digests in order, a function of the flat sequence |
| `ReceiptsRoot.RootCommits` | src/settlement/mod.rs:119-128 | equal roots of different leaf sequences yield two colliding inputs |
| `ReceiptsRoot.RootCommitsToReceipts` | src/settlement/mod.rs:119-128 | the same for sessions with different receipts |

## Left out

- JSON-RPC, wallets, ABI encoding, HTTP, WebSocket, libp2p and the database: outside effects, replaced by the environment script, the escrow class and the store maps.
- Mined transactions that revert: `watch` in src/settlement/evm.rs does not check a transaction's status, so one that passes the gas estimate and then reverts counts as confirmed there; here a confirmed transaction has taken effect.
- Transactions whose confirmation is lost, crashes between a confirmation and the watermark update, and acquire futures dropped while queued: the code does not handle them.
- The session user's own settlements, and a change of the contract's operator or of a node's operator: only this node's operator settles. Prices may differ from report to report.
- Escrow.SettlementEscrow.OpenSession: the checks of node, tier, model and name and the consumer's funding are left out; the lock is made for any positive amount.
- Escrow.SettlementEscrow.SettleByOperator: the split of the provider's gross amount into fee and net is left out.
- Failed store writes: the code ignores them, and write-through is stated for stores that accept every write.
- Saturation of the session's token counts at 2^64 and overflow of receipt numbers: the node's counts are unbounded. The contract's counters are 64-bit.
- Environments.Environment.Await: a remote call is one point of interference; what a call returns is read at its end. Sending a transaction is one call: its gas estimate, nonce and chain id requests fail with it.
- `SettlementVisit.SettleSession`: one method for the streaming and the best-effort branch, which differ only in a check that never applies to a full settlement.
- Admission.Apply: atomics are sequentially consistent, the limits of a model are fixed, and the counters reported in a timeout error are not recorded; waiters are woken in any order.
- AdmissionCode.ModelAdmission.Acquire: runs for a given number of rounds, and looks at a parked caller a given number of times, since the code may wait for ever.
- `AdmissionCoalescing.MaxQueueDepth`: multiplies exactly, without floating-point rounding.
- Streams.ChatStream: an event holds the text of the chunk, while the program forwards its re-serialization, with the receipt added; bodies arrive as lines of characters, so the splitting of bytes and repair of broken UTF-8 are left out, as are decryption, admission and the opening of the escrow session before the stream.
- KeyRotation.Identity.PersistEncryptionKeyRotation: a failed write leaves a file as it was; key version 2^32 - 1 wraps to 1 as in a release build.
- AttestationCache.NrasRuntimeState.Refresh: error texts are abbreviated, and the suppression of repeated warnings is left out.
- SessionIds.ParseSessionIdU64: non-ASCII text is an error here; the program may also panic when it cuts such a text at 64 bytes.
- Bearer.VerifySkBearer: error texts are abbreviated and the identity is taken as loaded; the middleware around it and the on-chain lookup are not part of this model.
- Public identity file: its peer id and public key are written but nothing is claimed about their agreement after a lost update.
- Fairness among waiters: a new caller may overtake.
- Signature verification, receipt verification by consumers, model catalogue, registry calls, health endpoints, command line and configuration: plumbing or one-branch facts.
