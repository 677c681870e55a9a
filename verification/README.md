# Crash recovery of a single-writer run, in Dafny

A model of the persistence layer under `tools/c15_persistence` and of the world graph service in
`src/aios_core/world_graph.py`, with proofs of what they promise.

A run reveals one event after the other, ingests it, lets a model work on it in rounds, and acks it.
One operator drives it over durable state and may be killed and resumed any number of times. It must
never send a request twice and never go on without a durable trusted return. The parts are:

| file | what it models |
|---|---|
| `NumberTheory.dfy`, `Primality.dfy`, `Rsa.dfy` | the synthetic provider's primality test, key generation and signing, on unbounded integers, with Fermat's theorem, the square roots of 1 and the Chinese remainder theorem proved from scratch |
| `Relay.dfy` | the relay journal: a row state machine with an audit log, one transaction per method |
| `PrototypeJournal.dfy` | the synthetic prototype journal with its checkpoints |
| `GenerationNames.dfy`, `Generations.dfy` | sealed generations, the hash-chained head, the generation ledger, and admission after a seal cut anywhere |
| `RemoteRef.dfy`, `Admission.dfy` | several writers over one remote ref, step by step, and the admission of a cache that is bound to it |
| `ProviderDispatch.dfy`, `ProviderPin.dfy` | the provider's command handlers over two mailboxes, and the provider identity a run is pinned to |
| `OperatorState.dfy`, `OperatorProgress.dfy`, `OperatorSession.dfy` | the operator loop, write by write: what every crash leaves true, what the state is at the kill points, and whole runs |
| `WorldGraph.dfy` | entities and relations over an append-only store, with request replay and provenance |

## How crashes are modelled

Every durable write of the operator goes through `OperatorSession.Write`. A fuse counts the writes that
still succeed; when it is spent the process dies and only the disk, the remote and the marker are left.
`Safe` holds after every write, so it holds after a crash between any two of them. `RunProcesses` states
what follows for any sequence of processes: at most one first dispatch and one provider row per request,
exposures of at most one, every cursor before the current one applied, and a run that waits for an
unanswered request, or that a crash broke, stays so for good, with its mailbox untouched.

Four places between two writes have names (`Place`), so that a process can be made to crash there and
nowhere before: `CrashIsFinal` and `CrashBeforeFinalising` say what follows, for every script and cursor. A
fuse leaves the same disks (`Reveal`, `Ingest` with two writes left, `Apply` with one).

Kill points are explicit. `Stands` describes the exact durable state there, up to generation counts, audit
lines and whether a row is authenticated or already applying. `RunToEnd` states convergence: any finite
sequence of kills, each followed by a new process on the kept state or on the state materialized from the
remote, ends in the state of an uninterrupted run (`SameEnd`, `AtEnd`), unless a kill behind a dispatch
meets a round that is still to be dispatched. `ProcessOneCursor` says exactly when it does, and such a kill
never converges (`DispatchKillIsFinal`). Whenever a process dies at any of the six points the remote head is
the local state (`Published`), which is why wiping loses nothing (`WipeAndMaterialize`).

`Safe`, `Sits`, `Stands` and `Finishing` hide their contents behind a small counter. The methods carry them
as one fact and open them, by a lemma, only where they use what is inside.

Identifiers made by hashing (request and attempt ids, commit ids) are distinct names. `digest` in the
generation store and in the prototype journal is an arbitrary function; where injectivity is needed it is
a precondition. The derived identifiers of the world graph are arbitrary functions throughout.

The release operator, the ingest adapter and Core enter through small contracts: reveal shows the pending
event again, ingest reuses the stored observation, ack advances by one, Core admits only new or not yet
dispatched attempts, serves the latest attempt from its trusted return if every earlier round is metered,
and its turn returns only if every handler call returned. The world store appends contiguous revisions
atomically and replays by idempotency key and request.

## Where promise and code part

- `tools/c15_persistence/operator_session.py:36-40` says that a missing attempt is admitted again; the code at
  1266-1279 stops, and so does the model (`RecoverOne`).
- `tools/c15_persistence/freeze_probe_manifest.py:58-72` expects a kill behind a dispatch to reach the baseline; the
  code at `operator_session.py:1244-1260` fails closed (`DispatchKillIsFinal`).
- Convergence needs crashes at the kill points. After a crash between `operator_session.py:1422` and `:1423` the
  cursor is applied and its rows are not: the turn is skipped (`RunTurn`) and the cursor is acked, and then
  the ack of the terminal request is refused, which happens exactly if that row is not applied (`RecordAck`).
  Such a crash is reached from every fresh cursor, and the request stays unacked forever
  (`CrashBeforeFinalising`).
- The comment at `operator_session.py:1405-1407` says that a crash before the turn never leaves Core in a state
  that cannot be re-entered without a redispatch. A crash between round 0's exchange and Core's turn leaves a
  reply without an attempt, and the code at 1266-1279 refuses it from then on (`CrashIsFinal`).
- A crash between the two ledger rows of a reveal, or of an ingest, leaves a run whose replay check refuses
  it from then on (`CrashIsFinal`, `RunProcesses`).
- A crash between the two ledger writes of a repin leaves a mixed pin, which the next attach refuses while
  the new provider lives, exactly if the fingerprints differ (`CutRepin`).
- The provider's dispatch is not at most once over several mailboxes (`TwoTargetsUnmirrored`). A request is
  submitted again exactly by a first dispatch to another mailbox when the first submission could not write
  the provider's own ledger (`SubmittedAgain`, `NeverAgain`); for one mailbox it never is.
- `collect` is described as serving dispatched requests; it writes a reply for any request it finds
  (`CollectWrites`).
- The millionth generation gets a seven-digit directory that the six-digit glob does not see: its seal
  succeeds and admission then refuses the run (`MillionthGenerationRefused`, `SealAcceptedExactly`).
- The receipt of a repeated upsert carries the latest revision of the relation, so it equals the first receipt
  only while the relation has that revision still (`RepeatedUpsertReceipt`).

## Model

| member | source | states |
|---|---|---|
| `NumberTheory.Fermat` | tools/c15_persistence/provider_process.py:221-230 | a^(p-1) is 1 modulo a prime p that does not divide a: the reason a prime passes a round |
| `NumberTheory.SquareRootsOfOne` | tools/c15_persistence/provider_process.py:226-228 | modulo a prime only 1 and -1 square to 1: the reason the inner loop meets n - 1 |
| `NumberTheory.ChineseRemainder` | tools/c15_persistence/provider_process.py:250-254 | numbers that agree modulo two distinct primes agree modulo their product |
| `NumberTheory.FermatExponent` | tools/c15_persistence/provider_process.py:253-254 | raising to 1 + t(p-1) changes nothing modulo a prime, also for multiples of it |
| `Primality.SplitExact` | tools/c15_persistence/provider_process.py:217-220 | 2^r * d is exactly the number that was split, d is odd, and r >= 1 exactly for even numbers |
| `Primality.SplitOffTwos` | tools/c15_persistence/provider_process.py:217-220 | the loop ends with that r and d |
| `Primality.PrimeStrong` | tools/c15_persistence/provider_process.py:221-230 | every base that the prime does not divide passes a round |
| `Primality.Round` | tools/c15_persistence/provider_process.py:222-230 | a round passes exactly when a^d is 1 or -1 appears among the first r squares |
| `Primality.Rounds` | tools/c15_persistence/provider_process.py:221-231 | True exactly when all k rounds pass, whatever bases are drawn |
| `Primality.SmallPrimesComplete` | tools/c15_persistence/provider_process.py:197-206 | the table lists every prime below 613 and nothing else |
| `Primality.TrialMeaning` | tools/c15_persistence/provider_process.py:211-215 | trial division answers by the first hit; over a table without inner divisors that is membership or a listed factor |
| `Primality.TrialDivision` | tools/c15_persistence/provider_process.py:211-215 | the loop gives that answer |
| `Primality.TrialDivisionDecides` | tools/c15_persistence/provider_process.py:211-215 | below 613 * 613 a number without a listed factor is an unlisted prime |
| `Primality.PrimeIsProbablePrime` | tools/c15_persistence/provider_process.py:208-231 | a prime passes for every number of rounds and every draw |
| `Primality.ExactBelowTableSquare` | tools/c15_persistence/provider_process.py:208-231 | below 613 * 613 the answer is primality itself, whatever is drawn |
| `Primality.IsProbablePrime` | tools/c15_persistence/provider_process.py:208-231 | the whole test: its exact meaning, completeness on primes, exactness below 613 * 613 |
| `Rsa.OddWithTopBitShape` | tools/c15_persistence/provider_process.py:236 | every candidate is odd and has exactly the requested bit length |
| `Rsa.GeneratePrime` | tools/c15_persistence/provider_process.py:234-238 | returns the first candidate of the stream that passes the test, odd and of full width |
| `Rsa.Inverse` | tools/c15_persistence/provider_process.py:252-254 | d is an inverse of e modulo phi, and below phi |
| `Rsa.TryKey` | tools/c15_persistence/provider_process.py:249-255 | a pair is taken exactly when the primes differ, n has the requested size and e is coprime to phi |
| `Rsa.GenerateKeypair` | tools/c15_persistence/provider_process.py:241-255 | a key comes from two accepted draws and satisfies the key relation with the two numbers drawn |
| `Rsa.EncodedLength` | tools/c15_persistence/provider_process.py:340-347 | the padded block has exactly size bytes iff size >= 54, and its eight ff bytes iff size >= 62 |
| `Rsa.EncodedDistinct` | tools/c15_persistence/provider_process.py:340-347 | no two hashes share a padded block |
| `Rsa.BlockBelowModulus` | tools/c15_persistence/provider_process.py:341-348 | the padded block, read as a number, is below the modulus |
| `Rsa.ToBytesExact` | tools/c15_persistence/provider_process.py:349 | to_bytes overflows exactly at 256^size, and from_bytes undoes it |
| `Rsa.SignThenVerify` | tools/c15_persistence/provider_process.py:241-255 | the public operation undoes the private one for every message, coprime to n or not |
| `Rsa.SignMessage` | tools/c15_persistence/provider_process.py:338-349 | the text carries scheme and key id, and its digits spell exactly size bytes: the block raised to d modulo n |
| `Rsa.HexRoundTrip` | tools/c15_persistence/provider_process.py:349 | the hexadecimal spelling has two digits a byte and reads back exactly |
| `Rsa.SpelledReads` | tools/c15_persistence/provider_process.py:349 | under one key id the text determines the signature byte for byte |
| `Rsa.SignatureOpens` | tools/c15_persistence/provider_process.py:338-349 | raising the signature to e modulo n gives back the padded block |
| `Relay.RelayJournal.Stage` | tools/c15_persistence/relay.py:260-321 | accepted exactly for admissible metadata, a new id and a new attempt round; appends the row staged |
| `Relay.RelayJournal.Expose` | tools/c15_persistence/relay.py:329-341 | accepted exactly in staged; returns the exact request |
| `Relay.RelayJournal.OutstandingRequest` | tools/c15_persistence/relay.py:343-360 | shows a request that left before; only an audit line is added |
| `Relay.RelayJournal.StageReply` | tools/c15_persistence/relay.py:362-379 | first reply stored, identical redelivery ignored, any other refused |
| `Relay.RelayJournal.MarkAuthenticated` | tools/c15_persistence/relay.py:381-402 | stores the Core receipt of a staged reply |
| `Relay.RelayJournal.BeginApplying` | tools/c15_persistence/relay.py:404-410 | accepted exactly in authenticated; returns the stored reply |
| `Relay.RelayJournal.MarkApplied` | tools/c15_persistence/relay.py:412-422 | accepted from reply-staged on; a repeat changes nothing |
| `Relay.RelayJournal.MarkAcked` | tools/c15_persistence/relay.py:424-440 | accepted exactly in applied; stores the ack receipt |
| `Relay.RelayJournal.Terminal` | tools/c15_persistence/relay.py:481-495 | walking the rows from the highest round down finds the last of the request listing of the cursor, None iff it is empty |
| `Relay.RunKeeps` | tools/c15_persistence/relay.py:229-440 | over every operation sequence the row invariant holds and no row, audit line or stored receipt is ever lost or moved back |
| `Relay.ReachableOk` | tools/c15_persistence/relay.py:260-440 | every reachable table: reply exactly from reply-staged on, Core receipt in authenticated and applying, ack receipt exactly in acked, exposures and dispatches 1 exactly from exposed on, last audit state equal to the row state |
| `Relay.ReceiptsWrittenOnce` | tools/c15_persistence/relay.py:391-438 | the equal-receipt branches are unreachable: an accepted authentication or ack always writes its receipt and moves the row |
| `Relay.ExposedOnce` | tools/c15_persistence/relay.py:329-341 | no request is exposed twice, whatever comes in between |
| `Relay.NeverRestaged` | tools/c15_persistence/relay.py:291-303 | a staged request can never be staged again, by its id or by its attempt and round |
| `Relay.ReplyRedelivery` | tools/c15_persistence/relay.py:362-379 | after a reply is stored, redelivery changes nothing and another reply is refused, ever after |
| `Relay.SortMirrors` | tools/c15_persistence/relay.py:487-504 | the descending listing is the ascending one reversed |
| `Relay.TerminalIsLast` | tools/c15_persistence/relay.py:481-504 | the terminal request is the last of the ascending listing, for every cursor |
| `Relay.RequestIdsExact` | tools/c15_persistence/relay.py:497-504 | the listing of a cursor holds exactly its requests, each once, in round order |
| `PrototypeJournal.Journal.TakeCheckpoint` | tools/c15_persistence/journal.py:166-185 | accepted exactly with the required names and only safe ones; the new checkpoint verifies to the given bytes |
| `PrototypeJournal.Journal.Stage` | tools/c15_persistence/journal.py:206-228 | accepted exactly with sound metadata, a verified checkpoint whose binding matches, a new id and nothing outstanding |
| `PrototypeJournal.Journal.Lookup` | tools/c15_persistence/journal.py:230-238 | a row is read only together with its verified checkpoint |
| `PrototypeJournal.Journal.Expose` | tools/c15_persistence/journal.py:244-252 | accepted exactly in staged; returns the exact request |
| `PrototypeJournal.Journal.StageReply` | tools/c15_persistence/journal.py:254-264 | first reply stored, identical redelivery ignored, any other refused |
| `PrototypeJournal.Journal.BeginApplication` | tools/c15_persistence/journal.py:266-272 | accepted exactly in reply-staged |
| `PrototypeJournal.Journal.RecordSyntheticApplication` | tools/c15_persistence/journal.py:274-281 | accepted exactly in applying with a receipt |
| `PrototypeJournal.LogShape` | tools/c15_persistence/journal.py:206-281 | the log of every run is full five-step chains of distinct requests, then a proper prefix of one chain |
| `PrototypeJournal.OneOutstanding` | tools/c15_persistence/journal.py:219-222 | at most one request is outstanding, ever |
| `PrototypeJournal.RedeliveryAddsNothing` | tools/c15_persistence/journal.py:254-264 | identical redelivery adds nothing, not even a log line |
| `PrototypeJournal.CheckpointRoundTrip` | tools/c15_persistence/journal.py:166-204 | a checkpoint is recovered byte for byte after any further run |
| `PrototypeJournal.TamperedBundleRefused` | tools/c15_persistence/journal.py:188-200 | with an injective digest, artifacts that still match a given manifest are the original ones |
| `GenerationNames.TextOrderIsNumberOrder` | tools/c15_persistence/backend.py:627-629 | text order of equally long digit names is number order, and equal numbers are equal names |
| `GenerationNames.Name` | tools/c15_persistence/backend.py:557-558 | names below one million have six digits and carry their number; later ones are not matched by the glob |
| `GenerationNames.LastIsLargest` | tools/c15_persistence/backend.py:627-629 | the last of the names 1..n in text order is n |
| `Generations.OnlyOriginalIsIntact` | tools/c15_persistence/backend.py:695-730 | with an injective digest and the manifest given, verify accepts the original files and nothing else |
| `Generations.HeadBindsLatest` | tools/c15_persistence/backend.py:777-799 | two accepted stores with the same head have the same length and the same latest generation |
| `Generations.AdvanceAllowed` | tools/c15_persistence/backend.py:596-612 | on an accepted history of n the next head is n + 1 and carries the hash of the head before it |
| `Generations.HalfBuiltRefused` | tools/c15_persistence/backend.py:777-799 | a directory without its head makes every admission fail |
| `Generations.NewGenerationAccepted` | tools/c15_persistence/backend.py:777-822 | with the head in place the new history is accepted exactly if the ledger agrees |
| `Generations.SealAllOrNothing` | tools/c15_persistence/backend.py:631-683 | a seal cut after any write is accepted as the old history, as the new one, or refused; with a journal the new one only after the ledger write |
| `Generations.FailedSealRefused` | tools/c15_persistence/backend.py:631-683 | a seal that fails by itself leaves a store that is refused |
| `Generations.SealedChain` | tools/c15_persistence/backend.py:596-683 | after i seals the history is exactly 1..i and each head links to the one before |
| `Generations.NextInChain` | tools/c15_persistence/backend.py:627-629 | after i seals the next number is i + 1 and no other |
| `Generations.MillionthGenerationRefused` | tools/c15_persistence/backend.py:557-558 | the millionth seal completes, is refused by admission, and its number is offered again |
| `Generations.SealAcceptedExactly` | tools/c15_persistence/backend.py:631-688 | a complete seal of the next number is accepted iff that number has at most six digits, and refused otherwise |
| `Generations.GenerationStore.NextGeneration` | tools/c15_persistence/backend.py:627-629 | one more than the last matching name in text order |
| `Generations.GenerationStore.Create` | tools/c15_persistence/backend.py:648-654 | exclusive creation: fails on a name in the way, otherwise adds exactly one file |
| `Generations.GenerationStore.MakeDirectory` | tools/c15_persistence/backend.py:642-675 | the directory and then the files in order, up to the first that cannot be created or the crash |
| `Generations.GenerationStore.ReplaceHead` | tools/c15_persistence/backend.py:613-625 | the temporary head, then the rename |
| `Generations.GenerationStore.Build` | tools/c15_persistence/backend.py:642-683 | after k of its writes the store is the k-th cut, whatever stopped it |
| `Generations.GenerationStore.Seal` | tools/c15_persistence/backend.py:631-688 | refusals write nothing; otherwise the store is the k-th cut and the seal reports success exactly at the end |
| `Generations.GenerationStore.SealAndRecord` | tools/c15_persistence/operator_session.py:763-766 | the same with the ledger row as the last write |
| `Generations.GenerationStore.Verify` | tools/c15_persistence/backend.py:777-822 | returns exactly the accepted length, or refuses |
| `RemoteRef.RunSound` | tools/c15_persistence/remote_backend.py:260-441 | over every interleaving: one parent chain, markers on it, no commit about to be pushed twice |
| `RemoteRef.NoLostUpdate` | tools/c15_persistence/remote_backend.py:277-330 | the values of the ref form one parent chain, each edited from the one it replaced; every marker is an ancestor of the head or the head |
| `RemoteRef.RefMovesToChild` | tools/c15_persistence/remote_backend.py:306-316 | the ref moves only by a push, to a child of the replaced value that was edited from it |
| `RemoteRef.StaleStays` | tools/c15_persistence/remote_backend.py:277-290 | a cache behind the ref stays behind, whatever the others do, until it is renewed |
| `RemoteRef.LandedPushLeavesStale` | tools/c15_persistence/remote_backend.py:306-330 | between a landed push and its marker the writer itself is stale |
| `RemoteRef.Remote.PushRunState` | tools/c15_persistence/remote_backend.py:260-341 | with any steps of others in between: success makes the tree a child of its marker and moves the marker; failure leaves the cache as it was |
| `RemoteRef.Remote.MaterializeRunState` | tools/c15_persistence/remote_backend.py:344-441 | success gives exactly the tree of the head read at the start, with a marker that names it; nothing is overwritten |
| `Admission.AdmissionMeansAgreement` | tools/c15_persistence/remote_backend.py:131-170 | if every committed tree was an accepted store, an admitted cache stands at the head with the same count and the same latest generation as that commit |
| `Admission.DisciplineAccepted` | tools/c15_persistence/operator_session.py:381-408 | writers that seal completely, or reopen a store before they commit it, only ever commit accepted stores |
| `Admission.DisciplineMeansAgreement` | tools/c15_persistence/remote_backend.py:131-170 | so under that discipline every admitted cache agrees with the head, in every interleaving |
| `Admission.SettledCacheAdmitted` | tools/c15_persistence/remote_backend.py:131-170 | a cache at the head is admitted exactly if it opens, has a generation and is bound to this remote |
| `Admission.UnpushedSealRefused` | tools/c15_persistence/operator_session.py:381-408 | a cache that sealed without pushing is refused |
| `Admission.LostMarkerRefused` | tools/c15_persistence/remote_backend.py:308-330 | a cache whose marker write was lost after its push is refused until it is renewed |
| `ProviderDispatch.ProviderService.Dispatch` | tools/c15_persistence/provider_process.py:392-455 | submits exactly when no ledger row exists and reattach is off; otherwise leaves everything as it is |
| `ProviderDispatch.ProviderService.Collect` | tools/c15_persistence/provider_process.py:457-509 | reports the stored reply of the target, which exists afterwards |
| `ProviderDispatch.RunOnce` | tools/c15_persistence/provider_process.py:404-441 | no ledger ever has two rows for a request |
| `ProviderDispatch.SubmittedAtMostOnce` | tools/c15_persistence/provider_process.py:392-455 | over any commands a request is submitted at most once if every dispatch of it reaches the own ledger of the provider |
| `ProviderDispatch.SubmittedAgain` | tools/c15_persistence/provider_process.py:392-455 | a request already submitted is submitted by a later dispatch iff that is a first dispatch of a findable request to another mailbox, not the home one, and the first submission left no row at home |
| `ProviderDispatch.NeverAgain` | tools/c15_persistence/provider_process.py:392-455 | over a whole continuation: no second submission iff the first reached the home ledger or no later dispatch finds the request in another mailbox |
| `ProviderDispatch.SubmittedAtMostOncePerTarget` | tools/c15_persistence/provider_process.py:404-430 | if all its dispatches name one mailbox that holds without the condition |
| `ProviderDispatch.TwoTargetsUnmirrored` | tools/c15_persistence/provider_process.py:431-445 | two mailboxes and an unwritable ledger of the provider: submitted twice |
| `ProviderDispatch.DuplicateDispatch` | tools/c15_persistence/provider_process.py:404-416 | a repeated or reattaching dispatch changes nothing |
| `ProviderDispatch.RepliesExact` | tools/c15_persistence/provider_process.py:468-480 | every stored reply answers the exact request and never changes |
| `ProviderDispatch.CollectWrites` | tools/c15_persistence/provider_process.py:457-498 | a proof is stored exactly if the dispatch context is registered; a reply even if nothing was dispatched |
| `ProviderPin.StepFreezes` | tools/c15_persistence/operator_session.py:484-498 | the provider boundary is never uncrossed, and once crossed the pins stay |
| `ProviderPin.PinFreezes` | tools/c15_persistence/operator_session.py:543-594 | after the first exposure the pins never change and every successful attach sees exactly the pinned provider |
| `ProviderPin.ExposureCrosses` | tools/c15_persistence/operator_session.py:484-489 | an accepted exposure crosses the boundary |
| `ProviderPin.RepinBeforeBoundary` | tools/c15_persistence/operator_session.py:558-566 | before any exposure a dead provider is replaced and pinned |
| `ProviderPin.CutRepin` | tools/c15_persistence/operator_session.py:565-566 | a repin cut between its two ledger writes is refused exactly if the fingerprints differ |
| `ProviderPin.PinnedSession.Attach` | tools/c15_persistence/operator_session.py:543-594 | the provider part of attach: when it succeeds, what it pins, and that the descriptor then matches the pins |
| `OperatorState.RelayStepSafe` | tools/c15_persistence/operator_session.py:928-987 | a journal transaction keeps the run safe; an exposure as long as the cursor is not applied |
| `OperatorState.StuckNotApplied` | tools/c15_persistence/operator_session.py:1244-1260 | a cursor with an unanswered exposed request is not applied |
| `OperatorState.AckTaken` | tools/c15_persistence/relay.py:424-439 | in a safe run the ack of a request is accepted iff its row is applied |
| `OperatorState.OrphansListed` | tools/c15_persistence/operator_session.py:1240-1279 | a request with a reply and no Core attempt is among those recovery walks through |
| `OperatorProgress.PrimedIsOrphaned` | tools/c15_persistence/operator_session.py:1404-1416 | with round 0 exchanged and Core not entered, that request has its reply and no attempt |
| `OperatorProgress.UnfinishedIsHalfApplied` | tools/c15_persistence/operator_session.py:1422-1423 | a turn recorded as applied with none of its rows finalised: its terminal request is the last round, and not applied |
| `OperatorLoop.OperatorSession.constructor` | tools/c15_persistence/operator_session.py:427-482 | a fresh run is safe, published and stands at cursor 1 |
| `OperatorLoop.OperatorSession.Write` | tools/c15_persistence/operator_session.py:235-248 | one durable write; a spent fuse means the crash before it |
| `OperatorLoop.OperatorSession.Seal` | tools/c15_persistence/operator_session.py:763-766 | only the seals change; undisturbed it ends sealed and recorded |
| `OperatorLoop.OperatorSession.Push` | tools/c15_persistence/remote_backend.py:260-341 | success means the remote head is the local state and the marker names it |
| `OperatorLoop.OperatorSession.PersistBarrier` | tools/c15_persistence/operator_session.py:370-409 | success means published; only seals and the barrier record change |
| `OperatorLoop.OperatorSession.MaybeKill` | tools/c15_persistence/operator_session.py:783-797 | the process dies exactly at the armed point and round |
| `OperatorLoop.OperatorSession.Pass` | tools/c15_persistence/operator_session.py:235-248 | the process dies at a place between two writes exactly if it is set to |
| `OperatorLoop.OperatorSession.RecordReveal` | tools/c15_persistence/operator_session.py:804-824 | the ledger rows of a first reveal; a repeat passes iff both rows are there and nothing changed; a crash between them leaves exactly the first |
| `OperatorLoop.OperatorSession.Reveal` | tools/c15_persistence/operator_session.py:801-829 | shows the pending event again or reveals the next; a torn reveal never passes again, and two writes produce one; a kill finds the state published |
| `OperatorLoop.OperatorSession.RecordIngest` | tools/c15_persistence/operator_session.py:840-874 | the ledger rows of a first ingest; a repeat passes iff both rows are there and the observation was reused; a crash between them leaves exactly the first |
| `OperatorLoop.OperatorSession.Ingest` | tools/c15_persistence/operator_session.py:832-879 | one observation per event, in order; a torn ingest never passes again, and two writes produce one; a kill finds the state published |
| `OperatorLoop.OperatorSession.Journal` | tools/c15_persistence/relay.py:188-203 | one relay transaction: all of it or nothing |
| `OperatorLoop.OperatorSession.WriteOutbox` | tools/c15_persistence/operator_session.py:998-1026 | an existing outbox file is left alone; otherwise the file, then the known request |
| `OperatorLoop.OperatorSession.Dispatch` | tools/c15_persistence/provider_process.py:392-455 | a first dispatch is sent only for a request never sent before; a reattaching one never appends a row |
| `OperatorLoop.OperatorSession.ProviderCollect` | tools/c15_persistence/provider_process.py:457-509 | afterwards the reply is there, and the proof if the context is known |
| `OperatorLoop.OperatorSession.StageAndExpose` | tools/c15_persistence/operator_session.py:938-955 | success only for a request that was in no journal and was never sent; it then waits under its cursor |
| `OperatorLoop.OperatorSession.Submit` | tools/c15_persistence/operator_session.py:956-970 | one first dispatch, its ledger row and its barrier; undisturbed it dies exactly if this round is armed |
| `OperatorLoop.OperatorSession.Represent` | tools/c15_persistence/operator_session.py:971-984 | a known request is shown again without any row or dispatch |
| `OperatorLoop.OperatorSession.Exchange` | tools/c15_persistence/operator_session.py:928-987 | success means the reply is staged; a known request is never dispatched; a new one dies exactly if its round is armed, and then waits |
| `OperatorLoop.OperatorSession.AttachReturn` | src/aios_core/runtime/background_attempt.py:2140-2445 | a receipt only for a dispatched attempt, which then counts as returned; an absent or merely admitted one is refused unchanged |
| `OperatorLoop.OperatorSession.Admit` | src/aios_core/runtime/background_attempt.py:1255-1374 | only a new or not yet dispatched attempt passes; a dispatched one goes in doubt, the others are refused unchanged |
| `OperatorLoop.OperatorSession.MarkDispatching` | src/aios_core/runtime/background_attempt.py:1376-1504 | an admitted attempt crosses the provider boundary and its context is written |
| `OperatorLoop.OperatorSession.RecordResponse` | src/aios_core/runtime/background_attempt.py:1707-1760 | a local completion needs a dispatched attempt without a receipt; otherwise it is refused unchanged |
| `OperatorLoop.OperatorSession.Authenticate` | tools/c15_persistence/operator_session.py:1127-1149 | with a proof: receipt in Core, authenticated row; nothing is opened |
| `OperatorLoop.OperatorSession.Recorder` | tools/c15_persistence/operator_session.py:1087-1156 | the trusted return of the round is durable before the kill point |
| `OperatorLoop.OperatorSession.Handler` | tools/c15_persistence/operator_session.py:1069-1085 | the exchange of its round; a stop never leaves the attempt dispatching; a new round dies exactly if it is armed |
| `OperatorLoop.OperatorSession.Capability` | tools/c15_persistence/operator_session.py:1043-1067 | one ledger row per key; a repeat changes nothing |
| `OperatorLoop.OperatorSession.RecoveredRound` | src/aios_core/runtime/turn_runtime.py:1668-1699 | a round with a durable return is applied without calling the handler |
| `OperatorLoop.OperatorSession.EnterTurn` | src/aios_core/runtime/background_attempt.py:2851-2925 | Core starts behind the return it holds if every earlier round is metered |
| `OperatorLoop.OperatorSession.CoreTurn` | src/aios_core/runtime/cognitive_runtime.py:346-470 | returns only if every handler call returned; ends with every round done once |
| `OperatorLoop.OperatorSession.RecoverOne` | tools/c15_persistence/operator_session.py:1240-1351 | what recovery does with one request: it never opens or closes one, adds no attempt, and stops at a reply without an attempt |
| `OperatorLoop.OperatorSession.RecoverWithCore` | tools/c15_persistence/operator_session.py:1227-1353 | an exposed request or one without attempt stops recovery and stays so; nothing is asked of the provider |
| `OperatorLoop.OperatorSession.Finalise` | tools/c15_persistence/operator_session.py:1355-1389 | undisturbed, exactly the rows of the cursor end applied |
| `OperatorLoop.OperatorSession.Prime` | tools/c15_persistence/operator_session.py:1442-1449 | round 0 is durable before Core starts; it dies exactly if round 0 is to be dispatched and armed |
| `OperatorLoop.OperatorSession.Work` | tools/c15_persistence/operator_session.py:1399-1421 | recovery, primed round and Core; a stuck cursor or an orphaned request gets no further than recovery; an armed round still to be dispatched kills, exactly |
| `OperatorLoop.OperatorSession.Apply` | tools/c15_persistence/operator_session.py:1422-1424 | recorded as applied only when no request of the cursor is open; a crash right after leaves exactly that and none of its rows finalised |
| `OperatorLoop.OperatorSession.RunTurn` | tools/c15_persistence/operator_session.py:1391-1440 | success means the cursor is applied; an applied turn is skipped unchanged; exactly when a dispatch kill takes it |
| `OperatorLoop.OperatorSession.RecordAck` | tools/c15_persistence/operator_session.py:1453-1471 | the cursor advances by one, and then the ack succeeds iff the terminal request is applied |
| `OperatorLoop.OperatorSession.Ack` | tools/c15_persistence/operator_session.py:1453-1474 | requires the applied cursor; success publishes; over a half-applied turn the cursor advances and the ack fails |
| `OperatorLoop.OperatorSession.ProcessOneCursor` | tools/c15_persistence/operator_session.py:1478-1501 | any crash keeps the run safe; a stuck or broken run stays so; an undisturbed process completes the cursor, dies published at a kill point, or dies behind a dispatch exactly if an armed round is still to be dispatched |
| `OperatorLoop.OperatorSession.Prepare` | tools/c15_persistence/operator_session.py:1494-1495 | reveal and ingest: what was torn stays torn and stops; undisturbed the event is revealed and ingested |
| `OperatorLoop.OperatorSession.Conclude` | tools/c15_persistence/operator_session.py:1496-1497 | turn and ack: an orphaned or open request stops it; undisturbed the cursor advances to a fresh one |
| `OperatorLoop.OperatorSession.RecordTurn` | tools/c15_persistence/operator_session.py:1422-1433 | a finished turn ends applied with its rows, sealed and published, or half applied if it crashes in between |
| `OperatorLoop.OperatorSession.CrashIsFinal` | tools/c15_persistence/operator_session.py:1478-1501 | a crash between two ledger rows of a reveal or an ingest, or between round 0 and Core: the run attaches again and no process ever takes the cursor further |
| `OperatorLoop.OperatorSession.AckHalfApplied` | tools/c15_persistence/operator_session.py:1453-1474 | over a half-applied turn a process attaches, advances the cursor and is refused the ack of the terminal request |
| `OperatorLoop.OperatorSession.CrashBeforeFinalising` | tools/c15_persistence/operator_session.py:1422-1424 | a crash between the applied record and the rows: the cursor is acked by the next process and the terminal request is never acked |
| `OperatorLoop.OperatorSession.Attach` | tools/c15_persistence/backend.py:777-822 | accepted exactly with whole, recorded seals and, remotely, the marker at a head with the same seal |
| `OperatorLoop.OperatorSession.WipeAndMaterialize` | tools/c15_persistence/operator_session.py:603-636 | at a published point wiping and materializing changes nothing |
| `OperatorLoop.OperatorSession.RunProcesses` | tools/c15_persistence/operator_session.py:1478-1501 | any processes crashing anywhere: every request sent and recorded at most once, every earlier cursor applied, stuck and broken runs stay so for good, and a request left behind unacked is never acked |
| `OperatorLoop.OperatorSession.DispatchKillIsFinal` | tools/c15_persistence/operator_session.py:1244-1260 | a kill behind a dispatch takes effect exactly if an armed round is still to be dispatched; after it the cursor is never acked |
| `OperatorLoop.OperatorSession.RunToEnd` | tools/c15_persistence/operator_session.py:1478-1501 | any kills, with or without wiping: the run reaches the end state of its cursor unless a dispatch kill meets a round still to be dispatched, and then it is stuck |
| `OperatorProgress.NewRequest` | tools/c15_persistence/operator_session.py:938-955 | the next round of a turn is unknown everywhere and the journal takes it |
| `OperatorProgress.SentAt` | tools/c15_persistence/operator_session.py:953-987 | a complete exchange adds exactly one round |
| `OperatorProgress.TakenAt` | tools/c15_persistence/operator_session.py:1127-1149 | taking the return of the last round gives it receipt, attempt and authenticated row |
| `OperatorProgress.ApplyingTurn` | tools/c15_persistence/operator_session.py:1271-1351 | recovery meets only rows with receipts that are applying or can start to |
| `OperatorProgress.FinishStep` | tools/c15_persistence/operator_session.py:1359-1380 | finalising one row of an applied turn is accepted and finalises exactly that row |
| `OperatorProgress.FinishEnd` | tools/c15_persistence/operator_session.py:1355-1389 | when all rows of the turn are handled the state is that of an applied turn |
| `OperatorProgress.TerminalOfTurn` | tools/c15_persistence/relay.py:481-495 | the terminal request of a turn is its last round |
| `OperatorProgress.AckedAt` | tools/c15_persistence/operator_session.py:1458-1471 | acking an applied turn gives the fresh state of the next cursor |
| `OperatorProgress.StandsInTurn` | tools/c15_persistence/operator_session.py:1494-1501 | a process that resumes finds a place from which Core can go on |
| `OperatorProgress.SameEnd` | tools/c15_persistence/operator_session.py:1478-1501 | two runs at the same cursor have revealed, ingested, dispatched, called, applied and acked the same |
| `OperatorProgress.AtEnd` | tools/c15_persistence/operator_session.py:1478-1501 | the end state: each event once, one dispatch per round, one capability call per round but the last, terminal requests acked and the others applied |
| `WorldGraph.EntityRelationService.FindEntityByKey` | src/aios_core/world_graph.py:295-300 | finds a current entity of the subject with the key exactly if there is one |
| `WorldGraph.EntityRelationService.ValidateEvidence` | src/aios_core/world_graph.py:180-183 | accepts exactly evidence that is pinned, stored and of the subject |
| `WorldGraph.EntityRelationService.BuildDependencies` | src/aios_core/world_graph.py:228-277 | the object on its evidence set, the evidence set on each source |
| `WorldGraph.EntityRelationService.ProposeEntity` | src/aios_core/world_graph.py:302-403 | replay, existing key, evidence, commit: the resulting store and receipt |
| `WorldGraph.EntityRelationService.ReviseEntity` | src/aios_core/world_graph.py:405-535 | replay, currency, evidence, names, commit: the resulting store and receipt |
| `WorldGraph.EntityRelationService.UpsertRelation` | src/aios_core/world_graph.py:537-680 | endpoints, evidence, identity, replay, commit: the resulting store and receipt |
| `WorldGraph.KeyIsCurrent` | src/aios_core/world_graph.py:279-300 | a key used by any stored revision is found among the current entities |
| `WorldGraph.ProposalFits` | src/aios_core/world_graph.py:317-389 | a proposal writes one new named entity with a new key and dependencies on what is stored |
| `WorldGraph.RevisionFits` | src/aios_core/world_graph.py:445-520 | a revision writes one entity of unchanged key and subject, still named, and such dependencies |
| `WorldGraph.UpsertFits` | src/aios_core/world_graph.py:615-680 | an upsert writes one relation and such dependencies, endpoints included |
| `WorldGraph.CommitSound` | src/aios_core/world_graph.py:389-400 | a fitting commit keeps every invariant |
| `WorldGraph.EveryRun` | src/aios_core/world_graph.py:302-680 | every run: revisions 1..k without gaps, one entity per key and subject, every entity revision named, provenance between stored revisions |
| `WorldGraph.ProvenanceIsAcyclic` | src/aios_core/world_graph.py:228-277 | no chain of dependencies returns to its start, and both ends are stored |
| `WorldGraph.RepeatStoresNothing` | src/aios_core/world_graph.py:330-343 | repeating an accepted request exactly, after anything else, stores nothing |
| `WorldGraph.RepeatedUpsertReceipt` | src/aios_core/world_graph.py:576-613 | an exact repeat of an upsert is accepted iff still allowed, and its receipt is the first one iff the relation still has that revision |
| `Generations.GenerationStore.Fill` | tools/c15_persistence/backend.py:645-675 | the files in order, up to the first that cannot be created or the crash |
| `Generations.GenerationStore.Advance` | tools/c15_persistence/backend.py:596-625 | refused exactly when the head cannot advance or a temporary is in the way; otherwise the next cuts |
| `Generations.GenerationStore.VerifyEach` | tools/c15_persistence/backend.py:814-822 | true exactly when every generation up to n verifies |
| `RemoteRef.Remote.Settle` | tools/c15_persistence/remote_backend.py:318-331 | the marker is written exactly when the ref still shows the pushed commit |
| `RemoteRef.Remote.Admit` | tools/c15_persistence/remote_backend.py:420-429 | the marker is written exactly when the extracted run is admitted |
| `OperatorLoop.OperatorSession.Survive` | tools/c15_persistence/operator_session.py:791-797 | the fuse of the process: dead exactly when no write is left, otherwise one less |
| `OperatorLoop.OperatorSession.FirstExchange` | tools/c15_persistence/operator_session.py:941-970 | a new exchange changes one row and, undisturbed, leaves exactly one more dispatch with its reply staged, or dies exactly if its round is armed |
| `OperatorLoop.OperatorSession.RepeatExchange` | tools/c15_persistence/operator_session.py:971-987 | a known request adds no command and no provider row |
| `OperatorLoop.OperatorSession.StoreReply` | tools/c15_persistence/operator_session.py:985-987 | success means the collected reply is staged |
| `OperatorLoop.OperatorSession.CollectReply` | tools/c15_persistence/operator_session.py:1028-1039 | an existing reply is read, otherwise collected; nothing else changes |
| `OperatorLoop.OperatorSession.FindProof` | tools/c15_persistence/operator_session.py:1118-1127 | tells whether a proof is there after asking a live provider once |
| `OperatorLoop.OperatorSession.ReplyReadable` | tools/c15_persistence/operator_session.py:1128-1137 | a stored reply is read without asking the provider |
| `OperatorLoop.OperatorSession.TakeReturn` | tools/c15_persistence/operator_session.py:1114-1151 | undisturbed, the round ends with receipt, returned attempt and authenticated row |
| `OperatorLoop.OperatorSession.Meter` | src/aios_core/runtime/metering.py:348-356 | only a returned response is metered, anything else is refused unchanged; a repeat changes nothing |
| `OperatorLoop.OperatorSession.Receive` | src/aios_core/runtime/background_attempt.py:2912-2924 | a recovered attempt that was dispatched becomes returned; any other is left alone |
| `OperatorLoop.OperatorSession.FreshRound` | src/aios_core/runtime/cognitive_runtime.py:369-407 | a round without a trusted return, up to its durable return |
| `OperatorLoop.OperatorSession.ApplyRound` | src/aios_core/runtime/cognitive_runtime.py:413-530 | metering, then the capability call of every round but the last |
| `OperatorLoop.OperatorSession.Round` | src/aios_core/runtime/cognitive_runtime.py:345-530 | one round from ready to done, or a kill from which a later process can go on |
| `OperatorLoop.OperatorSession.Rounds` | src/aios_core/runtime/cognitive_runtime.py:345-530 | the remaining rounds in order |
| `OperatorLoop.OperatorSession.FailClosed` | tools/c15_persistence/operator_session.py:1204-1225 | the stop stands whether or not its evidence is published |
| `OperatorLoop.OperatorSession.AuthenticateStaged` | tools/c15_persistence/operator_session.py:1332-1338 | only a staged reply is authenticated; nothing is opened or closed |
| `OperatorLoop.OperatorSession.StartApplying` | tools/c15_persistence/operator_session.py:1348-1350 | only an authenticated row starts applying; nothing is opened or closed |
| `OperatorLoop.OperatorSession.RecoverEach` | tools/c15_persistence/operator_session.py:1239-1351 | exactly the same requests are open and orphaned afterwards, and success means none of the listed ones is |
| `OperatorLoop.OperatorSession.FinaliseOne` | tools/c15_persistence/operator_session.py:1359-1387 | one request of the applied cursor; the set of requests stays |
| `OperatorLoop.OperatorSession.CloseTurn` | tools/c15_persistence/operator_session.py:1431-1433 | seal and barrier change only the seals; a kill finds the state published |
| `OperatorLoop.OperatorSession.ReleaseAck` | tools/c15_persistence/operator_session.py:1458-1468 | the cursor advances before its receipt is kept |
| `WorldGraph.EntityRelationService.ValidateClaims` | src/aios_core/world_graph.py:350-351 | accepts exactly stored claims of the subject |
| `WorldGraph.EntityRelationService.ApplyRevision` | src/aios_core/world_graph.py:450-535 | the part of a revision that is not a replay |
| `WorldGraph.EntityRelationService.BuildUpsert` | src/aios_core/world_graph.py:615-677 | the relation, its evidence and its dependencies, endpoints last |
| `WorldGraph.AcceptedIsRecorded` | src/aios_core/world_graph.py:317-400 | an accepted request is recorded under its own identity |

## Left out

- File modes, fsync, mount checks, file locks, process liveness and command polling: every transaction, rename and server-side ref update is one atomic step, and one process at a time owns a directory.
- Rewrite detection for older generations: the link to the previous head is written but never read by admission, so only the latest manifest is bound (`HeadBindsLatest`).
- Stored digests of relay rows and of the checkpoint manifest itself, and the checks that compare them: the relay model has no tampering.
- Primality.IsProbablePrime: the random bases are an arbitrary stream, so nothing is stated about the probability that a composite above 613 * 613 passes.
- Rsa.GenerateKeypair: the source draws until it succeeds; the model draws from a finite stream and may run out, and that the two numbers are prime is what the test promises, not more.
- Generations.GenerationStore.Seal: intermediate directories of artifact paths are not files and are not tracked; a file is created whole.
- RemoteRef.Remote.PushRunState: two commits never share an id, although git would give equal trees, parents and times the same one.
- Admission.AdmissionMeansAgreement: a tree that is committed in the middle of a seal is outside the statement; `DisciplineMeansAgreement` shows that writers which seal completely or reopen first never commit one.
- ProviderDispatch.ProviderService.Dispatch: a command that still executes after its sender died, and the second command directory through which the same command may be executed again, are further commands of the run.
- OperatorLoop.OperatorSession.Dispatch: a dead provider answers nothing; the automatic start of a new one on the next command is not modelled, since the pins refuse it later.
- OperatorLoop.OperatorSession.Ingest: the world revision that a repeat must reproduce is part of the adapter's contract, not a number of the model.
- OperatorLoop.OperatorSession.Exchange: the bytes of a request depend on its round alone; the payload read from `current-event.json`, which a crash inside reveal can leave behind, is not tracked.
- OperatorLoop.OperatorSession.CoreTurn: a turn has a fixed number of rounds; every round but the last makes one capability call; budgets and repeated-call limits of Core are not modelled.
- OperatorLoop.OperatorSession.Attach: the sealed history is a pair of counters here; the files and head bytes that admission checks are those of `Generations` and `Admission`.
- OperatorLoop.OperatorSession.WipeAndMaterialize: paths that a commit leaves out (locks, temporaries, snapshots, database side files, the provider pid, the command directory) are not on the modelled disk.
- OperatorLoop.OperatorSession.RunProcesses: the local state is kept; a wipe between a dispatch and its barrier can lose the record of that dispatch.
- OperatorLoop.OperatorSession.RunToEnd: provider and remote answer throughout, and a run that a dispatch kill made stuck is left there.
- Counters, failure evidence, audit trails, the mailbox archive, current-request mirrors and the ledger rows that nothing reads back.
- White space in the world graph is the ASCII kind; times and confidences are opaque text.
- The search index, the late-return verifier, `runstate.py`, the agent gateway, benchmarks and probe scripts.
