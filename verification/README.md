# Verification of the channel settlement services

This project models the parts of the system that must not lose, repeat or reorder anything: the publisher
that signs and sends close-funding transactions, the durable block-producer journal, the producer's replay
fence, the private bounds on encrypted balances, the payout store, and four compact components around them.
`dafny verify dfyconfig.toml` checks everything.

Hashes, signatures, zero-knowledge circuits and the block witness generator are deterministic functions held
in environment values (`Crypto`, `Env`, `Engine`, `Digests`), and nothing is assumed about them. Where a result
rests on a hash, it names the two preimages it hashes and concludes that the claim holds or that those two are a
collision (`StatesCollide`, `WordsCollide`, `TransfersCollide`); no hash is ever required to be free of collisions. Completeness
results say which checks of the environment must succeed (`OpensItsLeaf` in `CanonicalProposalAccepted`). The
clock, the file system and other processes are nondeterministic: a durable write either succeeds or fails
leaving the old or the new file, and a restart may follow anything.

The publisher relies on three facts of the chain, which are steps of its environment and not checks of the
program: account nonces only grow (`AccountSpends`), a transaction with a finalized receipt has spent its nonce
(`Mine`), and a wallet signs at a nonce the account has not spent at that moment (`SignTransaction`). Other
publishers, other signers and the chain may act between signing and the journal write, and during every wait
(`Interfere`).

| component | files |
|---|---|
| crash-safe L1 publisher and signer reservation | `PublicationPlan`, `SignerLane`, `SignerLaneSafety`, `PublicationProgress`, `CloseFundingPublisher`, `L1Finality` |
| receipt scanners of the publisher | `ReceiptScan` |
| close-funding plan and gate | `CloseFunding` |
| block producer, its admission rules and run laws | `BlockProducer`, `ProducerHistory`, `ProducerAdmission`, `DelegateJoin`, `UnalignedSend` |
| durable producer journal and service | `ProducerJournal`, `ProducerJournalSafety`, `JournalChain`, `ProducerRequests`, `ProducerService`, `ProducerServiceLaws` |
| hidden-balance bounds | `ChannelCreditSafety`, `CreditSoundness`, `CreditAdmission` |
| payout store and its file frame | `PayoutStore`, `PayoutStoreSafety`, `PayoutEvidence`, `UnhashedPullIntent`, `SnapshotFrame` |
| proof blobs | `ProofDa` |
| channel locks | `ChannelLocks` |
| shared types | `Wrappers`, `MachineWords`, `ByteOrder`, `ChannelTypes` |

Each protocol is a pure machine (`Enabled`/`Apply`/`Exec`, or `Decide`/`Settle`/`Step`) and run lemmas hold for
every sequence of events. The imperative code is modelled by classes whose methods are proved against that
machine, so every property of a run is a property of the program. What each machine step must be is stated a second
time, from the fields of requests, receipts, journals and runs alone: which calls are accepted, what they record
and what a durable record proves (`PayoutEvidence`, `ProducerAdmission`, `JournalChain`, `ProducerRequests`,
`PublicationPlan`, and the lemmas ending in `Exactly` and `Iff`), in both directions.

Three places where the code does something its surroundings do not suggest:

- The publisher prepares bindings with schema 3 and the "v3" digest domain but validates only schema 2 and
  "v2". `PreparedBindingAcceptedIff` gives the exact condition for acceptance and `PublishAsBuilt` shows that,
  with the two versions as they stand, every publication is refused and nothing changes. The protocol itself
  is proved for any accepted version.
- An inter-channel send charges the base nonce of the descriptor's source channel and advances the head of the
  signed state's channel; the producer's own checks do not compare the two. `SendsBalanceBlocks` gives the exact
  balance of charges and blocks on every run, `SendsAreBlocks` the condition under which they agree,
  `UnalignedSendAccepted` an accepted run where they do not, and `CloseFundingIsAligned` shows close funding is
  not concerned.
- A pull intent with a zero calldata hash passes the payout store's update but not its reload check.
  `AcceptedUpdateVerifies` shows it is the only such update, and `UnhashedPullReached` reaches one.

## Model

| member | source | states |
|---|---|---|
| `SignerLaneSafety.RunsAreSafe` | src/close_funding_publisher.rs:4888-5062 | Over any interleaving of any journals and signers, any crash point and any third-party completion, the protocol invariant is kept: sound journals, outstanding implies reserved, settled implies spent, distinct nonces, sent implies journaled. |
| `SignerLaneSafety.SingleOutstandingNonce` | src/close_funding_publisher.rs:2273-2288 | Per signer at most one journaled raw transaction is neither confirmed nor superseded, and while one exists the reservation record is, field by field, that of its journal, action and binding. |
| `SignerLaneSafety.NoNonceIsReused` | src/close_funding_publisher.rs:4958-5046 | No signer ever journals two transactions with the same nonce. |
| `SignerLaneSafety.SettlementIsExclusive` | src/close_funding_publisher.rs:2118-2159 | Every reachable journal passes the reload check; whatever is finalized is settled by exactly one of its own confirmation or an adopted one, under a receipt at or below a durable head of its chain; no pull is started before its lane is settled so. |
| `SignerLaneSafety.PublicationCoversEveryLane` | src/close_funding_publisher.rs:5072-5124 | In every reachable world a stored publication is true of the whole plan: every lane is materialized and every token of it pulled, each by a transaction with a final receipt that the publication lists, under the journal's own digest and chain. |
| `SignerLaneSafety.RunsOnlyExtend` | src/close_funding_publisher.rs:4403-4427 | Along any run an action's raw bytes, nonce and hash are fixed, stored receipts, evidence and the publication stay the same under the same or a higher head of the same chain and source, and a settled transaction is never sent again. |
| `SignerLaneSafety.BroadcastsAreJournaled` | src/close_funding_publisher.rs:3760-3813 | Whatever was or may be broadcast is, byte for byte, already in the durable journal, and the broadcaster's is the lane's only outstanding transaction. |
| `PublicationProgress.NeverStuck` | src/close_funding_publisher.rs:4847-5124 | From every reachable world, whatever crashes and races led to it, a journal whose lane is free or its own can be run to a stored publication with its lane free. |
| `PublicationPlan.ActionTextInjective` | src/close_funding_publisher.rs:1984-2001 | Two actions share a journal key exactly when they are the same action slot. |
| `PublicationPlan.PlanMaterializesFirst` | src/close_funding_publisher.rs:2177-2220 | In the planned order every pull comes after the materialization of its token's lane. |
| `PublicationPlan.PlanIsExactlyItsLanes` | src/close_funding_publisher.rs:2177-2220 | Counted from the lanes alone, a plan has one materialization per lane of its kind and one pull of a token per occurrence in the lanes' token lists, and nothing else. |
| `PublicationPlan.EveryLaneIsPlanned` | src/close_funding_publisher.rs:2177-2220 | Every lane of the plan is materialized by it and every token of the lane is pulled. |
| `PublicationPlan.PlannedFromLane` | src/close_funding_publisher.rs:2177-2220 | Every planned action is the work of some lane of the plan. |
| `PublicationPlan.PlannedIdsAreLaneIds` | src/close_funding_publisher.rs:4671-4688 | The journal keys a journal may hold are exactly the keys of the lanes' work. |
| `PublicationPlan.PlanOrder` | src/close_funding_publisher.rs:2177-2220 | Native lanes come before ERC20 lanes, a lane starts with its materialization, and its pulls are in token order. |
| `L1Finality.AdvanceIsAnOrder` | src/close_funding_publisher.rs:2465-2483 | Advancing between durable checkpoints is transitive and antisymmetric. |
| `L1Finality.AdvancesExactly` | src/close_funding_publisher.rs:2465-2483 | One head may replace another exactly when both are valid and it is the same head or a higher one of the same chain and source. |
| `L1Finality.CoverageSurvivesAdvance` | src/l1_finality.rs:34-67 | A receipt covered by a checkpoint is covered by every later one. |
| `CloseFundingPublisher.PublisherHost.Claim` | src/l1_signer_reservation.rs:261-276 | Claims a free lane or recognizes the exact record; any other record refuses; a claim that fails may still have written. |
| `CloseFundingPublisher.PublisherHost.Release` | src/l1_signer_reservation.rs:278-298 | Removes exactly this record, whatever the journal says, and stays inside the protocol when its transaction is settled. |
| `CloseFundingPublisher.PublisherHost.ReleaseIfExact` | src/l1_signer_reservation.rs:312-327 | Recovery form: leaves an absent or foreign record alone, otherwise as Release. |
| `CloseFundingPublisher.PublisherHost.LoadOrCreateJournal` | src/close_funding_publisher.rs:4640-4712 | An existing journal is returned if and only if it has exactly this binding, signer and lock root, its keys are those of the lanes' work under their own actions, and each is settled at most one way; otherwise a new one starts empty; an unacceptable binding changes nothing. |
| `CloseFundingPublisher.PublisherHost.SignNewStep` | src/close_funding_publisher.rs:2273-2288 | Reserves before signing and journals before any broadcast, with anyone else acting in between: on success the new transaction is outstanding and its reservation held. |
| `CloseFundingPublisher.PublisherHost.PublishExactRaw` | src/close_funding_publisher.rs:3760-3813 | Sends only the journaled bytes, only at the account's own nonce, and stays inside the protocol when the transaction is unsettled and reserved. |
| `CloseFundingPublisher.PublisherHost.EnsureSupersededSettled` | src/close_funding_publisher.rs:3815-3933 | Yields a losing transaction's receipt only when finalized, its own and the stored one under a later head; without a receipt it may only replay the journaled bytes. |
| `CloseFundingPublisher.PublisherHost.WaitForFinalizedReceipt` | src/close_funding_publisher.rs:3935-4006 | A returned receipt is canonical, covered by an advancing checkpoint, and for this transaction. |
| `CloseFundingPublisher.PublisherHost.AdoptCompletion` | src/close_funding_publisher.rs:4967-5014 | Our own completed transaction becomes a confirmation, anyone else's an adoption with the local loser settled first; the action ends finalized and nothing finalized is lost. |
| `CloseFundingPublisher.PublisherHost.RevalidateAdoptedAction` | src/close_funding_publisher.rs:4902-4957 | Replaces stored evidence only by the same receipt under a later checkpoint and settles an unsettled loser. |
| `CloseFundingPublisher.PublisherHost.PublishCloseFunding` | src/close_funding_publisher.rs:4847-5102 | Every path is a run of the protocol; a publication is returned only with every lane of the plan materialized and every lane token pulled by final receipts, itself stored, under the binding's digest and chain, listing the settling transactions in plan order, with none of the lanes' work left reserved. |
| `CloseFundingPublisher.PreparedBindingAcceptedIff` | src/close_funding_publisher.rs:1928-1969 | A prepared binding validates exactly when both sides use one schema and digest domain. |
| `CloseFundingPublisher.PublishAsBuilt` | src/close_funding_publisher.rs:4624-4638 | With the versions as they stand every publication is refused and nothing changes. |
| `ReceiptScan.ValidateMaterializationEvent` | src/close_funding_publisher.rs:4066-4107 | Accepts exactly the receipts with one exact completion marker and no malformed one, and returns its position. |
| `ReceiptScan.ExactMarker` | src/close_funding_publisher.rs:4074-4099 | A log is an exact marker if and only if it is the materializer's live event with exactly these topics and one data word. |
| `ReceiptScan.MalformedMarker` | src/close_funding_publisher.rs:4074-4099 | A log stops the scan exactly when it claims the materializer's event and is misshapen or unreadable before a field shows it to be another's; every other inexact log is passed over. |
| `ReceiptScan.ValidatePayoutEvents` | src/close_funding_publisher.rs:4109-4180 | Accepts exactly the receipts that pay each planned token once, with its amount and anchor, before the marker; then the credited total equals the planned total. |
| `ReceiptScan.ExactPayout` | src/close_funding_publisher.rs:4122-4163 | A log pays a planned token if and only if it is the rollup's live event to the manager with some nullifier and exactly the amount and anchor. |
| `ReceiptScan.StoppingPayout` | src/close_funding_publisher.rs:4122-4163 | Exactly which logs stop the payout scan as unreadable or wrong, and which are passed over. |
| `ReceiptScan.EachTokenPaidOnce` | src/close_funding_publisher.rs:4066-4180 | In an accepted receipt each planned token has exactly one payout log, carrying the planned amount and anchor block, before the marker. |
| `CloseFunding.AuxWordsLayout` | src/close_funding.rs:85-106 | The authorization preimage is thirty words: its domain, then each field spelled big-endian at its own place. |
| `CloseFunding.PlanWordsLayout` | src/close_funding.rs:320-345 | The plan preimage is thirty-nine words under another domain, each field spelled big-endian at its own place. |
| `CloseFunding.ProposalBuiltIff` | src/close_funding.rs:108-230 | A proposal is built exactly for a settled head with nonzero active funds and room on every counter; counter exhaustion is told apart from an invalid head. |
| `CloseFunding.TransfersFollowSlots` | src/close_funding.rs:177-195 | The transfers are, one by one and in slot order, the active slots with funds: token, whole amount, one recipient, one authorization. |
| `CloseFunding.CollectTransfers` | src/close_funding.rs:165-195 | The loop pushes one transfer per nonzero active fund entry, in registry order. |
| `CloseFunding.GateAcceptsExactlyCanonical` | src/close_funding.rs:265-317 | The gate accepts if and only if the plan is the rebuilt canonical one in every field but a valid opening, and the signed digest is the canonical child's. |
| `CloseFunding.AcceptedPlanIsCanonical` | src/close_funding.rs:265-317 | Per base token an accepted plan moves exactly the channel's funds, all nonzero, all to the manager, under one authorization. |
| `CloseFunding.AcceptedPlanBindsItself` | src/close_funding.rs:156-226 | An accepted plan is of the head's channel and next close era; funds digest, authorization, transaction, root and plan digest are those of its own fields. |
| `CloseFunding.EqualDigestEqualPlan` | src/close_funding.rs:320-345 | Two accepted plans with one authorization, or one digest, authorize the same thing, and neither kind of hash passes for the other, unless their own preimages collide. |
| `CloseFunding.CanonicalProposalAccepted` | src/close_funding.rs:108-302 | The built proposal passes its own gate whenever its tree opens its own leaf. |
| `CloseFunding.AcceptedChildExtendsHead` | src/close_funding.rs:236-261 | Any state the gate accepts is the canonical child of the head (one step on every counter, the authorization pushed on the settled chain, the plan's root, everything else unchanged), or it and the rebuilt child are a digest collision. |
| `DelegateJoin.VerifyDelegatesAppended` | src/block_producer.rs:220-256 | The slot loop accepts exactly the records that append nonzero, unique identities at the boundary and change nothing else compared. |
| `DelegateJoin.AppendIsConcatenation` | src/block_producer.rs:220-256 | A join is accepted exactly when the new record is the old one with nonzero, new, distinct identities written into the vacant slots after the active ones, and channel, members, set version, status and producer slot unchanged. |
| `DelegateJoin.AppendIsTransitive` | src/block_producer.rs:220-256 | Two joins in a row are one join. |
| `DelegateJoin.AppendIffChain` | src/block_producer.rs:220-256 | A join of k delegates holds exactly when a chain of k single joins connects the records. |
| `DelegateJoin.AppendKeepsIdentities` | src/block_producer.rs:220-256 | Joins keep active identities nonzero and pairwise distinct and move no existing slot. |
| `BlockProducer.ProductionBlockProducer.VerifyAllSignatures` | src/wallet_core.rs:1246-1272 | True exactly when every co-signer slot carries a valid signature of its registered key over the state's own digest. |
| `BlockProducer.ProductionBlockProducer.RegisterSnapshot` | src/block_producer.rs:300-353 | Registers record and first head together, or changes nothing. |
| `BlockProducer.ProductionBlockProducer.ProduceDepositBlock` | src/block_producer.rs:358-428 | Seals the next deposit, or changes nothing. |
| `BlockProducer.ProductionBlockProducer.ProduceInterChannelBlock` | src/block_producer.rs:433-495 | Binds the signed or proposed state to the small block before the block fence, as specified (see SendAcceptedIff). |
| `BlockProducer.ProductionBlockProducer.ProduceDescriptorBlock` | src/block_producer.rs:686-812 | A send commits block, nonce and transaction hash together, or nothing. |
| `BlockProducer.ProductionBlockProducer.ProduceCloseFundingBlock` | src/block_producer.rs:817-888 | A close funding commits block, nonce and the terminal flag together, or nothing. |
| `BlockProducer.ProductionBlockProducer.SyncOffchainHeads` | src/block_producer.rs:899-993 | The loop moves the head to the last state exactly when every state extends the one before it, signed, rootless and contiguous. |
| `BlockProducer.ProductionBlockProducer.ProduceCosignedBlock` | src/block_producer.rs:1016-1164 | Admits exactly the states that pass authorization, root binding, time and the head fence. |
| `BlockProducer.ProductionBlockProducer.AdoptDelegateJoin` | src/block_producer.rs:1206-1239 | Replaces the record only by an appended one authorized at the committed head. |
| `BlockProducer.ProductionBlockProducer.ApplyAction` | src/block_producer_service.rs:1782-1846 | One journal action has exactly the specified effect or none. |
| `ProducerAdmission.SignedExactly` | src/wallet_core.rs:1246-1272 | A state counts as signed exactly when the first signature of every co-signer slot is the registered key's over the state's own signed content. |
| `ProducerAdmission.SendAcceptedIff` | src/block_producer.rs:686-812 | After any run a send is accepted if and only if: its state steps on the channel's last accepted one, signed (or authentic, when staged); the small block's message commits that state; the descriptor is the debit's canonical transfer; neither channel was closed, the transaction was never sent, and its nonce is the number of sends so far. |
| `ProducerAdmission.SentStatesAreBound` | src/wallet_core.rs:2570-2626 | For every send of every run, the state it appends to the history and its message agree on number, close era, transaction root and H1; the message is of the charged channel and the root is the descriptor's, unless two transfers collide. |
| `ProducerAdmission.RegistrationAcceptedIff` | src/block_producer.rs:300-353 | A snapshot is registered exactly when its channel has no history, its ids and counts agree, it is anchored and signed, and the block takes it. |
| `ProducerAdmission.DepositAcceptedIff` | src/block_producer.rs:358-428 | Exactly when a deposit is sealed: recipient, index, time, sealed leaf, hash chain, no key. |
| `ProducerAdmission.DepositsExtendTheChain` | src/block_producer.rs:358-428 | Over every run each sealed deposit takes the next index of the blocks before it, later than their last time, and leaves exactly the expected hash chain. |
| `ProducerAdmission.SyncAcceptedIff` | src/block_producer.rs:899-993 | States are synchronized if and only if each is a signed, rootless, contiguous step on the one before, starting at the open channel's last accepted state. |
| `ProducerAdmission.JoinAcceptedIff` | src/block_producer.rs:1206-1239 | Exactly when a join is accepted, and that a record with the registered digest changes nothing. |
| `ProducerAdmission.CloseAcceptedIff` | src/block_producer.rs:817-888 | A close funding is accepted if and only if its gate accepts at the open head, its nonce is the number of sends so far and its signed state fits a block. |
| `ProducerAdmission.BlocksAreActions` | src/block_producer.rs:1016-1164 | After any run the witness is the blocks of the accepted actions in order, and a channel's record is its registration as replaced by its joins. |
| `ProducerHistory.RunExplained` | src/block_producer.rs:1016-1164 | After any run of accepted actions a channel's head is the last of one digest-linked history, its nonce is its number of sends less one, and it is terminal exactly when a close funding of it was accepted. |
| `ProducerHistory.ChannelCounters` | src/block_producer.rs:745-812 | Epoch and state version are the first state's plus the number of states accepted since, the close era never moves, and sends fit the 32-bit nonce. |
| `ProducerHistory.NoStateReplayed` | src/block_producer.rs:899-993 | The states accepted for a channel pairwise differ in their signed content, and in their digests unless those two states collide. |
| `ProducerHistory.HistoryStartsAtRegistration` | src/block_producer.rs:300-353 | A channel's history starts with its one registration and nothing precedes it. |
| `ProducerHistory.TerminalIsFinal` | src/block_producer.rs:817-888 | After close funding a channel's head, nonce, history and sends never change again. |
| `ProducerHistory.TransactionsAdmittedOnce` | src/block_producer.rs:736-812 | The remembered transaction hashes are exactly the admitted ones, and none is admitted twice. |
| `ProducerHistory.HeadsAreAuthorized` | src/block_producer.rs:1206-1239 | Without staged blocks every head is signed by all co-signers of its current record, delegate joins notwithstanding. |
| `ProducerHistory.RecordsOnlyGainDelegates` | src/block_producer.rs:1206-1239 | Over any run a registered record only gains delegates. |
| `ProducerHistory.JoinMatchesHead` | src/block_producer.rs:1206-1239 | A join leaves the record and the committed head agreeing on the participant counts, or the presented state and the head collide. |
| `ProducerHistory.SendsBalanceBlocks` | src/block_producer.rs:686-812 | On every run a channel's charged sends plus others' charges for its states equal its block-bearing states after the first plus its charges for others' states. |
| `ProducerHistory.SendsAreBlocks` | src/block_producer.rs:686-812 | A channel's sends number its block-bearing states after the first if and only if its arrivals match its departures. |
| `ProducerHistory.CloseFundingIsAligned` | src/block_producer.rs:817-888 | An accepted close funding charges the channel of its own state, or that state and the canonical child collide. |
| `UnalignedSend.UnalignedSendAccepted` | src/block_producer.rs:686-812 | A concrete run in which a send charges one channel and advances another is accepted. |
| `ProducerHistory.CanonicalCloseFundingAdmitted` | src/block_producer.rs:1102-1141 | The canonical close-funding child, once signed, passes the producer's link and counter fence. |
| `ProducerJournalSafety.RunsStaySound` | src/block_producer_service.rs:1848-2029 | Over every run of requests, failed writes and restarts, a restart is never refused and a healthy service's memory is exactly what its journal on disk replays to. |
| `ProducerJournalSafety.WritesReplay` | src/block_producer_service.rs:1685-1738 | Every journal any request writes passes every link, uniqueness, fingerprint, time, hash and replay check, reproduces the installed producers and only appends. |
| `ProducerJournalSafety.NextTimestampIsEarliest` | src/block_producer_service.rs:1636-1662 | The chosen timestamp is the earliest that is not before the wall clock and follows the producer and every committed entry; it is refused only when none fits 64 bits. |
| `ProducerJournalSafety.CandidateReplays` | src/block_producer_service.rs:1710-1738 | A candidate entry passes every check a restart makes of an entry after the journal, and replays to the candidate producer. |
| `ProducerJournalSafety.FailedWriteReopens` | src/block_producer_service.rs:2231-2286 | After a failed write reopening gives exactly the state before or the state after. |
| `ProducerJournalSafety.ReceiptsAndAnchorsAreFixed` | src/block_producer_service.rs:1206-1235 | The receipt of a committed request and the anchor of a generation never change, across restarts. |
| `ProducerJournalSafety.ProducerAtAnchorIsReplay` | src/block_producer_service.rs:1304-1353 | An anchor yields a producer exactly when it is the journal's own, and then the replay of that prefix, shortcut included. |
| `ProducerJournalSafety.StagedNeverCommitted` | src/block_producer_service.rs:1875-1885 | No staged exit-kit block is in the entries of any reachable journal file. |
| `ProducerJournalSafety.PreparedFreezes` | src/block_producer_service.rs:649-697 | Over every run with failed writes and restarts the journal file, and with it entries and producers, stays exactly as it was until one event releases the prepared entry, dropping a staged block or committing the same block: generation, timestamps and whole recorded head. |
| `ProducerJournalSafety.PromotedHashDiffers` | src/block_producer_service.rs:668-688 | A promoted exit-kit entry differs from the staged one in what its hash covers, so it keeps the staged hash only if those two entries collide. |
| `JournalChain.ReplayIsChain` | src/block_producer_service.rs:1895-1957 | Replay succeeds exactly on an unbroken chain of numbers, hashes, times and unique usable ids with one producer after another behind it, and ends in the last. |
| `JournalChain.RestartAcceptsExactly` | src/block_producer_service.rs:1848-2029 | A restart accepts exactly the framed chains whose prepared entry would be the next of the chain, and yields the producers of the chain. |
| `JournalChain.OpensExactly` | src/block_producer_service.rs:419-457 | A service opens on exactly the acceptable files of its circuit arities, healthy, with that file and its producers. |
| `JournalChain.FilesAreChains` | src/block_producer_service.rs:1848-2029 | Every journal file of every run is such a chain, and a healthy service holds its producers. |
| `ProducerRequests.BodiesAreRequests` | src/block_producer_service.rs:2096-2154 | A fingerprint is taken over the whole request but its time, and for a staged proposal but its signatures. |
| `ProducerRequests.KnownRequestIsAnswered` | src/block_producer_service.rs:1664-1683 | For every request kind, an id a committed entry carries writes nothing: same content by fingerprint (and, for a commit, its own anchor) is answered with that entry's receipt field by field, other content is an error. |
| `ProducerRequests.KnownIdIsNoKit` | src/block_producer_service.rs:1443-1452 | An exit kit under the id of a committed entry is refused. |
| `ProducerRequests.KnownAnchorIsAnswered` | src/block_producer_service.rs:872-894 | A commit at a committed anchor writes nothing and answers a close funding only. |
| `ProducerRequests.NewRequestIsAppended` | src/block_producer_service.rs:606-726 | With nothing prepared a plain request or send under a new id is written if and only if its id is usable, no committed entry admitted its states or transaction, and the producer takes it at the earliest fitting time; it is then exactly the next entry, and the answer its receipt. |
| `ProducerRequests.NewRequestIsStaged` | src/block_producer_service.rs:742-815 | Exactly when a close funding or exit kit is staged; entries and producer stay, the staged entry is the next one. |
| `ProducerRequests.StagingAgain` | src/block_producer_service.rs:760-774 | While an entry is prepared, staging answers its own content under its own id and refuses anything else. |
| `ProducerRequests.SendPromotesItsKit` | src/block_producer_service.rs:649-697 | While an entry is prepared a new send is written if and only if that entry is its own staged block and the signed send reproduces the staged head at the staged time. |
| `ProducerRequests.CommitPromotesItsEntry` | src/block_producer_service.rs:822-942 | A commit no committed entry answers is written if and only if it names the prepared close funding, by id, content and anchor or by anchor alone; that very entry ends the journal. |
| `ProducerRequests.AbandonDropsItsKit` | src/block_producer_service.rs:1499-1530 | Abandoning drops exactly a staged block of this id. |
| `ProducerRequests.FrozenAndPoisonedRefuse` | src/block_producer_service.rs:606-614 | A poisoned service refuses everything, and a prepared entry freezes the four plain requests, retries included. |
| `ProducerRequests.AnchorOfGeneration` | src/block_producer_service.rs:1206-1235 | The anchor of a generation is the genesis head's for zero and its own entry's otherwise, field by field. |
| `ProducerService.RunReplay` | src/block_producer_service.rs:1895-1957 | The replay loop computes the journal's replay, or fails exactly when an entry breaks a check. |
| `ProducerService.RunVerifyAndReplay` | src/block_producer_service.rs:1848-2029 | Succeeds exactly on well-framed journals whose entries, tail and prepared entry all replay, with the producers they replay to. |
| `ProducerService.FindEntry` | src/block_producer_service.rs:1664-1683 | Finds the first entry of a request id. |
| `ProducerService.BlockProducerService.OpenJournal` | src/block_producer_service.rs:419-457 | Opens exactly the journals that replay, with the producers they replay to. |
| `ProducerService.BlockProducerService.RegisterChannel` | src/block_producer_service.rs:606-627 | State and answer are those of the register decision, whatever the write did. |
| `ProducerService.BlockProducerService.PostInterChannelBlock` | src/block_producer_service.rs:629-726 | State and answer are those of the send decision, including in-place promotion of exactly its staged block. |
| `ProducerService.BlockProducerService.PrepareCloseFunding` | src/block_producer_service.rs:742-815 | State and answer are those of staging a close funding: the entry is durable, entries and producer do not move. |
| `ProducerService.BlockProducerService.CommitPreparedCloseFunding` | src/block_producer_service.rs:822-867 | Commits the prepared close funding only for its own request, content and anchor; a committed retry is answered. |
| `ProducerService.BlockProducerService.CommitPreparedAtAnchor` | src/block_producer_service.rs:872-894 | Commits the prepared close funding only at its exact anchor; a committed one is answered. |
| `ProducerService.BlockProducerService.PromotePreparedEntry` | src/block_producer_service.rs:896-942 | Promotes exactly the prepared close-funding entry at its anchor. |
| `ProducerService.BlockProducerService.PostDepositBlock` | src/block_producer_service.rs:1011-1029 | State and answer are those of the deposit decision, whatever the write did. |
| `ProducerService.BlockProducerService.SyncHeads` | src/block_producer_service.rs:1031-1080 | State and answer are those of the synchronization decision, with its scan for already admitted states. |
| `ProducerService.BlockProducerService.JoinDelegate` | src/block_producer_service.rs:1085-1110 | State and answer are those of the join decision, whatever the write did. |
| `ProducerService.BlockProducerService.ReplayToAnchor` | src/block_producer_service.rs:1304-1353 | The historical replay loop returns the producer at exactly this anchor, or none. |
| `ProducerService.BlockProducerService.PrepareExitKit` | src/block_producer_service.rs:1420-1494 | State and answer are those of staging an exit kit: refused when its id or state is already admitted. |
| `ProducerService.BlockProducerService.AbandonExitKit` | src/block_producer_service.rs:1499-1530 | Drops only a staged exit kit of this request. |
| `ProducerService.BlockProducerService.ApplyAndPersist` | src/block_producer_service.rs:1685-1708 | Persists before advancing memory; a failed write poisons. |
| `ProducerServiceLaws.ServiceObeysProducerLaws` | src/block_producer_service.rs:1782-1846 | In every reachable service the producer is the run of the committed actions, so every producer law holds of it and every head is fully signed. |
| `ChannelCreditSafety.AsU64IsRangeCheck` | src/channel_credit_safety.rs:323-329 | Reading the two low limbs is exactly the 64-bit range check. |
| `ChannelCreditSafety.ValidatePlaintextCells` | src/channel_credit_safety.rs:310-321 | Names the first inactive owned cell in key order, or none exactly when all are active. |
| `ChannelCreditSafety.BootstrapBounds` | src/channel_credit_safety.rs:93-117 | The nested loops compute the bootstrap table or the first refused cell. |
| `ChannelCreditSafety.PoolChanges` | src/channel_credit_safety.rs:193-217 | The first pass marks changed cells and pools their evidence per token. |
| `ChannelCreditSafety.AdvanceAuthenticated` | src/channel_credit_safety.rs:170-255 | The two passes compute the successor bounds or the first refusal in source order. |
| `CreditSoundness.BootstrapSound` | src/channel_credit_safety.rs:93-117 | Real decryptions of a backed state always bootstrap, to sound bounds. |
| `CreditSoundness.AdvanceSound` | src/channel_credit_safety.rs:153-255 | Under the stated caller obligation an accepted step keeps every bound above its hidden balance, and truthful plaintexts are never called inconsistent. |
| `CreditSoundness.RunSound` | src/channel_credit_safety.rs:153-255 | After any run of accepted steps every known bound still dominates its hidden balance, and no truthful plaintext was refused as inconsistent along the way. |
| `CreditSoundness.TighterIsMeet` | src/channel_credit_safety.rs:340-346 | The tighter of two bounds admits exactly the values both admit. |
| `CreditSoundness.AcceptedCells` | src/channel_credit_safety.rs:225-255 | After an accepted step owned cells have their exact bound, touched cells some bound and an exit-shaped ciphertext, and untouched cells no looser one. |
| `CreditSoundness.EvidenceMissingOnlyIfUnbounded` | src/channel_credit_safety.rs:225-255 | Range evidence is demanded only of a touched, unopened cell when neither the pooled flow nor the fund fits 64 bits. |
| `CreditAdmission.BootstrapExactly` | src/channel_credit_safety.rs:93-117 | Starting bounds exist exactly for a sized state whose plaintexts are of active cells and within every fund that fits 64 bits; each active cell has its plaintext, or the fund if it fits. |
| `CreditAdmission.ValidExactly` | src/channel_credit_safety.rs:129-151 | Bounds are valid for a state exactly when its ids and counts fit the table and they are of its schema, channel and digest, zero outside the active cells. |
| `CreditAdmission.PoolIsReach` | src/channel_credit_safety.rs:193-217 | A token's pool is the sum of fund growth, allocation and the touched cells' bounds, known exactly when each is and 64 bits hold the sum. |
| `CreditAdmission.AdvanceAcceptedIff` | src/channel_credit_safety.rs:170-255 | A step is accepted if and only if the states are one transition of one channel and every active cell passes, cell by cell in numbers; then each cell's new bound is exactly its plaintext, or the least of what can have reached it and the fund. |
| `CreditAdmission.RefusalNamesFirstCell` | src/channel_credit_safety.rs:225-255 | A refused transition names the first active cell, row by row, that does not pass, and why. |
| `CreditAdmission.CanCreditExactly` | src/channel_credit_safety.rs:261-289 | The pre-check as arithmetic: without a plaintext it accepts if and only if the known bound or the fund leaves 64-bit room for the amount; with one, if and only if the plaintext contradicts neither and it or the fund leaves room; and which error otherwise. |
| `CreditAdmission.CreditAtOnceAccepted` | src/channel_credit_safety.rs:261-289 | A credit the pre-check accepts without owned plaintext goes through in one step. |
| `CreditAdmission.CreditWithPlaintextAccepted` | src/channel_credit_safety.rs:261-289 | A credit accepted on an owned plaintext goes through in one step on the grown plaintext, which becomes the exact bound. |
| `CreditAdmission.ImportAccepted` | src/channel_credit_safety.rs:261-289 | A credit the pre-check accepts also goes through as a two-step import: fund and unallocated growth, then allocation. |
| `PayoutStore.VerifyLedger` | src/partial_withdrawal_payout.rs:905-919 | The ledger loop accepts exactly duplicate-free ledgers. |
| `PayoutStore.PartialWithdrawalPayoutStore.Commit` | src/partial_withdrawal_payout.rs:598-606 | Writes only snapshots that verify; a failed write poisons and leaves old or new. |
| `PayoutStore.PartialWithdrawalPayoutStore.PreparePayout` | src/partial_withdrawal_payout.rs:325-376 | Behaves as one prepare step and returns the active candidate of this identity. |
| `PayoutStore.PartialWithdrawalPayoutStore.MutateCandidate` | src/partial_withdrawal_payout.rs:568-596 | Behaves as one update step of the active candidate, with its ledger entry. |
| `PayoutStore.PartialWithdrawalPayoutStore.OpenStore` | src/partial_withdrawal_payout.rs:294-316 | Opens exactly the snapshots that verify, and starts empty when there is none. |
| `PayoutStoreSafety.UpdateProgresses` | src/partial_withdrawal_payout.rs:378-566 | Every accepted update keeps the candidate's identity, intents, confirmations, delegation and recorded hashes. |
| `PayoutStoreSafety.AcceptedUpdateVerifies` | src/partial_withdrawal_payout.rs:905-1048 | An accepted update passes the reload check exactly when it is not a pull intent without calldata hash. |
| `UnhashedPullIntent.UnhashedPullReached` | src/partial_withdrawal_payout.rs:481-520 | A concrete run reaches a verified snapshot whose pull intent without calldata hash the update accepts and the reload check refuses. |
| `PayoutStoreSafety.RunsStaySound` | src/partial_withdrawal_payout.rs:294-316 | Over every run with failed writes every durable snapshot verifies, so reopening never fails. |
| `PayoutStoreSafety.OneCandidatePerNullifier` | src/partial_withdrawal_payout.rs:325-376 | A nullifier is active under one candidate only, whose journaled intents, receipts and hashes never change. |
| `PayoutStoreSafety.PullOrDelegation` | src/partial_withdrawal_payout.rs:461-520 | A local pull and a delegation exclude each other, and phases come in order. |
| `PayoutStoreSafety.NoSecondBroadcast` | src/partial_withdrawal_payout.rs:237-264 | Once an intent is journaled, broadcasting the payout is never suggested again. |
| `PayoutEvidence.ReloadAcceptsExactlyGenuine` | src/partial_withdrawal_payout.rs:905-1048 | The reload check accepts exactly the snapshots whose every recorded fact holds of its own fields: request, identity, lane, hash logs, intents, final receipts, phases, ledger. |
| `PayoutEvidence.ConfirmationsAreReceipts` | src/partial_withdrawal_payout.rs:793-903 | Over every run a stored payout confirmation is a successful final receipt of the candidate's chain and rollup, from the intent's caller at its nonce and calldata, of the lane's call kind, anchored, nullifier used, credit grown by exactly the amount; a stored pull likewise, sent by the recipient. |
| `PayoutEvidence.LedgerIsReceipts` | src/partial_withdrawal_payout.rs:568-596 | A nullifier is in the duplicate-free ledger if and only if some durable snapshot of the run held such a payout receipt for it, pulled by such a receipt or handed off. |
| `PayoutEvidence.UpdateAcceptedIff` | src/partial_withdrawal_payout.rs:378-566 | Exactly which updates of a candidate are accepted; each is recorded, and changes nothing else. |
| `PayoutEvidence.PrepareAcceptedIff` | src/partial_withdrawal_payout.rs:325-376 | Exactly when a request keeps the active candidate, becomes a new one with nothing journaled, or is refused. |
| `PayoutEvidence.MutateAcceptedIff` | src/partial_withdrawal_payout.rs:568-596 | Exactly when an update is written; the ledger gains the nullifier when it finishes the candidate, and nothing else. |
| `PayoutEvidence.CallIsAllOrNothing` | src/partial_withdrawal_payout.rs:598-615 | A write is installed and durable at once; after a failed one nothing is accepted until a reopening, which gives exactly the state before or after. |
| `SnapshotFrame.ReaderAcceptsExactlyFrames` | src/partial_withdrawal_payout.rs:1135-1185 | The reader returns a payload exactly for the bytes the writer makes of it. |
| `SnapshotFrame.ReadUndoesWrite` | src/partial_withdrawal_payout.rs:1202-1219 | Every payload that fits is read back unchanged. |
| `SnapshotFrame.RetiredExactly` | src/partial_withdrawal_payout.rs:1155-1166 | A file under another magic is reported as the retired flow exactly when it is of the payout family with a version below four. |
| `ProofDa.EncodeSimpleCoderBlobs` | src/proof_da.rs:77-105 | The loops write exactly the specified stream inside the buffer, or refuse empty and oversized payloads. |
| `ProofDa.EncodesExactly` | src/proof_da.rs:77-86 | Exactly the payloads of 1 to 253921 bytes are encoded. |
| `ProofDa.DecodeUndoesEncode` | src/proof_da.rs:77-105 | Reading the length header and 31-byte chunks gives the payload back. |
| `ProofDa.EncodingIsInjective` | src/proof_da.rs:77-105 | Payloads with equal blobs are equal. |
| `ProofDa.FewestBlobsAndCanonicalElements` | src/proof_da.rs:14-19 | No smaller number of blobs would hold the payload, and every field element starts with a zero byte. |
| `ProofDa.ValidateSidecars` | src/proof_da.rs:146-200 | Accepts exactly canonical blobs with matching versioned hashes; then decoding the blobs gives the payload. |
| `ProofDa.CompactIsInjective` | src/proof_da.rs:160-190 | The compact sidecar bytes determine every commitment and proof. |
| `ChannelLocks.SortedIds` | api/lib/lock.js:7-11 | The safe channel numbers, each once, ascending. |
| `ChannelLocks.ChannelLockTable.WithLocks` | api/lib/lock.js:7-29 | Registers behind the current tail of every named channel and becomes their tail; no valid channel is a rejection. |
| `ChannelLocks.TailsAlwaysFulfil` | api/lib/lock.js:12-27 | The all-of over caught tails never rejects, and fulfils exactly when every predecessor has settled. |
| `ChannelLocks.NothingIsSkipped` | api/lib/lock.js:13-14 | No operation is ever rejected before its body runs. |
| `ChannelLocks.SharedChannelsRunInOrder` | api/lib/lock.js:7-29 | Operations sharing a channel never overlap and run in registration order. |
| `ChannelLocks.SomethingCanMove` | api/lib/lock.js:12-14 | Waits point only to earlier registrations, so while anything is unfinished something can run or finish. |
| `ChannelLocks.FailureBlocksNothing` | api/lib/lock.js:13-27 | Changing outcomes of a run between success and failure leaves the whole run possible, with the same progress, because every awaited tail swallows rejections. |

## Left out

- `BlockWitnessGenerator`, plonky2, Falcon, Regev, Merkle trees and hashing are functions of the environment; their internals are not modelled.
- Error texts are not modelled; an operation either succeeds or is refused, except in `ChannelCreditSafety`, `CloseFunding`, `ProofDa` and `SnapshotFrame`, which keep the error kinds.
- The publisher's preflight reads, deployment and manifest checks, acknowledgement checks and post-state snapshots appear only as points where a run may stop.
- The publisher's journal and signer locks are assumed held by one publisher at a time per journal and signer, with one shared lock root; flock itself is not modelled.
- `validate_pull_event` and the event filters of semantic discovery are not modelled; the two receipt scanners are.
- Hex, JSON and file encodings are assumed to round trip; `ReceiptScan` starts from decoded words, where a field that does not decode is `None`.
- Snapshot anchoring, payout artefact validation, and the recipient, ciphertext and salt comparisons of `verify_inter_channel_descriptor_matches_debit` are long conjunctions of equalities and appear as environment predicates; its amount, digest, channel, hash, transaction and root comparisons are modelled.
- The scratch check of `adopt_delegate_join` in the service repeats the producer's own check and is not modelled separately.
- `extended_public_state_matching`, receipt look-ups by request kind, `status` and the command dispatcher are read-only projections and are not modelled.
- The retired member-set-update paths appear only as an action that is always refused.
- Read-only calls of the payout store, its locking, file modes and the identity hash's preimage are not modelled.
- Burn recovery inside `withLocks` is part of the locked operation; re-entering the locks from inside an operation is not modelled.
- The browser claim flow, HTTP server, deposit preflight, late incoming transfers and the WebAssembly wallet are not part of this model.
