# dBFT 2.0: a verified model

This project models the Go implementation of the dBFT 2.0 consensus algorithm and proves its safety for any number
of validators, any number of views and any behaviour of up to F faulty validators. It also covers the two TLA+
specifications that the code implements, and three of the smaller algorithms beside the protocol.

## How the proof is built

1. **One node.** `Node.dfy` is the `DBFT` object with its embedded `Context`, method by method, with the loops and
   the nested calls of the source: `OnReceive` leads to `CheckChangeView`, that to a new view, and that to a replay
   of cached messages through `OnReceive`. Every method is proved to do exactly what a function of `NodeSpec.dfy`
   says. The recursion ends on every input; its measure is the number of views left, the kind of the message (a
   recovery message brings other messages, never another recovery message), the rank of the call and the number of
   messages left.
2. **The abstract protocol.** `Protocol.dfy` has nineteen atomic steps (store a request, answer it, sign, ask for a
   view, enter it, accept, ...) on the protocol part of a node, and an invariant over the node's current slots and
   over everything it ever broadcast, received and processed. Every step keeps it.
3. **Refinement.** `Refinement.dfy` proves that each call of the library, with all the view changes and replays it
   nests, is a finite sequence of those steps (`HandleRefines`).
4. **The network.** `Cluster.dfy` lets correct nodes handle events in any order, with any authentic payload; faulty
   validators send what they like, different things to different nodes. `Agreement.dfy` has the theorems about all
   reachable states; `Guarantees.dfy`, `CatchUp.dfy`, `CacheKept.dfy`, `MissingTransactions.dfy` and
   `LoneValidator.dfy` have those about one node. `EventLoop.dfy` closes the circle: the loop that drives the object
   leaves it in a state with all these properties.
5. **Commits that come early.** A Commit or PreCommit that comes before the request is meant to be checked when the
   request comes (context.go:75-81), but the check runs before the request reaches its slot (dbft.go:356-357), and
   without the request there is no header to check against (context.go:401-404). So such payloads are counted
   unverified (`EarlyCommitsStay`), and a node that has not signed at a height itself can process another block than
   its peers. `ForkIsReachable` gives the run: four validators, one of them faulty. The model keeps the code as it is.
   `EndorsedIffSigned` says exactly when what is processed is what the correct nodes signed: when F+1 of the counted
   Commits or PreCommits sign its header, which a caller can check before the block is persisted. `NoFork` is the
   unconditional result for nodes that signed themselves.
6. **A stale place on the list.** `OnTransaction` looks up the place of a transaction on the list of missing ones,
   adds the transaction, and then takes it off the list at that place (dbft.go:177-187). In between, a refused block
   can lead to the next view and a cached request of that view to another list. Then the removal panics, or it takes
   off a transaction of the new request, which is never asked for again. Both happen in reachable states
   (`PanicIsReachable`, `LossIsReachable`); `PanicsExactly` and `LosesExactly` say when, from what is known before
   the call: the block it completes, the stored ChangeViews, the cached request of the next view, and what the
   memory pool answers.
7. **Votes for different views.** `checkChangeView` counts the votes for the view of the ChangeView that comes
   (check.go:155-180), not for the next view. ChangeViews of M validators that ask for different views can leave a
   node where it is, also when they come from the certificate in a recovery message (`QuorumIsIgnored`). `ListDecides`
   says exactly when a list of ChangeViews moves a node, `RecoveryDecides` and `CorrectRecovery` when a recovery
   message does.
8. **Duties.** Safety says what a node must not do; `Duties.dfy` and `Redelivery.dfy` say what it must do: which payload
   a call broadcasts first, and when a signature, an answer or a block follows, under the answers of the callbacks with
   their numbers. What a recovery message packs reaches the handlers of the node that lags.

## Assumptions

- All nodes know the same validators of a height, no two nodes share a key, and at each height at most F validators
  are not run by a correct node (`Network`).
- Nobody forges a payload of a correct validator, and what a recovery message redelivers was really sent
  (`Authentic`). A payload stands for its own hash and a signature for its signer and header, so hashes are injective
  and signatures sound.
- `Reset` goes to a larger height, as note 3 of the repository's README asks (`Proper`). A node never restarts with
  lost memory.
- A callback answers at once and does not call the node back; it may answer differently every time, so the
  environment in `Config` is a family of functions of the number of calls answered before. `WatchOnly` is constant.
- The validator list is not empty.

## Files

| file | content |
|---|---|
| Quorum.dfy | F, M, the primary of a view, quorum intersection |
| Payloads.dfy, NodeState.dfy, Mailbox.dfy | payloads, the state of a node and its environment, the message cache |
| NodeSpec.dfy, Node.dfy | every handler as a function, and the object whose methods are proved against it |
| Protocol.dfy, Refinement.dfy | the atomic steps and their invariant; every call is a run of them |
| Cluster.dfy, Agreement.dfy, Fork.dfy | the network, what holds in all its runs, and the reachable fork |
| Guarantees.dfy, CacheKept.dfy | locks, votes, view certificates, processed blocks, timeouts; the cache of future messages |
| CatchUp.dfy, MixedVotes.dfy | who answers a recovery request, when ChangeViews and recovery messages move a node, and a reachable state in which they do not |
| MissingTransactions.dfy, StaleIndex.dfy | the list of missing transactions: exactly when its upkeep fails, and two reachable states in which it did |
| Duties.dfy, Redelivery.dfy | what a node must broadcast, sign, answer and process, and what a recovery message brings it |
| LoneValidator.dfy, EventLoop.dfy | a network of one validator; the loop that drives the object |
| TlaModel.dfy | the TLA+ specifications with and without the CommitAck phase |
| Merkle.dfy, RecoveryPacking.dfy, Rtt.dfy | the Merkle tree, the sample recovery message, the round trip average |

## Model

| member | source | states |
|---|---|---|
| `Agreement.NoFork` | check.go:106-148 | in every run, whatever the faulty validators send to whom, nodes that sent a Commit or PreCommit of their own and processed a block or pre-block at one height processed the same header, in the same view |
| `Agreement.EndorsedIffSigned` | context.go:75-81 | a processed block or pre-block is what the correct nodes signed in its view if and only if F+1 of the counted Commits or PreCommits sign its header; M of them are not enough, since early ones are not verified |
| `Agreement.AgreementIffEndorsed` | check.go:112-125 | two blocks or pre-blocks processed at one height, one of them endorsed by F+1 counted signatures, have the same header if and only if the other is endorsed too |
| `Agreement.SignerIsEndorsed` | send.go:143-184 | what a node that signed at a height itself processes there is always endorsed |
| `Agreement.SignedOnce` | check.go:20-49 | no two correct nodes sign a Commit or PreCommit for different proposals of one view, and each signature is over that proposal |
| `Agreement.SomeoneSigned` | check.go:112-125 | behind every processed block or pre-block a correct node sent its Commit or PreCommit in its view |
| `Agreement.OwnSignatureMatches` | check.go:52-153 | a node that signed at a height processes there only what it signed, in that view |
| `Agreement.ProcessedViewIsFinal` | dbft.go:535-539 | once a correct node processed a block or a pre-block in a view, no correct node signs a Commit or PreCommit in a later view of that height |
| `Agreement.ViewIsWanted` | check.go:160-179 | a correct node is in view v > 0 only if at least N-2F correct validators reached view v-1 and asked to leave it or a later one |
| `Agreement.ViewGrowsByOne` | send.go:60-67 | after a call a node of two or more validators is in view v > 0 only if some other correct node had before, at that very height, broadcast a ChangeView from view v-1 or a later one; a single validator stays at its height and moves up one view at most |
| `LoneValidator.LoneViewGrowsByOne` | check.go:155-180 | a single validator is a quorum by itself, and still no call raises its view by more than one, whatever own payloads a recovery message brings back |
| `Fork.ForkIsReachable` | dbft.go:356-357 | a concrete reachable state of four validators, one faulty, in which two correct nodes processed different blocks at one height and view; the one that is not endorsed is the odd one |
| `Cluster.RunOK` | dbft.go:249-317 | every reachable state of the network satisfies every node's invariant, and everything delivered was sent by its owner if that is a correct node |
| `Cluster.OneProposalPerView` | dbft.go:414-422 | two signatures of one view by correct nodes rest on two quorums of preparations that share a correct validator, so they sign one proposal |
| `Cluster.OneViewPerHeight` | check.go:112-125 | all blocks and pre-blocks that correct nodes process at one height come from one view, endorsed or not |
| `Cluster.BackerSupports` | dbft.go:496-512 | a correct validator counted behind a signature prepared exactly the signed request, also when the signer is the primary that does not compare early responses |
| `Guarantees.CommitLock` | dbft.go:224-227 | after a node stored its own PreCommit or Commit, no call changes its view, its request or that payload before the next height |
| `Guarantees.VotesOnce` | send.go:122-162 | in every run at most one preparation per view, one distinct PreCommit and one distinct Commit per height, and nothing of a later view after either |
| `Guarantees.ViewCertificate` | context.go:264-273 | in a view above 0 at least M stored ChangeViews asked for it or a later one, and no call loses that evidence before the next view or height |
| `Guarantees.ProcessedIsSettled` | dbft.go:288-291 | after a block was processed no call before the next height changes a slot, a flag, the view, the proposal, its transactions, a cached header or block, or asks the ledger anything; messages are still noted and cached, and recovery requests answered |
| `Guarantees.ProcessedBlockIsGood` | check.go:106-148 | at most one block and one pre-block per height; each counted M validators' Commits or PreCommits of its view and was built from the primary's request of that view, and of a block every proposed transaction was there, each proposed once |
| `Guarantees.CompleteIffAllPresent` | context.go:434-436 | comparing two counts tells exactly that all proposed transactions are present and none is proposed twice |
| `Guarantees.OnlyTransactionsCrash` | check.go:127-146 | a call kills the process if and only if it is an OnTransaction whose place on the list is beyond the end of a next view's list, or the ledger is asked during the call to process a block at a height without the anti-MEV extension and refuses it; the ledger is asked only about proposals of a primary of the current height, and no call dies of a missing block or pre-block |
| `MissingTransactions.LeavesExactly` | dbft.go:164-188 | OnTransaction leaves the view if and only if the transaction completes a refused block and M validators, this one included, have asked for the next view; it goes no further than that view |
| `MissingTransactions.PanicsExactly` | dbft.go:177-187 | OnTransaction kills the process if and only if the ledger refuses a block it is asked for, or the call leaves the view and takes up a cached request of the next view that misses at least one transaction but no more than stood before this one on the old list |
| `MissingTransactions.LosesExactly` | dbft.go:177-187 | some proposed transaction is neither collected nor listed after OnTransaction if and only if the call takes up a cached request of the next view, at the old place the new list holds a transaction that is nowhere else, and the ledger refuses no block it is asked for |
| `MissingTransactions.CallsPanicExactly` | dbft.go:92-317 | every call kills the process if and only if it is an OnTransaction under that condition or the ledger refuses a block it is asked for |
| `MissingTransactions.CallsLoseExactly` | dbft.go:367-384 | every call keeps every proposed transaction of a known request collected or listed as missing, except OnTransaction exactly under that condition |
| `StaleIndex.PanicIsReachable` | dbft.go:177-187 | a concrete reachable state of four validators, one faulty, in which a correct node died in OnTransaction although no ledger ever refuses a block |
| `StaleIndex.LossIsReachable` | dbft.go:177-187 | a concrete reachable state in which a correct node knows a request whose only transaction it neither has nor lists, so that it ignores the transaction when it comes |
| `Guarantees.ActiveQuorum` | context.go:134-157 | more than F committed or lost validators means exactly that fewer than M are active in this view |
| `Guarantees.TimeoutAsksForView` | dbft.go:204-246 | on a timer an unbound validator broadcasts first a ChangeView if M validators are active in its view and a recovery request otherwise, also with a maximal block time, unless it is a backup in view 0 that knows of no transaction and has not waited for one yet; a transaction that ends its waiting only ends the subscription |
| `Duties.TimeoutProposes` | dbft.go:220-221 | on its timer a primary that has not proposed broadcasts first a request of its own epoch for exactly the hashes in the pool, later than the last block and not before the clock, keeps it in its slot and signs if that completes the quorum; only in view 0 with a maximal block time and an empty pool it subscribes to transactions instead |
| `Duties.NewTransactionProposes` | dbft.go:197-202 | a transaction reported to a primary that waits for one makes it propose, and is ignored without a subscription |
| `Duties.StartProposes` | dbft.go:75-81 | a node that is started as the primary proposes at once, also with an empty pool |
| `Duties.TimeoutResends` | dbft.go:223-227 | on its timer a bound node broadcasts one recovery message that holds its own Commit and PreCommit |
| `Duties.TimerIsIgnored` | dbft.go:204-215 | an old timer, or that of a node that does not take part or has its block, changes nothing |
| `Duties.RequestArrives` | dbft.go:319-365 | a backup asks for the next view over a refused request, waits for what the pool lacks, and puts a complete proposal to the application: if that approves, its first broadcast is the PrepareResponse, and its signature follows if this completes the quorum; if not, its first broadcast is a ChangeView for the next view |
| `Duties.TransactionArrives` | dbft.go:164-188 | a missing transaction is collected and leaves the list once; the one that completes the proposal has its block put to the application, and the first broadcast is the PrepareResponse if that approves and a ChangeView for the next view if not; after the answer every stored PreCommit of the view signs the proposal |
| `Duties.AnswersAreApproved` | dbft.go:386-410 | no call broadcasts a PrepareResponse unless VerifyBlock, or VerifyPreBlock at an anti-MEV height, accepted the block of its request within the call |
| `Duties.ResponseArrives` | dbft.go:469-523 | the PrepareResponse that completes the quorum makes the node broadcast and store its PreCommit at an anti-MEV height, its Commit at any other, over the proposal; a Commit quorum or PreCommit quorum that this completes is followed up at once |
| `Duties.ResponseIsCounted` | dbft.go:469-523 | a PrepareResponse is stored if and only if its sender has not prepared, the application lets it pass, it answers the known request and the node is not leaving its view, or more than F are committed or lost |
| `Duties.PreCommitArrives` | check.go:52-104 | the PreCommit that completes the quorum, with the pre-block accepted and the own PreCommit out, makes the node broadcast first and store its Commit over the proposal, records the pre-block, and finishes the block if the Commits that sign it suffice and the ledger accepts; every stored Commit of the view then signs the proposal |
| `Duties.CommitArrives` | check.go:106-153 | the Commit that completes the quorum has the ledger asked about the proposal, and the block is processed, with the Commits that were counted, if and only if the ledger accepts |
| `Duties.AgreementArrives` | check.go:155-180 | when M ChangeViews ask for a view, a validator that itself asked for less first broadcasts a ChangeView of its own with the agreement reason, and then follows the others to that view or a later one |
| `Duties.CommitIsVerified` | dbft.go:606-645 | a Commit of the view for a free slot is stored if and only if the application lets it pass and it signs the proposed header, or no header can be built yet; a rejected one changes nothing in the protocol state |
| `Duties.PreCommitIsVerified` | dbft.go:556-604 | a PreCommit of the view for a free slot is stored if and only if the application lets it pass and it signs the proposed pre-block, or the proposal is not known or not complete yet; a rejected one changes nothing in the protocol state |
| `Duties.EarlySignatureIsStored` | dbft.go:556-651 | a Commit or PreCommit of an earlier view, or one before the request, is stored unverified if its slot is free, and nothing else changes |
| `Duties.SignaturesAreKept` | context.go:243-305 | no call loses a stored Commit or PreCommit of the height, unless it is known to sign another header than the primary of its view proposed |
| `Duties.SenderIsHeard` | dbft.go:283-286 | after a message of the current view, or a ChangeView or recovery message, its sender does not count as failed as long as the node stays in its view |
| `Cluster.NobodyMissesItself` | context.go:243-305 | in no reachable state does a node count itself among the validators it has not heard of in the view |
| `Redelivery.PackedExactly` | send.go:196-232 | a recovery message packs exactly the stored preparations and the ChangeViews of the last view change, the stored PreCommits if and only if the node sent its own, and the stored Commits if and only if it sent its own |
| `Redelivery.RecoveryIsUnpacked` | dbft.go:697-736 | every packed payload that the node needs (ChangeViews if the sender is ahead, preparations of its view unless it is bound or leaving, signatures of views it has reached) reaches its handler, unless the process dies or the block is processed meanwhile |
| `Redelivery.CommitsComeBack` | dbft.go:724-736 | each Commit that a committed node of the same view packs is in its slot at the receiver afterwards, unless the block is processed, the process dies, or it signs another header than the known proposal |
| `CacheKept.NothingIsLost` | dbft.go:118-135 | through every call, with all nested view changes and replays, a cached message stays cached and unhandled as long as it belongs to the node's future, and otherwise leaves the cache and is handed to its handler exactly once; the exceptions are a dead process, a processed block and a sender that is no validator |
| `CacheKept.ReceiveAllTakes` | dbft.go:118-135 | a message that a replay hands out once is handled exactly once or cached again, whatever views the other messages of the replay lead to |
| `CacheKept.CacheIsFuture` | dbft.go:268-281 | after every call each cached message of the current height is of a later view and is no ChangeView or recovery message |
| `CacheKept.CacheTracks` | helpers.go:43-63 | filing a message leaves every cached message in its place and unhandled, unless both are of one height, sender and type (requests and responses share a place) |
| `CacheKept.ReplayedOnce` | dbft.go:118-135 | a replay hands out every cached message of the height, each exactly once, whatever the order of Go's map iteration |
| `CacheKept.StartForgets` | dbft.go:75-81 | a start forgets every cached message: none is handled, and the cache is empty afterwards |
| `CatchUp.RecoveryCatchesUp` | dbft.go:697-706 | an uncommitted node without a block and without ChangeViews above v that gets a recovery message from view v with M validators' ChangeViews for exactly v ends in view v or later |
| `CatchUp.ListDecides` | check.go:155-180 | an uncommitted node leaves its view over a list of ChangeViews if and only if one of them, taken in order, is stored and asks for a view for which, or for a later one, M stored ones ask by then; otherwise it only stores them |
| `CatchUp.RecoveryDecides` | dbft.go:686-719 | an uncommitted node leaves its view over a recovery message of a later view if and only if one of the packed ChangeViews decides, and it then reaches the sender's view if all of them ask for that view or a later one |
| `CatchUp.PackedCertificate` | send.go:196-205 | the recovery message of a node in view v > 0 packs ChangeViews of M validators, each for v or a later view |
| `CatchUp.CorrectRecovery` | dbft.go:673-737 | an uncommitted node reaches the view of a correct node whose recovery message it gets if and only if one of the packed ChangeViews decides, and stays in its view otherwise |
| `MixedVotes.QuorumIsIgnored` | check.go:155-180 | a concrete reachable state in which a recovery message has left a correct node in view 0 although it stores ChangeViews of M validators that ask to leave it |
| `CatchUp.RequestIsAnswered` | dbft.go:653-671 | of N >= 2 uncommitted validators exactly F+1 broadcast their state on a recovery request, the rest stay silent, and a correct one other than the sender is among them |
| `CatchUp.FPlusOneAnswer` | dbft.go:659-667 | the index arithmetic selects exactly F+1 validators and never the sender |
| `CatchUp.BoundReplies` | dbft.go:653-671 | who sent a Commit, or a PreCommit at an anti-MEV height, answers every recovery request with its recovery message |
| `CatchUp.BoundAnswersChangeView` | dbft.go:534-539 | a bound node answers a ChangeView for a later view with its recovery message, does not store it and stays in its view |
| `Refinement.HandleRefines` | dbft.go:92-317 | each call, with all nested view changes and replays, is a finite run of protocol steps that keeps the invariant, undoes no lock and no processed block, drops no signature that is not known to miss its proposal, answers only approved requests, notes whom it heard from, receives nothing but its input and asks the ledger only about proposals; unless OnTransaction leaves its view, the call also keeps the list of missing transactions complete and kills the process exactly when the ledger refuses a block it is asked for |
| `Refinement.EarlyCommitsStay` | dbft.go:356-357 | adopting a request drops the responses to other requests and leaves every stored Commit and PreCommit as it is |
| `Refinement.OnTransactionDoes` | dbft.go:164-188 | OnTransaction is a run of protocol steps; if it stays in its view it keeps the list complete and kills the process exactly when the ledger refuses a block it is asked for |
| `Refinement.OnReceiveDoes` | dbft.go:249-317 | receiving any message, cached, ignored or handled, is a run of protocol steps that keeps the invariant and the list of missing transactions, and kills the process exactly when the ledger refuses a block it is asked for |
| `Refinement.OnPrepareRequestDoes` | dbft.go:319-365 | handling a request is a run of protocol steps that keeps the invariant and the list of missing transactions, and kills the process exactly when the ledger refuses a block it is asked for |
| `Refinement.OnPrepareResponseDoes` | dbft.go:469-523 | handling a response is a run of protocol steps that keeps the invariant and the list of missing transactions, and kills the process exactly when the ledger refuses a block it is asked for |
| `Refinement.OnChangeViewDoes` | dbft.go:525-554 | handling a ChangeView is a run of protocol steps that keeps the invariant and the list of missing transactions, and kills the process exactly when the ledger refuses a block it is asked for |
| `Refinement.OnPreCommitDoes` | dbft.go:556-604 | handling a PreCommit is a run of protocol steps that keeps the invariant and the list of missing transactions, and kills the process exactly when the ledger refuses a block it is asked for |
| `Refinement.OnCommitDoes` | dbft.go:606-651 | handling a Commit is a run of protocol steps that keeps the invariant and the list of missing transactions, and kills the process exactly when the ledger refuses a block it is asked for |
| `Refinement.OnRecoveryMessageDoes` | dbft.go:673-737 | the three parts of a recovery message, each of which may change the view, make one run |
| `Refinement.OnTimeoutDoes` | dbft.go:204-246 | whatever a timer leads to is a run of protocol steps that keeps the invariant and the list of missing transactions |
| `Refinement.CheckPrepareDoes` | check.go:7-50 | signing after a preparation quorum is a legal step, also for a watch-only node |
| `Refinement.CheckPreCommitDoes` | check.go:52-104 | whatever follows the PreCommits is a run of protocol steps, and a pre-block that is processed is the proposal of the view |
| `Refinement.CheckCommitDoes` | check.go:106-153 | processing a block is a legal step on the proposal of the view and finds its block |
| `Refinement.CheckChangeViewDoes` | check.go:155-180 | entering a view is legal only with M ChangeViews for it or later, and the replay that follows is a run |
| `Refinement.StartIsReady` | dbft.go:75-81 | a started node satisfies the invariant, also when it proposes at once |
| `Protocol.StepKeepsInv` | check.go:7-180 | every atomic step keeps the invariant over slots and history |
| `Protocol.RunKeeps` | check.go:7-180 | every finite run keeps it, and undoes neither a lock nor a processed block nor the evidence for a view |
| `Protocol.KeepsSignatures` | check.go:20-49 | every Commit and PreCommit a node sends is over a request of the primary that M validators prepared in that view |
| `Protocol.KeepsCertificate` | context.go:264-273 | no step leaves a view above 0 without its M ChangeViews |
| `Quorum.PrimaryIsModulus` | context.go:112-119 | the corrected truncating remainder is the mathematical modulus |
| `Quorum.PrimaryRotates` | context.go:112-119 | N consecutive views have N distinct primaries and the rotation repeats after N views |
| `Quorum.QuorumOverlap` | context.go:103-109 | two quorums share at least N-2F, that is more than F, validators, for every N |
| `Quorum.QuorumIntersection` | context.go:103-109 | two quorums share a validator outside any set of at most F |
| `Quorum.FaultyIsLessThanAThird` | context.go:106 | F is the largest number of validators that is less than a third of all |
| `Quorum.QuorumIsReachable` | context.go:109 | M is the largest number that is always left when up to F validators are silent |
| `Quorum.FewerDoNotOverlap` | context.go:103-109 | with n = 3F+1 there are two groups of M-1 validators that share at most F, so one less than M would not do |
| `NodeObject.Node.CountVotes` | check.go:20-33 | the counting loop counts exactly the validators whose stored payload fits |
| `NodeObject.Node.CountCommitted` | context.go:134-144 | counts exactly the validators with a Commit or PreCommit of any view |
| `NodeObject.Node.CountFailed` | context.go:148-157 | counts exactly the validators not heard of in this view that have not committed |
| `NodeObject.Node.MakeHeader` | context.go:400-417 | the header is made once, from the proposal, when the request is known and the pre-block processed |
| `NodeObject.Node.CreateBlock` | context.go:350-371 | the block is the header's, made once |
| `NodeObject.Node.CreatePreBlock` | context.go:374-390 | the pre-block is the pre-header's, made once |
| `NodeObject.Node.ResetHeight` | context.go:243-305 | a new height clears every slot, flag and cached block and finds the own index |
| `NodeObject.Node.ResetView` | context.go:243-305 | a later view keeps Commits and PreCommits, clears preparations, and moves the ChangeViews that asked for it to the last-view slots |
| `NodeObject.Node.MakeRecoveryMessage` | send.go:196-232 | the payloads a recovery message packs, in slot order |
| `NodeObject.Node.SendRecoveryRequest` | send.go:186-194 | missing transactions are asked for again before the request is broadcast |
| `NodeObject.Node.SendChangeView` | send.go:69-104 | recovery, or a ChangeView for the next view (a byte that wraps) and the count that follows |
| `NodeObject.Node.SendPrepareResponse` | send.go:106-120 | the response names the request in the primary's slot, is stored and broadcast |
| `NodeObject.Node.SendPreCommit` | send.go:122-173 | a stored PreCommit is sent again, otherwise one is signed, stored and broadcast |
| `NodeObject.Node.SendCommit` | send.go:143-184 | a stored Commit is sent again, otherwise one is signed over the header, stored and broadcast |
| `NodeObject.Node.SendPrepareRequest` | send.go:29-58 | a second attempt after subscribing, then the request is stored, broadcast and counted |
| `NodeObject.Node.MakePrepareRequest` | send.go:19-27 | the proposal is filled from the pool unless the dynamic block time makes it wait |
| `NodeObject.Node.CheckPrepare` | check.go:7-50 | with all transactions, a request and M preparations: PreCommit or Commit |
| `NodeObject.Node.CheckPreCommit` | check.go:52-104 | with M PreCommits: the pre-block is processed once, then the own Commit follows the own PreCommit |
| `NodeObject.Node.ProcessPreBlock` | check.go:72-88 | the ledger is asked about the pre-block until it accepts it once, and the accepted one is recorded with the PreCommits counted for it |
| `NodeObject.Node.CheckCommit` | check.go:106-153 | with M Commits of the view: the block is processed, or the process dies when the ledger refuses it |
| `NodeObject.Node.CheckChangeView` | check.go:155-180 | with M ChangeViews for a later view: the node joins in and enters it |
| `NodeObject.Node.InitializeView` | dbft.go:92-160 | the reset to a later view and the replay, within the termination measure |
| `NodeObject.Node.ReceiveCached` | dbft.go:118-135 | the cached messages of the height leave the cache and are received again, each kind in an order of its own |
| `NodeObject.Node.Start` | dbft.go:75-81 | an empty cache, the first height, and a request if the node is the primary |
| `NodeObject.Node.Reset` | dbft.go:88-90 | the next height, with its cached messages replayed |
| `NodeObject.Node.OnTransaction` | dbft.go:164-188 | a missing transaction is added and taken off the list, or the removal panics |
| `NodeObject.Node.AddTransaction` | dbft.go:53-70 | the last transaction leads to the check of the block, the response and the count |
| `NodeObject.Node.OnTimeout` | dbft.go:204-246 | proposing, resending, waiting for transactions or asking for a view |
| `NodeObject.Node.OnNewTransaction` | dbft.go:197-202 | a forced timeout while subscribed |
| `NodeObject.Node.OnReceive` | dbft.go:249-317 | index, nil and height checks, caching of the future, last-seen bookkeeping, then the handler |
| `NodeObject.Node.OnPrepareRequest` | dbft.go:319-365 | which requests are ignored, refused with a view change, stored and answered |
| `NodeObject.Node.ProcessMissingTx` | dbft.go:367-384 | every proposed transaction is found or listed as missing, in order |
| `NodeObject.Node.CreateAndCheckBlock` | dbft.go:390-410 | the block or pre-block is built and checked; a bad one leads to a view change |
| `NodeObject.Node.UpdateExistingPayloads` | dbft.go:414-430 | responses to other requests are dropped, then PreCommits or Commits are verified |
| `NodeObject.Node.VerifyPreCommitPayloadsAgainstPreBlock` | dbft.go:434-451 | exactly the PreCommits of this view that do not cover the pre-block are dropped |
| `NodeObject.Node.VerifyCommitPayloadsAgainstHeader` | dbft.go:455-467 | exactly the Commits of this view that do not cover the header are dropped, if there is a header |
| `NodeObject.Node.OnPrepareResponse` | dbft.go:469-523 | which responses are ignored, refused, taken back and counted |
| `NodeObject.Node.OnChangeView` | dbft.go:525-554 | old, bound, older-than-stored and counted ChangeViews |
| `NodeObject.Node.OnPreCommit` | dbft.go:556-604 | stored first, taken back when invalid, counted when verified |
| `NodeObject.Node.OnCommit` | dbft.go:606-651 | stored first, taken back when invalid, counted when verified |
| `NodeObject.Node.OnRecoveryRequest` | dbft.go:653-671 | who answers, by index arithmetic or because it committed |
| `NodeObject.Node.OnRecoveryMessage` | dbft.go:673-737 | ChangeViews, preparations, PreCommits and Commits, each under its own view test |
| `EventLoop.Run` | internal/simulation/main.go:84-99 | the loop leaves the object, after any sequence of allowed events, in the state that the handlers compute one after the other: orderly, with one preparation per view, one Commit and one PreCommit per height, and nothing undone that it signed, saw or processed since it was started |
| `EventLoop.Deliver` | internal/simulation/main.go:87-98 | each event goes to its entry point, which does what the handler function says |
| `EventLoop.EventsKeep` | internal/simulation/main.go:87-98 | any sequence of allowed events keeps the node's invariant and undoes neither a lock nor a processed block |
| `TlaModel.Theorem` | formal-models/dbft/dbft.tla:357-381 | TypeOK, InvTwoBlocksAccepted and InvFaultNodesCount in every state of every behaviour, for every set of at least four naturals that holds 0, all fault and death sets within F, and every view |
| `TlaModel.AcksInOneView` | formal-models/dbft_antiMEV/dbft.tla:186-195 | all CommitAcks of nodes that were not bad when sending them are for one view, and M Commits back it |
| `TlaModel.AcceptsInOneView` | formal-models/dbft_antiMEV/dbft.tla:199-203 | no two nodes ever accept in different views, also when one turned bad or died in between; for both specifications |
| `TlaModel.OneCommittedView` | formal-models/dbft/dbft.tla:169-192 | at most one view ever has M Commits |
| `Merkle.NewMerkleTree` | internal/merkle/merkle_tree.go:25-43 | no tree for no hashes; else leaves in order, every level hashing the one below, parents and children linked, and depth the rounded-up binary logarithm plus one |
| `Merkle.BuildTree` | internal/merkle/merkle_tree.go:50-73 | the recursion makes a finished tree above its leaves and changes only their parents |
| `Merkle.BuildParents` | internal/merkle/merkle_tree.go:56-70 | one level above: pairs in order, an odd last node paired with itself |
| `Merkle.CountLevels` | internal/merkle/merkle_tree.go:38-40 | the walk down the left edge counts the levels |
| `Merkle.LeavesAndRoot` | internal/merkle/merkle_tree.go:75-79 | exactly the bottom nodes are leaves, exactly the top one is a root, every other node's parent is the one above it |
| `Merkle.DepthIsLogarithm` | internal/merkle/merkle_tree.go:36-40 | the number of levels d satisfies 2^(d-2) < n <= 2^(d-1) |
| `Merkle.RootDeterminesPadded` | internal/merkle/merkle_tree.go:50-73 | for an injective hash and trees of one depth: equal roots if and only if the leaves, padded at every level with its repeated last node, are equal |
| `Merkle.RootsEqualExactly` | internal/merkle/merkle_tree.go:50-73 | for any two lists: equal roots if and only if the padded leaves of the lower tree are the padded level of the same depth in the higher one |
| `Merkle.PaddedStarts` | internal/merkle/merkle_tree.go:56-70 | padding only adds leaves behind the given ones |
| `Merkle.RootDeterminesLeaves` | internal/merkle/merkle_tree.go:68-69 | for an injective hash and lists of one length: equal roots if and only if equal lists |
| `Merkle.RepeatedLastLeaf` | internal/merkle/merkle_tree.go:61-62 | an odd list and the same list with its last leaf repeated have one root, whatever the hash |
| `RecoveryPacking.CommitsRoundTrip` | internal/consensus/recovery_message.go:54-67 | Commits and PreCommits come back unchanged and in order if and only if they are of the recovery's own height and view |
| `RecoveryPacking.ChangeViewsRoundTrip` | internal/consensus/recovery_message.go:120-132 | a ChangeView keeps its sender, and its new view if and only if that is its own view plus one |
| `RecoveryPacking.RequestRoundTrip` | internal/consensus/recovery_message.go:85-99 | the request comes back unchanged if and only if it is of this epoch and this primary and its time is a 32-bit number of whole seconds |
| `RecoveryPacking.ResponsesRoundTrip` | internal/consensus/recovery_message.go:102-117 | the responses come back unchanged and in order if and only if they are of this epoch and answer the packed request |
| `RecoveryPacking.BackupPreparationsComeBack` | send.go:196-205 | the preparations that a backup packs come back unchanged from its recovery message |
| `RecoveryPacking.RecoveryMessage.AddPayload` | internal/consensus/recovery_message.go:38-71 | what each kind of payload leaves in the message |
| `RecoveryPacking.RecoveryMessage.RebuildResponses` | internal/consensus/recovery_message.go:102-117 | one response per packed sender, nothing without a preparation hash |
| `RecoveryPacking.RecoveryMessage.RebuildChangeViews` | internal/consensus/recovery_message.go:120-132 | one ChangeView per packed sender, for the packed view plus one |
| `RecoveryPacking.RecoveryMessage.RebuildPreCommits` | internal/consensus/recovery_message.go:135-144 | one PreCommit per packed sender, with the view of the recovery message |
| `RecoveryPacking.RecoveryMessage.RebuildCommits` | internal/consensus/recovery_message.go:147-156 | one Commit per packed sender, with the view of the recovery message |
| `Rtt.DriftIsBounded` | rtt.go:15-26 | after n non-negative samples 70 times the average differs from the sum of the window by at most 69 n |
| `Rtt.OneCallDrifts` | rtt.go:15-26 | one call adds at most 69 to that difference, whether or not the clamp acts |
| `Rtt.SampleIsRecorded` | rtt.go:15-26 | the recorded sample is the given one, or twice the one it replaces if that is not zero and the sample is larger; no other entry changes and the index goes round |
| `Rtt.Estimate.AddTime` | rtt.go:15-26 | the sample, limited to twice the one it replaces, enters the window, and the average moves by the truncated share |

## Left out

- NothingIsLost: a message that the call displaces by another one of its height, sender and type is dropped by the code, and excluded here.
- NoFork: for a node that signed nothing at the height the statement is false of the code; the exact condition is in EndorsedIffSigned and AgreementIffEndorsed.
- BuildTree: the slice of structs is a sequence of node objects; copying of the slice header is not modelled.
- RecoveryMessage: the slots and the packed lists are sequences; ChangeView timestamps, which packing sets to zero, and reasons are not part of a payload here.
- DriftIsBounded: durations are unbounded integers; overflow of 64-bit nanoseconds is not modelled.
- Slots: the fixed-length slices of nilable payloads are maps with absent keys for nil; reuse of their backing arrays in reset is not modelled.
- Restarts: a node that lost its memory, or a Reset to the same height, may sign twice; that a primary fed its own request back after such a restart would answer it (dbft.go:363) is outside the model.
- Relabelling: in the node model a recovery message is the list of payloads that were packed; how the sample implementation relabels them is in RecoveryPacking, and only payloads of its own view satisfy the assumption.
- The final anti-MEV block: its content comes from user code; here its header depends on the proposal alone, so agreement is about views and proposals.
- PrevHash and the content of transactions: a header is height, timestamp, nonce and transaction hashes, and a transaction is its hash.
- Timers, delays, logging and the rtt measurement inside the node: a timeout is an event that may happen at any time.
- Dynamic block time: kept as a choice in OnTimeout and Fill; the maximal block time only changes delays.
- Cryptography and gob encoding (internal/crypto, EncodeBinary, DecodeBinary): foreign libraries.
- config.go, identity.go, timer and the rest of internal/simulation: setters, interfaces and I/O; in the loop the events come as a list instead of over channels.
- Liveness: the specifications themselves say that dBFT 2.0 violates it (formal-models/dbft/dbft.tla:328-331).
- dbftCV3.tla, dbftCentralizedCV.tla and dbftMultipool.tla: no code implements them, and there nodes may leave a view after committing.
- MaxView in the TLA+ models: a bound for model checking; the theorem here needs none.
