# A verified model of two BFT engines

This project models the consensus cores of the repository's Tendermint fork and
of its HotStuff implementation, with the recovery, aggregation and test-generation
machinery around them, in Dafny. `dafny verify dfyconfig.toml` checks it.

What is proved, hardest first:

- **Tendermint.** The round state machine of `consensus/state.go`, with this fork's
  transitions: the jump from prevote-wait to precommit before its own guard, and
  timeouts compared with a stale copy of the round state. Any number of validators
  with voting power, validator sets that depend on the decided chain, faulty
  validators that sign anything, every interleaving. Single voting, justified locks
  and valid blocks, and agreement across rounds. Vote sets are part of the model,
  conflicting votes and peer claims included. Beside safety, what a node does: which vote
  it owes in each event, when its lock changes, when it decides, how each message and
  timeout moves it on, and that a proposal and two quorums make it decide, height after
  height.
- **HotStuff.** The replica core: proposals that nest through view changes, voting,
  timeouts, certificate checks, recursive commit, under the chained rules or any
  others. Uniqueness of certificates per view, view synchronisation with the signature
  cache in it, ancestry and pruning. Exactly when a replica signs a proposal, and that a
  quorum of timeouts changes the view while fewer do not, for every number of replicas. For
  the chained rules: finality of three-chains,
  and the runs in which what they commit is not final, with the exact condition.
- **Crash recovery.** The ABCI handshake over every disk a crash can leave, and the
  write order that leaves only such disks; what the handshake answers on any disk; the
  write-ahead log's framing, repair and search, on bytes.
- **Handel and Twins.** The level partitioner and the scenario generator, with exact
  set-level specifications.
- **Refinements.** Evidence pool, bitfield set, signature cache, ring buffer, running
  variance.

## How the model is laid out

| files | contents |
|---|---|
| `VotingPower`, `VoteSets`, `HeightVoteSets` | power of sets of validators; the tally of one vote set; all tallies of a height |
| `RoundStates` | the Tendermint transitions as functions on values |
| `NodeInvariant`, `NodeSteps` | what each transition keeps, and each event |
| `NodeVotes`, `NodeDecisions`, `NodeLocks`, `NodeMoves` | what each event must do: votes, decisions, the lock, the next step |
| `TendermintAgreement`, `NodeRuns` | networks, runs, and the main theorems |
| `NodeProgress` | a node decides, height after height |
| `ConsensusState` | the consensus object, field by field, refining `RoundStates` |
| `HotStuffReplica`, `HotStuffSafety` | the replica as functions; runs, and what holds along them |
| `HotStuffVoting`, `HotStuffTimeouts`, `HotStuffRunning` | when a replica signs; view changes by timeouts; when it keeps running |
| `HotStuffViews`, `HotStuffLog` | what views are entered on; the executed log |
| `HotStuffChained`, `HotStuffForks` | commit safety of the chained rules; where it fails |
| `HotStuffNode`, `BlockChain` | the replica and the block store as objects |
| `Recovery`, `CrashRecovery` | handshake and durable writes; recovery from every crash |
| `Wal`, `WalSearch` | log records, repair, search |
| `Handel`, `PartitionSizes`, `Twins` | level partitioner; scenario generator |
| `EvidencePool`, `Bitfield`, `SignatureCache`, `RingQueue`, `Welford` | refinements |

Signatures are unforgeable and hashes do not collide: the signature scheme accepts only
signatures in the log of signatures made, and a hash stands for what it was computed of.
The cache in front of the scheme is part of the model; for batches it does not always
give the scheme's answer. A panic in the source is a `halted` field or an outcome value. Protobuf encodings,
checksums, block validity, leader schedules, command queues, clocks and the network
answer through parameters. Rounds, heights and views are unbounded integers.

Where the code and the description of it differ, the model follows the code:

- The documentation of `genPartitionSizes` asks for a partition larger than `minSize`;
  the code gives a first partition of at least `minSize`, or of all nodes if there are
  fewer.
- The documentation of `QuorumSize` says 2f + 1; the code takes n - f, which is more unless
  n = 3f + 1 (`QuorumBounds`).
- For no nodes, `genPartitionSizes` lists the empty split and, because its 8-bit counters
  wrap, the splits of 256 nodes (`SizesAreExact`).
- `AdvanceView` is meant to enter a view on a certificate of the view before. It goes by
  the view field of a QC, which nobody signed, so the property fails: a QC of genesis with
  any field is accepted without signatures (`ViewsNeedNotBeBacked`). It also fails when
  every QC carries its block's view, because of the cache: the signature of an aggregate
  that was accepted once is accepted in an aggregate of any view
  (`CachedViewsNeedNotBeBacked`). It holds exactly when the view field of the certificate
  is the view of what was signed in it (`EntryCertifiesIff`, `FittingViewsAreBacked`). That
  QCs carry their block's view is enough only without the cache (`ViewsAreBacked`).
- `BatchVerify` of the cache is meant to remember a signature for a batch. It computes the
  hash of the batch and does not use it, so a signature that was accepted for one batch is
  accepted for every batch while the cache holds it (`SignatureCache.Cache.BatchVerify`,
  with the exact condition there and in `CacheDiffersIff`).
- `updateHighQC` is meant to keep the highest certificate. It compares the new block's
  view with the old certificate's own view field, so a certificate whose field is lower
  than its block's view can lower it (`HighQCCanFall`, with the exact condition in
  `HighQCFallsIff`).
- The chained rules are meant to make replicas execute the same blocks. Agreement of
  executed logs fails: the commit rule asks three certified blocks to be linked and says
  nothing of their views, and over views that leave one out two correct replicas execute
  different blocks, with every proposal well formed, every QC matching, and fetching and
  signing that work (`PicksFork`). What the rules pick is final exactly over consecutive
  views (`PickIsFinalIff`). Finality over consecutive views (`ThreeChainsAreFinal`) in turn
  needs proposals that extend their certificate's block, which the vote rule does not ask
  (`StrayForks`), and blocks that can be fetched, without which the lock is skipped
  (`BlindForks`). Logs agree when all commits were over consecutive views
  (`ChainedLogsAgree`).
- The documentation of the vote set says that every vote in `votes` has an entry in
  `votesByBlock`. One that changes to a block with a majority has none
  (`LateClaimCanMiss`), and no other (`RunFiles`); a later claim of that block then does
  not make it count (`TracksIff`).
- `repairWalFile` is meant to keep everything before the first damage. A record that
  decodes can be too long to be written again, and then the repair fails
  (`RepairCanFail`, with the exact condition in `RepairWalFile`).
- The handshake is meant to recover from a crash at any point of a commit. For the first
  block of a chain whose initial height is above 1 it panics (`LateChainStuck`, with the
  exact condition in `RecoverySyncs`).

## Model

| member | source | states |
|---|---|---|
| `TendermintAgreement.Agreement` | sourcecodes/tendermint/consensus/state.go:1939-2057 | Along every run with less than a third of the power faulty in each validator set that the decided chains lead to, the chains two correct nodes have finalized, each at any time, agree at every height both reached, in whatever rounds the blocks were committed |
| `TendermintAgreement.VotesOnce` | sourcecodes/tendermint/consensus/state.go:3371-3411 | Over every interleaving of messages, timeouts compared with a stale round state and faulty votes, a correct validator signs at most one prevote and one precommit per height and round |
| `TendermintAgreement.NodesStayGood` | sourcecodes/tendermint/consensus/state.go:962-1069 | Every reachable node state has a lock and a valid block backed by polkas at rounds not after the current one, votes signed in order for the round they were decided in, and a commit quorum behind every finalized block |
| `TendermintAgreement.NodesMoveForward` | sourcecodes/tendermint/consensus/state.go:1190-1240 | Along every run (height, round, step) never decreases lexicographically, ValidRound only grows within a height, and a lock leaves its block only if a later round up to the current one has a polka for something else |
| `TendermintAgreement.LaterPolkasAgree` | sourcecodes/tendermint/consensus/state.go:1678-1709 | Once a commit quorum for a block exists at some round, every polka of a later round of that height is for the same block; proved at the first polka that would differ |
| `TendermintAgreement.CommitsAgree` | sourcecodes/tendermint/consensus/state.go:1939-2002 | Two commit quorums of one height under the same validator set are for the same block, also across rounds |
| `TendermintAgreement.DepartureHasPolka` | sourcecodes/tendermint/consensus/state.go:1678-1709 | A correct validator that prevotes against its own earlier precommit has a polka for something else in between |
| `TendermintAgreement.RunGood` | sourcecodes/tendermint/consensus/state.go:962-1069 | Every action of every run keeps the network invariant: each node is in a good state and each logged vote of a correct validator is one that validator signed |
| `NodeRuns.NodesVoteRight` | sourcecodes/tendermint/consensus/state.go:1084-1240 | Along every run, at every step of a correct node: each vote it signs is the one it owes (below), it votes whenever it gets to prevote or precommit and its signer works, its lock changes only as it should, and it decides only a block that it holds, that is valid and applied, and that has a precommit majority |
| `NodeRuns.NodesStayOrderly` | sourcecodes/tendermint/consensus/state.go:1190-1240 | Along every run a correct node begins its heights in round 0, and at every step that waits for a timeout that timeout is pending |
| `NodeProgress.Finalizes` | sourcecodes/tendermint/consensus/state.go:2978-3368 | Progress: whatever valid block is proposed in the first round of a height, and whichever quorums prevote and precommit it, in whatever order and through whatever peers, the node signs a prevote and a precommit for it if it is a validator, decides exactly this block, and is at the start of the next height |
| `NodeProgress.FinalizesChain` | sourcecodes/tendermint/consensus/state.go:2005-2057 | For every chain of valid blocks with a quorum for each height, some sequence of events makes the node decide exactly that chain |
| `NodeProgress.PolkaLocks` | sourcecodes/tendermint/consensus/state.go:1826-1890 | On the way: once more than two thirds have prevoted the block, and not before, the node has locked it, knows it as the valid block and has precommitted it |
| `NodeVotes.HandleVotesFit` | sourcecodes/tendermint/consensus/state.go:1678-1709 | Every vote signed in an event is the right one, judged on the state the event found: a prevote is for the locked block, or without a lock for the proposal block exactly if it is complete and valid, or for nil; a precommit is for the block with a polka in its round exactly if the node has it locked or has it complete and valid, or for nil |
| `NodeVotes.VotesOnEntry` | sourcecodes/tendermint/consensus/state.go:1652-1676 | A validator whose signer works signs a prevote whenever an event takes it to prevote, and a precommit whenever one takes it to precommit |
| `NodeDecisions.HandleDecidesWell` | sourcecodes/tendermint/consensus/state.go:2005-2057 | An event decides at most one block, and only one with a precommit majority of the height that the node holds with the parts of that majority, that validates, and that was applied |
| `NodeDecisions.PartDecidesIff` | sourcecodes/tendermint/consensus/state.go:3087-3121 | While the node is committing, a part that completes a block decides h exactly if h is that block, has the precommit majority of the commit round with those parts, validates, and is applied |
| `NodeDecisions.VoteDecidesIff` | sourcecodes/tendermint/consensus/state.go:3329-3361 | A precommit that arrives after the node precommitted in its round decides h exactly if the round then has a majority for h and the node has it, locked or as proposal block, and it validates and is applied |
| `NodeDecisions.MajorityCommits` | sourcecodes/tendermint/consensus/state.go:1939-2002 | A precommit majority for a block takes the node to commit, from whatever step: it decides the block, or waits for it with its parts header set |
| `NodeLocks.HandleLocks` | sourcecodes/tendermint/consensus/state.go:3252-3274 | The lock is exact: a polka for something else in a later round releases it, precommitting locks the block of the polka if the node has it, keeps the lock without a polka and unlocks otherwise, and nothing else changes it while the height lasts |
| `NodeLocks.PrecommitFetches` | sourcecodes/tendermint/consensus/state.go:1866-1890 | Precommitting on a polka for a block that the node lacks makes it ask for the parts of that block, and in every other case leaves the proposal alone |
| `NodeLocks.PolkaNoted` | sourcecodes/tendermint/consensus/state.go:3276-3303 | A polka of the current round makes the proposal block the valid one if it is for it; otherwise the node drops its block and asks for the right parts |
| `NodeLocks.PartNoted` | sourcecodes/tendermint/consensus/state.go:3087-3121 | A part that completes a block makes it the valid one exactly if the round has a polka for it and the valid block is older |
| `NodeMoves.TimeoutMoves` | sourcecodes/tendermint/consensus/state.go:1190-1240 | Each relevant timeout of the own round takes the node from its step to the next one, and the last one to the next round, without a panic |
| `NodeMoves.StaleTimeout` | sourcecodes/tendermint/consensus/state.go:1190-1198 | A timeout that is old for the copied round state does nothing |
| `NodeMoves.ProposalTakenIff` | sourcecodes/tendermint/consensus/state.go:2978-3017 | A proposal changes the state exactly if it is the first, for the current height and round, with a proof-of-lock round before its own, and signed by the proposer; it then sets the parts header only where none is set |
| `NodeMoves.PartMoves` | sourcecodes/tendermint/consensus/state.go:3087-3121 | A part that completes the proposal takes a node that has not prevoted to prevote, and to precommit if there is a polka |
| `NodeMoves.PrevoteMoves` | sourcecodes/tendermint/consensus/state.go:3306-3326 | Prevotes of two thirds take the node to a later round or past prevote in its own, a polka to precommit, and the polka that the proposal refers to to prevote |
| `NodeMoves.PrecommitVoteMoves` | sourcecodes/tendermint/consensus/state.go:3329-3361 | Precommits of two thirds that are not for one block take the node to their round and set the timeout for the next |
| `NodeMoves.TxsMove` | sourcecodes/tendermint/consensus/state.go:1248-1272 | Transactions that a node waits for get it to propose in the first round: at once, or with a timeout when the height begins |
| `NodeMoves.LateCommitMoves` | sourcecodes/tendermint/consensus/state.go:3186-3213 | The last missing precommit of the previous height begins the height if the commit timeout is to be skipped; any other is only recorded |
| `NodeMoves.FullCommitMoves` | sourcecodes/tendermint/consensus/state.go:3342-3361 | When all precommits are in as the node decides, and the commit timeout is to be skipped, the next height begins at once |
| `NodeMoves.ClaimReaches` | sourcecodes/tendermint/consensus/types/height_vote_set.go:185-200 | A peer's claim reaches the vote set of its round and kind, and no other |
| `NodeMoves.HandleOrderly` | sourcecodes/tendermint/consensus/state.go:1190-1240 | Every event leaves each step that waits for a timeout with that timeout pending |
| `NodeSteps.HandleGood` | sourcecodes/tendermint/consensus/state.go:1084-1240 | Handling any possible event keeps the node invariant and moves the node forward |
| `NodeSteps.HandleTimeoutGood` | sourcecodes/tendermint/consensus/state.go:1190-1240 | A timeout, compared with any earlier copy of the round state, keeps the invariant and never moves the node back |
| `NodeSteps.HandleVoteGood` | sourcecodes/tendermint/consensus/state.go:3175-3368 | Adding any vote of the signed log, with the unlocking, polka and round changes it causes, keeps the invariant and moves the node forward |
| `NodeSteps.HandleLastCommitVoteGood` | sourcecodes/tendermint/consensus/state.go:3186-3213 | A late precommit of the previous height keeps the invariant |
| `NodeSteps.HandlePartGood` | sourcecodes/tendermint/consensus/state.go:3022-3121 | A block part, complete or not, keeps the invariant and moves the node forward |
| `NodeSteps.HandleCompleteProposalGood` | sourcecodes/tendermint/consensus/state.go:3087-3121 | A completed proposal updates ValidBlock only with a polka of the current round, and keeps the invariant through the prevote, precommit or commit that follows |
| `NodeSteps.ReleaseLockGood` | sourcecodes/tendermint/consensus/state.go:3252-3274 | Unlocking on a polka keeps every earlier precommit either locked or released by that polka |
| `NodeSteps.NotePolkaGood` | sourcecodes/tendermint/consensus/state.go:3276-3303 | A polka for the proposal block of the current round makes it the valid block, with that polka behind it |
| `NodeSteps.AfterPrevoteGood` | sourcecodes/tendermint/consensus/state.go:3306-3326 | The round skip, precommit or wait after a prevote keeps the invariant |
| `NodeSteps.AfterPrecommitGood` | sourcecodes/tendermint/consensus/state.go:3329-3361 | The new round, precommit and commit after a precommit majority keep the invariant |
| `NodeSteps.HaltedStays` | sourcecodes/tendermint/consensus/state.go:977-990 | A node that panicked takes no further step |
| `NodeInvariant.EnterPrevoteGood` | sourcecodes/tendermint/consensus/state.go:1652-1709 | Entering prevote signs one prevote, for the locked block if there is one, and never against a kept lock without a polka to show |
| `NodeInvariant.EnterPrecommitGood` | sourcecodes/tendermint/consensus/state.go:1758-1891 | Entering precommit signs one precommit; a block is precommitted only with a polka of that round and is locked at it |
| `NodeInvariant.EnterPrevoteWaitGood` | sourcecodes/tendermint/consensus/state.go:1712-1750 | The jump to precommit that comes before the guard of enterPrevoteWait keeps the invariant and single voting |
| `NodeInvariant.EnterPrecommitWaitGood` | sourcecodes/tendermint/consensus/state.go:1894-1936 | Waiting for precommits schedules a timeout and keeps the invariant |
| `NodeInvariant.EnterNewRoundGood` | sourcecodes/tendermint/consensus/state.go:1287-1357 | A new round keeps locks and votes, and never goes back to an earlier round |
| `NodeInvariant.EnterProposeGood` | sourcecodes/tendermint/consensus/state.go:1381-1483 | Entering propose, and the prevote it may lead to, keep the invariant |
| `NodeInvariant.EnterCommitGood` | sourcecodes/tendermint/consensus/state.go:1939-2002 | Committing finalizes a block only with a precommit quorum for it |
| `NodeInvariant.TryFinalizeGood` | sourcecodes/tendermint/consensus/state.go:2005-2057 | Finalizing moves to the next height with the block appended to the chain and its commit quorum recorded |
| `NodeInvariant.NextHeightGood` | sourcecodes/tendermint/consensus/state.go:791-933 | The next height starts without lock, valid block or votes, and keeps everything known of earlier heights |
| `NodeInvariant.SignKeeps` | sourcecodes/tendermint/consensus/state.go:3371-3411 | Signing a vote for the current round at a step not reached before keeps votes ordered and justified |
| `ConsensusStates.ConsensusState.Receive` | sourcecodes/tendermint/consensus/state.go:962-1069 | One turn of the receive routine on the object performs the transition on values and keeps the node invariant |
| `ConsensusStates.ConsensusState.DoHandleTimeout` | sourcecodes/tendermint/consensus/state.go:1190-1240 | The timeout is compared with the copied round state; what it starts is applied to the current one |
| `ConsensusStates.ConsensusState.DoEnterNewRound` | sourcecodes/tendermint/consensus/state.go:1287-1357 | Field updates of enterNewRound |
| `ConsensusStates.ConsensusState.DoEnterPropose` | sourcecodes/tendermint/consensus/state.go:1381-1483 | Field updates of enterPropose, the step being written on exit |
| `ConsensusStates.ConsensusState.DoEnterPrevote` | sourcecodes/tendermint/consensus/state.go:1652-1676 | The vote is signed before round and step are written |
| `ConsensusStates.ConsensusState.DoPrevote` | sourcecodes/tendermint/consensus/state.go:1678-1709 | The prevote is for the locked block, else a valid proposal block, else nil, as `NodeVotes.HandleVotesFit` and `VotesOnEntry` say of the whole event |
| `ConsensusStates.ConsensusState.DoEnterPrevoteWait` | sourcecodes/tendermint/consensus/state.go:1712-1750 | All prevotes without a majority lead to precommit first; the guard comes after |
| `ConsensusStates.ConsensusState.DoEnterPrecommit` | sourcecodes/tendermint/consensus/state.go:1758-1891 | Lock, relock, unlock or fetch, the signature, and then round and step |
| `ConsensusStates.ConsensusState.LockOrFetch` | sourcecodes/tendermint/consensus/state.go:1826-1890 | Relock, lock a valid proposal block, or unlock and ask for the parts |
| `ConsensusStates.ConsensusState.DoEnterPrecommitWait` | sourcecodes/tendermint/consensus/state.go:1894-1936 | Field updates of enterPrecommitWait |
| `ConsensusStates.ConsensusState.DoEnterCommit` | sourcecodes/tendermint/consensus/state.go:1939-2002 | Field updates of enterCommit, then the attempt to finalize |
| `ConsensusStates.ConsensusState.DoTryFinalizeCommit` | sourcecodes/tendermint/consensus/state.go:2005-2030 | Finalizes only a block with a precommit majority that is held completely; `NodeDecisions.HandleDecidesWell`, `PartDecidesIff` and `NodeProgress.Finalizes` say when, of whole events |
| `ConsensusStates.ConsensusState.UpdateToState` | sourcecodes/tendermint/consensus/state.go:791-933 | Height, chain, vote sets and last commit after a block; everything of the round is reset |
| `ConsensusStates.ConsensusState.DoSetProposal` | sourcecodes/tendermint/consensus/state.go:2978-3017 | A proposal is taken once, for the current height and round, with a proof-of-lock round below its own and the proposer's signature |
| `ConsensusStates.ConsensusState.DoHandlePart` | sourcecodes/tendermint/consensus/state.go:3022-3082 | A part of the current height may complete the proposal block |
| `ConsensusStates.ConsensusState.DoHandleCompleteProposal` | sourcecodes/tendermint/consensus/state.go:3087-3121 | Valid block, prevote, precommit or commit after the block is complete |
| `ConsensusStates.ConsensusState.DoHandleVote` | sourcecodes/tendermint/consensus/state.go:3175-3368 | Whole effect of a vote on the fields, including unlock and valid block |
| `ConsensusStates.ConsensusState.DoHandleTxsAvailable` | sourcecodes/tendermint/consensus/state.go:1248-1272 | Round 0 only: a timeout before the round, the proposal in it |
| `ConsensusStates.ConsensusState.PolInfo` | sourcecodes/tendermint/consensus/types/height_vote_set.go:153-164 | The downward loop finds the last round with a prevote majority, or -1 |
| `VoteSets.TallyIsExact` | sourcecodes/tendermint/types/vote_set.go:145-304 | After any sequence of votes, well signed or not, and peers' claims of a majority, the any-majority counts each voter once, a reported majority is genuine, and without equivocation it is reported exactly when it exists |
| `VoteSets.AddVoteKeepsValid` | sourcecodes/tendermint/types/vote_set.go:156-304 | Sums always equal the power of the distinct voters, and a quorum is always noticed |
| `VoteSets.AddVoteGrows` | sourcecodes/tendermint/types/vote_set.go:233-304 | The first majority stays, no counted vote is lost, and only the added vote is new |
| `VoteSets.MajorityIsSigned` | sourcecodes/tendermint/types/vote_set.go:449-459 | TwoThirdsMajority is backed by signatures of more than two thirds of the power |
| `VoteSets.SetPeerMaj23Keeps` | sourcecodes/tendermint/types/vote_set.go:311-344 | A peer's claim changes no count |
| `VoteSets.ClaimedBlockIsTracked` | sourcecodes/tendermint/types/vote_set.go:256-344 | Whatever was offered before a peer's first claim: if it is of a block that has no majority yet, every validator that votes for the block from then on is counted for it, also against its earlier vote; and in any case a majority of those votes does not go unnoticed |
| `VoteSets.TracksIff` | sourcecodes/tendermint/types/vote_set.go:216-304 | All votes for the claimed block from then on are counted for it, whatever else is offered, exactly when the votes recorded for it before the claim were counted for it |
| `VoteSets.LateClaimCanMiss` | sourcecodes/tendermint/types/vote_set.go:245-275 | They need not be: a run in which a conflicting vote for a block that has its majority is recorded for it but not counted |
| `VoteSets.RunFiles` | sourcecodes/tendermint/types/vote_set.go:49-50 | After any votes and claims, every vote recorded for a block is counted for it, or the block is the one that has its majority |
| `VoteSets.CommitHasMajority` | sourcecodes/tendermint/types/vote_set.go:612-636 | After any votes and claims, the commit made of a vote set with a majority is signed for the block by more than two thirds of the power, although votes may have changed |
| `VoteSets.OneClaimEach` | sourcecodes/tendermint/types/vote_set.go:311-344 | Only a peer's first claim counts: later ones, of whatever block and after whatever votes, change nothing |
| `HeightVoteSets.AddVoteAtKeeps` | sourcecodes/tendermint/consensus/types/height_vote_set.go:117-137 | Votes of known rounds and of two catch-up rounds per peer keep all tallies exact |
| `HeightVoteSets.SetRoundKeeps` | sourcecodes/tendermint/consensus/types/height_vote_set.go:86-113 | Adding rounds keeps every tally exact |
| `HeightVoteSets.ClaimMaj23Keeps` | sourcecodes/tendermint/consensus/types/height_vote_set.go:185-200 | A claim for any round keeps all tallies |
| `HeightVoteSets.SeenMajorityIsSigned` | sourcecodes/tendermint/consensus/types/height_vote_set.go:139-149 | A majority seen in any round is one the validators signed |
| `HeightVoteSets.RoundsTally` | sourcecodes/tendermint/consensus/types/height_vote_set.go:86-200 | After any sequence of votes, claims and round changes, the vote set of each round and kind is that of the votes and claims offered to it, in order |
| `HeightVoteSets.RoundMajorityIff` | sourcecodes/tendermint/consensus/types/height_vote_set.go:117-149 | So a majority of a round is seen exactly when it is there among the votes offered to it, unless a validator equivocates |
| `HeightVoteSets.RoundCountsIff` | sourcecodes/tendermint/consensus/types/height_vote_set.go:117-149 | And two thirds, or all, of the power has voted in a round exactly when the distinct voters have it |
| `HeightVoteSets.TwoCatchUps` | sourcecodes/tendermint/consensus/types/height_vote_set.go:117-137 | A peer makes the node track two rounds it does not track yet, and no third |
| `HeightVoteSets.PolRoundReaches` | sourcecodes/tendermint/consensus/types/height_vote_set.go:153-164 | POLInfo is not below any round with a prevote majority |
| `HeightVoteSets.PolRoundIs` | sourcecodes/tendermint/consensus/types/height_vote_set.go:153-164 | It is the last such round, and -1 exactly when there is none |
| `NodeInvariant.PolkaIsLatest` | sourcecodes/tendermint/consensus/state.go:1810-1815 | The precommit panic on a POLInfo round below the current one cannot be reached |
| `VotingPower.HonestOverlap` | sourcecodes/tendermint/types/vote_set.go:283-297 | Two majorities share a validator outside any minority of less than a third |
| `HotStuffSafety.CertificatesAreUnique` | sourcecodes/hotstuff/crypto/crypto.go:107-120 | For every n with at most NumFaulty(n) faulty replicas, along every run two certificates that VerifyQuorumCert accepts, each at any time and any correct replica, and whose blocks have the same view are for the same block |
| `HotStuffSafety.VotesOncePerView` | sourcecodes/hotstuff/consensus/consensus.go:257-268 | A replica signs at most one block per view, also when a proposal is handled inside another |
| `HotStuffSafety.ViewsAdvance` | sourcecodes/hotstuff/synchronizer/synchronizer.go:301-401 | Along every run, with the signature cache in it, views and last vote never fall, the highest TC changes only to one of a later view, and a timeout sent in a view is remembered until the view is left; the current view was entered on a TC that a quorum signed for the view before, on a certified block's QC whose view field is the view before, or on an aggregate whose view field is the view before and whose signature is a quorum's on timeouts of one view, its own if it was the scheme that accepted them; highQC is of an earlier view; and a vote is above every view voted or timed out in |
| `HotStuffSafety.HandleOk` | sourcecodes/hotstuff/synchronizer/synchronizer.go:165-401 | Every event keeps a replica's store, vote order and entry certificate, and never votes in a view it sent a timeout for; what verifies may rest on signatures made in the same step |
| `HotStuffSafety.OnProposeOk` | sourcecodes/hotstuff/consensus/consensus.go:200-289 | A proposal, with the commit and the view change it causes, keeps votes climbing |
| `HotStuffSafety.AdvanceViewOk` | sourcecodes/hotstuff/synchronizer/synchronizer.go:301-401 | A sync info moves the view only on verified certificates, and the proposal it may cause keeps votes climbing |
| `HotStuffSafety.OnRemoteTimeoutOk` | sourcecodes/hotstuff/synchronizer/synchronizer.go:223-283 | Timeouts, collected to a certificate or not, keep the replica's invariant |
| `HotStuffSafety.OnLocalTimeoutOk` | sourcecodes/hotstuff/synchronizer/synchronizer.go:165-202 | A local timeout stops voting in its view before the timeout is sent, and the own timeout may complete a quorum at once |
| `HotStuffVoting.OnlyLeadersBlocks` | sourcecodes/hotstuff/consensus/consensus.go:200-289 | Along every run, a correct replica has voted for a block only if the leader of the block's view proposed it, in a proposal that reached the replica or as the replica itself; and it stores the block and the one that the block's certificate is for |
| `HotStuffVoting.SignsIff` | sourcecodes/hotstuff/consensus/consensus.go:200-289 | For every state and proposal, a replica that is past the view of the block's certificate, or does not lead the one after it, signs the block exactly when the aggregate, if used, vouches for the certificate, the certificate verifies, the proposer leads the block's view, the vote rule passes it, the command is accepted, its view is above the last vote, and signing works; each judged on the state before |
| `HotStuffRunning.LaterSignsIff` | sourcecodes/hotstuff/consensus/consensus.go:200-289 | For a block of a view later than the one its certificate leads to, the same of every replica, also of one that this certificate takes to a view where it first proposes and signs a block of its own |
| `HotStuffVoting.RefusedKeeps` | sourcecodes/hotstuff/consensus/consensus.go:200-255 | A proposal that fails one of these checks changes nothing but what was looked up |
| `HotStuffVoting.LeaderProposes` | sourcecodes/hotstuff/consensus/consensus.go:140-198 | On a verified certificate of its view or a later one, the leader of the next view enters it, proposes there the block that extends what is certified and carries the certificate, stores it, and signs it if its own checks pass |
| `HotStuffVoting.StartProposes` | sourcecodes/hotstuff/synchronizer/synchronizer.go:131-143 | The first leader, told to start, proposes a block on genesis in view 1, stores it and signs it |
| `HotStuffVoting.IdleEvents` | sourcecodes/hotstuff/synchronizer/synchronizer.go:131-143 | Starting after the first view, and a local timeout for another view, change nothing |
| `HotStuffTimeouts.QuorumTimeoutsChangeView` | sourcecodes/hotstuff/synchronizer/synchronizer.go:223-283 | Progress, for every number of replicas: once timeouts of a view from a quorum of senders are in, in whatever order and with whatever repeats, and combine to a signature that verifies, the replica enters the next view, to lead there or not; the entry is their TC, which is its highest, or with aggregates the aggregate of the QCs they carried |
| `HotStuffTimeouts.FewTimeoutsStay` | sourcecodes/hotstuff/synchronizer/synchronizer.go:223-283 | Timeouts of fewer senders leave it in its view, holding exactly the first timeout of each sender |
| `HotStuffTimeouts.TimesOut` | sourcecodes/hotstuff/synchronizer/synchronizer.go:165-202 | A local timeout signs the view and sends it, stops voting in the view, and is remembered until the view is left |
| `HotStuffTimeouts.ResendsOnly` | sourcecodes/hotstuff/synchronizer/synchronizer.go:165-173 | Along every run, once a correct replica has timed out in a view, further local timeouts there send it again and sign nothing |
| `HotStuffTimeouts.OldTimeoutsDropped` | sourcecodes/hotstuff/synchronizer/synchronizer.go:225-232 | A timeout event drops what was kept of views before the one it found the replica in |
| `HotStuffRunning.RunsIff` | sourcecodes/hotstuff/synchronizer/synchronizer.go:301-401 | A sync info leaves the replica running exactly when the certificates looked at carry a signature where one is dereferenced, and the replica is not to lead the next view with no QC to propose on |
| `HotStuffRunning.ProposalRunsIff` | sourcecodes/hotstuff/crypto/crypto.go:107-156 | And a proposal exactly when its aggregate, if used, and then the certificate carry one |
| `HotStuffSafety.VerifyQCSound` | sourcecodes/hotstuff/crypto/crypto.go:107-120 | An accepted QC is of the genesis block or of a block a quorum signed |
| `HotStuffSafety.VerifyTCSound` | sourcecodes/hotstuff/crypto/crypto.go:123-132 | An accepted TC is of view 0 or of a view a quorum signed |
| `HotStuffSafety.VerifyAggSound` | sourcecodes/hotstuff/crypto/crypto.go:135-156 | An accepted aggregate carries a signature of a quorum of the configuration on timeouts of one view, and the QC answered is certified; if the scheme accepts the batch, each signed a timeout of the aggregate's view with the QC the aggregate holds for it |
| `HotStuffViews.ViewsAreBacked` | sourcecodes/hotstuff/synchronizer/synchronizer.go:301-401 | Along every run without the signature cache whose QCs carry the view of their block, a replica is past view 1 only if a quorum signed a block of the view before, or that view, or timeouts of it |
| `HotStuffViews.FittingViewsAreBacked` | sourcecodes/hotstuff/synchronizer/synchronizer.go:301-401 | Along every run, cache or not, the same holds of each view entered on a certificate whose view field is the view of what was signed in it |
| `HotStuffViews.CachedViewsNeedNotBeBacked` | sourcecodes/hotstuff/crypto/cache.go:107-133 | With the cache it fails although every QC carries its block's view: for every w from 2 on, a run in which the signature of an accepted aggregate, sent again in an aggregate of view w, takes the replica to view w + 1 with nothing signed for w |
| `HotStuffViews.CacheDiffersIff` | sourcecodes/hotstuff/crypto/cache.go:107-133 | The cache changes the answer of VerifyAggregateQC exactly when it holds the batch key of a quorum-sized signature, the scheme refuses the batch, and the highest QC verifies |
| `HotStuffViews.EntryCertifiesIff` | sourcecodes/hotstuff/synchronizer/synchronizer.go:301-401 | Along every run, with the cache in it, the certificate on which a replica entered its view is one of the view before exactly when its view field is the view of what was signed in it: it is neither a QC of a block of another view nor an aggregate with a signature on timeouts of another view |
| `HotStuffViews.ViewsNeedNotBeBacked` | sourcecodes/hotstuff/crypto/crypto.go:107-111 | Without the condition it fails: in a run of one step in which nobody signs anything, the genesis QC with any view field v takes a replica that is not the leader of view v + 1 there |
| `HotStuffViews.OwnTimeoutCounts` | sourcecodes/hotstuff/synchronizer/synchronizer.go:165-202 | A run in which a replica's own timeout completes the quorum in the step that signs it |
| `HotStuffViews.HighQCFallsIff` | sourcecodes/hotstuff/synchronizer/synchronizer.go:406-417 | An update lowers highQC exactly when the certified block is newer than the old view field and the new view field is not |
| `HotStuffViews.HighQCCanFall` | sourcecodes/hotstuff/synchronizer/synchronizer.go:406-417 | For all views f < v < w a run from the start, with verified certificates of blocks of views v and w, takes highQC from v down to f |
| `HotStuffViews.HighQCsClimb` | sourcecodes/hotstuff/synchronizer/synchronizer.go:406-417 | Along every run whose QCs carry the view of their block, no event lowers highQC |
| `HotStuffChained.ThreeChainsAreFinal` | sourcecodes/hotstuff/consensus/chainedhotstuff/chainedhotstuff.go:46-99 | Along every run of the chained rules with at most NumFaulty(n) faulty replicas, well-formed proposals, and fetching and signing that work: once a block is certified whose certificates lead back through three consecutive views, every block ever certified in the view of the third or later extends the third |
| `HotStuffForks.PickIsFinalIff` | sourcecodes/hotstuff/consensus/chainedhotstuff/chainedhotstuff.go:46-77 | For all views v3, v2, v1 of a linked certified chain, which is what CommitRule picks: its head is final in every such run exactly when it is genesis or v2 = v3 + 1 and v1 = v2 + 1 (views that do not climb occur in none) |
| `HotStuffForks.PicksFork` | sourcecodes/hotstuff/consensus/chainedhotstuff/chainedhotstuff.go:46-99 | Agreement of executed logs fails: for all v3 < v2 < v1 and every u between v3 and v1 other than v2, a run that meets every hypothesis in which one of two correct replicas executes the head of a linked chain of these views and then both execute a block of view u beside it; neither log is a prefix of the other and one is no path |
| `HotStuffForks.StrayForks` | sourcecodes/hotstuff/consensus/chainedhotstuff/chainedhotstuff.go:80-99 | Without the demand that a proposal extend its certificate's block: for all views, a run in which replicas accept a block that carries a three-chain's certificate but has genesis as its parent; it is certified beside the head that accepting it executes; every other step meets the hypotheses |
| `HotStuffForks.BlindForks` | sourcecodes/hotstuff/consensus/chainedhotstuff/chainedhotstuff.go:46-65 | Without fetching that works: for all views, a run of four replicas, one of them faulty, in which one replica at one step cannot fetch one block and so votes without locking; a block beside the head of a three-chain, which another replica executed, is certified; every other step meets the hypotheses |
| `HotStuffForks.AcceptIs` | sourcecodes/hotstuff/consensus/consensus.go:200-289 | What accepting a proposal makes of lock, executed blocks and last vote when every block can be fetched, in one function of them and the block |
| `HotStuffChained.ChainedLogsAgree` | sourcecodes/hotstuff/consensus/chainedhotstuff/chainedhotstuff.go:46-77 | Along every such run whose commits were of three consecutive views, each replica has executed the path from genesis to its last block, and of two replicas' logs one is a prefix of the other |
| `HotStuffChained.FinalsAreOneBranch` | sourcecodes/hotstuff/consensus/chainedhotstuff/chainedhotstuff.go:46-77 | All blocks that are final in this sense, and genesis, lie on one branch |
| `HotStuffChained.PickIsLinked` | sourcecodes/hotstuff/consensus/chainedhotstuff/chainedhotstuff.go:46-77 | What CommitRule picks for a block with a good certificate heads a certified chain that certificates and parents link, of whatever views |
| `HotStuffChained.HandleChained` | sourcecodes/hotstuff/consensus/chainedhotstuff/chainedhotstuff.go:46-99 | Every event keeps the voting invariant: votes are for well-formed blocks with good certificates, the lock is never below what a vote locks, and each later vote respected a lock at least as high |
| `HotStuffChained.CommitRuleLocks` | sourcecodes/hotstuff/consensus/chainedhotstuff/chainedhotstuff.go:46-77 | When blocks can be fetched, accepting a block moves the lock exactly to the block two certificates back if that is higher, and picks exactly the block three certificates back to which parents link |
| `HotStuffChained.VoteRuleSound` | sourcecodes/hotstuff/consensus/chainedhotstuff/chainedhotstuff.go:80-99 | A block passes only if its certificate's block is above the lock or it extends the lock |
| `HotStuffChained.VoteRuleIff` | sourcecodes/hotstuff/consensus/chainedhotstuff/chainedhotstuff.go:80-99 | And exactly then, when blocks can be fetched |
| `HotStuffBlocks.QuorumsShareHonest` | sourcecodes/hotstuff/helper.go:4-11 | Two quorums of any configuration share a replica that is not among NumFaulty(n) faulty ones |
| `HotStuffBlocks.QuorumBounds` | sourcecodes/hotstuff/helper.go:4-11 | Bounds of NumFaulty and QuorumSize for every n |
| `HotStuffReplicas.CheckFrame` | sourcecodes/hotstuff/synchronizer/synchronizer.go:301-350 | Checking certificates changes no vote, view or execution, and yields a view not below the QC it passes on, which bounds the nesting of proposals |
| `HotStuffLog.ExecutedLogsAgree` | sourcecodes/hotstuff/consensus/consensus.go:291-330 | Whatever the rules: along every run whose commits are all of blocks of one branch, each replica has executed exactly the parent-linked path from genesis to its last block, and of what two replicas have executed, each at any time, one is a prefix of the other |
| `HotStuffLog.CommitKeepsLogIff` | sourcecodes/hotstuff/consensus/consensus.go:312-330 | A successful commit of a newer block keeps the executed log a path exactly when the block extends the last executed one |
| `HotStuffLog.CommitRuns` | sourcecodes/hotstuff/consensus/consensus.go:312-330 | A commit executes exactly the blocks back to the last executed view, oldest first; one that misses an ancestor executes nothing |
| `HotStuffLog.LineageOnce` | sourcecodes/hotstuff/consensus/consensus.go:312-330 | No block occurs twice on a path |
| `HotStuffNodes.Node.Handle` | sourcecodes/hotstuff/consensus/consensus.go:200-289 | The object does what the functions say for every event, with the replica's invariant kept |
| `HotStuffNodes.Node.OnPropose` | sourcecodes/hotstuff/consensus/consensus.go:200-289 | Whole new state of OnPropose, including the nested view change before the vote; `HotStuffVoting.SignsIff` and `HotStuffRunning.LaterSignsIff` say when it signs, and `RefusedKeeps` when nothing changes |
| `HotStuffNodes.Node.Propose` | sourcecodes/hotstuff/consensus/consensus.go:140-198 | A new block on the sync info's QC is stored and handled as a proposal |
| `HotStuffNodes.Node.CommitInner` | sourcecodes/hotstuff/consensus/consensus.go:312-330 | Recursion to the missing ancestors, execution on the way back |
| `HotStuffNodes.Node.CommitRule` | sourcecodes/hotstuff/consensus/chainedhotstuff/chainedhotstuff.go:46-77 | Whole new state of the chained commit rule, the lock being moved before the third block is looked up |
| `HotStuffNodes.Node.VoteRule` | sourcecodes/hotstuff/consensus/chainedhotstuff/chainedhotstuff.go:80-99 | The answer of the chained vote rule, with the blocks it fetched |
| `HotStuffNodes.Node.Extends` | sourcecodes/hotstuff/blockchain/blockchain.go:132-139 | The walking loop answers and fetches as the recursive walk does |
| `HotStuffNodes.Node.AdvanceView` | sourcecodes/hotstuff/synchronizer/synchronizer.go:301-401 | Whole new state of AdvanceView |
| `HotStuffNodes.Node.OnRemoteTimeout` | sourcecodes/hotstuff/synchronizer/synchronizer.go:223-283 | Verify, advance, collect, and clean up after the view at entry; `HotStuffTimeouts.QuorumTimeoutsChangeView` and `FewTimeoutsStay` say what sequences of timeouts do |
| `HotStuffNodes.Node.OnLocalTimeout` | sourcecodes/hotstuff/synchronizer/synchronizer.go:165-202 | Resend, or sign once and stop voting |
| `HotStuffNodes.Node.Cleanup` | sourcecodes/hotstuff/synchronizer/synchronizer.go:225-232 | The deleting loop keeps exactly the timeouts of views not before the given one |
| `HotStuffNodes.Node.UpdateHighQC` | sourcecodes/hotstuff/synchronizer/synchronizer.go:406-417 | Compares the block's view with the old certificate's view field |
| `HotStuffNodes.Node.VerifyQuorumCert` | sourcecodes/hotstuff/crypto/crypto.go:107-120 | Genesis, quorum size, block and signature checks |
| `HotStuffNodes.Node.VerifyTimeoutCert` | sourcecodes/hotstuff/crypto/crypto.go:123-132 | View 0, quorum size and signature checks |
| `HotStuffNodes.Node.VerifyAggregateQC` | sourcecodes/hotstuff/crypto/crypto.go:135-156 | The loop over the QCs builds the messages and the highest QC; the answer and the new state are those of VerifyAgg for every visiting order |
| `HotStuffNodes.Node.BatchVerify` | sourcecodes/hotstuff/crypto/cache.go:107-133 | The cached answer, and the signature remembered |
| `HotStuffNodes.AggAnswerSound` | sourcecodes/hotstuff/crypto/crypto.go:135-156 | Whatever the order of the walk, the answer is a QC of the largest view, its block is certified, and a quorum made the signature on timeouts of one view; if the scheme accepts the batch or there is no cache, on timeouts of the aggregate's view with the QCs it holds |
| `HotStuffNodes.HighestOfVisited` | sourcecodes/hotstuff/crypto/crypto.go:135-156 | The walk over the QCs ends with one of the largest view it met, the first of that view, or with the empty one if it met none |
| `HotStuffNodes.Node.WalkQCs` | sourcecodes/hotstuff/crypto/crypto.go:135-147 | The loop computes that QC and the signed messages |
| `HotStuffNodes.CreateQuorumCert` | sourcecodes/hotstuff/crypto/crypto.go:45-59 | A certificate made of votes carries its block's view and hash |
| `HotStuffNodes.CreatedCertVerifies` | sourcecodes/hotstuff/crypto/crypto.go:45-59 | A certificate of a quorum's good signatures is accepted wherever its block can be had |
| `HotStuffNodes.Node.Get` | sourcecodes/hotstuff/blockchain/blockchain.go:88-129 | The local block, or a fetched one that is then stored |
| `BlockChains.PruneIsExact` | sourcecodes/hotstuff/blockchain/blockchain.go:141-176 | With one stored block per view and the committed ancestors stored, pruning returns exactly the stored blocks of the newly pruned views that are off the committed chain, each once, highest first |
| `BlockChains.ExtendsIsAncestry` | sourcecodes/hotstuff/blockchain/blockchain.go:132-139 | When parent views fall, Extends holds exactly of the block itself and its ancestors |
| `BlockChains.BlockChain.ExtendsBranch` | sourcecodes/hotstuff/blockchain/blockchain.go:132-139 | True exactly when the walk over available blocks reaches the target; exact ancestry when all are available |
| `BlockChains.BlockChain.PruneToHeight` | sourcecodes/hotstuff/blockchain/blockchain.go:141-176 | The returned list and the new index, from the walk over committed blocks, whenever that walk ends |
| `BlockChains.WalkEnds` | sourcecodes/hotstuff/blockchain/blockchain.go:141-158 | The walk ends for every store whose parents are in lower views |
| `BlockChains.BlockChain.Store` | sourcecodes/hotstuff/blockchain/blockchain.go:60-71 | Files a block by hash and view; one block per view is kept if the view is free |
| `BlockChains.BlockChain.Get` | sourcecodes/hotstuff/blockchain/blockchain.go:88-129 | Answers exactly what is available, and files what it fetched under its hash and as the block of its view |
| `CrashRecovery.RecoverySyncs` | sourcecodes/tendermint/consensus/replay.go:359-490 | From every disk a crash can leave, that of a node that has stored nothing included, the handshake reports pruned blocks exactly when they are, panics exactly for the first block of a chain that starts above height 1, and otherwise ends with application and state at the store height, every height committed by the real application once, in order |
| `CrashRecovery.SyncedMeansInSync` | sourcecodes/tendermint/consensus/replay.go:359-490 | Whatever is on the disk: if a handshake over a store with blocks succeeds, application and state are at the store's height with one hash, which is the answer, and a last block that was replayed is the one that follows the state |
| `CrashRecovery.RefusedIff` | sourcecodes/tendermint/consensus/replay.go:359-383 | Whatever is on the disk: each error or panic on the three heights is given exactly for the heights it is for, the first that applies giving the reason, and then nothing is written |
| `CrashRecovery.LastBlockOutcome` | sourcecodes/tendermint/consensus/replay.go:403-432 | With only the last block to replay: missing responses, a missing block and a block that does not fit the state are reported exactly when they are there, and otherwise it succeeds |
| `CrashRecovery.EmptyStoreOutcome` | sourcecodes/tendermint/consensus/replay.go:359-363 | Over an empty store nothing is written, and the handshake succeeds exactly if application and state have the same hash |
| `CrashRecovery.InitChainRestores` | sourcecodes/tendermint/consensus/replay.go:301-357 | Whatever hash an application at height 0 reports, and a state at height 0 holds, InitChain gives the disk of one that starts from genesis |
| `CrashRecovery.UnprunedRuns` | sourcecodes/tendermint/consensus/replay.go:365-371 | Along every run that prunes nothing no handshake finds the application too low |
| `CrashRecovery.RunsStayRecoverable` | sourcecodes/tendermint/consensus/state.go:2073-2163 | Along every run of commits, crashes at any write, interrupted handshakes, application rollbacks and pruning, the disk stays one of those |
| `CrashRecovery.CommitCrash` | sourcecodes/tendermint/consensus/state.go:2073-2163 | A crash after any of the writes save block, end height, responses, application commit, state leaves a recoverable disk |
| `CrashRecovery.NeverUncovered` | sourcecodes/tendermint/consensus/replay.go:385-434 | The uncovered-case panic is unreachable for all heights and hashes |
| `CrashRecovery.LateChainStuck` | sourcecodes/tendermint/consensus/replay.go:380-382 | A chain that starts at any height above 1 and crashes after storing its first block panics on restart |
| `Recovery.Handshaker.Run` | sourcecodes/tendermint/consensus/replay.go:284-435 | InitChain and the case analysis over the three heights, on the object; `RecoverySyncs`, `SyncedMeansInSync`, `RefusedIff` and `EmptyStoreOutcome` say what comes of it |
| `Recovery.Handshaker.DoReplayBlocks` | sourcecodes/tendermint/consensus/replay.go:437-490 | Replays the missing range, and the last block through ApplyBlock when the state has to move |
| `Recovery.Handshaker.ExecBlocks` | sourcecodes/tendermint/consensus/replay.go:463-477 | The loop over heights with its hash check and block count |
| `Recovery.Handshaker.DoReplayBlock` | sourcecodes/tendermint/consensus/replay.go:493-511 | ApplyBlock of one block on the real or the mock application |
| `Recovery.ReplayWrites` | sourcecodes/tendermint/consensus/replay.go:284-511 | The disk a handshake leaves is what its durable writes leave, in order |
| `Wal.RoundTrip` | sourcecodes/tendermint/consensus/wal.go:300-419 | Decoding any written messages gives them back and then the end, from a file and from a group of files |
| `Wal.RecordReadsBack` | sourcecodes/tendermint/consensus/wal.go:300-419 | One record followed by anything is read back whole and leaves the rest |
| `Wal.DecodeIff` | sourcecodes/tendermint/consensus/wal.go:365-419 | Exact on bytes: a message comes out exactly if the stream holds a record of it (four bytes of checksum, a length within the limit, and that many bytes with this checksum that unmarshal to it, a plain file giving zeros past its end), what follows being left; the end exactly if there is no checksum to read; corruption in every other case |
| `Wal.AcceptsIff` | sourcecodes/tendermint/consensus/wal.go:315-319 | A message is accepted exactly when it fits, below the 32-bit wrap of its length |
| `Wal.RepairWalFile` | sourcecodes/tendermint/consensus/state.go:3552-3584 | Repair succeeds exactly when every message that decodes before the first damage can be written again, and writes the longest prefix that can; below the 32-bit wrap of lengths these are the messages that fit |
| `Wal.RepairKeepsPrefix` | sourcecodes/tendermint/consensus/state.go:3552-3584 | A repaired file reads back as that prefix and then ends; it is everything that decodes exactly when all of it fits |
| `Wal.RepairDropsTail` | sourcecodes/tendermint/consensus/state.go:3552-3584 | Intact records followed by damage are repaired to the intact bytes |
| `Wal.UnfitStopsRepair` | sourcecodes/tendermint/consensus/state.go:3552-3584 | A whole record that unmarshals to a message too long to be written again stops the repair there |
| `Wal.RepairCanFail` | sourcecodes/tendermint/consensus/state.go:3552-3584 | With a codec that always writes a time stamp and reads without one, repair fails on an intact record of the largest size |
| `Wal.WalEncoder.Write` | sourcecodes/tendermint/consensus/wal.go:300-329 | Appends checksum, length and data, or refuses a message that is too long |
| `Wal.WalDecoder.Next` | sourcecodes/tendermint/consensus/wal.go:365-419 | End, corruption or message, and how much of the stream is consumed, as `DecodeIff` says of the bytes |
| `WalSearch.SearchIsExact` | sourcecodes/tendermint/consensus/wal.go:231-283 | On intact files with end-height markers that never go down, the search with its early exit finds a marker exactly when the log has it, and stands right after it |
| `WalSearch.SearchForEndHeight` | sourcecodes/tendermint/consensus/wal.go:231-283 | The nested loops compute the search, for damaged files too |
| `Handel.LevelsPartition` | sourcecodes/hotstuff/handel/partitioner.go:26-56 | For every n and index, each other index is in exactly one level from 1 to ceil(log2 n), the index itself in none, and level 0 is empty |
| `Handel.LevelsSymmetric` | sourcecodes/hotstuff/handel/partitioner.go:26-56 | j is in i's level exactly when i is in j's |
| `Handel.MaxLevelIsLog` | sourcecodes/hotstuff/handel/partitioner.go:27-27 | The highest level is the least k with n at most 2 to the k |
| `Handel.RangeLevel` | sourcecodes/hotstuff/handel/partitioner.go:26-56 | The halving loop yields that range within bounds, or panics exactly on an invalid level |
| `Handel.PartitionAt` | sourcecodes/hotstuff/handel/partitioner.go:58-66 | The slice holds exactly the IDs of the level, and size is its length |
| `Handel.NewPartitioner` | sourcecodes/hotstuff/handel/partitioner.go:15-24 | Self is the first index with the ID, or 0 |
| `PartitionSizes.SizesAreExact` | sourcecodes/hotstuff/twins/generator.go:165-200 | The list holds every non-increasing split of n into at most k parts with first part at least minSize (or all of n), each once, and nothing else; for n = 0 also the splits of 256 |
| `PartitionSizes.GenPartitionSizes` | sourcecodes/hotstuff/twins/generator.go:165-169 | The same of the method on the shared list |
| `PartitionSizes.SizeList.Recurse` | sourcecodes/hotstuff/twins/generator.go:171-200 | The recursion appends exactly the completions of the sizes fixed so far |
| `Twins.GenPartitionScenarios` | sourcecodes/hotstuff/twins/generator.go:250-305 | Every scenario puts each network ID in exactly one partition of the stated size with twins where a valid assignment says; every split and valid assignment has a scenario; none is listed twice |
| `Twins.IsValidTwinAssignment` | sourcecodes/hotstuff/twins/generator.go:217-233 | True exactly when no partition is given more twins than its size |
| `Twins.CartesianProduct` | sourcecodes/hotstuff/twins/generator.go:236-248 | Exactly the ways to choose one entry of each list, each once if no list repeats an entry |
| `Twins.ScenarioTells` | sourcecodes/hotstuff/twins/generator.go:274-297 | A scenario determines its sizes and its twin assignment |
| `Twins.GenerateTwinPartitionPairs` | sourcecodes/hotstuff/twins/generator.go:206-213 | Every ordered pair of partitions once |
| `Twins.AssignNodeIDs` | sourcecodes/hotstuff/twins/generator.go:25-54 | Replica and network IDs of twins and nodes, in order and without gaps |
| `Twins.AssignedIdsDistinct` | sourcecodes/hotstuff/twins/generator.go:25-54 | Assigned network IDs never collide |
| `Twins.BuildScenario` | sourcecodes/hotstuff/twins/generator.go:274-297 | Twins by assignment, then nodes up to each size |
| `EvidencePools.Pool.RemoveExpired` | sourcecodes/tendermint/evidence/pool.go:403-447 | A pass that stops at the first live entry removes exactly the expired evidence, from the store and the gossip list, when block times do not decrease, and schedules the next pass by the lowest entry that is left |
| `EvidencePools.PassesInTime` | sourcecodes/tendermint/evidence/pool.go:403-432 | What was pending after a pass and has been expired for more than a block and a second makes the next pass due, and when that is due something has expired |
| `EvidencePools.Pool.AddEvidence` | sourcecodes/tendermint/evidence/pool.go:134-168 | Adds verified new evidence, which is live and dated by its block, to store and list; accepts known evidence without a change; nothing is ever pending and committed, or listed twice |
| `EvidencePools.Pool.CheckEvidence` | sourcecodes/tendermint/evidence/pool.go:192-230 | Accepts exactly lists without repeats whose evidence is pending, or not committed and verified (always, for light-client evidence), and then takes in all of it |
| `EvidencePools.TakenInIs` | sourcecodes/tendermint/evidence/pool.go:192-230 | Evidence taken in is pending as the block has it, unless it was pending and is not of a light client; other evidence stays as it was |
| `EvidencePools.Pool.Update` | sourcecodes/tendermint/evidence/pool.go:105-131 | The block's evidence is committed; exactly the other pending evidence, and that of buffered votes now due, stays pending unchanged, less what expired if pruning was due; the gossip list is the old one with the new evidence of the buffered votes after it, less what is not pending any more; a state that is not newer panics and changes nothing |
| `EvidencePools.Pool.ProcessConsensusBuffer` | sourcecodes/tendermint/evidence/pool.go:459-529 | Exactly the reported pairs of votes of decided heights that are not committed become pending, and those not known are listed, each once and in order, dated by their block; nothing pending changes, and the buffer is empty |
| `EvidencePools.Pool.MarkCommitted` | sourcecodes/tendermint/evidence/pool.go:328-356 | The block's evidence moves from pending to committed and leaves the list |
| `EvidencePools.Pool.ReportConflictingVotes` | sourcecodes/tendermint/evidence/pool.go:179-186 | Appends to the buffer |
| `EvidencePools.Pool.constructor` | sourcecodes/tendermint/evidence/pool.go:54-84 | A pool on an existing store has pruned it, lists exactly what is pending with lower heights first, and has scheduled the next pass |
| `EvidenceKeys.KeysSortByHeight` | sourcecodes/tendermint/evidence/pool.go:551-565 | Padded hexadecimal keys of one kind sort by height |
| `EvidenceKeys.KeysOneToOne` | sourcecodes/tendermint/evidence/pool.go:551-565 | Different evidence has different keys, and no pending key is a committed one |
| `EvidenceKeys.HexOrder` | sourcecodes/tendermint/evidence/pool.go:551-553 | Padded hexadecimal sorts like the numbers |
| `Bitfields.Bitfield.Add` | sourcecodes/hotstuff/crypto/bitfield.go:20-69 | The set gains exactly the ID, and the cached length stays its size |
| `Bitfields.Bitfield.Contains` | sourcecodes/hotstuff/crypto/bitfield.go:72-78 | Membership in the set |
| `Bitfields.Bitfield.RangeWhile` | sourcecodes/hotstuff/crypto/bitfield.go:89-99 | Visits the members in ascending order, each once, up to the first refused one |
| `Bitfields.Bitfield.FromBytes` | sourcecodes/hotstuff/crypto/bitfield.go:44-55 | The length of a bitfield made of bytes is the number of its members |
| `Bitfields.CopyBits` | sourcecodes/hotstuff/crypto/bitfield.go:44-60 | A bitfield made of another's bytes is the same set of the same length |
| `Bitfields.ListingIs` | sourcecodes/hotstuff/crypto/bitfield.go:89-99 | The listing is ascending and holds exactly the set bits |
| `Bitfields.SetsMembers` | sourcecodes/hotstuff/crypto/bitfield.go:20-25 | Setting one bit adds one member and no other |
| `SignatureCache.Cache.Verify` | sourcecodes/hotstuff/crypto/cache.go:88-104 | The cached answer is the uncached one after any history of signing and of verifying messages and batches |
| `SignatureCache.Cache.BatchVerify` | sourcecodes/hotstuff/crypto/cache.go:107-133 | The answer is the scheme's exactly when the signature is not held under the batch key or the scheme accepts the batch; otherwise it is true, and the scheme accepted the signature for some batch |
| `SignatureCache.HeldIff` | sourcecodes/hotstuff/crypto/cache.go:41-71 | A key is held exactly when it was used and fewer other keys than the capacity were used since |
| `SignatureCache.Cache.Sign` | sourcecodes/hotstuff/crypto/cache.go:74-85 | The signature of the scheme, remembered; a failure to sign changes nothing |
| `SignatureCache.Cache.Insert` | sourcecodes/hotstuff/crypto/cache.go:41-52 | The list is the most recently used keys, the oldest one making room |
| `SignatureCache.Cache.Evict` | sourcecodes/hotstuff/crypto/cache.go:65-71 | Removes the least recently used key when the cache is full |
| `SignatureCache.Cache.InStep` | sourcecodes/hotstuff/crypto/cache.go:41-71 | Map and list hold the same keys, without repeats and within capacity |
| `RingQueue.Queue.Push` | sourcecodes/hotstuff/eventloop/queue.go:24-54 | Appends, dropping the oldest entry when full, across every wrap-around; panics without capacity |
| `RingQueue.Queue.Pop` | sourcecodes/hotstuff/eventloop/queue.go:56-77 | Takes the oldest entry, or nothing from an empty queue |
| `RingQueue.Queue.Len` | sourcecodes/hotstuff/eventloop/queue.go:79-92 | The number of entries |
| `RingQueue.KeepsNewest` | sourcecodes/hotstuff/eventloop/queue.go:24-54 | However many entries are pushed, the newest ones up to the capacity are kept, in order |
| `Welford.Welford.Update` | sourcecodes/hotstuff/metrics/welford.go:13-19 | The fields stay the mean and the sum of squared deviations of all values |
| `Welford.Welford.Get` | sourcecodes/hotstuff/metrics/welford.go:22-27 | Mean and sample variance; none below two values |
| `Welford.Welford.Reset` | sourcecodes/hotstuff/metrics/welford.go:35-39 | Starts over |
| `Welford.UpdateStep` | sourcecodes/hotstuff/metrics/welford.go:13-19 | The update formula gives the mean and spread of one more value, over exact reals |

## Left out

- The simple and fast HotStuff rules: the replica works with any rules, and for rules other than the chained ones agreement of executed logs is proved under the condition that commits stay on one branch.
- HotStuffChained.ThreeChainsAreFinal: stated for runs in which every delivered proposal extends its certificate's block in a later view with a matching view field, every QC delivered has its block's view, and fetching and signing blocks work; the rules check none of this. `StrayForks` and `BlindForks` show the failure without the first and without fetching; that a replica can always sign is taken for granted.
- HotStuffChained.ChainedLogsAgree: stated for runs whose commits were over consecutive views; without that it fails, as `PicksFork` shows.
- HotStuffSafety.VerifyAggSound: which accepted signatures the cache still holds is a parameter of each step; `HeldIff` says which ones it is for a given use of the cache.
- HotStuffViews.ViewsAreBacked: stated for runs without the signature cache; with it, it fails (`CachedViewsNeedNotBeBacked`).
- The custom propose rule of HotStuff protocols that define one: the default proposal is modelled.
- VoteSets.TallyIsExact: vote sets are modelled on values, so the vote set object's update in place is not captured; vote signatures are a flag.
- Tendermint proposal creation and signing (`defaultDecideProposal`): proposals and their parts arrive as events, from anyone.
- Tendermint block synchronisation (`SwitchToConsensus`) and the replay of a validator's own messages after a crash: nodes start fresh.
- NodeProgress.Finalizes: stated for the first round of a height, with an application that applies blocks and no waiting for transactions; later rounds are in `NodeMoves`, one event at a time.
- HotStuffVoting.SignsIff: with `LaterSignsIff` it leaves one case open, a block whose own certificate takes the replica to a view it leads while the block's view is not past that one: a proposal in the replica's own name, or a block not later than its certificate. `LeaderProposes` gives the block the replica then signs.
- HotStuffTimeouts.QuorumTimeoutsChangeView: stated for timeouts whose own certificates are signed, of earlier views, and without an aggregate in them.
- Overflow panics of 32-bit rounds, and errors of the event bus.
- Timing and measurement code in `finalizeCommit`, `updateProposeTimeOut` and `addVote`: it writes files and calls remote services, and no transition depends on it.
- `CompareHRS` and the gossip routines that use it: a lexicographic comparison.
- CrashRecovery.RecoverySyncs: validator set and parameter changes, results hashes and failures of the database or the application connection are not modelled.
- Wal.RoundTrip: it is stated for messages that fit; a message of 4 GiB or more wraps its 32-bit length and is cut, which `Encode` models and the theorem excludes.
- WalSearch.SearchIsExact: stated for files of whole records; for damaged files only `SearchForEndHeight` speaks.
- BlockChains.BlockChain.PruneToHeight: says nothing of stores on which the source's walk does not end; fetched blocks have the hash that was asked for.
- PartitionSizes.GenPartitionSizes: says nothing of no partitions, where the source panics, and of several with a minimum size of 0, where its loop does not end.
- Twins.GenPartitionScenarios: needs between 1 and 255 network IDs, because the source counts them in 8 bits.
- `NextScenario` and the shuffling of scenarios.
- Handel.RangeLevel: the logarithm is exact, not a rounded float; needs at least one replica.
- Handel sessions: contribution scheduling and signature aggregation.
- EvidencePools.Pool.Update: evidence is filed by hash instead of by key string, which `KeysOneToOne` justifies; database errors and the byte limit of `PendingEvidence` are not modelled, and the size counter is only known not to be below the number of pending entries.
- SignatureCache.Cache.Verify: keys do not collide, and no message hashes to zero; the capacity is at least 1, below which the source panics on the first insertion.
- Bitfields.Bitfield.Add: IDs start at 1, as everywhere in the source.
- RingQueue.Queue.Push: the readiness channel is not modelled.
- Welford.Welford.Update: reals instead of floats; the counter does not wrap.
- Networking, logging, metrics, configuration, deployment scripts, the learning agent and plotting.
