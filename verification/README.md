# Verification of sMVBA

This project models the sMVBA node (speeding Dumbo-MVBA, IACR ePrint 2022/027) and proves what
its parts promise: the consensus core with its strong provable broadcast (SPB) instances, vote
aggregators, leader election and committor, and around it the key-value store, the micro-block
mempool with its synchronizer, the transaction queue, and the script that checks the nodes' logs.
`dafny verify dfyconfig.toml` checks everything.

## How the model is built

* `Messages`, `Committee`, `Votes`: blocks, digests, the eight message types, the thresholds, and
  sequences of accepted votes with the action each vote triggers.
* `Spb` and `Node`: one SPB instance and one core, as the effect of every handler on a state. A
  goroutine started on an instance is a message in `tasks`, run to its end by a step of its own,
  so instances may handle their messages in any order. `Core`, `Spb.Instance`, `Spb.Table` and
  `Aggregators` are the same things as objects that are updated in place: a core holds flag maps,
  an elector, and tables of aggregator and instance objects with counters, each made when first
  needed. `Core.Core.Run` shows that this network of objects ends any run where the functions say.
* `System`: a committee. Every node has an append-only log of what it sent, and every pair of
  nodes a cursor: links are authenticated and first-in-first-out, and a message is read at most
  once per link. A schedule is any sequence of starts, deliveries, goroutine runs, loopbacks and
  forgeries by Byzantine nodes; actions that are not enabled do nothing, so every sequence is a
  run. Everything about `At(c, acts)` holds of every reachable state.
* `Local`, `Sent`, `Ballots`, `Verdicts`, `Proposals`, `Origins`, `Deliveries`, `Intake`: one node,
  whatever it receives. What it stores, sets going, counts, says and proposes is described exactly, from
  the events and the state each of them meets, without the handlers' own definitions.
* `Runs`, `Byzantine`: the committee with up to f Byzantine nodes.
* `Benign`, `Blocks`, `Leaders`, `Quorums`, `Agreement`, `Finality`, `GoodLeader`, `TotalOrder`: the
  committee with silent faults.
* `Schedules`, `Broadcasts`, `Trios`, `Rounds`, `Openings`, `Endings`: how to build runs of four
  correct nodes step by step. `Disagreement` with `Divergence`, `Commits` with `Astray`, and `Orphans`
  build four runs that break a promise.
* `Committor`, `Store`, `Mempool`, `Synchronizer` with `Tracking`, `TxQueue`, `Consistency`: a class
  proved against functions, and theorems about those functions over all runs.

## Hypotheses

* `Byzantine.Resilient`: 3f+1 nodes, at most f of them Byzantine. `Benign.Silent`: 3f+1 nodes,
  f at least 1, whose faulty members are never started, as `core/smvba/consensus/core.go:526-530`
  does it. SPB votes and finishes carry no proof, so the locking theorems need it.
* `Agreement.Orderly`: a halt that a node acts on names a block the node has stored. The code
  records the halt's leader before it looks for the block; `Local.HaltWithoutBlock` says exactly
  what happens when the block is missing, and `Orphans.HaltsDisagree` is a run without it in which two
  halts of one slot name different blocks.

Agreement across rounds, and with it total order, is not a theorem of this code. The exact
statements and the inputs that break it are these.

* Within an epoch a commit ends everything: `Finality.CommitIsFinal` says that no later round gets
  beyond proposals. Two halts of different rounds therefore mean that the earlier round came out as a
  no at some node (`Finality.TwoRoundsMeanNo`), and they carry the same block exactly when the coin
  elected the same leader twice (`Finality.HaltsAgreeExactly`).
* The code goes on serving the leader's broadcast after the election, so a round can come out as a
  no at three nodes while a late finish of its leader makes the fourth halt in it. `Divergence.TotalOrderFails`
  is such a run: four nodes, no fault, every halt finds its block, and two nodes emit different blocks
  for epoch 0, so that the logs fail the consistency checker (`Divergence.LogsDiverge`). A leader among the 2f+1 good ones rules it out (`GoodLeader.GoodLeaderStands`).
* A proposal for a halted epoch is committed when its author is the recorded leader of its round,
  whichever block was decided. `Astray.LateCommitOfAnother` and `Astray.LateCommitOfAnotherRound` are
  runs in which every halt finds its block and a node submits a block that no halt named;
  `TotalOrder.DecidedExactly` is what the test in `core/smvba/consensus/core.go:199` would have to be.
* Two nodes' submissions agree if and only if they have the same proposer for each epoch
  (`TotalOrder.SameOrder`), that is, if and only if the halts they acted on and their late commits
  decided each epoch for one leader (`TotalOrder.SameOrderByLeaders`).

A refused write of a payload wakes those who wait for it all the same (`store/store.go:56-68`), so a
block may be looped back incomplete: `Synchronizer.RefusedWriteLoopsBack` is the input and
`Synchronizer.LoopbackExactly` the condition.

Digests are injective by construction and signatures are taken at their word: an accepted message
was sent by its author. What the environment decides (payloads of a new block, results of the
payload checks, success of a write, the coin of a slot) is a parameter.

## Model

| member | source | states |
|---|---|---|
| TotalOrder.SameOrder | core/smvba/consensus/core.go:446-483 | In every run with silent faults, whatever the halts find, the blocks any two nodes hand to their committors agree epoch by epoch if and only if they have the same proposer in each epoch, and then the sequences the two committors emit are prefixes of one another. |
| TotalOrder.SameOrderByLeaders | core/smvba/consensus/core.go:193-209 | With orderly halts: two nodes' submissions agree if and only if each epoch was decided for one leader by the events at the two nodes, a halt acted on with its block and payloads there deciding for the leader elected in its round and a late commit for the proposer of its block; then what they emit is prefix-comparable. It is so when the halts of each epoch are of rounds with one elected leader and late commits are of blocks by it. |
| TotalOrder.DecidedIsSubmitted | core/smvba/consensus/core.go:193-209 | A node has submitted a block of an epoch by a proposer if and only if some event at the node decided that epoch for that proposer. |
| Divergence.TotalOrderFails | core/smvba/consensus/core.go:342-466 | Whenever the coin elects node 3 in round 0 and node 0 in round 1 of epoch 0, there is a run of four fault-free nodes, all proposing blocks with payloads and with every halt finding its block, that ends with node 0 emitting its own block and node 2 emitting that of node 3 for epoch 0. |
| Divergence.LogsDiverge | benchmark/consistency.py:31-74 | The logs that the nodes write in that run do not pass the consistency checker. |
| Divergence.ReachTwoHalts | core/smvba/consensus/core.go:342-416 | That run has two halts of epoch 0 broadcast, one for round 0 and one for round 1, each at a node that has stored its leader's block. |
| Disagreement.ReachNoPlusHalt | core/smvba/consensus/core.go:342-416 | Before that it reaches a state where the final votes of round 0 come out as a no at nodes 0, 1 and 3 while node 2 has broadcast a halt of round 0. |
| Divergence.SplitExists | core/smvba/consensus/aggreator.go:162-170 | Coins that elect those leaders exist. |
| TotalOrder.LogsPass | benchmark/consistency.py:31-74 | With silent faults, if the nodes' submissions have the same proposer in each epoch, the logs written from all nodes' commit sequences pass the consistency checker, for every assignment of batches to payloads. |
| TotalOrder.LogsPassExactly | benchmark/consistency.py:31-74 | The logs of a run pass the checker for every assignment of batches to payloads if and only if the payloads that any two nodes have committed, repetitions dropped, are prefixes of one another. |
| TotalOrder.SubmittedIsCreated | core/smvba/consensus/core.go:193-209 | In every run with silent faults every block a node has submitted, late or not, was created by its proposer to open its epoch. |
| TotalOrder.DecidedExactly | core/smvba/consensus/core.go:197-209 | For a created block and a halt of its epoch: the halt names that block if and only if the block's proposer is the elected leader of the halted round. |
| TotalOrder.SubmittedExactly | core/smvba/consensus/core.go:193-209 | An event appends to the submissions the block of a halt that the node acts on and that finds it with its payloads, or a block committed late, and nothing else. Late means: the payloads are there, the epoch is halted, and the block comes in a one-phase proposal by the recorded leader of the proposal's round, or is a stored block looped back whose proposer is the recorded leader of round 0. |
| Astray.LateCommitOfAnother | core/smvba/consensus/core.go:197-209 | Late commits go astray: whenever node 3 is elected in round 0 there is a run of four fault-free nodes, with every halt finding its block and naming the block of node 3, in which node 1 emits that block and node 2 emits the block of node 0, because the halt of node 1, sent on a commit, names node 0 as leader. |
| Astray.LateCommitOfAnotherRound | core/smvba/consensus/core.go:197-209 | They go astray with correct leaders too: whenever node 3 is elected in round 0 and node 0 in round 1 there is such a run in which every halt names the block of node 0 and node 2 emits the round 0 block of node 3. |
| Orphans.HaltsDisagree | core/smvba/consensus/core.go:446-466 | Halts must find their blocks: whenever node 3 is elected in round 0 there is a run of four fault-free nodes in which a node reads a halt whose block it lacks and afterwards halts in the same slot with another block. |
| Finality.CommitIsFinal | core/smvba/consensus/core.go:395-444 | After a commit outcome at any node, no node is done or ready or has a final vote in any later round of the epoch, no prevote, final vote or halt is broadcast there, and the only one-phase proposals there are for the next round and carry the committed block. |
| Finality.NothingLater | core/smvba/consensus/core.go:276-416 | Once a slot is settled nobody broadcasts a done, a share, a prevote, a final vote or a halt for any later round of the epoch. |
| Finality.SettledProposals | core/smvba/consensus/core.go:418-444 | Once a slot is settled, a one-phase proposal for a later round is for the very next round and carries the settled block. |
| Finality.CommitsAgree | core/smvba/consensus/core.go:406-413 | All commit outcomes of an epoch, at any nodes, are of the same round and have the same hash. |
| Finality.HaltAfterCommit | core/smvba/consensus/core.go:395-416 | After a commit, every halt of that or a later round is of the committed round and carries the committed block. |
| Finality.TwoRoundsMeanNo | core/smvba/consensus/core.go:342-416 | If halts of two rounds of one epoch are broadcast, by any nodes and by either path, then the final votes of the earlier round came out as a no at some node. |
| Finality.HaltsAgreeExactly | core/smvba/consensus/core.go:342-370 | Two halts of one epoch, in any rounds, carry the same block if and only if the two rounds elected the same leader. |
| Agreement.CommitSettles | core/smvba/consensus/core.go:395-416 | A commit outcome at any node settles its slot on the hash the halt is sent with: the leader's block, with no no-outcome anywhere. |
| Agreement.SettledBinds | core/smvba/consensus/core.go:418-444 | Once a slot is settled on a digest, every one-phase proposal broadcast for a later round of the epoch, by any node, carries that block (and there are none beyond the next round, by `Finality.SettledProposals`). |
| Agreement.HaltIsLeaders | core/smvba/consensus/core.go:342-370 | Every broadcast halt, from a recorded finish or from a commit, carries the block that the elected leader of its slot created for the epoch. |
| Agreement.HaltsAgree | core/smvba/consensus/core.go:342-370 | All halts of one slot carry the same hash, and it is the block the elected leader created for the epoch. |
| Agreement.CommitIsLeaders | core/smvba/consensus/core.go:406-413 | The hash of a commit outcome is the block of the slot's elected leader for that epoch. |
| Agreement.FinishIsAuthors | core/smvba/consensus/spb.go:115-124 | A broadcast finish carries the block its own author proposed in that slot. |
| Agreement.YesIsForLeader | core/smvba/consensus/core.go:353-364 | Every yes prevote and every yes final vote is for the block of the elected leader, which the leader proposed in that round. |
| GoodLeader.ReadyRoundsCommitGoodLeaders | core/smvba/consensus/core.go:300-323 | When a node becomes ready there are 2f+1 proposers such that, if the elected leader is among them, then in every continuation of the run no final vote is a no and every node that collects 2f+1 final votes commits the leader's block. |
| GoodLeader.GoodLeaderCommits | core/smvba/consensus/core.go:342-416 | With 2f+1 proposers each locked at 2f+1 nodes that have not prevoted against them, a leader among them makes every final vote of every continuation a yes and every outcome a commit of the leader's block. |
| GoodLeader.GoodLeaderStands | core/smvba/consensus/core.go:342-416 | With such a leader the slot never comes out as a no at any node, so its halts stand. |
| GoodLeader.ReadyMeansGood | core/smvba/consensus/core.go:300-323 | A ready node implies a set of 2f+1 proposers, each locked at 2f+1 nodes none of which has prevoted no against it. |
| GoodLeader.GoodForever | core/smvba/consensus/spb.go:71-86 | That set stays good in every continuation of the run: locks stay and a locked node does not prevote against the leader. |
| GoodLeader.NoNo | core/smvba/consensus/core.go:372-393 | No node broadcasts a no final vote in a slot whose leader is good. |
| GoodLeader.FewAgainstFinished | core/smvba/consensus/core.go:353-367 | After a proposer's finish has been broadcast, at most f nodes ever newly prevote no against it in that slot. |
| Quorums.FinishMeansLocked | core/smvba/consensus/spb.go:100-126 | A broadcast finish means that at least 2f+1 nodes hold the lock and that very hash in the author's instance. |
| Quorums.FinishesOnce | core/smvba/consensus/spb.go:99-126 | A node broadcasts a finish for a slot exactly once if its own instance has counted 2f+1 two-phase votes, and not otherwise. |
| Quorums.CountedVote | core/smvba/consensus/spb.go:90-99 | A counted two-phase vote is at its proposer, was cast by a node that holds the lock, and is counted at most once. |
| Blocks.OneBlockPerEpoch | core/smvba/consensus/spb.go:39-47 | All block hashes that instances of one proposer and epoch hold, at any nodes and in any rounds, are the digest of one block, created by that proposer for that epoch. |
| Blocks.OneProposalPerRound | core/smvba/consensus/core.go:418-444 | A node broadcasts at most one one-phase proposal for each epoch and round. |
| Blocks.CreatedOnce | core/smvba/consensus/core.go:512-524 | A node creates one block per epoch. |
| Blocks.RoundsNonNegative | core/smvba/consensus/core.go:418-444 | No message is ever sent for a negative round. |
| Benign.StoreOk | core/smvba/consensus/core.go:216-222 | Every block stored at any node was created by its proposer to open its epoch. |
| Benign.ProposalOk | core/smvba/consensus/core.go:418-444 | Every broadcast one-phase proposal carries a created block of the proposal's own epoch. |
| Byzantine.CommitExcludesNo | core/smvba/consensus/aggreator.go:233-253 | With at most f Byzantine nodes among 3f+1: if one correct node's final votes commit a slot, no correct node's come out as a no. |
| Byzantine.CountsTheFirst | core/smvba/consensus/core.go:372-393 | The final vote a correct node counts for a correct author is the first one that author cast for the slot, even when the author cast a no and then a yes. |
| Byzantine.DoneHasACause | core/smvba/consensus/core.go:247-323 | With at most f Byzantine nodes, a correct node sends Done only if some correct node has recorded 2f+1 finishes. |
| Byzantine.ReadyMeansSpread | core/smvba/consensus/core.go:300-323 | When a correct node is ready, at least f+1 correct nodes have sent Done, each exactly once. |
| Byzantine.DoneSpreads | core/smvba/consensus/core.go:300-323 | Amplification: once a correct node is ready, every correct node still in the epoch that has read everything the correct nodes sent has sent Done exactly once. |
| Runs.Projection | core/smvba/consensus/core.go:526-583 | In any run of the committee a correct node's state and log are those of a single node on its own events. |
| Runs.HeldIsHeard | core/smvba/consensus/core.go:247-416 | What a correct node has recorded for a slot was read from the link of the message's author. |
| Runs.HeardIsCounted | core/smvba/consensus/core.go:247-416 | Whatever a correct node still in the epoch has read about a slot, its author is counted for that kind of message. |
| Runs.RecordsGrow | core/smvba/consensus/core.go:247-416 | The records of a slot only grow, whatever happens. |
| Local.DoneExactly | core/smvba/consensus/core.go:247-298 | After any events, the Done flag of a slot is set exactly when 2f+1 finishes or f+1 dones are recorded, and exactly then the log holds one Done and one coin share for it. |
| Local.ReadyExactly | core/smvba/consensus/core.go:300-323 | After any events, a slot is ready exactly when 2f+1 dones are recorded (for four nodes or more). |
| Local.LeaderExactly | core/smvba/consensus/elector.go:46-66 | While the node is in the epoch and halts find their blocks, the recorded leader is the elected one exactly when 2f+1 shares are recorded, and none otherwise. |
| Local.LeaderProcessedOnce | core/smvba/consensus/core.go:342-370 | The prevotes and halts of a slot in a log number one for the slot being ready with an elected leader, whichever came last, plus one for a commit outcome. |
| Local.HaltWithoutBlock | core/smvba/consensus/core.go:446-466 | A halt that is acted on sets the leader it names and ends the epoch if and only if its block is stored. |
| Local.EpochsEndInOrder | core/smvba/consensus/core.go:446-466 | The halts with which a node ends epochs have strictly increasing epochs. |
| Local.HaltedBelow | core/smvba/consensus/core.go:512-524 | Every halted epoch lies below the current one. |
| Local.LockHasHash | core/smvba/consensus/spb.go:39-88 | After any events, an instance that is locked or has counted a vote knows its block, so processLeader does not panic, and one that knows its block buffers nothing. |
| Local.EpochGrows | core/smvba/consensus/core.go:512-524 | The epoch of a node never decreases during a run. |
| Sent.SentFact | core/smvba/consensus/core.go:247-444 | Every message in a node's log is backed by the node's state for good: a yes prevote by a lock and its hash, a finish by 2f+1 counted votes, a proposal by the epoch's opening or the outcome of the round before, a halt by the leader's finish or a commit. |
| Ballots.OneVoteEach | core/smvba/consensus/aggreator.go:198-253 | Accepted prevotes and final votes are of their slot, and no author is counted twice. |
| Ballots.CastExactly | core/smvba/consensus/core.go:372-393 | The final votes in a log are, in order, exactly those that the accepted prevotes call for. |
| Ballots.CastShapes | core/smvba/consensus/aggreator.go:198-217 | What is cast is nothing, a yes, a no, or a no followed by a yes: a no exactly when the first 2f+1 prevotes are no, a yes exactly when some prevote is a yes. |
| Proposals.RoundsOpenExactly | core/smvba/consensus/core.go:395-444 | The one-phase proposals for a slot in a log, exactly: one when, at the 2f+1st accepted final vote of the round before, the votes were mixed and that vote's hash named a stored block, carrying that block, or all were no and the hash of the node's own instance named a stored block, carrying that one; in round 0 also one when the epoch was entered, carrying a new block with the payloads handed out then; and no other. |
| Proposals.ProposalsBounded | core/smvba/consensus/core.go:418-444 | One-phase proposals for a slot: at most one for entering the epoch in round 0 and at most one for the outcome of the round before. |
| Verdicts.SaidExactly | core/smvba/consensus/core.go:300-416 | The prevotes and halts of a slot in a log are, in order, exactly these: at the 2f+1st done with the leader known or the 2f+1st share with the slot ready, a halt with the hash of the leader's recorded finish, else a prevote, yes and with its hash if the leader's instance is locked and no if not; and at the 2f+1st final vote a halt with that vote's leader and hash if all are yes. |
| Votes.OutcomeMeaning | core/smvba/consensus/aggreator.go:233-253 | The final-vote outcome is commit if and only if the first 2f+1 votes are all yes, and no if and only if they are all no. |
| Votes.OutcomeStable | core/smvba/consensus/aggreator.go:233-253 | Further votes do not change an outcome, and an outcome appears with the 2f+1st vote. |
| Deliveries.VotesConserved | core/smvba/consensus/spb.go:57-69 | Every vote that passed the epoch filter is at any time counted, buffered or waiting to run, exactly as often as it was let in. |
| Deliveries.QuietCountsAll | core/smvba/consensus/spb.go:57-69 | When nothing waits to run and the instance knows its block, every vote let in has been counted, whatever the order of arrival. |
| Deliveries.PhaseTwoConserved | core/smvba/consensus/spb.go:71-86 | A two-phase proposal that is the only one of its instance is voted for, buffered or waiting exactly as often as it was let in. |
| Deliveries.PhaseTwoOnce | core/smvba/consensus/spb.go:90-114 | The two-phase proposal of an instance is in the log once if 2f+1 one-phase votes were counted, and otherwise not at all. |
| Deliveries.VoteOneOnce | core/smvba/consensus/spb.go:39-56 | The one-phase vote for a hash is in the log once if the instance holds that hash, and otherwise not at all. |
| Deliveries.FinishOnce | core/smvba/consensus/spb.go:115-124 | When a node counts only its own instances' votes, it sends a slot's finish once if 2f+1 two-phase votes were counted, and otherwise not at all. |
| Intake.OnePhaseConserved | core/smvba/consensus/core.go:193-231 | A one-phase proposal waits to run exactly as often as it was set going and not yet run; it is set going when it is received in an epoch not over, its block is written and all payloads are there, or when a stored block of such an epoch is looped back, as a proposal of its proposer for round 0. |
| Intake.VoteNeedsPayloads | core/smvba/consensus/core.go:216-231 | A logged one-phase vote was preceded by an event that set a proposal of the voted block going in that instance, with all payloads there. |
| Intake.QuietHasVoted | core/smvba/consensus/spb.go:39-56 | When nothing waits to run, every instance in which its proposer's block was set going has voted for a block that was set going there. |
| Intake.StoredExactly | core/smvba/consensus/core.go:216-222 | A block is stored exactly when some event wrote it: a one-phase proposal with it, received in an epoch not over, whose write succeeded. |
| Committee.QuorumsIntersectExactly | core/config.go:105-115 | Any two sets of HightThreshold nodes share more nodes than can be faulty if and only if the committee has 3f+1 nodes. |
| Committee.CommonCorrect | core/config.go:105-115 | Two high quorums of a 3f+1 committee share a node outside any set of at most f nodes. |
| Node.Elected | core/smvba/consensus/aggreator.go:162-170 | The elected leader is a member of the committee. |
| Core.Core.constructor | core/smvba/consensus/core.go:34-70 | A new core is valid and in the initial state, with tables that share nothing. |
| Core.Core.Run | core/smvba/consensus/core.go:526-583 | Fed any sequence of events, a new core object, with its aggregator, elector and instance objects, ends in the state and with the log that the run theorems speak of. |
| Core.Core.Turn | core/smvba/consensus/core.go:526-583 | One turn of the loop takes the object to the state, and sends the messages, of the corresponding step, and keeps its objects valid and apart. |
| Core.Core.Receive | core/smvba/consensus/core.go:543-573 | Every message type is dispatched to its handler, with the effect of the corresponding step. |
| Core.Core.HandleSpbProposal | core/smvba/consensus/core.go:193-231 | A late proposal is committed before the epoch filter; otherwise a one-phase block is stored and, once its payloads are there, the proposal is set going (exactly so, by `Intake.OnePhaseConserved`). |
| Core.Core.CommitLate | core/smvba/consensus/core.go:197-209 | A block is committed late exactly when the proposal is one-phase, its epoch is halted, its author is the recorded leader and its payloads are there (`TotalOrder.SubmittedExactly`). |
| Core.Core.HandleFinish | core/smvba/consensus/core.go:247-274 | A first finish of an author is recorded, the 2f+1st invokes Done; no other slot changes. |
| Core.Core.InvokeDoneAndShare | core/smvba/consensus/core.go:276-298 | Done and share are sent unless the flag is set, and the flag is set; no other slot changes. |
| Core.Core.HandleDone | core/smvba/consensus/core.go:300-323 | The f+1st done invokes Done, the 2f+1st makes the slot ready and processes the leader; no other slot changes. |
| Core.Core.HandleElectShare | core/smvba/consensus/core.go:325-340 | The 2f+1st share elects the leader and processes it; no other slot changes. |
| Core.Core.ProcessLeader | core/smvba/consensus/core.go:342-370 | Sends a halt when the leader's finish is recorded, else a yes prevote when its instance is locked, else a no. |
| Core.Core.HandlePrevote | core/smvba/consensus/core.go:372-393 | Asking the slot's aggregator object, with its counters and flag: a new prevote is accepted and the final vote that the accepted prevotes call for is sent; no other slot changes. |
| Core.Core.HandleFinvote | core/smvba/consensus/core.go:395-416 | Asking the slot's aggregator object, with its counters: a new final vote is accepted; yes and no open the next round, commit sends a halt; no other slot changes. |
| Core.Core.AdvanceNextRound | core/smvba/consensus/core.go:418-444 | The next round's proposal carries the voted block, after a no the node's own, and nothing is sent when it is not stored (exactly so, by `Proposals.RoundsOpenExactly`). |
| Core.Core.HandleHalt | core/smvba/consensus/core.go:446-466 | Outside the filter and for an epoch not halted: the leader is taken over, the block submitted, the epoch halted and the next opened; a missing block stops after the leader. |
| Core.Core.HandleOutput | core/smvba/consensus/core.go:468-483 | Fails exactly for a block not stored, and submits a stored one exactly when its payloads are there. |
| Core.Core.AdvanceNextEpoch | core/smvba/consensus/core.go:512-524 | Enters a higher epoch only, with one proposal of a new block for round 0. |
| Core.Core.HandleLoopBack | core/smvba/consensus/core.go:486-509 | A stored block re-enters its proposer's round 0 instance, after a late commit, unless its epoch is over. |
| Spb.Instance.ProcessProposal | core/smvba/consensus/spb.go:39-88 | The instance with its buffers does what the specification of a proposal says, the buffered messages being handed on in order. |
| Spb.Instance.ProcessVote | core/smvba/consensus/spb.go:90-127 | The per-phase counters agree with the votes counted, and a phase's message is sent on its 2f+1st vote. |
| Spb.Table.Process | core/smvba/consensus/core.go:103-121 | The instance of a waiting message is found or made and handles it; every other instance stays as it is. |
| Aggregators.FinishAggreator.Append | core/smvba/consensus/aggreator.go:96-105 | True exactly on the finish that completes 2f+1 authors; a second finish of an author is an error. |
| Aggregators.FinishTable.Add | core/smvba/consensus/aggreator.go:26-39 | A finish is counted by the aggregator of its slot, made if there is none; all other slots keep their authors. |
| Aggregators.DoneTable.Add | core/smvba/consensus/aggreator.go:41-54 | A done is counted by the aggregator of its slot; all other slots keep their authors. |
| Aggregators.PreVoteTable.Add | core/smvba/consensus/aggreator.go:56-69 | A prevote is accepted by the aggregator of its slot, which answers as its accepted prevotes say; all other slots keep theirs. |
| Aggregators.FinVoteTable.Add | core/smvba/consensus/aggreator.go:71-84 | A final vote is accepted by the aggregator of its slot, which answers as its accepted votes say; all other slots keep theirs. |
| Aggregators.DoneAggreator.Append | core/smvba/consensus/aggreator.go:123-135 | Low exactly on the done that completes f+1 authors, high on the one that completes 2f+1 (exactly so for four nodes or more). |
| Aggregators.ElectAggreator.Append | core/smvba/consensus/aggreator.go:151-173 | The share that completes 2f+1 yields the elected leader, any other none. |
| Aggregators.Combine | core/smvba/consensus/aggreator.go:162-170 | The loop over the first three bytes computes their big-endian number. |
| Aggregators.PreVoteAggreator.Append | core/smvba/consensus/aggreator.go:198-217 | The counters and the flag answer as the sequence of accepted prevotes says, and the accepted votes grow by the new one. |
| Aggregators.FinVoteAggreator.Append | core/smvba/consensus/aggreator.go:233-253 | The counters answer as the sequence of accepted final votes says, and the accepted votes grow by the new one. |
| Aggregators.Elector.AddShareVote | core/smvba/consensus/elector.go:46-66 | The share that completes 2f+1 sets and returns the leader of its slot; other slots keep their shares and leaders. |
| Committor.Exact | core/smvba/consensus/commitor.go:28-42 | After any submissions the emitted blocks are those of epochs 0 up to the first epoch never submitted, each the block last submitted for its epoch when the epochs up to it were first complete; exactly the later submitted epochs wait, with their last block. |
| Committor.PrefixConsistent | core/smvba/consensus/commitor.go:28-42 | Committors fed any submissions that agree epoch by epoch, in any orders, emit sequences that are prefixes of one another. |
| Committor.Committor.Commit | core/smvba/consensus/commitor.go:28-42 | The draining loop computes the specified new state. |
| Store.RepliesExact | store/store.go:46-85 | For any requests: request i has been answered with a if and only if a is its due answer, computed from the writes before it and, for a NotifyRead, the first write after it. |
| Store.AnsweredOnce | store/store.go:46-85 | No request is answered twice. |
| Store.WaitsExactly | store/store.go:46-85 | A request still waits if and only if it is a NotifyRead whose key was absent and has not been written since. |
| Store.Conserved | store/store.go:46-85 | Requests answered and requests waiting add up to the requests made. |
| Store.WaitingKeysAreMissing | store/store.go:46-85 | No key that has waiters is in the database. |
| Store.DbIsCurrent | store/store.go:46-85 | The database maps each key to the value of its last accepted write. |
| Store.QueuesExact | store/store.go:46-85 | The waiters of a key are its unanswered NotifyReads, in order of arrival. |
| Store.Store.Serve | store/store.go:46-85 | One request changes database, waiters and replies as specified. |
| Consistency.Compare | benchmark/consistency.py:31-74 | The verdict is missing exactly for no logs, and otherwise true if and only if any two deduplicated logs are prefixes of one another. |
| Consistency.RemoveDuplicates | benchmark/consistency.py:16-29 | Keeps the first occurrence of every entry in order and reports how many entries were dropped. |
| Consistency.DedupIdempotent | benchmark/consistency.py:16-29 | Removing duplicates twice is removing them once. |
| Consistency.DedupPrefix | benchmark/consistency.py:16-29 | Removing duplicates keeps the prefix order. |
| Consistency.CommittorLogsPass | core/smvba/consensus/commitor.go:44-60 | Logs written by committors whose submissions agree always pass the checker, however far each node has got. |
| Consistency.NamesDecide | benchmark/consistency.py:31-74 | Two block sequences give comparable logs under every assignment of batches if and only if they do with each payload logged under its own name. |
| Consistency.LogExactly | core/smvba/consensus/commitor.go:44-60 | The log holds the batches of exactly the payloads whose batch is found, one each, in the order of the blocks and of the payloads within a block. |
| Consistency.WriteLog | core/smvba/consensus/commitor.go:44-60 | The loop logs, block by block and payload by payload, the batches that are found. |
| TxQueue.FifoExactly | pool/pool.go:41-73 | For a buffer of any size: on every input the batches are the transactions in order, cut into batches, if and only if the batch size is at least 1 and below the buffer size. |
| TxQueue.BatchesExactly | pool/pool.go:41-73 | With a batch size of at least 1 and below the buffer size, batch j holds exactly the j-th stretch of the transactions, the batch size long, and there are as many batches as full stretches. |
| TxQueue.BatchSizes | pool/pool.go:57-73 | Whatever the sizes, every batch has the batch size, and is empty for a batch size below 1. |
| TxQueue.AlwaysRing | pool/pool.go:41-73 | With such sizes the ring invariant holds after any input, with the batches and the buffer holding the input in order and complete. |
| TxQueue.FullSizeJams | pool/pool.go:41-73 | With a batch size equal to the buffer size one batch is made and never another. |
| TxQueue.Overwrites | pool/pool.go:41-73 | With any other batch size the transaction after the buffer is full overwrites the oldest one. |
| TxQueue.IdsNeverCollide | pool/pool.go:57-73 | Batches of different nodes, or different batches of one node, never have the same identifier. |
| TxQueue.BatchIds | pool/pool.go:57-73 | The k-th batch of a node has identifier id + n*k. |
| TxQueue.TxQueue.Receive | pool/pool.go:41-55 | Writing a transaction into the ring array, and making a batch when due, changes the queue as specified. |
| TxQueue.TxQueue.MakeBatch | pool/pool.go:57-73 | The copying loop takes a batch out of the ring array as specified. |
| Mempool.HandedIsStored | mempool/mempool.go:122-261 | In every run, every digest queued or handed to consensus is stored, and the queue keeps its bound. |
| Mempool.StoredExactly | mempool/mempool.go:122-261 | In every run a digest is stored exactly when an earlier event stored it: an own block, or a signed block of another node not yet stored, or the new block made for an empty queue, with room in the queue and the write accepted. |
| Mempool.QueuedExactly | mempool/mempool.go:139-271 | In every run a digest is queued exactly when an own block, or a signed and new block of another node, was accepted with it and it has been neither handed out nor cleaned since. |
| Mempool.HandedInOrder | mempool/mempool.go:202-261 | What consensus has got is what the make requests answered, in order; on an empty queue that is the new block if it could be stored, and else nothing. |
| Mempool.ArrivedInOrder | mempool/mempool.go:139-182 | The list of arrivals holds every digest that was queued, in order. |
| Mempool.HandedOnce | mempool/mempool.go:202-261 | When own blocks are fresh, no digest is handed to consensus twice, the blank block aside. |
| Mempool.MakeSplits | mempool/mempool.go:202-261 | Making a block splits a non-empty queue: handed and remaining digests are disjoint and together the queue, a positive limit is kept and filled, and a limit below 1 takes everything. |
| Mempool.Mempool.PayloadProcess | mempool/mempool.go:122-137 | A block of one's own is stored unless the queue is full or the write fails, each with its error. |
| Mempool.Mempool.HandleOwnBlock | mempool/mempool.go:139-151 | An own block is stored and then queued; a full queue or a failed write leaves everything as it was. |
| Mempool.Mempool.HandleOtherBlock | mempool/mempool.go:153-182 | A signed block of another node that is not stored yet is stored and queued; a badly signed or known one is ignored; a full queue is one error and the failed write of a block to be stored is the other, and both leave everything as it was. |
| Mempool.Mempool.HandleMakeBlock | mempool/mempool.go:202-261 | Distinct queued digests are handed out and removed, as many as the limit allows and all of them for a limit below 1; with an empty queue a new block is stored and handed out. |
| Mempool.Mempool.HandleCleanBlock | mempool/mempool.go:263-271 | Exactly the given digests leave the queue. |
| Synchronizer.LoopbackExactly | mempool/synchronizer.go:48-179 | In every run of synchronizer and store, verifying a block that was looped back succeeds if and only if each payload for which its waiter was woken by a refused write is stored. |
| Synchronizer.RefusedWriteLoopsBack | store/store.go:56-68 | The input: one refused write of a payload loops its block back although the payload is not stored and verifying the block still fails. |
| Synchronizer.LoopbackVerifies | mempool/synchronizer.go:48-179 | In every run in which all writes are accepted, a block that was looped back passes verification and nothing changes. |
| Synchronizer.AnswerIsWorth | store/store.go:70-83 | An answered NotifyRead means that its key is stored, or that the write that woke it was refused. |
| Synchronizer.VerdictExactly | mempool/synchronizer.go:48-64 | Verification answers ok and changes nothing exactly when every payload is stored. |
| Synchronizer.AlwaysSound | mempool/synchronizer.go:66-179 | In every run each waiter has asked the store for its payloads in order and has read only answered requests, its payloads cover what its block lacks, and each block reported or looped back has a waiter all of whose requests were answered. |
| Synchronizer.NeverClosedTwice | mempool/synchronizer.go:111-124 | In every run no cancel channel is closed twice. |
| Tracking.TrackedExactly | mempool/synchronizer.go:66-136 | In every run a block is tracked exactly when a message about it was taken while it was not and no clean-up of at least its epoch and no report of it was taken since; its entry has the unsigned epoch, payloads and author of that message. |
| Tracking.CleanUpExactly | mempool/synchronizer.go:111-124 | Taking a clean-up of epoch e: a tracked block of an epoch up to e is dropped and its channel, open until then, closed once; one of a later epoch stays tracked with its channel open. |
| Tracking.ClosedExactly | mempool/synchronizer.go:111-124 | A channel is closed exactly when a clean-up of at least the epoch of its block was taken while the block was tracked, and it is closed once. |
| Tracking.RequestsExactly | mempool/synchronizer.go:82-110 | Every block taken up has all its missing payloads requested from its author, once, and a waiter for just these; every request and waiter is there for such a block. |
| Tracking.MessagesInOrder | mempool/synchronizer.go:40-83 | The loop takes the messages in the order they were sent, each once: the clean-ups, and for each verified block with payloads not stored these payloads, its proposer and its epoch. |
| Tracking.LoopbackInOrder | mempool/synchronizer.go:129-136 | The reports of the waiters are taken in order, each once, and the blocks among them, and nothing else, are looped back. |
| Synchronizer.MissingInOrder | mempool/synchronizer.go:48-58 | The payloads found missing are listed in the block's order, one for each place: the missing ones of two stretches are those of the first followed by those of the second. |
| Synchronizer.Synchronizer.Verify | mempool/synchronizer.go:48-64 | Answers ok exactly when no payload is missing, and else queues the missing ones for synchronisation. |
| Synchronizer.Synchronizer.HandleSyncBlock | mempool/synchronizer.go:82-110 | A block not pending gets a waiter and its missing payloads are requested; a pending one is ignored. |
| Synchronizer.Synchronizer.HandleCleanUp | mempool/synchronizer.go:111-124 | Exactly the pending blocks of epochs up to the given one are dropped and their channels closed (`Tracking.CleanUpExactly` says so without the set of expired blocks). |
| Synchronizer.Synchronizer.HandleReport | mempool/synchronizer.go:129-136 | A reported block is no longer tracked and is looped back; the zero digest of a cancelled waiter changes nothing. |
| Synchronizer.Synchronizer.Ask | mempool/synchronizer.go:163-179 | A waiter's next payload becomes a NotifyRead request to the store object, and its position is kept. |

## Left out

- Agreement.HaltsAgree: says nothing about the leader field of a halt, because a final vote never fills its leader in (`core/smvba/consensus/message.go:351-366`) and a commit copies it.
- Core.Core.Run: processProposal and processVote run as one step each, so interleavings inside them, between the hash check and the buffer lock, and goroutines running beside a handler are not captured.
- Core.Core.HandleOutput: a missing key is an error, as the database reports it, so the branches for a nil block without an error are not modelled.
- Aggregators.Elector.AddShareVote: any 2f+1 shares of a slot combine to one coin, which is a parameter; share verification and failing combination are not modelled.
- Store.RepliesExact: reading the database fails exactly for keys it does not hold.
- Synchronizer.LoopbackExactly: `Verify` reads the store in one step; the retry timer and the answering of payload requests are not modelled.
- Mempool.Mempool.HandleCleanBlock: the clean-up it also asks of the synchronizer is an event of that component's own runs (`AskCleanUp`).
- Consistency.CommittorLogsPass: all nodes find the same batches for the payloads they log.
- Liveness: no theorem says that a run reaches a decision; `Byzantine.DoneSpreads` and `GoodLeader.ReadyRoundsCommitGoodLeaders` are what is proved in that direction.
- Relaying: a message is accepted on its author's link only, so one node forwarding another's signed message is not modelled.
- Networking, serialisation, signatures, key generation, configuration, nutsdb, logging and the benchmark scripts other than the consistency check.
- The transaction generator, and the batch channel of the pool with the fetching of batches from it.
- Rate limits, channel capacities and memory bounds, except the mempool's queue bound and the transaction ring.
