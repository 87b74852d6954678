# Blockmania in Dafny

A model of the consensus interpreter, the block scheduler and the storage codecs of Blockmania, with
proofs of what they guarantee for every input, every run or every reachable state.

Every node makes blocks that name the blocks it has seen. Nobody sends votes: each node reads the
graph of blocks and works out, block by block, which PrePrepare, Prepare, Commit, ViewChange and NewView
messages the blocks stand for. Once all nodes have a decision for a round, the round is told to a
callback, and whatever no later round can need is dropped from memory.

## How the project is laid out

| files | what they hold |
|---|---|
| `Protocol`, `Interpreter` | the handlers of the five messages, `process`, `deliver`, `run`, as functions on the value of the graph |
| `Graph` | the mutable graph: loops and field updates, each method proved to compute the function of `Interpreter` |
| `Evidence`, `Zones`, `Delivery`, `Passes`, `Runs` | the invariants: where each vote comes from, which rounds a state speaks of, the bookkeeping of delivery; kept by one message, by one block, by a run |
| `Consensus`, `Replies`, `Quorums`, `Expiry`, `TenRounds`, `Patience` | the main results about all runs, exactly when votes and timeouts take effect, and when a run cannot stop |
| `Verdicts`, `Maxima`, `Memory` | decisions on the way to delivery, the maxima that are recorded, and what is kept in memory, in all runs |
| `Clocks`, `Deadlines` | delays and timeouts: what each block adds, what it hands on, and when a timeout is due |
| `Echoes`, `Consumption` | the own blocks that are kept: their maxima where own blocks come back, and what is told as consumed |
| `Tallies`, `Scenes` | runs of the first rounds, one slot at a time: the means to construct runs |
| `Tolerance`, `ForkedProposal`, `LateProposal`, `RestartedEcho`, `SingleNode`, `Silence` | runs written out: where agreement ends, a quorum that is passed over, maxima that fall, the delivery of a first block, and a node that hears from nobody |
| `Feed` | what the scheduler and genBlocks give to the interpreter |
| `Timeouts`, `Listing`, `Bitsets` | parts that the interpreter rests on, against order-free definitions |
| `Scheduling`, `Depgraph` | the block scheduler with its two caches and the store's included index |
| `Lexinum`, `Keys`, `RangeScan`, `GraphCodec`, `Replay`, `Formats`, `Truncation` | the order-preserving number codec, composite keys, range scans, stored block graphs, replay, and the bytes written out |
| `TxLog` | the transaction buffer of a block and its iterator |

A run (`Interpreter.RunAll`) takes any sequence of block graphs, starting from `New`. Beside the graph it
gives a record of every interpreted block: the state it started from and the state that was stored. The
only condition on the inputs (`Runs.WellFormed`) is what is checked of every block before it gets to the
interpreter: it has a hash, a known node and, if it is an own block, a 64-bit round from 1 on; nodes are
distinct, and a bitset has room for them. Blocks may fork, come back, and name blocks that are unknown or
forgotten; 64-bit numbers and 32-bit views wrap around. Results that need more say so: `Runs.OwnRounds`
(own blocks of consecutive rounds), `Runs.OwnApart` (no own block is a dependency), `Runs.Steady` (a block
that comes back finds no new links), `Consensus.Linear` (a node does not fork). One thing about forks is
not in the model: timeout lists are values, where in the code two blocks with the same previous block
share a list's memory (see the end).

## What turned out not to hold everywhere

- Agreement with as many forking nodes as the quorums are sized for, f = (n-1)/3, holds if and only if
  n = 3f+1 or f = 0 (`Tolerance.AgreementExactly`); for all other n that many forking nodes can make two
  nodes commit to different blocks. `Consensus.ViewZeroAgreement` therefore takes the number of forking
  nodes, not f.
- The number of prepares is compared with the quorum for equality, and a proposal counts for two voters at
  once. A node commits if and only if the count is not beyond the quorum when it reads its own Prepare
  and reaches it in the end; a proposal that comes late can pass the quorum over
  (`Quorums.QuorumPassedOver`), and in a run of four nodes it does (`LateProposal.QuorumSteppedOver`).
- Blocks are not interpreted once each: the scheduler does not know own blocks, so an own block that a peer
  sends back is released and interpreted again. It happens exactly when an own block is taken as a
  dependency (`Feed.DistinctExactly`, `Feed.EchoReleased`).
- The maxima of own blocks never decrease, also where own blocks come back, if and only if own blocks do not
  come back together with all that they go back to (`Consumption.RisesExactly`). If they do, and the node
  started beyond their rounds, a later own block has a lower max than an earlier one
  (`Consumption.MaximaFall`), so pruning stops too early.
- States are not always dropped with their block graph: one whose own block goes while it is still being
  interpreted leaves a state behind, as the first block of a single node does. This is the only way
  (`Memory.CleanExactly`).
- A block has no more transactions than the limit if and only if the limit is never set below the number that
  is already there; from then on only room counts (`TxLog.LimitKeptExactly`, `TxLog.PastTheLimit`).
- A block starts with the delays of its previous block only as long as that one's state is stored; then it
  starts with none (`Deadlines.StartExact`).
- Node ids 1 to n all have a bit in a bitset exactly when n is not a multiple of 64 (`Bitsets.IdsInRange`).
- A stored block graph is read back as it was if and only if every previous block in it has a hash or is
  the zero id (`GraphCodec.GraphRoundTrip`). A received block can name a previous block with an empty hash;
  after a replay it has other delays (`GraphCodec.EmptyDepPrevLost`, `Replay.ReplayedDelayDiffers`).
- A replay from round 0 adds round 100 twice exactly when there are at least 100 own blocks
  (`Replay.ReplayedOnce`). What is then told as consumed can be one too high, and can fall
  (`Consumption.DoubledConsumed`).
- The search for missing rounds starts again at round 0 exactly when it counts past the largest 64-bit
  round (`RangeScan.GetMissing`).
- A transaction within 100 bytes below the size limit is neither refused nor ever added
  (`TxLog.WaitsForever`).
- The key `states.Final` is looked up but never written, so the checks for it never succeed; the model
  keeps it as the field `done`, which the invariant `Evidence.Sound` shows to be empty.

## Model

| member | source | states |
|---|---|---|
| `Consensus.ViewZeroAgreement` | blockmania/graph.go:314-456 | In every run, if the nodes outside a set `byz` do not fork and either the proposer is not in `byz` or n plus the size of `byz` is less than two quorums, no two interpreted blocks commit to different hashes for one slot in view 0 of a round not yet delivered. No bound on views is assumed: that they have not wrapped follows from fewer than 2^32 interpreted blocks. |
| `Consensus.QuorumAgreement` | blockmania/graph.go:421-456 | Under the same condition any two states that hold a commit vote in view 0 for one slot hold it for the same hash. |
| `Tolerance.AgreementExactly` | blockmania/graph.go:314-456 | For all lists of fewer than 10^9 distinct node ids with a bit in a bitset: agreement in view 0 holds in every run of fewer than 2^32 blocks with at most f = (n-1)/3 forking nodes if and only if n = 3f+1 or f = 0. The other half is a run for each list of the remaining sizes. |
| `ForkedProposal.DisagreementRun` | blockmania/graph.go:152-456 | That run, for any two teams of a quorum each with a forking node in both, of which each ends with a node that is not in the other: one block graph, at the end of which these two nodes commit to different blocks of the forking node, in a round that is not delivered. |
| `TenRounds.NeverStops` | blockmania/graph.go:55-88 | A run in which no block goes back, over its previous blocks, to one of ten rounds before or more, with rounds below 2^64/11 and forks that agreement tolerates for every node, interprets all its blocks: neither of the two fatal conflicts arises. |
| `TenRounds.SameDecision` | blockmania/graph.go:55-88 | In such a run, while a block is being interpreted, a decision that it makes is the one that already waits for the slot, if any. |
| `TenRounds.ToldHasBlock` | blockmania/graph.go:90-136 | In such a run a round is told only if a block of that round has been interpreted. |
| `Patience.NothingDue` | blockmania/graph.go:171-230 | A block that is less than ten rounds after all the previous blocks it goes back to: its delays, timeout and new timeouts touch no vote, and no timeout is due. |
| `Consensus.Certificates` | blockmania/graph.go:368-456 | In every run each Commit is of the block's own node, which counts itself, and has a quorum of prepares in the stored state; each decision has a quorum of commits for its hash; each commit bit was sent by a block of that voter; no block prepares a ballot or commits a proposal twice. |
| `Consensus.ChainOnce` | blockmania/graph.go:335-419 | Along the blocks of a node that does not fork, at most one Prepare for a ballot and one Commit for a proposal is ever put out, for live rounds. |
| `Consensus.ChainMonotone` | blockmania/state.go:33-69 | Along such a chain vote sets only grow, pre-prepared proposals, prepared hashes, new-view marks and decisions never change, and views never decrease. Of delays and timeouts `Deadlines.StartExact` and `Deadlines.NextAwaits` say what goes on. |
| `Consensus.LinearRounds` | broadcast/broadcast.go:773-778 | The rounds of a node whose blocks each name the one before only rise, over any distance. |
| `Consensus.PruningLosesNothing` | blockmania/graph.go:101-121 | Every block that was interpreted once still has its stored state unchanged, or nothing in that state is about a round that is still to be delivered; so has the latest state of a block that came back, if blocks that come back find no link interpreted that was not so the first time. |
| `Consensus.ConsumedInOrder` | blockmania/graph.go:102-131 | In every run with own blocks of consecutive rounds the kept own blocks are consecutive and end with the newest; what the callback hears as consumed never decreases and is the round before the first kept block. |
| `Consumption.ConsumedAlways` | blockmania/graph.go:102-131 | In every run, whatever the own rounds: own blocks go in order, some at each delivery; each delivery tells the round before the first one that was kept plus the number of those that now go, modulo 2^64. |
| `Consumption.DoubledConsumed` | blockmania/graph.go:102-131 | In a run that was replayed from 0 and so has round 100 twice: exactly which round each delivery tells; it is one too high if and only if both blocks of round 100 go at that delivery, and it falls if and only if a delivery takes none right after the one that took the first of them. |
| `Consumption.ReplayIsDoubled` | broadcast/broadcast.go:842-855 | The own rounds of such a run. |
| `Consensus.PrunedExactly` | blockmania/graph.go:102-121 | If own rounds are consecutive and no own block is a dependency, the maxima of the kept own blocks never decrease, so stopping at the first larger max removes exactly the removable blocks. |
| `Consumption.RisesExactly` | blockmania/graph.go:596-660 | For all block graphs that the scheduler and genBlocks make, own blocks that come back included: the maxima of kept own blocks never decrease, whatever round the node starts at, if and only if there is no own block with which the one before it comes back, when the block before the first own one was unknown to that one and every dependency so far came after all its links. Asked: that the block graphs are interpreted to their end from some round beyond theirs. |
| `Consumption.EchoesPrunedExactly` | blockmania/graph.go:102-121 | In every run where there is no such own block, stopping at the first larger max removes exactly the removable blocks. |
| `Consumption.MaximaFall` | blockmania/graph.go:596-660 | In every run that starts beyond all rounds and has such an own block, some kept own block has a smaller max than an earlier one. |
| `RestartedEcho.OneFalls` | blockmania/graph.go:596-660 | Such a run, with two own blocks. |
| `Consumption.RoundsReached` | blockmania/graph.go:55-136 | In every run nothing is told beyond the highest round of a block. |
| `Echoes.NotBelow` | blockmania/graph.go:600-639 | Along the way: the max that is recorded for an own block when it comes back is at least the one it was admitted with, or that was at most the round at which the node started, with the block before the first own one unknown. |
| `Echoes.LowIsWhole` | blockmania/graph.go:600-639 | If an own block and all dependencies that come with the next one have a max below the round at which the node started, everything that they go back to has come. |
| `Echoes.AdmitFollows` | blockmania/graph.go:596-660 | Admitting the next block graph, own blocks that come back included, keeps the account of all maxima recorded so far. |
| `Echoes.AdmitFalls` | blockmania/graph.go:596-660 | With such an own block, in a run that starts beyond all rounds and has delivered nothing, its max is below that of the one before. |
| `Echoes.DeliverFollows` | blockmania/graph.go:90-131 | Delivering a round keeps the account. |
| `Consensus.DeliveredInOrder` | blockmania/graph.go:55-136 | The callback hears the rounds after the last interpreted one without gap or repeat, each with exactly the sorted non-empty hashes decided for all nodes on commit quorums; no round decided by all stays untold. |
| `Consensus.LinksRead` | blockmania/graph.go:298-307 | In every run what a block reads of a link that was interpreted once is all that the link has put out, or nothing, and then all of that was about rounds already delivered. |
| `Consensus.NeverPanics` | blockmania/graph.go:103 | In no run is the first own block read from an empty list. |
| `Consensus.VotersAreNodes` | blockmania/state.go:90-104 | Every voter in every state is a configured node, so each bit that is set lies in the bitset. |
| `LateProposal.ConditionsMet` | blockmania/graph.go:592-676 | A run of four nodes, for any hash, that meets each condition of the results above: no node forks, two blocks of node 1 one after the other, and a Commit of a round that is not delivered. |
| `SingleNode.FirstBlockDelivered` | blockmania/graph.go:592-676 | A run that delivers: a single node's first block, with any hash, votes for itself, is decided, and is told as round 1 with one block consumed and nothing kept. |
| `Feed.DistinctExactly` | broadcast/broadcast.go:311-382 | Of the block graphs that genBlocks makes from released blocks, after those that a start of the node has replayed: every block is interpreted once if and only if no own block was taken back as a dependency; and if and only if that is so, own blocks are apart from all dependencies. |
| `Feed.FedDistinct` | broadcast/depgraph.go:177-212 | All dependencies of these block graphs are distinct: the scheduler releases a block once, and none that was included before. |
| `Feed.EchoReleased` | broadcast/depgraph.go:177-212 | An own block that a peer sends back, also after a start of the node, is released if and only if it has no previous block or that one has come back and been included. |
| `Feed.EchoRepeats` | broadcast/broadcast.go:311-382 | Once it is taken, it is interpreted a second time. |
| `Feed.SteadyExactly` | broadcast/broadcast.go:311-382 | Own blocks that come back with their content find no link interpreted that was not so the first time, the condition under which pruning loses nothing, if and only if the block before the first own one does not come back ahead of that one. |
| `Feed.NextBlock` | broadcast/broadcast.go:311-382 | One turn of genBlocks, at any time of the scheduler's work, gives a next own block that follows the ones before and has the next released blocks as its dependencies, in order. |
| `Replies.AtMostFourReplies` | blockmania/graph.go:566-590 | The two loops of processMessages put out at most four messages for each message given: at most the sum of their ranks, where a view change ranks 4 and a Commit 0. |
| `Replies.ReadOnce` | blockmania/graph.go:566-590 | A dependency that puts out only messages that the block has read or has put out itself changes nothing and causes no reply. |
| `Replies.SecondPassCost` | blockmania/graph.go:578-588 | The loop over its own growing output adds no more messages than the ranks of those still to be read. |
| `Quorums.PreparesCounted` | blockmania/graph.go:368-419 | Prepares of one proposal, in any state, in any order and with repeats. In the current view all voters are counted, and one Commit is put out if and only if the node has not committed and the count, not beyond the quorum after the first vote, reaches it. For a view to come the voters are counted and nothing is put out; for a view that has passed nothing is counted. No other vote, view or entry of the state changes. |
| `Quorums.CommitsCounted` | blockmania/graph.go:421-456 | The same for commits: one decision, for the proposal's hash, if and only if there is none yet, the view is not one to come and the count meets the quorum. Commits of a view to come are not counted. Nothing else changes. |
| `Quorums.QuorumPassedOver` | blockmania/graph.go:335-419 | Exactly when a proposal and all prepares after it lead to a Commit; never if it finds one prepare less than a quorum, none by its two voters. |
| `LateProposal.QuorumSteppedOver` | blockmania/graph.go:335-419 | A run of four nodes of which none forks reaches such a state: node 4 reads the prepares of nodes 2 and 3 before the proposal of node 1, ends with the prepares of all four, and puts out no Commit. |
| `Tallies.BlockFollows` | blockmania/graph.go:152-311 | In the first ten rounds, with too few committing nodes for a decision: interpreting a block changes nothing but its own state, and what it does about one slot depends only on what its links say about that slot, by the rules of `Tallies.TallyStep`. |
| `Tallies.MessagesFollow` | blockmania/graph.go:566-590 | The same for the two loops of processMessages. |
| `Quorums.PrePrepareStep` | blockmania/graph.go:335-366 | In any state: a proposal is taken, counted for the node that passes it on and the one that reads it, and answered by a Prepare, if and only if it is of the current view and the first for its ballot; nothing else changes. |
| `Quorums.ViewChangeQuorum` | blockmania/graph.go:459-522 | In any state: a view change that is not of a view that has passed is recorded; the one that makes a quorum of reports moves the slot to its view and proposes the one reported hash, or none; conflicting hashes are fatal. No other view and no other report changes. |
| `Quorums.NewViewStep` | blockmania/graph.go:524-555 | In any state: a new view that is not of a view that has passed, and is the first for its ballot, moves the slot to its view, proposes exactly its hash again in that view, and sets one timeout for it at the block's round plus its timeout plus 5, modulo 2^64. Any other changes nothing. |
| `Quorums.ReportedIsProposed` | blockmania/graph.go:459-555 | The two together: in the block in which a view change makes the quorum, what is proposed next is the hash that was reported, or none, in the view of the change. |
| `Expiry.ExpiryExact` | blockmania/graph.go:231-288 | After every run with fewer than 2^32 - 1 interpreted blocks, and with timeout lists as values, the next block raises the view of a live slot by one, with one view change that reports the hash prepared in the old view, if and only if a timeout for the current view is due; otherwise it does neither. |
| `Expiry.FireExact` | blockmania/graph.go:231-288 | The same for any state and any number of due timeouts, none ahead of its slot. |
| `Expiry.FireFirst` | blockmania/graph.go:231-288 | The first due timeout in any state, also one ahead of its slot: unless the slot is beyond it, the slot's view and the view change's go up by one from the slot's and the timeout's view, modulo 2^32. |
| `Expiry.TimeoutsInStep` | blockmania/graph.go:592-676 | In every such run each stored timeout of a live round is for a view that its slot has reached. |
| `Expiry.ProcessReached` | blockmania/graph.go:152-311 | Interpreting one block, with all deliveries it causes, keeps this. |
| `Expiry.InterpretReached` | blockmania/graph.go:314-563 | So does every single message. |
| `Clocks.WithTimeoutsExact` | blockmania/graph.go:171-228 | Before it reads messages a block sets its delays from its dependencies, its timeout from the delays, and one timeout for every peer, of view 0, at its round plus that timeout, modulo 2^64; nothing else. |
| `Deadlines.StartExact` | blockmania/state.go:24-88 | A block starts with exactly what the stored state of its previous block has for rounds that are not delivered: votes, views, ballots, decisions and timeouts; and with its delays and timeout. If there is none, with an empty state. |
| `Deadlines.RunClocked` | blockmania/graph.go:152-311 | In every run each block's state has the delays that its dependencies give, the timeout that these give, and exactly the timeouts that it started with, one for each peer, and one for each new view that it took. |
| `Deadlines.NextAwaits` | blockmania/state.go:80-87 | Along the blocks of a node that does not fork no timeout is lost that is for a round and a slot not yet delivered: those of any of its blocks are the first ones that its next block starts with. |
| `Deadlines.DueInTime` | blockmania/graph.go:231-288 | So such a timeout takes effect in the node's block of the round it is set for: the slot leaves the timeout's view, with a view change that reports what was prepared if it was still in it. |
| `Deadlines.RoundsTimeOut` | blockmania/graph.go:221-288 | In particular every slot of a block's round that is not delivered leaves view 0 in the node's block that comes the timeout later. |
| `Silence.TimesOutAlone` | blockmania/graph.go:152-311 | A run that meets these conditions, for any four or more nodes: a node that hears from nobody for ten rounds delivers nothing, and gives up view 0 of every slot of round 1 in its block of round 11. |
| `Silence.TooFewNodes` | blockmania/graph.go:421-456 | In every run in which fewer nodes than a quorum have made blocks, nothing is told. |
| `Verdicts.DecisionsWait` | blockmania/graph.go:55-88 | In every run, whatever nodes fork, each decision in a state about a round not yet delivered is waiting to be told, with its hash. |
| `Verdicts.DecisionsAgree` | blockmania/graph.go:64-73 | So in a run that has not stopped no two blocks have decided differently about such a slot. |
| `Memory.MaximaAreKept` | blockmania/graph.go:102-121 | In every run every max on record is of a block of a kept block graph. |
| `Memory.CleanExactly` | blockmania/graph.go:102-121 | After every block graph of a run the same holds of all stored states, if and only if no own block goes before its block graph has been interpreted. |
| `Protocol.ReplyRank` | blockmania/graph.go:335-555 | A reply is about the same slot and view as its message, and of the next lower kind. |
| `Protocol.LiveExactly` | blockmania/state.go:70-78 | Cloned output is exactly the messages of live rounds, in their order. |
| `Interpreter.WeightFalls` | blockmania/graph.go:578-588 | Each turn of the loop over replies lowers a weight, so it ends. |
| `Evidence.InterpretSound` | blockmania/graph.go:314-563 | Interpreting any message that was really sent keeps all evidence: vote origins, quorums behind commits and decisions, uniqueness, growth. |
| `Evidence.InterpretCalm` | blockmania/graph.go:314-563 | While views have not wrapped: only a block's own proposal is pre-prepared in view 0, a view-0 prepare bit is of the proposer or of a sender of that Prepare, views grow and stay below the number of blocks. |
| `Zones.InterpretInZone` | blockmania/graph.go:314-563 | A message makes a state speak only of rounds and nodes that the state or the message spoke of. |
| `Delivery.PruneStops` | blockmania/graph.go:105-117 | The pruning loop takes only blocks whose max is not above the round and stops at one that is. |
| `Delivery.PruneIsExact` | blockmania/graph.go:105-117 | For an ordered list a block is pruned if and only if its max is not above the round. |
| `Delivery.ConsumedExact` | blockmania/graph.go:103-117 | The consumed round, computed with 64-bit wrap-around, is the one before the first kept own block. |
| `Delivery.DeliverOneKeeps` | blockmania/graph.go:90-131 | Delivering one round keeps the whole bookkeeping: recorded maxima, stored states, order of blocks, waiting decisions, what was told. |
| `Delivery.DeliverRoundKeeps` | blockmania/graph.go:90-136 | So does the recursion over further rounds; it does not fail, and afterwards no decided round waits. |
| `Delivery.DeliverKeeps` | blockmania/graph.go:55-88 | A decision of a configured node for a round within what has been seen keeps the bookkeeping, and never panics. |
| `Passes.StepKeeps` | blockmania/graph.go:566-590 | One message of a pass, with the delivery it may cause, keeps the invariant of the block and of the graph. |
| `Passes.ProcessMessagesKeeps` | blockmania/graph.go:566-590 | Both loops of processMessages keep it, with the replies appended to what the block puts out. |
| `Passes.DepsPassKeeps` | blockmania/graph.go:299-305 | So does the loop over the dependencies, which reads stored outputs that may have been pruned in the meantime. |
| `Passes.FireKeeps` | blockmania/graph.go:231-288 | Firing due timeouts raises views by at most one per block, keeps all evidence, and puts out only own view changes above view 0. |
| `Passes.StartIsOk` | blockmania/graph.go:138-148 | A cloned or fresh state satisfies the invariant of the new block. |
| `Passes.ProcessKeeps` | blockmania/graph.go:152-311 | Interpreting one block keeps the invariant of the graph and gives a record that satisfies that of the history. |
| `Runs.MaxAdmitted` | blockmania/graph.go:596-660 | The own block's max is at least its round, the rounds and maxima of all its dependencies, and the max of its previous block. |
| `Maxima.AdmitExact` | blockmania/graph.go:596-660 | For every block graph, the maxima recorded: each dependency gets the largest of its own round and what is known of its previous block (except in round 1) and of its links by then, which is the max just recorded, the one on record, or the current round; the own block gets the largest of its round, these, and what is known of its previous block; nothing else on record changes. |
| `Maxima.EntriesExact` | blockmania/graph.go:604-676 | Which blocks are then interpreted, in which order, and what each reads: its previous block first (a dependency of round 1 does not read it), then its links. |
| `Runs.AdmitKeeps` | blockmania/graph.go:596-660 | Admitting the next block graph keeps the invariant of the run. |
| `Runs.RunKeeps` | blockmania/graph.go:592-676 | One block graph keeps the invariant of the run. |
| `Runs.RunPrefixKeeps` | blockmania/graph.go:592-708 | From New on, every run keeps it, and none panics. |
| `GraphObject.RunChannel` | blockmania/graph.go:592-708 | The mutable graph, made by New and fed all inputs, never panics, and unless a fatal log stops it has exactly a value that the results of module Consensus are about. |
| `GraphObject.MutableGraph.constructor` | blockmania/graph.go:687-708 | New gives the initial value. |
| `GraphObject.MutableGraph.RunGraph` | blockmania/graph.go:592-676 | The body of run computes the same graph, or stops in the same way, as the function on values. |
| `GraphObject.MutableGraph.AdmitGraph` | blockmania/graph.go:596-660 | The in-place loop over dependencies records the maxima of the function Admit. |
| `GraphObject.LargestLink` | blockmania/graph.go:608-634 | The loop over links finds the largest known max, the current round standing in for unknown links. |
| `GraphObject.MutableGraph.ProcessEntry` | blockmania/graph.go:152-311 | process computes the function on values and stores the block's state. |
| `GraphObject.MutableGraph.ProcessDeps` | blockmania/graph.go:299-305 | Its loop over dependencies computes the fold of the passes. |
| `GraphObject.MutableGraph.Open` | blockmania/graph.go:154-288 | The state and first messages of a block, through the loops for delays, timeouts and firing. |
| `GraphObject.AddDelays` | blockmania/graph.go:171-178 | A node has a delay if and only if it had one or there is a dependency of it; the delay is ten times the rounds to its last dependency, modulo 2^64, and the old one if there is none. |
| `GraphObject.SetTimeouts` | blockmania/graph.go:221-229 | Appending one timeout per peer equals one append of them all. |
| `GraphObject.FireDue` | blockmania/graph.go:231-288 | The loop over due timeouts computes the fold that the proofs use. |
| `GraphObject.MutableGraph.ProcessAllMessages` | blockmania/graph.go:566-590 | processMessages computes the two passes on values. |
| `GraphObject.MutableGraph.ProcessGiven` | blockmania/graph.go:568-577 | Its first loop computes the first pass. |
| `GraphObject.MutableGraph.ProcessReplies` | blockmania/graph.go:578-588 | Its second loop ends and computes the second pass. |
| `GraphObject.MutableGraph.ProcessMessage` | blockmania/graph.go:314-563 | processMessage computes the step on values, delivery included; what the step is for each message say `Quorums.PrePrepareStep`, `Quorums.PreparesCounted`, `Quorums.CommitsCounted`, `Quorums.ViewChangeQuorum` and `Quorums.NewViewStep`. |
| `GraphObject.MutableGraph.OnViewChangeMessage` | blockmania/graph.go:459-522 | The view-change case computes the handler on values, with the shared map written in place. |
| `GraphObject.ReportHash` | blockmania/graph.go:501-518 | The loop over a view-change map, in any order, finds the one non-empty hash or the fatal conflict. |
| `GraphObject.MutableGraph.Decide` | blockmania/graph.go:55-88 | deliver computes the function on values: ignored, fatal, recorded or delivered. |
| `GraphObject.MutableGraph.DeliverRounds` | blockmania/graph.go:90-136 | deliverRound, with its recursion, computes the function on values. |
| `GraphObject.MutableGraph.TellRound` | blockmania/graph.go:90-131 | One round of it: the listing is told, whatever is no longer needed goes, and the current round is the next. |
| `GraphObject.MutableGraph.Prune` | blockmania/graph.go:102-120 | The pruning loop removes exactly the prefix, and the ids of its blocks and their dependencies from both maps. |
| `GraphObject.MutableGraph.Forget` | blockmania/graph.go:109-114 | Exactly a block and its dependencies leave both maps. |
| `Timeouts.ComputeTimeout` | blockmania/graph.go:180-216 | The timeout is the larger of 10 and the delay of rank 2f in ascending order, or the largest delay when at most a quorum of delays is known; independent of map order. |
| `Timeouts.TimeoutUnique` | blockmania/graph.go:180-216 | That definition has one value. |
| `Timeouts.SlowNodesCannotStretch` | blockmania/graph.go:183-207 | With more than a quorum of delays, the timeout is 10 or at most the delay of some node of any 2f+1 nodes. |
| `Timeouts.SortAscending` | blockmania/graph.go:193-196 | The sorted delays are those of the same nodes, each once. |
| `Timeouts.Diff` | blockmania/state.go:135-140 | The distance of two rounds in either direction. |
| `Listing.ListBlocks` | blockmania/graph.go:91-100 | The list told for a round is the sorted listing of exactly the non-empty decisions. |
| `Listing.ListingUnique` | blockmania/graph.go:98-100 | A set of blocks has one such listing. |
| `Bitsets.BitAfterSet` | blockmania/bitset.go:46-52 | Setting a bit changes that bit only. |
| `Bitsets.OnesCountExact` | blockmania/bitset.go:22-28 | The population count is the number of set bits. |
| `Bitsets.CountRow` | blockmania/bitset.go:22-44 | Adding up words gives the number of ids in the set. |
| `Bitsets.IdsInRange` | blockmania/bitset.go:54-60 | Ids 1 to n all fit a bitset for n nodes if and only if n is not a multiple of 64. |
| `Bitsets.Bitset.constructor` | blockmania/bitset.go:54-60 | A new bitset holds two empty sets in rounded-up words. |
| `Bitsets.Bitset.SetCommit` | blockmania/bitset.go:46-48 | Adds one id to the commit set and leaves the other set alone. |
| `Bitsets.Bitset.SetPrepare` | blockmania/bitset.go:50-52 | Adds one id to the prepare set and leaves the other set alone. |
| `Bitsets.Bitset.HasCommit` | blockmania/bitset.go:30-32 | The bit test is membership in the commit set. |
| `Bitsets.Bitset.HasPrepare` | blockmania/bitset.go:34-36 | The bit test is membership in the prepare set. |
| `Bitsets.Bitset.CommitCount` | blockmania/bitset.go:22-28 | The size of the commit set. |
| `Bitsets.Bitset.PrepareCount` | blockmania/bitset.go:38-44 | The size of the prepare set. |
| `Bitsets.Bitset.Clone` | blockmania/bitset.go:12-20 | The same sets in fresh words. |
| `Depgraph.Depgraph.ReleasedExactly` | broadcast/depgraph.go:112-212 | After any sequence of operations the released blocks, with the base, are the least set that holds every received block whose needs it holds; and they were released in an order in which each comes after all it needs, none twice. |
| `Depgraph.Depgraph.Complete` | broadcast/depgraph.go:146-173 | A received block is included, or waits on the list of something it needs that is not included: no wake-up is lost by the `seen` set, its resets, or the deletions. |
| `Depgraph.Depgraph.IncludedExactly` | broadcast/depgraph.go:177-212 | A received block that was not included before is released if and only if its previous block, if it has one, and all its dependencies but our own blocks are. |
| `Scheduling.OrderIrrelevant` | broadcast/depgraph.go:112-175 | Two schedulers that received the same blocks in any order have released the same ids. |
| `Scheduling.ReleasedIsLeast` | broadcast/depgraph.go:177-212 | Every closed set that holds the base holds all that was released. |
| `Scheduling.TopologicalPush` | broadcast/depgraph.go:205-211 | Releasing a block whose needs are included keeps the order topological and free of repeats. |
| `Scheduling.ReleaseFirst` | broadcast/depgraph.go:141-149 | A block released from the input was not pending, and starts a cascade that satisfies its invariant. |
| `Scheduling.ParkFirst` | broadcast/depgraph.go:47-66 | Parking a block on the lists of all that it lacks keeps the state quiet. |
| `Scheduling.ReleaseListed` | broadcast/depgraph.go:155-158 | A waiting block that is released joins the queue behind everything that lists it. |
| `Scheduling.KeepListed` | broadcast/depgraph.go:153-161 | A block that still lacks something, or is skipped as seen, stays listed under something not included. |
| `Scheduling.EndTurn` | broadcast/depgraph.go:163-169 | After a turn the list and the pending entry can go: the block is on no other list. |
| `Scheduling.AddAwaitLists` | broadcast/depgraph.go:47-66 | addPending lists the block under exactly the given dependencies besides what was listed. |
| `Depgraph.Depgraph.constructor` | broadcast/depgraph.go:19-32 | A new scheduler is valid and includes exactly what the store includes. |
| `Depgraph.Depgraph.Step` | broadcast/depgraph.go:133-173 | One received block, with the whole cascade it sets off, keeps the invariant; the cascade ends. |
| `Depgraph.Depgraph.RunCascade` | broadcast/depgraph.go:146-173 | The cascade ends in a quiet state and only adds to what was released. |
| `Depgraph.Depgraph.VisitList` | broadcast/depgraph.go:152-162 | One waiting list, with the seen set and its resets, is gone through without missing a block that can go. |
| `Depgraph.Depgraph.ProcessBlock` | broadcast/depgraph.go:177-212 | True if and only if the block was included or all it needs is; released at most once; otherwise parked on exactly what it lacks. |
| `Depgraph.Depgraph.FindMissing` | broadcast/depgraph.go:183-199 | Exactly the needs that are not included, own blocks skipped. |
| `Depgraph.Depgraph.IsIncluded` | broadcast/depgraph.go:85-103 | Whatever the two caches hold, the answer is membership in the set of ids ever released or stored as included. |
| `Depgraph.Depgraph.PruneCache` | broadcast/depgraph.go:115-132 | Keeping any thousand cache entries never changes an answer. |
| `Depgraph.SomeEntries` | broadcast/depgraph.go:119-127 | The copying loop keeps that many entries with their values. |
| `Depgraph.Depgraph.ActuallyIncluded` | broadcast/depgraph.go:34-38 | Dropping a mark once the store knows of the block never changes an answer. |
| `Depgraph.Depgraph.MarkIncluded` | broadcast/depgraph.go:105-110 | Both caches hold the id as included. |
| `Depgraph.Depgraph.AddPending` | broadcast/depgraph.go:47-66 | The loop adds the block to each list once. |
| `Depgraph.Depgraph.Add` | broadcast/depgraph.go:40-45 | A received block joins the input and nothing else changes. |
| `Depgraph.Depgraph.GetBlocks` | broadcast/depgraph.go:68-83 | At any time, also in the middle of a cascade: hands out the longest front of the queue within the size limit; nothing is lost or reordered. |
| `Depgraph.IncludeReleased` | broadcast/broadcast.go:311-382 | At any time: taking released blocks, storing them as included and clearing their marks leaves the waiting lists, the pending blocks and all answers as they are; the store then includes exactly those as well. |
| `Depgraph.StoreIndex.SetBlock` | broadcast/store.go:585-624 | A new block is stored as not included; no known block's mark changes. |
| `Depgraph.StoreIndex.SetOwnBlock` | broadcast/store.go:676-743 | Exactly the dependencies become included and lose their not-included key. |
| `Lexinum.OrderExact` | internal/lexinum/lexinum.go:55-102 | For all uint64s numeric order is the byte order of the encodings, and equal encodings mean equal numbers. |
| `Lexinum.OrderEmbedding` | internal/lexinum/lexinum.go:55-102 | A smaller number has a smaller encoding, across the boundary of the two forms. |
| `Formats.SmallMeans` | internal/lexinum/lexinum.go:62-77 | A number below 255*255*127 is three bytes, which are its digits in base 255. |
| `Formats.BigMeans` | internal/lexinum/lexinum.go:78-102 | A larger one is 255, a byte one above the number of digits, the digits in base 253 without leading zeros, and the remainder after a 1, if any: what these stand for adds up to the number. |
| `Formats.SmallDecodes` | internal/lexinum/lexinum.go:27-60 | On any bytes that do not start with 255: refused if and only if there are fewer than three or the first is below 128; otherwise the number, with the bytes taken modulo 256. |
| `Formats.BigDecodes` | internal/lexinum/lexinum.go:36-53 | On any bytes that start with 255: the digits up to the first 1 and the byte after it give the number, modulo 2^64; a 1 at the end is out of range. |
| `Formats.IdDecodes` | broadcast/store.go:804-839 | On any bytes: the id is what the parts before the first two zero bytes decode to, and what follows; with fewer zero bytes the rest of it is zero. |
| `Formats.RoundDecodes` | broadcast/store.go:841-854 | On any key: the round is what stands between its first two zero bytes; otherwise an error, or out of range. |
| `Truncation.GraphCut` | broadcast/store.go:111-161 | A written block graph that is cut short anywhere is out of range when it is read, never another block graph. |
| `Formats.WrittenOut` | broadcast/store.go:856-906 | A block id, a key, a block graph with a dependency, and a transaction log, byte by byte. |
| `Lexinum.RoundTrip` | internal/lexinum/lexinum.go:25-102 | Decoding an encoding gives the number back, for every uint64. |
| `Lexinum.NoZeroByte` | internal/lexinum/lexinum.go:57-102 | No encoding contains a zero byte. |
| `Lexinum.Pow` | internal/lexinum/lexinum.go:11-21 | The power modulo 2^64, for all arguments, although the squaring wraps. |
| `Lexinum.DigitsLength` | internal/lexinum/lexinum.go:79-82 | A number has at most k digits if and only if it is below the k-th power of the radix. |
| `Lexinum.AnnouncedAtMost8` | internal/lexinum/lexinum.go:79-83 | At most eight digits are announced, so the powers never wrap. |
| `Lexinum.CountDigits` | internal/lexinum/lexinum.go:79-82 | The loop with wrapped powers ends at the number of digits. |
| `Lexinum.LowDigits` | internal/lexinum/lexinum.go:84-94 | The digits, least significant first. |
| `Lexinum.Encode` | internal/lexinum/lexinum.go:57-102 | Computes the encoding that the order and round-trip results are about. |
| `Lexinum.Decode` | internal/lexinum/lexinum.go:25-53 | One pass computes the decoding on all slices: the two errors, the crash at a trailing remainder mark, and wrap-around. |
| `Keys.KeyOrder` | broadcast/store.go:786-802 | Keys sort by node, round and hash, and are equal only for equal ids. |
| `Keys.IdRoundTrip` | broadcast/store.go:804-906 | Reading a written id gives it back, zero bytes in the hash included. |
| `Keys.DecodeBlockID` | broadcast/store.go:804-839 | The one-pass reader splits any bytes at the first two zero bytes, errors and crashes included. |
| `Keys.DecodeBlockRound` | broadcast/store.go:841-854 | The one-pass reader finds what lies between the first two zero bytes after the prefix. |
| `Keys.KeyRound` | broadcast/store.go:841-854 | On a key this is the round of the key. |
| `RangeScan.ScanExact` | broadcast/store.go:88-98 | The iterator visits the key of an id if and only if the id is stored, of that node, and of a round from `from` on. |
| `RangeScan.NodePrefixExact` | broadcast/store.go:88-89 | A key begins with a node's prefix if and only if it is of that node. |
| `RangeScan.PrefixConvex` | broadcast/store.go:98 | What lies beyond a key with the prefix but lacks the prefix lies beyond all that have it, so the iterator may stop. |
| `RangeScan.Seek` | broadcast/store.go:98 | Finds the first key that is not before the start. |
| `RangeScan.GetMissing` | broadcast/store.go:342-381 | Unless the count of rounds wraps around: exactly the rounds after `since` up to the reported latest of which no block is stored, ascending, at most limit + 1; when not cut off, the latest is the last stored round. It wraps exactly if `since` is the largest round and a block of the node is stored, or two blocks of the largest round are and no more than `limit` rounds are missing; then round 0 is reported as missing. |
| `RangeScan.FillGap` | broadcast/store.go:368-376 | The inner loop appends the rounds before the next stored one, up to the limit. |
| `GraphCodec.GraphRoundTrip` | broadcast/store.go:111-161 | Reading a written block graph gives it back, whatever follows, if and only if every previous block in it, the own one and those of the dependencies, has a hash or is the zero id. |
| `GraphCodec.GraphReadBack` | broadcast/store.go:111-161 | In any case it gives the graph with every other previous block replaced by the zero id. |
| `GraphCodec.EmptyDepPrevLost` | broadcast/store.go:856-896 | A dependency of round 2 or later whose previous block has an empty hash, which processBlock accepts, comes back with the zero id instead. |
| `GraphCodec.NormalBytes` | broadcast/store.go:856-896 | The graph that is read back is written as the same bytes, so a second reading loses nothing more. |
| `GraphCodec.EncodeBlockGraph` | broadcast/store.go:856-896 | The writing loops produce the written form. |
| `GraphCodec.DecodeBlockGraph` | broadcast/store.go:107-161 | The reading cursor agrees with the recursive reader on all bytes, out-of-range reads and id errors included. |
| `Replay.GetBlockGraphs` | broadcast/store.go:81-170 | On any keys and values: the graphs from the start of the range on, up to the first that cannot be read, with its error or crash. On written graphs: those of a node from a round on, as they are read back, ascending, up to a positive limit, with everything left out coming after; complete when short. |
| `Replay.BatchRounds` | broadcast/store.go:81-170 | For a chain of own blocks a batch holds consecutive rounds and is short only at the end of the chain. |
| `Replay.ReplayGraphChanges` | broadcast/broadcast.go:842-855 | The batches together add the graphs of the rounds that ReplayedOnce is about, in that order, each as it is read back, for all starts and any chain of own blocks. |
| `Replay.ReplayedOnce` | broadcast/broadcast.go:842-855 | Every round from the start on is added once if and only if the start is at least 1 or there are fewer than 100 own blocks, and the steps of 100 do not get to 2^64; from 0, round 100 comes twice. |
| `Replay.ReplayedDelayDiffers` | broadcast/store.go:111-161 | The block of EmptyDepPrevLost sets the delay of its own node when it is interpreted live, and the delay of node 0 after a replay. |
| `TxLog.TxBuffer.constructor` | broadcast/broadcast.go:912-940 | An empty buffer of the given size. |
| `TxLog.TxBuffer.AddTransaction` | broadcast/broadcast.go:912-940 | A turn refuses a transaction if and only if its size is 2^32 or more or beyond the buffer; it appends exactly the transaction if and only if it does not refuse, the number of transactions is not just the limit, and the size and 100 bytes fit; otherwise it changes nothing. |
| `TxLog.TxBuffer.SetLimit` | broadcast/broadcast.go:284-302 | The limit changes, and nothing else. |
| `TxLog.LimitKeptExactly` | broadcast/broadcast.go:912-940 | Over any sequence of additions, changes of the limit and hand-offs: the number of transactions is never beyond the limit in force if and only if the limit is never set below the number there is. |
| `TxLog.PastTheLimit` | broadcast/broadcast.go:919-923 | Beyond the limit every transaction for which there is room is added. |
| `TxLog.TxBuffer.TakeBlock` | broadcast/broadcast.go:322-332 | The block gets the count and the written form of exactly the transactions since the last block. |
| `TxLog.TxIterator.constructor` | broadcast/ext.go:73-80 | An iterator over any data has all of it to come. |
| `TxLog.TxIterator.Next` | broadcast/ext.go:57-65 | On any data: gives the first transaction and leaves the rest to come, or panics if and only if there is none. |
| `TxLog.ReadAll` | broadcast/ext.go:57-80 | Iterating while valid gives what the function ReadTxs says, panics included. |
| `TxLog.ReadsExactly` | broadcast/ext.go:57-80 | For any data and count: the iteration gives certain transactions if and only if there are that many and the data begins with their written form; otherwise it panics. |
| `TxLog.WrittenIsRead` | broadcast/ext.go:57-80 | Iterating over a block gives exactly the transactions added, in order. |

## Left out

- Agreement across views, and termination of consensus: a view change reports only the hash prepared in the view that timed out, and from view 1 on whoever passes a proposal on counts as having prepared it, so the code does not support it.
- Agreement between the interpreters of different nodes: all results are about one node's run over its own block graphs.
- Consensus.ViewZeroAgreement: says nothing about rounds already delivered, because clone drops their votes; deliver ignores later decisions about them.
- TenRounds.NeverStops: not for runs in which a timeout can be due; from then on views change, and agreement is not supported by the code.
- Consensus.PruningLosesNothing: not for a block that comes back after one of its links was interpreted in between: its new state may go with the max that it had the first time. `Feed.SteadyExactly` says when that happens.
- Deadlines.DueInTime: for blocks of rounds that are not delivered; below them clone drops timeouts by the round they are for.
- Expiry.ExpiryExact: timeout lists are values, where a clone shares the memory of its original's lists: with two blocks that name the same previous block, an append for one may overwrite an element appended for the other. The timeouts of the model, and so this result, Expiry.TimeoutsInStep and those of Deadlines, are those of the code where no two blocks name the same previous block. View-change maps, which clones also share, are modelled as shared.
- GraphObject.MutableGraph.ProcessMessage: a block's state is a value that is passed and returned, not an object updated in place; states of different blocks do not share it.
- Protocol.Interpret: votes are sets of ids, not words of bits; class Bitset proves the two equal for ids in range, and `Consensus.VotersAreNodes` that all ids are.
- A configuration without peers, and the callback's own effects.
- Depgraph.Depgraph.Add: asks that two blocks of one id need the same, since an id contains the hash of its block.
- Locks, goroutines and condition variables: each operation of the scheduler is one step, and isIncluded does not interleave with a pruning of its cache; taking blocks does interleave with a cascade.
- The Badger database: its keys are a sorted sequence, its transactions are atomic, and a closed or failing database is not modelled.
- Quorums.ViewChangeQuorum: asks that the references to view-change maps in the state are to maps that exist.
- GraphCodec.GraphRoundTrip: for ids whose written form fits the 16-bit length, and counts below 2^32.
- TxLog.TxBuffer.AddTransaction: one turn of the waiting loop, as one step; the signal it waits for is not modelled, nor that the limit is read under another lock than the buffer is written.
- Filling in missing blocks, broadcasting, rate control, acknowledgement, hashing, signatures and protobuf in package broadcast.
- Other getters and setters of the store, the caches of own and received blocks, and the offline replay tool.
- Packages config, internal (but for lexinum), network (but for the range of node ids), node, pubsub, rest, service and txlistener, and the commands.
