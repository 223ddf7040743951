# A verified model of CovenantSQL's cores

CovenantSQL runs SQL databases on untrusted nodes: a replicated log (kayak) drives a storage
worker through two-phase commit, a per-database chain packs acknowledged queries into blocks, and
a main chain keeps the accounts that pay for it. This project models those cores in Dafny and
proves what they are for. `dafny verify dfyconfig.toml` checks all of it.

Code that changes state is a class whose methods are proved equal to a step function on values;
the properties are then proved of the step functions, over whole runs. I/O that can fail is a
parameter of the step (`Io`, `Sql`, `writes`, `durable`, `reach`), a message is a `Link` that is delivered
or not, and map iteration orders are arbitrary choices. A hash is an arbitrary function: results
that rest on collision resistance say "equal, or these two inputs collide", with the inputs taken
from the data at hand.

- **Replicated log** (`KayakLog`, `KayakNode`, `KayakChain`, `KayakAnswers`, `KayakLeader`,
  `KayakCluster`, `KayakBreaking`, `KayakRounds`, `KayakAtomic`, `KayakRunner`). A node is a log
  store, a commit position and an Idle/Prepared phase. A cluster is one leader and any number of
  followers under events that may be lost, fail or restart nodes. Agreement holds over every run in
  which rollbacks reach the followers that hold the rolled-back entry. Without that it fails: one
  lost rollback is enough (`LostRollbackExposes`), and `BreakableIff` says from exactly which
  agreeing clusters between rounds, lagging followers included, disagreement is reachable. Nobody
  commits before everybody has prepared, and a round is committed everywhere or leaves no trace
  (`RoundIsAtomic`). `ProcessNewLog` refines the leader's code to a run of that transition system.
- **Replicas** (`KayakReplica`). The cluster with a storage worker on every node, whose answers
  follow from what it was told before. Every database is the replay of its node's committed log, so
  replicas that have committed equally far have equal databases. A worker is prepared before the
  entry is stored; if storing it fails, nobody closes the worker's transaction (`RetryIff`).
- **Query index** (`QueryIndexSpec`, `QueryIndexHeights`, `QueryIndexBlocks`, `QueryIndexRuns`,
  `QueryIndex`, `QueryIndexBuckets`). Three maps over shared mutable trackers, one set of them per
  height. The corruption errors are unreachable, and at each height a query has at most one signed
  ack, exactly when blocks from elsewhere list at most one response per query. An ack stays with the
  block that has it. Blocks of one's own are pushed unchecked; that they are packed from what was
  collected here, once, is enough.
- **Account state** (`LedgerSpec`, `LedgerRefinement`, `LedgerRuns`, `LedgerTotals`, `Ledger`). A
  copy-on-write overlay over committed accounts refines a plain map ledger and conserves money.
  Where it does not is stated exactly: transfers crash on a deletion mark over a committed
  account, a commit that fails half-way leaves objects shared between both maps, and a reload keys
  accounts by the address inside them.
- **Storage worker** (`Storage`). The database is the replay of the batches whose commit reported
  success and took effect; every answer follows from the calls and answers before it. The source ignores the result of the SQL commit; `ReportedCommitIff`
  says when that matters.
- **Merkle tree** (`PowerOfTwo`, `Merkle`). The flat array with its bit-smearing size equals the
  level-by-level tree, and its root binds lists of one length.
- **Consistent hashing** (`ByteOrder`, `RingOrder`, `Ring`, `RingNeighbors`). Minimal movement, and
  the neighbour walk against "first n distinct wanted nodes clockwise". The walk does not end on
  some rings: `Terminates` says on which, `HaltsIff` proves it exact, `SpinningRing` is one. For
  every number asked for, `WalkedIs` says what comes out without walking.
- **Block index** (`BlockIndex`). A chain is read back from the ordered keys exactly when its keys
  rise along it. A block that does not follow its predecessor is looked up by the source under its
  own hash instead of its parent's, so that path always ends in parent-not-found.
- **Database services** (`ServiceMap`, `Allocator`, `AllocatorRing`, `Dsn`). The per-node index agrees with the
  database map; the allocator's choice is the best one; DSNs survive printing and parsing exactly
  when they are free of their separators. A comment in `buildPeers` says that the leader is the
  server with the most memory; the code takes the first one on the ring.
  `LeaderNeedNotBeLargest` is a case, `LeaderIsLargestIff` says when both are the same.

## Model

| member | source | states |
|---|---|---|
| KayakLog.SerializeInjective | kayak/types.go:66-84 | two entries have the same bytes if and only if index, term, data and last hash agree |
| KayakLog.SerializedParts | kayak/types.go:66-84 | where each field sits in the bytes: index, term and length as eight little-endian bytes each, the data, then the last hash or one zero byte |
| KayakLog.Sealed | kayak/types.go:55-63 | an entry built by the leader passes VerifyHash and keeps its fields |
| KayakNode.LastIndex | kayak/boltdb_store.go:146-158 | the largest stored index, 0 for an empty store |
| KayakNode.PrepareSafe | kayak/twopc_runner.go:504-560 | a Prepare request, failing anywhere, changes no committed entry and keeps the hash links |
| KayakNode.CommitSafe | kayak/twopc_runner.go:562-611 | a Commit request advances by at most one entry that is already stored and extends the committed log |
| KayakNode.RollbackSafe | kayak/twopc_runner.go:613-660 | a Rollback request touches only uncommitted entries |
| KayakNode.RoundSafe | kayak/twopc_runner.go:337-416 | a leader round extends the committed log by exactly the new entry when it reports success |
| KayakNode.RestartSafe | kayak/twopc_runner.go:145-221 | a restart keeps the committed log and leaves the node idle |
| KayakNode.RunSafe | kayak/twopc_runner.go:145-660 | over any run of requests, rounds, failures and restarts the committed log is present, contiguous and only grows |
| KayakNode.RunSafeFromStart | kayak/twopc_runner.go:98-143 | the same from the first start on |
| KayakNode.AppliedDataIsDurable | kayak/twopc_runner.go:280-293 | the offset of a successful Apply reads back the same data after any further run |
| KayakNode.RestartRecovers | kayak/twopc_runner.go:145-240 | with working stores a restart succeeds if and only if no stored term is ahead of the peers, and drops exactly the uncommitted entries |
| KayakNode.UnpersistedCommitIsLost | kayak/twopc_runner.go:596-604 | a commit whose stable-store write failed is undone by the next restart |
| KayakNode.RunLinked | kayak/twopc_runner.go:504-660 | a node that keeps one role keeps every stored entry linked to its predecessor's hash |
| KayakNode.RoundKeepsLinksIff | kayak/twopc_runner.go:337-374 | a leader round keeps the links if and only if no entry beyond the new slot names another hash |
| KayakAnswers.PreparedIff | kayak/twopc_runner.go:504-560 | a Prepare is answered with Ok if and only if the entry is correct and something is stored for it already, or it extends the store and every call it takes works |
| KayakAnswers.PreparedMeansStored | kayak/twopc_runner.go:504-560 | after an Ok the store reaches the entry's index; what is new is the entry alone, taken by the storage worker |
| KayakAnswers.CommittedIff | kayak/twopc_runner.go:562-611 | a Commit takes effect if and only if the node is prepared and the entry is stored right behind the commit position; Ok means that and that the worker committed |
| KayakAnswers.RolledBackIff | kayak/twopc_runner.go:613-660 | a Rollback is answered with Ok if and only if nothing is stored that far or the entry behind the commit position goes; then it is gone unless the deletion failed |
| KayakAnswers.RollbackUndoesPrepare | kayak/twopc_runner.go:504-660 | rolling back what was just prepared gives the node back |
| KayakAnswers.StraysChangeNothing | kayak/twopc_runner.go:430-486 | requests from anyone but the leader, and unknown ones, are refused and change nothing |
| KayakLeader.RoundIff | kayak/twopc_runner.go:337-416 | a round commits if and only if everyone and the leader itself prepared, reports success if and only if the worker committed too, and otherwise clears its slot |
| KayakLeader.LeaderLogIs | kayak/twopc_runner.go:337-416 | over every run, the leader's log holds exactly the payloads of the rounds that went through, in order, each under the term of the last start |
| KayakLeader.LeaderLogFromStart | kayak/twopc_runner.go:114-143 | the same from the first start on |
| KayakLeader.TermsRise | kayak/twopc_runner.go:145-240 | in every run the term on disk never goes back and no start under an older one succeeds |
| KayakLeader.LogTermsRise | kayak/twopc_runner.go:337-345 | the terms along a leader's log never fall |
| KayakChain.StrandedEntry | kayak/twopc_runner.go:613-660 | rolling an entry back leaves a later prepared one in the store |
| KayakChain.MixedRolesBreakLinks | kayak/twopc_runner.go:337-611 | a node that leads one round on top of a stranded entry and follows again commits an entry behind a predecessor it does not name |
| KayakChain.CommittedIsChain | kayak/twopc_runner.go:528-543 | the committed log of a safe, linked node is a hash chain from the first entry |
| KayakChain.EqualLastHash | kayak/types.go:55-84 | chains with equal last hash are equal entry by entry, or two of their entries collide |
| KayakChain.SameHeadSameLog | kayak/twopc_runner.go:528-543 | nodes with the same last log hash have the same committed log, or two of its entries collide |
| KayakCluster.EventKeeps | twopc/twopc.go:81-189 | every event of a round keeps the cluster invariant and never shortens the leader's log |
| KayakCluster.RunAgrees | twopc/twopc.go:128-189 | over every run, each follower's committed log is a prefix of the leader's plus the entry being committed |
| KayakCluster.FollowersConsistent | kayak/twopc_runner.go:504-660 | from a fresh cluster of any size, of two followers one has a prefix of the other's committed log |
| KayakBreaking.BreakableIff | kayak/twopc_runner.go:504-660 | between rounds, from any agreeing cluster, disagreement is reachable if and only if some follower holds a prepared entry at the commit position and every follower would still prepare the next one |
| KayakBreaking.FrozenRun | kayak/twopc_runner.go:528-543 | a follower whose last entry is not the leader's blocks every round, and agreement lasts whatever is lost |
| KayakRounds.FaultFreeRound | twopc/twopc.go:128-189 | every round in which all calls arrive, are answered and find working stores, in any order, ends with the payload committed on the leader and on every follower |
| KayakRounds.RoundCanFinish | twopc/twopc.go:128-189 | such a round can always be brought to its end |
| KayakRounds.LostRollbackExposes | twopc/twopc.go:81-102 | with two followers there is a run in which a single undelivered rollback is all that is unreliable, and agreement can be broken from where it ends |
| KayakRounds.NoLossNoExposure | twopc/twopc.go:81-102 | without a lost rollback there is none |
| KayakAtomic.CommitsOnlyPrepared | twopc/twopc.go:128-189 | in every run in which followers restart between rounds only, lost calls and failing stores included, the leader commits only when every follower has something stored at the entry's index |
| KayakAtomic.EveryonePrepared | twopc/twopc.go:140-178 | the same from any quiet cluster, for each follower |
| KayakAtomic.RoundIsAtomic | twopc/twopc.go:128-189 | from a cluster with nothing pending, whatever fails in phase one, as long as the calls of phase two get through: the payload is committed on every node if all calls of phase one went well, and otherwise every node is as before |
| KayakReplica.DatabasesReplicate | kayak/twopc_runner.go:337-660 | over every run of nodes with their storage workers, of any cluster size, every database is the replay of its node's committed log and all committed logs agree |
| KayakReplica.EqualReplicas | kayak/twopc_runner.go:562-611 | replicas that have committed equally far have equal databases |
| KayakReplica.RollbackTold | kayak/twopc_runner.go:613-660 | a rollback that reaches the worker of a follower holding the entry is never refused by it |
| KayakReplica.RetryIff | kayak/twopc_runner.go:546-556 | after a prepare and its rollback the next batch is accepted if and only if the entry had been stored; a failed store leaves the worker's transaction open |
| KayakReplica.RestartFrees | kayak/twopc_runner.go:114-143 | after a restart the worker takes the next batch, whatever was open before |
| KayakRunner.TwoPCRunner.DeleteRange | kayak/boltdb_store.go:206-229 | the cursor loop removes exactly the inclusive range, or nothing when the transaction fails |
| KayakRunner.TwoPCRunner.ProcessPrepare | kayak/twopc_runner.go:504-560 | the handler is the Prepare step of the node model |
| KayakRunner.TwoPCRunner.ProcessCommit | kayak/twopc_runner.go:562-611 | the handler is the Commit step of the node model |
| KayakRunner.TwoPCRunner.ProcessRollback | kayak/twopc_runner.go:613-660 | the handler is the Rollback step of the node model |
| KayakRunner.TwoPCRunner.TryRestore | kayak/twopc_runner.go:145-221 | a start is the restart step; a failed start leaves commit position, term and committed entries on disk |
| KayakRunner.PrepareAll | twopc/twopc.go:128-189 | phase one asks every worker and is the matching run of prepare events |
| KayakRunner.PreparesDecide | twopc/twopc.go:140-167 | phase one fails if and only if some worker, as it was before, does not reply with Ok |
| KayakRunner.FirstError | twopc/twopc.go:128-189 | the first error in worker order decides |
| KayakRunner.CommitAll | twopc/twopc.go:104-125 | the commit loop is the matching run of commit events |
| KayakRunner.RollbackAll | twopc/twopc.go:81-102 | the rollback loop is the matching run of rollback events |
| KayakRunner.Put | twopc/twopc.go:128-189 | prepare everywhere, then commit everywhere or roll back everywhere, as a run of the cluster |
| KayakRunner.ProcessNewLog | kayak/twopc_runner.go:337-416 | a leader round is a run of the cluster from quiet to quiet; it commits if and only if every worker, as it was, replies that it prepared and the leader's own prepare works, and reports success if and only if its worker applied the batch as well |
| QueryIndexSpec.AddResponseSound | sqlchain/queryindex.go:180-209 | adding a response keeps the index intact and only first acks signed |
| QueryIndexSpec.AddAckSound | sqlchain/queryindex.go:212-262 | adding an ack, also a rejected one, never reports corruption and keeps the index intact |
| QueryIndexSpec.ResponseFiled | sqlchain/queryindex.go:180-209 | a response is there once filed, keeping ack and mark, and nothing else changes |
| QueryIndexSpec.AckFiled | sqlchain/queryindex.go:212-262 | an ack is known once filed, accepted or not; the first ack of a response and of a query and all marks stay |
| QueryIndexSpec.AddAckIff | sqlchain/queryindex.go:212-262 | an ack is accepted if and only if it then is the ack of its response and the first of its query; it is a second ack of its response if and only if the former fails |
| QueryIndexSpec.CheckAckSound | sqlchain/queryindex.go:322-376 | a check never reports corruption; a known ack that passes is the first ack of its query afterwards |
| QueryIndexSpec.CheckAckIff | sqlchain/queryindex.go:322-376 | a known ack passes the check of a block if and only if of the responses to its query nothing else is marked, and it by no other block |
| QueryIndexSpec.SetMarkSound | sqlchain/queryindex.go:277-295 | setting or resetting a block touches no first ack and keeps the index intact |
| QueryIndexSpec.MarkAllSound | sqlchain/queryindex.go:379-389 | collecting leaves no unsigned first ack and keeps only first acks signed |
| QueryIndexSpec.SigningIff | sqlchain/chain.go:992-1010 | after a checked block is set only first acks are signed, if and only if the block lists at most one response per query |
| QueryIndexSpec.OneSignedPerQuery | sqlchain/queryindex.go:322-389 | two signed trackers of one query are the same tracker |
| QueryIndexSpec.PinnedThroughAck | sqlchain/queryindex.go:212-262 | a signed first ack is not displaced by further acks |
| QueryIndexSpec.PinnedThroughBlocks | sqlchain/queryindex.go:277-389 | a signed first ack is not displaced by checks, collections or signing |
| QueryIndexHeights.ScanGood | sqlchain/queryindex.go:480-498 | looking an ack up over the heights knows it exactly when its own height does, and makes it first there |
| QueryIndexBlocks.CheckAtIff | sqlchain/queryindex.go:480-498 | a look-up is refused as expired below the barrier; otherwise it knows exactly what is filed in range and refuses exactly what another mark stands against |
| QueryIndexBlocks.CheckBlockMarks | sqlchain/chain.go:992-1010 | checking a block, fetches included, changes no mark; if it passes, no other block has any of its acks |
| QueryIndexBlocks.SetBlockMarks | sqlchain/queryindex.go:501-523 | setting or resetting a block changes exactly the marks of the listed acks at the heights in range |
| QueryIndexBlocks.PushKeepsMarks | sqlchain/chain.go:992-1011 | pushing a block never takes an ack from the block that has it or it was collected for |
| QueryIndexBlocks.PushSigns | sqlchain/chain.go:992-1011 | every ack in range of a block that gets through is known, first of its query and marked by that block |
| QueryIndexBlocks.PushKnownIff | sqlchain/chain.go:992-1011 | a block of known acks is accepted if and only if no other response to their queries is marked and none of them by another block |
| QueryIndexBlocks.ResetFrees | sqlchain/queryindex.go:286-295 | resetting a block leaves the acks it lists unmarked, and the first ones among them can be collected again |
| QueryIndexBlocks.PushExpired | sqlchain/queryindex.go:484-487 | a block below the barrier that lists anything is refused and changes nothing |
| QueryIndexBlocks.CollectMarks | sqlchain/queryindex.go:562-573 | collecting marks unsigned first acks below the height with the placeholder, all of them and nothing else |
| QueryIndexBlocks.Expires | sqlchain/queryindex.go:548-558 | raising the barrier forgets exactly the heights it passes; look-ups below it are refused |
| QueryIndexBlocks.MarkStays | sqlchain/queryindex.go:468-573 | no operation but a reset, an own block or the end of the height changes a mark |
| QueryIndexHeights.PushBlockGood | sqlchain/chain.go:927-1011 | a block of another producer, fetched acks included, never meets corruption and keeps only first acks signed |
| QueryIndexRuns.OwnBlockFits | sqlchain/chain.go:962-965 | acks collected here are still the first of their queries when the own block that lists them is pushed unchecked |
| QueryIndexRuns.RunGood | sqlchain/chain.go:452-475 | from the empty index no run of filing, collecting, foreign and own blocks reports corruption, and at every height only first acks are signed |
| QueryIndexRuns.RunSignsOnce | sqlchain/queryindex.go:468-573 | in every reachable state each height has at most one signed response per query |
| QueryIndexRuns.OneBlockPerAck | sqlchain/queryindex.go:334-343 | in every run an ack stays with the block that has it, and every other block listing it is refused, until its height expires or the block is reset |
| QueryIndexRuns.OneBlockFromStart | sqlchain/chain.go:927-1011 | the same from the empty index, for whatever a run has brought about |
| QueryIndexRuns.CollectedOnce | sqlchain/chain.go:452-475 | an ack that was collected is not handed out again before it is packed, taken back or expired |
| QueryIndexHeights.PinnedStep | sqlchain/queryindex.go:468-573 | a signed first ack stays first and signed until its height expires or its block is reset |
| QueryIndex.MultiIndex.AddResponse | sqlchain/queryindex.go:180-209 | on the heap: the same as on values, and never corrupted |
| QueryIndex.MultiIndex.AddAck | sqlchain/queryindex.go:212-262 | on the heap: the same as on values, through all three maps and the shared trackers |
| QueryIndex.MultiIndex.GetAck | sqlchain/queryindex.go:264-274 | returns the ack the tracker carries, if the hash is known |
| QueryIndex.MultiIndex.SetSignedBlock | sqlchain/queryindex.go:277-295 | on the heap: marks exactly the tracker of the ack |
| QueryIndex.MultiIndex.CheckAckFromBlock | sqlchain/queryindex.go:322-376 | on the heap: the same as on values, with the corruption branches unreachable |
| QueryIndex.MultiIndex.MarkAndCollectUnsignedAcks | sqlchain/queryindex.go:379-389 | the loop marks all unsigned first acks and lists exactly their hashes, one per query |
| QueryIndexBuckets.Buckets.AddResponse | sqlchain/queryindex.go:399-472 | adds to the bucket of the height, creating it, and leaves all other buckets alone |
| QueryIndexBuckets.Buckets.AddAck | sqlchain/queryindex.go:475-477 | adds to the bucket of the height, never reporting corruption |
| QueryIndexBuckets.Buckets.CheckAckFromBlock | sqlchain/queryindex.go:480-498 | the loop over heights is the scan of the value model |
| QueryIndexBuckets.Buckets.SetMarks | sqlchain/queryindex.go:501-523 | the nested loops mark every listed ack at every height in range |
| QueryIndexBuckets.Buckets.AdvanceBarrier | sqlchain/queryindex.go:548-558 | drops exactly the buckets between the barriers |
| QueryIndexBuckets.Buckets.MarkAndCollectUnsignedAcks | sqlchain/queryindex.go:562-573 | lists exactly the unsigned first acks below the height, one per height and query, and marks them |
| QueryIndexBuckets.Buckets.CheckAndPush | sqlchain/chain.go:992-1010 | the query checks with fetching, then signing, as one step of the value model; never corrupted |
| LedgerSpec.SafeAddExact | blockproducer/metaindex.go:30-36 | the wrap-around test refuses exactly the sums beyond 64 bits |
| LedgerSpec.CommitPartKeeps | blockproducer/metastate.go:121-171 | a commit cut short anywhere leaves every effective lookup unchanged |
| LedgerSpec.CommitAllKeeps | blockproducer/metastate.go:121-171 | a whole commit keeps the effective lookup; memory and bucket then hold exactly that |
| LedgerSpec.ReloadIff | blockproducer/metastate.go:173-207 | reloading restores the bucket's accounts if and only if each sits under its own address |
| LedgerRefinement.StoreRefines | blockproducer/metastate.go:62-75 | load-or-store acts like the plain one if and only if no deletion mark covers a committed account |
| LedgerRefinement.ChangeRefines | blockproducer/metastate.go:215-249 | a balance change crashes if and only if the account carries a deletion mark, and is otherwise the plain one |
| LedgerRefinement.TransferRefines | blockproducer/metastate.go:251-319 | a transfer crashes if and only if a deletion mark covers a committed account of a party, and is otherwise the plain one |
| LedgerRefinement.BillRefines | blockproducer/metastate.go:487-497 | a billing that does not crash is the plain one, receiver by receiver; without deletion marks none crashes |
| LedgerRefinement.BillCrashIff | blockproducer/metastate.go:487-497 | a billing crashes if and only if it gets to a receiver with a deletion mark or to the end of a list that is too short |
| LedgerRuns.StepWithin | blockproducer/metastate.go:215-355 | overlay operations leave the bucket alone and reach committed accounts only through shared objects |
| LedgerRuns.StepRefines | blockproducer/metastate.go:47-319 | each operation is one step of the plain ledger with the same answer |
| LedgerRuns.RunRefines | blockproducer/metastate.go:47-319 | a run of the overlay is a run of the plain ledger, answer by answer |
| LedgerRuns.TameRun | blockproducer/metastate.go:47-355 | without deletions no run crashes or diverges from the plain ledger, failed commits included |
| LedgerRuns.TameFromStart | blockproducer/metastate.go:39-45 | the same from the empty state on |
| LedgerRuns.CleanRestores | blockproducer/metastate.go:209-213 | cleaning up after any overlay operations gives back exactly the committed accounts |
| LedgerRuns.FailedCommitThenClean | blockproducer/metastate.go:130-147 | after a half-done commit a clean-up restores the last commit if and only if nothing worked off differs from it |
| LedgerRuns.WritesThroughIff | blockproducer/metastate.go:215-249 | a balance change alters the committed accounts in memory if and only if the object is shared |
| LedgerRuns.HalfCommitWritesThrough | blockproducer/metastate.go:130-147 | after a half-done commit a balance change alters the committed accounts in memory if and only if the account had been worked off |
| LedgerTotals.TransferTotal | blockproducer/metastate.go:251-319 | a transfer, refused or not, keeps the total of either coin |
| LedgerTotals.TransferIff | blockproducer/metastate.go:251-319 | a transfer goes through if and only if the sender has the amount and the receiver has room; then it changes hands and nobody else's money does |
| LedgerTotals.RefusedTransfer | blockproducer/metastate.go:258-302 | a refused transfer changes no account and opens at most two empty ones |
| LedgerTotals.BillTotal | blockproducer/metastate.go:487-497 | a billing adds exactly its fees and rewards, repeated receivers included; a failed one a prefix of them |
| LedgerTotals.BillShares | blockproducer/metastate.go:487-497 | a billing that goes through gives every address exactly its own fees and rewards |
| LedgerTotals.RunConserves | blockproducer/metastate.go:121-319 | over any run of transfers, commits and billings the totals grow by exactly what the billings granted |
| Ledger.MetaState.LoadAccountObject | blockproducer/metastate.go:47-60 | finds an account exactly when the effective lookup has it |
| Ledger.MetaState.LoadOrStoreAccountObject | blockproducer/metastate.go:62-75 | on the heap: the same as on values |
| Ledger.MetaState.DeleteAccountObject | blockproducer/metastate.go:107-112 | leaves a deletion mark |
| Ledger.MetaState.ChangeBalance | blockproducer/metastate.go:215-249 | copy on write, then a range-checked change of one balance; no committed object is written unless shared |
| Ledger.MetaState.TransferAccountStableBalance | blockproducer/metastate.go:251-319 | on the heap: both balances are worked out before either copy is written |
| Ledger.MetaState.ApplyBilling | blockproducer/metastate.go:487-497 | the loop is the billing of the value model, crashes on short lists included |
| Ledger.MetaState.Commit | blockproducer/metastate.go:121-171 | the loop in any order commits all, or stops at a failed write with what it has worked off |
| Ledger.MetaState.Reload | blockproducer/metastate.go:173-207 | rebuilds memory from the bucket in key order, the last account per address winning |
| Ledger.MetaState.Clean | blockproducer/metastate.go:209-213 | drops the overlay |
| Ledger.AddSafely | blockproducer/metaindex.go:30-36 | adds, or refuses exactly when the sum exceeds 64 bits |
| Ledger.SubSafely | blockproducer/metaindex.go:39-45 | subtracts, or refuses exactly when the balance is too small |
| Storage.DatabaseIsReplay | sqlchain/storage/storage.go:134-234 | after any calls the database is the replay of the last prepared batches of the commits that succeeded, whole and in order |
| Storage.ReportedIsReplay | sqlchain/storage/storage.go:134-234 | when every SQL commit works, the database is the replay of all commits that reported success |
| Storage.ReportedCommitIff | sqlchain/storage/storage.go:198-201 | a reported commit is applied if and only if the SQL commit worked or the batch changes nothing |
| Storage.OneAtATime | sqlchain/storage/storage.go:144-234 | while a batch is open, any sequence of calls under other ids is refused and changes nothing |
| Storage.ExecuteIff | sqlchain/storage/storage.go:179-196 | a batch goes through if and only if all of it is reached and every query is accepted in turn |
| Storage.OpenIs | sqlchain/storage/storage.go:134-234 | which batch is open after any calls, read off the calls and their answers alone |
| Storage.AnswersAre | sqlchain/storage/storage.go:134-234 | every answer of every sequence of calls follows from the calls and answers before it and the replay of what was committed |
| Storage.RolledBackIsGone | sqlchain/storage/storage.go:212-234 | a batch that was rolled back is not committed unless it is prepared again |
| Storage.Storage.Prepare | sqlchain/storage/storage.go:134-164 | the method is the prepare step |
| Storage.Storage.Commit | sqlchain/storage/storage.go:167-209 | the query loop is the commit step: all queries or none |
| Storage.Storage.Rollback | sqlchain/storage/storage.go:212-234 | the method is the rollback step |
| PowerOfTwo.Smear | merkle/merkletrie.go:31-41 | or-ing with itself shifted by k doubles k leading ones |
| PowerOfTwo.UpperPowOfTwo | merkle/merkletrie.go:31-41 | the least power of two not below n up to 2^63; 0 for n = 0 and beyond |
| Merkle.FlatCell | merkle/merkletrie.go:56-69 | behind the leaves each cell is the merge of the two cells its position points to |
| Merkle.FlatRoot | merkle/merkletrie.go:45-77 | the last cell is the level-by-level root, never empty |
| Merkle.Build | merkle/merkletrie.go:51-69 | the loop fills the array with all levels, reading only written cells |
| Merkle.Merkle.constructor | merkle/merkletrie.go:45-72 | sized by the least power of two, last cell the root; an empty list counts as one zero hash |
| Merkle.RootBinds | merkle/merkletrie.go:45-83 | lists of one length with one root are equal, or the digest collides on two of the concatenations that their trees hash |
| Merkle.OddRepeat | merkle/merkletrie.go:61-63 | repeating the last hash of an odd list keeps the root, so the length is needed |
| ByteOrder.Order | proto/nodeinfo.go:70-78 | byte-by-byte comparison is a strict total order on keys of one length |
| ByteOrder.SortedUnique | consistent/consistent.go:328-339 | the sorted keys are a function of the key set |
| RingOrder.NodeKeyLess | proto/nodeinfo.go:70-78 | the loop decides the lexicographic order |
| RingOrder.KeyStringsMeetIff | consistent/consistent.go:127-130 | two placements share their string if and only if the longer id is the shorter one behind characters that close the other replica number |
| RingOrder.KeyStringInjective | consistent/consistent.go:127-130 | for ids of one length the hashed string determines id and replica |
| RingOrder.KeyStringsMeet | consistent/consistent.go:127-130 | a pair of ids of different length that meet |
| Ring.JoinMovesOnlyToNew | consistent/consistent.go:152-159 | a name changes its owner only to the joining node |
| Ring.LeaveMovesIff | consistent/consistent.go:169-183 | the deciding key of a name changes if and only if the leaving node's keys contain it |
| Ring.JoinAndLeave | consistent/consistent.go:152-183 | leaving undoes joining if and only if no point was taken from another node, and joining undoes leaving if and only if the node held all its points |
| Ring.PointsIff | consistent/consistent.go:152-159 | a node sits exactly at the hashes of its replica strings |
| Ring.LeaveIsMinimal | consistent/consistent.go:169-183 | after any joins and leaves without key collisions, a leave moves only names the node owned |
| Ring.SharedPointIsHashCollision | consistent/consistent.go:127-130 | nodes with ids of one length share a key only through a collision of the hash |
| Ring.SortKeys | consistent/consistent.go:328-339 | lists the circle's keys in order, each once |
| Ring.Consistent.AddCache | consistent/consistent.go:152-159 | places all replicas, later nodes overwriting, and re-sorts |
| Ring.Consistent.Remove | consistent/consistent.go:169-183 | drops all keys of the id and re-sorts, or changes nothing when the store refuses |
| Ring.Consistent.Search | consistent/consistent.go:230-240 | binary search finds the first key strictly behind, wrapping around |
| Ring.Consistent.GetNeighbor | consistent/consistent.go:208-217 | the node at the successor of the name's key, or an error on an empty circle |
| RingNeighbors.SeenIsDistinct | consistent/consistent.go:300-314 | what a round collects is the distinct wanted nodes in order |
| RingNeighbors.SeenOnce | consistent/consistent.go:341-348 | no id is collected twice |
| RingNeighbors.SpinsForever | consistent/consistent.go:301-314 | a walk that has not ended within one round from position 0 never does |
| RingNeighbors.HaltsIff | consistent/consistent.go:301-314 | it ends if and only if it starts elsewhere, or two or more nodes are asked for and exist, or one and (under a filter) the first two positions do not hold different wanted nodes, or none and those positions hold none |
| RingNeighbors.TooManySpin | consistent/consistent.go:301-314 | from position 0, asking for more nodes than match never ends |
| RingNeighbors.SpinningRing | consistent/consistent.go:301-314 | a ring of two nodes of different roles on which it never ends |
| RingNeighbors.WalkedIsFirst | consistent/consistent.go:272-317 | with enough distinct wanted nodes and n >= 2, or n = 1 unfiltered, the result is the first n of them |
| RingNeighbors.OneFilteredOutcome | consistent/consistent.go:293-315 | n = 1 with a filter gives the nearest wanted node, or every wanted node, or does not return, each exactly when |
| RingNeighbors.OneFilteredIff | consistent/consistent.go:293-315 | n = 1 with a filter is met exactly if and only if the first two positions are not different wanted nodes |
| RingNeighbors.WalkedIs | consistent/consistent.go:293-317 | for every number of nodes asked for: the first n, all there are, or no return, said without walking |
| RingNeighbors.ClockwiseOrder | consistent/consistent.go:301-308 | each position of the walk is the ring successor of the one before |
| RingNeighbors.GetNeighborsEx | consistent/consistent.go:272-317 | for every ring, name and number: an error on an empty circle, a crash on a negative number, and otherwise the outcome told without walking, no return included |
| BlockIndex.KeyOrderIff | sqlchain/blockindex.go:80-85 | keys are ordered by height with negative heights last, and by hash within one height |
| BlockIndex.ReloadIff | sqlchain/chain.go:203-254 | a stored chain is read back if and only if its keys rise along it, and then unchanged |
| BlockIndex.RoundTrip | sqlchain/chain.go:203-341 | pushing a chain of rising heights and scanning the store gives the same chain without an error |
| BlockIndex.AncestorIff | sqlchain/blockindex.go:64-78 | along rising heights the ancestor at a height is found if and only if a block has it |
| BlockIndex.Ancestor | sqlchain/blockindex.go:64-78 | the pointer walk is the walk down the chain |
| BlockIndex.Chain.Extend | sqlchain/blockindex.go:35-62 | a new node gets the head as parent and the next count |
| BlockIndex.Chain.PushBlock | sqlchain/chain.go:307-341 | head, index and store are extended together |
| BlockIndex.Chain.CheckAndPushNewBlock | sqlchain/chain.go:927-1011 | a block is accepted if and only if it is the head already, or names the head, verifies and is an own one or comes from the peer whose turn it is with queries that pass; the blocks stay a chain |
| BlockIndex.PeersTakeTurns | sqlchain/chain.go:932-937 | the peers produce in turn, one after the other and from the beginning again |
| BlockIndex.Chain.Load | sqlchain/chain.go:203-254 | the scan rebuilds nodes, parents, heights and counts, or stops at the first block it cannot place |
| BlockIndex.Chain.FetchBlock | sqlchain/chain.go:834-848 | returns the stored block at the height, if the chain has one |
| ServiceMap.SetAgrees | blockproducer/db_service_map.go:75-109 | setting a database keeps the two maps in agreement, persisted or not |
| ServiceMap.DeleteAgrees | blockproducer/db_service_map.go:133-155 | deleting a database keeps the two maps in agreement, persisted or not |
| ServiceMap.GetAgreesIff | blockproducer/db_service_map.go:112-130 | a look-up keeps the agreement if and only if it takes in no database with servers from the store |
| ServiceMap.RunAgrees | blockproducer/db_service_map.go:75-155 | with a working store every run keeps the maps in agreement and equal to the store |
| ServiceMap.LookUpIs | blockproducer/db_service_map.go:75-155 | after any run, whatever the store refused, a look-up gives the last instance set for that database, or what the store has kept where memory has lost it |
| ServiceMap.FailedDeleteThenGet | blockproducer/db_service_map.go:112-155 | a failed delete and a look-up bring the maps out of step |
| ServiceMap.DBServiceMap.constructor | blockproducer/db_service_map.go:43-72 | starts with both maps in agreement with the store |
| ServiceMap.DBServiceMap.Set | blockproducer/db_service_map.go:75-109 | previous records go, new ones come, the store is told last |
| ServiceMap.DBServiceMap.Get | blockproducer/db_service_map.go:112-130 | cache first, then the store |
| ServiceMap.DBServiceMap.Delete | blockproducer/db_service_map.go:133-155 | removes the records and the database, the store last |
| ServiceMap.DBServiceMap.GetDatabases | blockproducer/db_service_map.go:158-174 | equals a full scan of the database map for the node, without repetition |
| Allocator.Stuck | blockproducer/db_service.go:357-414 | after a round with too few candidates the range no longer grows and no later round succeeds |
| Allocator.ChosenNeverExcluded | blockproducer/db_service.go:310-419 | a chosen server is a neighbour with more free memory than asked for and was not excluded in any round |
| Allocator.SearchIs | blockproducer/db_service.go:326-414 | the reach after a number of rounds, and who is out: exactly those excluded from the start or dismissed in an earlier round |
| Allocator.SucceedsIff | blockproducer/db_service.go:357-401 | a round succeeds if and only if enough neighbours that are not out have enough memory |
| Allocator.AllocateNodes | blockproducer/db_service.go:310-419 | succeeds if and only if some round does; then the requested number of distinct qualified servers, none left out with more memory, one leader |
| Allocator.Review | blockproducer/db_service.go:361-393 | splits the candidates into qualified and excluded by their metrics |
| Allocator.BuildPeers | blockproducer/db_service.go:445-495 | the chosen servers in ring order, the first of them leading |
| Allocator.ChosenIff | blockproducer/db_service.go:395-410 | with distinct memories a qualified node is chosen if and only if fewer than the requested number have more |
| Allocator.LeaderIsLargestIff | blockproducer/db_service.go:487-489 | with distinct memories the leader has the most memory if and only if every qualified node ahead of that one on the ring is beaten by at least the requested number |
| Allocator.LeaderNeedNotBeLargest | blockproducer/db_service.go:487-489 | an allocation that succeeds and whose leader does not have the most memory |
| AllocatorRing.RingIsProper | blockproducer/db_service.go:341-353 | the ring search gives the allocator every neighbour once |
| AllocatorRing.AllocateNodes | blockproducer/db_service.go:310-419 | on the ring: on success every search up to that round has returned and the servers are the best of what it gave |
| AllocatorRing.OneServerRequest | blockproducer/db_service.go:341-353 | a request for one server is given every wanted node, or hangs, where the first two positions hold different ones |
| Dsn.NewDSN | sqlchain/storage/dsn.go:31-54 | the loop parses filename and parameters, or fails on a part without '=' |
| Dsn.ParamsReadIff | sqlchain/storage/dsn.go:43-51 | parameters are read if and only if every part has a '=' |
| Dsn.LastParamWins | sqlchain/storage/dsn.go:43-51 | a key is there if and only if it was given, and stands for what was given last |
| Dsn.PrefixOptional | sqlchain/storage/dsn.go:31-40 | a string without the prefix is read as if it had it |
| Dsn.Format | sqlchain/storage/dsn.go:57-71 | prints filename and parameters in some order; what it prints parses back if and only if the DSN is free of its separators |
| Dsn.RoundTripIff | sqlchain/storage/dsn.go:31-71 | in any order, parsing a printed DSN gives it back if and only if the filename has no '?', keys no '=' or '&', values no '&' |

## Left out

- Delayed requests: a request is handled before Put moves on, or never.
- Leader crash in the middle of Put, leader changes, peer and term updates while a round runs: the source has no recovery for them.
- KayakRunner.ProcessNewLog: does not model the exhaustion of the 64-bit index, so it asks for two free indexes above the current one.
- KayakReplica.DatabasesReplicate: assumes in addition that no query of a committed batch fails and that SQL commits work; the source advances the commit position without looking.
- The checks of worker/db_storage.go in front of the storage worker (decoding, time window, sequence numbers) are an outcome of the call.
- KayakCluster.RunAgrees: assumes that commit positions reach the stable store and that rollbacks reach followers holding the entry; without the latter it is false, see BreakableIff.
- Goroutines, locks, timeouts and shutdown of the kayak runner: its run loop serialises all handlers.
- RPC, sessions, signatures, SHA-256, msgpack, bolt and SQLite internals: abstract functions, ordered maps and outcomes.
- The final commit of a bolt transaction is taken to work once all its writes did.
- The per-query list of responses in a query tracker, which is written and never read, and checkBeforeExpire, which only reports.
- QueryIndexRuns.RunGood: header hashes stand for one header each, a block from elsewhere lists at most one response per query, an own block lists what was collected here and not packed before, and the barrier is never moved back, as the turn only grows.
- The databases half of the account state, which has the shape of the accounts half, and the editing of database users.
- Ledger.MetaState.Commit: works off the accounts only; the loop over the databases in the same procedure is left out.
- Ledger.MetaState.Reload: reads the accounts only, and stored accounts decode.
- Ledger.MetaState.LoadOrStoreAccountObject: the object offered is a new one, as at its call sites.
- AllocatorRing.AllocateNodes: a ring search that does not return shows as a failed allocation.
- Nonces, the transaction pool and the billing index keyed by pointers.
- getBilling and SignBilling: their gas rules depend on remote fetches.
- Storage.Query and Storage.Exec, which run outside two-phase commit.
- GetTwoNeighbors and the persistence of the ring; Set, which is Remove and Add in a row.
- BlockIndex.Chain.Load: blocks under different keys have different hashes, so the source's look-up of a misplaced block under its own hash never succeeds.
- The signing of peers and the key store in buildPeers.
- The error a failed round reports: that of the first worker to fail, or of the leader's own prepare.
- BlockIndex.Chain.CheckAndPushNewBlock: whether the queries pass is a parameter; the checks themselves are QueryIndexBuckets.Buckets.CheckAndPush.
- Fork handling, observer replication, main-chain block production and the command-line programs.
