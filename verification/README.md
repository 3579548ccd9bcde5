# Proof-of-useful-work ledger node: verified model

The node mines blocks whose proofs are crawled web pages. This project models four connected
machines of the node and proves what holds over all their runs.

**Chain.** A tree of blocks with one ledger snapshot per block. `Chain` defines the tree and tip
preference, `Reorg` the rewrite of the height index, `Blocks` the `Blockchain` object, `Replay` its
meaning, `TipChoice` its tip in plain terms, and `Orphans` the buffer for blocks that arrive before
their parent. `Worklist` specifies the import of blocks from peers as a function and says what it
keeps for any input; `Sync` proves the import loop equal to it; `Convergence` proves that nodes
given the same valid blocks agree; `Peers` covers miners, who also add blocks of their own,
`Exchange` two nodes with histories of their own that are given each other's blocks, and `TipSplit`
two that hold the same blocks and still prefer different tips. The chain's abstract value is its
genesis and the map of blocks it has received: `Blocks.ChainValid` says what database, tip and
in-memory state must then be, and `Replay.ReceivedDeterminesChain` shows that it leaves no freedom.
The state transition of a block is a parameter (`Chain.Rules`) there; `Node` supplies the ledger's
transition and proves that it qualifies.

**Ledger.** `Ledger` transcribes the transaction and proof transitions; `Admission` and `Settlement`
say exactly which transactions and proofs are accepted and all that an accepted one changes;
`Money`, `Mentions` and `Frontier` prove invariants of each step, `Runs` of every run of
submissions, `Work` and `Scoring` the scoring of a block, `Signatures` that nothing unsigned is
stored, and `Node` carries the invariants through block preparation to every stored snapshot, which
`StoredRuns` reads as the run of the blocks on its path. `Normal` and `Rebroadcast` say when a mined
block prepares again as it was broadcast, and `Splits` what its peers make of one that does not.
`Refusals` says which errors the transitions return, and `Nonces` when a list of transactions runs.

**Mempool and mining tick.** `Pools` holds the indexed pending list, `Draining` the selection by
value, `Lanes` the worker pool as a state machine over schedules, `Routing` the pool run to its end
and what becomes of the outcomes, `Outcomes` which tasks are crawled and which held back, `Failures`
and `Retries` the failure counts of a tick and over ticks, `Tick` one mining tick, and `Stalls`
ticks whose block the ledger refuses. `Production` joins the tick to the chain: the priced proofs it
assembles, and the block that the chain makes of them.

**Self-contained algorithms.** `Base58` and `Addresses`, `CrawlLimits` (the two-level semaphore as
an object and as a state machine over interleavings) and `Windows` (the two fixed-window rate
limiters).

Loops and updated fields of the program are methods and classes here; each is proved equal to a
function or to the abstract value, and the properties are lemmas about that.

## Assumptions made explicit

- `Ledger.Env` and `Node.Network` hold hashing, Merkle roots, signature checks, JSON and ABI decoding,
  tokenizing and URL parsing as arbitrary functions. `EnvSound` asks only for digest sizes. The
  header digest of the chain is asked to be collision free and non-empty (`Chain.CollisionFree`);
  `Splits` also takes state roots to be free of collisions.
- A database transaction is one atomic update of `Chain.Store`.
- Amounts, heights, counts and times are unbounded integers, and times are not zero. The one place
  where the 64-bit limit shapes a result, `ComposeBasisPoints`, has its saturation written out.
- `Production.Desk` holds what a crawl found and what a submission was quoted. A pending task has the
  digest of its transaction as its identifier and a quote that is the ledger's split of its value
  (`Production.Quoted`), as submission leaves it; no digest of a submitted task is also the identifier
  that some follow-on task would be given (`Production.OwnId`).
- Mining a task is an arbitrary function of its index; the partitioner is an arbitrary predicate
  on work items; the re-crawl validator is an arbitrary function of parent state and block.
- Ledger transitions return a new snapshot on success only; the program changes a clone and drops
  it on error.

## Where the code differs from what one might expect

- A zero-version address with a non-zero hash prints but does not parse (`Addresses.ParsePrinted`).
- The replacement bump rounds toward zero, so below 10 an equal value replaces
  (`Pools.ReplacementPricing`).
- The entry guard lets a negative value through to a contract call, but no contract accepts it
  (`Money.TransactionMoves`).
- A deployment debits its value and credits only the fee, so the net value is destroyed
  (`Money.TransactionSupply`).
- A transfer is lost in a tick exactly when its nonce is at or past its sender's cutoff
  (`Tick.MineOnce`, with an instance in `Tick.TransferLost`); no record of it is kept.
- The quarantine record forgets entries of a tick exactly when the tick logs more than 256
  (`Tick.RecordHolds`, `Tick.RecordForgets`).
- A mined block prepares again at its peers exactly when no cut of a page text leaves a trailing
  space and the score does not count text beyond the cut (`Rebroadcast.BroadcastExactly`, with
  `Normal.ProofSettles` and `Normal.CutLeavesSpace`). Otherwise peers refuse
  it, or accept the same hash and state with the work of the cut texts (`Splits.AcceptedExactly` says
  when, with an instance in `Splits.LongBodySplitsWork`). As tip preference rests on that work, two
  nodes can store the same blocks and snapshots and keep different tips (`TipSplit.TipsPart`).
- A node catches up with another exactly when each block stored there prepares again and is approved
  (`Peers.CatchUp`). Two nodes with histories of their own that give each other their stored blocks
  end equal exactly when this holds of each block that only one had, and what both had they had alike
  (`Exchange.ExchangeBlocks`).
- Mining does not release parked orphans of the new block (`Peers.MineInStep`); such an orphan is
  stored only when it is delivered again (`Peers.OrphanStaysParked`), and even then stays parked
  (`Peers.OrphanOutlivesMining`, `Peers.OrphanRedelivered`).
- When a released orphan is refused, the released blocks behind it in the queue are dropped, neither
  stored nor parked; a block is stored exactly when it and all before it succeed
  (`Worklist.RunIsInOrder`, with instances in `Worklist.FailingSiblingLast` and `Peers.SiblingLost`).
  Of a valid and a refused orphan at one height the valid one is stored exactly when its hash comes first
  (`Peers.LowerHashDecides`).
- A block that lists a sender's transfer before its lower-nonce task is refused
  (`Nonces.InterleavedSenderIsRefused`); its work goes back to the pools, and the next tick builds the
  same block again (`Stalls.StandsStill`).
- Pruning of rate-limit windows is visible exactly when a request comes while a forgotten window
  has not lapsed, which takes a clock that goes back behind the latest pruning
  (`Windows.PruningShowsExactly`, `Windows.LatestPruningIsExact`).

## Model

| member | source | states |
|---|---|---|
| `Chain.PreferenceIsStrictTotalOrder` | core/blockchain.go:1340-1350 | Tip preference (work, then height, then lower hash) is irreflexive, transitive and total on different hashes. |
| `Text.BeforeIsByteOrder` | core/blockchain.go:1349 | The text comparison is byte order: where two texts first differ, the first one ends or has the smaller character. |
| `Blocks.BestIsHeaviest` | core/blockchain.go:1340-1350 | A tip is preferred to all stored blocks if and only if none has more cumulative work, none of equal work stands higher, and of those with equal work and height its hash comes first in byte order. |
| `Chain.PathAt` | core/blockchain.go:2469-2565 | Entry n of a block's path is its ancestor at height n, and the path up to it is that ancestor's own path. |
| `Chain.PathFrame` | core/blockchain.go:2418-2443 | Storing further blocks never changes the path of a stored block. |
| `Reorg.AncestorsOf` | core/blockchain.go:2523-2532 | The upward parent walk ends and collects exactly the hashes of the tip's path. |
| `Reorg.WalkTo` | core/blockchain.go:2534-2562 | The walk that stops at a given set returns the metadata strictly above the highest path entry in the set, tip first, or runs off the root when there is none. |
| `Reorg.ReorgPaths` | core/blockchain.go:2511-2565 | Between stored tips the fork point is always found and is the greatest common height; the two results are the two branches above it; the errors are exactly the empty and the unknown tip. |
| `Reorg.LeaveBranch` | core/blockchain.go:2479-2487 | Leaving a branch clears exactly the flags and height entries above the fork. |
| `Reorg.FlagsMoved` | core/blockchain.go:2479-2506 | After leaving and joining, a block is flagged exactly when it is on the new tip's path. |
| `Reorg.IndexMoved` | core/blockchain.go:2479-2506 | After leaving and joining, the height index holds exactly heights 0 to the new tip, also when the new branch is shorter. |
| `Reorg.RewriteCanonicalTip` | core/blockchain.go:2469-2509 | For any old and new stored tip the rewrite succeeds and leaves index and flags describing exactly the new tip's path; an unknown tip is an error. |
| `Blocks.StoredBestTip` | core/blockchain.go:1340-1350 | A stored block that beats the tip beats every stored block; one that does not leaves the tip the maximum. |
| `Blocks.AdoptedValid` | core/blockchain.go:2342-2368 | Storing a preferred prepared block with the canonical rewrite keeps the whole chain invariant, for the received set grown by that block. |
| `Blocks.ParkedValid` | core/blockchain.go:2388-2416 | Storing a prepared block that is not preferred keeps the whole chain invariant without moving the tip. |
| `Blocks.TipHasNoChild` | core/blockchain.go:1340-1350 | In a valid chain no stored block is a child of the tip, whatever its work. |
| `Blocks.MinedIsNewAndPreferred` | core/blockchain.go:1089-1124 | A block mined on the tip is never stored already and always beats the tip, so adopting it without comparison is right. |
| `Blocks.Blockchain.constructor` | core/blockchain.go:377-445 | A fresh data directory opens with the genesis as a valid one-block chain. |
| `Blocks.Blockchain.HasBlockHash` | core/blockchain.go:979-985 | Answers true exactly for the stored hashes, with or without the in-memory tip. |
| `Blocks.Blockchain.ParentState` | core/blockchain.go:1009-1073 | Returns the stored snapshot of the parent, also when it takes the in-memory state instead, and fails exactly when the parent is not stored. |
| `Blocks.Blockchain.PersistCanonicalTip` | core/blockchain.go:2342-2368 | One atomic write plus the in-memory update keeps the chain invariant and makes the block the tip. |
| `Blocks.Blockchain.MineBlock` | core/blockchain.go:1089-1124 | Either preparation fails and nothing changes, or the new block becomes the tip with its work added to the old tip's, was not stored before, and is held as broadcast when it prepares again. Either way the tip is the heaviest stored block, by work, height and hash, and the chain invariant (exact index, replayed snapshots) holds. |
| `Blocks.Blockchain.ImportBlock` | core/blockchain.go:1126-1166 | Every outcome: empty hash, already stored, missing parent, failed preparation (nothing changes), or stored with its work added to its parent's; then it is the tip if and only if it outweighs the old tip by work, else height, else hash. The tip is the heaviest stored block after each. |
| `Blocks.Blockchain.StoreImported` | core/blockchain.go:2388-2416 | Storing a prepared import keeps the chain invariant, and moves the tip if and only if the block outweighs it by work, else height, else hash. |
| `TipChoice.ValidIsCanonicalRun` | core/blockchain.go:2469-2509 | In every valid chain the height index is a linked run of blocks from the genesis to the tip, one at each height up to the tip's, and the flags mark exactly the blocks in it. |
| `TipChoice.HeavierBranchTakesOver` | core/blockchain.go:1126-1166 | An imported block whose branch has more cumulative work than the tip becomes the tip at whatever height it stands, and the index then runs along its branch and ends at its height. |
| `TipChoice.ShorterBranchWins` | core/blockchain.go:1340-1350 | With two blocks on one branch and a sibling of the first that has more work than both, the chain ends on the sibling and the index holds heights 0 and 1 only. |
| `Replay.SnapshotIsReplay` | core/blockchain.go:1174-1242 | Every stored snapshot, and so the in-memory state, is the replay from genesis of the received blocks on that block's path. |
| `Replay.SameAt` | core/blockchain.go:1174-1242 | Two chains with the same genesis agree on block, snapshot and metadata wherever they share a received block and its ancestors. |
| `Replay.ReceivedDeterminesChain` | core/blockchain.go:1089-1166 | Whatever the history of mining, importing and reorganising, two nodes that hold the same received blocks agree on tip, state, height index, flags, metadata and snapshots; a mined block is held as broadcast if it prepares again, else as the template it was made from. |
| `Orphans.SortBlocksSorts` | core/fork_choice.go:107-112 | Sorting released children leaves none before one that should precede it and adds or loses none. |
| `Orphans.OrderedLowestFirst` | core/fork_choice.go:107-112 | Blocks with different hashes are released by height, and at equal heights in byte order of their hashes. |
| `Orphans.ForkChoice.Decide` | core/fork_choice.go:34-57 | Which of ignore, buffer and import is chosen, and that buffering keeps the two maps in step. |
| `Orphans.ForkChoice.BufferBlock` | core/fork_choice.go:82-88 | A block is parked once under its hash and once in its parent's list. |
| `Orphans.TakeBuffered` | core/fork_choice.go:97-105 | The loop over a parent's hashes moves out exactly those blocks. |
| `Orphans.ForkChoice.CanonicalImported` | core/fork_choice.go:59-68 | Releases exactly the parked children of a block, lower heights first and at equal heights in byte order of the hashes, and leaves exactly the other parked blocks. |
| `Orphans.OrderIsUnique` | core/fork_choice.go:107-112 | That order is the only one: every sorted list of the same blocks without repeats is the released list. |
| `Worklist.DeliveryKeeps` | core/block_validation.go:285-325 | One delivery, for any block, rules and validator: a parked block leaves the buffer if and only if this call stored its parent; only the delivered block can enter, as an orphan; without an error all that left is stored, and the delivered block is stored, parked, or claims height 0 without a stored parent; with an error, what left and is not stored is in the queue that the call stopped at, and the first of that queue is the block that was refused. |
| `Worklist.RunIsInOrder` | core/block_validation.go:292-322 | A run imports exactly the depth-first list of what it releases, in that order, up to the first failure: a block is stored if and only if it and all before it succeed. |
| `Worklist.AttemptExactly` | core/block_validation.go:304-319 | An attempt stores a block if and only if the validator passes it, it is named, its parent is stored and the ledger prepares it; it fails if and only if the validator misses the parent's state or objects, the block is not named, or the ledger refuses it. A missing parent alone is no failure. |
| `Worklist.RunApproves` | core/block_validation.go:304-311 | If the validator approved every received block outside some set, that stays so over any run: a refused block is never stored. |
| `Worklist.StrandedStays` | core/block_validation.go:285-325 | A parked block whose parent is already stored is neither stored nor unparked by the delivery of any other block. |
| `Worklist.FailingSiblingLoses` | core/block_validation.go:304-319 | Two released children of which the first, by height or else by hash, fails: the call ends with its error, both have left the buffer and neither is stored. |
| `Worklist.FailingSiblingLast` | core/block_validation.go:304-319 | In the other order the valid one is stored before the other fails. |
| `Sync.Validate` | core/block_validation.go:304-311 | The verdict: none without a validator, an error when the parent's state is missing, else the validator's own on that state. |
| `Sync.ValidateAndImport` | core/block_validation.go:304-318 | A refusing validator or ledger stops the import with its error and an unchanged chain; a chain that misses the parent sets the block aside; otherwise the block is stored, as prepared. |
| `Sync.ImportCandidate` | core/block_validation.go:292-322 | One worklist turn leaves exactly the knowledge, the buffer and the released children, or the error, of the specified turn, in every case. |
| `Sync.ImportRemoteBlock` | core/block_validation.go:285-325 | The worklist terminates for every input and leaves exactly the knowledge, buffer and error of the specified run; a parked block leaves if and only if the call stored its parent; without an error what left is stored; an error is the validator's or the ledger's on a block that is not stored; no block that the validator refuses is stored. |
| `Sync.DeliveriesApprove` | core/block_validation.go:304-311 | No list of deliveries, failing ones included, stores a block that the validator refuses. |
| `Sync.StrandedStaysThroughout` | core/block_validation.go:285-325 | Nor is such a parked block by any list of deliveries that does not contain it. |
| `Convergence.HonestAttempt` | core/block_validation.go:304-318 | A block of a valid set whose parent is stored passes validation and preparation, and is stored as in the set's tree, whatever was imported before. |
| `Convergence.HonestDelivery` | core/block_validation.go:285-325 | Delivering a block of a valid set never fails and leaves each delivered block stored, or parked with its parent missing. |
| `Convergence.StoredIsReached` | core/block_validation.go:285-325 | At rest exactly the delivered blocks with no undelivered ancestor are stored. |
| `Convergence.DeliveredDeterminesNode` | core/block_validation.go:285-325 | Tip, state, index, metadata, snapshots and parked orphans depend only on the set of delivered blocks, not on order or repeats. |
| `Convergence.EverythingStored` | core/block_validation.go:285-325 | Once a parent-closed set is delivered, every block is stored and no orphan is left. |
| `Sync.DeliverAll` | core/block_validation.go:285-325 | A list of deliveries leaves exactly what delivering one after another specifies, each independent of whether another failed. |
| `Convergence.Converge` | core/block_validation.go:285-325 | Two fresh nodes fed the same valid blocks in any two orders, with any repeats, end equal in everything and no delivery fails. |
| `Peers.CatchUp` | core/block_validation.go:285-325 | A fresh node is fed the stored blocks of another, in any order with any repeats. It ends equal to the other, whatever that one's history, if and only if each stored block prepares again as stored and the validator approves it. |
| `Peers.MineInStep` | core/blockchain.go:1089-1124 | A node in step with its deliveries mines a block that prepares again: it stays in step if and only if no orphan of the new block is parked, since mining does not release orphans. |
| `Peers.OrphanOutlivesMining` | core/blockchain.go:1089-1124 | A child of the block that mining will produce is delivered first: after mining its parent is stored and the child is still parked, not stored. |
| `Peers.OrphanStaysParked` | core/block_validation.go:285-325 | On the objects: as long as such a child itself is not delivered, no deliveries of other blocks store it or take it from the buffer. |
| `Peers.OrphanRedelivered` | core/block_validation.go:285-325 | Delivered again, such a child is stored unless it is refused, and its parked copy stays in the buffer. |
| `Peers.SiblingLost` | core/block_validation.go:304-319 | A wrong-height child and another child are parked; when their parent arrives, the call errs on the first and the second is then neither stored nor parked, valid or not. |
| `Peers.LowerHashDecides` | core/block_validation.go:304-319 | A valid and a refused block are parked at one height. When their parent arrives the call errs, and the valid one is stored if and only if its hash comes first in byte order; otherwise it is neither stored nor parked. |
| `Exchange.JoinedReplays` | core/blockchain.go:1174-1242 | When two nodes agree on what both store, and the stored form of each block that only the second has prepares again, their stores together are the replay of both their blocks. |
| `Exchange.Fed` | core/block_validation.go:285-325 | A node with any history that is given all blocks of such a peer, approved ones, never errs, parks nothing and ends with exactly both stores. |
| `Exchange.FedAnyhow` | core/block_validation.go:285-325 | Whatever a peer sends of its stored blocks, the node keeps every block, snapshot and work it had, takes in nothing but those blocks, and only approved ones. |
| `Exchange.ExchangeBlocks` | core/block_validation.go:285-325 | Two nodes with any histories are given each other's stored blocks, in any orders with any repeats. They end equal if and only if what both stored they stored alike, and each block that only one of them stored prepares again as stored and is approved by the other's validator; then no delivery failed and nothing is parked. |
| `TipSplit.HeavierIsTip` | core/blockchain.go:1340-1350 | Of two received children of the genesis the one with more work is the tip, in whatever order they came. |
| `TipSplit.TipsPart` | core/blockchain.go:1298-1315 | A miner of a block with one long page and a peer that imports it are both given a sibling whose work lies between the two counts of the block: they store the same blocks and snapshots, and the miner's tip is its own block while the peer's is the sibling. |
| `Node.LedgerRulesSound` | core/blockchain.go:1174-1242 | The ledger's block preparation meets what the block tree asks of a state transition. |
| `Node.StampOnlyStamps` | core/blockchain.go:1230-1234 | Stamping changes nothing in the index but the block hash of the proved pages. |
| `Node.StampLeavesOthers` | core/blockchain.go:1230-1234 | The record of a page that no proof of the block names is left as it was. |
| `Node.StampIsInvisible` | core/blockchain.go:2101-2165 | The state root and the ledger invariant do not see the stamped block hashes. |
| `Node.RootCovers` | core/blockchain.go:2101-2165 | Two ledgers have the same root view if and only if balances, nonces, tasks, mention counts, names and the index up to block hashes agree. |
| `Node.TransactionsKeepInv` | core/blockchain.go:1185-1193 | A block's transactions keep the ledger invariant and never raise the supply. |
| `Node.ProofsKeepInv` | core/blockchain.go:1200-1208 | A block's proofs keep the ledger invariant and the supply, and index each page. |
| `Node.PreparedKeepsInv` | core/blockchain.go:1174-1242 | A prepared block's state root is the root of its own stored snapshot although hashes are stamped in afterwards; the ledger invariant holds; no money is created. |
| `Node.PreparedHeader` | core/blockchain.go:1209-1219 | A prepared header has the next height, the parent, the submitted time and miner, the Merkle root of the recorded transactions' hashes, that of the recorded proofs' hashes, the root of the ledger, and its digest as the block's hash; its work is counted over the tasks known after the transactions. |
| `Node.NamedIsAccepted` | core/blockchain.go:1221-1228 | A block that names its hash and whose parts apply is accepted if and only if its three roots are those values and its hash is the digest of its header; otherwise it is refused as invalid. |
| `Node.EverySnapshotSound` | core/blockchain.go:1055-1073 | In every reachable chain each stored snapshot keeps the ledger invariant, matches its header's state root and holds at most the genesis supply. |
| `Signatures.UnsignedBlockIsRefused` | core/blockchain.go:1637-1662 | A block that holds a transaction not signed by the key of its sender is refused, mined or received, whatever else it holds. |
| `Signatures.EveryRecordIsSigned` | core/blockchain.go:1637-1662 | Every transaction in every stored block above the genesis is signed by the key of its sender. |
| `StoredRuns.BlockRun` | core/blockchain.go:1174-1242 | Preparing a block leaves the ledger of the run of its transactions and then its proofs, with the hash stamped in, and the run's tally grows by the search tasks and net deployments that the block records. |
| `StoredRuns.StoredTally` | core/blockchain.go:1174-1242 | Every stored snapshot, after any mining, importing and reorganising, is the run of the received blocks on its path; the tally of that run adds up and equals what the blocks on the path record. |
| `StoredRuns.StoredSnapshotTallies` | core/blockchain.go:1356-1538 | In every stored snapshot the supply is the genesis supply less exactly the net deployments recorded on its path, and the tasks spawned on it number at most 20 for each recorded paid task beyond what the genesis left to spawn. |
| `Node.TransactionLoop` | core/blockchain.go:1183-1193 | The loop equals the fold; the first failing transaction decides the error. |
| `Node.ProofLoop` | core/blockchain.go:1200-1208 | The loop equals the fold; the first failing proof decides the error. |
| `Node.StampLoop` | core/blockchain.go:1230-1234 | The loop equals the specified stamping. |
| `Node.PrepareBlockInSteps` | core/blockchain.go:1174-1242 | The steps of preparation, with their error order, equal the specified function used by the chain. |
| `Normal.TransactionSettles` | core/blockchain.go:1674-1683 | A normalized transaction is its own normal form. |
| `Text.TrimIs` | core/blockchain.go:1674-1676 | Trimming takes off the white space at both ends, all of it and nothing else. |
| `Normal.ProofSettles` | core/blockchain.go:1685-1716 | A normalized proof is its own normal form if and only if no cut of its page's texts ends in white space. |
| `Normal.CutLeavesSpace` | core/blockchain.go:1697-1699 | A concrete title whose cut ends in a space, so that normalizing twice changes the page. |
| `Rebroadcast.CleanBlockIsAccepted` | core/blockchain.go:1174-1242 | When no cut of a submitted text leaves a trailing space, every holder of the parent accepts the block as broadcast, with the same hash and state, and counts the work of the cut proofs. |
| `Rebroadcast.BroadcastExactly` | core/blockchain.go:1174-1242 | A prepared block, as broadcast, prepares to itself again if and only if no cut of a submitted text leaves a trailing space and the submitted proofs score the same in their normal forms. |
| `Splits.UncleanBlockIsRefused` | core/blockchain.go:1697-1699 | When such a cut leaves a trailing space on the last proof of its page in the block, every holder of the parent refuses the block as broadcast. |
| `Splits.AcceptedExactly` | core/blockchain.go:1174-1242 | Over a ledger with its invariant: the holders of its parent accept a block as broadcast if and only if the cuts of each page's last proof leave no trailing space, and otherwise refuse it as invalid. Accepted, it has the hash and ledger of its miner and the work of the cut proofs. |
| `Splits.ProofInStep` | core/blockchain.go:1473-1538 | A proof and its normal form have the same effect on ledgers that differ only in search records and mention counts, and keep them so. |
| `Splits.LastRecord` | core/blockchain.go:1523-1527 | After a block's proofs a page's record is that of the last proof for it. |
| `Splits.LongPageQuality` | core/blockchain.go:1298-1315 | A page with one word of 16384 bytes as its body scores 640 basis points more than what is recorded of it. |
| `Splits.LongBodySplitsWork` | core/blockchain.go:1298-1315 | A block with one proof of such a page, at difficulty 10000, counts 640 less work at every peer than at its miner, on the same hash and state. |
| `Rebroadcast.NormalProofsPrepareAgain` | core/blockchain.go:1174-1242 | A block whose proofs are submitted in normal form always prepares to itself again. |
| `Nonces.AcceptedRuns` | core/blockchain.go:1380-1383 | An accepted list of transactions has run through its senders' nonces and counted each up by its transactions. |
| `Nonces.RunningIsNotRefusedForNonce` | core/blockchain.go:1380-1383 | A list that runs through its nonces is never refused for a nonce. |
| `Nonces.InterleavedSenderIsRefused` | core/engine.go:1020-1028 | An assembled block in which a sender's task has a nonce not above that of one of its transfers is refused. |
| `Refusals.OneNonce` | core/blockchain.go:1380-1383 | An accepted transaction carries its sender's next nonce and counts that sender up by one and nobody else; one refused for its nonce does not carry it; none is refused for a missing block. |
| `Admission.SignedExactly` | core/blockchain.go:1637-1662 | The signature check passes if and only if the kind is known, key and signature have their sizes, the signature verifies, and the sender is the printed version-1 address of the key; that address itself always passes the address check. |
| `Admission.UnsignedIsRefused` | core/blockchain.go:1637-1662 | A transaction without such a signature is never accepted. |
| `Admission.AcceptedExactly` | core/blockchain.go:1356-1471 | A transaction is accepted if and only if it is signed, has a readable value that fits its kind, the sender's next nonce and a covering balance, and: a transfer goes to an account, a free name at its price, or without value to a note contract; a task request is readable and complete; a deployment has a free address. |
| `Admission.AppliedChanges` | core/blockchain.go:1389-1468 | All an accepted transaction changes: account by account the value, the fee of 3.33 percent rounded down and the rest; one nonce; the requested task field by field, the registered name, the contract or its note; nothing else. |
| `Money.TransactionMoves` | core/blockchain.go:1356-1471 | Every accepted transaction has a non-negative value, has a key of 32 and a signature of 64 bytes that verifies, names the address of that key as its sender, and moves exactly its value: debit, fee, and net to the payee (nothing on a deployment). |
| `Money.TransactionSupply` | core/blockchain.go:1389-1468 | Supply is unchanged by every transaction, but falls by exactly the net value on a deployment. |
| `Money.SignerIsNotEscrow` | core/types/address.go:170-183 | No key's printed address is the escrow name, so no signature can debit the escrow. |
| `Money.TransactionKeepsMoney` | core/blockchain.go:1356-1471 | Accepted transactions keep all balances non-negative and the escrow at or above the unsettled rewards. |
| `Money.EscrowCovers` | core/blockchain.go:1497-1499 | Under the invariant the escrow covers each unsettled task's reward. |
| `Money.ProofNeverLacksEscrow` | core/blockchain.go:1497-1499 | Under the invariant a proof never fails for lack of escrow. |
| `Money.ProofPays` | core/blockchain.go:1473-1538 | An accepted proof settles one unsettled task, moves exactly its reward from the escrow to the miner, indexes the page and adds exactly the spawned tasks. |
| `Money.ProofSupply` | core/blockchain.go:1501-1502 | Supply is unchanged by every proof. |
| `Money.ProofKeepsMoney` | core/blockchain.go:1473-1538 | Accepted proofs keep all balances non-negative and the escrow at or above the unsettled rewards. |
| `Normal.PageIsStored` | core/blockchain.go:1685-1757 | What is stored of a page: title, snippet and body whole or as many whole characters as fit in 1024, 512 and 8192 bytes; at most 64 links, trimmed, each once, and all of them if there are fewer. |
| `Normal.SizesAreEncoded` | core/blockchain.go:1718-1734 | The sizes that cuts go by are the lengths of the UTF-8 encoding. |
| `Settlement.ProofAcceptedExactly` | core/blockchain.go:1473-1502 | A proof is accepted if and only if it names task, page and miner, its digest is right or left out, the task is unsettled, the three amounts are the task's, and the escrow covers the reward. |
| `Settlement.AppliedProofChanges` | core/blockchain.go:1501-1538 | All an accepted proof changes: the reward from the escrow to the miner; the page's record, whose counts are the multiplicities of the tokens of query, title and body; the settled task; and at most 4 follow-on tasks for new pages; nothing else. |
| `Mentions.TermCountsPositive` | core/blockchain.go:3058-3064 | A page's counts hold exactly its terms, each positive. |
| `Mentions.IndexPageKeepsMentions` | core/blockchain.go:1523-1527 | Indexing or re-indexing a page keeps each cached count equal to the sum over all pages, and a key present exactly when the sum is positive. |
| `Mentions.TransactionKeepsMentions` | core/blockchain.go:1356-1471 | Transactions keep the cache in agreement. |
| `Mentions.ProofKeepsMentions` | core/blockchain.go:1506-1527 | Proofs keep the cache in agreement. |
| `Mentions.AddMentionCounts` | core/blockchain.go:3066-3070 | The loop, in any term order, adds each count once. |
| `Mentions.SubtractMentionCounts` | core/blockchain.go:3072-3081 | The loop, in any term order, subtracts each count and deletes keys that would not stay positive. |
| `Frontier.CandidatesAreNew` | core/blockchain.go:1819-1865 | Candidate links are distinct, not indexed and not the target of any active task. |
| `Frontier.CandidatesExactly` | core/blockchain.go:1837-1859 | A page is a candidate if and only if some link normalizes to it and it is not the proof's or the parent's page, not skipped, not indexed and not the target of an active task. |
| `Frontier.TargetsAreNew` | core/blockchain.go:1759-1785 | Links that become tasks are distinct, not indexed, not the target of an active task, at most 4, within the global limit, and only below depth 2. |
| `Frontier.TargetsFill` | core/blockchain.go:1763-1785 | As many candidates are taken as there are, up to 4 and up to 1024 active follow-on tasks; none for a follow-on task of depth 2. |
| `Frontier.RankingIsStrictTotal` | core/blockchain.go:1873-1887 | The candidate comparison is a strict total order, so the sort has one result. |
| `Frontier.TargetsAreBest` | core/blockchain.go:1873-1887 | Every link taken ranks before every candidate passed over: same host, then no query, then fewer path segments, then shorter, then byte order. |
| `Frontier.SpawnKeepsFrontier` | core/blockchain.go:1787-1816 | Writing the spawned tasks keeps depth at most 2, at most 1024 active, and pairwise different active pages. |
| `Frontier.SpawnedAre` | core/blockchain.go:1787-1816 | Spawning adds, for each target, a free task one level deeper in the name of the origin, and changes no other task. |
| `Frontier.TransactionKeepsFrontier` | core/blockchain.go:1421-1442 | Paid search tasks keep the frontier invariant. |
| `Frontier.ProofKeepsFrontier` | core/blockchain.go:1529-1536 | Settling and spawning keep the frontier invariant. |
| `Frontier.ProofSpendsPotential` | core/blockchain.go:1529-1536 | A proof spends at least as much of the 20/4/0 potential as the tasks it spawns. |
| `Frontier.TransactionPotential` | core/blockchain.go:1421-1442 | Only a paid search task brings potential, and at most 20. |
| `Runs.StepKeepsTally` | core/blockchain.go:1356-1538 | One submitted transaction or proof, accepted or refused, keeps all ledger invariants and the running totals. |
| `Runs.RunTheorem` | core/blockchain.go:1356-1538 | After every run: no negative balance, solvent escrow, supply lowered only by deployments, spawned tasks at most 20 per paid one, at most 1024 active, depth at most 2, distinct pages, true name prices. |
| `Work.ComposeBasisPoints` | core/constants/constants.go:71-90 | The loop equals the fold: rounding up at each step, zero absorbing, saturating at the 64-bit maximum. |
| `Work.ProofWorkBounds` | core/blockchain.go:1280-1296 | A proof scores at least max(1, floor(d/10)) and at most max(1, floor(1.634 d)). |
| `Work.ProofWorkFalls` | core/blockchain.go:1317-1326 | A proof never scores more when its host or its submitter occurs more often. |
| `Work.BlockWorkOrder` | core/blockchain.go:1244-1278 | Reordering the proofs of a block changes neither its work nor whether it is computable. |
| `Work.CountOccurrences` | core/blockchain.go:1254-1263 | The counting loop gives each host and submitter its number of proofs and fails exactly when a proof names an unknown task. |
| `Work.ComputeBlockWork` | core/blockchain.go:1244-1278 | The two loops compute the sum of transaction units and proof scores. |
| `Scoring.BlockWorkIs` | core/blockchain.go:1244-1338 | The work of a block exists if and only if each proof names a known task. It is one per transaction, one more per search task, and per proof the difficulty weighted by quality and by its shares among the proofs of its host (not below a quarter) and of its submitter (not below two fifths), at least one. |
| `Pools.ReplacementPricing` | core/engine.go:1546-1558 | A replacement never lowers a slot's value exactly when the current value is above -10, and always raises it exactly from 10 on (below 10 the bump rounds away). |
| `Pools.SlotKeyInjective` | core/engine.go:1333-1335 | The slot key determines sender and nonce, whatever characters the sender holds. |
| `Pools.AddKeepsInv` | core/engine.go:197-231 | Adding or replacing keeps hashes and slots unique and both limits. |
| `Pools.AddDecides` | core/engine.go:197-231 | What an offer comes to: nothing for a known hash; replacement in place for a taken slot that it outbids by a tenth, else the refusal; else the pool-full or sender-full refusal; else the last place. |
| `Pools.RequeueKeepsInv` | core/engine.go:246-278 | Requeueing any list keeps the invariant. |
| `Pools.RequeueSkips` | core/engine.go:246-278 | An entry that is refused while requeueing is skipped, but a full pool drops it and all behind it. |
| `Pools.SelectSplits` | core/engine.go:306-325 | Removal from a nonce on splits the pool in two parts, each entry in its own part and in pool order. |
| `Pools.SlotValueNeverFallsOverRuns` | core/engine.go:246-278 | Nor over any sequence of offers. |
| `Pools.Pool.constructor` | core/engine.go:157-175 | A new pool is empty with empty indices. |
| `Pools.Pool.IndexOfHash` | core/engine.go:1293-1300 | Finds the first entry with a hash, or reports that there is none. |
| `Pools.Pool.SlotHolder` | core/engine.go:206-217 | The slot map finds exactly the entry in the same slot; the branch for a hash that is no longer pending cannot be reached. |
| `Pools.Pool.Add` | core/engine.go:197-231 | The new list and the error are those of the offer's written-out outcome, and the three index maps still match the list exactly. |
| `Pools.Pool.Requeue` | core/engine.go:246-278 | The new list is the specified fold that skips refusals and stops when full; the index maps still match. |
| `Pools.Pool.RebuildIndices` | core/engine.go:1302-1311 | The rebuilt maps match the list exactly. |
| `Pools.Pool.Drain` | core/engine.go:233-244 | Takes the oldest entries, the rest stays in order, the index maps still match. |
| `Pools.Pool.RemoveSenderFromNonce` | core/engine.go:518-537 | Removes exactly a sender's entries at or past a nonce and returns them in pool order. |
| `Draining.GreedyMembers` | core/engine.go:363-447 | Greedy picks are distinct members of the pool. |
| `Draining.GreedyTakesPrefixes` | core/engine.go:363-447 | Per sender the picks are the lowest nonces: whatever precedes a pick was picked before it. |
| `Draining.GreedyPicksBest` | core/engine.go:396-424 | Each pick is best (value, then time, then hash) among the sender heads left. |
| `Draining.GreedyInOrder` | core/engine.go:396-424 | Each pick has the lowest nonce of its sender among what is left, and more value, else an earlier time, else the hash first in byte order, than every other entry of which that is true. |
| `Draining.GreedyUnique` | core/engine.go:363-447 | The selection of a given length is determined by the pool. |
| `Draining.BestSender` | core/engine.go:396-424 | The scan returns a sender whose head no other head beats, or none when all queues are empty. |
| `Draining.GroupBySender` | core/engine.go:375-383 | Grouping lists each sender once with exactly its entries in pool order. |
| `Draining.SelectHighest` | core/engine.go:394-430 | The selection loop is greedy and takes exactly the limit. |
| `Draining.SplitIsExact` | core/engine.go:431-446 | Selected plus remaining is a permutation of pending, the remainder in pool order. |
| `Draining.DrainHighestValue` | core/engine.go:363-447 | The whole operation: the smaller of limit and size is selected, each pick a sender's lowest nonce and first by value, time and hash; exact split, index maps rebuilt. |
| `Lanes.LanesCoverOnce` | core/engine.go:1047-1063 | Every task is in exactly one place of exactly one lane. |
| `Lanes.MinedIsPrefix` | core/engine.go:1083-1111 | The mined tasks of a mempool lane are a prefix of the lane. |
| `Lanes.StepFits` | core/engine.go:1076-1119 | Every worker step keeps lanes, workers and slots consistent. |
| `Lanes.EveryScheduleAgrees` | core/engine.go:1037-1122 | For every worker schedule that finishes, each slot was written exactly once and equals running that lane alone in order. |
| `Lanes.NeverStuck` | core/engine.go:1076-1120 | Until the work is done some worker can take a step. |
| `Lanes.StartSteps` | core/engine.go:1065-1076 | At the start the bound on the steps to come is the sum over the lanes of their length plus two. |
| `Lanes.StepsFall` | core/engine.go:1076-1120 | Every worker step that changes something lowers that bound. |
| `Lanes.EveryScheduleCanFinish` | core/engine.go:1076-1120 | Every schedule can be continued, within the bound, to one that finishes all lanes. |
| `Routing.RequeueFits` | core/engine.go:449-481 | Entries that were drained from a pool always fit back in, all of them. |
| `Routing.RouteAllConserves` | core/engine.go:897-983 | Each mempool outcome goes to exactly one of mined, failed and quarantined, and each cutoff is the nonce of a quarantined task of its sender. |
| `Routing.LogIsExact` | core/engine.go:904-933 | Routing logs exactly the quarantined tasks and the follow-on tasks that failed for good, each once. |
| `Routing.RouteIsClean` | core/engine.go:897-983 | With a sender's tasks in nonce order and held back after a failure, every quarantined task is at or past its sender's cutoff and every mined or retried task is before it. |
| `Routing.CutSplits` | core/engine.go:1529-1544 | The cutoff filter splits the transfers exactly: one is removed if and only if it is at or past its sender's cutoff. |
| `Tick.Engine.RecordQuarantined` | core/engine.go:1272-1291 | The record holds the last 256 of everything quarantined. |
| `Tick.Engine.RouteOutcomes` | core/engine.go:897-983 | The outcome loop equals the specified routing, of which `Failures.AllSettledRight` and `Outcomes.ProofsExactly` say what it comes to, and logs every quarantined task. |
| `Failures.AllSettledRight` | core/engine.go:917-951 | A crawled task has no failure count. A failed one is given up if its reason is terminal or it had failed twice in a row: quarantined, if it came from the pool, and without a count. Otherwise it is retried with one more counted. A task held back keeps its count. |
| `Failures.RoutingCountsRight` | core/engine.go:1254-1269 | So for all tasks of a tick at once; tasks that the tick did not touch keep their counts, and no count ever reaches three. |
| `Tick.Engine.ApplyCutoffs` | core/engine.go:987-1006 | In any sender order, both pools lose exactly the entries at or past a cutoff: what is removed is past one, what stays is not; the removed tasks are logged. |
| `Tick.TakeWork` | core/engine.go:819-873 | Draining and partitioning lose nothing, skipped tasks return to the pool, and the owned tasks of a sender are in nonce order. |
| `Tick.BatchSizes` | core/engine.go:819-873 | A tick drains at most 256 transfers and at most the given number of tasks, 8 if none is given. |
| `Tick.OfferBlock` | core/engine.go:1020-1034 | A block is offered unless there is nothing in it; a refused block's transfers and tasks all return to the pools. |
| `Tick.Quarantine` | core/engine.go:985-1007 | A drained or pending transfer is dropped, and a pending task quarantined, if and only if it is at or past its sender's cutoff. |
| `Tick.MineOnce` | core/engine.go:814-1035 | One tick: every task ends in exactly one of block, pool and quarantine, and in the quarantine if and only if it is at or past its sender's cutoff; a transfer is lost if and only if it is past that cutoff; each cutoff is its sender's lowest quarantined nonce; the log grows by exactly the quarantined tasks and the follow-on tasks that failed for good, and the record holds them all if and only if they number at most 256. A task that fails is back in the pool with one more counted, or quarantined at its third failure in a row or for a terminal reason. The outcomes come from the worker pool under any interleaving. |
| `Retries.RetriedAtMostTwice` | core/engine.go:917-945 | Over any number of ticks, each with its own batch, crawls, partition and answer of the chain: while a task stays pending, its count is exactly the number of its failures since it was last crawled, and never more than two. |
| `Retries.ThirdFailure` | core/engine.go:917-945 | A task that fails in three successive ticks for a passing reason is pending with counts one and two, and after the third is quarantined, out of the pool and without a count. |
| `Tick.TransferLost` | core/engine.go:985-1007 | A concrete tick: a sender's task with nonce 0 fails for good and its transfer with nonce 1 is then in no block, no pool and no log. |
| `Production.PricedRight` | core/engine.go:1446-1471 | A drained task is priced as the ledger records it if and only if its quote is the ledger's split of its value or has a zero in it. |
| `Production.ProofMatches` | core/engine.go:952-978 | The proof that a tick builds meets no amount error against a task if and only if the three amounts of the task are those of the work item's record. |
| `Production.ProofIs` | core/engine.go:952-978 | The proof carries the record's identifier, query and amounts, the crawl's page, address, digest and time, and this node as its miner. |
| `Production.ProofsNotRefused` | core/blockchain.go:1473-1502 | Proofs that match their tasks at the start of a block are, whatever the earlier proofs settle and spawn, never refused for an amount or for lack of escrow. |
| `Production.ProofsSettle` | core/blockchain.go:1473-1538 | Once the proofs of a block are applied, the task of each is settled and stays so. |
| `Production.RoutedProofs` | core/engine.go:897-983 | Routing builds proofs of worked items only, those of mempool tasks only for mined ones, and at least one for each mined task. |
| `Production.AssembledNotRefused` | core/engine.go:1020-1034 | A block assembled from quoted tasks and listed follow-on tasks, with its own task transactions applied first, is never refused for the amounts of its proofs. |
| `Production.CarriedIsSettled` | core/engine.go:952-983 | When the ledger prepares an assembled block, each task in it is settled in the resulting state. |
| `Production.MineTick` | core/engine.go:814-1035 | One tick on the engine and its chain together: the chain takes an offered block with work in it if and only if the ledger prepares it, never refuses it for amounts, and then has it as its tip, with every transfer and task of the offer recorded and every task settled; otherwise the chain is unchanged. Each pending task and transfer ends in that block, in its pool, or past its sender's cutoff, which is so if and only if it is at or past it. |
| `Stalls.InterleavedIsNotTaken` | core/engine.go:1020-1034 | A chain that checks the ledger takes no block in which a sender's task has a nonce not above that of one of its transfers. |
| `Stalls.InterleavedTick` | core/engine.go:814-1035 | In any tick, if the transfers and the mined tasks interleave a sender like that, no block results and both pools hold what they held before but what a cutoff took. |
| `Stalls.StandsStill` | core/engine.go:814-1035 | With one such transfer and one such task pending and every crawl successful, no number of ticks produces a block or changes a pool. |
| `Tick.RecordHolds` | core/engine.go:1288-1290 | The last entries logged are all in the record if and only if they number at most 256. |
| `Tick.RecordForgets` | core/engine.go:1288-1290 | With 257 entries logged the first is no longer in the record, and all the others are. |
| `Routing.OutcomesAnswer` | core/engine.go:1116-1121 | The outcomes of the lanes answer every work item, in item order. |
| `Routing.OutcomesHoldBack` | core/engine.go:1083-1111 | A failed task holds back all later tasks of its sender. |
| `Outcomes.OutcomesExactly` | core/engine.go:1083-1111 | Under any concurrency and interleaving a pending task is held back if and only if an earlier one of its sender fails; every other task is crawled, once, for itself. |
| `Outcomes.ProofsExactly` | core/engine.go:952-983 | A tick builds a proof from every crawled page and no other, in task order, and carries exactly the pool tasks among them. |
| `Routing.RunPool` | core/engine.go:1065-1120 | The worker pool ends with every lane done, whichever worker moves next at each point, and its end is that of the schedule it took. |
| `Routing.MineSearchTasks` | core/engine.go:1037-1122 | Lanes, pool and slots together return, for any number of workers and any interleaving, the outcome of each item's lane run alone and in order. |
| `Routing.MinedNoncesArePrefix` | core/engine.go:1037-1122 | From the drain through partition and any schedule: when a task is mined, every owned task of its sender with a lower nonce is mined too. |
| `Base58.RecodeRoundTrip` | core/types/address.go:213-267 | Converting digits between bases with leading zeros kept is inverted by converting back, and yields valid digits. |
| `Base58.AlphabetIsCharOf` | core/types/address.go:28 | The decode arithmetic agrees with the 58-character alphabet at every position. |
| `Base58.DecodeEncoded` | core/types/address.go:213-267 | Decoding the encoding of any non-empty byte string, leading zeros included, returns it. |
| `Base58.EncodeDecoded` | core/types/address.go:213-267 | Re-encoding any accepted text returns it. |
| `Base58.ReverseBytes` | core/types/address.go:296-300 | The in-place swap loop reverses the array. |
| `Base58.WriteNumber` | core/types/address.go:248-257 | The division loop writes the base-58 digits least significant first. |
| `Base58.WriteZeros` | core/types/address.go:258-264 | One leading '1' is written per leading zero byte. |
| `Base58.Base58Encode` | core/types/address.go:242-267 | The loops compute the specified encoding. |
| `Base58.ReadNumber` | core/types/address.go:218-229 | The accumulation loop computes the denoted number and rejects exactly the texts with a foreign character. |
| `Base58.LeadingOnes` | core/types/address.go:232-235 | Counts the leading '1' characters. |
| `Base58.Base58Decode` | core/types/address.go:213-240 | The loops compute the specified decoding and its errors. |
| `Addresses.ParsePrinted` | core/types/address.go:72-104 | Parsing a printed address gives it back if and only if its version is not 0. |
| `Addresses.PrintParsed` | core/types/address.go:72-104 | An accepted text, trimmed, is the only spelling of its address. |
| `Addresses.PrintedIs` | core/types/address.go:170-206 | A printed address is "UFI" and the Base58 text of version, hash and the first four bytes of the double digest of "UFI", version and hash. |
| `Addresses.ParsedExactly` | core/types/address.go:72-104 | A text is accepted as an address if and only if, trimmed, it is "UFI" and the text of that payload, with a version other than 0. |
| `Addresses.NewIsParsed` | core/types/address.go:44-56 | Of versions and 20-byte hashes, exactly those that make a new address survive printing and parsing. |
| `Addresses.PrintedCharacters` | core/types/address.go:170-183 | Printed text is the prefix and Base58 characters and needs no trimming. |
| `Addresses.PrintedIsNotAName` | core/types/address.go:170-183 | A printed address is never a system name with an underscore nor a hexadecimal contract address. |
| `CrawlLimits.CrawlLimiter.constructor` | core/consensus/pouw.go:285-298 | A new limiter holds no permit. |
| `CrawlLimits.CrawlLimiter.HostSlot` | core/consensus/pouw.go:466-476 | Makes a host's channel empty the first time and never touches it again. |
| `CrawlLimits.CrawlLimiter.Begin` | core/consensus/pouw.go:419-436 | A new caller queues at the first limited level, or holds at once when there is none. |
| `CrawlLimits.CrawlLimiter.TryGlobal` | core/consensus/pouw.go:434-445 | Takes a global permit exactly when one is free and moves on to the host level. |
| `CrawlLimits.CrawlLimiter.TryHost` | core/consensus/pouw.go:443-453 | Takes a host permit exactly when one is free. |
| `CrawlLimits.CrawlLimiter.Abandon` | core/consensus/pouw.go:445-450 | A cancelled caller gives back exactly what it holds, the global permit when it waited at the host. |
| `CrawlLimits.CrawlLimiter.Finish` | core/consensus/pouw.go:450-463 | The first release gives back the host permit and still holds the global one; one after it is through gives back nothing. |
| `CrawlLimits.CrawlLimiter.FinishGlobal` | core/consensus/pouw.go:456-463 | A caller in its release then gives back the global permit, in a step of its own. |
| `CrawlLimits.EventKeepsInv` | core/consensus/pouw.go:419-485 | Every acquire and cancel step and each of the two steps of a release keeps channel occupancy equal to what the callers hold, within both limits. |
| `CrawlLimits.RunKeepsInv` | core/consensus/pouw.go:419-485 | So does every interleaving of steps, also cancels between the two levels and anything between the two receives of a release. |
| `CrawlLimits.NoDeadlock` | core/consensus/pouw.go:419-464 | If someone waits and no waiting caller can take a slot, some caller holds all its permits or is in its release, and once that release is through a waiting caller can take a slot. |
| `CrawlLimits.ReceivesFindPermits` | core/consensus/pouw.go:456-463 | Neither receive of a release ever blocks: the channel holds a permit each time. |
| `CrawlLimits.AllPermitsReturned` | core/consensus/pouw.go:437-463 | When every caller is done both levels are empty. |
| `Windows.PruningIsInvisible` | core/p2p.go:606-648 | Under a clock that never goes back, forgetting lapsed windows changes no answer. |
| `Windows.SameAnswersExactly` | core/p2p.go:629-648 | At one time, pruning shows in no answer to any key or limit if and only if every forgotten window has lapsed. |
| `Windows.PruningShowsExactly` | core/p2p.go:606-648 | Over a whole run under any clock, pruning shows in no answer if and only if no request comes while a forgotten window has not lapsed. |
| `Windows.LatestPruningIsExact` | core/p2p.go:629-648 | A caller's check: the answers at a time are safe in every history without pruning after `latest` if and only if the time is not before `latest`. |
| `Windows.ClockGoingBackShowsPruning` | core/p2p.go:642-648 | For every time before the latest pruning, a history in which the pruned limiter admits what the unpruned one refuses. |
| `Windows.TwiceTheLimit` | core/p2p.go:610-640 | No interval of one window length, both ends included, holds more than twice the limit of admissions of a key. |
| `Windows.TwiceTheLimitIsAttained` | core/p2p.go:610-640 | That bound is met exactly, for every limit and window length. |
| `Windows.PruneEntries` | core/p2p.go:642-648 | The deletion loop, in any key order, keeps exactly the entries that have not lapsed. |
| `Windows.PeerWindowLimiter.Effective` | core/p2p.go:617-623 | The limit in force is the tighter of the positive ones, and not positive only when neither is. |
| `Windows.PeerWindowLimiter.AllowWithLimit` | core/p2p.go:610-640 | The answer and every counter in each case, written out; the counters follow the specification; under an ordered clock pruning is invisible and the twice-the-limit bound holds over the whole history. |
| `Windows.ClientWindowLimiter.Allow` | api/rpc_server.go:534-565 | The same for the RPC limiter, where all blank addresses, and only they, share one counter. |

## Left out

- The scores before and after normalization: that they agree is a condition of `Rebroadcast.BroadcastExactly`, computed on submitted and normalized proofs; no condition on single texts is given for it beyond submitting proofs in normal form.
- Tick.OfferBlock: the chain's answer to an assembled block is an arbitrary predicate there, which covers refusal; `Production.MineTick` puts the chain in its place. `Nonces` and `Stalls` give the conditions that nonces put on the answer, balances and payloads are not restated.
- Admission.AcceptedExactly: says when a transaction is accepted and not which error a refused one gets when several apply; `Refusals.OneNonce` says when it can be the nonce error.
- Submissions that interleave with a tick: the tick is modelled without them, because a pool that filled meanwhile may refuse a requeued entry.
- Tick.MineOnce: keeps what was mined as pairs of work item and page; `Production.ProofsOf` makes the priced proofs of them.
- Production.MineTick: that pending tasks carry fitting quotes is what submission (`BuildSearchTaskEnvelope`, core/blockchain.go:1540-1593) leaves; the priority registry that makes the quote is not part of this model.
- Exchange.ExchangeBlocks: starts with orphan buffers that hold blocks of the other node only, with parents not stored here; `Peers.OrphanStaysParked` says what becomes of a parked block whose parent is stored.
- Failure texts and timestamps of failure and quarantine records: only counts, order and the 256-entry limit are kept.
- Selection of follow-on tasks for a tick (`frontierMiningTasks`), its order and its quarantine filter: the follow-on items are an arbitrary list, in `Production` of tasks of the ledger.
- Contracts and contract data are not part of the program's state root, and the model follows that; nothing is claimed about recovering them from a root.
- A proof whose amounts do not parse: the program would compare with a nil number; the model returns a separate error (`NilAmount`) at that point.
- Trimming of hashes at the start of the parent walks and lookups: digests hold no blanks, so the model compares them as they are.
- Zero timestamps, which the program replaces by the clock.
- Aliasing of snapshots: clones are values here.
- TxPool and TaskPool are one class; the task pool's request and adjusted task are one opaque field.
- Locks, and memory ordering of the workers' slot writes: a worker step is atomic, which suffices because no two workers write one slot.
- That a worker schedule is fair: `Lanes.EveryScheduleCanFinish` says that every schedule can be continued to the end, not that a given scheduler does so.
- Parsing of the URL given to the crawl limiter: an arrival names its host, and a URL that does not parse never arrives.
- A pending task whose value does not parse: the drain counts it as 0, where the program would compare with a nil number.
- Limiter methods on a nil receiver, which admit everything.
- Storage encodings, reload and legacy paths, `SeedBalance`, network-config reconciliation.
- Cryptographic functions, ABI bytes, URL parsing, crawling, similarity, validator sampling, governance.
- Peer networking, chain-sync streams, RPC dispatch, CORS, WebSocket, read-only queries, web, iOS and Solidity code.
