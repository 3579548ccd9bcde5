/** The path of every stored snapshot as one run of the ledger, and the tally of that run. */
module StoredRuns {
  import opened Records
  import opened Ledger
  import opened Chain
  import opened Blocks
  import opened Node
  import opened Totals
  import opened Frontier
  import opened Runs
  import Money
  import Mentions

  /** The submissions that a block stands for, in order. */
  function BlockOps(body: Body): seq<Op> {
    TxOps(body.transactions) + ProofOps(body.proofs)
  }

  function TxOps(txs: seq<Transaction>): (ops: seq<Op>)
    ensures |ops| == |txs| && forall i :: 0 <= i < |txs| ==> ops[i] == SubmitTx(txs[i])
  {
    seq(|txs|, i requires 0 <= i < |txs| => SubmitTx(txs[i]))
  }

  function ProofOps(proofs: seq<CrawlProof>): (ops: seq<Op>)
    ensures |ops| == |proofs| && forall i :: 0 <= i < |proofs| ==> ops[i] == SubmitProof(proofs[i], "")
  {
    seq(|proofs|, i requires 0 <= i < |proofs| => SubmitProof(proofs[i], ""))
  }

  // ---------------------------------------------------------------- what blocks record

  function PaysForTask(tx: Transaction): int {
    if tx.kind == SearchTask then 1 else 0
  }

  /** What a recorded transaction takes out of the supply: the net value of a deployment. */
  function Burnt(tx: Transaction): int {
    match (tx.kind, Parsed(tx.value))
    case (ContractDeploy, Some(value)) => value - ArchitectFee(value)
    case _ => 0
  }

  /** The weight of all transactions recorded on the path to `h`. */
  ghost function RecordedOn(blocks: map<string, Block>, root: string, h: string, weight: Transaction -> int): int
    requires Tree(blocks, root) && h in blocks
    decreases blocks[h].header.number
  {
    if h == root then 0
    else
      assert IsChild(blocks, h);
      RecordedOn(blocks, root, blocks[h].header.parentHash, weight) + Sum(blocks[h].body.transactions, weight)
  }

  /** The run of the received blocks on the path to `h`, each block's hash stamped in when it is through. */
  ghost function PathTally(net: Network, g: Genesis, rcv: map<string, Block>, db: Store, h: string): Tally
    requires Replays(LedgerRules(net), g, rcv, db) && h in db.blocks
    decreases db.blocks[h].header.number
  {
    if h == g.block.hash then Tally(g.state, 0, 0, 0)
    else
      assert IsChild(db.blocks, h);
      var t := RunFrom(net.env, net.architect, PathTally(net, g, rcv, db, db.blocks[h].header.parentHash),
                       BlockOps(rcv[h].body));
      t.(state := t.state.(index := StampAll(t.state.index, db.blocks[h].body.proofs, h)))
  }

  // ---------------------------------------------------------------- one block

  lemma OneMore(txs: seq<Transaction>, tx: Transaction, weight: Transaction -> int)
    ensures Sum(txs + [tx], weight) == Sum(txs, weight) + weight(tx)
  {
    SumAppend(txs, [tx], weight);
  }

  /** One accepted transaction, as a step. */
  lemma TransactionStep(net: Network, t: Tally, tx: Transaction)
    requires ApplyTransaction(net.env, t.state, tx, net.architect).Ok?
    ensures var a := ApplyTransaction(net.env, t.state, tx, net.architect).value;
      Step(net.env, net.architect, t, SubmitTx(tx))
      == Tally(a.state, t.paidTasks + PaysForTask(a.tx), t.spawnedTasks, t.destroyed + Burnt(a.tx))
  {
    Money.TransactionMoves(net.env, t.state, tx, net.architect);
    hide ApplyTransaction, ArchitectFee, NormalizeTransaction, AddressOfKey, Credit, Debit, BalanceOf,
      NormalizedArchitect;
  }

  /** Transactions that a block applies, as a run. */
  lemma {:induction false} TransactionsRun(net: Network, t: Tally, txs: seq<Transaction>)
    requires ApplyTransactions(net, t.state, txs).Ok?
    ensures var r := ApplyTransactions(net, t.state, txs).value;
      var u := RunFrom(net.env, net.architect, t, TxOps(txs));
      && u.state == r.state && u.spawnedTasks == t.spawnedTasks
      && u.paidTasks == t.paidTasks + Sum(r.txs, PaysForTask)
      && u.destroyed == t.destroyed + Sum(r.txs, Burnt)
    decreases |txs|
  {
    hide ApplyTransaction, Step, PaysForTask, Burnt;
    if txs != [] {
      var init, tx := txs[..|txs| - 1], txs[|txs| - 1];
      TransactionsRun(net, t, init);
      var before := ApplyTransactions(net, t.state, init).value;
      var u := RunFrom(net.env, net.architect, t, TxOps(init));
      assert TxOps(txs)[..|txs| - 1] == TxOps(init);
      var a := ApplyTransaction(net.env, before.state, tx, net.architect).value;
      TransactionStep(net, u, tx);
      OneMore(before.txs, a.tx, PaysForTask);
      OneMore(before.txs, a.tx, Burnt);
    }
  }

  /** Proofs that a block applies, as a run. */
  lemma {:induction false} ProofsRun(net: Network, t: Tally, proofs: seq<CrawlProof>)
    requires ApplyProofs(net, t.state, proofs).Ok?
    ensures var u := RunFrom(net.env, net.architect, t, ProofOps(proofs));
      && u.state == ApplyProofs(net, t.state, proofs).value.state
      && u.paidTasks == t.paidTasks && u.destroyed == t.destroyed
    decreases |proofs|
  {
    hide ApplyCrawlProof;
    if proofs != [] {
      var n := |proofs| - 1;
      ProofsRun(net, t, proofs[..n]);
      assert ProofOps(proofs)[..n] == ProofOps(proofs[..n]);
    }
  }

  /** A prepared block, as a run. */
  lemma BlockRun(net: Network, parent: Block, t: Tally, block: Block)
    requires PrepareBlock(net, parent, t.state, block).Ok?
    ensures var p := PrepareBlock(net, parent, t.state, block).value;
      var u := RunFrom(net.env, net.architect, t, BlockOps(block.body));
      && p.state == u.state.(index := StampAll(u.state.index, p.block.body.proofs, p.block.hash))
      && u.paidTasks == t.paidTasks + Sum(p.block.body.transactions, PaysForTask)
      && u.destroyed == t.destroyed + Sum(p.block.body.transactions, Burnt)
  {
    hide ApplyTransactions, ApplyProofs, StampAll, RunFrom, Rooted, PaysForTask, Burnt, TxOps, ProofOps;
    var txs, proofs := block.body.transactions, block.body.proofs;
    TransactionsRun(net, t, txs);
    var u := RunFrom(net.env, net.architect, t, TxOps(txs));
    ProofsRun(net, u, proofs);
    RunAppend(net.env, net.architect, t, TxOps(txs), ProofOps(proofs));
  }

  // ---------------------------------------------------------------- every stored snapshot

  lemma StampKeepsTally(s: Snapshot, t: Tally, proofs: seq<CrawlProof>, hash: string)
    requires TallyInv(s, t)
    ensures TallyInv(s, t.(state := t.state.(index := StampAll(t.state.index, proofs, hash))))
  {
    StampIsInvisible(t.state, proofs, hash);
    hide StampAll, Money.Supply, Rooted, Money.MoneyInv, FrontierInv, Mentions.MentionInv;
  }

  /**
   Every stored snapshot, whatever was mined, imported or reorganised, is the run of the received
   blocks on its path. The tally of that run counts the recorded search
   tasks and the recorded net deployments, and it adds up.
   */
  lemma {:induction false} StoredTally(net: Network, g: Genesis, rcv: map<string, Block>, db: Store, h: string)
    requires GenesisSound(net, g) && Replays(LedgerRules(net), g, rcv, db) && h in db.blocks
    ensures var t := PathTally(net, g, rcv, db, h);
      && t.state == db.snapshots[h]
      && TallyInv(g.state, t)
      && t.paidTasks == RecordedOn(db.blocks, g.block.hash, h, PaysForTask)
      && t.destroyed == RecordedOn(db.blocks, g.block.hash, h, Burnt)
    decreases db.blocks[h].header.number
  {
    hide TallyInv, PrepareBlock, RunFrom, StampAll, PaysForTask, Burnt;
    if h == g.block.hash {
      GenesisTally(net, g);
    } else {
      var parent := db.blocks[h].header.parentHash;
      assert IsChild(db.blocks, h);
      assert Derived(LedgerRules(net), rcv, db, h);
      StoredTally(net, g, rcv, db, parent);
      var t := PathTally(net, g, rcv, db, parent);
      assert PrepareBlock(net, db.blocks[parent], t.state, rcv[h])
          == LedgerRules(net).prepare(db.blocks[parent], db.snapshots[parent], rcv[h]);
      BlockRun(net, db.blocks[parent], t, rcv[h]);
      RunKeepsTally(net.env, net.architect, g.state, t, BlockOps(rcv[h].body));
      StampKeepsTally(g.state, RunFrom(net.env, net.architect, t, BlockOps(rcv[h].body)), db.blocks[h].body.proofs, h);
    }
  }

  lemma GenesisTally(net: Network, g: Genesis)
    requires GenesisSound(net, g)
    ensures TallyInv(g.state, Tally(g.state, 0, 0, 0))
  {
    hide Money.MoneyInv, Mentions.MentionInv, FrontierInv, Rooted;
  }

  /**
   In every stored snapshot supply has fallen from the genesis by exactly the net deployments
   recorded on its path, and the tasks spawned on that path number at most 20 for each recorded
   search task, beyond what the genesis itself left to spawn.
   */
  lemma StoredSnapshotTallies(net: Network, g: Genesis, rcv: map<string, Block>, db: Store, h: string)
    requires GenesisSound(net, g) && Replays(LedgerRules(net), g, rcv, db) && h in db.blocks
    ensures Money.Supply(db.snapshots[h])
         == Money.Supply(g.state) - RecordedOn(db.blocks, g.block.hash, h, Burnt)
    ensures PathTally(net, g, rcv, db, h).state == db.snapshots[h]
    ensures PathTally(net, g, rcv, db, h).spawnedTasks
         <= 20 * RecordedOn(db.blocks, g.block.hash, h, PaysForTask) + Total(g.state.tasks, Potential)
  {
    StoredTally(net, g, rcv, db, h);
    PotentialNonNegative(db.snapshots[h].tasks);
    hide PathTally, RecordedOn, Replays, Money.Supply, Potential, GenesisSound;
  }
}
