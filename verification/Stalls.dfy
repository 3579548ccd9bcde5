/** A tick whose block the ledger refuses for its nonces gives everything back and meets the same refusal again. */
module Stalls {
  import opened Records
  import opened Ledger
  import opened Pools
  import opened Draining
  import opened Lanes
  import opened Routing
  import opened Tick
  import Node
  import Nonces

  /** The transactions of an assembled block: transfers first, then the tasks' transactions. */
  function TxsOf(es: seq<Entry>): (txs: seq<Transaction>)
    ensures |txs| == |es| && forall i :: 0 <= i < |es| ==> txs[i] == es[i].tx
  {
    seq(|es|, i requires 0 <= i < |es| => es[i].tx)
  }

  /** The chain takes only blocks whose transactions apply to the state `s` of its tip. */
  ghost predicate ChecksLedger(net: Node.Network, s: Snapshot, accepts: Assembled -> bool) {
    forall a :: accepts(a) ==> Node.ApplyTransactions(net, s, TxsOf(a.transfers) + TxsOf(a.tasks)).Ok?
  }

  /** Transfer `i` and task `j` are one sender's, and the task has the lower nonce or the same. */
  predicate Interleaved(transfers: seq<Entry>, tasks: seq<Entry>, i: int, j: int) {
    && 0 <= i < |transfers| && 0 <= j < |tasks|
    && transfers[i].tx.from == tasks[j].tx.from && tasks[j].tx.nonce <= transfers[i].tx.nonce
  }

  /** A block with a sender's transfer before its lower-nonce task is not taken. */
  lemma InterleavedIsNotTaken(net: Node.Network, s: Snapshot, accepts: Assembled -> bool, a: Assembled, i: nat, j: nat)
    requires ChecksLedger(net, s, accepts) && Interleaved(a.transfers, a.tasks, i, j)
    ensures !accepts(a)
  {
    SenderOf(net, a.transfers[i].tx, a.tasks[j].tx);
    hide Node.ApplyTransactions, NormalizeTransaction;
    Nonces.InterleavedSenderIsRefused(net, s, TxsOf(a.transfers), TxsOf(a.tasks), i, j);
  }

  lemma SenderOf(net: Node.Network, a: Transaction, b: Transaction)
    requires a.from == b.from
    ensures NormalizeTransaction(net.env, a).from == NormalizeTransaction(net.env, b).from
  {
  }

  /**
   In any tick: if the transfers and the mined tasks interleave a sender, no block results, and both
   pools hold everything they held before but what a cutoff took.
   */
  method InterleavedTick(e: Engine, batch: int, frontier: seq<WorkItem>, owns: WorkItem -> bool, mine: Miner,
                         concurrency: int, terminal: string -> bool, accepts: Assembled -> bool,
                         ghost net: Node.Network, ghost s: Snapshot)
    returns (block: Option<Assembled>, ghost t: TickTrace, ghost transfers: seq<Entry>)
    requires e.Valid() && ChecksLedger(net, s, accepts)
    requires forall i :: 0 <= i < |frontier| ==> frontier[i].source == Frontier
    modifies e, e.txPool, e.taskPool
    ensures e.Valid()
    ensures var drained := old(e.txPool.pending)[..BatchOf(TX_BATCH, |old(e.txPool.pending)|)];
      transfers == Cut(drained, t.routed.cutoffs, false)
    ensures forall i, j :: Interleaved(transfers, t.routed.mined, i, j) ==> block == None
    ensures block == None ==>
      && multiset(e.taskPool.pending) + multiset(t.quarantined) == multiset(old(e.taskPool.pending))
      && multiset(e.txPool.pending) + multiset(t.dropped) == multiset(old(e.txPool.pending))
  {
    hide Cut, Greedy, Owned, OutcomesOf, RouteAll, PastCutoff, LogsExactly, Dismissed, EntriesFrom, ChecksLedger;
    transfers := [];
    ghost var drained := e.txPool.pending[..BatchOf(TX_BATCH, |e.txPool.pending|)];
    block, t := MineOnce(e, batch, frontier, owns, mine, concurrency, terminal, accepts);
    transfers := Cut(drained, t.routed.cutoffs, false);
    forall i, j | Interleaved(transfers, t.routed.mined, i, j)
      ensures block == None
    {
      InterleavedIsNotTaken(net, s, accepts, Assembled(transfers, t.routed.mined, t.routed.proofs), i, j);
    }
  }

  // ---------------------------------------------------------------- a node that stands still

  /** Every crawl succeeds. */
  function Found(task: nat): Crawl {
    Mined("page")
  }

  function Never(reason: string): bool {
    false
  }

  lemma HeadIn(q: seq<Entry>)
    ensures q == [] || q[0] in q
  {
  }

  lemma SingleBag(p: seq<Entry>, q: seq<Entry>, e: Entry)
    requires multiset(p) + multiset(q) == multiset([e]) && forall x :: x !in q
    ensures p == [e]
  {
    HeadIn(q);
    assert |p| == |multiset(p)| == |multiset([e])| == 1;
    assert p[0] in multiset(p);
  }

  /** A tick that owns one task and mines it. */
  lemma OneTaskMined(task: Entry, t: TickTrace, failures: map<string, nat>)
    requires Greedy(SetOf([task]), t.picks) && |t.picks| == 1
    requires t.owned == Owned(Wrap(t.picks) + [], OwnsAll, true) && OutcomesOf(t.owned, Found, t.outcomes)
    requires t.routed == RouteAll(Fresh(failures), t.outcomes, Never)
    ensures t.routed.cutoffs == map[] && t.routed.mined == [task]
  {
    var item := WorkItem(Mempool, task, task.tx.hash);
    assert Found(0) == Mined("page");
    hide Greedy, Owned, OutcomesOf, Wrap;
    OnePick(task, t.picks);
    OneOwned(task);
    OneOutcome(item, Found, t.outcomes);
    assert t.outcomes[..0] == [];
    assert RouteAll(Fresh(failures), t.outcomes[..0], Never) == Fresh(failures);
  }

  lemma NothingCut(transfer: Entry)
    ensures Cut([transfer], map[], false) == [transfer]
    ensures forall tx :: !PastCutoff(map[], tx)
    ensures BatchOf(TX_BATCH, 1) == 1 && BatchOf(TaskBatch(0), 1) == 1
  {
    assert [transfer][..0] == [];
    assert Cut([], map[], false) == [];
  }

  /**
   A sender's task and a transfer of it with a higher nonce are pending alone. However many ticks run,
   with every crawl successful, no block results and both pools stay as they are.
   */
  method StandsStill(e: Engine, transfer: Entry, task: Entry, accepts: Assembled -> bool, ticks: nat,
                     ghost net: Node.Network, ghost s: Snapshot)
    returns (produced: bool)
    requires e.Valid() && ChecksLedger(net, s, accepts)
    requires e.txPool.pending == [transfer] && e.taskPool.pending == [task]
    requires transfer.tx.from == task.tx.from && task.tx.nonce < transfer.tx.nonce
    modifies e, e.txPool, e.taskPool
    ensures e.Valid() && !produced
    ensures e.txPool.pending == [transfer] && e.taskPool.pending == [task]
  {
    hide *;
    produced := false;
    NothingCut(transfer);
    assert [transfer][..1] == [transfer];
    for k := 0 to ticks
      invariant e.Valid() && !produced
      invariant e.txPool.pending == [transfer] && e.taskPool.pending == [task]
    {
      var block;
      ghost var failures := e.failures;
      ghost var t;
      block, t := MineOnce(e, 0, [], OwnsAll, Found, 1, Never, accepts);
      OneTaskMined(task, t, failures);
      OneInterleaves(transfer, task);
      InterleavedIsNotTaken(net, s, accepts, Assembled([transfer], [task], t.routed.proofs), 0, 0);
      NoParts();
      produced := produced || block.Some?;
      SingleBag(e.taskPool.pending, t.quarantined, task);
      SingleBag(e.txPool.pending, t.dropped, transfer);
    }
  }

  lemma OneInterleaves(transfer: Entry, task: Entry)
    requires transfer.tx.from == task.tx.from && task.tx.nonce < transfer.tx.nonce
    ensures Interleaved([transfer], [task], 0, 0)
  {
  }

  lemma NoParts()
    ensures TasksIn(None) == [] && TransfersIn(None) == []
  {
  }
}
