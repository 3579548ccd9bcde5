/** When a list of transactions runs through its nonces, and why an assembled block may not. */
module Nonces {
  import opened Records
  import opened Ledger
  import opened Node
  import opened Refusals

  /** How many of the transactions are a sender's. */
  function SentBy(env: Env, txs: seq<Transaction>, sender: string): nat {
    if txs == [] then 0
    else
      var last := NormalizeTransaction(env, txs[|txs| - 1]);
      SentBy(env, txs[..|txs| - 1], sender) + if last.from == sender then 1 else 0
  }

  /** The nonce of transaction `i` is its sender's next one when the earlier transactions have run. */
  ghost predicate RunsAt(env: Env, s: Snapshot, txs: seq<Transaction>, i: nat)
    requires i < |txs|
  {
    var tx := NormalizeTransaction(env, txs[i]);
    tx.nonce == Counted(s.nonces, tx.from) + SentBy(env, txs[..i], tx.from)
  }

  ghost predicate NoncesRun(env: Env, s: Snapshot, txs: seq<Transaction>) {
    forall i :: 0 <= i < |txs| ==> RunsAt(env, s, txs, i)
  }

  lemma PrefixRuns(env: Env, s: Snapshot, txs: seq<Transaction>, n: nat, i: nat)
    requires i < n <= |txs|
    ensures RunsAt(env, s, txs[..n], i) == RunsAt(env, s, txs, i)
  {
    assert txs[..n][..i] == txs[..i];
  }

  /** An accepted list has run through its nonces, and has counted each sender's up by its transactions. */
  lemma {:induction false} AcceptedRuns(net: Network, s: Snapshot, txs: seq<Transaction>)
    requires ApplyTransactions(net, s, txs).Ok?
    ensures NoncesRun(net.env, s, txs)
    ensures forall sender ::
      Counted(ApplyTransactions(net, s, txs).value.state.nonces, sender)
      == Counted(s.nonces, sender) + SentBy(net.env, txs, sender)
    decreases |txs|
  {
    hide ApplyTransaction, NormalizeTransaction;
    if txs != [] {
      var n := |txs| - 1;
      AcceptedRuns(net, s, txs[..n]);
      OneNonce(net.env, ApplyTransactions(net, s, txs[..n]).value.state, txs[n], net.architect);
      forall i | 0 <= i < |txs|
        ensures RunsAt(net.env, s, txs, i)
      {
        if i < n {
          assert RunsAt(net.env, s, txs[..n], i);
          PrefixRuns(net.env, s, txs, n, i);
        }
      }
    }
  }

  /** A list that runs through its nonces is never refused for one. */
  lemma {:induction false} RunningIsNotRefusedForNonce(net: Network, s: Snapshot, txs: seq<Transaction>)
    requires NoncesRun(net.env, s, txs)
    ensures ApplyTransactions(net, s, txs) != Err(InvalidNonce)
    decreases |txs|
  {
    hide ApplyTransaction, NormalizeTransaction;
    if txs != [] {
      var n := |txs| - 1;
      forall i | 0 <= i < n
        ensures RunsAt(net.env, s, txs[..n], i)
      {
        PrefixRuns(net.env, s, txs, n, i);
      }
      RunningIsNotRefusedForNonce(net, s, txs[..n]);
      if ApplyTransactions(net, s, txs[..n]).Ok? {
        AcceptedRuns(net, s, txs[..n]);
        OneNonce(net.env, ApplyTransactions(net, s, txs[..n]).value.state, txs[n], net.architect);
        assert RunsAt(net.env, s, txs, n);
      }
    }
  }

  lemma {:induction false} SentByGrows(env: Env, txs: seq<Transaction>, i: nat, j: nat, sender: string)
    requires i < j <= |txs| && NormalizeTransaction(env, txs[i]).from == sender
    ensures SentBy(env, txs[..i], sender) < SentBy(env, txs[..j], sender)
    decreases j
  {
    hide NormalizeTransaction;
    assert txs[..j][..j - 1] == txs[..j - 1];
    if i < j - 1 {
      SentByGrows(env, txs, i, j - 1, sender);
    }
  }

  /**
   A block lists transfers before tasks. If a sender's task has a lower nonce than one of its
   transfers, the block is refused, whatever else it holds.
   */
  lemma InterleavedSenderIsRefused(net: Network, s: Snapshot, transfers: seq<Transaction>, tasks: seq<Transaction>,
                                   i: nat, j: nat)
    requires i < |transfers| && j < |tasks|
    requires NormalizeTransaction(net.env, transfers[i]).from == NormalizeTransaction(net.env, tasks[j]).from
    requires tasks[j].nonce <= transfers[i].nonce
    ensures ApplyTransactions(net, s, transfers + tasks).Err?
  {
    hide *;
    var txs, k := transfers + tasks, |transfers| + j;
    assert txs[i] == transfers[i] && txs[k] == tasks[j];
    if ApplyTransactions(net, s, txs).Ok? {
      RunMeansIncreasing(net, s, txs, i, k);
    }
  }

  /** In an accepted list a sender's nonces increase. */
  lemma RunMeansIncreasing(net: Network, s: Snapshot, txs: seq<Transaction>, i: nat, j: nat)
    requires ApplyTransactions(net, s, txs).Ok? && i < j < |txs|
    requires NormalizeTransaction(net.env, txs[i]).from == NormalizeTransaction(net.env, txs[j]).from
    ensures txs[i].nonce < txs[j].nonce
  {
    AcceptedRuns(net, s, txs);
    hide ApplyTransactions;
    assert RunsAt(net.env, s, txs, i) && RunsAt(net.env, s, txs, j);
    SentByGrows(net.env, txs, i, j, NormalizeTransaction(net.env, txs[i]).from);
  }
}
