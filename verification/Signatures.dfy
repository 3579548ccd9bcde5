/** Every transaction that a chain stores is signed by its sender. */
module Signatures {
  import opened Records
  import opened Ledger
  import opened Chain
  import opened Blocks
  import opened Node
  import opened Admission

  ghost predicate AllSigned(env: Env, txs: seq<Transaction>)
    requires EnvSound(env)
  {
    forall i :: 0 <= i < |txs| ==> Signed(env, txs[i])
  }

  /** One accepted transaction is recorded in its normal form, and signed. */
  lemma AcceptedIsSigned(net: Network, s: Snapshot, raw: Transaction)
    requires ApplyTransaction(net.env, s, raw, net.architect).Ok?
    ensures ApplyTransaction(net.env, s, raw, net.architect).value.tx == NormalizeTransaction(net.env, raw)
    ensures Signed(net.env, NormalizeTransaction(net.env, raw))
  {
    AdmittedExactly(net.env, s, raw, net.architect);
    AppliedChanges(net.env, s, raw, net.architect);
    NormalFormExactly(net.env, raw, ApplyTransaction(net.env, s, raw, net.architect).value.tx);
    hide IsNormalForm, ApplyTransaction, Signed, Affords, CanTransfer, CanRequest, CanDeploy, Changes;
  }

  lemma {:induction false} AcceptedAreSigned(net: Network, s: Snapshot, txs: seq<Transaction>)
    requires ApplyTransactions(net, s, txs).Ok?
    ensures AllSigned(net.env, ApplyTransactions(net, s, txs).value.txs)
    decreases |txs|
  {
    hide ApplyTransaction, Signed;
    if txs != [] {
      AcceptedAreSigned(net, s, txs[..|txs| - 1]);
      AcceptedIsSigned(net, ApplyTransactions(net, s, txs[..|txs| - 1]).value.state, txs[|txs| - 1]);
    }
  }

  /** A list that holds one transaction without a valid signature is refused. */
  lemma {:induction false} UnsignedListIsRefused(net: Network, s: Snapshot, txs: seq<Transaction>, i: nat)
    requires i < |txs| && !Signed(net.env, NormalizeTransaction(net.env, txs[i]))
    ensures ApplyTransactions(net, s, txs).Err?
    decreases |txs|
  {
    hide ApplyTransaction, Signed, NormalizeTransaction;
    var init := txs[..|txs| - 1];
    if i < |init| {
      UnsignedListIsRefused(net, s, init, i);
    } else if ApplyTransactions(net, s, init).Ok? {
      UnsignedIsRefused(net.env, ApplyTransactions(net, s, init).value.state, txs[i], net.architect);
    }
  }

  /** A block that holds such a transaction is refused, mined or received. */
  lemma UnsignedBlockIsRefused(net: Network, parent: Block, s: Snapshot, block: Block, i: nat)
    requires i < |block.body.transactions|
    requires !Signed(net.env, NormalizeTransaction(net.env, block.body.transactions[i]))
    ensures PrepareBlock(net, parent, s, block).Err?
  {
    UnsignedListIsRefused(net, s, block.body.transactions, i);
    hide ApplyTransactions, Signed, NormalizeTransaction;
  }

  /** Whatever was mined, imported or reorganised, every block that a chain stores above the genesis is signed. */
  lemma EveryRecordIsSigned(net: Network, g: Genesis, rcv: map<string, Block>, db: Store, h: string)
    requires Replays(LedgerRules(net), g, rcv, db) && h in rcv
    ensures h in db.blocks && AllSigned(net.env, db.blocks[h].body.transactions)
  {
    assert Derived(LedgerRules(net), rcv, db, h);
    var parent := db.blocks[h].header.parentHash;
    hide AllSigned, PrepareBlock;
    assert LedgerRules(net).prepare(db.blocks[parent], db.snapshots[parent], rcv[h])
        == PrepareBlock(net, db.blocks[parent], db.snapshots[parent], rcv[h]);
    PreparedHeader(net, db.blocks[parent], db.snapshots[parent], rcv[h]);
    AcceptedAreSigned(net, db.snapshots[parent], rcv[h].body.transactions);
  }
}
