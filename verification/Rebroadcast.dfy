/** Whether a block that was mined prepares again, at its miner or at a peer, as it was broadcast. */
module Rebroadcast {
  import opened Records
  import opened Ledger
  import opened Chain
  import opened Node
  import opened Money
  import opened Normal
  import opened Totals
  import Work
  import Text

  // ---------------------------------------------------------------- transactions

  /** Applying a normalized transaction does what applying the original did. */
  lemma TransactionAgain(env: Env, s: Snapshot, raw: Transaction, configured: string)
    requires EnvSound(env)
    ensures ApplyTransaction(env, s, NormalizeTransaction(env, raw), configured)
         == ApplyTransaction(env, s, raw, configured)
  {
    hide ValidateSignature, NormalizedArchitect, ExecuteTransfer, ExecuteSearchTask, ExecuteDeploy, Charged,
      NormalizeTransaction;
    TransactionSettles(env, raw);
  }

  lemma {:induction false} TransactionsAgain(net: Network, s: Snapshot, txs: seq<Transaction>)
    requires ApplyTransactions(net, s, txs).Ok?
    ensures var r := ApplyTransactions(net, s, txs); ApplyTransactions(net, s, r.value.txs) == r
    decreases |txs|
  {
    hide ApplyTransaction;
    if txs != [] {
      var init, tx := txs[..|txs| - 1], txs[|txs| - 1];
      TransactionsAgain(net, s, init);
      var before := ApplyTransactions(net, s, init).value;
      var a := ApplyTransaction(net.env, before.state, tx, net.architect).value;
      TransactionMoves(net.env, before.state, tx, net.architect);
      TransactionAgain(net.env, before.state, tx, net.architect);
      assert (before.txs + [a.tx])[..|before.txs|] == before.txs;
    }
  }

  // ---------------------------------------------------------------- proofs

  /** Each proof is its own normal form. */
  ghost predicate AllNormal(env: Env, proofs: seq<CrawlProof>) {
    forall i :: 0 <= i < |proofs| ==> NormalizeProof(env, proofs[i]) == Ok(proofs[i])
  }

  /** An accepted proof is recorded in its normal form, and applying that form again does the same if it is settled. */
  lemma ProofAgain(env: Env, s: Snapshot, raw: CrawlProof, blockHash: string)
    requires ApplyCrawlProof(env, s, raw, blockHash).Ok?
    ensures var a := ApplyCrawlProof(env, s, raw, blockHash);
      && NormalizeProof(env, raw) == Ok(a.value.proof)
      && var q := a.value.proof;
      && (NormalizeProof(env, q) == Ok(q) ==> ApplyCrawlProof(env, s, q, blockHash) == a)
  {
    hide NormalizeProof, IndexPage, IndexRecord, SpawnTargets, AddSpawned, AmountsMismatch, Credit, Debit, BalanceOf;
  }

  /** The form in which a block records a proof. */
  function NormalForm(env: Env, proof: CrawlProof): CrawlProof {
    match NormalizeProof(env, proof)
    case Ok(p) => p
    case Err(_) => proof
  }

  function NormalForms(env: Env, proofs: seq<CrawlProof>): (forms: seq<CrawlProof>)
    ensures |forms| == |proofs| && forall i :: 0 <= i < |proofs| ==> forms[i] == NormalForm(env, proofs[i])
  {
    seq(|proofs|, i requires 0 <= i < |proofs| => NormalForm(env, proofs[i]))
  }

  /** The recorded proofs are the normal forms of the given ones. */
  lemma {:induction false} RecordedProofs(net: Network, s: Snapshot, proofs: seq<CrawlProof>)
    requires ApplyProofs(net, s, proofs).Ok?
    ensures ApplyProofs(net, s, proofs).value.proofs == NormalForms(net.env, proofs)
    ensures forall i :: 0 <= i < |proofs| ==> NormalizeProof(net.env, proofs[i]) == Ok(NormalForms(net.env, proofs)[i])
    decreases |proofs|
  {
    hide ApplyCrawlProof, NormalizeProof;
    if proofs != [] {
      var init, proof := proofs[..|proofs| - 1], proofs[|proofs| - 1];
      RecordedProofs(net, s, init);
      ProofAgain(net.env, ApplyProofs(net, s, init).value.state, proof, "");
    }
  }

  lemma {:induction false} ProofsAgain(net: Network, s: Snapshot, proofs: seq<CrawlProof>)
    requires ApplyProofs(net, s, proofs).Ok? && AllNormal(net.env, ApplyProofs(net, s, proofs).value.proofs)
    ensures var r := ApplyProofs(net, s, proofs); ApplyProofs(net, s, r.value.proofs) == r
    decreases |proofs|
  {
    hide ApplyCrawlProof, NormalizeProof;
    if proofs != [] {
      var init, proof := proofs[..|proofs| - 1], proofs[|proofs| - 1];
      var r, before := ApplyProofs(net, s, proofs).value, ApplyProofs(net, s, init).value;
      var a := ApplyCrawlProof(net.env, before.state, proof, "").value;
      assert r.proofs == before.proofs + [a.proof] && r.proofs[..|before.proofs|] == before.proofs;
      assert r.proofs[|before.proofs|] == a.proof;
      assert AllNormal(net.env, before.proofs) by {
        forall i | 0 <= i < |before.proofs|
          ensures NormalizeProof(net.env, before.proofs[i]) == Ok(before.proofs[i])
        {
          assert r.proofs[i] == before.proofs[i];
        }
      }
      ProofsAgain(net, s, init);
      ProofAgain(net.env, before.state, proof, "");
    }
  }

  // ---------------------------------------------------------------- blocks

  /** The tasks that a block's proofs are scored against. */
  function ScoredTasks(net: Network, s: Snapshot, block: Block): map<string, Task> {
    match ApplyTransactions(net, s, block.body.transactions)
    case Ok(r) => r.state.tasks
    case Err(_) => map[]
  }

  /** The work of the block's transactions together with some proofs. */
  function ScoreWith(net: Network, s: Snapshot, block: Block, proofs: seq<CrawlProof>): Result<int> {
    Work.BlockWork(net.env, ScoredTasks(net, s, block), block.body.transactions, proofs)
  }

  /** The proofs score the same as submitted and as recorded. */
  predicate ScoresSame(net: Network, s: Snapshot, raw: Block) {
    ScoreWith(net, s, raw, NormalForms(net.env, raw.body.proofs)) == ScoreWith(net, s, raw, raw.body.proofs)
  }

  /** Each page text of the submitted proofs survives its cut without a trailing space. */
  predicate AllCutsClean(proofs: seq<CrawlProof>) {
    forall i :: 0 <= i < |proofs| ==> CutsClean(proofs[i].page)
  }

  // ---------------------------------------------------------------- scores

  lemma KindKept(env: Env, s: Snapshot, tx: Transaction, configured: string)
    requires EnvSound(env) && ApplyTransaction(env, s, tx, configured).Ok?
    ensures Work.TxWork(ApplyTransaction(env, s, tx, configured).value.tx) == Work.TxWork(tx)
  {
    hide ApplyTransaction, EnvSound, Moves, AddressOfKey, Text.Trim, NormalizedArchitect;
    TransactionMoves(env, s, tx, configured);
  }

  lemma OneMoreWeight(txs: seq<Transaction>, tx: Transaction)
    ensures Sum(txs + [tx], Work.TxWork) == Sum(txs, Work.TxWork) + Work.TxWork(tx)
  {
    hide *;
    SumAppend(txs, [tx], Work.TxWork);
    SumCons(tx, [], Work.TxWork);
    NoWeight();
    assert [tx] + [] == [tx];
  }

  lemma NoWeight()
    ensures Sum([], Work.TxWork) == 0
  {
  }

  lemma AppliedStep(net: Network, s: Snapshot, txs: seq<Transaction>)
    requires txs != [] && ApplyTransactions(net, s, txs).Ok?
    ensures var init, tx := txs[..|txs| - 1], txs[|txs| - 1];
      && ApplyTransactions(net, s, init).Ok?
      && var before := ApplyTransactions(net, s, init).value;
      && ApplyTransaction(net.env, before.state, tx, net.architect).Ok?
      && ApplyTransactions(net, s, txs).value.txs
         == before.txs + [ApplyTransaction(net.env, before.state, tx, net.architect).value.tx]
  {
    hide ApplyTransaction;
  }

  lemma NothingApplied(net: Network, s: Snapshot)
    ensures ApplyTransactions(net, s, []) == Ok(TxsApplied([], s))
  {
  }

  /** Normalizing transactions does not change what they weigh. */
  lemma {:induction false} RecordedWeights(net: Network, s: Snapshot, txs: seq<Transaction>)
    requires ApplyTransactions(net, s, txs).Ok?
    ensures Sum(ApplyTransactions(net, s, txs).value.txs, Work.TxWork) == Sum(txs, Work.TxWork)
    decreases |txs|
  {
    hide *;
    if txs == [] {
      NothingApplied(net, s);
    } else {
      var init, tx := txs[..|txs| - 1], txs[|txs| - 1];
      AppliedStep(net, s, txs);
      RecordedWeights(net, s, init);
      var before := ApplyTransactions(net, s, init).value;
      KindKept(net.env, before.state, tx, net.architect);
      OneMoreWeight(before.txs, ApplyTransaction(net.env, before.state, tx, net.architect).value.tx);
      OneMoreWeight(init, tx);
      assert txs == init + [tx];
    }
  }

  /** The work that preparation computes, from the block as submitted. */
  lemma WorkIsScore(net: Network, s: Snapshot, block: Block, proofs: seq<CrawlProof>)
    requires ApplyTransactions(net, s, block.body.transactions).Ok?
    ensures var r := ApplyTransactions(net, s, block.body.transactions).value;
      Work.BlockWork(net.env, r.state.tasks, r.txs, proofs) == ScoreWith(net, s, block, proofs)
  {
    RecordedWeights(net, s, block.body.transactions);
    var r := ApplyTransactions(net, s, block.body.transactions).value;
    hide ApplyTransactions, Sum, Work.BlockWork;
    Work.SameWeights(net.env, r.state.tasks, r.txs, block.body.transactions, proofs);
  }

  /** Proofs that score as submitted score as recorded. */
  lemma RecordedScore(net: Network, s: Snapshot, block: Block)
    requires ScoreWith(net, s, block, block.body.proofs).Ok?
    requires forall i :: 0 <= i < |block.body.proofs| ==> NormalizeProof(net.env, block.body.proofs[i]).Ok?
    ensures var r := ScoreWith(net, s, block, NormalForms(net.env, block.body.proofs)); r.Ok? && r.value >= 0
  {
    hide Work.BlockWork, Work.TaskOf, NormalizeProof, ScoredTasks, NormalForm;
    var proofs, tasks := block.body.proofs, ScoredTasks(net, s, block);
    var forms := NormalForms(net.env, proofs);
    forall i | 0 <= i < |proofs|
      ensures Work.TaskOf(tasks, forms[i]) == Work.TaskOf(tasks, proofs[i])
    {
      TrimmedTask(net.env, proofs[i], tasks);
    }
    Work.SameTasksAreKnown(net.env, tasks, block.body.transactions, proofs, forms);
    Work.WorkNonNegative(net.env, tasks, block.body.transactions, forms);
  }

  lemma TrimmedTask(env: Env, proof: CrawlProof, tasks: map<string, Task>)
    requires NormalizeProof(env, proof).Ok?
    ensures Work.TaskOf(tasks, NormalForm(env, proof)) == Work.TaskOf(tasks, proof)
  {
    hide Text.Trim, NormalizePage;
    TrimAgain(proof.taskId);
  }

  // ---------------------------------------------------------------- preparing again

  /** What preparing yielded, in its parts. */
  lemma PreparedParts(net: Network, parent: Block, s: Snapshot, raw: Block)
    requires PrepareBlock(net, parent, s, raw).Ok?
    ensures var p := PrepareBlock(net, parent, s, raw).value;
      && ApplyTransactions(net, s, raw.body.transactions).Ok?
      && var afterTxs := ApplyTransactions(net, s, raw.body.transactions).value;
      && ApplyProofs(net, afterTxs.state, raw.body.proofs).Ok?
      && var afterProofs := ApplyProofs(net, afterTxs.state, raw.body.proofs).value;
      && raw.header.number == parent.header.number + 1 && raw.header.parentHash == parent.hash
      && p.block == Expected(net, parent, raw, afterTxs.txs, afterProofs.proofs, afterProofs.state)
      && p.block.body == Body(afterTxs.txs, afterProofs.proofs)
      && p.state == afterProofs.state.(index := StampAll(afterProofs.state.index, afterProofs.proofs, p.block.hash))
      && Work.BlockWork(net.env, afterTxs.state.tasks, afterTxs.txs, raw.body.proofs) == Ok(p.work)
  {
    hide ApplyTransactions, ApplyProofs, StampAll, Work.BlockWork, Rooted;
  }

  /** The same parts give the same preparation. */
  lemma PartsPrepare(net: Network, parent: Block, s: Snapshot, block: Block, p: Prepared, afterTxs: TxsApplied,
                     afterProofs: ProofsApplied)
    requires ApplyTransactions(net, s, block.body.transactions) == Ok(afterTxs)
    requires ApplyProofs(net, afterTxs.state, block.body.proofs) == Ok(afterProofs)
    requires block.header.number == parent.header.number + 1 && block.header.parentHash == parent.hash
    requires p.block == block == Expected(net, parent, block, afterTxs.txs, afterProofs.proofs, afterProofs.state)
    requires p.state == afterProofs.state.(index := StampAll(afterProofs.state.index, afterProofs.proofs, p.block.hash))
    requires Work.BlockWork(net.env, afterTxs.state.tasks, afterTxs.txs, block.body.proofs) == Ok(p.work)
    ensures PrepareBlock(net, parent, s, block) == Ok(p)
  {
    hide ApplyTransactions, ApplyProofs, StampAll, Work.BlockWork, Rooted, Expected;
  }

  /** A block built from an expected block expects itself. */
  lemma ExpectedAgain(net: Network, parent: Block, raw: Block, txs: seq<Transaction>, proofs: seq<CrawlProof>,
                      s: Snapshot)
    ensures var block := Expected(net, parent, raw, txs, proofs, s);
      block == Expected(net, parent, block, txs, proofs, s)
  {
    hide Rooted;
  }

  /**
   When no cut leaves a trailing space, a prepared block is accepted again wherever its parent is
   held: the same block, hash and state, with the work of the proofs as recorded.
   */
  lemma CleanBlockIsAccepted(net: Network, parent: Block, s: Snapshot, raw: Block)
    requires PrepareBlock(net, parent, s, raw).Ok? && AllCutsClean(raw.body.proofs)
    ensures var p := PrepareBlock(net, parent, s, raw).value;
      var r := ScoreWith(net, s, raw, NormalForms(net.env, raw.body.proofs));
      r.Ok? && r.value >= 0 && PrepareBlock(net, parent, s, p.block) == Ok(p.(work := r.value))
  {
    var p, proofs := PrepareBlock(net, parent, s, raw).value, raw.body.proofs;
    var forms := NormalForms(net.env, proofs);
    PreparedParts(net, parent, s, raw);
    var afterTxs := ApplyTransactions(net, s, raw.body.transactions).value;
    var afterProofs := ApplyProofs(net, afterTxs.state, proofs).value;
    hide PrepareBlock, ApplyTransactions, ApplyProofs, StampAll, Work.BlockWork, Rooted, Expected, NormalForms,
      ScoreWith, AllCutsClean, AllNormal;
    RecordedProofs(net, afterTxs.state, proofs);
    AllNormalExactly(net.env, proofs);
    WorkIsScore(net, s, raw, proofs);
    WorkIsScore(net, s, raw, forms);
    RecordedScore(net, s, raw);
    TransactionsAgain(net, s, raw.body.transactions);
    ProofsAgain(net, afterTxs.state, proofs);
    ExpectedAgain(net, parent, raw, afterTxs.txs, afterProofs.proofs, afterProofs.state);
    ExpectedLinks(net, parent, raw, afterTxs.txs, afterProofs.proofs, afterProofs.state);
    PartsPrepare(net, parent, s, p.block, p.(work := ScoreWith(net, s, raw, forms).value), afterTxs, afterProofs);
  }

  lemma AllNormalExactly(env: Env, proofs: seq<CrawlProof>)
    requires forall i :: 0 <= i < |proofs| ==> NormalizeProof(env, proofs[i]) == Ok(NormalForms(env, proofs)[i])
    ensures AllNormal(env, NormalForms(env, proofs)) <==> AllCutsClean(proofs)
  {
    hide NormalizeProof, CutsClean;
    var forms := NormalForms(env, proofs);
    forall i | 0 <= i < |proofs|
      ensures NormalizeProof(env, forms[i]) == Ok(forms[i]) <==> CutsClean(proofs[i].page)
    {
      ProofSettles(env, proofs[i]);
    }
  }

  /** A block that prepares to itself again has recorded its proofs in a form that stays. */
  lemma RepeatingIsNormal(net: Network, parent: Block, s: Snapshot, raw: Block)
    requires PrepareBlock(net, parent, s, raw).Ok?
    requires var p := PrepareBlock(net, parent, s, raw).value;
      PrepareBlock(net, parent, s, p.block).Ok? && PrepareBlock(net, parent, s, p.block).value.block == p.block
    ensures AllCutsClean(raw.body.proofs)
  {
    var p, proofs := PrepareBlock(net, parent, s, raw).value, raw.body.proofs;
    PreparedParts(net, parent, s, raw);
    PreparedParts(net, parent, s, p.block);
    var afterTxs := ApplyTransactions(net, s, raw.body.transactions).value;
    hide PrepareBlock, ApplyTransactions, ApplyProofs, StampAll, Work.BlockWork, Rooted, Expected, NormalForms,
      AllCutsClean, AllNormal;
    RecordedProofs(net, afterTxs.state, proofs);
    TransactionsAgain(net, s, raw.body.transactions);
    RecordedProofs(net, afterTxs.state, p.block.body.proofs);
    AllNormalFrom(net.env, p.block.body.proofs);
    AllNormalExactly(net.env, proofs);
  }

  /**
   A prepared block, as broadcast, prepares to itself again if and only if no cut of a submitted
   text leaves a trailing space and the submitted proofs score the same when cut to what is recorded.
   */
  lemma BroadcastExactly(net: Network, parent: Block, s: Snapshot, raw: Block)
    requires PrepareBlock(net, parent, s, raw).Ok?
    ensures Repeats(LedgerRules(net), parent, s, PrepareBlock(net, parent, s, raw).value)
       <==> AllCutsClean(raw.body.proofs) && ScoresSame(net, s, raw)
  {
    var p := PrepareBlock(net, parent, s, raw).value;
    PreparedParts(net, parent, s, raw);
    assert Repeats(LedgerRules(net), parent, s, p) <==> PrepareBlock(net, parent, s, p.block) == Ok(p);
    hide PrepareBlock, ApplyTransactions, ApplyProofs, StampAll, Work.BlockWork, Rooted, Expected, NormalForms,
      AllCutsClean, ScoreWith, Repeats;
    WorkIsScore(net, s, raw, raw.body.proofs);
    if AllCutsClean(raw.body.proofs) {
      CleanBlockIsAccepted(net, parent, s, raw);
    } else if PrepareBlock(net, parent, s, p.block) == Ok(p) {
      RepeatingIsNormal(net, parent, s, raw);
    }
  }

  lemma ExpectedLinks(net: Network, parent: Block, raw: Block, txs: seq<Transaction>, proofs: seq<CrawlProof>,
                      s: Snapshot)
    ensures var block := Expected(net, parent, raw, txs, proofs, s);
      block.header.number == parent.header.number + 1 && block.header.parentHash == parent.hash
  {
    hide Rooted;
  }

  lemma AllNormalFrom(env: Env, proofs: seq<CrawlProof>)
    requires forall i :: 0 <= i < |proofs| ==> NormalizeProof(env, proofs[i]) == Ok(proofs[i])
    ensures AllNormal(env, proofs)
  {
  }

  /** A block whose proofs were submitted in their normal form prepares to itself again. */
  lemma NormalProofsPrepareAgain(net: Network, parent: Block, s: Snapshot, raw: Block)
    requires PrepareBlock(net, parent, s, raw).Ok? && AllNormal(net.env, raw.body.proofs)
    ensures NormalForms(net.env, raw.body.proofs) == raw.body.proofs
    ensures Repeats(LedgerRules(net), parent, s, PrepareBlock(net, parent, s, raw).value)
  {
    var proofs := raw.body.proofs;
    NormalFormsStay(net.env, proofs);
    AllNormalExactly(net.env, proofs);
    BroadcastExactly(net, parent, s, raw);
    hide PrepareBlock, AllCutsClean, NormalForms, Repeats;
  }

  lemma NormalFormsStay(env: Env, proofs: seq<CrawlProof>)
    requires AllNormal(env, proofs)
    ensures NormalForms(env, proofs) == proofs
    ensures forall i :: 0 <= i < |proofs| ==> NormalizeProof(env, proofs[i]) == Ok(NormalForms(env, proofs)[i])
  {
    hide NormalizeProof;
  }
}
