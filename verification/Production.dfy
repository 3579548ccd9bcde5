/** From a mining tick to the chain: the proofs that a tick assembles, and the block that the chain makes of them. */
module Production {
  import opened Records
  import opened Ledger
  import opened Pools
  import opened Lanes
  import opened Routing
  import opened Tick
  import opened Refusals
  import opened Money
  import Chain
  import Blocks
  import Draining
  import Node
  import Stalls
  import Text

  // ---------------------------------------------------------------- pricing a mined page

  /** The fee and the reward that a task was quoted when it was submitted. */
  datatype Quote = Quote(fee: int, reward: int)

  /** What a crawl found. */
  datatype Finding = Finding(url: string, page: Page, proofHash: string, completedAt: int)

  /** The miner's address, what the entries' details hold, and what the crawl results hold. */
  datatype Desk = Desk(
    miner: string,
    quote: Entry -> Quote,
    request: Entry -> TaskRequest,
    createdAt: Entry -> int,
    found: string -> Finding)

  function FirstNonEmpty(a: string, b: string): string {
    if Text.Trim(a) != "" then a else if Text.Trim(b) != "" then b else ""
  }

  function ValueOrZero(a: Amount): int {
    match Parsed(a)
    case Some(v) => v
    case None => 0
  }

  /** `searchTaskRecordFromEnvelope`: the quoted amounts, unless one of them is zero. */
  function EnvelopeRecord(desk: Desk, e: Entry): Task {
    var q, r, value := desk.quote(e), desk.request(e), ValueOrZero(e.tx.value);
    var again := q.fee == 0 || q.reward == 0;
    Task(FirstNonEmpty(e.tx.hash, e.tx.hash), e.tx.hash, e.tx.from, r.query, r.url, r.baseBounty, value,
         if again then ArchitectFee(value) else q.fee, if again then value - ArchitectFee(value) else q.reward,
         r.difficulty, r.dataVolume, desk.createdAt(e), false, "", 0, false, 0, "", "")
  }

  /** The record of a work item: a drained task's own, or the chain's for a follow-on task. */
  function RecordOf(desk: Desk, tasks: map<string, Task>, item: WorkItem): Task {
    if item.source == Frontier && item.recordId in tasks then tasks[item.recordId] else EnvelopeRecord(desk, item.entry)
  }

  function ProofOf(desk: Desk, tasks: map<string, Task>, item: WorkItem, page: string): CrawlProof {
    var record, f := RecordOf(desk, tasks, item), desk.found(page);
    CrawlProof(record.id, FirstNonEmpty(record.txHash, record.id), record.query, f.url, desk.miner, f.page, f.proofHash,
               Plain(record.gross), Plain(record.fee), Plain(record.reward), f.completedAt)
  }

  function ProofsOf(desk: Desk, tasks: map<string, Task>, mined: seq<(WorkItem, string)>): (proofs: seq<CrawlProof>)
    ensures |proofs| == |mined|
    ensures forall i :: 0 <= i < |mined| ==> proofs[i] == ProofOf(desk, tasks, mined[i].0, mined[i].1)
  {
    seq(|mined|, i requires 0 <= i < |mined| => ProofOf(desk, tasks, mined[i].0, mined[i].1))
  }

  /** The body of the block that a tick assembles over a ledger. */
  function BodyOf(desk: Desk, tasks: map<string, Task>, a: Assembled): Body {
    Body(Stalls.TxsOf(a.transfers) + Stalls.TxsOf(a.tasks), ProofsOf(desk, tasks, a.proofs))
  }

  // ---------------------------------------------------------------- the amounts

  datatype Amounts = Amounts(gross: int, fee: int, reward: int)

  function AmountsOf(t: Task): Amounts {
    Amounts(t.gross, t.fee, t.reward)
  }

  /** What the ledger records for a paid task of some value. */
  function Due(value: int): Amounts {
    Amounts(value, ArchitectFee(value), value - ArchitectFee(value))
  }

  /** The quote is the ledger's split of the value, or is made anew. */
  predicate QuoteFits(q: Quote, value: int) {
    q.fee == 0 || q.reward == 0 || (q.fee == ArchitectFee(value) && q.reward == value - ArchitectFee(value))
  }

  /** A drained task is priced as the ledger records it, exactly when its quote fits. */
  lemma PricedRight(desk: Desk, e: Entry)
    requires Parsed(e.tx.value).Some?
    ensures AmountsOf(EnvelopeRecord(desk, e)) == Due(Parsed(e.tx.value).value)
       <==> QuoteFits(desk.quote(e), Parsed(e.tx.value).value)
  {
    hide FirstNonEmpty, ArchitectFee;
  }

  /** What a proof carries: the record's task and amounts, and what the crawl found, in this node's name. */
  lemma ProofIs(desk: Desk, tasks: map<string, Task>, item: WorkItem, page: string)
    ensures var p, record, f := ProofOf(desk, tasks, item, page), RecordOf(desk, tasks, item), desk.found(page);
      && p.taskId == record.id && p.query == record.query
      && p.taskTxHash == (if Text.Trim(record.txHash) != "" then record.txHash
                          else if Text.Trim(record.id) != "" then record.id else "")
      && p.gross == Plain(record.gross) && p.fee == Plain(record.fee) && p.reward == Plain(record.reward)
      && p.url == f.url && p.page == f.page && p.proofHash == f.proofHash && p.createdAt == f.completedAt
      && p.miner == desk.miner
    ensures item.source == Mempool ==>
      var record, e := RecordOf(desk, tasks, item), item.entry;
      && (Text.Trim(e.tx.hash) != "" ==> record.id == e.tx.hash) && record.txHash == e.tx.hash
      && record.submitter == e.tx.from && record.query == desk.request(e).query && record.url == desk.request(e).url
      && record.difficulty == desk.request(e).difficulty
    ensures item.source == Frontier && item.recordId in tasks ==>
      RecordOf(desk, tasks, item) == tasks[item.recordId]
  {
    hide Text.Trim, ArchitectFee;
  }

  /** A proof meets no amount error against a task with the amounts of its record. */
  lemma ProofMatches(desk: Desk, tasks: map<string, Task>, item: WorkItem, page: string, task: Task)
    ensures AmountsMismatch(task, ProofOf(desk, tasks, item, page)) == None
       <==> AmountsOf(task) == AmountsOf(RecordOf(desk, tasks, item))
  {
    hide FirstNonEmpty, RecordOf;
  }

  /** No follow-on task is ever given this identifier. */
  ghost predicate OwnId(env: Env, id: string) {
    forall parent, depth, target :: env.taskId(parent, depth, target) != id
  }

  /** A follow-on task under this identifier, now or later, has the amounts of the proof. */
  ghost predicate Steady(env: Env, p: CrawlProof) {
    OwnId(env, p.taskId) || (p.gross == Plain(0) && p.fee == Plain(0) && p.reward == Plain(0))
  }

  /** The proof's identifier is clean, and its amounts are those of its task, if that exists. */
  ghost predicate Fits(env: Env, tasks: map<string, Task>, p: CrawlProof) {
    && Text.Trim(p.taskId) == p.taskId && Steady(env, p)
    && (p.taskId in tasks ==> AmountsMismatch(tasks[p.taskId], p) == None)
  }

  ghost predicate AllFit(env: Env, tasks: map<string, Task>, proofs: seq<CrawlProof>) {
    forall i :: 0 <= i < |proofs| ==> Fits(env, tasks, proofs[i])
  }

  lemma {:induction false} SpawnFits(env: Env, tasks: map<string, Task>, parent: Task, proof: CrawlProof,
                                     targets: seq<string>, p: CrawlProof)
    requires Fits(env, tasks, p)
    ensures Fits(env, AddSpawned(env, tasks, parent, proof, targets), p)
    decreases |targets|
  {
    hide Text.Trim, OwnId;
    if targets != [] {
      var t := SpawnedTask(env, parent, proof, targets[0]);
      if p.taskId == t.id {
        SpawnedId(env, parent, proof, targets[0]);
        assert AmountsMismatch(t, p) == None;
      }
      SpawnFits(env, tasks[t.id := t], parent, proof, targets[1..], p);
    }
  }

  lemma SpawnedId(env: Env, parent: Task, proof: CrawlProof, target: string)
    ensures !OwnId(env, SpawnedTask(env, parent, proof, target).id)
  {
    hide Text.Trim;
  }

  /** What an accepted proof does to the tasks. */
  lemma ProofTasks(env: Env, s: Snapshot, raw: CrawlProof)
    requires MoneyInv(s) && ApplyCrawlProof(env, s, raw, "").Ok?
    ensures var a := ApplyCrawlProof(env, s, raw, "").value;
      && a.proof.taskId in s.tasks
      && var done := Settled(s.tasks[a.proof.taskId], a.proof);
      && done.id == a.proof.taskId
      && a.state.tasks == AddSpawned(env, s.tasks[a.proof.taskId := done], done, a.proof, a.spawned)
  {
    ProofPays(env, s, raw, "");
    hide ApplyCrawlProof, AddSpawned, SpawnTargets, IndexRecord, IndexPage, Credit, Debit, BalanceOf;
  }

  /** Applying one proof leaves the others fitting. */
  lemma ProofKeepsFit(env: Env, s: Snapshot, raw: CrawlProof, p: CrawlProof)
    requires MoneyInv(s) && ApplyCrawlProof(env, s, raw, "").Ok? && Fits(env, s.tasks, p)
    ensures Fits(env, ApplyCrawlProof(env, s, raw, "").value.state.tasks, p)
  {
    hide *;
    var a := ApplyCrawlProof(env, s, raw, "").value;
    ProofTasks(env, s, raw);
    var done := Settled(s.tasks[a.proof.taskId], a.proof);
    SettlingKeepsFit(env, s.tasks, a.proof, p);
    SpawnFits(env, s.tasks[a.proof.taskId := done], done, a.proof, a.spawned, p);
  }

  lemma SettlingKeepsFit(env: Env, tasks: map<string, Task>, q: CrawlProof, p: CrawlProof)
    requires q.taskId in tasks && Fits(env, tasks, p)
    ensures Fits(env, tasks[q.taskId := Settled(tasks[q.taskId], q)], p)
  {
    hide Steady, Text.Trim;
  }

  /** A fitting proof on a sound ledger is refused neither for its amounts nor for lack of escrow. */
  lemma FitIsNotRefused(env: Env, s: Snapshot, p: CrawlProof)
    requires MoneyInv(s) && Fits(env, s.tasks, p)
    ensures var r := ApplyCrawlProof(env, s, p, "");
      r.Err? ==> !IsAmountError(r.error) && r.error != InsufficientBalance
  {
    ProofNeverLacksEscrow(env, s, p, "");
    NormalKeepsAmounts(env, p);
    hide NormalizeProof, IndexPage, IndexRecord, SpawnTargets, AddSpawned, Credit, Debit, BalanceOf, Text.Trim,
      MoneyInv, Steady;
  }

  lemma NormalKeepsAmounts(env: Env, p: CrawlProof)
    ensures var r := NormalizeProof(env, p);
      match r
      case Err(e) => e == InvalidBlock
      case Ok(q) => q.gross == p.gross && q.fee == p.fee && q.reward == p.reward && q.taskId == Text.Trim(p.taskId)
  {
    hide Text.Trim, NormalizePage;
  }

  /** The proofs of a block are never refused for amounts or lack of escrow when all fit. */
  lemma {:induction false} ProofsNotRefused(net: Node.Network, s: Snapshot, proofs: seq<CrawlProof>,
                                            rest: seq<CrawlProof>)
    requires Node.LedgerInv(s) && AllFit(net.env, s.tasks, proofs + rest)
    ensures var r := Node.ApplyProofs(net, s, proofs);
      match r
      case Err(e) => !IsAmountError(e) && e != InsufficientBalance
      case Ok(done) => AllFit(net.env, done.state.tasks, rest)
    decreases |proofs|
  {
    hide ApplyCrawlProof, Fits, IsAmountError, Node.LedgerInv;
    if proofs == [] {
      assert proofs + rest == rest;
    } else {
      var init, p := proofs[..|proofs| - 1], proofs[|proofs| - 1];
      assert proofs + rest == init + ([p] + rest);
      ProofsNotRefused(net, s, init, [p] + rest);
      if Node.ApplyProofs(net, s, init).Ok? {
        Node.ProofsKeepInv(net, s, init);
        var before := Node.ApplyProofs(net, s, init).value.state;
        MoneyPart(before);
        assert Fits(net.env, before.tasks, ([p] + rest)[0]);
        FitIsNotRefused(net.env, before, p);
        if ApplyCrawlProof(net.env, before, p, "").Ok? {
          forall i | 0 <= i < |rest|
            ensures Fits(net.env, ApplyCrawlProof(net.env, before, p, "").value.state.tasks, rest[i])
          {
            assert ([p] + rest)[i + 1] == rest[i];
            ProofKeepsFit(net.env, before, p, rest[i]);
          }
        }
      }
    }
  }

  lemma MoneyPart(s: Snapshot)
    requires Node.LedgerInv(s)
    ensures MoneyInv(s) && TasksKeyed(s.tasks)
  {
  }

  // ---------------------------------------------------------------- the transactions of the block

  /** Any transaction that records a task under the proof's identifier records it with the proof's amounts. */
  ghost predicate WritesFit(env: Env, tx: Transaction, p: CrawlProof) {
    var n := NormalizeTransaction(env, tx);
    n.kind == SearchTask && n.hash == p.taskId && Parsed(n.value).Some? ==>
      p.gross.Plain? && p.fee.Plain? && p.reward.Plain?
      && Amounts(p.gross.n, p.fee.n, p.reward.n) == Due(Parsed(n.value).value)
  }

  lemma TransactionKeepsFit(net: Node.Network, s: Snapshot, tx: Transaction, p: CrawlProof)
    requires ApplyTransaction(net.env, s, tx, net.architect).Ok?
    requires Fits(net.env, s.tasks, p) && WritesFit(net.env, tx, p)
    ensures Fits(net.env, ApplyTransaction(net.env, s, tx, net.architect).value.state.tasks, p)
  {
    TransactionMoves(net.env, s, tx, net.architect);
    hide *;
    var a := ApplyTransaction(net.env, s, tx, net.architect).value;
    MovesKeepFit(net.env, s, a, Parsed(a.tx.value).value, NormalizedArchitect(net.architect), tx, p);
  }

  lemma MovesKeepFit(env: Env, s: Snapshot, a: Applied, value: int, architect: string, tx: Transaction, p: CrawlProof)
    requires Parsed(a.tx.value) == Some(value) && Moves(s, a, value, architect)
    requires a.tx == NormalizeTransaction(env, tx) && Fits(env, s.tasks, p) && WritesFit(env, tx, p)
    ensures Fits(env, a.state.tasks, p)
  {
    hide NormalizeTransaction, Credit, Debit, BalanceOf, Fits, ArchitectFee;
    if a.tx.kind == SearchTask {
      var request :| a.state.tasks == s.tasks[a.tx.hash := PaidTask(a.tx, request, value, a.fee, a.net)];
      PaidKeepsFit(env, s.tasks, PaidTask(a.tx, request, value, a.fee, a.net), value, p);
    }
  }

  /** A task recorded with what is due keeps a proof fitting that claims just that. */
  lemma PaidKeepsFit(env: Env, tasks: map<string, Task>, t: Task, value: int, p: CrawlProof)
    requires Fits(env, tasks, p) && AmountsOf(t) == Due(value)
    requires t.id == p.taskId ==>
      p.gross.Plain? && p.fee.Plain? && p.reward.Plain? && Amounts(p.gross.n, p.fee.n, p.reward.n) == Due(value)
    ensures Fits(env, tasks[t.id := t], p)
  {
    hide Steady, Text.Trim, ArchitectFee;
  }

  lemma {:induction false} TransactionsKeepFit(net: Node.Network, s: Snapshot, txs: seq<Transaction>, p: CrawlProof)
    requires Node.ApplyTransactions(net, s, txs).Ok? && Fits(net.env, s.tasks, p)
    requires forall i :: 0 <= i < |txs| ==> WritesFit(net.env, txs[i], p)
    ensures Fits(net.env, Node.ApplyTransactions(net, s, txs).value.state.tasks, p)
    decreases |txs|
  {
    hide ApplyTransaction, Fits, WritesFit;
    if txs != [] {
      var init, tx := txs[..|txs| - 1], txs[|txs| - 1];
      TransactionsKeepFit(net, s, init, p);
      TransactionKeepsFit(net, Node.ApplyTransactions(net, s, init).value.state, tx, p);
    }
  }

  lemma {:induction false} TransactionsErrors(net: Node.Network, s: Snapshot, txs: seq<Transaction>)
    ensures Node.ApplyTransactions(net, s, txs).Err? ==> !IsAmountError(Node.ApplyTransactions(net, s, txs).error)
    decreases |txs|
  {
    hide ApplyTransaction, IsAmountError;
    if txs != [] {
      var init := txs[..|txs| - 1];
      TransactionsErrors(net, s, init);
      if Node.ApplyTransactions(net, s, init).Ok? {
        OneNonce(net.env, Node.ApplyTransactions(net, s, init).value.state, txs[|txs| - 1], net.architect);
      }
    }
  }

  /** A block whose proofs all fit is not refused for a proof's amounts. */
  lemma BlockNotRefused(net: Node.Network, parent: Block, s: Snapshot, block: Block)
    requires Node.LedgerInv(s) && AllFit(net.env, s.tasks, block.body.proofs)
    requires forall i, j :: 0 <= i < |block.body.transactions| && 0 <= j < |block.body.proofs| ==>
      WritesFit(net.env, block.body.transactions[i], block.body.proofs[j])
    ensures var r := Node.PrepareBlock(net, parent, s, block); r.Err? ==> !IsAmountError(r.error)
  {
    hide *;
    var txs, proofs := block.body.transactions, block.body.proofs;
    TransactionsErrors(net, s, txs);
    if Node.ApplyTransactions(net, s, txs).Ok? {
      var after := Node.ApplyTransactions(net, s, txs).value.state;
      Node.TransactionsKeepInv(net, s, txs);
      FitAfter(net, s, txs, proofs);
      assert proofs + [] == proofs;
      ProofsNotRefused(net, after, proofs, []);
    }
    PrepareErrors(net, parent, s, block);
  }

  lemma FitAfter(net: Node.Network, s: Snapshot, txs: seq<Transaction>, proofs: seq<CrawlProof>)
    requires Node.ApplyTransactions(net, s, txs).Ok? && AllFit(net.env, s.tasks, proofs)
    requires forall i, j :: 0 <= i < |txs| && 0 <= j < |proofs| ==> WritesFit(net.env, txs[i], proofs[j])
    ensures AllFit(net.env, Node.ApplyTransactions(net, s, txs).value.state.tasks, proofs)
  {
    hide Node.ApplyTransactions, Fits, WritesFit;
    forall j | 0 <= j < |proofs|
      ensures Fits(net.env, Node.ApplyTransactions(net, s, txs).value.state.tasks, proofs[j])
    {
      TransactionsKeepFit(net, s, txs, proofs[j]);
    }
  }

  /** What the errors of preparation come from. */
  lemma PrepareErrors(net: Node.Network, parent: Block, s: Snapshot, block: Block)
    ensures var r := Node.PrepareBlock(net, parent, s, block);
      var txs := Node.ApplyTransactions(net, s, block.body.transactions);
      r.Err? && IsAmountError(r.error) ==>
        || (txs.Err? && IsAmountError(txs.error))
        || (txs.Ok?
            && var proofs := Node.ApplyProofs(net, txs.value.state, block.body.proofs);
               proofs.Err? && IsAmountError(proofs.error))
  {
    hide Node.ApplyTransactions, Node.ApplyProofs, Node.StampAll, Node.Expected, Node.ClaimsHold;
  }

  // ---------------------------------------------------------------- settled tasks

  /** The task under an identifier of its own is settled. */
  ghost predicate IsSettled(tasks: map<string, Task>, id: string) {
    id in tasks && tasks[id].completed
  }

  lemma {:induction false} SpawnKeepsSettled(env: Env, tasks: map<string, Task>, parent: Task, proof: CrawlProof,
                                             targets: seq<string>, id: string)
    requires IsSettled(tasks, id) && OwnId(env, id)
    ensures IsSettled(AddSpawned(env, tasks, parent, proof, targets), id)
    decreases |targets|
  {
    hide Text.Trim, OwnId;
    if targets != [] {
      var t := SpawnedTask(env, parent, proof, targets[0]);
      SpawnedId(env, parent, proof, targets[0]);
      SpawnKeepsSettled(env, tasks[t.id := t], parent, proof, targets[1..], id);
    }
  }

  /** An accepted proof settles its task and unsettles none with an identifier of its own. */
  lemma ProofSettles(env: Env, s: Snapshot, raw: CrawlProof, id: string)
    requires MoneyInv(s) && ApplyCrawlProof(env, s, raw, "").Ok? && OwnId(env, id)
    ensures IsSettled(s.tasks, id) || id == Text.Trim(raw.taskId) ==>
      IsSettled(ApplyCrawlProof(env, s, raw, "").value.state.tasks, id)
  {
    hide *;
    var a := ApplyCrawlProof(env, s, raw, "").value;
    ProofTasks(env, s, raw);
    NormalKeepsAmounts(env, raw);
    AppliedIsNormal(env, s, raw);
    var done := Settled(s.tasks[a.proof.taskId], a.proof);
    OneSettled(s.tasks, a.proof, id);
    if IsSettled(s.tasks, id) || id == Text.Trim(raw.taskId) {
      SpawnKeepsSettled(env, s.tasks[a.proof.taskId := done], done, a.proof, a.spawned, id);
    }
  }

  lemma OneSettled(tasks: map<string, Task>, p: CrawlProof, id: string)
    requires p.taskId in tasks
    ensures IsSettled(tasks, id) || id == p.taskId ==>
      IsSettled(tasks[p.taskId := Settled(tasks[p.taskId], p)], id)
  {
  }

  lemma AppliedIsNormal(env: Env, s: Snapshot, raw: CrawlProof)
    requires ApplyCrawlProof(env, s, raw, "").Ok?
    ensures NormalizeProof(env, raw) == Ok(ApplyCrawlProof(env, s, raw, "").value.proof)
  {
    hide NormalizeProof, IndexPage, IndexRecord, SpawnTargets, AddSpawned, AmountsMismatch, Credit, Debit, BalanceOf;
  }

  /** Once a block is through, the task of each of its proofs is settled, if it has an identifier of its own. */
  lemma {:induction false} ProofsSettle(net: Node.Network, s: Snapshot, proofs: seq<CrawlProof>, i: nat)
    requires Node.LedgerInv(s) && Node.ApplyProofs(net, s, proofs).Ok? && i < |proofs|
    requires OwnId(net.env, Text.Trim(proofs[i].taskId))
    ensures IsSettled(Node.ApplyProofs(net, s, proofs).value.state.tasks, Text.Trim(proofs[i].taskId))
    decreases |proofs|
  {
    hide ApplyCrawlProof, IsSettled, OwnId, Text.Trim, Node.LedgerInv;
    var n := |proofs| - 1;
    var init := proofs[..n];
    Node.ProofsKeepInv(net, s, init);
    var before := Node.ApplyProofs(net, s, init).value.state;
    MoneyPart(before);
    ProofSettles(net.env, before, proofs[n], Text.Trim(proofs[i].taskId));
    if i < n {
      ProofsSettle(net, s, init, i);
    }
  }

  lemma PreparedSettles(net: Node.Network, parent: Block, s: Snapshot, block: Block, i: nat)
    requires Node.LedgerInv(s) && Node.PrepareBlock(net, parent, s, block).Ok? && i < |block.body.proofs|
    requires OwnId(net.env, Text.Trim(block.body.proofs[i].taskId))
    ensures IsSettled(Node.PrepareBlock(net, parent, s, block).value.state.tasks,
                      Text.Trim(block.body.proofs[i].taskId))
  {
    hide Node.ApplyTransactions, Node.ApplyProofs, Node.StampAll, Node.Expected, Node.ClaimsHold, Node.LedgerInv,
      IsSettled, OwnId, Text.Trim;
    Node.TransactionsKeepInv(net, s, block.body.transactions);
    ProofsSettle(net, Node.ApplyTransactions(net, s, block.body.transactions).value.state, block.body.proofs, i);
  }

  // ---------------------------------------------------------------- where the proofs come from

  /** Each proof is of a given item, of a mined task if that was drained, and each mined task has one. */
  ghost predicate ProofsTell(r: Routed, items: seq<WorkItem>) {
    && (forall k :: 0 <= k < |r.proofs| ==>
          r.proofs[k].0 in items && (r.proofs[k].0.source == Mempool ==> r.proofs[k].0.entry in r.mined))
    && (forall x :: x in r.mined ==>
          exists k :: 0 <= k < |r.proofs| && r.proofs[k].0.source == Mempool && r.proofs[k].0.entry == x)
  }

  lemma RouteTells(r: Routed, items: seq<WorkItem>, o: MineOutcome, terminal: string -> bool)
    requires ProofsTell(r, items)
    ensures ProofsTell(Route(r, o, terminal), items + [o.job.item])
  {
    var next, all := Route(r, o, terminal), items + [o.job.item];
    assert o.job.item in all;
    assert forall x :: x in items ==> x in all;
    assert next.proofs == r.proofs || next.proofs == r.proofs + [next.proofs[|r.proofs|]];
    forall x | x in next.mined
      ensures exists k :: 0 <= k < |next.proofs| && next.proofs[k].0.source == Mempool && next.proofs[k].0.entry == x
    {
      if x in r.mined {
        var k :| 0 <= k < |r.proofs| && r.proofs[k].0.source == Mempool && r.proofs[k].0.entry == x;
        assert next.proofs[k] == r.proofs[k];
      } else {
        assert next.proofs[|r.proofs|].0.entry == x;
      }
    }
  }

  lemma {:induction false} RoutedProofs(start: Routed, os: seq<MineOutcome>, items: seq<WorkItem>,
                                        terminal: string -> bool)
    requires Answers(os, items) && start.mined == [] && start.proofs == []
    ensures ProofsTell(RouteAll(start, os, terminal), items)
    decreases |os|
  {
    hide Route;
    if os != [] {
      var init, item := items[..|items| - 1], items[|items| - 1];
      assert items == init + [item];
      RoutedProofs(start, os[..|os| - 1], init, terminal);
      RouteTells(RouteAll(start, os[..|os| - 1], terminal), init, os[|os| - 1], terminal);
    }
  }

  // ---------------------------------------------------------------- the tick and the chain

  /** What submission established of a pending task; its digest is no other task's identifier. */
  ghost predicate Quoted(env: Env, desk: Desk, tasks: map<string, Task>, e: Entry) {
    && e.tx == NormalizeTransaction(env, e.tx)
    && e.tx.hash != "" && Text.Trim(e.tx.hash) == e.tx.hash && OwnId(env, e.tx.hash)
    && Parsed(e.tx.value).Some? && QuoteFits(desk.quote(e), Parsed(e.tx.value).value)
    && (e.tx.hash in tasks ==> AmountsOf(tasks[e.tx.hash]) == Due(Parsed(e.tx.value).value))
  }

  /** A follow-on item names a task of the ledger: a paid one, or one that pays nothing. */
  ghost predicate Listed(env: Env, tasks: map<string, Task>, item: WorkItem) {
    && item.source == Frontier
    && item.recordId in tasks && Text.Trim(item.recordId) == item.recordId
    && (OwnId(env, item.recordId) || AmountsOf(tasks[item.recordId]) == Amounts(0, 0, 0))
  }

  /** An item of the tick: a pending task, or a listed one. */
  ghost predicate Workable(env: Env, tasks: map<string, Task>, pool: seq<Entry>, item: WorkItem) {
    if item.source == Mempool then item.entry in pool else Listed(env, tasks, item)
  }

  /** The proof of a drained task. */
  lemma DrainedFits(env: Env, desk: Desk, tasks: map<string, Task>, item: WorkItem, page: string)
    requires item.source == Mempool && Quoted(env, desk, tasks, item.entry)
    ensures var p := ProofOf(desk, tasks, item, page);
      && Fits(env, tasks, p) && p.taskId == item.entry.tx.hash
      && p.gross.Plain? && p.fee.Plain? && p.reward.Plain?
      && Amounts(p.gross.n, p.fee.n, p.reward.n) == Due(Parsed(item.entry.tx.value).value)
  {
    hide NormalizeTransaction, Text.Trim, ArchitectFee, QuoteFits, OwnId;
    var p, v := ProofOf(desk, tasks, item, page), Parsed(item.entry.tx.value).value;
    PricedRight(desk, item.entry);
    if item.entry.tx.hash in tasks {
      ProofMatches(desk, tasks, item, page, tasks[item.entry.tx.hash]);
    }
  }

  /** The proof of a follow-on task. */
  lemma ListedFits(env: Env, desk: Desk, tasks: map<string, Task>, item: WorkItem, page: string)
    requires TasksKeyed(tasks) && Listed(env, tasks, item)
    ensures item.recordId in tasks
    ensures var p, task := ProofOf(desk, tasks, item, page), tasks[item.recordId];
      && Fits(env, tasks, p) && p.taskId == item.recordId
      && p.gross == Plain(task.gross) && p.fee == Plain(task.fee) && p.reward == Plain(task.reward)
  {
    hide Text.Trim, OwnId;
    ProofMatches(desk, tasks, item, page, tasks[item.recordId]);
  }

  lemma ProofFits(env: Env, desk: Desk, tasks: map<string, Task>, pool: seq<Entry>, item: WorkItem, page: string)
    requires TasksKeyed(tasks) && Workable(env, tasks, pool, item)
    requires forall x :: x in pool ==> Quoted(env, desk, tasks, x)
    ensures Fits(env, tasks, ProofOf(desk, tasks, item, page))
  {
    if item.source == Mempool {
      DrainedFits(env, desk, tasks, item, page);
    } else {
      ListedFits(env, desk, tasks, item, page);
    }
    hide ProofOf, Fits, Quoted, Listed;
  }

  /** A pending task's transaction records nothing that the proof of an item would contradict. */
  lemma TaskWritesFit(env: Env, desk: Desk, tasks: map<string, Task>, pool: seq<Entry>, x: Entry, item: WorkItem,
                      page: string)
    requires TasksKeyed(tasks) && Unique(pool) && x in pool && Workable(env, tasks, pool, item)
    requires forall y :: y in pool ==> Quoted(env, desk, tasks, y)
    ensures WritesFit(env, x.tx, ProofOf(desk, tasks, item, page))
  {
    hide ProofOf, Fits, Listed, OwnId, QuoteFits, NormalizeTransaction, Text.Trim, ArchitectFee;
    if item.source == Mempool {
      DrainedFits(env, desk, tasks, item, page);
      if x.tx.hash == item.entry.tx.hash {
        OneHash(pool, x, item.entry);
      }
    } else {
      ListedFits(env, desk, tasks, item, page);
      assert Quoted(env, desk, tasks, x);
    }
  }

  lemma OneHash(pool: seq<Entry>, x: Entry, y: Entry)
    requires Unique(pool) && x in pool && y in pool && x.tx.hash == y.tx.hash
    ensures x == y
  {
    var i :| 0 <= i < |pool| && pool[i] == x;
    var j :| 0 <= j < |pool| && pool[j] == y;
  }

  lemma OtherWritesNothing(env: Env, tx: Transaction, p: CrawlProof)
    requires tx.kind != SearchTask
    ensures WritesFit(env, tx, p)
  {
    hide Text.Trim;
  }

  /** What is offered comes from the pools and the listed items. */
  ghost predicate Grounded(env: Env, tasks: map<string, Task>, pool: seq<Entry>, a: Assembled) {
    && (forall x :: x in a.tasks ==> x in pool)
    && (forall x :: x in a.transfers ==> x.tx.kind != SearchTask)
    && (forall k :: 0 <= k < |a.proofs| ==> Workable(env, tasks, pool, a.proofs[k].0))
  }

  /** An assembled block claims exactly the amounts that the ledger will have recorded. */
  lemma AssembledFits(env: Env, desk: Desk, tasks: map<string, Task>, pool: seq<Entry>, a: Assembled)
    requires TasksKeyed(tasks) && Unique(pool) && Grounded(env, tasks, pool, a)
    requires forall x :: x in pool ==> Quoted(env, desk, tasks, x)
    ensures var body := BodyOf(desk, tasks, a);
      && AllFit(env, tasks, body.proofs)
      && forall i, j :: 0 <= i < |body.transactions| && 0 <= j < |body.proofs| ==>
           WritesFit(env, body.transactions[i], body.proofs[j])
  {
    hide Quoted, Workable, Fits, WritesFit, ProofOf, TasksKeyed, Unique;
    var body := BodyOf(desk, tasks, a);
    forall j | 0 <= j < |body.proofs|
      ensures Fits(env, tasks, body.proofs[j])
    {
      ProofFits(env, desk, tasks, pool, a.proofs[j].0, a.proofs[j].1);
    }
    forall i, j | 0 <= i < |body.transactions| && 0 <= j < |body.proofs|
      ensures WritesFit(env, body.transactions[i], body.proofs[j])
    {
      if i < |a.transfers| {
        OtherWritesNothing(env, a.transfers[i].tx, body.proofs[j]);
      } else {
        var x := a.tasks[i - |a.transfers|];
        TaskWritesFit(env, desk, tasks, pool, x, a.proofs[j].0, a.proofs[j].1);
      }
    }
  }

  /** Whether the chain takes an assembled block on its tip. */
  function Template(desk: Desk, parent: Block, s: Snapshot, timestamp: int, a: Assembled): Block {
    Blocks.MinedTemplate(parent, timestamp, desk.miner, BodyOf(desk, s.tasks, a))
  }

  function Takes(net: Node.Network, desk: Desk, parent: Block, s: Snapshot, timestamp: int): Assembled -> bool {
    (a: Assembled) => Node.PrepareBlock(net, parent, s, Template(desk, parent, s, timestamp, a)).Ok?
  }

  /** An assembled block is never refused for the amounts of its proofs. */
  lemma AssembledNotRefused(net: Node.Network, desk: Desk, parent: Block, s: Snapshot, timestamp: int,
                            pool: seq<Entry>, a: Assembled)
    requires Node.LedgerInv(s) && Unique(pool) && Grounded(net.env, s.tasks, pool, a)
    requires forall x :: x in pool ==> Quoted(net.env, desk, s.tasks, x)
    ensures var r := Node.PrepareBlock(net, parent, s, Template(desk, parent, s, timestamp, a));
      r.Err? ==> !IsAmountError(r.error)
  {
    MoneyPart(s);
    hide Node.PrepareBlock, Node.LedgerInv, Unique, Grounded, Quoted, IsAmountError, AllFit, WritesFit, BodyOf;
    AssembledFits(net.env, desk, s.tasks, pool, a);
    BlockNotRefused(net, parent, s, Template(desk, parent, s, timestamp, a));
  }

  /** When it is taken, each task in it is settled. */
  lemma CarriedIsSettled(net: Node.Network, desk: Desk, parent: Block, s: Snapshot, timestamp: int,
                         pool: seq<Entry>, a: Assembled, x: Entry, k: nat)
    requires Node.LedgerInv(s) && Quoted(net.env, desk, s.tasks, x)
    requires Node.PrepareBlock(net, parent, s, Template(desk, parent, s, timestamp, a)).Ok?
    requires k < |a.proofs| && a.proofs[k].0.source == Mempool && a.proofs[k].0.entry == x
    ensures IsSettled(Node.PrepareBlock(net, parent, s, Template(desk, parent, s, timestamp, a)).value.state.tasks,
                      x.tx.hash)
  {
    DrainedFits(net.env, desk, s.tasks, a.proofs[k].0, a.proofs[k].1);
    hide Node.PrepareBlock, Node.LedgerInv, IsSettled, ProofOf, Fits, OwnId, NormalizeTransaction, Text.Trim, QuoteFits;
    PreparedSettles(net, parent, s, Template(desk, parent, s, timestamp, a), k);
  }

  // ---------------------------------------------------------------- on the objects

  /** A block records the normal forms of its transactions. */
  lemma {:induction false} RecordedTransactions(net: Node.Network, s: Snapshot, txs: seq<Transaction>)
    requires Node.ApplyTransactions(net, s, txs).Ok?
    ensures var r := Node.ApplyTransactions(net, s, txs).value.txs;
      |r| == |txs| && forall i :: 0 <= i < |txs| ==> r[i] == NormalizeTransaction(net.env, txs[i])
    decreases |txs|
  {
    hide ApplyTransaction, NormalizeTransaction;
    if txs != [] {
      var init, tx := txs[..|txs| - 1], txs[|txs| - 1];
      RecordedTransactions(net, s, init);
      TransactionMoves(net.env, Node.ApplyTransactions(net, s, init).value.state, tx, net.architect);
    }
  }

  lemma RecordedAt(net: Node.Network, parent: Block, s: Snapshot, block: Block, i: nat)
    requires Node.PrepareBlock(net, parent, s, block).Ok? && i < |block.body.transactions|
    ensures NormalizeTransaction(net.env, block.body.transactions[i])
         in Node.PrepareBlock(net, parent, s, block).value.block.body.transactions
  {
    hide Node.ApplyTransactions, Node.ApplyProofs, Node.StampAll, Node.ClaimsHold, NormalizeTransaction, Node.Rooted;
    RecordedTransactions(net, s, block.body.transactions);
    var r := Node.ApplyTransactions(net, s, block.body.transactions).value.txs;
    assert r[i] in r;
  }

  /** What the tip's block and ledger hold of an assembled block. */
  ghost predicate Holds(env: Env, tip: Block, state: Snapshot, a: Assembled) {
    && (forall x :: x in a.transfers || x in a.tasks ==> NormalizeTransaction(env, x.tx) in tip.body.transactions)
    && (forall x :: x in a.tasks ==> IsSettled(state.tasks, x.tx.hash))
  }

  lemma TakenIsHeld(net: Node.Network, desk: Desk, parent: Block, s: Snapshot, timestamp: int, pool: seq<Entry>,
                    a: Assembled, r: Routed, items: seq<WorkItem>)
    requires Node.LedgerInv(s) && Grounded(net.env, s.tasks, pool, a)
    requires forall x :: x in pool ==> Quoted(net.env, desk, s.tasks, x)
    requires a.tasks == r.mined && a.proofs == r.proofs && ProofsTell(r, items)
    requires Node.PrepareBlock(net, parent, s, Template(desk, parent, s, timestamp, a)).Ok?
    ensures var p := Node.PrepareBlock(net, parent, s, Template(desk, parent, s, timestamp, a)).value;
      Holds(net.env, p.block, p.state, a)
  {
    var block := Template(desk, parent, s, timestamp, a);
    hide Node.PrepareBlock, Node.LedgerInv, Quoted, IsSettled, NormalizeTransaction, Workable, ProofOf;
    forall x | x in a.transfers || x in a.tasks
      ensures NormalizeTransaction(net.env, x.tx)
           in Node.PrepareBlock(net, parent, s, block).value.block.body.transactions
    {
      if x in a.transfers {
        var i :| 0 <= i < |a.transfers| && a.transfers[i] == x;
        RecordedAt(net, parent, s, block, i);
      } else {
        var i :| 0 <= i < |a.tasks| && a.tasks[i] == x;
        RecordedAt(net, parent, s, block, |a.transfers| + i);
      }
    }
    forall x | x in a.tasks
      ensures IsSettled(Node.PrepareBlock(net, parent, s, block).value.state.tasks, x.tx.hash)
    {
      var k :| 0 <= k < |r.proofs| && r.proofs[k].0.source == Mempool && r.proofs[k].0.entry == x;
      CarriedIsSettled(net, desk, parent, s, timestamp, pool, a, x, k);
    }
  }

  /** The pools and the chain are as submission and the ledger leave them, and the items are listed. */
  ghost predicate Ready(e: Engine, chain: Blocks.Blockchain, net: Node.Network, desk: Desk, frontier: seq<WorkItem>)
    reads e, e.txPool, e.taskPool, chain
  {
    && e.Valid() && chain.Valid()
    && chain.rules == Node.LedgerRules(net) && Node.GenesisSound(net, chain.genesis)
    && (forall x :: x in e.taskPool.pending ==> Quoted(net.env, desk, chain.state.tasks, x))
    && (forall x :: x in e.txPool.pending ==> x.tx.kind != SearchTask)
    && (forall i :: 0 <= i < |frontier| ==> Listed(net.env, chain.state.tasks, frontier[i]))
  }

  lemma ReadyParts(e: Engine, chain: Blocks.Blockchain, net: Node.Network, desk: Desk, frontier: seq<WorkItem>)
    requires Ready(e, chain, net, desk, frontier)
    ensures e.Valid() && chain.Valid() && chain.rules == Node.LedgerRules(net) && Unique(e.taskPool.pending)
    ensures Node.LedgerInv(chain.state)
    ensures forall i :: 0 <= i < |frontier| ==> frontier[i].source == Frontier
    ensures forall x :: x in e.taskPool.pending ==> Quoted(net.env, desk, chain.state.tasks, x)
  {
    Node.EverySnapshotSound(net, chain.genesis, chain.received, chain.db, chain.latest.hash);
    hide Quoted, Node.LedgerInv, Node.LedgerRules, Blocks.Replays, Node.Rooted, Chain.Sound, Unique, OwnId;
  }

  /** Everything the tick works on is grounded. */
  lemma TickIsGrounded(env: Env, desk: Desk, tasks: map<string, Task>, pool: seq<Entry>, transfers: seq<Entry>,
                       picks: seq<Entry>, frontier: seq<WorkItem>, owns: WorkItem -> bool, owned: seq<WorkItem>,
                       r: Routed, kept: seq<Entry>)
    requires owned == Owned(Wrap(picks) + frontier, owns, true) && ProofsTell(r, owned)
    requires forall x :: x in r.mined ==> x in pool
    requires forall x :: x in kept ==> x in transfers
    requires forall x :: x in transfers ==> x.tx.kind != SearchTask
    requires forall i :: 0 <= i < |frontier| ==> Listed(env, tasks, frontier[i])
    ensures Grounded(env, tasks, pool, Assembled(kept, r.mined, r.proofs))
  {
    hide *;
    forall k | 0 <= k < |r.proofs|
      ensures Workable(env, tasks, pool, r.proofs[k].0)
    {
      ProofTold(r, owned, k);
      OwnedAmong(Wrap(picks) + frontier, owns);
      ItemWorks(env, tasks, pool, picks, frontier, r.proofs[k].0, r.mined);
    }
    GroundedFrom(env, tasks, pool, Assembled(kept, r.mined, r.proofs));
  }

  lemma ProofTold(r: Routed, items: seq<WorkItem>, k: nat)
    requires ProofsTell(r, items) && k < |r.proofs|
    ensures r.proofs[k].0 in items && (r.proofs[k].0.source == Mempool ==> r.proofs[k].0.entry in r.mined)
  {
  }

  lemma GroundedFrom(env: Env, tasks: map<string, Task>, pool: seq<Entry>, a: Assembled)
    requires forall x :: x in a.tasks ==> x in pool
    requires forall x :: x in a.transfers ==> x.tx.kind != SearchTask
    requires forall k :: 0 <= k < |a.proofs| ==> Workable(env, tasks, pool, a.proofs[k].0)
    ensures Grounded(env, tasks, pool, a)
  {
    hide Workable;
  }

  lemma ItemWorks(env: Env, tasks: map<string, Task>, pool: seq<Entry>, picks: seq<Entry>, frontier: seq<WorkItem>,
                  item: WorkItem, mined: seq<Entry>)
    requires item in Wrap(picks) + frontier && (item.source == Mempool ==> item.entry in mined)
    requires forall x :: x in mined ==> x in pool
    requires forall i :: 0 <= i < |frontier| ==> Listed(env, tasks, frontier[i])
    ensures Workable(env, tasks, pool, item)
  {
    hide Listed;
    var items := Wrap(picks) + frontier;
    var i :| 0 <= i < |items| && items[i] == item;
    if i >= |picks| {
      assert item == frontier[i - |picks|];
      ListedIsFrontier(env, tasks, item);
    }
  }

  lemma ListedIsFrontier(env: Env, tasks: map<string, Task>, item: WorkItem)
    requires Listed(env, tasks, item)
    ensures item.source == Frontier
  {
    hide OwnId;
  }

  lemma {:induction false} OwnedAmong(items: seq<WorkItem>, owns: WorkItem -> bool)
    ensures forall x :: x in Owned(items, owns, true) ==> x in items
  {
    if items != [] {
      OwnedAmong(items[..|items| - 1], owns);
      assert items == items[..|items| - 1] + [items[|items| - 1]];
    }
  }

  /** The mined tasks of a tick were pending. */
  lemma MinedWerePending(r: Routed, owned: seq<WorkItem>, os: seq<MineOutcome>, terminal: string -> bool,
                         failures: map<string, nat>, picks: seq<Entry>, frontier: seq<WorkItem>,
                         owns: WorkItem -> bool, pool: seq<Entry>)
    requires Draining.Greedy(Draining.SetOf(pool), picks)
    requires forall i :: 0 <= i < |frontier| ==> frontier[i].source == Frontier
    requires owned == Owned(Wrap(picks) + frontier, owns, true)
    requires Answers(os, owned) && r == RouteAll(Fresh(failures), os, terminal)
    ensures forall x :: x in r.mined ==> x in pool
  {
    Draining.GreedyMembers(Draining.SetOf(pool), picks);
    EntriesOfWork(picks, frontier);
    OwnedSplits(Wrap(picks) + frontier, owns, Mempool);
    RouteAllConserves(Fresh(failures), os, owned, terminal);
    hide Draining.Greedy, Owned, RouteAll, EntriesFrom, Answers, CutoffsQuarantined;
    assert Buckets(Fresh(failures)) == multiset{};
    forall x | x in r.mined
      ensures x in pool
    {
      assert x in multiset(r.mined);
      assert x in Buckets(r);
      assert x in multiset(picks);
      assert x in Draining.SetOf(picks);
    }
  }

  /** The transfers that a tick drains. */
  function FirstBatch(pending: seq<Entry>): (batch: seq<Entry>)
    ensures batch <= pending
  {
    pending[..BatchOf(TX_BATCH, |pending|)]
  }

  /** What a tick offers the chain. */
  function Offer(transfers: seq<Entry>, r: Routed): Assembled {
    Assembled(Cut(FirstBatch(transfers), r.cutoffs, false), r.mined, r.proofs)
  }

  lemma OfferIs(transfers: seq<Entry>, r: Routed)
    ensures var a := Offer(transfers, r);
      && a.transfers == Cut(FirstBatch(transfers), r.cutoffs, false) && a.tasks == r.mined && a.proofs == r.proofs
      && a == Assembled(Cut(FirstBatch(transfers), r.cutoffs, false), r.mined, r.proofs)
    ensures FirstBatch(transfers) == transfers[..BatchOf(TX_BATCH, |transfers|)]
  {
  }

  /** What the chain answers an offer: the preparation of its template, exactly when that succeeds. */
  ghost predicate IsAnswer(net: Node.Network, desk: Desk, parent: Block, s: Snapshot, timestamp: int,
                           offered: Assembled, answer: Option<Chain.Prepared>)
  {
    var made := Node.PrepareBlock(net, parent, s, Template(desk, parent, s, timestamp, offered));
    && answer == (if offered != NO_WORK && made.Ok? then Some(made.value) else None)
    && (made.Err? ==> !IsAmountError(made.error))
    && (answer.Some? ==> Holds(net.env, answer.value.block, answer.value.state, offered))
  }

  lemma OfferAnswered(net: Node.Network, desk: Desk, parent: Block, s: Snapshot, timestamp: int, pool: seq<Entry>,
                      offered: Assembled, r: Routed, items: seq<WorkItem>, taken: Option<Assembled>)
    requires Node.LedgerInv(s) && Unique(pool) && Grounded(net.env, s.tasks, pool, offered)
    requires forall x :: x in pool ==> Quoted(net.env, desk, s.tasks, x)
    requires offered.tasks == r.mined && offered.proofs == r.proofs && ProofsTell(r, items)
    requires var takes := Takes(net, desk, parent, s, timestamp);
      taken == if offered != NO_WORK && takes(offered) then Some(offered) else None
    ensures var made := Node.PrepareBlock(net, parent, s, Template(desk, parent, s, timestamp, offered));
      && (taken.Some? ==> made.Ok? && IsAnswer(net, desk, parent, s, timestamp, offered, Some(made.value)))
      && (taken.None? ==> IsAnswer(net, desk, parent, s, timestamp, offered, None))
  {
    hide Node.PrepareBlock, Node.LedgerInv, Unique, Grounded, Quoted, ProofsTell, Template, Holds, IsAmountError;
    AssembledNotRefused(net, desk, parent, s, timestamp, pool, offered);
    if taken.Some? {
      TakenIsHeld(net, desk, parent, s, timestamp, pool, offered, r, items);
    }
  }

  lemma TakenHeader(net: Node.Network, desk: Desk, parent: Block, s: Snapshot, timestamp: int, a: Assembled)
    requires Node.PrepareBlock(net, parent, s, Template(desk, parent, s, timestamp, a)).Ok?
    ensures var p := Node.PrepareBlock(net, parent, s, Template(desk, parent, s, timestamp, a)).value;
      p.block.header.miner == desk.miner && p.block.header.timestamp == timestamp
  {
    Node.PreparedHeader(net, parent, s, Template(desk, parent, s, timestamp, a));
    hide Node.PrepareBlock, BodyOf, Node.Roots, Node.ApplyTransactions, Node.ApplyProofs;
  }

  /** The rules of the chain, applied to a template. */
  lemma RulesPrepare(net: Node.Network, parent: Block, s: Snapshot, desk: Desk, timestamp: int, a: Assembled)
    ensures Node.LedgerRules(net).prepare(parent, s, Template(desk, parent, s, timestamp, a))
         == Node.PrepareBlock(net, parent, s, Template(desk, parent, s, timestamp, a))
    ensures Template(desk, parent, s, timestamp, a)
         == Blocks.MinedTemplate(parent, timestamp, desk.miner, BodyOf(desk, s.tasks, a))
  {
    hide Node.PrepareBlock, BodyOf;
  }

  /** What is gone from a pool is exactly what was pending past a cutoff. */
  lemma GoneExactly(pending: seq<Entry>, carried: seq<Entry>, left: seq<Entry>, gone: seq<Entry>,
                    cutoffs: map<string, nat>)
    requires multiset(carried) + multiset(left) + multiset(gone) == multiset(pending)
    requires forall x :: x in gone ==> PastCutoff(cutoffs, x.tx)
    requires forall x :: x in carried || x in left ==> !PastCutoff(cutoffs, x.tx)
    ensures forall x :: x in gone <==> x in pending && PastCutoff(cutoffs, x.tx)
  {
    hide PastCutoff;
    forall x
      ensures x in gone <==> x in pending && PastCutoff(cutoffs, x.tx)
    {
      assert x in pending <==> x in multiset(pending);
      assert x in multiset(pending) <==> x in multiset(carried) || x in multiset(left) || x in multiset(gone);
    }
  }

  lemma {:induction false} CutWithin(p: seq<Entry>, cutoffs: map<string, nat>)
    ensures forall x :: x in Cut(p, cutoffs, false) ==> x in p
  {
    hide PastCutoff;
    if p != [] {
      CutWithin(p[..|p| - 1], cutoffs);
      assert p == p[..|p| - 1] + [p[|p| - 1]];
    }
  }

  lemma TransfersAre(e: Engine, chain: Blocks.Blockchain, net: Node.Network, desk: Desk, frontier: seq<WorkItem>,
                     n: nat)
    requires Ready(e, chain, net, desk, frontier) && n <= |e.txPool.pending|
    ensures forall x :: x in e.txPool.pending[..n] ==> x.tx.kind != SearchTask
    ensures forall i :: 0 <= i < |frontier| ==> Listed(net.env, chain.state.tasks, frontier[i])
  {
    hide Listed, Quoted, Node.LedgerRules, Node.GenesisSound;
  }

  /**
   One tick of an engine over its chain. The chain is offered the block with the priced proofs of the
   mined pages. It takes it exactly when the ledger prepares it, and never refuses it for the amounts of
   its proofs. Then the new tip records every transfer and task in it, and each of these tasks is
   settled; otherwise the chain is unchanged. Either way every pending task and transfer is afterwards
   in that block, in its pool, or past its sender's cutoff.
   */
  method MineTick(e: Engine, chain: Blocks.Blockchain, batch: int, frontier: seq<WorkItem>, owns: WorkItem -> bool,
                  mine: Miner, concurrency: int, terminal: string -> bool, desk: Desk, timestamp: int,
                  net: Node.Network)
    returns (block: Option<Block>, ghost answer: Option<Chain.Prepared>, ghost offered: Assembled,
      ghost taken: Option<Assembled>, ghost t: TickTrace)
    requires Ready(e, chain, net, desk, frontier)
    modifies e, e.txPool, e.taskPool, chain
    ensures e.Valid() && chain.Valid()
    // the offer and the answer
    ensures offered == Offer(old(e.txPool.pending), t.routed)
    ensures IsAnswer(net, desk, old(chain.latest), old(chain.state), timestamp, offered, answer)
    ensures match answer
      case Some(p) =>
        && taken == Some(offered) && block == Some(p.block) && chain.latest == p.block && chain.state == p.state
        && p.block.header.miner == desk.miner && p.block.header.timestamp == timestamp
      case None => taken == None && block == None && chain.GetView() == old(chain.GetView())
    // where the work is
    ensures multiset(TasksIn(taken)) + multiset(e.taskPool.pending) + multiset(t.quarantined)
         == multiset(old(e.taskPool.pending))
    ensures multiset(TransfersIn(taken)) + multiset(e.txPool.pending) + multiset(t.dropped)
         == multiset(old(e.txPool.pending))
    ensures forall x :: x in t.quarantined <==> x in old(e.taskPool.pending) && PastCutoff(t.routed.cutoffs, x.tx)
    ensures forall x :: x in t.dropped <==> x in old(e.txPool.pending) && PastCutoff(t.routed.cutoffs, x.tx)
  {
    hide *;
    ReadyParts(e, chain, net, desk, frontier);
    ghost var pool, transfers, failures := e.taskPool.pending, e.txPool.pending, e.failures;
    ghost var parent, s := chain.latest, chain.state;
    ghost var batched := FirstBatch(transfers);
    TransfersAre(e, chain, net, desk, frontier, |batched|);
    var takes := Takes(net, desk, chain.latest, chain.state, timestamp);
    var assembled;
    assembled, t := MineOnce(e, batch, frontier, owns, mine, concurrency, terminal, takes);
    taken := assembled;
    offered := Offer(transfers, t.routed);
    OfferIs(transfers, t.routed);
    GoneExactly(pool, TasksIn(taken), e.taskPool.pending, t.quarantined, t.routed.cutoffs);
    GoneExactly(transfers, TransfersIn(taken), e.txPool.pending, t.dropped, t.routed.cutoffs);
    OutcomesAnswer(t.owned, mine, t.outcomes);
    FreshIsEmpty(failures);
    RoutedProofs(Fresh(failures), t.outcomes, t.owned, terminal);
    MinedWerePending(t.routed, t.owned, t.outcomes, terminal, failures, t.picks, frontier, owns, pool);
    CutWithin(batched, t.routed.cutoffs);
    TickIsGrounded(net.env, desk, s.tasks, pool, batched, t.picks, frontier, owns, t.owned, t.routed,
                   offered.transfers);
    OfferAnswered(net, desk, parent, s, timestamp, pool, offered, t.routed, t.owned, taken);
    RulesPrepare(net, parent, s, desk, timestamp, offered);
    block, answer := None, None;
    if assembled.Some? {
      var made := chain.MineBlock(desk.miner, BodyOf(desk, chain.state.tasks, assembled.value), timestamp);
      block := Some(made.value);
      TakenHeader(net, desk, parent, s, timestamp, offered);
      answer := Some(Node.PrepareBlock(net, parent, s, Template(desk, parent, s, timestamp, offered)).value);
    }
  }

  lemma FreshIsEmpty(failures: map<string, nat>)
    ensures Fresh(failures).mined == [] && Fresh(failures).proofs == []
  {
  }
}
