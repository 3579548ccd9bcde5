/** Conservation of money, non-negative balances and escrow solvency. */
module Money {
  import opened Records
  import opened Ledger
  import opened Totals
  import Addresses
  import Text

  // ---------------------------------------------------------------- what a transaction changes

  function Payee(tx: Transaction): string {
    if tx.kind == SearchTask then SEARCH_ESCROW else if IsNative(tx.to) then UNS_REGISTRY else tx.to
  }

  function Paid(tx: Transaction, net: int): int {
    if tx.kind == ContractDeploy then 0 else net
  }

  /** The balances and tasks after an accepted transaction, whatever its kind. */
  ghost predicate Moves(s: Snapshot, a: Applied, value: int, architect: string) {
    && a.fee == ArchitectFee(value)
    && a.net == value - a.fee
    && BalanceOf(s.balances, a.tx.from) >= value
    && a.state.balances == Credit(Credit(Debit(s.balances, a.tx.from, value), architect, a.fee),
                                  Payee(a.tx), Paid(a.tx, a.net))
    && (a.tx.kind != SearchTask ==> a.state.tasks == s.tasks)
    && (a.tx.kind == SearchTask ==>
          exists request :: a.state.tasks == s.tasks[a.tx.hash := PaidTask(a.tx, request, value, a.fee, a.net)])
    && a.state.index == s.index
    && a.state.mentions == s.mentions
  }

  /**
   Every accepted transaction is signed by the key of its sender and has a non-negative value: the
   entry guard alone admits a negative value in a contract call, but no contract does.
   */
  lemma TransactionMoves(env: Env, s: Snapshot, raw: Transaction, configured: string)
    requires EnvSound(env) && ApplyTransaction(env, s, raw, configured).Ok?
    ensures var a := ApplyTransaction(env, s, raw, configured).value;
      && Parsed(a.tx.value).Some?
      && Parsed(a.tx.value).value >= 0
      && Moves(s, a, Parsed(a.tx.value).value, NormalizedArchitect(configured))
      && a.tx.from == AddressOfKey(env, a.tx.publicKey)
      && |a.tx.publicKey| == 32 && |a.tx.signature| == 64 && env.verify(a.tx)
      && a.tx == NormalizeTransaction(env, raw)
  {
    hide Text.Trim, NormalizedArchitect, AddressOfKey, ValidateAddress, NormalizeTransaction,
      Credit, Debit, BalanceOf, ArchitectFee, ExecuteTransfer, ExecuteSearchTask, ExecuteDeploy;
    var a := ApplyTransaction(env, s, raw, configured).value;
    var value := Parsed(a.tx.value).value;
    var architect := NormalizedArchitect(configured);
    var charged := Charged(s, a.tx, value, a.fee, architect);
    if a.tx.kind == Transfer {
      TransferMoves(env, charged, a.tx, value, a.net, architect);
    } else if a.tx.kind == SearchTask {
      SearchTaskMoves(env, charged, a.tx, value, a.fee, a.net);
    } else {
      DeployMoves(env, charged, a.tx);
      NoCredit(charged.balances, Payee(a.tx));
    }
  }

  lemma DeployMoves(env: Env, s: Snapshot, tx: Transaction)
    requires ExecuteDeploy(env, s, tx).Ok?
    ensures var r := ExecuteDeploy(env, s, tx).value;
      r.balances == s.balances && r.tasks == s.tasks && r.index == s.index && r.mentions == s.mentions
  {
  }

  lemma TransferMoves(env: Env, s: Snapshot, tx: Transaction, value: int, net: int, architect: string)
    requires EnvSound(env) && tx.kind == Transfer && net == value - ArchitectFee(value)
    requires ExecuteTransfer(env, s, tx, value, net, architect).Ok?
    requires value > 0 || AllowsZero(s, tx)
    ensures value >= 0
    ensures var r := ExecuteTransfer(env, s, tx, value, net, architect).value;
      && r.balances == Credit(s.balances, Payee(tx), net)
      && r.tasks == s.tasks && r.index == s.index && r.mentions == s.mentions
  {
    hide Text.Trim, ValidateAddress, RegisterName, ExecuteUserContract, Credit;
    if IsNative(tx.to) {
      RegisterMoves(env, s, tx, value, net);
    } else if tx.to in s.contracts {
      NoteMoves(env, s, s.contracts[tx.to], tx, value);
      assert net == 0 && Credit(s.balances, Payee(tx), 0) == s.balances by {
        NoCredit(s.balances, Payee(tx));
      }
    }
  }

  lemma NoCredit(balances: map<string, int>, address: string)
    ensures Credit(balances, address, 0) == balances
  {
  }

  /** A registration is paid in full: its price is positive. */
  lemma RegisterMoves(env: Env, s: Snapshot, tx: Transaction, value: int, net: int)
    requires RegisterName(env, s, tx, value, net).Ok?
    ensures value >= UNS_BASE_PRICE
    ensures var r := RegisterName(env, s, tx, value, net).value;
      && r.balances == Credit(s.balances, UNS_REGISTRY, net)
      && r.tasks == s.tasks && r.index == s.index && r.mentions == s.mentions
      && env.parseRegister(tx.data).Some?
      && var name := Text.Trim(env.parseRegister(tx.data).value);
      && name != "" && name !in s.names && value == RegistrationPrice(env, s, name)
      && r.names == s.names[name := NameRecord(name, tx.from, tx.timestamp, tx.hash)]
  {
    hide Text.Trim, Credit, RegistrationPrice;
    PriceIsPositive(env, s, Text.Trim(env.parseRegister(tx.data).value));
  }

  lemma PriceIsPositive(env: Env, s: Snapshot, name: string)
    ensures RegistrationPrice(env, s, name) >= UNS_BASE_PRICE
  {
    hide NormalizedTerm;
  }

  /** A note call takes no value. */
  lemma NoteMoves(env: Env, s: Snapshot, contract: Contract, tx: Transaction, value: int)
    requires ExecuteUserContract(env, s, contract, tx, value).Ok?
    ensures value == 0
    ensures var r := ExecuteUserContract(env, s, contract, tx, value).value;
      r.balances == s.balances && r.tasks == s.tasks && r.index == s.index && r.mentions == s.mentions
  {
  }

  lemma SearchTaskMoves(env: Env, s: Snapshot, tx: Transaction, value: int, fee: int, net: int)
    requires ExecuteSearchTask(env, s, tx, value, fee, net).Ok?
    ensures var r := ExecuteSearchTask(env, s, tx, value, fee, net).value;
      && r.balances == Credit(s.balances, SEARCH_ESCROW, net) && r.index == s.index && r.mentions == s.mentions
      && exists request :: r.tasks == s.tasks[tx.hash := PaidTask(tx, request, value, fee, net)]
  {
    hide Text.Trim;
    var request := env.parseTask(tx.data).value;
    assert ExecuteSearchTask(env, s, tx, value, fee, net).value.tasks
        == s.tasks[tx.hash := PaidTask(tx, request, value, fee, net)];
  }

  // ---------------------------------------------------------------- supply

  function Units(x: int): int {
    x
  }

  ghost function Supply(s: Snapshot): int {
    Total(s.balances, Units)
  }

  lemma CreditTotal(balances: map<string, int>, address: string, amount: int)
    ensures Total(Credit(balances, address, amount), Units) == Total(balances, Units) + amount
  {
    if amount != 0 {
      TotalPut(balances, Units, address, BalanceOf(balances, address) + amount);
    }
  }

  lemma DebitTotal(balances: map<string, int>, address: string, amount: int)
    ensures Total(Debit(balances, address, amount), Units) == Total(balances, Units) - amount
  {
    TotalPut(balances, Units, address, BalanceOf(balances, address) - amount);
  }

  /** Supply is unchanged by every transaction but a deployment, which destroys exactly the net value. */
  lemma TransactionSupply(env: Env, s: Snapshot, raw: Transaction, configured: string)
    requires EnvSound(env) && ApplyTransaction(env, s, raw, configured).Ok?
    ensures var a := ApplyTransaction(env, s, raw, configured).value;
      Supply(a.state) == Supply(s) - if a.tx.kind == ContractDeploy then a.net else 0
  {
    hide ApplyTransaction, EnvSound, AddressOfKey, NormalizeTransaction;
    TransactionMoves(env, s, raw, configured);
    var a := ApplyTransaction(env, s, raw, configured).value;
    var value, architect := Parsed(a.tx.value).value, NormalizedArchitect(configured);
    var debited := Debit(s.balances, a.tx.from, value);
    DebitTotal(s.balances, a.tx.from, value);
    CreditTotal(debited, architect, a.fee);
    CreditTotal(Credit(debited, architect, a.fee), Payee(a.tx), Paid(a.tx, a.net));
  }

  // ---------------------------------------------------------------- the invariant

  /** What an unsettled task still has to be paid. */
  function OpenReward(t: Task): int {
    if t.completed then 0 else t.reward
  }

  ghost predicate NonNegative(balances: map<string, int>) {
    forall a :: a in balances ==> balances[a] >= 0
  }

  ghost predicate TasksKeyed(tasks: map<string, Task>) {
    forall id :: id in tasks ==> tasks[id].id == id && tasks[id].reward >= 0
  }

  /** No balance is negative, and the escrow holds at least the rewards of all unsettled tasks. */
  ghost predicate MoneyInv(s: Snapshot) {
    && NonNegative(s.balances)
    && TasksKeyed(s.tasks)
    && BalanceOf(s.balances, SEARCH_ESCROW) >= Total(s.tasks, OpenReward)
  }

  /** No key's printed address is the escrow name. */
  lemma SignerIsNotEscrow(env: Env, publicKey: seq<Byte>)
    requires EnvSound(env)
    ensures AddressOfKey(env, publicKey) != SEARCH_ESCROW
  {
    hide Addresses.Print;
    var a := Addresses.Address(Addresses.CURRENT_VERSION, env.hash160(publicKey));
    assert SEARCH_ESCROW[3] == '_';
    Addresses.PrintedIsNotAName(env.digest, a, SEARCH_ESCROW);
  }

  lemma FeeBounds(value: int)
    ensures value >= 0 ==> 0 <= ArchitectFee(value) <= value
  {
  }

  lemma CreditKeeps(balances: map<string, int>, address: string, amount: int)
    requires NonNegative(balances) && amount >= 0
    ensures NonNegative(Credit(balances, address, amount))
    ensures forall a ::
      BalanceOf(Credit(balances, address, amount), a) == BalanceOf(balances, a) + if a == address then amount else 0
  {
  }

  lemma DebitKeeps(balances: map<string, int>, address: string, amount: int)
    requires NonNegative(balances) && BalanceOf(balances, address) >= amount
    ensures NonNegative(Debit(balances, address, amount))
    ensures forall a ::
      BalanceOf(Debit(balances, address, amount), a) == BalanceOf(balances, a) - if a == address then amount else 0
  {
  }

  /** The escrow is never debited by a transaction, and a search task adds its whole reward to it. */
  lemma MovesEscrow(s: Snapshot, a: Applied, value: int, architect: string)
    requires Moves(s, a, value, architect) && value >= 0 && NonNegative(s.balances) && a.tx.from != SEARCH_ESCROW
    ensures NonNegative(a.state.balances)
    ensures BalanceOf(a.state.balances, SEARCH_ESCROW)
         >= BalanceOf(s.balances, SEARCH_ESCROW) + if a.tx.kind == SearchTask then a.net else 0
  {
    FeeBounds(value);
    hide ArchitectFee, Debit, Credit, BalanceOf, NonNegative;
    var debited := Debit(s.balances, a.tx.from, value);
    var charged := Credit(debited, architect, a.fee);
    DebitKeeps(s.balances, a.tx.from, value);
    CreditKeeps(debited, architect, a.fee);
    CreditKeeps(charged, Payee(a.tx), Paid(a.tx, a.net));
  }

  lemma TransactionKeepsMoney(env: Env, s: Snapshot, raw: Transaction, configured: string)
    requires EnvSound(env) && MoneyInv(s) && ApplyTransaction(env, s, raw, configured).Ok?
    ensures MoneyInv(ApplyTransaction(env, s, raw, configured).value.state)
  {
    hide ApplyTransaction, AddressOfKey, NormalizeTransaction, NormalizedArchitect, ArchitectFee, Credit, Debit,
      NonNegative;
    TransactionMoves(env, s, raw, configured);
    var a := ApplyTransaction(env, s, raw, configured).value;
    var value, architect := Parsed(a.tx.value).value, NormalizedArchitect(configured);
    SignerIsNotEscrow(env, a.tx.publicKey);
    MovesEscrow(s, a, value, architect);
    FeeBounds(value);
    if a.tx.kind == SearchTask {
      var request :| a.state.tasks == s.tasks[a.tx.hash := PaidTask(a.tx, request, value, a.fee, a.net)];
      TotalPut(s.tasks, OpenReward, a.tx.hash, PaidTask(a.tx, request, value, a.fee, a.net));
    }
  }

  // ---------------------------------------------------------------- proofs

  /** In every state that keeps the invariant, an unsettled task's reward is covered. */
  lemma EscrowCovers(s: Snapshot, id: string)
    requires MoneyInv(s) && id in s.tasks && !s.tasks[id].completed
    ensures BalanceOf(s.balances, SEARCH_ESCROW) >= s.tasks[id].reward
  {
    TotalAtLeast(s.tasks, OpenReward, id);
  }

  /** A proof never fails for lack of escrow. */
  lemma ProofNeverLacksEscrow(env: Env, s: Snapshot, raw: CrawlProof, blockHash: string)
    requires MoneyInv(s)
    ensures ApplyCrawlProof(env, s, raw, blockHash) != Err(InsufficientBalance)
  {
    hide IndexPage, SpawnTargets, AddSpawned, Settled, IndexRecord, MoneyInv, ProofDigest, NormalizePage, Text.Trim;
    match NormalizeProof(env, raw) {
      case Err(_) =>
      case Ok(p) =>
        if p.taskId in s.tasks && !s.tasks[p.taskId].completed {
          EscrowCovers(s, p.taskId);
        }
    }
  }

  /** Follow-on tasks pay nothing, so writing them never raises what is owed. */
  lemma {:induction false} SpawnedOwesNothing(env: Env, tasks: map<string, Task>, parent: Task, proof: CrawlProof,
                                              targets: seq<string>)
    requires TasksKeyed(tasks)
    ensures var r := AddSpawned(env, tasks, parent, proof, targets);
      TasksKeyed(r) && Total(r, OpenReward) <= Total(tasks, OpenReward)
    decreases |targets|
  {
    hide Text.Trim;
    if targets != [] {
      var t := SpawnedTask(env, parent, proof, targets[0]);
      TotalPut(tasks, OpenReward, t.id, t);
      SpawnedOwesNothing(env, tasks[t.id := t], parent, proof, targets[1..]);
    }
  }

  /** What an accepted proof did, in terms of the task it settled. */
  ghost predicate Pays(env: Env, s: Snapshot, a: AppliedProof, blockHash: string) {
    var p := a.proof;
    && p.taskId in s.tasks
    && var task := s.tasks[p.taskId];
    && !task.completed
    && BalanceOf(s.balances, SEARCH_ESCROW) >= task.reward
    && a.state.balances == Credit(Debit(s.balances, SEARCH_ESCROW, task.reward), p.miner, task.reward)
    && var indexed := IndexPage(s, p.url, IndexRecord(env, p, blockHash));
    && a.state.index == indexed.index
    && a.state.mentions == indexed.mentions
    && var settled := s.tasks[task.id := Settled(task, p)];
    && a.spawned == SpawnTargets(env, indexed.(balances := a.state.balances, tasks := settled), Settled(task, p), p)
    && a.state.tasks == AddSpawned(env, settled, Settled(task, p), p, a.spawned)
  }

  lemma ProofPays(env: Env, s: Snapshot, raw: CrawlProof, blockHash: string)
    requires ApplyCrawlProof(env, s, raw, blockHash).Ok?
    ensures Pays(env, s, ApplyCrawlProof(env, s, raw, blockHash).value, blockHash)
  {
    hide SpawnTargets, AddSpawned, IndexRecord, NormalizeProof, AddMentions, SubtractMentions, Credit, Debit;
  }

  lemma ProofSupply(env: Env, s: Snapshot, raw: CrawlProof, blockHash: string)
    requires ApplyCrawlProof(env, s, raw, blockHash).Ok?
    ensures Supply(ApplyCrawlProof(env, s, raw, blockHash).value.state) == Supply(s)
  {
    hide ApplyCrawlProof, SpawnTargets, AddSpawned, IndexRecord, IndexPage, Credit, Debit;
    ProofPays(env, s, raw, blockHash);
    var a := ApplyCrawlProof(env, s, raw, blockHash).value;
    var reward := s.tasks[a.proof.taskId].reward;
    DebitTotal(s.balances, SEARCH_ESCROW, reward);
    CreditTotal(Debit(s.balances, SEARCH_ESCROW, reward), a.proof.miner, reward);
  }

  lemma ProofKeepsMoney(env: Env, s: Snapshot, raw: CrawlProof, blockHash: string)
    requires MoneyInv(s) && ApplyCrawlProof(env, s, raw, blockHash).Ok?
    ensures MoneyInv(ApplyCrawlProof(env, s, raw, blockHash).value.state)
  {
    hide ApplyCrawlProof, SpawnTargets, AddSpawned, IndexRecord, IndexPage, Credit, Debit, BalanceOf, NonNegative;
    ProofPays(env, s, raw, blockHash);
    var a := ApplyCrawlProof(env, s, raw, blockHash).value;
    var task := s.tasks[a.proof.taskId];
    var done := Settled(task, a.proof);
    var settled := s.tasks[task.id := done];
    TotalPut(s.tasks, OpenReward, task.id, done);
    SpawnedOwesNothing(env, settled, done, a.proof, a.spawned);
    DebitKeeps(s.balances, SEARCH_ESCROW, task.reward);
    CreditKeeps(Debit(s.balances, SEARCH_ESCROW, task.reward), a.proof.miner, task.reward);
  }
}
