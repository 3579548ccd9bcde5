/** Whole runs of the ledger: any sequence of transactions and proofs, accepted or refused. */
module Runs {
  import opened Records
  import opened Ledger
  import opened Totals
  import opened Money
  import opened Mentions
  import opened Frontier

  datatype Op = SubmitTx(tx: Transaction) | SubmitProof(proof: CrawlProof, blockHash: string)

  /** A ledger together with what its run so far has done. */
  datatype Tally = Tally(state: Snapshot, paidTasks: nat, spawnedTasks: nat, destroyed: int)

  /** A refused operation changes nothing. */
  function Step(env: Env, architect: string, t: Tally, op: Op): Tally
    requires EnvSound(env)
  {
    match op
    case SubmitTx(tx) =>
      (match ApplyTransaction(env, t.state, tx, architect)
       case Err(_) => t
       case Ok(a) =>
         t.(state := a.state,
            paidTasks := t.paidTasks + (if a.tx.kind == SearchTask then 1 else 0),
            destroyed := t.destroyed + (if a.tx.kind == ContractDeploy then a.net else 0)))
    case SubmitProof(proof, blockHash) =>
      (match ApplyCrawlProof(env, t.state, proof, blockHash)
       case Err(_) => t
       case Ok(a) => t.(state := a.state, spawnedTasks := t.spawnedTasks + |a.spawned|))
  }

  function RunFrom(env: Env, architect: string, t: Tally, ops: seq<Op>): Tally
    requires EnvSound(env)
    decreases |ops|
  {
    if ops == [] then t
    else Step(env, architect, RunFrom(env, architect, t, ops[..|ops| - 1]), ops[|ops| - 1])
  }

  function Run(env: Env, architect: string, s: Snapshot, ops: seq<Op>): Tally
    requires EnvSound(env)
  {
    RunFrom(env, architect, Tally(s, 0, 0, 0), ops)
  }

  /** An initial ledger: no negative balance, nothing owed, nothing indexed. */
  ghost predicate Initial(s: Snapshot) {
    NonNegative(s.balances) && s.tasks == map[] && s.index == map[] && s.mentions == map[]
  }

  /** The tally adds up, for a run that began at `s`. */
  ghost predicate TallyInv(s: Snapshot, t: Tally) {
    && MoneyInv(t.state)
    && MentionInv(t.state)
    && FrontierInv(t.state.tasks)
    && Supply(t.state) + t.destroyed == Supply(s)
    && t.spawnedTasks + Total(t.state.tasks, Potential) <= 20 * t.paidTasks + Total(s.tasks, Potential)
  }

  lemma InitialTally(s: Snapshot)
    requires Initial(s)
    ensures TallyInv(s, Tally(s, 0, 0, 0)) && Total(s.tasks, Potential) == 0
  {
    assert ActiveAutonomous(s.tasks) == {};
  }

  lemma StepKeepsTally(env: Env, architect: string, s: Snapshot, t: Tally, op: Op)
    requires EnvSound(env) && TallyInv(s, t)
    ensures TallyInv(s, Step(env, architect, t, op))
  {
    hide ApplyTransaction, ApplyCrawlProof, MoneyInv, MentionInv, FrontierInv, Supply;
    match op {
      case SubmitTx(tx) =>
        if ApplyTransaction(env, t.state, tx, architect).Ok? {
          TransactionKeepsMoney(env, t.state, tx, architect);
          TransactionKeepsMentions(env, t.state, tx, architect);
          TransactionKeepsFrontier(env, t.state, tx, architect);
          TransactionSupply(env, t.state, tx, architect);
          TransactionPotential(env, t.state, tx, architect);
        }
      case SubmitProof(proof, blockHash) =>
        if ApplyCrawlProof(env, t.state, proof, blockHash).Ok? {
          ProofKeepsMoney(env, t.state, proof, blockHash);
          ProofKeepsMentions(env, t.state, proof, blockHash);
          ProofKeepsFrontier(env, t.state, proof, blockHash);
          ProofSupply(env, t.state, proof, blockHash);
          ProofSpendsPotential(env, t.state, proof, blockHash);
        }
    }
  }

  lemma {:induction false} RunKeepsTally(env: Env, architect: string, s: Snapshot, t: Tally, ops: seq<Op>)
    requires EnvSound(env) && TallyInv(s, t)
    ensures TallyInv(s, RunFrom(env, architect, t, ops))
    decreases |ops|
  {
    hide Step, TallyInv;
    if ops != [] {
      RunKeepsTally(env, architect, s, t, ops[..|ops| - 1]);
      StepKeepsTally(env, architect, s, RunFrom(env, architect, t, ops[..|ops| - 1]), ops[|ops| - 1]);
    }
  }

  lemma {:induction false} RunAppend(env: Env, architect: string, t: Tally, first: seq<Op>, later: seq<Op>)
    requires EnvSound(env)
    ensures RunFrom(env, architect, t, first + later)
         == RunFrom(env, architect, RunFrom(env, architect, t, first), later)
    decreases |later|
  {
    hide Step;
    if later == [] {
      assert first + later == first;
    } else {
      assert (first + later)[..|first + later| - 1] == first + later[..|later| - 1];
      RunAppend(env, architect, t, first, later[..|later| - 1]);
    }
  }

  lemma PotentialNonNegative(tasks: map<string, Task>)
    ensures Total(tasks, Potential) >= 0
  {
    TotalNonNegative(tasks, Potential);
  }

  /**
   After every run from an initial ledger: no balance is negative; the escrow covers every
   unsettled reward; supply has fallen by exactly the net value of the deployments; spawned
   tasks number at most 20 for each paid search task; at most 1024 are active at once, none
   deeper than 2, all for different pages; and every name price counts the true mentions.
   */
  lemma RunTheorem(env: Env, architect: string, s: Snapshot, ops: seq<Op>, name: string)
    requires EnvSound(env) && Initial(s)
    ensures var t := Run(env, architect, s, ops);
      && NonNegative(t.state.balances)
      && BalanceOf(t.state.balances, SEARCH_ESCROW) >= Total(t.state.tasks, OpenReward)
      && Supply(t.state) == Supply(s) - t.destroyed
      && t.spawnedTasks <= 20 * t.paidTasks
      && |ActiveAutonomous(t.state.tasks)| <= 1024
      && (forall id :: id in t.state.tasks ==> t.state.tasks[id].depth <= 2)
      && DistinctUrls(t.state.tasks)
      && RegistrationPrice(env, t.state, name)
         == 100000 + 10000 * TrueMentions(t.state.index, NormalizedTerm(env, name))
  {
    InitialTally(s);
    RunKeepsTally(env, architect, s, Tally(s, 0, 0, 0), ops);
    var t := Run(env, architect, s, ops);
    hide RunFrom, MentionInv, RegistrationPrice, ActiveAutonomous, DistinctUrls, Supply, NonNegative;
    PotentialNonNegative(t.state.tasks);
    PriceFollowsTrueMentions(env, t.state, name);
  }
}
