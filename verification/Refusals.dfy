/** Which errors the ledger's transitions return. */
module Refusals {
  import opened Records
  import opened Ledger
  import Addresses
  import Text

  /** The errors for a proof that claims other amounts than its task. */
  predicate IsAmountError(e: Error) {
    e == InvalidTransactionFee || e == NilAmount
  }

  /** Not the error for a wrong nonce, for a block that the chain does not hold, or for a proof's amounts. */
  predicate Ordinary(e: Error) {
    e != InvalidNonce && e != BlockNotFound && !IsAmountError(e)
  }

  /** One transaction: the nonce is checked against the sender's, then counted up. */
  lemma OneNonce(env: Env, s: Snapshot, raw: Transaction, configured: string)
    requires EnvSound(env)
    ensures var r, tx := ApplyTransaction(env, s, raw, configured), NormalizeTransaction(env, raw);
      && (r.Ok? ==> tx.nonce == Counted(s.nonces, tx.from) && r.value.state.nonces == s.nonces[tx.from := tx.nonce + 1])
      && (r == Err(InvalidNonce) ==> tx.nonce != Counted(s.nonces, tx.from))
      && r != Err(BlockNotFound)
      && (r.Err? ==> !IsAmountError(r.error))
  {
    hide NormalizeTransaction, NormalizedArchitect, Credit, Debit, BalanceOf, ArchitectFee, Parsed, AllowsZero,
      ExecuteTransfer, ExecuteSearchTask, ExecuteDeploy, ValidateSignature;
    var tx, architect := NormalizeTransaction(env, raw), NormalizedArchitect(configured);
    SignatureErrors(env, tx);
    if Parsed(tx.value).Some? {
      var value := Parsed(tx.value).value;
      var fee := ArchitectFee(value);
      ExecutionKeepsNonces(env, Charged(s, tx, value, fee, architect), tx, value, fee, value - fee, architect);
    }
  }

  lemma SignatureErrors(env: Env, tx: Transaction)
    requires EnvSound(env)
    ensures ValidateSignature(env, tx).Some? ==> Ordinary(ValidateSignature(env, tx).value)
  {
    hide AddressOfKey, NormalizedArchitect, Text.Trim;
    AddressErrors(env, tx.from, GENESIS_ARCHITECT);
    hide ValidateAddress;
  }

  lemma AddressErrors(env: Env, address: string, architect: string)
    requires EnvSound(env)
    ensures ValidateAddress(env, address, architect).Some? ==> Ordinary(ValidateAddress(env, address, architect).value)
  {
    hide Text.Trim, Addresses.Checksum, NormalizedArchitect;
  }

  lemma ExecutionKeepsNonces(env: Env, s: Snapshot, tx: Transaction, value: int, fee: int, net: int, architect: string)
    requires EnvSound(env)
    ensures KeepsNonces(s, ExecuteTransfer(env, s, tx, value, net, architect))
    ensures KeepsNonces(s, ExecuteSearchTask(env, s, tx, value, fee, net))
    ensures KeepsNonces(s, ExecuteDeploy(env, s, tx))
  {
    TransferKeepsNonces(env, s, tx, value, net, architect);
    TaskKeepsNonces(env, s, tx, value, fee, net);
    DeployKeepsNonces(env, s, tx);
    hide *;
  }

  lemma TaskKeepsNonces(env: Env, s: Snapshot, tx: Transaction, value: int, fee: int, net: int)
    ensures KeepsNonces(s, ExecuteSearchTask(env, s, tx, value, fee, net))
  {
    hide Text.Trim, Credit;
  }

  lemma DeployKeepsNonces(env: Env, s: Snapshot, tx: Transaction)
    ensures KeepsNonces(s, ExecuteDeploy(env, s, tx))
  {
  }

  ghost predicate KeepsNonces(s: Snapshot, r: Result<Snapshot>) {
    match r
    case Err(e) => Ordinary(e)
    case Ok(t) => t.nonces == s.nonces
  }

  lemma TransferKeepsNonces(env: Env, s: Snapshot, tx: Transaction, value: int, net: int, architect: string)
    requires EnvSound(env)
    ensures KeepsNonces(s, ExecuteTransfer(env, s, tx, value, net, architect))
  {
    hide Text.Trim, Credit, RegisterName, ExecuteUserContract, ValidateAddress;
    AddressErrors(env, tx.to, architect);
    RegisterKeepsNonces(env, s, tx, value, net);
    if tx.to in s.contracts {
      NoteKeepsNonces(env, s, s.contracts[tx.to], tx, value);
    }
  }

  lemma RegisterKeepsNonces(env: Env, s: Snapshot, tx: Transaction, value: int, net: int)
    ensures KeepsNonces(s, RegisterName(env, s, tx, value, net))
  {
    hide Text.Trim, Credit, RegistrationPrice;
  }

  lemma NoteKeepsNonces(env: Env, s: Snapshot, contract: Contract, tx: Transaction, value: int)
    ensures KeepsNonces(s, ExecuteUserContract(env, s, contract, tx, value))
  {
  }

  /** A proof is never refused with the error for a missing block. */
  lemma ProofErrors(env: Env, s: Snapshot, raw: CrawlProof, blockHash: string)
    ensures ApplyCrawlProof(env, s, raw, blockHash) != Err(BlockNotFound)
  {
    NormalErrors(env, raw);
    hide NormalizeProof, IndexPage, IndexRecord, SpawnTargets, AddSpawned, Credit, Debit, BalanceOf;
  }

  lemma NormalErrors(env: Env, raw: CrawlProof)
    ensures NormalizeProof(env, raw) != Err(BlockNotFound)
  {
    hide Text.Trim, NormalizePage;
  }
}
