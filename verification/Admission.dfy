/** Which transactions the ledger accepts, and all that an accepted one changes. */
module Admission {
  import opened Records
  import opened Ledger
  import opened Money
  import opened Normal
  import Addresses
  import Refusals
  import Text

  // ---------------------------------------------------------------- normal forms

  /** A transaction with its two addresses trimmed and its hash computed over the rest. */
  ghost predicate IsNormalForm(env: Env, raw: Transaction, tx: Transaction) {
    && tx == raw.(from := Text.Trim(raw.from), to := Text.Trim(raw.to), hash := tx.hash)
    && tx.hash == env.txHash(tx.(hash := ""))
  }

  lemma NormalFormExactly(env: Env, raw: Transaction, tx: Transaction)
    ensures IsNormalForm(env, raw, tx) <==> tx == NormalizeTransaction(env, raw)
  {
    hide Text.Trim;
    var trimmed := raw.(from := Text.Trim(raw.from), to := Text.Trim(raw.to), hash := "");
    if tx == raw.(from := Text.Trim(raw.from), to := Text.Trim(raw.to), hash := tx.hash) {
      assert tx.(hash := "") == trimmed;
    }
  }

  /** The configured architect, or the placeholder account when there is none. */
  function ArchitectOf(configured: string): string {
    if Text.Trim(configured) == "" then "UFI_GENESIS_ARCHITECT_REPLACE_ME" else Text.Trim(configured)
  }

  lemma ArchitectIs(configured: string)
    ensures NormalizedArchitect(configured) == ArchitectOf(configured)
  {
    hide Text.Trim;
  }

  // ---------------------------------------------------------------- who signs

  /** Signed by the key whose address, of version 1, is the sender. */
  ghost predicate Signed(env: Env, tx: Transaction)
    requires EnvSound(env)
  {
    && |tx.publicKey| == 32 && |tx.signature| == 64
    && env.verify(tx)
    && tx.from == Addresses.Print(env.digest, Addresses.Address(1, env.hash160(tx.publicKey)))
  }

  /** The printed address of a key passes the address check. */
  lemma KeyAddressIsValid(env: Env, publicKey: seq<Byte>, architect: string)
    requires EnvSound(env)
    ensures ValidateAddress(env, AddressOfKey(env, publicKey), architect) == None
  {
    var a := Addresses.Address(1, env.hash160(publicKey));
    Addresses.PrintedCharacters(env.digest, a);
    Addresses.ParsePrinted(env.digest, a);
    hide Addresses.Print, Addresses.ParseAddress, Text.Trim, NormalizedArchitect;
  }

  lemma SignedExactly(env: Env, tx: Transaction)
    requires EnvSound(env)
    ensures ValidateSignature(env, tx) == None <==> tx.kind != UnknownKind && Signed(env, tx)
  {
    KeyAddressIsValid(env, tx.publicKey, GENESIS_ARCHITECT);
    hide ValidateAddress, Addresses.Print, EnvSound;
  }

  /** Without a valid signature nothing is accepted, whatever else holds. */
  lemma UnsignedIsRefused(env: Env, s: Snapshot, raw: Transaction, configured: string)
    requires EnvSound(env)
    requires !Signed(env, NormalizeTransaction(env, raw)) || NormalizeTransaction(env, raw).kind == UnknownKind
    ensures ApplyTransaction(env, s, raw, configured).Err?
  {
    SignedExactly(env, NormalizeTransaction(env, raw));
    hide EnvSound, NormalizeTransaction, ValidateSignature, Signed, NormalizedArchitect, ExecuteTransfer,
      ExecuteSearchTask, ExecuteDeploy, Charged, ArchitectFee, AllowsZero;
  }

  // ---------------------------------------------------------------- what a transaction must satisfy

  /** A named account, or the text of an address. */
  ghost predicate NamesAnAccount(env: Env, to: string, architect: string)
    requires EnvSound(env)
  {
    || to in {architect, "UFI_GENESIS_ARCHITECT_REPLACE_ME", "UFI_SEARCH_ESCROW", "0x102"}
    || Addresses.ParseAddress(env.digest, to).Ok?
  }

  lemma AccountExactly(env: Env, to: string, configured: string)
    requires EnvSound(env) && Text.Trim(to) == to
    ensures ValidateAddress(env, to, NormalizedArchitect(configured)) == None
       <==> NamesAnAccount(env, to, NormalizedArchitect(configured))
  {
    ArchitectSettles(configured);
    Addresses.ParseOfEmpty(env.digest);
    hide Addresses.ParseTrimmed, Text.Trim, NormalizedArchitect;
  }

  lemma ArchitectSettles(configured: string)
    ensures var architect := NormalizedArchitect(configured);
      architect != "" && NormalizedArchitect(architect) == architect
  {
    TrimAgain(configured);
    assert Text.Trim(GENESIS_ARCHITECT) == GENESIS_ARCHITECT by {
      Text.TrimIsIdentity(GENESIS_ARCHITECT);
    }
    hide Text.Trim;
  }

  /** 100000, and 10000 for each counted mention of the first token of the name. */
  function PriceOf(env: Env, mentions: map<string, nat>, name: string): int {
    var tokens := env.tokens(name);
    var term := if tokens == [] then "" else tokens[0];
    100000 + 10000 * (if term in mentions then mentions[term] else 0)
  }

  /** A registration of a free name at its price. */
  ghost predicate Registers(env: Env, s: Snapshot, tx: Transaction, value: int, name: string) {
    && env.parseRegister(tx.data).Some? && name == Text.Trim(env.parseRegister(tx.data).value)
    && name != "" && name !in s.names && value == PriceOf(env, s.mentions, name)
  }

  /** The transfer goes to an account, to the name registry, or to a note contract without value. */
  ghost predicate CanTransfer(env: Env, s: Snapshot, tx: Transaction, value: int, architect: string)
    requires EnvSound(env)
  {
    if tx.to == "0x101" then false
    else if tx.to == "0x102" then exists name :: Registers(env, s, tx, value, name)
    else if tx.to in s.contracts then
      s.contracts[tx.to].runtime == NoteV1 && value == 0 && env.parseNote(tx.data).Some?
    else NamesAnAccount(env, tx.to, architect)
  }

  /** The request is readable and names a query, a page and a bounty. */
  ghost predicate CanRequest(env: Env, tx: Transaction) {
    && tx.data != [] && env.parseTask(tx.data).Some?
    && var request := env.parseTask(tx.data).value;
    && Text.Trim(request.query) != "" && Text.Trim(request.url) != "" && request.baseBounty != Malformed
  }

  /** The request is readable and the new contract's address is free. */
  ghost predicate CanDeploy(env: Env, s: Snapshot, tx: Transaction) {
    && tx.data != [] && env.parseDeploy(tx.data).Some? && tx.to == ""
    && var address := env.contractAddress(tx.hash);
    && address !in {"", "0x101", "0x102"} && address !in s.contracts
  }

  /**
   The value is positive. It may be zero in a deployment and in a transfer with data to a contract;
   there it may even be negative, but `CanTransfer` rules that out.
   */
  ghost predicate ValueFits(s: Snapshot, tx: Transaction, value: int) {
    match tx.kind
    case ContractDeploy => value >= 0
    case Transfer =>
      || value > 0
      || (tx.data != [] && (tx.to in {"0x101", "0x102"} || (tx.to in s.contracts && s.contracts[tx.to].address != "")))
    case _ => value > 0
  }

  /** The amount is readable, the value fits, the nonce is the next one, and the balance covers the value. */
  ghost predicate Affords(s: Snapshot, tx: Transaction) {
    && tx.value != Malformed
    && ValueFits(s, tx, tx.value.n)
    && tx.nonce == (if tx.from in s.nonces then s.nonces[tx.from] else 0)
    && (if tx.from in s.balances then s.balances[tx.from] else 0) >= tx.value.n
  }

  lemma TransferExactly(env: Env, s: Snapshot, tx: Transaction, value: int, net: int, configured: string)
    requires EnvSound(env) && Text.Trim(tx.to) == tx.to
    ensures ExecuteTransfer(env, s, tx, value, net, NormalizedArchitect(configured)).Ok?
       <==> CanTransfer(env, s, tx, value, NormalizedArchitect(configured))
  {
    AccountExactly(env, tx.to, configured);
    RegisterExactly(env, s, tx, value, net);
    hide ValidateAddress, NamesAnAccount, Text.Trim, NormalizedArchitect, RegisterName, Registers, Credit;
  }

  lemma RegisterExactly(env: Env, s: Snapshot, tx: Transaction, value: int, net: int)
    ensures RegisterName(env, s, tx, value, net).Ok? <==> exists name :: Registers(env, s, tx, value, name)
  {
    hide Text.Trim, Credit;
    if RegisterName(env, s, tx, value, net).Ok? {
      assert Registers(env, s, tx, value, Text.Trim(env.parseRegister(tx.data).value));
    }
  }

  lemma RequestExactly(env: Env, s: Snapshot, tx: Transaction, value: int, fee: int, net: int)
    ensures ExecuteSearchTask(env, s, tx, value, fee, net).Ok? <==> CanRequest(env, tx)
  {
    hide Text.Trim, Credit;
  }

  lemma DeployExactly(env: Env, s: Snapshot, tx: Transaction)
    ensures ExecuteDeploy(env, s, tx).Ok? <==> CanDeploy(env, s, tx)
  {
  }

  /** The whole condition, on the transaction in its normal form. */
  ghost predicate Admissible(env: Env, s: Snapshot, tx: Transaction, architect: string)
    requires EnvSound(env)
  {
    && Signed(env, tx)
    && Affords(s, tx)
    && match tx.kind
       case Transfer => CanTransfer(env, s, tx, tx.value.n, architect)
       case SearchTask => CanRequest(env, tx)
       case ContractDeploy => CanDeploy(env, s, tx)
       case UnknownKind => false
  }

  /** The execution by kind, after the sender is charged, succeeds. */
  ghost predicate Executes(env: Env, s: Snapshot, tx: Transaction, value: int, architect: string)
    requires EnvSound(env)
  {
    var fee := ArchitectFee(value);
    var charged := Charged(s, tx, value, fee, architect);
    match tx.kind
    case Transfer => ExecuteTransfer(env, charged, tx, value, value - fee, architect).Ok?
    case SearchTask => ExecuteSearchTask(env, charged, tx, value, fee, value - fee).Ok?
    case ContractDeploy => ExecuteDeploy(env, charged, tx).Ok?
    case UnknownKind => false
  }

  lemma ExecutesExactly(env: Env, s: Snapshot, tx: Transaction, value: int, configured: string)
    requires EnvSound(env) && Text.Trim(tx.to) == tx.to
    ensures var architect := NormalizedArchitect(configured);
      Executes(env, s, tx, value, architect) <==>
        match tx.kind
        case Transfer => CanTransfer(env, s, tx, value, architect)
        case SearchTask => CanRequest(env, tx)
        case ContractDeploy => CanDeploy(env, s, tx)
        case UnknownKind => false
  {
    var fee, architect := ArchitectFee(value), NormalizedArchitect(configured);
    var charged := Charged(s, tx, value, fee, architect);
    TransferExactly(env, charged, tx, value, value - fee, configured);
    ChargeChangesNothing(env, s, tx, value, fee, architect);
    RequestExactly(env, charged, tx, value, fee, value - fee);
    DeployExactly(env, charged, tx);
    hide EnvSound, NormalizedArchitect, ExecuteTransfer, ExecuteSearchTask, ExecuteDeploy, ArchitectFee, Charged,
      Text.Trim, CanTransfer, CanRequest, CanDeploy;
  }

  /** The checks of the program before it charges the sender. */
  predicate ChecksPass(s: Snapshot, tx: Transaction) {
    && Parsed(tx.value).Some?
    && var value := Parsed(tx.value).value;
    && !(tx.kind == ContractDeploy && value < 0)
    && !(tx.kind != ContractDeploy && value <= 0 && !AllowsZero(s, tx))
    && tx.nonce == Counted(s.nonces, tx.from)
    && BalanceOf(s.balances, tx.from) >= value
  }

  lemma ChecksExactly(s: Snapshot, tx: Transaction)
    requires tx.kind != UnknownKind
    ensures ChecksPass(s, tx) <==> Affords(s, tx)
  {
  }

  lemma AppliedExactly(env: Env, s: Snapshot, raw: Transaction, configured: string)
    requires EnvSound(env) && NormalizeTransaction(env, raw).kind != UnknownKind
    requires ValidateSignature(env, NormalizeTransaction(env, raw)).None?
    ensures ApplyTransaction(env, s, raw, configured).Ok?
       <==> ChecksPass(s, NormalizeTransaction(env, raw))
            && Executes(env, s, NormalizeTransaction(env, raw), Parsed(NormalizeTransaction(env, raw).value).value,
                        NormalizedArchitect(configured))
  {
    hide EnvSound, NormalizeTransaction, ValidateSignature, NormalizedArchitect, ExecuteTransfer, AllowsZero,
      ExecuteSearchTask, ExecuteDeploy, ArchitectFee, Charged, Parsed, BalanceOf, Counted;
  }

  lemma KindIsKnown(env: Env, tx: Transaction)
    requires EnvSound(env)
    ensures ValidateSignature(env, tx) == None ==> tx.kind != UnknownKind
  {
    hide ValidateAddress, AddressOfKey;
  }

  lemma AdmittedExactly(env: Env, s: Snapshot, raw: Transaction, configured: string)
    requires EnvSound(env)
    ensures ApplyTransaction(env, s, raw, configured).Ok?
       <==> Admissible(env, s, NormalizeTransaction(env, raw), NormalizedArchitect(configured))
  {
    var tx := NormalizeTransaction(env, raw);
    NormalTarget(env, raw);
    SignedExactly(env, tx);
    if ValidateSignature(env, tx) != None {
      UnsignedIsRefused(env, s, raw, configured);
    }
    if ValidateSignature(env, tx) == None {
      KindIsKnown(env, tx);
      AppliedExactly(env, s, raw, configured);
      ChecksExactly(s, tx);
    }
    if tx.value != Malformed {
      ExecutesExactly(env, s, tx, tx.value.n, configured);
    }
    hide EnvSound, NormalizeTransaction, ApplyTransaction, ValidateSignature, Signed, NormalizedArchitect, Executes,
      ValueFits, AllowsZero, ChecksPass, Text.Trim, CanTransfer, CanRequest, CanDeploy;
  }

  /** A transaction is accepted if and only if its normal form is admissible. */
  lemma AcceptedExactly(env: Env, s: Snapshot, raw: Transaction, configured: string, tx: Transaction)
    requires EnvSound(env) && IsNormalForm(env, raw, tx)
    ensures ApplyTransaction(env, s, raw, configured).Ok? <==> Admissible(env, s, tx, ArchitectOf(configured))
  {
    hide *;
    NormalFormExactly(env, raw, tx);
    ArchitectIs(configured);
    AdmittedExactly(env, s, raw, configured);
  }

  lemma NormalTarget(env: Env, raw: Transaction)
    ensures Text.Trim(NormalizeTransaction(env, raw).to) == NormalizeTransaction(env, raw).to
  {
    TrimAgain(raw.to);
    hide Text.Trim;
  }

  /** Charging the sender does not touch what the kinds ask for. */
  lemma ChargeChangesNothing(env: Env, s: Snapshot, tx: Transaction, value: int, fee: int, architect: string)
    requires EnvSound(env)
    ensures var charged := Charged(s, tx, value, fee, architect);
      && (CanTransfer(env, charged, tx, value, architect) <==> CanTransfer(env, s, tx, value, architect))
      && (CanDeploy(env, charged, tx) <==> CanDeploy(env, s, tx))
  {
    hide EnvSound, NamesAnAccount, Text.Trim, Credit, Debit, PriceOf;
    var charged := Charged(s, tx, value, fee, architect);
    assert forall name :: Registers(env, charged, tx, value, name) <==> Registers(env, s, tx, value, name);
  }

  // ---------------------------------------------------------------- what a transaction changes

  /** Account by account: the sender pays the value, the architect gets the fee, the payee the rest. */
  ghost predicate PaysOut(before: map<string, int>, after: map<string, int>, from: string, value: int,
                          architect: string, fee: int, payee: string, net: int)
  {
    forall a :: BalanceOf(after, a)
      == BalanceOf(before, a) - (if a == from then value else 0) + (if a == architect then fee else 0)
         + (if a == payee then net else 0)
  }

  lemma CreditMoves(balances: map<string, int>, address: string, amount: int)
    ensures forall a ::
      BalanceOf(Credit(balances, address, amount), a) == BalanceOf(balances, a) + if a == address then amount else 0
  {
  }

  lemma DebitMoves(balances: map<string, int>, address: string, amount: int)
    ensures forall a ::
      BalanceOf(Debit(balances, address, amount), a) == BalanceOf(balances, a) - if a == address then amount else 0
  {
  }

  /** The fee is 3.33 percent, rounded down. */
  lemma FeeIs(value: int)
    requires value >= 0
    ensures 10000 * ArchitectFee(value) <= 333 * value < 10000 * ArchitectFee(value) + 10000
  {
  }

  /** The task that a paid request puts on record. */
  ghost predicate IsRequested(env: Env, tx: Transaction, value: int, fee: int, t: Task) {
    && env.parseTask(tx.data).Some?
    && var r := env.parseTask(tx.data).value;
    && t == Task(id := tx.hash, txHash := tx.hash, submitter := tx.from, query := r.query, url := r.url,
                 baseBounty := r.baseBounty, gross := value, fee := fee, reward := value - fee,
                 difficulty := r.difficulty, dataVolume := r.dataVolume, createdAt := tx.timestamp,
                 autonomous := false, parentId := "", depth := 0, completed := false, completedAt := 0,
                 proofHash := "", minedBy := "")
  }

  /** Tasks, names and contracts after the execution of one kind. */
  ghost predicate Enters(env: Env, s: Snapshot, tx: Transaction, value: int, fee: int, after: Snapshot) {
    && (tx.kind != SearchTask ==> after.tasks == s.tasks)
    && (tx.kind == SearchTask ==>
          && tx.hash in after.tasks && after.tasks == s.tasks[tx.hash := after.tasks[tx.hash]]
          && IsRequested(env, tx, value, fee, after.tasks[tx.hash]))
    && (if tx.kind == Transfer && tx.to == "0x102" then
          exists name :: Registers(env, s, tx, value, name)
            && after.names == s.names[name := NameRecord(name, tx.from, tx.timestamp, tx.hash)]
        else after.names == s.names)
    && (if tx.kind == ContractDeploy then
          && env.parseDeploy(tx.data).Some?
          && var address, r := env.contractAddress(tx.hash), env.parseDeploy(tx.data).value;
          && after.contracts == s.contracts[address := Contract(address, r.name, r.runtime, tx.from, tx.hash)]
          && after.contractData == (if r.runtime == NoteV1 then s.contractData[address := ""] else s.contractData)
        else after.contracts == s.contracts)
    && (tx.kind == SearchTask ==> after.contractData == s.contractData)
    && (tx.kind == Transfer ==>
          if tx.to in s.contracts && tx.to !in {"0x101", "0x102"} then
            && env.parseNote(tx.data).Some?
            && after.contractData == s.contractData[s.contracts[tx.to].address := env.parseNote(tx.data).value]
          else after.contractData == s.contractData)
  }

  lemma TransferRecords(env: Env, s: Snapshot, tx: Transaction, value: int, fee: int, net: int, architect: string)
    requires EnvSound(env) && tx.kind == Transfer && ExecuteTransfer(env, s, tx, value, net, architect).Ok?
    ensures Enters(env, s, tx, value, fee, ExecuteTransfer(env, s, tx, value, net, architect).value)
  {
    hide EnvSound, ValidateAddress, RegisterName, Credit, Text.Trim, Registers, IsRequested;
    if tx.to == UNS_REGISTRY {
      RegisterRecords(env, s, tx, value, net);
    } else if tx.to in s.contracts {
      NoteRecords(env, s, s.contracts[tx.to], tx, value);
    }
  }

  lemma RegisterRecords(env: Env, s: Snapshot, tx: Transaction, value: int, net: int)
    requires RegisterName(env, s, tx, value, net).Ok?
    ensures var after := RegisterName(env, s, tx, value, net).value;
      && after == s.(balances := after.balances, names := after.names)
      && exists name :: Registers(env, s, tx, value, name)
           && after.names == s.names[name := NameRecord(name, tx.from, tx.timestamp, tx.hash)]
  {
    hide Text.Trim, Credit;
    assert Registers(env, s, tx, value, Text.Trim(env.parseRegister(tx.data).value));
  }

  lemma NoteRecords(env: Env, s: Snapshot, contract: Contract, tx: Transaction, value: int)
    requires ExecuteUserContract(env, s, contract, tx, value).Ok?
    ensures env.parseNote(tx.data).Some?
    ensures ExecuteUserContract(env, s, contract, tx, value).value
         == s.(contractData := s.contractData[contract.address := env.parseNote(tx.data).value])
  {
  }

  lemma RequestRecords(env: Env, s: Snapshot, tx: Transaction, value: int, fee: int)
    requires tx.kind == SearchTask && ExecuteSearchTask(env, s, tx, value, fee, value - fee).Ok?
    ensures Enters(env, s, tx, value, fee, ExecuteSearchTask(env, s, tx, value, fee, value - fee).value)
  {
    hide Text.Trim, Credit;
  }

  lemma DeployRecords(env: Env, s: Snapshot, tx: Transaction, value: int, fee: int)
    requires tx.kind == ContractDeploy && ExecuteDeploy(env, s, tx).Ok?
    ensures Enters(env, s, tx, value, fee, ExecuteDeploy(env, s, tx).value)
  {
  }

  /** Charging the sender first changes no record. */
  lemma ChargedRecords(env: Env, s: Snapshot, tx: Transaction, value: int, fee: int, architect: string,
                       after: Snapshot)
    requires Enters(env, Charged(s, tx, value, fee, architect), tx, value, fee, after)
    ensures Enters(env, s, tx, value, fee, after)
  {
    hide Credit, Debit, IsRequested, PriceOf, Text.Trim;
    var charged := Charged(s, tx, value, fee, architect);
    assert forall name :: Registers(env, charged, tx, value, name) <==> Registers(env, s, tx, value, name);
  }

  /** From the whole transition to the execution of its kind. */
  lemma AppliedRecords(env: Env, s: Snapshot, raw: Transaction, configured: string)
    requires EnvSound(env) && ApplyTransaction(env, s, raw, configured).Ok?
    ensures var a := ApplyTransaction(env, s, raw, configured).value;
      && Parsed(a.tx.value).Some? && a.fee == ArchitectFee(Parsed(a.tx.value).value)
      && Enters(env, s, a.tx, Parsed(a.tx.value).value, a.fee, a.state)
  {
    hide EnvSound, NormalizeTransaction, ValidateSignature, NormalizedArchitect, AllowsZero, ArchitectFee, Charged,
      ExecuteTransfer, ExecuteSearchTask, ExecuteDeploy, Enters, Parsed, BalanceOf, Counted;
    var a := ApplyTransaction(env, s, raw, configured).value;
    var value, architect := Parsed(a.tx.value).value, NormalizedArchitect(configured);
    var charged := Charged(s, a.tx, value, a.fee, architect);
    if a.tx.kind == Transfer {
      TransferRecords(env, charged, a.tx, value, a.fee, a.net, architect);
    } else if a.tx.kind == SearchTask {
      RequestRecords(env, charged, a.tx, value, a.fee);
    } else {
      NotUnknown(env, s, raw, configured);
      DeployRecords(env, charged, a.tx, value, a.fee);
    }
    ChargedRecords(env, s, a.tx, value, a.fee, architect, a.state);
  }

  lemma NotUnknown(env: Env, s: Snapshot, raw: Transaction, configured: string)
    requires EnvSound(env) && ApplyTransaction(env, s, raw, configured).Ok?
    ensures ApplyTransaction(env, s, raw, configured).value.tx.kind != UnknownKind
  {
    AdmittedExactly(env, s, raw, configured);
    TransactionMoves(env, s, raw, configured);
    hide ApplyTransaction, EnvSound, Signed, Affords, CanTransfer, CanRequest, CanDeploy;
  }

  /** Everything that an accepted transaction changes. */
  ghost predicate Changes(env: Env, s: Snapshot, tx: Transaction, fee: int, architect: string, after: Snapshot) {
    && tx.value != Malformed
    && var value := tx.value.n;
    && 10000 * fee <= 333 * value < 10000 * fee + 10000
    && (match tx.kind
        case SearchTask =>
          PaysOut(s.balances, after.balances, tx.from, value, architect, fee, "UFI_SEARCH_ESCROW", value - fee)
        case ContractDeploy => PaysOut(s.balances, after.balances, tx.from, value, architect, fee, tx.to, 0)
        case _ => PaysOut(s.balances, after.balances, tx.from, value, architect, fee, tx.to, value - fee))
    && after.nonces == s.nonces[tx.from := tx.nonce + 1]
    && after.index == s.index && after.mentions == s.mentions
    && Enters(env, s, tx, value, fee, after)
  }

  lemma MovesPayOut(s: Snapshot, a: Applied, value: int, architect: string)
    requires Moves(s, a, value, architect)
    ensures PaysOut(s.balances, a.state.balances, a.tx.from, value, architect, a.fee, Payee(a.tx), Paid(a.tx, a.net))
  {
    var debited := Debit(s.balances, a.tx.from, value);
    DebitMoves(s.balances, a.tx.from, value);
    CreditMoves(debited, architect, a.fee);
    CreditMoves(Credit(debited, architect, a.fee), Payee(a.tx), Paid(a.tx, a.net));
    hide Debit, Credit, BalanceOf, ArchitectFee, Payee, Paid;
  }

  lemma ChangesFrom(env: Env, s: Snapshot, a: Applied, value: int, architect: string)
    requires Parsed(a.tx.value) == Some(value) && value >= 0 && a.fee == ArchitectFee(value)
    requires Moves(s, a, value, architect) && a.state.nonces == s.nonces[a.tx.from := a.tx.nonce + 1]
    requires a.tx.kind != UnknownKind && (a.tx.kind == Transfer ==> Payee(a.tx) == a.tx.to)
    requires Enters(env, s, a.tx, value, a.fee, a.state)
    ensures Changes(env, s, a.tx, a.fee, architect, a.state)
  {
    FeeIs(value);
    MovesPayOut(s, a, value, architect);
    hide ArchitectFee, Enters, Debit, Credit, BalanceOf, PaysOut;
    if a.tx.kind == ContractDeploy {
      NothingPaid(s.balances, a.state.balances, a.tx.from, value, architect, a.fee, Payee(a.tx), a.tx.to);
    }
  }

  lemma NothingPaid(before: map<string, int>, after: map<string, int>, from: string, value: int, architect: string,
                    fee: int, payee: string, other: string)
    requires PaysOut(before, after, from, value, architect, fee, payee, 0)
    ensures PaysOut(before, after, from, value, architect, fee, other, 0)
  {
    hide BalanceOf;
  }

  lemma AppliedChanges(env: Env, s: Snapshot, raw: Transaction, configured: string)
    requires EnvSound(env) && ApplyTransaction(env, s, raw, configured).Ok?
    ensures var a := ApplyTransaction(env, s, raw, configured).value;
      && Changes(env, s, a.tx, a.fee, ArchitectOf(configured), a.state)
      && IsNormalForm(env, raw, a.tx)
  {
    hide *;
    var a := ApplyTransaction(env, s, raw, configured).value;
    TransactionMoves(env, s, raw, configured);
    AppliedRecords(env, s, raw, configured);
    Refusals.OneNonce(env, s, raw, configured);
    PayeeIs(env, s, raw, configured);
    NormalFormExactly(env, raw, a.tx);
    ArchitectIs(configured);
    ChangesFrom(env, s, a, Parsed(a.tx.value).value, NormalizedArchitect(configured));
  }

  /** A transfer to a contract carries nothing, and one to a native address goes to the registry. */
  lemma PayeeIs(env: Env, s: Snapshot, raw: Transaction, configured: string)
    requires EnvSound(env) && ApplyTransaction(env, s, raw, configured).Ok?
    ensures var tx := ApplyTransaction(env, s, raw, configured).value.tx;
      && tx.kind != UnknownKind && (tx.kind == Transfer ==> Payee(tx) == tx.to)
  {
    AdmittedExactly(env, s, raw, configured);
    TransactionMoves(env, s, raw, configured);
    hide ApplyTransaction, EnvSound, Signed, Affords, CanRequest, CanDeploy, NamesAnAccount, Registers, Text.Trim;
  }
}
