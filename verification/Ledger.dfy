/** The ledger transition: one transaction or one crawl proof applied to a snapshot. */
module Ledger {
  import opened Records
  import Text
  import Addresses

  // ---------------------------------------------------------------- constants and foreign functions

  const SEARCH_ESCROW := "UFI_SEARCH_ESCROW"
  const GENESIS_ARCHITECT := "UFI_GENESIS_ARCHITECT_REPLACE_ME"
  const SEARCH_PRECOMPILE := "0x101"
  const UNS_REGISTRY := "0x102"
  const UNS_BASE_PRICE := 100000
  const UNS_POPULARITY_PRICE := 10000
  const FEE_NUMERATOR := 333
  const FEE_DENOMINATOR := 10000
  const MAX_TITLE_BYTES := 1024
  const MAX_SNIPPET_BYTES := 512
  const MAX_BODY_BYTES := 8192
  const MAX_OUTBOUND_LINKS := 64
  const CRAWL_MAX_DEPTH := 2
  const CRAWL_LINKS_PER_PROOF := 4
  const CRAWL_PENDING_LIMIT := 1024

  datatype TaskRequest = TaskRequest(query: string, url: string, baseBounty: Amount, difficulty: nat, dataVolume: nat)

  datatype DeployRequest = DeployRequest(name: string, runtime: Runtime)

  /** What the sort of candidate links compares before the link itself. */
  datatype LinkRank = LinkRank(sameHost: bool, hasQuery: bool, pathSegments: nat, length: nat)

  /** Hashing, signatures, JSON and ABI decoding, tokenizing and URL parsing, kept abstract. */
  datatype Env = Env(
    digest: seq<Byte> -> seq<Byte>,
    hash160: seq<Byte> -> seq<Byte>,
    verify: Transaction -> bool,
    txHash: Transaction -> string,
    proofHash: (string, string, string, nat) -> string,
    parseTask: seq<Byte> -> Option<TaskRequest>,
    parseDeploy: seq<Byte> -> Option<DeployRequest>,
    contractAddress: string -> string,
    parseRegister: seq<Byte> -> Option<string>,
    parseNote: seq<Byte> -> Option<string>,
    tokens: string -> seq<string>,
    normalizeUrl: string -> Option<string>,
    skipUrl: string -> bool,
    workHost: string -> string,
    linkRank: (string, string, string) -> LinkRank,
    taskId: (string, nat, string) -> string)

  /** Digest sizes. */
  ghost predicate EnvSound(env: Env) {
    && Addresses.IsDigest(env.digest)
    && forall key :: |env.hash160(key)| == Addresses.ADDRESS_HASH_SIZE
  }

  // ---------------------------------------------------------------- amounts and balances

  /** `Transaction.ValueBig`: parsed after trimming. */
  function Parsed(a: Amount): Option<int> {
    match a
    case Plain(n) => Some(n)
    case Padded(n) => Some(n)
    case Malformed => None
  }

  function ArchitectFee(amount: int): (fee: int) {
    if amount <= 0 then 0 else amount * FEE_NUMERATOR / FEE_DENOMINATOR
  }

  function BalanceOf(balances: map<string, int>, address: string): int {
    if address in balances then balances[address] else 0
  }

  function Credit(balances: map<string, int>, address: string, amount: int): map<string, int> {
    if amount == 0 then balances else balances[address := BalanceOf(balances, address) + amount]
  }

  function Debit(balances: map<string, int>, address: string, amount: int): map<string, int> {
    balances[address := BalanceOf(balances, address) - amount]
  }

  // ---------------------------------------------------------------- transactions

  function NormalizedArchitect(address: string): string {
    var cleaned := Text.Trim(address);
    if cleaned == "" then GENESIS_ARCHITECT else cleaned
  }

  function NormalizeTransaction(env: Env, tx: Transaction): Transaction {
    var trimmed := tx.(from := Text.Trim(tx.from), to := Text.Trim(tx.to), hash := "");
    trimmed.(hash := env.txHash(trimmed))
  }

  function ValidateAddress(env: Env, address: string, architect: string): Option<Error>
    requires EnvSound(env)
  {
    var cleaned := Text.Trim(address);
    if cleaned == "" then Some(InvalidTransaction)
    else if cleaned in {NormalizedArchitect(architect), GENESIS_ARCHITECT, SEARCH_ESCROW, UNS_REGISTRY} then None
    else
      match Addresses.ParseAddress(env.digest, cleaned)
      case Ok(_) => None
      case Err(e) => Some(e)
  }

  function AddressOfKey(env: Env, publicKey: seq<Byte>): string
    requires EnvSound(env)
  {
    Addresses.Print(env.digest, Addresses.Address(Addresses.CURRENT_VERSION, env.hash160(publicKey)))
  }

  function ValidateSignature(env: Env, tx: Transaction): Option<Error>
    requires EnvSound(env)
  {
    if tx.kind == UnknownKind then Some(InvalidTransaction)
    else
      var address := ValidateAddress(env, tx.from, GENESIS_ARCHITECT);
      if address.Some? then address
      else if |tx.publicKey| != 32 || |tx.signature| != 64 then Some(InvalidSignature)
      else if AddressOfKey(env, tx.publicKey) != tx.from then Some(InvalidSignature)
      else if !env.verify(tx) then Some(InvalidSignature)
      else None
  }

  predicate IsNative(address: string) {
    address == SEARCH_PRECOMPILE || address == UNS_REGISTRY
  }

  /** The account moves that every transaction makes first. */
  function Charged(s: Snapshot, tx: Transaction, value: int, fee: int, architect: string): Snapshot {
    s.(balances := Credit(Debit(s.balances, tx.from, value), architect, fee),
       nonces := s.nonces[tx.from := tx.nonce + 1])
  }

  function NormalizedTerm(env: Env, term: string): string {
    var ts := env.tokens(term);
    if ts == [] then "" else ts[0]
  }

  function RegistrationPrice(env: Env, s: Snapshot, name: string): int {
    UNS_BASE_PRICE + Counted(s.mentions, NormalizedTerm(env, name)) * UNS_POPULARITY_PRICE
  }

  function RegisterName(env: Env, s: Snapshot, tx: Transaction, value: int, net: int): Result<Snapshot> {
    match env.parseRegister(tx.data)
    case None => Err(InvalidCall)
    case Some(raw) =>
      var name := Text.Trim(raw);
      if name == "" || name in s.names then Err(InvalidTransaction)
      else if value != RegistrationPrice(env, s, name) then Err(InvalidTransaction)
      else Ok(s.(balances := Credit(s.balances, UNS_REGISTRY, net),
                 names := s.names[name := NameRecord(name, tx.from, tx.timestamp, tx.hash)]))
  }

  function ExecuteNative(env: Env, s: Snapshot, tx: Transaction, value: int, net: int): Result<Snapshot> {
    if tx.to == SEARCH_PRECOMPILE then Err(NativeCallNotPayable) else RegisterName(env, s, tx, value, net)
  }

  function ExecuteUserContract(env: Env, s: Snapshot, contract: Contract, tx: Transaction, value: int): Result<Snapshot>
  {
    match contract.runtime
    case DescriptorV1 => Err(UnsupportedRuntime)
    case NoteV1 =>
      if value != 0 then Err(NativeCallNotPayable)
      else
        match env.parseNote(tx.data)
        case None => Err(InvalidCall)
        case Some(note) => Ok(s.(contractData := s.contractData[contract.address := note]))
  }

  function ExecuteTransfer(env: Env, s: Snapshot, tx: Transaction, value: int, net: int,
    architect: string): Result<Snapshot>
    requires EnvSound(env)
  {
    if IsNative(tx.to) then ExecuteNative(env, s, tx, value, net)
    else if tx.to in s.contracts then ExecuteUserContract(env, s, s.contracts[tx.to], tx, value)
    else
      match ValidateAddress(env, tx.to, architect)
      case Some(e) => Err(e)
      case None => Ok(s.(balances := Credit(s.balances, tx.to, net)))
  }

  function PaidTask(tx: Transaction, request: TaskRequest, value: int, fee: int, net: int): Task {
    Task(tx.hash, tx.hash, tx.from, request.query, request.url, request.baseBounty, value, fee, net,
         request.difficulty, request.dataVolume, tx.timestamp, false, "", 0, false, 0, "", "")
  }

  function ExecuteSearchTask(env: Env, s: Snapshot, tx: Transaction, value: int, fee: int, net: int): Result<Snapshot> {
    if tx.data == [] then Err(InvalidTransaction)
    else
      match env.parseTask(tx.data)
      case None => Err(InvalidTransaction)
      case Some(request) =>
        if Text.Trim(request.query) == "" || Text.Trim(request.url) == "" || request.baseBounty == Malformed
          then Err(InvalidTransaction)
        else
          Ok(s.(balances := Credit(s.balances, SEARCH_ESCROW, net),
                tasks := s.tasks[tx.hash := PaidTask(tx, request, value, fee, net)]))
  }

  function ExecuteDeploy(env: Env, s: Snapshot, tx: Transaction): Result<Snapshot> {
    if tx.data == [] then Err(InvalidTransaction)
    else
      match env.parseDeploy(tx.data)
      case None => Err(InvalidTransaction)
      case Some(request) =>
        var address := env.contractAddress(tx.hash);
        if tx.to != "" || address == "" || IsNative(address) || address in s.contracts then Err(InvalidTransaction)
        else
          Ok(s.(contracts := s.contracts[address := Contract(address, request.name, request.runtime, tx.from, tx.hash)],
                contractData := if request.runtime == NoteV1 then s.contractData[address := ""] else s.contractData))
  }

  /** A zero value is let through to the entry guard only for a call with data to a contract. */
  predicate AllowsZero(s: Snapshot, tx: Transaction) {
    && tx.kind == Transfer && tx.data != []
    && (IsNative(tx.to) || (tx.to in s.contracts && s.contracts[tx.to].address != ""))
  }

  datatype Applied = Applied(tx: Transaction, fee: int, net: int, state: Snapshot)

  /** `ApplyTransactionWithArchitect`: a new snapshot on success only. */
  function ApplyTransaction(env: Env, s: Snapshot, raw: Transaction, configured: string): Result<Applied>
    requires EnvSound(env)
  {
    var tx := NormalizeTransaction(env, raw);
    var architect := NormalizedArchitect(configured);
    var signature := ValidateSignature(env, tx);
    if signature.Some? then Err(signature.value)
    else if Parsed(tx.value).None? then Err(InvalidTransaction)
    else
      var value := Parsed(tx.value).value;
      if tx.kind == ContractDeploy && value < 0 then Err(InvalidTransaction)
      else if tx.kind != ContractDeploy && value <= 0 && !AllowsZero(s, tx) then Err(InvalidTransaction)
      else if tx.nonce != Counted(s.nonces, tx.from) then Err(InvalidNonce)
      else if BalanceOf(s.balances, tx.from) < value then Err(InsufficientBalance)
      else
        var fee := ArchitectFee(value);
        var net := value - fee;
        var charged := Charged(s, tx, value, fee, architect);
        var done :=
          if tx.kind == Transfer then ExecuteTransfer(env, charged, tx, value, net, architect)
          else if tx.kind == SearchTask then ExecuteSearchTask(env, charged, tx, value, fee, net)
          else ExecuteDeploy(env, charged, tx);
        match done
        case Err(e) => Err(e)
        case Ok(state) => Ok(Applied(tx, fee, net, state))
  }

  // ---------------------------------------------------------------- proof normalization

  function Utf8Size(c: char): nat {
    if c < '\U{80}' then 1 else if c < '\U{800}' then 2 else if c < '\U{10000}' then 3 else 4
  }

  function Utf8Bytes(s: string): nat {
    if s == [] then 0 else Utf8Size(s[0]) + Utf8Bytes(s[1..])
  }

  /** The longest prefix of whole characters that fits. */
  function CutUtf8(s: string, limit: nat): string {
    if s == [] || Utf8Size(s[0]) > limit then [] else [s[0]] + CutUtf8(s[1..], limit - Utf8Size(s[0]))
  }

  function TruncateUtf8(s: string, limit: nat): string {
    if limit == 0 || Utf8Bytes(s) <= limit then s else CutUtf8(s, limit)
  }

  /** Trimmed, non-empty, first occurrences only, up to a limit. */
  function TruncateLinks(links: seq<string>, limit: nat, seen: set<string>): seq<string>
    decreases |links|
  {
    if links == [] || limit == 0 then []
    else
      var cleaned := Text.Trim(links[0]);
      if cleaned == "" || cleaned in seen then TruncateLinks(links[1..], limit, seen)
      else [cleaned] + TruncateLinks(links[1..], limit - 1, seen + {cleaned})
  }

  function NormalizePage(page: Page): Page {
    page.(
      url := Text.Trim(page.url),
      title := TruncateUtf8(Text.Trim(page.title), MAX_TITLE_BYTES),
      snippet := TruncateUtf8(Text.Trim(page.snippet), MAX_SNIPPET_BYTES),
      body := TruncateUtf8(Text.Trim(page.body), MAX_BODY_BYTES),
      bodyBytes := if page.bodyBytes == 0 then Utf8Bytes(page.body) else page.bodyBytes,
      contentHash := Text.Trim(page.contentHash),
      outboundLinks := TruncateLinks(page.outboundLinks, MAX_OUTBOUND_LINKS, {}))
  }

  function ProofDigest(env: Env, proof: CrawlProof): string {
    env.proofHash(proof.taskId, proof.url, proof.page.contentHash, proof.page.simHash)
  }

  function NormalizeProof(env: Env, proof: CrawlProof): Result<CrawlProof> {
    var p := proof.(
      taskId := Text.Trim(proof.taskId),
      taskTxHash := Text.Trim(proof.taskTxHash),
      url := Text.Trim(proof.url),
      query := Text.Trim(proof.query),
      miner := Text.Trim(proof.miner),
      page := NormalizePage(proof.page));
    if p.taskId == "" || p.url == "" || p.miner == "" then Err(InvalidBlock)
    else
      var q := if p.proofHash == "" then p.(proofHash := ProofDigest(env, p)) else p;
      if q.proofHash != ProofDigest(env, q) then Err(InvalidBlock) else Ok(q)
  }

  // ---------------------------------------------------------------- mention counts

  function CountOf(terms: seq<string>, t: string): nat {
    if terms == [] then 0 else CountOf(terms[1..], t) + if terms[0] == t then 1 else 0
  }

  /** `computeTermCounts`: each term that occurs, with its number of occurrences. */
  function TermCounts(terms: seq<string>): map<string, nat> {
    map t | t in terms :: CountOf(terms, t)
  }

  function AddMentions(target: map<string, nat>, counts: map<string, nat>): map<string, nat> {
    map t | t in target.Keys + counts.Keys :: Counted(target, t) + Counted(counts, t)
  }

  function SubtractMentions(target: map<string, nat>, counts: map<string, nat>): map<string, nat> {
    map t | t in target && (t !in counts || counts[t] < target[t]) :: target[t] - Counted(counts, t)
  }

  // ---------------------------------------------------------------- follow-on tasks

  predicate IsActive(t: Task) {
    !t.completed
  }

  predicate IsActiveAutonomous(t: Task) {
    !t.completed && t.autonomous
  }

  function ActiveAutonomous(tasks: map<string, Task>): set<string> {
    set id | id in tasks && IsActiveAutonomous(tasks[id])
  }

  predicate HasActiveUrl(tasks: map<string, Task>, url: string) {
    exists id :: id in tasks && IsActive(tasks[id]) && tasks[id].url == url
  }

  /** The candidate loop: normalized, neither the page itself nor skipped, new to the index and to the active tasks. */
  function CandidateLinks(env: Env, s: Snapshot, parent: Task, proof: CrawlProof, links: seq<string>,
                          seen: set<string>): seq<string>
    decreases |links|
  {
    if links == [] then []
    else
      var rest := links[1..];
      match env.normalizeUrl(links[0])
      case None => CandidateLinks(env, s, parent, proof, rest, seen)
      case Some(target) =>
        if target == Text.Trim(proof.url) || target == Text.Trim(parent.url) || env.skipUrl(target)
           || target in seen || target in s.index || HasActiveUrl(s.tasks, target)
        then CandidateLinks(env, s, parent, proof, rest, seen)
        else [target] + CandidateLinks(env, s, parent, proof, rest, seen + {target})
  }

  predicate RanksBefore(a: LinkRank, x: string, b: LinkRank, y: string) {
    if a.sameHost != b.sameHost then a.sameHost
    else if a.hasQuery != b.hasQuery then !a.hasQuery
    else if a.pathSegments != b.pathSegments then a.pathSegments < b.pathSegments
    else if a.length != b.length then a.length < b.length
    else Text.Before(x, y)
  }

  predicate LinkBefore(env: Env, parent: Task, proof: CrawlProof, x: string, y: string) {
    RanksBefore(env.linkRank(proof.url, parent.url, x), x, env.linkRank(proof.url, parent.url, y), y)
  }

  function InsertLink(env: Env, parent: Task, proof: CrawlProof, x: string, xs: seq<string>): seq<string> {
    if xs == [] || !LinkBefore(env, parent, proof, xs[0], x) then [x] + xs
    else [xs[0]] + InsertLink(env, parent, proof, x, xs[1..])
  }

  function SortLinks(env: Env, parent: Task, proof: CrawlProof, xs: seq<string>): seq<string> {
    if xs == [] then [] else InsertLink(env, parent, proof, xs[0], SortLinks(env, parent, proof, xs[1..]))
  }

  function SpawnedTask(env: Env, parent: Task, proof: CrawlProof, target: string): Task {
    Task(env.taskId(Text.Trim(parent.id), parent.depth + 1, Text.Trim(target)),
         if Text.Trim(parent.txHash) == "" then parent.id else Text.Trim(parent.txHash),
         parent.submitter, parent.query, target, Plain(0), 0, 0, 0, 0, 0, proof.createdAt,
         true, parent.id, parent.depth + 1, false, 0, "", "")
  }

  /** The links that become tasks: the best-ranked candidates within the per-proof and the global limit. */
  function SpawnTargets(env: Env, s: Snapshot, parent: Task, proof: CrawlProof): seq<string> {
    var active := |ActiveAutonomous(s.tasks)|;
    if parent.autonomous && parent.depth >= CRAWL_MAX_DEPTH then []
    else if active >= CRAWL_PENDING_LIMIT then []
    else
      var candidates := SortLinks(env, parent, proof,
                                  CandidateLinks(env, s, parent, proof, proof.page.outboundLinks, {}));
      var remaining := CRAWL_PENDING_LIMIT - active;
      var limit := if remaining < CRAWL_LINKS_PER_PROOF then remaining else CRAWL_LINKS_PER_PROOF;
      if |candidates| > limit then candidates[..limit] else candidates
  }

  /** Writes the follow-on tasks one after another. */
  function AddSpawned(env: Env, tasks: map<string, Task>, parent: Task, proof: CrawlProof,
    targets: seq<string>): map<string, Task>
    decreases |targets|
  {
    if targets == [] then tasks
    else
      var t := SpawnedTask(env, parent, proof, targets[0]);
      AddSpawned(env, tasks[t.id := t], parent, proof, targets[1..])
  }

  // ---------------------------------------------------------------- proofs

  function IndexRecord(env: Env, p: CrawlProof, blockHash: string): SearchRecord {
    SearchRecord(p.taskId, p.url, p.query, p.page.title, p.page.snippet, p.page.body, p.page.bodyBytes,
                 p.page.contentHash, p.page.simHash, p.createdAt, p.miner, p.proofHash, blockHash,
                 TermCounts(env.tokens(p.query + " " + p.page.title + " " + p.page.body)))
  }

  function IndexPage(s: Snapshot, url: string, record: SearchRecord): Snapshot {
    var without := if url in s.index then SubtractMentions(s.mentions, s.index[url].termCounts) else s.mentions;
    s.(index := s.index[url := record], mentions := AddMentions(without, record.termCounts))
  }

  function Settled(task: Task, p: CrawlProof): Task {
    task.(completed := true, completedAt := p.createdAt, proofHash := p.proofHash, minedBy := p.miner)
  }

  /** Compares an amount parsed without trimming and without a check that it parsed. */
  function Mismatch(expected: int, actual: Amount): Option<Error> {
    if !actual.Plain? then Some(NilAmount) else if expected != actual.n then Some(InvalidTransactionFee) else None
  }

  function AmountsMismatch(task: Task, p: CrawlProof): Option<Error> {
    var gross, fee := Mismatch(task.gross, p.gross), Mismatch(task.fee, p.fee);
    if gross.Some? then gross else if fee.Some? then fee else Mismatch(task.reward, p.reward)
  }

  datatype AppliedProof = AppliedProof(proof: CrawlProof, spawned: seq<string>, state: Snapshot)

  /** `ApplyCrawlProof`: pays the miner from escrow, indexes the page, settles the task, spawns follow-on tasks. */
  function ApplyCrawlProof(env: Env, s: Snapshot, raw: CrawlProof, blockHash: string): Result<AppliedProof> {
    match NormalizeProof(env, raw)
    case Err(e) => Err(e)
    case Ok(p) =>
      if p.taskId !in s.tasks then Err(TaskNotFound)
      else
        var task := s.tasks[p.taskId];
        if task.completed then Err(TaskSettled)
        else if AmountsMismatch(task, p).Some? then Err(AmountsMismatch(task, p).value)
        else if BalanceOf(s.balances, SEARCH_ESCROW) < task.reward then Err(InsufficientBalance)
        else
          var paid := s.(balances := Credit(Debit(s.balances, SEARCH_ESCROW, task.reward), p.miner, task.reward));
          var indexed := IndexPage(paid, p.url, IndexRecord(env, p, blockHash));
          var done := Settled(task, p);
          var settled := indexed.(tasks := indexed.tasks[task.id := done]);
          var targets := SpawnTargets(env, settled, done, p);
          Ok(AppliedProof(p, targets, settled.(tasks := AddSpawned(env, settled.tasks, done, p, targets))))
  }
}
