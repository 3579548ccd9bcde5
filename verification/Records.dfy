/** The node's records: transactions, proofs, blocks, block metadata and the ledger snapshot. */
module Records {

  datatype Option<+T> = None | Some(value: T)

  datatype Result<+T> = Ok(value: T) | Err(error: Error)

  datatype Error =
    | BlockNotFound
    | InsufficientBalance
    | InvalidBlock
    | InvalidSignature
    | InvalidTransaction
    | InvalidTransactionFee
    | InvalidNonce
    | InvalidAddress
    | InvalidChecksum
    | InvalidCall
    | NativeCallNotPayable
    | NilAmount            // a comparison with an amount that did not parse
    | TaskNotFound
    | TaskSettled
    | UnsupportedRuntime

  type Byte = x: int | 0 <= x < 256

  /** A decimal text field: readable as it stands, readable only after trimming, or unreadable. */
  datatype Amount = Plain(n: int) | Padded(n: int) | Malformed

  datatype TxKind = Transfer | SearchTask | ContractDeploy | UnknownKind

  datatype Transaction = Transaction(
    hash: string,
    kind: TxKind,
    from: string,
    to: string,
    value: Amount,
    nonce: nat,
    timestamp: int,
    data: seq<Byte>,
    publicKey: seq<Byte>,
    signature: seq<Byte>)

  datatype Page = Page(
    url: string,
    title: string,
    snippet: string,
    body: string,
    bodyBytes: nat,
    contentHash: string,
    simHash: nat,
    outboundLinks: seq<string>)

  datatype CrawlProof = CrawlProof(
    taskId: string,
    taskTxHash: string,
    query: string,
    url: string,
    miner: string,
    page: Page,
    proofHash: string,
    gross: Amount,
    fee: Amount,
    reward: Amount,
    createdAt: int)

  datatype Task = Task(
    id: string,
    txHash: string,
    submitter: string,
    query: string,
    url: string,
    baseBounty: Amount,
    gross: int,
    fee: int,
    reward: int,
    difficulty: nat,
    dataVolume: nat,
    createdAt: int,
    autonomous: bool,
    parentId: string,
    depth: nat,
    completed: bool,
    completedAt: int,
    proofHash: string,
    minedBy: string)

  datatype SearchRecord = SearchRecord(
    taskId: string,
    url: string,
    query: string,
    title: string,
    snippet: string,
    body: string,
    bodyBytes: nat,
    contentHash: string,
    simHash: nat,
    indexedAt: int,
    indexedBy: string,
    proofHash: string,
    blockHash: string,
    termCounts: map<string, nat>)

  datatype NameRecord = NameRecord(name: string, owner: string, registeredAt: int, txHash: string)

  datatype Runtime = NoteV1 | DescriptorV1

  datatype Contract = Contract(address: string, name: string, runtime: Runtime, owner: string, txHash: string)

  datatype Snapshot = Snapshot(
    balances: map<string, int>,
    nonces: map<string, nat>,
    tasks: map<string, Task>,
    index: map<string, SearchRecord>,
    mentions: map<string, nat>,
    names: map<string, NameRecord>,
    contracts: map<string, Contract>,
    contractData: map<string, string>)

  datatype Header = Header(
    number: nat,
    parentHash: string,
    stateRoot: string,
    timestamp: int,
    miner: string,
    txRoot: string,
    crawlRoot: string)

  datatype Body = Body(transactions: seq<Transaction>, proofs: seq<CrawlProof>)

  datatype Block = Block(hash: string, header: Header, body: Body)

  datatype Meta = Meta(
    hash: string,
    parentHash: string,
    number: nat,
    work: nat,
    cumulativeWork: nat,
    canonical: bool)

  // ---------------------------------------------------------------- shared small definitions

  const BASIS_POINTS: nat := 10000

  /** No two entries are equal. */
  ghost predicate Distinct<T(!new)>(s: seq<T>) {
    forall i, j :: 0 <= i < j < |s| ==> s[i] != s[j]
  }

  /** A count kept per key, 0 where there is none. */
  function Counted(counts: map<string, nat>, key: string): nat {
    if key in counts then counts[key] else 0
  }
}
