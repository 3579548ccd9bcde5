/** Block preparation with the ledger's rules, and what it gives every stored snapshot. */
module Node {
  import opened Records
  import opened Ledger
  import opened Chain
  import opened Blocks
  import opened Totals
  import opened Money
  import opened Mentions
  import opened Frontier
  import opened Refusals
  import Work

  // ---------------------------------------------------------------- state root

  /** What the state root covers: not the contracts, and search records without their block hash. */
  datatype RootView = RootView(
    balances: map<string, int>,
    nonces: map<string, nat>,
    tasks: map<string, Task>,
    index: map<string, SearchRecord>,
    mentions: map<string, nat>,
    names: map<string, NameRecord>)

  function Blank(r: SearchRecord): SearchRecord {
    r.(blockHash := "")
  }

  function Blanked(index: map<string, SearchRecord>): map<string, SearchRecord> {
    map url | url in index :: Blank(index[url])
  }

  function Rooted(s: Snapshot): RootView {
    RootView(s.balances, s.nonces, s.tasks, Blanked(s.index), s.mentions, s.names)
  }

  // ---------------------------------------------------------------- configuration

  datatype Config = Config(
    env: Env,
    architect: string,
    rootHash: RootView -> string,
    merkleRoot: seq<string> -> string,
    headerHash: Header -> string)

  const NULL_ENV: Env :=
    Env(_ => seq(32, _ => 0), _ => seq(20, _ => 0), _ => false, _ => "", (_, _, _, _) => "", _ => None, _ => None,
        _ => "", _ => None, _ => None, _ => [], _ => None, _ => true, _ => "",
          (_, _, _) => LinkRank(false, false, 0, 0), (_, _, _) => "")

  /** A configuration whose digests have their proper sizes. */
  type Network = c: Config | EnvSound(c.env) witness Config(NULL_ENV, "", _ => "", _ => "", _ => "")

  // ---------------------------------------------------------------- preparation

  datatype TxsApplied = TxsApplied(txs: seq<Transaction>, state: Snapshot)
  datatype ProofsApplied = ProofsApplied(proofs: seq<CrawlProof>, state: Snapshot)

  function ApplyTransactions(net: Network, s: Snapshot, txs: seq<Transaction>): Result<TxsApplied>
    decreases |txs|
  {
    if txs == [] then Ok(TxsApplied([], s))
    else
      match ApplyTransactions(net, s, txs[..|txs| - 1])
      case Err(e) => Err(e)
      case Ok(before) =>
        match ApplyTransaction(net.env, before.state, txs[|txs| - 1], net.architect)
        case Err(e) => Err(e)
        case Ok(a) => Ok(TxsApplied(before.txs + [a.tx], a.state))
  }

  function ApplyProofs(net: Network, s: Snapshot, proofs: seq<CrawlProof>): Result<ProofsApplied>
    decreases |proofs|
  {
    if proofs == [] then Ok(ProofsApplied([], s))
    else
      match ApplyProofs(net, s, proofs[..|proofs| - 1])
      case Err(e) => Err(e)
      case Ok(before) =>
        match ApplyCrawlProof(net.env, before.state, proofs[|proofs| - 1], "")
        case Err(e) => Err(e)
        case Ok(a) => Ok(ProofsApplied(before.proofs + [a.proof], a.state))
  }

  function Stamp(r: SearchRecord, hash: string): SearchRecord {
    r.(blockHash := hash)
  }

  /** Writes the block hash into the record of every page the block indexed. */
  function StampAll(index: map<string, SearchRecord>, proofs: seq<CrawlProof>, hash: string): map<string, SearchRecord>
    decreases |proofs|
  {
    if proofs == [] then index
    else
      var before := StampAll(index, proofs[..|proofs| - 1], hash);
      var url := proofs[|proofs| - 1].url;
      if url in before then before[url := Stamp(before[url], hash)] else before
  }

  function Expected(net: Network, parent: Block, block: Block, txs: seq<Transaction>, proofs: seq<CrawlProof>,
                    s: Snapshot): Block
  {
    var header := block.header.(
      number := parent.header.number + 1,
      parentHash := parent.hash,
      txRoot := net.merkleRoot(seq(|txs|, i requires 0 <= i < |txs| => txs[i].hash)),
      crawlRoot := net.merkleRoot(seq(|proofs|, i requires 0 <= i < |proofs| => proofs[i].proofHash)),
      stateRoot := net.rootHash(Rooted(s)));
    Block(net.headerHash(header), header, Body(txs, proofs))
  }

  /** A block that names its hash must name exactly the roots and the hash that were computed. */
  predicate ClaimsHold(block: Block, expected: Block) {
    block.hash != "" ==>
      && expected.header.txRoot == block.header.txRoot
      && expected.header.crawlRoot == block.header.crawlRoot
      && expected.header.stateRoot == block.header.stateRoot
      && expected.hash == block.hash
  }

  /** `prepareBlock`. */
  function PrepareBlock(net: Network, parent: Block, parentState: Snapshot, block: Block): Result<Prepared> {
    if block.header.number != parent.header.number + 1 || block.header.parentHash != parent.hash then Err(InvalidBlock)
    else
      match ApplyTransactions(net, parentState, block.body.transactions)
      case Err(e) => Err(e)
      case Ok(afterTxs) =>
        var work := Work.BlockWork(net.env, afterTxs.state.tasks, afterTxs.txs, block.body.proofs);
        if work.Err? then Err(work.error)
        else
          match ApplyProofs(net, afterTxs.state, block.body.proofs)
          case Err(e) => Err(e)
          case Ok(afterProofs) =>
            var s := afterProofs.state;
            var expected := Expected(net, parent, block, afterTxs.txs, afterProofs.proofs, s);
            if !ClaimsHold(block, expected) then Err(InvalidBlock)
            else
              Work.WorkNonNegative(net.env, afterTxs.state.tasks, afterTxs.txs, block.body.proofs);
              Ok(Prepared(expected, s.(index := StampAll(s.index, afterProofs.proofs, expected.hash)), work.value))
  }

  // ---------------------------------------------------------------- the header

  ghost predicate ListsTransactions(hashes: seq<string>, txs: seq<Transaction>) {
    |hashes| == |txs| && forall i :: 0 <= i < |txs| ==> hashes[i] == txs[i].hash
  }

  ghost predicate ListsProofs(hashes: seq<string>, proofs: seq<CrawlProof>) {
    |hashes| == |proofs| && forall i :: 0 <= i < |proofs| ==> hashes[i] == proofs[i].proofHash
  }

  /** The header roots the transactions, the proofs and the ledger, each under its own name. */
  ghost predicate Roots(net: Network, header: Header, txs: seq<Transaction>, proofs: seq<CrawlProof>, s: Snapshot) {
    && (forall hashes :: ListsTransactions(hashes, txs) ==> header.txRoot == net.merkleRoot(hashes))
    && (forall hashes :: ListsProofs(hashes, proofs) ==> header.crawlRoot == net.merkleRoot(hashes))
    && header.stateRoot == net.rootHash(Rooted(s))
  }

  lemma ExpectedRoots(net: Network, parent: Block, block: Block, txs: seq<Transaction>, proofs: seq<CrawlProof>,
                      s: Snapshot)
    ensures var e := Expected(net, parent, block, txs, proofs, s);
      && Roots(net, e.header, txs, proofs, s)
      && e.hash == net.headerHash(e.header)
      && e.header.number == parent.header.number + 1 && e.header.parentHash == parent.hash
      && e.header.timestamp == block.header.timestamp && e.header.miner == block.header.miner
      && e.body == Body(txs, proofs)
  {
    hide Rooted;
    var hashes := seq(|txs|, i requires 0 <= i < |txs| => txs[i].hash);
    var digests := seq(|proofs|, i requires 0 <= i < |proofs| => proofs[i].proofHash);
    forall other | ListsTransactions(other, txs)
      ensures other == hashes
    {
    }
    forall other | ListsProofs(other, proofs)
      ensures other == digests
    {
    }
  }

  /** Only one header has the given roots. */
  lemma RootsDecide(net: Network, a: Header, b: Header, txs: seq<Transaction>, proofs: seq<CrawlProof>, s: Snapshot)
    requires Roots(net, a, txs, proofs, s)
    ensures Roots(net, b, txs, proofs, s) <==>
      a.txRoot == b.txRoot && a.crawlRoot == b.crawlRoot && a.stateRoot == b.stateRoot
  {
    hide Rooted;
    var hashes := seq(|txs|, i requires 0 <= i < |txs| => txs[i].hash);
    var digests := seq(|proofs|, i requires 0 <= i < |proofs| => proofs[i].proofHash);
    assert ListsTransactions(hashes, txs) && ListsProofs(digests, proofs);
  }

  /**
   The header of every prepared block: heights and parent, the submitted time and miner, the three roots
   of what the block records and of the ledger it leads to, and the digest of it all. Its work is
   counted over the recorded transactions, the submitted proofs and the tasks known after the transactions.
   */
  lemma PreparedHeader(net: Network, parent: Block, parentState: Snapshot, block: Block)
    requires PrepareBlock(net, parent, parentState, block).Ok?
    ensures ApplyTransactions(net, parentState, block.body.transactions).Ok?
    ensures var t := ApplyTransactions(net, parentState, block.body.transactions).value;
      && ApplyProofs(net, t.state, block.body.proofs).Ok?
      && var q := ApplyProofs(net, t.state, block.body.proofs).value;
      && var p := PrepareBlock(net, parent, parentState, block).value;
      && p.block.body == Body(t.txs, q.proofs)
      && Roots(net, p.block.header, t.txs, q.proofs, q.state)
      && p.block.hash == net.headerHash(p.block.header)
      && p.block.header.number == parent.header.number + 1 && p.block.header.parentHash == parent.hash
      && p.block.header.timestamp == block.header.timestamp && p.block.header.miner == block.header.miner
      && Work.BlockWork(net.env, t.state.tasks, t.txs, block.body.proofs) == Ok(p.work)
  {
    hide ApplyTransactions, ApplyProofs, StampAll, Rooted, Expected, Roots, Work.BlockWork;
    var t := ApplyTransactions(net, parentState, block.body.transactions).value;
    var q := ApplyProofs(net, t.state, block.body.proofs).value;
    ExpectedRoots(net, parent, block, t.txs, q.proofs, q.state);
  }

  /**
   A block that names its hash, stands on its parent and whose parts apply is accepted if and only if
   its header has the three roots and its hash is the digest of its header.
   */
  lemma NamedIsAccepted(net: Network, parent: Block, parentState: Snapshot, block: Block)
    requires block.hash != ""
    requires block.header.number == parent.header.number + 1 && block.header.parentHash == parent.hash
    requires ApplyTransactions(net, parentState, block.body.transactions).Ok?
    requires var t := ApplyTransactions(net, parentState, block.body.transactions).value;
      && ApplyProofs(net, t.state, block.body.proofs).Ok?
      && Work.BlockWork(net.env, t.state.tasks, t.txs, block.body.proofs).Ok?
    ensures var t := ApplyTransactions(net, parentState, block.body.transactions).value;
      var q := ApplyProofs(net, t.state, block.body.proofs).value;
      PrepareBlock(net, parent, parentState, block).Ok?
      <==> Roots(net, block.header, t.txs, q.proofs, q.state) && block.hash == net.headerHash(block.header)
    ensures PrepareBlock(net, parent, parentState, block).Err? ==>
      PrepareBlock(net, parent, parentState, block) == Err(InvalidBlock)
  {
    hide ApplyTransactions, ApplyProofs, StampAll, Rooted, Expected, Roots, Work.BlockWork;
    var t := ApplyTransactions(net, parentState, block.body.transactions).value;
    var q := ApplyProofs(net, t.state, block.body.proofs).value;
    var expected := Expected(net, parent, block, t.txs, q.proofs, q.state);
    ExpectedRoots(net, parent, block, t.txs, q.proofs, q.state);
    RootsDecide(net, expected.header, block.header, t.txs, q.proofs, q.state);
    if && expected.header.txRoot == block.header.txRoot && expected.header.crawlRoot == block.header.crawlRoot
       && expected.header.stateRoot == block.header.stateRoot {
      assert expected.header == block.header;
    }
  }

  /**
   The state root covers balances, nonces, tasks, mention counts, names and the index up to its block
   hashes, and nothing else.
   */
  lemma RootCovers(s: Snapshot, t: Snapshot)
    ensures Rooted(s) == Rooted(t) <==>
      && s.balances == t.balances && s.nonces == t.nonces && s.tasks == t.tasks
      && s.mentions == t.mentions && s.names == t.names
      && s.index.Keys == t.index.Keys
      && forall url :: url in s.index ==> s.index[url].(blockHash := t.index[url].blockHash) == t.index[url]
  {
    if Rooted(s) == Rooted(t) {
      assert Blanked(s.index).Keys == s.index.Keys && Blanked(t.index).Keys == t.index.Keys;
      forall url | url in s.index
        ensures s.index[url].(blockHash := t.index[url].blockHash) == t.index[url]
      {
        assert Blanked(s.index)[url] == Blanked(t.index)[url];
      }
    }
    if s.index.Keys == t.index.Keys
       && forall url :: url in s.index ==> s.index[url].(blockHash := t.index[url].blockHash) == t.index[url] {
      forall url | url in s.index
        ensures Blank(s.index[url]) == Blank(t.index[url])
      {
        assert t.index[url] == s.index[url].(blockHash := t.index[url].blockHash);
      }
    }
  }

  function LedgerRules(net: Network): Rules {
    Rules((parent, state, block) => PrepareBlock(net, parent, state, block), net.headerHash)
  }

  /** The ledger's preparation is what the block tree needs, provided header digests do not collide. */
  lemma LedgerRulesSound(net: Network)
    requires CollisionFree(net.headerHash)
    ensures Sound(LedgerRules(net))
  {
    hide ApplyTransactions, ApplyProofs, StampAll, Work.BlockWork, Rooted;
    var rules := LedgerRules(net);
    forall parent, state, block | rules.prepare(parent, state, block).Ok?
      ensures PreparedFits(rules.hashOf, parent, block, rules.prepare(parent, state, block).value)
    {
      assert rules.prepare(parent, state, block) == PrepareBlock(net, parent, state, block);
    }
    forall parent, state, block
      ensures rules.prepare(parent, state, block) != Err(BlockNotFound)
    {
      assert rules.prepare(parent, state, block) == PrepareBlock(net, parent, state, block);
      PrepareErrors(net, parent, state, block);
    }
  }

  lemma {:induction false} TransactionsErrors(net: Network, s: Snapshot, txs: seq<Transaction>)
    ensures ApplyTransactions(net, s, txs) != Err(BlockNotFound)
    decreases |txs|
  {
    hide ApplyTransaction;
    if txs != [] {
      TransactionsErrors(net, s, txs[..|txs| - 1]);
      if ApplyTransactions(net, s, txs[..|txs| - 1]).Ok? {
        OneNonce(net.env, ApplyTransactions(net, s, txs[..|txs| - 1]).value.state, txs[|txs| - 1], net.architect);
      }
    }
  }

  lemma {:induction false} ProofsErrors(net: Network, s: Snapshot, proofs: seq<CrawlProof>)
    ensures ApplyProofs(net, s, proofs) != Err(BlockNotFound)
    decreases |proofs|
  {
    hide ApplyCrawlProof;
    if proofs != [] {
      ProofsErrors(net, s, proofs[..|proofs| - 1]);
      if ApplyProofs(net, s, proofs[..|proofs| - 1]).Ok? {
        ProofErrors(net.env, ApplyProofs(net, s, proofs[..|proofs| - 1]).value.state, proofs[|proofs| - 1], "");
      }
    }
  }

  /** Preparation never answers that a block is missing. */
  lemma PrepareErrors(net: Network, parent: Block, s: Snapshot, block: Block)
    ensures PrepareBlock(net, parent, s, block) != Err(BlockNotFound)
  {
    hide ApplyTransactions, ApplyProofs, StampAll, Rooted, Expected;
    TransactionsErrors(net, s, block.body.transactions);
    if ApplyTransactions(net, s, block.body.transactions).Ok? {
      ProofsErrors(net, ApplyTransactions(net, s, block.body.transactions).value.state, block.body.proofs);
    }
  }

  // ---------------------------------------------------------------- what preparation keeps

  /** Money is sound, the mention cache is true, and the crawl frontier is bounded. */
  ghost predicate LedgerInv(s: Snapshot) {
    MoneyInv(s) && MentionInv(s) && FrontierInv(s.tasks)
  }

  lemma {:induction false} TransactionsKeepInv(net: Network, s: Snapshot, txs: seq<Transaction>)
    requires LedgerInv(s) && ApplyTransactions(net, s, txs).Ok?
    ensures var r := ApplyTransactions(net, s, txs).value.state; LedgerInv(r) && Supply(r) <= Supply(s)
    decreases |txs|
  {
    hide MoneyInv, MentionInv, FrontierInv, ApplyTransaction, Supply;
    if txs != [] {
      TransactionsKeepInv(net, s, txs[..|txs| - 1]);
      var before, tx := ApplyTransactions(net, s, txs[..|txs| - 1]).value.state, txs[|txs| - 1];
      TransactionKeepsMoney(net.env, before, tx, net.architect);
      TransactionKeepsMentions(net.env, before, tx, net.architect);
      TransactionKeepsFrontier(net.env, before, tx, net.architect);
      TransactionSupply(net.env, before, tx, net.architect);
      NetIsNonNegative(net.env, before, tx, net.architect);
    }
  }

  lemma NetIsNonNegative(env: Env, s: Snapshot, raw: Transaction, configured: string)
    requires EnvSound(env) && ApplyTransaction(env, s, raw, configured).Ok?
    ensures ApplyTransaction(env, s, raw, configured).value.net >= 0
  {
    hide ApplyTransaction, AddressOfKey, NormalizeTransaction, NormalizedArchitect, Credit, Debit, BalanceOf,
      ArchitectFee;
    TransactionMoves(env, s, raw, configured);
    FeeBounds(Parsed(ApplyTransaction(env, s, raw, configured).value.tx.value).value);
  }

  /** Every proof's page is in the index afterwards. */
  ghost predicate PagesIndexed(index: map<string, SearchRecord>, proofs: seq<CrawlProof>) {
    forall i :: 0 <= i < |proofs| ==> proofs[i].url in index
  }

  lemma {:induction false} ProofsKeepInv(net: Network, s: Snapshot, proofs: seq<CrawlProof>)
    requires LedgerInv(s) && ApplyProofs(net, s, proofs).Ok?
    ensures var r := ApplyProofs(net, s, proofs).value;
      LedgerInv(r.state) && Supply(r.state) == Supply(s) && PagesIndexed(r.state.index, r.proofs)
    decreases |proofs|
  {
    hide MoneyInv, MentionInv, FrontierInv, ApplyCrawlProof, Supply, IndexRecord, AddMentions, SubtractMentions,
      SpawnTargets, AddSpawned, Credit, Debit, BalanceOf;
    if proofs != [] {
      ProofsKeepInv(net, s, proofs[..|proofs| - 1]);
      var before, proof := ApplyProofs(net, s, proofs[..|proofs| - 1]).value.state, proofs[|proofs| - 1];
      ProofKeepsMoney(net.env, before, proof, "");
      ProofKeepsMentions(net.env, before, proof, "");
      ProofKeepsFrontier(net.env, before, proof, "");
      ProofSupply(net.env, before, proof, "");
      ProofPays(net.env, before, proof, "");
    }
  }

  /** Stamping changes nothing but block hashes. */
  lemma {:induction false} StampOnlyStamps(index: map<string, SearchRecord>, proofs: seq<CrawlProof>, hash: string)
    ensures var r := StampAll(index, proofs, hash);
      && r.Keys == index.Keys
      && (forall url :: url in index ==> Blank(r[url]) == Blank(index[url]))
      && (forall i :: 0 <= i < |proofs| && proofs[i].url in index ==> r[proofs[i].url].blockHash == hash)
    decreases |proofs|
  {
    hide Blank, Stamp;
    if proofs != [] {
      StampOnlyStamps(index, proofs[..|proofs| - 1], hash);
      var before := StampAll(index, proofs[..|proofs| - 1], hash);
      var url := proofs[|proofs| - 1].url;
      if url in before {
        StampBlank(before[url], before[url], hash);
      }
    }
  }

  /** The records of other pages are left alone. */
  lemma {:induction false} StampLeavesOthers(index: map<string, SearchRecord>, proofs: seq<CrawlProof>, hash: string,
                                             url: string)
    requires url in index && forall i :: 0 <= i < |proofs| ==> proofs[i].url != url
    ensures url in StampAll(index, proofs, hash) && StampAll(index, proofs, hash)[url] == index[url]
    decreases |proofs|
  {
    hide Stamp;
    if proofs != [] {
      StampLeavesOthers(index, proofs[..|proofs| - 1], hash, url);
    }
  }

  lemma StampBlank(r: SearchRecord, other: SearchRecord, hash: string)
    ensures Blank(Stamp(r, hash)) == Blank(r) && Stamp(r, hash).blockHash == hash
    ensures Blank(r) == Blank(other) ==> r.termCounts == other.termCounts
  {
  }

  lemma MoneyIgnoresIndex(s: Snapshot, t: Snapshot)
    requires s.balances == t.balances && s.tasks == t.tasks
    ensures MoneyInv(s) ==> MoneyInv(t)
  {
  }

  /** The state root and the ledger invariant do not see the stamped hashes. */
  lemma StampIsInvisible(s: Snapshot, proofs: seq<CrawlProof>, hash: string)
    ensures var t := s.(index := StampAll(s.index, proofs, hash));
      && Rooted(t) == Rooted(s) && Supply(t) == Supply(s) && (LedgerInv(s) ==> LedgerInv(t))
  {
    var index := StampAll(s.index, proofs, hash);
    var t := s.(index := index);
    StampOnlyStamps(s.index, proofs, hash);
    hide StampAll, Blank, MoneyInv, FrontierInv;
    assert MoneyInv(s) ==> MoneyInv(t) by {
      MoneyIgnoresIndex(s, t);
    }
    assert Blanked(index) == Blanked(s.index);
    forall term: string
      ensures TrueMentions(index, term) == TrueMentions(s.index, term)
    {
      forall url | url in index
        ensures CountIn(term)(index[url]) == CountIn(term)(s.index[url])
      {
        StampBlank(index[url], s.index[url], hash);
      }
      TotalSame(index, CountIn(term), s.index, CountIn(term));
    }
    if LedgerInv(s) {
      forall url | url in index
        ensures PositiveCounts(index[url].termCounts)
      {
        StampBlank(index[url], s.index[url], hash);
      }
    }
  }

  /** A prepared block's header roots its own snapshot, stamped hashes and all, and preparation keeps the invariant. */
  lemma PreparedKeepsInv(net: Network, parent: Block, parentState: Snapshot, block: Block)
    requires PrepareBlock(net, parent, parentState, block).Ok? && LedgerInv(parentState)
    ensures var p := PrepareBlock(net, parent, parentState, block).value;
      && LedgerInv(p.state)
      && Supply(p.state) <= Supply(parentState)
      && p.block.header.stateRoot == net.rootHash(Rooted(p.state))
      && (forall i :: 0 <= i < |p.block.body.proofs| ==>
            && p.block.body.proofs[i].url in p.state.index
            && p.state.index[p.block.body.proofs[i].url].blockHash == p.block.hash)
  {
    hide ApplyTransactions, ApplyProofs, StampAll, Work.BlockWork, Rooted, LedgerInv, Supply;
    var afterTxs := ApplyTransactions(net, parentState, block.body.transactions).value;
    var afterProofs := ApplyProofs(net, afterTxs.state, block.body.proofs).value;
    var hash := PrepareBlock(net, parent, parentState, block).value.block.hash;
    TransactionsKeepInv(net, parentState, block.body.transactions);
    ProofsKeepInv(net, afterTxs.state, block.body.proofs);
    StampIsInvisible(afterProofs.state, afterProofs.proofs, hash);
    StampOnlyStamps(afterProofs.state.index, afterProofs.proofs, hash);
  }

  // ---------------------------------------------------------------- every stored snapshot

  /** What is asked of the genesis. */
  ghost predicate GenesisSound(net: Network, g: Genesis) {
    LedgerInv(g.state) && g.block.header.stateRoot == net.rootHash(Rooted(g.state))
  }

  /**
   In every valid chain, whatever was mined, imported or reorganised, every stored snapshot
   keeps the ledger invariant, its block's state root is the root of that snapshot, and money
   was never created.
   */
  lemma {:induction false} EverySnapshotSound(net: Network, g: Genesis, rcv: map<string, Block>, db: Store, h: string)
    requires GenesisSound(net, g) && Replays(LedgerRules(net), g, rcv, db) && h in db.blocks
    ensures LedgerInv(db.snapshots[h])
    ensures db.blocks[h].header.stateRoot == net.rootHash(Rooted(db.snapshots[h]))
    ensures Supply(db.snapshots[h]) <= Supply(g.state)
    decreases db.blocks[h].header.number
  {
    hide LedgerInv, Rooted, Supply, PrepareBlock;
    if h != g.block.hash {
      var parent := db.blocks[h].header.parentHash;
      assert IsChild(db.blocks, h);
      assert Derived(LedgerRules(net), rcv, db, h);
      EverySnapshotSound(net, g, rcv, db, parent);
      assert PrepareBlock(net, db.blocks[parent], db.snapshots[parent], rcv[h])
          == LedgerRules(net).prepare(db.blocks[parent], db.snapshots[parent], rcv[h]);
      PreparedKeepsInv(net, db.blocks[parent], db.snapshots[parent], rcv[h]);
    }
  }

  // ---------------------------------------------------------------- the loops

  method TransactionLoop(net: Network, parentState: Snapshot, txs: seq<Transaction>) returns (r: Result<TxsApplied>)
    ensures r == ApplyTransactions(net, parentState, txs)
  {
    hide ApplyTransaction;
    var snapshot, normalized := parentState, [];
    for i := 0 to |txs|
      invariant ApplyTransactions(net, parentState, txs[..i]) == Ok(TxsApplied(normalized, snapshot))
    {
      assert txs[..i + 1][..i] == txs[..i];
      var result := ApplyTransaction(net.env, snapshot, txs[i], net.architect);
      if result.Err? {
        FirstFailure(net, parentState, txs, i + 1);
        return Err(result.error);
      }
      normalized := normalized + [result.value.tx];
      snapshot := result.value.state;
    }
    assert txs[..|txs|] == txs;
    r := Ok(TxsApplied(normalized, snapshot));
  }

  /** Once a prefix fails, every longer prefix fails with the same error. */
  lemma {:induction false} FirstFailure(net: Network, s: Snapshot, txs: seq<Transaction>, n: nat)
    requires n <= |txs| && ApplyTransactions(net, s, txs[..n]).Err?
    ensures ApplyTransactions(net, s, txs) == ApplyTransactions(net, s, txs[..n])
    decreases |txs|
  {
    hide ApplyTransaction;
    if n == |txs| {
      assert txs[..n] == txs;
    } else {
      assert txs[..|txs| - 1][..n] == txs[..n];
      FirstFailure(net, s, txs[..|txs| - 1], n);
    }
  }

  method ProofLoop(net: Network, start: Snapshot, proofs: seq<CrawlProof>) returns (r: Result<ProofsApplied>)
    ensures r == ApplyProofs(net, start, proofs)
  {
    hide ApplyCrawlProof;
    var snapshot, normalized := start, [];
    for i := 0 to |proofs|
      invariant ApplyProofs(net, start, proofs[..i]) == Ok(ProofsApplied(normalized, snapshot))
    {
      assert proofs[..i + 1][..i] == proofs[..i];
      var result := ApplyCrawlProof(net.env, snapshot, proofs[i], "");
      if result.Err? {
        FirstProofFailure(net, start, proofs, i + 1);
        return Err(result.error);
      }
      normalized := normalized + [result.value.proof];
      snapshot := result.value.state;
    }
    assert proofs[..|proofs|] == proofs;
    r := Ok(ProofsApplied(normalized, snapshot));
  }

  lemma {:induction false} FirstProofFailure(net: Network, s: Snapshot, proofs: seq<CrawlProof>, n: nat)
    requires n <= |proofs| && ApplyProofs(net, s, proofs[..n]).Err?
    ensures ApplyProofs(net, s, proofs) == ApplyProofs(net, s, proofs[..n])
    decreases |proofs|
  {
    hide ApplyCrawlProof;
    if n == |proofs| {
      assert proofs[..n] == proofs;
    } else {
      assert proofs[..|proofs| - 1][..n] == proofs[..n];
      FirstProofFailure(net, s, proofs[..|proofs| - 1], n);
    }
  }

  method StampLoop(index: map<string, SearchRecord>, proofs: seq<CrawlProof>, hash: string)
    returns (out: map<string, SearchRecord>)
    ensures out == StampAll(index, proofs, hash)
  {
    out := index;
    for i := 0 to |proofs|
      invariant out == StampAll(index, proofs[..i], hash)
    {
      assert proofs[..i + 1][..i] == proofs[..i];
      if proofs[i].url in out {
        out := out[proofs[i].url := Stamp(out[proofs[i].url], hash)];
      }
    }
    assert proofs[..|proofs|] == proofs;
  }

  /** The body of `prepareBlock`, loop by loop. */
  method PrepareBlockInSteps(net: Network, parent: Block, parentState: Snapshot, block: Block)
    returns (r: Result<Prepared>)
    ensures r == PrepareBlock(net, parent, parentState, block)
  {
    hide ApplyTransactions, ApplyProofs, StampAll, Work.BlockWork, Expected, ClaimsHold;
    if block.header.number != parent.header.number + 1 || block.header.parentHash != parent.hash {
      return Err(InvalidBlock);
    }
    var txs := TransactionLoop(net, parentState, block.body.transactions);
    if txs.Err? {
      return Err(txs.error);
    }
    var work := Work.ComputeBlockWork(net.env, txs.value.state.tasks, txs.value.txs, block.body.proofs);
    if work.Err? {
      return Err(work.error);
    }
    Work.WorkNonNegative(net.env, txs.value.state.tasks, txs.value.txs, block.body.proofs);
    var proofs := ProofLoop(net, txs.value.state, block.body.proofs);
    if proofs.Err? {
      return Err(proofs.error);
    }
    var snapshot := proofs.value.state;
    var expected := Expected(net, parent, block, txs.value.txs, proofs.value.proofs, snapshot);
    if !ClaimsHold(block, expected) {
      return Err(InvalidBlock);
    }
    var index := StampLoop(snapshot.index, proofs.value.proofs, expected.hash);
    r := Ok(Prepared(expected, snapshot.(index := index), work.value));
  }
}
