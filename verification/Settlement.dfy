/** Which crawl proofs the ledger accepts, and all that an accepted one changes. */
module Settlement {
  import opened Records
  import opened Ledger
  import opened Money
  import opened Frontier
  import opened Normal
  import opened Admission
  import Text

  // ---------------------------------------------------------------- what a proof must satisfy

  /** The digest over the proof's task, page and content. */
  function DigestOf(env: Env, raw: CrawlProof): string {
    env.proofHash(Text.Trim(raw.taskId), Text.Trim(raw.url), Text.Trim(raw.page.contentHash), raw.page.simHash)
  }

  /** Task, page and miner are named, and the digest is right or left out. */
  ghost predicate WellFormed(env: Env, raw: CrawlProof) {
    && Text.Trim(raw.taskId) != "" && Text.Trim(raw.url) != "" && Text.Trim(raw.miner) != ""
    && raw.proofHash in {"", DigestOf(env, raw)}
  }

  /** The proof claims the amounts of an unsettled task, which the escrow can pay. */
  ghost predicate Payable(s: Snapshot, raw: CrawlProof) {
    var id := Text.Trim(raw.taskId);
    && id in s.tasks && !s.tasks[id].completed
    && raw.gross == Plain(s.tasks[id].gross) && raw.fee == Plain(s.tasks[id].fee)
    && raw.reward == Plain(s.tasks[id].reward)
    && (if "UFI_SEARCH_ESCROW" in s.balances then s.balances["UFI_SEARCH_ESCROW"] else 0) >= s.tasks[id].reward
  }

  /** A well-formed proof in its stored form. */
  ghost predicate StoredProof(env: Env, raw: CrawlProof, p: CrawlProof) {
    && p.taskId == Text.Trim(raw.taskId) && p.taskTxHash == Text.Trim(raw.taskTxHash)
    && p.query == Text.Trim(raw.query) && p.url == Text.Trim(raw.url) && p.miner == Text.Trim(raw.miner)
    && StoredPage(raw.page, p.page)
    && p.proofHash == DigestOf(env, raw)
    && p.gross == raw.gross && p.fee == raw.fee && p.reward == raw.reward && p.createdAt == raw.createdAt
  }

  lemma NormalExactly(env: Env, raw: CrawlProof)
    ensures NormalizeProof(env, raw).Ok? <==> WellFormed(env, raw)
    ensures NormalizeProof(env, raw).Ok? ==> StoredProof(env, raw, NormalizeProof(env, raw).value)
  {
    PageIsStored(raw.page);
    PageDigest(raw.page);
    hide NormalizePage, StoredPage, Text.Trim;
  }

  lemma PageDigest(page: Page)
    ensures NormalizePage(page).contentHash == Text.Trim(page.contentHash)
    ensures NormalizePage(page).simHash == page.simHash
  {
    hide Text.Trim, TruncateUtf8, TruncateLinks, Utf8Bytes;
  }

  /** A proof is accepted if and only if it is well-formed and payable. */
  lemma ProofAcceptedExactly(env: Env, s: Snapshot, raw: CrawlProof, blockHash: string)
    ensures ApplyCrawlProof(env, s, raw, blockHash).Ok? <==> WellFormed(env, raw) && Payable(s, raw)
  {
    NormalExactly(env, raw);
    hide NormalizeProof, WellFormed, StoredPage, IndexPage, IndexRecord, SpawnTargets, AddSpawned, Credit, Debit,
      Text.Trim, DigestOf;
  }

  // ---------------------------------------------------------------- what a proof changes

  lemma {:induction false} CountIsMultiplicity(terms: seq<string>, t: string)
    ensures CountOf(terms, t) == multiset(terms)[t]
  {
    if terms != [] {
      assert terms == [terms[0]] + terms[1..];
      CountIsMultiplicity(terms[1..], t);
    }
  }

  /** The counts are those of the tokens, no more and no less. */
  ghost predicate CountsTokens(counts: map<string, nat>, tokens: seq<string>) {
    && (forall t :: t in counts <==> t in tokens)
    && (forall t :: t in counts ==> counts[t] == multiset(tokens)[t])
  }

  lemma TermsAreCounted(terms: seq<string>)
    ensures CountsTokens(TermCounts(terms), terms)
  {
    forall t | t in terms
      ensures CountOf(terms, t) == multiset(terms)[t]
    {
      CountIsMultiplicity(terms, t);
    }
  }

  /** The search record of a proof: its page as stored, and the tokens of its query, title and body counted. */
  ghost predicate IsRecord(env: Env, p: CrawlProof, blockHash: string, r: SearchRecord) {
    && r.taskId == p.taskId && r.url == p.url && r.query == p.query
    && r.title == p.page.title && r.snippet == p.page.snippet && r.body == p.page.body
    && r.bodyBytes == p.page.bodyBytes && r.contentHash == p.page.contentHash && r.simHash == p.page.simHash
    && r.indexedAt == p.createdAt && r.indexedBy == p.miner && r.proofHash == p.proofHash && r.blockHash == blockHash
    && CountsTokens(r.termCounts, env.tokens(r.query + " " + r.title + " " + r.body))
  }

  lemma RecordIs(env: Env, p: CrawlProof, blockHash: string)
    ensures IsRecord(env, p, blockHash, IndexRecord(env, p, blockHash))
  {
    TermsAreCounted(env.tokens(p.query + " " + p.page.title + " " + p.page.body));
    hide CountsTokens, TermCounts;
  }

  /** Neither the proof's own page, nor indexed, nor the target of another active task. */
  ghost predicate NewPage(s: Snapshot, p: CrawlProof, own: string, target: string) {
    && target != p.url && target !in s.index
    && forall id :: id in s.tasks && id != own && !s.tasks[id].completed ==> s.tasks[id].url != target
  }

  /** The tasks after a proof: its own is settled, and new links of its page became follow-on tasks. */
  ghost predicate Settles(env: Env, s: Snapshot, p: CrawlProof, spawned: seq<string>, tasks: map<string, Task>)
    requires p.taskId in s.tasks
  {
    var task := s.tasks[p.taskId];
    var done := task.(completed := true, completedAt := p.createdAt, proofHash := p.proofHash, minedBy := p.miner);
    var settled := s.tasks[task.id := done];
    && (forall id :: id in settled ==> id in tasks)
    && (forall id :: id in tasks ==>
          || (id in settled && tasks[id] == settled[id])
          || (exists x :: x in spawned && IsFollowOn(env, done, p, x, tasks[id]) && tasks[id].id == id))
    && (forall x :: x in spawned ==>
          env.taskId(Text.Trim(task.id), task.depth + 1, Text.Trim(x)) in tasks)
    && |spawned| <= 4
    && (forall x :: x in spawned ==> NewPage(s, p, task.id, x))
  }

  /** Everything that an accepted proof changes. */
  ghost predicate ProofChanges(env: Env, s: Snapshot, a: AppliedProof, blockHash: string) {
    var p, after := a.proof, a.state;
    && p.taskId in s.tasks
    && var reward := s.tasks[p.taskId].reward;
    && PaysOut(s.balances, after.balances, "UFI_SEARCH_ESCROW", reward, "", 0, p.miner, reward)
    && p.url in after.index && after.index == s.index[p.url := after.index[p.url]]
    && IsRecord(env, p, blockHash, after.index[p.url])
    && Settles(env, s, p, a.spawned, after.tasks)
    && after.nonces == s.nonces && after.names == s.names
    && after.contracts == s.contracts && after.contractData == s.contractData
  }

  lemma ProofPaysOut(s: Snapshot, reward: int, miner: string)
    ensures PaysOut(s.balances, Credit(Debit(s.balances, SEARCH_ESCROW, reward), miner, reward),
                    "UFI_SEARCH_ESCROW", reward, "", 0, miner, reward)
  {
    DebitMoves(s.balances, SEARCH_ESCROW, reward);
    CreditMoves(Debit(s.balances, SEARCH_ESCROW, reward), miner, reward);
    hide Debit, Credit, BalanceOf;
  }

  lemma TasksSettle(env: Env, s: Snapshot, p: CrawlProof, indexed: Snapshot, spawned: seq<string>)
    requires p.taskId in s.tasks && Text.Trim(p.url) == p.url
    requires var task := s.tasks[p.taskId];
      && indexed.tasks == s.tasks[task.id := Settled(task, p)] && indexed.index.Keys == s.index.Keys + {p.url}
      && spawned == SpawnTargets(env, indexed, Settled(task, p), p)
    ensures var task := s.tasks[p.taskId];
      Settles(env, s, p, spawned, AddSpawned(env, indexed.tasks, Settled(task, p), p, spawned))
  {
    hide *;
    var done := Settled(s.tasks[p.taskId], p);
    SpawnedAre(env, indexed.tasks, done, p, spawned);
    TargetsQualify(env, indexed, done, p);
    TargetsFill(env, indexed, done, p);
    SettledKeeps(s.tasks[p.taskId], p);
    forall x | x in spawned
      ensures NewPage(s, p, s.tasks[p.taskId].id, x)
    {
      QualifiesAsNew(env, s, p, indexed, x);
    }
    SettlesFrom(env, s, p, spawned, AddSpawned(env, indexed.tasks, done, p, spawned));
  }

  lemma SettledKeeps(task: Task, p: CrawlProof)
    ensures Settled(task, p)
         == task.(completed := true, completedAt := p.createdAt, proofHash := p.proofHash, minedBy := p.miner)
  {
  }

  lemma SettlesFrom(env: Env, s: Snapshot, p: CrawlProof, spawned: seq<string>, tasks: map<string, Task>)
    requires p.taskId in s.tasks
    requires var task := s.tasks[p.taskId];
      var done := task.(completed := true, completedAt := p.createdAt, proofHash := p.proofHash, minedBy := p.miner);
      var settled := s.tasks[task.id := done];
      && (forall id :: id in settled ==> id in tasks)
      && (forall id :: id in tasks ==>
            || (id in settled && tasks[id] == settled[id])
            || (exists x :: x in spawned && IsFollowOn(env, done, p, x, tasks[id]) && tasks[id].id == id))
      && (forall x :: x in spawned ==> env.taskId(Text.Trim(task.id), task.depth + 1, Text.Trim(x)) in tasks)
      && |spawned| <= 4
      && (forall x :: x in spawned ==> NewPage(s, p, task.id, x))
    ensures Settles(env, s, p, spawned, tasks)
  {
    hide IsFollowOn, NewPage, Text.Trim;
  }

  lemma QualifiesAsNew(env: Env, s: Snapshot, p: CrawlProof, indexed: Snapshot, target: string)
    requires p.taskId in s.tasks && Text.Trim(p.url) == p.url
    requires var task := s.tasks[p.taskId];
      && indexed.tasks == s.tasks[task.id := Settled(task, p)] && indexed.index.Keys == s.index.Keys + {p.url}
      && Qualifies(env, indexed, Settled(task, p), p, target)
    ensures NewPage(s, p, s.tasks[p.taskId].id, target)
  {
    hide Text.Trim;
    var task := s.tasks[p.taskId];
    forall id | id in s.tasks && id != task.id && !s.tasks[id].completed
      ensures s.tasks[id].url != target
    {
      assert id in indexed.tasks && indexed.tasks[id] == s.tasks[id];
    }
    assert target !in indexed.index.Keys;
  }

  /** Every target qualifies. */
  lemma TargetsQualify(env: Env, s: Snapshot, parent: Task, proof: CrawlProof)
    ensures forall x :: x in SpawnTargets(env, s, parent, proof) ==> Qualifies(env, s, parent, proof, x)
  {
    var found := CandidateLinks(env, s, parent, proof, proof.page.outboundLinks, {});
    SortLinksKeeps(env, parent, proof, found);
    forall x | x in SpawnTargets(env, s, parent, proof)
      ensures Qualifies(env, s, parent, proof, x)
    {
      assert x in SortLinks(env, parent, proof, found);
      assert x in multiset(SortLinks(env, parent, proof, found));
      assert x in found;
      CandidatesExactly(env, s, parent, proof, proof.page.outboundLinks, {}, x);
    }
    hide CandidateLinks, SortLinks, Qualifies, ActiveAutonomous;
  }

  /** Every field that a proof does not name is left alone. */
  lemma ProofLeaves(env: Env, s: Snapshot, raw: CrawlProof, blockHash: string)
    requires ApplyCrawlProof(env, s, raw, blockHash).Ok?
    ensures var after := ApplyCrawlProof(env, s, raw, blockHash).value.state;
      && after.nonces == s.nonces && after.names == s.names
      && after.contracts == s.contracts && after.contractData == s.contractData
    ensures NormalizeProof(env, raw) == Ok(ApplyCrawlProof(env, s, raw, blockHash).value.proof)
  {
    hide NormalizeProof, IndexRecord, SpawnTargets, AddSpawned, Credit, Debit, AddMentions, SubtractMentions,
      AmountsMismatch, BalanceOf;
  }

  lemma IndexedAfter(s: Snapshot, url: string, record: SearchRecord)
    ensures var r := IndexPage(s, url, record);
      r.index == s.index[url := record] && r.index.Keys == s.index.Keys + {url} && r.index[url] == record
  {
    hide AddMentions, SubtractMentions;
  }

  lemma AppliedProofChanges(env: Env, s: Snapshot, raw: CrawlProof, blockHash: string)
    requires ApplyCrawlProof(env, s, raw, blockHash).Ok?
    ensures var a := ApplyCrawlProof(env, s, raw, blockHash).value;
      StoredProof(env, raw, a.proof) && ProofChanges(env, s, a, blockHash)
  {
    ProofPays(env, s, raw, blockHash);
    ProofLeaves(env, s, raw, blockHash);
    NormalExactly(env, raw);
    var a := ApplyCrawlProof(env, s, raw, blockHash).value;
    hide ApplyCrawlProof, NormalizeProof, WellFormed, StoredPage, IndexPage, IndexRecord, SpawnTargets, AddSpawned,
      Credit, Debit, BalanceOf, PaysOut, IsRecord, Settles, DigestOf, Text.Trim;
    var p := a.proof;
    var task := s.tasks[p.taskId];
    ProofPaysOut(s, task.reward, p.miner);
    RecordIs(env, p, blockHash);
    IndexedAfter(s, p.url, IndexRecord(env, p, blockHash));
    TrimAgain(raw.url);
    var indexed := IndexPage(s, p.url, IndexRecord(env, p, blockHash));
    TasksSettle(env, s, p, indexed.(balances := a.state.balances, tasks := s.tasks[task.id := Settled(task, p)]),
                 a.spawned);
  }
}
