/** What a peer makes of a broadcast block whose recorded proofs do not stay or score as they did at the miner. */
module Splits {
  import opened Records
  import opened Ledger
  import opened Chain
  import opened Node
  import opened Mentions
  import opened Normal
  import opened Rebroadcast
  import Work
  import Totals
  import Text

  /** The ledgers agree but for the contents of search records and the counts taken from them. */
  ghost predicate SameBut(s: Snapshot, t: Snapshot) {
    t == s.(index := t.index, mentions := t.mentions) && t.index.Keys == s.index.Keys
  }

  // ---------------------------------------------------------------- follow-on tasks do not depend on page texts

  lemma {:induction false} SameCandidates(env: Env, s: Snapshot, t: Snapshot, parent: Task, p: CrawlProof,
                                          q: CrawlProof, links: seq<string>, seen: set<string>)
    requires SameBut(s, t) && p.url == q.url
    ensures CandidateLinks(env, t, parent, q, links, seen) == CandidateLinks(env, s, parent, p, links, seen)
    decreases |links|
  {
    hide Text.Trim, HasActiveUrl;
    if links != [] {
      SameCandidates(env, s, t, parent, p, q, links[1..], seen);
      if env.normalizeUrl(links[0]).Some? {
        SameCandidates(env, s, t, parent, p, q, links[1..], seen + {env.normalizeUrl(links[0]).value});
      }
    }
  }

  lemma {:induction false} SameInsert(env: Env, parent: Task, p: CrawlProof, q: CrawlProof, x: string, xs: seq<string>)
    requires p.url == q.url
    ensures InsertLink(env, parent, q, x, xs) == InsertLink(env, parent, p, x, xs)
  {
    hide RanksBefore;
    if xs != [] {
      SameInsert(env, parent, p, q, x, xs[1..]);
    }
  }

  lemma {:induction false} SameSort(env: Env, parent: Task, p: CrawlProof, q: CrawlProof, xs: seq<string>)
    requires p.url == q.url
    ensures SortLinks(env, parent, q, xs) == SortLinks(env, parent, p, xs)
  {
    hide InsertLink;
    if xs != [] {
      SameSort(env, parent, p, q, xs[1..]);
      SameInsert(env, parent, p, q, xs[0], SortLinks(env, parent, p, xs[1..]));
    }
  }

  lemma SameTargets(env: Env, s: Snapshot, t: Snapshot, parent: Task, p: CrawlProof, q: CrawlProof)
    requires SameBut(s, t) && p.url == q.url && p.page.outboundLinks == q.page.outboundLinks
    ensures SpawnTargets(env, t, parent, q) == SpawnTargets(env, s, parent, p)
  {
    hide CandidateLinks, SortLinks, ActiveAutonomous;
    var links := p.page.outboundLinks;
    SameCandidates(env, s, t, parent, p, q, links, {});
    SameSort(env, parent, p, q, CandidateLinks(env, s, parent, p, links, {}));
  }

  lemma {:induction false} SameSpawned(env: Env, tasks: map<string, Task>, parent: Task, p: CrawlProof, q: CrawlProof,
                                       targets: seq<string>)
    requires p.createdAt == q.createdAt
    ensures AddSpawned(env, tasks, parent, q, targets) == AddSpawned(env, tasks, parent, p, targets)
    decreases |targets|
  {
    hide Text.Trim;
    if targets != [] {
      var t := SpawnedTask(env, parent, p, targets[0]);
      SameSpawned(env, tasks[t.id := t], parent, p, q, targets[1..]);
    }
  }

  // ---------------------------------------------------------------- normalizing a normal form

  /** Normalizing twice can change only the texts of the page. */
  lemma RenormalKeeps(env: Env, raw: CrawlProof)
    requires NormalizeProof(env, raw).Ok?
    ensures var q := NormalForm(env, raw);
      && NormalizeProof(env, q) == Ok(q.(page := NormalizePage(q.page)))
      && NormalizePage(q.page).outboundLinks == q.page.outboundLinks
  {
    hide Text.Trim, NormalizePage;
    TrimAgain(raw.taskId);
    TrimAgain(raw.taskTxHash);
    TrimAgain(raw.url);
    TrimAgain(raw.query);
    TrimAgain(raw.miner);
    HashedFields(raw.page);
    LinksStay(raw.page);
  }

  lemma LinksStay(page: Page)
    ensures NormalizePage(NormalizePage(page)).outboundLinks == NormalizePage(page).outboundLinks
  {
    hide Text.Trim, TruncateUtf8, TruncateLinks, Utf8Bytes;
    TruncateCleans(page.outboundLinks, MAX_OUTBOUND_LINKS, {});
    CleanLinksStay(TruncateLinks(page.outboundLinks, MAX_OUTBOUND_LINKS, {}), MAX_OUTBOUND_LINKS, {});
  }

  /** When a cut left a trailing space, normalizing again changes a text that the search record holds. */
  lemma UncleanChangesRecord(env: Env, raw: CrawlProof)
    requires NormalizeProof(env, raw).Ok? && !CutsClean(raw.page)
    ensures var q := NormalForm(env, raw);
      Blank(IndexRecord(env, NormalForm(env, q), "")) != Blank(IndexRecord(env, q, ""))
  {
    RenormalKeeps(env, raw);
    TextsChange(raw.page);
    hide NormalizePage, CutsClean, TermCounts, NormalizeProof;
    var q := NormalForm(env, raw);
    assert q.page == NormalizePage(raw.page) by {
      PageOfForm(env, raw);
    }
  }

  lemma PageOfForm(env: Env, raw: CrawlProof)
    requires NormalizeProof(env, raw).Ok?
    ensures NormalForm(env, raw).page == NormalizePage(raw.page)
  {
    hide NormalizePage, Text.Trim;
  }

  lemma TextsChange(page: Page)
    requires !CutsClean(page)
    ensures var p := NormalizePage(page);
      var q := NormalizePage(p);
      q.title != p.title || q.snippet != p.snippet || q.body != p.body
  {
    CutSettles(page.title, MAX_TITLE_BYTES);
    CutSettles(page.snippet, MAX_SNIPPET_BYTES);
    CutSettles(page.body, MAX_BODY_BYTES);
    hide Text.Trim, TruncateUtf8, TruncateLinks, Utf8Bytes, EndsClean;
  }

  // ---------------------------------------------------------------- two runs in step

  /** A proof and its normal form, on ledgers that differ only in search records, do the same to the rest. */
  lemma ProofInStep(env: Env, s: Snapshot, t: Snapshot, raw: CrawlProof)
    requires SameBut(s, t) && ApplyCrawlProof(env, s, raw, "").Ok?
    ensures var a, q := ApplyCrawlProof(env, s, raw, "").value, NormalForm(env, raw);
      && a.proof == q && ApplyCrawlProof(env, t, q, "").Ok?
      && var b := ApplyCrawlProof(env, t, q, "").value;
      && b.proof == NormalForm(env, q)
      && SameBut(a.state, b.state)
      && a.state.index == s.index[q.url := IndexRecord(env, q, "")]
      && b.state.index == t.index[q.url := IndexRecord(env, b.proof, "")]
  {
    hide NormalizePage, Text.Trim, ProofDigest, IndexRecord, AddMentions, SubtractMentions, SpawnTargets, AddSpawned,
      Credit, Debit, BalanceOf;
    NormalParts(env, s, raw);
    RenormalKeeps(env, raw);
    var a, q := ApplyCrawlProof(env, s, raw, "").value, NormalForm(env, raw);
    var q' := NormalForm(env, q);
    NormalParts(env, t, q);
    hide NormalizeProof;
    var task := s.tasks[q.taskId];
    var done := Settled(task, q);
    var paid := s.(balances := a.state.balances);
    var s1 := AfterSettling(env, s, q);
    var t1 := AfterSettling(env, t, q');
    SameTargets(env, s1, t1, done, q, q');
    SameSpawned(env, s1.tasks, done, q, q', SpawnTargets(env, s1, done, q));
  }

  /** The ledger after paying, indexing and settling, before follow-on tasks are written. */
  function AfterSettling(env: Env, s: Snapshot, q: CrawlProof): Snapshot
    requires q.taskId in s.tasks
  {
    var task := s.tasks[q.taskId];
    var paid := s.(balances := Credit(Debit(s.balances, SEARCH_ESCROW, task.reward), q.miner, task.reward));
    var indexed := IndexPage(paid, q.url, IndexRecord(env, q, ""));
    indexed.(tasks := indexed.tasks[task.id := Settled(task, q)])
  }

  /** `ApplyCrawlProof` in terms of the normal form. */
  lemma NormalParts(env: Env, s: Snapshot, raw: CrawlProof)
    ensures NormalizeProof(env, raw).Ok? ==>
      var q := NormalForm(env, raw);
      ApplyCrawlProof(env, s, raw, "")
      == (if q.taskId !in s.tasks then Err(TaskNotFound)
          else if s.tasks[q.taskId].completed then Err(TaskSettled)
          else if AmountsMismatch(s.tasks[q.taskId], q).Some? then Err(AmountsMismatch(s.tasks[q.taskId], q).value)
          else if BalanceOf(s.balances, SEARCH_ESCROW) < s.tasks[q.taskId].reward then Err(InsufficientBalance)
          else
            var t := AfterSettling(env, s, q);
            var done := Settled(s.tasks[q.taskId], q);
            var targets := SpawnTargets(env, t, done, q);
            Ok(AppliedProof(q, targets, t.(tasks := AddSpawned(env, t.tasks, done, q, targets)))))
    ensures NormalizeProof(env, raw).Err? ==> ApplyCrawlProof(env, s, raw, "").Err?
  {
    hide NormalizeProof, IndexPage, IndexRecord, SpawnTargets, AddSpawned, AmountsMismatch, Credit, Debit, BalanceOf;
  }

  /** The recorded proofs can be applied in place of the submitted ones, and the ledgers stay in step. */
  lemma {:induction false} ProofsInStep(net: Network, s: Snapshot, proofs: seq<CrawlProof>)
    requires ApplyProofs(net, s, proofs).Ok?
    ensures var a, forms := ApplyProofs(net, s, proofs).value, NormalForms(net.env, proofs);
      && a.proofs == forms && ApplyProofs(net, s, forms).Ok?
      && ApplyProofs(net, s, forms).value.proofs == NormalForms(net.env, forms)
      && SameBut(a.state, ApplyProofs(net, s, forms).value.state)
    decreases |proofs|
  {
    hide *;
    if proofs == [] {
      NoProofs(net, s);
      SameAsSelf(s);
    } else {
      var n := |proofs| - 1;
      var init, proof := proofs[..n], proofs[n];
      assert proofs == init + [proof];
      ProofsStep(net, s, init, proof);
      FormsStep(net.env, init, proof);
      ProofsInStep(net, s, init);
      var forms := NormalForms(net.env, init);
      var a, b := ApplyProofs(net, s, init).value, ApplyProofs(net, s, forms).value;
      var form := NormalForm(net.env, proof);
      ProofInStep(net.env, a.state, b.state, proof);
      ProofsStep(net, s, forms, form);
      FormsStep(net.env, forms, form);
    }
  }

  lemma NoProofs(net: Network, s: Snapshot)
    ensures ApplyProofs(net, s, []) == Ok(ProofsApplied([], s)) && NormalForms(net.env, []) == []
  {
  }

  lemma ProofsStep(net: Network, s: Snapshot, init: seq<CrawlProof>, proof: CrawlProof)
    ensures ApplyProofs(net, s, init + [proof])
         == match ApplyProofs(net, s, init)
            case Err(e) => Err(e)
            case Ok(before) =>
              match ApplyCrawlProof(net.env, before.state, proof, "")
              case Err(e) => Err(e)
              case Ok(a) => Ok(ProofsApplied(before.proofs + [a.proof], a.state))
  {
    hide ApplyCrawlProof;
    assert (init + [proof])[..|init|] == init;
  }

  lemma FormsStep(env: Env, init: seq<CrawlProof>, proof: CrawlProof)
    ensures NormalForms(env, init + [proof]) == NormalForms(env, init) + [NormalForm(env, proof)]
  {
    hide NormalForm;
  }

  lemma SameAsSelf(s: Snapshot)
    ensures SameBut(s, s)
  {
  }

  /** No later proof is for the page of proof `i`. */
  ghost predicate LastOfPage(forms: seq<CrawlProof>, i: nat)
    requires i < |forms|
  {
    forall j :: i < j < |forms| ==> forms[j].url != forms[i].url
  }

  /** The last proof of a page leaves its record in the index. */
  lemma {:induction false} LastRecord(net: Network, s: Snapshot, proofs: seq<CrawlProof>, i: nat)
    requires ApplyProofs(net, s, proofs).Ok? && i < |proofs| && LastOfPage(NormalForms(net.env, proofs), i)
    ensures var a, form := ApplyProofs(net, s, proofs).value, NormalForms(net.env, proofs)[i];
      form.url in a.state.index && a.state.index[form.url] == IndexRecord(net.env, form, "")
    decreases |proofs|
  {
    hide ApplyCrawlProof, NormalForm, IndexRecord;
    var n := |proofs| - 1;
    var init, forms := proofs[..n], NormalForms(net.env, proofs);
    var before := ApplyProofs(net, s, init).value.state;
    SameAsSelf(before);
    ProofInStep(net.env, before, before, proofs[n]);
    if i < n {
      var fewer := NormalForms(net.env, init);
      assert fewer[i] == forms[i];
      assert LastOfPage(fewer, i) by {
        forall j | i < j < n
          ensures fewer[j].url != fewer[i].url
        {
          assert fewer[j] == forms[j];
        }
      }
      LastRecord(net, s, init, i);
    }
  }

  // ---------------------------------------------------------------- the refusal

  ghost predicate RootsDiffer(rootHash: RootView -> string) {
    forall a, b {:trigger rootHash(a), rootHash(b)} :: rootHash(a) == rootHash(b) ==> a == b
  }

  /** One different record makes different roots. */
  lemma RecordsShow(s: Snapshot, t: Snapshot, url: string)
    requires url in s.index && url in t.index && Blank(s.index[url]) != Blank(t.index[url])
    ensures Rooted(s) != Rooted(t)
  {
    hide Blank;
    assert Blanked(s.index)[url] != Blanked(t.index)[url];
  }

  /** What preparing a block with a hash comes to when its state root is another one. */
  lemma WrongRootIsRefused(net: Network, parent: Block, s: Snapshot, block: Block, afterTxs: TxsApplied,
                           afterProofs: ProofsApplied)
    requires block.header.number == parent.header.number + 1 && block.header.parentHash == parent.hash
    requires block.hash != "" && ApplyTransactions(net, s, block.body.transactions) == Ok(afterTxs)
    requires Work.BlockWork(net.env, afterTxs.state.tasks, afterTxs.txs, block.body.proofs).Ok?
    requires ApplyProofs(net, afterTxs.state, block.body.proofs) == Ok(afterProofs)
    requires net.rootHash(Rooted(afterProofs.state)) != block.header.stateRoot
    ensures PrepareBlock(net, parent, s, block) == Err(InvalidBlock)
  {
    hide ApplyTransactions, ApplyProofs, StampAll, Work.BlockWork, Rooted;
  }

  lemma ExpectedRoot(net: Network, parent: Block, raw: Block, txs: seq<Transaction>, proofs: seq<CrawlProof>,
                     s: Snapshot)
    ensures var block := Expected(net, parent, raw, txs, proofs, s);
      block.header.stateRoot == net.rootHash(Rooted(s)) && block.hash == net.headerHash(block.header)
  {
    hide Rooted;
  }

  /**
   When the cut of a submitted text leaves a trailing space, and no later proof of the block is for
   the same page, the block as broadcast is refused by every node that holds its parent.
   */
  lemma UncleanBlockIsRefused(net: Network, parent: Block, s: Snapshot, raw: Block, i: nat)
    requires RootsDiffer(net.rootHash) && CollisionFree(net.headerHash)
    requires PrepareBlock(net, parent, s, raw).Ok?
    requires i < |raw.body.proofs| && !CutsClean(raw.body.proofs[i].page)
    requires LastOfPage(NormalForms(net.env, raw.body.proofs), i)
    ensures PrepareBlock(net, parent, s, PrepareBlock(net, parent, s, raw).value.block) == Err(InvalidBlock)
  {
    hide *;
    var p, proofs := PrepareBlock(net, parent, s, raw).value, raw.body.proofs;
    var forms := NormalForms(net.env, proofs);
    PreparedParts(net, parent, s, raw);
    var afterTxs := ApplyTransactions(net, s, raw.body.transactions).value;
    var a := ApplyProofs(net, afterTxs.state, proofs).value;
    RecordedProofs(net, afterTxs.state, proofs);
    ProofsInStep(net, afterTxs.state, proofs);
    var b := ApplyProofs(net, afterTxs.state, forms).value;
    LastRecord(net, afterTxs.state, proofs, i);
    SameUrls(net.env, forms, i, proofs);
    LastRecord(net, afterTxs.state, forms, i);
    UncleanChangesRecord(net.env, proofs[i]);
    RecordsShow(a.state, b.state, forms[i].url);
    RootsShow(net.rootHash, Rooted(a.state), Rooted(b.state));
    ExpectedRoot(net, parent, raw, afterTxs.txs, a.proofs, a.state);
    ExpectedLinks(net, parent, raw, afterTxs.txs, a.proofs, a.state);
    HashIsNamed(net.headerHash, p.block.header);
    WorkIsScore(net, s, raw, proofs);
    WorkIsScore(net, s, raw, forms);
    RecordedScore(net, s, raw);
    TransactionsAgain(net, s, raw.body.transactions);
    WrongRootIsRefused(net, parent, s, p.block, afterTxs, b);
  }

  lemma RootsShow(rootHash: RootView -> string, a: RootView, b: RootView)
    requires RootsDiffer(rootHash) && a != b
    ensures rootHash(a) != rootHash(b)
  {
  }

  lemma HashIsNamed(hashOf: Header -> string, header: Header)
    requires CollisionFree(hashOf)
    ensures hashOf(header) != ""
  {
  }

  /** Normalizing again keeps the pages and their order. */
  lemma SameUrls(env: Env, forms: seq<CrawlProof>, i: nat, proofs: seq<CrawlProof>)
    requires i < |forms| && LastOfPage(forms, i) && forms == NormalForms(env, proofs)
    requires forall j :: 0 <= j < |proofs| ==> NormalizeProof(env, proofs[j]) == Ok(forms[j])
    ensures LastOfPage(NormalForms(env, forms), i)
    ensures NormalForms(env, forms)[i].url == forms[i].url
    ensures forms[i] == NormalForm(env, proofs[i])
    ensures NormalForms(env, forms)[i] == NormalForm(env, NormalForm(env, proofs[i]))
    ensures NormalizeProof(env, proofs[i]).Ok?
  {
    hide NormalizeProof, NormalizePage;
    var again := NormalForms(env, forms);
    forall j | 0 <= j < |forms|
      ensures again[j].url == forms[j].url
    {
      FormKeepsUrl(env, proofs[j]);
    }
  }

  lemma FormKeepsUrl(env: Env, raw: CrawlProof)
    requires NormalizeProof(env, raw).Ok?
    ensures NormalForm(env, NormalForm(env, raw)).url == NormalForm(env, raw).url
  {
    RenormalKeeps(env, raw);
    hide NormalizeProof, NormalizePage;
  }

  // ---------------------------------------------------------------- exactly when it is accepted

  /** The cuts of each page's last proof in the block leave no trailing space. */
  ghost predicate LastCutsClean(env: Env, proofs: seq<CrawlProof>) {
    |NormalForms(env, proofs)| == |proofs|
    && forall i :: 0 <= i < |proofs| && LastOfPage(NormalForms(env, proofs), i) ==> CutsClean(proofs[i].page)
  }

  /** The last proof of page `url` in the block is number `i`, and one of its cuts leaves a trailing space. */
  ghost predicate UncleanAt(env: Env, proofs: seq<CrawlProof>, url: string, i: nat) {
    && i < |proofs| == |NormalForms(env, proofs)| && LastOfPage(NormalForms(env, proofs), i)
    && NormalForms(env, proofs)[i].url == url && !CutsClean(proofs[i].page)
  }

  lemma CleanKeepsRecord(env: Env, raw: CrawlProof)
    requires NormalizeProof(env, raw).Ok? && CutsClean(raw.page)
    ensures NormalForm(env, NormalForm(env, raw)) == NormalForm(env, raw)
  {
    ProofSettles(env, raw);
    hide NormalizeProof, CutsClean;
  }

  lemma UncleanStays(env: Env, init: seq<CrawlProof>, proof: CrawlProof, url: string, i: nat)
    requires UncleanAt(env, init, url, i) && NormalForm(env, proof).url != url
    ensures UncleanAt(env, init + [proof], url, i)
  {
    FormsStep(env, init, proof);
    hide NormalForm, NormalForms, CutsClean;
    var forms, more := NormalForms(env, init), NormalForms(env, init + [proof]);
    assert more == forms + [NormalForm(env, proof)];
  }

  lemma UncleanEnds(env: Env, init: seq<CrawlProof>, proof: CrawlProof)
    requires !CutsClean(proof.page) && |NormalForms(env, init)| == |init|
    ensures UncleanAt(env, init + [proof], NormalForm(env, proof).url, |init|)
  {
    FormsStep(env, init, proof);
    hide NormalForm, NormalForms, CutsClean;
  }

  /** A record on which the two runs differ is that of a page whose last proof has an unclean cut. */
  lemma {:induction false} DifferenceIsUnclean(net: Network, s: Snapshot, proofs: seq<CrawlProof>, url: string)
    returns (i: nat)
    requires ApplyProofs(net, s, proofs).Ok?
    requires var forms := NormalForms(net.env, proofs);
      && ApplyProofs(net, s, forms).Ok?
      && var a, b := ApplyProofs(net, s, proofs).value.state, ApplyProofs(net, s, forms).value.state;
      && a.index.Keys == b.index.Keys && url in a.index && a.index[url] != b.index[url]
    ensures UncleanAt(net.env, proofs, url, i)
    decreases |proofs|
  {
    hide *;
    i := 0;
    if proofs == [] {
      NoProofs(net, s);
      assert false;
    } else {
      var n := |proofs| - 1;
      var init, proof := proofs[..n], proofs[n];
      assert proofs == init + [proof];
      var forms, form := NormalForms(net.env, init), NormalForm(net.env, proof);
      ProofsStep(net, s, init, proof);
      FormsStep(net.env, init, proof);
      ProofsInStep(net, s, init);
      ProofsStep(net, s, forms, form);
      var a, b := ApplyProofs(net, s, init).value, ApplyProofs(net, s, forms).value;
      ProofInStep(net.env, a.state, b.state, proof);
      NormalAccepted(net.env, a.state, proof);
      FormsCount(net.env, init);
      if form.url != url {
        SameButKeys(a.state, b.state);
        i := DifferenceIsUnclean(net, s, init, url);
        UncleanStays(net.env, init, proof, url, i);
      } else {
        FormKeepsUrl(net.env, proof);
        if CutsClean(proof.page) {
          CleanKeepsRecord(net.env, proof);
          assert false;
        }
        UncleanEnds(net.env, init, proof);
        i := n;
      }
    }
  }

  lemma NormalAccepted(env: Env, s: Snapshot, raw: CrawlProof)
    requires ApplyCrawlProof(env, s, raw, "").Ok?
    ensures NormalizeProof(env, raw).Ok?
  {
    NormalParts(env, s, raw);
    hide ApplyCrawlProof;
  }

  lemma FormsCount(env: Env, proofs: seq<CrawlProof>)
    ensures |NormalForms(env, proofs)| == |proofs|
  {
    hide NormalForm;
  }

  lemma SameButKeys(s: Snapshot, t: Snapshot)
    requires SameBut(s, t)
    ensures s.index.Keys == t.index.Keys
  {
  }

  /** The counts follow from the index. */
  lemma SameIndexSameLedger(s: Snapshot, t: Snapshot)
    requires SameBut(s, t) && s.index == t.index && MentionInv(s) && MentionInv(t)
    ensures s == t
  {
    forall x: string
      ensures x in s.mentions <==> x in t.mentions
      ensures x in s.mentions ==> s.mentions[x] == t.mentions[x]
    {
      assert Counted(s.mentions, x) == TrueMentions(s.index, x) == Counted(t.mentions, x);
    }
    hide TrueMentions;
    assert s.mentions == t.mentions;
  }

  /** With clean last cuts the recorded proofs leave the very ledger that the submitted ones leave. */
  lemma CleanLastsAgree(net: Network, s: Snapshot, proofs: seq<CrawlProof>)
    requires ApplyProofs(net, s, proofs).Ok? && LedgerInv(s) && LastCutsClean(net.env, proofs)
    ensures ApplyProofs(net, s, NormalForms(net.env, proofs)).Ok?
    ensures ApplyProofs(net, s, NormalForms(net.env, proofs)).value.state == ApplyProofs(net, s, proofs).value.state
  {
    hide *;
    ProofsInStep(net, s, proofs);
    var forms := NormalForms(net.env, proofs);
    ProofsKeepInv(net, s, proofs);
    ProofsKeepInv(net, s, forms);
    var a, b := ApplyProofs(net, s, proofs).value.state, ApplyProofs(net, s, forms).value.state;
    SameButKeys(a, b);
    forall url | url in a.index
      ensures a.index[url] == b.index[url]
    {
      if a.index[url] != b.index[url] {
        var i := DifferenceIsUnclean(net, s, proofs, url);
        NoneUnclean(net.env, proofs, url, i);
      }
    }
    assert a.index == b.index;
    CountsAgree(a);
    CountsAgree(b);
    SameIndexSameLedger(a, b);
  }

  lemma NoneUnclean(env: Env, proofs: seq<CrawlProof>, url: string, i: nat)
    requires LastCutsClean(env, proofs)
    ensures !UncleanAt(env, proofs, url, i)
  {
    hide NormalForms, CutsClean, LastOfPage;
  }

  lemma CountsAgree(s: Snapshot)
    requires LedgerInv(s)
    ensures MentionInv(s)
  {
    hide MentionInv;
  }

  lemma {:induction false} SameStamps(index: map<string, SearchRecord>, ps: seq<CrawlProof>, qs: seq<CrawlProof>,
                                      hash: string)
    requires |ps| == |qs| && forall i :: 0 <= i < |ps| ==> ps[i].url == qs[i].url
    ensures StampAll(index, ps, hash) == StampAll(index, qs, hash)
    decreases |ps|
  {
    hide Stamp;
    if ps != [] {
      SameStamps(index, ps[..|ps| - 1], qs[..|qs| - 1], hash);
    }
  }

  /** Proofs with the same digests expect the same header. */
  lemma SameDigests(net: Network, parent: Block, raw: Block, txs: seq<Transaction>, ps: seq<CrawlProof>,
                    qs: seq<CrawlProof>, s: Snapshot)
    requires |ps| == |qs| && forall i :: 0 <= i < |ps| ==> ps[i].proofHash == qs[i].proofHash
    ensures var block := Expected(net, parent, raw, txs, ps, s);
      Expected(net, parent, block, txs, qs, s) == block.(body := Body(txs, qs))
  {
    hide Rooted;
    assert seq(|ps|, i requires 0 <= i < |ps| => ps[i].proofHash)
        == seq(|qs|, i requires 0 <= i < |qs| => qs[i].proofHash);
  }

  /** A block is accepted when what it is built to expect differs from it in the recorded proofs alone. */
  lemma MatchingBlockPrepares(net: Network, parent: Block, s: Snapshot, block: Block, afterTxs: TxsApplied,
                              afterProofs: ProofsApplied, work: nat)
    requires ApplyTransactions(net, s, block.body.transactions) == Ok(afterTxs)
    requires ApplyProofs(net, afterTxs.state, block.body.proofs) == Ok(afterProofs)
    requires block.header.number == parent.header.number + 1 && block.header.parentHash == parent.hash
    requires var body := Body(afterTxs.txs, afterProofs.proofs);
      Expected(net, parent, block, afterTxs.txs, afterProofs.proofs, afterProofs.state) == block.(body := body)
    requires Work.BlockWork(net.env, afterTxs.state.tasks, afterTxs.txs, block.body.proofs) == Ok(work)
    ensures PrepareBlock(net, parent, s, block)
         == Ok(Prepared(block.(body := Body(afterTxs.txs, afterProofs.proofs)),
                        afterProofs.state.(index := StampAll(afterProofs.state.index, afterProofs.proofs, block.hash)),
                        work))
  {
    hide ApplyTransactions, ApplyProofs, StampAll, Work.BlockWork, Rooted, Expected;
  }

  /** Normalizing again keeps each proof's page and digest. */
  lemma FormsAgain(env: Env, proofs: seq<CrawlProof>)
    requires forall i :: 0 <= i < |proofs| ==> NormalizeProof(env, proofs[i]).Ok?
    ensures var forms := NormalForms(env, proofs);
      var again := NormalForms(env, forms);
      |again| == |forms| && forall i :: 0 <= i < |forms| ==>
        again[i].url == forms[i].url && again[i].proofHash == forms[i].proofHash
  {
    hide NormalizeProof, NormalizePage, NormalForm;
    var forms := NormalForms(env, proofs);
    forall i | 0 <= i < |forms|
      ensures NormalForm(env, forms[i]).url == forms[i].url
      ensures NormalForm(env, forms[i]).proofHash == forms[i].proofHash
    {
      FormKeepsDigest(env, proofs[i]);
    }
  }

  lemma FormKeepsDigest(env: Env, raw: CrawlProof)
    requires NormalizeProof(env, raw).Ok?
    ensures NormalForm(env, NormalForm(env, raw)).url == NormalForm(env, raw).url
    ensures NormalForm(env, NormalForm(env, raw)).proofHash == NormalForm(env, raw).proofHash
  {
    RenormalKeeps(env, raw);
    hide NormalizeProof, NormalizePage;
  }

  /**
   A block as broadcast is accepted by the holders of its parent if and only if the cuts of each
   page's last proof leave no trailing space, and is otherwise refused as invalid. When accepted it
   has the hash and the ledger that it has at its miner, and the work of the cut proofs.
   */
  lemma AcceptedExactly(net: Network, parent: Block, s: Snapshot, raw: Block)
    requires RootsDiffer(net.rootHash) && CollisionFree(net.headerHash) && LedgerInv(s)
    requires PrepareBlock(net, parent, s, raw).Ok?
    ensures var p := PrepareBlock(net, parent, s, raw).value;
      var forms := NormalForms(net.env, raw.body.proofs);
      var r, score := PrepareBlock(net, parent, s, p.block), ScoreWith(net, s, raw, forms);
      && (r.Ok? <==> LastCutsClean(net.env, raw.body.proofs))
      && (r.Ok? ==> r.value.block.hash == p.block.hash && r.value.state == p.state && score == Ok(r.value.work))
      && (r.Err? ==> r.error == InvalidBlock)
  {
    hide *;
    var p, proofs := PrepareBlock(net, parent, s, raw).value, raw.body.proofs;
    PreparedParts(net, parent, s, raw);
    var afterTxs := ApplyTransactions(net, s, raw.body.transactions).value;
    RecordedProofs(net, afterTxs.state, proofs);
    if LastCutsClean(net.env, proofs) {
      TransactionsKeepInv(net, s, raw.body.transactions);
      CleanLastsAccepted(net, parent, s, raw);
    } else {
      FormsCount(net.env, proofs);
      var i := UncleanLast(net.env, proofs);
      UncleanBlockIsRefused(net, parent, s, raw, i);
    }
  }

  lemma UncleanLast(env: Env, proofs: seq<CrawlProof>) returns (i: nat)
    requires |NormalForms(env, proofs)| == |proofs| && !LastCutsClean(env, proofs)
    ensures i < |proofs| && LastOfPage(NormalForms(env, proofs), i) && !CutsClean(proofs[i].page)
  {
    hide NormalForms, LastOfPage, CutsClean;
    i :| 0 <= i < |proofs| && LastOfPage(NormalForms(env, proofs), i) && !CutsClean(proofs[i].page);
  }

  lemma CleanLastsAccepted(net: Network, parent: Block, s: Snapshot, raw: Block)
    requires PrepareBlock(net, parent, s, raw).Ok? && LastCutsClean(net.env, raw.body.proofs)
    requires ApplyTransactions(net, s, raw.body.transactions).Ok?
    requires LedgerInv(ApplyTransactions(net, s, raw.body.transactions).value.state)
    ensures var p := PrepareBlock(net, parent, s, raw).value;
      var forms := NormalForms(net.env, raw.body.proofs);
      var r, score := PrepareBlock(net, parent, s, p.block), ScoreWith(net, s, raw, forms);
      && r.Ok? && r.value.block.hash == p.block.hash && r.value.state == p.state && score == Ok(r.value.work)
  {
    hide *;
    var p, proofs := PrepareBlock(net, parent, s, raw).value, raw.body.proofs;
    var forms := NormalForms(net.env, proofs);
    PreparedParts(net, parent, s, raw);
    var afterTxs := ApplyTransactions(net, s, raw.body.transactions).value;
    var a := ApplyProofs(net, afterTxs.state, proofs).value;
    RecordedProofs(net, afterTxs.state, proofs);
    ProofsInStep(net, afterTxs.state, proofs);
    CleanLastsAgree(net, afterTxs.state, proofs);
    var b := ApplyProofs(net, afterTxs.state, forms).value;
    FormsAgain(net.env, proofs);
    SameStamps(a.state.index, a.proofs, b.proofs, p.block.hash);
    SameDigests(net, parent, raw, afterTxs.txs, a.proofs, b.proofs, a.state);
    ExpectedLinks(net, parent, raw, afterTxs.txs, a.proofs, a.state);
    WorkIsScore(net, s, raw, proofs);
    WorkIsScore(net, s, raw, forms);
    RecordedScore(net, s, raw);
    TransactionsAgain(net, s, raw.body.transactions);
    MatchingBlockPrepares(net, parent, s, p.block, afterTxs, b, ScoreWith(net, s, raw, forms).value);
  }

  // ---------------------------------------------------------------- a long body

  /** How many different terms the score counts on a page. */
  function ScoredTerms(env: Env, page: Page): nat {
    |TermCounts(env.tokens(Text.Trim(page.title + " " + page.snippet + " " + page.body)))|
  }

  lemma {:induction false} LetterBytes(n: nat)
    ensures Utf8Bytes(Letters(n)) == n
  {
    LettersThen(n, "", n);
    assert Letters(n) + "" == Letters(n);
  }

  lemma NoBytesInNothing()
    ensures Utf8Bytes("") == 0
  {
  }

  lemma LetterEnds(n: nat)
    ensures Text.Trim(Letters(n)) == Letters(n) && EndsClean(Letters(n))
  {
    if n > 0 {
      assert Letters(n)[0] == 'a' && Letters(n)[n - 1] == 'a';
    }
    Text.TrimIsIdentity(Letters(n));
  }

  lemma LettersInTwo(n: nat, m: nat)
    requires m <= n
    ensures Letters(n) == Letters(m) + Letters(n - m) && Letters(m) + "" == Letters(m)
  {
  }

  /** Letters are cut to letters. */
  lemma LetterCut(n: nat, limit: nat)
    requires n > limit > 0
    ensures Cut(Letters(n), limit) == Letters(limit)
  {
    hide *;
    LetterEnds(n);
    LetterBytes(n);
    LettersInTwo(n, limit);
    LettersThen(limit, Letters(n - limit), limit);
    NoRoom(Letters(n - limit));
    LongTextIsCut(Letters(n), limit);
  }

  lemma NoRoom(s: string)
    ensures CutUtf8(s, 0) == ""
  {
  }

  lemma NothingCut(limit: nat)
    ensures Cut("", limit) == "" && EndsClean("")
  {
    NoBytesInNothing();
  }

  const LONG_BODY := 2 * MAX_BODY_BYTES

  /** A page of one long word, twice as long as what is recorded of a body. */
  ghost predicate IsLongPage(env: Env, page: Page) {
    && page.title == "" && page.snippet == "" && page.body == Letters(LONG_BODY)
    && ScoredTerms(env, NormalizePage(page)) == ScoredTerms(env, page)
  }

  lemma LongPageNormal(env: Env, page: Page)
    requires IsLongPage(env, page)
    ensures var p := NormalizePage(page);
      p.title == "" && p.snippet == "" && p.body == Letters(MAX_BODY_BYTES)
    ensures CutsClean(page)
  {
    NothingCut(MAX_TITLE_BYTES);
    NothingCut(MAX_SNIPPET_BYTES);
    LetterCut(LONG_BODY, MAX_BODY_BYTES);
    LetterEnds(MAX_BODY_BYTES);
    hide Text.Trim, TruncateUtf8, Letters, EndsClean, TruncateLinks, Utf8Bytes;
  }

  /** Its score counts 16384 bytes as submitted and 8192 as recorded. */
  lemma LongPageQuality(env: Env, page: Page)
    requires IsLongPage(env, page)
    ensures Work.QualityBps(env, page) == Work.QualityBps(env, NormalizePage(page)) + 640
  {
    hide *;
    LongPageTexts(env, page);
    LongPageNormal(env, page);
    LetterBytes(LONG_BODY);
    LetterBytes(MAX_BODY_BYTES);
    NoBytesInNothing();
    QualityFrom(env, page, 16384);
    QualityFrom(env, NormalizePage(page), 8192);
  }

  lemma LongPageTexts(env: Env, page: Page)
    requires IsLongPage(env, page)
    ensures page.title == "" && page.snippet == "" && page.body == Letters(LONG_BODY)
    ensures ScoredTerms(env, NormalizePage(page)) == ScoredTerms(env, page)
    ensures LONG_BODY == 16384 && MAX_BODY_BYTES == 8192
  {
    hide ScoredTerms, NormalizePage, Letters;
  }

  /** The quality of a page, from its number of terms and of bytes. */
  lemma QualityFrom(env: Env, page: Page, bytes: nat)
    requires bytes == Utf8Bytes(page.body) + Utf8Bytes(page.title) + Utf8Bytes(page.snippet) && bytes <= 32000
    ensures Work.QualityBps(env, page) == 10000 + Work.Min(ScoredTerms(env, page), 256) * 15 + bytes / 128 * 10
  {
    hide Text.Trim, TermCounts, Utf8Bytes;
  }

  /**
   A block with one proof of such a page, for a task of difficulty 10000: its miner counts it with
   640 more work than every node that it is broadcast to, on the same hash and the same state.
   */
  lemma LongBodySplitsWork(net: Network, parent: Block, s: Snapshot, raw: Block, proof: CrawlProof)
    requires PrepareBlock(net, parent, s, raw).Ok? && raw.body.proofs == [proof]
    requires IsLongPage(net.env, proof.page)
    requires var task := Work.TaskOf(ScoredTasks(net, s, raw), proof); task.Some? && task.value.difficulty == 10000
    ensures var p := PrepareBlock(net, parent, s, raw).value;
      p.work >= 640 && PrepareBlock(net, parent, s, p.block) == Ok(p.(work := p.work - 640))
    ensures !Repeats(LedgerRules(net), parent, s, PrepareBlock(net, parent, s, raw).value)
  {
    hide *;
    var p, env := PrepareBlock(net, parent, s, raw).value, net.env;
    PreparedParts(net, parent, s, raw);
    var afterTxs := ApplyTransactions(net, s, raw.body.transactions).value;
    RecordedProofs(net, afterTxs.state, [proof]);
    assert [proof][0] == proof;
    OneForm(env, proof);
    OneClean(env, proof);
    CleanBlockIsAccepted(net, parent, s, raw);
    WorkIsScore(net, s, raw, [proof]);
    var tasks, form := ScoredTasks(net, s, raw), NormalForm(env, proof);
    TrimmedTask(env, proof, tasks);
    OneScore(net, s, raw, proof);
    OneScore(net, s, raw, form);
    LongPageQuality(env, proof.page);
    PageOfForm(env, proof);
    Work.QualityBounds(env, proof.page);
    Work.QualityBounds(env, form.page);
    Work.LoneScore(Work.QualityBps(env, proof.page));
    Work.LoneScore(Work.QualityBps(env, form.page));
    WeightsAreNatural(raw.body.transactions);
    NotTheSame(net, parent, s, p);
  }

  lemma OneForm(env: Env, proof: CrawlProof)
    ensures NormalForms(env, [proof]) == [NormalForm(env, proof)]
  {
    hide NormalForm;
  }

  lemma OneClean(env: Env, proof: CrawlProof)
    requires IsLongPage(env, proof.page)
    ensures AllCutsClean([proof])
  {
    LongPageNormal(env, proof.page);
    hide CutsClean, IsLongPage;
  }

  /** The work of a block with one proof, for a task of difficulty 10000. */
  lemma OneScore(net: Network, s: Snapshot, raw: Block, q: CrawlProof)
    requires var task := Work.TaskOf(ScoredTasks(net, s, raw), q); task.Some? && task.value.difficulty == 10000
    ensures ScoreWith(net, s, raw, [q])
         == Ok(Totals.Sum(raw.body.transactions, Work.TxWork)
               + Work.ProofWork(10000, Work.QualityBps(net.env, q.page), 1, 1))
  {
    hide Work.ProofWork, Work.QualityBps, Work.BlockWork, ScoredTasks, Work.TaskOf;
    Work.OneProofScores(net.env, ScoredTasks(net, s, raw), raw.body.transactions, q);
  }

  lemma WeightsAreNatural(txs: seq<Transaction>)
    ensures Totals.Sum(txs, Work.TxWork) >= 0
  {
    Work.SumTx(txs);
  }

  lemma NotTheSame(net: Network, parent: Block, s: Snapshot, p: Prepared)
    requires p.work >= 640 && PrepareBlock(net, parent, s, p.block) == Ok(p.(work := p.work - 640))
    ensures !Repeats(LedgerRules(net), parent, s, p)
  {
    hide PrepareBlock;
    assert LedgerRules(net).prepare(parent, s, p.block) == PrepareBlock(net, parent, s, p.block);
  }
}
