/** The mention-count cache agrees with the search index. */
module Mentions {
  import opened Records
  import opened Ledger
  import opened Totals
  import opened Money

  /** How often a page mentions a term. */
  function CountIn(t: string): SearchRecord -> int {
    (r: SearchRecord) => Counted(r.termCounts, t)
  }

  /** The true number of mentions of a term: the sum over all indexed pages. */
  ghost function TrueMentions(index: map<string, SearchRecord>, t: string): int {
    Total(index, CountIn(t))
  }

  ghost predicate PositiveCounts(counts: map<string, nat>) {
    forall t :: t in counts ==> counts[t] > 0
  }

  /** Each term's cached count is its true number of mentions, and a key is present exactly when that is positive. */
  ghost predicate Agrees(mentions: map<string, nat>, index: map<string, SearchRecord>) {
    forall t: string ::
      Counted(mentions, t) == TrueMentions(index, t) && (t in mentions <==> TrueMentions(index, t) > 0)
  }

  ghost predicate MentionInv(s: Snapshot) {
    && (forall url :: url in s.index ==> PositiveCounts(s.index[url].termCounts))
    && Agrees(s.mentions, s.index)
  }

  lemma {:induction false} CountPositive(terms: seq<string>, t: string)
    ensures t in terms <==> CountOf(terms, t) > 0
  {
    if terms != [] {
      CountPositive(terms[1..], t);
      assert terms == [terms[0]] + terms[1..];
    }
  }

  lemma TermCountsPositive(terms: seq<string>)
    ensures PositiveCounts(TermCounts(terms))
    ensures forall t :: t in TermCounts(terms) <==> t in terms
  {
    forall t | t in terms
      ensures CountOf(terms, t) > 0
    {
      CountPositive(terms, t);
    }
  }

  /** Re-indexing a page takes its old counts out of the cache and puts its new ones in. */
  lemma IndexPageKeepsMentions(s: Snapshot, url: string, record: SearchRecord)
    requires MentionInv(s) && PositiveCounts(record.termCounts)
    ensures MentionInv(IndexPage(s, url, record))
  {
    var r := IndexPage(s, url, record);
    forall t: string
      ensures Counted(r.mentions, t) == TrueMentions(r.index, t)
      ensures t in r.mentions <==> TrueMentions(r.index, t) > 0
    {
      assert Counted(s.mentions, t) == TrueMentions(s.index, t);
      TermAfterPage(s, url, record, t);
    }
    hide IndexPage, TrueMentions;
    assert r.index == s.index[url := record];
  }

  /** Re-indexing a page, seen by one term. */
  lemma TermAfterPage(s: Snapshot, url: string, record: SearchRecord, t: string)
    requires PositiveCounts(record.termCounts)
    requires Counted(s.mentions, t) == TrueMentions(s.index, t)
    requires t in s.mentions <==> TrueMentions(s.index, t) > 0
    ensures var r := IndexPage(s, url, record);
      Counted(r.mentions, t) == TrueMentions(r.index, t) && (t in r.mentions <==> TrueMentions(r.index, t) > 0)
  {
    TotalPut(s.index, CountIn(t), url, record);
    if url in s.index {
      assert forall u :: u in s.index ==> CountIn(t)(s.index[u]) >= 0;
      TotalAtLeast(s.index, CountIn(t), url);
    }
  }

  lemma TransactionKeepsMentions(env: Env, s: Snapshot, raw: Transaction, configured: string)
    requires EnvSound(env) && MentionInv(s) && ApplyTransaction(env, s, raw, configured).Ok?
    ensures MentionInv(ApplyTransaction(env, s, raw, configured).value.state)
  {
    hide ApplyTransaction, EnvSound, AddressOfKey, NormalizeTransaction, NormalizedArchitect, Credit, Debit,
      BalanceOf, ArchitectFee;
    TransactionMoves(env, s, raw, configured);
  }

  lemma ProofKeepsMentions(env: Env, s: Snapshot, raw: CrawlProof, blockHash: string)
    requires MentionInv(s) && ApplyCrawlProof(env, s, raw, blockHash).Ok?
    ensures MentionInv(ApplyCrawlProof(env, s, raw, blockHash).value.state)
  {
    hide ApplyCrawlProof, SpawnTargets, AddSpawned, IndexPage, TermCounts, Credit, Debit, BalanceOf;
    ProofPays(env, s, raw, blockHash);
    var p := ApplyCrawlProof(env, s, raw, blockHash).value.proof;
    TermCountsPositive(env.tokens(p.query + " " + p.page.title + " " + p.page.body));
    IndexPageKeepsMentions(s, p.url, IndexRecord(env, p, blockHash));
  }

  /** The price of a name is the base price plus 10000 for each true mention of its first term. */
  lemma PriceFollowsTrueMentions(env: Env, s: Snapshot, name: string)
    requires MentionInv(s)
    ensures RegistrationPrice(env, s, name) == 100000 + 10000 * TrueMentions(s.index, NormalizedTerm(env, name))
  {
    assert Counted(s.mentions, NormalizedTerm(env, name)) == TrueMentions(s.index, NormalizedTerm(env, name));
  }

  // ---------------------------------------------------------------- the loops

  /** Adds page counts to the cache, term by term in any order. */
  method AddMentionCounts(target: map<string, nat>, counts: map<string, nat>) returns (out: map<string, nat>)
    ensures out == AddMentions(target, counts)
  {
    out := target;
    var todo := counts.Keys;
    while todo != {}
      invariant todo <= counts.Keys
      invariant out.Keys == target.Keys + (counts.Keys - todo)
      invariant forall t :: t in out ==>
        out[t] == Counted(target, t) + if t in todo then 0 else Counted(counts, t)
      decreases todo
    {
      var term :| term in todo;
      out := out[term := Counted(out, term) + counts[term]];
      todo := todo - {term};
    }
  }

  /** Takes page counts out of the cache and deletes a term whose count would not stay positive. */
  method SubtractMentionCounts(target: map<string, nat>, counts: map<string, nat>) returns (out: map<string, nat>)
    ensures out == SubtractMentions(target, counts)
  {
    out := target;
    var todo := counts.Keys;
    while todo != {}
      invariant todo <= counts.Keys
      invariant forall t :: t in out <==> t in target && (t in todo || t !in counts || counts[t] < target[t])
      invariant forall t :: t in out ==> out[t] == target[t] - if t in todo then 0 else Counted(counts, t)
      decreases todo
    {
      var term :| term in todo;
      var current := Counted(out, term);
      if current <= counts[term] {
        out := out - {term};
      } else {
        out := out[term := current - counts[term]];
      }
      todo := todo - {term};
    }
  }
}
