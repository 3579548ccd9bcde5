/** The work of a block, written out. */
module Scoring {
  import opened Records
  import opened Ledger
  import opened Totals
  import opened Work
  import Text

  /** Rounded up to a whole basis point. */
  function RoundedUp(a: nat, bps: nat): nat {
    (a * bps + 9999) / 10000
  }

  /** The share left to one of several that occur together, not below a floor. */
  function Share(count: nat, floor: nat): nat {
    if count <= 1 then 10000 else if 10000 / count < floor then floor else 10000 / count
  }

  function AtMost(n: nat, limit: nat): nat {
    if n > limit then limit else n
  }

  /** 15 points for each different token up to 256, and 10 for each 128 bytes up to 2500 points. */
  ghost function QualityOf(env: Env, page: Page): nat {
    var tokens := env.tokens(Text.Trim(page.title + " " + page.snippet + " " + page.body));
    var bytes := Utf8Bytes(page.title) + Utf8Bytes(page.snippet) + Utf8Bytes(page.body);
    10000 + 15 * AtMost(|set t | t in tokens|, 256) + AtMost(10 * (AtMost(bytes, 32768) / 128), 2500)
  }

  lemma QualityIs(env: Env, page: Page)
    ensures QualityBps(env, page) == QualityOf(env, page)
  {
    var tokens := env.tokens(Text.Trim(page.title + " " + page.snippet + " " + page.body));
    assert TermCounts(tokens).Keys == set t | t in tokens;
    assert |TermCounts(tokens)| == |TermCounts(tokens).Keys|;
    hide TermCounts, Utf8Bytes, Text.Trim;
  }

  /** At least one; the difficulty, weighted by quality and by both shares. */
  function PointsFor(difficulty: nat, quality: nat, hosts: nat, submitters: nat): nat {
    var weight := RoundedUp(RoundedUp(quality, Share(hosts, 2500)), Share(submitters, 4000));
    var points := (if difficulty == 0 then 1 else difficulty) * weight / 10000;
    if points == 0 then 1 else points
  }

  lemma PointsAre(task: Task, quality: nat, hosts: nat, submitters: nat)
    requires 10000 <= quality <= 16340
    ensures ProofWork(EffectiveDifficulty(task), quality, hosts, submitters)
         == PointsFor(task.difficulty, quality, hosts, submitters)
  {
    CompositeUnfolds(quality, hosts, submitters);
    hide CompositeBps;
    assert OccurrencePenalty(hosts, HOST_FLOOR) == Share(hosts, 2500);
    assert OccurrencePenalty(submitters, SUBMITTER_FLOOR) == Share(submitters, 4000);
  }

  // ---------------------------------------------------------------- counting

  lemma {:induction false} SumCounts<T>(xs: seq<T>, weight: T -> int, p: T -> bool)
    requires forall x :: weight(x) == if p(x) then 1 else 0
    ensures Sum(xs, weight) == |Places(xs, p)|
    decreases |xs|
  {
    if xs == [] {
      assert Places(xs, p) == {};
    } else {
      var n := |xs| - 1;
      SumCounts(xs[..n], weight, p);
      SumNext(xs, n, weight);
      assert xs[..n + 1] == xs;
      PlacesNext(xs, p);
    }
  }

  // ---------------------------------------------------------------- the whole block

  /** A search task counts twice. */
  lemma {:induction false} TransactionsCount(txs: seq<Transaction>)
    ensures Sum(txs, TxWork) == |txs| + |Places(txs, (tx: Transaction) => tx.kind == SearchTask)|
    decreases |txs|
  {
    var isTask := (tx: Transaction) => tx.kind == SearchTask;
    if txs == [] {
      assert Places(txs, isTask) == {};
    } else {
      var n := |txs| - 1;
      TransactionsCount(txs[..n]);
      SumNext(txs, n, TxWork);
      assert txs[..n + 1] == txs;
      PlacesNext(txs, isTask);
    }
  }

  ghost predicate TasksKnown(tasks: map<string, Task>, proofs: seq<CrawlProof>) {
    forall i :: 0 <= i < |proofs| ==> Text.Trim(proofs[i].taskId) in tasks
  }

  /** What the `i`-th proof of a block is worth, from how many share its host and how many its submitter. */
  ghost function PointsOf(env: Env, tasks: map<string, Task>, proofs: seq<CrawlProof>, i: nat): nat
    requires TasksKnown(tasks, proofs) && i < |proofs|
  {
    var task := tasks[Text.Trim(proofs[i].taskId)];
    var host, submitter := env.workHost(proofs[i].url), Text.Trim(task.submitter);
    var sameHost := set j: nat | j < |proofs| && env.workHost(proofs[j].url) == host;
    var sameSubmitter :=
      set j: nat | j < |proofs| && Text.Trim(tasks[Text.Trim(proofs[j].taskId)].submitter) == submitter;
    PointsFor(task.difficulty, QualityOf(env, proofs[i].page), |sameHost|, |sameSubmitter|)
  }

  ghost function PointsBefore(env: Env, tasks: map<string, Task>, proofs: seq<CrawlProof>, n: nat): nat
    requires TasksKnown(tasks, proofs) && n <= |proofs|
  {
    if n == 0 then 0 else PointsBefore(env, tasks, proofs, n - 1) + PointsOf(env, tasks, proofs, n - 1)
  }

  lemma HostsCounted(env: Env, proofs: seq<CrawlProof>, host: string)
    ensures Sum(proofs, OnHost(env, host)) == |set j: nat | j < |proofs| && env.workHost(proofs[j].url) == host|
  {
    var p := (x: CrawlProof) => env.workHost(x.url) == host;
    SumCounts(proofs, OnHost(env, host), p);
    assert Places(proofs, p) == set j: nat | j < |proofs| && env.workHost(proofs[j].url) == host;
  }

  lemma SubmittersCounted(tasks: map<string, Task>, proofs: seq<CrawlProof>, submitter: string)
    requires TasksKnown(tasks, proofs)
    ensures Sum(proofs, BySubmitter(tasks, submitter))
         == |set j: nat | j < |proofs| && Text.Trim(tasks[Text.Trim(proofs[j].taskId)].submitter) == submitter|
  {
    hide Text.Trim;
    var p := (x: CrawlProof) => SubmitterOf(tasks, x) == submitter;
    SumCounts(proofs, BySubmitter(tasks, submitter), p);
    assert Places(proofs, p)
        == set j: nat | j < |proofs| && Text.Trim(tasks[Text.Trim(proofs[j].taskId)].submitter) == submitter;
  }

  lemma ScoreIs(env: Env, tasks: map<string, Task>, proofs: seq<CrawlProof>, i: nat)
    requires TasksKnown(tasks, proofs) && i < |proofs|
    ensures Score(env, tasks, proofs, proofs[i]) == PointsOf(env, tasks, proofs, i)
  {
    var task := tasks[Text.Trim(proofs[i].taskId)];
    HostsCounted(env, proofs, env.workHost(proofs[i].url));
    SubmittersCounted(tasks, proofs, Text.Trim(task.submitter));
    QualityIs(env, proofs[i].page);
    QualityBounds(env, proofs[i].page);
    hide Text.Trim, QualityBps, QualityOf, ProofWork, PointsFor, Sum, EffectiveDifficulty;
    PointsAre(task, QualityBps(env, proofs[i].page), Sum(proofs, OnHost(env, env.workHost(proofs[i].url))),
              Sum(proofs, BySubmitter(tasks, Text.Trim(task.submitter))));
  }

  lemma {:induction false} ScoresAdd(env: Env, tasks: map<string, Task>, proofs: seq<CrawlProof>, n: nat)
    requires TasksKnown(tasks, proofs) && n <= |proofs|
    ensures Sum(proofs[..n], ScoreIn(env, tasks, proofs)) == PointsBefore(env, tasks, proofs, n)
  {
    hide Score, PointsOf, TasksKnown;
    if n > 0 {
      ScoresAdd(env, tasks, proofs, n - 1);
      SumNext(proofs, n - 1, ScoreIn(env, tasks, proofs));
      ScoreIs(env, tasks, proofs, n - 1);
    }
  }

  /**
   The work of a block is one for each transaction, one more for each search task, and the points of
   its proofs; it exists exactly when each proof names a known task.
   */
  lemma BlockWorkIs(env: Env, tasks: map<string, Task>, txs: seq<Transaction>, proofs: seq<CrawlProof>)
    ensures BlockWork(env, tasks, txs, proofs).Ok? <==> TasksKnown(tasks, proofs)
    ensures TasksKnown(tasks, proofs) ==>
      BlockWork(env, tasks, txs, proofs)
      == Ok(|txs| + |Places(txs, (tx: Transaction) => tx.kind == SearchTask)|
            + PointsBefore(env, tasks, proofs, |proofs|))
  {
    KnownExactly(tasks, proofs);
    TransactionsCount(txs);
    hide Score, PointsOf, TasksKnown, AllKnown, Places;
    if TasksKnown(tasks, proofs) {
      ScoresAdd(env, tasks, proofs, |proofs|);
      assert proofs[..|proofs|] == proofs;
    }
  }

  lemma KnownExactly(tasks: map<string, Task>, proofs: seq<CrawlProof>)
    ensures AllKnown(tasks, proofs) <==> TasksKnown(tasks, proofs)
  {
    hide Text.Trim;
    if AllKnown(tasks, proofs) {
      forall i | 0 <= i < |proofs|
        ensures Text.Trim(proofs[i].taskId) in tasks
      {
        assert TaskOf(tasks, proofs[i]).Some?;
      }
    }
    if TasksKnown(tasks, proofs) {
      forall p | p in proofs
        ensures TaskOf(tasks, p).Some?
      {
        var i :| 0 <= i < |proofs| && proofs[i] == p;
      }
    }
  }
}
