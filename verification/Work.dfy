/** Useful-work scoring of a block. */
module Work {
  import opened Records
  import opened Ledger
  import opened Totals
  import Text

  const MAX_UINT64: nat := 0xFFFF_FFFF_FFFF_FFFF
  const HOST_FLOOR: nat := 2500
  const SUBMITTER_FLOOR: nat := 4000
  const MAX_UNIQUE_TERMS: nat := 256
  const TERM_BOOST: nat := 15
  const MAX_SCORED_BYTES: nat := 32768
  const BODY_CHUNK: nat := 128
  const MAX_BODY_BOOST: nat := 2500

  function Min(a: nat, b: nat): nat {
    if a < b then a else b
  }

  function ApplyBasisPoints(amount: int, bps: nat): nat {
    if amount <= 0 then 0 else amount * bps / BASIS_POINTS
  }

  /** One rounding-up step of composition. */
  function Compose1(composite: nat, multiplier: nat): nat {
    (composite * multiplier + BASIS_POINTS - 1) / BASIS_POINTS
  }

  function ComposeAll(composite: nat, ms: seq<nat>): nat
    decreases |ms|
  {
    if ms == [] then Min(composite, MAX_UINT64)
    else if ms[0] == 0 then 0
    else ComposeAll(Compose1(composite, ms[0]), ms[1..])
  }

  method ComposeBasisPoints(ms: seq<nat>) returns (r: nat)
    ensures r == ComposeAll(BASIS_POINTS, ms)
  {
    var composite: nat := BASIS_POINTS;
    assert ms[0..] == ms;
    for i := 0 to |ms|
      invariant ComposeAll(composite, ms[i..]) == ComposeAll(BASIS_POINTS, ms)
    {
      assert ms[i..][1..] == ms[i + 1..];
      if ms[i] == 0 {
        return 0;
      }
      composite := (composite * ms[i] + BASIS_POINTS - 1) / BASIS_POINTS;
    }
    r := if composite > MAX_UINT64 then MAX_UINT64 else composite;
  }

  function OccurrencePenalty(count: int, floor: nat): nat {
    if count <= 1 then BASIS_POINTS
    else
      var penalty := BASIS_POINTS / count;
      if penalty < floor then floor else penalty
  }

  function QualityBps(env: Env, page: Page): nat {
    var text := Text.Trim(page.title + " " + page.snippet + " " + page.body);
    var uniqueTerms := Min(|TermCounts(env.tokens(text))|, MAX_UNIQUE_TERMS);
    var bytes := Min(Utf8Bytes(page.body) + Utf8Bytes(page.title) + Utf8Bytes(page.snippet), MAX_SCORED_BYTES);
    BASIS_POINTS + uniqueTerms * TERM_BOOST + Min(bytes / BODY_CHUNK * 10, MAX_BODY_BOOST)
  }

  function EffectiveDifficulty(task: Task): nat {
    if task.difficulty == 0 then 1 else task.difficulty
  }

  function CompositeBps(quality: nat, hosts: int, submitters: int): nat {
    var h, s := OccurrencePenalty(hosts, HOST_FLOOR), OccurrencePenalty(submitters, SUBMITTER_FLOOR);
    ComposeAll(BASIS_POINTS, [quality, h, s])
  }

  /** `computeUsefulProofWork` for a proof of the given quality. */
  function ProofWork(difficulty: nat, quality: nat, hosts: int, submitters: int): nat {
    var weighted := ApplyBasisPoints(difficulty, CompositeBps(quality, hosts, submitters));
    if weighted == 0 then 1 else weighted
  }

  // ---------------------------------------------------------------- one proof's score

  lemma QualityBounds(env: Env, page: Page)
    ensures 10000 <= QualityBps(env, page) <= 16340
  {
  }

  lemma PenaltyBounds(count: int, floor: nat)
    requires floor <= BASIS_POINTS
    ensures floor <= OccurrencePenalty(count, floor) <= BASIS_POINTS
  {
  }

  lemma MultiplyMonotone(a: nat, b: nat, c: nat, d: nat)
    requires a <= b && c <= d
    ensures a * c <= b * d
  {
    assert b * d - a * c == (b - a) * d + a * (d - c);
  }

  lemma Compose1Monotone(a: nat, b: nat, c: nat, d: nat)
    requires a <= b && c <= d
    ensures Compose1(a, c) <= Compose1(b, d)
  {
    MultiplyMonotone(a, b, c, d);
  }

  /** Within the scored range no step of the composition is zero or saturates. */
  lemma CompositeUnfolds(quality: nat, hosts: int, submitters: int)
    requires 10000 <= quality <= 16340
    ensures var h, s := OccurrencePenalty(hosts, HOST_FLOOR), OccurrencePenalty(submitters, SUBMITTER_FLOOR);
      CompositeBps(quality, hosts, submitters) == Compose1(Compose1(quality, h), s)
    ensures 1000 <= CompositeBps(quality, hosts, submitters) <= 16340
  {
    var h, s := OccurrencePenalty(hosts, HOST_FLOOR), OccurrencePenalty(submitters, SUBMITTER_FLOOR);
    PenaltyBounds(hosts, HOST_FLOOR);
    PenaltyBounds(submitters, SUBMITTER_FLOOR);
    hide OccurrencePenalty;
    assert Compose1(BASIS_POINTS, quality) == quality;
    Compose1Monotone(10000, quality, 2500, h);
    Compose1Monotone(quality, 16340, h, 10000);
    var first := Compose1(quality, h);
    assert 2500 <= first <= 16340;
    Compose1Monotone(2500, first, 4000, s);
    Compose1Monotone(first, 16340, s, 10000);
    assert [quality, h, s][1..] == [h, s] && [h, s][1..] == [s] && [s][1..] == [];
    assert ComposeAll(BASIS_POINTS, [quality, h, s]) == ComposeAll(quality, [h, s]);
    assert ComposeAll(quality, [h, s]) == ComposeAll(first, [s]);
    assert ComposeAll(first, [s]) == ComposeAll(Compose1(first, s), []);
  }

  /** A proof of effective difficulty d scores at least max(1, floor(d/10)) and at most max(1, floor(1.634 d)). */
  lemma ProofWorkBounds(difficulty: nat, quality: nat, hosts: int, submitters: int)
    requires difficulty > 0 && 10000 <= quality <= 16340
    ensures var w := ProofWork(difficulty, quality, hosts, submitters);
      && w >= 1 && w >= difficulty / 10
      && (w == 1 || w <= difficulty * 1634 / 1000)
  {
    CompositeUnfolds(quality, hosts, submitters);
    hide CompositeBps;
    var c := CompositeBps(quality, hosts, submitters);
    MultiplyMonotone(difficulty, difficulty, 1000, c);
    MultiplyMonotone(difficulty, difficulty, c, 16340);
    assert difficulty * 1000 / 10000 <= difficulty * c / 10000 <= difficulty * 16340 / 10000;
  }

  lemma PenaltyFalls(count: int, more: int, floor: nat)
    requires count <= more && floor <= BASIS_POINTS
    ensures OccurrencePenalty(more, floor) <= OccurrencePenalty(count, floor)
  {
    if count > 1 {
      var a, b := 10000 / more, 10000 / count;
      assert a * more <= 10000 && 10000 < b * count + count;
      if a > b {
        MultiplyMonotone(b + 1, a, count, more);
      }
    }
  }

  /** A proof never scores more when its host or its submitter occurs more often in the block. */
  lemma ProofWorkFalls(difficulty: nat, quality: nat, hosts: int, submitters: int, moreHosts: int, moreSubmitters: int)
    requires difficulty > 0 && 10000 <= quality <= 16340
    requires hosts <= moreHosts && submitters <= moreSubmitters
    ensures ProofWork(difficulty, quality, moreHosts, moreSubmitters)
         <= ProofWork(difficulty, quality, hosts, submitters)
  {
    CompositeUnfolds(quality, hosts, submitters);
    CompositeUnfolds(quality, moreHosts, moreSubmitters);
    PenaltyFalls(hosts, moreHosts, HOST_FLOOR);
    PenaltyFalls(submitters, moreSubmitters, SUBMITTER_FLOOR);
    hide OccurrencePenalty, CompositeBps, Compose1;
    var h, h' := OccurrencePenalty(hosts, HOST_FLOOR), OccurrencePenalty(moreHosts, HOST_FLOOR);
    var s, s' := OccurrencePenalty(submitters, SUBMITTER_FLOOR), OccurrencePenalty(moreSubmitters, SUBMITTER_FLOOR);
    Compose1Monotone(quality, quality, h', h);
    Compose1Monotone(Compose1(quality, h'), Compose1(quality, h), s', s);
    var c, c' := CompositeBps(quality, hosts, submitters), CompositeBps(quality, moreHosts, moreSubmitters);
    MultiplyMonotone(difficulty, difficulty, c', c);
    assert difficulty * c' / 10000 <= difficulty * c / 10000;
  }

  // ---------------------------------------------------------------- a block's work

  function TxWork(tx: Transaction): int {
    if tx.kind == SearchTask then 2 else 1
  }

  function OnHost(env: Env, host: string): CrawlProof -> int {
    (p: CrawlProof) => if env.workHost(p.url) == host then 1 else 0
  }

  function TaskOf(tasks: map<string, Task>, p: CrawlProof): Option<Task> {
    var id := Text.Trim(p.taskId);
    if id in tasks then Some(tasks[id]) else None
  }

  function SubmitterOf(tasks: map<string, Task>, p: CrawlProof): string {
    match TaskOf(tasks, p)
    case Some(t) => Text.Trim(t.submitter)
    case None => ""
  }

  function BySubmitter(tasks: map<string, Task>, submitter: string): CrawlProof -> int {
    (p: CrawlProof) => if SubmitterOf(tasks, p) == submitter then 1 else 0
  }

  /** The score of one proof in the company of all the block's proofs. */
  function Score(env: Env, tasks: map<string, Task>, all: seq<CrawlProof>, p: CrawlProof): nat {
    match TaskOf(tasks, p)
    case None => 0
    case Some(t) =>
      ProofWork(EffectiveDifficulty(t), QualityBps(env, p.page),
                Sum(all, OnHost(env, env.workHost(p.url))),
                Sum(all, BySubmitter(tasks, SubmitterOf(tasks, p))))
  }

  function ScoreIn(env: Env, tasks: map<string, Task>, all: seq<CrawlProof>): CrawlProof -> int {
    (p: CrawlProof) => Score(env, tasks, all, p)
  }

  predicate AllKnown(tasks: map<string, Task>, proofs: seq<CrawlProof>) {
    forall p :: p in proofs ==> TaskOf(tasks, p).Some?
  }

  function BlockWork(env: Env, tasks: map<string, Task>, txs: seq<Transaction>, proofs: seq<CrawlProof>): Result<int> {
    if !AllKnown(tasks, proofs) then Err(TaskNotFound)
    else Ok(Sum(txs, TxWork) + Sum(proofs, ScoreIn(env, tasks, proofs)))
  }

  /** A block's work does not depend on the order of its proofs or of its transactions. */
  lemma BlockWorkOrder(env: Env, tasks: map<string, Task>, txs: seq<Transaction>, txs': seq<Transaction>,
                       proofs: seq<CrawlProof>, proofs': seq<CrawlProof>)
    requires multiset(txs) == multiset(txs') && multiset(proofs) == multiset(proofs')
    ensures BlockWork(env, tasks, txs, proofs) == BlockWork(env, tasks, txs', proofs')
  {
    hide TaskOf, ProofWork, QualityBps, SubmitterOf;
    assert AllKnown(tasks, proofs) <==> AllKnown(tasks, proofs') by {
      forall p: CrawlProof
        ensures p in proofs <==> p in proofs'
      {
        assert p in proofs <==> p in multiset(proofs);
        assert p in proofs' <==> p in multiset(proofs');
      }
    }
    SumOrder(txs, txs', TxWork);
    forall p | p in proofs
      ensures ScoreIn(env, tasks, proofs)(p) == ScoreIn(env, tasks, proofs')(p)
    {
      SumOrder(proofs, proofs', OnHost(env, env.workHost(p.url)));
      SumOrder(proofs, proofs', BySubmitter(tasks, SubmitterOf(tasks, p)));
    }
    SumSame(proofs, ScoreIn(env, tasks, proofs), ScoreIn(env, tasks, proofs'));
    SumOrder(proofs, proofs', ScoreIn(env, tasks, proofs'));
  }

  /** A block's only proof is scored in its own company alone. */
  lemma OneProofScores(env: Env, tasks: map<string, Task>, txs: seq<Transaction>, p: CrawlProof)
    requires TaskOf(tasks, p).Some?
    ensures BlockWork(env, tasks, txs, [p])
         == Ok(Sum(txs, TxWork) + ProofWork(EffectiveDifficulty(TaskOf(tasks, p).value), QualityBps(env, p.page), 1, 1))
  {
    hide ProofWork, QualityBps, TaskOf;
    OneSum(p, OnHost(env, env.workHost(p.url)));
    OneSum(p, BySubmitter(tasks, SubmitterOf(tasks, p)));
    OneSum(p, ScoreIn(env, tasks, [p]));
    hide Sum;
  }

  lemma OneSum<T>(x: T, weight: T -> int)
    ensures Sum([x], weight) == weight(x)
  {
    assert [x][1..] == [];
  }

  /** At difficulty 10000 a lone proof scores its quality. */
  lemma LoneScore(quality: nat)
    requires 10000 <= quality <= 16340
    ensures ProofWork(10000, quality, 1, 1) == quality
  {
    assert OccurrencePenalty(1, HOST_FLOOR) == BASIS_POINTS == OccurrencePenalty(1, SUBMITTER_FLOOR);
    assert Compose1(BASIS_POINTS, quality) == quality && Compose1(quality, BASIS_POINTS) == quality;
    CompositeUnfolds(quality, 1, 1);
  }

  /** A block's work depends on its transactions only through what they weigh. */
  lemma SameWeights(env: Env, tasks: map<string, Task>, txs: seq<Transaction>, txs': seq<Transaction>,
                    proofs: seq<CrawlProof>)
    requires Sum(txs, TxWork) == Sum(txs', TxWork)
    ensures BlockWork(env, tasks, txs, proofs) == BlockWork(env, tasks, txs', proofs)
  {
    hide Sum, AllKnown, ScoreIn, Score;
  }

  /** Proofs for the same tasks can be scored alike. */
  lemma SameTasksAreKnown(env: Env, tasks: map<string, Task>, txs: seq<Transaction>, proofs: seq<CrawlProof>,
                          forms: seq<CrawlProof>)
    requires |forms| == |proofs|
    requires forall i :: 0 <= i < |proofs| ==> TaskOf(tasks, forms[i]) == TaskOf(tasks, proofs[i])
    ensures BlockWork(env, tasks, txs, proofs).Ok? ==> BlockWork(env, tasks, txs, forms).Ok?
  {
    hide Sum, ScoreIn, Score, TaskOf;
    if AllKnown(tasks, proofs) {
      forall q | q in forms
        ensures TaskOf(tasks, q).Some?
      {
        var i :| 0 <= i < |forms| && forms[i] == q;
        assert proofs[i] in proofs;
      }
    }
  }

  lemma {:induction false} SumNonNegative<T>(xs: seq<T>, weight: T -> int)
    requires forall x :: x in xs ==> weight(x) >= 0
    ensures Sum(xs, weight) >= 0
  {
    if xs != [] {
      SumNonNegative(xs[1..], weight);
    }
  }

  lemma WorkNonNegative(env: Env, tasks: map<string, Task>, txs: seq<Transaction>, proofs: seq<CrawlProof>)
    ensures BlockWork(env, tasks, txs, proofs).Ok? ==> BlockWork(env, tasks, txs, proofs).value >= |txs|
  {
    hide Score, TaskOf;
    SumNonNegative(proofs, ScoreIn(env, tasks, proofs));
    SumTx(txs);
  }

  lemma {:induction false} SumTx(txs: seq<Transaction>)
    ensures Sum(txs, TxWork) >= |txs|
  {
    if txs != [] {
      SumTx(txs[1..]);
    }
  }

  // ---------------------------------------------------------------- the loops

  /** The first proof loop: how often each host and each submitter occurs. */
  method CountOccurrences(env: Env, tasks: map<string, Task>, proofs: seq<CrawlProof>)
    returns (known: bool, hosts: map<string, nat>, submitters: map<string, nat>)
    ensures known == AllKnown(tasks, proofs)
    ensures known ==> forall h :: Counted(hosts, h) == Sum(proofs, OnHost(env, h))
    ensures known ==> forall s :: Counted(submitters, s) == Sum(proofs, BySubmitter(tasks, s))
  {
    hide TaskOf, SubmitterOf;
    hosts, submitters := map[], map[];
    for i := 0 to |proofs|
      invariant AllKnown(tasks, proofs[..i])
      invariant forall h :: Counted(hosts, h) == Sum(proofs[..i], OnHost(env, h))
      invariant forall s :: Counted(submitters, s) == Sum(proofs[..i], BySubmitter(tasks, s))
    {
      var p := proofs[i];
      if TaskOf(tasks, p).None? {
        return false, hosts, submitters;
      }
      assert proofs[..i + 1] == proofs[..i] + [p];
      forall h: string
        ensures Sum(proofs[..i + 1], OnHost(env, h)) == Sum(proofs[..i], OnHost(env, h)) + OnHost(env, h)(p)
      {
        SumAppend(proofs[..i], [p], OnHost(env, h));
      }
      forall s: string
        ensures Sum(proofs[..i + 1], BySubmitter(tasks, s))
             == Sum(proofs[..i], BySubmitter(tasks, s)) + BySubmitter(tasks, s)(p)
      {
        SumAppend(proofs[..i], [p], BySubmitter(tasks, s));
      }
      hosts := hosts[env.workHost(p.url) := Counted(hosts, env.workHost(p.url)) + 1];
      submitters := submitters[SubmitterOf(tasks, p) := Counted(submitters, SubmitterOf(tasks, p)) + 1];
    }
    assert proofs[..|proofs|] == proofs;
    known := true;
  }

  lemma SumNext<T>(xs: seq<T>, i: nat, weight: T -> int)
    requires i < |xs|
    ensures Sum(xs[..i + 1], weight) == Sum(xs[..i], weight) + weight(xs[i])
  {
    assert xs[..i + 1] == xs[..i] + [xs[i]];
    SumAppend(xs[..i], [xs[i]], weight);
    assert [xs[i]][1..] == [];
  }

  method ComputeBlockWork(env: Env, tasks: map<string, Task>, txs: seq<Transaction>, proofs: seq<CrawlProof>)
    returns (r: Result<int>)
    ensures r == BlockWork(env, tasks, txs, proofs)
  {
    hide TaskOf, SubmitterOf, ProofWork, QualityBps;
    var work := 0;
    for i := 0 to |txs|
      invariant work == Sum(txs[..i], TxWork)
    {
      SumNext(txs, i, TxWork);
      work := work + if txs[i].kind == SearchTask then 2 else 1;
    }
    assert txs[..|txs|] == txs;
    var known, hosts, submitters := CountOccurrences(env, tasks, proofs);
    if !known {
      return Err(TaskNotFound);
    }
    ghost var score := ScoreIn(env, tasks, proofs);
    for i := 0 to |proofs|
      invariant work == Sum(txs, TxWork) + Sum(proofs[..i], score)
    {
      var p := proofs[i];
      var task := TaskOf(tasks, p).value;
      var proofWork := ProofWork(EffectiveDifficulty(task), QualityBps(env, p.page),
                                 Counted(hosts, env.workHost(p.url)), Counted(submitters, SubmitterOf(tasks, p)));
      assert score(p) == proofWork;
      SumNext(proofs, i, score);
      work := work + proofWork;
    }
    assert proofs[..|proofs|] == proofs;
    r := Ok(work);
  }
}
