/** Bounded growth of the autonomous crawl frontier. */
module Frontier {
  import opened Records
  import opened Ledger
  import opened Totals
  import opened Money
  import Text

  // ---------------------------------------------------------------- the chosen links

  /** Candidates are new: distinct, not seen before, not indexed, not the target of any active task. */
  lemma {:induction false} CandidatesAreNew(env: Env, s: Snapshot, parent: Task, proof: CrawlProof,
                                            links: seq<string>, seen: set<string>)
    ensures var xs := CandidateLinks(env, s, parent, proof, links, seen);
      && Distinct(xs)
      && forall x :: x in xs ==> x !in seen && x !in s.index && !HasActiveUrl(s.tasks, x)
    decreases |links|
  {
    hide Text.Trim, HasActiveUrl;
    if links != [] && env.normalizeUrl(links[0]).Some? {
      var target := env.normalizeUrl(links[0]).value;
      CandidatesAreNew(env, s, parent, proof, links[1..], seen);
      CandidatesAreNew(env, s, parent, proof, links[1..], seen + {target});
    } else if links != [] {
      CandidatesAreNew(env, s, parent, proof, links[1..], seen);
    }
  }

  /** A new page: not the parent's own, not skipped, not indexed, not the target of an active task. */
  ghost predicate Qualifies(env: Env, s: Snapshot, parent: Task, proof: CrawlProof, target: string) {
    && target != Text.Trim(proof.url) && target != Text.Trim(parent.url) && !env.skipUrl(target)
    && target !in s.index
    && forall id :: id in s.tasks && !s.tasks[id].completed ==> s.tasks[id].url != target
  }

  /** The candidates are exactly the links that qualify, normalized. */
  lemma {:induction false} CandidatesExactly(env: Env, s: Snapshot, parent: Task, proof: CrawlProof,
                                             links: seq<string>, seen: set<string>, x: string)
    ensures x in CandidateLinks(env, s, parent, proof, links, seen)
       <==> && (exists i :: 0 <= i < |links| && env.normalizeUrl(links[i]) == Some(x))
            && x !in seen && Qualifies(env, s, parent, proof, x)
    decreases |links|
  {
    QualifiesNot(env, s, parent, proof, x);
    hide Text.Trim, Qualifies, HasActiveUrl;
    if links != [] {
      var rest := links[1..];
      assert links == [links[0]] + rest;
      assert (exists i :: 0 <= i < |links| && env.normalizeUrl(links[i]) == Some(x)) <==>
             env.normalizeUrl(links[0]) == Some(x)
             || (exists i :: 0 <= i < |rest| && env.normalizeUrl(rest[i]) == Some(x)) by {
        if i :| 0 < i < |links| && env.normalizeUrl(links[i]) == Some(x) {
          assert rest[i - 1] == links[i];
        }
        if i :| 0 <= i < |rest| && env.normalizeUrl(rest[i]) == Some(x) {
          assert links[i + 1] == rest[i];
        }
      }
      CandidatesExactly(env, s, parent, proof, rest, seen, x);
      if env.normalizeUrl(links[0]).Some? {
        var target := env.normalizeUrl(links[0]).value;
        QualifiesNot(env, s, parent, proof, target);
        CandidatesExactly(env, s, parent, proof, rest, seen + {target}, x);
      }
    }
  }

  lemma QualifiesNot(env: Env, s: Snapshot, parent: Task, proof: CrawlProof, target: string)
    ensures Qualifies(env, s, parent, proof, target)
       <==> !(target == Text.Trim(proof.url) || target == Text.Trim(parent.url) || env.skipUrl(target)
              || target in s.index || HasActiveUrl(s.tasks, target))
  {
    hide Text.Trim;
  }

  lemma {:induction false} InsertLinkKeeps(env: Env, parent: Task, proof: CrawlProof, x: string, xs: seq<string>)
    ensures multiset(InsertLink(env, parent, proof, x, xs)) == multiset(xs) + multiset{x}
  {
    hide LinkBefore;
    if xs != [] {
      assert xs == [xs[0]] + xs[1..];
      InsertLinkKeeps(env, parent, proof, x, xs[1..]);
    }
  }

  lemma {:induction false} SortLinksKeeps(env: Env, parent: Task, proof: CrawlProof, xs: seq<string>)
    ensures multiset(SortLinks(env, parent, proof, xs)) == multiset(xs)
  {
    if xs != [] {
      assert xs == [xs[0]] + xs[1..];
      SortLinksKeeps(env, parent, proof, xs[1..]);
      InsertLinkKeeps(env, parent, proof, xs[0], SortLinks(env, parent, proof, xs[1..]));
    }
  }

  lemma {:induction false} DistinctMeansOnce(xs: seq<string>)
    ensures Distinct(xs) <==> forall x :: multiset(xs)[x] <= 1
  {
    if xs != [] {
      var init, last := xs[..|xs| - 1], xs[|xs| - 1];
      assert xs == init + [last];
      DistinctMeansOnce(init);
      if Distinct(xs) {
        assert last !in init;
        assert last !in multiset(init);
        assert Distinct(init);
      } else if Distinct(init) {
        assert last in init;
        assert multiset(xs)[last] >= 2;
      } else {
        var x :| multiset(init)[x] > 1;
        assert multiset(xs)[x] > 1;
      }
    }
  }

  /** The links that become tasks are new and within both limits. */
  lemma TargetsAreNew(env: Env, s: Snapshot, parent: Task, proof: CrawlProof)
    ensures var xs := SpawnTargets(env, s, parent, proof);
      && Distinct(xs)
      && (forall x :: x in xs ==> x !in s.index && !HasActiveUrl(s.tasks, x))
      && |xs| <= CRAWL_LINKS_PER_PROOF
      && (xs != [] ==>
            && |ActiveAutonomous(s.tasks)| + |xs| <= CRAWL_PENDING_LIMIT
            && !(parent.autonomous && parent.depth >= CRAWL_MAX_DEPTH))
  {
    hide HasActiveUrl, ActiveAutonomous, CandidateLinks, SortLinks;
    var found := CandidateLinks(env, s, parent, proof, proof.page.outboundLinks, {});
    var sorted := SortLinks(env, parent, proof, found);
    CandidatesAreNew(env, s, parent, proof, proof.page.outboundLinks, {});
    SortLinksKeeps(env, parent, proof, found);
    DistinctMeansOnce(found);
    DistinctMeansOnce(sorted);
    forall x | x in sorted
      ensures x in found
    {
      assert x in multiset(sorted);
    }
  }

  /** As many candidates are taken as there are, up to 4 and to the 1024 active follow-on tasks; none below depth 2. */
  lemma TargetsFill(env: Env, s: Snapshot, parent: Task, proof: CrawlProof)
    ensures var found := |CandidateLinks(env, s, parent, proof, proof.page.outboundLinks, {})|;
      var active := |ActiveAutonomous(s.tasks)|;
      |SpawnTargets(env, s, parent, proof)| ==
        if (parent.autonomous && parent.depth >= 2) || active >= 1024 then 0
        else if found <= 4 && found <= 1024 - active then found
        else if 1024 - active < 4 then 1024 - active
        else 4
  {
    var found := CandidateLinks(env, s, parent, proof, proof.page.outboundLinks, {});
    SortLinksKeeps(env, parent, proof, found);
    hide ActiveAutonomous, CandidateLinks, SortLinks;
    var sorted := SortLinks(env, parent, proof, found);
    assert |sorted| == |multiset(sorted)| == |multiset(found)|;
  }

  /** The active follow-on tasks, as the limit counts them. */
  lemma ActiveAre(tasks: map<string, Task>, id: string)
    ensures id in ActiveAutonomous(tasks) <==> id in tasks && !tasks[id].completed && tasks[id].autonomous
  {
  }

  // ---------------------------------------------------------------- the ranking

  /**
   The same host comes first, then a link without a query, then fewer path segments, then the shorter
   one, then byte order.
   */
  ghost predicate BetterLink(a: LinkRank, x: string, b: LinkRank, y: string) {
    || (a.sameHost && !b.sameHost)
    || (a.sameHost == b.sameHost && !a.hasQuery && b.hasQuery)
    || (a.sameHost == b.sameHost && a.hasQuery == b.hasQuery
        && (|| a.pathSegments < b.pathSegments
            || (a.pathSegments == b.pathSegments && a.length < b.length)
            || (a.pathSegments == b.pathSegments && a.length == b.length && Text.Precedes(x, y))))
  }

  lemma RankingIs(env: Env, parent: Task, proof: CrawlProof, x: string, y: string)
    ensures LinkBefore(env, parent, proof, x, y) <==>
      BetterLink(env.linkRank(proof.url, parent.url, x), x, env.linkRank(proof.url, parent.url, y), y)
  {
    Text.BeforeIsByteOrder(x, y);
    hide Text.Before, Text.Precedes;
  }

  /** Ranking is a strict total order on links, whatever their ranks. */
  lemma RankingIsStrictTotal(env: Env, parent: Task, proof: CrawlProof, x: string, y: string, z: string)
    ensures !LinkBefore(env, parent, proof, x, x)
    ensures x != y ==> (LinkBefore(env, parent, proof, x, y) <==> !LinkBefore(env, parent, proof, y, x))
    ensures LinkBefore(env, parent, proof, x, y) && LinkBefore(env, parent, proof, y, z) ==>
      LinkBefore(env, parent, proof, x, z)
  {
    hide Text.Before;
    Text.BeforeIrreflexive(x);
    if x != y {
      Text.BeforeTotal(x, y);
    }
    if Text.Before(x, y) && Text.Before(y, z) {
      Text.BeforeTransitive(x, y, z);
    }
  }

  ghost predicate Ranked(env: Env, parent: Task, proof: CrawlProof, xs: seq<string>) {
    forall i, j :: 0 <= i < j < |xs| ==> !LinkBefore(env, parent, proof, xs[j], xs[i])
  }

  lemma {:induction false} InsertLinkRanks(env: Env, parent: Task, proof: CrawlProof, x: string, xs: seq<string>)
    requires Ranked(env, parent, proof, xs)
    ensures Ranked(env, parent, proof, InsertLink(env, parent, proof, x, xs))
  {
    hide LinkBefore;
    var r := InsertLink(env, parent, proof, x, xs);
    if xs == [] {
    } else if LinkBefore(env, parent, proof, xs[0], x) {
      InsertLinkRanks(env, parent, proof, x, xs[1..]);
      InsertLinkKeeps(env, parent, proof, x, xs[1..]);
      forall j | 1 <= j < |r|
        ensures !LinkBefore(env, parent, proof, r[j], xs[0])
      {
        assert r[j] in multiset(r[1..]);
        RankingIsStrictTotal(env, parent, proof, xs[0], r[j], x);
        assert r[j] == x || r[j] in xs[1..];
      }
    } else {
      forall j | 1 <= j < |r|
        ensures !LinkBefore(env, parent, proof, r[j], x)
      {
        assert r[j] == xs[j - 1];
        RankingIsStrictTotal(env, parent, proof, xs[0], xs[0], xs[0]);
        NotBeforeChain(env, parent, proof, x, xs[0], r[j]);
      }
    }
  }

  /** What does not rank before `y`, when `y` does not rank before `x`, does not rank before `x`. */
  lemma NotBeforeChain(env: Env, parent: Task, proof: CrawlProof, x: string, y: string, z: string)
    requires !LinkBefore(env, parent, proof, y, x) && !LinkBefore(env, parent, proof, z, y)
    ensures !LinkBefore(env, parent, proof, z, x)
  {
    hide LinkBefore;
    RankingIsStrictTotal(env, parent, proof, z, x, y);
    RankingIsStrictTotal(env, parent, proof, x, y, z);
  }

  lemma {:induction false} SortLinksRanks(env: Env, parent: Task, proof: CrawlProof, xs: seq<string>)
    ensures Ranked(env, parent, proof, SortLinks(env, parent, proof, xs))
  {
    if xs != [] {
      SortLinksRanks(env, parent, proof, xs[1..]);
      InsertLinkRanks(env, parent, proof, xs[0], SortLinks(env, parent, proof, xs[1..]));
    }
  }

  /** When some links become tasks, no candidate that was passed over ranks before one that was taken. */
  lemma TargetsAreBest(env: Env, s: Snapshot, parent: Task, proof: CrawlProof, x: string, y: string)
    requires var found := CandidateLinks(env, s, parent, proof, proof.page.outboundLinks, {});
      x in SpawnTargets(env, s, parent, proof) && y in found && y !in SpawnTargets(env, s, parent, proof)
    ensures x in CandidateLinks(env, s, parent, proof, proof.page.outboundLinks, {})
    ensures LinkBefore(env, parent, proof, x, y)
    ensures BetterLink(env.linkRank(proof.url, parent.url, x), x, env.linkRank(proof.url, parent.url, y), y)
  {
    RankingIs(env, parent, proof, x, y);
    hide HasActiveUrl, ActiveAutonomous, CandidateLinks, SortLinks, LinkBefore, BetterLink;
    var found := CandidateLinks(env, s, parent, proof, proof.page.outboundLinks, {});
    var sorted := SortLinks(env, parent, proof, found);
    SortLinksKeeps(env, parent, proof, found);
    SortLinksRanks(env, parent, proof, found);
    assert y in multiset(found) && x in multiset(sorted);
    assert y in sorted && x in multiset(found);
    var taken := SpawnTargets(env, s, parent, proof);
    var i :| 0 <= i < |taken| && taken[i] == x;
    var j :| 0 <= j < |sorted| && sorted[j] == y;
    PassedOver(taken, sorted);
    RankingIsStrictTotal(env, parent, proof, x, y, x);
  }

  lemma PassedOver(taken: seq<string>, whole: seq<string>)
    requires taken <= whole
    ensures forall j :: 0 <= j < |whole| && whole[j] !in taken ==> j >= |taken|
  {
  }

  // ---------------------------------------------------------------- the invariant

  ghost predicate DepthFits(t: Task) {
    if t.autonomous then 1 <= t.depth <= CRAWL_MAX_DEPTH else t.depth == 0
  }

  ghost predicate DistinctUrls(tasks: map<string, Task>) {
    forall i, j ::
      i in tasks && j in tasks && i != j && IsActiveAutonomous(tasks[i]) && IsActiveAutonomous(tasks[j]) ==>
        tasks[i].url != tasks[j].url
  }

  /** Depth at most 2, at most 1024 active autonomous tasks, and no two of them for the same page. */
  ghost predicate FrontierInv(tasks: map<string, Task>) {
    && (forall id :: id in tasks ==> tasks[id].id == id && DepthFits(tasks[id]))
    && |ActiveAutonomous(tasks)| <= CRAWL_PENDING_LIMIT
    && DistinctUrls(tasks)
  }

  /** The active set grows by at most the written task, and only if that is active. */
  lemma ActiveSetPut(tasks: map<string, Task>, id: string, t: Task)
    ensures |ActiveAutonomous(tasks[id := t])| <= |ActiveAutonomous(tasks)| + if IsActiveAutonomous(t) then 1 else 0
  {
    var a, b := ActiveAutonomous(tasks), ActiveAutonomous(tasks[id := t]);
    if IsActiveAutonomous(t) {
      assert b == a + {id};
    } else {
      assert b == a - {id};
      SmallerSet(b, a);
    }
  }

  /** Writing a task that is not an active autonomous one. */
  lemma InertPut(tasks: map<string, Task>, id: string, t: Task)
    requires FrontierInv(tasks) && t.id == id && DepthFits(t) && !IsActiveAutonomous(t)
    ensures FrontierInv(tasks[id := t])
    ensures |ActiveAutonomous(tasks[id := t])| <= |ActiveAutonomous(tasks)|
  {
    hide ActiveAutonomous;
    ActiveSetPut(tasks, id, t);
  }

  lemma {:induction false} SmallerSet<T>(a: set<T>, b: set<T>)
    requires a <= b
    ensures |a| <= |b|
  {
    if a != {} {
      var x :| x in a;
      SmallerSet(a - {x}, b - {x});
    }
  }

  /** Writing one new autonomous task. */
  lemma ActivePut(tasks: map<string, Task>, t: Task)
    requires FrontierInv(tasks) && DepthFits(t) && IsActiveAutonomous(t)
    requires |ActiveAutonomous(tasks)| < CRAWL_PENDING_LIMIT && !HasActiveUrl(tasks, t.url)
    ensures FrontierInv(tasks[t.id := t])
    ensures |ActiveAutonomous(tasks[t.id := t])| <= |ActiveAutonomous(tasks)| + 1
    ensures forall u :: u != t.url && !HasActiveUrl(tasks, u) ==> !HasActiveUrl(tasks[t.id := t], u)
  {
    hide ActiveAutonomous;
    ActiveSetPut(tasks, t.id, t);
    forall i | i in tasks && IsActiveAutonomous(tasks[i])
      ensures tasks[i].url != t.url
    {
      assert IsActive(tasks[i]);
    }
  }

  lemma {:induction false} SpawnKeepsFrontier(env: Env, tasks: map<string, Task>, parent: Task, proof: CrawlProof,
                                              targets: seq<string>)
    requires FrontierInv(tasks) && Distinct(targets) && DepthFits(parent)
    requires forall x :: x in targets ==> !HasActiveUrl(tasks, x)
    requires targets != [] ==>
      |ActiveAutonomous(tasks)| + |targets| <= CRAWL_PENDING_LIMIT && parent.depth < CRAWL_MAX_DEPTH
    ensures FrontierInv(AddSpawned(env, tasks, parent, proof, targets))
    decreases |targets|
  {
    hide Text.Trim, FrontierInv, HasActiveUrl, ActiveAutonomous;
    if targets != [] {
      var t := SpawnedTask(env, parent, proof, targets[0]);
      ActivePut(tasks, t);
      assert forall x :: x in targets[1..] ==> x in targets && x != t.url;
      SpawnKeepsFrontier(env, tasks[t.id := t], parent, proof, targets[1..]);
    }
  }

  /** A follow-on task: free of charge, one level deeper, for the target, in the name of its origin. */
  ghost predicate IsFollowOn(env: Env, parent: Task, proof: CrawlProof, target: string, t: Task) {
    t == Task(id := env.taskId(Text.Trim(parent.id), parent.depth + 1, Text.Trim(target)),
              txHash := if Text.Trim(parent.txHash) == "" then parent.id else Text.Trim(parent.txHash),
              submitter := parent.submitter, query := parent.query, url := target, baseBounty := Plain(0),
              gross := 0, fee := 0, reward := 0, difficulty := 0, dataVolume := 0, createdAt := proof.createdAt,
              autonomous := true, parentId := parent.id, depth := parent.depth + 1, completed := false,
              completedAt := 0, proofHash := "", minedBy := "")
  }

  /** Writing the targets adds a follow-on task for each and changes nothing else. */
  lemma {:induction false} SpawnedAre(env: Env, tasks: map<string, Task>, parent: Task, proof: CrawlProof,
                                      targets: seq<string>)
    ensures var r := AddSpawned(env, tasks, parent, proof, targets);
      && (forall id :: id in tasks ==> id in r)
      && (forall id :: id in r ==>
            || (id in tasks && r[id] == tasks[id])
            || (exists x :: x in targets && IsFollowOn(env, parent, proof, x, r[id]) && r[id].id == id))
      && (forall x :: x in targets ==> env.taskId(Text.Trim(parent.id), parent.depth + 1, Text.Trim(x)) in r)
    decreases |targets|
  {
    hide Text.Trim;
    if targets != [] {
      var t := SpawnedTask(env, parent, proof, targets[0]);
      assert targets == [targets[0]] + targets[1..];
      assert IsFollowOn(env, parent, proof, targets[0], t);
      SpawnedAre(env, tasks[t.id := t], parent, proof, targets[1..]);
    }
  }

  lemma TransactionKeepsFrontier(env: Env, s: Snapshot, raw: Transaction, configured: string)
    requires EnvSound(env) && FrontierInv(s.tasks) && ApplyTransaction(env, s, raw, configured).Ok?
    ensures FrontierInv(ApplyTransaction(env, s, raw, configured).value.state.tasks)
  {
    hide ApplyTransaction, EnvSound, AddressOfKey, NormalizeTransaction, NormalizedArchitect, Credit, Debit,
      BalanceOf, ArchitectFee, FrontierInv;
    TransactionMoves(env, s, raw, configured);
    var a := ApplyTransaction(env, s, raw, configured).value;
    if a.tx.kind == SearchTask {
      var value := Parsed(a.tx.value).value;
      var request :| a.state.tasks == s.tasks[a.tx.hash := PaidTask(a.tx, request, value, a.fee, a.net)];
      InertPut(s.tasks, a.tx.hash, PaidTask(a.tx, request, value, a.fee, a.net));
    }
  }

  /** Settling a task and spawning its follow-on tasks keep the frontier invariant. */
  lemma ProofKeepsFrontier(env: Env, s: Snapshot, raw: CrawlProof, blockHash: string)
    requires FrontierInv(s.tasks) && ApplyCrawlProof(env, s, raw, blockHash).Ok?
    ensures FrontierInv(ApplyCrawlProof(env, s, raw, blockHash).value.state.tasks)
  {
    hide ApplyCrawlProof, SpawnTargets, AddSpawned, IndexRecord, IndexPage, Credit, Debit, BalanceOf,
      ActiveAutonomous, HasActiveUrl, DistinctUrls;
    ProofPays(env, s, raw, blockHash);
    var a := ApplyCrawlProof(env, s, raw, blockHash).value;
    var task := s.tasks[a.proof.taskId];
    var done := Settled(task, a.proof);
    var settled := s.tasks[task.id := done];
    var indexed := IndexPage(s, a.proof.url, IndexRecord(env, a.proof, blockHash));
    var after := indexed.(balances := a.state.balances, tasks := settled);
    InertPut(s.tasks, task.id, done);
    TargetsAreNew(env, after, done, a.proof);
    SpawnKeepsFrontier(env, settled, done, a.proof, a.spawned);
  }

  // ---------------------------------------------------------------- the potential

  /** How many follow-on tasks an unsettled task may still cause: 4 + 4*4 when paid, 4 at depth 1, none at depth 2. */
  function Potential(t: Task): int {
    if t.completed then 0 else if !t.autonomous then 20 else if t.depth == 1 then 4 else 0
  }

  lemma {:induction false} SpawnPotential(env: Env, tasks: map<string, Task>, parent: Task, proof: CrawlProof,
                                          targets: seq<string>)
    ensures Total(AddSpawned(env, tasks, parent, proof, targets), Potential)
         <= Total(tasks, Potential) + |targets| * (if parent.depth == 0 then 4 else 0)
    decreases |targets|
  {
    hide Text.Trim;
    if targets != [] {
      var t := SpawnedTask(env, parent, proof, targets[0]);
      TotalPut(tasks, Potential, t.id, t);
      SpawnPotential(env, tasks[t.id := t], parent, proof, targets[1..]);
    }
  }

  /** A proof spends at least as much potential as the tasks it spawns. */
  lemma ProofSpendsPotential(env: Env, s: Snapshot, raw: CrawlProof, blockHash: string)
    requires FrontierInv(s.tasks) && ApplyCrawlProof(env, s, raw, blockHash).Ok?
    ensures var a := ApplyCrawlProof(env, s, raw, blockHash).value;
      Total(a.state.tasks, Potential) + |a.spawned| <= Total(s.tasks, Potential)
  {
    hide ApplyCrawlProof, SpawnTargets, AddSpawned, IndexRecord, IndexPage, Credit, Debit, BalanceOf,
      ActiveAutonomous, HasActiveUrl, DistinctUrls;
    ProofPays(env, s, raw, blockHash);
    var a := ApplyCrawlProof(env, s, raw, blockHash).value;
    var task := s.tasks[a.proof.taskId];
    var done := Settled(task, a.proof);
    var settled := s.tasks[task.id := done];
    var indexed := IndexPage(s, a.proof.url, IndexRecord(env, a.proof, blockHash));
    var after := indexed.(balances := a.state.balances, tasks := settled);
    TargetsAreNew(env, after, done, a.proof);
    TotalPut(s.tasks, Potential, task.id, done);
    SpawnPotential(env, settled, done, a.proof, a.spawned);
  }

  /** A paid search task brings 20 units of potential; no other transaction brings any. */
  lemma TransactionPotential(env: Env, s: Snapshot, raw: Transaction, configured: string)
    requires EnvSound(env) && ApplyTransaction(env, s, raw, configured).Ok?
    ensures var a := ApplyTransaction(env, s, raw, configured).value;
      Total(a.state.tasks, Potential) <= Total(s.tasks, Potential) + if a.tx.kind == SearchTask then 20 else 0
  {
    hide ApplyTransaction, EnvSound, AddressOfKey, NormalizeTransaction, NormalizedArchitect, Credit, Debit,
      BalanceOf, ArchitectFee;
    TransactionMoves(env, s, raw, configured);
    var a := ApplyTransaction(env, s, raw, configured).value;
    if a.tx.kind == SearchTask {
      var value := Parsed(a.tx.value).value;
      var request :| a.state.tasks == s.tasks[a.tx.hash := PaidTask(a.tx, request, value, a.fee, a.net)];
      TotalPut(s.tasks, Potential, a.tx.hash, PaidTask(a.tx, request, value, a.fee, a.net));
    }
  }
}
