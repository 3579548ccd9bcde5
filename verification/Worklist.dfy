/**
 The import worklist as a function of what a node knows, and what it does to stored and parked
 blocks for any input. `Sync.ImportRemoteBlock` computes this function.
 */
module Worklist {
  import opened Records
  import opened Chain
  import opened Orphans
  import Text

  /** The optional re-crawl validator, a foreign check of a block against its parent's state. */
  type Validator = Option<(Snapshot, Block) -> Option<Error>>

  /** The blocks a node has received, and the stored form and snapshot of each and of the genesis. */
  datatype Known = Known(received: map<string, Block>, blocks: map<string, Block>, snapshots: map<string, Snapshot>)

  ghost predicate Settled(k: Known) {
    && k.blocks.Keys == k.snapshots.Keys
    && "" !in k.blocks
    && forall h :: h in k.received ==> h in k.blocks
  }

  // ---------------------------------------------------------------- one attempt

  /** How an import attempt ends: stored, set aside because the chain misses its parent, or failed. */
  datatype Attempt = Stored(p: Prepared) | Unplaced | Failed(error: Error)

  function Verdict(validate: Validator, k: Known, b: Block): Option<Error> {
    var parent := b.header.parentHash;
    if validate.None? then None
    else if parent !in k.snapshots then Some(BlockNotFound)
    else validate.value(k.snapshots[parent], b)
  }

  /** Validation, then import, of a block that is not stored. */
  function TryImport(rules: Rules, validate: Validator, k: Known, b: Block): Attempt {
    var parent, verdict := b.header.parentHash, Verdict(validate, k, b);
    if verdict.Some? then Failed(verdict.value)
    else if b.hash == "" then Failed(InvalidBlock)
    else if parent !in k.blocks || parent !in k.snapshots then Unplaced
    else
      match rules.prepare(k.blocks[parent], k.snapshots[parent], b)
      case Err(e) => Failed(e)
      case Ok(p) => Stored(p)
  }

  /** There is no validator, or it sees the parent's state and finds nothing wrong. */
  ghost predicate Passes(validate: Validator, k: Known, b: Block) {
    validate.None?
    || (b.header.parentHash in k.snapshots && validate.value(k.snapshots[b.header.parentHash], b) == None)
  }

  /** The block passes, is named, stands on a stored parent, and the ledger prepares it. */
  ghost predicate Accepts(rules: Rules, validate: Validator, k: Known, b: Block, p: Prepared) {
    var parent := b.header.parentHash;
    && Passes(validate, k, b) && b.hash != "" && parent in k.blocks && parent in k.snapshots
    && rules.prepare(k.blocks[parent], k.snapshots[parent], b) == Ok(p)
  }

  /**
   The validator misses the parent's state or objects, or else the block is not named or the ledger
   refuses it. A missing parent alone is no refusal.
   */
  ghost predicate Refuses(rules: Rules, validate: Validator, k: Known, b: Block, e: Error) {
    var parent := b.header.parentHash;
    || (validate.Some? && parent !in k.snapshots && e == BlockNotFound)
    || (validate.Some? && parent in k.snapshots && validate.value(k.snapshots[parent], b) == Some(e))
    || (Passes(validate, k, b) && b.hash == "" && e == InvalidBlock)
    || (Passes(validate, k, b) && b.hash != "" && parent in k.blocks && parent in k.snapshots
        && rules.prepare(k.blocks[parent], k.snapshots[parent], b) == Err(e))
  }

  /** The three ends of an attempt. */
  lemma AttemptExactly(rules: Rules, validate: Validator, k: Known, b: Block)
    ensures forall p :: TryImport(rules, validate, k, b) == Stored(p) <==> Accepts(rules, validate, k, b, p)
    ensures forall e :: TryImport(rules, validate, k, b) == Failed(e) <==> Refuses(rules, validate, k, b, e)
  {
  }

  function Grow(k: Known, b: Block, p: Prepared): Known {
    Known(k.received[b.hash := b], k.blocks[b.hash := p.block], k.snapshots[b.hash := p.state])
  }

  // ---------------------------------------------------------------- one turn

  datatype TurnResult = TurnResult(known: Known, parked: map<string, Block>, r: Result<seq<Block>>)

  /** Takes one block: ignores, parks, sets aside, stores with its parked children released, or fails. */
  ghost function Turn(rules: Rules, validate: Validator, k: Known, parked: map<string, Block>, b: Block): TurnResult {
    if b.hash in k.blocks then TurnResult(k, parked, Ok([]))
    else if b.header.number > 0 && b.header.parentHash !in k.blocks then
      TurnResult(k, if b.hash in parked then parked else parked[b.hash := b], Ok([]))
    else
      match TryImport(rules, validate, k, b)
      case Failed(e) => TurnResult(k, parked, Err(e))
      case Unplaced => TurnResult(k, parked, Ok([]))
      case Stored(p) =>
        TurnResult(Grow(k, b, p), Without(parked, b.hash), Ok(Ordered(ChildrenOf(parked, b.hash))))
  }

  lemma TurnShrinks(rules: Rules, validate: Validator, k: Known, parked: map<string, Block>, b: Block)
    requires ByHash(parked)
    ensures var t := Turn(rules, validate, k, parked, b);
      && ByHash(t.parked)
      && (t.r.Ok? ==>
            || |t.r.value| + |t.parked| <= |parked|
            || (t.r.value == [] && |t.parked| <= |parked| + 1))
  {
    ReleaseCounts(parked, b.hash);
  }

  // ---------------------------------------------------------------- the whole worklist

  /** What a run leaves: the knowledge, the buffer, the error if any, and then the queue it stopped at. */
  datatype Outcome = Outcome(known: Known, parked: map<string, Block>, err: Option<Error>, rest: seq<Block>)

  /** Works the queue off, released children first, and stops at the first failure. */
  ghost function Drive(rules: Rules, validate: Validator, k: Known, parked: map<string, Block>,
                       queue: seq<Block>): Outcome
    requires ByHash(parked)
    decreases |queue| + |parked|, |queue|
  {
    if queue == [] then Outcome(k, parked, None, [])
    else
      TurnShrinks(rules, validate, k, parked, queue[0]);
      var t := Turn(rules, validate, k, parked, queue[0]);
      match t.r
      case Err(e) => Outcome(k, parked, Some(e), queue)
      case Ok(children) => Drive(rules, validate, t.known, t.parked, children + queue[1..])
  }

  // ---------------------------------------------------------------- what a turn keeps

  /** Nothing known is forgotten or changed. */
  ghost predicate Continues(k: Known, more: Known) {
    && (forall h :: h in k.blocks ==> h in more.blocks && more.blocks[h] == k.blocks[h])
    && (forall h :: h in k.snapshots ==> h in more.snapshots && more.snapshots[h] == k.snapshots[h])
    && (forall h :: h in k.received ==> h in more.received && more.received[h] == k.received[h])
  }

  /** The three ways a turn can go: nothing becomes known, an orphan is parked, or the block is stored. */
  lemma TurnCases(rules: Rules, validate: Validator, k: Known, parked: map<string, Block>, b: Block)
    ensures var t, a := Turn(rules, validate, k, parked, b), TryImport(rules, validate, k, b);
      || (t.known == k && t.parked == parked && (t.r == Ok([]) || t.r.Err?))
      || (t.known == k && b.header.parentHash !in k.blocks && t.r == Ok([]))
      || (b.hash != "" && b.hash !in k.blocks && a.Stored?
          && t == TurnResult(Grow(k, b, a.p), Without(parked, b.hash), Ok(Ordered(ChildrenOf(parked, b.hash)))))
  {
    hide Verdict, Ordered, ChildrenOf, Without, Grow;
  }

  lemma GrowContinues(k: Known, b: Block, p: Prepared)
    requires Settled(k) && b.hash != "" && b.hash !in k.blocks
    ensures Settled(Grow(k, b, p)) && Continues(k, Grow(k, b, p))
  {
  }

  lemma ContinuesSelf(k: Known)
    ensures Continues(k, k)
  {
  }

  lemma TurnContinues(rules: Rules, validate: Validator, k: Known, parked: map<string, Block>, b: Block)
    requires Settled(k)
    ensures var t := Turn(rules, validate, k, parked, b); Settled(t.known) && Continues(k, t.known)
  {
    hide *;
    TurnCases(rules, validate, k, parked, b);
    ContinuesSelf(k);
    var a := TryImport(rules, validate, k, b);
    if b.hash != "" && b.hash !in k.blocks && a.Stored? {
      GrowContinues(k, b, a.p);
    }
  }

  /** Each block of the queue has its parent stored. */
  ghost predicate Ready(k: Known, queue: seq<Block>) {
    forall b :: b in queue ==> b.header.parentHash in k.blocks
  }

  /** The blocks stored by going from `k` to `more`. */
  ghost predicate NewIn(k: Known, more: Known, hash: string) {
    hash in more.blocks && hash !in k.blocks
  }

  /** What a turn without an error does to a ready block `b`. */
  ghost predicate TurnKeeps(k: Known, parked: map<string, Block>, b: Block, k': Known, parked': map<string, Block>,
                            children: seq<Block>) {
    && b.hash in k'.blocks
    && (forall h :: NewIn(k, k', h) ==> h == b.hash)
    && (forall h :: h in parked ==> (h in parked' <==> !NewIn(k, k', parked[h].header.parentHash)))
    && (forall h :: h in parked' ==> h in parked && parked'[h] == parked[h])
    && (forall x :: x in children <==> x.hash in parked && parked[x.hash] == x && x.hash !in parked')
    && (k'.received == k.received || k'.received == k.received[b.hash := b])
  }

  /** With its parent stored a block is ignored, stored or failed, and parks nothing. */
  lemma ReadyTurn(rules: Rules, validate: Validator, k: Known, parked: map<string, Block>, b: Block, rest: seq<Block>)
    requires Settled(k) && ByHash(parked) && Ready(k, [b] + rest)
    ensures var t := Turn(rules, validate, k, parked, b);
      t.r.Ok? ==> TurnKeeps(k, parked, b, t.known, t.parked, t.r.value) && Ready(t.known, t.r.value + rest)
  {
    hide *;
    ReadyParts(k, b, rest);
    TurnUnfold(rules, validate, k, parked, b);
    ReadyIsPlaced(rules, validate, k, b);
    IgnoredKeeps(k, parked, b, rest);
    var a := TryImport(rules, validate, k, b);
    if b.hash !in k.blocks && a.Stored? {
      StoredKeeps(k, parked, b, a.p, rest);
    }
  }

  lemma ReadyParts(k: Known, b: Block, rest: seq<Block>)
    requires Settled(k) && Ready(k, [b] + rest)
    ensures b.header.parentHash in k.blocks && Ready(k, rest) && k.blocks.Keys == k.snapshots.Keys
  {
    assert b in [b] + rest;
    assert forall x :: x in rest ==> x in [b] + rest;
  }

  lemma ReadyIsPlaced(rules: Rules, validate: Validator, k: Known, b: Block)
    requires b.header.parentHash in k.blocks && k.blocks.Keys == k.snapshots.Keys
    ensures TryImport(rules, validate, k, b) != Unplaced
  {
  }

  lemma IgnoredKeeps(k: Known, parked: map<string, Block>, b: Block, rest: seq<Block>)
    requires Ready(k, rest)
    ensures b.hash in k.blocks ==> TurnKeeps(k, parked, b, k, parked, []) && Ready(k, [] + rest)
  {
    assert [] + rest == rest;
  }

  lemma StoredKeeps(k: Known, parked: map<string, Block>, b: Block, p: Prepared, rest: seq<Block>)
    requires ByHash(parked) && Ready(k, rest) && b.hash !in k.blocks
    ensures var children := Ordered(ChildrenOf(parked, b.hash));
      TurnKeeps(k, parked, b, Grow(k, b, p), Without(parked, b.hash), children) && Ready(Grow(k, b, p), children + rest)
  {
    var children := Ordered(ChildrenOf(parked, b.hash));
    hide *;
    ReleasedAre(parked, b.hash);
    GrowAdds(k, b, p);
    ReadyAfter(k, Grow(k, b, p), b, children, rest);
    StoredIsKept(k, parked, b, Grow(k, b, p), Without(parked, b.hash), children);
  }

  lemma GrowAdds(k: Known, b: Block, p: Prepared)
    ensures Grow(k, b, p).blocks.Keys == k.blocks.Keys + {b.hash}
    ensures Grow(k, b, p).received == k.received[b.hash := b]
  {
  }

  lemma StoredIsKept(k: Known, parked: map<string, Block>, b: Block, more: Known, kept: map<string, Block>,
                     children: seq<Block>)
    requires b.hash !in k.blocks
    requires more.blocks.Keys == k.blocks.Keys + {b.hash} && more.received == k.received[b.hash := b]
    requires forall h :: h in parked ==> (h in kept <==> parked[h].header.parentHash != b.hash)
    requires forall h :: h in kept ==> h in parked && kept[h] == parked[h]
    requires forall x :: x in children <==> x.hash in parked && parked[x.hash] == x && x.hash !in kept
    ensures TurnKeeps(k, parked, b, more, kept, children)
  {
    assert forall h :: h in more.blocks <==> h in k.blocks.Keys + {b.hash};
  }

  lemma ReadyAfter(k: Known, more: Known, b: Block, children: seq<Block>, rest: seq<Block>)
    requires Ready(k, rest) && more.blocks.Keys == k.blocks.Keys + {b.hash}
    requires forall x :: x in children ==> x.header.parentHash == b.hash
    ensures Ready(more, children + rest)
  {
    forall x | x in children + rest
      ensures x.header.parentHash in more.blocks.Keys
    {
    }
  }

  /** The released blocks and what stays parked. */
  lemma ReleasedAre(parked: map<string, Block>, hash: string)
    requires ByHash(parked)
    ensures var children, kept := Ordered(ChildrenOf(parked, hash)), Without(parked, hash);
      && (forall x :: x in children <==> x.hash in parked && parked[x.hash] == x && x.hash !in kept)
      && (forall x :: x in children ==> x.header.parentHash == hash)
      && (forall h :: h in parked ==> (h in kept <==> parked[h].header.parentHash != hash))
      && (forall h :: h in kept ==> h in parked && kept[h] == parked[h])
  {
    var children := Ordered(ChildrenOf(parked, hash));
    forall x
      ensures x in children <==> x.hash in parked && parked[x.hash] == x && x.header.parentHash == hash
    {
      assert x in children <==> x in ChildrenOf(parked, hash);
    }
    hide Ordered, ChildrenOf;
  }

  /** A failure on a ready block is the validator's or the ledger's word on it, and changes nothing. */
  lemma FailingTurn(rules: Rules, validate: Validator, k: Known, parked: map<string, Block>, b: Block)
    ensures var t := Turn(rules, validate, k, parked, b);
      t.r.Err? ==> b.hash !in k.blocks && TryImport(rules, validate, k, b) == Failed(t.r.error)
  {
  }

  // ---------------------------------------------------------------- what a run keeps

  /** `b` was in the queue, or was released in going from `parked` to `parked'`. */
  ghost predicate Offered(queue: seq<Block>, parked: map<string, Block>, parked': map<string, Block>, b: Block) {
    b in queue || (b.hash in parked && parked[b.hash] == b && b.hash !in parked')
  }

  /** A parked block leaves the buffer if and only if the run stored its parent. */
  ghost predicate LeavesExactly(k: Known, parked: map<string, Block>, o: Outcome) {
    && (forall h :: h in parked ==> (h in o.parked <==> !NewIn(k, o.known, parked[h].header.parentHash)))
    && (forall h :: h in o.parked ==> h in parked && o.parked[h] == parked[h])
  }

  /** Every offered block is stored or left in the queue, and nothing else is left in the queue. */
  ghost predicate Placed(parked: map<string, Block>, queue: seq<Block>, o: Outcome) {
    && (forall b :: Offered(queue, parked, o.parked, b) ==> b.hash in o.known.blocks || b in o.rest)
    && (forall b :: b in o.rest ==> Offered(queue, parked, o.parked, b))
  }

  /** Whatever was received in the run was offered. */
  ghost predicate OnlyOffered(k: Known, parked: map<string, Block>, queue: seq<Block>, o: Outcome) {
    forall h :: h in o.known.received ==>
      || (h in k.received && o.known.received[h] == k.received[h])
      || (o.known.received[h].hash == h && Offered(queue, parked, o.parked, o.known.received[h]))
  }

  /** Without an error the queue is empty; with one its first block is refused by the validator or the ledger. */
  ghost predicate StopsRight(rules: Rules, validate: Validator, o: Outcome) {
    && (o.err == None <==> o.rest == [])
    && (o.err.Some? ==>
          && o.rest[0].hash !in o.known.blocks
          && TryImport(rules, validate, o.known, o.rest[0]) == Failed(o.err.value))
  }

  /** What a run over ready blocks does, for any rules and validator. */
  ghost predicate RunKeeps(rules: Rules, validate: Validator, k: Known, parked: map<string, Block>, queue: seq<Block>,
                           o: Outcome) {
    && Settled(o.known) && Continues(k, o.known) && ByHash(o.parked)
    && LeavesExactly(k, parked, o)
    && Placed(parked, queue, o)
    && OnlyOffered(k, parked, queue, o)
    && StopsRight(rules, validate, o)
  }

  lemma RunStops(rules: Rules, validate: Validator, k: Known, parked: map<string, Block>, queue: seq<Block>, e: Error)
    requires Settled(k) && ByHash(parked) && queue != []
    requires queue[0].hash !in k.blocks && TryImport(rules, validate, k, queue[0]) == Failed(e)
    ensures RunKeeps(rules, validate, k, parked, queue, Outcome(k, parked, Some(e), queue))
  {
  }

  lemma StepLeaves(k: Known, parked: map<string, Block>, b: Block, k': Known, parked': map<string, Block>,
                   children: seq<Block>, o: Outcome)
    requires TurnKeeps(k, parked, b, k', parked', children) && Continues(k, k') && Continues(k', o.known)
    requires LeavesExactly(k', parked', o)
    ensures LeavesExactly(k, parked, o)
  {
    forall h | h in parked
      ensures h in o.parked <==> !NewIn(k, o.known, parked[h].header.parentHash)
    {
      if h in parked' {
        assert parked'[h] == parked[h];
      }
    }
  }

  /** What the rest of the run was offered, the run was offered. */
  lemma StepOffered(k: Known, parked: map<string, Block>, b: Block, rest: seq<Block>, k': Known,
                    parked': map<string, Block>, children: seq<Block>, o: Outcome, x: Block)
    requires TurnKeeps(k, parked, b, k', parked', children)
    requires forall h :: h in o.parked ==> h in parked' && o.parked[h] == parked'[h]
    ensures Offered(children + rest, parked', o.parked, x) ==> Offered([b] + rest, parked, o.parked, x)
    ensures Offered([b] + rest, parked, o.parked, x) ==> x == b || Offered(children + rest, parked', o.parked, x)
  {
    assert x in [b] + rest <==> x == b || x in rest;
    assert x in children + rest <==> x in children || x in rest;
  }

  lemma StepPlaced(k: Known, parked: map<string, Block>, b: Block, rest: seq<Block>, k': Known,
                   parked': map<string, Block>, children: seq<Block>, o: Outcome)
    requires TurnKeeps(k, parked, b, k', parked', children) && Continues(k', o.known)
    requires forall h :: h in o.parked ==> h in parked' && o.parked[h] == parked'[h]
    requires Placed(parked', children + rest, o)
    ensures Placed(parked, [b] + rest, o)
  {
    hide TurnKeeps, Offered;
    assert b.hash in o.known.blocks by {
      TurnStores(k, parked, b, k', parked', children);
    }
    forall x: Block
      ensures Offered([b] + rest, parked, o.parked, x) ==> x == b || Offered(children + rest, parked', o.parked, x)
      ensures Offered(children + rest, parked', o.parked, x) ==> Offered([b] + rest, parked, o.parked, x)
    {
      StepOffered(k, parked, b, rest, k', parked', children, o, x);
    }
  }

  lemma TurnStores(k: Known, parked: map<string, Block>, b: Block, k': Known, parked': map<string, Block>,
                   children: seq<Block>)
    requires TurnKeeps(k, parked, b, k', parked', children)
    ensures b.hash in k'.blocks
    ensures k'.received == k.received || k'.received == k.received[b.hash := b]
  {
  }

  lemma StepReceives(k: Known, parked: map<string, Block>, b: Block, rest: seq<Block>, k': Known,
                     parked': map<string, Block>, children: seq<Block>, o: Outcome)
    requires TurnKeeps(k, parked, b, k', parked', children)
    requires forall h :: h in o.parked ==> h in parked' && o.parked[h] == parked'[h]
    requires OnlyOffered(k', parked', children + rest, o)
    ensures OnlyOffered(k, parked, [b] + rest, o)
  {
    TurnStores(k, parked, b, k', parked', children);
    hide TurnKeeps;
    assert b in [b] + rest;
    forall h | h in o.known.received
      ensures || (h in k.received && o.known.received[h] == k.received[h])
              || (o.known.received[h].hash == h && Offered([b] + rest, parked, o.parked, o.known.received[h]))
    {
      StepOffered(k, parked, b, rest, k', parked', children, o, o.known.received[h]);
    }
  }

  /** One turn in front of a run. */
  lemma RunStep(rules: Rules, validate: Validator, k: Known, parked: map<string, Block>, queue: seq<Block>,
                t: TurnResult, o: Outcome)
    requires Settled(k) && ByHash(parked) && Ready(k, queue) && queue != []
    requires t == Turn(rules, validate, k, parked, queue[0]) && t.r.Ok?
    requires RunKeeps(rules, validate, t.known, t.parked, t.r.value + queue[1..], o)
    ensures RunKeeps(rules, validate, k, parked, queue, o)
  {
    var b, rest, children := queue[0], queue[1..], t.r.value;
    assert queue == [b] + rest;
    TurnContinues(rules, validate, k, parked, b);
    ReadyTurn(rules, validate, k, parked, b, rest);
    assert forall h :: h in o.parked ==> h in t.parked && o.parked[h] == t.parked[h];
    hide Turn, TurnKeeps, Ready, LeavesExactly, Placed, OnlyOffered, StopsRight, Settled, Continues, ByHash;
    ContinuesTwice(k, t.known, o.known);
    StepLeaves(k, parked, b, t.known, t.parked, children, o);
    StepPlaced(k, parked, b, rest, t.known, t.parked, children, o);
    StepReceives(k, parked, b, rest, t.known, t.parked, children, o);
  }

  lemma ContinuesTwice(a: Known, b: Known, c: Known)
    requires Continues(a, b) && Continues(b, c)
    ensures Continues(a, c)
  {
  }

  lemma {:induction false} RunOfReady(rules: Rules, validate: Validator, k: Known, parked: map<string, Block>,
                                      queue: seq<Block>)
    requires Settled(k) && ByHash(parked) && Ready(k, queue)
    ensures RunKeeps(rules, validate, k, parked, queue, Drive(rules, validate, k, parked, queue))
    decreases |queue| + |parked|, |queue|
  {
    hide RunKeeps, Settled, Ready, Turn, ByHash, TryImport;
    if queue == [] {
      NothingRuns(rules, validate, k, parked);
    } else {
      var t := Turn(rules, validate, k, parked, queue[0]);
      assert [queue[0]] + queue[1..] == queue;
      TurnShrinks(rules, validate, k, parked, queue[0]);
      TurnContinues(rules, validate, k, parked, queue[0]);
      ReadyTurn(rules, validate, k, parked, queue[0], queue[1..]);
      match t.r {
        case Err(e) =>
          FailingTurn(rules, validate, k, parked, queue[0]);
          RunStops(rules, validate, k, parked, queue, e);
        case Ok(children) =>
          RunOfReady(rules, validate, t.known, t.parked, children + queue[1..]);
          var o := Drive(rules, validate, t.known, t.parked, children + queue[1..]);
          RunStep(rules, validate, k, parked, queue, t, o);
      }
    }
  }

  lemma NothingRuns(rules: Rules, validate: Validator, k: Known, parked: map<string, Block>)
    requires Settled(k) && ByHash(parked)
    ensures RunKeeps(rules, validate, k, parked, [], Outcome(k, parked, None, []))
  {
  }

  // ---------------------------------------------------------------- one delivered block

  /** A block to park: new, not claiming height 0, and without its parent. */
  ghost predicate IsOrphan(k: Known, b: Block) {
    b.hash !in k.blocks && b.header.number > 0 && b.header.parentHash !in k.blocks
  }

  function Parked(parked: map<string, Block>, b: Block): map<string, Block> {
    if b.hash in parked then parked else parked[b.hash := b]
  }

  /** A delivered orphan is parked, once, and nothing else happens. */
  lemma OrphanIsParked(rules: Rules, validate: Validator, k: Known, parked: map<string, Block>, b: Block)
    requires ByHash(parked) && IsOrphan(k, b)
    ensures Drive(rules, validate, k, parked, [b]) == Outcome(k, Parked(parked, b), None, [])
  {
    assert [] + [b][1..] == [];
  }

  /** A delivered block without its parent that is not parked changes nothing. */
  lemma RootlessChangesNothing(rules: Rules, validate: Validator, k: Known, parked: map<string, Block>, b: Block)
    requires Settled(k) && ByHash(parked) && b.header.parentHash !in k.blocks && !IsOrphan(k, b)
    ensures var o := Drive(rules, validate, k, parked, [b]);
      && o.known == k && o.parked == parked
      && (o.err == None ==> o.rest == [] && (b.hash in k.blocks || b.header.number == 0))
      && (o.err.Some? ==> o.rest == [b] && b.hash !in k.blocks)
      && (o.err.Some? ==> TryImport(rules, validate, k, b) == Failed(o.err.value))
  {
    hide *;
    DriveOne(rules, validate, k, parked, b);
    RootlessTurn(rules, validate, k, parked, b);
  }

  /** A run over one block, by its first turn. */
  lemma DriveOne(rules: Rules, validate: Validator, k: Known, parked: map<string, Block>, b: Block)
    requires ByHash(parked)
    ensures var t, o := Turn(rules, validate, k, parked, b), Drive(rules, validate, k, parked, [b]);
      && (t.r.Err? ==> o == Outcome(k, parked, Some(t.r.error), [b]))
      && (t.r == Ok([]) ==> o == Outcome(t.known, t.parked, None, []))
  {
    TurnShrinks(rules, validate, k, parked, b);
    assert [] + [b][1..] == [];
    hide Turn;
  }

  lemma RootlessTurn(rules: Rules, validate: Validator, k: Known, parked: map<string, Block>, b: Block)
    requires Settled(k) && b.header.parentHash !in k.blocks && !IsOrphan(k, b)
    ensures var t := Turn(rules, validate, k, parked, b);
      && t.known == k && t.parked == parked && (t.r == Ok([]) || t.r.Err?)
      && (t.r.Ok? ==> b.hash in k.blocks || b.header.number == 0)
      && (t.r.Err? ==> b.hash !in k.blocks && TryImport(rules, validate, k, b) == Failed(t.r.error))
  {
    hide Verdict, Ordered, ChildrenOf, Without;
  }

  /**
   What delivering one block does, for any block, rules and validator. A parked block leaves the
   buffer if and only if the call stored its parent, and nothing but the delivered block enters
   it. Without an error every block that left is stored, and the delivered one is stored, parked,
   or claims height 0 without a stored parent. With an error, what left and is not stored is in
   the queue that the call stopped at, whose first block the validator or the ledger refuses.
   */
  lemma DeliveryKeeps(rules: Rules, validate: Validator, k: Known, parked: map<string, Block>, b: Block)
    requires Settled(k) && ByHash(parked)
    ensures var o := Drive(rules, validate, k, parked, [b]);
      && Settled(o.known) && Continues(k, o.known) && ByHash(o.parked)
      && (forall h :: h in parked ==> (h in o.parked <==> !NewIn(k, o.known, parked[h].header.parentHash)))
      && (forall h :: h in o.parked ==>
            || (h in parked && o.parked[h] == parked[h])
            || (h == b.hash && o.parked[h] == b && IsOrphan(k, b)))
      && (o.err == None ==>
            || b.hash in o.known.blocks
            || (IsOrphan(k, b) && b.hash in o.parked)
            || (b.header.number == 0 && b.header.parentHash !in k.blocks))
      && (o.err == None ==> forall h :: h in parked && h !in o.parked ==> h in o.known.blocks)
      && (o.err.Some? ==> forall h :: h in parked && h !in o.parked ==> h in o.known.blocks || parked[h] in o.rest)
      && (o.err.Some? ==> o.rest != [] && o.rest[0].hash !in o.known.blocks)
      && (o.err.Some? ==> TryImport(rules, validate, o.known, o.rest[0]) == Failed(o.err.value))
      && (b.header.parentHash in k.blocks ==> RunKeeps(rules, validate, k, parked, [b], o))
      && (b.header.parentHash !in k.blocks ==> o.known == k)
  {
    hide *;
    var o := Drive(rules, validate, k, parked, [b]);
    OrphanMeans(k, b);
    if b.header.parentHash in k.blocks {
      ReadyOne(k, b);
      RunOfReady(rules, validate, k, parked, [b]);
      DeliveredReady(rules, validate, k, parked, b, o);
    } else {
      UnchangedKnown(k, o.known);
      if IsOrphan(k, b) {
        OrphanIsParked(rules, validate, k, parked, b);
        ParkedKeeps(k, parked, b);
      } else {
        RootlessChangesNothing(rules, validate, k, parked, b);
        NothingNewIn(k);
      }
    }
  }

  lemma OrphanMeans(k: Known, b: Block)
    ensures IsOrphan(k, b) <==> b.hash !in k.blocks && b.header.number > 0 && b.header.parentHash !in k.blocks
  {
  }

  lemma ReadyOne(k: Known, b: Block)
    requires b.header.parentHash in k.blocks
    ensures Ready(k, [b])
  {
  }

  lemma UnchangedKnown(k: Known, more: Known)
    ensures more == k ==> Continues(k, more)
  {
  }

  lemma NothingNewIn(k: Known)
    ensures forall h :: !NewIn(k, k, h)
  {
  }

  lemma ParkedKeeps(k: Known, parked: map<string, Block>, b: Block)
    requires ByHash(parked)
    ensures ByHash(Parked(parked, b)) && b.hash in Parked(parked, b) && forall h :: !NewIn(k, k, h)
    ensures forall h :: h in parked ==> h in Parked(parked, b)
    ensures forall h :: h in Parked(parked, b) ==>
      (h in parked && Parked(parked, b)[h] == parked[h]) || (h == b.hash && Parked(parked, b)[h] == b)
  {
  }

  /** What a run over the delivered block alone means for it and for the parked blocks. */
  lemma DeliveredReady(rules: Rules, validate: Validator, k: Known, parked: map<string, Block>, b: Block, o: Outcome)
    requires ByHash(parked) && RunKeeps(rules, validate, k, parked, [b], o)
    ensures Settled(o.known) && Continues(k, o.known) && ByHash(o.parked)
    ensures forall h :: h in parked ==> (h in o.parked <==> !NewIn(k, o.known, parked[h].header.parentHash))
    ensures forall h :: h in o.parked ==> h in parked && o.parked[h] == parked[h]
    ensures o.err == None ==>
      b.hash in o.known.blocks && forall h :: h in parked && h !in o.parked ==> h in o.known.blocks
    ensures o.err.Some? ==>
      && o.rest != [] && o.rest[0].hash !in o.known.blocks
      && TryImport(rules, validate, o.known, o.rest[0]) == Failed(o.err.value)
      && forall h :: h in parked && h !in o.parked ==> h in o.known.blocks || parked[h] in o.rest
  {
    hide Settled, Continues, ByHash, TryImport, NewIn;
    assert Offered([b], parked, o.parked, b);
    forall h | h in parked && h !in o.parked
      ensures Offered([b], parked, o.parked, parked[h])
      ensures parked[h].hash == h
    {
      KeyedByHash(parked, h);
    }
  }

  /** A block that is stored already changes nothing. */
  lemma StoredIsIgnored(rules: Rules, validate: Validator, k: Known, parked: map<string, Block>, b: Block)
    requires ByHash(parked) && b.hash in k.blocks
    ensures Drive(rules, validate, k, parked, [b]) == Outcome(k, parked, None, [])
  {
    assert [] + [b][1..] == [];
  }

  /**
   A parked block whose parent is already stored, as mining can leave one, stays parked and is not
   received by delivering any other block.
   */
  lemma StrandedStays(rules: Rules, validate: Validator, k: Known, parked: map<string, Block>, b: Block, h: string)
    requires Settled(k) && ByHash(parked) && h in parked && b.hash != h
    requires parked[h].header.parentHash in k.blocks && h !in k.received
    ensures var o := Drive(rules, validate, k, parked, [b]);
      && h in o.parked && o.parked[h] == parked[h]
      && parked[h].header.parentHash in o.known.blocks && h !in o.known.received
  {
    DeliveryKeeps(rules, validate, k, parked, b);
    hide Drive, TryImport, ByHash, Settled;
    var o := Drive(rules, validate, k, parked, [b]);
    KeyedByHash(parked, h);
    assert forall x: Block :: x.hash == h ==> !Offered([b], parked, o.parked, x);
  }

  lemma KeyedByHash(parked: map<string, Block>, h: string)
    requires ByHash(parked) && h in parked
    ensures parked[h].hash == h
  {
  }

  // ---------------------------------------------------------------- approvals

  ghost predicate Approves(validate: Validator, state: Snapshot, block: Block) {
    validate.Some? ==> validate.value(state, block) == None
  }

  /** Each received block but those of `held` is approved against its parent's snapshot. */
  ghost predicate ApprovedBeyond(validate: Validator, held: set<string>, k: Known) {
    forall h :: h in k.received && h !in held ==>
      k.received[h].header.parentHash in k.snapshots
      && Approves(validate, k.snapshots[k.received[h].header.parentHash], k.received[h])
  }

  lemma TurnApproves(rules: Rules, validate: Validator, held: set<string>, k: Known, parked: map<string, Block>,
                     b: Block)
    requires Settled(k) && ApprovedBeyond(validate, held, k)
    ensures ApprovedBeyond(validate, held, Turn(rules, validate, k, parked, b).known)
  {
  }

  /** Importing never stores a block that the validator refuses. */
  lemma {:induction false} RunApproves(rules: Rules, validate: Validator, held: set<string>, k: Known,
                                       parked: map<string, Block>, queue: seq<Block>)
    requires Settled(k) && ByHash(parked) && ApprovedBeyond(validate, held, k)
    ensures ApprovedBeyond(validate, held, Drive(rules, validate, k, parked, queue).known)
    decreases |queue| + |parked|, |queue|
  {
    hide Settled, Turn, ByHash, ApprovedBeyond;
    if queue != [] {
      var t := Turn(rules, validate, k, parked, queue[0]);
      TurnShrinks(rules, validate, k, parked, queue[0]);
      TurnContinues(rules, validate, k, parked, queue[0]);
      TurnApproves(rules, validate, held, k, parked, queue[0]);
      if t.r.Ok? {
        RunApproves(rules, validate, held, t.known, t.parked, t.r.value + queue[1..]);
      }
    }
  }

  // ---------------------------------------------------------------- the order of imports

  /** The blocks a run would import if none failed: depth first, siblings in height-then-hash order. */
  ghost function Visits(stored: set<string>, parked: map<string, Block>, queue: seq<Block>): seq<Block>
    requires ByHash(parked)
    decreases |queue| + |parked|
  {
    if queue == [] then []
    else
      var b, rest := queue[0], queue[1..];
      if b.hash in stored then Visits(stored, parked, rest)
      else
        ReleaseCounts(parked, b.hash);
        [b] + Visits(stored + {b.hash}, Without(parked, b.hash), Ordered(ChildrenOf(parked, b.hash)) + rest)
  }

  /** Importing blocks one after another up to the first failure. */
  ghost function InTurn(rules: Rules, validate: Validator, k: Known, bs: seq<Block>): (Known, Option<Error>)
    decreases |bs|
  {
    if bs == [] then (k, None)
    else
      match TryImport(rules, validate, k, bs[0])
      case Failed(e) => (k, Some(e))
      case Unplaced => (k, None)
      case Stored(p) => InTurn(rules, validate, Grow(k, bs[0], p), bs[1..])
  }

  /**
   A run over ready blocks imports exactly the blocks of `Visits`, in that order, up to the first
   that fails: so a block is stored by the run if and only if it and all before it succeed.
   */
  lemma {:induction false} RunIsInOrder(rules: Rules, validate: Validator, k: Known, parked: map<string, Block>,
                                        queue: seq<Block>)
    requires Settled(k) && ByHash(parked) && Ready(k, queue)
    ensures var o := Drive(rules, validate, k, parked, queue);
      InTurn(rules, validate, k, Visits(k.blocks.Keys, parked, queue)) == (o.known, o.err)
    decreases |queue| + |parked|, |queue|
  {
    if queue != [] {
      var b, rest := queue[0], queue[1..];
      var t := Turn(rules, validate, k, parked, b);
      assert [b] + rest == queue;
      assert b in queue;
      TurnShrinks(rules, validate, k, parked, b);
      TurnContinues(rules, validate, k, parked, b);
      ReadyTurn(rules, validate, k, parked, b, rest);
      if t.r.Ok? {
        RunIsInOrder(rules, validate, t.known, t.parked, t.r.value + rest);
      }
      VisitsStep(rules, validate, k, parked, b, rest);
    }
  }

  /** The first turn against the first visit. */
  lemma VisitsStep(rules: Rules, validate: Validator, k: Known, parked: map<string, Block>, b: Block, rest: seq<Block>)
    requires Settled(k) && ByHash(parked) && b.header.parentHash in k.blocks
    ensures var t, vs := Turn(rules, validate, k, parked, b), Visits(k.blocks.Keys, parked, [b] + rest);
      && ByHash(t.parked)
      && (t.r.Err? ==> InTurn(rules, validate, k, vs) == (k, Some(t.r.error)))
      && (t.r.Ok? ==>
            InTurn(rules, validate, k, vs)
            == InTurn(rules, validate, t.known, Visits(t.known.blocks.Keys, t.parked, t.r.value + rest)))
  {
    hide *;
    TurnShrinks(rules, validate, k, parked, b);
    VisitsUnfold(k.blocks.Keys, parked, b, rest);
    SettledKeys(k);
    var t, a := Turn(rules, validate, k, parked, b), TryImport(rules, validate, k, b);
    TurnUnfold(rules, validate, k, parked, b);
    if b.hash in k.blocks {
      assert [] + rest == rest;
    } else {
      ReadyIsPlaced(rules, validate, k, b);
      var children := Ordered(ChildrenOf(parked, b.hash));
      var later := Visits(k.blocks.Keys + {b.hash}, Without(parked, b.hash), children + rest);
      InTurnUnfold(rules, validate, k, b, later);
      if a.Stored? {
        GrowAdds(k, b, a.p);
      }
    }
  }

  lemma SettledKeys(k: Known)
    requires Settled(k)
    ensures k.blocks.Keys == k.snapshots.Keys
  {
  }

  lemma VisitsUnfold(stored: set<string>, parked: map<string, Block>, b: Block, rest: seq<Block>)
    requires ByHash(parked)
    ensures ByHash(Without(parked, b.hash))
    ensures Visits(stored, parked, [b] + rest)
         == if b.hash in stored then Visits(stored, parked, rest)
            else
              [b] + Visits(stored + {b.hash}, Without(parked, b.hash), Ordered(ChildrenOf(parked, b.hash)) + rest)
  {
    assert ([b] + rest)[1..] == rest;
    hide Ordered, ChildrenOf;
  }

  lemma InTurnUnfold(rules: Rules, validate: Validator, k: Known, b: Block, later: seq<Block>)
    ensures var a, run := TryImport(rules, validate, k, b), InTurn(rules, validate, k, [b] + later);
      && (a.Failed? ==> run == (k, Some(a.error)))
      && (a.Unplaced? ==> run == (k, None))
      && (a.Stored? ==> run == InTurn(rules, validate, Grow(k, b, a.p), later))
  {
    assert ([b] + later)[1..] == later;
    hide TryImport;
  }

  /** A turn on a block whose parent is stored. */
  lemma TurnUnfold(rules: Rules, validate: Validator, k: Known, parked: map<string, Block>, b: Block)
    requires b.header.parentHash in k.blocks
    ensures var t, a := Turn(rules, validate, k, parked, b), TryImport(rules, validate, k, b);
      && (b.hash in k.blocks ==> t == TurnResult(k, parked, Ok([])))
      && (b.hash !in k.blocks && a.Failed? ==> t == TurnResult(k, parked, Err(a.error)))
      && (b.hash !in k.blocks && a.Unplaced? ==> t == TurnResult(k, parked, Ok([])))
      && (b.hash !in k.blocks && a.Stored? ==>
            t == TurnResult(Grow(k, b, a.p), Without(parked, b.hash), Ok(Ordered(ChildrenOf(parked, b.hash)))))
  {
    hide TryImport, Ordered, ChildrenOf, Without;
  }

  // ---------------------------------------------------------------- a lost sibling

  /** Two parked children of one block. */
  function TwoParked(a: Block, b: Block): map<string, Block> {
    map[a.hash := a, b.hash := b]
  }

  lemma TwoChildren(parent: string, first: Block, second: Block)
    requires first.hash != second.hash && ComesFirst(first, second)
    requires first.header.parentHash == parent == second.header.parentHash
    ensures ByHash(TwoParked(first, second))
    ensures Ordered(ChildrenOf(TwoParked(first, second), parent)) == [first, second]
    ensures Without(TwoParked(first, second), parent) == map[]
  {
    var parked := TwoParked(first, second);
    assert parked[first.hash] == first && parked[second.hash] == second;
    forall b
      ensures b in [first, second] <==> b in ChildrenOf(parked, parent)
    {
      assert first.hash in parked && second.hash in parked;
    }
    EarlierComesFirst(first, second);
    EarlierIsStrictWeak(first, second, first);
    OrderIsUnique([first, second], ChildrenOf(parked, parent));
  }

  /** A released block that fails takes the released blocks behind it along: they are neither stored nor parked. */
  lemma FailingSiblingLoses(rules: Rules, validate: Validator, k: Known, b: Block, p: Prepared, first: Block,
                            second: Block, e: Error)
    requires Settled(k) && b.hash !in k.blocks && b.header.parentHash in k.blocks
    requires TryImport(rules, validate, k, b) == Stored(p)
    requires first.hash != second.hash && first.header.number > 0
    requires first.header.number < second.header.number
      || (first.header.number == second.header.number && Text.Precedes(first.hash, second.hash))
    requires first.header.parentHash == b.hash == second.header.parentHash
    requires first.hash !in k.blocks && first.hash != b.hash
    requires TryImport(rules, validate, Grow(k, b, p), first) == Failed(e)
    ensures ByHash(TwoParked(first, second))
    ensures Drive(rules, validate, k, TwoParked(first, second), [b])
         == Outcome(Grow(k, b, p), map[], Some(e), [first, second])
  {
    TwoChildren(b.hash, first, second);
    hide TryImport, Ordered, ChildrenOf, Without;
    assert [first, second] + [b][1..] == [first, second];
  }

  /** In the other order the valid sibling is stored before the invalid one fails. */
  lemma FailingSiblingLast(rules: Rules, validate: Validator, k: Known, b: Block, p: Prepared, first: Block,
                           q: Prepared, second: Block, e: Error)
    requires Settled(k) && b.hash !in k.blocks && b.header.parentHash in k.blocks
    requires TryImport(rules, validate, k, b) == Stored(p)
    requires first.hash != second.hash
    requires first.header.number < second.header.number
      || (first.header.number == second.header.number && Text.Precedes(first.hash, second.hash))
    requires first.header.parentHash == b.hash == second.header.parentHash
    requires first.hash !in k.blocks && second.hash !in k.blocks && b.hash !in [first.hash, second.hash]
    requires TryImport(rules, validate, Grow(k, b, p), first) == Stored(q)
    requires TryImport(rules, validate, Grow(Grow(k, b, p), first, q), second) == Failed(e)
    ensures ByHash(TwoParked(first, second))
    ensures Drive(rules, validate, k, TwoParked(first, second), [b])
         == Outcome(Grow(Grow(k, b, p), first, q), map[], Some(e), [second])
  {
    TwoChildren(b.hash, first, second);
    GrowAdds(k, b, p);
    GrowAdds(Grow(k, b, p), first, q);
    SecondFails(rules, validate, Grow(k, b, p), first, q, second, e);
    hide TryImport, Ordered, ChildrenOf, Without, Grow;
    assert [first, second] + [b][1..] == [first, second];
  }

  /** The queue of two after the first child is stored. */
  lemma SecondFails(rules: Rules, validate: Validator, k: Known, first: Block, q: Prepared, second: Block, e: Error)
    requires first.header.parentHash in k.blocks && first.header.parentHash == second.header.parentHash
    requires first.hash !in k.blocks && second.hash !in k.blocks && first.hash != second.hash
    requires TryImport(rules, validate, k, first) == Stored(q)
    requires TryImport(rules, validate, Grow(k, first, q), second) == Failed(e)
    ensures ByHash(map[])
    ensures Drive(rules, validate, k, map[], [first, second])
         == Outcome(Grow(k, first, q), map[], Some(e), [second])
  {
    NoChildren(first.hash);
    GrowAdds(k, first, q);
    hide TryImport, Ordered, ChildrenOf, Without, Grow;
    assert [] + [first, second][1..] == [second];
  }

  lemma NoChildren(hash: string)
    ensures ByHash(map[]) && Ordered(ChildrenOf(map[], hash)) == [] && Without(map[], hash) == map[]
  {
    assert ChildrenOf(map[], hash) == {};
  }
}
