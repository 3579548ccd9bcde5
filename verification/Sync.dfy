/** Importing blocks from peers: the worklist loop computes `Worklist.Drive`. */
module Sync {
  import opened Records
  import opened Chain
  import opened Blocks
  import opened Orphans
  import opened Worklist

  /** What a node knows. */
  ghost function KnownOf(chain: Blockchain): Known
    reads chain
  {
    Known(chain.received, chain.db.blocks, chain.db.snapshots)
  }

  lemma ChainSettles(chain: Blockchain)
    requires chain.Valid()
    ensures Settled(KnownOf(chain)) && Sound(chain.rules) && GenesisFits(chain.rules, chain.genesis)
    ensures Replays(chain.rules, chain.genesis, chain.received, chain.db)
    ensures ChainValid(chain.rules, chain.genesis, chain.received, chain.GetView())
  {
  }

  lemma BufferIsByHash(fork: ForkChoice)
    requires fork.Valid()
    ensures ByHash(fork.bufferedByHash)
  {
  }

  // ---------------------------------------------------------------- one block

  /** The re-crawl validation, when there is one, of a block against its parent's state. */
  method Validate(chain: Blockchain, validate: Validator, candidate: Block) returns (verdict: Option<Error>)
    requires chain.Valid()
    ensures verdict == Verdict(validate, KnownOf(chain), candidate)
  {
    ChainSettles(chain);
    hide ChainValid, Replays, Sound;
    verdict := None;
    if validate.Some? {
      var parentState := chain.ParentState(candidate);
      if parentState.Err? {
        return Some(parentState.error);
      }
      verdict := validate.value(parentState.value, candidate);
    }
  }

  /** How the loop takes an import: done, skipped because the chain misses the parent, or an error to return. */
  datatype Ending = Imported | Skipped | Stopped(error: Error)

  /** `ending` is what an attempt comes to, and only a stored block changes what the node knows. */
  ghost predicate EndsAs(attempt: Attempt, b: Block, k: Known, k': Known, ending: Ending) {
    match attempt
    case Failed(e) => ending == Stopped(e) && k' == k
    case Unplaced => ending == Skipped && k' == k
    case Stored(p) => ending == Imported && k' == Grow(k, b, p)
  }

  /** Validation and import of one block that is not stored: a refused block is not stored. */
  method ValidateAndImport(chain: Blockchain, validate: Validator, candidate: Block) returns (ending: Ending)
    requires chain.Valid() && candidate.hash !in chain.db.blocks
    modifies chain
    ensures chain.Valid()
    ensures EndsAs(TryImport(chain.rules, validate, old(KnownOf(chain)), candidate), candidate,
                   old(KnownOf(chain)), KnownOf(chain), ending)
  {
    hide *;
    ChainSettles(chain);
    ChainKnows(chain);
    var verdict := Validate(chain, validate, candidate);
    ghost var k := KnownOf(chain);
    VerdictEnds(chain.rules, validate, k, candidate, verdict);
    if verdict.Some? {
      return Stopped(verdict.value);
    }
    var err := chain.ImportBlock(candidate);
    ChainKnows(chain);
    ending := if err == None then Imported else if err == Some(BlockNotFound) then Skipped else Stopped(err.value);
    ImportEnds(chain.rules, validate, k, candidate, err, KnownOf(chain));
  }

  lemma ChainKnows(chain: Blockchain)
    requires chain.Valid()
    ensures KnownOf(chain) == Known(chain.received, chain.db.blocks, chain.db.snapshots)
    ensures chain.db.blocks.Keys == chain.db.snapshots.Keys
  {
    hide ChainValid;
    ChainSettles(chain);
  }

  lemma VerdictEnds(rules: Rules, validate: Validator, k: Known, b: Block, verdict: Option<Error>)
    requires verdict == Verdict(validate, k, b)
    ensures verdict.Some? ==> EndsAs(TryImport(rules, validate, k, b), b, k, k, Stopped(verdict.value))
  {
  }

  /** From what `ImportBlock` promises to what an attempt is. */
  lemma ImportEnds(rules: Rules, validate: Validator, k: Known, b: Block, err: Option<Error>, k': Known)
    requires Sound(rules) && k.blocks.Keys == k.snapshots.Keys && b.hash !in k.blocks
    requires Verdict(validate, k, b) == None
    requires b.hash == "" ==> err == Some(InvalidBlock) && k' == k
    requires b.hash != "" ==>
      var parent := b.header.parentHash;
      if parent !in k.blocks then err == Some(BlockNotFound) && k' == k
      else match rules.prepare(k.blocks[parent], k.snapshots[parent], b)
        case Err(e) => err == Some(e) && k' == k
        case Ok(p) =>
          && err == None
          && k' == Known(k.received[b.hash := b], k.blocks[b.hash := p.block], k.snapshots[b.hash := p.state])
    ensures EndsAs(TryImport(rules, validate, k, b), b, k, k',
                   if err == None then Imported else if err == Some(BlockNotFound) then Skipped else Stopped(err.value))
  {
    NeverMissing(rules);
    hide Sound, Verdict;
  }

  /** An error is that of the block that the queue stopped at. */
  lemma ErrorHasCause(rules: Rules, validate: Validator, o: Outcome)
    requires o.err.Some? ==>
      && o.rest != [] && o.rest[0].hash !in o.known.blocks
      && TryImport(rules, validate, o.known, o.rest[0]) == Failed(o.err.value)
    ensures o.err.Some? ==>
      exists b: Block :: b.hash !in o.known.blocks && Refuses(rules, validate, o.known, b, o.err.value)
  {
    if o.err.Some? {
      AttemptExactly(rules, validate, o.known, o.rest[0]);
    }
    hide TryImport, Refuses;
  }

  lemma NeverMissing(rules: Rules)
    requires Sound(rules)
    ensures forall parent, state, block :: rules.prepare(parent, state, block) != Err(BlockNotFound)
  {
  }

  // ---------------------------------------------------------------- one turn and the loop

  /** One turn of the worklist: the children to queue next, or the error to stop with. */
  method ImportCandidate(chain: Blockchain, validate: Validator, fork: ForkChoice, candidate: Block)
    returns (r: Result<seq<Block>>)
    requires chain.Valid() && fork.Valid()
    modifies chain, fork
    ensures chain.Valid() && fork.Valid()
    ensures TurnResult(KnownOf(chain), fork.bufferedByHash, r)
         == Turn(chain.rules, validate, old(KnownOf(chain)), old(fork.bufferedByHash), candidate)
  {
    hide *;
    ChainKnows(chain);
    ghost var k, parked := KnownOf(chain), fork.bufferedByHash;
    var hasBlock := chain.HasBlockHash(candidate.hash);
    var hasParent := candidate.header.number == 0;
    if !hasParent {
      hasParent := chain.HasBlockHash(candidate.header.parentHash);
    }
    WaitingTurn(chain.rules, validate, k, parked, candidate);
    var decision := fork.Decide(candidate, hasBlock, hasParent);
    match decision {
      case Ignore => r := Ok([]);
      case Buffer => r := Ok([]);
      case Import =>
        var ending := ValidateAndImport(chain, validate, candidate);
        ImportTurn(chain.rules, validate, k, parked, candidate, KnownOf(chain), ending);
        match ending {
          case Skipped => r := Ok([]);
          case Stopped(e) => r := Err(e);
          case Imported =>
            var children := fork.CanonicalImported(candidate);
            r := Ok(children);
        }
    }
  }

  /** Turns that import nothing. */
  lemma WaitingTurn(rules: Rules, validate: Validator, k: Known, parked: map<string, Block>, b: Block)
    ensures b.hash in k.blocks ==> Turn(rules, validate, k, parked, b) == TurnResult(k, parked, Ok([]))
    ensures b.hash !in k.blocks && b.header.number > 0 && b.header.parentHash !in k.blocks ==>
      Turn(rules, validate, k, parked, b)
      == TurnResult(k, if b.hash in parked then parked else parked[b.hash := b], Ok([]))
  {
  }

  /** Turns that try an import. */
  lemma ImportTurn(rules: Rules, validate: Validator, k: Known, parked: map<string, Block>, b: Block, k': Known,
                   ending: Ending)
    requires b.hash !in k.blocks && (b.header.number == 0 || b.header.parentHash in k.blocks)
    requires EndsAs(TryImport(rules, validate, k, b), b, k, k', ending)
    ensures Turn(rules, validate, k, parked, b)
         == match ending
            case Skipped => TurnResult(k', parked, Ok([]))
            case Stopped(e) => TurnResult(k', parked, Err(e))
            case Imported => TurnResult(k', Without(parked, b.hash), Ok(Ordered(ChildrenOf(parked, b.hash))))
  {
    hide TryImport, Ordered, ChildrenOf, Without;
  }

  lemma DriveEnds(rules: Rules, validate: Validator, k: Known, parked: map<string, Block>)
    requires ByHash(parked)
    ensures Drive(rules, validate, k, parked, []) == Outcome(k, parked, None, [])
  {
  }

  lemma DriveStep(rules: Rules, validate: Validator, k: Known, parked: map<string, Block>, queue: seq<Block>)
    requires ByHash(parked) && queue != []
    ensures var t := Turn(rules, validate, k, parked, queue[0]);
      && ByHash(t.parked)
      && Drive(rules, validate, k, parked, queue)
         == (match t.r
             case Err(e) => Outcome(k, parked, Some(e), queue)
             case Ok(children) => Drive(rules, validate, t.known, t.parked, children + queue[1..]))
      && (t.r.Err? ==> t.known == k && t.parked == parked)
      && (t.r.Ok? ==>
            || |t.r.value| + |t.parked| <= |parked|
            || (t.r.value == [] && |t.parked| <= |parked| + 1))
  {
    TurnShrinks(rules, validate, k, parked, queue[0]);
    hide TryImport, Ordered, ChildrenOf, Without;
  }

  /**
   Delivers one block and whatever parked blocks it makes importable. For any block, validator and
   ledger rules: a parked block leaves the buffer if and only if this call stored its parent, and
   nothing but the delivered block enters it; without an error everything that left is stored, and
   the delivered block is stored, parked, or claims height 0 without a stored parent; and no block
   that the validator refuses becomes known, whatever was known before.
   */
  method ImportRemoteBlock(chain: Blockchain, validate: Validator, fork: ForkChoice, block: Block)
    returns (err: Option<Error>)
    requires chain.Valid() && fork.Valid()
    modifies chain, fork
    ensures chain.Valid() && fork.Valid()
    // the whole result
    ensures ByHash(old(fork.bufferedByHash))
    ensures var o := Drive(chain.rules, validate, old(KnownOf(chain)), old(fork.bufferedByHash), [block]);
      KnownOf(chain) == o.known && fork.bufferedByHash == o.parked && err == o.err
    // what it means
    ensures forall h :: h in old(fork.bufferedByHash) ==>
      (h in fork.bufferedByHash
       <==> !NewIn(old(KnownOf(chain)), KnownOf(chain), old(fork.bufferedByHash)[h].header.parentHash))
    ensures forall h :: h in fork.bufferedByHash ==>
      || (h in old(fork.bufferedByHash) && fork.bufferedByHash[h] == old(fork.bufferedByHash)[h])
      || (h == block.hash && fork.bufferedByHash[h] == block && IsOrphan(old(KnownOf(chain)), block))
    ensures err == None ==>
      forall h :: h in old(fork.bufferedByHash) && h !in fork.bufferedByHash ==> h in chain.db.blocks
    ensures err == None ==>
      || block.hash in chain.db.blocks
      || (IsOrphan(old(KnownOf(chain)), block) && block.hash in fork.bufferedByHash)
      || (block.header.number == 0 && block.header.parentHash !in old(chain.db).blocks)
    ensures err.Some? ==>
      exists b: Block :: b.hash !in chain.db.blocks && Refuses(chain.rules, validate, KnownOf(chain), b, err.value)
    ensures forall held ::
      ApprovedBeyond(validate, held, old(KnownOf(chain))) ==> ApprovedBeyond(validate, held, KnownOf(chain))
  {
    hide *;
    ghost var k, parked := KnownOf(chain), fork.bufferedByHash;
    BufferIsByHash(fork);
    ChainSettles(chain);
    ChainKnows(chain);
    DeliveryKeeps(chain.rules, validate, k, parked, block);
    ErrorHasCause(chain.rules, validate, Drive(chain.rules, validate, k, parked, [block]));
    forall held | ApprovedBeyond(validate, held, k)
      ensures ApprovedBeyond(validate, held, Drive(chain.rules, validate, k, parked, [block]).known)
    {
      RunApproves(chain.rules, validate, held, k, parked, [block]);
    }
    var queue := [block];
    while queue != []
      invariant chain.Valid() && fork.Valid() && ByHash(fork.bufferedByHash)
      invariant Drive(chain.rules, validate, KnownOf(chain), fork.bufferedByHash, queue)
             == Drive(chain.rules, validate, k, parked, [block])
      decreases |queue| + |fork.bufferedByHash|, |queue|
    {
      DriveStep(chain.rules, validate, KnownOf(chain), fork.bufferedByHash, queue);
      var r := ImportCandidate(chain, validate, fork, queue[0]);
      if r.Err? {
        ChainKnows(chain);
        return Some(r.error);
      }
      queue := r.value + queue[1..];
    }
    DriveEnds(chain.rules, validate, KnownOf(chain), fork.bufferedByHash);
    ChainKnows(chain);
    err := None;
  }

  // ---------------------------------------------------------------- many deliveries

  /** What a node knows and parks after some deliveries, and whether none of them failed. */
  datatype Delivered = Delivered(known: Known, parked: map<string, Block>, clean: bool)

  lemma {:induction false} DriveKeepsHashes(rules: Rules, validate: Validator, k: Known, parked: map<string, Block>,
                                            queue: seq<Block>)
    requires ByHash(parked)
    ensures ByHash(Drive(rules, validate, k, parked, queue).parked)
    decreases |queue| + |parked|, |queue|
  {
    hide *;
    if queue == [] {
      DriveEnds(rules, validate, k, parked);
    } else {
      DriveStep(rules, validate, k, parked, queue);
      var t := Turn(rules, validate, k, parked, queue[0]);
      if t.r.Ok? {
        DriveKeepsHashes(rules, validate, t.known, t.parked, t.r.value + queue[1..]);
      }
    }
  }

  /** Delivering blocks one after another, failures included. */
  ghost function DriveAll(rules: Rules, validate: Validator, k: Known, parked: map<string, Block>,
                          blocks: seq<Block>): (d: Delivered)
    requires ByHash(parked)
    ensures ByHash(d.parked)
    decreases |blocks|
  {
    if blocks == [] then Delivered(k, parked, true)
    else
      var d, b := DriveAll(rules, validate, k, parked, blocks[..|blocks| - 1]), blocks[|blocks| - 1];
      DriveKeepsHashes(rules, validate, d.known, d.parked, [b]);
      var o := Drive(rules, validate, d.known, d.parked, [b]);
      Delivered(o.known, o.parked, d.clean && o.err == None)
  }

  lemma DriveAllStep(rules: Rules, validate: Validator, k: Known, parked: map<string, Block>, blocks: seq<Block>,
                     i: nat)
    requires ByHash(parked) && i < |blocks|
    ensures var d := DriveAll(rules, validate, k, parked, blocks[..i]);
      var o := Drive(rules, validate, d.known, d.parked, [blocks[i]]);
      DriveAll(rules, validate, k, parked, blocks[..i + 1]) == Delivered(o.known, o.parked, d.clean && o.err == None)
  {
    assert blocks[..i + 1][..i] == blocks[..i];
    hide Drive;
  }

  /** A run of deliveries, each independent of whether another failed. */
  method DeliverAll(chain: Blockchain, validate: Validator, fork: ForkChoice, blocks: seq<Block>) returns (clean: bool)
    requires chain.Valid() && fork.Valid()
    modifies chain, fork
    ensures chain.Valid() && fork.Valid()
    ensures ByHash(old(fork.bufferedByHash))
    ensures Delivered(KnownOf(chain), fork.bufferedByHash, clean)
         == DriveAll(chain.rules, validate, old(KnownOf(chain)), old(fork.bufferedByHash), blocks)
  {
    hide *;
    BufferIsByHash(fork);
    ghost var k, parked := KnownOf(chain), fork.bufferedByHash;
    NoDeliveries(chain.rules, validate, k, parked);
    assert blocks[..0] == [];
    clean := true;
    for i := 0 to |blocks|
      invariant chain.Valid() && fork.Valid()
      invariant Delivered(KnownOf(chain), fork.bufferedByHash, clean)
             == DriveAll(chain.rules, validate, k, parked, blocks[..i])
    {
      DriveAllStep(chain.rules, validate, k, parked, blocks, i);
      var err := ImportRemoteBlock(chain, validate, fork, blocks[i]);
      clean := clean && err == None;
    }
    assert blocks[..|blocks|] == blocks;
  }

  lemma NoDeliveries(rules: Rules, validate: Validator, k: Known, parked: map<string, Block>)
    requires ByHash(parked)
    ensures DriveAll(rules, validate, k, parked, []) == Delivered(k, parked, true)
  {
  }

  /** No delivery stores a block that the validator refuses. */
  lemma {:induction false} DeliveriesApprove(rules: Rules, validate: Validator, held: set<string>, k: Known,
                                             parked: map<string, Block>, blocks: seq<Block>)
    requires Settled(k) && ByHash(parked) && ApprovedBeyond(validate, held, k)
    ensures var d := DriveAll(rules, validate, k, parked, blocks);
      Settled(d.known) && ApprovedBeyond(validate, held, d.known)
    decreases |blocks|
  {
    if blocks != [] {
      var n := |blocks| - 1;
      DeliveriesApprove(rules, validate, held, k, parked, blocks[..n]);
      var d := DriveAll(rules, validate, k, parked, blocks[..n]);
      hide *;
      DriveAllStep(rules, validate, k, parked, blocks, n);
      assert blocks[..n + 1] == blocks;
      DeliveryKeeps(rules, validate, d.known, d.parked, blocks[n]);
      RunApproves(rules, validate, held, d.known, d.parked, [blocks[n]]);
    }
  }

  /** Nor by any number of deliveries of other blocks. */
  lemma {:induction false} StrandedStaysThroughout(rules: Rules, validate: Validator, k: Known,
                                                   parked: map<string, Block>, blocks: seq<Block>, h: string)
    requires Settled(k) && ByHash(parked) && h in parked && forall b :: b in blocks ==> b.hash != h
    requires parked[h].header.parentHash in k.blocks && h !in k.received
    ensures var d := DriveAll(rules, validate, k, parked, blocks);
      && Settled(d.known) && h in d.parked && d.parked[h] == parked[h]
      && parked[h].header.parentHash in d.known.blocks && h !in d.known.received
    decreases |blocks|
  {
    hide *;
    if blocks == [] {
      NoDeliveries(rules, validate, k, parked);
    } else {
      var n := |blocks| - 1;
      StrandedStaysThroughout(rules, validate, k, parked, blocks[..n], h);
      var d := DriveAll(rules, validate, k, parked, blocks[..n]);
      DriveAllStep(rules, validate, k, parked, blocks, n);
      assert blocks[..n + 1] == blocks;
      DeliveryKeeps(rules, validate, d.known, d.parked, blocks[n]);
      StrandedStays(rules, validate, d.known, d.parked, blocks[n], h);
    }
  }
}
