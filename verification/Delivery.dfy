/**
  The delivery of rounds: what deliver and deliverRound keep of the graph's bookkeeping. Rounds are
  told in order, once every node has a decision for them; the front of the block list is pruned; and the
  list is never empty when it is read. Blocks may come back: nothing is assumed about repetitions.
 */
module Delivery {
  import opened Bytes
  import opened Ids
  import opened Outcomes
  import opened Protocol
  import opened Interpreter
  import opened Listing
  import opened Sets
  import opened Zones

  /**
    What is assumed of the block graphs of a run, beyond what holds of all: that a block that comes back
    finds no link that it did not know before; that own rounds are consecutive; that moreover no own block
    is a dependency.
   */
  datatype Terms = Terms(steady: bool, rounds: bool, apart: bool)

  /**
    What proofs remember of a run: the nodes, the record of every block interpreted so far with a round
    that its state does not go beyond, the largest max that was ever recorded, the own block that was
    admitted last, and a round that has been reached.
   */
  datatype World = World(
    cfg: Config, nodes: set<nat>, hist: seq<Record>, tops: seq<nat>, top: nat, cur: BlockInfo, floor: nat, terms: Terms)

  // --- repetitions ---

  /** No other record is of that block. */
  ghost predicate Single(hist: seq<Record>, i: nat)
    requires i < |hist|
  {
    forall j | 0 <= j < |hist| && j != i :: hist[j].block != hist[i].block
  }

  /** The block has not come back since. */
  ghost predicate Latest(hist: seq<Record>, i: nat)
    requires i < |hist|
  {
    forall j | i < j < |hist| :: hist[j].block != hist[i].block
  }

  ghost predicate Firm(w: World, i: nat)
    requires i < |w.hist|
  {
    w.terms.steady || Single(w.hist, i)
  }

  ghost function Recorded(hist: seq<Record>): set<BlockID> {
    set r | r in hist :: r.block
  }

  // --- the own blocks that are kept ---

  /** The largest max in the list, or `low`. */
  function Largest(blocks: seq<BlockInfo>, low: nat): (m: nat)
    ensures m >= low
  {
    if blocks == [] then low
    else Larger(Largest(blocks[..|blocks| - 1], low), blocks[|blocks| - 1].max)
  }

  lemma LargestPush(blocks: seq<BlockInfo>, info: BlockInfo, low: nat)
    ensures Largest(blocks + [info], low) == Larger(Largest(blocks, low), info.max)
  {
    assert (blocks + [info])[..|blocks|] == blocks;
  }

  /** A list in front, none of it above `low'`, can be dropped. */
  lemma {:induction false} LargestSuffix(blocks: seq<BlockInfo>, k: nat, low: nat, low': nat)
    requires k <= |blocks| && low <= low' && forall i | 0 <= i < k :: blocks[i].max <= low'
    ensures Largest(blocks, low) <= Largest(blocks[k..], low')
    decreases |blocks|
  {
    if blocks == [] {
    } else if k == |blocks| {
      LargestSuffix(blocks[..k - 1], k - 1, low, low');
      assert blocks[..k - 1][k - 1..] == [] && blocks[k..] == [];
    } else {
      var n := |blocks| - 1;
      LargestSuffix(blocks[..n], k, low, low');
      assert blocks[..n][k..] == blocks[k..][..n - k];
    }
  }

  lemma {:induction false} LargestAtMost(blocks: seq<BlockInfo>, low: nat, bound: nat)
    requires low <= bound && forall i | 0 <= i < |blocks| :: blocks[i].max <= bound
    ensures Largest(blocks, low) <= bound
  {
    if blocks != [] {
      LargestAtMost(blocks[..|blocks| - 1], low, bound);
    }
  }

  /** The rounds that have been delivered are those up to this one. */
  function Done(g: Graph): nat {
    if g.round == 0 then 0 else g.round - 1
  }

  /** Pruning takes blocks from the front, so a block goes only when the larger ones before it have gone. */
  ghost predicate WithinBlock(w: World, blocks: seq<BlockInfo>, low: nat, n: nat, i: nat)
    requires n < |blocks| && i < |w.hist| && |w.tops| == |w.hist|
  {
    Firm(w, i) && w.hist[i].block in IdsOf(blocks[n]) ==> w.tops[i] <= Largest(blocks[..n + 1], low)
  }

  ghost predicate BlocksBounded(w: World, blocks: seq<BlockInfo>, low: nat)
    requires |w.tops| == |w.hist|
  {
    forall n, i | 0 <= n < |blocks| && 0 <= i < |w.hist| :: WithinBlock(w, blocks, low, n, i)
  }

  /** All but the newest own block have been interpreted with all their dependencies. */
  ghost predicate AllInterpreted(hist: seq<Record>, blocks: seq<BlockInfo>) {
    forall n, id | 0 <= n < |blocks| - 1 && id in IdsOf(blocks[n]) :: id in Recorded(hist)
  }

  /** The newest own block is the last one, unless all have been pruned; so is the largest max. */
  ghost predicate Current(w: World, g: Graph) {
    && (g.blocks == [] || g.blocks[|g.blocks| - 1] == w.cur)
    && w.top <= Largest(g.blocks, Done(g))
  }

  // --- decisions ---

  /** The decision is in the final map of some interpreted block, or of the current one. */
  ghost predicate Decided(hist: seq<Record>, final: map<Slot, Hash>, k: Slot, hash: Hash) {
    || (k in final && final[k] == hash)
    || exists i :: 0 <= i < |hist| && k in hist[i].end.final && hist[i].end.final[k] == hash
  }

  ghost predicate AllDecided(hist: seq<Record>, final: map<Slot, Hash>, round: nat, hashes: map<nat, Hash>) {
    forall n | n in hashes :: Decided(hist, final, Slot(n, round), hashes[n])
  }

  /** No decision waits for a round that is past, or beyond what has been seen. */
  ghost predicate ResolvedOk(w: World, g: Graph, final: map<Slot, Hash>) {
    forall r | r in g.resolved ::
      && g.round <= r <= w.top
      && g.resolved[r].Keys <= w.nodes
      && AllDecided(w.hist, final, r, g.resolved[r])
  }

  // --- stored states ---

  ghost predicate RecordPlaced(w: World, r: Record, top: nat) {
    r.block.Valid() && r.block.node in w.nodes && StateIn(Zone(w.nodes, top), r.end) && r.block.round <= top <= w.top
  }

  ghost predicate HistPlaced(w: World) {
    |w.tops| == |w.hist| && forall i | 0 <= i < |w.hist| :: RecordPlaced(w, w.hist[i], w.tops[i])
  }

  ghost predicate StoredAs(hist: seq<Record>, i: nat, b: BlockID, s: State) {
    i < |hist| && hist[i].block == b && hist[i].end == s && Latest(hist, i)
  }

  /** The state is stored, or speaks of past rounds only. */
  ghost predicate RecordKept(w: World, g: Graph, i: nat)
    requires i < |w.hist| && |w.tops| == |w.hist|
  {
    Latest(w.hist, i) && Firm(w, i) ==> w.hist[i].block in g.statess || w.tops[i] < g.round
  }

  /** Stored states are those of the latest records. */
  ghost predicate Stored(w: World, g: Graph)
    requires |w.tops| == |w.hist|
  {
    && (forall b | b in g.statess :: exists i: nat :: StoredAs(w.hist, i, b, g.statess[b]))
    && (forall i | 0 <= i < |w.hist| :: RecordKept(w, g, i))
  }

  // --- what the callback was told ---

  /** Exactly the non-empty decisions of all nodes, sorted. */
  ghost predicate ToldOk(w: World, final: map<Slot, Hash>, told: Interpreted) {
    exists hashes: map<nat, Hash> ::
      && hashes.Keys == w.nodes
      && AllDecided(w.hist, final, told.round, hashes)
      && told.blocks == ListingOf(Chosen(told.round, hashes))
  }

  ghost predicate LogRounds(w: World, g: Graph) {
    && w.floor <= g.round == w.cfg.lastInterpreted + 1 + |g.log|
    && (g.log != [] ==> g.round <= w.top + 1)
    && forall i | 0 <= i < |g.log| :: g.log[i].round == w.cfg.lastInterpreted + 1 + i
  }

  ghost predicate LogTold(w: World, g: Graph, final: map<Slot, Hash>) {
    forall i | 0 <= i < |g.log| :: ToldOk(w, final, g.log[i])
  }

  // --- consecutive own rounds ---

  /** The round of the first own block that is not pruned. */
  ghost function FirstKept(w: World, g: Graph): nat {
    if g.blocks == [] then w.cur.data.block.round + 1 else g.blocks[0].data.block.round
  }

  ghost predicate LogConsumed(w: World, g: Graph) {
    && (forall i, j | 0 <= i <= j < |g.log| :: g.log[i].consumed <= g.log[j].consumed)
    && (g.log != [] ==> g.log[|g.log| - 1].consumed + 1 == FirstKept(w, g))
  }

  ghost predicate Consecutive(blocks: seq<BlockInfo>) {
    forall i | 0 <= i < |blocks| :: blocks[i].data.block.round == blocks[0].data.block.round + i
  }

  ghost predicate RoundsOk(w: World, g: Graph) {
    && w.cur.data.block.round < U64_SIZE
    && (g.blocks != [] ==> g.blocks[0].data.block.round >= 1)
    && Consecutive(g.blocks)
    && LogConsumed(w, g)
  }

  // --- own blocks apart from dependencies ---

  ghost predicate Rising(blocks: seq<BlockInfo>) {
    forall i, j | 0 <= i <= j < |blocks| :: blocks[i].max <= blocks[j].max
  }

  /** The max of the newest own block is on record, or is below the current round. */
  ghost predicate MaxOk(w: World, g: Graph) {
    && Rising(g.blocks)
    && (if w.cur.data.block in g.max then g.max[w.cur.data.block] == w.cur.max else w.cur.max < g.round)
    && (g.blocks == [] ==> w.cur.max < g.round)
    && (forall n | 0 <= n < |g.blocks| - 1 :: w.cur.data.block !in IdsOf(g.blocks[n]))
  }

  // --- all of it ---

  ghost predicate Ledger(w: World, g: Graph, final: map<Slot, Hash>) {
    && |w.nodes| == w.cfg.PeerCount()
    && HistPlaced(w)
    && BlocksBounded(w, g.blocks, Done(g))
    && AllInterpreted(w.hist, g.blocks)
    && Current(w, g)
    && ResolvedOk(w, g, final)
    && Stored(w, g)
    && LogRounds(w, g)
    && LogTold(w, g, final)
    && (w.terms.rounds ==> RoundsOk(w, g))
    && (w.terms.apart ==> MaxOk(w, g))
  }

  /** The current round is not left decided by all but untold. */
  ghost predicate Settled(w: World, g: Graph) {
    !Full(w.cfg, g, g.round)
  }

  // --- pruning ---

  lemma {:induction false} PruneStops(blocks: seq<BlockInfo>, round: nat)
    ensures forall i | 0 <= i < PruneCount(blocks, round) :: blocks[i].max <= round
    ensures PruneCount(blocks, round) < |blocks| ==> blocks[PruneCount(blocks, round)].max > round
  {
    if blocks != [] && blocks[0].max <= round {
      PruneStops(blocks[1..], round);
      forall i | 0 <= i < PruneCount(blocks, round) ensures blocks[i].max <= round {
        if i > 0 {
          assert blocks[i] == blocks[1..][i - 1];
        }
      }
    }
  }

  /** The loop that stops at the first larger max removes exactly the blocks that may go. */
  lemma PruneIsExact(blocks: seq<BlockInfo>, round: nat, i: nat)
    requires Rising(blocks) && i < |blocks|
    ensures blocks[i].max <= round <==> i < PruneCount(blocks, round)
  {
    PruneStops(blocks, round);
  }

  lemma PrunedAreOld(w: World, g: Graph, round: nat, i: nat)
    requires |w.tops| == |w.hist| && BlocksBounded(w, g.blocks, Done(g)) && round == g.round
    requires i < |w.hist| && Firm(w, i) && w.hist[i].block in PrunedIds(g.blocks[..PruneCount(g.blocks, round)])
    ensures w.tops[i] <= round
  {
    hide Firm, IdsOf;
    var k := PruneCount(g.blocks, round);
    PruneStops(g.blocks, round);
    var info :| info in g.blocks[..k] && w.hist[i].block in IdsOf(info);
    var n :| 0 <= n < k && g.blocks[n] == info;
    assert WithinBlock(w, g.blocks, Done(g), n, i);
    LargestAtMost(g.blocks[..n + 1], Done(g), round);
  }

  // --- one round ---

  lemma DeliverOneKeepsStored(w: World, g: Graph, round: nat)
    requires round in g.resolved && g.blocks != [] && round == g.round
    requires HistPlaced(w) && BlocksBounded(w, g.blocks, Done(g)) && Stored(w, g)
    ensures Stored(w, DeliverOne(g, round))
  {
    hide HistPlaced, ListingOf, PruneCount, PrunedIds, Firm, Latest, BlocksBounded;
    assert |w.tops| == |w.hist| by { HistLengths(w); }
    var g' := DeliverOne(g, round);
    forall i | 0 <= i < |w.hist| ensures RecordKept(w, g', i) {
      assert RecordKept(w, g, i);
      if Firm(w, i) && w.hist[i].block in PrunedIds(g.blocks[..PruneCount(g.blocks, round)]) {
        PrunedAreOld(w, g, round, i);
      }
    }
    forall b | b in g'.statess ensures exists i: nat :: StoredAs(w.hist, i, b, g'.statess[b]) {
      assert g'.statess[b] == g.statess[b];
      var i: nat :| StoredAs(w.hist, i, b, g.statess[b]);
      assert StoredAs(w.hist, i, b, g'.statess[b]);
    }
  }

  lemma HistLengths(w: World)
    requires HistPlaced(w)
    ensures |w.tops| == |w.hist|
  {
  }

  lemma BlocksBoundedSuffix(w: World, blocks: seq<BlockInfo>, k: nat, low: nat, low': nat)
    requires |w.tops| == |w.hist| && BlocksBounded(w, blocks, low) && k <= |blocks| && low <= low'
    requires forall i | 0 <= i < k :: blocks[i].max <= low'
    ensures BlocksBounded(w, blocks[k..], low')
  {
    hide IdsOf, Firm, Largest;
    forall n, i | 0 <= n < |blocks[k..]| && 0 <= i < |w.hist| ensures WithinBlock(w, blocks[k..], low', n, i) {
      assert WithinBlock(w, blocks, low, k + n, i);
      LargestSuffix(blocks[..k + n + 1], k, low, low');
      assert blocks[..k + n + 1][k..] == blocks[k..][..n + 1];
    }
  }

  lemma DeliverOneKeepsBlocks(w: World, g: Graph, round: nat)
    requires round in g.resolved && g.blocks != [] && round == g.round
    requires |w.tops| == |w.hist| && BlocksBounded(w, g.blocks, Done(g)) && AllInterpreted(w.hist, g.blocks)
    requires Current(w, g)
    ensures
      var g' := DeliverOne(g, round);
      BlocksBounded(w, g'.blocks, Done(g')) && AllInterpreted(w.hist, g'.blocks) && Current(w, g')
  {
    hide ListingOf, PrunedIds, IdsOf, PruneCount, BlocksBounded, Largest, Recorded;
    var k := PruneCount(g.blocks, round);
    PruneStops(g.blocks, round);
    BlocksBoundedSuffix(w, g.blocks, k, Done(g), round);
    LargestSuffix(g.blocks, k, Done(g), round);
    assert forall n | 0 <= n < |g.blocks| - k :: g.blocks[k..][n] == g.blocks[k + n];
  }

  lemma DeliverOneKeepsResolved(w: World, g: Graph, round: nat, final: map<Slot, Hash>)
    requires round == g.round && g.blocks != [] && round in g.resolved && ResolvedOk(w, g, final)
    ensures ResolvedOk(w, DeliverOne(g, round), final)
  {
    hide ListingOf, PrunedIds, AllDecided, PruneCount;
  }

  /** The new entry of the log: the round that was due, decided by every node. */
  lemma DeliverOneTells(w: World, g: Graph, round: nat, final: map<Slot, Hash>)
    requires round == g.round && g.blocks != [] && Full(w.cfg, g, round) && |w.nodes| == w.cfg.PeerCount()
    requires ResolvedOk(w, g, final)
    ensures
      var g' := DeliverOne(g, round);
      |g'.log| == |g.log| + 1 && g'.log[..|g.log|] == g.log && g'.log[|g.log|].round == round
        && ToldOk(w, final, g'.log[|g.log|])
  {
    hide PrunedIds, AllDecided, PruneCount;
    var hashes := g.resolved[round];
    SameSize(hashes.Keys, w.nodes);
    assert AllDecided(w.hist, final, round, hashes);
  }

  lemma ResolvedWithin(w: World, g: Graph, round: nat, final: map<Slot, Hash>)
    requires ResolvedOk(w, g, final) && round in g.resolved
    ensures round <= w.top
  {
    hide AllDecided;
  }

  lemma DeliverOneKeepsLog(w: World, g: Graph, round: nat, final: map<Slot, Hash>)
    requires round == g.round && g.blocks != [] && Full(w.cfg, g, round) && |w.nodes| == w.cfg.PeerCount()
    requires ResolvedOk(w, g, final) && LogRounds(w, g) && LogTold(w, g, final)
    ensures var g' := DeliverOne(g, round); LogRounds(w, g') && LogTold(w, g', final)
  {
    hide DeliverOne, ToldOk, ResolvedOk;
    var g' := DeliverOne(g, round);
    DeliverOneTells(w, g, round, final);
    DeliverOneProgress(g, round);
    ResolvedWithin(w, g, round, final);
    forall i | 0 <= i < |g.log| ensures g'.log[i] == g.log[i] {
      assert g'.log[..|g.log|][i] == g.log[i];
    }
  }

  lemma DeliverOneKeepsRounds(w: World, g: Graph, round: nat)
    requires round in g.resolved && g.blocks != [] && Current(w, g) && RoundsOk(w, g)
    ensures RoundsOk(w, DeliverOne(g, round))
  {
    hide DeliverOne, FirstKept, Largest, Consecutive;
    var g' := DeliverOne(g, round);
    ConsumedExact(w, g, round);
    FirstIsBeforeNext(w, g, g');
  }

  lemma FirstIsBeforeNext(w: World, g: Graph, g': Graph)
    requires LogConsumed(w, g) && |g'.log| == |g.log| + 1 && g'.log[..|g.log|] == g.log
    requires g'.log[|g.log|].consumed + 1 == FirstKept(w, g') && FirstKept(w, g) <= FirstKept(w, g')
    ensures LogConsumed(w, g')
  {
    hide FirstKept;
    forall i, j | 0 <= i <= j < |g'.log| ensures g'.log[i].consumed <= g'.log[j].consumed {
      assert i < |g.log| ==> g'.log[..|g.log|][i] == g'.log[i];
      assert j < |g.log| ==> g'.log[..|g.log|][j] == g'.log[j];
    }
  }

  /** Consumed is the own round just before the first one that is kept. */
  lemma ConsumedExact(w: World, g: Graph, round: nat)
    requires round in g.resolved && g.blocks != []
    requires Current(w, g) && RoundsOk(w, g)
    ensures
      var g' := DeliverOne(g, round);
      && |g'.log| == |g.log| + 1 && g'.log[..|g.log|] == g.log
      && g'.log[|g.log|].consumed + 1 == FirstKept(w, g')
      && FirstKept(w, g) <= FirstKept(w, g')
      && Consecutive(g'.blocks) && (g'.blocks != [] ==> g'.blocks[0].data.block.round >= 1)
  {
    hide ListingOf, PrunedIds, Largest, LogConsumed;
    var k := PruneCount(g.blocks, round);
    var first := g.blocks[0].data.block.round;
    assert w.cur.data.block.round == first + |g.blocks| - 1;
    WrapOnce(first - 1 + k);
  }

  lemma WrapOnce(x: nat)
    requires x < U64_SIZE
    ensures Wrap64(x + U64_SIZE) == x
  {
  }

  lemma DeliverOneKeepsMax(w: World, g: Graph, round: nat)
    requires round in g.resolved && g.blocks != [] && round == g.round && Current(w, g) && MaxOk(w, g)
    ensures MaxOk(w, DeliverOne(g, round))
  {
    hide ListingOf, Largest, PruneCount, IdsOf;
    var k := PruneCount(g.blocks, round);
    PruneStops(g.blocks, round);
    var b := w.cur.data.block;
    var g' := DeliverOne(g, round);
    if b in PrunedIds(g.blocks[..k]) {
      var info :| info in g.blocks[..k] && b in IdsOf(info);
      var n :| 0 <= n < k && g.blocks[n] == info;
      assert n == |g.blocks| - 1;
    }
    if k == |g.blocks| {
      assert g.blocks[k - 1] == w.cur;
    }
    assert forall n | 0 <= n < |g.blocks| - k :: g'.blocks[n] == g.blocks[k + n];
  }

  lemma DeliverOneKeeps(w: World, g: Graph, round: nat, final: map<Slot, Hash>)
    requires round == g.round && g.blocks != [] && Full(w.cfg, g, round) && Ledger(w, g, final)
    ensures Ledger(w, DeliverOne(g, round), final)
  {
    hide DeliverOne, HistPlaced, BlocksBounded, AllInterpreted, Current, ResolvedOk, Stored, LogRounds, LogTold,
      RoundsOk, MaxOk;
    HistLengths(w);
    DeliverOneKeepsStored(w, g, round);
    DeliverOneKeepsBlocks(w, g, round);
    DeliverOneKeepsResolved(w, g, round, final);
    DeliverOneKeepsLog(w, g, round, final);
    if w.terms.rounds {
      DeliverOneKeepsRounds(w, g, round);
    }
    if w.terms.apart {
      DeliverOneKeepsMax(w, g, round);
    }
  }

  /** A decision that waits means that an own block that covers its round has not been pruned. */
  lemma NotEmpty(w: World, g: Graph, round: nat, final: map<Slot, Hash>)
    requires Ledger(w, g, final) && round in g.resolved
    ensures g.blocks != []
  {
    hide HistPlaced, BlocksBounded, AllInterpreted, Stored, LogTold, RoundsOk, MaxOk, AllDecided;
  }

  lemma DeliverOneProgress(g: Graph, round: nat)
    requires round in g.resolved && g.blocks != []
    ensures
      var g' := DeliverOne(g, round);
      |g'.resolved| < |g.resolved| && g'.round == g.round + 1 && g.log <= g'.log
  {
    hide PruneCount, PrunedIds, ListingOf;
    var g' := DeliverOne(g, round);
    assert g'.resolved.Keys == g.resolved.Keys - {round};
  }

  /** deliverRound: as many rounds as are ready, and no read from an empty block list. */
  lemma {:induction false} DeliverRoundKeeps(w: World, g: Graph, round: nat, final: map<Slot, Hash>)
    requires round == g.round && Full(w.cfg, g, round) && Ledger(w, g, final)
    ensures
      var r := DeliverRound(w.cfg, g, round);
      r.Ok? && Ledger(w, r.value, final) && Settled(w, r.value) && g.log <= r.value.log
    decreases |g.resolved|
  {
    hide Ledger, DeliverOne;
    NotEmpty(w, g, round, final);
    DeliverOneKeeps(w, g, round, final);
    DeliverOneProgress(g, round);
    var g' := DeliverOne(g, round);
    if Full(w.cfg, g', round + 1) {
      DeliverRoundKeeps(w, g', round + 1, final);
    }
  }

  // --- one decision ---

  /** The parts of the ledger that do not speak of decisions. */
  ghost predicate Frame(w: World, g: Graph) {
    && |w.nodes| == w.cfg.PeerCount() && HistPlaced(w)
    && BlocksBounded(w, g.blocks, Done(g)) && AllInterpreted(w.hist, g.blocks) && Current(w, g) && Stored(w, g)
    && (w.terms.rounds ==> RoundsOk(w, g)) && (w.terms.apart ==> MaxOk(w, g))
  }

  /** They are the same for a graph with the same blocks, maxima, states, round and log. */
  lemma FrameSame(w: World, g: Graph, g': Graph)
    requires Frame(w, g) && g' == g.(resolved := g'.resolved, heap := g'.heap)
    ensures Frame(w, g')
  {
    hide HistPlaced, BlocksBounded, AllInterpreted, Largest, IdsOf, Rising, Consecutive;
    assert |w.tops| == |w.hist| by { HistLengths(w); }
    StoredSame(w, g, g');
    hide Stored;
  }

  lemma StoredSame(w: World, g: Graph, g': Graph)
    requires |w.tops| == |w.hist| && Stored(w, g) && g'.statess == g.statess && g.round <= g'.round
    ensures Stored(w, g')
  {
    hide Latest, Firm, StoredAs;
    forall i | 0 <= i < |w.hist| ensures RecordKept(w, g', i) {
      assert RecordKept(w, g, i);
    }
  }

  lemma ResolveKeeps(w: World, g: Graph, k: Slot, hash: Hash, final: map<Slot, Hash>)
    requires Ledger(w, g, final) && k.node in w.nodes && g.round <= k.round <= w.top
    requires k in final && final[k] == hash
    ensures Ledger(w, Resolve(g, k, hash), final)
  {
    hide Stored, LogTold, BlocksBounded, AllInterpreted, HistPlaced, LogRounds, AllDecided, Current, RoundsOk, MaxOk;
    var g' := Resolve(g, k, hash);
    forall r | r in g'.resolved
      ensures g'.round <= r <= w.top && g'.resolved[r].Keys <= w.nodes && AllDecided(w.hist, final, r, g'.resolved[r])
    {
      if r == k.round {
        var hashes: map<nat, Hash> := if k.round in g.resolved then g.resolved[k.round] else map[];
        OneMoreDecided(w.hist, final, k, hash, hashes);
      }
    }
    FrameSame(w, g, g');
    LogSame(w, g, g', final);
  }

  lemma LogSame(w: World, g: Graph, g': Graph, final: map<Slot, Hash>)
    requires LogRounds(w, g) && LogTold(w, g, final) && g'.log == g.log && g'.round == g.round
    ensures LogRounds(w, g') && LogTold(w, g', final)
  {
    hide ToldOk;
  }

  lemma OneMoreDecided(hist: seq<Record>, final: map<Slot, Hash>, k: Slot, hash: Hash, hashes: map<nat, Hash>)
    requires k in final && final[k] == hash
    requires hashes == map[] || AllDecided(hist, final, k.round, hashes)
    ensures AllDecided(hist, final, k.round, hashes[k.node := hash])
  {
  }

  /** deliver: keeps the ledger, never panics, and never leaves a full round untold. */
  lemma DeliverKeeps(w: World, g: Graph, k: Slot, hash: Hash, final: map<Slot, Hash>)
    requires Ledger(w, g, final) && Settled(w, g) && k.node in w.nodes && k.round <= w.top
    requires k in final && final[k] == hash
    ensures
      var r := Deliver(w.cfg, g, k, hash);
      && r != Panic
      && (r.Ok? ==> Ledger(w, r.value, final) && Settled(w, r.value) && g.log <= r.value.log)
  {
    hide Ledger;
    if g.round <= k.round {
      var g' := Resolve(g, k, hash);
      ResolveKeeps(w, g, k, hash, final);
      if k.round == g.round && Full(w.cfg, g', k.round) {
        DeliverRoundKeeps(w, g', k.round, final);
      }
    }
  }
}
