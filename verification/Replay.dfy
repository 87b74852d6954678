/**
  Reading own block graphs back in batches: getBlockGraphs in broadcast/store.go and the loop of
  replayGraphChanges in broadcast/broadcast.go.
 */
module Replay {
  import opened Bytes
  import opened Ids
  import opened Interpreter
  import opened Keys
  import opened RangeScan
  import opened GraphCodec

  const BATCH_SIZE: nat := 100

  type Values = map<seq<byte>, seq<byte>>

  /** The block-graph part of the database: under each key the written form of its graph. */
  ghost predicate HoldsGraphs(db: Db, values: Values, written: map<BlockID, BlockGraph>) {
    && Holds(db, BLOCK_GRAPH_PREFIX, written.Keys)
    && (forall i | 0 <= i < |db| :: db[i] in values)
    && (forall id | id in written :: WrittenGraph(values, id, written[id]))
  }

  ghost predicate WrittenGraph(values: Values, id: BlockID, g: BlockGraph) {
    && Fits(id) && g.block == id && GraphShort(g) && Fits(g.prev) && DepsFit(g.deps)
    && Key(BLOCK_GRAPH_PREFIX, id) in values && values[Key(BLOCK_GRAPH_PREFIX, id)] == GraphBytes(g)
  }

  /** What is read for what was written. */
  function ReadBack(written: map<BlockID, BlockGraph>): map<BlockID, BlockGraph> {
    map id | id in written :: NormalGraph(written[id])
  }

  lemma HoldsReadBack(db: Db, values: Values, written: map<BlockID, BlockGraph>)
    requires HoldsGraphs(db, values, written)
    ensures ReadBack(written).Keys == written.Keys && HoldsNormal(db, values, ReadBack(written))
  {
    hide Holds, GraphShort, GraphBytes, PrevsKept, NormalGraph, Key;
    var graphs := ReadBack(written);
    assert graphs.Keys == written.Keys;
    forall id | id in graphs ensures StoredGraph(values, id, graphs[id]) {
      assert WrittenGraph(values, id, written[id]);
      NormalBytes(written[id]);
      SameBlock(written[id]);
    }
  }

  lemma SameBlock(g: BlockGraph)
    ensures NormalGraph(g).block == g.block && NormalGraph(g).prev == NormalId(g.prev)
    ensures NormalGraph(g).deps == NormalDeps(g.deps)
  {
  }

  /** The same for graphs that are read as they were written. */
  ghost predicate HoldsNormal(db: Db, values: Values, graphs: map<BlockID, BlockGraph>) {
    && Holds(db, BLOCK_GRAPH_PREFIX, graphs.Keys)
    && (forall i | 0 <= i < |db| :: db[i] in values)
    && (forall id | id in graphs :: StoredGraph(values, id, graphs[id]))
  }

  ghost predicate StoredGraph(values: Values, id: BlockID, g: BlockGraph) {
    && Fits(id) && g.block == id && GraphShort(g) && PrevsKept(g) && Fits(g.prev) && DepsFit(g.deps)
    && Key(BLOCK_GRAPH_PREFIX, id) in values && values[Key(BLOCK_GRAPH_PREFIX, id)] == GraphBytes(g)
  }

  /** The graphs of some ids, in ascending order of the ids. */
  ghost predicate GraphsOf(graphs: map<BlockID, BlockGraph>, node: u64, from: u64, blocks: seq<BlockGraph>) {
    && (forall i | 0 <= i < |blocks| ::
          Wanted(graphs.Keys, node, from, blocks[i].block) && blocks[i] == graphs[blocks[i].block])
    && (forall i, j | 0 <= i < j < |blocks| :: IdLess(blocks[i].block, blocks[j].block))
  }

  /** Whatever is wanted and not listed comes after everything that is. */
  ghost predicate RestAfter(graphs: map<BlockID, BlockGraph>, node: u64, from: u64, blocks: seq<BlockGraph>) {
    forall id, i | Wanted(graphs.Keys, node, from, id) && graphs[id] !in blocks && 0 <= i < |blocks| ::
      IdLess(blocks[i].block, id)
  }

  /** The blocks listed are those of the keys lo..pos. */
  ghost predicate Visited(db: Db, blocks: seq<BlockGraph>, lo: nat, pos: nat) {
    && lo <= pos <= |db| && |blocks| == pos - lo
    && forall i | 0 <= i < |blocks| :: Fits(blocks[i].block) && db[lo + i] == Key(BLOCK_GRAPH_PREFIX, blocks[i].block)
  }

  // --- any database ---

  /** The graph that is stored under a key, if key and value can be read. */
  function GraphAt(key: seq<byte>, val: seq<byte>): Parse<BlockGraph> {
    if key == [] then Crashed
    else
      match DecodedId(key[1..])
      case Id(id) => ParseGraph(id, val)
      case BadId => Failed
      case IdCrash => Crashed
  }

  /** How a scan ends: by itself or at its limit, with an error, or in a slice out of range. */
  datatype End = Complete | Error | Panicked

  datatype Batch = Batch(blocks: seq<BlockGraph>, end: End)

  /** What the scan finds from its first key on; it ends at the `left`-th graph, if that is positive. */
  function Walk(keys: Db, values: Values, prefix: seq<byte>, left: int): Batch
    requires forall i | 0 <= i < |keys| :: keys[i] in values
    decreases |keys|
  {
    if keys == [] || !(prefix <= keys[0]) then Batch([], Complete)
    else
      match GraphAt(keys[0], values[keys[0]])
      case Failed => Batch([], Error)
      case Crashed => Batch([], Panicked)
      case Parsed(g, _) =>
        if left == 1 then Batch([g], Complete)
        else After([g], Walk(keys[1..], values, prefix, left - 1))
  }

  function After(blocks: seq<BlockGraph>, b: Batch): Batch {
    b.(blocks := blocks + b.blocks)
  }

  lemma AfterParts(blocks: seq<BlockGraph>, g: BlockGraph, b: Batch)
    ensures After(blocks, After([g], b)) == After(blocks + [g], b) && After([], b) == b
    ensures After(blocks, Batch([g], Complete)) == Batch(blocks + [g], Complete)
    ensures forall e: End :: After(blocks, Batch([], e)) == Batch(blocks, e)
  {
    assert blocks + ([g] + b.blocks) == blocks + [g] + b.blocks;
    assert blocks + [] == blocks;
  }

  method ReadGraph(key: seq<byte>, val: seq<byte>) returns (r: Parse<BlockGraph>)
    requires key != []
    ensures r == GraphAt(key, val)
  {
    hide DecodedId, ParseGraph;
    var id := DecodeBlockID(key[1..]);
    match id
    case BadId => r := Failed;
    case IdCrash => r := Crashed;
    case Id(id) => r := DecodeBlockGraph(id, val);
  }

  /** A graph that was written is read as it was, if it is normal. */
  lemma ReadsGraph(g: BlockGraph)
    requires Fits(g.block) && GraphShort(g) && PrevsKept(g) && Fits(g.prev) && DepsFit(g.deps)
    ensures GraphAt(Key(BLOCK_GRAPH_PREFIX, g.block), GraphBytes(g)) == Parsed(g, [])
  {
    hide IdBytes, DecodedId, ParseGraph, GraphBytes;
    assert Key(BLOCK_GRAPH_PREFIX, g.block)[1..] == IdBytes(g.block);
    IdRoundTrip(g.block);
    GraphRoundTrip(g, []);
    assert GraphBytes(g) + [] == GraphBytes(g);
  }

  lemma KeysAscend(db: Db, blocks: seq<BlockGraph>, lo: nat, pos: nat, id: BlockID)
    requires Sorted(db) && Visited(db, blocks, lo, pos) && pos < |db| && Fits(id)
    requires db[pos] == Key(BLOCK_GRAPH_PREFIX, id)
    ensures forall i | 0 <= i < |blocks| :: IdLess(blocks[i].block, id)
  {
    hide Key, LexLess;
    forall i | 0 <= i < |blocks| ensures IdLess(blocks[i].block, id) {
      KeyOrder(BLOCK_GRAPH_PREFIX, blocks[i].block, id);
    }
  }

  /** What is wanted but not visited yet comes later in the database, hence later in order. */
  lemma NotVisited(db: Db, values: Values, graphs: map<BlockID, BlockGraph>, node: u64, from: u64,
                   blocks: seq<BlockGraph>, lo: nat, pos: nat)
    requires Sorted(db) && HoldsNormal(db, values, graphs) && Visited(db, blocks, lo, pos)
    requires GraphsOf(graphs, node, from, blocks)
    requires forall i | 0 <= i < lo :: LexLess(db[i], ScanStart(BLOCK_GRAPH_PREFIX, node, from))
    ensures RestAfter(graphs, node, from, blocks)
  {
    hide Key, LexLess, ScanStart, StoredGraph;
    forall id, i | Wanted(graphs.Keys, node, from, id) && graphs[id] !in blocks && 0 <= i < |blocks|
      ensures IdLess(blocks[i].block, id)
    {
      assert Fits(id);
      var k :| 0 <= k < |db| && db[k] == Key(BLOCK_GRAPH_PREFIX, id);
      AtStart(BLOCK_GRAPH_PREFIX, node, from, id);
      if k < pos {
        KeyOrder(BLOCK_GRAPH_PREFIX, id, blocks[k - lo].block);
      }
      KeyOrder(BLOCK_GRAPH_PREFIX, blocks[i].block, id);
    }
  }

  /** When the iterator stops by itself, nothing wanted is left. */
  lemma NothingLeft(db: Db, values: Values, graphs: map<BlockID, BlockGraph>, node: u64, from: u64,
                    blocks: seq<BlockGraph>, lo: nat, pos: nat, id: BlockID)
    requires Sorted(db) && HoldsNormal(db, values, graphs) && Visited(db, blocks, lo, pos)
    requires GraphsOf(graphs, node, from, blocks)
    requires IsScan(db, NodePrefix(BLOCK_GRAPH_PREFIX, node), ScanStart(BLOCK_GRAPH_PREFIX, node, from), lo, pos)
    requires Wanted(graphs.Keys, node, from, id)
    ensures graphs[id] in blocks
  {
    hide Key, LexLess, ScanStart, NodePrefix, StoredGraph, IsScan;
    assert Fits(id);
    ScanExact(db, BLOCK_GRAPH_PREFIX, graphs.Keys, node, from, lo, pos, id);
    var t := db[lo..pos];
    var k :| 0 <= k < |t| && t[k] == Key(BLOCK_GRAPH_PREFIX, id);
    assert db[lo + k] == t[k];
    KeyOrder(BLOCK_GRAPH_PREFIX, id, blocks[k].block);
    assert blocks[k] == graphs[id];
  }

  /** The graphs of written ids: all that are wanted, or the first ones up to the limit. */
  ghost predicate IsBatch(graphs: map<BlockID, BlockGraph>, node: u64, from: u64, limit: int, blocks: seq<BlockGraph>) {
    && GraphsOf(graphs, node, from, blocks) && RestAfter(graphs, node, from, blocks)
    && (limit > 0 ==> |blocks| <= limit)
    && (|blocks| == limit || forall id | Wanted(graphs.Keys, node, from, id) :: graphs[id] in blocks)
  }

  /**
    getBlockGraphs, on any sorted keys with any values: it reads them from the start of the range on, up to the
    first that cannot be read. Where the values are those of written graphs it gives these, as they are read
    back, from the round on, in order, up to the limit; a limit that is not positive is none.
   */
  method GetBlockGraphs(db: Db, values: Values, ghost written: map<BlockID, BlockGraph>, node: u64, from: u64,
                        limit: int)
    returns (r: Batch)
    requires Sorted(db) && forall i | 0 <= i < |db| :: db[i] in values
    ensures
      exists lo: nat | IsSeek(db, ScanStart(BLOCK_GRAPH_PREFIX, node, from), lo) ::
        r == Walk(db[lo..], values, NodePrefix(BLOCK_GRAPH_PREFIX, node), limit)
    ensures HoldsGraphs(db, values, written) ==>
      r.end == Complete && IsBatch(ReadBack(written), node, from, limit, r.blocks)
  {
    hide Sorted, Holds, NodePrefix, ScanStart, LexLess, Key, IsBatch, IdLess, ReadBack, HoldsGraphs, Walk, GraphAt,
      After;
    ghost var graphs := ReadBack(written);
    ghost var plain := HoldsGraphs(db, values, written);
    if plain {
      HoldsReadBack(db, values, written);
    }
    var prefix, start := NodePrefix(BLOCK_GRAPH_PREFIX, node), ScanStart(BLOCK_GRAPH_PREFIX, node, from);
    assert prefix != [] by { PrefixNotEmpty(node); }
    var lo := Seek(db, start);
    assert IsSeek(db, start, lo);
    ghost var all := Walk(db[lo..], values, prefix, limit);
    var blocks: seq<BlockGraph> := [];
    var pos := lo;
    assert After([], all) == all by { hide Sorted; AfterParts([], BlockGraph(BlockID([], 0, 0), [], BlockID([], 0, 0)),
      all); }
    while pos < |db| && prefix <= db[pos]
      invariant lo <= pos <= |db| && |blocks| == pos - lo && (limit > 0 ==> |blocks| < limit)
      invariant all == After(blocks, Walk(db[pos..], values, prefix, limit - |blocks|))
      invariant plain ==> Visited(db, blocks, lo, pos) && GraphsOf(graphs, node, from, blocks)
      invariant forall i | lo <= i < pos :: prefix <= db[i]
    {
      WalkOn(db, values, prefix, limit, lo, pos, blocks);
      var g := ReadGraph(db[pos], values[db[pos]]);
      if plain {
        VisitedNext(db, values, graphs, node, from, blocks, lo, pos);
      }
      if g.Failed? {
        return Batch(blocks, Error);
      } else if g.Crashed? {
        return Batch(blocks, Panicked);
      }
      blocks := blocks + [g.value];
      pos := pos + 1;
      if |blocks| == limit {
        break;
      }
    }
    if plain {
      BatchDone(db, values, graphs, node, from, limit, blocks, lo, pos);
    }
    if |blocks| != limit || limit <= 0 {
      WalkEnds(db, values, prefix, limit, pos, blocks);
    }
    r := Batch(blocks, Complete);
  }

  lemma PrefixNotEmpty(node: u64)
    ensures NodePrefix(BLOCK_GRAPH_PREFIX, node) != []
  {
  }

  /** One turn of the scan. */
  lemma WalkOn(db: Db, values: Values, prefix: seq<byte>, limit: int, lo: nat, pos: nat, blocks: seq<BlockGraph>)
    requires pos < |db| && prefix <= db[pos] && forall i | 0 <= i < |db| :: db[i] in values
    ensures
      var all := After(blocks, Walk(db[pos..], values, prefix, limit - |blocks|));
      match GraphAt(db[pos], values[db[pos]])
      case Failed => all == Batch(blocks, Error)
      case Crashed => all == Batch(blocks, Panicked)
      case Parsed(g, _) =>
        if |blocks| + 1 == limit then all == Batch(blocks + [g], Complete)
        else all == After(blocks + [g], Walk(db[pos + 1..], values, prefix, limit - |blocks| - 1))
  {
    hide GraphAt, After;
    assert db[pos..][0] == db[pos] && db[pos..][1..] == db[pos + 1..];
    var g := GraphAt(db[pos], values[db[pos]]);
    var rest := Walk(db[pos + 1..], values, prefix, limit - |blocks| - 1);
    AfterParts(blocks, if g.Parsed? then g.value else BlockGraph(BlockID([], 0, 0), [], BlockID([], 0, 0)), rest);
  }

  lemma WalkEnds(db: Db, values: Values, prefix: seq<byte>, limit: int, pos: nat, blocks: seq<BlockGraph>)
    requires pos <= |db| && (pos < |db| ==> !(prefix <= db[pos])) && forall i | 0 <= i < |db| :: db[i] in values
    ensures After(blocks, Walk(db[pos..], values, prefix, limit - |blocks|)) == Batch(blocks, Complete)
  {
    assert blocks + [] == blocks;
    assert pos < |db| ==> db[pos..][0] == db[pos];
  }

  /** Where graphs were written, the next key is of one of them. */
  lemma VisitedNext(db: Db, values: Values, graphs: map<BlockID, BlockGraph>, node: u64, from: u64,
                    blocks: seq<BlockGraph>, lo: nat, pos: nat)
    requires Sorted(db) && HoldsNormal(db, values, graphs) && Visited(db, blocks, lo, pos)
    requires GraphsOf(graphs, node, from, blocks)
    requires pos < |db| && NodePrefix(BLOCK_GRAPH_PREFIX, node) <= db[pos]
    requires !LexLess(db[pos], ScanStart(BLOCK_GRAPH_PREFIX, node, from))
    ensures
      var g := GraphAt(db[pos], values[db[pos]]);
      && g.Parsed? && Visited(db, blocks + [g.value], lo, pos + 1) && GraphsOf(graphs, node, from, blocks + [g.value])
  {
    hide Sorted, Holds, NodePrefix, ScanStart, LexLess, Key, IdLess, GraphBytes, GraphShort, PrevsKept, GraphAt;
    var id := VisitedId(db, BLOCK_GRAPH_PREFIX, graphs.Keys, node, from, pos);
    assert StoredGraph(values, id, graphs[id]);
    ReadsGraph(graphs[id]);
    KeysAscend(db, blocks, lo, pos, id);
  }

  lemma BatchDone(db: Db, values: Values, graphs: map<BlockID, BlockGraph>, node: u64, from: u64, limit: int,
                  blocks: seq<BlockGraph>, lo: nat, pos: nat)
    requires Sorted(db) && HoldsNormal(db, values, graphs) && Visited(db, blocks, lo, pos)
    requires GraphsOf(graphs, node, from, blocks)
    requires IsSeek(db, ScanStart(BLOCK_GRAPH_PREFIX, node, from), lo) && (limit > 0 ==> |blocks| <= limit)
    requires forall i | lo <= i < pos :: NodePrefix(BLOCK_GRAPH_PREFIX, node) <= db[i]
    requires |blocks| == limit || (pos < |db| ==> !(NodePrefix(BLOCK_GRAPH_PREFIX, node) <= db[pos]))
    ensures IsBatch(graphs, node, from, limit, blocks)
  {
    hide Sorted, HoldsNormal, NodePrefix, ScanStart, LexLess, RestAfter, GraphsOf;
    NotVisited(db, values, graphs, node, from, blocks, lo, pos);
    if |blocks| != limit {
      forall id | Wanted(graphs.Keys, node, from, id) ensures graphs[id] in blocks {
        NothingLeft(db, values, graphs, node, from, blocks, lo, pos, id);
      }
    }
  }

  // --- replay ---

  /** The node's own blocks: one for each of the rounds 1 to last. */
  ghost predicate OwnChain(graphs: map<BlockID, BlockGraph>, node: u64, last: nat) {
    && (forall id | id in graphs && id.node == node :: 1 <= id.round <= last && graphs[id].block == id)
    && (forall r | 1 <= r <= last :: Present(graphs.Keys, node, r))
    && (forall a, b | a in graphs && b in graphs && a.node == node && b.node == node && a.round == b.round :: a == b)
  }

  /** The rounds a batch starts with. */
  function FirstRound(from: nat): nat {
    if from == 0 then 1 else from
  }

  /** A batch of the chain holds consecutive rounds, and is short only at the end of the chain. */
  lemma BatchRounds(graphs: map<BlockID, BlockGraph>, node: u64, from: u64, last: nat, limit: nat,
                    blocks: seq<BlockGraph>)
    requires OwnChain(graphs, node, last) && limit > 0
    requires GraphsOf(graphs, node, from, blocks) && |blocks| <= limit && RestAfter(graphs, node, from, blocks)
    requires |blocks| < limit ==> forall id | Wanted(graphs.Keys, node, from, id) :: graphs[id] in blocks
    ensures forall i | 0 <= i < |blocks| :: blocks[i].block.round == FirstRound(from) + i
    ensures |blocks| == if last < FirstRound(from) then 0 else if last - FirstRound(from) + 1 < limit
      then last - FirstRound(from) + 1 else limit
  {
    var first := FirstRound(from);
    forall i | 0 <= i < |blocks| ensures blocks[i].block.round == first + i {
      BatchRound(graphs, node, from, last, blocks, i);
    }
    if |blocks| > 0 {
      assert blocks[|blocks| - 1].block.round == first + |blocks| - 1;
    }
    if first + |blocks| <= last {
      assert Present(graphs.Keys, node, first + |blocks|);
      var id :| id in graphs && id.node == node && id.round == first + |blocks|;
      assert Wanted(graphs.Keys, node, from, id);
    }
  }

  lemma {:induction false} BatchRound(graphs: map<BlockID, BlockGraph>, node: u64, from: u64, last: nat,
                                      blocks: seq<BlockGraph>, i: nat)
    requires OwnChain(graphs, node, last)
    requires GraphsOf(graphs, node, from, blocks) && RestAfter(graphs, node, from, blocks) && i < |blocks|
    ensures blocks[i].block.round == FirstRound(from) + i
    decreases i
  {
    hide LexLess;
    var first := FirstRound(from);
    if i > 0 {
      BatchRound(graphs, node, from, last, blocks, i - 1);
    }
    var b := blocks[i].block;
    assert Wanted(graphs.Keys, node, from, b);
    assert first + i <= b.round by {
      if i > 0 {
        assert IdLess(blocks[i - 1].block, b);
        LexIrreflexive(b.hash);
      }
    }
    if first + i < b.round {
      assert Present(graphs.Keys, node, first + i);
      var id :| id in graphs && id.node == node && id.round == first + i;
      assert Wanted(graphs.Keys, node, from, id);
      NotListed(graphs, node, from, last, blocks, i, id);
    }
  }

  /** A wanted id between two neighbours of the list cannot exist. */
  lemma NotListed(graphs: map<BlockID, BlockGraph>, node: u64, from: u64, last: nat, blocks: seq<BlockGraph>, i: nat,
                  id: BlockID)
    requires OwnChain(graphs, node, last)
    requires GraphsOf(graphs, node, from, blocks) && RestAfter(graphs, node, from, blocks) && i < |blocks|
    requires Wanted(graphs.Keys, node, from, id) && id.round < blocks[i].block.round
    ensures i > 0 && id.round <= blocks[i - 1].block.round
  {
    hide LexLess;
    assert blocks[i].block.node == node;
    assert graphs[id] !in blocks ==> IdLess(blocks[i].block, id);
    if graphs[id] in blocks {
      var k :| 0 <= k < |blocks| && blocks[k] == graphs[id];
      assert i < k ==> IdLess(blocks[i].block, blocks[k].block);
      assert k < i - 1 ==> IdLess(blocks[k].block, blocks[i - 1].block);
    }
  }

  /** The rounds from a to b. */
  function Rounds(a: nat, b: nat): seq<nat>
    decreases b + 1 - a
  {
    if a > b then [] else [a] + Rounds(a + 1, b)
  }

  lemma {:induction false} RoundsSplit(a: nat, b: nat, c: nat)
    requires a <= b + 1 && b <= c
    ensures Rounds(a, c) == Rounds(a, b) + Rounds(b + 1, c)
    decreases b + 1 - a
  {
    if a <= b {
      RoundsSplit(a + 1, b, c);
    }
  }

  lemma {:induction false} RoundsAt(a: nat, b: nat)
    ensures |Rounds(a, b)| == if a > b then 0 else b - a + 1
    ensures forall i | 0 <= i < |Rounds(a, b)| :: Rounds(a, b)[i] == a + i
    decreases b + 1 - a
  {
    if a <= b {
      RoundsAt(a + 1, b);
    }
  }

  function RoundsOf(blocks: seq<BlockGraph>): (r: seq<nat>)
    ensures |r| == |blocks| && forall i | 0 <= i < |blocks| :: r[i] == blocks[i].block.round
  {
    seq(|blocks|, i requires 0 <= i < |blocks| => blocks[i].block.round)
  }

  /** The rounds of a whole batch, and how the batches go on. */
  lemma BatchIsRange(graphs: map<BlockID, BlockGraph>, node: u64, from: u64, last: nat, blocks: seq<BlockGraph>)
    requires OwnChain(graphs, node, last)
    requires IsBatch(graphs, node, from, BATCH_SIZE, blocks)
    ensures |blocks| <= BATCH_SIZE && GraphsOf(graphs, node, from, blocks)
    ensures |blocks| < BATCH_SIZE ==> RoundsOf(blocks) == Rounds(FirstRound(from), last)
    ensures |blocks| == BATCH_SIZE ==>
      RoundsOf(blocks) == Rounds(FirstRound(from), FirstRound(from) + 99) && FirstRound(from) + 99 <= last
  {
    hide OwnChain, GraphsOf, RestAfter, Wanted;
    BatchRounds(graphs, node, from, last, BATCH_SIZE, blocks);
    var first := FirstRound(from);
    RoundsAt(first, last);
    RoundsAt(first, first + 99);
  }

  /** What a replay from `from` adds to the graph. */
  function Replayed(from: nat, last: nat): seq<nat> {
    if from == 0 && last >= BATCH_SIZE then Rounds(1, BATCH_SIZE) + Rounds(BATCH_SIZE, last)
    else Rounds(FirstRound(from), last)
  }

  lemma ReplaySplit(from: nat, last: nat)
    requires FirstRound(from) + 99 <= last
    ensures Replayed(from, last) == Rounds(FirstRound(from), FirstRound(from) + 99) + Replayed(from + BATCH_SIZE, last)
  {
    if from > 0 {
      RoundsSplit(from, from + 99, last);
    }
  }

  /** The steps of a batch from `from` on get to 2^64, with a block stored for every round. */
  predicate WrapsAround(from: nat, last: nat) {
    last + 1 == U64_SIZE && 0 < from < U64_SIZE && (U64_SIZE - from) % BATCH_SIZE == 0
  }

  /** What the whole replay adds: where the steps wrap around, all is added once more from 0 on. */
  function Added(from: nat, last: nat): seq<nat> {
    if WrapsAround(from, last) then Rounds(from, last) + Replayed(0, last) else Replayed(from, last)
  }

  lemma AddedSplit(from: nat, last: nat)
    requires FirstRound(from) + 99 <= last < U64_SIZE
    ensures from + BATCH_SIZE < U64_SIZE ==>
      Added(from, last) == Rounds(FirstRound(from), FirstRound(from) + 99) + Added(from + BATCH_SIZE, last)
    ensures from + BATCH_SIZE == U64_SIZE ==> Added(from, last) == Rounds(from, from + 99) + Replayed(0, last)
    ensures from + BATCH_SIZE <= U64_SIZE
  {
    hide Rounds, Replayed;
    if WrapsAround(from, last) {
      if from + BATCH_SIZE < U64_SIZE {
        RoundsSplit(from, from + 99, last);
        Regrouped(Rounds(from, from + 99), Rounds(from + BATCH_SIZE, last), Replayed(0, last));
      }
    } else {
      ReplaySplit(from, last);
    }
  }

  lemma Regrouped(a: seq<nat>, b: seq<nat>, c: seq<nat>)
    ensures a + b + c == a + (b + c)
  {
  }

  /**
    The rounds from `from` to the last one, each once and in order, exactly when the replay does not start at 0
    or ends within its first batch, and does not wrap around. From 0, round 100 is added twice.
   */
  lemma ReplayedOnce(from: nat, last: nat)
    requires last < U64_SIZE
    ensures
      Added(from, last) == Rounds(FirstRound(from), last)
      <==> (from >= 1 || last < BATCH_SIZE) && !WrapsAround(from, last)
    ensures from == 0 && last >= BATCH_SIZE ==>
      |Added(0, last)| > 100 && Added(0, last)[99] == Added(0, last)[100] == 100
  {
    RoundsAt(1, BATCH_SIZE);
    RoundsAt(BATCH_SIZE, last);
    RoundsAt(1, last);
    RoundsAt(from, last);
    hide Rounds;
  }

  /** What is still to be added; in the second time round there is no third. */
  function Rest(again: bool, from: nat, last: nat): seq<nat> {
    if again then Replayed(from, last) else Added(from, last)
  }

  /** Graphs that were added, and the rounds that are still to come. */
  ghost predicate Replaying(graphs: map<BlockID, BlockGraph>, added: seq<BlockGraph>, rest: seq<nat>, total: seq<nat>) {
    && RoundsOf(added) + rest == total
    && forall i | 0 <= i < |added| :: added[i].block in graphs && added[i] == graphs[added[i].block]
  }

  /** The second loop of replayGraphChanges, over the own blocks. */
  method ReplayGraphChanges(db: Db, values: Values, ghost written: map<BlockID, BlockGraph>, node: u64, start: u64,
                            ghost last: nat)
    returns (added: seq<BlockGraph>)
    requires Sorted(db) && HoldsGraphs(db, values, written) && OwnChain(written, node, last) && last < U64_SIZE
    ensures RoundsOf(added) == Added(start, last)
    ensures forall i | 0 <= i < |added| :: added[i].block in written && added[i] == NormalGraph(written[added[i].block])
  {
    assert forall i | 0 <= i < |db| :: db[i] in values;
    hide Sorted, HoldsGraphs, OwnChain, IsBatch, GraphsOf, Rounds, Replayed, NormalGraph, Added, Rest, Walk, Replaying,
      Wrap64;
    ghost var graphs, total := ReadBack(written), Added(start, last);
    ChainReadBack(written, node, last);
    added := [];
    var from := start;
    ghost var again := false;
    NothingAdded(graphs, start, last);
    while true
      invariant 0 <= from < U64_SIZE && (again ==> from % BATCH_SIZE == 0)
      invariant Replaying(graphs, added, Rest(again, from, last), total)
      decreases !again, if from <= last + 1 then last + 1 - from else 0
    {
      var batch := GetBlockGraphs(db, values, written, node, from, BATCH_SIZE);
      var blocks := batch.blocks;
      BatchIsRange(graphs, node, from, last, blocks);
      if |blocks| < BATCH_SIZE {
        LastBatch(from, last, blocks, again);
        AddBatch(graphs, node, from, added, blocks, Rest(again, from, last), [], total);
        added := added + blocks;
        break;
      }
      NextBatch(from, last, again);
      ghost var more := again || from + BATCH_SIZE == U64_SIZE;
      AddBatch(graphs, node, from, added, blocks, Rest(again, from, last), Rest(more, Wrap64(from + BATCH_SIZE), last),
        total);
      added := added + blocks;
      again := more;
      from := Wrap64(from + BATCH_SIZE);
    }
    AllAdded(written, added, total);
  }

  lemma NothingAdded(graphs: map<BlockID, BlockGraph>, start: nat, last: nat)
    ensures Replaying(graphs, [], Rest(false, start, last), Added(start, last))
  {
    hide Added;
    assert RoundsOf([]) + Added(start, last) == Added(start, last);
  }

  lemma AllAdded(written: map<BlockID, BlockGraph>, added: seq<BlockGraph>, total: seq<nat>)
    requires Replaying(ReadBack(written), added, [], total)
    ensures RoundsOf(added) == total
    ensures forall i | 0 <= i < |added| :: added[i].block in written && added[i] == NormalGraph(written[added[i].block])
  {
    assert RoundsOf(added) + [] == RoundsOf(added);
  }

  lemma AddBatch(graphs: map<BlockID, BlockGraph>, node: u64, from: u64, added: seq<BlockGraph>,
                 blocks: seq<BlockGraph>,
                 rest: seq<nat>, next: seq<nat>, total: seq<nat>)
    requires GraphsOf(graphs, node, from, blocks) && Replaying(graphs, added, rest, total)
    requires rest == RoundsOf(blocks) + next
    ensures Replaying(graphs, added + blocks, next, total)
  {
    var all := added + blocks;
    assert RoundsOf(all) == RoundsOf(added) + RoundsOf(blocks);
    Regrouped(RoundsOf(added), RoundsOf(blocks), next);
    forall i | 0 <= i < |all| ensures all[i].block in graphs && all[i] == graphs[all[i].block] {
      if i >= |added| {
        assert all[i] == blocks[i - |added|];
      }
    }
  }

  /** A short batch is the rest; after a full one the rest goes on, perhaps from 0. */
  lemma LastBatch(from: nat, last: nat, blocks: seq<BlockGraph>, again: bool)
    requires |blocks| < BATCH_SIZE && RoundsOf(blocks) == Rounds(FirstRound(from), last) && last < U64_SIZE
    ensures Rest(again, from, last) == RoundsOf(blocks) + []
  {
    RoundsAt(FirstRound(from), last);
    ShortBatch(from, last, blocks);
    hide Rounds, Replayed;
    assert RoundsOf(blocks) + [] == RoundsOf(blocks);
  }

  lemma NextBatch(from: nat, last: nat, again: bool)
    requires FirstRound(from) + 99 <= last < U64_SIZE && (again ==> from % BATCH_SIZE == 0)
    ensures from + BATCH_SIZE <= U64_SIZE && (again ==> from + BATCH_SIZE < U64_SIZE)
    ensures Wrap64(from + BATCH_SIZE) == if from + BATCH_SIZE == U64_SIZE then 0 else from + BATCH_SIZE
    ensures again || from + BATCH_SIZE == U64_SIZE ==> Wrap64(from + BATCH_SIZE) % BATCH_SIZE == 0
    ensures
      var more := again || from + BATCH_SIZE == U64_SIZE;
      Rest(again, from, last) == Rounds(FirstRound(from), FirstRound(from) + 99)
        + Rest(more, Wrap64(from + BATCH_SIZE), last)
  {
    hide Rounds, Replayed, Added;
    AddedSplit(from, last);
    ReplaySplit(from, last);
  }

  lemma ChainReadBack(written: map<BlockID, BlockGraph>, node: u64, last: nat)
    requires OwnChain(written, node, last)
    ensures OwnChain(ReadBack(written), node, last) && ReadBack(written).Keys == written.Keys
  {
    assert ReadBack(written).Keys == written.Keys;
    forall id | id in written ensures NormalGraph(written[id]).block == written[id].block {
      SameBlock(written[id]);
    }
  }

  /**
    What the interpreter makes of the difference: a received block whose previous block has an empty hash
    counts a delay of one round for its node; after a replay it counts its whole round for node 0.
   */
  lemma ReplayedDelayDiffers(d: Dep)
    requires d.deps == [] && d.block.round >= 2 && d.prev == BlockID([], d.block.node, d.block.round - 1)
    ensures Delays(map[], d.block.round, Links(d)) == map[d.block.node := 10]
    ensures Delays(map[], d.block.round, Links(NormalDep(d))) == map[0 := Wrap64(d.block.round * 10)]
  {
    assert Links(d) == [d.prev] && [d.prev][1..] == [];
    assert Links(NormalDep(d)) == [NO_BLOCK] && [NO_BLOCK][1..] == [];
  }

  lemma ShortBatch(from: nat, last: nat, blocks: seq<BlockGraph>)
    requires |blocks| < BATCH_SIZE && RoundsOf(blocks) == Rounds(FirstRound(from), last)
    ensures RoundsOf(blocks) == Replayed(from, last)
  {
    RoundsAt(FirstRound(from), last);
  }
}
