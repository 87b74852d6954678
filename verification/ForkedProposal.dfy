/**
  Where agreement ends: whenever there are more nodes than three times the faults that the quorums are made
  for and one, that many forking nodes can make two other nodes commit to different blocks in view 0. The
  runs are of one block graph: two teams of a quorum each, which share just the forking nodes, prepare one
  branch each of the first block of one of them.
 */
module ForkedProposal {
  import opened Ids
  import opened Outcomes
  import opened Protocol
  import opened Interpreter
  import opened Runs
  import opened Consensus
  import opened Tallies
  import opened Scenes
  import Bitsets

  function Block(node: nat, hash: Hash): BlockID {
    BlockID(hash, node, 1)
  }

  function Choice(z: nat, hash: Hash): Proposal {
    OwnProposal(Block(z, hash))
  }

  function BranchOut(z: nat, hash: Hash): seq<Message> {
    [PrePrepare(Choice(z, hash)), Prepare(Choice(z, hash), z)]
  }

  /** The blocks of some nodes. */
  function BlocksOfNodes(ys: seq<nat>, hash: Hash): (r: seq<BlockID>)
    ensures |r| == |ys| && forall i | 0 <= i < |ys| :: r[i] == Block(ys[i], hash)
  {
    seq(|ys|, i requires 0 <= i < |ys| => Block(ys[i], hash))
  }

  /** A branch, and the blocks of the nodes that have seen it. */
  function Part(z: nat, hash: Hash, ys: seq<nat>): (r: seq<Dep>)
    ensures |r| == |ys| + 1 && r[0] == Dep(Block(z, hash), [], ZERO)
    ensures forall i | 0 <= i < |ys| :: r[i + 1] == Dep(Block(ys[i], hash), [Block(z, hash)], ZERO)
  {
    [Dep(Block(z, hash), [], ZERO)]
    + seq(|ys|, i requires 0 <= i < |ys| => Dep(Block(ys[i], hash), [Block(z, hash)], ZERO))
  }

  ghost predicate Distinct(xs: seq<nat>) {
    forall i, j | 0 <= i < j < |xs| :: xs[i] != xs[j]
  }

  /** Who does what: node z forks; the nodes of `ys` see one branch, and c commits to it; `others` and c' likewise. */
  datatype Cast = Cast(cfg: Config, z: nat, ys: seq<nat>, c: nat, others: seq<nat>, c': nat) {
    ghost predicate Ok() {
      && cfg.Quorum() >= 3 && |ys| + 2 == cfg.Quorum() == |others| + 2
      && Distinct([z] + ys + [c]) && Distinct([z] + others + [c']) && c != c' && c !in others && c' !in ys
      && (forall x | x in [z] + ys + [c] :: x in cfg.peers) && (forall x | x in [z] + others + [c'] :: x in cfg.peers)
    }

    function At1(): Slot { Slot(z, 1) }

    function Group1(nodes: set<nat>): Group { Group(nodes, {c, c'}) }

    /** The last block of the first team, and the block graph that has them all. */
    function Last(h: Hash): Dep { Dep(Block(c, h), [Block(z, h)] + BlocksOfNodes(ys, h), ZERO) }

    function Input(h: Hash, h': Hash): BlockGraph {
      BlockGraph(Block(c', h'), Part(z, h', others) + (Part(z, h, ys) + [Last(h)]), ZERO)
    }
  }

  lemma PairFits(a: Cast, x: nat)
    requires a.Ok()
    ensures Fits(a.Group1({a.z, x}), a.cfg.Quorum(), x) && Fits(a.Group1({a.z}), a.cfg.Quorum(), a.z)
  {
    hide Distinct;
    assert |{a.c, a.c'}| == 2;
    assert |{a.z, x}| <= 2;
  }

  lemma CommitterFits(a: Cast, nodes: set<nat>, x: nat)
    requires a.Ok() && x in nodes && (x == a.c || x == a.c')
    ensures Fits(a.Group1(nodes), a.cfg.Quorum(), x)
  {
    hide Distinct;
    assert |{a.c, a.c'}| == 2;
  }

  // --- a branch and its witnesses ---

  /** Nothing but blocks with that hash has changed. */
  ghost predicate Apart(g: Graph, g': Graph, hash: Hash) {
    && g' == g.(statess := g'.statess)
    && forall b: BlockID | b.hash != hash ::
      (b in g'.statess <==> b in g.statess) && (b in g.statess ==> g'.statess[b] == g.statess[b])
  }

  lemma ApartKnown(g: Graph, g': Graph, hash: Hash, b: BlockID, c: Group, k: Slot, out: seq<Message>)
    requires Apart(g, g', hash) && b.hash != hash && Known(g, b, c, k, out)
    ensures Known(g', b, c, k, out)
  {
    hide At, AllPlain;
  }

  ghost predicate Seen(a: Cast, g: Graph, hash: Hash, y: nat) {
    Known(g, Block(y, hash), a.Group1({a.z, y}), a.At1(), [Prepare(Choice(a.z, hash), y)])
  }

  ghost predicate BranchSeen(a: Cast, g: Graph, hash: Hash, ys: seq<nat>) {
    && Known(g, Block(a.z, hash), a.Group1({a.z}), a.At1(), BranchOut(a.z, hash))
    && forall i | 0 <= i < |ys| :: Seen(a, g, hash, ys[i])
  }

  /** Entries i and after are of the part. */
  ghost predicate PartAt(es: seq<Entry>, i: nat, z: nat, hash: Hash, ys: seq<nat>) {
    && i + |ys| + 1 <= |es| && es[i] == Entry(Block(z, hash), [], ZERO)
    && forall j | 0 <= j < |ys| :: es[i + 1 + j] == Entry(Block(ys[j], hash), [Block(z, hash)], ZERO)
  }

  lemma {:induction false} WitnessesRun(a: Cast, g: Graph, hist: seq<Record>, hash: Hash, ys: seq<nat>, es: seq<Entry>,
                                        i: nat, n: nat)
    returns (g': Graph, hist': seq<Record>)
    requires a.Ok() && Distinct([a.z] + ys) && PartAt(es, i, a.z, hash, ys) && n <= |ys|
    ensures Apart(g, g', hash) && BranchSeen(a, g', hash, ys[..n]) && |hist'| == |hist| + 1 + n
    ensures ProcessAll(a.cfg, g, hist, es[i..]) == ProcessAll(a.cfg, g', hist', es[i + 1 + n..])
    decreases n
  {
    hide Process, ProcessAll, Known, FindOrCreate, Fits, Stands;
    var k := a.At1();
    if n == 0 {
      PairFits(a, a.z);
      var s, p;
      g', s, p := Proposer(a.cfg, a.Group1({a.z}), g, es[i], k);
      hist' := One(a.cfg, g, g', hist, es, i);
    } else {
      var g1, hist1 := WitnessesRun(a, g, hist, hash, ys, es, i, n - 1);
      var y, e := ys[n - 1], es[i + n];
      assert e == Entry(Block(y, hash), [Block(a.z, hash)], ZERO);
      assert ([a.z] + ys)[0] != ([a.z] + ys)[n];
      PairFits(a, y);
      var s, p;
      g', s, p := Witness(a.cfg, a.Group1({a.z, y}), g1, e, Block(a.z, hash), a.Group1({a.z}), k, Choice(a.z, hash));
      hist' := One(a.cfg, g1, g', hist1, es, i + n);
      Stays(g1, g', e.block, s, Block(a.z, hash), a.Group1({a.z}), k, BranchOut(a.z, hash));
      forall j | 0 <= j < n ensures Seen(a, g', hash, ys[..n][j]) {
        if j < n - 1 {
          assert ([a.z] + ys)[j + 1] != ([a.z] + ys)[n];
          assert Seen(a, g1, hash, ys[..n - 1][j]);
          Stays(g1, g', e.block, s, Block(ys[j], hash), a.Group1({a.z, ys[j]}), k, [Prepare(Choice(a.z, hash), ys[j])]);
        }
      }
    }
  }

  // --- a block that commits ---

  function PrepareLinks(q: Proposal, ys: seq<nat>): (r: seq<Read>)
    ensures |r| == |ys| && forall i | 0 <= i < |ys| :: r[i] == Read(ys[i], [Prepare(q, ys[i])])
  {
    seq(|ys|, i requires 0 <= i < |ys| => Read(ys[i], [Prepare(q, ys[i])]))
  }

  /** Prepares of one node after the other bring the count to the quorum. */
  lemma {:induction false} PreparesCommit(s: Pass, quorum: nat, x: nat, q: Proposal, ys: seq<nat>, rest: seq<Read>)
    requires ys != [] && Distinct(ys) && Commit(q, x) !in s.seen && x !in Count(s.t, q).commits
    requires |Count(s.t, q).prepares| + |ys| == quorum
    requires forall y | y in ys :: y !in Count(s.t, q).prepares && Prepare(q, y) !in s.seen
    ensures Commit(q, x) in ReadPass(s, quorum, x, PrepareLinks(q, ys) + rest).out
    decreases |ys|
  {
    hide SlotPass, ReadPass;
    var y, b := ys[0], Count(s.t, q);
    var tail := ys[1..];
    var links := PrepareLinks(q, tail) + rest;
    assert PrepareLinks(q, ys) + rest == [Read(y, [Prepare(q, y)])] + links;
    assert y in ys;
    PrepareTaken(s.t, s.seen, quorum, q, y, x);
    ReadFirst(s, quorum, x, Read(y, [Prepare(q, y)]), links);
    var p := SlotPass(s.t, s.seen, quorum, y, x, [Prepare(q, y)]);
    var s' := Pass(p.t, p.seen, s.out + p.out);
    assert |b.prepares + {y}| == |b.prepares| + 1;
    if tail == [] {
      ReadGrows(s', quorum, x, links);
      assert Commit(q, x) in s'.out;
    } else {
      forall v | v in tail ensures v !in Count(s'.t, q).prepares && Prepare(q, v) !in s'.seen {
        assert v in ys;
        var i :| 0 <= i < |tail| && tail[i] == v;
        assert ys[i + 1] == v && ys[0] != ys[i + 1];
      }
      assert Distinct(tail) by { assert forall i | 0 <= i < |tail| :: tail[i] == ys[i + 1]; }
      PreparesCommit(s', quorum, x, q, tail, rest);
    }
  }

  /** A block that reads a branch and then all its witnesses. */
  lemma TeamCommits(quorum: nat, b: BlockID, z: nat, q: Proposal, ys: seq<nat>, rest: seq<Read>)
    requires quorum >= 3 && |ys| + 2 == quorum && Distinct([z] + ys + [b.node]) && b.round == 1
    ensures
      var links := [Read(z, [PrePrepare(q), Prepare(q, z)])] + (PrepareLinks(q, ys) + rest);
      Commit(q, b.node) in SlotBlock(BLANK, quorum, b, Slot(z, 1), links).out
  {
    hide ReadPass, SlotBlock, Distinct, PrepareLinks;
    var x := b.node;
    TeamApart(z, ys, x);
    ReadsProposal(quorum, b, Slot(z, 1), q, z, PrepareLinks(q, ys) + rest);
    var t := Tally(Some(q), map[q := Votes({z, x}, {})]);
    var seen := {PrePrepare(q), Prepare(q, z), Prepare(q, x)};
    assert |{z, x}| == 2;
    assert Count(t, q) == Votes({z, x}, {});
    PreparesCommit(Pass(t, seen, [Prepare(q, x)]), quorum, x, q, ys, rest);
  }

  function TeamDeps(z: nat, hash: Hash, ys: seq<nat>, own: bool, after: seq<BlockID>): seq<BlockID> {
    (if own then [ZERO] else []) + ([Block(z, hash)] + (BlocksOfNodes(ys, hash) + after))
  }

  lemma LinksCommit(a: Cast, g: Graph, x: nat, hash: Hash, ys: seq<nat>, own: bool, after: seq<BlockID>)
    requires a.Ok() && |ys| + 2 == a.cfg.Quorum() && Distinct([a.z] + ys + [x]) && ZERO !in g.statess
    requires At(OutputOf(g, Block(a.z, hash)), a.At1()) == BranchOut(a.z, hash)
    requires forall i | 0 <= i < |ys| ::
      At(OutputOf(g, Block(ys[i], hash)), a.At1()) == [Prepare(Choice(a.z, hash), ys[i])]
    ensures
      var links := Reads(g, TeamDeps(a.z, hash, ys, own, after), a.At1());
      Commit(Choice(a.z, hash), x) in SlotBlock(BLANK, a.cfg.Quorum(), Block(x, hash), a.At1(), links).out
  {
    hide SlotBlock, At, Distinct;
    var q, k := Choice(a.z, hash), a.At1();
    var links := [Read(a.z, [PrePrepare(q), Prepare(q, a.z)])] + (PrepareLinks(q, ys) + Reads(g, after, k));
    TeamCommits(a.cfg.Quorum(), Block(x, hash), a.z, q, ys, Reads(g, after, k));
    ZeroReadable(g, a.Group1({}), k);
    var deps := [Block(a.z, hash)] + (BlocksOfNodes(ys, hash) + after);
    assert Reads(g, deps, k) == links;
    if own {
      assert Reads(g, [ZERO] + deps, k) == [Read(0, [])] + links;
      assert x != a.z by { TeamApart(a.z, ys, x); }
      SkipFirst(a.cfg.Quorum(), Block(x, hash), k, links);
    } else {
      assert TeamDeps(a.z, hash, ys, own, after) == deps;
    }
  }

  lemma TeamApart(z: nat, ys: seq<nat>, x: nat)
    requires Distinct([z] + ys + [x])
    ensures x != z && x !in ys && z !in ys && Distinct(ys)
  {
    var team := [z] + ys + [x];
    assert team[0] == z && team[|ys| + 1] == x && forall i | 0 <= i < |ys| :: team[i + 1] == ys[i];
    forall i, j | 0 <= i < j < |ys| ensures ys[i] != ys[j] {
      assert team[i + 1] != team[j + 1];
    }
  }

  lemma SkipFirst(quorum: nat, b: BlockID, k: Slot, links: seq<Read>)
    requires Slot(b.node, b.round) != k
    ensures SlotBlock(BLANK, quorum, b, k, [Read(0, [])] + links) == SlotBlock(BLANK, quorum, b, k, links)
  {
    hide SlotPass, ReadPass, SlotBlock;
    OnlyReads(BLANK, quorum, b, k, [Read(0, [])] + links);
    OnlyReads(BLANK, quorum, b, k, links);
    ReadNothing(Pass(BLANK, {}, []), quorum, b.node, 0, links);
  }

  lemma TeamReadable(a: Cast, g: Graph, hash: Hash, ys: seq<nat>, nodes: set<nat>)
    requires BranchSeen(a, g, hash, ys) && a.z in nodes && forall y | y in ys :: y in nodes
    ensures AllReadable(a.Group1(nodes), g, [Block(a.z, hash)] + BlocksOfNodes(ys, hash))
    ensures At(OutputOf(g, Block(a.z, hash)), a.At1()) == BranchOut(a.z, hash)
    ensures forall i | 0 <= i < |ys| ::
      At(OutputOf(g, Block(ys[i], hash)), a.At1()) == [Prepare(Choice(a.z, hash), ys[i])]
  {
    hide At, Known, Readable;
    var k, c := a.At1(), a.Group1(nodes);
    KnownReadable(g, Block(a.z, hash), a.Group1({a.z}), c, k, BranchOut(a.z, hash));
    forall i | 0 <= i < |ys|
      ensures Readable(c, g, Block(ys[i], hash)) && At(OutputOf(g, Block(ys[i], hash)), k)
        == [Prepare(Choice(a.z, hash), ys[i])]
    {
      assert Seen(a, g, hash, ys[i]);
      KnownReadable(g, Block(ys[i], hash), a.Group1({a.z, ys[i]}), c, k, [Prepare(Choice(a.z, hash), ys[i])]);
    }
  }

  /** The committing block of a team, wherever it comes in the run. */
  lemma Committer(a: Cast, g: Graph, x: nat, hash: Hash, ys: seq<nat>, own: bool, after: seq<BlockID>, nodes: set<nat>)
    returns (g': Graph, s: State, p: Pass)
    requires a.Ok() && |ys| + 2 == a.cfg.Quorum() && Distinct([a.z] + ys + [x]) && (x == a.c || x == a.c')
    requires ZERO !in g.statess && BranchSeen(a, g, hash, ys) && AllReadable(a.Group1(nodes), g, after)
    requires a.z in nodes && x in nodes && forall y | y in ys :: y in nodes
    ensures
      var e := Entry(Block(x, hash), TeamDeps(a.z, hash, ys, own, after), ZERO);
      && Process(a.cfg, g, e) == Ok(g') && g' == g.(statess := g.statess[e.block := s])
      && Commit(Choice(a.z, hash), x) in s.out && Known(g', e.block, a.Group1(nodes), a.At1(), p.out)
  {
    hide Process, Fits, SlotBlock, At, Known, Reads, Stands, Distinct, BranchSeen, Readable;
    var c, k := a.Group1(nodes), a.At1();
    var e := Entry(Block(x, hash), TeamDeps(a.z, hash, ys, own, after), ZERO);
    CommitterFits(a, nodes, x);
    TeamReadable(a, g, hash, ys, nodes);
    ZeroReadable(g, c, k);
    LinksCommit(a, g, x, hash, ys, own, after);
    DepsReadable(c, g, a.z, hash, ys, own, after);
    g', s, p := NextFresh(a.cfg, c, g, e, k);
    KnownHas(g', e.block, c, k, p.out, Commit(Choice(a.z, hash), x));
  }

  lemma DepsReadable(c: Group, g: Graph, z: nat, hash: Hash, ys: seq<nat>, own: bool, after: seq<BlockID>)
    requires Readable(c, g, ZERO) && AllReadable(c, g, [Block(z, hash)] + BlocksOfNodes(ys, hash))
    requires AllReadable(c, g, after)
    ensures AllReadable(c, g, TeamDeps(z, hash, ys, own, after))
  {
    hide Readable;
    forall d | d in TeamDeps(z, hash, ys, own, after) ensures d.round <= 10 && Readable(c, g, d) {
      assert d == ZERO || d in [Block(z, hash)] + BlocksOfNodes(ys, hash) || d in after;
    }
  }

  // --- the run ---

  /** Where the parts of the block graph are among the entries. */
  lemma EntriesOfInput(a: Cast, h: Hash, h': Hash)
    ensures
      var es := Entries(a.Input(h, h'));
      var n, m := |a.others|, |a.ys|;
      && |es| == n + m + 4
      && PartAt(es, 0, a.z, h', a.others) && PartAt(es, n + 1, a.z, h, a.ys)
      && es[n + m + 2] == Entry(Block(a.c, h), TeamDeps(a.z, h, a.ys, false, []), ZERO)
      && es[n + m + 3] == Entry(Block(a.c', h'), TeamDeps(a.z, h', a.others, true, Later(a, h)), ZERO)
  {
    hide PartAt, Part, TeamDeps, BlocksOfNodes, DepEntry;
    var bg := a.Input(h, h');
    var es, deps := Entries(bg), bg.deps;
    var n, m := |a.others|, |a.ys|;
    var first, second := Part(a.z, h', a.others), Part(a.z, h, a.ys);
    PartEntries(deps, 0, a.z, h', a.others, es);
    PartEntries(deps, n + 1, a.z, h, a.ys, es);
    assert deps[n + m + 2] == a.Last(h);
    LastEntry(a, h);
    OwnDeps(a, h, h');
  }

  lemma PartEntries(deps: seq<Dep>, i: nat, z: nat, hash: Hash, ys: seq<nat>, es: seq<Entry>)
    requires i + |ys| + 1 <= |deps| <= |es| && deps[i..i + |ys| + 1] == Part(z, hash, ys)
    requires forall j | 0 <= j < |deps| :: es[j] == DepEntry(deps[j])
    ensures PartAt(es, i, z, hash, ys)
  {
    hide Part;
    var part := deps[i..i + |ys| + 1];
    assert deps[i] == part[0];
    forall j | 0 <= j < |ys| ensures es[i + 1 + j] == Entry(Block(ys[j], hash), [Block(z, hash)], ZERO) {
      assert deps[i + 1 + j] == part[j + 1];
    }
  }

  lemma LastEntry(a: Cast, h: Hash)
    ensures DepEntry(a.Last(h)) == Entry(Block(a.c, h), TeamDeps(a.z, h, a.ys, false, []), ZERO)
  {
    var deps := [Block(a.z, h)] + BlocksOfNodes(a.ys, h);
    assert TeamDeps(a.z, h, a.ys, false, []) == deps;
  }

  /** What the own block reads after its team. */
  function Later(a: Cast, h: Hash): seq<BlockID> {
    [Block(a.z, h)] + BlocksOfNodes(a.ys, h) + [Block(a.c, h)]
  }

  lemma PartBlocks(z: nat, hash: Hash, ys: seq<nat>)
    ensures Blocks(Part(z, hash, ys)) == [Block(z, hash)] + BlocksOfNodes(ys, hash)
  {
    hide Part, Blocks, BlocksOfNodes;
    var part, nodes := Part(z, hash, ys), BlocksOfNodes(ys, hash);
    var l, r := Blocks(part), [Block(z, hash)] + nodes;
    forall i | 0 <= i < |l| ensures l[i] == r[i] {
      assert l[i] == part[i].block;
      if i > 0 {
        assert part[(i - 1) + 1].block == Block(ys[i - 1], hash) == nodes[i - 1] == r[i];
      }
    }
  }

  lemma BlocksConcat(a: seq<Dep>, b: seq<Dep>)
    ensures Blocks(a + b) == Blocks(a) + Blocks(b)
  {
  }

  lemma Regroup(all: seq<BlockID>, first: seq<BlockID>, second: seq<BlockID>, last: seq<BlockID>, x: seq<BlockID>,
                y: seq<BlockID>)
    requires first == x + y && all == first + (second + last)
    ensures all == x + (y + (second + last))
  {
  }

  lemma OwnDeps(a: Cast, h: Hash, h': Hash)
    ensures [ZERO] + Blocks(a.Input(h, h').deps) == TeamDeps(a.z, h', a.others, true, Later(a, h))
  {
    hide Blocks, Part, BlocksOfNodes;
    var first, second, last := Part(a.z, h', a.others), Part(a.z, h, a.ys), [a.Last(h)];
    PartBlocks(a.z, h', a.others);
    PartBlocks(a.z, h, a.ys);
    BlocksConcat(first, second + last);
    BlocksConcat(second, last);
    OneBlock(a.Last(h));
    Regroup(Blocks(first + (second + last)), Blocks(first), Blocks(second), [Block(a.c, h)], [Block(a.z, h')],
      BlocksOfNodes(a.others, h'));
  }

  lemma OneBlock(d: Dep)
    ensures Blocks([d]) == [d.block]
  {
  }

  lemma PartIsOk(cfg: Config, es: seq<Entry>, i: nat, z: nat, hash: Hash, ys: seq<nat>)
    requires PartAt(es, i, z, hash, ys) && hash != [] && z in Nodes(cfg) && forall y | y in ys :: y in Nodes(cfg)
    ensures forall j | i <= j < i + |ys| + 1 :: EntryOk(cfg, es[j])
  {
    hide Nodes;
    forall j | i <= j < i + |ys| + 1 ensures EntryOk(cfg, es[j]) {
      if j > i {
        assert es[j] == es[i + 1 + (j - i - 1)] && ys[j - i - 1] in ys;
      }
    }
  }

  lemma EntriesAreOk(a: Cast, h: Hash, h': Hash)
    requires a.Ok() && h != [] && h' != []
    ensures forall i | 0 <= i < |Entries(a.Input(h, h'))| :: EntryOk(a.cfg, Entries(a.Input(h, h'))[i])
  {
    hide *;
    var es, n, m := Entries(a.Input(h, h')), |a.others|, |a.ys|;
    TeamIn(a);
    EntriesOfInput(a, h, h');
    PartIsOk(a.cfg, es, 0, a.z, h', a.others);
    PartIsOk(a.cfg, es, n + 1, a.z, h, a.ys);
    BlockIsOk(a.cfg, es[n + m + 2], a.c, h);
    BlockIsOk(a.cfg, es[n + m + 3], a.c', h');
  }

  lemma BlockIsOk(cfg: Config, e: Entry, node: nat, hash: Hash)
    requires e.block == Block(node, hash) && hash != [] && node in Nodes(cfg)
    ensures EntryOk(cfg, e)
  {
  }

  lemma InputIsWellFormed(a: Cast, h: Hash, h': Hash)
    requires a.Ok() && h != [] && h' != [] && |Nodes(a.cfg)| == |a.cfg.peers|
    requires forall x | x in a.cfg.peers :: Bitsets.InRange(|a.cfg.peers|, x)
    ensures WellFormed(a.cfg, [a.Input(h, h')])
  {
    EntriesAreOk(a, h, h');
    hide Cast.Ok, EntryOk, Bitsets.InRange, Part, Nodes;
    assert InputOk(a.cfg, a.Input(h, h'));
  }

  function Admitted(a: Cast, h: Hash, h': Hash): Graph {
    Admit(Initial(a.cfg), a.Input(h, h'))
  }

  lemma BothParts(a: Cast, h: Hash, h': Hash) returns (g: Graph, hist: seq<Record>)
    requires a.Ok() && h != h' && h != [] && h' != []
    ensures g == Admitted(a, h, h').(statess := g.statess) && ZERO !in g.statess && |hist| == |a.others| + |a.ys| + 2
    ensures BranchSeen(a, g, h', a.others) && BranchSeen(a, g, h, a.ys)
    ensures
      var es := Entries(a.Input(h, h'));
      |es| == |hist| + 2 && ProcessAll(a.cfg, Admitted(a, h, h'), [], es) == ProcessAll(a.cfg, g, hist, es[|hist|..])
  {
    hide ProcessAll, Admit, Known, Distinct, Entries;
    var es := Entries(a.Input(h, h'));
    EntriesOfInput(a, h, h');
    var g0 := Admitted(a, h, h');
    AdmitAside(Initial(a.cfg), a.Input(h, h'));
    PrefixDistinct(a.z, a.others, a.c');
    PrefixDistinct(a.z, a.ys, a.c);
    var n, m := |a.others|, |a.ys|;
    var g1, hist1 := WitnessesRun(a, g0, [], h', a.others, es, 0, n);
    assert es[0..] == es && a.others[..n] == a.others;
    g, hist := WitnessesRun(a, g1, hist1, h, a.ys, es, n + 1, m);
    assert a.ys[..m] == a.ys;
    OtherBranch(a, g1, g, h', h, a.others);
  }

  lemma PrefixDistinct(z: nat, ys: seq<nat>, x: nat)
    requires Distinct([z] + ys + [x])
    ensures Distinct([z] + ys)
  {
    assert forall i | 0 <= i < |ys| + 1 :: ([z] + ys)[i] == ([z] + ys + [x])[i];
  }

  lemma OtherBranch(a: Cast, g: Graph, g': Graph, hash: Hash, changed: Hash, ys: seq<nat>)
    requires BranchSeen(a, g, hash, ys) && Apart(g, g', changed) && hash != changed
    ensures BranchSeen(a, g', hash, ys)
  {
    hide Known, Apart;
    ApartKnown(g, g', changed, Block(a.z, hash), a.Group1({a.z}), a.At1(), BranchOut(a.z, hash));
    forall i | 0 <= i < |ys| ensures Seen(a, g', hash, ys[i]) {
      assert Seen(a, g, hash, ys[i]);
      ApartKnown(g, g', changed, Block(ys[i], hash), a.Group1({a.z, ys[i]}), a.At1(),
        [Prepare(Choice(a.z, hash), ys[i])]);
    }
  }

  lemma BranchStays(a: Cast, g: Graph, g': Graph, b: BlockID, s: State, hash: Hash, ys: seq<nat>)
    requires BranchSeen(a, g, hash, ys) && g' == g.(statess := g.statess[b := s]) && b != Block(a.z, hash)
      && forall y | y in ys :: b != Block(y, hash)
    ensures BranchSeen(a, g', hash, ys)
  {
    hide Known;
    Stays(g, g', b, s, Block(a.z, hash), a.Group1({a.z}), a.At1(), BranchOut(a.z, hash));
    forall i | 0 <= i < |ys| ensures Seen(a, g', hash, ys[i]) {
      assert Seen(a, g, hash, ys[i]) && ys[i] in ys;
      Stays(g, g', b, s, Block(ys[i], hash), a.Group1({a.z, ys[i]}), a.At1(), [Prepare(Choice(a.z, hash), ys[i])]);
    }
  }

  /** The block of c, and what the last block then finds. */
  lemma FirstCommitter(a: Cast, g: Graph, h: Hash, h': Hash) returns (g': Graph, s: State)
    requires a.Ok() && h != h' && h != [] && ZERO !in g.statess
    requires BranchSeen(a, g, h', a.others) && BranchSeen(a, g, h, a.ys)
    ensures
      var e := Entry(Block(a.c, h), TeamDeps(a.z, h, a.ys, false, []), ZERO);
      && Process(a.cfg, g, e) == Ok(g') && g' == g.(statess := g.statess[e.block := s])
    ensures Commit(Choice(a.z, h), a.c) in s.out && ZERO !in g'.statess
    ensures BranchSeen(a, g', h', a.others) && AllReadable(a.Group1(Nodes(a.cfg)), g', Later(a, h))
  {
    hide Process, Known, Readable, Distinct, BranchSeen, TeamDeps, Later, AllReadable;
    var team: set<nat> := {a.z, a.c} + set y | y in a.ys;
    TeamIn(a);
    NoneReadable(a.Group1(team), g);
    var p;
    g', s, p := Committer(a, g, a.c, h, a.ys, false, [], team);
    TeamApart(a.z, a.ys, a.c);
    BranchStays(a, g, g', Block(a.c, h), s, h, a.ys);
    BranchStays(a, g, g', Block(a.c, h), s, h', a.others);
    TeamReadable(a, g', h, a.ys, Nodes(a.cfg));
    KnownReadable(g', Block(a.c, h), a.Group1(team), a.Group1(Nodes(a.cfg)), a.At1(), p.out);
    LaterReadable(a.Group1(Nodes(a.cfg)), g', a, h);
  }

  lemma NoneReadable(c: Group, g: Graph)
    ensures AllReadable(c, g, [])
  {
  }

  /** All blocks of the run. */
  lemma AllBlocks(a: Cast, h: Hash, h': Hash) returns (g: Graph, hist: seq<Record>)
    requires a.Ok() && h != h' && h != [] && h' != []
    ensures g == Admitted(a, h, h').(statess := g.statess) && |hist| >= 2
    ensures Commit(Choice(a.z, h), a.c) in hist[|hist| - 2].end.out
    ensures Commit(Choice(a.z, h'), a.c') in hist[|hist| - 1].end.out
    ensures ProcessAll(a.cfg, Admitted(a, h, h'), [], Entries(a.Input(h, h'))) == Ok((g, hist))
  {
    hide Process, Admit, Known, ProcessAll, FindOrCreate, AllReadable, Distinct, BranchSeen, Entries, TeamDeps, Later,
      PartAt;
    var es := Entries(a.Input(h, h'));
    EntriesOfInput(a, h, h');
    var g1, hist1 := BothParts(a, h, h');
    var n := |hist1|;
    var g2, s2 := FirstCommitter(a, g1, h, h');
    var hist2 := One(a.cfg, g1, g2, hist1, es, n);
    TeamIn(a);
    var p;
    var s3;
    g, s3, p := Committer(a, g2, a.c', h', a.others, true, Later(a, h), Nodes(a.cfg));
    hist := One(a.cfg, g2, g, hist2, es, n + 1);
    assert es[n + 2..] == [];
    Finished(a.cfg, g, hist);
  }

  lemma LaterReadable(c: Group, g: Graph, a: Cast, h: Hash)
    requires AllReadable(c, g, [Block(a.z, h)] + BlocksOfNodes(a.ys, h)) && Readable(c, g, Block(a.c, h))
    ensures AllReadable(c, g, Later(a, h))
  {
    hide Readable;
  }

  lemma TeamIn(a: Cast)
    requires a.Ok()
    ensures {a.z, a.c, a.c'} <= Nodes(a.cfg) && (forall y | y in a.ys :: y in Nodes(a.cfg))
    ensures (forall y | y in a.others :: y in Nodes(a.cfg))
    ensures {a.z, a.c} + (set y | y in a.ys) <= Nodes(a.cfg)
  {
    hide Distinct;
    assert a.z in [a.z] + a.ys + [a.c] && a.c in [a.z] + a.ys + [a.c] && a.c' in [a.z] + a.others + [a.c'];
    forall y | y in a.ys ensures y in Nodes(a.cfg) {
      assert y in [a.z] + a.ys + [a.c];
    }
    forall y | y in a.others ensures y in Nodes(a.cfg) {
      assert y in [a.z] + a.others + [a.c'];
    }
  }

  /** Two nodes commit to different blocks of node z, in view 0 of a round that is not delivered. */
  lemma DisagreementRun(a: Cast, h: Hash, h': Hash) returns (g: Graph, hist: seq<Record>)
    requires a.Ok() && h != [] && h' != [] && h != h' && |Nodes(a.cfg)| == |a.cfg.peers| && a.cfg.lastInterpreted == 0
    requires forall x | x in a.cfg.peers :: Bitsets.InRange(|a.cfg.peers|, x)
    ensures Reaches(a.cfg, [a.Input(h, h')], g, hist) && g.round == 1 && |hist| >= 2
    ensures Commit(Choice(a.z, h), a.c) in hist[|hist| - 2].end.out
    ensures Commit(Choice(a.z, h'), a.c') in hist[|hist| - 1].end.out
  {
    hide Admit, Entries, ProcessAll, WellFormed, Distinct;
    g, hist := AllBlocks(a, h, h');
    InputIsWellFormed(a, h, h');
    AdmitAside(Initial(a.cfg), a.Input(h, h'));
    var inputs := [a.Input(h, h')];
    assert inputs[..0] == [];
    assert RunAll(a.cfg, inputs[..0]) == Ok((Initial(a.cfg), []));
  }
}
