/**
  Four nodes of which none forks. Nodes 2 and 3 prepare the first block of node 1, which then commits to it
  with its second block. Node 4 reads their blocks before that of node 1, so its count of prepares steps over
  the quorum, and it never commits.
 */
module LateProposal {
  import opened Bytes
  import opened Ids
  import opened Outcomes
  import opened Protocol
  import opened Interpreter
  import opened Quorums
  import opened Runs
  import opened Consensus
  import opened Tallies
  import opened Scenes

  const CFG := Config([1, 2, 3, 4], 0)

  const SLOT := Slot(1, 1)

  const ALL: set<nat> := {1, 2, 3, 4}

  function Among(nodes: set<nat>): Group { Group(nodes, {1, 4}) }

  function Block(node: nat, h: Hash): BlockID { BlockID(h, node, 1) }

  function Again(h: Hash): BlockID { BlockID(h, 1, 2) }

  function Choice(h: Hash): Proposal { OwnProposal(Block(1, h)) }

  function First(h: Hash): BlockGraph {
    BlockGraph(Block(1, h), [], ZERO)
  }

  function Second(h: Hash): BlockGraph {
    var witnesses := [Dep(Block(2, h), [Block(1, h)], ZERO), Dep(Block(3, h), [Block(1, h)], ZERO)];
    BlockGraph(Again(h), witnesses + [Dep(Block(4, h), LateLinks(h), ZERO)], Block(1, h))
  }

  function LateLinks(h: Hash): seq<BlockID> {
    [Block(2, h), Block(3, h), Block(1, h)]
  }

  function Inputs(h: Hash): seq<BlockGraph> {
    [First(h), Second(h)]
  }

  function LateEntry(h: Hash): Entry { Entry(Block(4, h), LateLinks(h), ZERO) }

  function AgainEntry(h: Hash): Entry {
    Entry(Again(h), [Block(1, h), Block(2, h), Block(3, h), Block(4, h)], Block(1, h))
  }

  function WitnessEntry(y: nat, h: Hash): Entry { Entry(Block(y, h), [Block(1, h)], ZERO) }

  lemma SecondEntries(h: Hash)
    ensures Entries(Second(h)) == [WitnessEntry(2, h), WitnessEntry(3, h), LateEntry(h), AgainEntry(h)]
  {
    var bg := Second(h);
    assert Blocks(bg.deps) == [Block(2, h), Block(3, h), Block(4, h)];
    assert [Block(1, h)] + Blocks(bg.deps) == AgainEntry(h).deps;
  }

  lemma FirstEntries(h: Hash)
    ensures Entries(First(h)) == [Entry(Block(1, h), [ZERO], ZERO)]
  {
    assert [ZERO] + Blocks([]) == [ZERO];
  }

  // --- what the blocks do about the slot ---

  function Said(h: Hash): seq<Message> { [PrePrepare(Choice(h)), Prepare(Choice(h), 1)] }

  function Start(h: Hash): Tally { Tally(Some(Choice(h)), map[Choice(h) := Votes({1}, {})]) }

  function WitnessLinks(h: Hash): seq<Read> {
    [Read(2, [Prepare(Choice(h), 2)]), Read(3, [Prepare(Choice(h), 3)])]
  }

  /** Before the proposal: two prepares of three. */
  function Short(h: Hash): Pass {
    Pass(Tally(None, map[Choice(h) := Votes({2, 3}, {})]), {Prepare(Choice(h), 2), Prepare(Choice(h), 3)}, [])
  }

  lemma TwoPrepares(h: Hash)
    ensures SlotBlock(BLANK, 3, Block(4, h), SLOT, WitnessLinks(h)) == Short(h)
  {
    hide ReadPass, SlotBlock, SlotPass;
    var ls := WitnessLinks(h);
    OnlyReads(BLANK, 3, Block(4, h), SLOT, ls);
    assert ls == [ls[0]] + [ls[1]] && [ls[1]] == [ls[1]] + [];
    FirstPrepare(h, [ls[1]]);
    SecondPrepare(h, []);
    NothingRead(Short(h), 3, 4, []);
  }

  function OnePrepare(h: Hash): Pass {
    Pass(Tally(None, map[Choice(h) := Votes({2}, {})]), {Prepare(Choice(h), 2)}, [])
  }

  lemma FirstPrepare(h: Hash, rest: seq<Read>)
    ensures ReadPass(Pass(BLANK, {}, []), 3, 4, [WitnessLinks(h)[0]] + rest) == ReadPass(OnePrepare(h), 3, 4, rest)
  {
    hide ReadPass;
    var p := Choice(h);
    assert |{2}| == 1;
    ReadPrepare(Pass(BLANK, {}, []), 3, 4, p, 2, {2}, rest);
    assert {} + {Prepare(p, 2)} == {Prepare(p, 2)};
  }

  lemma SecondPrepare(h: Hash, rest: seq<Read>)
    ensures ReadPass(OnePrepare(h), 3, 4, [WitnessLinks(h)[1]] + rest) == ReadPass(Short(h), 3, 4, rest)
  {
    hide ReadPass;
    var p, s := Choice(h), OnePrepare(h);
    assert Count(s.t, p) == Votes({2}, {});
    assert {2} + {3} == {2, 3} && |{2, 3}| == 2;
    ReadPrepare(s, 3, 4, p, 3, {2, 3}, rest);
    assert {Prepare(p, 2)} + {Prepare(p, 3)} == {Prepare(p, 2), Prepare(p, 3)};
    assert Mark(s.t, p, Votes({2, 3}, {})) == Short(h).t;
  }

  /** After it: four. */
  lemma FourPrepares(h: Hash)
    ensures
      var s := SlotBlock(BLANK, 3, Block(4, h), SLOT, WitnessLinks(h) + [Read(1, Said(h))]);
      s.t == Tally(Some(Choice(h)), map[Choice(h) := Votes(ALL, {})]) && s.out == [Prepare(Choice(h), 4)]
  {
    hide SlotPass, ReadPass, SlotBlock;
    var p, ls, last := Choice(h), WitnessLinks(h), Read(1, Said(h));
    TwoPrepares(h);
    OnlyReads(BLANK, 3, Block(4, h), SLOT, ls);
    OnlyReads(BLANK, 3, Block(4, h), SLOT, ls + [last]);
    ReadMore(Pass(BLANK, {}, []), 3, 4, ls, [last]);
    var s := Short(h);
    assert {2, 3} + {1} + {4} == ALL && |ALL| == 4;
    assert Count(s.t, p) == Votes({2, 3}, {});
    ProposalTaken(s.t, s.seen, 3, p, 1, 4);
    assert [last] == [last] + [];
    ReadFirst(s, 3, 4, last, []);
    assert [] + [Prepare(p, 4)] == [Prepare(p, 4)];
    assert Mark(s.t, p, Votes(ALL, {})).(chosen := Some(p)) == Tally(Some(p), map[p := Votes(ALL, {})]);
    var r := SlotPass(s.t, s.seen, 3, 1, 4, Said(h));
    NothingRead(Pass(r.t, r.seen, s.out + r.out), 3, 4, []);
  }

  /** The second block of node 1 reads its first, and the two witnesses. */
  lemma OwnCommits(h: Hash, rest: seq<Read>)
    ensures
      var links := [Read(1, Said(h))] + (WitnessLinks(h) + rest);
      Commit(Choice(h), 1) in SlotBlock(Start(h), 3, Again(h), SLOT, links).out
  {
    hide SlotPass, ReadPass, SlotBlock;
    var p, ls := Choice(h), WitnessLinks(h);
    OnlyReads(Start(h), 3, Again(h), SLOT, [Read(1, Said(h))] + (ls + rest));
    OwnAgain(h, ls + rest);
    var seen := {PrePrepare(p), Prepare(p, 1)};
    assert ls + rest == [ls[0]] + ([ls[1]] + rest);
    assert {1} + {2} == {1, 2} && |{1, 2}| == 2;
    ReadPrepare(Pass(Start(h), seen, []), 3, 1, p, 2, {1, 2}, [ls[1]] + rest);
    LastPrepare(Pass(Mark(Start(h), p, Votes({1, 2}, {})), seen + {Prepare(p, 2)}, []), h, rest);
  }

  lemma OwnAgain(h: Hash, rest: seq<Read>)
    ensures
      ReadPass(Pass(Start(h), {}, []), 3, 1, [Read(1, Said(h))] + rest)
      == ReadPass(Pass(Start(h), {PrePrepare(Choice(h)), Prepare(Choice(h), 1)}, []), 3, 1, rest)
  {
    hide SlotPass, ReadPass;
    var p := Choice(h);
    assert {1} + {1} == {1} && |{1}| == 1;
    assert Count(Start(h), p) == Votes({1}, {});
    ProposalIgnored(Start(h), {}, 3, p, 1, 1);
    ReadFirst(Pass(Start(h), {}, []), 3, 1, Read(1, Said(h)), rest);
    assert Mark(Start(h), p, Votes({1}, {})) == Start(h);
    var seen := {PrePrepare(p), Prepare(p, 1)};
    assert {} + seen == seen;
    var none: seq<Message> := [];
    assert none + none == none;
  }

  lemma LastPrepare(s: Pass, h: Hash, rest: seq<Read>)
    requires Count(s.t, Choice(h)) == Votes({1, 2}, {}) && Prepare(Choice(h), 3) !in s.seen
    requires Commit(Choice(h), 1) !in s.seen
    ensures Commit(Choice(h), 1) in ReadPass(s, 3, 1, [WitnessLinks(h)[1]] + rest).out
  {
    hide SlotPass, ReadPass;
    var p, l := Choice(h), WitnessLinks(h)[1];
    assert {1, 2} + {3} == {1, 2, 3} && |{1, 2, 3}| == 3;
    PrepareTaken(s.t, s.seen, 3, p, 3, 1);
    ReadFirst(s, 3, 1, l, rest);
    var r := SlotPass(s.t, s.seen, 3, 3, 1, l.msgs);
    var s' := Pass(r.t, r.seen, s.out + r.out);
    assert s'.out[|s.out|] == Commit(p, 1);
    ReadGrows(s', 3, 1, rest);
    assert ReadPass(s', 3, 1, rest).out[|s.out|] == Commit(p, 1);
  }

  // --- the run ---

  lemma FirstRun(h: Hash) returns (g: Graph, hist: seq<Record>)
    requires h != []
    ensures RunAll(CFG, [First(h)]) == Ok((g, hist)) && g.round == 1 && ZERO !in g.statess
    ensures Block(1, h) in g.statess && Stands(Among({1}), g.statess[Block(1, h)], SLOT, Start(h), Said(h))
    ensures |hist| == 1 && hist[0].block == Block(1, h) && hist[0].end == g.statess[Block(1, h)]
  {
    hide Process, ProcessAll, Admit, Stands, Known, Fits, Entries, RunAll;
    var g0 := Admit(Initial(CFG), First(h));
    var es := Entries(First(h));
    FirstEntries(h);
    AdmitAside(Initial(CFG), First(h));
    assert |{1, 4}| == 2;
    FitsOne(1);
    var s, p;
    g, s, p := Proposer(CFG, Among({1}), g0, es[0], SLOT);
    hist := One(CFG, g0, g, [], es, 0);
    assert es[0..] == es && es[1..] == [];
    Finished(CFG, g, hist);
    RunOne(First(h));
  }

  lemma RunOne(bg: BlockGraph)
    ensures RunAll(CFG, [bg]) == ProcessAll(CFG, Admit(Initial(CFG), bg), [], Entries(bg))
  {
    hide ProcessAll, Admit, Entries;
    var inputs := [bg];
    assert inputs[..0] == [];
  }

  lemma RunTwo(bg: BlockGraph, bg': BlockGraph, g: Graph, hist: seq<Record>)
    requires RunAll(CFG, [bg]) == Ok((g, hist))
    ensures RunAll(CFG, [bg, bg']) == ProcessAll(CFG, Admit(g, bg'), hist, Entries(bg'))
  {
    hide ProcessAll, Admit, Entries;
    var inputs := [bg, bg'];
    assert inputs[..1] == [bg];
  }

  lemma FitsOne(y: nat)
    ensures Fits(Among({1, y}), 3, y) && Fits(Among({1}), 3, 1) && Fits(Among(ALL), 3, 1) && Fits(Among(ALL), 3, 4)
  {
    assert |{1, 4}| == 2;
    assert |{1, y}| <= 2;
  }

  ghost predicate Witnessed(g: Graph, h: Hash, y: nat) {
    Known(g, Block(y, h), Among({1, y}), SLOT, [Prepare(Choice(h), y)])
  }

  /** The first block, and the two that witness it. */
  ghost predicate Ready(g: Graph, h: Hash, s: State) {
    && Block(1, h) in g.statess && g.statess[Block(1, h)] == s && Stands(Among({1}), s, SLOT, Start(h), Said(h))
    && Witnessed(g, h, 2) && Witnessed(g, h, 3) && ZERO !in g.statess && g.round == 1
  }

  lemma WitnessStep(g: Graph, h: Hash, y: nat) returns (g': Graph, s: State)
    requires Known(g, Block(1, h), Among({1}), SLOT, Said(h)) && y != 1
    ensures Process(CFG, g, WitnessEntry(y, h)) == Ok(g') && g' == g.(statess := g.statess[Block(y, h) := s])
    ensures Witnessed(g', h, y)
  {
    hide Process, Known, Fits;
    FitsOne(y);
    var p;
    g', s, p := Witness(CFG, Among({1, y}), g, WitnessEntry(y, h), Block(1, h), Among({1}), SLOT, Choice(h));
  }

  /** The two entries after the first block. */
  lemma WitnessesRun(h: Hash, g: Graph, hist: seq<Record>) returns (g': Graph, hist': seq<Record>)
    requires h != [] && ZERO !in g.statess && g.round == 1
    requires Block(1, h) in g.statess && Stands(Among({1}), g.statess[Block(1, h)], SLOT, Start(h), Said(h))
    ensures Ready(g', h, g.statess[Block(1, h)]) && hist <= hist' && |hist'| == |hist| + 2
    ensures
      var es := Entries(Second(h));
      && ProcessAll(CFG, g, hist, es[..2]) == Ok((g', hist'))
      && ProcessAll(CFG, g, hist, es) == ProcessAll(CFG, g', hist', es[2..])
  {
    hide Process, ProcessAll, FindOrCreate, Stands, At, AllPlain, Entries;
    var es := Entries(Second(h));
    SecondEntries(h);
    StandsKnown(g, h);
    var g1, s1 := WitnessStep(g, h, 2);
    Stays(g, g1, Block(2, h), s1, Block(1, h), Among({1}), SLOT, Said(h));
    var s2;
    g', s2 := WitnessStep(g1, h, 3);
    Stays(g1, g', Block(3, h), s2, Block(2, h), Among({1, 2}), SLOT, [Prepare(Choice(h), 2)]);
    var hist1 := One(CFG, g, g1, hist, es, 0);
    hist' := One(CFG, g1, g', hist1, es, 1);
    assert es[0..] == es;
    var pre := es[..2];
    var hist2 := One(CFG, g, g1, hist, pre, 0);
    hist2 := One(CFG, g1, g', hist2, pre, 1);
    assert pre[0..] == pre && pre[2..] == [];
    Finished(CFG, g', hist');
  }

  lemma StandsKnown(g: Graph, h: Hash)
    requires Block(1, h) in g.statess && Stands(Among({1}), g.statess[Block(1, h)], SLOT, Start(h), Said(h))
    ensures Known(g, Block(1, h), Among({1}), SLOT, Said(h))
  {
  }

  /** What the later blocks read. */
  lemma ReadyReads(g: Graph, h: Hash, s: State)
    requires Ready(g, h, s)
    ensures AllReadable(Among(ALL), g, LateLinks(h))
    ensures Reads(g, LateLinks(h)[..2], SLOT) == WitnessLinks(h)
    ensures Reads(g, LateLinks(h), SLOT) == WitnessLinks(h) + [Read(1, Said(h))]
  {
    hide Known, Readable, At, Stands;
    StandsKnown(g, h);
    KnownReadable(g, Block(1, h), Among({1}), Among(ALL), SLOT, Said(h));
    KnownReadable(g, Block(2, h), Among({1, 2}), Among(ALL), SLOT, [Prepare(Choice(h), 2)]);
    KnownReadable(g, Block(3, h), Among({1, 3}), Among(ALL), SLOT, [Prepare(Choice(h), 3)]);
  }

  /** The block of node 4: part of the way it is just short, and at its end past the quorum. */
  lemma LateStep(g: Graph, h: Hash, s: State) returns (g': Graph, late: State, w: Work, out: seq<Message>)
    requires Ready(g, h, s)
    ensures Process(CFG, g, LateEntry(h)) == Ok(g') && g' == g.(statess := g.statess[Block(4, h) := late])
    ensures Known(g', Block(4, h), Among(ALL), SLOT, [Prepare(Choice(h), 4)])
    ensures VotesFor(late, Choice(h)) == Votes(ALL, {}) && Commit(Choice(h), 4) !in late.out
    ensures PartWay(CFG, g, LateEntry(h), 2, w, out) && PassedOver(w.s, h)
  {
    hide Process, Readable, Fits, At, Young, Few, SlotBlock, Reads, PartWay, Known;
    var k, e := SLOT, LateEntry(h);
    ReadyReads(g, h, s);
    FitsOne(4);
    FourPrepares(h);
    var p;
    g', late, p := NextFresh(CFG, Among(ALL), g, e, k);
    assert VotesFor(late, Choice(h)) == Count(p.t, Choice(h));
    assert Commit(Choice(h), 4) in late.out ==> Commit(Choice(h), 4) in At(late.out, k) by {
      if Commit(Choice(h), 4) in late.out {
        SaidAt(late.out, k, Commit(Choice(h), 4));
      }
    }
    TwoPrepares(h);
    FreshStands(Among(ALL), k);
    w, out := PartFollows(CFG, Among(ALL), g, e, k, BLANK, 2);
    MidState(w.s, h);
  }

  lemma {:induction false} SaidAt(out: seq<Message>, k: Slot, m: Message)
    requires m in out && m.p.At() == k
    ensures m in At(out, k)
  {
    var n := |out| - 1;
    if m != out[n] {
      assert out == out[..n] + [out[n]];
      SaidAt(out[..n], k, m);
    }
  }

  /** The conditions of QuorumPassedOver, with a state that is just short. */
  ghost predicate PassedOver(s: State, h: Hash) {
    var p := Choice(h);
    && p.At() !in s.done && ViewOf(s, p.At()) == p.view && p.Key() !in s.prePrepared && 4 !in VotesFor(s, p).commits
    && JustShort(s, p, 3, 1, 4)
  }

  lemma MidState(s: State, h: Hash)
    requires Young(s) && Shows(s, SLOT, Tally(None, map[Choice(h) := Votes({2, 3}, {})]))
    ensures PassedOver(s, h)
  {
    var p := Choice(h);
    assert VotesFor(s, p) == Votes({2, 3}, {});
    assert |{2, 3}| == 2;
  }

  /** The second block of node 1 goes on from its first, and commits. */
  lemma AgainStep(g: Graph, h: Hash, s: State) returns (g': Graph, s': State)
    requires Ready(g, h, s) && Known(g, Block(4, h), Among(ALL), SLOT, [Prepare(Choice(h), 4)]) && h != []
    ensures Process(CFG, g, AgainEntry(h)) == Ok(g') && g' == g.(statess := g.statess[Again(h) := s'])
    ensures Commit(Choice(h), 1) in s'.out
  {
    hide Process, Readable, Fits, At, Young, Few, Shows, SlotBlock, Reads, Known, AllReadable, Stands;
    var e, c := AgainEntry(h), Among(ALL);
    AgainReads(g, h, s);
    OwnCommits(h, [Read(4, [Prepare(Choice(h), 4)])]);
    FitsOne(1);
    AgainStart(g, h, s);
    var p;
    g', s', p := Next(CFG, c, g, e, SLOT, Start(h));
    KnownHas(g', e.block, c, SLOT, p.out, Commit(Choice(h), 1));
  }

  lemma AgainStart(g: Graph, h: Hash, s: State)
    requires Ready(g, h, s) && h != []
    ensures var u := FindOrCreate(g, AgainEntry(h)); Young(u) && Few(Among(ALL), u) && Shows(u, SLOT, Start(h))
  {
    hide Young, Few, Shows, Clone, At, AllPlain, Witnessed;
    Wider(Among({1}), Among(ALL), s, SLOT, Start(h), Said(h));
    CloneStands(Among(ALL), s, 1, SLOT, Start(h));
  }

  lemma AgainReads(g: Graph, h: Hash, s: State)
    requires Ready(g, h, s) && Known(g, Block(4, h), Among(ALL), SLOT, [Prepare(Choice(h), 4)])
    ensures AllReadable(Among(ALL), g, AgainEntry(h).deps)
    ensures Reads(g, AgainEntry(h).deps, SLOT) == [Read(1, Said(h))]
      + (WitnessLinks(h) + [Read(4, [Prepare(Choice(h), 4)])])
  {
    hide Known, Readable, At, Stands, Witnessed;
    ReadyReads(g, h, s);
    KnownReadable(g, Block(4, h), Among(ALL), Among(ALL), SLOT, [Prepare(Choice(h), 4)]);
    var deps := LateLinks(h);
    assert Readable(Among(ALL), g, deps[0]) && Readable(Among(ALL), g, deps[1]) && Readable(Among(ALL), g, deps[2]);
    var links := Reads(g, deps, SLOT);
    assert links[0] == WitnessLinks(h)[0] && links[1] == WitnessLinks(h)[1] && links[2] == Read(1, Said(h));
  }

  lemma InputsAreWellFormed(h: Hash)
    requires h != []
    ensures WellFormed(CFG, Inputs(h))
  {
    var inputs := Inputs(h);
    FirstEntries(h);
    SecondEntries(h);
    assert Nodes(CFG) == ALL && |ALL| == 4;
    assert InputOk(CFG, First(h)) && InputOk(CFG, Second(h));
  }

  lemma InputEntries(h: Hash)
    ensures
      AllEntries(Inputs(h))
      == [Entry(Block(1, h), [ZERO], ZERO), WitnessEntry(2, h), WitnessEntry(3, h), LateEntry(h), AgainEntry(h)]
  {
    hide Entries;
    FirstEntries(h);
    SecondEntries(h);
    var inputs := Inputs(h);
    assert inputs[..1] == [First(h)] && [First(h)][..0] == [];
    assert AllEntries([]) == [];
    assert AllEntries([First(h)]) == Entries(First(h));
  }

  /** No node forks. */
  lemma AllLinear(h: Hash, x: nat)
    ensures Linear(AllEntries(Inputs(h)), x)
  {
    hide AllEntries;
    InputEntries(h);
  }

  /** The run: node 1 commits in a round that is not delivered. */
  lemma CommitRun(h: Hash) returns (g: Graph, hist: seq<Record>, mid: Graph, w: Work, out: seq<Message>)
    requires h != []
    ensures Reaches(CFG, Inputs(h), g, hist) && g.round == 1 && |hist| == 5
    ensures hist[0].block == Block(1, h) && hist[3].block == Block(4, h) && hist[4].block == Again(h)
    ensures Prepare(Choice(h), 1) in hist[0].end.out && Commit(Choice(h), 1) in hist[4].end.out
    ensures
      && RunPart(h, mid, hist[..3]) && PartWay(CFG, mid, LateEntry(h), 2, w, out) && PassedOver(w.s, h)
      && At(OutputOf(mid, Block(1, h)), SLOT) == Said(h)
      && VotesFor(hist[3].end, Choice(h)).prepares == ALL && Commit(Choice(h), 4) !in hist[3].end.out
  {
    hide Process, ProcessAll, FindOrCreate, Admit, Entries, RunAll, WellFormed, Stands, Known, PartWay, Young, At;
    var g1, hist1 := FirstRun(h);
    AdmitAside(g1, Second(h));
    var g2 := Admit(g1, Second(h));
    var s := g1.statess[Block(1, h)];
    var es := Entries(Second(h));
    SecondEntries(h);
    var hist2;
    mid, hist2 := WitnessesRun(h, g2, hist1);
    var g3, late;
    g3, late, w, out := LateStep(mid, h, s);
    var hist3 := One(CFG, mid, g3, hist2, es, 2);
    ReadyStays(mid, g3, h, s, late);
    var s';
    g, s' := AgainStep(g3, h, s);
    hist := One(CFG, g3, g, hist3, es, 3);
    assert es[4..] == [];
    Finished(CFG, g, hist);
    RunTwo(First(h), Second(h), g1, hist1);
    InputsAreWellFormed(h);
    assert hist[..3] == hist2;
    StandsKnown(mid, h);
    KnownReadable(mid, Block(1, h), Among({1}), Among({1}), SLOT, Said(h));
    StandsSays(s, h);
  }

  /** The run up to the block of node 4. */
  ghost predicate RunPart(h: Hash, mid: Graph, hist: seq<Record>) {
    exists g, hist1 :: RunAll(CFG, [First(h)]) == Ok((g, hist1))
      && ProcessAll(CFG, Admit(g, Second(h)), hist1, Entries(Second(h))[..2]) == Ok((mid, hist))
  }

  lemma StandsSays(s: State, h: Hash)
    requires Stands(Among({1}), s, SLOT, Start(h), Said(h))
    ensures Prepare(Choice(h), 1) in s.out
  {
    assert Said(h)[1] in At(s.out, SLOT);
  }

  lemma ReadyStays(g: Graph, g': Graph, h: Hash, s: State, late: State)
    requires Ready(g, h, s) && g' == g.(statess := g.statess[Block(4, h) := late]) && h != []
    ensures Ready(g', h, s)
  {
    hide Known, Stands;
    Stays(g, g', Block(4, h), late, Block(2, h), Among({1, 2}), SLOT, [Prepare(Choice(h), 2)]);
    Stays(g, g', Block(4, h), late, Block(3, h), Among({1, 3}), SLOT, [Prepare(Choice(h), 3)]);
  }

  /**
    Each condition of the results about agreement and about the blocks of one node is met by a run: no node
    forks, a Commit of a round that is not delivered, and two blocks of node 1 one after the other.
   */
  lemma ConditionsMet(h: Hash) returns (g: Graph, hist: seq<Record>)
    requires h != []
    ensures Reaches(CFG, Inputs(h), g, hist) && |AllEntries(Inputs(h))| < U32_SIZE && |hist| == 5
    ensures (forall x :: Linear(AllEntries(Inputs(h)), x)) && Tolerated(CFG, AllEntries(Inputs(h)), {}, 1)
    ensures hist[0].block == Block(1, h) && hist[4].block == Again(h) && Choice(h).round >= g.round
    ensures Prepare(Choice(h), 1) in hist[0].end.out && Commit(Choice(h), 1) in hist[4].end.out
    ensures Choice(h) in hist[4].end.bitsets && hist[4].end.bitsets[Choice(h)].commits != {}
  {
    hide Reaches, Linear, AllEntries, RunPart, PartWay, PassedOver, CommitSentBy;
    var mid, w, out;
    g, hist, mid, w, out := CommitRun(h);
    InputEntries(h);
    forall x ensures Linear(AllEntries(Inputs(h)), x) {
      AllLinear(h, x);
    }
    Certificates(CFG, Inputs(h), g, hist, 4);
  }

  /**
    A run reaches a state that is just short of the quorum when the proposal comes: the block of node 4 ends
    with the prepares of all four nodes, and without a Commit.
   */
  lemma QuorumSteppedOver(h: Hash) returns (g: Graph, hist: seq<Record>, mid: Graph, w: Work, out: seq<Message>)
    requires h != []
    ensures Reaches(CFG, Inputs(h), g, hist) && |hist| == 5 && (forall x :: Linear(AllEntries(Inputs(h)), x))
    ensures RunPart(h, mid, hist[..3]) && PartWay(CFG, mid, LateEntry(h), 2, w, out)
    ensures JustShort(w.s, Choice(h), CFG.Quorum(), 1, 4) && At(OutputOf(mid, LateEntry(h).deps[2]), SLOT) == Said(h)
    ensures hist[3].block == Block(4, h) && VotesFor(hist[3].end, Choice(h)).prepares == ALL
    ensures Commit(Choice(h), 4) !in hist[3].end.out
  {
    hide Reaches, Linear, AllEntries, RunPart, PartWay, At;
    g, hist, mid, w, out := CommitRun(h);
    forall x ensures Linear(AllEntries(Inputs(h)), x) {
      AllLinear(h, x);
    }
  }
}
