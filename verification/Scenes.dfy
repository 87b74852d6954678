/**
  Stepping through a young run: which blocks stand, what they say about one slot, and what the next block
  adds.
 */
module Scenes {
  import opened Ids
  import opened Outcomes
  import opened Protocol
  import opened Interpreter
  import opened Tallies

  const ZERO := BlockID([], 0, 0)

  /** A block that stands, with what it says about the slot. */
  ghost predicate Known(g: Graph, b: BlockID, c: Group, k: Slot, out: seq<Message>) {
    b in g.statess && AllPlain(c, g.statess[b].out) && At(g.statess[b].out, k) == out
  }

  lemma KnownReadable(g: Graph, b: BlockID, c: Group, c': Group, k: Slot, out: seq<Message>)
    requires Known(g, b, c, k, out) && c.nodes <= c'.nodes && c.committers <= c'.committers && b.node in c'.nodes
    ensures Readable(c', g, b) && At(OutputOf(g, b), k) == out
  {
    hide At;
    forall m | m in g.statess[b].out ensures Plain(c', m) {
      assert Plain(c, m);
    }
  }

  lemma KnownHas(g: Graph, b: BlockID, c: Group, k: Slot, out: seq<Message>, m: Message)
    requires Known(g, b, c, k, out) && m in out
    ensures m in g.statess[b].out
  {
  }

  lemma Stays(g: Graph, g': Graph, b: BlockID, s: State, d: BlockID, c: Group, k: Slot, out: seq<Message>)
    requires Known(g, d, c, k, out) && g' == g.(statess := g.statess[b := s]) && d != b
    ensures Known(g', d, c, k, out)
  {
    hide At, AllPlain;
  }

  lemma ZeroReadable(g: Graph, c: Group, k: Slot)
    requires ZERO !in g.statess
    ensures Readable(c, g, ZERO) && At(OutputOf(g, ZERO), k) == []
  {
  }

  /** The links can all be read. */
  ghost predicate AllReadable(c: Group, g: Graph, deps: seq<BlockID>) {
    forall d | d in deps :: d.round <= 10 && Readable(c, g, d)
  }

  /** The next block: only its own state is new. */
  lemma Next(cfg: Config, c: Group, g: Graph, e: Entry, k: Slot, t: Tally) returns (g': Graph, s: State, p: Pass)
    requires Young(FindOrCreate(g, e)) && Few(c, FindOrCreate(g, e)) && Shows(FindOrCreate(g, e), k, t)
    requires 1 <= e.block.round <= 10 && AllReadable(c, g, e.deps) && Fits(c, cfg.Quorum(), e.block.node)
    ensures Process(cfg, g, e) == Ok(g') && g' == g.(statess := g.statess[e.block := s])
    ensures p == SlotBlock(t, cfg.Quorum(), e.block, k, Reads(g, e.deps, k))
    ensures Known(g', e.block, c, k, p.out) && Stands(c, s, k, p.t, p.out)
  {
    hide Process, SlotBlock, Reads, Readable, Fits, At, Young, Few, Shows, FindOrCreate;
    BlockFollows(cfg, c, g, e, k, t);
    g' := Process(cfg, g, e).value;
    s := g'.statess[e.block];
    p := SlotBlock(t, cfg.Quorum(), e.block, k, Reads(g, e.deps, k));
  }

  /** The same for a block without a previous one. */
  lemma NextFresh(cfg: Config, c: Group, g: Graph, e: Entry, k: Slot) returns (g': Graph, s: State, p: Pass)
    requires !e.prev.Valid() && 1 <= e.block.round <= 10 && AllReadable(c, g, e.deps)
    requires Fits(c, cfg.Quorum(), e.block.node)
    ensures Process(cfg, g, e) == Ok(g') && g' == g.(statess := g.statess[e.block := s])
    ensures p == SlotBlock(BLANK, cfg.Quorum(), e.block, k, Reads(g, e.deps, k))
    ensures Known(g', e.block, c, k, p.out) && Stands(c, s, k, p.t, p.out)
  {
    hide Process, SlotBlock, Reads, AllReadable, Fits, At, Young, Few, Shows;
    FreshStands(c, k);
    g', s, p := Next(cfg, c, g, e, k, BLANK);
  }

  /** The block of the slot. */
  lemma Proposer(cfg: Config, c: Group, g: Graph, e: Entry, k: Slot) returns (g': Graph, s: State, p: Pass)
    requires !e.prev.Valid() && Slot(e.block.node, e.block.round) == k && 1 <= k.round <= 10 && cfg.Quorum() >= 2
    requires Fits(c, cfg.Quorum(), k.node) && (e.deps == [] || (e.deps == [ZERO] && ZERO !in g.statess))
    ensures Process(cfg, g, e) == Ok(g') && g' == g.(statess := g.statess[e.block := s])
    ensures
      var q := OwnProposal(e.block);
      p.out == [PrePrepare(q), Prepare(q, k.node)] && p.t == Tally(Some(q), map[q := Votes({k.node}, {})])
    ensures Known(g', e.block, c, k, p.out) && Stands(c, s, k, p.t, p.out)
  {
    hide Process, SlotBlock, Readable, Fits, At, Young, Few, Shows, Known, Stands;
    if e.deps != [] {
      ZeroReadable(g, c, k);
    }
    g', s, p := NextFresh(cfg, c, g, e, k);
    OnlyProposes(cfg.Quorum(), e.block, k, Reads(g, e.deps, k));
  }

  /** A block that reads the proposal, and nothing else about the slot. */
  lemma Witness(cfg: Config, c: Group, g: Graph, e: Entry, d: BlockID, cd: Group, k: Slot, q: Proposal)
    returns (g': Graph, s: State, p: Pass)
    requires e == Entry(e.block, [d], ZERO) && 1 <= e.block.round <= 10 && e.block.node != k.node && cfg.Quorum() > 2
    requires Known(g, d, cd, k, [PrePrepare(q), Prepare(q, k.node)]) && d.node == k.node && d.round <= 10
    requires cd.nodes <= c.nodes && cd.committers <= c.committers && {k.node, e.block.node} <= c.nodes
    requires Fits(c, cfg.Quorum(), e.block.node)
    ensures Process(cfg, g, e) == Ok(g') && g' == g.(statess := g.statess[e.block := s])
    ensures p.out == [Prepare(q, e.block.node)] && Known(g', e.block, c, k, p.out)
  {
    hide Process, SlotBlock, Readable, Fits, At, Young, Few, Shows, Known, Stands, ReadPass;
    KnownReadable(g, d, cd, c, k, [PrePrepare(q), Prepare(q, k.node)]);
    g', s, p := NextFresh(cfg, c, g, e, k);
    var link := Read(k.node, [PrePrepare(q), Prepare(q, k.node)]);
    assert Reads(g, [d], k) == [link] + [];
    ReadsProposal(cfg.Quorum(), e.block, k, q, k.node, []);
    NothingRead(Pass(Tally(Some(q), map[q := Votes({k.node, e.block.node}, {})]),
                     {PrePrepare(q), Prepare(q, k.node), Prepare(q, e.block.node)}, [Prepare(q, e.block.node)]),
                       cfg.Quorum(), e.block.node, []);
  }

  /** One more Prepare that does not bring the count to the quorum. */
  lemma ReadPrepare(s: Pass, quorum: nat, x: nat, q: Proposal, y: nat, voters: set<nat>, rest: seq<Read>)
    requires Prepare(q, y) !in s.seen && Commit(q, x) !in s.seen && x !in Count(s.t, q).commits
    requires voters == Count(s.t, q).prepares + {y} && |voters| != quorum
    ensures
      ReadPass(s, quorum, x, [Read(y, [Prepare(q, y)])] + rest)
      == ReadPass(Pass(Mark(s.t, q, Votes(voters, Count(s.t, q).commits)), s.seen + {Prepare(q, y)}, s.out), quorum, x,
        rest)
  {
    hide SlotPass, ReadPass;
    PrepareTaken(s.t, s.seen, quorum, q, y, x);
    ReadFirst(s, quorum, x, Read(y, [Prepare(q, y)]), rest);
    assert s.out + [] == s.out;
  }

  // --- the entries of a run ---

  /** One entry. */
  lemma One(cfg: Config, g: Graph, g': Graph, hist: seq<Record>, es: seq<Entry>, i: nat) returns (hist': seq<Record>)
    requires i < |es| && Process(cfg, g, es[i]) == Ok(g')
    ensures es[i].block in g'.statess
    ensures hist' == hist + [Record(es[i].block, es[i].prev, FindOrCreate(g, es[i]), g'.statess[es[i].block])]
    ensures ProcessAll(cfg, g, hist, es[i..]) == ProcessAll(cfg, g', hist', es[i + 1..])
  {
    hide Process, FindOrCreate;
    assert es[i..][0] == es[i] && es[i..][1..] == es[i + 1..];
    hist' := hist + [Record(es[i].block, es[i].prev, FindOrCreate(g, es[i]), g'.statess[es[i].block])];
  }

  lemma Finished(cfg: Config, g: Graph, hist: seq<Record>)
    ensures ProcessAll(cfg, g, hist, []) == Ok((g, hist))
  {
  }

  /** Admitting a block graph touches no state. */
  lemma AdmitAside(g: Graph, bg: BlockGraph)
    ensures var g' := Admit(g, bg); g'.statess == g.statess && g'.round == g.round
  {
    hide RecordMax, MaxOver;
  }

  lemma {:induction false} ReadGrows(s: Pass, quorum: nat, receiver: nat, links: seq<Read>)
    ensures s.out <= ReadPass(s, quorum, receiver, links).out
    decreases |links|
  {
    hide SlotPass;
    if links != [] {
      var p := SlotPass(s.t, s.seen, quorum, links[0].sender, receiver, links[0].msgs);
      ReadGrows(Pass(p.t, p.seen, s.out + p.out), quorum, receiver, links[1..]);
    }
  }

  lemma {:induction false} ReadMore(s: Pass, quorum: nat, receiver: nat, links: seq<Read>, rest: seq<Read>)
    ensures ReadPass(s, quorum, receiver, links + rest)
      == ReadPass(ReadPass(s, quorum, receiver, links), quorum, receiver, rest)
    decreases |links|
  {
    hide SlotPass;
    if links == [] {
      assert links + rest == rest;
    } else {
      var p := SlotPass(s.t, s.seen, quorum, links[0].sender, receiver, links[0].msgs);
      assert (links + rest)[0] == links[0] && (links + rest)[1..] == links[1..] + rest;
      ReadMore(Pass(p.t, p.seen, s.out + p.out), quorum, receiver, links[1..], rest);
    }
  }
}
