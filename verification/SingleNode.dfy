/**
  The smallest network: one node, whose first block is interpreted, voted for, decided and delivered. It
  is a run that the results of module Consensus are about.
 */
module SingleNode {
  import opened Bytes
  import opened Ids
  import opened Outcomes
  import opened Protocol
  import opened Interpreter
  import opened Runs
  import opened Consensus
  import Listing
  import Timeouts

  const CFG := Config([1], 0)

  function Block(hash: Hash): BlockID {
    BlockID(hash, 1, 1)
  }

  function Input(hash: Hash): BlockGraph {
    BlockGraph(Block(hash), [], BlockID([], 0, 0))
  }

  function Proposed(hash: Hash): Proposal {
    OwnProposal(Block(hash))
  }

  // --- the three messages ---

  ghost predicate Blank(s: State) {
    s.done == {} && s.view == map[] && s.bitsets == map[] && s.prePrepared == map[] && s.prepared == map[]
      && s.final == map[]
  }

  function AfterProposal(s: State, p: Proposal): State {
    s.(view := map[p.At() := 0], bitsets := map[p := Votes({1}, {})], prePrepared := map[p.Key() := p])
  }

  function AfterPrepare(s: State, p: Proposal): State {
    AfterProposal(s, p).(bitsets := map[p := Votes({1}, {1})], prepared := map[p.Key() := p.hash])
  }

  function AfterCommit(s: State, p: Proposal): State {
    AfterPrepare(s, p).(final := map[p.At() := p.hash])
  }

  lemma ProposalStep(s: State, h: Heap, p: Proposal)
    requires Blank(s) && p.view == 0
    ensures Interpret(s, h, 1, 1, 1, 1, PrePrepare(p))
      == Ok(Reaction(AfterProposal(s, p), h, Some(Prepare(p, 1)), false))
  {
    Unfolded(s, h, PrePrepare(p));
    hide Interpret;
    var t := TouchView(s, p.At());
    assert t == s.(view := map[p.At() := 0]);
    var b := AddPrepare(AddPrepare(NO_VOTES, 1), 1);
    assert b == Votes({1}, {});
    assert SetPrePrepared(SetVotes(t, p, b), p) == AfterProposal(s, p);
  }

  lemma PrepareStep(s: State, h: Heap, p: Proposal)
    requires Blank(s) && p.view == 0
    ensures
      Interpret(AfterProposal(s, p), h, 1, 1, 1, 1, Prepare(p, 1))
        == Ok(Reaction(AfterPrepare(s, p), h, Some(Commit(p, 1)), false))
  {
    var t := AfterProposal(s, p);
    Unfolded(t, h, Prepare(p, 1));
    hide Interpret;
    assert TouchView(t, p.At()) == t;
    var b := AddPrepare(VotesFor(t, p), 1);
    assert b == Votes({1}, {});
    assert SetPrepared(SetVotes(t, p, AddCommit(b, 1)), p) == AfterPrepare(s, p);
  }

  lemma CommitStep(s: State, h: Heap, p: Proposal)
    requires Blank(s) && p.view == 0
    ensures Interpret(AfterPrepare(s, p), h, 1, 1, 1, 1, Commit(p, 1)) == Ok(Reaction(AfterCommit(s, p), h, None, true))
  {
    var t := AfterPrepare(s, p);
    Unfolded(t, h, Commit(p, 1));
    hide Interpret;
    assert TouchView(t, p.At()) == t;
    var b := AddCommit(VotesFor(t, p), 1);
    assert b == Votes({1}, {1});
    assert SetFinal(SetVotes(t, p, b), p) == AfterCommit(s, p);
  }

  lemma Unfolded(s: State, h: Heap, msg: Message)
    requires msg.p.At() !in s.done && !msg.ViewChange?
    ensures
      var t := TouchView(s, msg.p.At());
      match msg
      case PrePrepare(p) => Interpret(s, h, 1, 1, 1, 1, msg) == Ok(OnPrePrepare(t, h, 1, 1, p))
      case Prepare(p, x) => Interpret(s, h, 1, 1, 1, 1, msg) == Ok(OnPrepare(t, h, 1, 1, p, x))
      case Commit(p, x) => Interpret(s, h, 1, 1, 1, 1, msg) == Ok(OnCommit(t, h, 1, p, x))
      case NewView(p, _) => Interpret(s, h, 1, 1, 1, 1, msg) == Ok(OnNewView(t, h, 1, p))
      case _ => true
  {
    hide TouchView, OnPrePrepare, OnPrepare, OnCommit, OnNewView;
  }

  // --- the delivery ---

  function Admitted(hash: Hash): Graph {
    Graph([BlockInfo(Input(hash), 1)], map[Block(hash) := 1], map[], 1, map[], [], [])
  }

  function Delivered(hash: Hash): Graph {
    Graph([], map[], map[], 2, map[], [], [Interpreted([Block(hash)], 1, 1)])
  }

  lemma AdmittedIs(hash: Hash)
    ensures Admit(Initial(CFG), Input(hash)) == Admitted(hash)
  {
  }

  lemma DeliveredIs(hash: Hash)
    requires hash != []
    ensures Deliver(CFG, Admitted(hash), Slot(1, 1), hash) == Ok(Delivered(hash))
  {
    hide DeliverRound;
    var g := Resolve(Admitted(hash), Slot(1, 1), hash);
    assert g == Admitted(hash).(resolved := map[1 := map[1 := hash]]);
    RoundDelivered(hash, g);
  }

  lemma RoundDelivered(hash: Hash, g: Graph)
    requires hash != [] && g == Admitted(hash).(resolved := map[1 := map[1 := hash]])
    ensures DeliverRound(CFG, g, 1) == Ok(Delivered(hash))
  {
    OneDelivered(hash, g);
    hide DeliverOne;
    assert !Full(CFG, Delivered(hash), 2);
  }

  lemma OneDelivered(hash: Hash, g: Graph)
    requires hash != [] && g == Admitted(hash).(resolved := map[1 := map[1 := hash]])
    ensures DeliverOne(g, 1) == Delivered(hash)
  {
    hide Listing.ListingOf;
    ListedAlone(hash);
    var infos := g.blocks;
    assert infos[1..] == [];
    assert PruneCount(infos, 1) == 1;
    assert infos[..1] == infos;
    assert Block(hash) in IdsOf(infos[0]) && infos[0] in infos;
    assert Block(hash) in PrunedIds(infos);
    assert g.max - PrunedIds(infos) == map[];
    assert g.resolved - {1} == map[];
    assert Wrap64(1 + U64_SIZE - 1 + 1) == 1;
  }

  lemma ListedAlone(hash: Hash)
    requires hash != []
    ensures Listing.ListingOf(Listing.Chosen(1, map[1 := hash])) == [Block(hash)]
  {
    var ids := Listing.Chosen(1, map[1 := hash]);
    assert Block(hash) in ids by { assert map[1 := hash][1] == hash; }
    assert ids == {Block(hash)};
    assert Listing.IsListing([Block(hash)], ids);
    Listing.ListingUnique([Block(hash)], Listing.ListingOf(ids), ids);
  }

  // --- the block ---

  function Opened(hash: Hash, s: State): Work {
    Work(Admitted(hash), s, {})
  }

  lemma Step1(hash: Hash, s: State)
    requires hash != [] && Blank(s)
    ensures
      var p := Proposed(hash);
      StepMessage(CFG, Opened(hash, s), 1, Block(hash), PrePrepare(p))
      == Ok((Work(Admitted(hash), AfterProposal(s, p), {PrePrepare(p)}), Some(Prepare(p, 1))))
  {
    hide Interpret, AfterProposal;
    ProposalStep(s, [], Proposed(hash));
    assert {} + {PrePrepare(Proposed(hash))} == {PrePrepare(Proposed(hash))};
    assert Admitted(hash).(heap := []) == Admitted(hash);
  }

  lemma Step2(hash: Hash, s: State, seen: set<Message>)
    requires hash != [] && Blank(s)
    ensures
      var p := Proposed(hash);
      StepMessage(CFG, Work(Admitted(hash), AfterProposal(s, p), seen), 1, Block(hash), Prepare(p, 1))
      == Ok((Work(Admitted(hash), AfterPrepare(s, p), seen + {Prepare(p, 1)}), Some(Commit(p, 1))))
  {
    hide Interpret, AfterProposal, AfterPrepare;
    PrepareStep(s, [], Proposed(hash));
  }

  lemma Step3(hash: Hash, s: State, seen: set<Message>)
    requires hash != [] && Blank(s)
    ensures
      var p := Proposed(hash);
      StepMessage(CFG, Work(Admitted(hash), AfterPrepare(s, p), seen), 1, Block(hash), Commit(p, 1))
      == Ok((Work(Delivered(hash), AfterCommit(s, p), seen + {Commit(p, 1)}), None))
  {
    hide Interpret, AfterPrepare, AfterCommit, Deliver;
    CommitStep(s, [], Proposed(hash));
    DeliveredIs(hash);
    assert Admitted(hash).(heap := []) == Admitted(hash);
  }

  lemma OwnMessages(hash: Hash, s: State)
    requires hash != [] && Blank(s)
    ensures
      var p := Proposed(hash);
      var r := ProcessMessages(CFG, Opened(hash, s), 1, Block(hash), [PrePrepare(p)]);
      r.Ok? && r.value.0.g == Delivered(hash) && r.value.0.s == AfterCommit(s, p)
        && r.value.1 == [Prepare(p, 1), Commit(p, 1)]
  {
    hide StepMessage, Blank, AfterProposal, AfterPrepare, AfterCommit, Admitted, Delivered;
    var p := Proposed(hash);
    var b := Block(hash);
    Step1(hash, s);
    var w1 := Work(Admitted(hash), AfterProposal(s, p), {PrePrepare(p)});
    var one := [Prepare(p, 1)];
    assert Append([], Some(Prepare(p, 1))) == one;
    assert [PrePrepare(p)][1..] == [];
    assert FirstPass(CFG, Opened(hash, s), 1, b, [PrePrepare(p)], []) == Ok((w1, one));
    Step2(hash, s, w1.processed);
    var w2 := Work(Admitted(hash), AfterPrepare(s, p), w1.processed + {Prepare(p, 1)});
    var two := [Prepare(p, 1), Commit(p, 1)];
    assert Append(one, Some(Commit(p, 1))) == two;
    Step3(hash, s, w2.processed);
    var w3 := Work(Delivered(hash), AfterCommit(s, p), w2.processed + {Commit(p, 1)});
    assert SecondPass(CFG, w3, 1, b, two, 2) == Ok((w3, two));
    assert SecondPass(CFG, w2, 1, b, two, 1) == SecondPass(CFG, w3, 1, b, two, 2);
    assert SecondPass(CFG, w1, 1, b, one, 0) == SecondPass(CFG, w2, 1, b, two, 1);
  }

  lemma OpeningIs(hash: Hash)
    ensures
      var e := OwnEntry(Input(hash));
      var (s, opening) := Opening(CFG, Admitted(hash), e);
      Blank(s) && opening == [PrePrepare(Proposed(hash))]
  {
    hide Timeouts.TimeoutValue, Delays;
    var e := OwnEntry(Input(hash));
    var g := Admitted(hash);
    assert FindOrCreate(g, e) == FRESH;
    var s := WithTimeouts(CFG, FRESH, e);
    var delay := Delays(map[], 1, e.deps);
    var t := Timeouts.TimeoutValue(delay, 0);
    TimeoutIsShort(hash, t);
    assert Wrap64(1 + t) != 1;
    assert TimeoutsAt(s, 1) == [];
  }

  lemma TimeoutIsShort(hash: Hash, t: nat)
    requires t == Timeouts.TimeoutValue(Delays(map[], 1, OwnEntry(Input(hash)).deps), 0)
    ensures t == 10
  {
    var deps := OwnEntry(Input(hash)).deps;
    assert deps == [BlockID([], 0, 0)] && deps[1..] == [];
    var delay := Delays(map[], 1, deps);
    assert delay == map[0 := 10];
    assert Timeouts.IsTimeout(delay, 0, t);
  }

  lemma NoDeps(hash: Hash, w: Work, out: seq<Message>)
    requires w.g == Delivered(hash)
    ensures DepsPass(CFG, w, Block(hash), OwnEntry(Input(hash)).deps, out) == Ok((w, out))
  {
    var deps := OwnEntry(Input(hash)).deps;
    assert deps == [BlockID([], 0, 0)] && deps[1..] == [];
    assert OutputOf(w.g, deps[0]) == [];
    assert ProcessMessages(CFG, w, 0, Block(hash), []) == Ok((w, []));
    assert out + [] == out;
  }

  lemma ProcessIs(hash: Hash)
    requires hash != []
    ensures
      var p := Proposed(hash);
      var r := Process(CFG, Admitted(hash), OwnEntry(Input(hash)));
      && r.Ok? && r.value == Delivered(hash).(statess := r.value.statess) && Block(hash) in r.value.statess
      && r.value.statess[Block(hash)].out == [PrePrepare(p), Prepare(p, 1), Commit(p, 1)]
      && r.value.statess[Block(hash)].final == map[Slot(1, 1) := hash]
  {
    hide Opening, ProcessMessages, DepsPass, Blank, Admitted, Delivered;
    var p := Proposed(hash);
    var e := OwnEntry(Input(hash));
    var (s, opening) := Opening(CFG, Admitted(hash), e);
    OpeningIs(hash);
    OwnMessages(hash, s);
    var (w, replies) := ProcessMessages(CFG, Opened(hash, s), 1, Block(hash), opening).value;
    NoDeps(hash, w, opening + replies);
    assert opening + replies == [PrePrepare(p), Prepare(p, 1), Commit(p, 1)];
    var end := w.s.(out := opening + replies);
    assert Process(CFG, Admitted(hash), e) == Ok(w.g.(statess := w.g.statess[Block(hash) := end]));
  }

  lemma InputIsWellFormed(hash: Hash)
    requires hash != []
    ensures WellFormed(CFG, [Input(hash)])
  {
    assert Nodes(CFG) == {1};
    var inputs := [Input(hash)];
    assert Entries(Input(hash))[0] == OwnEntry(Input(hash));
    assert InputOk(CFG, inputs[0]);
    assert inputs[..0] == [];
    assert |AllEntries(inputs)| == 1;
  }

  /** The block of a single node is decided on its own votes and delivered as round 1. */
  lemma FirstBlockDelivered(hash: Hash) returns (g: Graph, hist: seq<Record>)
    requires hash != []
    ensures Reaches(CFG, [Input(hash)], g, hist) && |hist| == 1
    ensures g.log == [Interpreted([Block(hash)], 1, 1)] && g.round == 2 && g.blocks == []
    ensures hist[0].end.out == [PrePrepare(Proposed(hash)), Prepare(Proposed(hash), 1), Commit(Proposed(hash), 1)]
    ensures hist[0].end.final == map[Slot(1, 1) := hash]
  {
    hide Process, Admit, WellFormed;
    InputIsWellFormed(hash);
    AdmittedIs(hash);
    ProcessIs(hash);
    var inputs := [Input(hash)];
    var es := Entries(Input(hash));
    assert es == [OwnEntry(Input(hash))] && es[1..] == [];
    assert inputs[..0] == [];
    g := Process(CFG, Admitted(hash), es[0]).value;
    hist := [Record(Block(hash), BlockID([], 0, 0), FindOrCreate(Admitted(hash), es[0]), g.statess[Block(hash)])];
    assert [] + hist == hist;
    assert RunAll(CFG, inputs[..0]) == Ok((Initial(CFG), []));
    assert ProcessAll(CFG, g, hist, []) == Ok((g, hist));
    assert Run(CFG, Initial(CFG), [], Input(hash)) == Ok((g, hist));
  }
}
