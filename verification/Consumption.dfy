/**
  The own blocks that are kept, in every run. They go in order, some at each delivery, and the round that the
  callback hears as consumed is counted on from the first one that was kept: where own rounds repeat, it is not
  the round of the last one that went. And their maxima never decrease, also if own blocks come back.
 */
module Consumption {
  import opened Bytes
  import opened Ids
  import opened Outcomes
  import opened Protocol
  import opened Interpreter
  import opened Runs
  import opened Consensus
  import opened Replay
  import opened Echoes
  import Delivery
  import Feed
  import Listing

  /** What deliverRound tells when the own blocks from a up to b go. */
  function Told(inputs: seq<BlockGraph>, a: nat, b: nat): nat
    requires a < |inputs| && a <= b
  {
    Wrap64(inputs[a].block.round + U64_SIZE - 1 + (b - a))
  }

  /** Delivery i, which takes the own blocks from cut i up to the next. */
  ghost predicate CutOk(inputs: seq<BlockGraph>, log: seq<Interpreted>, cuts: seq<nat>, i: nat)
    requires i < |log| && |cuts| == |log| + 1
  {
    && cuts[i] < |inputs| && cuts[i] <= cuts[i + 1] <= |inputs|
    && log[i].consumed == Told(inputs, cuts[i], cuts[i + 1])
  }

  /** Before delivery i, cuts[i] own blocks had gone; those after the last cut are kept. */
  ghost predicate Cuts(inputs: seq<BlockGraph>, g: Graph, cuts: seq<nat>) {
    && |cuts| == |g.log| + 1 && cuts[0] == 0 && cuts[|g.log|] + |g.blocks| == |inputs|
    && (forall j | 0 <= j < |g.blocks| :: g.blocks[j].data == inputs[cuts[|g.log|] + j])
    && (forall i | 0 <= i < |g.log| :: CutOk(inputs, g.log, cuts, i))
  }

  /**
    What is followed through a run: the graph as the last block graph was admitted; and the past of maxima,
    but only where own blocks come back well.
   */
  datatype Plot = Plot(base: Graph, past: Past, echoes: bool)

  /** Nothing goes unless something is told. */
  ghost predicate Still(base: Graph, g: Graph) {
    |base.log| <= |g.log| && (|base.log| == |g.log| ==>
      g.blocks == base.blocks && g.max == base.max && g.round == base.round)
  }

  ghost predicate Tracked(p: Plot, g: Graph) {
    && Still(p.base, g)
    && (exists cuts :: Cuts(p.past.all, g, cuts))
    && (p.echoes ==> Good(p.past.all) && Following(p.past, g))
  }

  /** Only the own blocks, the maxima, the round and the calls of the callback count. */
  lemma TrackedSame(p: Plot, g: Graph, g': Graph)
    requires Tracked(p, g) && g'.blocks == g.blocks && g'.log == g.log && g'.max == g.max && g'.round == g.round
    ensures Tracked(p, g')
  {
    hide Kept, Good;
    var cuts :| Cuts(p.past.all, g, cuts);
    assert Cuts(p.past.all, g', cuts);
  }

  lemma CutsGrow(inputs: seq<BlockGraph>, g: Graph, round: nat, cuts: seq<nat>)
    requires Cuts(inputs, g, cuts) && round in g.resolved && g.blocks != []
    ensures exists cuts' :: Cuts(inputs, DeliverOne(g, round), cuts')
  {
    var n, k := |g.log|, PruneCount(g.blocks, round);
    var g', cuts' := DeliverOne(g, round), cuts + [cuts[|g.log|] + PruneCount(g.blocks, round)];
    DeliveredParts(g, round);
    hide DeliverOne, PruneCount;
    forall i | 0 <= i < |g'.log| ensures CutOk(inputs, g'.log, cuts', i) {
      if i < n {
        assert CutOk(inputs, g.log, cuts, i);
      }
    }
    assert Cuts(inputs, g', cuts');
  }

  lemma DeliverOneTracked(p: Plot, g: Graph)
    requires Tracked(p, g) && g.round in g.resolved && g.blocks != []
    ensures Tracked(p, DeliverOne(g, g.round))
  {
    hide Cuts, Following, Good, DeliverOne;
    var cuts :| Cuts(p.past.all, g, cuts);
    CutsGrow(p.past.all, g, g.round, cuts);
    DeliveredParts(g, g.round);
    if p.echoes {
      DeliverFollows(p.past, g);
    }
  }

  lemma {:induction false} DeliverRoundTracked(p: Plot, cfg: Config, g: Graph)
    requires Tracked(p, g) && g.round in g.resolved
    ensures var r := DeliverRound(cfg, g, g.round); r.Ok? ==> Tracked(p, r.value)
    decreases |g.resolved|
  {
    hide Tracked, Listing.ListingOf, PruneCount, PrunedIds, Wrap64;
    if g.blocks != [] {
      var g' := DeliverOne(g, g.round);
      DeliverOneTracked(p, g);
      assert g'.resolved.Keys == g.resolved.Keys - {g.round};
      if Full(cfg, g', g'.round) {
        DeliverRoundTracked(p, cfg, g');
      }
    }
  }

  lemma DeliverTracked(p: Plot, cfg: Config, g: Graph, k: Slot, hash: Hash)
    requires Tracked(p, g)
    ensures var r := Deliver(cfg, g, k, hash); r.Ok? ==> Tracked(p, r.value)
  {
    hide Tracked, DeliverRound;
    var g' := Resolve(g, k, hash);
    TrackedSame(p, g, g');
    if k.round == g.round {
      DeliverRoundTracked(p, cfg, g');
    }
  }

  lemma StepTracked(p: Plot, cfg: Config, w: Work, sender: nat, origin: BlockID, msg: Message)
    requires Tracked(p, w.g)
    ensures var r := StepMessage(cfg, w, sender, origin, msg); r.Ok? ==> Tracked(p, r.value.0.g)
  {
    hide Tracked, Interpret, Deliver;
    var r := Interpret(w.s, w.g.heap, cfg.Quorum(), sender, origin.node, origin.round, msg);
    if r.Ok? {
      var g := w.g.(heap := r.value.heap);
      TrackedSame(p, w.g, g);
      DeliverTracked(p, cfg, g, msg.p.At(), msg.p.hash);
    }
  }

  lemma {:induction false} FirstTracked(p: Plot, cfg: Config, w: Work, sender: nat, origin: BlockID,
                                        msgs: seq<Message>, out: seq<Message>)
    requires Tracked(p, w.g)
    ensures var r := FirstPass(cfg, w, sender, origin, msgs, out); r.Ok? ==> Tracked(p, r.value.0.g)
    decreases |msgs|
  {
    hide Tracked, StepMessage;
    if msgs != [] {
      if msgs[0] in w.processed {
        FirstTracked(p, cfg, w, sender, origin, msgs[1..], out);
      } else {
        StepTracked(p, cfg, w, sender, origin, msgs[0]);
        var step := StepMessage(cfg, w, sender, origin, msgs[0]);
        if step.Ok? {
          FirstTracked(p, cfg, step.value.0, sender, origin, msgs[1..], Append(out, step.value.1));
        }
      }
    }
  }

  lemma {:induction false} SecondTracked(p: Plot, cfg: Config, w: Work, sender: nat, origin: BlockID,
                                         out: seq<Message>, i: nat)
    requires Tracked(p, w.g) && i <= |out|
    ensures var r := SecondPass(cfg, w, sender, origin, out, i); r.Ok? ==> Tracked(p, r.value.0.g)
    decreases Weight(out[i..]), |out| - i
  {
    hide Tracked, StepMessage, Weight;
    if i < |out| {
      WeightStep(out, i);
      if out[i] in w.processed {
        SecondTracked(p, cfg, w, sender, origin, out, i + 1);
      } else {
        StepTracked(p, cfg, w, sender, origin, out[i]);
        var step := StepMessage(cfg, w, sender, origin, out[i]);
        if step.Ok? {
          WeightFalls(cfg, w, sender, origin, out, i);
          SecondTracked(p, cfg, step.value.0, sender, origin, Append(out, step.value.1), i + 1);
        }
      }
    }
  }

  lemma MessagesTracked(p: Plot, cfg: Config, w: Work, sender: nat, origin: BlockID, msgs: seq<Message>)
    requires Tracked(p, w.g)
    ensures var r := ProcessMessages(cfg, w, sender, origin, msgs); r.Ok? ==> Tracked(p, r.value.0.g)
  {
    hide Tracked, FirstPass, SecondPass;
    FirstTracked(p, cfg, w, sender, origin, msgs, []);
    var r := FirstPass(cfg, w, sender, origin, msgs, []);
    if r.Ok? {
      SecondTracked(p, cfg, r.value.0, sender, origin, r.value.1, 0);
    }
  }

  lemma {:induction false} DepsTracked(p: Plot, cfg: Config, w: Work, origin: BlockID, deps: seq<BlockID>,
                                       out: seq<Message>)
    requires Tracked(p, w.g)
    ensures var r := DepsPass(cfg, w, origin, deps, out); r.Ok? ==> Tracked(p, r.value.0.g)
    decreases |deps|
  {
    hide Tracked, ProcessMessages;
    if deps != [] {
      MessagesTracked(p, cfg, w, deps[0].node, origin, OutputOf(w.g, deps[0]));
      var r := ProcessMessages(cfg, w, deps[0].node, origin, OutputOf(w.g, deps[0]));
      if r.Ok? {
        DepsTracked(p, cfg, r.value.0, origin, deps[1..], out + r.value.1);
      }
    }
  }

  lemma ProcessTracked(p: Plot, cfg: Config, g: Graph, e: Entry)
    requires Tracked(p, g)
    ensures var r := Process(cfg, g, e); r.Ok? ==> Tracked(p, r.value)
  {
    hide Tracked, Opening, ProcessMessages, DepsPass;
    var (s, opening) := Opening(cfg, g, e);
    MessagesTracked(p, cfg, Work(g, s, {}), e.block.node, e.block, opening);
    var r := ProcessMessages(cfg, Work(g, s, {}), e.block.node, e.block, opening);
    if r.Ok? {
      DepsTracked(p, cfg, r.value.0, e.block, e.deps, opening + r.value.1);
      var q := DepsPass(cfg, r.value.0, e.block, e.deps, opening + r.value.1);
      if q.Ok? {
        TrackedSame(p, q.value.0.g, Process(cfg, g, e).value);
      }
    }
  }

  lemma {:induction false} AllTracked(p: Plot, cfg: Config, g: Graph, hist: seq<Record>, es: seq<Entry>)
    requires Tracked(p, g)
    ensures var r := ProcessAll(cfg, g, hist, es); r.Ok? ==> Tracked(p, r.value.0)
    decreases |es|
  {
    hide Tracked, Process, FindOrCreate;
    if es != [] {
      ProcessTracked(p, cfg, g, es[0]);
      var r := Process(cfg, g, es[0]);
      if r.Ok? {
        var rec := Record(es[0].block, es[0].prev, FindOrCreate(g, es[0]), r.value.statess[es[0].block]);
        AllTracked(p, cfg, r.value, hist + [rec], es[1..]);
      }
    }
  }

  lemma CutsAdmitted(inputs: seq<BlockGraph>, g: Graph, bg: BlockGraph)
    requires exists cuts :: Cuts(inputs, g, cuts)
    ensures exists cuts :: Cuts(inputs + [bg], Admit(g, bg), cuts)
  {
    hide RecordMax, MaxOver, Wrap64;
    var cuts :| Cuts(inputs, g, cuts);
    forall i | 0 <= i < |g.log| ensures CutOk(inputs + [bg], g.log, cuts, i) {
      assert CutOk(inputs, g.log, cuts, i);
    }
    assert Cuts(inputs + [bg], Admit(g, bg), cuts);
  }

  lemma AdmitTracked(p: Plot, g: Graph, bg: BlockGraph) returns (p': Plot)
    requires Tracked(p, g)
    requires p.echoes ==> Good(p.past.all + [bg]) && !Whole(p.past.all + [bg], |p.past.all|)
    requires p.echoes && g.log != [] ==> g.round <= TopRound(p.past.all) + 1
    ensures Tracked(p', Admit(g, bg)) && p'.past.all == p.past.all + [bg] && p'.echoes == p.echoes
    ensures p'.base == Admit(g, bg) && (p.echoes ==> p'.past.rs == p.past.rs + [g.round])
  {
    hide Following, Good, Whole, TopRound, Cuts, Admit;
    CutsAdmitted(p.past.all, g, bg);
    if p.echoes {
      var past := AdmitFollows(p.past, g, bg);
      p' := Plot(Admit(g, bg), past, true);
    } else {
      p' := Plot(Admit(g, bg), p.past.(all := p.past.all + [bg]), false);
    }
  }

  ghost predicate NeverWhole(inputs: seq<BlockGraph>) {
    forall k :: !Whole(inputs, k)
  }

  /** Where own blocks come back as they were, but never with all that they go back to. */
  ghost predicate Returns(cfg: Config, inputs: seq<BlockGraph>) {
    WellFormed(cfg, inputs) && Good(inputs) && NeverWhole(inputs)
  }

  lemma ReturnsPrefix(cfg: Config, inputs: seq<BlockGraph>)
    requires Returns(cfg, inputs) && inputs != []
    ensures Returns(cfg, inputs[..|inputs| - 1])
  {
    hide WellFormed, Good, Whole;
    WellFormedPrefix(cfg, inputs);
    GoodPrefix(inputs);
    var n := |inputs| - 1;
    forall k ensures !Whole(inputs[..n], k) {
      WholeGrows(inputs, n, k);
    }
  }

  lemma GoodPrefix(all: seq<BlockGraph>)
    requires Good(all) && all != []
    ensures Good(all[..|all| - 1])
  {
    var pre := all[..|all| - 1];
    forall n, t, j | Echo(pre, n, t, j) ensures Echo(all, n, t, j) {
    }
    forall t, j | Given(pre, t, j) ensures Given(all, t, j) {
    }
  }

  lemma WholeGrows(all: seq<BlockGraph>, n: nat, k: int)
    requires n <= |all|
    ensures k < n ==> (Whole(all[..n], k) <==> Whole(all, k))
    ensures Whole(all[..n], k) ==> Whole(all, k)
  {
    hide Links;
    var pre := all[..n];
    if 0 < k < n {
      forall t, j ensures Given(pre, t, j) <==> Given(all, t, j) && t < n {
      }
      forall t, j, x | t <= k ensures GivenBefore(pre, t, j, x) <==> GivenBefore(all, t, j, x) {
        BeforeGrows(all, n, t, j, x);
      }
      ComesGrows(all, n, k - 1, k);
    }
  }

  lemma ComesGrows(all: seq<BlockGraph>, n: nat, i: int, t: int)
    requires i < n <= |all| && t < n
    ensures Comes(all[..n], i, t) <==> Comes(all, i, t)
  {
    var pre := all[..n];
    if Comes(pre, i, t) {
      var j :| Echo(pre, i, t, j);
      assert Echo(all, i, t, j);
    }
    if Comes(all, i, t) {
      var j :| Echo(all, i, t, j);
      assert Echo(pre, i, t, j);
    }
  }

  lemma BeforeGrows(all: seq<BlockGraph>, n: nat, t: int, j: int, x: BlockID)
    requires t < n <= |all|
    ensures GivenBefore(all[..n], t, j, x) <==> GivenBefore(all, t, j, x)
  {
    var pre := all[..n];
    if GivenBefore(pre, t, j, x) {
      var t', j' :| Given(pre, t', j') && Before(t', j', t, j) && pre[t'].deps[j'].block == x;
      assert Given(all, t', j');
    }
    if GivenBefore(all, t, j, x) {
      var t', j' :| Given(all, t', j') && Before(t', j', t, j) && all[t'].deps[j'].block == x;
      assert Given(pre, t', j');
    }
  }

  lemma {:induction false} RunTracked(cfg: Config, inputs: seq<BlockGraph>, echoes: bool) returns (p: Plot)
    requires echoes ==> Returns(cfg, inputs)
    ensures p.past.all == inputs && p.echoes == echoes
    ensures
      var r := RunAll(cfg, inputs);
      && (r.Ok? ==> Tracked(p, r.value.0))
      && (r.Ok? && inputs != [] ==>
            var before := RunAll(cfg, inputs[..|inputs| - 1]);
            && before.Ok? && p.base == Admit(before.value.0, inputs[|inputs| - 1])
            && (echoes ==> p.past.rs != [] && p.past.rs[0] == cfg.lastInterpreted + 1))
    decreases |inputs|
  {
    hide Tracked, ProcessAll, Admit, Entries, Returns;
    if inputs == [] {
      p := Plot(Initial(cfg), Past([], [], [], [], []), echoes);
      InitialTracked(cfg, echoes);
    } else {
      var n := |inputs| - 1;
      if echoes {
        ReturnsPrefix(cfg, inputs);
      }
      var q := RunTracked(cfg, inputs[..n], echoes);
      p := Plot(q.base, q.past.(all := inputs), echoes);
      var r := RunAll(cfg, inputs[..n]);
      if r.Ok? {
        assert inputs[..n] + [inputs[n]] == inputs;
        if echoes {
          ReturnsGood(cfg, inputs);
          ReturnsGood(cfg, inputs[..n]);
          RoundsReached(cfg, inputs[..n], r.value.0, r.value.1);
        }
        hide Good, Whole, WellFormed, TopRound;
        p := AdmitTracked(q, r.value.0, inputs[n]);
        if echoes && n == 0 {
          NoneBefore(q, r.value.0);
        }
        AllTracked(p, cfg, Admit(r.value.0, inputs[n]), r.value.1, Entries(inputs[n]));
      }
    }
  }

  lemma NoneBefore(p: Plot, g: Graph)
    requires Tracked(p, g) && p.echoes && p.past.all == []
    ensures p.past.rs == []
  {
    hide Good, Cuts;
  }

  lemma ReturnsGood(cfg: Config, inputs: seq<BlockGraph>)
    requires Returns(cfg, inputs)
    ensures WellFormed(cfg, inputs) && Good(inputs) && !Whole(inputs, |inputs| - 1)
  {
  }

  /** Rounds are delivered up to the highest of a block that is known. */
  lemma RoundsReached(cfg: Config, inputs: seq<BlockGraph>, g: Graph, hist: seq<Record>)
    requires WellFormed(cfg, inputs) && RunAll(cfg, inputs) == Ok((g, hist))
    ensures g.log != [] ==> g.round <= TopRound(inputs) + 1
    ensures g.round == cfg.lastInterpreted + 1 + |g.log|
  {
    hide RunAll, TopRound, AllEntries;
    var first := if inputs == [] then 1 else inputs[0].block.round;
    assert inputs != [] ==> InputOk(cfg, inputs[0]);
    var w := RunPrefixKeeps(cfg, first, PLAIN, inputs);
    hide Delivery.HistPlaced, Delivery.BlocksBounded, Delivery.AllInterpreted, Delivery.Current, Delivery.ResolvedOk,
      Delivery.Stored, Delivery.LogTold;
  }

  lemma NothingGood()
    ensures Good([])
  {
  }

  lemma InitialTracked(cfg: Config, echoes: bool)
    ensures Tracked(Plot(Initial(cfg), Past([], [], [], [], []), echoes), Initial(cfg))
  {
    assert Cuts([], Initial(cfg), [0]);
    hide Following, Cuts;
    assert Good([]) by { NothingGood(); }
    NothingFollows(cfg);
  }

  // --- what is told as consumed ---

  /**
    In every run, whatever the rounds of the own blocks: own blocks go in order, each delivery tells the round
    before the first one that was kept, plus the number of those that now go.
   */
  lemma ConsumedAlways(cfg: Config, inputs: seq<BlockGraph>, g: Graph, hist: seq<Record>) returns (cuts: seq<nat>)
    requires RunAll(cfg, inputs) == Ok((g, hist))
    ensures Cuts(inputs, g, cuts)
  {
    hide Cuts, RunAll;
    var p := RunTracked(cfg, inputs, false);
    cuts :| Cuts(inputs, g, cuts);
  }

  // --- a replay that adds round 100 twice ---

  /** The rounds of own blocks that were replayed from 0 and then continued: round 100 comes twice. */
  ghost predicate Doubled(inputs: seq<BlockGraph>) {
    forall i | 0 <= i < |inputs| :: inputs[i].block.round == if i < BATCH_SIZE then i + 1 else i
  }

  lemma ReplayIsDoubled(inputs: seq<BlockGraph>, n: nat, last: nat)
    requires n <= |inputs| && last >= BATCH_SIZE && RoundsOf(inputs[..n]) == Replayed(0, last)
    requires forall i | n <= i < |inputs| :: inputs[i].block.round == last + 1 + (i - n)
    ensures Doubled(inputs)
  {
    RoundsAt(1, BATCH_SIZE);
    RoundsAt(BATCH_SIZE, last);
    hide Rounds;
    var rs := RoundsOf(inputs[..n]);
    forall i | 0 <= i < n ensures inputs[i].block.round == if i < BATCH_SIZE then i + 1 else i {
      assert rs[i] == inputs[i].block.round;
    }
  }

  /**
    In such a run the callback hears the number of own blocks that have gone, up to the delivery at which
    the second block of round 100 goes, and from then on one less. So it hears a round too high at exactly the
    delivery at which both blocks of round 100 go together with it.
   */
  lemma DoubledConsumed(inputs: seq<BlockGraph>, g: Graph, cuts: seq<nat>, i: nat)
    requires Cuts(inputs, g, cuts) && Doubled(inputs) && |inputs| < U64_SIZE && i < |g.log|
    ensures cuts[i + 1] == g.log[i].consumed + if cuts[i] < BATCH_SIZE then 0 else 1
    ensures cuts[i] < cuts[i + 1] <= |inputs| ==>
      (g.log[i].consumed == inputs[cuts[i + 1] - 1].block.round <==> !(cuts[i] < BATCH_SIZE < cuts[i + 1]))
    ensures i > 0 ==>
      (g.log[i].consumed < g.log[i - 1].consumed <==> cuts[i - 1] < BATCH_SIZE <= cuts[i] == cuts[i + 1])
  {
    assert CutOk(inputs, g.log, cuts, i);
    ToldDoubled(inputs, cuts[i], cuts[i + 1]);
    if i > 0 {
      assert CutOk(inputs, g.log, cuts, i - 1);
      ToldDoubled(inputs, cuts[i - 1], cuts[i]);
    }
  }

  lemma ToldDoubled(inputs: seq<BlockGraph>, a: nat, b: nat)
    requires Doubled(inputs) && a < |inputs| && a <= b <= |inputs| < U64_SIZE
    ensures Told(inputs, a, b) == if a < BATCH_SIZE then b else b - 1
  {
  }

  // --- own blocks that come back ---

  /** What the scheduler and genBlocks see to. */
  ghost predicate FedWell(inputs: seq<BlockGraph>) {
    Feed.Chained(inputs) && DistinctDeps(Feed.AllDeps(inputs)) && Feed.Faithful(inputs)
  }

  /** In the terms of module Echoes. */
  lemma FedIsGood(inputs: seq<BlockGraph>)
    requires FedWell(inputs)
    ensures Good(inputs)
  {
    hide Feed.AllDeps;
    forall t, j, t', j' | Given(inputs, t, j) && Given(inputs, t', j')
      && inputs[t].deps[j].block == inputs[t'].deps[j'].block
      ensures t == t' && j == j'
    {
      OnePlace(inputs, t, j, t', j');
    }
  }

  lemma OnePlace(inputs: seq<BlockGraph>, t: nat, j: nat, t': nat, j': nat)
    requires DistinctDeps(Feed.AllDeps(inputs)) && Given(inputs, t, j) && Given(inputs, t', j')
    requires inputs[t].deps[j].block == inputs[t'].deps[j'].block
    ensures t == t' && j == j'
  {
    hide Feed.AllDeps;
    var a := Feed.DepIndex(inputs, t, j);
    var b := Feed.DepIndex(inputs, t', j');
    if t < t' {
      Feed.DepsPrefix(inputs, t + 1, t');
    } else if t' < t {
      Feed.DepsPrefix(inputs, t' + 1, t);
    }
  }

  /**
    The maxima of the kept own blocks never decrease, so that the pruning loop removes exactly the blocks that
    may go: also where own blocks are received back and interpreted again.
   */
  lemma EchoesPrunedExactly(cfg: Config, inputs: seq<BlockGraph>, g: Graph, hist: seq<Record>, round: nat)
    requires Reaches(cfg, inputs, g, hist) && FedWell(inputs) && NeverWhole(inputs)
    ensures Delivery.Rising(g.blocks)
    ensures forall i | 0 <= i < |g.blocks| :: g.blocks[i].max <= round <==> i < PruneCount(g.blocks, round)
  {
    hide RunAll, WellFormed, Good, NeverWhole, FedWell, PruneCount, Following;
    FedIsGood(inputs);
    var p := RunTracked(cfg, inputs, true);
    FollowingRises(p.past, g);
    forall i | 0 <= i < |g.blocks| ensures g.blocks[i].max <= round <==> i < PruneCount(g.blocks, round) {
      Delivery.PruneIsExact(g.blocks, round, i);
    }
  }

  lemma {:induction false} LeastWhole(inputs: seq<BlockGraph>, k: nat) returns (n: nat)
    requires Whole(inputs, k)
    ensures n <= k && Whole(inputs, n) && forall i | 0 <= i < n :: !Whole(inputs, i)
  {
    hide Whole;
    n := 0;
    while !Whole(inputs, n)
      invariant n <= k && forall i | 0 <= i < n :: !Whole(inputs, i)
      decreases k - n
    {
      n := n + 1;
    }
  }

  /** A run that has told nothing goes on from its shorter ones. */
  lemma {:induction false} PrefixRuns(cfg: Config, inputs: seq<BlockGraph>, n: nat)
    requires n <= |inputs| && RunAll(cfg, inputs).Ok? && RunAll(cfg, inputs).value.0.log == []
    ensures
      var r := RunAll(cfg, inputs[..n]);
      r.Ok? && r.value.0.log == [] && r.value.0.blocks <= RunAll(cfg, inputs).value.0.blocks
    decreases |inputs|
  {
    hide RunAll, Admit, Cuts;
    if n == |inputs| {
      assert inputs[..n] == inputs;
    } else {
      var m := |inputs| - 1;
      var p := RunTracked(cfg, inputs, false);
      AdmitAppends(RunAll(cfg, inputs[..m]).value.0, inputs[m]);
      PrefixRuns(cfg, inputs[..m], n);
      assert inputs[..m][..n] == inputs[..n];
    }
  }

  lemma AdmitAppends(g: Graph, bg: BlockGraph)
    ensures Admit(g, bg).log == g.log && g.blocks <= Admit(g, bg).blocks
  {
    hide RecordMax, MaxOver;
  }

  lemma {:induction false} TopCovers(inputs: seq<BlockGraph>, t: nat)
    requires t < |inputs|
    ensures inputs[t].block.round <= TopRound(inputs)
    ensures forall d | d in inputs[t].deps :: d.block.round <= TopRound(inputs)
    decreases |inputs|
  {
    if t < |inputs| - 1 {
      TopCovers(inputs[..|inputs| - 1], t);
    }
  }

  /** If the run starts beyond all rounds and own blocks come back with all that they go back to, maxima fall. */
  lemma MaximaFall(cfg: Config, inputs: seq<BlockGraph>, g: Graph, hist: seq<Record>)
    requires Reaches(cfg, inputs, g, hist) && FedWell(inputs) && !NeverWhole(inputs)
    requires TopRound(inputs) <= cfg.lastInterpreted
    ensures !Delivery.Rising(g.blocks)
  {
    hide RunAll, WellFormed, Good, Whole, FedWell, TopRound;
    FedIsGood(inputs);
    RoundsReached(cfg, inputs, g, hist);
    var k: int :| Whole(inputs, k);
    assert 0 < k < |inputs| by { WholeRange(inputs, k); }
    var n := LeastWhole(inputs, k);
    assert 0 < n by { WholeRange(inputs, n); }
    PrefixRuns(cfg, inputs, n);
    PrefixRuns(cfg, inputs, n + 1);
    PrefixFalls(cfg, inputs, n);
    var infos := RunAll(cfg, inputs[..n + 1]).value.0.blocks;
    assert infos[n] == g.blocks[n] && infos[n - 1] == g.blocks[n - 1];
  }

  lemma WholeRange(inputs: seq<BlockGraph>, k: int)
    requires Whole(inputs, k)
    ensures 0 < k < |inputs|
  {
  }

  lemma {:induction false} ReturnsShorter(cfg: Config, inputs: seq<BlockGraph>, n: nat)
    requires WellFormed(cfg, inputs) && Good(inputs) && n <= |inputs|
    ensures WellFormed(cfg, inputs[..n]) && Good(inputs[..n])
    decreases |inputs|
  {
    hide WellFormed, Good;
    if n == |inputs| {
      assert inputs[..n] == inputs;
    } else {
      var m := |inputs| - 1;
      WellFormedPrefix(cfg, inputs);
      GoodPrefix(inputs);
      ReturnsShorter(cfg, inputs[..m], n);
      assert inputs[..m][..n] == inputs[..n];
    }
  }

  lemma PrefixFalls(cfg: Config, inputs: seq<BlockGraph>, n: nat)
    requires WellFormed(cfg, inputs) && Good(inputs) && TopRound(inputs) <= cfg.lastInterpreted
    requires 0 < n < |inputs| && Whole(inputs, n) && forall i | 0 <= i < n :: !Whole(inputs, i)
    requires RunAll(cfg, inputs[..n]).Ok? && RunAll(cfg, inputs[..n]).value.0.log == []
    requires RunAll(cfg, inputs[..n + 1]).Ok? && RunAll(cfg, inputs[..n + 1]).value.0.log == []
    ensures
      var infos := RunAll(cfg, inputs[..n + 1]).value.0.blocks;
      |infos| == n + 1 && infos[n].max < infos[n - 1].max
  {
    hide RunAll, WellFormed, Good, Whole, TopRound, Admit, Kept, Cuts;
    var pre, bg := inputs[..n], inputs[n];
    assert pre + [bg] == inputs[..n + 1] && inputs[..n + 1][..n] == pre;
    ReturnsShorter(cfg, inputs, n);
    ReturnsShorter(cfg, inputs, n + 1);
    NeverBefore(inputs, n);
    WholeGrows(inputs, n + 1, n);
    var p := RunTracked(cfg, pre, true);
    var g := RunAll(cfg, pre).value.0;
    forall t, j | Given(pre + [bg], t, j) ensures (pre + [bg])[t].deps[j].block.round < p.past.rs[0] {
      TopCovers(inputs, t);
      assert inputs[t].deps[j] in inputs[t].deps;
    }
    TopCovers(inputs, n);
    AdmitFalls(p.past, g, bg);
    AdmitAppends(g, bg);
    var q := RunTracked(cfg, inputs[..n + 1], false);
  }

  lemma NeverBefore(inputs: seq<BlockGraph>, n: nat)
    requires n <= |inputs| && forall i | 0 <= i < n :: !Whole(inputs, i)
    ensures NeverWhole(inputs[..n])
  {
    forall k ensures !Whole(inputs[..n], k) {
      WholeGrows(inputs, n, k);
    }
  }

  /** In the run from that round on. */
  ghost predicate RisesFrom(peers: seq<nat>, inputs: seq<BlockGraph>, last: nat) {
    var r := RunAll(Config(peers, last), inputs);
    r.Ok? ==> Delivery.Rising(r.value.0.blocks)
  }

  /**
    The maxima of own blocks never decrease, wherever the run starts, if and only if own blocks do not come back
    with all that they go back to.
   */
  lemma RisesExactly(peers: seq<nat>, inputs: seq<BlockGraph>, last: nat)
    requires WellFormed(Config(peers, last), inputs) && FedWell(inputs)
    requires TopRound(inputs) <= last && RunAll(Config(peers, last), inputs).Ok?
    ensures (forall start :: RisesFrom(peers, inputs, start)) <==> NeverWhole(inputs)
  {
    hide RunAll, WellFormed, FedWell, NeverWhole, TopRound, Delivery.Rising;
    if NeverWhole(inputs) {
      forall start ensures RisesFrom(peers, inputs, start) {
        var r := RunAll(Config(peers, start), inputs);
        if r.Ok? {
          SameFormed(peers, last, start, inputs);
          EchoesPrunedExactly(Config(peers, start), inputs, r.value.0, r.value.1, 0);
        }
      }
    } else {
      var r := RunAll(Config(peers, last), inputs);
      MaximaFall(Config(peers, last), inputs, r.value.0, r.value.1);
      assert !RisesFrom(peers, inputs, last);
    }
  }

  lemma SameFormed(peers: seq<nat>, a: nat, b: nat, inputs: seq<BlockGraph>)
    requires WellFormed(Config(peers, a), inputs)
    ensures WellFormed(Config(peers, b), inputs)
  {
    hide Entries;
    forall i | 0 <= i < |inputs| ensures InputOk(Config(peers, b), inputs[i]) {
      assert InputOk(Config(peers, a), inputs[i]);
    }
  }
}
