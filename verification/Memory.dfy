/**
  What the interpreter keeps. Maxima are kept for the blocks of kept block graphs only; so are states, if and only if
  no block graph goes while it is still being interpreted.
 */
module Memory {
  import opened Bytes
  import opened Ids
  import opened Outcomes
  import opened Protocol
  import opened Interpreter
  import Listing

  ghost predicate InDeps(deps: seq<Dep>, x: BlockID) {
    exists d :: d in deps && d.block == x
  }

  ghost predicate InBlock(info: BlockInfo, x: BlockID) {
    x == info.data.block || InDeps(info.data.deps, x)
  }

  /** Some kept block graph has the block. */
  ghost predicate Kept(blocks: seq<BlockInfo>, x: BlockID) {
    exists i | 0 <= i < |blocks| :: InBlock(blocks[i], x)
  }

  ghost predicate MaximaKept(g: Graph) {
    forall x | x in g.max :: Kept(g.blocks, x)
  }

  /** Every stored state is of a block of a kept block graph, but for `late`. */
  ghost predicate StatesKept(g: Graph, late: set<BlockID>) {
    forall x | x in g.statess :: Kept(g.blocks, x) || x in late
  }

  // --- a delivery ---

  lemma PrunedAre(infos: seq<BlockInfo>, x: BlockID)
    ensures x in PrunedIds(infos) <==> Kept(infos, x)
  {
    if x in PrunedIds(infos) {
      var info :| info in infos && x in IdsOf(info);
      var i :| 0 <= i < |infos| && infos[i] == info;
      assert InBlock(infos[i], x);
    }
    if Kept(infos, x) {
      var i :| 0 <= i < |infos| && InBlock(infos[i], x);
      assert infos[i] in infos && x in IdsOf(infos[i]);
    }
  }

  lemma KeptSplit(blocks: seq<BlockInfo>, k: nat, x: BlockID)
    requires k <= |blocks| && Kept(blocks, x)
    ensures Kept(blocks[..k], x) || Kept(blocks[k..], x)
  {
    var i :| 0 <= i < |blocks| && InBlock(blocks[i], x);
    if i < k {
      assert InBlock(blocks[..k][i], x);
    } else {
      assert InBlock(blocks[k..][i - k], x);
    }
  }

  /** What is left of the block graphs once some have gone. */
  ghost predicate LeftOf(blocks: seq<BlockInfo>, all: seq<BlockInfo>) {
    exists k | 0 <= k <= |all| :: blocks == all[k..]
  }

  lemma LeftTwice(a: seq<BlockInfo>, b: seq<BlockInfo>, c: seq<BlockInfo>)
    requires LeftOf(b, a) && LeftOf(c, b)
    ensures LeftOf(c, a)
  {
    var j :| 0 <= j <= |a| && b == a[j..];
    var k :| 0 <= k <= |b| && c == b[k..];
    assert c == a[j + k..];
  }

  /** Later, with nothing more on record. */
  ghost predicate Tidy(g: Graph, g': Graph) {
    && (MaximaKept(g) ==> MaximaKept(g'))
    && (forall late | StatesKept(g, late) :: StatesKept(g', late))
    && LeftOf(g'.blocks, g.blocks)
  }

  lemma TidySame(g: Graph, g': Graph)
    requires g'.blocks == g.blocks && g'.max == g.max && g'.statess == g.statess
    ensures Tidy(g, g')
  {
    assert g'.blocks == g.blocks[0..];
  }

  lemma TidyTwice(a: Graph, b: Graph, c: Graph)
    requires Tidy(a, b) && Tidy(b, c)
    ensures Tidy(a, c)
  {
    hide MaximaKept, StatesKept, LeftOf;
    LeftTwice(a.blocks, b.blocks, c.blocks);
  }

  lemma DeliverOneTidy(g: Graph, round: nat)
    requires round in g.resolved && g.blocks != []
    ensures Tidy(g, DeliverOne(g, round))
  {
    hide Listing.ListingOf, PruneCount, PrunedIds, Wrap64;
    var g', k := DeliverOne(g, round), PruneCount(g.blocks, round);
    forall x | Kept(g.blocks, x) && x !in PrunedIds(g.blocks[..k]) ensures Kept(g'.blocks, x) {
      PrunedAre(g.blocks[..k], x);
      KeptSplit(g.blocks, k, x);
    }
    hide Kept;
    assert g'.max == g.max - PrunedIds(g.blocks[..k]) && g'.statess == g.statess - PrunedIds(g.blocks[..k]);
    assert g'.blocks == g.blocks[k..];
  }

  lemma {:induction false} DeliverRoundTidy(cfg: Config, g: Graph, round: nat)
    requires round in g.resolved && DeliverRound(cfg, g, round).Ok?
    ensures Tidy(g, DeliverRound(cfg, g, round).value)
    decreases |g.resolved|
  {
    hide Tidy, Listing.ListingOf, PruneCount, PrunedIds, Wrap64;
    var g' := DeliverOne(g, round);
    DeliverOneTidy(g, round);
    if Full(cfg, g', round + 1) {
      assert g'.resolved.Keys == g.resolved.Keys - {round};
      DeliverRoundTidy(cfg, g', round + 1);
      TidyTwice(g, g', DeliverRound(cfg, g', round + 1).value);
    }
  }

  lemma DeliverTidy(cfg: Config, g: Graph, k: Slot, hash: Hash)
    requires Deliver(cfg, g, k, hash).Ok?
    ensures Tidy(g, Deliver(cfg, g, k, hash).value)
  {
    hide DeliverRound, Tidy;
    TidySame(g, g);
    if k.round >= g.round {
      var g' := Resolve(g, k, hash);
      TidySame(g, g');
      if k.round == g.round && Full(cfg, g', k.round) {
        DeliverRoundTidy(cfg, g', k.round);
        TidyTwice(g, g', DeliverRound(cfg, g', k.round).value);
      }
    }
  }

  // --- messages ---

  lemma StepTidy(cfg: Config, w: Work, sender: nat, origin: BlockID, msg: Message)
    requires StepMessage(cfg, w, sender, origin, msg).Ok?
    ensures Tidy(w.g, StepMessage(cfg, w, sender, origin, msg).value.0.g)
  {
    hide Interpret, Deliver, Tidy;
    var r := Interpret(w.s, w.g.heap, cfg.Quorum(), sender, origin.node, origin.round, msg).value;
    var g := w.g.(heap := r.heap);
    TidySame(w.g, g);
    if r.decided {
      DeliverTidy(cfg, g, msg.p.At(), msg.p.hash);
      TidyTwice(w.g, g, Deliver(cfg, g, msg.p.At(), msg.p.hash).value);
    }
  }

  lemma {:induction false} FirstTidy(cfg: Config, w: Work, sender: nat, origin: BlockID, msgs: seq<Message>,
                                     out: seq<Message>)
    requires FirstPass(cfg, w, sender, origin, msgs, out).Ok?
    ensures Tidy(w.g, FirstPass(cfg, w, sender, origin, msgs, out).value.0.g)
    decreases |msgs|
  {
    hide StepMessage, Tidy;
    if msgs == [] {
      TidySame(w.g, w.g);
    } else if msgs[0] in w.processed {
      FirstTidy(cfg, w, sender, origin, msgs[1..], out);
    } else {
      var step := StepMessage(cfg, w, sender, origin, msgs[0]);
      StepTidy(cfg, w, sender, origin, msgs[0]);
      FirstTidy(cfg, step.value.0, sender, origin, msgs[1..], Append(out, step.value.1));
      TidyTwice(w.g, step.value.0.g, FirstPass(cfg, w, sender, origin, msgs, out).value.0.g);
    }
  }

  lemma {:induction false} SecondTidy(cfg: Config, w: Work, sender: nat, origin: BlockID, out: seq<Message>, i: nat)
    requires i <= |out| && SecondPass(cfg, w, sender, origin, out, i).Ok?
    ensures Tidy(w.g, SecondPass(cfg, w, sender, origin, out, i).value.0.g)
    decreases Weight(out[i..]), |out| - i
  {
    hide StepMessage, Weight, Tidy;
    if i == |out| {
      TidySame(w.g, w.g);
    } else {
      WeightStep(out, i);
      if out[i] in w.processed {
        SecondTidy(cfg, w, sender, origin, out, i + 1);
      } else {
        var step := StepMessage(cfg, w, sender, origin, out[i]);
        StepTidy(cfg, w, sender, origin, out[i]);
        WeightFalls(cfg, w, sender, origin, out, i);
        SecondTidy(cfg, step.value.0, sender, origin, Append(out, step.value.1), i + 1);
        TidyTwice(w.g, step.value.0.g, SecondPass(cfg, w, sender, origin, out, i).value.0.g);
      }
    }
  }

  lemma MessagesTidy(cfg: Config, w: Work, sender: nat, origin: BlockID, msgs: seq<Message>)
    requires ProcessMessages(cfg, w, sender, origin, msgs).Ok?
    ensures Tidy(w.g, ProcessMessages(cfg, w, sender, origin, msgs).value.0.g)
  {
    hide FirstPass, SecondPass, Tidy;
    var first := FirstPass(cfg, w, sender, origin, msgs, []);
    FirstTidy(cfg, w, sender, origin, msgs, []);
    SecondTidy(cfg, first.value.0, sender, origin, first.value.1, 0);
    TidyTwice(w.g, first.value.0.g, ProcessMessages(cfg, w, sender, origin, msgs).value.0.g);
  }

  lemma {:induction false} DepsTidy(cfg: Config, w: Work, origin: BlockID, deps: seq<BlockID>, out: seq<Message>)
    requires DepsPass(cfg, w, origin, deps, out).Ok?
    ensures Tidy(w.g, DepsPass(cfg, w, origin, deps, out).value.0.g)
    decreases |deps|
  {
    hide ProcessMessages, Tidy;
    if deps == [] {
      TidySame(w.g, w.g);
    } else {
      var msgs := OutputOf(w.g, deps[0]);
      MessagesTidy(cfg, w, deps[0].node, origin, msgs);
      var (w', replies) := ProcessMessages(cfg, w, deps[0].node, origin, msgs).value;
      DepsTidy(cfg, w', origin, deps[1..], out + replies);
      TidyTwice(w.g, w'.g, DepsPass(cfg, w, origin, deps, out).value.0.g);
    }
  }

  // --- blocks ---

  /** The state of the block that is interpreted is the only one that is added. */
  lemma ProcessTidy(cfg: Config, g: Graph, e: Entry) returns (before: Graph)
    requires Process(cfg, g, e).Ok?
    ensures
      var g' := Process(cfg, g, e).value;
      Tidy(g, before) && g' == before.(statess := g'.statess) && g'.statess.Keys == before.statess.Keys + {e.block}
  {
    hide Opening, ProcessMessages, DepsPass, Tidy;
    var (s, opening) := Opening(cfg, g, e);
    MessagesTidy(cfg, Work(g, s, {}), e.block.node, e.block, opening);
    var (w, replies) := ProcessMessages(cfg, Work(g, s, {}), e.block.node, e.block, opening).value;
    DepsTidy(cfg, w, e.block, e.deps, opening + replies);
    var (w', out) := DepsPass(cfg, w, e.block, e.deps, opening + replies).value;
    TidyTwice(g, w.g, w'.g);
    before := w'.g;
  }

  /** If the last block graph is still kept, so are all blocks of it. */
  lemma LastKept(blocks: seq<BlockInfo>, all: seq<BlockInfo>, x: BlockID)
    requires LeftOf(blocks, all) && blocks != [] && InBlock(all[|all| - 1], x)
    ensures Kept(blocks, x)
  {
    assert InBlock(blocks[|blocks| - 1], x);
  }

  ghost predicate Clean(g: Graph) {
    MaximaKept(g) && StatesKept(g, {})
  }

  /** All blocks of the last block graph, one after the other. */
  lemma {:induction false} ProcessAllTidy(cfg: Config, g: Graph, hist: seq<Record>, entries: seq<Entry>,
                                          all: seq<BlockInfo>)
    requires LeftOf(g.blocks, all) && all != [] && ProcessAll(cfg, g, hist, entries).Ok?
    requires forall e | e in entries :: InBlock(all[|all| - 1], e.block)
    ensures
      var g' := ProcessAll(cfg, g, hist, entries).value.0;
      && LeftOf(g'.blocks, all) && (g.blocks == [] ==> g'.blocks == []) && (MaximaKept(g) ==> MaximaKept(g'))
      && (StatesKept(g, {}) && g'.blocks != [] ==> StatesKept(g', {}))
      && (entries != [] ==> entries[|entries| - 1].block in g'.statess)
    decreases |entries|
  {
    hide Process, FindOrCreate, MaximaKept, InBlock, Kept;
    if entries != [] {
      var e := entries[0];
      var g' := Process(cfg, g, e).value;
      var hist' := hist + [Record(e.block, e.prev, FindOrCreate(g, e), g'.statess[e.block])];
      var before := ProcessTidy(cfg, g, e);
      OneTidy(g, before, g', e.block, all);
      ProcessAllTidy(cfg, g', hist', entries[1..], all);
      assert entries == [e] + entries[1..];
      if |entries| > 1 {
        assert entries[1..][|entries| - 2] == entries[|entries| - 1];
      }
    }
  }

  lemma OneTidy(g: Graph, before: Graph, g': Graph, b: BlockID, all: seq<BlockInfo>)
    requires Tidy(g, before) && g' == before.(statess := g'.statess) && g'.statess.Keys == before.statess.Keys + {b}
    requires LeftOf(g.blocks, all) && all != [] && InBlock(all[|all| - 1], b)
    ensures LeftOf(g'.blocks, all) && (g.blocks == [] ==> g'.blocks == []) && (MaximaKept(g) ==> MaximaKept(g'))
    ensures StatesKept(g, {}) && g'.blocks != [] ==> StatesKept(g', {})
  {
    hide InBlock, Kept;
    LeftTwice(all, g.blocks, before.blocks);
    assert g.blocks == [] ==> before.blocks == [];
    hide LeftOf;
    if StatesKept(g, {}) && g'.blocks != [] {
      assert StatesKept(before, {});
      LastKept(g'.blocks, all, b);
    }
  }

  // --- runs ---

  lemma AdmitTidy(g: Graph, bg: BlockGraph)
    ensures
      var g' := Admit(g, bg);
      && g'.blocks != [] && g'.blocks[..|g.blocks|] == g.blocks && |g'.blocks| == |g.blocks| + 1
      && g'.blocks[|g.blocks|].data == bg && g'.statess == g.statess && (MaximaKept(g) ==> MaximaKept(g'))
      && (StatesKept(g, {}) ==> StatesKept(g', {}))
  {
    hide RecordMax, MaxOver;
    var g' := Admit(g, bg);
    RecordedAre(g.max, g.round, bg.deps, bg.block.round);
    forall x | Kept(g.blocks, x) ensures Kept(g'.blocks, x) {
      var i :| 0 <= i < |g.blocks| && InBlock(g.blocks[i], x);
      assert g'.blocks[i] == g.blocks[i];
    }
    forall x | x == bg.block || InDeps(bg.deps, x) ensures Kept(g'.blocks, x) {
      assert InBlock(g'.blocks[|g.blocks|], x);
    }
  }

  lemma {:induction false} RecordedAre(max: map<BlockID, nat>, round: nat, deps: seq<Dep>, top: nat)
    ensures forall x | x in RecordMax(max, round, deps, top).0 :: x in max || InDeps(deps, x)
    decreases |deps|
  {
    hide MaxOver, Links;
    if deps != [] {
      var m := MaxOver(max, round, Links(deps[0]), deps[0].block.round);
      RecordedAre(max[deps[0].block := m], round, deps[1..], Larger(top, m));
      forall x | x in RecordMax(max, round, deps, top).0 && x !in max ensures InDeps(deps, x) {
        assert deps[0] in deps && forall d | d in deps[1..] :: d in deps;
        assert x == deps[0].block || InDeps(deps[1..], x);
      }
    }
  }

  ghost predicate CleanUpTo(cfg: Config, inputs: seq<BlockGraph>, n: nat)
    requires n <= |inputs|
  {
    var r := RunAll(cfg, inputs[..n]);
    r.Ok? ==> Clean(r.value.0)
  }

  /** The own block is still kept when its block graph has been interpreted. */
  ghost predicate Outlasts(cfg: Config, inputs: seq<BlockGraph>, n: nat)
    requires n <= |inputs|
  {
    var r := RunAll(cfg, inputs[..n]);
    r.Ok? ==> r.value.0.blocks != []
  }

  lemma EntriesIn(bg: BlockGraph, m: nat)
    ensures forall e | e in Entries(bg) :: InBlock(BlockInfo(bg, m), e.block)
    ensures Entries(bg) != [] && Entries(bg)[|Entries(bg)| - 1].block == bg.block
  {
    forall e | e in Entries(bg) ensures InBlock(BlockInfo(bg, m), e.block) {
      var i :| 0 <= i < |Entries(bg)| && Entries(bg)[i] == e;
      assert i < |bg.deps| ==> bg.deps[i] in bg.deps;
    }
  }

  /** One more block graph. */
  lemma RunTidy(cfg: Config, g: Graph, hist: seq<Record>, bg: BlockGraph)
    requires Run(cfg, g, hist, bg).Ok?
    ensures
      var g' := Run(cfg, g, hist, bg).value.0;
      && (MaximaKept(g) ==> MaximaKept(g')) && (StatesKept(g, {}) && g'.blocks != [] ==> StatesKept(g', {}))
      && (g'.blocks == [] ==> !StatesKept(g', {}))
  {
    hide Admit, Entries, ProcessAll, MaximaKept, InBlock;
    var g0 := Admit(g, bg);
    AdmitTidy(g, bg);
    EntriesIn(bg, g0.blocks[|g.blocks|].max);
    assert g0.blocks == g0.blocks[0..];
    ProcessAllTidy(cfg, g0, hist, Entries(bg), g0.blocks);
    var g' := Run(cfg, g, hist, bg).value.0;
    if g'.blocks == [] {
      assert bg.block in g'.statess && !Kept(g'.blocks, bg.block);
    }
  }

  /** Maxima never outlive their block graph. */
  lemma {:induction false} MaximaAreKept(cfg: Config, inputs: seq<BlockGraph>)
    ensures var r := RunAll(cfg, inputs); r.Ok? ==> MaximaKept(r.value.0)
    decreases |inputs|
  {
    hide Run, MaximaKept;
    if inputs == [] {
      assert MaximaKept(Initial(cfg)) by { NothingKept(cfg); }
    } else {
      var n := |inputs| - 1;
      MaximaAreKept(cfg, inputs[..n]);
      var r := RunAll(cfg, inputs[..n]);
      if r.Ok? && Run(cfg, r.value.0, r.value.1, inputs[n]).Ok? {
        RunTidy(cfg, r.value.0, r.value.1, inputs[n]);
      }
    }
  }

  lemma NothingKept(cfg: Config)
    ensures Clean(Initial(cfg))
  {
  }

  /**
    In every run, after each block graph: what is stored is of kept block graphs only, if and only if no own block
    goes before its own block graph has been interpreted.
   */
  lemma CleanExactly(cfg: Config, inputs: seq<BlockGraph>)
    ensures
      (forall n | 0 <= n <= |inputs| :: CleanUpTo(cfg, inputs, n))
      <==> (forall n | 0 < n <= |inputs| :: Outlasts(cfg, inputs, n))
  {
    hide CleanUpTo, Outlasts;
    forall n | 0 < n <= |inputs| && CleanUpTo(cfg, inputs, n) ensures Outlasts(cfg, inputs, n) {
      CleanOutlasts(cfg, inputs, n);
    }
    if forall n | 0 < n <= |inputs| :: Outlasts(cfg, inputs, n) {
      forall n | 0 <= n <= |inputs| ensures CleanUpTo(cfg, inputs, n) {
        OutlastsClean(cfg, inputs, n);
      }
    }
  }

  lemma CleanOutlasts(cfg: Config, inputs: seq<BlockGraph>, n: nat)
    requires 0 < n <= |inputs| && CleanUpTo(cfg, inputs, n)
    ensures Outlasts(cfg, inputs, n)
  {
    hide Run, MaximaKept;
    assert inputs[..n][..n - 1] == inputs[..n - 1];
    var r := RunAll(cfg, inputs[..n - 1]);
    if RunAll(cfg, inputs[..n]).Ok? {
      RunTidy(cfg, r.value.0, r.value.1, inputs[n - 1]);
    }
  }

  lemma {:induction false} OutlastsClean(cfg: Config, inputs: seq<BlockGraph>, n: nat)
    requires n <= |inputs| && forall m | 0 < m <= |inputs| :: Outlasts(cfg, inputs, m)
    ensures CleanUpTo(cfg, inputs, n)
    decreases n
  {
    hide Run, MaximaKept;
    if n == 0 {
      assert inputs[..0] == [];
      assert Clean(Initial(cfg)) by { NothingKept(cfg); }
    } else {
      OutlastsClean(cfg, inputs, n - 1);
      assert inputs[..n][..n - 1] == inputs[..n - 1];
      assert Outlasts(cfg, inputs, n);
      var r := RunAll(cfg, inputs[..n - 1]);
      if RunAll(cfg, inputs[..n]).Ok? {
        RunTidy(cfg, r.value.0, r.value.1, inputs[n - 1]);
      }
    }
  }
}
