/**
  When a run cannot stop. The interpreter stops its process on two different decisions for one slot, and on
  two different reports in a view change. In a run in which no block has previous blocks over ten rounds or
  more no timeout is due, so views do not change; then agreement rules out both.
 */
module TenRounds {
  import opened Bytes
  import opened Ids
  import opened Outcomes
  import opened Protocol
  import opened Interpreter
  import opened Evidence
  import opened Zones
  import opened Delivery
  import opened Passes
  import opened Runs
  import opened Consensus
  import opened Patience
  import Listing

  // --- view 0 only ---

  /** No view has changed, all timeouts are ten rounds or more after `low`, and delays are not of longer times. */
  ghost predicate Early(low: nat, last: nat, s: State) {
    && (forall k | k in s.view :: s.view[k] == 0)
    && (forall p | p in s.bitsets :: p.view == 0)
    && (forall r | r in s.timeouts :: r >= low + 10)
    && Brief(last, s.delay)
  }

  predicate Simple(m: Message) {
    m.p.view == 0 && (m.PrePrepare? || m.Prepare? || m.Commit?)
  }

  predicate AllSimple(msgs: seq<Message>) {
    forall m | m in msgs :: Simple(m)
  }

  /** For each entry a first round, not above that of the block that it names as its previous one; and a last one. */
  datatype Calendar = Calendar(lows: seq<nat>, last: nat)

  /** So every block is less than ten rounds after all the previous blocks that it goes back to. */
  ghost predicate AllInTime(c: Calendar, entries: seq<Entry>) {
    && Counted(c.last) && |entries| <= |c.lows|
    && (forall i | 0 <= i < |entries| :: InTime(c.lows[i], c.last, entries[i]))
    && (forall i, j | 0 <= i < j < |entries| && entries[j].prev == entries[i].block :: c.lows[j] <= c.lows[i])
  }

  ghost predicate StaysEarly(low: nat, last: nat, s: State, m: Message, r: Reaction) {
    && Early(low, last, r.s) && (r.reply.Some? ==> Simple(r.reply.value))
    && (r.decided ==> m.p.At() !in s.final && m.p in r.s.bitsets && r.s.bitsets[m.p].commits != {})
  }

  /** Such messages never fail, and are answered by such messages. */
  lemma SimpleStep(low: nat, last: nat, s: State, h: Heap, quorum: nat, sender: nat, receiver: nat, origin: nat,
                   m: Message)
    requires Early(low, last, s) && Simple(m)
    ensures
      var r := Interpret(s, h, quorum, sender, receiver, origin, m);
      r.Ok? && StaysEarly(low, last, s, m, r.value)
  {
    hide Early, OnPrePrepare, OnPrepare, OnCommit, StaysEarly;
    var t := TouchView(s, m.p.At());
    TouchEarly(low, last, s, m.p.At());
    SilentEarly(low, last, s, h, m);
    SameFinal(low, last, s, t, m);
    match m
    case PrePrepare(p) => PrePrepareEarly(low, last, t, h, sender, receiver, p);
    case Prepare(p, x) => PrepareEarly(low, last, t, h, quorum, receiver, p, x);
    case Commit(p, x) => CommitEarly(low, last, t, h, quorum, p, x);
  }

  lemma TouchEarly(low: nat, last: nat, s: State, k: Slot)
    requires Early(low, last, s)
    ensures Early(low, last, TouchView(s, k)) && TouchView(s, k).final == s.final
  {
  }

  lemma SilentEarly(low: nat, last: nat, s: State, h: Heap, m: Message)
    requires Early(low, last, s)
    ensures StaysEarly(low, last, s, m, Silent(s, h))
  {
  }

  lemma SameFinal(low: nat, last: nat, s: State, t: State, m: Message)
    requires s.final == t.final
    ensures forall r: Reaction :: StaysEarly(low, last, t, m, r) ==> StaysEarly(low, last, s, m, r)
  {
    hide Early;
  }

  lemma PrePrepareEarly(low: nat, last: nat, s: State, h: Heap, sender: nat, receiver: nat, p: Proposal)
    requires Early(low, last, s) && p.view == 0 && p.At() in s.view
    ensures StaysEarly(low, last, s, PrePrepare(p), OnPrePrepare(s, h, sender, receiver, p))
  {
    hide SetVotes;
    VotesEarly(low, last, s, p, AddPrepare(AddPrepare(VotesFor(s, p), sender), receiver));
  }

  lemma PrepareEarly(low: nat, last: nat, s: State, h: Heap, quorum: nat, receiver: nat, p: Proposal, x: nat)
    requires Early(low, last, s) && p.view == 0 && p.At() in s.view
    ensures StaysEarly(low, last, s, Prepare(p, x), OnPrepare(s, h, quorum, receiver, p, x))
  {
    hide SetVotes, Exactly;
    var b := AddPrepare(VotesFor(s, p), x);
    VotesEarly(low, last, s, p, b);
    VotesEarly(low, last, s, p, AddCommit(b, receiver));
  }

  lemma CommitEarly(low: nat, last: nat, s: State, h: Heap, quorum: nat, p: Proposal, x: nat)
    requires Early(low, last, s) && p.view == 0 && p.At() in s.view
    ensures StaysEarly(low, last, s, Commit(p, x), OnCommit(s, h, quorum, p, x))
  {
    hide Exactly;
    VotesEarly(low, last, s, p, AddCommit(VotesFor(s, p), x));
  }

  lemma VotesEarly(low: nat, last: nat, s: State, p: Proposal, b: Votes)
    requires Early(low, last, s) && p.view == 0
    ensures Early(low, last, SetVotes(s, p, b))
  {
  }

  lemma CloneEarly(low: nat, low': nat, last: nat, s: State, round: nat)
    requires Early(low', last, s) && low <= low'
    ensures Early(low, last, Clone(s, round)) && Early(low, last, FRESH)
  {
    hide LiveMessages;
  }

  /** No timeout is due: a block opens with its own proposal. */
  lemma OpeningEarly(low: nat, last: nat, cfg: Config, g: Graph, e: Entry)
    requires Early(low, last, FindOrCreate(g, e)) && InTime(low, last, e) && Counted(last)
    ensures
      var (s, opening) := Opening(cfg, g, e);
      Early(low, last, s) && opening == [PrePrepare(OwnProposal(e.block))]
  {
    hide FindOrCreate, WithTimeouts, Brief, InTime;
    NothingDue(low, last, cfg, FindOrCreate(g, e), e);
  }

  // --- the block being interpreted, as if it ended now ---

  ghost predicate RecordsEarly(c: Calendar, hist: seq<Record>) {
    && |hist| <= |c.lows|
    && forall i | 0 <= i < |hist| :: Early(c.lows[i], c.last, hist[i].end) && AllSimple(hist[i].end.out)
  }

  /** The blocks of nodes outside `byz` do not fork, and `byz` is small enough, or has no node. */
  ghost predicate AllTolerated(cfg: Config, entries: seq<Entry>, byz: set<nat>) {
    forall x | x in Nodes(cfg) :: Tolerated(cfg, entries, byz, x)
  }

  /** The previous block, if it was interpreted once, hands everything live on to `start`. */
  ghost predicate LinkedNext(hist: seq<Record>, prev: BlockID, start: State, low: nat) {
    && Linked(hist, low)
    && forall i | 0 <= i < |hist| && hist[i].block == prev && Single(hist, i) ::
         Grows(hist[i].end, start, low) && ViewsGrow(hist[i].end.view, start.view, low)
           && Handed(hist[i].end, start, low)
  }

  /** A task, with the entries up to it, the nodes that may fork and the calendar. */
  datatype Scene = Scene(t: Task, entries: seq<Entry>, byz: set<nat>, cal: Calendar) {
    function Low(): nat { if |t.w.hist| < |cal.lows| then cal.lows[|t.w.hist|] else 0 }
  }

  ghost predicate Peaceful(s: Scene) {
    var t, n := s.t, |s.t.w.hist|;
    && t.Placed() && t.w.nodes == Nodes(t.w.cfg) && |t.w.nodes| == t.w.cfg.PeerCount()
    && |s.entries| == n + 1 < U32_SIZE && s.entries[n].block == t.block
    && Matches(t.w.hist, s.entries[..n])
    && History(t.w.cfg.Quorum(), t.w.hist) && VotersIn(t.w.nodes, t.w.hist)
    && LinkedNext(t.w.hist, s.entries[n].prev, t.start, t.w.floor)
    && AllTolerated(t.w.cfg, s.entries, s.byz)
    && RecordsEarly(s.cal, t.w.hist) && AllInTime(s.cal, s.entries)
  }

  lemma LinkedAny(hist: seq<Record>, r: Record, low: nat, low': nat)
    requires LinkedNext(hist, r.prev, r.start, low) && low <= low'
    ensures Linked(hist + [r], low')
  {
    hide Grows, ViewsGrow, Handed, Single;
    var hist' := hist + [r];
    forall i, j | 0 <= i < j < |hist'| && hist'[j].prev == hist'[i].block && Single(hist'[..j], i)
      ensures Grows(hist'[i].end, hist'[j].start, low') && ViewsGrow(hist'[i].end.view, hist'[j].start.view, low')
      ensures Handed(hist'[i].end, hist'[j].start, low')
    {
      assert hist'[..j] == hist[..j];
      if j < |hist| {
        assert hist'[j] == hist[j] && hist'[i] == hist[i];
      } else {
        assert hist'[..j] == hist;
      }
      GrowsLater(hist[i].end, hist'[j].start, low, low');
      HandedLater(hist[i].end, hist'[j].start, low, low');
    }
  }

  ghost function RecordNow(s: Scene, end: State, out: seq<Message>): Record
    requires Peaceful(s)
  {
    Record(s.t.block, s.entries[|s.t.w.hist|].prev, s.t.start, end.(out := out))
  }

  lemma AccountNow(s: Scene, end: State, out: seq<Message>, low: nat)
    requires Peaceful(s) && StateOk(s.t, end, out) && s.t.w.floor <= low
    ensures Account(s.t.w.cfg.Quorum(), Nodes(s.t.w.cfg), s.t.w.hist + [RecordNow(s, end, out)], s.entries, low)
  {
    hide Sound, Calm, History, LinkedNext, AllTolerated, RecordsEarly, Linked, Nodes;
    var t, r := s.t, RecordNow(s, end, out);
    OutIsAside(t, end, out, out);
    HistoryPush(t.w.cfg.Quorum(), t.w.hist, r);
    LinkedAny(t.w.hist, r, t.w.floor, low);
    var hist', n := t.w.hist + [r], |t.w.hist|;
    forall i | 0 <= i < |hist'| ensures RecordIn(t.w.nodes, hist'[i]) && hist'[i].block == s.entries[i].block
      && hist'[i].prev == s.entries[i].prev
    {
      if i < n {
        assert hist'[i] == t.w.hist[i] && RecordIn(t.w.nodes, t.w.hist[i]);
        assert s.entries[i] == s.entries[..n][i];
      } else {
        NowIn(t, r);
      }
    }
  }

  lemma NowIn(t: Task, r: Record)
    requires t.Placed() && r.block == t.block && DataIn(t.Area(), r.end)
    ensures RecordIn(t.w.nodes, r)
  {
    hide SlotsIn, BallotsIn, FlagsIn, TimeoutsIn;
  }

  /** A decision that waits for its round is the one that the block now makes. */
  lemma SameDecision(s: Scene, g: Graph, final: map<Slot, Hash>, end: State, out: seq<Message>, p: Proposal)
    requires Peaceful(s) && Ledger(s.t.w, g, final) && StateOk(s.t, end, out)
    requires p.view == 0 && p in end.bitsets && end.bitsets[p].commits != {} && p.At() !in final
    requires p.node in s.t.w.nodes
    requires p.round in g.resolved && p.node in g.resolved[p.round] && p.round >= g.round
    ensures g.resolved[p.round][p.node] == p.hash
  {
    hide StateOk, Account, Tolerated, Early, HistPlaced, BlocksBounded, AllInterpreted, Current, Stored, LogTold,
      RoundsOk, MaxOk, LinkedNext, VotersIn, Nodes;
    var w := s.t.w;
    var hash := g.resolved[p.round][p.node];
    assert AllDecided(w.hist, final, p.round, g.resolved[p.round]);
    assert Decided(w.hist, final, p.At(), hash);
    var i :| 0 <= i < |w.hist| && p.At() in w.hist[i].end.final && w.hist[i].end.final[p.At()] == hash;
    var q := Decision(s, i, p.At());
    var hist' := w.hist + [RecordNow(s, end, out)];
    AccountNow(s, end, out, g.round);
    assert hist'[i] == w.hist[i];
    VotesAgree(w.cfg, hist', s.entries, g.round, s.byz, i, |w.hist|, q, p);
  }

  /** A decision on record has a quorum of commits in view 0. */
  lemma Decision(s: Scene, i: nat, k: Slot) returns (q: Proposal)
    requires Peaceful(s) && i < |s.t.w.hist| && k in s.t.w.hist[i].end.final
    ensures q.At() == k && q.hash == s.t.w.hist[i].end.final[k] && q.view == 0
    ensures q in s.t.w.hist[i].end.bitsets && s.t.w.hist[i].end.bitsets[q].commits != {}
  {
    hide Calm, CommitsSent, OutBacked, OnceOnly, Grows, LinkedNext, VotersIn, Nodes, AllTolerated, Matches;
    var w := s.t.w;
    assert RecordOk(w.cfg.Quorum(), w.hist, i);
    assert Certified(w.cfg.Quorum(), w.hist[i].end.bitsets, k, w.hist[i].end.final[k]);
    q :| q in w.hist[i].end.bitsets && q.At() == k && q.hash == w.hist[i].end.final[k]
      && |w.hist[i].end.bitsets[q].commits| >= w.cfg.Quorum();
    assert Early(s.cal.lows[i], s.cal.last, w.hist[i].end);
  }

  // --- nothing fails ---

  ghost predicate EarlyWork(s: Scene, k: Work, out: seq<Message>)
    requires s.t.Placed()
  {
    WorkOk(s.t, k, out) && Early(s.Low(), s.cal.last, k.s)
  }

  /** Delivering rounds does not stop the process; only two decisions for one slot do. */
  lemma {:induction false} RoundNotFatal(cfg: Config, g: Graph, round: nat)
    requires round in g.resolved
    ensures DeliverRound(cfg, g, round) != Fatal
    decreases |g.resolved|
  {
    hide Listing.ListingOf, PruneCount, PrunedIds, Wrap64;
    if g.blocks != [] {
      var g' := DeliverOne(g, round);
      assert g'.resolved.Keys == g.resolved.Keys - {round};
      if Full(cfg, g', round + 1) {
        RoundNotFatal(cfg, g', round + 1);
      }
    }
  }

  lemma DeliverNotFatal(cfg: Config, g: Graph, k: Slot, hash: Hash)
    requires k.round >= g.round && k.round in g.resolved && k.node in g.resolved[k.round] ==>
      g.resolved[k.round][k.node] == hash
    ensures Deliver(cfg, g, k, hash) != Fatal
  {
    hide DeliverRound;
    var g' := Resolve(g, k, hash);
    RoundNotFatal(cfg, g', k.round);
  }

  lemma StepSucceeds(s: Scene, k: Work, out: seq<Message>, sender: nat, m: Message)
    requires Peaceful(s) && EarlyWork(s, k, out) && MessageOk(s.t, out, sender, m) && sender in s.t.w.nodes && Simple(m)
    ensures
      var r := StepMessage(s.t.w.cfg, k, sender, s.t.block, m);
      && r.Ok? && EarlyWork(s, r.value.0, Append(out, r.value.1))
      && (r.value.1.Some? ==> Simple(r.value.1.value) && MessageOk(s.t, Append(out, r.value.1), sender,
        r.value.1.value))
  {
    hide Peaceful, StateOk, Ledger, Settled, Early, Legit, LegitCalm, Interpret, Deliver;
    var t := s.t;
    ScenePlaced(s);
    SimpleStep(s.Low(), s.cal.last, k.s, k.g.heap, t.w.cfg.Quorum(), sender, t.block.node, t.block.round, m);
    StepKeeps(t, k, out, sender, m);
    var r := Interpret(k.s, k.g.heap, t.w.cfg.Quorum(), sender, t.block.node, t.block.round, m).value;
    if r.decided && m.p.round >= k.g.round && m.p.round in k.g.resolved && m.p.node in k.g.resolved[m.p.round] {
      InterpretKeeps(t, k.s, k.g.heap, out, sender, m);
      PeacefulPlaced(s, m);
      SameDecision(s, k.g, k.s.final, r.s, Append(out, r.reply), m.p);
    }
    if r.decided {
      DeliverNotFatal(t.w.cfg, k.g.(heap := r.heap), m.p.At(), m.p.hash);
    }
  }

  lemma PeacefulPlaced(s: Scene, m: Message)
    requires Peaceful(s) && MessageIn(s.t.Area(), m)
    ensures m.p.node in s.t.w.nodes
  {
  }

  lemma {:induction false} FirstSucceeds(s: Scene, k: Work, sender: nat, msgs: seq<Message>, base: seq<Message>,
                                         out: seq<Message>)
    requires Peaceful(s) && EarlyWork(s, k, base + out) && sender in s.t.w.nodes && AllSimple(msgs) && AllSimple(out)
    requires MessagesOk(s.t, base + out, sender, msgs) && MessagesOk(s.t, base + out, sender, out)
    ensures
      var r := FirstPass(s.t.w.cfg, k, sender, s.t.block, msgs, out);
      && r.Ok? && EarlyWork(s, r.value.0, base + r.value.1) && AllSimple(r.value.1)
      && MessagesOk(s.t, base + r.value.1, sender, r.value.1)
    decreases |msgs|
  {
    hide Peaceful, EarlyWork, StepMessage, MessageOk, Simple;
    assert s.t.Placed() by { ScenePlaced(s); }
    if msgs != [] {
      if msgs[0] in k.processed {
        FirstSucceeds(s, k, sender, msgs[1..], base, out);
      } else {
        assert msgs[0] in msgs;
        StepSucceeds(s, k, base + out, sender, msgs[0]);
        var step := StepMessage(s.t.w.cfg, k, sender, s.t.block, msgs[0]);
        var out' := Append(out, step.value.1);
        assert Append(base + out, step.value.1) == base + out';
        MessagesOkGrow(s.t, base + out, base + out', sender, msgs);
        MessagesOkGrow(s.t, base + out, base + out', sender, out);
        FirstSucceeds(s, step.value.0, sender, msgs[1..], base, out');
      }
    }
  }

  lemma ScenePlaced(s: Scene)
    requires Peaceful(s)
    ensures s.t.Placed()
  {
  }

  lemma {:induction false} SecondSucceeds(s: Scene, k: Work, sender: nat, base: seq<Message>, out: seq<Message>, i: nat)
    requires Peaceful(s) && i <= |out| && EarlyWork(s, k, base + out) && sender in s.t.w.nodes && AllSimple(out)
    requires MessagesOk(s.t, base + out, sender, out)
    ensures
      var r := SecondPass(s.t.w.cfg, k, sender, s.t.block, out, i);
      r.Ok? && EarlyWork(s, r.value.0, base + r.value.1) && AllSimple(r.value.1)
    decreases Weight(out[i..]), |out| - i
  {
    hide Peaceful, EarlyWork, StepMessage, MessageOk, Weight, Simple;
    assert s.t.Placed() by { ScenePlaced(s); }
    if i < |out| {
      WeightStep(out, i);
      if out[i] in k.processed {
        SecondSucceeds(s, k, sender, base, out, i + 1);
      } else {
        assert out[i] in out;
        StepSucceeds(s, k, base + out, sender, out[i]);
        var step := StepMessage(s.t.w.cfg, k, sender, s.t.block, out[i]);
        WeightFalls(s.t.w.cfg, k, sender, s.t.block, out, i);
        var out' := Append(out, step.value.1);
        assert Append(base + out, step.value.1) == base + out';
        MessagesOkGrow(s.t, base + out, base + out', sender, out);
        SecondSucceeds(s, step.value.0, sender, base, out', i + 1);
      }
    }
  }

  lemma MessagesSucceed(s: Scene, k: Work, sender: nat, msgs: seq<Message>, base: seq<Message>)
    requires Peaceful(s) && EarlyWork(s, k, base) && sender in s.t.w.nodes && MessagesOk(s.t, base, sender, msgs)
    requires AllSimple(msgs)
    ensures
      var r := ProcessMessages(s.t.w.cfg, k, sender, s.t.block, msgs);
      r.Ok? && EarlyWork(s, r.value.0, base + r.value.1) && AllSimple(r.value.1)
  {
    hide Peaceful, EarlyWork, FirstPass, SecondPass, MessageOk, Simple;
    assert base + [] == base;
    FirstSucceeds(s, k, sender, msgs, base, []);
    var r := FirstPass(s.t.w.cfg, k, sender, s.t.block, msgs, []);
    SecondSucceeds(s, r.value.0, sender, base, r.value.1, 0);
  }

  /** What a link has put out. */
  lemma LinkSimple(s: Scene, k: Work, out: seq<Message>, d: BlockID)
    requires Peaceful(s) && EarlyWork(s, k, out)
    ensures AllSimple(OutputOf(k.g, d))
  {
    hide StateOk, HistPlaced, BlocksBounded, AllInterpreted, LogTold, RoundsOk, MaxOk, LogRounds, ResolvedOk, Current,
      Latest, LinkedNext, History, AllTolerated;
    var w := s.t.w;
    if d in k.g.statess {
      HistLengths(w);
      var i: nat :| StoredAs(w.hist, i, d, k.g.statess[d]);
      assert AllSimple(w.hist[i].end.out);
    }
  }

  lemma {:induction false} DepsSucceed(s: Scene, k: Work, deps: seq<BlockID>, out: seq<Message>)
    requires Peaceful(s) && EarlyWork(s, k, out) && LinksOk(s.t, deps) && AllSimple(out)
    ensures
      var r := DepsPass(s.t.w.cfg, k, s.t.block, deps, out);
      r.Ok? && EarlyWork(s, r.value.0, r.value.1) && AllSimple(r.value.1)
    decreases |deps|
  {
    hide Peaceful, EarlyWork, ProcessMessages, MessagesOk, LinkOk, Simple;
    if deps != [] {
      var d := deps[0];
      var msgs := OutputOf(k.g, d);
      LinkSimple(s, k, out, d);
      LinkReady(s, k, out, d);
      if msgs == [] {
        NothingToProcess(s.t.w.cfg, k, d.node, s.t.block);
      } else {
        MessagesSucceed(s, k, d.node, msgs, out);
      }
      var r := ProcessMessages(s.t.w.cfg, k, d.node, s.t.block, msgs);
      assert msgs == [] ==> out + r.value.1 == out;
      DepsSucceed(s, r.value.0, deps[1..], out + r.value.1);
    }
  }

  lemma LinkReady(s: Scene, k: Work, out: seq<Message>, d: BlockID)
    requires Peaceful(s) && EarlyWork(s, k, out) && LinkOk(s.t, d)
    ensures OutputOf(k.g, d) != [] ==> d.node in s.t.w.nodes && MessagesOk(s.t, out, d.node, OutputOf(k.g, d))
  {
    hide WorkOk, MessagesOk, LinkOk, History, LinkedNext, AllTolerated, RecordsEarly;
    LinkMessagesOk(s.t, k, out, d);
  }

  // --- a block ---

  lemma StartEarly(s: Scene, g: Graph, e: Entry)
    requires Peaceful(s) && |s.t.w.tops| == |s.t.w.hist| && Stored(s.t.w, g) && e == s.entries[|s.t.w.hist|]
    ensures Early(s.Low(), s.cal.last, FindOrCreate(g, e))
  {
    hide Early, Clone, Latest, LinkedNext, History, AllTolerated, AllSimple;
    FreshEarly(s.Low(), s.cal.last);
    if e.prev.Valid() && e.prev in g.statess {
      var i: nat :| StoredAs(s.t.w.hist, i, e.prev, g.statess[e.prev]);
      assert s.entries[i] == s.entries[..|s.t.w.hist|][i];
      CloneEarly(s.Low(), s.cal.lows[i], s.cal.last, s.t.w.hist[i].end, g.round);
    }
  }

  lemma FreshEarly(low: nat, last: nat)
    ensures Early(low, last, FRESH)
  {
  }

  lemma ProcessSucceeds(s: Scene, g: Graph, e: Entry)
    requires Peaceful(s) && e == s.entries[|s.t.w.hist|] && s.t.start == FindOrCreate(g, e)
    requires Ledger(s.t.w, g, map[]) && Settled(s.t.w, g) && PeersIn(s.t.w)
    requires LinksOk(s.t, e.deps) && (e.prev.Valid() ==> LinkOk(s.t, e.prev))
    ensures
      var r := Process(s.t.w.cfg, g, e);
      r.Ok? && Early(s.Low(), s.cal.last, r.value.statess[e.block]) && AllSimple(r.value.statess[e.block].out)
  {
    hide FindOrCreate, Opening, ProcessMessages, DepsPass, Ledger, Settled, StateOk, LinkOk, LinksOk, StartOk,
      MessagesOk, Early, InTime, LinkedNext, RecordsEarly, AllTolerated, History, VotersIn;
    var t := s.t;
    StartIsOk(t, g, e, map[]);
    OpeningKeeps(t, g, e);
    StoredIn(t.w, g);
    StartEarly(s, g, e);
    OpeningEarly(s.Low(), s.cal.last, t.w.cfg, g, e);
    var (s0, opening) := Opening(t.w.cfg, g, e);
    LedgerFinalGrows(t.w, g, map[], s0.final);
    MessagesSucceed(s, Work(g, s0, {}), e.block.node, opening, opening);
    var r := ProcessMessages(t.w.cfg, Work(g, s0, {}), e.block.node, e.block, opening);
    DepsSucceed(s, r.value.0, e.deps, opening + r.value.1);
    var q := DepsPass(t.w.cfg, r.value.0, e.block, e.deps, opening + r.value.1);
    OutEarly(s.Low(), s.cal.last, q.value.0.s, q.value.1);
  }

  lemma OutEarly(low: nat, last: nat, s: State, out: seq<Message>)
    requires Early(low, last, s)
    ensures Early(low, last, s.(out := out))
  {
  }

  lemma StoredIn(w: World, g: Graph)
    requires Ledger(w, g, map[])
    ensures Stored(w, g) && |w.tops| == |w.hist|
  {
    hide BlocksBounded, AllInterpreted, Current, LogRounds, LogTold, RoundsOk, MaxOk, ResolvedOk, Stored, RecordPlaced;
  }

  // --- a run ---

  lemma LinearPrefix(entries: seq<Entry>, n: nat, x: nat)
    requires Linear(entries, x) && n <= |entries|
    ensures Linear(entries[..n], x)
  {
    var pre := entries[..n];
    forall i, j | 0 <= i < j < n && pre[i].block.node == x && pre[j].block.node == x && NoneBetween(pre, x, i, j)
      ensures pre[j].prev == pre[i].block && pre[i].block.round < pre[j].block.round
    {
      assert forall k | i < k < j :: entries[k] == pre[k];
      assert NoneBetween(entries, x, i, j);
    }
  }

  lemma ToleratedPrefix(cfg: Config, entries: seq<Entry>, n: nat, byz: set<nat>)
    requires AllTolerated(cfg, entries, byz) && n <= |entries|
    ensures AllTolerated(cfg, entries[..n], byz)
  {
    hide Linear, Nodes;
    forall x, y | x in Nodes(cfg) && y in Nodes(cfg) && y !in byz ensures Linear(entries[..n], y) {
      assert Tolerated(cfg, entries, byz, x);
      LinearPrefix(entries, n, y);
    }
    forall x | x in Nodes(cfg) ensures Tolerated(cfg, entries[..n], byz, x) {
      assert Tolerated(cfg, entries, byz, x);
    }
  }

  /** What is known of a run so far, and of all its entries. */
  ghost predicate Orderly(w: World, g: Graph, all: seq<Entry>, byz: set<nat>, c: Calendar) {
    && RunOk(w, g) && |w.hist| <= |all| < U32_SIZE && Matches(w.hist, all[..|w.hist|])
    && w.nodes == Nodes(w.cfg) && AllTolerated(w.cfg, all, byz) && AllInTime(c, all) && RecordsEarly(c, w.hist)
  }

  ghost function SceneOf(w: World, g: Graph, all: seq<Entry>, byz: set<nat>, c: Calendar, top: nat): Scene
    requires |w.hist| < |all|
  {
    var e := all[|w.hist|];
    Scene(Task(w.(floor := g.round), e.block, FindOrCreate(g, e), top), all[..|w.hist| + 1], byz, c)
  }

  lemma SceneIsPeaceful(w: World, g: Graph, all: seq<Entry>, byz: set<nat>, c: Calendar, top: nat)
    requires Orderly(w, g, all, byz, c) && |w.hist| < |all|
    requires Task(w, all[|w.hist|].block, FindOrCreate(g, all[|w.hist|]), top).Placed()
    ensures Peaceful(SceneOf(w, g, all, byz, c, top))
  {
    hide History, Linked, Single, Grows, ViewsGrow, Handed, FindOrCreate, Ledger, TopsSteady, AllTolerated,
      RecordsEarly, Nodes, VotersIn, AllInTime, Settled;
    var n := |w.hist|;
    var e := all[n];
    AccountOf(w, g, all[..n]);
    ToleratedPrefix(w.cfg, all, n + 1, byz);
    assert all[..n + 1][..n] == all[..n] && all[..n + 1] + all[n + 1..] == all;
    InTimePrefix(c, all[..n + 1], all[n + 1..]);
    NodesCounted(w, g);
    forall i | 0 <= i < n && w.hist[i].block == e.prev && Single(w.hist, i)
      ensures Grows(w.hist[i].end, FindOrCreate(g, e), g.round)
      ensures ViewsGrow(w.hist[i].end.view, FindOrCreate(g, e).view, g.round)
      ensures Handed(w.hist[i].end, FindOrCreate(g, e), g.round)
    {
      StartGrows(w, g, e, i);
    }
  }

  lemma NodesCounted(w: World, g: Graph)
    requires Ledger(w, g, map[])
    ensures |w.nodes| == w.cfg.PeerCount()
  {
  }

  lemma EntrySucceeds(w: World, g: Graph, all: seq<Entry>, byz: set<nat>, c: Calendar, top: nat)
    requires Orderly(w, g, all, byz, c) && |w.hist| < |all|
    requires
      var e := all[|w.hist|];
      var t := Task(w, e.block, FindOrCreate(g, e), top);
      t.Placed() && LinksOk(t, LinksOf(e))
    ensures
      var e := all[|w.hist|];
      var r := Process(w.cfg, g, e);
      r.Ok? && Early(c.lows[|w.hist|], c.last, r.value.statess[e.block]) && AllSimple(r.value.statess[e.block].out)
  {
    hide Process, FindOrCreate, Peaceful, History, Linked, Ledger, Settled, TopsSteady, AllTolerated, RecordsEarly,
      Nodes, LinkOk, Matches, Early, PeersIn;
    var s, e := SceneOf(w, g, all, byz, c, top), all[|w.hist|];
    SceneIsPeaceful(w, g, all, byz, c, top);
    FloorRaised(w, g);
    LinksFloor(w, s.t.w, e, s.t.start, top);
    assert s.entries[|w.hist|] == e;
    PeersSame(w, s.t.w);
    ProcessSucceeds(s, g, e);
  }

  lemma PeersSame(w: World, v: World)
    requires PeersIn(w) && v.cfg == w.cfg && v.nodes == w.nodes
    ensures PeersIn(v)
  {
  }

  lemma {:induction false} ProcessAllSucceeds(w: World, g: Graph, all: seq<Entry>, byz: set<nat>, c: Calendar)
    requires Orderly(w, g, all, byz, c) && Coming(w, all, |w.hist|) && !w.terms.steady
    ensures
      var r := ProcessAll(w.cfg, g, w.hist, all[|w.hist|..]);
      r.Ok? && RecordsEarly(c, r.value.1)
    decreases |all| - |w.hist|
  {
    hide RunOk, Process, FindOrCreate, LinkOk, LinksOk, TopFor, AllTolerated, AllInTime, Nodes, Early, AllSimple;
    var n := |w.hist|;
    if n < |all| {
      var e := all[n];
      assert all[n..][1..] == all[n + 1..];
      var top := EntryReady(w, g, all, n);
      EntrySucceeds(w, g, all, byz, c, top);
      LongEnough(c, all);
      var v := ProcessEntry(w, g, e, top);
      var r := Process(w.cfg, g, e);
      assert Matches(v.hist, all[..n + 1]) by {
        assert forall i | 0 <= i < n :: all[..n + 1][i] == all[..n][i];
      }
      ProcessAllSucceeds(v, r.value, all, byz, c);
    }
  }

  lemma LongEnough(c: Calendar, entries: seq<Entry>)
    requires AllInTime(c, entries)
    ensures |entries| <= |c.lows|
  {
  }

  lemma InTimePrefix(c: Calendar, a: seq<Entry>, b: seq<Entry>)
    requires AllInTime(c, a + b)
    ensures AllInTime(c, a)
  {
    hide InTime;
    assert forall i | 0 <= i < |a| :: (a + b)[i] == a[i];
  }

  /** The last block graph of a run whose earlier ones have gone well. */
  lemma RunSucceeds(cfg: Config, inputs: seq<BlockGraph>, byz: set<nat>, c: Calendar, g: Graph, hist: seq<Record>)
    requires inputs != [] && WellFormed(cfg, inputs) && |AllEntries(inputs)| < U32_SIZE
    requires AllInTime(c, AllEntries(inputs)) && AllTolerated(cfg, AllEntries(inputs), byz)
    requires RunAll(cfg, inputs[..|inputs| - 1]) == Ok((g, hist)) && RecordsEarly(c, hist)
    ensures
      var r := Run(cfg, g, hist, inputs[|inputs| - 1]);
      r.Ok? && RecordsEarly(c, r.value.1)
  {
    hide RunOk, RunAll, WellFormed, Entries, Admit, ProcessAll, Genesis, Follows, InputOk, CurInterpreted, AllInTime,
      AllTolerated, RecordsEarly, Nodes;
    var n, first := |inputs| - 1, inputs[0].block.round;
    var bg := inputs[n];
    WellFormedPrefix(cfg, inputs);
    WellFormedAt(cfg, inputs, 0);
    OwnRound(cfg, inputs[0]);
    assert n > 0 ==> inputs[..n][0] == inputs[0];
    var w := RunPrefixKeeps(cfg, first, PLAIN, inputs[..n]);
    InputReady(w, g, cfg, first, PLAIN, inputs);
    var v := AdmitKeeps(w, g, bg);
    var before, all := AllEntries(inputs[..n]), AllEntries(inputs);
    assert all[..|before|] == before && all[|before|..] == Entries(bg);
    InputComing(v, cfg, bg, all, |before|);
    ProcessAllSucceeds(v, Admit(g, bg), all, byz, c);
  }

  lemma {:induction false} EarlyRuns(cfg: Config, inputs: seq<BlockGraph>, byz: set<nat>, c: Calendar)
    requires WellFormed(cfg, inputs) && |AllEntries(inputs)| < U32_SIZE
    requires AllInTime(c, AllEntries(inputs)) && AllTolerated(cfg, AllEntries(inputs), byz)
    ensures RunAll(cfg, inputs).Ok? && RecordsEarly(c, RunAll(cfg, inputs).value.1)
    decreases |inputs|
  {
    hide Run, WellFormed, AllInTime, AllTolerated, Entries;
    if inputs != [] {
      var n := |inputs| - 1;
      var before := AllEntries(inputs[..n]);
      WellFormedPrefix(cfg, inputs);
      InTimePrefix(c, before, Entries(inputs[n]));
      ToleratedPrefix(cfg, AllEntries(inputs), |before|, byz);
      assert AllEntries(inputs)[..|before|] == before;
      EarlyRuns(cfg, inputs[..n], byz, c);
      var (g, hist) := RunAll(cfg, inputs[..n]).value;
      RunSucceeds(cfg, inputs, byz, c, g, hist);
    }
  }

  /**
    A run in which no block goes back to previous blocks of ten rounds before or more, with forks that agreement
    tolerates for every node, does not stop: all its blocks are interpreted.
   */
  lemma NeverStops(cfg: Config, inputs: seq<BlockGraph>, byz: set<nat>, c: Calendar)
    requires WellFormed(cfg, inputs) && |AllEntries(inputs)| < U32_SIZE
    requires AllInTime(c, AllEntries(inputs)) && AllTolerated(cfg, AllEntries(inputs), byz)
    ensures exists g, hist :: Reaches(cfg, inputs, g, hist)
  {
    hide RunAll, WellFormed, AllInTime, AllTolerated, AllEntries, RecordsEarly;
    EarlyRuns(cfg, inputs, byz, c);
    var (g, hist) := RunAll(cfg, inputs).value;
    assert Reaches(cfg, inputs, g, hist);
  }

  /** In such runs a round is told only if a block of that round has been interpreted. */
  lemma ToldHasBlock(cfg: Config, inputs: seq<BlockGraph>, g: Graph, hist: seq<Record>, c: Calendar, i: nat)
    returns (k: nat)
    requires Reaches(cfg, inputs, g, hist) && RecordsEarly(c, hist) && ViewsTame(hist) && i < |g.log| && cfg.peers != []
    ensures k < |hist| && hist[k].block.round == g.log[i].round
  {
    hide Reaches, RecordOk, Early, Certified, Listing.IsListing;
    DeliveredInOrder(cfg, inputs, g, hist, i);
    var round := g.log[i].round;
    var hashes :| RoundDecisions(cfg, hist, round, hashes);
    var n := cfg.peers[0];
    assert CertifiedDecision(cfg, hist, Slot(n, round), hashes[n]);
    var j :| 0 <= j < |hist| && Certified(cfg.Quorum(), hist[j].end.bitsets, Slot(n, round), hashes[n]);
    var p := Certificate(cfg.Quorum(), hist[j].end.bitsets, Slot(n, round), hashes[n]);
    k := ProposalBlock(cfg, inputs, g, hist, c, j, p);
  }

  lemma Certificate(quorum: nat, bitsets: map<Proposal, Votes>, k: Slot, hash: Hash) returns (p: Proposal)
    requires Certified(quorum, bitsets, k, hash) && quorum > 0
    ensures p in bitsets && p.At() == k && bitsets[p].commits != {}
  {
    p :| p in bitsets && p.At() == k && p.hash == hash && |bitsets[p].commits| >= quorum;
  }

  /** A proposal with a commit vote is of a block that has been interpreted. */
  lemma ProposalBlock(cfg: Config, inputs: seq<BlockGraph>, g: Graph, hist: seq<Record>, c: Calendar, j: nat,
                      p: Proposal) returns (k: nat)
    requires Reaches(cfg, inputs, g, hist) && RecordsEarly(c, hist) && ViewsTame(hist) && j < |hist|
    requires p in hist[j].end.bitsets && hist[j].end.bitsets[p].commits != {}
    ensures k < |hist| && hist[k].block == p.Block()
  {
    hide RunAll, WellFormed, RecordOk, AllSimple, Linked, VotersIn, Matches;
    assert Early(c.lows[j], c.last, hist[j].end);
    var w := ReachedWorld(cfg, inputs, g, hist, PLAIN);
    hide Early;
    AccountOf(w, g, AllEntries(inputs));
    var x :| x in hist[j].end.bitsets[p].commits;
    HistoryAt(cfg.Quorum(), hist, j);
    var a := CommitOrigin(cfg.Quorum(), hist, j, p, x);
    HistoryAt(cfg.Quorum(), hist, a);
    Certificates(cfg, inputs, g, hist, a);
    assert |hist[a].end.bitsets[p].prepares| >= cfg.Quorum();
    var y :| y in hist[a].end.bitsets[p].prepares;
    PrepareEvidence(cfg.Quorum(), hist, a, p, y);
    k :| 0 <= k < |hist| && hist[k].block == p.Block();
  }
}
