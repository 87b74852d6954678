/**
  Timeouts over whole runs. The timeouts that a block holds are those it started with, one for each peer and one
  for each new view that it took; from block to block of a node none is lost that is for a round to come and a slot
  that is not delivered; and in the block of the round for which it is set it is due.
 */
module Deadlines {
  import opened Bytes
  import opened Ids
  import opened Outcomes
  import opened Protocol
  import opened Interpreter
  import opened Quorums
  import opened Clocks
  import opened Delivery
  import opened Runs
  import opened Consensus
  import opened Expiry
  import Evidence
  import Passes
  import Timeouts

  // --- where a block starts ---

  ghost predicate Trimmed<V(!new)>(s: map<Ballot, V>, t: map<Ballot, V>, low: nat) {
    forall k :: (k in t <==> k in s && k.round >= low) && (k in t ==> t[k] == s[k])
  }

  ghost predicate VotesContinue(s: State, t: State, low: nat) {
    && (forall p :: VotesFor(t, p) == if p.round >= low then VotesFor(s, p) else NO_VOTES)
    && (forall k :: ViewOf(t, k) == if k.round >= low then ViewOf(s, k) else 0)
    && (forall k :: (k in t.final <==> k in s.final && k.round >= low) && (k in t.final ==> t.final[k] == s.final[k]))
  }

  ghost predicate BallotsContinue(s: State, t: State, low: nat) {
    && Trimmed(s.prePrepared, t.prePrepared, low) && Trimmed(s.prepared, t.prepared, low)
    && Trimmed(s.viewChanged, t.viewChanged, low) && forall k :: k in t.hnv <==> k in s.hnv && k.round >= low
  }

  ghost predicate ClockContinues(s: State, t: State, low: nat) {
    && (forall r: nat :: TimeoutsAt(t, r) == if r >= low then TimeoutsAt(s, r) else [])
    && t.delay == s.delay && t.timeout == s.timeout
  }

  /** The state t holds exactly what s holds for rounds from `low` on, and its delays and timeout. */
  ghost predicate Continues(s: State, t: State, low: nat) {
    VotesContinue(s, t, low) && BallotsContinue(s, t, low) && ClockContinues(s, t, low)
  }

  /** A block starts with what its previous block holds for rounds that are not delivered, or with nothing. */
  lemma StartExact(g: Graph, e: Entry)
    ensures
      var t := FindOrCreate(g, e);
      if e.prev.Valid() && e.prev in g.statess then Continues(g.statess[e.prev], t, g.round) else t == FRESH
  {
    hide LiveMessages, Continues;
    if e.prev.Valid() && e.prev in g.statess {
      CloneContinues(g.statess[e.prev], g.round);
    }
  }

  lemma CloneContinues(s: State, low: nat)
    ensures Continues(s, Clone(s, low), low)
  {
    hide VotesContinue, BallotsContinue, ClockContinues, Clone;
    CloneVotes(s, low);
    CloneBallots(s, low);
    CloneClock(s, low);
  }

  lemma CloneVotes(s: State, low: nat)
    ensures VotesContinue(s, Clone(s, low), low)
  {
    hide LiveMessages;
  }

  lemma CloneBallots(s: State, low: nat)
    ensures BallotsContinue(s, Clone(s, low), low)
  {
    hide LiveMessages;
  }

  lemma CloneClock(s: State, low: nat)
    ensures ClockContinues(s, Clone(s, low), low)
  {
    hide LiveMessages;
  }

  // --- one block ---

  lemma OpeningClock(cfg: Config, g: Graph, e: Entry)
    ensures
      var start, t := FindOrCreate(g, e), Opening(cfg, g, e).0;
      && t.hnv == start.hnv && DelaysAre(start.delay, e.block.round, e.deps, t.delay)
      && Timeouts.IsTimeout(t.delay, 2 * cfg.Faults(), t.timeout)
      && TimeoutsAre(start, t, (e.block.round + t.timeout) % U64_SIZE, PeerTimeouts(cfg.peers, e.block.round))
  {
    hide FindOrCreate, WithTimeouts, FireTimeouts, DelaysAre, Timeouts.IsTimeout, TimeoutsAre;
    var start := FindOrCreate(g, e);
    var s := WithTimeouts(cfg, start, e);
    var out := [PrePrepare(OwnProposal(e.block))];
    WithTimeoutsExact(cfg, start, e);
    FireKeepsRest(s, e.block.node, TimeoutsAt(s, e.block.round), out);
    SameTimeouts(start, s, Opening(cfg, g, e).0, (e.block.round + s.timeout) % U64_SIZE,
      PeerTimeouts(cfg.peers, e.block.round));
  }

  lemma SameTimeouts(s: State, t: State, u: State, at: nat, ts: seq<Timeout>)
    requires TimeoutsAre(s, t, at, ts) && u.timeouts == t.timeouts
    ensures TimeoutsAre(s, u, at, ts)
  {
    assert forall r :: TimeoutsAt(u, r) == TimeoutsAt(t, r);
  }

  lemma AfterMessages(cfg: Config, e: Entry, start: State, s: State, end: State)
    requires s.hnv == start.hnv && DelaysAre(start.delay, e.block.round, e.deps, s.delay)
    requires Timeouts.IsTimeout(s.delay, 2 * cfg.Faults(), s.timeout) && Ticks(s, end, e.block.round)
    requires TimeoutsAre(start, s, (e.block.round + s.timeout) % U64_SIZE, PeerTimeouts(cfg.peers, e.block.round))
    ensures Clocked(cfg, e, start, end)
  {
    hide DelaysAre, Timeouts.IsTimeout, TimeoutsAt, ForBallots;
    var views :| TicksBy(s, end, e.block.round, views);
    forall r
      ensures
        TimeoutsAt(end, r) ==
        TimeoutsAt(start, r)
        + (if r == (e.block.round + end.timeout) % U64_SIZE then PeerTimeouts(cfg.peers, e.block.round) else [])
        + (if r == (e.block.round + end.timeout + 5) % U64_SIZE then views else [])
    {
      assert TimeoutsAt(end, r) == TimeoutsAt(s, r) + if r == Again(s, e.block.round) then views else [];
    }
    assert TimeoutsFromBlock(cfg.peers, e.block.round, start, end, views);
  }

  /** What process leaves on the clock of a block. */
  lemma ProcessClocked(cfg: Config, g: Graph, e: Entry)
    requires Process(cfg, g, e).Ok?
    ensures Clocked(cfg, e, FindOrCreate(g, e), Process(cfg, g, e).value.statess[e.block])
  {
    hide Opening, ProcessMessages, DepsPass, FindOrCreate, Clocked, Ticks, DelaysAre, Timeouts.IsTimeout, TimeoutsAre;
    OpeningClock(cfg, g, e);
    var (s, opening) := Opening(cfg, g, e);
    MessagesTick(cfg, Work(g, s, {}), e.block.node, e.block, opening);
    var (w, replies) := ProcessMessages(cfg, Work(g, s, {}), e.block.node, e.block, opening).value;
    DepsTick(cfg, w, e.block, e.deps, opening + replies);
    var (w', out) := DepsPass(cfg, w, e.block, e.deps, opening + replies).value;
    var end := w'.s.(out := out);
    TicksTwice(s, w.s, w'.s, e.block.round);
    TicksSelf(w'.s, end, e.block.round);
    TicksTwice(s, w'.s, end, e.block.round);
    AfterMessages(cfg, e, FindOrCreate(g, e), s, end);
  }

  // --- runs ---

  ghost predicate AllClocked(cfg: Config, hist: seq<Record>, entries: seq<Entry>) {
    |hist| == |entries| && forall i | 0 <= i < |hist| :: Clocked(cfg, entries[i], hist[i].start, hist[i].end)
  }

  lemma {:induction false} ProcessAllClocked(cfg: Config, g: Graph, hist: seq<Record>, before: seq<Entry>,
                                             entries: seq<Entry>)
    requires AllClocked(cfg, hist, before) && ProcessAll(cfg, g, hist, entries).Ok?
    ensures AllClocked(cfg, ProcessAll(cfg, g, hist, entries).value.1, before + entries)
    decreases |entries|
  {
    hide Process, Clocked, FindOrCreate;
    if entries == [] {
      assert before + entries == before;
    } else {
      var e := entries[0];
      var g' := Process(cfg, g, e).value;
      var rec := Record(e.block, e.prev, FindOrCreate(g, e), g'.statess[e.block]);
      ProcessClocked(cfg, g, e);
      ProcessAllClocked(cfg, g', hist + [rec], before + [e], entries[1..]);
      assert before + [e] + entries[1..] == before + entries;
    }
  }

  /**
    In every run each block holds the delays that its dependencies give, the timeout that these delays give, and
    exactly the timeouts that it started with, one for each peer and one for each new view that it took.
   */
  lemma {:induction false} RunClocked(cfg: Config, inputs: seq<BlockGraph>, g: Graph, hist: seq<Record>)
    requires RunAll(cfg, inputs) == Ok((g, hist))
    ensures AllClocked(cfg, hist, AllEntries(inputs))
    decreases |inputs|
  {
    hide ProcessAll, AllClocked, Admit, Entries;
    if inputs == [] {
      NoneClocked(cfg);
    } else {
      var n := |inputs| - 1;
      var (g0, hist0) := RunAll(cfg, inputs[..n]).value;
      RunClocked(cfg, inputs[..n], g0, hist0);
      ProcessAllClocked(cfg, Admit(g0, inputs[n]), hist0, AllEntries(inputs[..n]), Entries(inputs[n]));
    }
  }

  lemma NoneClocked(cfg: Config)
    ensures AllClocked(cfg, [], [])
  {
  }

  // --- from block to block ---

  /** The timeouts of s for slots that are not delivered, from `low` on, are the first ones of t. */
  ghost predicate Awaited(s: State, t: State, low: nat) {
    forall r: nat | r >= low :: LiveTimeouts(TimeoutsAt(s, r), low) <= LiveTimeouts(TimeoutsAt(t, r), low)
  }

  lemma AwaitedTwice(s: State, t: State, u: State, low: nat)
    requires Awaited(s, t, low) && Awaited(t, u, low)
    ensures Awaited(s, u, low)
  {
    hide LiveTimeouts, TimeoutsAt;
    forall r: nat | r >= low ensures LiveTimeouts(TimeoutsAt(s, r), low) <= LiveTimeouts(TimeoutsAt(u, r), low) {
      assert LiveTimeouts(TimeoutsAt(s, r), low) <= LiveTimeouts(TimeoutsAt(t, r), low);
    }
  }

  lemma HandedAwaits(s: State, t: State, low: nat)
    requires Handed(s, t, low)
    ensures Awaited(s, t, low)
  {
    hide LiveTimeouts, TimeoutsAt;
  }

  lemma ClockedAwaits(cfg: Config, e: Entry, start: State, end: State, low: nat)
    requires Clocked(cfg, e, start, end)
    ensures Awaited(start, end, low)
  {
    hide DelaysAre, Timeouts.IsTimeout, ForBallots, LiveTimeouts, TimeoutsAt;
    var views :| ForBallots(views, end.hnv - start.hnv)
      && TimeoutsFromBlock(cfg.peers, e.block.round, start, end, views);
    forall r: nat | r >= low
      ensures LiveTimeouts(TimeoutsAt(start, r), low) <= LiveTimeouts(TimeoutsAt(end, r), low)
    {
      var a := if r == (e.block.round + end.timeout) % U64_SIZE then PeerTimeouts(cfg.peers, e.block.round) else [];
      var b := if r == (e.block.round + end.timeout + 5) % U64_SIZE then views else [];
      assert TimeoutsAt(end, r) == TimeoutsAt(start, r) + a + b;
      LiveConcat(TimeoutsAt(start, r) + a, b, low);
      LiveConcat(TimeoutsAt(start, r), a, low);
    }
  }

  /** From one block of a node to the start of a later one. */
  lemma {:induction false} ChainAwaits(cfg: Config, hist: seq<Record>, entries: seq<Entry>, low: nat, x: nat, i: nat,
                                       j: nat)
    requires AllClocked(cfg, hist, entries) && Linked(hist, low) && Matches(hist, entries) && Linear(entries, x)
    requires i < j < |hist| && hist[i].block.node == x && hist[j].block.node == x
    ensures Awaited(hist[i].end, hist[j].start, low)
    decreases j
  {
    hide Evidence.Grows, Evidence.ViewsGrow, Handed, Awaited, Clocked;
    var m := LastBefore(entries, x, i, j, j);
    assert hist[j].prev == hist[m].block;
    NotRepeated(hist, entries, x, m, j);
    HandedAwaits(hist[m].end, hist[j].start, low);
    if i < m {
      ChainAwaits(cfg, hist, entries, low, x, i, m);
      ClockedAwaits(cfg, entries[m], hist[m].start, hist[m].end, low);
      AwaitedTwice(hist[i].end, hist[m].start, hist[m].end, low);
      AwaitedTwice(hist[i].end, hist[m].end, hist[j].start, low);
    }
  }

  /** The same, up to the block that comes next. */
  lemma NextAwaits(cfg: Config, inputs: seq<BlockGraph>, g: Graph, hist: seq<Record>, e: Entry, i: nat)
    requires Reaches(cfg, inputs, g, hist) && i < |hist| && hist[i].block.node == e.block.node
    requires Linear(AllEntries(inputs) + [e], e.block.node)
    ensures Awaited(hist[i].end, FindOrCreate(g, e), g.round)
  {
    hide RunAll, AllEntries, Awaited, FindOrCreate, AllClocked, Ledger, Handed, Passes.History;
    var x, entries := e.block.node, AllEntries(inputs);
    var w := ReachedWorld(cfg, inputs, g, hist, PLAIN);
    RunClocked(cfg, inputs, g, hist);
    LinearBefore(entries, e, x);
    var all := entries + [e];
    var m := LastBefore(all, x, i, |entries|, |entries|);
    assert hist[m].block.node == x && e.prev == hist[m].block;
    NotRepeated(hist, entries, x, m, |hist|);
    assert hist[..|hist|] == hist;
    StartGrows(w, g, e, m);
    HandedAwaits(hist[m].end, FindOrCreate(g, e), g.round);
    if i < m {
      ChainAwaits(cfg, hist, entries, g.round, x, i, m);
      ClockedAt(cfg, hist, entries, m);
      ClockedAwaits(cfg, entries[m], hist[m].start, hist[m].end, g.round);
      AwaitedTwice(hist[i].end, hist[m].start, hist[m].end, g.round);
      AwaitedTwice(hist[i].end, hist[m].end, FindOrCreate(g, e), g.round);
    }
  }

  lemma ClockedAt(cfg: Config, hist: seq<Record>, entries: seq<Entry>, m: nat)
    requires AllClocked(cfg, hist, entries) && m < |hist|
    ensures |entries| == |hist| && Clocked(cfg, entries[m], hist[m].start, hist[m].end)
  {
  }

  lemma LinearBefore(entries: seq<Entry>, e: Entry, x: nat)
    requires Linear(entries + [e], x)
    ensures Linear(entries, x)
  {
    var all := entries + [e];
    forall i, j | 0 <= i < j < |entries| && entries[i].block.node == x && entries[j].block.node == x
      && NoneBetween(entries, x, i, j)
      ensures entries[j].prev == entries[i].block && entries[i].block.round < entries[j].block.round
    {
      assert all[i] == entries[i] && all[j] == entries[j];
      assert NoneBetween(all, x, i, j);
    }
  }

  lemma StillAwaited(s: State, t: State, low: nat, r: nat, x: Timeout)
    requires Awaited(s, t, low) && x in TimeoutsAt(s, r) && x.round >= low && r >= low
    ensures x in TimeoutsAt(t, r)
  {
    hide LiveTimeouts, TimeoutsAt;
    LiveIs(TimeoutsAt(s, r), low, x);
    LiveIs(TimeoutsAt(t, r), low, x);
    assert LiveTimeouts(TimeoutsAt(s, r), low) <= LiveTimeouts(TimeoutsAt(t, r), low);
  }

  lemma StillSet(cfg: Config, s: State, e: Entry, x: Timeout)
    requires x in TimeoutsAt(s, e.block.round)
    ensures x in TimeoutsAt(WithTimeouts(cfg, s, e), e.block.round)
  {
    hide WithTimeouts, DelaysAre, Timeouts.IsTimeout, TimeoutsAt;
    WithTimeoutsExact(cfg, s, e);
  }

  /** No timeout is ahead of its slot. */
  lemma InStep(cfg: Config, inputs: seq<BlockGraph>, g: Graph, hist: seq<Record>, e: Entry, r: nat, x: Timeout)
    requires Reaches(cfg, inputs, g, hist) && |AllEntries(inputs)| + 1 < U32_SIZE
    requires x in TimeoutsAt(FindOrCreate(g, e), r) && x.round >= g.round
    ensures x.view <= ViewOf(FindOrCreate(g, e), SlotOf(x))
  {
    hide Reaches, AllEntries, FindOrCreate, AllReached, ViewsBelow;
    TimeoutsInStep(cfg, inputs, g, hist);
    StartReached(g, e);
  }

  lemma {:induction false} AboutHas(msgs: seq<Message>, k: Slot, m: Message)
    requires m in About(msgs, k)
    ensures m in msgs
  {
    if msgs != [] {
      var n := |msgs| - 1;
      assert msgs == msgs[..n] + [msgs[n]];
      if m in About(msgs[..n], k) {
        AboutHas(msgs[..n], k, m);
      }
    }
  }

  lemma ChangeSame(cfg: Config, s: State, e: Entry, me: nat, k: Slot)
    ensures Change(WithTimeouts(cfg, s, e), me, k) == Change(s, me, k)
  {
    hide WithTimeouts, DelaysAre, Timeouts.IsTimeout, TimeoutsAre;
    WithTimeoutsExact(cfg, s, e);
  }

  /**
    A timeout that a block of a node holds for the round of the node's next block, for a slot that is not delivered:
    that block leaves the view of the timeout, and puts out the view change if the slot was still in that view.
   */
  lemma DueInTime(cfg: Config, inputs: seq<BlockGraph>, g: Graph, hist: seq<Record>, e: Entry, i: nat, t: Timeout)
    requires Reaches(cfg, inputs, g, hist) && |AllEntries(inputs)| + 1 < U32_SIZE
    requires i < |hist| && hist[i].block.node == e.block.node && Linear(AllEntries(inputs) + [e], e.block.node)
    requires t in TimeoutsAt(hist[i].end, e.block.round) && t.round >= g.round && e.block.round >= g.round
    ensures
      var k, start := SlotOf(t), FindOrCreate(g, e);
      var (s, opening) := Opening(cfg, g, e);
      ViewOf(s, k) > t.view && (ViewOf(start, k) == t.view ==> Change(start, e.block.node, k) in opening)
  {
    hide Reaches, AllEntries, FindOrCreate, Opening, Awaited, About, Change, WithTimeouts, ViewOf;
    var k, start := SlotOf(t), FindOrCreate(g, e);
    NextAwaits(cfg, inputs, g, hist, e, i);
    StillAwaited(hist[i].end, start, g.round, e.block.round, t);
    InStep(cfg, inputs, g, hist, e, e.block.round, t);
    StillSet(cfg, start, e, t);
    ExpiryExact(cfg, inputs, g, hist, e, k);
    var s := WithTimeouts(cfg, start, e);
    if ViewOf(start, k) == t.view {
      SameView(cfg, start, e, k);
      assert Expires(s, TimeoutsAt(s, e.block.round), k);
      ChangeSame(cfg, start, e, e.block.node, k);
      AboutHas(Opening(cfg, g, e).1, k, Change(s, e.block.node, k));
    }
  }

  lemma SameView(cfg: Config, s: State, e: Entry, k: Slot)
    ensures ViewOf(WithTimeouts(cfg, s, e), k) == ViewOf(s, k)
  {
    hide WithTimeouts, DelaysAre, Timeouts.IsTimeout, TimeoutsAre;
    WithTimeoutsExact(cfg, s, e);
  }

  /** So the slots of a block's round leave view 0 in the node's block that comes its timeout later, at the latest. */
  lemma RoundsTimeOut(cfg: Config, inputs: seq<BlockGraph>, g: Graph, hist: seq<Record>, e: Entry, i: nat, y: nat)
    requires Reaches(cfg, inputs, g, hist) && |AllEntries(inputs)| + 1 < U32_SIZE
    requires i < |hist| && hist[i].block.node == e.block.node && Linear(AllEntries(inputs) + [e], e.block.node)
    requires hist[i].block.round >= g.round && e.block.round >= g.round && y in cfg.peers
    requires e.block.round == (hist[i].block.round + hist[i].end.timeout) % U64_SIZE
    ensures ViewOf(Opening(cfg, g, e).0, Slot(y, hist[i].block.round)) > 0
  {
    hide Reaches, AllEntries, Opening, ViewOf, AllClocked, TimeoutsAt;
    var entries := AllEntries(inputs);
    MatchesAt(cfg, inputs, g, hist, i);
    ClockedAt(cfg, hist, entries, i);
    var t := Timeout(y, hist[i].block.round, 0);
    HoldsPeers(cfg, entries[i], hist[i].start, hist[i].end, t, e.block.round);
    DueInTime(cfg, inputs, g, hist, e, i, t);
  }

  lemma MatchesAt(cfg: Config, inputs: seq<BlockGraph>, g: Graph, hist: seq<Record>, i: nat)
    requires Reaches(cfg, inputs, g, hist) && i < |hist|
    ensures AllClocked(cfg, hist, AllEntries(inputs)) && |hist| == |AllEntries(inputs)|
    ensures AllEntries(inputs)[i].block == hist[i].block
  {
    hide RunAll, AllEntries, AllClocked, RunOk;
    var w := ReachedWorld(cfg, inputs, g, hist, PLAIN);
    RunClocked(cfg, inputs, g, hist);
  }

  lemma HoldsPeers(cfg: Config, e: Entry, start: State, end: State, t: Timeout, at: nat)
    requires Clocked(cfg, e, start, end) && t.node in cfg.peers && t.round == e.block.round && t.view == 0
    requires at == (e.block.round + end.timeout) % U64_SIZE
    ensures t in TimeoutsAt(end, at)
  {
    hide DelaysAre, Timeouts.IsTimeout, ForBallots, TimeoutsAt;
    var views :| ForBallots(views, end.hnv - start.hnv)
      && TimeoutsFromBlock(cfg.peers, e.block.round, start, end, views);
    var i :| 0 <= i < |cfg.peers| && cfg.peers[i] == t.node;
    var ts := PeerTimeouts(cfg.peers, e.block.round);
    assert ts[i] == t;
    var b := if at == (e.block.round + end.timeout + 5) % U64_SIZE then views else [];
    assert TimeoutsAt(end, at) == TimeoutsAt(start, at) + ts + b;
  }
}
