/**
  The clock of a block: its delays, its timeout and the timeouts that it holds for later rounds. What a block
  adds to them before it reads messages, and what messages add.
 */
module Clocks {
  import opened Bytes
  import opened Ids
  import opened Outcomes
  import opened Protocol
  import opened Interpreter
  import opened Quorums
  import Timeouts

  // --- before messages are read ---

  ghost predicate DelaysAre(before: map<nat, nat>, round: nat, deps: seq<BlockID>, after: map<nat, nat>) {
    forall n :: DelayIs(before, round, deps, after, n)
  }

  /** One timeout of view 0 for every peer. */
  function PeerTimeouts(peers: seq<nat>, round: nat): (ts: seq<Timeout>)
    ensures |ts| == |peers| && forall i | 0 <= i < |peers| :: ts[i] == Timeout(peers[i], round, 0)
  {
    seq(|peers|, i requires 0 <= i < |peers| => Timeout(peers[i], round, 0))
  }

  /**
    A block's delays follow its dependencies, its timeout is the one that these delays give, and it sets one
    timeout for every peer, that many rounds ahead; nothing else.
   */
  lemma WithTimeoutsExact(cfg: Config, s: State, e: Entry)
    ensures
      var t := WithTimeouts(cfg, s, e);
      && t == s.(delay := t.delay, timeout := t.timeout, timeouts := t.timeouts)
      && DelaysAre(s.delay, e.block.round, e.deps, t.delay)
      && Timeouts.IsTimeout(t.delay, 2 * cfg.Faults(), t.timeout)
      && TimeoutsAre(s, t, (e.block.round + t.timeout) % U64_SIZE, PeerTimeouts(cfg.peers, e.block.round))
  {
    hide Delays, Timeouts.TimeoutValue, Timeouts.IsTimeout, AddTimeouts, DelayIs, TimeoutsAre;
    var delay := Delays(s.delay, e.block.round, e.deps);
    forall n ensures DelayIs(s.delay, e.block.round, e.deps, delay, n) {
      DelaysExact(s.delay, e.block.round, e.deps, n);
    }
    hide DelaysAre;
    var v := Timeouts.TimeoutValue(delay, 2 * cfg.Faults());
    var u, at := s.(delay := delay).(timeout := v), (e.block.round + v) % U64_SIZE;
    var ts := PeerTimeouts(cfg.peers, e.block.round);
    assert NewTimeouts(cfg.peers, e.block.round) == ts;
    AddTimeoutSeen(u, at, ts);
    TimeoutsFrom(s, u, AddTimeouts(u, at, ts), at, ts);
    if cfg.peers == [] {
      NoTimeouts(s, u, at);
    }
  }

  // --- messages ---

  /** One timeout for every ballot. */
  ghost predicate ForBallots(ts: seq<Timeout>, ballots: set<Ballot>) {
    && (forall i, j | 0 <= i < j < |ts| :: ts[i] != ts[j])
    && (forall b: Ballot :: b in ballots <==> Timeout(b.node, b.round, b.view) in ts)
  }

  /** The round for which a block of round `origin` sets the timeouts of new views. */
  function Again(s: State, origin: nat): nat {
    (origin + s.timeout + 5) % U64_SIZE
  }

  ghost predicate TicksBy(s: State, t: State, origin: nat, ts: seq<Timeout>) {
    && t.delay == s.delay && t.timeout == s.timeout && s.hnv <= t.hnv
    && TimeoutsAre(s, t, Again(s, origin), ts) && ForBallots(ts, t.hnv - s.hnv)
  }

  /** Messages leave delays and timeout alone, and set one timeout for every new view that is taken. */
  ghost predicate Ticks(s: State, t: State, origin: nat) {
    exists ts :: TicksBy(s, t, origin, ts)
  }

  lemma TicksSelf(s: State, t: State, origin: nat)
    requires t.delay == s.delay && t.timeout == s.timeout && t.hnv == s.hnv && t.timeouts == s.timeouts
    ensures Ticks(s, t, origin)
  {
    assert t.hnv - s.hnv == {};
    assert TicksBy(s, t, origin, []);
  }

  lemma TicksTwice(s: State, t: State, u: State, origin: nat)
    requires Ticks(s, t, origin) && Ticks(t, u, origin)
    ensures Ticks(s, u, origin)
  {
    var a :| TicksBy(s, t, origin, a);
    var b :| TicksBy(t, u, origin, b);
    TimeoutsTwice(s, t, u, Again(s, origin), a, b);
    hide TimeoutsAre;
    BallotsTwice(a, t.hnv - s.hnv, b, u.hnv - t.hnv);
    assert u.hnv - s.hnv == (t.hnv - s.hnv) + (u.hnv - t.hnv);
    assert TicksBy(s, u, origin, a + b);
  }

  lemma TimeoutsTwice(s: State, t: State, u: State, at: nat, a: seq<Timeout>, b: seq<Timeout>)
    requires TimeoutsAre(s, t, at, a) && TimeoutsAre(t, u, at, b)
    ensures TimeoutsAre(s, u, at, a + b)
  {
    hide TimeoutsAt;
    forall r ensures TimeoutsAt(u, r) == TimeoutsAt(s, r) + if r == at then a + b else [] {
      assert TimeoutsAt(u, r) == TimeoutsAt(t, r) + if r == at then b else [];
      if r == at {
        assert TimeoutsAt(s, r) + a + b == TimeoutsAt(s, r) + (a + b);
      }
    }
  }

  lemma BallotsTwice(a: seq<Timeout>, x: set<Ballot>, b: seq<Timeout>, y: set<Ballot>)
    requires ForBallots(a, x) && ForBallots(b, y) && x !! y
    ensures ForBallots(a + b, x + y)
  {
    var c := a + b;
    forall i, j | 0 <= i < j < |c| ensures c[i] != c[j] {
      if i < |a| <= j {
        var k := Ballot(c[i].node, c[i].round, c[i].view);
        assert c[i] in a && c[j] in b;
        assert k in x;
        assert k !in y;
      }
    }
  }

  lemma OneBallot(b: Ballot)
    ensures ForBallots([Timeout(b.node, b.round, b.view)], {b})
  {
  }

  lemma NewViewTicks(s: State, h: Heap, quorum: nat, sender: nat, receiver: nat, origin: nat, p: Proposal, x: nat)
    ensures Ticks(s, React(s, h, quorum, sender, receiver, origin, NewView(p, x)).s, origin)
  {
    hide React, ViewsAre, TimeoutsAre, ForBallots;
    NewViewStep(s, h, quorum, sender, receiver, origin, p, x);
    var t := React(s, h, quorum, sender, receiver, origin, NewView(p, x)).s;
    if p.At() !in s.done && ViewOf(s, p.At()) <= p.view && p.Key() !in s.hnv {
      OneBallot(p.Key());
      assert t.hnv - s.hnv == {p.Key()};
      assert TicksBy(s, t, origin, [Timeout(p.node, p.round, p.view)]);
    } else {
      NoBallots();
      assert t.hnv - s.hnv == {};
      assert TicksBy(s, t, origin, []);
    }
  }

  lemma NoBallots()
    ensures ForBallots([], {})
  {
  }

  /** The clock is as it was. */
  ghost predicate SameClock(s: State, t: State) {
    t.delay == s.delay && t.timeout == s.timeout && t.hnv == s.hnv && t.timeouts == s.timeouts
  }

  lemma ViewChangeTicks(s: State, h: Heap, quorum: nat, sender: nat, receiver: nat, origin: nat, p: Proposal, x: nat)
    requires Interpret(s, h, quorum, sender, receiver, origin, ViewChange(p, x)).Ok?
    ensures SameClock(s, Interpret(s, h, quorum, sender, receiver, origin, ViewChange(p, x)).value.s)
  {
    hide Interpret, Reports, Write, Conflict, OneHash, ReportsRef, ViewsAre, SetView, SetViewChanged, TouchView;
    if p.At() in s.done || ViewOf(s, p.At()) > p.view {
      PassedView(s, h, quorum, sender, receiver, origin, p, x);
    } else {
      ViewChangeReaction(s, h, quorum, sender, receiver, origin, p, x);
      WrittenClock(s, h, p.At(), p.view);
    }
  }

  lemma WrittenClock(s: State, h: Heap, k: Slot, v: nat)
    ensures SameClock(s, Written(s, h, k)) && SameClock(s, SetView(Written(s, h, k), k, v))
  {
    hide ReportsRef;
  }

  lemma InterpretTicks(s: State, h: Heap, quorum: nat, sender: nat, receiver: nat, origin: nat, msg: Message)
    requires Interpret(s, h, quorum, sender, receiver, origin, msg).Ok?
    ensures Ticks(s, Interpret(s, h, quorum, sender, receiver, origin, msg).value.s, origin)
  {
    hide Interpret, React, Ticks, VotesAre, ViewsAre;
    var t := Interpret(s, h, quorum, sender, receiver, origin, msg).value.s;
    if !msg.ViewChange? {
      IsReact(s, h, quorum, sender, receiver, origin, msg);
    }
    match msg {
      case PrePrepare(p) => PrePrepareStep(s, h, quorum, sender, receiver, origin, p);
      case Prepare(p, x) => PrepareStep(s, h, quorum, sender, receiver, origin, p, x);
      case Commit(p, x) => CommitStep(s, h, quorum, sender, receiver, origin, p, x);
      case ViewChange(p, x) => ViewChangeTicks(s, h, quorum, sender, receiver, origin, p, x);
      case NewView(p, x) => NewViewTicks(s, h, quorum, sender, receiver, origin, p, x);
    }
    if !msg.NewView? {
      TicksSelf(s, t, origin);
    }
  }

  lemma StepTicks(cfg: Config, w: Work, sender: nat, origin: BlockID, msg: Message)
    requires StepMessage(cfg, w, sender, origin, msg).Ok?
    ensures Ticks(w.s, StepMessage(cfg, w, sender, origin, msg).value.0.s, origin.round)
  {
    hide Interpret, Deliver, Ticks;
    InterpretTicks(w.s, w.g.heap, cfg.Quorum(), sender, origin.node, origin.round, msg);
  }

  lemma {:induction false} FirstTicks(cfg: Config, w: Work, sender: nat, origin: BlockID, msgs: seq<Message>,
                                      out: seq<Message>)
    requires FirstPass(cfg, w, sender, origin, msgs, out).Ok?
    ensures Ticks(w.s, FirstPass(cfg, w, sender, origin, msgs, out).value.0.s, origin.round)
    decreases |msgs|
  {
    hide StepMessage, Ticks;
    if msgs == [] {
      TicksSelf(w.s, w.s, origin.round);
    } else if msgs[0] in w.processed {
      FirstTicks(cfg, w, sender, origin, msgs[1..], out);
    } else {
      var step := StepMessage(cfg, w, sender, origin, msgs[0]);
      StepTicks(cfg, w, sender, origin, msgs[0]);
      FirstTicks(cfg, step.value.0, sender, origin, msgs[1..], Append(out, step.value.1));
      TicksTwice(w.s, step.value.0.s, FirstPass(cfg, w, sender, origin, msgs, out).value.0.s, origin.round);
    }
  }

  lemma {:induction false} SecondTicks(cfg: Config, w: Work, sender: nat, origin: BlockID, out: seq<Message>, i: nat)
    requires i <= |out| && SecondPass(cfg, w, sender, origin, out, i).Ok?
    ensures Ticks(w.s, SecondPass(cfg, w, sender, origin, out, i).value.0.s, origin.round)
    decreases Weight(out[i..]), |out| - i
  {
    hide StepMessage, Weight, Ticks;
    if i == |out| {
      TicksSelf(w.s, w.s, origin.round);
    } else {
      WeightStep(out, i);
      if out[i] in w.processed {
        SecondTicks(cfg, w, sender, origin, out, i + 1);
      } else {
        var step := StepMessage(cfg, w, sender, origin, out[i]);
        StepTicks(cfg, w, sender, origin, out[i]);
        WeightFalls(cfg, w, sender, origin, out, i);
        SecondTicks(cfg, step.value.0, sender, origin, Append(out, step.value.1), i + 1);
        TicksTwice(w.s, step.value.0.s, SecondPass(cfg, w, sender, origin, out, i).value.0.s, origin.round);
      }
    }
  }

  lemma MessagesTick(cfg: Config, w: Work, sender: nat, origin: BlockID, msgs: seq<Message>)
    requires ProcessMessages(cfg, w, sender, origin, msgs).Ok?
    ensures Ticks(w.s, ProcessMessages(cfg, w, sender, origin, msgs).value.0.s, origin.round)
  {
    hide FirstPass, SecondPass, Ticks;
    var first := FirstPass(cfg, w, sender, origin, msgs, []);
    FirstTicks(cfg, w, sender, origin, msgs, []);
    SecondTicks(cfg, first.value.0, sender, origin, first.value.1, 0);
    TicksTwice(w.s, first.value.0.s, ProcessMessages(cfg, w, sender, origin, msgs).value.0.s, origin.round);
  }

  lemma {:induction false} DepsTick(cfg: Config, w: Work, origin: BlockID, deps: seq<BlockID>, out: seq<Message>)
    requires DepsPass(cfg, w, origin, deps, out).Ok?
    ensures Ticks(w.s, DepsPass(cfg, w, origin, deps, out).value.0.s, origin.round)
    decreases |deps|
  {
    hide ProcessMessages, Ticks;
    if deps == [] {
      TicksSelf(w.s, w.s, origin.round);
    } else {
      var msgs := OutputOf(w.g, deps[0]);
      MessagesTick(cfg, w, deps[0].node, origin, msgs);
      var (w', replies) := ProcessMessages(cfg, w, deps[0].node, origin, msgs).value;
      DepsTick(cfg, w', origin, deps[1..], out + replies);
      TicksTwice(w.s, w'.s, DepsPass(cfg, w, origin, deps, out).value.0.s, origin.round);
    }
  }

  // --- one block ---

  /** Where the timeouts of a block's state come from: its start, one for each peer, and one for each new view. */
  ghost predicate TimeoutsFromBlock(peers: seq<nat>, round: nat, start: State, end: State, views: seq<Timeout>) {
    forall r ::
      TimeoutsAt(end, r) ==
      TimeoutsAt(start, r)
      + (if r == (round + end.timeout) % U64_SIZE then PeerTimeouts(peers, round) else [])
      + (if r == (round + end.timeout + 5) % U64_SIZE then views else [])
  }

  /** The clock of a block, from the state that it started with. */
  ghost predicate Clocked(cfg: Config, e: Entry, start: State, end: State) {
    && DelaysAre(start.delay, e.block.round, e.deps, end.delay)
    && Timeouts.IsTimeout(end.delay, 2 * cfg.Faults(), end.timeout)
    && start.hnv <= end.hnv
    && exists views :: ForBallots(views, end.hnv - start.hnv)
         && TimeoutsFromBlock(cfg.peers, e.block.round, start, end, views)
  }
}
