/**
  Timeouts: in every run a timeout that is due for a round not yet delivered is for the view its slot is
  in or an earlier one, so that a slot changes its view by at most one per block and says so once.
 */
module Expiry {
  import opened Bytes
  import opened Ids
  import opened Outcomes
  import opened Protocol
  import opened Interpreter
  import opened Quorums
  import opened Runs
  import opened Consensus
  import Passes
  import Timeouts

  function SlotOf(t: Timeout): Slot {
    Slot(t.node, t.round)
  }

  // --- the timeouts that are due ---

  function About(msgs: seq<Message>, k: Slot): seq<Message> {
    if msgs == [] then []
    else About(msgs[..|msgs| - 1], k) + if msgs[|msgs| - 1].p.At() == k then [msgs[|msgs| - 1]] else []
  }

  lemma AboutPush(msgs: seq<Message>, m: Message, k: Slot)
    ensures About(msgs + [m], k) == About(msgs, k) + if m.p.At() == k then [m] else []
  {
    assert (msgs + [m])[..|msgs|] == msgs;
  }

  /** A due timeout is for the view that the slot is in. */
  ghost predicate Expires(s: State, due: seq<Timeout>, k: Slot) {
    exists t :: t in due && SlotOf(t) == k && t.view == ViewOf(s, k)
  }

  /** The view change of a block: to the next view, with what was prepared in this one. */
  function Change(s: State, me: nat, k: Slot): Message {
    var b := Ballot(k.node, k.round, ViewOf(s, k));
    ViewChange(Proposal(if b in s.prepared then s.prepared[b] else [], k.node, k.round, ViewOf(s, k) + 1), me)
  }

  /** No due timeout is ahead of its slot. */
  ghost predicate NotAhead(s: State, due: seq<Timeout>, k: Slot) {
    forall t | t in due && SlotOf(t) == k :: t.view <= ViewOf(s, k) && t.view + 1 < U32_SIZE
  }

  lemma SkippedTimeout(s: State, due: seq<Timeout>, k: Slot)
    requires due != [] && ViewOf(s, SlotOf(due[0])) > due[0].view && NotAhead(s, due, k)
    ensures NotAhead(s, due[1..], k) && (Expires(s, due, k) <==> Expires(s, due[1..], k))
  {
    assert due == [due[0]] + due[1..];
  }

  /** The state after a timeout has fired. */
  function Moved(s: State, t: Timeout): State {
    SetView(s, SlotOf(t), NextView(ViewOf(s, SlotOf(t))))
  }

  lemma FiredTimeout(s: State, me: nat, due: seq<Timeout>, k: Slot)
    requires due != [] && ViewOf(s, SlotOf(due[0])) <= due[0].view && NotAhead(s, due, k)
    ensures
      var s', rest := Moved(s, due[0]), due[1..];
      && NotAhead(s', rest, k) && s'.done == s.done
      && if SlotOf(due[0]) == k then
           && Expires(s, due, k) && !Expires(s', rest, k)
           && ViewOf(s', k) == ViewOf(s, k) + 1 && due[0].view == ViewOf(s, k)
           && NextView(due[0].view) == due[0].view + 1
         else
           && (Expires(s, due, k) <==> Expires(s', rest, k)) && ViewOf(s', k) == ViewOf(s, k)
           && Change(s', me, k) == Change(s, me, k)
  {
    assert due == [due[0]] + due[1..];
    SetViewSeen(s, SlotOf(due[0]), NextView(ViewOf(s, SlotOf(due[0]))));
    hide SetView;
    assert SlotOf(due[0]) == k ==> due[0] in due && due[0].view == ViewOf(s, k);
  }

  /**
    However many timeouts are due for a slot: its view rises by one, and one view change, to that view
    and with the hash prepared in the old one, is put out, if and only if one is for the current view.
   */
  lemma {:induction false} FireExact(s: State, me: nat, due: seq<Timeout>, out: seq<Message>, k: Slot)
    requires s.done == {} && NotAhead(s, due, k)
    ensures
      var (s', out') := FireTimeouts(s, me, due, out);
      && ViewOf(s', k) == ViewOf(s, k) + (if Expires(s, due, k) then 1 else 0)
      && About(out', k) == About(out, k) + (if Expires(s, due, k) then [Change(s, me, k)] else [])
    decreases |due|
  {
    hide Expires, NotAhead, About, SetView, NextView;
    if due == [] {
      NoneExpire(s, k);
    } else {
      var t := due[0];
      if ViewOf(s, SlotOf(t)) > t.view {
        SkippedTimeout(s, due, k);
        FireExact(s, me, due[1..], out, k);
      } else {
        var b := Ballot(t.node, t.round, t.view);
        var hash := if b in s.prepared then s.prepared[b] else [];
        var change := ViewChange(Proposal(hash, t.node, t.round, NextView(t.view)), me);
        FiredTimeout(s, me, due, k);
        AboutPush(out, change, k);
        hide Change;
        FireExact(Moved(s, t), me, due[1..], out + [change], k);
        FirstChange(s, me, t, change, k);
      }
    }
  }

  lemma NoneExpire(s: State, k: Slot)
    ensures !Expires(s, [], k)
  {
  }

  lemma FirstChange(s: State, me: nat, t: Timeout, change: Message, k: Slot)
    requires
      var b := Ballot(t.node, t.round, t.view);
      change == ViewChange(Proposal(if b in s.prepared then s.prepared[b] else [], t.node, t.round, NextView(t.view)),
        me)
    ensures SlotOf(t) == k && t.view == ViewOf(s, k) && NextView(t.view) == t.view + 1 ==> change == Change(s, me, k)
  {
  }

  /**
    The first of the due timeouts, in any state, ahead of its slot or not: if the slot is not beyond its view, the
    slot's view rises by one, modulo 2^32, and the view change is to the view after the timeout's, modulo 2^32,
    with the hash prepared in the timeout's.
   */
  lemma FireFirst(s: State, me: nat, due: seq<Timeout>, out: seq<Message>)
    requires due != []
    ensures
      var t, k := due[0], SlotOf(due[0]);
      var b := Ballot(t.node, t.round, t.view);
      if k in s.done || ViewOf(s, k) > t.view then
        FireTimeouts(s, me, due, out) == FireTimeouts(s, me, due[1..], out)
      else
        FireTimeouts(s, me, due, out) ==
        FireTimeouts(
          s.(view := s.view[k := (ViewOf(s, k) + 1) % 0x1_0000_0000]), me, due[1..],
          out + [ViewChange(Proposal(if b in s.prepared then s.prepared[b] else [], t.node, t.round,
            (t.view + 1) % 0x1_0000_0000), me)])
  {
    SetViewSeen(s, SlotOf(due[0]), NextView(ViewOf(s, SlotOf(due[0]))));
    hide SetView;
  }

  /** Nothing but views differ. */
  ghost predicate ViewsOnly(s: State, t: State) {
    t == s.(view := t.view)
  }

  lemma ViewsOnlyTwice(s: State, t: State, u: State)
    requires ViewsOnly(s, t) && ViewsOnly(t, u)
    ensures ViewsOnly(s, u)
  {
  }

  lemma ViewsOnlySelf(s: State, k: Slot, v: nat)
    ensures ViewsOnly(s, s) && ViewsOnly(s, SetView(s, k, v))
  {
  }

  /** Timeouts that fire change views only. */
  lemma {:induction false} FireKeepsRest(s: State, me: nat, due: seq<Timeout>, out: seq<Message>)
    ensures ViewsOnly(s, FireTimeouts(s, me, due, out).0)
    decreases |due|
  {
    hide ViewsOnly, SetView, NextView;
    if due == [] {
      ViewsOnlySelf(s, Slot(0, 0), 0);
    } else {
      var t := due[0];
      var v := if SlotOf(t) in s.view then s.view[SlotOf(t)] else 0;
      if SlotOf(t) in s.done || v > t.view {
        FireKeepsRest(s, me, due[1..], out);
      } else {
        var b := Ballot(t.node, t.round, t.view);
        var hash := if b in s.prepared then s.prepared[b] else [];
        var out' := out + [ViewChange(Proposal(hash, t.node, t.round, NextView(t.view)), me)];
        var u := SetView(s, SlotOf(t), NextView(v));
        FireKeepsRest(u, me, due[1..], out');
        ViewsOnlySelf(s, SlotOf(t), NextView(v));
        ViewsOnlyTwice(s, u, FireTimeouts(u, me, due[1..], out').0);
      }
    }
  }

  // --- the invariant ---

  /** Every timeout for a round from `low` on is for a view that its slot has reached. */
  ghost predicate Reached(s: State, low: nat) {
    forall r, t | r in s.timeouts && t in s.timeouts[r] && t.round >= low :: t.view <= ViewOf(s, SlotOf(t))
  }

  ghost predicate ViewsRise(s: State, t: State, low: nat) {
    forall k: Slot | k.round >= low :: ViewOf(s, k) <= ViewOf(t, k)
  }

  lemma ReachedRises(s: State, t: State, low: nat)
    requires Reached(s, low) && t.timeouts == s.timeouts && ViewsRise(s, t, low)
    ensures Reached(t, low)
  {
    forall r, x | r in t.timeouts && x in t.timeouts[r] && x.round >= low ensures x.view <= ViewOf(t, SlotOf(x)) {
      assert ViewOf(s, SlotOf(x)) <= ViewOf(t, SlotOf(x));
    }
  }

  lemma ReachedAdd(s: State, at: nat, ts: seq<Timeout>, low: nat)
    requires Reached(s, low) && forall t | t in ts :: t.view <= ViewOf(s, SlotOf(t))
    ensures Reached(AddTimeouts(s, at, ts), low)
  {
    var s' := AddTimeouts(s, at, ts);
    forall r, x | r in s'.timeouts && x in s'.timeouts[r] && x.round >= low ensures x.view <= ViewOf(s', SlotOf(x)) {
      if x !in ts {
        assert r in s.timeouts && x in s.timeouts[r];
      }
    }
  }

  /** A message other than a new view leaves the timeouts alone and lowers no view. */
  lemma QuietClock(s: State, h: Heap, quorum: nat, sender: nat, receiver: nat, origin: nat, msg: Message, low: nat)
    requires !msg.NewView? && Interpret(s, h, quorum, sender, receiver, origin, msg).Ok?
    ensures
      var t := Interpret(s, h, quorum, sender, receiver, origin, msg).value.s;
      t.timeouts == s.timeouts && ViewsRise(s, t, low)
  {
    hide Interpret, OnPrePrepare, OnPrepare, OnCommit, OnViewChange, TouchView, React;
    if msg.p.At() in s.done {
      AlreadyDone(s, h, quorum, sender, receiver, origin, msg);
    } else {
      Dispatch(s, h, quorum, sender, receiver, origin, msg);
      OkIsReact(s, h, quorum, sender, receiver, origin, msg);
      TouchSeen(s, msg.p.At());
      HandlersClock(TouchView(s, msg.p.At()), h, quorum, sender, receiver, msg);
    }
  }

  lemma HandlersClock(s: State, h: Heap, quorum: nat, sender: nat, receiver: nat, msg: Message)
    requires msg.p.At() in s.view
    ensures msg.PrePrepare? ==>
      var t := OnPrePrepare(s, h, sender, receiver, msg.p).s;
      t.timeouts == s.timeouts && t.view == s.view
    ensures msg.Prepare? ==>
      var t := OnPrepare(s, h, quorum, receiver, msg.p, msg.sender).s;
      t.timeouts == s.timeouts && t.view == s.view
    ensures msg.Commit? ==>
      var t := OnCommit(s, h, quorum, msg.p, msg.sender).s;
      t.timeouts == s.timeouts && t.view == s.view
    ensures msg.ViewChange? ==>
      var r := OnViewChange(s, h, quorum, receiver, msg.p, msg.sender);
      r.Ok? ==>
        var t := r.value.s;
        t.timeouts == s.timeouts && (t.view == s.view || (t.view == s.view[msg.p.At() := msg.p.view]
          && s.view[msg.p.At()] <= msg.p.view))
  {
    hide VotesFor, Exactly, ReportedHash, Read, Write, SetVotes, SetPrePrepared, SetPrepared, SetFinal, SetViewChanged,
      SetView;
    WritesClock(s, msg.p);
    ViewWritesClock(s, msg.p);
  }

  lemma WritesClock(s: State, p: Proposal)
    ensures forall b :: SetVotes(s, p, b).timeouts == s.timeouts && SetVotes(s, p, b).view == s.view
    ensures forall b ::
      SetPrePrepared(SetVotes(s, p, b), p).timeouts == s.timeouts && SetPrePrepared(SetVotes(s, p, b), p).view == s.view
    ensures forall b ::
      SetPrepared(SetVotes(s, p, b), p).timeouts == s.timeouts && SetPrepared(SetVotes(s, p, b), p).view == s.view
    ensures forall b ::
      SetFinal(SetVotes(s, p, b), p).timeouts == s.timeouts && SetFinal(SetVotes(s, p, b), p).view == s.view
  {
  }

  lemma ViewWritesClock(s: State, p: Proposal)
    ensures forall k, ref ::
      SetViewChanged(s, k, ref).timeouts == s.timeouts && SetViewChanged(s, k, ref).view == s.view
    ensures forall k, ref, v ::
      && SetView(SetViewChanged(s, k, ref), p.At(), v).timeouts == s.timeouts
      && SetView(SetViewChanged(s, k, ref), p.At(), v).view == s.view[p.At() := v]
  {
  }

  /** A new view sets a timeout only for the view that it moves the slot to. */
  lemma NewViewClock(s: State, h: Heap, origin: nat, p: Proposal, low: nat)
    requires Reached(s, low) && p.At() in s.view
    ensures Reached(OnNewView(s, h, origin, p).s, low)
  {
    hide Reached, Wrap64, SetView, SetNewView, AddTimeouts;
    if s.view[p.At()] <= p.view && p.Key() !in s.hnv {
      SetViewSeen(s, p.At(), p.view);
      SetNewViewSeen(SetView(s, p.At(), p.view), p.Key());
      var s' := SetNewView(SetView(s, p.At(), p.view), p.Key());
      ReachedRises(s, s', low);
      ReachedAdd(s', Wrap64(origin + s'.timeout + 5), [Timeout(p.node, p.round, p.view)], low);
    }
  }

  lemma InterpretReached(s: State, h: Heap, quorum: nat, sender: nat, receiver: nat, origin: nat, msg: Message,
                         low: nat)
    requires Reached(s, low) && Interpret(s, h, quorum, sender, receiver, origin, msg).Ok?
    ensures Reached(Interpret(s, h, quorum, sender, receiver, origin, msg).value.s, low)
  {
    hide Interpret, Reached, OnNewView, TouchView, React;
    if !msg.NewView? {
      QuietClock(s, h, quorum, sender, receiver, origin, msg, low);
      ReachedRises(s, Interpret(s, h, quorum, sender, receiver, origin, msg).value.s, low);
    } else if msg.p.At() in s.done {
      AlreadyDone(s, h, quorum, sender, receiver, origin, msg);
    } else {
      Dispatch(s, h, quorum, sender, receiver, origin, msg);
      OkIsReact(s, h, quorum, sender, receiver, origin, msg);
      TouchSeen(s, msg.p.At());
      ReachedRises(s, TouchView(s, msg.p.At()), low);
      NewViewClock(TouchView(s, msg.p.At()), h, origin, msg.p, low);
    }
  }

  // --- one block ---

  /** The round has not gone back, and the stored states are some of those before. */
  ghost predicate Shrinks(g: Graph, g': Graph) {
    g.round <= g'.round && forall b | b in g'.statess :: b in g.statess && g'.statess[b] == g.statess[b]
  }

  lemma {:induction false} DeliverRoundShrinks(cfg: Config, g: Graph, round: nat)
    requires round in g.resolved && DeliverRound(cfg, g, round).Ok?
    ensures Shrinks(g, DeliverRound(cfg, g, round).value)
    decreases |g.resolved|
  {
    hide Listing.ListingOf, PruneCount, PrunedIds, Wrap64;
    var g' := DeliverOne(g, round);
    if Full(cfg, g', round + 1) {
      assert g'.resolved.Keys == g.resolved.Keys - {round};
      DeliverRoundShrinks(cfg, g', round + 1);
    }
  }

  lemma DeliverShrinks(cfg: Config, g: Graph, k: Slot, hash: Hash)
    requires Deliver(cfg, g, k, hash).Ok?
    ensures Shrinks(g, Deliver(cfg, g, k, hash).value)
  {
    hide DeliverRound;
    if k.round >= g.round {
      var g' := Resolve(g, k, hash);
      if k.round == g.round && Full(cfg, g', k.round) {
        DeliverRoundShrinks(cfg, g', k.round);
      }
    }
  }

  lemma StepReached(cfg: Config, w: Work, sender: nat, origin: BlockID, msg: Message, low: nat)
    requires Reached(w.s, low) && StepMessage(cfg, w, sender, origin, msg).Ok?
    ensures
      var w' := StepMessage(cfg, w, sender, origin, msg).value.0;
      Reached(w'.s, low) && Shrinks(w.g, w'.g)
  {
    hide Interpret, Reached, Deliver;
    InterpretReached(w.s, w.g.heap, cfg.Quorum(), sender, origin.node, origin.round, msg, low);
    var r := Interpret(w.s, w.g.heap, cfg.Quorum(), sender, origin.node, origin.round, msg).value;
    if r.decided {
      DeliverShrinks(cfg, w.g.(heap := r.heap), msg.p.At(), msg.p.hash);
    }
  }

  lemma ShrinksTwice(a: Graph, b: Graph, c: Graph)
    requires Shrinks(a, b) && Shrinks(b, c)
    ensures Shrinks(a, c)
  {
  }

  lemma {:induction false} FirstPassReached(cfg: Config, w: Work, sender: nat, origin: BlockID, msgs: seq<Message>,
                                            out: seq<Message>, low: nat)
    requires Reached(w.s, low) && FirstPass(cfg, w, sender, origin, msgs, out).Ok?
    ensures
      var w' := FirstPass(cfg, w, sender, origin, msgs, out).value.0;
      Reached(w'.s, low) && Shrinks(w.g, w'.g)
    decreases |msgs|
  {
    hide StepMessage, Reached;
    if msgs != [] {
      if msgs[0] in w.processed {
        FirstPassReached(cfg, w, sender, origin, msgs[1..], out, low);
      } else {
        var step := StepMessage(cfg, w, sender, origin, msgs[0]);
        StepReached(cfg, w, sender, origin, msgs[0], low);
        FirstPassReached(cfg, step.value.0, sender, origin, msgs[1..], Append(out, step.value.1), low);
      }
    }
  }

  lemma {:induction false} SecondPassReached(cfg: Config, w: Work, sender: nat, origin: BlockID, out: seq<Message>,
                                             i: nat, low: nat)
    requires Reached(w.s, low) && i <= |out| && SecondPass(cfg, w, sender, origin, out, i).Ok?
    ensures
      var w' := SecondPass(cfg, w, sender, origin, out, i).value.0;
      Reached(w'.s, low) && Shrinks(w.g, w'.g)
    decreases Weight(out[i..]), |out| - i
  {
    hide StepMessage, Reached, Weight;
    if i < |out| {
      WeightStep(out, i);
      if out[i] in w.processed {
        SecondPassReached(cfg, w, sender, origin, out, i + 1, low);
      } else {
        var step := StepMessage(cfg, w, sender, origin, out[i]);
        StepReached(cfg, w, sender, origin, out[i], low);
        WeightFalls(cfg, w, sender, origin, out, i);
        SecondPassReached(cfg, step.value.0, sender, origin, Append(out, step.value.1), i + 1, low);
      }
    }
  }

  lemma MessagesReached(cfg: Config, w: Work, sender: nat, origin: BlockID, msgs: seq<Message>, low: nat)
    requires Reached(w.s, low) && ProcessMessages(cfg, w, sender, origin, msgs).Ok?
    ensures
      var w' := ProcessMessages(cfg, w, sender, origin, msgs).value.0;
      Reached(w'.s, low) && Shrinks(w.g, w'.g)
  {
    hide FirstPass, SecondPass, Reached;
    var first := FirstPass(cfg, w, sender, origin, msgs, []);
    FirstPassReached(cfg, w, sender, origin, msgs, [], low);
    SecondPassReached(cfg, first.value.0, sender, origin, first.value.1, 0, low);
  }

  lemma {:induction false} DepsReached(cfg: Config, w: Work, origin: BlockID, deps: seq<BlockID>, out: seq<Message>,
                                       low: nat)
    requires Reached(w.s, low) && DepsPass(cfg, w, origin, deps, out).Ok?
    ensures
      var w' := DepsPass(cfg, w, origin, deps, out).value.0;
      Reached(w'.s, low) && Shrinks(w.g, w'.g)
    decreases |deps|
  {
    hide ProcessMessages, Reached, Shrinks;
    if deps == [] {
      ShrinksSelf(w.g);
    } else {
      var msgs := OutputOf(w.g, deps[0]);
      MessagesReached(cfg, w, deps[0].node, origin, msgs, low);
      var (w', replies) := ProcessMessages(cfg, w, deps[0].node, origin, msgs).value;
      DepsReached(cfg, w', origin, deps[1..], out + replies, low);
      ShrinksTwice(w.g, w'.g, DepsPass(cfg, w, origin, deps, out).value.0.g);
    }
  }

  lemma ShrinksSelf(g: Graph)
    ensures Shrinks(g, g)
  {
  }

  /** No view of the state is about to wrap around. */
  ghost predicate ViewsBelow(s: State) {
    forall k | k in s.view :: s.view[k] + 1 < U32_SIZE
  }

  lemma CloneReached(s: State, low: nat)
    requires Reached(s, low) && ViewsBelow(s)
    ensures Reached(Clone(s, low), low) && ViewsBelow(Clone(s, low))
  {
    hide LiveMessages;
    var c := Clone(s, low);
    forall r, t | r in c.timeouts && t in c.timeouts[r] && t.round >= low ensures t.view <= ViewOf(c, SlotOf(t)) {
      assert r in s.timeouts && t in s.timeouts[r];
    }
  }

  lemma OpeningReached(cfg: Config, g: Graph, e: Entry, low: nat)
    requires Reached(FindOrCreate(g, e), low) && ViewsBelow(FindOrCreate(g, e)) && FindOrCreate(g, e).done == {}
    ensures Reached(Opening(cfg, g, e).0, low)
  {
    hide FindOrCreate, Reached, FireTimeouts, Timeouts.TimeoutValue, Delays, NewTimeouts, AddTimeouts, Wrap64;
    var start := FindOrCreate(g, e);
    var s := WithTimeouts(cfg, start, e);
    WithTimeoutsReached(cfg, start, e, low);
    var due := TimeoutsAt(s, e.block.round);
    var out := [PrePrepare(OwnProposal(e.block))];
    var s' := FireTimeouts(s, e.block.node, due, out).0;
    FireKeepsRest(s, e.block.node, due, out);
    forall k: Slot | k.round >= low ensures ViewOf(s, k) <= ViewOf(s', k) {
      DueNotAhead(s, e.block.round, k, low);
      FireExact(s, e.block.node, due, out, k);
    }
    ReachedRises(s, s', low);
  }

  lemma DueNotAhead(s: State, round: nat, k: Slot, low: nat)
    requires Reached(s, low) && ViewsBelow(s) && k.round >= low
    ensures NotAhead(s, TimeoutsAt(s, round), k)
  {
  }

  lemma WithTimeoutsReached(cfg: Config, s: State, e: Entry, low: nat)
    requires Reached(s, low)
    ensures var t := WithTimeouts(cfg, s, e); Reached(t, low) && t.view == s.view && t.done == s.done
  {
    hide Reached, Timeouts.TimeoutValue, Delays, AddTimeouts, Wrap64;
    var s' := s.(delay := Delays(s.delay, e.block.round, e.deps));
    var t := Timeouts.TimeoutValue(s'.delay, 2 * cfg.Faults());
    var s'' := s'.(timeout := t);
    ReachedRises(s, s'', low);
    ReachedAdd(s'', Wrap64(e.block.round + t), NewTimeouts(cfg.peers, e.block.round), low);
    AddTimeoutsSeen(s'', Wrap64(e.block.round + t), NewTimeouts(cfg.peers, e.block.round));
  }

  lemma AddTimeoutsSeen(s: State, at: nat, ts: seq<Timeout>)
    ensures var t := AddTimeouts(s, at, ts); t.view == s.view && t.done == s.done
  {
  }

  // --- runs ---

  ghost predicate StateReached(s: State, low: nat) {
    Reached(s, low) && ViewsBelow(s) && s.done == {}
  }

  ghost predicate AllReached(g: Graph) {
    forall b | b in g.statess :: StateReached(g.statess[b], g.round)
  }

  lemma StartReached(g: Graph, e: Entry)
    requires AllReached(g)
    ensures StateReached(FindOrCreate(g, e), g.round)
  {
    hide Clone, Reached, ViewsBelow;
    if e.prev.Valid() && e.prev in g.statess {
      CloneReached(g.statess[e.prev], g.round);
      CloneDone(g.statess[e.prev], g.round);
    } else {
      FreshReached(g.round);
    }
  }

  lemma CloneDone(s: State, low: nat)
    requires s.done == {}
    ensures Clone(s, low).done == {}
  {
  }

  lemma FreshReached(low: nat)
    ensures Reached(FRESH, low) && ViewsBelow(FRESH) && FRESH.done == {}
  {
  }

  lemma ReachedLater(s: State, low: nat, low': nat)
    requires Reached(s, low) && low <= low'
    ensures Reached(s, low')
  {
  }

  lemma ProcessReached(cfg: Config, g: Graph, e: Entry)
    requires AllReached(g) && Process(cfg, g, e).Ok?
    requires var s := Process(cfg, g, e).value.statess[e.block]; ViewsBelow(s) && s.done == {}
    ensures AllReached(Process(cfg, g, e).value)
  {
    hide Opening, ProcessMessages, DepsPass, Reached, ViewsBelow, FindOrCreate;
    StartReached(g, e);
    OpeningReached(cfg, g, e, g.round);
    var (s, opening) := Opening(cfg, g, e);
    MessagesReached(cfg, Work(g, s, {}), e.block.node, e.block, opening, g.round);
    var (w, replies) := ProcessMessages(cfg, Work(g, s, {}), e.block.node, e.block, opening).value;
    DepsReached(cfg, w, e.block, e.deps, opening + replies, g.round);
    var (w', out) := DepsPass(cfg, w, e.block, e.deps, opening + replies).value;
    ShrinksTwice(g, w.g, w'.g);
    OutAside(w'.s, out, g.round);
    var g' := Process(cfg, g, e).value;
    forall b | b in g'.statess ensures StateReached(g'.statess[b], g'.round) {
      ReachedLater(g'.statess[b], g.round, g'.round);
    }
  }

  lemma OutAside(s: State, out: seq<Message>, low: nat)
    requires Reached(s, low)
    ensures Reached(s.(out := out), low)
  {
    hide Reached;
    ReachedRises(s, s.(out := out), low);
  }

  lemma {:induction false} ProcessAllReached(cfg: Config, g: Graph, hist: seq<Record>, entries: seq<Entry>)
    requires AllReached(g) && ProcessAll(cfg, g, hist, entries).Ok?
    requires forall r | r in ProcessAll(cfg, g, hist, entries).value.1 :: ViewsBelow(r.end) && r.end.done == {}
    ensures AllReached(ProcessAll(cfg, g, hist, entries).value.0)
    decreases |entries|
  {
    hide Process, AllReached, ViewsBelow;
    if entries != [] {
      var e := entries[0];
      var g' := Process(cfg, g, e).value;
      var rec := Record(e.block, e.prev, FindOrCreate(g, e), g'.statess[e.block]);
      HistoryGrows(cfg, g', hist + [rec], entries[1..]);
      assert (hist + [rec])[|hist|] == rec;
      assert rec in ProcessAll(cfg, g, hist, entries).value.1;
      ProcessReached(cfg, g, e);
      ProcessAllReached(cfg, g', hist + [rec], entries[1..]);
    }
  }

  lemma {:induction false} HistoryGrows(cfg: Config, g: Graph, hist: seq<Record>, entries: seq<Entry>)
    requires ProcessAll(cfg, g, hist, entries).Ok?
    ensures forall r | r in hist :: r in ProcessAll(cfg, g, hist, entries).value.1
    decreases |entries|
  {
    hide Process, FindOrCreate;
    if entries != [] {
      var e := entries[0];
      var g' := Process(cfg, g, e).value;
      HistoryGrows(cfg, g', hist + [Record(e.block, e.prev, FindOrCreate(g, e), g'.statess[e.block])], entries[1..]);
    }
  }

  /** In every run that is short enough for views not to wrap around, all stored timeouts are in step. */
  lemma {:induction false} TimeoutsInStep(cfg: Config, inputs: seq<BlockGraph>, g: Graph, hist: seq<Record>)
    requires Reaches(cfg, inputs, g, hist) && |AllEntries(inputs)| + 1 < U32_SIZE
    ensures AllReached(g)
    decreases |inputs|
  {
    hide WellFormed, ProcessAll, AllReached, Admit, Entries;
    if inputs == [] {
      NothingStored(cfg);
    } else {
      var before := inputs[..|inputs| - 1];
      ShorterRun(cfg, inputs);
      var (g0, hist0) := RunAll(cfg, before).value;
      TimeoutsInStep(cfg, before, g0, hist0);
      AdmitReached(g0, inputs[|inputs| - 1]);
      forall r | r in hist ensures ViewsBelow(r.end) && r.end.done == {} {
        RecordBelow(cfg, inputs, g, hist, r);
      }
      ProcessAllReached(cfg, Admit(g0, inputs[|inputs| - 1]), hist0, Entries(inputs[|inputs| - 1]));
    }
  }

  lemma NothingStored(cfg: Config)
    ensures AllReached(Initial(cfg))
  {
  }

  lemma AdmitReached(g: Graph, bg: BlockGraph)
    requires AllReached(g)
    ensures AllReached(Admit(g, bg))
  {
    hide StateReached, MaxOver, RecordMax;
  }

  lemma ShorterRun(cfg: Config, inputs: seq<BlockGraph>)
    requires WellFormed(cfg, inputs) && inputs != [] && |AllEntries(inputs)| + 1 < U32_SIZE
    ensures WellFormed(cfg, inputs[..|inputs| - 1]) && |AllEntries(inputs[..|inputs| - 1])| + 1 < U32_SIZE
  {
    WellFormedPrefix(cfg, inputs);
  }

  lemma RecordBelow(cfg: Config, inputs: seq<BlockGraph>, g: Graph, hist: seq<Record>, r: Record)
    requires Reaches(cfg, inputs, g, hist) && |AllEntries(inputs)| + 1 < U32_SIZE && r in hist
    ensures ViewsBelow(r.end) && r.end.done == {}
  {
    hide RunAll, AllEntries, WellFormed, RunOk;
    var w := ReachedWorld(cfg, inputs, g, hist, PLAIN);
    RunHistory(w, g);
    var i :| 0 <= i < |hist| && hist[i] == r;
    HistoryAt(cfg.Quorum(), hist, i);
    hide Passes.History;
  }

  /**
    What the next block does about a slot of a round not yet delivered: its view rises by one, with one
    view change to it, if and only if a timeout for the current view is due; nothing else is said about it
    before messages are read, but for the block's own proposal.
   */
  lemma ExpiryExact(cfg: Config, inputs: seq<BlockGraph>, g: Graph, hist: seq<Record>, e: Entry, k: Slot)
    requires Reaches(cfg, inputs, g, hist) && |AllEntries(inputs)| + 1 < U32_SIZE && k.round >= g.round
    ensures
      var s := WithTimeouts(cfg, FindOrCreate(g, e), e);
      var (s', opening) := Opening(cfg, g, e);
      var own := PrePrepare(OwnProposal(e.block));
      var expires := Expires(s, TimeoutsAt(s, e.block.round), k);
      && ViewOf(s', k) == ViewOf(FindOrCreate(g, e), k) + (if expires then 1 else 0)
      && About(opening, k) == About([own], k) + (if expires then [Change(s, e.block.node, k)] else [])
  {
    hide Reaches, AllEntries, AllReached, Reached, FindOrCreate, WithTimeouts, FireTimeouts, ViewsBelow, About,
      Expires, NotAhead;
    TimeoutsInStep(cfg, inputs, g, hist);
    StartReached(g, e);
    var start := FindOrCreate(g, e);
    var s := WithTimeouts(cfg, start, e);
    WithTimeoutsReached(cfg, start, e, g.round);
    SameViews(start, s);
    DueNotAhead(s, e.block.round, k, g.round);
    FireExact(s, e.block.node, TimeoutsAt(s, e.block.round), [PrePrepare(OwnProposal(e.block))], k);
  }

  lemma SameViews(s: State, t: State)
    requires ViewsBelow(s) && t.view == s.view
    ensures ViewsBelow(t)
  {
  }
}
