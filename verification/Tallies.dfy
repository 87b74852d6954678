/**
  Young runs: no timeout is due yet, and too few nodes can have committed for a decision. The interpreter
  then leaves the graph alone but for the states, and slots do not interact: what a block does about one
  slot depends on the messages about that slot only.
 */
module Tallies {
  import opened Ids
  import opened Outcomes
  import opened Protocol
  import opened Interpreter
  import opened Quorums
  import opened Patience
  import opened Sets

  // --- no decisions ---

  /** The nodes whose votes a block can have seen, and those that can have committed. */
  datatype Group = Group(nodes: set<nat>, committers: set<nat>)

  /** Views have not changed, timeouts are for rounds after the tenth, and delays are short. */
  predicate Young(s: State) {
    && s.done == {}
    && (forall k | k in s.view :: s.view[k] == 0)
    && (forall r | r in s.timeouts :: r > 10)
    && Brief(10, s.delay)
  }

  predicate Few(c: Group, s: State) {
    forall p | p in s.bitsets :: s.bitsets[p].prepares <= c.nodes && s.bitsets[p].commits <= c.committers
  }

  predicate Plain(c: Group, m: Message) {
    m.p.view == 0 && match m
    case PrePrepare(_) => true
    case Prepare(_, x) => x in c.nodes
    case Commit(_, x) => x in c.committers
    case _ => false
  }

  predicate AllPlain(c: Group, msgs: seq<Message>) {
    forall m | m in msgs :: Plain(c, m)
  }

  /** Too few can commit for a decision, and the reader commits only if it is one of them. */
  predicate Fits(c: Group, quorum: nat, receiver: nat) {
    |c.committers| < quorum && receiver in c.nodes && (|c.nodes| < quorum || receiver in c.committers)
  }

  ghost predicate Harmless(c: Group, s: State, h: Heap, msg: Message, r: Reaction) {
    && r.heap == h && !r.decided && Young(r.s) && Few(c, r.s) && r.s.timeouts == s.timeouts
    && (r.reply.Some? ==> Plain(c, r.reply.value) && r.reply.value.p.At() == msg.p.At())
  }

  lemma VotesWithin(c: Group, s: State, p: Proposal)
    requires Few(c, s)
    ensures VotesFor(s, p).prepares <= c.nodes && VotesFor(s, p).commits <= c.committers
  {
  }

  lemma FewSet(c: Group, s: State, p: Proposal, b: Votes)
    requires Few(c, s) && b.prepares <= c.nodes && b.commits <= c.committers
    ensures Few(c, SetVotes(s, p, b))
  {
  }

  lemma YoungTouch(c: Group, s: State, k: Slot)
    requires Young(s) && Few(c, s) && k !in s.done
    ensures var t := TouchView(s, k); Young(t) && Few(c, t) && k in t.view && t.view[k] == 0 && t == s.(view := t.view)
  {
    hide TouchView;
    TouchSeen(s, k);
  }

  lemma ProposalHarmless(c: Group, s: State, h: Heap, sender: nat, receiver: nat, p: Proposal)
    requires Young(s) && Few(c, s) && p.view == 0 && p.At() in s.view && sender in c.nodes && receiver in c.nodes
    ensures Harmless(c, s, h, PrePrepare(p), OnPrePrepare(s, h, sender, receiver, p))
  {
    hide SetVotes, SetPrePrepared, VotesFor;
    var b := AddPrepare(AddPrepare(VotesFor(s, p), sender), receiver);
    VotesWithin(c, s, p);
    FewSet(c, s, p, b);
    SetVotesSeen(s, p, b);
    PrePreparedVotes(SetVotes(s, p, b), p);
  }

  lemma PrepareHarmless(c: Group, s: State, h: Heap, quorum: nat, receiver: nat, p: Proposal, x: nat)
    requires Young(s) && Few(c, s) && p.view == 0 && p.At() in s.view && x in c.nodes && Fits(c, quorum, receiver)
    ensures Harmless(c, s, h, Prepare(p, x), OnPrepare(s, h, quorum, receiver, p, x))
  {
    hide SetVotes, SetPrepared, VotesFor;
    var b := AddPrepare(VotesFor(s, p), x);
    var b' := AddCommit(b, receiver);
    VotesWithin(c, s, p);
    FewSet(c, s, p, b);
    SetVotesSeen(s, p, b);
    SetVotesSeen(s, p, b');
    SetPreparedSeen(SetVotes(s, p, b'), p);
    if Exactly(b.prepares, quorum) {
      CardinalityGrows(b.prepares, c.nodes);
      FewSet(c, s, p, b');
    }
  }

  lemma CommitHarmless(c: Group, s: State, h: Heap, quorum: nat, receiver: nat, p: Proposal, x: nat)
    requires Young(s) && Few(c, s) && p.view == 0 && p.At() in s.view && x in c.committers && Fits(c, quorum, receiver)
    ensures Harmless(c, s, h, Commit(p, x), OnCommit(s, h, quorum, p, x))
  {
    hide SetVotes, VotesFor;
    var b := AddCommit(VotesFor(s, p), x);
    VotesWithin(c, s, p);
    FewSet(c, s, p, b);
    SetVotesSeen(s, p, b);
    CardinalityGrows(b.commits, c.committers);
  }

  lemma StepHarmless(c: Group, s: State, h: Heap, quorum: nat, sender: nat, receiver: nat, origin: nat, m: Message)
    requires Young(s) && Few(c, s) && Plain(c, m) && sender in c.nodes && Fits(c, quorum, receiver)
    ensures
      var r := React(s, h, quorum, sender, receiver, origin, m);
      Interpret(s, h, quorum, sender, receiver, origin, m) == Ok(r) && Harmless(c, s, h, m, r)
  {
    hide Interpret, OnPrePrepare, OnPrepare, OnCommit, TouchView, Few, React, Fits;
    YoungTouch(c, s, m.p.At());
    Dispatch(s, h, quorum, sender, receiver, origin, m);
    OkIsReact(s, h, quorum, sender, receiver, origin, m);
    var t := TouchView(s, m.p.At());
    FitsReceiver(c, quorum, receiver);
    match m
    case PrePrepare(p) => ProposalHarmless(c, t, h, sender, receiver, p);
    case Prepare(p, x) => PrepareHarmless(c, t, h, quorum, receiver, p, x);
    case Commit(p, x) => CommitHarmless(c, t, h, quorum, receiver, p, x);
  }

  lemma FitsReceiver(c: Group, quorum: nat, receiver: nat)
    requires Fits(c, quorum, receiver)
    ensures receiver in c.nodes
  {
  }

  // --- one slot ---

  /** What a state says about a slot in view 0. */
  datatype Tally = Tally(chosen: Option<Proposal>, votes: map<Proposal, Votes>)

  const BLANK := Tally(None, map[])

  function Count(t: Tally, p: Proposal): Votes {
    if p in t.votes then t.votes[p] else NO_VOTES
  }

  function SlotBallot(k: Slot): Ballot {
    Ballot(k.node, k.round, 0)
  }

  ghost predicate Shows(s: State, k: Slot, t: Tally) {
    && t.chosen == (if SlotBallot(k) in s.prePrepared then Some(s.prePrepared[SlotBallot(k)]) else None)
    && forall p: Proposal | p.At() == k && p.view == 0 :: VotesFor(s, p) == Count(t, p)
  }

  function Mark(t: Tally, p: Proposal, b: Votes): Tally {
    t.(votes := t.votes[p := b])
  }

  /** The handlers, as far as one slot in view 0 is concerned. */
  function TallyStep(t: Tally, quorum: nat, sender: nat, receiver: nat, m: Message): (Tally, Option<Message>) {
    var b := Count(t, m.p);
    match m
    case PrePrepare(p) =>
      if t.chosen.Some? then (t, None)
      else (Mark(t, p, b.(prepares := b.prepares + {sender} + {receiver})).(chosen := Some(p)),
        Some(Prepare(p, receiver)))
    case Prepare(p, x) =>
      if |b.prepares + {x}| == quorum && receiver !in b.commits
      then (Mark(t, p, Votes(b.prepares + {x}, b.commits + {receiver})), Some(Commit(p, receiver)))
      else (Mark(t, p, b.(prepares := b.prepares + {x})), None)
    case Commit(p, x) => (Mark(t, p, b.(commits := b.commits + {x})), None)
    case _ => (t, None)
  }

  lemma ShowsTouch(s: State, k: Slot, t: Tally, j: Slot)
    requires Shows(s, k, t)
    ensures Shows(TouchView(s, j), k, t)
  {
    forall p: Proposal | p.At() == k && p.view == 0 ensures VotesFor(TouchView(s, j), p) == Count(t, p) {
      TouchVotes(s, j, p);
    }
    TouchSeen(s, j);
  }

  lemma ShowsVotes(s: State, k: Slot, t: Tally, p: Proposal, b: Votes)
    requires Shows(s, k, t) && p.view == 0
    ensures Shows(SetVotes(s, p, b), k, if p.At() == k then Mark(t, p, b) else t)
  {
    var s' := SetVotes(s, p, b);
    forall q: Proposal | q.At() == k && q.view == 0
      ensures VotesFor(s', q) == Count(if p.At() == k then Mark(t, p, b) else t, q)
    {
      assert VotesFor(s, q) == Count(t, q);
    }
  }

  lemma ShowsPrepared(s: State, k: Slot, t: Tally, p: Proposal)
    requires Shows(s, k, t)
    ensures Shows(SetPrepared(s, p), k, t)
  {
    forall q: Proposal | q.At() == k && q.view == 0 ensures VotesFor(SetPrepared(s, p), q) == Count(t, q) {
      assert VotesFor(s, q) == Count(t, q);
    }
  }

  lemma ShowsFinal(s: State, k: Slot, t: Tally, p: Proposal)
    requires Shows(s, k, t)
    ensures Shows(SetFinal(s, p), k, t)
  {
    forall q: Proposal | q.At() == k && q.view == 0 ensures VotesFor(SetFinal(s, p), q) == Count(t, q) {
      assert VotesFor(s, q) == Count(t, q);
    }
  }

  lemma ShowsChosen(s: State, k: Slot, t: Tally, p: Proposal)
    requires Shows(s, k, t) && p.view == 0
    ensures Shows(SetPrePrepared(s, p), k, if p.At() == k then t.(chosen := Some(p)) else t)
  {
    forall q: Proposal | q.At() == k && q.view == 0 ensures VotesFor(SetPrePrepared(s, p), q) == Count(t, q) {
      assert VotesFor(s, q) == Count(t, q);
    }
  }

  /** The reaction to a message about the slot is that of the tally; other messages do not touch it. */
  ghost predicate Tallied(r: Reaction, k: Slot, t: Tally, quorum: nat, sender: nat, receiver: nat, m: Message) {
    if m.p.At() == k then
      var (t', reply) := TallyStep(t, quorum, sender, receiver, m);
      Shows(r.s, k, t') && r.reply == reply
    else Shows(r.s, k, t) && (r.reply.Some? ==> r.reply.value.p.At() != k)
  }

  lemma ProposalTallied(s: State, h: Heap, quorum: nat, sender: nat, receiver: nat, p: Proposal, k: Slot, t: Tally)
    requires p.view == 0 && p.At() in s.view && s.view[p.At()] == 0 && Shows(s, k, t)
    ensures Tallied(OnPrePrepare(s, h, sender, receiver, p), k, t, quorum, sender, receiver, PrePrepare(p))
  {
    hide SetVotes, SetPrePrepared;
    var b := AddPrepare(AddPrepare(VotesFor(s, p), sender), receiver);
    ShowsVotes(s, k, t, p, b);
    ShowsChosen(SetVotes(s, p, b), k, if p.At() == k then Mark(t, p, b) else t, p);
    assert p.At() == k ==> VotesFor(s, p) == Count(t, p) && p.Key() == SlotBallot(k);
  }

  lemma PrepareTallied(s: State, h: Heap, quorum: nat, sender: nat, receiver: nat, p: Proposal, x: nat, k: Slot,
                       t: Tally)
    requires p.view == 0 && p.At() in s.view && s.view[p.At()] == 0 && Shows(s, k, t)
    ensures Tallied(OnPrepare(s, h, quorum, receiver, p, x), k, t, quorum, sender, receiver, Prepare(p, x))
  {
    hide SetVotes, SetPrepared;
    var b := AddPrepare(VotesFor(s, p), x);
    var b' := AddCommit(b, receiver);
    ShowsVotes(s, k, t, p, b);
    ShowsVotes(s, k, t, p, b');
    ShowsPrepared(SetVotes(s, p, b'), k, if p.At() == k then Mark(t, p, b') else t, p);
    assert p.At() == k ==> VotesFor(s, p) == Count(t, p);
  }

  lemma CommitTallied(s: State, h: Heap, quorum: nat, sender: nat, receiver: nat, p: Proposal, x: nat, k: Slot,
                      t: Tally)
    requires p.view == 0 && p.At() in s.view && s.view[p.At()] == 0 && Shows(s, k, t)
    ensures Tallied(OnCommit(s, h, quorum, p, x), k, t, quorum, sender, receiver, Commit(p, x))
  {
    hide SetVotes, SetFinal;
    var b := AddCommit(VotesFor(s, p), x);
    ShowsVotes(s, k, t, p, b);
    ShowsFinal(SetVotes(s, p, b), k, if p.At() == k then Mark(t, p, b) else t, p);
    assert p.At() == k ==> VotesFor(s, p) == Count(t, p);
  }

  lemma StepTallied(c: Group, s: State, h: Heap, quorum: nat, sender: nat, receiver: nat, origin: nat, m: Message,
                    k: Slot, t: Tally)
    requires Young(s) && Few(c, s) && Plain(c, m) && Shows(s, k, t)
    ensures Tallied(React(s, h, quorum, sender, receiver, origin, m), k, t, quorum, sender, receiver, m)
  {
    hide React, OnPrePrepare, OnPrepare, OnCommit, TouchView, Shows, Tallied;
    YoungTouch(c, s, m.p.At());
    ShowsTouch(s, k, t, m.p.At());
    Dispatch(s, h, quorum, sender, receiver, origin, m);
    var u := TouchView(s, m.p.At());
    match m
    case PrePrepare(p) => ProposalTallied(u, h, quorum, sender, receiver, p, k, t);
    case Prepare(p, x) => PrepareTallied(u, h, quorum, sender, receiver, p, x, k, t);
    case Commit(p, x) => CommitTallied(u, h, quorum, sender, receiver, p, x, k, t);
  }

  // --- the messages of one call of processMessages ---

  function At(msgs: seq<Message>, k: Slot): (r: seq<Message>)
    ensures forall m | m in r :: m in msgs && m.p.At() == k
  {
    if msgs == [] then []
    else At(msgs[..|msgs| - 1], k) + if msgs[|msgs| - 1].p.At() == k then [msgs[|msgs| - 1]] else []
  }

  lemma AtPush(msgs: seq<Message>, m: Message, k: Slot)
    ensures At(msgs + [m], k) == At(msgs, k) + if m.p.At() == k then [m] else []
  {
    assert (msgs + [m])[..|msgs|] == msgs;
  }

  lemma {:induction false} AtConcat(a: seq<Message>, b: seq<Message>, k: Slot)
    ensures At(a + b, k) == At(a, k) + At(b, k)
    decreases |b|
  {
    hide At;
    NoneAt(k);
    if b == [] {
      assert a + b == a && At(a, k) + [] == At(a, k);
    } else {
      var n := |b| - 1;
      var first, last := b[..n], b[n];
      var rest := if last.p.At() == k then [last] else [];
      assert b == first + [last];
      AtConcat(a, first, k);
      Regroup(a, first, [last]);
      AtPush(a + first, last, k);
      AtPush(first, last, k);
      Regroup(At(a, k), At(first, k), rest);
    }
  }

  lemma Regroup(a: seq<Message>, b: seq<Message>, c: seq<Message>)
    ensures (a + b) + c == a + (b + c)
  {
  }

  lemma AtFirst(msgs: seq<Message>, k: Slot)
    requires msgs != []
    ensures At(msgs, k) == (if msgs[0].p.At() == k then [msgs[0]] else []) + At(msgs[1..], k)
  {
    assert msgs == [msgs[0]] + msgs[1..];
    AtConcat([msgs[0]], msgs[1..], k);
    AtPush([], msgs[0], k);
    assert [] + [msgs[0]] == [msgs[0]];
  }

  /** A tally, the messages about the slot that have been read, and the replies so far. */
  datatype Pass = Pass(t: Tally, seen: set<Message>, out: seq<Message>)

  /** One message of a pass. */
  function PassStep(s: Pass, quorum: nat, sender: nat, receiver: nat, m: Message): Pass {
    if m in s.seen then s
    else
      var (t, reply) := TallyStep(s.t, quorum, sender, receiver, m);
      Pass(t, s.seen + {m}, Append(s.out, reply))
  }

  function GivenPass(s: Pass, quorum: nat, sender: nat, receiver: nat, msgs: seq<Message>): Pass
    decreases |msgs|
  {
    if msgs == [] then s
    else GivenPass(PassStep(s, quorum, sender, receiver, msgs[0]), quorum, sender, receiver, msgs[1..])
  }

  lemma StepRank(t: Tally, quorum: nat, sender: nat, receiver: nat, m: Message)
    ensures
      var reply := TallyStep(t, quorum, sender, receiver, m).1;
      reply.Some? ==> Rank(reply.value) + 1 == Rank(m) && reply.value.p == m.p
  {
  }

  lemma ReplyWeight(s: Pass, quorum: nat, sender: nat, receiver: nat, i: nat)
    requires i < |s.out|
    ensures
      var s' := PassStep(s, quorum, sender, receiver, s.out[i]);
      i < |s'.out| && Weight(s'.out[i + 1..]) < Weight(s.out[i..])
  {
    WeightStep(s.out, i);
    var m := s.out[i];
    if m !in s.seen {
      var reply := TallyStep(s.t, quorum, sender, receiver, m).1;
      StepRank(s.t, quorum, sender, receiver, m);
      hide TallyStep;
      if reply.Some? {
        assert Append(s.out, reply)[i + 1..] == s.out[i..][1..] + [reply.value];
        WeightAppend(s.out[i..][1..], [reply.value]);
      }
    }
  }

  function ReplyPass(s: Pass, quorum: nat, sender: nat, receiver: nat, i: nat): Pass
    requires i <= |s.out|
    decreases Weight(s.out[i..])
  {
    if i == |s.out| then s
    else
      ReplyWeight(s, quorum, sender, receiver, i);
      ReplyPass(PassStep(s, quorum, sender, receiver, s.out[i]), quorum, sender, receiver, i + 1)
  }

  /** processMessages for one slot: the replies are new. */
  function SlotPass(t: Tally, seen: set<Message>, quorum: nat, sender: nat, receiver: nat, msgs: seq<Message>): Pass {
    ReplyPass(GivenPass(Pass(t, seen, []), quorum, sender, receiver, msgs), quorum, sender, receiver, 0)
  }

  function SeenAt(seen: set<Message>, k: Slot): set<Message> {
    set m | m in seen && m.p.At() == k
  }

  /** The work on a block agrees with a pass over one slot. */
  ghost predicate Follows(c: Group, w: Work, out: seq<Message>, k: Slot, s: Pass) {
    && Young(w.s) && Few(c, w.s) && AllPlain(c, out)
    && Shows(w.s, k, s.t) && SeenAt(w.processed, k) == s.seen && At(out, k) == s.out
  }

  lemma StepFollows(cfg: Config, c: Group, w: Work, sender: nat, origin: BlockID, m: Message, out: seq<Message>,
                    k: Slot, s: Pass)
    requires Follows(c, w, out, k, s) && Plain(c, m) && sender in c.nodes && Fits(c, cfg.Quorum(), origin.node)
    requires m !in w.processed
    ensures
      var r := StepMessage(cfg, w, sender, origin, m);
      && r.Ok? && r.value.0.g == w.g && r.value.0.s.timeouts == w.s.timeouts
      && Follows(c, r.value.0, Append(out, r.value.1), k, if m.p.At() == k
        then PassStep(s, cfg.Quorum(), sender, origin.node, m) else s)
  {
    hide Interpret, StepMessage, Young, Few, Shows, TallyStep, React, Fits, Plain, At, SeenAt;
    PlainKind(c, m);
    StepHarmless(c, w.s, w.g.heap, cfg.Quorum(), sender, origin.node, origin.round, m);
    StepTallied(c, w.s, w.g.heap, cfg.Quorum(), sender, origin.node, origin.round, m, k, s.t);
    var r := React(w.s, w.g.heap, cfg.Quorum(), sender, origin.node, origin.round, m);
    StepValue(cfg, w, sender, origin, m, r);
    if r.reply.Some? {
      AtPush(out, r.reply.value, k);
    }
    SeenPush(w.processed, m, k);
  }

  lemma PlainKind(c: Group, m: Message)
    requires Plain(c, m)
    ensures !m.ViewChange? && !m.NewView?
  {
  }

  lemma StepValue(cfg: Config, w: Work, sender: nat, origin: BlockID, m: Message, r: Reaction)
    requires Interpret(w.s, w.g.heap, cfg.Quorum(), sender, origin.node, origin.round, m) == Ok(r) && !r.decided
    requires r.heap == w.g.heap
    ensures StepMessage(cfg, w, sender, origin, m) == Ok((Work(w.g, r.s, w.processed + {m}), r.reply))
  {
    hide Interpret, Deliver;
    assert w.g.(heap := r.heap) == w.g;
  }

  lemma SeenPush(seen: set<Message>, m: Message, k: Slot)
    ensures SeenAt(seen + {m}, k) == SeenAt(seen, k) + if m.p.At() == k then {m} else {}
    ensures m.p.At() == k ==> (m in SeenAt(seen, k) <==> m in seen)
  {
  }

  lemma {:induction false} FirstFollows(cfg: Config, c: Group, w: Work, sender: nat, origin: BlockID,
                                        msgs: seq<Message>, out: seq<Message>, k: Slot, s: Pass)
    requires Follows(c, w, out, k, s) && AllPlain(c, msgs) && sender in c.nodes && Fits(c, cfg.Quorum(), origin.node)
    ensures
      var r := FirstPass(cfg, w, sender, origin, msgs, out);
      && r.Ok? && r.value.0.g == w.g && r.value.0.s.timeouts == w.s.timeouts
      && Follows(c, r.value.0, r.value.1, k, GivenPass(s, cfg.Quorum(), sender, origin.node, At(msgs, k)))
    decreases |msgs|
  {
    hide StepMessage, Follows, PassStep, At, Fits, Plain;
    if msgs == [] {
      NoneAt(k);
    } else {
      var m := msgs[0];
      AtFirst(msgs, k);
      var q := cfg.Quorum();
      var s' := if m.p.At() == k then PassStep(s, q, sender, origin.node, m) else s;
      if m.p.At() == k {
        assert ([m] + At(msgs[1..], k))[0] == m && ([m] + At(msgs[1..], k))[1..] == At(msgs[1..], k);
      } else {
        assert [] + At(msgs[1..], k) == At(msgs[1..], k);
      }
      if m in w.processed {
        SeenBefore(c, w, out, k, s, q, sender, origin.node, m);
        FirstFollows(cfg, c, w, sender, origin, msgs[1..], out, k, s);
      } else {
        StepFollows(cfg, c, w, sender, origin, m, out, k, s);
        var r := StepMessage(cfg, w, sender, origin, m).value;
        FirstFollows(cfg, c, r.0, sender, origin, msgs[1..], Append(out, r.1), k, s');
      }
    }
  }

  lemma NoneAt(k: Slot)
    ensures At([], k) == []
  {
  }

  lemma SeenBefore(c: Group, w: Work, out: seq<Message>, k: Slot, s: Pass, quorum: nat, sender: nat, receiver: nat,
                   m: Message)
    requires Follows(c, w, out, k, s) && m in w.processed
    ensures m.p.At() == k ==> PassStep(s, quorum, sender, receiver, m) == s
  {
    hide Young, Few, Shows, At;
  }

  lemma {:induction false} SecondFollows(cfg: Config, c: Group, w: Work, sender: nat, origin: BlockID,
                                         out: seq<Message>, i: nat, k: Slot, s: Pass)
    requires i <= |out| && Follows(c, w, out, k, s) && sender in c.nodes && Fits(c, cfg.Quorum(), origin.node)
    requires |At(out[..i], k)| <= |s.out|
    ensures
      var r := SecondPass(cfg, w, sender, origin, out, i);
      && r.Ok? && r.value.0.g == w.g && r.value.0.s.timeouts == w.s.timeouts
      && Follows(c, r.value.0, r.value.1, k, ReplyPass(s, cfg.Quorum(), sender, origin.node, |At(out[..i], k)|))
    decreases Weight(out[i..]), |out| - i
  {
    hide StepMessage, Follows, PassStep, At, Fits, Plain, Weight;
    var q, x := cfg.Quorum(), origin.node;
    var j := |At(out[..i], k)|;
    AtParts(c, w, out, i, k, s);
    if i < |out| {
      WeightStep(out, i);
      var m := out[i];
      OutIsPlain(c, w, out, k, s, i);
      assert out[..i + 1] == out[..i] + [m];
      AtPush(out[..i], m, k);
      var s' := if m.p.At() == k then PassStep(s, q, sender, x, m) else s;
      if m in w.processed {
        SeenBefore(c, w, out, k, s, q, sender, x, m);
        SecondFollows(cfg, c, w, sender, origin, out, i + 1, k, s);
      } else {
        StepFollows(cfg, c, w, sender, origin, m, out, k, s);
        WeightFalls(cfg, w, sender, origin, out, i);
        var r := StepMessage(cfg, w, sender, origin, m).value;
        var out' := Append(out, r.1);
        assert out'[..i + 1] == out[..i + 1];
        OutGrows(s, q, sender, x, m);
        SecondFollows(cfg, c, r.0, sender, origin, out', i + 1, k, s');
      }
    }
  }

  lemma OutGrows(s: Pass, quorum: nat, sender: nat, receiver: nat, m: Message)
    ensures s.out <= PassStep(s, quorum, sender, receiver, m).out
  {
    hide TallyStep;
  }

  lemma OutIsPlain(c: Group, w: Work, out: seq<Message>, k: Slot, s: Pass, i: nat)
    requires Follows(c, w, out, k, s) && i < |out|
    ensures Plain(c, out[i])
  {
    hide Young, Few, Shows, At, Plain;
  }

  /** The reply that is read next, if it is about the slot. */
  lemma AtParts(c: Group, w: Work, out: seq<Message>, i: nat, k: Slot, s: Pass)
    requires Follows(c, w, out, k, s) && i <= |out|
    ensures
      var j := |At(out[..i], k)|;
      && j <= |s.out|
      && (i == |out| ==> j == |s.out|)
      && (i < |out| && out[i].p.At() == k ==> j < |s.out| && s.out[j] == out[i])
  {
    hide Young, Few, Shows, At, AllPlain, SeenAt;
    assert out == out[..i] + out[i..];
    AtConcat(out[..i], out[i..], k);
    if i == |out| {
      NoneAt(k);
      assert out[i..] == [];
    } else {
      AtFirst(out[i..], k);
    }
  }

  /** processMessages: on one slot it is the pass over that slot, and nothing else happens to the graph. */
  lemma MessagesFollow(cfg: Config, c: Group, w: Work, sender: nat, origin: BlockID, msgs: seq<Message>, k: Slot,
                       t: Tally)
    requires Young(w.s) && Few(c, w.s) && Shows(w.s, k, t) && AllPlain(c, msgs)
    requires sender in c.nodes && Fits(c, cfg.Quorum(), origin.node)
    ensures
      var r := ProcessMessages(cfg, w, sender, origin, msgs);
      && r.Ok? && r.value.0.g == w.g && r.value.0.s.timeouts == w.s.timeouts
      && Follows(c, r.value.0, r.value.1, k, SlotPass(t, SeenAt(w.processed, k), cfg.Quorum(), sender, origin.node,
        At(msgs, k)))
  {
    hide FirstPass, SecondPass, GivenPass, ReplyPass, Young, Few, Shows, Fits;
    var s := Pass(t, SeenAt(w.processed, k), []);
    NoneAt(k);
    FirstFollows(cfg, c, w, sender, origin, msgs, [], k, s);
    var (w1, out) := FirstPass(cfg, w, sender, origin, msgs, []).value;
    var s1 := GivenPass(s, cfg.Quorum(), sender, origin.node, At(msgs, k));
    assert out[..0] == [];
    SecondFollows(cfg, c, w1, sender, origin, out, 0, k, s1);
  }

  // --- a block ---

  /** What a link says about the slot. */
  datatype Read = Read(sender: nat, msgs: seq<Message>)

  function Reads(g: Graph, deps: seq<BlockID>, k: Slot): (r: seq<Read>)
    ensures |r| == |deps| && forall i | 0 <= i < |deps| :: r[i] == Read(deps[i].node, At(OutputOf(g, deps[i]), k))
  {
    seq(|deps|, i requires 0 <= i < |deps| => Read(deps[i].node, At(OutputOf(g, deps[i]), k)))
  }

  function ReadPass(s: Pass, quorum: nat, receiver: nat, links: seq<Read>): Pass
    decreases |links|
  {
    if links == [] then s
    else
      var p := SlotPass(s.t, s.seen, quorum, links[0].sender, receiver, links[0].msgs);
      ReadPass(Pass(p.t, p.seen, s.out + p.out), quorum, receiver, links[1..])
  }

  /** Links that are stored are of nodes of the group, and have put out plain messages. */
  ghost predicate Readable(c: Group, g: Graph, d: BlockID) {
    OutputOf(g, d) == [] || (d.node in c.nodes && AllPlain(c, OutputOf(g, d)))
  }

  lemma {:induction false} DepsFollow(cfg: Config, c: Group, w: Work, origin: BlockID, deps: seq<BlockID>,
                                      out: seq<Message>, k: Slot, s: Pass)
    requires Follows(c, w, out, k, s) && Fits(c, cfg.Quorum(), origin.node)
    requires forall d | d in deps :: Readable(c, w.g, d)
    ensures
      var r := DepsPass(cfg, w, origin, deps, out);
      && r.Ok? && r.value.0.g == w.g && r.value.0.s.timeouts == w.s.timeouts
      && Follows(c, r.value.0, r.value.1, k, ReadPass(s, cfg.Quorum(), origin.node, Reads(w.g, deps, k)))
    decreases |deps|
  {
    hide ProcessMessages, SlotPass, Follows, Fits, At, OutputOf;
    if deps != [] {
      var d, q, x := deps[0], cfg.Quorum(), origin.node;
      var links := Reads(w.g, deps, k);
      var msgs := OutputOf(w.g, d);
      assert links[1..] == Reads(w.g, deps[1..], k);
      assert Readable(c, w.g, d);
      OneDepFollows(cfg, c, w, d.node, origin, msgs, out, k, s);
      var (w', replies) := ProcessMessages(cfg, w, d.node, origin, msgs).value;
      var p := SlotPass(s.t, s.seen, q, d.node, x, At(msgs, k));
      DepsFollow(cfg, c, w', origin, deps[1..], out + replies, k, Pass(p.t, p.seen, s.out + p.out));
    }
  }

  lemma OneDepFollows(cfg: Config, c: Group, w: Work, sender: nat, origin: BlockID, msgs: seq<Message>,
                      out: seq<Message>, k: Slot, s: Pass)
    requires Follows(c, w, out, k, s) && Fits(c, cfg.Quorum(), origin.node)
    requires msgs == [] || (sender in c.nodes && AllPlain(c, msgs))
    ensures
      var r := ProcessMessages(cfg, w, sender, origin, msgs);
      var p := SlotPass(s.t, s.seen, cfg.Quorum(), sender, origin.node, At(msgs, k));
      && r.Ok? && r.value.0.g == w.g && r.value.0.s.timeouts == w.s.timeouts
      && Follows(c, r.value.0, out + r.value.1, k, Pass(p.t, p.seen, s.out + p.out))
  {
    hide FirstPass, SecondPass, Young, Few, Shows, Fits, At, SeenAt, Plain;
    if msgs == [] {
      NoneAt(k);
      NothingToRead(cfg, w, sender, origin);
      assert out + [] == out && s.out + [] == s.out;
    } else {
      hide SlotPass;
      MessagesFollow(cfg, c, w, sender, origin, msgs, k, s.t);
      AtConcat(out, ProcessMessages(cfg, w, sender, origin, msgs).value.1, k);
    }
  }

  lemma NothingToRead(cfg: Config, w: Work, sender: nat, origin: BlockID)
    ensures ProcessMessages(cfg, w, sender, origin, []) == Ok((w, []))
  {
  }

  /** What a block does about one slot before it reads its links, and all that it does. */
  function OwnPass(t: Tally, quorum: nat, b: BlockID, k: Slot): Pass {
    var own := if Slot(b.node, b.round) == k then [PrePrepare(OwnProposal(b))] else [];
    var p := SlotPass(t, {}, quorum, b.node, b.node, own);
    Pass(p.t, p.seen, own + p.out)
  }

  function SlotBlock(t: Tally, quorum: nat, b: BlockID, k: Slot, links: seq<Read>): Pass {
    ReadPass(OwnPass(t, quorum, b, k), quorum, b.node, links)
  }

  /** In the first ten rounds no timeout is due: a block opens with its own proposal. */
  lemma OpeningIsPlain(cfg: Config, c: Group, g: Graph, e: Entry, k: Slot, t: Tally)
    requires Young(FindOrCreate(g, e)) && Few(c, FindOrCreate(g, e)) && Shows(FindOrCreate(g, e), k, t)
    requires 1 <= e.block.round <= 10 && forall d | d in e.deps :: d.round <= 10
    ensures
      var (s, opening) := Opening(cfg, g, e);
      Young(s) && Few(c, s) && Shows(s, k, t) && opening == [PrePrepare(OwnProposal(e.block))]
  {
    hide FindOrCreate, Few, Shows, Young, WithTimeouts;
    var start := FindOrCreate(g, e);
    var s := WithTimeouts(cfg, start, e);
    TimeoutsAreLate(cfg, start, e);
    ShowsSame(c, start, s, k, t);
  }

  lemma TimeoutsAreLate(cfg: Config, start: State, e: Entry)
    requires Young(start) && 1 <= e.block.round <= 10 && forall d | d in e.deps :: d.round <= 10
    ensures
      var s := WithTimeouts(cfg, start, e);
      Young(s) && s.bitsets == start.bitsets && s.prePrepared == start.prePrepared && TimeoutsAt(s, e.block.round) == []
  {
    hide WithTimeouts, Brief;
    NothingDue(1, 10, cfg, start, e);
  }

  lemma ShowsSame(c: Group, s: State, s': State, k: Slot, t: Tally)
    requires Few(c, s) && Shows(s, k, t) && s'.bitsets == s.bitsets && s'.prePrepared == s.prePrepared
    ensures Few(c, s') && Shows(s', k, t)
  {
    forall p: Proposal | p.At() == k && p.view == 0 ensures VotesFor(s', p) == Count(t, p) {
      assert VotesFor(s, p) == Count(t, p);
    }
  }

  /** What is known of a block once it has been interpreted. */
  ghost predicate Stands(c: Group, s: State, k: Slot, t: Tally, out: seq<Message>) {
    Young(s) && Few(c, s) && AllPlain(c, s.out) && Shows(s, k, t) && At(s.out, k) == out
  }

  /** The work on a block once its own messages and its first n links are read. */
  ghost predicate PartWay(cfg: Config, g: Graph, e: Entry, n: nat, w: Work, out: seq<Message>) {
    var (s, opening) := Opening(cfg, g, e);
    var r := ProcessMessages(cfg, Work(g, s, {}), e.block.node, e.block, opening);
    n <= |e.deps| && r.Ok? && DepsPass(cfg, r.value.0, e.block, e.deps[..n], opening + r.value.1) == Ok((w, out))
  }

  lemma OwnFollows(cfg: Config, c: Group, g: Graph, e: Entry, k: Slot, t: Tally)
    requires Young(FindOrCreate(g, e)) && Few(c, FindOrCreate(g, e)) && Shows(FindOrCreate(g, e), k, t)
    requires 1 <= e.block.round <= 10 && (forall d | d in e.deps :: d.round <= 10)
    requires Fits(c, cfg.Quorum(), e.block.node)
    ensures
      var (s, opening) := Opening(cfg, g, e);
      var r := ProcessMessages(cfg, Work(g, s, {}), e.block.node, e.block, opening);
      r.Ok? && r.value.0.g == g && Follows(c, r.value.0, opening + r.value.1, k, OwnPass(t, cfg.Quorum(), e.block, k))
  {
    hide FindOrCreate, Opening, ProcessMessages, Young, Few, Shows, SlotPass, At;
    OpeningIsPlain(cfg, c, g, e, k, t);
    var (s, opening) := Opening(cfg, g, e);
    FitsReceiver(c, cfg.Quorum(), e.block.node);
    NoneAt(k);
    AtPush([], opening[0], k);
    assert [] + opening == opening && [] + [opening[0]] == opening;
    hide Fits;
    MessagesFollow(cfg, c, Work(g, s, {}), e.block.node, e.block, opening, k, t);
    assert SeenAt({}, k) == {};
    AtConcat(opening, ProcessMessages(cfg, Work(g, s, {}), e.block.node, e.block, opening).value.1, k);
  }

  /** Part of the way through its links, the work agrees with the pass over the slot so far. */
  lemma PartFollows(cfg: Config, c: Group, g: Graph, e: Entry, k: Slot, t: Tally, n: nat)
    returns (w: Work, out: seq<Message>)
    requires Young(FindOrCreate(g, e)) && Few(c, FindOrCreate(g, e)) && Shows(FindOrCreate(g, e), k, t) && n <= |e.deps|
    requires 1 <= e.block.round <= 10 && (forall d | d in e.deps :: d.round <= 10 && Readable(c, g, d))
    requires Fits(c, cfg.Quorum(), e.block.node)
    ensures PartWay(cfg, g, e, n, w, out) && w.g == g
    ensures Follows(c, w, out, k, SlotBlock(t, cfg.Quorum(), e.block, k, Reads(g, e.deps[..n], k)))
  {
    hide FindOrCreate, Opening, ProcessMessages, DepsPass, Young, Few, Shows, OwnPass, ReadPass, At, Reads, Readable,
      Fits, Follows;
    OwnFollows(cfg, c, g, e, k, t);
    var (s, opening) := Opening(cfg, g, e);
    var (w0, replies) := ProcessMessages(cfg, Work(g, s, {}), e.block.node, e.block, opening).value;
    DepsFollow(cfg, c, w0, e.block, e.deps[..n], opening + replies, k, OwnPass(t, cfg.Quorum(), e.block, k));
    var (w', out') := DepsPass(cfg, w0, e.block, e.deps[..n], opening + replies).value;
    w, out := w', out';
  }

  /** process: only the state of the block is new, and about one slot it does what the tally says. */
  lemma BlockFollows(cfg: Config, c: Group, g: Graph, e: Entry, k: Slot, t: Tally)
    requires Young(FindOrCreate(g, e)) && Few(c, FindOrCreate(g, e)) && Shows(FindOrCreate(g, e), k, t)
    requires 1 <= e.block.round <= 10 && (forall d | d in e.deps :: d.round <= 10 && Readable(c, g, d))
    requires Fits(c, cfg.Quorum(), e.block.node)
    ensures
      var r := Process(cfg, g, e);
      var p := SlotBlock(t, cfg.Quorum(), e.block, k, Reads(g, e.deps, k));
      && r.Ok? && e.block in r.value.statess
      && r.value == g.(statess := g.statess[e.block := r.value.statess[e.block]])
      && Stands(c, r.value.statess[e.block], k, p.t, p.out)
  {
    hide FindOrCreate, Opening, ProcessMessages, DepsPass, Young, Few, Shows, SlotBlock, At, Reads, Readable, Fits;
    assert e.deps[..|e.deps|] == e.deps;
    var w, out := PartFollows(cfg, c, g, e, k, t, |e.deps|);
    OutStands(c, w.s, out, k, SlotBlock(t, cfg.Quorum(), e.block, k, Reads(g, e.deps, k)).t);
  }

  lemma OutStands(c: Group, s: State, out: seq<Message>, k: Slot, t: Tally)
    requires Young(s) && Few(c, s) && Shows(s, k, t)
    ensures var u := s.(out := out); Young(u) && Few(c, u) && Shows(u, k, t)
  {
    ShowsSame(c, s, s.(out := out), k, t);
  }

  /** A fresh state, and a clone, for a slot that is not dropped. */
  lemma FreshStands(c: Group, k: Slot)
    ensures Young(FRESH) && Few(c, FRESH) && Shows(FRESH, k, BLANK)
  {
  }

  lemma CloneStands(c: Group, s: State, low: nat, k: Slot, t: Tally)
    requires Young(s) && Few(c, s) && Shows(s, k, t) && k.round >= low
    ensures var u := Clone(s, low); Young(u) && Few(c, u) && Shows(u, k, t)
  {
    hide LiveMessages;
    var u := Clone(s, low);
    forall p: Proposal | p.At() == k && p.view == 0 ensures VotesFor(u, p) == Count(t, p) {
      assert VotesFor(s, p) == Count(t, p);
    }
  }

  /** Larger groups. */
  lemma Wider(c: Group, c': Group, s: State, k: Slot, t: Tally, out: seq<Message>)
    requires Stands(c, s, k, t, out) && c.nodes <= c'.nodes && c.committers <= c'.committers
    ensures Stands(c', s, k, t, out)
  {
    hide Shows, Young, At;
    forall p | p in s.bitsets ensures s.bitsets[p].prepares <= c'.nodes && s.bitsets[p].commits <= c'.committers {
      assert s.bitsets[p].prepares <= c.nodes;
    }
  }

  // --- what the passes come to ---

  /** A block's own proposal. */
  lemma ProposalMade(quorum: nat, p: Proposal, x: nat)
    requires quorum >= 2
    ensures
      SlotPass(BLANK, {}, quorum, x, x, [PrePrepare(p)])
      == Pass(Tally(Some(p), map[p := Votes({x}, {})]), {PrePrepare(p), Prepare(p, x)}, [Prepare(p, x)])
  {
    var s := Pass(BLANK, {}, []);
    var t := Tally(Some(p), map[p := Votes({x}, {})]);
    var a := Pass(t, {PrePrepare(p)}, [Prepare(p, x)]);
    assert {} + {x} + {x} == {x} && [] + [Prepare(p, x)] == [Prepare(p, x)] && {} + {PrePrepare(p)} == {PrePrepare(p)};
    assert PassStep(s, quorum, x, x, PrePrepare(p)) == a;
    GivenOne(s, quorum, x, x, PrePrepare(p));
    assert {x} + {x} == {x};
    assert PassStep(a, quorum, x, x, Prepare(p, x)) == Pass(t, {PrePrepare(p), Prepare(p, x)}, [Prepare(p, x)]);
    ReplyOne(a, quorum, x, x, Prepare(p, x));
  }

  lemma GivenOne(s: Pass, quorum: nat, sender: nat, receiver: nat, m: Message)
    ensures GivenPass(s, quorum, sender, receiver, [m]) == PassStep(s, quorum, sender, receiver, m)
  {
    hide PassStep;
    assert [m][1..] == [];
  }

  lemma GivenTwo(s: Pass, quorum: nat, sender: nat, receiver: nat, m: Message, m': Message)
    ensures
      GivenPass(s, quorum, sender, receiver, [m, m'])
      == PassStep(PassStep(s, quorum, sender, receiver, m), quorum, sender, receiver, m')
  {
    hide PassStep;
    assert [m, m'][1..] == [m'];
    GivenOne(PassStep(s, quorum, sender, receiver, m), quorum, sender, receiver, m');
  }

  /** One reply, to which there is none. */
  lemma ReplyOne(s: Pass, quorum: nat, sender: nat, receiver: nat, m: Message)
    requires s.out == [m] && PassStep(s, quorum, sender, receiver, m).out == [m]
    ensures ReplyPass(s, quorum, sender, receiver, 0) == PassStep(s, quorum, sender, receiver, m)
  {
    hide PassStep;
    var s' := PassStep(s, quorum, sender, receiver, m);
    assert ReplyPass(s', quorum, sender, receiver, 1) == s';
  }

  /** The first proposal that a block reads, with its maker's Prepare: the count goes past the quorum or stays below. */
  lemma ProposalTaken(t: Tally, seen: set<Message>, quorum: nat, p: Proposal, y: nat, x: nat)
    requires t.chosen == None && x != y && PrePrepare(p) !in seen && Prepare(p, y) !in seen && Prepare(p, x) !in seen
    requires |Count(t, p).prepares + {y} + {x}| != quorum
    ensures
      var b := Count(t, p);
      var s := SlotPass(t, seen, quorum, y, x, [PrePrepare(p), Prepare(p, y)]);
      && s.t == Mark(t, p, Votes(b.prepares + {y} + {x}, b.commits)).(chosen := Some(p))
      && s.seen == seen + {PrePrepare(p), Prepare(p, y), Prepare(p, x)} && s.out == [Prepare(p, x)]
  {
    var b := Count(t, p);
    var voters := b.prepares + {y} + {x};
    var t' := Mark(t, p, Votes(voters, b.commits)).(chosen := Some(p));
    var s0 := Pass(t, seen, []);
    var s1 := Pass(t', seen + {PrePrepare(p)}, [Prepare(p, x)]);
    var s2 := Pass(t', seen + {PrePrepare(p), Prepare(p, y)}, [Prepare(p, x)]);
    assert [] + [Prepare(p, x)] == [Prepare(p, x)];
    assert PassStep(s0, quorum, y, x, PrePrepare(p)) == s1;
    assert voters + {y} == voters && voters + {x} == voters;
    assert Mark(t', p, Votes(voters, b.commits)) == t';
    assert seen + {PrePrepare(p)} + {Prepare(p, y)} == s2.seen;
    assert PassStep(s1, quorum, y, x, Prepare(p, y)) == s2;
    GivenTwo(s0, quorum, y, x, PrePrepare(p), Prepare(p, y));
    assert PassStep(s2, quorum, y, x, Prepare(p, x)) == Pass(t', s2.seen + {Prepare(p, x)}, s2.out);
    ReplyOne(s2, quorum, y, x, Prepare(p, x));
  }

  /** Another proposal after that: it is not answered, but its maker's Prepare counts. */
  lemma ProposalIgnored(t: Tally, seen: set<Message>, quorum: nat, p: Proposal, y: nat, x: nat)
    requires t.chosen.Some? && PrePrepare(p) !in seen && Prepare(p, y) !in seen
    requires |Count(t, p).prepares + {y}| != quorum
    ensures
      var b := Count(t, p);
      var s := SlotPass(t, seen, quorum, y, x, [PrePrepare(p), Prepare(p, y)]);
      && s.t == Mark(t, p, Votes(b.prepares + {y}, b.commits))
      && s.seen == seen + {PrePrepare(p), Prepare(p, y)} && s.out == []
  {
    var s0 := Pass(t, seen, []);
    GivenTwo(s0, quorum, y, x, PrePrepare(p), Prepare(p, y));
    assert seen + {PrePrepare(p)} + {Prepare(p, y)} == seen + {PrePrepare(p), Prepare(p, y)};
  }

  /** One more Prepare: it is answered by a Commit if the count is then the quorum. */
  lemma PrepareTaken(t: Tally, seen: set<Message>, quorum: nat, p: Proposal, y: nat, x: nat)
    requires Prepare(p, y) !in seen && Commit(p, x) !in seen && x !in Count(t, p).commits
    ensures
      var b := Count(t, p);
      var s := SlotPass(t, seen, quorum, y, x, [Prepare(p, y)]);
      if |b.prepares + {y}| == quorum then
        && s.t == Mark(t, p, Votes(b.prepares + {y}, b.commits + {x}))
        && s.seen == seen + {Prepare(p, y), Commit(p, x)} && s.out == [Commit(p, x)]
      else
        && s.t == Mark(t, p, Votes(b.prepares + {y}, b.commits))
        && s.seen == seen + {Prepare(p, y)} && s.out == []
  {
    var b := Count(t, p);
    var s0 := Pass(t, seen, []);
    GivenOne(s0, quorum, y, x, Prepare(p, y));
    if |b.prepares + {y}| == quorum {
      var t' := Mark(t, p, Votes(b.prepares + {y}, b.commits + {x}));
      var s1 := Pass(t', seen + {Prepare(p, y)}, [Commit(p, x)]);
      assert [] + [Commit(p, x)] == [Commit(p, x)];
      assert PassStep(s0, quorum, y, x, Prepare(p, y)) == s1;
      assert b.commits + {x} + {x} == b.commits + {x} && Mark(t', p, Votes(b.prepares + {y}, b.commits + {x})) == t';
      assert seen + {Prepare(p, y)} + {Commit(p, x)} == seen + {Prepare(p, y), Commit(p, x)};
      assert PassStep(s1, quorum, y, x, Commit(p, x)) == Pass(t', s1.seen + {Commit(p, x)}, s1.out);
      ReplyOne(s1, quorum, y, x, Commit(p, x));
    }
  }

  // --- reading links one by one ---

  lemma ReadFirst(s: Pass, quorum: nat, receiver: nat, r: Read, rest: seq<Read>)
    ensures
      var p := SlotPass(s.t, s.seen, quorum, r.sender, receiver, r.msgs);
      ReadPass(s, quorum, receiver, [r] + rest) == ReadPass(Pass(p.t, p.seen, s.out + p.out), quorum, receiver, rest)
  {
    hide SlotPass;
    assert ([r] + rest)[0] == r && ([r] + rest)[1..] == rest;
  }

  lemma ReadNothing(s: Pass, quorum: nat, receiver: nat, sender: nat, rest: seq<Read>)
    ensures ReadPass(s, quorum, receiver, [Read(sender, [])] + rest) == ReadPass(s, quorum, receiver, rest)
  {
    ReadFirst(s, quorum, receiver, Read(sender, []), rest);
    assert s.out + [] == s.out;
    assert SlotPass(s.t, s.seen, quorum, sender, receiver, []) == Pass(s.t, s.seen, []);
  }

  /** A block that is not of the slot only reads. */
  lemma OnlyReads(t: Tally, quorum: nat, b: BlockID, k: Slot, links: seq<Read>)
    requires Slot(b.node, b.round) != k
    ensures SlotBlock(t, quorum, b, k, links) == ReadPass(Pass(t, {}, []), quorum, b.node, links)
  {
    assert SlotPass(t, {}, quorum, b.node, b.node, []) == Pass(t, {}, []);
    var none: seq<Message> := [];
    assert none + none == none;
  }

  /** The block of the slot, with nothing to read. */
  lemma OnlyProposes(quorum: nat, b: BlockID, k: Slot, links: seq<Read>)
    requires Slot(b.node, b.round) == k && quorum >= 2 && forall i | 0 <= i < |links| :: links[i].msgs == []
    ensures
      var p := OwnProposal(b);
      var s := SlotBlock(BLANK, quorum, b, k, links);
      s.t == Tally(Some(p), map[p := Votes({b.node}, {})]) && s.out == [PrePrepare(p), Prepare(p, b.node)]
  {
    hide SlotPass;
    var p := OwnProposal(b);
    ProposalMade(quorum, p, b.node);
    assert [PrePrepare(p)] + [Prepare(p, b.node)] == [PrePrepare(p), Prepare(p, b.node)];
    NothingRead(Pass(Tally(Some(p), map[p := Votes({b.node}, {})]), {PrePrepare(p), Prepare(p, b.node)},
      [PrePrepare(p), Prepare(p, b.node)]), quorum, b.node, links);
  }

  lemma {:induction false} NothingRead(s: Pass, quorum: nat, receiver: nat, links: seq<Read>)
    requires forall i | 0 <= i < |links| :: links[i].msgs == []
    ensures ReadPass(s, quorum, receiver, links) == s
    decreases |links|
  {
    hide SlotPass;
    if links != [] {
      assert links == [Read(links[0].sender, [])] + links[1..];
      ReadNothing(s, quorum, receiver, links[0].sender, links[1..]);
      NothingRead(s, quorum, receiver, links[1..]);
    }
  }

  /** A block that reads a proposal first: it prepares it. */
  lemma ReadsProposal(quorum: nat, b: BlockID, k: Slot, p: Proposal, y: nat, rest: seq<Read>)
    requires Slot(b.node, b.round) != k && b.node != y && quorum != 2
    ensures
      var x := b.node;
      SlotBlock(BLANK, quorum, b, k, [Read(y, [PrePrepare(p), Prepare(p, y)])] + rest)
      == ReadPass(
           Pass(Tally(Some(p), map[p := Votes({y, x}, {})]), {PrePrepare(p), Prepare(p, y), Prepare(p, x)},
             [Prepare(p, x)]),
           quorum, x, rest)
  {
    hide SlotPass, ReadPass;
    var x := b.node;
    var r := Read(y, [PrePrepare(p), Prepare(p, y)]);
    OnlyReads(BLANK, quorum, b, k, [r] + rest);
    assert {} + {y} + {x} == {y, x} && |{y, x}| == 2;
    ProposalTaken(BLANK, {}, quorum, p, y, x);
    ReadFirst(Pass(BLANK, {}, []), quorum, x, r, rest);
    assert {} + {PrePrepare(p), Prepare(p, y), Prepare(p, x)} == {PrePrepare(p), Prepare(p, y), Prepare(p, x)};
    assert [] + [Prepare(p, x)] == [Prepare(p, x)];
    assert Mark(BLANK, p, Votes({y, x}, {})).(chosen := Some(p)) == Tally(Some(p), map[p := Votes({y, x}, {})]);
  }
}
