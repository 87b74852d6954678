/**
  What each message does, in every state, and what it leaves alone. The handlers compare the number of votes
  with the quorum for equality, and votes come in any order and repeatedly: these results say exactly when a
  Commit is put out and when a decision is taken.
 */
module Quorums {
  import opened Bytes
  import opened Ids
  import opened Outcomes
  import opened Protocol
  import opened Interpreter
  import opened Sets

  function ViewOf(s: State, k: Slot): nat {
    if k in s.view then s.view[k] else 0
  }

  /** The reaction to a message that cannot stop the process. */
  ghost function React(s: State, h: Heap, quorum: nat, sender: nat, receiver: nat, origin: nat, msg: Message): Reaction
    requires !msg.ViewChange?
  {
    Interpret(s, h, quorum, sender, receiver, origin, msg).value
  }

  // --- what is read after a message ---

  ghost predicate VotesAre(s: State, t: State, p: Proposal, b: Votes) {
    forall q :: VotesFor(t, q) == if q == p then b else VotesFor(s, q)
  }

  ghost predicate ViewsAre(s: State, t: State, k: Slot, v: nat) {
    forall j :: ViewOf(t, j) == if j == k then v else ViewOf(s, j)
  }

  ghost predicate TimeoutsAre(s: State, t: State, at: nat, ts: seq<Timeout>) {
    forall r :: TimeoutsAt(t, r) == TimeoutsAt(s, r) + if r == at then ts else []
  }

  lemma VotesSame(s: State, t: State, p: Proposal)
    requires t.bitsets == s.bitsets
    ensures VotesAre(s, t, p, VotesFor(s, p)) && forall q :: VotesFor(t, q) == VotesFor(s, q)
  {
  }

  lemma ViewsSame(s: State, t: State, k: Slot)
    requires t.view == s.view
    ensures ViewsAre(s, t, k, ViewOf(s, k)) && forall j :: ViewOf(t, j) == ViewOf(s, j)
  {
  }

  // --- what writes leave alone ---

  lemma TouchSeen(s: State, k: Slot)
    ensures
      var t := TouchView(s, k);
      t == s.(view := t.view) && k in t.view && t.view == s.view[k := ViewOf(s, k)]
  {
  }

  lemma TouchReads(s: State, k: Slot)
    ensures
      var t := TouchView(s, k);
      && t == s.(view := t.view) && k in t.view && t.view[k] == ViewOf(s, k)
      && ViewsAre(s, t, k, ViewOf(s, k)) && forall q :: VotesFor(t, q) == VotesFor(s, q)
  {
    TouchSeen(s, k);
    var t := TouchView(s, k);
    hide TouchView;
    VotesSame(s, t, Proposal([], k.node, k.round, 0));
    hide VotesFor;
    ViewsTouched(s, t, k);
  }

  lemma ViewsTouched(s: State, t: State, k: Slot)
    requires t.view == s.view[k := ViewOf(s, k)]
    ensures ViewsAre(s, t, k, ViewOf(s, k))
  {
  }

  lemma SetVotesSeen(s: State, p: Proposal, b: Votes)
    ensures
      var t := SetVotes(s, p, b);
      VotesFor(t, p) == b && t == s.(bitsets := t.bitsets) && VotesAre(s, t, p, b)
  {
  }

  lemma SetPreparedSeen(s: State, p: Proposal)
    ensures p.Key() in s.prepared ==> SetPrepared(s, p) == s
    ensures p.Key() !in s.prepared ==> SetPrepared(s, p) == s.(prepared := s.prepared[p.Key() := p.hash])
  {
  }

  /** A slot with a final state takes no message. */
  lemma AlreadyDone(s: State, h: Heap, quorum: nat, sender: nat, receiver: nat, origin: nat, msg: Message)
    requires msg.p.At() in s.done
    ensures Interpret(s, h, quorum, sender, receiver, origin, msg) == Ok(Silent(s, h))
  {
  }

  /** processMessage without the cases. */
  lemma Dispatch(s: State, h: Heap, quorum: nat, sender: nat, receiver: nat, origin: nat, msg: Message)
    requires msg.p.At() !in s.done
    ensures
      var t := TouchView(s, msg.p.At());
      match msg
      case PrePrepare(p) => React(s, h, quorum, sender, receiver, origin, msg)
        == OnPrePrepare(t, h, sender, receiver, p)
      case Prepare(p, x) => React(s, h, quorum, sender, receiver, origin, msg)
        == OnPrepare(t, h, quorum, receiver, p, x)
      case Commit(p, x) => React(s, h, quorum, sender, receiver, origin, msg) == OnCommit(t, h, quorum, p, x)
      case ViewChange(p, x) => Interpret(s, h, quorum, sender, receiver, origin, msg)
        == OnViewChange(t, h, quorum, receiver, p, x)
      case NewView(p, _) => React(s, h, quorum, sender, receiver, origin, msg) == OnNewView(t, h, origin, p)
  {
    hide TouchView, OnPrePrepare, OnPrepare, OnCommit, OnViewChange, OnNewView;
  }

  lemma OkIsReact(s: State, h: Heap, quorum: nat, sender: nat, receiver: nat, origin: nat, msg: Message)
    ensures !msg.ViewChange? ==>
      Interpret(s, h, quorum, sender, receiver, origin, msg) == Ok(React(s, h, quorum, sender, receiver, origin, msg))
  {
    hide OnPrePrepare, OnPrepare, OnCommit, OnViewChange, OnNewView, TouchView;
  }

  function Voters(xs: seq<nat>): set<nat> {
    set x | x in xs
  }

  /** Votes come one at a time, so the count meets the quorum unless it is beyond it after the first. */
  ghost predicate Meets(before: set<nat>, xs: seq<nat>, quorum: nat) {
    xs != [] && |before + {xs[0]}| <= quorum <= |before + Voters(xs)|
  }

  lemma MeetsStep(before: set<nat>, xs: seq<nat>, quorum: nat)
    requires xs != []
    ensures Meets(before, xs, quorum) <==> |before + {xs[0]}| == quorum || Meets(before + {xs[0]}, xs[1..], quorum)
    ensures before + Voters(xs) == before + {xs[0]} + Voters(xs[1..])
  {
    var rest := xs[1..];
    var after := before + {xs[0]};
    assert xs == [xs[0]] + rest;
    assert before + Voters(xs) == after + Voters(rest);
    CardinalityGrows(after, after + Voters(rest));
    if rest != [] {
      OneMore(after, rest[0]);
      assert rest[0] in rest;
      CardinalityGrows(after + {rest[0]}, after + Voters(rest));
    } else {
      assert after + Voters(rest) == after;
    }
  }

  lemma OneMore(a: set<nat>, x: nat)
    ensures |a| <= |a + {x}| <= |a| + 1
  {
    if x in a {
      assert a + {x} == a;
    }
  }

  // --- prepares ---

  /** Prepares for one proposal that a block interprets one after the other, and what it puts out. */
  ghost function FeedPrepares(s: State, h: Heap, quorum: nat, receiver: nat, origin: nat, p: Proposal,
                              xs: seq<nat>): (State, seq<Message>)
    decreases |xs|
  {
    if xs == [] then (s, [])
    else
      var r := React(s, h, quorum, xs[0], receiver, origin, Prepare(p, xs[0]));
      var (s', out) := FeedPrepares(r.s, r.heap, quorum, receiver, origin, p, xs[1..]);
      (s', Append([], r.reply) + out)
  }

  /** Votes of a view that has passed do not count; those of a view to come do, but cause nothing. */
  lemma PrepareStep(s: State, h: Heap, quorum: nat, sender: nat, receiver: nat, origin: nat, p: Proposal, x: nat)
    ensures
      var r := React(s, h, quorum, sender, receiver, origin, Prepare(p, x));
      var v, before := ViewOf(s, p.At()), VotesFor(s, p);
      var counts := p.At() !in s.done && v <= p.view;
      var commits := counts && v == p.view && |before.prepares + {x}| == quorum && receiver !in before.commits;
      var after := Votes(before.prepares + {x}, before.commits + if commits then {receiver} else {});
      && r.heap == h && !r.decided && r.reply == (if commits then Some(Commit(p, receiver)) else None)
      && r.s == s.(bitsets := r.s.bitsets, view := r.s.view, prepared := r.s.prepared)
      && VotesAre(s, r.s, p, if counts then after else before) && ViewsAre(s, r.s, p.At(), v)
      && r.s.prepared == if commits && p.Key() !in s.prepared then s.prepared[p.Key() := p.hash] else s.prepared
  {
    hide React, TouchView, SetVotes, SetPrepared, VotesFor, ViewOf, VotesAre, ViewsAre;
    if p.At() in s.done {
      AlreadyDone(s, h, quorum, sender, receiver, origin, Prepare(p, x));
      IsReact(s, h, quorum, sender, receiver, origin, Prepare(p, x));
      VotesSame(s, s, p);
      ViewsSame(s, s, p.At());
    } else {
      Dispatch(s, h, quorum, sender, receiver, origin, Prepare(p, x));
      TouchReads(s, p.At());
      PrepareHandled(s, TouchView(s, p.At()), h, quorum, receiver, p, x);
    }
  }

  lemma PrepareHandled(s: State, t: State, h: Heap, quorum: nat, receiver: nat, p: Proposal, x: nat)
    requires t == s.(view := t.view) && p.At() in t.view && t.view[p.At()] == ViewOf(s, p.At())
    requires ViewsAre(s, t, p.At(), ViewOf(s, p.At())) && forall q :: VotesFor(t, q) == VotesFor(s, q)
    ensures
      var r := OnPrepare(t, h, quorum, receiver, p, x);
      var v, before := ViewOf(s, p.At()), VotesFor(s, p);
      var commits := v == p.view && |before.prepares + {x}| == quorum && receiver !in before.commits;
      var after := Votes(before.prepares + {x}, before.commits + if commits then {receiver} else {});
      && r.heap == h && !r.decided && r.reply == (if commits then Some(Commit(p, receiver)) else None)
      && r.s == s.(bitsets := r.s.bitsets, view := r.s.view, prepared := r.s.prepared)
      && VotesAre(s, r.s, p, if v <= p.view then after else before) && ViewsAre(s, r.s, p.At(), v)
      && r.s.prepared == if commits && p.Key() !in s.prepared then s.prepared[p.Key() := p.hash] else s.prepared
  {
    hide SetVotes, SetPrepared, VotesFor, ViewOf;
    var b := AddPrepare(VotesFor(t, p), x);
    var b' := AddCommit(b, receiver);
    SetVotesSeen(t, p, b);
    SetVotesSeen(t, p, b');
    SetPreparedSeen(SetVotes(t, p, b'), p);
    VotesSame(SetVotes(t, p, b'), SetPrepared(SetVotes(t, p, b'), p), p);
    ViewsSame(t, SetVotes(t, p, b), p.At());
    ViewsSame(t, SetPrepared(SetVotes(t, p, b'), p), p.At());
  }

  lemma IsReact(s: State, h: Heap, quorum: nat, sender: nat, receiver: nat, origin: nat, msg: Message)
    requires !msg.ViewChange?
    ensures
      React(s, h, quorum, sender, receiver, origin, msg)
      == Interpret(s, h, quorum, sender, receiver, origin, msg).value
  {
  }

  lemma TouchVotes(s: State, k: Slot, p: Proposal)
    ensures VotesFor(TouchView(s, k), p) == VotesFor(s, p)
  {
  }

  /** The prepares bring the node to commit. */
  ghost predicate Commits(before: Votes, xs: seq<nat>, quorum: nat, receiver: nat) {
    receiver !in before.commits && Meets(before.prepares, xs, quorum)
  }

  /** The votes after prepares of the current view, or of one to come. */
  ghost function After(before: Votes, xs: seq<nat>, quorum: nat, receiver: nat, current: bool): Votes {
    var own: set<nat> := if current && Commits(before, xs, quorum, receiver) then {receiver} else {};
    Votes(before.prepares + Voters(xs), before.commits + own)
  }

  lemma AfterStep(before: Votes, mid: Votes, xs: seq<nat>, quorum: nat, receiver: nat, current: bool, now: bool)
    requires xs != []
    requires now == (current && |before.prepares + {xs[0]}| == quorum && receiver !in before.commits)
    requires mid == Votes(before.prepares + {xs[0]}, before.commits + if now then {receiver} else {})
    ensures After(before, xs, quorum, receiver, current) == After(mid, xs[1..], quorum, receiver, current)
    ensures current ==>
      && (Commits(before, xs, quorum, receiver) <==> now || Commits(mid, xs[1..], quorum, receiver))
      && !(now && Commits(mid, xs[1..], quorum, receiver))
  {
    hide Meets, Voters;
    MeetsStep(before.prepares, xs, quorum);
  }

  /**
    Whatever the order and however often a vote is repeated: in the current view all voters are counted, and the
    Commit is put out if and only if the count meets the quorum and the node has not committed before; then once.
    For a view to come the voters are counted and nothing is put out; for one that has passed, or a slot with a
    final state, nothing changes.
   */
  lemma {:induction false} PreparesCounted(s: State, h: Heap, quorum: nat, receiver: nat, origin: nat, p: Proposal,
                                           xs: seq<nat>)
    ensures
      var (s', out) := FeedPrepares(s, h, quorum, receiver, origin, p, xs);
      var v, before := ViewOf(s, p.At()), VotesFor(s, p);
      var counts := p.At() !in s.done && v <= p.view;
      var commits := counts && v == p.view && Commits(before, xs, quorum, receiver);
      && out == (if commits then [Commit(p, receiver)] else [])
      && s' == s.(bitsets := s'.bitsets, view := s'.view, prepared := s'.prepared)
      && VotesAre(s, s', p, if counts then After(before, xs, quorum, receiver, v == p.view) else before)
      && ViewsAre(s, s', p.At(), v)
      && s'.prepared == if commits && p.Key() !in s.prepared then s.prepared[p.Key() := p.hash] else s.prepared
    decreases |xs|
  {
    hide React, VotesFor, ViewOf, After, Commits, VotesAre, ViewsAre;
    var v, before := ViewOf(s, p.At()), VotesFor(s, p);
    if xs == [] {
      AfterNone(before, quorum, receiver, v == p.view);
      VotesSame(s, s, p);
      ViewsSame(s, s, p.At());
    } else {
      var r := React(s, h, quorum, xs[0], receiver, origin, Prepare(p, xs[0]));
      PrepareStep(s, h, quorum, xs[0], receiver, origin, p, xs[0]);
      ReadAt(s, r.s, p);
      PreparesCounted(r.s, r.heap, quorum, receiver, origin, p, xs[1..]);
      var s' := FeedPrepares(s, h, quorum, receiver, origin, p, xs).0;
      if p.At() !in s.done && v <= p.view {
        AfterStep(before, VotesFor(r.s, p), xs, quorum, receiver, v == p.view, r.reply.Some?);
      }
      Twice(s, r.s, s', p, v);
    }
  }

  /** What is read of the proposal and its slot. */
  lemma ReadAt(s: State, t: State, p: Proposal)
    ensures forall b' :: VotesAre(s, t, p, b') ==> VotesFor(t, p) == b'
    ensures forall v' :: ViewsAre(s, t, p.At(), v') ==> ViewOf(t, p.At()) == v'
  {
  }

  lemma Twice(s: State, t: State, u: State, p: Proposal, v: nat)
    requires VotesAre(s, t, p, VotesFor(t, p)) && ViewsAre(s, t, p.At(), v) && ViewsAre(t, u, p.At(), v)
    ensures forall b :: VotesAre(t, u, p, b) ==> VotesAre(s, u, p, b)
    ensures ViewsAre(s, u, p.At(), v)
  {
  }

  lemma AfterNone(before: Votes, quorum: nat, receiver: nat, current: bool)
    ensures After(before, [], quorum, receiver, current) == before && !Commits(before, [], quorum, receiver)
  {
  }

  lemma NoneMeet(before: set<nat>, quorum: nat)
    ensures !Meets(before, [], quorum) && before + Voters([]) == before
  {
  }

  // --- commits ---

  /** Commits for one proposal, and how many decisions they cause. */
  ghost function FeedCommits(s: State, h: Heap, quorum: nat, receiver: nat, origin: nat, p: Proposal,
                             xs: seq<nat>): (State, nat)
    decreases |xs|
  {
    if xs == [] then (s, 0)
    else
      var r := React(s, h, quorum, xs[0], receiver, origin, Commit(p, xs[0]));
      var (s', n) := FeedCommits(r.s, r.heap, quorum, receiver, origin, p, xs[1..]);
      (s', n + if r.decided then 1 else 0)
  }

  /** Commits of a view to come do not count; those of a view that has passed do. */
  lemma CommitStep(s: State, h: Heap, quorum: nat, sender: nat, receiver: nat, origin: nat, p: Proposal, x: nat)
    ensures
      var r := React(s, h, quorum, sender, receiver, origin, Commit(p, x));
      var v, before := ViewOf(s, p.At()), VotesFor(s, p);
      var counts := p.At() !in s.done && v >= p.view;
      && r.heap == h && r.reply == None
      && (r.decided <==> counts && |before.commits + {x}| == quorum && p.At() !in s.final)
      && r.s == s.(bitsets := r.s.bitsets, view := r.s.view, final := r.s.final)
      && VotesAre(s, r.s, p, if counts then Votes(before.prepares, before.commits + {x}) else before)
      && ViewsAre(s, r.s, p.At(), v)
      && r.s.final == if r.decided then s.final[p.At() := p.hash] else s.final
  {
    hide React, TouchView, SetVotes, VotesFor, SetFinal, ViewOf, VotesAre, ViewsAre;
    if p.At() in s.done {
      AlreadyDone(s, h, quorum, sender, receiver, origin, Commit(p, x));
      IsReact(s, h, quorum, sender, receiver, origin, Commit(p, x));
      VotesSame(s, s, p);
      ViewsSame(s, s, p.At());
    } else {
      Dispatch(s, h, quorum, sender, receiver, origin, Commit(p, x));
      TouchReads(s, p.At());
      CommitHandled(s, TouchView(s, p.At()), h, quorum, p, x);
    }
  }

  lemma CommitHandled(s: State, t: State, h: Heap, quorum: nat, p: Proposal, x: nat)
    requires t == s.(view := t.view) && p.At() in t.view && t.view[p.At()] == ViewOf(s, p.At())
    requires ViewsAre(s, t, p.At(), ViewOf(s, p.At())) && forall q :: VotesFor(t, q) == VotesFor(s, q)
    ensures
      var r := OnCommit(t, h, quorum, p, x);
      var v, before := ViewOf(s, p.At()), VotesFor(s, p);
      && r.heap == h && r.reply == None
      && (r.decided <==> v >= p.view && |before.commits + {x}| == quorum && p.At() !in s.final)
      && r.s == s.(bitsets := r.s.bitsets, view := r.s.view, final := r.s.final)
      && VotesAre(s, r.s, p, if v >= p.view then Votes(before.prepares, before.commits + {x}) else before)
      && ViewsAre(s, r.s, p.At(), v)
      && r.s.final == if r.decided then s.final[p.At() := p.hash] else s.final
  {
    hide SetVotes, VotesFor, SetFinal, ViewOf;
    var b := AddCommit(VotesFor(t, p), x);
    SetVotesSeen(t, p, b);
    var u := SetVotes(t, p, b);
    FinalVotes(u, p);
    VotesSame(u, SetFinal(u, p), p);
    ViewsSame(t, u, p.At());
    ViewsSame(t, SetFinal(u, p), p.At());
  }

  lemma FinalVotes(s: State, p: Proposal)
    ensures SetFinal(s, p) == s.(final := s.final[p.At() := p.hash])
  {
  }

  /**
    The same for commits: a decision is taken if and only if there is none, the view of the commits is not to
    come, and the count meets the quorum. Commits of a view to come change nothing.
   */
  lemma {:induction false} CommitsCounted(s: State, h: Heap, quorum: nat, receiver: nat, origin: nat, p: Proposal,
                                          xs: seq<nat>)
    ensures
      var (s', n) := FeedCommits(s, h, quorum, receiver, origin, p, xs);
      var v, before := ViewOf(s, p.At()), VotesFor(s, p);
      var counts := p.At() !in s.done && v >= p.view;
      var decides := counts && p.At() !in s.final && Meets(before.commits, xs, quorum);
      && n == (if decides then 1 else 0)
      && s' == s.(bitsets := s'.bitsets, view := s'.view, final := s'.final)
      && VotesAre(s, s', p, if counts then Votes(before.prepares, before.commits + Voters(xs)) else before)
      && ViewsAre(s, s', p.At(), v)
      && s'.final == if decides then s.final[p.At() := p.hash] else s.final
    decreases |xs|
  {
    hide React, Meets, VotesFor, ViewOf, VotesAre, ViewsAre;
    var v, before := ViewOf(s, p.At()), VotesFor(s, p);
    if xs == [] {
      NoneMeet(before.commits, quorum);
      VotesSame(s, s, p);
      ViewsSame(s, s, p.At());
    } else {
      var r := React(s, h, quorum, xs[0], receiver, origin, Commit(p, xs[0]));
      CommitStep(s, h, quorum, xs[0], receiver, origin, p, xs[0]);
      ReadAt(s, r.s, p);
      MeetsStep(before.commits, xs, quorum);
      CommitsCounted(r.s, r.heap, quorum, receiver, origin, p, xs[1..]);
      var s' := FeedCommits(s, h, quorum, receiver, origin, p, xs).0;
      Twice(s, r.s, s', p, v);
    }
  }

  // --- proposals ---

  /** A proposal counts for two voters at once: the node that passes it on and the one that reads it. */
  function Supporters(s: State, p: Proposal, sender: nat, receiver: nat): set<nat> {
    VotesFor(s, p).prepares + {sender, receiver}
  }

  /** A proposal is taken once, in its view. */
  lemma PrePrepareStep(s: State, h: Heap, quorum: nat, sender: nat, receiver: nat, origin: nat, p: Proposal)
    ensures
      var r := React(s, h, quorum, sender, receiver, origin, PrePrepare(p));
      var v, before := ViewOf(s, p.At()), VotesFor(s, p);
      var takes := p.At() !in s.done && v == p.view && p.Key() !in s.prePrepared;
      && r.heap == h && !r.decided && r.reply == (if takes then Some(Prepare(p, receiver)) else None)
      && r.s == s.(bitsets := r.s.bitsets, view := r.s.view, prePrepared := r.s.prePrepared)
      && VotesAre(s, r.s, p, if takes then Votes(Supporters(s, p, sender, receiver), before.commits) else before)
      && ViewsAre(s, r.s, p.At(), v)
      && r.s.prePrepared == if takes then s.prePrepared[p.Key() := p] else s.prePrepared
  {
    hide React, TouchView, SetVotes, VotesFor, SetPrePrepared, ViewOf, VotesAre, ViewsAre;
    if p.At() in s.done {
      AlreadyDone(s, h, quorum, sender, receiver, origin, PrePrepare(p));
      IsReact(s, h, quorum, sender, receiver, origin, PrePrepare(p));
      VotesSame(s, s, p);
      ViewsSame(s, s, p.At());
    } else {
      Dispatch(s, h, quorum, sender, receiver, origin, PrePrepare(p));
      TouchReads(s, p.At());
      PrePrepareHandled(s, TouchView(s, p.At()), h, sender, receiver, p);
    }
  }

  lemma PrePrepareHandled(s: State, t: State, h: Heap, sender: nat, receiver: nat, p: Proposal)
    requires t == s.(view := t.view) && p.At() in t.view && t.view[p.At()] == ViewOf(s, p.At())
    requires ViewsAre(s, t, p.At(), ViewOf(s, p.At())) && forall q :: VotesFor(t, q) == VotesFor(s, q)
    ensures
      var r := OnPrePrepare(t, h, sender, receiver, p);
      var v, before := ViewOf(s, p.At()), VotesFor(s, p);
      var takes := v == p.view && p.Key() !in s.prePrepared;
      && r.heap == h && !r.decided && r.reply == (if takes then Some(Prepare(p, receiver)) else None)
      && r.s == s.(bitsets := r.s.bitsets, view := r.s.view, prePrepared := r.s.prePrepared)
      && VotesAre(s, r.s, p, if takes then Votes(Supporters(s, p, sender, receiver), before.commits) else before)
      && ViewsAre(s, r.s, p.At(), v)
      && r.s.prePrepared == if takes then s.prePrepared[p.Key() := p] else s.prePrepared
  {
    hide SetVotes, VotesFor, SetPrePrepared, ViewOf;
    var b := AddPrepare(AddPrepare(VotesFor(t, p), sender), receiver);
    assert b.prepares == Supporters(s, p, sender, receiver);
    SetVotesSeen(t, p, b);
    var u := SetVotes(t, p, b);
    PrePreparedVotes(u, p);
    VotesSame(u, SetPrePrepared(u, p), p);
    ViewsSame(t, SetPrePrepared(u, p), p.At());
  }

  lemma PrePreparedVotes(s: State, p: Proposal)
    ensures
      var t := SetPrePrepared(s, p);
      VotesFor(t, p) == VotesFor(s, p) && t == s.(prePrepared := s.prePrepared[p.Key() := p])
  {
  }

  predicate JustShort(s: State, p: Proposal, quorum: nat, sender: nat, receiver: nat) {
    var before := VotesFor(s, p).prepares;
    |before| == quorum - 1 && sender != receiver && sender !in before && receiver !in before
  }

  /**
    So the quorum can be passed over. With a proposal that finds all but one of the prepares in place,
    neither from its two voters, no Commit is put out, whatever prepares follow.
   */
  lemma QuorumPassedOver(s: State, h: Heap, quorum: nat, sender: nat, receiver: nat, origin: nat, p: Proposal,
                         xs: seq<nat>)
    requires p.At() !in s.done && ViewOf(s, p.At()) == p.view && p.Key() !in s.prePrepared
    requires receiver !in VotesFor(s, p).commits
    ensures
      var r := React(s, h, quorum, sender, receiver, origin, PrePrepare(p));
      var all := [receiver] + xs;
      var all', first := Supporters(s, p, sender, receiver) + Voters(xs), Supporters(s, p, sender, receiver);
      var commits := |first| <= quorum <= |all'|;
      && FeedPrepares(r.s, r.heap, quorum, receiver, origin, p, all).1
        == (if commits then [Commit(p, receiver)] else [])
      && (JustShort(s, p, quorum, sender, receiver) ==> !commits)
  {
    hide React, VotesFor, FeedPrepares, After, Commits, Supporters, VotesAre, ViewsAre;
    var r := React(s, h, quorum, sender, receiver, origin, PrePrepare(p));
    PrePrepareStep(s, h, quorum, sender, receiver, origin, p);
    ReadAt(s, r.s, p);
    PreparesCounted(r.s, r.heap, quorum, receiver, origin, p, [receiver] + xs);
    SupportersGrow(s, p, quorum, sender, receiver, xs);
    CommitsOwn(VotesFor(r.s, p), xs, quorum, receiver);
  }

  lemma SupportersGrow(s: State, p: Proposal, quorum: nat, sender: nat, receiver: nat, xs: seq<nat>)
    ensures receiver in Supporters(s, p, sender, receiver)
    ensures JustShort(s, p, quorum, sender, receiver) ==> |Supporters(s, p, sender, receiver)| == quorum + 1
  {
    hide VotesFor;
    var before := VotesFor(s, p).prepares;
    assert Supporters(s, p, sender, receiver) == before + {sender} + {receiver};
  }

  /** The own Prepare is the first to be read, and is already counted. */
  lemma CommitsOwn(b: Votes, xs: seq<nat>, quorum: nat, receiver: nat)
    requires receiver in b.prepares && receiver !in b.commits
    ensures Commits(b, [receiver] + xs, quorum, receiver) <==> |b.prepares| <= quorum <= |b.prepares + Voters(xs)|
  {
    var all := [receiver] + xs;
    assert b.prepares + {all[0]} == b.prepares;
    assert b.prepares + Voters(all) == b.prepares + Voters(xs);
  }

  // --- view changes ---

  /** The hashes reported so far for the view that the slot is in. */
  function Reports(s: State, h: Heap, k: Slot): map<nat, Hash> {
    var b := Ballot(k.node, k.round, ViewOf(s, k));
    if b in s.viewChanged then Read(h, s.viewChanged[b]) else map[]
  }

  ghost predicate OneHash(m: map<nat, Hash>, hash: Hash) {
    && (forall x | x in m :: m[x] == [] || m[x] == hash)
    && (hash == [] || exists x :: x in m && m[x] == hash)
  }

  ghost predicate Conflict(m: map<nat, Hash>) {
    forall hash :: !OneHash(m, hash)
  }

  /** The map that a view change is written to. */
  function ReportsRef(s: State, h: Heap, k: Slot): Ref {
    var b := Ballot(k.node, k.round, ViewOf(s, k));
    if b in s.viewChanged then s.viewChanged[b] else |h|
  }

  /** The state and the maps once a view change has been written down. */
  function Written(s: State, h: Heap, k: Slot): State {
    SetViewChanged(TouchView(s, k), Ballot(k.node, k.round, ViewOf(s, k)), ReportsRef(s, h, k))
  }

  lemma ViewChangeReaction(s: State, h: Heap, quorum: nat, sender: nat, receiver: nat, origin: nat, p: Proposal, x: nat)
    requires p.At() !in s.done && ViewOf(s, p.At()) <= p.view
    ensures
      var r := Interpret(s, h, quorum, sender, receiver, origin, ViewChange(p, x));
      var m := Reports(s, h, p.At())[x := p.hash];
      var s', h' := Written(s, h, p.At()), Write(h, ReportsRef(s, h, p.At()), m);
      if |m.Keys| != quorum then r == Ok(Silent(s', h'))
      else if Conflict(m) then r.Fatal?
      else
        && r.Ok? && r.value == Reaction(SetView(s', p.At(), p.view), h', r.value.reply, false) && r.value.reply.Some?
        && r.value.reply.value == NewView(p.(hash := r.value.reply.value.p.hash), receiver)
        && OneHash(m, r.value.reply.value.p.hash)
  {
    hide Interpret, OnViewChange, TouchView, SetViewChanged, SetView, Read, Write;
    var k := p.At();
    var m := Reports(s, h, k)[x := p.hash];
    ReportedIsOne(m);
    hide ReportedHash, OneHash, Conflict;
    Dispatch(s, h, quorum, sender, receiver, origin, ViewChange(p, x));
    TouchSeen(s, k);
    NothingThere(h);
    var b, ref := Ballot(k.node, k.round, ViewOf(s, k)), ReportsRef(s, h, k);
    assert Read(h, ref)[x := p.hash] == m;
    ViewChangeCases(TouchView(s, k), h, quorum, receiver, p, x, b, ref, m);
  }

  /** The reports for the ballot are m, and no other map has changed. */
  ghost predicate Reported(s: State, h: Heap, b: Ballot, m: map<nat, Hash>, r: Reaction) {
    && r.s == s.(view := r.s.view, viewChanged := r.s.viewChanged) && !r.decided
    && b in r.s.viewChanged && r.s.viewChanged == s.viewChanged[b := r.s.viewChanged[b]]
    && Read(r.heap, r.s.viewChanged[b]) == m && (b in s.viewChanged ==> r.s.viewChanged[b] == s.viewChanged[b])
    && (b !in s.viewChanged ==> r.s.viewChanged[b] == |h|)
    && (forall ref | 0 <= ref < |h| && ref != r.s.viewChanged[b] :: Read(r.heap, ref) == Read(h, ref))
  }

  lemma WrittenSeen(s: State, h: Heap, k: Slot, m: map<nat, Hash>)
    requires forall b | b in s.viewChanged :: s.viewChanged[b] < |h|
    ensures
      var t, h', b := Written(s, h, k), Write(h, ReportsRef(s, h, k), m), Ballot(k.node, k.round, ViewOf(s, k));
      forall reply :: Reported(s, h, b, m, Reaction(t, h', reply, false))
    ensures ViewsAre(s, Written(s, h, k), k, ViewOf(s, k))
  {
    TouchReads(s, k);
    var t := TouchView(s, k);
    hide TouchView, VotesFor;
    ViewsSame(t, Written(s, h, k), k);
  }

  lemma ViewMoved(s: State, t: State, h: Heap, h': Heap, k: Slot, b: Ballot, m: map<nat, Hash>, v: nat,
                  reply: Option<Message>)
    requires Reported(s, h, b, m, Reaction(t, h', reply, false)) && ViewsAre(s, t, k, ViewOf(s, k))
    ensures Reported(s, h, b, m, Reaction(SetView(t, k, v), h', reply, false)) && ViewsAre(s, SetView(t, k, v), k, v)
  {
    hide Read;
  }

  /**
    A view change that makes a quorum of reports moves the slot to its view, and proposes the one hash
    that is reported or none; two reported hashes stop the process. Otherwise it is only recorded, and one for a
    view that has passed, or a slot with a final state, is not.
   */
  lemma ViewChangeQuorum(s: State, h: Heap, quorum: nat, sender: nat, receiver: nat, origin: nat, p: Proposal, x: nat)
    requires forall b | b in s.viewChanged :: s.viewChanged[b] < |h|
    ensures
      var r := Interpret(s, h, quorum, sender, receiver, origin, ViewChange(p, x));
      var k, v := p.At(), ViewOf(s, p.At());
      var b, m := Ballot(p.node, p.round, v), Reports(s, h, p.At())[x := p.hash];
      if k in s.done || v > p.view then
        && r.Ok? && r.value == Silent(r.value.s, h) && r.value.s == s.(view := r.value.s.view)
        && ViewsAre(s, r.value.s, k, v)
      else if |m.Keys| != quorum then
        r.Ok? && r.value.reply == None && ViewsAre(s, r.value.s, k, v) && Reported(s, h, b, m, r.value)
      else if Conflict(m) then r.Fatal?
      else
        && r.Ok? && ViewsAre(s, r.value.s, k, p.view) && Reported(s, h, b, m, r.value) && r.value.reply.Some?
        && r.value.reply.value == NewView(p.(hash := r.value.reply.value.p.hash), receiver)
        && OneHash(m, r.value.reply.value.p.hash)
  {
    hide Interpret, Reports, Written, Write, Conflict, OneHash, ReportsRef, Reported, SetView, ViewsAre;
    var k, v := p.At(), ViewOf(s, p.At());
    var m := Reports(s, h, k)[x := p.hash];
    if k in s.done || v > p.view {
      PassedView(s, h, quorum, sender, receiver, origin, p, x);
    } else {
      ViewChangeReaction(s, h, quorum, sender, receiver, origin, p, x);
      WrittenSeen(s, h, k, m);
      var r := Interpret(s, h, quorum, sender, receiver, origin, ViewChange(p, x));
      if |m.Keys| == quorum && r.Ok? {
        ViewMoved(s, Written(s, h, k), h, r.value.heap, k, Ballot(k.node, k.round, v), m, p.view, r.value.reply);
      }
    }
  }

  lemma PassedView(s: State, h: Heap, quorum: nat, sender: nat, receiver: nat, origin: nat, p: Proposal, x: nat)
    requires p.At() in s.done || ViewOf(s, p.At()) > p.view
    ensures
      var r := Interpret(s, h, quorum, sender, receiver, origin, ViewChange(p, x));
      && r.Ok? && r.value == Silent(r.value.s, h) && r.value.s == s.(view := r.value.s.view)
      && ViewsAre(s, r.value.s, p.At(), ViewOf(s, p.At()))
  {
    hide Interpret, TouchView, VotesFor, ViewsAre, ReportedHash, Read, Write;
    if p.At() in s.done {
      AlreadyDone(s, h, quorum, sender, receiver, origin, ViewChange(p, x));
      ViewsSame(s, s, p.At());
    } else {
      Dispatch(s, h, quorum, sender, receiver, origin, ViewChange(p, x));
      TouchReads(s, p.At());
    }
  }

  lemma NothingThere(h: Heap)
    ensures Read(h, |h|) == map[]
  {
  }

  lemma ViewChangeCases(t: State, h: Heap, quorum: nat, receiver: nat, p: Proposal, x: nat, b: Ballot, ref: Ref,
                        m: map<nat, Hash>)
    requires p.At() in t.view && t.view[p.At()] <= p.view && b == Ballot(p.node, p.round, t.view[p.At()])
    requires ref == (if b in t.viewChanged then t.viewChanged[b] else |h|) && m == Read(h, ref)[x := p.hash]
    requires ReportedHash(m) != Panic
    ensures
      var r := OnViewChange(t, h, quorum, receiver, p, x);
      var s := SetViewChanged(t, b, ref);
      if |m.Keys| != quorum then r == Ok(Silent(s, Write(h, ref, m)))
      else if ReportedHash(m).Ok? then
        r == Ok(Reaction(SetView(s, p.At(), p.view), Write(h, ref, m),
          Some(NewView(p.(hash := ReportedHash(m).value), receiver)), false))
      else r.Fatal?
  {
    hide SetViewChanged, SetView, Read, Write, ReportedHash;
  }

  lemma SetViewSeen(s: State, k: Slot, v: nat)
    ensures SetView(s, k, v) == s.(view := s.view[k := v])
  {
  }

  lemma ReportedIsOne(m: map<nat, Hash>)
    ensures ReportedHash(m).Fatal? <==> Conflict(m)
    ensures ReportedHash(m).Ok? ==> OneHash(m, ReportedHash(m).value)
    ensures ReportedHash(m) != Panic
  {
    if x, y :| x in m && y in m && m[x] != [] && m[y] != [] && m[x] != m[y] {
      forall hash ensures !OneHash(m, hash) {
      }
    } else if x :| x in m && m[x] != [] {
      assert OneHash(m, m[x]);
    } else {
      assert OneHash(m, []);
    }
  }

  lemma SetNewViewSeen(s: State, b: Ballot)
    ensures SetNewView(s, b) == s.(hnv := s.hnv + {b})
  {
  }

  // --- new views ---

  lemma AddTimeoutSeen(s: State, at: nat, ts: seq<Timeout>)
    ensures var t := AddTimeouts(s, at, ts); t == s.(timeouts := t.timeouts) && TimeoutsAre(s, t, at, ts)
  {
  }

  lemma NoTimeouts(s: State, t: State, at: nat)
    requires t.timeouts == s.timeouts
    ensures TimeoutsAre(s, t, at, [])
  {
  }

  /**
    A new view that is not of a view that has passed, and is the first for its ballot: the slot moves to its view,
    the hash that it carries is proposed again in that view, and one timeout for the view is set, five rounds
    after the block's timeout. Any other new view changes nothing.
   */
  lemma NewViewStep(s: State, h: Heap, quorum: nat, sender: nat, receiver: nat, origin: nat, p: Proposal, x: nat)
    ensures
      var r := React(s, h, quorum, sender, receiver, origin, NewView(p, x));
      var v, at := ViewOf(s, p.At()), (origin + s.timeout + 5) % U64_SIZE;
      var moves := p.At() !in s.done && v <= p.view && p.Key() !in s.hnv;
      && r.heap == h && !r.decided
      && r.reply == (if moves then Some(PrePrepare(Proposal(p.hash, p.node, p.round, p.view))) else None)
      && r.s == s.(view := r.s.view, hnv := r.s.hnv, timeouts := r.s.timeouts)
      && ViewsAre(s, r.s, p.At(), if moves then p.view else v)
      && r.s.hnv == (if moves then s.hnv + {p.Key()} else s.hnv)
      && TimeoutsAre(s, r.s, at, if moves then [Timeout(p.node, p.round, p.view)] else [])
  {
    hide React, TouchView, VotesFor, ViewOf, ViewsAre, TimeoutsAre, OnNewView;
    var at := (origin + s.timeout + 5) % U64_SIZE;
    if p.At() in s.done {
      AlreadyDone(s, h, quorum, sender, receiver, origin, NewView(p, x));
      IsReact(s, h, quorum, sender, receiver, origin, NewView(p, x));
      ViewsSame(s, s, p.At());
      NoTimeouts(s, s, at);
    } else {
      Dispatch(s, h, quorum, sender, receiver, origin, NewView(p, x));
      TouchReads(s, p.At());
      NewViewHandled(s, TouchView(s, p.At()), h, origin, p);
    }
  }

  lemma NewViewHandled(s: State, t: State, h: Heap, origin: nat, p: Proposal)
    requires t == s.(view := t.view) && p.At() in t.view && t.view[p.At()] == ViewOf(s, p.At())
    requires ViewsAre(s, t, p.At(), ViewOf(s, p.At()))
    ensures
      var r := OnNewView(t, h, origin, p);
      var v, at := ViewOf(s, p.At()), (origin + s.timeout + 5) % U64_SIZE;
      var moves := v <= p.view && p.Key() !in s.hnv;
      && r.heap == h && !r.decided
      && r.reply == (if moves then Some(PrePrepare(Proposal(p.hash, p.node, p.round, p.view))) else None)
      && r.s == s.(view := r.s.view, hnv := r.s.hnv, timeouts := r.s.timeouts)
      && ViewsAre(s, r.s, p.At(), if moves then p.view else v)
      && r.s.hnv == (if moves then s.hnv + {p.Key()} else s.hnv)
      && TimeoutsAre(s, r.s, at, if moves then [Timeout(p.node, p.round, p.view)] else [])
  {
    hide SetView, SetNewView, AddTimeouts, TimeoutsAre, ViewOf, ViewsAre;
    var at, ts := (origin + s.timeout + 5) % U64_SIZE, [Timeout(p.node, p.round, p.view)];
    NoTimeouts(s, t, at);
    SetViewSeen(t, p.At(), p.view);
    ViewsSet(s, t, p.At(), p.view);
    var u := SetView(t, p.At(), p.view);
    SetNewViewSeen(u, p.Key());
    var u' := SetNewView(u, p.Key());
    AddTimeoutSeen(u', at, ts);
    TimeoutsFrom(s, u', AddTimeouts(u', at, ts), at, ts);
    ViewsFrom(s, u, AddTimeouts(u', at, ts), p.At(), p.view);
  }

  lemma ViewsSet(s: State, t: State, k: Slot, v: nat)
    requires ViewsAre(s, t, k, ViewOf(s, k))
    ensures ViewsAre(s, SetView(t, k, v), k, v)
  {
  }

  lemma ViewsFrom(s: State, t: State, u: State, k: Slot, v: nat)
    requires ViewsAre(s, t, k, v) && u.view == t.view
    ensures ViewsAre(s, u, k, v)
  {
    assert forall j :: ViewOf(u, j) == ViewOf(t, j);
  }

  lemma TimeoutsFrom(s: State, t: State, u: State, at: nat, ts: seq<Timeout>)
    requires t.timeouts == s.timeouts && TimeoutsAre(t, u, at, ts)
    ensures TimeoutsAre(s, u, at, ts)
  {
  }

  /**
    In the block in which a view change makes the quorum, the new view that it puts out comes next: what is then
    proposed is the hash that was reported, or none, in the view of the change.
   */
  lemma ReportedIsProposed(s: State, h: Heap, quorum: nat, sender: nat, receiver: nat, origin: nat, p: Proposal,
                           x: nat)
    requires forall b | b in s.viewChanged :: s.viewChanged[b] < |h|
    requires
      var m := Reports(s, h, p.At())[x := p.hash];
      p.At() !in s.done && ViewOf(s, p.At()) <= p.view && p.Key() !in s.hnv && |m.Keys| == quorum && !Conflict(m)
    ensures
      var first := Interpret(s, h, quorum, sender, receiver, origin, ViewChange(p, x));
      && first.Ok? && first.value.reply.Some? && first.value.reply.value.NewView?
      && var next := React(first.value.s, first.value.heap, quorum, sender, receiver, origin, first.value.reply.value);
         && next.reply.Some? && next.reply.value == PrePrepare(p.(hash := next.reply.value.p.hash))
         && OneHash(Reports(s, h, p.At())[x := p.hash], next.reply.value.p.hash)
  {
    hide Interpret, React, Reports, Conflict, OneHash, ViewsAre, TimeoutsAre;
    ViewChangeQuorum(s, h, quorum, sender, receiver, origin, p, x);
    var first := Interpret(s, h, quorum, sender, receiver, origin, ViewChange(p, x)).value;
    var q := first.reply.value.p;
    ReadAt(s, first.s, q);
    NewViewStep(first.s, first.heap, quorum, sender, receiver, origin, q, receiver);
  }
}
