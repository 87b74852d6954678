/**
  What a block's state says about the messages of the run: where every vote comes from, what backs an
  emitted message and a decision, and what never shrinks. All of it is kept by the interpretation of
  one message.
 */
module Evidence {
  import opened Bytes
  import opened Ids
  import opened Outcomes
  import opened Protocol
  import opened Interpreter
  import opened Sets

  /** The block being interpreted, the records of the blocks before it, and the state it started from. */
  datatype Context = Context(quorum: nat, hist: seq<Record>, block: BlockID, start: State) {
    /** No view can be larger: a block raises the largest view by at most one. */
    function Cap(): nat { |hist| + 1 }
  }

  /** The message was put out by a block of its sender. */
  ghost predicate Sent(c: Context, out: seq<Message>, m: Message)
    requires m.Prepare? || m.Commit?
  {
    || (m.sender == c.block.node && m in out)
    || exists i :: 0 <= i < |c.hist| && c.hist[i].block.node == m.sender && m in c.hist[i].end.out
  }

  ghost predicate Known(c: Context, b: BlockID) {
    b == c.block || exists i :: 0 <= i < |c.hist| && c.hist[i].block == b
  }

  // --- what holds of every run ---

  ghost predicate CommitsSent(c: Context, out: seq<Message>, bitsets: map<Proposal, Votes>) {
    forall p, x | p in bitsets && x in bitsets[p].commits :: Sent(c, out, Commit(p, x))
  }

  /** What an emitted message says about the state of its block. */
  ghost predicate MessageBacked(c: Context, s: State, m: Message) {
    match m
    case PrePrepare(_) => true
    case Prepare(p, x) =>
      && x == c.block.node
      && p.Key() in s.prePrepared && s.prePrepared[p.Key()] == p
      && p.Key() !in c.start.prePrepared
    case Commit(p, x) =>
      && x == c.block.node
      && p in s.bitsets && |s.bitsets[p].prepares| >= c.quorum && x in s.bitsets[p].commits
      && x !in VotesFor(c.start, p).commits
    case ViewChange(_, x) => x == c.block.node
    case NewView(_, x) => x == c.block.node
  }

  ghost predicate OutBacked(c: Context, out: seq<Message>, s: State) {
    forall m | m in out :: MessageBacked(c, s, m)
  }

  ghost predicate Differ(a: Message, b: Message) {
    && (a.Prepare? && b.Prepare? ==> a.p.Key() != b.p.Key())
    && (a.Commit? && b.Commit? ==> a.p != b.p)
  }

  /** At most one Prepare for a ballot and one Commit for a proposal. */
  ghost predicate OnceOnly(out: seq<Message>) {
    forall i, j | 0 <= i < j < |out| :: Differ(out[i], out[j])
  }

  /** A commit quorum for that hash, in some view. */
  ghost predicate Certified(quorum: nat, bitsets: map<Proposal, Votes>, k: Slot, hash: Hash) {
    exists p :: p in bitsets && p.At() == k && p.hash == hash && |bitsets[p].commits| >= quorum
  }

  ghost predicate FinalBacked(quorum: nat, bitsets: map<Proposal, Votes>, final: map<Slot, Hash>) {
    forall k | k in final :: Certified(quorum, bitsets, k, final[k])
  }

  ghost predicate VotesGrow(a: map<Proposal, Votes>, b: map<Proposal, Votes>, low: nat) {
    forall p | p in a && p.round >= low ::
      p in b && a[p].prepares <= b[p].prepares && a[p].commits <= b[p].commits
  }

  ghost predicate BallotsKept<V(!new)>(a: map<Ballot, V>, b: map<Ballot, V>, low: nat) {
    forall k | k in a && k.round >= low :: k in b && b[k] == a[k]
  }

  ghost predicate SlotsKept<V(!new)>(a: map<Slot, V>, b: map<Slot, V>, low: nat) {
    forall k | k in a && k.round >= low :: k in b && b[k] == a[k]
  }

  ghost predicate FlagsKept(a: set<Ballot>, b: set<Ballot>, low: nat) {
    forall k | k in a && k.round >= low :: k in b
  }

  ghost predicate ViewsGrow(a: map<Slot, nat>, b: map<Slot, nat>, low: nat) {
    forall k | k in a && k.round >= low :: k in b && a[k] <= b[k]
  }

  /** Nothing of a round from `low` on is lost or overwritten in t; the vote sets only grow. */
  ghost predicate Grows(s: State, t: State, low: nat) {
    && VotesGrow(s.bitsets, t.bitsets, low)
    && BallotsKept(s.prePrepared, t.prePrepared, low)
    && BallotsKept(s.prepared, t.prepared, low)
    && BallotsKept(s.viewChanged, t.viewChanged, low)
    && FlagsKept(s.hnv, t.hnv, low)
    && SlotsKept(s.final, t.final, low)
  }

  /** What holds of a block that has put out `out` so far and is in state s. */
  ghost predicate Sound(c: Context, out: seq<Message>, s: State) {
    && CommitsSent(c, out, s.bitsets)
    && OutBacked(c, out, s)
    && OnceOnly(out)
    && FinalBacked(c.quorum, s.bitsets, s.final)
    && Grows(c.start, s, 0)
    && s.done == {}
  }

  /** What is known of a message when it is interpreted. */
  ghost predicate Legit(c: Context, out: seq<Message>, m: Message) {
    m.Prepare? || m.Commit? ==> Sent(c, out, m)
  }

  // --- what holds as long as no view counter has wrapped around ---

  ghost predicate Tame(c: Context) {
    c.Cap() < U32_SIZE
  }

  /** A prepare bit of view 0 belongs to a node that sent a Prepare or that made the block. */
  ghost predicate PrepareBacked(c: Context, out: seq<Message>, p: Proposal, voter: nat) {
    Known(c, p.Block()) && (voter == p.node || Sent(c, out, Prepare(p, voter)))
  }

  ghost predicate PreparesBacked(c: Context, out: seq<Message>, bitsets: map<Proposal, Votes>) {
    forall p, x | p in bitsets && p.view == 0 && x in bitsets[p].prepares :: PrepareBacked(c, out, p, x)
  }

  ghost predicate PrePreparedKnown(c: Context, prePrepared: map<Ballot, Proposal>) {
    forall k | k in prePrepared :: prePrepared[k].Key() == k && (k.view == 0 ==> Known(c, prePrepared[k].Block()))
  }

  ghost predicate ViewsCapped(cap: nat, view: map<Slot, nat>) {
    forall k | k in view :: view[k] <= cap
  }

  ghost predicate TimeoutsCapped(cap: nat, timeouts: map<nat, seq<Timeout>>) {
    forall r, t | r in timeouts && t in timeouts[r] :: t.view <= cap
  }

  /** Only a block's own proposal is put forward in view 0. */
  ghost predicate MessageCalm(c: Context, m: Message) {
    && m.p.view <= c.Cap()
    && (m.PrePrepare? && m.p.view == 0 ==> m.p == OwnProposal(c.block))
    && (m.Prepare? && m.p.view == 0 ==> Known(c, m.p.Block()))
    && (m.ViewChange? || m.NewView? ==> m.p.view != 0)
  }

  ghost predicate OutCalm(c: Context, out: seq<Message>) {
    forall m | m in out :: MessageCalm(c, m)
  }

  ghost predicate Calm(c: Context, out: seq<Message>, s: State) {
    && PreparesBacked(c, out, s.bitsets)
    && PrePreparedKnown(c, s.prePrepared)
    && OutCalm(c, out)
    && ViewsGrow(c.start.view, s.view, 0)
    && ViewsCapped(c.Cap(), s.view)
    && TimeoutsCapped(c.Cap(), s.timeouts)
  }

  ghost predicate LegitCalm(c: Context, sender: nat, m: Message) {
    && m.p.view <= c.Cap()
    && (m.PrePrepare? && m.p.view == 0 ==> sender == m.p.node && Known(c, m.p.Block()))
    && (m.Prepare? && m.p.view == 0 ==> Known(c, m.p.Block()))
    && (m.ViewChange? || m.NewView? ==> m.p.view != 0)
  }

  // --- growth ---

  lemma GrowsSelf(s: State)
    ensures Grows(s, s, 0)
  {
  }

  lemma GrowsTransitive(s: State, t: State, u: State, low: nat)
    requires Grows(s, t, low) && Grows(t, u, low)
    ensures Grows(s, u, low)
  {
  }

  ghost predicate VotesExtend(s: State, p: Proposal, b: Votes) {
    VotesFor(s, p).prepares <= b.prepares && VotesFor(s, p).commits <= b.commits
  }

  /** Each write, where the interpreter makes it, only adds. */
  lemma SetVotesGrows(s: State, p: Proposal, b: Votes)
    requires VotesExtend(s, p, b)
    ensures Grows(s, SetVotes(s, p, b), 0)
  {
    GrowsSelf(s);
    assert VotesGrow(s.bitsets, s.bitsets[p := b], 0);
  }

  lemma SetPrePreparedGrows(s: State, p: Proposal)
    requires p.Key() !in s.prePrepared
    ensures Grows(s, SetPrePrepared(s, p), 0)
  {
    GrowsSelf(s);
    assert BallotsKept(s.prePrepared, s.prePrepared[p.Key() := p], 0);
  }

  lemma SetPreparedGrows(s: State, p: Proposal)
    ensures Grows(s, SetPrepared(s, p), 0)
  {
    GrowsSelf(s);
    assert p.Key() !in s.prepared ==> BallotsKept(s.prepared, s.prepared[p.Key() := p.hash], 0);
  }

  lemma SetViewChangedGrows(s: State, k: Ballot, ref: Ref)
    requires k in s.viewChanged ==> s.viewChanged[k] == ref
    ensures Grows(s, SetViewChanged(s, k, ref), 0)
  {
    GrowsSelf(s);
    assert BallotsKept(s.viewChanged, s.viewChanged[k := ref], 0);
  }

  lemma SetNewViewGrows(s: State, k: Ballot)
    ensures Grows(s, SetNewView(s, k), 0)
  {
    GrowsSelf(s);
  }

  lemma SetFinalGrows(s: State, p: Proposal)
    requires p.At() !in s.final
    ensures Grows(s, SetFinal(s, p), 0)
  {
    GrowsSelf(s);
    assert SlotsKept(s.final, s.final[p.At() := p.hash], 0);
  }

  // --- soundness of each write ---

  lemma OutBackedGrows(c: Context, out: seq<Message>, s: State, t: State)
    requires OutBacked(c, out, s) && Grows(s, t, 0)
    ensures OutBacked(c, out, t)
  {
    forall m | m in out ensures MessageBacked(c, t, m) {
      assert MessageBacked(c, s, m);
      if m.Commit? {
        CardinalityGrows(s.bitsets[m.p].prepares, t.bitsets[m.p].prepares);
      }
    }
  }

  lemma FinalBackedGrows(quorum: nat, a: map<Proposal, Votes>, b: map<Proposal, Votes>, final: map<Slot, Hash>)
    requires FinalBacked(quorum, a, final) && VotesGrow(a, b, 0)
    ensures FinalBacked(quorum, b, final)
  {
    forall k | k in final ensures Certified(quorum, b, k, final[k]) {
      var p :| p in a && p.At() == k && p.hash == final[k] && |a[p].commits| >= quorum;
      CardinalityGrows(a[p].commits, b[p].commits);
    }
  }

  /** A write that adds no vote and no decision. */
  lemma WriteSound(c: Context, out: seq<Message>, s: State, t: State)
    requires Sound(c, out, s) && Grows(s, t, 0)
    requires t.bitsets == s.bitsets && t.final == s.final && t.done == s.done
    ensures Sound(c, out, t)
  {
    hide CommitsSent, OutBacked, FinalBacked, Grows, OnceOnly;
    OutBackedGrows(c, out, s, t);
    GrowsTransitive(c.start, s, t, 0);
  }

  /** New votes, each of whose commits was sent. */
  lemma VotesSound(c: Context, out: seq<Message>, s: State, p: Proposal, b: Votes)
    requires Sound(c, out, s) && VotesExtend(s, p, b)
    requires forall x | x in b.commits :: Sent(c, out, Commit(p, x))
    ensures Sound(c, out, SetVotes(s, p, b))
  {
    hide OutBacked, FinalBacked, OnceOnly, Sent;
    var t := SetVotes(s, p, b);
    SetVotesGrows(s, p, b);
    OutBackedGrows(c, out, s, t);
    FinalBackedGrows(c.quorum, s.bitsets, t.bitsets, s.final);
    GrowsTransitive(c.start, s, t, 0);
  }

  lemma SentGrows(c: Context, out: seq<Message>, out': seq<Message>, m: Message)
    requires m.Prepare? || m.Commit?
    requires Sent(c, out, m) && out <= out'
    ensures Sent(c, out', m)
  {
  }

  lemma CommitsSentGrows(c: Context, out: seq<Message>, out': seq<Message>, bitsets: map<Proposal, Votes>)
    requires CommitsSent(c, out, bitsets) && out <= out'
    ensures CommitsSent(c, out', bitsets)
  {
    forall p, x | p in bitsets && x in bitsets[p].commits ensures Sent(c, out', Commit(p, x)) {
      SentGrows(c, out, out', Commit(p, x));
    }
  }

  /** A further message that its block's state backs. */
  lemma AppendSound(c: Context, out: seq<Message>, s: State, m: Message)
    requires Sound(c, out, s) && MessageBacked(c, s, m)
    requires forall i | 0 <= i < |out| :: Differ(out[i], m)
    ensures Sound(c, out + [m], s)
  {
    hide CommitsSent, FinalBacked, Grows, MessageBacked, Differ;
    CommitsSentGrows(c, out, out + [m], s.bitsets);
  }

  /** A block's own prepare: recorded and put out together. */
  lemma PrepareSound(c: Context, out: seq<Message>, s: State, p: Proposal)
    requires Sound(c, out, s) && p.Key() !in s.prePrepared
    ensures Sound(c, out + [Prepare(p, c.block.node)], SetPrePrepared(s, p))
  {
    var t := SetPrePrepared(s, p);
    var m := Prepare(p, c.block.node);
    SetPrePreparedGrows(s, p);
    forall i | 0 <= i < |out| ensures Differ(out[i], m) {
      assert MessageBacked(c, s, out[i]);
    }
    assert MessageBacked(c, t, m);
    hide CommitsSent, OutBacked, FinalBacked, Grows, OnceOnly, MessageBacked, Differ;
    WriteSound(c, out, s, t);
    AppendSound(c, out, t, m);
  }

  /** A block's own commit: its vote and its message come together. */
  lemma CommitSound(c: Context, out: seq<Message>, s: State, p: Proposal, b: Votes)
    requires Sound(c, out, s)
    requires VotesExtend(s, p, b) && |b.prepares| >= c.quorum
    requires c.block.node !in VotesFor(s, p).commits && b.commits == VotesFor(s, p).commits + {c.block.node}
    ensures Sound(c, out + [Commit(p, c.block.node)], SetVotes(s, p, b))
  {
    var t := SetVotes(s, p, b);
    var m := Commit(p, c.block.node);
    SetVotesGrows(s, p, b);
    forall i | 0 <= i < |out| ensures Differ(out[i], m) {
      assert MessageBacked(c, s, out[i]);
    }
    assert MessageBacked(c, t, m);
    hide FinalBacked, OnceOnly, MessageBacked, Differ;
    OutBackedGrows(c, out, s, t);
    FinalBackedGrows(c.quorum, s.bitsets, t.bitsets, s.final);
    CommitsSentGrows(c, out, out + [m], s.bitsets);
    assert Sent(c, out + [m], m);
    assert CommitsSent(c, out + [m], t.bitsets);
    GrowsTransitive(c.start, s, t, 0);
    OnceOnlyAppend(out, m);
  }

  lemma OnceOnlyAppend(out: seq<Message>, m: Message)
    requires OnceOnly(out) && forall i | 0 <= i < |out| :: Differ(out[i], m)
    ensures OnceOnly(out + [m])
  {
    hide Differ;
  }

  /** A decision with the quorum that backs it. */
  lemma FinalSound(c: Context, out: seq<Message>, s: State, p: Proposal)
    requires Sound(c, out, s) && p.At() !in s.final
    requires p in s.bitsets && |s.bitsets[p].commits| >= c.quorum
    ensures Sound(c, out, SetFinal(s, p))
  {
    hide CommitsSent, OutBacked, OnceOnly;
    var t := SetFinal(s, p);
    SetFinalGrows(s, p);
    OutBackedGrows(c, out, s, t);
    GrowsTransitive(c.start, s, t, 0);
    forall k | k in t.final ensures Certified(c.quorum, t.bitsets, k, t.final[k]) {
      if k != p.At() {
        assert Certified(c.quorum, s.bitsets, k, s.final[k]);
      }
    }
  }

  // --- soundness of each handler ---

  lemma OldCommitsSent(c: Context, out: seq<Message>, s: State, p: Proposal)
    requires Sound(c, out, s)
    ensures forall x | x in VotesFor(s, p).commits :: Sent(c, out, Commit(p, x))
  {
    hide OutBacked, OnceOnly, FinalBacked, Grows, Sent;
  }

  lemma OnPrePrepareSound(c: Context, out: seq<Message>, s: State, h: Heap, sender: nat, p: Proposal)
    requires Sound(c, out, s) && p.At() in s.view
    ensures
      var r := OnPrePrepare(s, h, sender, c.block.node, p);
      Sound(c, Append(out, r.reply), r.s)
  {
    hide Sound, VotesFor, Sent;
    var r := OnPrePrepare(s, h, sender, c.block.node, p);
    if r.reply.Some? {
      var b := AddPrepare(AddPrepare(VotesFor(s, p), sender), c.block.node);
      OldCommitsSent(c, out, s, p);
      VotesSound(c, out, s, p, b);
      PrepareSound(c, out, SetVotes(s, p, b), p);
    }
  }

  lemma OnPrepareSound(c: Context, out: seq<Message>, s: State, h: Heap, p: Proposal, voter: nat)
    requires Sound(c, out, s) && p.At() in s.view
    ensures
      var r := OnPrepare(s, h, c.quorum, c.block.node, p, voter);
      Sound(c, Append(out, r.reply), r.s)
  {
    hide Sound, VotesFor, Sent, SetVotes, SetPrepared;
    var r := OnPrepare(s, h, c.quorum, c.block.node, p, voter);
    var b := AddPrepare(VotesFor(s, p), voter);
    if r.reply.Some? {
      var b' := AddCommit(b, c.block.node);
      CommitSound(c, out, s, p, b');
      PreparedSound(c, out + [Commit(p, c.block.node)], SetVotes(s, p, b'), p);
    } else {
      OldCommitsSent(c, out, s, p);
      VotesSound(c, out, s, p, b);
    }
  }

  lemma PreparedSound(c: Context, out: seq<Message>, s: State, p: Proposal)
    requires Sound(c, out, s)
    ensures Sound(c, out, SetPrepared(s, p))
  {
    hide Sound, Grows;
    SetPreparedGrows(s, p);
    WriteSound(c, out, s, SetPrepared(s, p));
  }

  lemma OnCommitSound(c: Context, out: seq<Message>, s: State, h: Heap, p: Proposal, voter: nat)
    requires Sound(c, out, s) && p.At() in s.view && Sent(c, out, Commit(p, voter))
    ensures
      var r := OnCommit(s, h, c.quorum, p, voter);
      && Sound(c, Append(out, r.reply), r.s)
      && (r.decided ==> p.At() in r.s.final && r.s.final[p.At()] == p.hash)
  {
    hide Sound, VotesFor, Sent;
    var r := OnCommit(s, h, c.quorum, p, voter);
    var b := AddCommit(VotesFor(s, p), voter);
    OldCommitsSent(c, out, s, p);
    VotesSound(c, out, s, p, b);
    if r.decided {
      FinalSound(c, out, SetVotes(s, p, b), p);
    }
  }

  lemma OnViewChangeSound(c: Context, out: seq<Message>, s: State, h: Heap, p: Proposal, voter: nat)
    requires Sound(c, out, s) && p.At() in s.view
    requires OnViewChange(s, h, c.quorum, c.block.node, p, voter).Ok?
    ensures
      var r := OnViewChange(s, h, c.quorum, c.block.node, p, voter).value;
      && Sound(c, Append(out, r.reply), r.s)
      && !r.decided && (r.reply.Some? ==> r.reply.value.NewView?)
  {
    hide Sound, Grows, ReportedHash, Write, Read;
    var r := OnViewChange(s, h, c.quorum, c.block.node, p, voter).value;
    var k := Ballot(p.node, p.round, s.view[p.At()]);
    var ref := if k in s.viewChanged then s.viewChanged[k] else |h|;
    var t := SetViewChanged(s, k, ref);
    SetViewChangedGrows(s, k, ref);
    WriteSound(c, out, s, t);
    if r.reply.Some? {
      SetViewGrows(t, p.At(), p.view);
      WriteSound(c, out, t, r.s);
      AppendSound(c, out, r.s, r.reply.value);
    }
  }

  lemma SetViewGrows(s: State, k: Slot, v: nat)
    ensures Grows(s, SetView(s, k, v), 0)
  {
    GrowsSelf(s);
  }

  lemma AddTimeoutsGrows(s: State, at: nat, ts: seq<Timeout>)
    ensures Grows(s, AddTimeouts(s, at, ts), 0)
  {
    GrowsSelf(s);
  }

  lemma OnNewViewSound(c: Context, out: seq<Message>, s: State, h: Heap, origin: nat, p: Proposal)
    requires Sound(c, out, s) && p.At() in s.view
    ensures
      var r := OnNewView(s, h, origin, p);
      Sound(c, Append(out, r.reply), r.s)
  {
    hide Sound, Grows;
    var r := OnNewView(s, h, origin, p);
    if r.reply.Some? {
      var t := SetView(s, p.At(), p.view);
      SetViewGrows(s, p.At(), p.view);
      WriteSound(c, out, s, t);
      var u := SetNewView(t, p.Key());
      SetNewViewGrows(t, p.Key());
      WriteSound(c, out, t, u);
      AddTimeoutsGrows(u, Wrap64(origin + s.timeout + 5), [Timeout(p.node, p.round, p.view)]);
      WriteSound(c, out, u, r.s);
      AppendSound(c, out, r.s, r.reply.value);
    }
  }

  /** The interpretation of a message that was sent keeps all the evidence. */
  lemma InterpretSound(c: Context, out: seq<Message>, s: State, h: Heap, sender: nat, origin: nat, msg: Message)
    requires Sound(c, out, s) && Legit(c, out, msg)
    requires Interpret(s, h, c.quorum, sender, c.block.node, origin, msg).Ok?
    ensures
      var r := Interpret(s, h, c.quorum, sender, c.block.node, origin, msg).value;
      && Sound(c, Append(out, r.reply), r.s)
      && (r.decided ==> msg.p.At() in r.s.final && r.s.final[msg.p.At()] == msg.p.hash)
      && (r.reply.Some? ==> Legit(c, Append(out, r.reply), r.reply.value))
  {
    hide Grows, FinalBacked, OnceOnly, OutBacked, CommitsSent, OnViewChange;
    var t := TouchView(s, msg.p.At());
    SetViewGrows(s, msg.p.At(), 0);
    if t != s {
      WriteSound(c, out, s, t);
    }
    match msg
    case PrePrepare(p) => OnPrePrepareSound(c, out, t, h, sender, p);
    case Prepare(p, voter) => OnPrepareSound(c, out, t, h, p, voter);
    case Commit(p, voter) => OnCommitSound(c, out, t, h, p, voter);
    case ViewChange(p, voter) => OnViewChangeSound(c, out, t, h, p, voter);
    case NewView(p, _) => OnNewViewSound(c, out, t, h, origin, p);
  }

  // --- the same, as long as no view counter has wrapped around ---

  lemma PreparesBackedGrows(c: Context, out: seq<Message>, out': seq<Message>, bitsets: map<Proposal, Votes>)
    requires PreparesBacked(c, out, bitsets) && out <= out'
    ensures PreparesBacked(c, out', bitsets)
  {
    hide Known, Sent;
    forall p, x | p in bitsets && p.view == 0 && x in bitsets[p].prepares ensures PrepareBacked(c, out', p, x) {
      assert PrepareBacked(c, out, p, x);
      if Sent(c, out, Prepare(p, x)) {
        SentGrows(c, out, out', Prepare(p, x));
      }
    }
  }

  lemma AppendCalm(c: Context, out: seq<Message>, s: State, m: Message)
    requires Calm(c, out, s) && MessageCalm(c, m)
    ensures Calm(c, out + [m], s)
  {
    hide PreparesBacked, PrePreparedKnown, MessageCalm, ViewsGrow, ViewsCapped, TimeoutsCapped;
    PreparesBackedGrows(c, out, out + [m], s.bitsets);
  }

  /** A write to none of the parts that Calm speaks of. */
  lemma WriteCalm(c: Context, out: seq<Message>, s: State, t: State)
    requires Calm(c, out, s)
    requires t.bitsets == s.bitsets && t.prePrepared == s.prePrepared && t.view == s.view && t.timeouts == s.timeouts
    ensures Calm(c, out, t)
  {
    hide PreparesBacked, PrePreparedKnown, OutCalm, ViewsGrow, ViewsCapped, TimeoutsCapped;
  }

  lemma VotesCalm(c: Context, out: seq<Message>, s: State, p: Proposal, b: Votes)
    requires Calm(c, out, s)
    requires p.view == 0 ==> forall x | x in b.prepares && x !in VotesFor(s, p).prepares :: PrepareBacked(c, out, p, x)
    ensures Calm(c, out, SetVotes(s, p, b))
  {
    hide PrepareBacked, PrePreparedKnown, OutCalm, ViewsGrow, ViewsCapped, TimeoutsCapped;
    var t := SetVotes(s, p, b);
    assert PreparesBacked(c, out, t.bitsets);
  }

  lemma PrePreparedCalm(c: Context, out: seq<Message>, s: State, p: Proposal)
    requires Calm(c, out, s) && (p.view == 0 ==> Known(c, p.Block()))
    ensures Calm(c, out, SetPrePrepared(s, p))
  {
    hide PreparesBacked, Known, OutCalm, ViewsGrow, ViewsCapped, TimeoutsCapped;
    assert PrePreparedKnown(c, s.prePrepared[p.Key() := p]);
  }

  lemma ViewCalm(c: Context, out: seq<Message>, s: State, k: Slot, v: nat)
    requires Calm(c, out, s) && v <= c.Cap() && (k in s.view ==> s.view[k] <= v)
    ensures Calm(c, out, SetView(s, k, v))
  {
    hide PreparesBacked, PrePreparedKnown, OutCalm, TimeoutsCapped;
    assert ViewsGrow(c.start.view, s.view[k := v], 0);
    assert ViewsCapped(c.Cap(), s.view[k := v]);
  }

  lemma TimeoutsCalm(c: Context, out: seq<Message>, s: State, at: nat, ts: seq<Timeout>)
    requires Calm(c, out, s) && forall t | t in ts :: t.view <= c.Cap()
    ensures Calm(c, out, AddTimeouts(s, at, ts))
  {
    hide PreparesBacked, PrePreparedKnown, OutCalm, ViewsGrow, ViewsCapped;
    assert TimeoutsCapped(c.Cap(), s.timeouts[at := TimeoutsAt(s, at) + ts]);
  }

  lemma OnPrePrepareCalm(c: Context, out: seq<Message>, s: State, h: Heap, sender: nat, p: Proposal)
    requires Calm(c, out, s) && p.At() in s.view && LegitCalm(c, sender, PrePrepare(p))
    ensures
      var r := OnPrePrepare(s, h, sender, c.block.node, p);
      Calm(c, Append(out, r.reply), r.s)
  {
    hide Calm, Known;
    var me := c.block.node;
    var m := Prepare(p, me);
    var r := OnPrePrepare(s, h, sender, me, p);
    if r.reply.Some? {
      var b := AddPrepare(AddPrepare(VotesFor(s, p), sender), me);
      AppendCalm(c, out, s, m);
      assert Sent(c, out + [m], m);
      VotesCalm(c, out + [m], s, p, b);
      PrePreparedCalm(c, out + [m], SetVotes(s, p, b), p);
    }
  }

  lemma OnPrepareCalm(c: Context, out: seq<Message>, s: State, h: Heap, p: Proposal, voter: nat)
    requires Calm(c, out, s) && p.At() in s.view
    requires Sent(c, out, Prepare(p, voter)) && LegitCalm(c, voter, Prepare(p, voter))
    ensures
      var r := OnPrepare(s, h, c.quorum, c.block.node, p, voter);
      Calm(c, Append(out, r.reply), r.s)
  {
    hide Calm, Known, Sent;
    var r := OnPrepare(s, h, c.quorum, c.block.node, p, voter);
    var b := AddPrepare(VotesFor(s, p), voter);
    if r.reply.Some? {
      var b' := AddCommit(b, c.block.node);
      VotesCalm(c, out, s, p, b');
      WriteCalm(c, out, SetVotes(s, p, b'), r.s);
      AppendCalm(c, out, r.s, r.reply.value);
    } else {
      VotesCalm(c, out, s, p, b);
    }
  }

  lemma OnCommitCalm(c: Context, out: seq<Message>, s: State, h: Heap, p: Proposal, voter: nat)
    requires Calm(c, out, s) && p.At() in s.view
    ensures
      var r := OnCommit(s, h, c.quorum, p, voter);
      Calm(c, Append(out, r.reply), r.s)
  {
    hide Calm, PrepareBacked;
    var r := OnCommit(s, h, c.quorum, p, voter);
    var b := AddCommit(VotesFor(s, p), voter);
    VotesCalm(c, out, s, p, b);
    if r.decided {
      WriteCalm(c, out, SetVotes(s, p, b), r.s);
    }
  }

  lemma OnViewChangeCalm(c: Context, out: seq<Message>, s: State, h: Heap, p: Proposal, voter: nat)
    requires Calm(c, out, s) && p.At() in s.view && LegitCalm(c, voter, ViewChange(p, voter))
    requires OnViewChange(s, h, c.quorum, c.block.node, p, voter).Ok?
    ensures
      var r := OnViewChange(s, h, c.quorum, c.block.node, p, voter).value;
      && Calm(c, Append(out, r.reply), r.s)
      && (r.reply.Some? ==> r.reply.value.NewView? && r.reply.value.p.view == p.view)
  {
    hide Calm, ReportedHash, Write, Read;
    var r := OnViewChange(s, h, c.quorum, c.block.node, p, voter).value;
    var k := Ballot(p.node, p.round, s.view[p.At()]);
    var ref := if k in s.viewChanged then s.viewChanged[k] else |h|;
    if s.view[p.At()] <= p.view {
      var t := SetViewChanged(s, k, ref);
      WriteCalm(c, out, s, t);
      if r.reply.Some? {
        ViewCalm(c, out, t, p.At(), p.view);
        AppendCalm(c, out, r.s, r.reply.value);
      }
    }
  }

  lemma OnNewViewCalm(c: Context, out: seq<Message>, s: State, h: Heap, origin: nat, p: Proposal, voter: nat)
    requires Calm(c, out, s) && p.At() in s.view && LegitCalm(c, voter, NewView(p, voter))
    ensures
      var r := OnNewView(s, h, origin, p);
      Calm(c, Append(out, r.reply), r.s)
  {
    hide Calm;
    var r := OnNewView(s, h, origin, p);
    if r.reply.Some? {
      var t := SetView(s, p.At(), p.view);
      ViewCalm(c, out, s, p.At(), p.view);
      var u := SetNewView(t, p.Key());
      WriteCalm(c, out, t, u);
      TimeoutsCalm(c, out, u, Wrap64(origin + s.timeout + 5), [Timeout(p.node, p.round, p.view)]);
      AppendCalm(c, out, r.s, r.reply.value);
    }
  }

  /** Whoever passes the reply on, it is as legitimate as the message that it answers. */
  lemma InterpretCalm(c: Context, out: seq<Message>, s: State, h: Heap, sender: nat, origin: nat, msg: Message)
    requires Calm(c, out, s) && Legit(c, out, msg) && LegitCalm(c, sender, msg)
    requires Interpret(s, h, c.quorum, sender, c.block.node, origin, msg).Ok?
    ensures
      var r := Interpret(s, h, c.quorum, sender, c.block.node, origin, msg).value;
      && Calm(c, Append(out, r.reply), r.s)
      && (r.reply.Some? ==> LegitCalm(c, sender, r.reply.value))
  {
    hide Calm, Known, Sent, OnViewChange;
    var k := msg.p.At();
    var t := TouchView(s, k);
    if k !in s.view {
      ViewCalm(c, out, s, k, 0);
    }
    if msg.p.At() !in s.done {
      match msg
      case PrePrepare(p) => OnPrePrepareCalm(c, out, t, h, sender, p);
      case Prepare(p, voter) => OnPrepareCalm(c, out, t, h, p, voter);
      case Commit(p, voter) => OnCommitCalm(c, out, t, h, p, voter);
      case ViewChange(p, voter) => OnViewChangeCalm(c, out, t, h, p, voter);
      case NewView(p, voter) => OnNewViewCalm(c, out, t, h, origin, p, voter);
    }
  }
}
