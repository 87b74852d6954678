/**
  Which nodes and rounds a state speaks of. The `max` that run records for a block is an upper bound
  for every round in the block's state: this is what pruning relies on.
 */
module Zones {
  import opened Bytes
  import opened Outcomes
  import opened Protocol

  datatype Zone = Zone(nodes: set<nat>, top: nat) {
    predicate Holds(node: nat, round: nat) {
      node in nodes && round <= top
    }
  }

  ghost predicate VotesIn(z: Zone, bitsets: map<Proposal, Votes>) {
    forall p | p in bitsets :: z.Holds(p.node, p.round) && bitsets[p].prepares <= z.nodes
      && bitsets[p].commits <= z.nodes
  }

  ghost predicate SlotsIn<V(!new)>(z: Zone, m: map<Slot, V>) {
    forall k | k in m :: z.Holds(k.node, k.round)
  }

  ghost predicate BallotsIn<V(!new)>(z: Zone, m: map<Ballot, V>) {
    forall k | k in m :: z.Holds(k.node, k.round)
  }

  ghost predicate FlagsIn(z: Zone, ks: set<Ballot>) {
    forall k | k in ks :: z.Holds(k.node, k.round)
  }

  ghost predicate TimeoutsIn(z: Zone, timeouts: map<nat, seq<Timeout>>) {
    forall r, t | r in timeouts && t in timeouts[r] :: z.Holds(t.node, t.round)
  }

  predicate MessageIn(z: Zone, m: Message) {
    z.Holds(m.p.node, m.p.round) && (m.PrePrepare? || m.sender in z.nodes)
  }

  ghost predicate MessagesIn(z: Zone, msgs: seq<Message>) {
    forall m | m in msgs :: MessageIn(z, m)
  }

  /** Every entry of the state except its messages. */
  ghost predicate DataIn(z: Zone, s: State) {
    && VotesIn(z, s.bitsets)
    && SlotsIn(z, s.view)
    && BallotsIn(z, s.prePrepared)
    && BallotsIn(z, s.prepared)
    && BallotsIn(z, s.viewChanged)
    && FlagsIn(z, s.hnv)
    && SlotsIn(z, s.final)
    && TimeoutsIn(z, s.timeouts)
  }

  ghost predicate StateIn(z: Zone, s: State) {
    DataIn(z, s) && MessagesIn(z, s.out)
  }

  lemma ZoneGrows(z: Zone, z': Zone, s: State)
    requires DataIn(z, s) && z.nodes == z'.nodes && z.top <= z'.top
    ensures DataIn(z', s)
  {
  }

  lemma MessagesZoneGrows(z: Zone, z': Zone, msgs: seq<Message>)
    requires MessagesIn(z, msgs) && z.nodes == z'.nodes && z.top <= z'.top
    ensures MessagesIn(z', msgs)
  {
  }

  lemma FreshIn(z: Zone)
    ensures StateIn(z, FRESH)
  {
  }

  lemma CloneIn(z: Zone, s: State, low: nat)
    requires DataIn(z, s)
    ensures DataIn(z, Clone(s, low))
  {
  }

  lemma VotesInZone(z: Zone, s: State, p: Proposal, b: Votes)
    requires DataIn(z, s) && z.Holds(p.node, p.round) && b.prepares <= z.nodes && b.commits <= z.nodes
    ensures DataIn(z, SetVotes(s, p, b))
  {
    hide SlotsIn, BallotsIn, FlagsIn, TimeoutsIn;
  }

  lemma VotesForIn(z: Zone, s: State, p: Proposal, x: nat)
    requires DataIn(z, s) && x in z.nodes
    ensures var b := VotesFor(s, p); b.prepares <= z.nodes && b.commits <= z.nodes && {x} <= z.nodes
  {
    hide SlotsIn, BallotsIn, FlagsIn, TimeoutsIn;
  }

  lemma ViewInZone(z: Zone, s: State, k: Slot, v: nat)
    requires DataIn(z, s) && z.Holds(k.node, k.round)
    ensures DataIn(z, SetView(s, k, v))
  {
    hide VotesIn, BallotsIn, FlagsIn, TimeoutsIn;
    assert SlotsIn(z, s.view[k := v]);
  }

  lemma PrePreparedInZone(z: Zone, s: State, p: Proposal)
    requires DataIn(z, s) && z.Holds(p.node, p.round)
    ensures DataIn(z, SetPrePrepared(s, p)) && DataIn(z, SetPrepared(s, p)) && DataIn(z, SetNewView(s, p.Key()))
  {
    hide VotesIn, SlotsIn, TimeoutsIn;
    assert BallotsIn(z, s.prePrepared[p.Key() := p]) && BallotsIn(z, s.prepared[p.Key() := p.hash]);
    assert FlagsIn(z, s.hnv + {p.Key()});
  }

  lemma ViewChangedInZone(z: Zone, s: State, k: Ballot, ref: Ref)
    requires DataIn(z, s) && z.Holds(k.node, k.round)
    ensures DataIn(z, SetViewChanged(s, k, ref))
  {
    hide VotesIn, SlotsIn, FlagsIn, TimeoutsIn;
    assert BallotsIn(z, s.viewChanged[k := ref]);
  }

  lemma FinalInZone(z: Zone, s: State, p: Proposal)
    requires DataIn(z, s) && z.Holds(p.node, p.round)
    ensures DataIn(z, SetFinal(s, p))
  {
    hide VotesIn, BallotsIn, FlagsIn, TimeoutsIn;
    assert SlotsIn(z, s.final[p.At() := p.hash]);
  }

  lemma TimeoutsInZone(z: Zone, s: State, at: nat, ts: seq<Timeout>)
    requires DataIn(z, s) && forall t | t in ts :: z.Holds(t.node, t.round)
    ensures DataIn(z, AddTimeouts(s, at, ts))
  {
    hide VotesIn, SlotsIn, BallotsIn, FlagsIn;
    assert TimeoutsIn(z, s.timeouts[at := TimeoutsAt(s, at) + ts]);
  }

  /** The interpretation of a message stays in the zone of the state and the message. */
  lemma InterpretInZone(z: Zone, s: State, h: Heap, quorum: nat, sender: nat, receiver: nat, origin: nat, msg: Message)
    requires DataIn(z, s) && MessageIn(z, msg) && sender in z.nodes && receiver in z.nodes
    requires Interpret(s, h, quorum, sender, receiver, origin, msg).Ok?
    ensures
      var r := Interpret(s, h, quorum, sender, receiver, origin, msg).value;
      DataIn(z, r.s) && (r.reply.Some? ==> MessageIn(z, r.reply.value))
  {
    hide DataIn, OnPrePrepare, OnPrepare, OnCommit, OnViewChange, OnNewView, TouchView;
    var k := msg.p.At();
    if k !in s.done {
      var t := TouchView(s, k);
      TouchInZone(z, s, k);
      match msg
      case PrePrepare(p) => OnPrePrepareInZone(z, t, h, sender, receiver, p);
      case Prepare(p, voter) => OnPrepareInZone(z, t, h, quorum, receiver, p, voter);
      case Commit(p, voter) => OnCommitInZone(z, t, h, quorum, p, voter);
      case ViewChange(p, voter) => OnViewChangeInZone(z, t, h, quorum, receiver, p, voter);
      case NewView(p, _) => OnNewViewInZone(z, t, h, origin, p);
    }
  }

  lemma TouchInZone(z: Zone, s: State, k: Slot)
    requires DataIn(z, s) && z.Holds(k.node, k.round)
    ensures DataIn(z, TouchView(s, k))
  {
    hide DataIn;
    ViewInZone(z, s, k, 0);
  }

  lemma OnPrePrepareInZone(z: Zone, s: State, h: Heap, sender: nat, receiver: nat, p: Proposal)
    requires DataIn(z, s) && z.Holds(p.node, p.round) && sender in z.nodes && receiver in z.nodes && p.At() in s.view
    ensures
      var r := OnPrePrepare(s, h, sender, receiver, p);
      DataIn(z, r.s) && (r.reply.Some? ==> MessageIn(z, r.reply.value))
  {
    hide DataIn, VotesFor;
    VotesForIn(z, s, p, sender);
    var b := AddPrepare(AddPrepare(VotesFor(s, p), sender), receiver);
    VotesInZone(z, s, p, b);
    PrePreparedInZone(z, SetVotes(s, p, b), p);
  }

  lemma OnPrepareInZone(z: Zone, s: State, h: Heap, quorum: nat, receiver: nat, p: Proposal, voter: nat)
    requires DataIn(z, s) && z.Holds(p.node, p.round) && voter in z.nodes && receiver in z.nodes && p.At() in s.view
    ensures
      var r := OnPrepare(s, h, quorum, receiver, p, voter);
      DataIn(z, r.s) && (r.reply.Some? ==> MessageIn(z, r.reply.value))
  {
    hide DataIn, VotesFor;
    VotesForIn(z, s, p, voter);
    var b := AddPrepare(VotesFor(s, p), voter);
    var b' := AddCommit(b, receiver);
    VotesInZone(z, s, p, b);
    VotesInZone(z, s, p, b');
    PrePreparedInZone(z, SetVotes(s, p, b'), p);
  }

  lemma OnCommitInZone(z: Zone, s: State, h: Heap, quorum: nat, p: Proposal, voter: nat)
    requires DataIn(z, s) && z.Holds(p.node, p.round) && voter in z.nodes && p.At() in s.view
    ensures
      var r := OnCommit(s, h, quorum, p, voter);
      DataIn(z, r.s) && r.reply.None?
  {
    hide DataIn, VotesFor;
    VotesForIn(z, s, p, voter);
    var b := AddCommit(VotesFor(s, p), voter);
    VotesInZone(z, s, p, b);
    FinalInZone(z, SetVotes(s, p, b), p);
  }

  lemma OnViewChangeInZone(z: Zone, s: State, h: Heap, quorum: nat, receiver: nat, p: Proposal, voter: nat)
    requires DataIn(z, s) && z.Holds(p.node, p.round) && receiver in z.nodes && p.At() in s.view
    requires OnViewChange(s, h, quorum, receiver, p, voter).Ok?
    ensures
      var r := OnViewChange(s, h, quorum, receiver, p, voter).value;
      DataIn(z, r.s) && (r.reply.Some? ==> MessageIn(z, r.reply.value))
  {
    hide DataIn, ReportedHash, Read, Write;
    var k := Ballot(p.node, p.round, s.view[p.At()]);
    var ref := if k in s.viewChanged then s.viewChanged[k] else |h|;
    ViewChangedInZone(z, s, k, ref);
    ViewInZone(z, SetViewChanged(s, k, ref), p.At(), p.view);
  }

  lemma OnNewViewInZone(z: Zone, s: State, h: Heap, origin: nat, p: Proposal)
    requires DataIn(z, s) && z.Holds(p.node, p.round) && p.At() in s.view
    ensures
      var r := OnNewView(s, h, origin, p);
      DataIn(z, r.s) && (r.reply.Some? ==> MessageIn(z, r.reply.value))
  {
    hide DataIn;
    var t := SetView(s, p.At(), p.view);
    ViewInZone(z, s, p.At(), p.view);
    PrePreparedInZone(z, t, p);
    TimeoutsInZone(z, SetNewView(t, p.Key()), Wrap64(origin + s.timeout + 5), [Timeout(p.node, p.round, p.view)]);
  }
}
