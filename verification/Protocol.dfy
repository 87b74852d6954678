/**
  The messages of the consensus protocol, the state that the interpreter keeps for a block, and the
  interpretation of one message: blockmania/messages, blockmania/states, blockmania/state.go and
  processMessage in blockmania/graph.go.
 */
module Protocol {
  import opened Bytes
  import opened Ids
  import opened Outcomes

  /** A node's position for one round (nodeRound, and the keys states.View and states.Final). */
  datatype Slot = Slot(node: nat, round: nat)

  /** A slot in one view (the keys states.HNV, Prepared, PrePrepared and ViewChanged). */
  datatype Ballot = Ballot(node: nat, round: nat, view: nat)

  /** What a PrePrepare message says; also the key under which votes are counted. */
  datatype Proposal = Proposal(hash: Hash, node: nat, round: nat, view: nat) {
    function At(): Slot { Slot(node, round) }
    function Key(): Ballot { Ballot(node, round, view) }
    function Block(): BlockID { BlockID(hash, node, round) }
  }

  datatype Message =
    | PrePrepare(p: Proposal)
    | Prepare(p: Proposal, sender: nat)
    | Commit(p: Proposal, sender: nat)
    | ViewChange(p: Proposal, sender: nat)
    | NewView(p: Proposal, sender: nat)

  /** The sets of nodes whose bits are set in a bitset (see module Bitsets for the words). */
  datatype Votes = Votes(prepares: set<nat>, commits: set<nat>)

  const NO_VOTES := Votes({}, {})

  function AddPrepare(b: Votes, x: nat): Votes {
    b.(prepares := b.prepares + {x})
  }

  function AddCommit(b: Votes, x: nat): Votes {
    b.(commits := b.commits + {x})
  }

  /** The counts are compared for equality, not for reaching the quorum. */
  predicate Exactly(voters: set<nat>, quorum: nat) {
    |voters| == quorum
  }

  datatype Timeout = Timeout(node: nat, round: nat, view: nat)

  /** A view-change map is a Go reference that clones share, so states hold its index in a heap. */
  type Ref = nat
  type Heap = seq<map<nat, Hash>>

  /** The heterogeneous `data` map is one map for each type of key; `done` holds states.Final. */
  datatype State = State(
    bitsets: map<Proposal, Votes>,
    view: map<Slot, nat>,
    prePrepared: map<Ballot, Proposal>,
    prepared: map<Ballot, Hash>,
    viewChanged: map<Ballot, Ref>,
    hnv: set<Ballot>,
    done: set<Slot>,
    delay: map<nat, nat>,
    final: map<Slot, Hash>,
    out: seq<Message>,
    timeout: nat,
    timeouts: map<nat, seq<Timeout>>)

  const FRESH := State(map[], map[], map[], map[], map[], {}, {}, map[], map[], [], 0, map[])

  /** state.clone: drops every entry of a round below `low`; the timeouts go by their own key. */
  function Clone(s: State, low: nat): State {
    State(
      map p | p in s.bitsets && p.round >= low :: s.bitsets[p],
      map k | k in s.view && k.round >= low :: s.view[k],
      map k | k in s.prePrepared && k.round >= low :: s.prePrepared[k],
      map k | k in s.prepared && k.round >= low :: s.prepared[k],
      map k | k in s.viewChanged && k.round >= low :: s.viewChanged[k],
      (set k | k in s.hnv && k.round >= low),
      (set k | k in s.done && k.round >= low),
      s.delay,
      map k | k in s.final && k.round >= low :: s.final[k],
      LiveMessages(s.out, low),
      s.timeout,
      map r | r in s.timeouts && r >= low :: s.timeouts[r])
  }

  function LiveMessages(msgs: seq<Message>, low: nat): (r: seq<Message>)
    ensures forall m | m in r :: m in msgs && m.p.round >= low
  {
    if msgs == [] then []
    else (if msgs[0].p.round >= low then [msgs[0]] else []) + LiveMessages(msgs[1..], low)
  }

  lemma {:induction false} LivePush(msgs: seq<Message>, m: Message, low: nat)
    ensures LiveMessages(msgs + [m], low) == LiveMessages(msgs, low) + if m.p.round >= low then [m] else []
  {
    if msgs != [] {
      assert (msgs + [m])[1..] == msgs[1..] + [m];
      LivePush(msgs[1..], m, low);
    } else {
      assert msgs + [m] == [m];
    }
  }

  /** Exactly the messages of rounds from `low` on stay, in their order. */
  lemma {:induction false} LiveExactly(msgs: seq<Message>, low: nat) returns (at: seq<nat>)
    ensures |at| == |LiveMessages(msgs, low)|
    ensures forall i, j | 0 <= i < j < |at| :: at[i] < at[j]
    ensures forall i | 0 <= i < |at| :: at[i] < |msgs| && LiveMessages(msgs, low)[i] == msgs[at[i]]
    ensures forall k | 0 <= k < |msgs| :: k in at <==> msgs[k].p.round >= low
  {
    at := [];
    if msgs != [] {
      var n := |msgs| - 1;
      at := LiveExactly(msgs[..n], low);
      LivePush(msgs[..n], msgs[n], low);
      assert msgs == msgs[..n] + [msgs[n]];
      hide LiveMessages;
      assert n !in at;
      if msgs[n].p.round >= low {
        at := at + [n];
      }
    }
  }

  // --- reads that insert a default: getBitset, getView ---

  function VotesFor(s: State, p: Proposal): Votes {
    if p in s.bitsets then s.bitsets[p] else NO_VOTES
  }

  function TouchView(s: State, k: Slot): (r: State)
    ensures k in r.view
  {
    if k in s.view then s else SetView(s, k, 0)
  }

  function TimeoutsAt(s: State, round: nat): seq<Timeout> {
    if round in s.timeouts then s.timeouts[round] else []
  }

  // --- writes ---

  function SetVotes(s: State, p: Proposal, b: Votes): State {
    s.(bitsets := s.bitsets[p := b])
  }

  function SetView(s: State, k: Slot, v: nat): State {
    s.(view := s.view[k := v])
  }

  function SetPrePrepared(s: State, p: Proposal): State {
    s.(prePrepared := s.prePrepared[p.Key() := p])
  }

  function SetPrepared(s: State, p: Proposal): State {
    if p.Key() in s.prepared then s else s.(prepared := s.prepared[p.Key() := p.hash])
  }

  function SetViewChanged(s: State, k: Ballot, ref: Ref): State {
    s.(viewChanged := s.viewChanged[k := ref])
  }

  function SetNewView(s: State, k: Ballot): State {
    s.(hnv := s.hnv + {k})
  }

  function SetFinal(s: State, p: Proposal): State {
    s.(final := s.final[p.At() := p.hash])
  }

  function AddTimeouts(s: State, at: nat, ts: seq<Timeout>): State {
    s.(timeouts := s.timeouts[at := TimeoutsAt(s, at) + ts])
  }

  // --- the shared view-change maps ---

  function Read(h: Heap, ref: Ref): map<nat, Hash> {
    if ref < |h| then h[ref] else map[]
  }

  function Write(h: Heap, ref: Ref, m: map<nat, Hash>): Heap {
    if ref < |h| then h[ref := m] else h + [m]
  }

  /** The one non-empty hash that a view-change map reports; two different ones are fatal. */
  ghost function ReportedHash(m: map<nat, Hash>): Outcome<Hash> {
    if exists x, y :: x in m && y in m && m[x] != [] && m[y] != [] && m[x] != m[y] then Fatal
    else if exists x :: x in m && m[x] != [] then
      var x :| x in m && m[x] != [];
      Ok(m[x])
    else Ok([])
  }

  // --- one message ---

  datatype Reaction = Reaction(s: State, heap: Heap, reply: Option<Message>, decided: bool)

  function Silent(s: State, heap: Heap): Reaction {
    Reaction(s, heap, None, false)
  }

  function OnPrePrepare(s: State, h: Heap, sender: nat, receiver: nat, p: Proposal): Reaction
    requires p.At() in s.view
  {
    if s.view[p.At()] != p.view || p.Key() in s.prePrepared then Silent(s, h)
    else
      var b := AddPrepare(AddPrepare(VotesFor(s, p), sender), receiver);
      Reaction(SetPrePrepared(SetVotes(s, p, b), p), h, Some(Prepare(p, receiver)), false)
  }

  function OnPrepare(s: State, h: Heap, quorum: nat, receiver: nat, p: Proposal, voter: nat): Reaction
    requires p.At() in s.view
  {
    var v := s.view[p.At()];
    if v > p.view then Silent(s, h)
    else
      var b := AddPrepare(VotesFor(s, p), voter);
      if v < p.view || !Exactly(b.prepares, quorum) || receiver in b.commits then Silent(SetVotes(s, p, b), h)
      else Reaction(SetPrepared(SetVotes(s, p, AddCommit(b, receiver)), p), h, Some(Commit(p, receiver)), false)
  }

  function OnCommit(s: State, h: Heap, quorum: nat, p: Proposal, voter: nat): Reaction
    requires p.At() in s.view
  {
    if s.view[p.At()] < p.view then Silent(s, h)
    else
      var b := AddCommit(VotesFor(s, p), voter);
      if !Exactly(b.commits, quorum) || p.At() in s.final then Silent(SetVotes(s, p, b), h)
      else Reaction(SetFinal(SetVotes(s, p, b), p), h, None, true)
  }

  ghost function OnViewChange(s: State, h: Heap, quorum: nat, receiver: nat, p: Proposal, voter: nat): Outcome<Reaction>
    requires p.At() in s.view
  {
    var v := s.view[p.At()];
    if v > p.view then Ok(Silent(s, h))
    else
      var k := Ballot(p.node, p.round, v);
      var ref := if k in s.viewChanged then s.viewChanged[k] else |h|;
      var m := Read(h, ref)[voter := p.hash];
      var s' := SetViewChanged(s, k, ref);
      var h' := Write(h, ref, m);
      if !Exactly(m.Keys, quorum) then Ok(Silent(s', h'))
      else
        var hash :- ReportedHash(m);
        Ok(Reaction(SetView(s', p.At(), p.view), h', Some(NewView(p.(hash := hash), receiver)), false))
  }

  function OnNewView(s: State, h: Heap, origin: nat, p: Proposal): Reaction
    requires p.At() in s.view
  {
    if s.view[p.At()] > p.view || p.Key() in s.hnv then Silent(s, h)
    else
      var s' := SetNewView(SetView(s, p.At(), p.view), p.Key());
      var at := Wrap64(origin + s.timeout + 5);
      Reaction(AddTimeouts(s', at, [Timeout(p.node, p.round, p.view)]), h, Some(PrePrepare(p)), false)
  }

  /** processMessage, up to the delivery of a decision. */
  ghost function Interpret(
    s: State, h: Heap, quorum: nat, sender: nat, receiver: nat, origin: nat, msg: Message): Outcome<Reaction>
  {
    if msg.p.At() in s.done then Ok(Silent(s, h))
    else
      var t := TouchView(s, msg.p.At());
      match msg
      case PrePrepare(p) => Ok(OnPrePrepare(t, h, sender, receiver, p))
      case Prepare(p, voter) => Ok(OnPrepare(t, h, quorum, receiver, p, voter))
      case Commit(p, voter) => Ok(OnCommit(t, h, quorum, p, voter))
      case ViewChange(p, voter) => OnViewChange(t, h, quorum, receiver, p, voter)
      case NewView(p, _) => Ok(OnNewView(t, h, origin, p))
  }

  /** How many further replies a message can set off, one after the other. */
  function Rank(m: Message): nat {
    match m
    case ViewChange(_, _) => 4
    case NewView(_, _) => 3
    case PrePrepare(_) => 2
    case Prepare(_, _) => 1
    case Commit(_, _) => 0
  }

  /** Every reply is about the same slot and of the next lower rank. */
  lemma ReplyRank(s: State, h: Heap, quorum: nat, sender: nat, receiver: nat, origin: nat, msg: Message)
    requires Interpret(s, h, quorum, sender, receiver, origin, msg).Ok?
    ensures
      var r := Interpret(s, h, quorum, sender, receiver, origin, msg).value;
      r.reply.Some? ==>
        && Rank(msg) == Rank(r.reply.value) + 1
        && msg.p.At() == r.reply.value.p.At()
        && msg.p.view == r.reply.value.p.view
  {
  }
}
