/**
  The interpreter of the block graph: processMessages, process, deliver, deliverRound and run in
  blockmania/graph.go, as functions on the value of the Graph's fields. Module GraphObject holds the
  mutable Graph, each of whose methods is proved to compute the function of the same name.
 */
module Interpreter {
  import opened Bytes
  import opened Ids
  import opened Outcomes
  import opened Protocol
  import opened Listing
  import Timeouts

  datatype Config = Config(peers: seq<nat>, lastInterpreted: nat) {
    function PeerCount(): nat { |peers| }

    /** The number of faulty nodes that the quorums are made for. */
    function Faults(): nat { if peers == [] then 0 else (|peers| - 1) / 3 }

    function Quorum(): nat { 2 * Faults() + 1 }
  }

  datatype BlockInfo = BlockInfo(data: BlockGraph, max: nat)

  /** What the callback is told about a round. */
  datatype Interpreted = Interpreted(blocks: seq<BlockID>, consumed: nat, round: nat)

  datatype Entry = Entry(block: BlockID, deps: seq<BlockID>, prev: BlockID)

  /** The fields that change, the shared view-change maps, and the calls of the callback so far. */
  datatype Graph = Graph(
    blocks: seq<BlockInfo>,
    max: map<BlockID, nat>,
    resolved: map<nat, map<nat, Hash>>,
    round: nat,
    statess: map<BlockID, State>,
    heap: Heap,
    log: seq<Interpreted>)

  /** New. */
  function Initial(cfg: Config): Graph {
    Graph([], map[], map[], cfg.lastInterpreted + 1, map[], [], [])
  }

  // --- delivery ---

  /** How many blocks at the front have a max that is not above `round`. */
  function PruneCount(blocks: seq<BlockInfo>, round: nat): (k: nat)
    ensures k <= |blocks|
  {
    if blocks != [] && blocks[0].max <= round then 1 + PruneCount(blocks[1..], round) else 0
  }

  function IdsOf(info: BlockInfo): set<BlockID> {
    {info.data.block} + set d | d in info.data.deps :: d.block
  }

  function PrunedIds(infos: seq<BlockInfo>): set<BlockID> {
    set info, id | info in infos && id in IdsOf(info) :: id
  }

  /** The body of deliverRound, up to its recursive call. */
  ghost function DeliverOne(g: Graph, round: nat): Graph
    requires round in g.resolved && g.blocks != []
  {
    var k := PruneCount(g.blocks, round);
    var gone := PrunedIds(g.blocks[..k]);
    var consumed := Wrap64(g.blocks[0].data.block.round + U64_SIZE - 1 + k);
    var told := Interpreted(ListingOf(Chosen(round, g.resolved[round])), consumed, round);
    Graph(g.blocks[k..], g.max - gone, g.resolved - {round}, g.round + 1, g.statess - gone, g.heap, g.log + [told])
  }

  predicate Full(cfg: Config, g: Graph, round: nat) {
    round in g.resolved && |g.resolved[round]| == cfg.PeerCount()
  }

  ghost function DeliverRound(cfg: Config, g: Graph, round: nat): Outcome<Graph>
    requires round in g.resolved
    decreases |g.resolved|
  {
    if g.blocks == [] then Panic
    else
      var g' := DeliverOne(g, round);
      if Full(cfg, g', round + 1) then DeliverRound(cfg, g', round + 1) else Ok(g')
  }

  /** The assignment to `resolved` in deliver. */
  function Resolve(g: Graph, k: Slot, hash: Hash): Graph {
    var hashes: map<nat, Hash> := if k.round in g.resolved then g.resolved[k.round] else map[];
    g.(resolved := g.resolved[k.round := hashes[k.node := hash]])
  }

  ghost function Deliver(cfg: Config, g: Graph, k: Slot, hash: Hash): Outcome<Graph> {
    if k.round < g.round then Ok(g)
    else if k.round in g.resolved && k.node in g.resolved[k.round] && g.resolved[k.round][k.node] != hash then Fatal
    else
      var g' := Resolve(g, k, hash);
      if k.round == g.round && Full(cfg, g', k.round) then DeliverRound(cfg, g', k.round) else Ok(g')
  }

  // --- messages ---

  /** The graph, the state of the block being interpreted, and the messages seen for that block. */
  datatype Work = Work(g: Graph, s: State, processed: set<Message>)

  /** processMessage, and the bookkeeping around its calls. */
  ghost function StepMessage(cfg: Config, w: Work, sender: nat, origin: BlockID, msg: Message)
    : Outcome<(Work, Option<Message>)>
  {
    var r :- Interpret(w.s, w.g.heap, cfg.Quorum(), sender, origin.node, origin.round, msg);
    var g := w.g.(heap := r.heap);
    var g' :- if r.decided then Deliver(cfg, g, msg.p.At(), msg.p.hash) else Ok(g);
    Ok((Work(g', r.s, w.processed + {msg}), r.reply))
  }

  function Append(out: seq<Message>, reply: Option<Message>): seq<Message> {
    match reply
    case None => out
    case Some(m) => out + [m]
  }

  /** The first loop of processMessages. */
  ghost function FirstPass(cfg: Config, w: Work, sender: nat, origin: BlockID, msgs: seq<Message>, out: seq<Message>)
    : Outcome<(Work, seq<Message>)>
    decreases |msgs|
  {
    if msgs == [] then Ok((w, out))
    else if msgs[0] in w.processed then FirstPass(cfg, w, sender, origin, msgs[1..], out)
    else
      var (w', reply) :- StepMessage(cfg, w, sender, origin, msgs[0]);
      FirstPass(cfg, w', sender, origin, msgs[1..], Append(out, reply))
  }

  /** Falls with every turn of the second loop, since a reply ranks below what it answers. */
  function Weight(msgs: seq<Message>): nat {
    if msgs == [] then 0 else Rank(msgs[0]) + 1 + Weight(msgs[1..])
  }

  lemma {:induction false} WeightAppend(a: seq<Message>, b: seq<Message>)
    ensures Weight(a + b) == Weight(a) + Weight(b)
  {
    if a == [] {
      assert a + b == b;
    } else {
      assert (a + b)[1..] == a[1..] + b;
      WeightAppend(a[1..], b);
    }
  }

  lemma WeightStep(out: seq<Message>, i: nat)
    requires i < |out|
    ensures Weight(out[i + 1..]) < Weight(out[i..])
  {
    assert out[i..][1..] == out[i + 1..];
  }

  lemma WeightFalls(cfg: Config, w: Work, sender: nat, origin: BlockID, out: seq<Message>, i: nat)
    requires i < |out| && StepMessage(cfg, w, sender, origin, out[i]).Ok?
    ensures Weight(Append(out, StepMessage(cfg, w, sender, origin, out[i]).value.1)[i + 1..]) < Weight(out[i..])
  {
    var reply := StepMessage(cfg, w, sender, origin, out[i]).value.1;
    ReplyRank(w.s, w.g.heap, cfg.Quorum(), sender, origin.node, origin.round, out[i]);
    if reply.Some? {
      assert Append(out, reply)[i + 1..] == out[i..][1..] + [reply.value];
      WeightAppend(out[i..][1..], [reply.value]);
    }
  }

  /** The second loop of processMessages, which also interprets the replies that it appends. */
  ghost function SecondPass(cfg: Config, w: Work, sender: nat, origin: BlockID, out: seq<Message>, i: nat)
    : Outcome<(Work, seq<Message>)>
    requires i <= |out|
    decreases Weight(out[i..]), |out| - i
  {
    if i == |out| then Ok((w, out))
    else
      assert out[i..][1..] == out[i + 1..];
      if out[i] in w.processed then SecondPass(cfg, w, sender, origin, out, i + 1)
      else
        var step := StepMessage(cfg, w, sender, origin, out[i]);
        if step.IsFailure() then step.PropagateFailure()
        else
          WeightFalls(cfg, w, sender, origin, out, i);
          SecondPass(cfg, step.value.0, sender, origin, Append(out, step.value.1), i + 1)
  }

  ghost function ProcessMessages(cfg: Config, w: Work, sender: nat, origin: BlockID, msgs: seq<Message>)
    : Outcome<(Work, seq<Message>)>
  {
    var (w', out) :- FirstPass(cfg, w, sender, origin, msgs, []);
    SecondPass(cfg, w', sender, origin, out, 0)
  }

  // --- one block ---

  function FindOrCreate(g: Graph, e: Entry): State {
    if e.prev.Valid() && e.prev in g.statess then Clone(g.statess[e.prev], g.round) else FRESH
  }

  function Delays(delay: map<nat, nat>, round: nat, deps: seq<BlockID>): map<nat, nat>
    decreases |deps|
  {
    if deps == [] then delay
    else Delays(delay[deps[0].node := Wrap64(Timeouts.Diff(round, deps[0].round) * 10)], round, deps[1..])
  }

  /** Dependency i is the last one of node n. */
  ghost predicate LastOf(deps: seq<BlockID>, n: nat, i: int) {
    0 <= i < |deps| && deps[i].node == n && forall j | i < j < |deps| :: deps[j].node != n
  }

  ghost predicate NoneOf(deps: seq<BlockID>, n: nat) {
    forall i | 0 <= i < |deps| :: deps[i].node != n
  }

  /** Ten times the rounds between a block and a dependency. */
  function Lag(round: nat, dep: BlockID): nat {
    (if round >= dep.round then round - dep.round else dep.round - round) * 10 % U64_SIZE
  }

  /** The delay of a node is the lag of its last dependency; without one, what it was. */
  ghost predicate DelayIs(before: map<nat, nat>, round: nat, deps: seq<BlockID>, after: map<nat, nat>, n: nat) {
    && (n in after <==> n in before || !NoneOf(deps, n))
    && (NoneOf(deps, n) && n in before ==> n in after && after[n] == before[n])
    && (forall i | LastOf(deps, n, i) :: n in after && after[n] == Lag(round, deps[i]))
  }

  lemma {:induction false} DelaysExact(delay: map<nat, nat>, round: nat, deps: seq<BlockID>, n: nat)
    ensures DelayIs(delay, round, deps, Delays(delay, round, deps), n)
    decreases |deps|
  {
    if deps != [] {
      assert Lag(round, deps[0]) == Wrap64(Timeouts.Diff(round, deps[0].round) * 10);
      hide Lag, Wrap64;
      var mid := delay[deps[0].node := Lag(round, deps[0])];
      DelaysExact(mid, round, deps[1..], n);
      DelayStep(delay, mid, round, deps, Delays(mid, round, deps[1..]), n);
    }
  }

  lemma DelayStep(before: map<nat, nat>, mid: map<nat, nat>, round: nat, deps: seq<BlockID>, after: map<nat, nat>,
                  n: nat)
    requires deps != [] && mid == before[deps[0].node := Lag(round, deps[0])]
    requires DelayIs(mid, round, deps[1..], after, n)
    ensures DelayIs(before, round, deps, after, n)
  {
    hide Lag;
    assert deps == [deps[0]] + deps[1..];
    forall i | LastOf(deps, n, i) ensures n in after && after[n] == Lag(round, deps[i]) {
      if i > 0 {
        assert LastOf(deps[1..], n, i - 1);
      } else {
        assert NoneOf(deps[1..], n);
      }
    }
  }

  function NewTimeouts(peers: seq<nat>, round: nat): seq<Timeout> {
    seq(|peers|, i requires 0 <= i < |peers| => Timeout(peers[i], round, 0))
  }

  /** The delays, the timeout and the new timeouts of a block. */
  ghost function WithTimeouts(cfg: Config, s: State, e: Entry): State {
    var s' := s.(delay := Delays(s.delay, e.block.round, e.deps));
    var t := Timeouts.TimeoutValue(s'.delay, 2 * cfg.Faults());
    var s'' := s'.(timeout := t);
    if cfg.peers == [] then s''
    else AddTimeouts(s'', Wrap64(e.block.round + t), NewTimeouts(cfg.peers, e.block.round))
  }

  function NextView(v: nat): nat {
    (v + 1) % U32_SIZE
  }

  /** The loop over the timeouts that are due. */
  function FireTimeouts(s: State, me: nat, due: seq<Timeout>, out: seq<Message>): (State, seq<Message>)
    decreases |due|
  {
    if due == [] then (s, out)
    else
      var t := due[0];
      var k := Slot(t.node, t.round);
      var v := if k in s.view then s.view[k] else 0;
      if k in s.done || v > t.view then FireTimeouts(s, me, due[1..], out)
      else
        var b := Ballot(t.node, t.round, t.view);
        var hash := if b in s.prepared then s.prepared[b] else [];
        var change := ViewChange(Proposal(hash, t.node, t.round, NextView(t.view)), me);
        FireTimeouts(SetView(s, k, NextView(v)), me, due[1..], out + [change])
  }

  function OwnProposal(b: BlockID): Proposal {
    Proposal(b.hash, b.node, b.round, 0)
  }

  /** What getOutput gives for a block whose state may be gone. */
  function OutputOf(g: Graph, b: BlockID): seq<Message> {
    if b in g.statess then g.statess[b].out else []
  }

  ghost function DepsPass(cfg: Config, w: Work, origin: BlockID, deps: seq<BlockID>, out: seq<Message>)
    : Outcome<(Work, seq<Message>)>
    decreases |deps|
  {
    if deps == [] then Ok((w, out))
    else
      var (w', replies) :- ProcessMessages(cfg, w, deps[0].node, origin, OutputOf(w.g, deps[0]));
      DepsPass(cfg, w', origin, deps[1..], out + replies)
  }

  /** The state and the first messages of a block, before any message is interpreted. */
  ghost function Opening(cfg: Config, g: Graph, e: Entry): (State, seq<Message>) {
    var s := WithTimeouts(cfg, FindOrCreate(g, e), e);
    FireTimeouts(s, e.block.node, TimeoutsAt(s, e.block.round), [PrePrepare(OwnProposal(e.block))])
  }

  ghost function Process(cfg: Config, g: Graph, e: Entry): (r: Outcome<Graph>)
    ensures r.Ok? ==> e.block in r.value.statess
  {
    var (s, opening) := Opening(cfg, g, e);
    var (w, replies) :- ProcessMessages(cfg, Work(g, s, {}), e.block.node, e.block, opening);
    var (w', out) :- DepsPass(cfg, w, e.block, e.deps, opening + replies);
    Ok(w'.g.(statess := w'.g.statess[e.block := w'.s.(out := out)]))
  }

  // --- one block graph ---

  function Larger(a: nat, b: nat): nat {
    if a > b then a else b
  }

  /** The entry of `max` for a block with these links: the round where a link is unknown. */
  function MaxOver(max: map<BlockID, nat>, round: nat, links: seq<BlockID>, m: nat): nat
    decreases |links|
  {
    if links == [] then m
    else MaxOver(max, round, links[1..], Larger(m, if links[0] in max then max[links[0]] else round))
  }

  /** The links that count for a dependency: a block of round 1 has no previous block. */
  function Links(d: Dep): seq<BlockID> {
    if d.block.round != 1 then [d.prev] + d.deps else d.deps
  }

  /** The loop of run that records the max of every dependency; also gives the largest one. */
  function RecordMax(max: map<BlockID, nat>, round: nat, deps: seq<Dep>, top: nat): (map<BlockID, nat>, nat)
    decreases |deps|
  {
    if deps == [] then (max, top)
    else
      var m := MaxOver(max, round, Links(deps[0]), deps[0].block.round);
      RecordMax(max[deps[0].block := m], round, deps[1..], Larger(top, m))
  }

  /** run, up to the calls of process. */
  function Admit(g: Graph, bg: BlockGraph): Graph {
    var (max, top) := RecordMax(g.max, g.round, bg.deps, bg.block.round);
    var m := if bg.block.round != 1 then MaxOver(max, g.round, [bg.prev], top) else top;
    g.(max := max[bg.block := m], blocks := g.blocks + [BlockInfo(bg, m)])
  }

  function DepEntry(d: Dep): Entry {
    Entry(d.block, Links(d), d.prev)
  }

  function OwnEntry(bg: BlockGraph): Entry {
    Entry(bg.block, [bg.prev] + Blocks(bg.deps), bg.prev)
  }

  function Blocks(deps: seq<Dep>): (r: seq<BlockID>)
    ensures |r| == |deps| && forall i | 0 <= i < |deps| :: r[i] == deps[i].block
  {
    seq(|deps|, i requires 0 <= i < |deps| => deps[i].block)
  }

  /** The calls of process that a block graph causes, in order. */
  function Entries(bg: BlockGraph): (r: seq<Entry>)
    ensures |r| == |bg.deps| + 1 && r[|bg.deps|] == OwnEntry(bg)
    ensures forall i | 0 <= i < |bg.deps| :: r[i] == DepEntry(bg.deps[i])
  {
    seq(|bg.deps|, i requires 0 <= i < |bg.deps| => DepEntry(bg.deps[i])) + [OwnEntry(bg)]
  }

  // --- runs, with everything that was ever computed ---

  /** The state that a block started from and the one that was stored for it. */
  datatype Record = Record(block: BlockID, prev: BlockID, start: State, end: State)

  ghost function ProcessAll(cfg: Config, g: Graph, hist: seq<Record>, entries: seq<Entry>)
    : Outcome<(Graph, seq<Record>)>
    decreases |entries|
  {
    if entries == [] then Ok((g, hist))
    else
      var e := entries[0];
      var g' :- Process(cfg, g, e);
      ProcessAll(cfg, g', hist + [Record(e.block, e.prev, FindOrCreate(g, e), g'.statess[e.block])], entries[1..])
  }

  /** What run does with one block graph. */
  ghost function Run(cfg: Config, g: Graph, hist: seq<Record>, bg: BlockGraph): Outcome<(Graph, seq<Record>)> {
    ProcessAll(cfg, Admit(g, bg), hist, Entries(bg))
  }

  /** A whole run, from New through every block graph that was added. */
  ghost function RunAll(cfg: Config, inputs: seq<BlockGraph>): Outcome<(Graph, seq<Record>)> {
    if inputs == [] then Ok((Initial(cfg), []))
    else
      var (g, hist) :- RunAll(cfg, inputs[..|inputs| - 1]);
      Run(cfg, g, hist, inputs[|inputs| - 1])
  }
}
