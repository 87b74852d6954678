/**
  The Graph of blockmania/graph.go as an object whose fields its methods update. Each method computes
  the function of the same name in module Interpreter; a step that stops the process is an outcome.
 */
module GraphObject {
  import opened Bytes
  import opened Ids
  import opened Outcomes
  import opened Protocol
  import opened Interpreter
  import opened Listing
  import Timeouts
  import Runs
  import Consensus

  /** The loop over a view-change map: the one non-empty hash in it, or a fatal conflict. */
  method ReportHash(m: map<nat, Hash>) returns (r: Outcome<Hash>)
    ensures r == ReportedHash(m)
  {
    var hash: Hash := [];
    var keys := m.Keys;
    while keys != {}
      invariant keys <= m.Keys
      invariant forall x | x in m && x !in keys :: m[x] == [] || m[x] == hash
      invariant hash != [] ==> exists x :: x in m && m[x] == hash
      decreases |keys|
    {
      var x :| x in keys;
      keys := keys - {x};
      if m[x] != [] {
        if hash != [] && m[x] != hash {
          return Fatal;
        }
        hash := m[x];
      }
    }
    r := Ok(hash);
  }

  /** The delays of a block's dependencies. */
  method AddDelays(delay: map<nat, nat>, round: nat, deps: seq<BlockID>) returns (r: map<nat, nat>)
    ensures r == Delays(delay, round, deps) && forall n :: DelayIs(delay, round, deps, r, n)
  {
    r := delay;
    for i := 0 to |deps|
      invariant Delays(r, round, deps[i..]) == Delays(delay, round, deps)
    {
      assert deps[i..][1..] == deps[i + 1..];
      r := r[deps[i].node := Wrap64(Timeouts.Diff(round, deps[i].round) * 10)];
    }
    forall n ensures DelayIs(delay, round, deps, r, n) {
      DelaysExact(delay, round, deps, n);
    }
  }

  /** The new timeouts, one for each peer. */
  method SetTimeouts(s: State, peers: seq<nat>, round: nat, at: nat) returns (r: State)
    ensures r == if peers == [] then s else AddTimeouts(s, at, NewTimeouts(peers, round))
  {
    r := s;
    for i := 0 to |peers|
      invariant r == if i == 0 then s else AddTimeouts(s, at, NewTimeouts(peers[..i], round))
    {
      assert peers[..i + 1] == peers[..i] + [peers[i]];
      AddTimeoutsPush(s, at, peers[..i], peers[i], round);
      r := AddTimeouts(r, at, [Timeout(peers[i], round, 0)]);
    }
    assert peers[..|peers|] == peers;
  }

  lemma AddTimeoutsPush(s: State, at: nat, peers: seq<nat>, x: nat, round: nat)
    ensures
      var r := if peers == [] then s else AddTimeouts(s, at, NewTimeouts(peers, round));
      AddTimeouts(r, at, [Timeout(x, round, 0)]) == AddTimeouts(s, at, NewTimeouts(peers + [x], round))
  {
    var one := Timeout(x, round, 0);
    var more := NewTimeouts(peers, round);
    assert NewTimeouts(peers + [x], round) == more + [one];
    assert TimeoutsAt(s, at) + (more + [one]) == TimeoutsAt(s, at) + more + [one];
    if peers == [] {
      assert more + [one] == [one];
    } else {
      var r := AddTimeouts(s, at, more);
      assert TimeoutsAt(r, at) == TimeoutsAt(s, at) + more;
      assert AddTimeouts(r, at, [one]).timeouts == s.timeouts[at := TimeoutsAt(s, at) + more + [one]];
    }
  }

  /** The loop over the timeouts that are due. */
  method FireDue(s0: State, me: nat, due: seq<Timeout>, out0: seq<Message>) returns (s: State, out: seq<Message>)
    ensures (s, out) == FireTimeouts(s0, me, due, out0)
  {
    s, out := s0, out0;
    for i := 0 to |due|
      invariant FireTimeouts(s, me, due[i..], out) == FireTimeouts(s0, me, due, out0)
    {
      assert due[i..][1..] == due[i + 1..];
      var t := due[i];
      var k := Slot(t.node, t.round);
      if k in s.done {
        continue;
      }
      var v := if k in s.view then s.view[k] else 0;
      if v > t.view {
        continue;
      }
      var b := Ballot(t.node, t.round, t.view);
      var hash := if b in s.prepared then s.prepared[b] else [];
      s := SetView(s, k, NextView(v));
      out := out + [ViewChange(Proposal(hash, t.node, t.round, NextView(t.view)), me)];
    }
  }

  /** The max over a block's links. */
  method LargestLink(max: map<BlockID, nat>, round: nat, links: seq<BlockID>, own: nat) returns (m: nat)
    ensures m == MaxOver(max, round, links, own)
  {
    m := own;
    for i := 0 to |links|
      invariant MaxOver(max, round, links[i..], m) == MaxOver(max, round, links, own)
    {
      assert links[i..][1..] == links[i + 1..];
      var x := if links[i] in max then max[links[i]] else round;
      m := Larger(m, x);
    }
  }

  class MutableGraph {
    const cfg: Config
    var blocks: seq<BlockInfo>
    var max: map<BlockID, nat>
    var resolved: map<nat, map<nat, Hash>>
    var round: nat
    var statess: map<BlockID, State>
    /** The view-change maps, which cloned states share. */
    var heap: Heap
    /** The calls of the callback. */
    var log: seq<Interpreted>

    function Value(): Graph
      reads this
    {
      Graph(blocks, max, resolved, round, statess, heap, log)
    }

    /** The object holds the value that the step computed, or the step stopped the process. */
    ghost predicate Computed(r: Outcome<()>, expected: Outcome<Graph>)
      reads this
    {
      match expected
      case Ok(g) => r == Ok(()) && Value() == g
      case Fatal => r == Fatal
      case Panic => r == Panic
    }

    /** New. */
    constructor (cfg: Config)
      ensures Value() == Initial(cfg) && this.cfg == cfg
    {
      this.cfg := cfg;
      blocks, max, resolved, round, statess, heap, log := [], map[], map[], cfg.lastInterpreted + 1, map[], [], [];
    }

    /** Deletes a block and its dependencies from the two maps. */
    method Forget(info: BlockInfo)
      modifies this`max, this`statess
      ensures max == old(max) - IdsOf(info) && statess == old(statess) - IdsOf(info)
    {
      var deps := info.data.deps;
      max := max - {info.data.block};
      statess := statess - {info.data.block};
      ghost var ids := {info.data.block};
      for i := 0 to |deps|
        invariant ids == {info.data.block} + set d | d in deps[..i] :: d.block
        invariant max == old(max) - ids && statess == old(statess) - ids
      {
        assert deps[..i + 1] == deps[..i] + [deps[i]];
        max := max - {deps[i].block};
        statess := statess - {deps[i].block};
        ids := ids + {deps[i].block};
      }
      assert deps[..|deps|] == deps;
    }

    /** The pruning loop of deliverRound. */
    method Prune(r: nat) returns (consumed: nat)
      requires blocks != []
      modifies this`blocks, this`max, this`statess
      ensures
        var k := PruneCount(old(blocks), r);
        var gone := PrunedIds(old(blocks)[..k]);
        && blocks == old(blocks)[k..] && max == old(max) - gone && statess == old(statess) - gone
        && consumed == Wrap64(old(blocks)[0].data.block.round + U64_SIZE - 1 + k)
    {
      hide PruneCount, PrunedIds, IdsOf, Wrap64;
      consumed := Wrap64(blocks[0].data.block.round + U64_SIZE - 1);
      ghost var start := blocks[0].data.block.round + U64_SIZE - 1;
      var i := 0;
      PrunedNone();
      assert blocks[..0] == [] && blocks[0..] == blocks;
      while i < |blocks| && blocks[i].max <= r
        invariant 0 <= i <= |blocks| && blocks == old(blocks) && consumed == Wrap64(start + i)
        invariant max == old(max) - PrunedIds(blocks[..i]) && statess == old(statess) - PrunedIds(blocks[..i])
        invariant PruneCount(blocks, r) == i + PruneCount(blocks[i..], r)
      {
        PruneStep(blocks[i..], r);
        assert blocks[i..][1..] == blocks[i + 1..];
        PrunedPush(blocks, i);
        WrapNext(start + i);
        Forget(blocks[i]);
        consumed := Wrap64(consumed + 1);
        i := i + 1;
      }
      PruneStep(blocks[i..], r);
      blocks := blocks[i..];
    }

    /** deliverRound. */
    method DeliverRounds(r: nat) returns (o: Outcome<()>)
      requires r in resolved
      modifies this`blocks, this`max, this`statess, this`resolved, this`round, this`log
      ensures Computed(o, DeliverRound(cfg, old(Value()), r))
      decreases |resolved|
    {
      if blocks == [] {
        return Panic;
      }
      TellRound(r);
      hide DeliverOne;
      if r + 1 in resolved && |resolved[r + 1]| == cfg.PeerCount() {
        o := DeliverRounds(r + 1);
      } else {
        o := Ok(());
      }
    }

    /** deliverRound, up to the next round. */
    method TellRound(r: nat)
      requires r in resolved && blocks != []
      modifies this`blocks, this`max, this`statess, this`resolved, this`round, this`log
      ensures Value() == DeliverOne(old(Value()), r) && resolved.Keys == old(resolved).Keys - {r}
    {
      hide PruneCount, PrunedIds, ListingOf, IsListing, Wrap64;
      var told := ListBlocks(r, resolved[r]);
      resolved := resolved - {r};
      var consumed := Prune(r);
      round := round + 1;
      log := log + [Interpreted(told, consumed, r)];
    }

    /** deliver. */
    method Decide(k: Slot, hash: Hash) returns (o: Outcome<()>)
      modifies this`blocks, this`max, this`statess, this`resolved, this`round, this`log
      ensures Computed(o, Deliver(cfg, old(Value()), k, hash))
    {
      hide DeliverRound;
      if k.round < round {
        return Ok(());
      }
      var hashes: map<nat, Hash> := map[];
      if k.round in resolved {
        hashes := resolved[k.round];
        if k.node in hashes && hashes[k.node] != hash {
          return Fatal;
        }
      }
      hashes := hashes[k.node := hash];
      resolved := resolved[k.round := hashes];
      assert Value() == Resolve(old(Value()), k, hash);
      if k.round != round {
        return Ok(());
      }
      if |resolved[k.round]| == cfg.PeerCount() {
        o := DeliverRounds(k.round);
      } else {
        o := Ok(());
      }
    }

    /** The view-change case of processMessage. */
    method OnViewChangeMessage(s: State, receiver: nat, p: Proposal, voter: nat) returns (o: Outcome<Reaction>)
      requires p.At() in s.view
      ensures o == OnViewChange(s, heap, cfg.Quorum(), receiver, p, voter)
    {
      var v := s.view[p.At()];
      if v > p.view {
        return Ok(Silent(s, heap));
      }
      var k := Ballot(p.node, p.round, v);
      var ref := if k in s.viewChanged then s.viewChanged[k] else |heap|;
      var m := Read(heap, ref)[voter := p.hash];
      var s' := SetViewChanged(s, k, ref);
      var h' := Write(heap, ref, m);
      if |m.Keys| != cfg.Quorum() {
        return Ok(Silent(s', h'));
      }
      var hash := ReportHash(m);
      if !hash.Ok? {
        return hash.PropagateFailure();
      }
      return Ok(Reaction(SetView(s', p.At(), p.view), h', Some(NewView(p.(hash := hash.value), receiver)), false));
    }

    /** What the caller of a message step gets back. */
    ghost predicate Stepped(o: Outcome<(State, Option<Message>)>, processed: set<Message>, msg: Message,
                            expected: Outcome<(Work, Option<Message>)>)
      reads this
    {
      match expected
      case Ok((w, reply)) => o == Ok((w.s, reply)) && Value() == w.g && w.processed == processed + {msg}
      case Fatal => o == Fatal
      case Panic => o == Panic
    }

    /** processMessage. */
    method ProcessMessage(s: State, ghost processed: set<Message>, sender: nat, origin: BlockID, msg: Message)
      returns (o: Outcome<(State, Option<Message>)>)
      modifies this
      ensures Stepped(o, processed, msg, StepMessage(cfg, Work(old(Value()), s, processed), sender, origin, msg))
    {
      hide Deliver, OnViewChange, OnPrePrepare, OnPrepare, OnCommit, OnNewView, TouchView;
      var k := msg.p.At();
      if k in s.done {
        return Ok((s, None));
      }
      var t := TouchView(s, k);
      var r: Reaction;
      match msg {
        case PrePrepare(p) => r := OnPrePrepare(t, heap, sender, origin.node, p);
        case Prepare(p, voter) => r := OnPrepare(t, heap, cfg.Quorum(), origin.node, p, voter);
        case Commit(p, voter) => r := OnCommit(t, heap, cfg.Quorum(), p, voter);
        case ViewChange(p, voter) =>
          var vc := OnViewChangeMessage(t, origin.node, p, voter);
          if !vc.Ok? {
            return vc.PropagateFailure();
          }
          r := vc.value;
        case NewView(p, _) => r := OnNewView(t, heap, origin.round, p);
      }
      assert Interpret(s, heap, cfg.Quorum(), sender, origin.node, origin.round, msg) == Ok(r);
      heap := r.heap;
      if r.decided {
        var d := Decide(k, msg.p.hash);
        if !d.Ok? {
          return d.PropagateFailure();
        }
      }
      return Ok((r.s, r.reply));
    }

    /** What processMessages gives back. */
    ghost predicate Passed(o: Outcome<(State, set<Message>, seq<Message>)>, expected: Outcome<(Work, seq<Message>)>)
      reads this
    {
      match expected
      case Ok((w, out)) => o == Ok((w.s, w.processed, out)) && Value() == w.g
      case Fatal => o == Fatal
      case Panic => o == Panic
    }

    /** The first loop of processMessages. */
    method ProcessGiven(s0: State, processed0: set<Message>, sender: nat, origin: BlockID, msgs: seq<Message>)
      returns (o: Outcome<(State, set<Message>, seq<Message>)>)
      modifies this
      ensures Passed(o, FirstPass(cfg, Work(old(Value()), s0, processed0), sender, origin, msgs, []))
    {
      hide StepMessage;
      var s, processed, out: seq<Message> := s0, processed0, [];
      for i := 0 to |msgs|
        invariant FirstPass(cfg, Work(Value(), s, processed), sender, origin, msgs[i..], out)
               == FirstPass(cfg, Work(old(Value()), s0, processed0), sender, origin, msgs, [])
      {
        assert msgs[i..][1..] == msgs[i + 1..];
        if msgs[i] in processed {
          continue;
        }
        var step := ProcessMessage(s, processed, sender, origin, msgs[i]);
        if !step.Ok? {
          return step.PropagateFailure();
        }
        s := step.value.0;
        processed := processed + {msgs[i]};
        out := Append(out, step.value.1);
      }
      o := Ok((s, processed, out));
    }

    /** The second loop of processMessages, which stops because replies rank below what they answer. */
    method ProcessReplies(s0: State, processed0: set<Message>, sender: nat, origin: BlockID, out0: seq<Message>)
      returns (o: Outcome<(State, set<Message>, seq<Message>)>)
      modifies this
      ensures Passed(o, SecondPass(cfg, Work(old(Value()), s0, processed0), sender, origin, out0, 0))
    {
      hide StepMessage, Weight;
      var s, processed, out := s0, processed0, out0;
      var i := 0;
      while i < |out|
        invariant 0 <= i <= |out|
        invariant SecondPass(cfg, Work(Value(), s, processed), sender, origin, out, i)
               == SecondPass(cfg, Work(old(Value()), s0, processed0), sender, origin, out0, 0)
        decreases Weight(out[i..])
      {
        WeightStep(out, i);
        if out[i] in processed {
          i := i + 1;
          continue;
        }
        ghost var w := Work(Value(), s, processed);
        var step := ProcessMessage(s, processed, sender, origin, out[i]);
        if !step.Ok? {
          return step.PropagateFailure();
        }
        WeightFalls(cfg, w, sender, origin, out, i);
        s := step.value.0;
        processed := processed + {out[i]};
        out := Append(out, step.value.1);
        i := i + 1;
      }
      o := Ok((s, processed, out));
    }

    /** processMessages. */
    method ProcessAllMessages(s: State, processed: set<Message>, sender: nat, origin: BlockID, msgs: seq<Message>)
      returns (o: Outcome<(State, set<Message>, seq<Message>)>)
      modifies this
      ensures Passed(o, ProcessMessages(cfg, Work(old(Value()), s, processed), sender, origin, msgs))
    {
      hide FirstPass, SecondPass;
      o := ProcessGiven(s, processed, sender, origin, msgs);
      if o.Ok? {
        o := ProcessReplies(o.value.0, o.value.1, sender, origin, o.value.2);
      }
    }

    /** The delays, timeouts and first messages of a block. */
    method Open(e: Entry) returns (s: State, out: seq<Message>)
      ensures (s, out) == Opening(cfg, Value(), e)
    {
      hide Delays, AddTimeouts, FireTimeouts, Clone, NewTimeouts;
      s := if e.prev.Valid() && e.prev in statess then Clone(statess[e.prev], round) else FRESH;
      var delay := AddDelays(s.delay, e.block.round, e.deps);
      s := s.(delay := delay);
      var tval := Timeouts.ComputeTimeout(delay, 2 * cfg.Faults());
      Timeouts.TimeoutUnique(delay, 2 * cfg.Faults(), tval, Timeouts.TimeoutValue(delay, 2 * cfg.Faults()));
      s := s.(timeout := tval);
      s := SetTimeouts(s, cfg.peers, e.block.round, Wrap64(e.block.round + tval));
      s, out := FireDue(s, e.block.node, TimeoutsAt(s, e.block.round), [PrePrepare(OwnProposal(e.block))]);
    }

    /** process. */
    method ProcessEntry(e: Entry) returns (o: Outcome<()>)
      modifies this
      ensures Computed(o, Process(cfg, old(Value()), e))
    {
      hide Opening, ProcessMessages;
      var s, out := Open(e);
      var own := ProcessAllMessages(s, {}, e.block.node, e.block, out);
      if !own.Ok? {
        return own.PropagateFailure();
      }
      var r := ProcessDeps(e, own.value.0, own.value.1, out + own.value.2);
      if !r.Ok? {
        return r.PropagateFailure();
      }
      statess := statess[e.block := r.value.0.(out := r.value.2)];
      o := Ok(());
    }

    /** The loop of process over the dependencies. */
    method ProcessDeps(e: Entry, s0: State, processed0: set<Message>, out0: seq<Message>)
      returns (o: Outcome<(State, set<Message>, seq<Message>)>)
      modifies this
      ensures Passed(o, DepsPass(cfg, Work(old(Value()), s0, processed0), e.block, e.deps, out0))
    {
      hide ProcessMessages;
      var s, processed, out := s0, processed0, out0;
      for i := 0 to |e.deps|
        invariant DepsPass(cfg, Work(Value(), s, processed), e.block, e.deps[i..], out)
               == DepsPass(cfg, Work(old(Value()), s0, processed0), e.block, e.deps, out0)
      {
        assert e.deps[i..][1..] == e.deps[i + 1..];
        var dep := e.deps[i];
        var r := ProcessAllMessages(s, processed, dep.node, e.block, OutputOf(Value(), dep));
        if !r.Ok? {
          return r.PropagateFailure();
        }
        s, processed := r.value.0, r.value.1;
        out := out + r.value.2;
      }
      o := Ok((s, processed, out));
    }

    /** The locked part of run: the max of every block, and the new own block. */
    method AdmitGraph(bg: BlockGraph)
      modifies this`max, this`blocks
      ensures Value() == Admit(old(Value()), bg)
    {
      hide MaxOver;
      var top := bg.block.round;
      for i := 0 to |bg.deps|
        invariant blocks == old(blocks) && round == old(round)
        invariant RecordMax(max, round, bg.deps[i..], top) == RecordMax(old(max), round, bg.deps, bg.block.round)
      {
        assert bg.deps[i..][1..] == bg.deps[i + 1..];
        var d := bg.deps[i];
        var depMax := LargestLink(max, round, Links(d), d.block.round);
        max := max[d.block := depMax];
        top := Larger(top, depMax);
      }
      if bg.block.round != 1 {
        top := LargestLink(max, round, [bg.prev], top);
      }
      max := max[bg.block := top];
      blocks := blocks + [BlockInfo(bg, top)];
    }

    /** What run does with a block graph from its channel. */
    method RunGraph(bg: BlockGraph, ghost hist: seq<Record>) returns (o: Outcome<()>, ghost hist': seq<Record>)
      modifies this
      ensures
        match Run(cfg, old(Value()), hist, bg)
        case Ok((g, h)) => o == Ok(()) && Value() == g && hist' == h
        case Fatal => o == Fatal
        case Panic => o == Panic
    {
      hide Process, Admit;
      hist' := hist;
      AdmitGraph(bg);
      var entries := Entries(bg);
      for i := 0 to |entries|
        invariant ProcessAll(cfg, Value(), hist', entries[i..])
          == ProcessAll(cfg, Admit(old(Value()), bg), hist, entries)
      {
        assert entries[i..][1..] == entries[i + 1..];
        var e := entries[i];
        ghost var start := FindOrCreate(Value(), e);
        var r := ProcessEntry(e);
        if !r.Ok? {
          return r, hist';
        }
        hist' := hist' + [Record(e.block, e.prev, start, statess[e.block])];
      }
      o := Ok(());
    }
  }

  lemma PrunedNone()
    ensures PrunedIds([]) == {}
  {
  }

  lemma PrunedPush(blocks: seq<BlockInfo>, i: nat)
    requires i < |blocks|
    ensures PrunedIds(blocks[..i + 1]) == PrunedIds(blocks[..i]) + IdsOf(blocks[i])
  {
    assert blocks[..i + 1] == blocks[..i] + [blocks[i]];
  }

  lemma PruneStep(blocks: seq<BlockInfo>, r: nat)
    ensures PruneCount(blocks, r) == if blocks != [] && blocks[0].max <= r then 1 + PruneCount(blocks[1..], r) else 0
  {
  }

  lemma WrapNext(x: nat)
    ensures Wrap64(Wrap64(x) + 1) == Wrap64(x + 1)
  {
  }

  /**
    run, from New, over all the block graphs that its channel delivers: every guarantee of module
    Consensus is about the value that the object then has.
   */
  method RunChannel(cfg: Config, inputs: seq<BlockGraph>)
    returns (o: Outcome<()>, graph: MutableGraph, ghost hist: seq<Record>)
    requires Runs.WellFormed(cfg, inputs)
    ensures o != Panic && fresh(graph)
    ensures o.Ok? ==> Consensus.Reaches(cfg, inputs, graph.Value(), hist)
  {
    hide Run, Runs.WellFormed;
    graph := new MutableGraph(cfg);
    hist := [];
    o := Ok(());
    Consensus.NeverPanics(cfg, inputs);
    for i := 0 to |inputs|
      invariant fresh(graph) && graph.cfg == cfg && o == Ok(())
      invariant RunAll(cfg, inputs[..i]) == Ok((graph.Value(), hist))
    {
      assert inputs[..i + 1][..i] == inputs[..i];
      o, hist := graph.RunGraph(inputs[i], hist);
      if !o.Ok? {
        RunStops(cfg, inputs, i + 1);
        return;
      }
    }
    assert inputs[..|inputs|] == inputs;
  }

  /** A run that has stopped stays stopped in the same way. */
  lemma {:induction false} RunStops(cfg: Config, inputs: seq<BlockGraph>, i: nat)
    requires i <= |inputs| && !RunAll(cfg, inputs[..i]).Ok?
    ensures RunAll(cfg, inputs) == RunAll(cfg, inputs[..i])
    decreases |inputs|
  {
    hide Run;
    if i == |inputs| {
      assert inputs[..i] == inputs;
    } else {
      var before := inputs[..|inputs| - 1];
      assert before[..i] == inputs[..i];
      RunStops(cfg, before, i);
    }
  }
}
