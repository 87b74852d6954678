/**
  Decisions that are not yet delivered. Each one waits in `resolved` until its round is told, and a different one
  for the same slot stops the process: so in a run that goes on no two blocks have decided differently, whatever
  nodes fork.
 */
module Verdicts {
  import opened Bytes
  import opened Ids
  import opened Outcomes
  import opened Protocol
  import opened Interpreter
  import opened Quorums
  import opened Clocks
  import opened Expiry
  import Listing

  ghost predicate Waiting(g: Graph, k: Slot, hash: Hash) {
    k.round in g.resolved && k.node in g.resolved[k.round] && g.resolved[k.round][k.node] == hash
  }

  /** Every decision about a round that is not delivered is waiting. */
  ghost predicate Waits(g: Graph, final: map<Slot, Hash>) {
    forall k | k in final && k.round >= g.round :: Waiting(g, k, final[k])
  }

  /** What waits goes on waiting, unless its round is delivered. */
  ghost predicate Patient(g: Graph, g': Graph) {
    && g.round <= g'.round
    && (forall k, hash | Waiting(g, k, hash) && k.round >= g'.round :: Waiting(g', k, hash))
    && (forall b | b in g'.statess :: b in g.statess && g'.statess[b] == g.statess[b])
  }

  lemma PatientTwice(a: Graph, b: Graph, c: Graph)
    requires Patient(a, b) && Patient(b, c)
    ensures Patient(a, c)
  {
    hide Waiting;
  }

  lemma PatientSelf(g: Graph, g': Graph)
    requires g' == g.(heap := g'.heap)
    ensures Patient(g, g')
  {
  }

  lemma WaitsOn(g: Graph, g': Graph, final: map<Slot, Hash>)
    requires Waits(g, final) && Patient(g, g')
    ensures Waits(g', final)
  {
    hide Waiting;
  }

  // --- deliver ---

  lemma {:induction false} DeliverRoundPatient(cfg: Config, g: Graph, round: nat)
    requires round in g.resolved && round == g.round && DeliverRound(cfg, g, round).Ok?
    ensures Patient(g, DeliverRound(cfg, g, round).value)
    decreases |g.resolved|
  {
    hide Listing.ListingOf, PruneCount, PrunedIds, Wrap64;
    var g' := DeliverOne(g, round);
    assert Patient(g, g');
    if Full(cfg, g', round + 1) {
      assert g'.resolved.Keys == g.resolved.Keys - {round};
      DeliverRoundPatient(cfg, g', round + 1);
      PatientTwice(g, g', DeliverRound(cfg, g', round + 1).value);
    }
  }

  /** A decision that is taken waits for its round. */
  lemma DeliverPatient(cfg: Config, g: Graph, k: Slot, hash: Hash)
    requires Deliver(cfg, g, k, hash).Ok?
    ensures
      var g' := Deliver(cfg, g, k, hash).value;
      Patient(g, g') && (k.round >= g'.round ==> Waiting(g', k, hash))
  {
    hide DeliverRound, Full;
    if k.round >= g.round {
      var g' := Resolve(g, k, hash);
      assert Patient(g, g') && Waiting(g', k, hash);
      if k.round == g.round && Full(cfg, g', k.round) {
        FullIsResolved(cfg, g', k.round);
        DeliverRoundPatient(cfg, g', k.round);
        PatientTwice(g, g', DeliverRound(cfg, g', k.round).value);
      }
    }
  }

  lemma FullIsResolved(cfg: Config, g: Graph, round: nat)
    requires Full(cfg, g, round)
    ensures round in g.resolved
  {
  }

  // --- messages ---

  /** A message changes the decisions of a state only where it decides. */
  lemma DecidesOnly(s: State, h: Heap, quorum: nat, sender: nat, receiver: nat, origin: nat, msg: Message)
    requires Interpret(s, h, quorum, sender, receiver, origin, msg).Ok?
    ensures
      var r := Interpret(s, h, quorum, sender, receiver, origin, msg).value;
      r.s.final == if r.decided then s.final[msg.p.At() := msg.p.hash] else s.final
  {
    hide Interpret, React, VotesAre, ViewsAre, TimeoutsAre;
    if !msg.ViewChange? {
      IsReact(s, h, quorum, sender, receiver, origin, msg);
    }
    match msg {
      case PrePrepare(p) => PrePrepareStep(s, h, quorum, sender, receiver, origin, p);
      case Prepare(p, x) => PrepareStep(s, h, quorum, sender, receiver, origin, p, x);
      case Commit(p, x) => CommitStep(s, h, quorum, sender, receiver, origin, p, x);
      case NewView(p, x) => NewViewStep(s, h, quorum, sender, receiver, origin, p, x);
      case ViewChange(p, x) => ViewChangeDecides(s, h, quorum, sender, receiver, origin, p, x);
    }
  }

  lemma ViewChangeDecides(s: State, h: Heap, quorum: nat, sender: nat, receiver: nat, origin: nat, p: Proposal, x: nat)
    requires Interpret(s, h, quorum, sender, receiver, origin, ViewChange(p, x)).Ok?
    ensures
      var r := Interpret(s, h, quorum, sender, receiver, origin, ViewChange(p, x)).value;
      !r.decided && r.s.final == s.final
  {
    hide Interpret, Reports, Write, Conflict, OneHash, ReportsRef, ViewsAre, SetView, SetViewChanged, TouchView;
    if p.At() in s.done || ViewOf(s, p.At()) > p.view {
      PassedView(s, h, quorum, sender, receiver, origin, p, x);
    } else {
      ViewChangeReaction(s, h, quorum, sender, receiver, origin, p, x);
      WrittenFinal(s, h, p.At(), p.view);
    }
  }

  lemma WrittenFinal(s: State, h: Heap, k: Slot, v: nat)
    ensures Written(s, h, k).final == s.final && SetView(Written(s, h, k), k, v).final == s.final
  {
    hide ReportsRef;
  }

  lemma StepWaits(cfg: Config, w: Work, sender: nat, origin: BlockID, msg: Message)
    requires Waits(w.g, w.s.final) && StepMessage(cfg, w, sender, origin, msg).Ok?
    ensures
      var w' := StepMessage(cfg, w, sender, origin, msg).value.0;
      Patient(w.g, w'.g) && Waits(w'.g, w'.s.final)
  {
    hide Interpret, Deliver, Patient, Waiting;
    DecidesOnly(w.s, w.g.heap, cfg.Quorum(), sender, origin.node, origin.round, msg);
    var r := Interpret(w.s, w.g.heap, cfg.Quorum(), sender, origin.node, origin.round, msg).value;
    var g := w.g.(heap := r.heap);
    PatientSelf(w.g, g);
    WaitsOn(w.g, g, w.s.final);
    if r.decided {
      DeliverPatient(cfg, g, msg.p.At(), msg.p.hash);
      var g' := Deliver(cfg, g, msg.p.At(), msg.p.hash).value;
      PatientTwice(w.g, g, g');
      WaitsOn(g, g', w.s.final);
    }
  }

  lemma {:induction false} FirstWaits(cfg: Config, w: Work, sender: nat, origin: BlockID, msgs: seq<Message>,
                                      out: seq<Message>)
    requires Waits(w.g, w.s.final) && FirstPass(cfg, w, sender, origin, msgs, out).Ok?
    ensures
      var w' := FirstPass(cfg, w, sender, origin, msgs, out).value.0;
      Patient(w.g, w'.g) && Waits(w'.g, w'.s.final)
    decreases |msgs|
  {
    hide StepMessage, Patient, Waits;
    if msgs == [] {
      PatientSelf(w.g, w.g);
    } else if msgs[0] in w.processed {
      FirstWaits(cfg, w, sender, origin, msgs[1..], out);
    } else {
      var step := StepMessage(cfg, w, sender, origin, msgs[0]);
      StepWaits(cfg, w, sender, origin, msgs[0]);
      FirstWaits(cfg, step.value.0, sender, origin, msgs[1..], Append(out, step.value.1));
      PatientTwice(w.g, step.value.0.g, FirstPass(cfg, w, sender, origin, msgs, out).value.0.g);
    }
  }

  lemma {:induction false} SecondWaits(cfg: Config, w: Work, sender: nat, origin: BlockID, out: seq<Message>, i: nat)
    requires i <= |out| && Waits(w.g, w.s.final) && SecondPass(cfg, w, sender, origin, out, i).Ok?
    ensures
      var w' := SecondPass(cfg, w, sender, origin, out, i).value.0;
      Patient(w.g, w'.g) && Waits(w'.g, w'.s.final)
    decreases Weight(out[i..]), |out| - i
  {
    hide StepMessage, Weight, Patient, Waits;
    if i == |out| {
      PatientSelf(w.g, w.g);
    } else {
      WeightStep(out, i);
      if out[i] in w.processed {
        SecondWaits(cfg, w, sender, origin, out, i + 1);
      } else {
        var step := StepMessage(cfg, w, sender, origin, out[i]);
        StepWaits(cfg, w, sender, origin, out[i]);
        WeightFalls(cfg, w, sender, origin, out, i);
        SecondWaits(cfg, step.value.0, sender, origin, Append(out, step.value.1), i + 1);
        PatientTwice(w.g, step.value.0.g, SecondPass(cfg, w, sender, origin, out, i).value.0.g);
      }
    }
  }

  lemma MessagesWait(cfg: Config, w: Work, sender: nat, origin: BlockID, msgs: seq<Message>)
    requires Waits(w.g, w.s.final) && ProcessMessages(cfg, w, sender, origin, msgs).Ok?
    ensures
      var w' := ProcessMessages(cfg, w, sender, origin, msgs).value.0;
      Patient(w.g, w'.g) && Waits(w'.g, w'.s.final)
  {
    hide FirstPass, SecondPass, Patient, Waits;
    var first := FirstPass(cfg, w, sender, origin, msgs, []);
    FirstWaits(cfg, w, sender, origin, msgs, []);
    SecondWaits(cfg, first.value.0, sender, origin, first.value.1, 0);
    PatientTwice(w.g, first.value.0.g, ProcessMessages(cfg, w, sender, origin, msgs).value.0.g);
  }

  lemma {:induction false} DepsWait(cfg: Config, w: Work, origin: BlockID, deps: seq<BlockID>, out: seq<Message>)
    requires Waits(w.g, w.s.final) && DepsPass(cfg, w, origin, deps, out).Ok?
    ensures
      var w' := DepsPass(cfg, w, origin, deps, out).value.0;
      Patient(w.g, w'.g) && Waits(w'.g, w'.s.final)
    decreases |deps|
  {
    hide ProcessMessages, Patient, Waits;
    if deps == [] {
      PatientSelf(w.g, w.g);
    } else {
      var msgs := OutputOf(w.g, deps[0]);
      MessagesWait(cfg, w, deps[0].node, origin, msgs);
      var (w', replies) := ProcessMessages(cfg, w, deps[0].node, origin, msgs).value;
      DepsWait(cfg, w', origin, deps[1..], out + replies);
      PatientTwice(w.g, w'.g, DepsPass(cfg, w, origin, deps, out).value.0.g);
    }
  }

  // --- blocks and runs ---

  ghost predicate StoredWait(g: Graph) {
    forall b | b in g.statess :: Waits(g, g.statess[b].final)
  }

  lemma StartWaits(g: Graph, e: Entry)
    requires StoredWait(g)
    ensures Waits(g, FindOrCreate(g, e).final)
  {
    hide Waiting, LiveMessages;
  }

  lemma OpeningFinal(cfg: Config, g: Graph, e: Entry)
    ensures Opening(cfg, g, e).0.final == FindOrCreate(g, e).final
  {
    hide FindOrCreate, WithTimeouts, FireTimeouts;
    var start := FindOrCreate(g, e);
    var s := WithTimeouts(cfg, start, e);
    WithTimeoutsExact(cfg, start, e);
    FireKeepsRest(s, e.block.node, TimeoutsAt(s, e.block.round), [PrePrepare(OwnProposal(e.block))]);
  }

  /** A block that is interpreted finds its decisions waiting, with all those before. */
  lemma ProcessWaits(cfg: Config, g: Graph, e: Entry)
    requires StoredWait(g) && Process(cfg, g, e).Ok?
    ensures
      var g' := Process(cfg, g, e).value;
      StoredWait(g') && Waits(g', g'.statess[e.block].final) && forall f | Waits(g, f) :: Waits(g', f)
  {
    hide Opening, ProcessMessages, DepsPass, FindOrCreate, Waits, Patient;
    StartWaits(g, e);
    OpeningFinal(cfg, g, e);
    var (s, opening) := Opening(cfg, g, e);
    MessagesWait(cfg, Work(g, s, {}), e.block.node, e.block, opening);
    var (w, replies) := ProcessMessages(cfg, Work(g, s, {}), e.block.node, e.block, opening).value;
    DepsWait(cfg, w, e.block, e.deps, opening + replies);
    var (w', out) := DepsPass(cfg, w, e.block, e.deps, opening + replies).value;
    PatientTwice(g, w.g, w'.g);
    var g' := Process(cfg, g, e).value;
    forall f | Waits(w'.g, f) ensures Waits(g', f) {
      SameResolved(w'.g, g', f);
    }
    forall f | Waits(g, f) ensures Waits(g', f) {
      WaitsOn(g, w'.g, f);
    }
    forall b | b in g'.statess && b != e.block ensures Waits(g', g'.statess[b].final) {
      StaysStored(g, w'.g, b);
      assert Waits(g, g.statess[b].final);
    }
  }

  lemma SameResolved(g: Graph, g': Graph, final: map<Slot, Hash>)
    requires Waits(g, final) && g'.resolved == g.resolved && g'.round == g.round
    ensures Waits(g', final)
  {
  }

  lemma StaysStored(g: Graph, g': Graph, b: BlockID)
    requires Patient(g, g') && b in g'.statess
    ensures b in g.statess && g'.statess[b] == g.statess[b]
  {
  }

  ghost predicate AllWait(g: Graph, hist: seq<Record>) {
    StoredWait(g) && forall i | 0 <= i < |hist| :: Waits(g, hist[i].end.final)
  }

  lemma {:induction false} ProcessAllWait(cfg: Config, g: Graph, hist: seq<Record>, entries: seq<Entry>)
    requires AllWait(g, hist) && ProcessAll(cfg, g, hist, entries).Ok?
    ensures AllWait(ProcessAll(cfg, g, hist, entries).value.0, ProcessAll(cfg, g, hist, entries).value.1)
    decreases |entries|
  {
    hide Process, FindOrCreate, StoredWait, Waits;
    if entries != [] {
      var e := entries[0];
      var g' := Process(cfg, g, e).value;
      ProcessWaits(cfg, g, e);
      ProcessAllWait(cfg, g', hist + [Record(e.block, e.prev, FindOrCreate(g, e), g'.statess[e.block])], entries[1..]);
    }
  }

  /**
    In every run each decision about a round that is not delivered is waiting, with its hash: so no two blocks
    have decided differently about such a slot.
   */
  lemma {:induction false} DecisionsWait(cfg: Config, inputs: seq<BlockGraph>, g: Graph, hist: seq<Record>)
    requires RunAll(cfg, inputs) == Ok((g, hist))
    ensures AllWait(g, hist)
    decreases |inputs|
  {
    hide ProcessAll, AllWait, Admit, Entries;
    if inputs == [] {
      NoneWait(cfg);
    } else {
      var n := |inputs| - 1;
      var (g0, hist0) := RunAll(cfg, inputs[..n]).value;
      DecisionsWait(cfg, inputs[..n], g0, hist0);
      AdmitWaits(g0, inputs[n], hist0);
      ProcessAllWait(cfg, Admit(g0, inputs[n]), hist0, Entries(inputs[n]));
    }
  }

  lemma NoneWait(cfg: Config)
    ensures AllWait(Initial(cfg), [])
  {
  }

  lemma AdmitWaits(g: Graph, bg: BlockGraph, hist: seq<Record>)
    requires AllWait(g, hist)
    ensures AllWait(Admit(g, bg), hist)
  {
    hide RecordMax, MaxOver, Waits;
    var g' := Admit(g, bg);
    forall f | Waits(g, f) ensures Waits(g', f) {
      SameResolved(g, g', f);
    }
  }

  lemma DecisionsAgree(cfg: Config, inputs: seq<BlockGraph>, g: Graph, hist: seq<Record>, i: nat, j: nat, k: Slot)
    requires RunAll(cfg, inputs) == Ok((g, hist)) && i < |hist| && j < |hist| && k.round >= g.round
    requires k in hist[i].end.final && k in hist[j].end.final
    ensures hist[i].end.final[k] == hist[j].end.final[k]
  {
    hide RunAll;
    DecisionsWait(cfg, inputs, g, hist);
    assert Waits(g, hist[i].end.final) && Waits(g, hist[j].end.final);
  }
}
