/**
  One block: everything that the interpretation of a message keeps is kept by processMessages and by
  process, over all the messages of the block and of its dependencies.
 */
module Passes {
  import opened Bytes
  import opened Ids
  import opened Outcomes
  import opened Protocol
  import opened Interpreter
  import opened Evidence
  import opened Zones
  import opened Delivery
  import Timeouts

  /** The block being interpreted in a world, the state that it started from, and a round it stays within. */
  datatype Task = Task(w: World, block: BlockID, start: State, top: nat) {
    function Ctx(): Context { Context(w.cfg.Quorum(), w.hist, block, start) }

    function Area(): Zone { Zone(w.nodes, top) }

    predicate Placed() {
      block.Valid() && block.node in w.nodes && block.round <= top <= w.top
    }
  }

  ghost predicate StateOk(t: Task, s: State, out: seq<Message>)
    requires t.Placed()
  {
    && Sound(t.Ctx(), out, s)
    && (Tame(t.Ctx()) ==> Calm(t.Ctx(), out, s))
    && DataIn(t.Area(), s)
    && MessagesIn(t.Area(), out)
  }

  ghost predicate WorkOk(t: Task, k: Work, out: seq<Message>)
    requires t.Placed()
  {
    StateOk(t, k.s, out) && Ledger(t.w, k.g, k.s.final) && Settled(t.w, k.g)
  }

  /** What is known of a message that is about to be interpreted. */
  ghost predicate MessageOk(t: Task, out: seq<Message>, sender: nat, m: Message)
    requires t.Placed()
  {
    && Legit(t.Ctx(), out, m)
    && (Tame(t.Ctx()) ==> LegitCalm(t.Ctx(), sender, m))
    && MessageIn(t.Area(), m)
  }

  ghost predicate MessagesOk(t: Task, out: seq<Message>, sender: nat, msgs: seq<Message>)
    requires t.Placed()
  {
    forall m | m in msgs :: MessageOk(t, out, sender, m)
  }

  lemma MessageOkGrows(t: Task, out: seq<Message>, out': seq<Message>, sender: nat, m: Message)
    requires t.Placed() && MessageOk(t, out, sender, m) && out <= out'
    ensures MessageOk(t, out', sender, m)
  {
    hide LegitCalm, MessageIn, Sent;
    if m.Prepare? || m.Commit? {
      SentGrows(t.Ctx(), out, out', m);
    }
  }

  lemma MessagesOkGrow(t: Task, out: seq<Message>, out': seq<Message>, sender: nat, msgs: seq<Message>)
    requires t.Placed() && MessagesOk(t, out, sender, msgs) && out <= out'
    ensures MessagesOk(t, out', sender, msgs)
  {
    hide MessageOk;
    forall m | m in msgs ensures MessageOk(t, out', sender, m) {
      MessageOkGrows(t, out, out', sender, m);
    }
  }

  // --- one message ---

  lemma LedgerFinalGrows(w: World, g: Graph, final: map<Slot, Hash>, final': map<Slot, Hash>)
    requires Ledger(w, g, final) && SlotsKept(final, final', 0)
    ensures Ledger(w, g, final')
  {
    hide HistPlaced, BlocksBounded, AllInterpreted, Current, Stored, LogRounds, RoundsOk, MaxOk, Listing.ListingOf;
    forall round: nat, hashes: map<nat, Hash> | AllDecided(w.hist, final, round, hashes)
      ensures AllDecided(w.hist, final', round, hashes)
    {
      forall n | n in hashes ensures Decided(w.hist, final', Slot(n, round), hashes[n]) {
        assert Decided(w.hist, final, Slot(n, round), hashes[n]);
      }
    }
    hide AllDecided;
    forall i | 0 <= i < |g.log| ensures ToldOk(w, final', g.log[i]) {
      assert ToldOk(w, final, g.log[i]);
    }
  }

  lemma LedgerHeap(w: World, g: Graph, heap: Heap, final: map<Slot, Hash>)
    requires Ledger(w, g, final)
    ensures Ledger(w, g.(heap := heap), final)
  {
    hide AllDecided, LogRounds, LogTold, HistPlaced, BlocksBounded, AllInterpreted, Current, Stored, RoundsOk, MaxOk;
    var g' := g.(heap := heap);
    FrameSame(w, g, g');
    LogSame(w, g, g', final);
  }

  lemma InterpretFails(s: State, h: Heap, quorum: nat, sender: nat, receiver: nat, origin: nat, msg: Message)
    ensures Interpret(s, h, quorum, sender, receiver, origin, msg) != Panic
  {
    hide OnPrePrepare, OnPrepare, OnCommit, OnNewView, Read, Write, TouchView;
  }

  /** The state part of one step. */
  lemma InterpretKeeps(t: Task, s: State, h: Heap, out: seq<Message>, sender: nat, msg: Message)
    requires t.Placed() && StateOk(t, s, out) && MessageOk(t, out, sender, msg) && sender in t.w.nodes
    requires Interpret(s, h, t.w.cfg.Quorum(), sender, t.block.node, t.block.round, msg).Ok?
    ensures
      var r := Interpret(s, h, t.w.cfg.Quorum(), sender, t.block.node, t.block.round, msg).value;
      && StateOk(t, r.s, Append(out, r.reply))
      && SlotsKept(s.final, r.s.final, 0)
      && (r.decided ==> msg.p.At() in r.s.final && r.s.final[msg.p.At()] == msg.p.hash)
      && (r.reply.Some? ==> MessageOk(t, Append(out, r.reply), sender, r.reply.value))
  {
    hide Interpret, Sound, Calm, DataIn, MessageIn, Legit, LegitCalm, SlotsKept;
    var c := t.Ctx();
    InterpretSound(c, out, s, h, sender, t.block.round, msg);
    if Tame(c) {
      InterpretCalm(c, out, s, h, sender, t.block.round, msg);
    }
    InterpretInZone(t.Area(), s, h, c.quorum, sender, t.block.node, t.block.round, msg);
    InterpretFinal(s, h, c.quorum, sender, t.block.node, t.block.round, msg);
  }

  /** A decision, once made, is not changed. */
  lemma InterpretFinal(s: State, h: Heap, quorum: nat, sender: nat, receiver: nat, origin: nat, msg: Message)
    requires Interpret(s, h, quorum, sender, receiver, origin, msg).Ok?
    ensures SlotsKept(s.final, Interpret(s, h, quorum, sender, receiver, origin, msg).value.s.final, 0)
  {
    hide OnViewChange, OnPrePrepare, OnPrepare, OnNewView, OnCommit, TouchView;
    var r := Interpret(s, h, quorum, sender, receiver, origin, msg).value;
    if msg.p.At() !in s.done {
      var t := TouchView(s, msg.p.At());
      HandlersFinal(t, h, quorum, sender, receiver, origin, msg);
      TouchFinal(s, msg.p.At());
    }
  }

  lemma TouchFinal(s: State, k: Slot)
    ensures TouchView(s, k).final == s.final
  {
  }

  lemma WritesFinal(s: State, p: Proposal, b: Votes, b': Votes)
    ensures SetVotes(s, p, b).final == s.final
    ensures SetPrePrepared(SetVotes(s, p, b), p).final == s.final
    ensures SetPrepared(SetVotes(s, p, b'), p).final == s.final
  {
  }

  lemma CommitFinal(s: State, h: Heap, quorum: nat, p: Proposal, voter: nat)
    requires p.At() in s.view
    ensures SlotsKept(s.final, OnCommit(s, h, quorum, p, voter).s.final, 0)
  {
    hide Exactly, AddCommit, VotesFor;
  }

  lemma NewViewFinal(s: State, h: Heap, origin: nat, p: Proposal)
    requires p.At() in s.view
    ensures OnNewView(s, h, origin, p).s.final == s.final
  {
  }

  lemma ViewChangeFinal(s: State, h: Heap, quorum: nat, receiver: nat, p: Proposal, voter: nat)
    requires p.At() in s.view
    ensures
      var r := OnViewChange(s, h, quorum, receiver, p, voter);
      r.Ok? ==> r.value.s.final == s.final
  {
    hide Exactly, ReportedHash, Read, Write, SetViewChanged, SetView;
    var k := Ballot(p.node, p.round, s.view[p.At()]);
    var ref := if k in s.viewChanged then s.viewChanged[k] else |h|;
    ViewWritesFinal(s, k, ref, p.At(), p.view);
  }

  lemma ViewWritesFinal(s: State, k: Ballot, ref: Ref, at: Slot, v: nat)
    ensures SetViewChanged(s, k, ref).final == s.final && SetView(SetViewChanged(s, k, ref), at, v).final == s.final
  {
  }

  lemma HandlersFinal(s: State, h: Heap, quorum: nat, sender: nat, receiver: nat, origin: nat, msg: Message)
    requires msg.p.At() in s.view
    ensures msg.PrePrepare? ==> OnPrePrepare(s, h, sender, receiver, msg.p).s.final == s.final
    ensures msg.Prepare? ==> OnPrepare(s, h, quorum, receiver, msg.p, msg.sender).s.final == s.final
    ensures msg.NewView? ==> OnNewView(s, h, origin, msg.p).s.final == s.final
    ensures msg.Commit? ==> SlotsKept(s.final, OnCommit(s, h, quorum, msg.p, msg.sender).s.final, 0)
    ensures msg.ViewChange? ==>
      var r := OnViewChange(s, h, quorum, receiver, msg.p, msg.sender);
      r.Ok? ==> r.value.s.final == s.final
  {
    hide Exactly, SetVotes, SetPrePrepared, SetPrepared, OnCommit, OnViewChange, OnNewView, SlotsKept;
    match msg
    case PrePrepare(p) =>
      var b := AddPrepare(AddPrepare(VotesFor(s, p), sender), receiver);
      WritesFinal(s, p, b, b);
    case Prepare(p, voter) =>
      var b := AddPrepare(VotesFor(s, p), voter);
      WritesFinal(s, p, b, AddCommit(b, receiver));
    case Commit(p, voter) => CommitFinal(s, h, quorum, p, voter);
    case ViewChange(p, voter) => ViewChangeFinal(s, h, quorum, receiver, p, voter);
    case NewView(p, _) => NewViewFinal(s, h, origin, p);
  }

  /** processMessage keeps everything, and never reads from an empty block list. */
  lemma StepKeeps(t: Task, k: Work, out: seq<Message>, sender: nat, msg: Message)
    requires t.Placed() && WorkOk(t, k, out) && MessageOk(t, out, sender, msg) && sender in t.w.nodes
    ensures
      var r := StepMessage(t.w.cfg, k, sender, t.block, msg);
      && r != Panic
      && (r.Ok? ==>
            && WorkOk(t, r.value.0, Append(out, r.value.1))
            && (r.value.1.Some? ==> MessageOk(t, Append(out, r.value.1), sender, r.value.1.value)))
  {
    hide Interpret, StateOk, Ledger, Settled, Deliver, SlotsKept, Legit, LegitCalm;
    InterpretFails(k.s, k.g.heap, t.w.cfg.Quorum(), sender, t.block.node, t.block.round, msg);
    var ir := Interpret(k.s, k.g.heap, t.w.cfg.Quorum(), sender, t.block.node, t.block.round, msg);
    if ir.Ok? {
      InterpretKeeps(t, k.s, k.g.heap, out, sender, msg);
      var g := k.g.(heap := ir.value.heap);
      LedgerFinalGrows(t.w, k.g, k.s.final, ir.value.s.final);
      LedgerHeap(t.w, k.g, ir.value.heap, ir.value.s.final);
      SettledHeap(t.w, k.g, ir.value.heap);
      if ir.value.decided {
        DeliverKeeps(t.w, g, msg.p.At(), msg.p.hash, ir.value.s.final);
      }
    }
  }

  lemma SettledHeap(w: World, g: Graph, heap: Heap)
    requires Settled(w, g)
    ensures Settled(w, g.(heap := heap))
  {
  }

  // --- all messages of a block ---

  /** The first loop of processMessages; the output so far is `base` and this call's replies. */
  lemma {:induction false} FirstPassKeeps(t: Task, k: Work, sender: nat, msgs: seq<Message>, base: seq<Message>,
                                          out: seq<Message>)
    requires t.Placed() && WorkOk(t, k, base + out) && sender in t.w.nodes
    requires MessagesOk(t, base + out, sender, msgs) && MessagesOk(t, base + out, sender, out)
    ensures
      var r := FirstPass(t.w.cfg, k, sender, t.block, msgs, out);
      && r != Panic
      && (r.Ok? ==>
            && out <= r.value.1 && WorkOk(t, r.value.0, base + r.value.1)
            && MessagesOk(t, base + r.value.1, sender, r.value.1))
    decreases |msgs|
  {
    hide WorkOk, StepMessage, MessageOk;
    if msgs != [] {
      if msgs[0] in k.processed {
        FirstPassKeeps(t, k, sender, msgs[1..], base, out);
      } else {
        var step := StepMessage(t.w.cfg, k, sender, t.block, msgs[0]);
        StepKeeps(t, k, base + out, sender, msgs[0]);
        if step.Ok? {
          var out' := Append(out, step.value.1);
          assert Append(base + out, step.value.1) == base + out';
          MessagesOkGrow(t, base + out, base + out', sender, msgs);
          MessagesOkGrow(t, base + out, base + out', sender, out);
          FirstPassKeeps(t, step.value.0, sender, msgs[1..], base, out');
        }
      }
    }
  }

  /** The second loop, over the replies and the replies to them. */
  lemma {:induction false} SecondPassKeeps(t: Task, k: Work, sender: nat, base: seq<Message>, out: seq<Message>, i: nat)
    requires t.Placed() && i <= |out| && WorkOk(t, k, base + out) && sender in t.w.nodes
    requires MessagesOk(t, base + out, sender, out)
    ensures
      var r := SecondPass(t.w.cfg, k, sender, t.block, out, i);
      && r != Panic
      && (r.Ok? ==> out <= r.value.1 && WorkOk(t, r.value.0, base + r.value.1))
    decreases Weight(out[i..]), |out| - i
  {
    hide WorkOk, StepMessage, MessageOk, Weight;
    if i < |out| {
      WeightStep(out, i);
      if out[i] in k.processed {
        SecondPassKeeps(t, k, sender, base, out, i + 1);
      } else {
        var step := StepMessage(t.w.cfg, k, sender, t.block, out[i]);
        StepKeeps(t, k, base + out, sender, out[i]);
        if step.Ok? {
          WeightFalls(t.w.cfg, k, sender, t.block, out, i);
          var out' := Append(out, step.value.1);
          assert Append(base + out, step.value.1) == base + out';
          MessagesOkGrow(t, base + out, base + out', sender, out);
          SecondPassKeeps(t, step.value.0, sender, base, out', i + 1);
        }
      }
    }
  }

  lemma ProcessMessagesKeeps(t: Task, k: Work, sender: nat, msgs: seq<Message>, base: seq<Message>)
    requires t.Placed() && WorkOk(t, k, base) && sender in t.w.nodes && MessagesOk(t, base, sender, msgs)
    ensures
      var r := ProcessMessages(t.w.cfg, k, sender, t.block, msgs);
      r != Panic && (r.Ok? ==> WorkOk(t, r.value.0, base + r.value.1))
  {
    hide WorkOk, FirstPass, SecondPass, MessageOk;
    assert base + [] == base;
    FirstPassKeeps(t, k, sender, msgs, base, []);
    var r := FirstPass(t.w.cfg, k, sender, t.block, msgs, []);
    if r.Ok? {
      SecondPassKeeps(t, r.value.0, sender, base, r.value.1, 0);
    }
  }

  // --- the messages of the dependencies ---

  function RecordCtx(quorum: nat, hist: seq<Record>, i: nat): Context
    requires i < |hist|
  {
    Context(quorum, hist[..i], hist[i].block, hist[i].start)
  }

  /** Everything that was established for a block is true of its record. */
  ghost predicate RecordOk(quorum: nat, hist: seq<Record>, i: nat)
    requires i < |hist|
  {
    var c := RecordCtx(quorum, hist, i);
    && Sound(c, hist[i].end.out, hist[i].end)
    && (Tame(c) ==> Calm(c, hist[i].end.out, hist[i].end))
  }

  ghost predicate History(quorum: nat, hist: seq<Record>) {
    forall i | 0 <= i < |hist| :: RecordOk(quorum, hist, i)
  }

  /** Links to blocks that have been interpreted, none of them beyond the block's own bound. */
  ghost predicate LinkOk(t: Task, d: BlockID) {
    forall i | 0 <= i < |t.w.hist| && i < |t.w.tops| && t.w.hist[i].block == d :: t.w.tops[i] <= t.top
  }

  /** A message that a record put out, when a later block interprets it. */
  lemma RecordMessageOk(t: Task, i: nat, out: seq<Message>, m: Message)
    requires t.Placed() && i < |t.w.hist| && RecordOk(t.w.cfg.Quorum(), t.w.hist, i)
    requires m in t.w.hist[i].end.out && MessageIn(t.Area(), m)
    ensures MessageOk(t, out, t.w.hist[i].block.node, m)
  {
    var c := RecordCtx(t.w.cfg.Quorum(), t.w.hist, i);
    assert MessageBacked(c, t.w.hist[i].end, m);
    hide Grows, FinalBacked, OnceOnly, CommitsSent, MessageIn, PreparesBacked, PrePreparedKnown, ViewsGrow,
      ViewsCapped, TimeoutsCapped;
    if Tame(t.Ctx()) {
      assert MessageCalm(c, m);
      KnownGrows(c, t.Ctx(), m.p.Block(), i);
    }
  }

  lemma KnownGrows(c: Context, c': Context, b: BlockID, i: nat)
    requires i < |c'.hist| && c.hist == c'.hist[..i] && c.block == c'.hist[i].block
    ensures Known(c, b) ==> Known(c', b)
  {
  }

  /** The stored output of a link. */
  lemma LinkMessagesOk(t: Task, k: Work, out: seq<Message>, d: BlockID)
    requires t.Placed() && LinkOk(t, d) && WorkOk(t, k, out) && History(t.w.cfg.Quorum(), t.w.hist)
    ensures OutputOf(k.g, d) != [] ==> d.node in t.w.nodes && MessagesOk(t, out, d.node, OutputOf(k.g, d))
  {
    hide StateOk, RecordOk, MessageOk, DataIn, BlocksBounded, AllInterpreted, LogTold, RoundsOk, MaxOk, LogRounds,
      ResolvedOk, Current, Latest;
    if d in k.g.statess {
      var i: nat :| StoredAs(t.w.hist, i, d, k.g.statess[d]);
      assert RecordPlaced(t.w, t.w.hist[i], t.w.tops[i]);
      var z := Zone(t.w.nodes, t.w.tops[i]);
      MessagesZoneGrows(z, t.Area(), t.w.hist[i].end.out);
      forall m | m in OutputOf(k.g, d) ensures MessageOk(t, out, d.node, m) {
        RecordMessageOk(t, i, out, m);
      }
    }
  }

  ghost predicate LinksOk(t: Task, deps: seq<BlockID>) {
    forall d | d in deps :: LinkOk(t, d)
  }

  lemma {:induction false} DepsPassKeeps(t: Task, k: Work, deps: seq<BlockID>, out: seq<Message>)
    requires t.Placed() && WorkOk(t, k, out) && LinksOk(t, deps) && History(t.w.cfg.Quorum(), t.w.hist)
    ensures
      var r := DepsPass(t.w.cfg, k, t.block, deps, out);
      r != Panic && (r.Ok? ==> WorkOk(t, r.value.0, r.value.1))
    decreases |deps|
  {
    hide WorkOk, ProcessMessages, MessagesOk, History, LinkOk;
    if deps != [] {
      var d := deps[0];
      var msgs := OutputOf(k.g, d);
      LinkMessagesOk(t, k, out, d);
      var r := ProcessMessages(t.w.cfg, k, d.node, t.block, msgs);
      if msgs == [] {
        NothingToProcess(t.w.cfg, k, d.node, t.block);
      } else {
        ProcessMessagesKeeps(t, k, d.node, msgs, out);
      }
      if r.Ok? {
        assert msgs == [] ==> out + r.value.1 == out;
        DepsPassKeeps(t, r.value.0, deps[1..], out + r.value.1);
      }
    }
  }

  lemma NothingToProcess(cfg: Config, k: Work, sender: nat, origin: BlockID)
    ensures ProcessMessages(cfg, k, sender, origin, []) == Ok((k, []))
  {
  }

  // --- the start of a block ---

  lemma CloneGrows(s: State, low: nat)
    ensures Grows(s, Clone(s, low), low) && ViewsGrow(s.view, Clone(s, low).view, low)
  {
    hide LiveMessages;
  }

  /** What a record's state proves is still proved, later on, by a clone of it. */
  lemma CloneSound(t: Task, i: nat, low: nat)
    requires t.Placed() && i < |t.w.hist| && RecordOk(t.w.cfg.Quorum(), t.w.hist, i)
    requires t.start == Clone(t.w.hist[i].end, low)
    ensures Sound(t.Ctx(), [], t.start)
  {
    hide Calm, LiveMessages, CommitsSent, FinalBacked, Grows;
    var c := RecordCtx(t.w.cfg.Quorum(), t.w.hist, i);
    var s := t.w.hist[i].end;
    CloneCommits(t, i, t.start.bitsets);
    CloneFinal(c.quorum, s.bitsets, s.final, t.start.bitsets, t.start.final, low);
    GrowsSelf(t.start);
  }

  lemma CloneCommits(t: Task, i: nat, bitsets: map<Proposal, Votes>)
    requires i < |t.w.hist|
    requires CommitsSent(RecordCtx(t.w.cfg.Quorum(), t.w.hist, i), t.w.hist[i].end.out, t.w.hist[i].end.bitsets)
    requires forall p | p in bitsets :: p in t.w.hist[i].end.bitsets && t.w.hist[i].end.bitsets[p] == bitsets[p]
    ensures CommitsSent(t.Ctx(), [], bitsets)
  {
    hide Sent;
    forall p, x | p in bitsets && x in bitsets[p].commits ensures Sent(t.Ctx(), [], Commit(p, x)) {
      RecordSent(t, i, Commit(p, x));
    }
  }

  lemma CloneFinal(quorum: nat, bitsets: map<Proposal, Votes>, final: map<Slot, Hash>,
                   bitsets': map<Proposal, Votes>, final': map<Slot, Hash>, low: nat)
    requires FinalBacked(quorum, bitsets, final)
    requires forall p | p in bitsets && p.round >= low :: p in bitsets' && bitsets'[p] == bitsets[p]
    requires forall k | k in final' :: k.round >= low && k in final && final'[k] == final[k]
    ensures FinalBacked(quorum, bitsets', final')
  {
    forall k | k in final' ensures Certified(quorum, bitsets', k, final'[k]) {
      assert Certified(quorum, bitsets, k, final[k]);
    }
  }

  lemma RecordSent(t: Task, i: nat, m: Message)
    requires m.Prepare? || m.Commit?
    requires i < |t.w.hist| && Sent(RecordCtx(t.w.cfg.Quorum(), t.w.hist, i), t.w.hist[i].end.out, m)
    ensures Sent(t.Ctx(), [], m)
  {
  }

  /** All views are below the cap that the new block brings. */
  ghost predicate ViewsLow(t: Task, s: State) {
    ViewsCapped(|t.w.hist|, s.view) && TimeoutsCapped(|t.w.hist|, s.timeouts)
  }

  lemma CloneCalm(t: Task, i: nat, low: nat)
    requires t.Placed() && i < |t.w.hist| && RecordOk(t.w.cfg.Quorum(), t.w.hist, i) && Tame(t.Ctx())
    requires t.start == Clone(t.w.hist[i].end, low)
    ensures Calm(t.Ctx(), [], t.start) && ViewsLow(t, t.start)
  {
    hide Sound, LiveMessages, OutCalm;
    var c, c' := RecordCtx(t.w.cfg.Quorum(), t.w.hist, i), t.Ctx();
    var s := t.w.hist[i].end;
    hide Known, Sent;
    forall p, x | p in t.start.bitsets && p.view == 0 && x in t.start.bitsets[p].prepares
      ensures PrepareBacked(c', [], p, x)
    {
      assert PrepareBacked(c, s.out, p, x);
      KnownGrows(c, c', p.Block(), i);
      if Sent(c, s.out, Prepare(p, x)) {
        RecordSent(t, i, Prepare(p, x));
      }
    }
    forall k | k in t.start.prePrepared && k.view == 0 ensures Known(c', t.start.prePrepared[k].Block()) {
      KnownGrows(c, c', s.prePrepared[k].Block(), i);
    }
    assert OutCalm(c', []) by { EmptyCalm(c'); }
  }

  lemma EmptyCalm(c: Context)
    ensures OutCalm(c, [])
  {
  }

  /** The state that a block starts from: a clone of the one before, or a fresh one. */
  ghost predicate StartOk(t: Task)
    requires t.Placed()
  {
    StateOk(t, t.start, []) && (Tame(t.Ctx()) ==> ViewsLow(t, t.start))
  }

  lemma FreshOk(t: Task)
    requires t.Placed() && t.start == FRESH
    ensures StartOk(t)
  {
    GrowsSelf(FRESH);
    FreshIn(t.Area());
  }

  lemma StartIsOk(t: Task, g: Graph, e: Entry, final: map<Slot, Hash>)
    requires t.Placed() && e.block == t.block && t.start == FindOrCreate(g, e)
    requires Ledger(t.w, g, final) && History(t.w.cfg.Quorum(), t.w.hist) && (e.prev.Valid() ==> LinkOk(t, e.prev))
    ensures StartOk(t)
  {
    hide Clone, Sound, Calm, DataIn, BlocksBounded, AllInterpreted, LogTold, RoundsOk, MaxOk, LogRounds, ResolvedOk,
      Current, Latest;
    if e.prev.Valid() && e.prev in g.statess {
      var i: nat :| StoredAs(t.w.hist, i, e.prev, g.statess[e.prev]);
      assert RecordPlaced(t.w, t.w.hist[i], t.w.tops[i]);
      assert RecordOk(t.w.cfg.Quorum(), t.w.hist, i);
      var z := Zone(t.w.nodes, t.w.tops[i]);
      CloneIn(z, t.w.hist[i].end, g.round);
      ZoneGrows(z, t.Area(), t.start);
      hide RecordOk, Stored, HistPlaced, LinkOk;
      CloneSound(t, i, g.round);
      if Tame(t.Ctx()) {
        CloneCalm(t, i, g.round);
      }
    } else {
      FreshOk(t);
    }
  }

  /** Delays and timeouts touch no vote. */
  lemma WithTimeoutsOk(t: Task, e: Entry)
    requires t.Placed() && e.block == t.block && StartOk(t) && PeersIn(t.w)
    ensures
      var s := WithTimeouts(t.w.cfg, t.start, e);
      StateOk(t, s, []) && (Tame(t.Ctx()) ==> ViewsLow(t, s))
  {
    hide Sound, Calm, DataIn, Delays, Timeouts.TimeoutValue, AddTimeouts, ViewsCapped, TimeoutsCapped;
    var s := t.start;
    var delay := Delays(s.delay, e.block.round, e.deps);
    var val := Timeouts.TimeoutValue(delay, 2 * t.w.cfg.Faults());
    var u := s.(delay := delay).(timeout := val);
    DelaysOk(t, s, delay, val);
    var ts := NewTimeouts(t.w.cfg.peers, e.block.round);
    var at := Wrap64(e.block.round + val);
    AddTimeoutsGrows(u, at, ts);
    AddTimeoutsOk(t, u, at, ts);
  }

  ghost predicate PeersIn(w: World) {
    forall x | x in w.cfg.peers :: x in w.nodes
  }

  lemma DelaysOk(t: Task, s: State, delay: map<nat, nat>, val: nat)
    requires t.Placed() && StateOk(t, s, []) && (Tame(t.Ctx()) ==> ViewsLow(t, s))
    ensures
      var u := s.(delay := delay).(timeout := val);
      StateOk(t, u, []) && (Tame(t.Ctx()) ==> ViewsLow(t, u))
  {
    hide CommitsSent, OutBacked, OnceOnly, FinalBacked, Calm, ViewsCapped, TimeoutsCapped, VotesIn, SlotsIn, BallotsIn,
      FlagsIn, TimeoutsIn;
    var u := s.(delay := delay).(timeout := val);
    GrowsSelf(s);
    assert Grows(s, u, 0);
    hide Grows;
    WriteSound(t.Ctx(), [], s, u);
    if Tame(t.Ctx()) {
      WriteCalm(t.Ctx(), [], s, u);
    }
  }

  lemma AddTimeoutsOk(t: Task, s: State, at: nat, ts: seq<Timeout>)
    requires t.Placed() && StateOk(t, s, []) && (Tame(t.Ctx()) ==> ViewsLow(t, s))
    requires forall x | x in ts :: x.node in t.w.nodes && x.round == t.block.round && x.view == 0
    ensures
      var u := AddTimeouts(s, at, ts);
      StateOk(t, u, []) && (Tame(t.Ctx()) ==> ViewsLow(t, u))
  {
    hide Sound, Calm, DataIn, ViewsCapped;
    var u := AddTimeouts(s, at, ts);
    AddTimeoutsGrows(s, at, ts);
    WriteSound(t.Ctx(), [], s, u);
    TimeoutsInZone(t.Area(), s, at, ts);
    if Tame(t.Ctx()) {
      TimeoutsCalm(t.Ctx(), [], s, at, ts);
      assert TimeoutsCapped(|t.w.hist|, u.timeouts);
    }
  }

  /** The timeouts that are due speak of this zone and, before a wrap-around, of low views. */
  ghost predicate DueOk(t: Task, due: seq<Timeout>)
    requires t.Placed()
  {
    forall x | x in due :: t.Area().Holds(x.node, x.round) && (Tame(t.Ctx()) ==> x.view <= |t.w.hist|)
  }

  ghost predicate OpeningOk(t: Task, s: State, out: seq<Message>)
    requires t.Placed()
  {
    StateOk(t, s, out) && MessagesOk(t, out, t.block.node, out)
  }

  lemma FireOne(t: Task, s: State, out: seq<Message>, x: Timeout, v: nat, hash: Hash)
    requires t.Placed() && OpeningOk(t, s, out) && DueOk(t, [x])
    requires v == (if Slot(x.node, x.round) in s.view then s.view[Slot(x.node, x.round)] else 0) && v <= x.view
    ensures
      var m := ViewChange(Proposal(hash, x.node, x.round, NextView(x.view)), t.block.node);
      var u := SetView(s, Slot(x.node, x.round), NextView(v));
      OpeningOk(t, u, out + [m]) && u.final == s.final
  {
    hide Sound, Calm, DataIn, MessageOk;
    var c := t.Ctx();
    var k := Slot(x.node, x.round);
    var m := ViewChange(Proposal(hash, x.node, x.round, NextView(x.view)), t.block.node);
    var u := SetView(s, k, NextView(v));
    assert x in [x];
    SetViewGrows(s, k, NextView(v));
    WriteSound(c, out, s, u);
    AppendSound(c, out, u, m);
    ViewInZone(t.Area(), s, k, NextView(v));
    if Tame(c) {
      ViewCalm(c, out, s, k, NextView(v));
      AppendCalm(c, out, u, m);
    }
    MessagesOkGrow(t, out, out + [m], t.block.node, out);
    ViewChangeOk(t, out + [m], m);
  }

  lemma ViewChangeOk(t: Task, out: seq<Message>, m: Message)
    requires t.Placed() && m.ViewChange? && MessageIn(t.Area(), m)
    requires Tame(t.Ctx()) ==> 0 < m.p.view <= t.Ctx().Cap()
    ensures MessageOk(t, out, t.block.node, m)
  {
  }

  lemma {:induction false} FireKeeps(t: Task, s: State, due: seq<Timeout>, out: seq<Message>)
    requires t.Placed() && OpeningOk(t, s, out) && DueOk(t, due)
    ensures
      var (s', out') := FireTimeouts(s, t.block.node, due, out);
      OpeningOk(t, s', out') && s'.final == s.final
    decreases |due|
  {
    hide OpeningOk, SetView;
    if due != [] {
      var x := due[0];
      var k := Slot(x.node, x.round);
      var v := if k in s.view then s.view[k] else 0;
      if k in s.done || v > x.view {
        FireKeeps(t, s, due[1..], out);
      } else {
        var b := Ballot(x.node, x.round, x.view);
        var hash := if b in s.prepared then s.prepared[b] else [];
        var m := ViewChange(Proposal(hash, x.node, x.round, NextView(x.view)), t.block.node);
        FireOne(t, s, out, x, v, hash);
        FireKeeps(t, SetView(s, k, NextView(v)), due[1..], out + [m]);
      }
    }
  }

  lemma OwnProposalOk(t: Task, s: State)
    requires t.Placed() && StateOk(t, s, [])
    ensures OpeningOk(t, s, [PrePrepare(OwnProposal(t.block))])
  {
    hide CommitsSent, FinalBacked, Grows, PreparesBacked, PrePreparedKnown, ViewsGrow, ViewsCapped, TimeoutsCapped,
      DataIn;
    var m := PrePrepare(OwnProposal(t.block));
    assert [] + [m] == [m];
    AppendSound(t.Ctx(), [], s, m);
    if Tame(t.Ctx()) {
      AppendCalm(t.Ctx(), [], s, m);
    }
  }

  lemma WithTimeoutsFinal(cfg: Config, s: State, e: Entry)
    ensures WithTimeouts(cfg, s, e).final == s.final
  {
    hide Delays, Timeouts.TimeoutValue, NewTimeouts, AddTimeouts, Wrap64;
    var s' := s.(delay := Delays(s.delay, e.block.round, e.deps));
    var t := Timeouts.TimeoutValue(s'.delay, 2 * cfg.Faults());
    AddTimeoutsFinal(s'.(timeout := t), Wrap64(e.block.round + t), NewTimeouts(cfg.peers, e.block.round));
  }

  lemma AddTimeoutsFinal(s: State, at: nat, ts: seq<Timeout>)
    ensures AddTimeouts(s, at, ts).final == s.final
  {
  }

  /** A block's own first messages. */
  lemma OpeningKeeps(t: Task, g: Graph, e: Entry)
    requires t.Placed() && e.block == t.block && t.start == FindOrCreate(g, e) && StartOk(t) && PeersIn(t.w)
    ensures
      var (s, opening) := Opening(t.w.cfg, g, e);
      OpeningOk(t, s, opening) && s.final == t.start.final
  {
    hide StartOk, FindOrCreate, WithTimeouts, FireTimeouts, OpeningOk, Sound, Calm, MessagesIn, VotesIn, SlotsIn,
      BallotsIn, FlagsIn, ViewsCapped;
    var s := WithTimeouts(t.w.cfg, t.start, e);
    WithTimeoutsOk(t, e);
    WithTimeoutsFinal(t.w.cfg, t.start, e);
    OwnProposalOk(t, s);
    FireKeeps(t, s, TimeoutsAt(s, e.block.round), [PrePrepare(OwnProposal(t.block))]);
  }

  /** process: the evidence for the new state, and the ledger just before the state is stored. */
  lemma ProcessKeeps(t: Task, g: Graph, e: Entry) returns (before: Graph)
    requires t.Placed() && e.block == t.block && t.start == FindOrCreate(g, e)
    requires Ledger(t.w, g, map[]) && Settled(t.w, g) && History(t.w.cfg.Quorum(), t.w.hist) && PeersIn(t.w)
    requires LinksOk(t, e.deps) && (e.prev.Valid() ==> LinkOk(t, e.prev))
    ensures
      var r := Process(t.w.cfg, g, e);
      && r != Panic
      && (r.Ok? ==>
            var end := r.value.statess[e.block];
            && StateOk(t, end, end.out)
            && Ledger(t.w, before, end.final) && Settled(t.w, before)
            && r.value == before.(statess := before.statess[e.block := end]))
  {
    hide FindOrCreate, Opening, ProcessMessages, DepsPass, Ledger, Settled, StateOk, History, LinkOk, LinksOk, StartOk,
      MessagesOk;
    StartIsOk(t, g, e, map[]);
    OpeningKeeps(t, g, e);
    var (s, opening) := Opening(t.w.cfg, g, e);
    LedgerFinalGrows(t.w, g, map[], s.final);
    before := g;
    ProcessMessagesKeeps(t, Work(g, s, {}), e.block.node, opening, opening);
    var r := ProcessMessages(t.w.cfg, Work(g, s, {}), e.block.node, e.block, opening);
    if r.Ok? {
      DepsPassKeeps(t, r.value.0, e.deps, opening + r.value.1);
      var q := DepsPass(t.w.cfg, r.value.0, e.block, e.deps, opening + r.value.1);
      if q.Ok? {
        before := q.value.0.g;
        OutIsAside(t, q.value.0.s, q.value.1, q.value.1);
      }
    }
  }

  lemma OutIsAside(t: Task, s: State, out: seq<Message>, stored: seq<Message>)
    requires t.Placed() && StateOk(t, s, out)
    ensures StateOk(t, s.(out := stored), out)
  {
    hide CommitsSent, OutBacked, OnceOnly, FinalBacked, MessagesIn, Calm, VotesIn, SlotsIn, BallotsIn, FlagsIn,
      TimeoutsIn;
    var u := s.(out := stored);
    GrowsSelf(s);
    assert Grows(s, u, 0);
    hide Grows;
    WriteSound(t.Ctx(), out, s, u);
    if Tame(t.Ctx()) {
      WriteCalm(t.Ctx(), out, s, u);
    }
  }
}
