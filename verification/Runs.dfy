/**
  Whole runs: from New, through every block graph that is added and every block interpreted for it.
 */
module Runs {
  import opened Bytes
  import opened Ids
  import opened Outcomes
  import opened Protocol
  import opened Interpreter
  import opened Evidence
  import opened Zones
  import opened Delivery
  import opened Passes
  import Bitsets

  // --- what the interpreter is given ---

  function Nodes(cfg: Config): set<nat> {
    set x | x in cfg.peers
  }

  /** Every block has a hash and a known node. */
  ghost predicate EntryOk(cfg: Config, e: Entry) {
    e.block.Valid() && e.block.node in Nodes(cfg)
  }

  ghost predicate InputOk(cfg: Config, bg: BlockGraph) {
    && 1 <= bg.block.round < U64_SIZE
    && forall i | 0 <= i <= |bg.deps| :: EntryOk(cfg, Entries(bg)[i])
  }

  /** The blocks of the inputs in the order in which they are interpreted. */
  function AllEntries(inputs: seq<BlockGraph>): seq<Entry> {
    if inputs == [] then [] else AllEntries(inputs[..|inputs| - 1]) + Entries(inputs[|inputs| - 1])
  }

  /**
    What is checked of every block before it gets to the interpreter: blocks with a hash, of distinct
    nodes that a bitset has room for. Blocks may come back, fork, and name blocks that are unknown.
   */
  ghost predicate WellFormed(cfg: Config, inputs: seq<BlockGraph>) {
    && |Nodes(cfg)| == |cfg.peers|
    && (forall x | x in cfg.peers :: Bitsets.InRange(|cfg.peers|, x))
    && (forall i | 0 <= i < |inputs| :: InputOk(cfg, inputs[i]))
  }

  /** Own blocks are of consecutive rounds. */
  ghost predicate OwnRounds(inputs: seq<BlockGraph>) {
    forall i | 0 < i < |inputs| :: inputs[i].block.round == inputs[i - 1].block.round + 1
  }

  function DepBlocks(bg: BlockGraph): set<BlockID> {
    set d | d in bg.deps :: d.block
  }

  /** Each own block names the one before it, and none is a dependency of another. */
  ghost predicate OwnApart(inputs: seq<BlockGraph>) {
    && (forall i | 0 < i < |inputs| :: inputs[i].prev == inputs[i - 1].block)
    && (forall i, j | 0 <= i < |inputs| && 0 <= j < |inputs| :: inputs[i].block !in DepBlocks(inputs[j]))
  }

  function LinksOf(e: Entry): seq<BlockID> {
    e.deps + [e.prev]
  }

  ghost predicate Occurs(entries: seq<Entry>, n: nat, b: BlockID) {
    exists p :: 0 <= p < n && p < |entries| && entries[p].block == b
  }

  /** A block that comes back finds no link interpreted that was not so, or was it itself, the first time. */
  ghost predicate Steady(entries: seq<Entry>) {
    forall m, n, d | 0 <= m < n < |entries| && entries[m].block == entries[n].block && d in LinksOf(entries[n])
      && Occurs(entries, n, d) ::
      Occurs(entries, m + 1, d)
  }

  ghost predicate TermsFit(terms: Terms, inputs: seq<BlockGraph>) {
    && (terms.steady ==> Steady(AllEntries(inputs)))
    && (terms.rounds ==> OwnRounds(inputs))
    && (terms.apart ==> terms.rounds && OwnApart(inputs))
  }

  // --- the invariant of a run ---

  /** The timeouts for slots of rounds from `low` on. */
  function LiveTimeouts(ts: seq<Timeout>, low: nat): seq<Timeout> {
    if ts == [] then [] else (if ts[0].round >= low then [ts[0]] else []) + LiveTimeouts(ts[1..], low)
  }

  lemma {:induction false} LiveConcat(a: seq<Timeout>, b: seq<Timeout>, low: nat)
    ensures LiveTimeouts(a + b, low) == LiveTimeouts(a, low) + LiveTimeouts(b, low)
  {
    if a == [] {
      assert a + b == b;
    } else {
      var first := if a[0].round >= low then [a[0]] else [];
      assert LiveTimeouts(a, low) == first + LiveTimeouts(a[1..], low);
      assert LiveTimeouts(a + b, low) == first + LiveTimeouts(a[1..] + b, low) by {
        assert (a + b)[0] == a[0] && (a + b)[1..] == a[1..] + b;
      }
      hide LiveTimeouts;
      LiveConcat(a[1..], b, low);
      Regrouped(first, LiveTimeouts(a[1..], low), LiveTimeouts(b, low));
    }
  }

  lemma Regrouped(a: seq<Timeout>, b: seq<Timeout>, c: seq<Timeout>)
    ensures a + (b + c) == (a + b) + c
  {
  }

  lemma {:induction false} LiveTwice(ts: seq<Timeout>, low: nat, low': nat)
    requires low <= low'
    ensures LiveTimeouts(LiveTimeouts(ts, low), low') == LiveTimeouts(ts, low')
  {
    if ts != [] {
      LiveTwice(ts[1..], low, low');
      var rest := LiveTimeouts(ts[1..], low);
      if ts[0].round >= low {
        assert LiveTimeouts(ts, low) == [ts[0]] + rest;
        assert ([ts[0]] + rest)[1..] == rest;
      } else {
        assert LiveTimeouts(ts, low) == rest;
      }
    }
  }

  lemma {:induction false} LiveIs(ts: seq<Timeout>, low: nat, t: Timeout)
    ensures t in LiveTimeouts(ts, low) <==> t in ts && t.round >= low
  {
    if ts != [] {
      LiveIs(ts[1..], low, t);
      assert ts == [ts[0]] + ts[1..];
    }
  }

  /**
    From `low` on the next block starts with exactly the timeouts for slots of such rounds, and it starts with the
    delays, unless its state is a fresh one.
   */
  ghost predicate Handed(s: State, t: State, low: nat) {
    && (forall r: nat | r >= low :: LiveTimeouts(TimeoutsAt(t, r), low) == LiveTimeouts(TimeoutsAt(s, r), low))
    && (t == FRESH || (t.delay == s.delay && t.timeout == s.timeout))
  }

  /**
    A block that names an interpreted block as its previous one starts with all of it, from `low` on, if
    the previous block has not been interpreted twice.
   */
  ghost predicate Linked(hist: seq<Record>, low: nat) {
    forall i, j | 0 <= i < j < |hist| && hist[j].prev == hist[i].block && Single(hist[..j], i) ::
      && Grows(hist[i].end, hist[j].start, low) && ViewsGrow(hist[i].end.view, hist[j].start.view, low)
      && Handed(hist[i].end, hist[j].start, low)
  }

  ghost predicate First(hist: seq<Record>, j: nat)
    requires j < |hist|
  {
    forall i | 0 <= i < j :: hist[i].block != hist[j].block
  }

  /** A block that comes back keeps its bound, and new blocks have the largest. */
  ghost predicate TopsSteady(hist: seq<Record>, tops: seq<nat>) {
    && |tops| == |hist|
    && (forall i, j | 0 <= i < j < |hist| && hist[i].block == hist[j].block :: tops[j] == tops[i])
    && (forall i, j | 0 <= i < j < |hist| && First(hist, j) :: tops[i] <= tops[j])
  }

  ghost predicate RunOk(w: World, g: Graph) {
    && Ledger(w, g, map[])
    && Settled(w, g)
    && History(w.cfg.Quorum(), w.hist)
    && PeersIn(w)
    && Linked(w.hist, g.round)
    && (w.terms.steady ==> TopsSteady(w.hist, w.tops))
  }

  // --- one block ---

  /** The world with one more record. */
  function Push(w: World, r: Record, top: nat): World {
    w.(hist := w.hist + [r], tops := w.tops + [top])
  }

  /** A round that the states of a block stay within: if it comes back steadily, the one it had. */
  ghost predicate TopFor(w: World, b: BlockID, top: nat) {
    && top <= w.top
    && (b !in Recorded(w.hist) ==> top == w.top)
    && (w.terms.steady ==> forall m | 0 <= m < |w.hist| && m < |w.tops| && w.hist[m].block == b :: w.tops[m] == top)
  }

  lemma LedgerPush(w: World, g: Graph, r: Record, top: nat)
    requires Ledger(w, g, r.end.final) && RecordPlaced(w, r, top) && TopFor(w, r.block, top)
    ensures Ledger(Push(w, r, top), g.(statess := g.statess[r.block := r.end]), map[])
  {
    hide Stored, LogTold, RecordPlaced, HistPlaced, ResolvedOk, BlocksBounded, AllInterpreted, Current, LogRounds,
      RoundsOk, MaxOk, TopFor, IdsOf, Largest;
    HistLengths(w);
    PlacedPush(w, r, top);
    StoredPush(w, g, r, top);
    LogToldPush(w, g, r, top);
    ResolvedPush(w, g, r, top);
    BlocksPush(w, g, r, top);
    InterpretedPush(w.hist, r, g.blocks);
    FramePush(w, g, r, top);
  }

  lemma PlacedPush(w: World, r: Record, top: nat)
    requires HistPlaced(w) && RecordPlaced(w, r, top)
    ensures HistPlaced(Push(w, r, top))
  {
    hide StateIn;
    var w' := Push(w, r, top);
    forall i | 0 <= i < |w'.hist| ensures RecordPlaced(w', w'.hist[i], w'.tops[i]) {
      if i < |w.hist| {
        assert RecordPlaced(w, w.hist[i], w.tops[i]);
      }
    }
  }

  lemma SingleBefore(hist: seq<Record>, r: Record, i: nat)
    requires i < |hist|
    ensures Single(hist + [r], i) ==> Single(hist, i)
    ensures Latest(hist + [r], i) <==> Latest(hist, i) && hist[i].block != r.block
  {
    var hist' := hist + [r];
    assert hist'[|hist|] == r;
    assert forall j | 0 <= j < |hist| :: hist'[j] == hist[j];
  }

  lemma BlocksPush(w: World, g: Graph, r: Record, top: nat)
    requires |w.tops| == |w.hist| && BlocksBounded(w, g.blocks, Done(g)) && AllInterpreted(w.hist, g.blocks)
    requires Current(w, g)
    requires TopFor(w, r.block, top)
    ensures BlocksBounded(Push(w, r, top), g.blocks, Done(g))
  {
    hide IdsOf, Single;
    var w' := Push(w, r, top);
    forall n, i | 0 <= n < |g.blocks| && 0 <= i < |w'.hist| ensures WithinBlock(w', g.blocks, Done(g), n, i) {
      if i < |w.hist| {
        assert WithinBlock(w, g.blocks, Done(g), n, i);
        SingleBefore(w.hist, r, i);
      } else if Firm(w', i) && r.block in IdsOf(g.blocks[n]) {
        if r.block in Recorded(w.hist) {
          var m := Found(w.hist, r.block);
          NotSingle(w.hist, r, m);
          assert WithinBlock(w, g.blocks, Done(g), n, m);
        } else {
          assert g.blocks[..n + 1] == g.blocks;
        }
      }
    }
  }

  lemma Found(hist: seq<Record>, b: BlockID) returns (m: nat)
    requires b in Recorded(hist)
    ensures m < |hist| && hist[m].block == b
  {
    var r :| r in hist && r.block == b;
    m :| 0 <= m < |hist| && hist[m] == r;
  }

  lemma NotSingle(hist: seq<Record>, r: Record, m: nat)
    requires m < |hist| && hist[m].block == r.block
    ensures !Single(hist + [r], |hist|)
  {
    assert (hist + [r])[m] == hist[m] && (hist + [r])[|hist|] == r;
  }

  lemma InterpretedPush(hist: seq<Record>, r: Record, blocks: seq<BlockInfo>)
    requires AllInterpreted(hist, blocks)
    ensures AllInterpreted(hist + [r], blocks)
  {
    hide IdsOf;
    RecordedPush(hist, r);
  }

  lemma RecordedPush(hist: seq<Record>, r: Record)
    ensures Recorded(hist + [r]) == Recorded(hist) + {r.block}
  {
    assert r in hist + [r];
  }

  /** The parts of the ledger that speak of neither records nor states. */
  lemma FramePush(w: World, g: Graph, r: Record, top: nat)
    requires Current(w, g) && LogRounds(w, g) && (w.terms.rounds ==> RoundsOk(w, g)) && (w.terms.apart ==> MaxOk(w, g))
    ensures
      var w' := Push(w, r, top);
      var g' := g.(statess := g.statess[r.block := r.end]);
      Current(w', g') && LogRounds(w', g') && (w.terms.rounds ==> RoundsOk(w', g')) && (w.terms.apart ==> MaxOk(w', g'))
  {
    hide IdsOf, Largest;
  }

  lemma ResolvedPush(w: World, g: Graph, r: Record, top: nat)
    requires ResolvedOk(w, g, r.end.final)
    ensures ResolvedOk(Push(w, r, top), g.(statess := g.statess[r.block := r.end]), map[])
  {
    hide AllDecided;
    forall n | n in g.resolved ensures AllDecided(w.hist + [r], map[], n, g.resolved[n]) {
      DecidedPush(w.hist, r, n, g.resolved[n]);
    }
  }

  lemma DecidedPush(hist: seq<Record>, r: Record, round: nat, hashes: map<nat, Hash>)
    requires AllDecided(hist, r.end.final, round, hashes)
    ensures AllDecided(hist + [r], map[], round, hashes)
  {
    var hist' := hist + [r];
    forall n | n in hashes ensures Decided(hist', map[], Slot(n, round), hashes[n]) {
      assert Decided(hist, r.end.final, Slot(n, round), hashes[n]);
      assert hist'[|hist|] == r;
      if i :| 0 <= i < |hist| && Slot(n, round) in hist[i].end.final && hist[i].end.final[Slot(n, round)] == hashes[n] {
        assert hist'[i] == hist[i];
      }
    }
  }

  lemma LogToldPush(w: World, g: Graph, r: Record, top: nat)
    requires LogTold(w, g, r.end.final)
    ensures LogTold(Push(w, r, top), g.(statess := g.statess[r.block := r.end]), map[])
  {
    hide AllDecided, Listing.ListingOf;
    var w' := Push(w, r, top);
    forall i | 0 <= i < |g.log| ensures ToldOk(w', map[], g.log[i]) {
      assert ToldOk(w, r.end.final, g.log[i]);
      var hashes: map<nat, Hash> :|
        && hashes.Keys == w.nodes
        && AllDecided(w.hist, r.end.final, g.log[i].round, hashes)
        && g.log[i].blocks == Listing.ListingOf(Listing.Chosen(g.log[i].round, hashes));
      DecidedPush(w.hist, r, g.log[i].round, hashes);
    }
  }

  lemma StoredPush(w: World, g: Graph, r: Record, top: nat)
    requires |w.tops| == |w.hist| && Stored(w, g)
    ensures Stored(Push(w, r, top), g.(statess := g.statess[r.block := r.end]))
  {
    hide Single, Latest;
    var w' := Push(w, r, top);
    var g' := g.(statess := g.statess[r.block := r.end]);
    LastIsLatest(w.hist, r);
    assert StoredAs(w'.hist, |w.hist|, r.block, r.end);
    forall b | b in g'.statess && b != r.block ensures exists i: nat :: StoredAs(w'.hist, i, b, g'.statess[b]) {
      var i: nat :| StoredAs(w.hist, i, b, g.statess[b]);
      SingleBefore(w.hist, r, i);
      assert StoredAs(w'.hist, i, b, g'.statess[b]);
    }
    forall i | 0 <= i < |w'.hist| ensures RecordKept(w', g', i) {
      if i < |w.hist| {
        assert RecordKept(w, g, i);
        SingleBefore(w.hist, r, i);
      }
    }
  }

  lemma LastIsLatest(hist: seq<Record>, r: Record)
    ensures Latest(hist + [r], |hist|)
  {
  }

  lemma HistoryPush(quorum: nat, hist: seq<Record>, r: Record)
    requires History(quorum, hist)
    requires
      var c := Context(quorum, hist, r.block, r.start);
      Sound(c, r.end.out, r.end) && (Tame(c) ==> Calm(c, r.end.out, r.end))
    ensures History(quorum, hist + [r])
  {
    hide Sound, Calm;
    var hist' := hist + [r];
    forall i | 0 <= i < |hist'| ensures RecordOk(quorum, hist', i) {
      if i < |hist| {
        assert RecordOk(quorum, hist, i);
        assert hist'[..i] == hist[..i];
      } else {
        assert hist'[..i] == hist;
      }
    }
  }

  /** A state whose rounds are all past has nothing to hand on. */
  lemma NothingLive(z: Zone, s: State, t: State, low: nat)
    requires DataIn(z, s) && z.top < low
    ensures Grows(s, t, low) && ViewsGrow(s.view, t.view, low)
  {
  }

  lemma NothingHanded(z: Zone, s: State, low: nat)
    requires TimeoutsIn(z, s.timeouts) && z.top < low
    ensures Handed(s, FRESH, low)
  {
    forall r: nat | r >= low ensures LiveTimeouts(TimeoutsAt(FRESH, r), low) == LiveTimeouts(TimeoutsAt(s, r), low) {
      NoneLive(TimeoutsAt(s, r), low);
    }
  }

  lemma {:induction false} NoneLive(ts: seq<Timeout>, low: nat)
    requires forall t | t in ts :: t.round < low
    ensures LiveTimeouts(ts, low) == []
  {
    if ts != [] {
      assert ts[0] in ts;
      NoneLive(ts[1..], low);
    }
  }

  lemma CloneHanded(s: State, low: nat)
    ensures Handed(s, Clone(s, low), low)
  {
    hide LiveTimeouts, LiveMessages;
  }

  lemma HandedLater(s: State, t: State, low: nat, low': nat)
    requires Handed(s, t, low) && low <= low'
    ensures Handed(s, t, low')
  {
    hide LiveTimeouts, TimeoutsAt;
    forall r: nat | r >= low' ensures LiveTimeouts(TimeoutsAt(t, r), low') == LiveTimeouts(TimeoutsAt(s, r), low') {
      LiveTwice(TimeoutsAt(t, r), low, low');
      LiveTwice(TimeoutsAt(s, r), low, low');
    }
  }

  lemma LinkedPush(w: World, g: Graph, e: Entry, r: Record, low: nat)
    requires RunOk(w, g) && r.prev == e.prev && r.start == FindOrCreate(g, e) && g.round <= low
    ensures Linked(w.hist + [r], low)
  {
    hide History, Settled, Grows, ViewsGrow, Handed, TopsSteady, FindOrCreate, Ledger, Single;
    var hist' := w.hist + [r];
    forall i, j | 0 <= i < j < |hist'| && hist'[j].prev == hist'[i].block && Single(hist'[..j], i)
      ensures Grows(hist'[i].end, hist'[j].start, low) && ViewsGrow(hist'[i].end.view, hist'[j].start.view, low)
      ensures Handed(hist'[i].end, hist'[j].start, low)
    {
      assert hist'[..j] == w.hist[..j];
      if j < |w.hist| {
        assert hist'[j] == w.hist[j] && hist'[i] == w.hist[i];
      } else {
        assert hist'[..j] == w.hist;
        StartGrows(w, g, e, i);
      }
      GrowsLater(w.hist[i].end, hist'[j].start, g.round, low);
      HandedLater(w.hist[i].end, hist'[j].start, g.round, low);
    }
  }

  /** The state of the previous block is at hand, or has nothing live to hand on. */
  lemma StartGrows(w: World, g: Graph, e: Entry, i: nat)
    requires Ledger(w, g, map[]) && i < |w.hist| && e.prev == w.hist[i].block && Single(w.hist, i)
    ensures
      var start := FindOrCreate(g, e);
      && Grows(w.hist[i].end, start, g.round) && ViewsGrow(w.hist[i].end.view, start.view, g.round)
      && Handed(w.hist[i].end, start, g.round)
  {
    hide Grows, ViewsGrow, Handed, Clone, DataIn, BlocksBounded, AllInterpreted, LogTold, LogRounds, ResolvedOk,
      Current,
      RoundsOk, MaxOk;
    var s := w.hist[i].end;
    assert RecordKept(w, g, i) && RecordPlaced(w, w.hist[i], w.tops[i]);
    if e.prev in g.statess {
      var k: nat :| StoredAs(w.hist, k, e.prev, g.statess[e.prev]);
      assert k == i;
      CloneGrows(s, g.round);
      CloneHanded(s, g.round);
    } else {
      NothingLive(Zone(w.nodes, w.tops[i]), s, FRESH, g.round);
      InIsDue(Zone(w.nodes, w.tops[i]), s);
      NothingHanded(Zone(w.nodes, w.tops[i]), s, g.round);
    }
  }

  lemma InIsDue(z: Zone, s: State)
    requires DataIn(z, s)
    ensures TimeoutsIn(z, s.timeouts)
  {
  }

  lemma GrowsLater(s: State, t: State, low: nat, low': nat)
    requires Grows(s, t, low) && ViewsGrow(s.view, t.view, low) && low <= low'
    ensures Grows(s, t, low') && ViewsGrow(s.view, t.view, low')
  {
  }

  lemma TopsPush(w: World, r: Record, top: nat)
    requires TopsSteady(w.hist, w.tops) && w.terms.steady && TopFor(w, r.block, top)
    requires forall i | 0 <= i < |w.tops| :: w.tops[i] <= w.top
    ensures TopsSteady(w.hist + [r], w.tops + [top])
  {
    var hist', tops' := w.hist + [r], w.tops + [top];
    forall j | 0 <= j < |w.hist| && First(hist', j) ensures First(w.hist, j) {
      assert forall i | 0 <= i <= j :: hist'[i] == w.hist[i];
    }
    if First(hist', |w.hist|) {
      assert forall i | 0 <= i < |w.hist| :: hist'[i] == w.hist[i];
      assert r.block !in Recorded(w.hist);
    }
  }

  /** One call of process in a run. */
  lemma ProcessEntry(w: World, g: Graph, e: Entry, top: nat) returns (w': World)
    requires RunOk(w, g) && TopFor(w, e.block, top)
    requires
      var t := Task(w, e.block, FindOrCreate(g, e), top);
      t.Placed() && LinksOk(t, LinksOf(e))
    ensures
      var r := Process(w.cfg, g, e);
      && r != Panic
      && (r.Ok? ==>
            && w' == Push(w, Record(e.block, e.prev, FindOrCreate(g, e), r.value.statess[e.block]),
              top).(floor := g.round)
            && RunOk(w', r.value)
            && g.round <= r.value.round)
  {
    hide FindOrCreate, Process, Ledger, Settled, History, Linked, LinkOk, Sound, Calm, DataIn, MessagesIn, TopFor,
      TopsSteady;
    var v := w.(floor := g.round);
    FloorRaised(w, g);
    var t := Task(v, e.block, FindOrCreate(g, e), top);
    LinksFloor(w, v, e, t.start, top);
    var before := ProcessKeeps(t, g, e);
    var r := Process(w.cfg, g, e);
    w' := w;
    if r.Ok? {
      var rec := Record(e.block, e.prev, t.start, r.value.statess[e.block]);
      w' := Push(v, rec, top);
      TopFloor(w, v, e.block, top);
      LedgerPush(v, before, rec, top);
      RoundReached(v, before, rec.end.final);
      HistoryPush(w.cfg.Quorum(), w.hist, rec);
      LinkedPush(w, g, e, rec, before.round);
      SettledStore(v, before, rec, top);
      if w.terms.steady {
        TopsBounded(w, g);
        TopsPush(w, rec, top);
      }
    }
  }

  lemma TopsBounded(w: World, g: Graph)
    requires Ledger(w, g, map[])
    ensures |w.tops| == |w.hist| && forall i | 0 <= i < |w.tops| :: w.tops[i] <= w.top
  {
    hide Stored, LogTold, ResolvedOk, BlocksBounded, AllInterpreted, Current, LogRounds, RoundsOk, MaxOk, StateIn;
    forall i | 0 <= i < |w.tops| ensures w.tops[i] <= w.top {
      assert RecordPlaced(w, w.hist[i], w.tops[i]);
    }
  }

  lemma SettledStore(w: World, g: Graph, r: Record, top: nat)
    requires Settled(w, g)
    ensures Settled(Push(w, r, top), g.(statess := g.statess[r.block := r.end]))
  {
  }

  lemma RoundReached(w: World, g: Graph, final: map<Slot, Hash>)
    requires Ledger(w, g, final)
    ensures w.floor <= g.round
  {
    hide Stored, LogTold, HistPlaced, ResolvedOk, BlocksBounded, AllInterpreted, Current, RoundsOk, MaxOk;
  }

  lemma TopFloor(w: World, v: World, b: BlockID, top: nat)
    requires v == w.(floor := v.floor) && TopFor(w, b, top)
    ensures TopFor(v, b, top)
  {
  }

  lemma LinksFloor(w: World, v: World, e: Entry, start: State, top: nat)
    requires v == w.(floor := v.floor) && LinksOk(Task(w, e.block, start, top), LinksOf(e))
    ensures LinksOk(Task(v, e.block, start, top), e.deps) && LinkOk(Task(v, e.block, start, top), e.prev)
  {
    var t, u := Task(w, e.block, start, top), Task(v, e.block, start, top);
    forall d | d in LinksOf(e) ensures LinkOk(u, d) {
      assert LinkOk(t, d);
    }
    assert e.prev in LinksOf(e);
    forall d | d in e.deps ensures LinkOk(u, d) {
      assert d in LinksOf(e);
    }
  }

  lemma FloorRaised(w: World, g: Graph)
    requires Ledger(w, g, map[]) && Settled(w, g)
    ensures Ledger(w.(floor := g.round), g, map[]) && Settled(w.(floor := g.round), g)
  {
    hide AllInterpreted, AllDecided, Listing.ListingOf, Largest, IdsOf, StateIn, Single, Latest;
    var v := w.(floor := g.round);
    WorldSame(w, v, g);
    hide HistPlaced, BlocksBounded, Stored;
    forall i | 0 <= i < |g.log| ensures ToldOk(v, map[], g.log[i]) {
      assert ToldOk(w, map[], g.log[i]);
    }
  }

  /** Records and their bounds are the same in a world that has the same, and a top not below. */
  lemma WorldSame(w: World, v: World, g: Graph)
    requires HistPlaced(w) && BlocksBounded(w, g.blocks, Done(g)) && Stored(w, g)
    requires v.hist == w.hist && v.tops == w.tops && v.terms == w.terms && v.nodes == w.nodes && w.top <= v.top
    ensures HistPlaced(v) && BlocksBounded(v, g.blocks, Done(g)) && Stored(v, g)
  {
    hide StateIn, Largest, IdsOf, Single, Latest, StoredAs;
    forall i | 0 <= i < |w.hist| ensures RecordPlaced(v, w.hist[i], w.tops[i]) && RecordKept(v, g, i) {
      assert RecordPlaced(w, w.hist[i], w.tops[i]) && RecordKept(w, g, i);
    }
    forall n, i | 0 <= n < |g.blocks| && 0 <= i < |v.hist| ensures WithinBlock(v, g.blocks, Done(g), n, i) {
      assert WithinBlock(w, g.blocks, Done(g), n, i);
    }
  }

  // --- one block graph ---

  lemma {:induction false} MaxOverAtLeast(max: map<BlockID, nat>, round: nat, links: seq<BlockID>, m: nat)
    ensures MaxOver(max, round, links, m) >= m
    ensures forall l | l in links :: MaxOver(max, round, links, m) >= if l in max then max[l] else round
    decreases |links|
  {
    if links != [] {
      var m' := Larger(m, if links[0] in max then max[links[0]] else round);
      MaxOverAtLeast(max, round, links[1..], m');
    }
  }

  /** The max of a block graph covers the rounds of all its blocks. */
  lemma {:induction false} RecordMaxCovers(max: map<BlockID, nat>, round: nat, deps: seq<Dep>, top: nat)
    ensures RecordMax(max, round, deps, top).1 >= top
    ensures forall d | d in deps :: RecordMax(max, round, deps, top).1 >= d.block.round
    decreases |deps|
  {
    hide MaxOver, Links;
    if deps != [] {
      var m := MaxOver(max, round, Links(deps[0]), deps[0].block.round);
      MaxOverAtLeast(max, round, Links(deps[0]), deps[0].block.round);
      RecordMaxCovers(max[deps[0].block := m], round, deps[1..], Larger(top, m));
    }
  }

  /** Blocks that are not among the dependencies keep their max. */
  lemma {:induction false} RecordMaxAside(max: map<BlockID, nat>, round: nat, deps: seq<Dep>, top: nat, b: BlockID)
    requires forall d | d in deps :: d.block != b
    ensures
      var max' := RecordMax(max, round, deps, top).0;
      (b in max' <==> b in max) && (b in max ==> max'[b] == max[b])
    decreases |deps|
  {
    hide MaxOver, Links;
    if deps != [] {
      var m := MaxOver(max, round, Links(deps[0]), deps[0].block.round);
      assert deps[0] in deps;
      RecordMaxAside(max[deps[0].block := m], round, deps[1..], Larger(top, m), b);
    }
  }

  ghost predicate DistinctDeps(deps: seq<Dep>) {
    forall i, j | 0 <= i < j < |deps| :: deps[i].block != deps[j].block
  }

  lemma MaxAdmitted(g: Graph, bg: BlockGraph) returns (m: nat)
    ensures
      var g' := Admit(g, bg);
      && g' == g.(max := g'.max, blocks := g.blocks + [BlockInfo(bg, m)])
      && bg.block in g'.max && g'.max[bg.block] == m
      && bg.block.round <= m && (forall d | d in bg.deps :: d.block.round <= m)
      && m >= RecordMax(g.max, g.round, bg.deps, bg.block.round).1
      && (bg.block.round != 1 ==>
            var max := RecordMax(g.max, g.round, bg.deps, bg.block.round).0;
            (if bg.prev in max then max[bg.prev] else g.round) <= m)
  {
    hide MaxOver, RecordMax;
    var (max, top) := RecordMax(g.max, g.round, bg.deps, bg.block.round);
    RecordMaxCovers(g.max, g.round, bg.deps, bg.block.round);
    MaxOverAtLeast(max, g.round, [bg.prev], top);
    assert bg.prev in [bg.prev];
    m := if bg.block.round != 1 then MaxOver(max, g.round, [bg.prev], top) else top;
  }

  /** The own block comes next. */
  ghost predicate Follows(w: World, bg: BlockGraph) {
    && 1 <= bg.block.round < U64_SIZE
    && (w.terms.rounds ==> bg.block.round == w.cur.data.block.round + 1)
    && (w.terms.apart ==>
          && (w.cur.max == 0 || (bg.prev == w.cur.data.block && bg.block.round != 1))
          && w.cur.data.block !in DepBlocks(bg)
          && bg.block !in Recorded(w.hist))
  }

  /** Between block graphs everything that is kept has been interpreted. */
  ghost predicate CurInterpreted(w: World, g: Graph) {
    g.blocks != [] ==> IdsOf(w.cur) <= Recorded(w.hist)
  }

  /** The highest of a round and those of some dependencies. */
  function HighRound(deps: seq<Dep>, m: nat): (r: nat)
    ensures m <= r && (forall d | d in deps :: d.block.round <= r)
    ensures r == m || exists d :: d in deps && d.block.round == r
    decreases |deps|
  {
    if deps == [] then m else HighRound(deps[1..], Larger(m, deps[0].block.round))
  }

  function Admitted(w: World, bg: BlockGraph, m: nat): World {
    w.(top := Larger(w.top, HighRound(bg.deps, bg.block.round)), cur := BlockInfo(bg, m))
  }

  lemma AdmitKeepsBlocks(w: World, g: Graph, bg: BlockGraph, m: nat)
    requires |w.tops| == |w.hist| && BlocksBounded(w, g.blocks, Done(g)) && AllInterpreted(w.hist, g.blocks)
    requires Current(w, g)
    requires CurInterpreted(w, g) && Admit(g, bg).blocks == g.blocks + [BlockInfo(bg, m)]
    requires HistPlaced(w) && HighRound(bg.deps, bg.block.round) <= m
    ensures
      var w', g' := Admitted(w, bg, m), Admit(g, bg);
      BlocksBounded(w', g'.blocks, Done(g')) && AllInterpreted(w'.hist, g'.blocks) && Current(w', g')
  {
    hide IdsOf, Single, Recorded, StateIn, RecordMax, MaxOver;
    var w', g' := Admitted(w, bg, m), Admit(g, bg);
    var info := BlockInfo(bg, m);
    LargestPush(g.blocks, info, Done(g));
    forall n, i | 0 <= n < |g'.blocks| && 0 <= i < |w.hist| ensures WithinBlock(w', g'.blocks, Done(g), n, i) {
      if n < |g.blocks| {
        assert WithinBlock(w, g.blocks, Done(g), n, i);
        assert g'.blocks[..n + 1] == g.blocks[..n + 1];
      } else {
        assert g'.blocks[..n + 1] == g'.blocks;
        assert RecordPlaced(w, w.hist[i], w.tops[i]);
      }
    }
    hide Largest, BlocksBounded;
    assert forall n | 0 <= n < |g.blocks| :: g'.blocks[n] == g.blocks[n];
  }

  lemma AdmitKeepsRounds(w: World, g: Graph, bg: BlockGraph, m: nat)
    requires RoundsOk(w, g) && Current(w, g) && Follows(w, bg) && w.terms.rounds
    requires Admit(g, bg).blocks == g.blocks + [BlockInfo(bg, m)]
    ensures RoundsOk(Admitted(w, bg, m), Admit(g, bg))
  {
    hide RecordMax, MaxOver, Largest;
  }

  lemma AdmitKeepsMax(w: World, g: Graph, bg: BlockGraph, m: nat)
    requires MaxOk(w, g) && Current(w, g) && Follows(w, bg) && w.terms.apart
    requires CurInterpreted(w, g) && AllInterpreted(w.hist, g.blocks)
    requires
      var g' := Admit(g, bg);
      && g'.blocks == g.blocks + [BlockInfo(bg, m)] && bg.block in g'.max && g'.max[bg.block] == m
      && (bg.block.round != 1 ==>
            var max := RecordMax(g.max, g.round, bg.deps, bg.block.round).0;
            (if bg.prev in max then max[bg.prev] else g.round) <= m)
    ensures MaxOk(Admitted(w, bg, m), Admit(g, bg))
  {
    hide RecordMax, MaxOver, Largest, IdsOf, Recorded;
    var g' := Admit(g, bg);
    forall d | d in bg.deps ensures d.block != w.cur.data.block {
      assert d.block in DepBlocks(bg);
    }
    RecordMaxAside(g.max, g.round, bg.deps, bg.block.round, w.cur.data.block);
    CurAtMost(w, g, bg, m);
    forall n | 0 <= n < |g'.blocks| - 1 ensures bg.block !in IdsOf(g'.blocks[n]) {
      assert g'.blocks[n] == g.blocks[n];
      assert bg.block in IdsOf(g.blocks[n]) ==> bg.block in Recorded(w.hist);
    }
  }

  /** The max of own blocks never falls. */
  lemma CurAtMost(w: World, g: Graph, bg: BlockGraph, m: nat)
    requires MaxOk(w, g) && Follows(w, bg) && w.terms.apart
    requires
      var max := RecordMax(g.max, g.round, bg.deps, bg.block.round).0;
      && (w.cur.data.block in max <==> w.cur.data.block in g.max)
      && (w.cur.data.block in g.max ==> max[w.cur.data.block] == g.max[w.cur.data.block])
      && (bg.block.round != 1 ==> (if bg.prev in max then max[bg.prev] else g.round) <= m)
    ensures w.cur.max <= m
  {
    hide RecordMax, IdsOf, Recorded;
  }

  lemma AdmitKeepsRest(w: World, g: Graph, bg: BlockGraph, m: nat)
    requires ResolvedOk(w, g, map[]) && LogRounds(w, g) && LogTold(w, g, map[])
    ensures
      var w', g' := Admitted(w, bg, m), Admit(g, bg);
      ResolvedOk(w', g', map[]) && LogRounds(w', g') && LogTold(w', g', map[])
  {
    hide RecordMax, MaxOver, AllDecided, Listing.ListingOf;
    var w', g' := Admitted(w, bg, m), Admit(g, bg);
    forall i | 0 <= i < |g.log| ensures ToldOk(w', map[], g.log[i]) {
      assert ToldOk(w, map[], g.log[i]);
    }
  }

  /** Admitting the next block graph keeps the invariant of the run. */
  lemma AdmitKeeps(w: World, g: Graph, bg: BlockGraph) returns (w': World)
    requires RunOk(w, g) && Follows(w, bg) && CurInterpreted(w, g)
    ensures
      var g' := Admit(g, bg);
      w' == Admitted(w, bg, w'.cur.max) && RunOk(w', g') && g'.round == g.round
  {
    hide HighRound, Follows, CurInterpreted, History, Linked, Admit, Settled, TopsSteady, Ledger;
    var m := MaxAdmitted(g, bg);
    w' := Admitted(w, bg, m);
    AdmitSettled(w, g, bg, m);
    AdmitLedger(w, g, bg, m);
  }

  lemma AdmitLedger(w: World, g: Graph, bg: BlockGraph, m: nat)
    requires Ledger(w, g, map[]) && Follows(w, bg) && CurInterpreted(w, g) && HighRound(bg.deps, bg.block.round) <= m
    requires
      var g' := Admit(g, bg);
      && g' == g.(max := g'.max, blocks := g.blocks + [BlockInfo(bg, m)]) && bg.block in g'.max && g'.max[bg.block] == m
      && (bg.block.round != 1 ==>
            var max := RecordMax(g.max, g.round, bg.deps, bg.block.round).0;
            (if bg.prev in max then max[bg.prev] else g.round) <= m)
    ensures Ledger(Admitted(w, bg, m), Admit(g, bg), map[])
  {
    hide Follows, CurInterpreted, Admit, HistPlaced, BlocksBounded, AllInterpreted, Current, ResolvedOk, Stored,
      LogRounds, LogTold, RoundsOk, MaxOk, RecordMax;
    var w' := Admitted(w, bg, m);
    HistLengths(w);
    AdmitKeepsBlocks(w, g, bg, m);
    AdmitKeepsRest(w, g, bg, m);
    WorldSame(w, w', g);
    StoredSame(w', g, Admit(g, bg));
    if w.terms.rounds {
      AdmitKeepsRounds(w, g, bg, m);
    }
    if w.terms.apart {
      AdmitKeepsMax(w, g, bg, m);
    }
  }

  lemma AdmitSettled(w: World, g: Graph, bg: BlockGraph, m: nat)
    requires Settled(w, g)
    ensures Settled(Admitted(w, bg, m), Admit(g, bg)) && Admit(g, bg).round == g.round
  {
    hide RecordMax, MaxOver;
  }

  // --- the blocks of a block graph ---

  /** Records are of the entries, in order. */
  ghost predicate Matches(hist: seq<Record>, entries: seq<Entry>) {
    && |hist| == |entries|
    && forall i | 0 <= i < |hist| :: hist[i].block == entries[i].block && hist[i].prev == entries[i].prev
  }

  /** The entries that are still to come fit the world. */
  ghost predicate Coming(w: World, all: seq<Entry>, n: nat) {
    forall k | n <= k < |all| :: all[k].block.Valid() && all[k].block.node in w.nodes && all[k].block.round <= w.top
  }

  /** An entry whose turn has come has a bound that its links are within. */
  lemma EntryReady(w: World, g: Graph, all: seq<Entry>, n: nat) returns (top: nat)
    requires RunOk(w, g) && n < |all| && n == |w.hist| && Matches(w.hist, all[..n])
    requires Coming(w, all, n) && (w.terms.steady ==> Steady(all))
    ensures
      var e := all[n];
      var t := Task(w, e.block, FindOrCreate(g, e), top);
      TopFor(w, e.block, top) && t.Placed() && LinksOk(t, LinksOf(e))
  {
    hide FindOrCreate, Ledger, History, Linked, Settled, LinksOf;
    TopsBounded(w, g);
    var e := all[n];
    if w.terms.steady && e.block in Recorded(w.hist) {
      var k := Found(w.hist, e.block);
      var m := FirstOf(w.hist, k);
      assert RecordPlaced(w, w.hist[m], w.tops[m]) by { PlacedAt(w, g, m); }
      top := w.tops[m];
      forall d, i | d in LinksOf(e) && 0 <= i < |w.hist| && w.hist[i].block == d ensures w.tops[i] <= top {
        LinkWithin(w, all, n, m, d, i);
      }
    } else {
      top := w.top;
    }
    var t := Task(w, e.block, FindOrCreate(g, e), top);
    forall d | d in LinksOf(e) ensures LinkOk(t, d) {
    }
  }

  lemma {:induction false} FirstOf(hist: seq<Record>, m: nat) returns (f: nat)
    requires m < |hist|
    ensures f <= m && hist[f].block == hist[m].block && First(hist, f)
  {
    if i :| 0 <= i < m && hist[i].block == hist[m].block {
      f := FirstOf(hist, i);
    } else {
      f := m;
    }
  }

  lemma LinkWithin(w: World, all: seq<Entry>, n: nat, m: nat, d: BlockID, i: nat)
    requires n < |all| && TopsSteady(w.hist, w.tops) && Steady(all) && Matches(w.hist, all[..n])
    requires m < n && First(w.hist, m) && w.hist[m].block == all[n].block
    requires d in LinksOf(all[n]) && i < n && w.hist[i].block == d
    ensures w.tops[i] <= w.tops[m]
  {
    hide LinksOf;
    assert forall k | 0 <= k < n :: all[..n][k] == all[k];
    assert all[i].block == d && Occurs(all, n, d);
    assert Occurs(all, m + 1, d);
    var p :| 0 <= p < m + 1 && p < |all| && all[p].block == d;
    assert w.hist[p].block == d;
    assert w.tops[i] == w.tops[p];
  }

  lemma PlacedAt(w: World, g: Graph, m: nat)
    requires Ledger(w, g, map[]) && m < |w.hist|
    ensures m < |w.tops| && RecordPlaced(w, w.hist[m], w.tops[m])
  {
    hide Stored, LogTold, ResolvedOk, BlocksBounded, AllInterpreted, Current, LogRounds, RoundsOk, MaxOk, StateIn;
  }

  /** All calls of process for a block graph, from entry |w.hist| of the run on. */
  lemma {:induction false} ProcessAllKeeps(w: World, g: Graph, all: seq<Entry>) returns (w': World)
    requires |w.hist| <= |all| && RunOk(w, g) && Matches(w.hist, all[..|w.hist|])
    requires Coming(w, all, |w.hist|) && (w.terms.steady ==> Steady(all))
    ensures
      var r := ProcessAll(w.cfg, g, w.hist, all[|w.hist|..]);
      && r != Panic
      && (r.Ok? ==>
            && w' == w.(hist := r.value.1, tops := w'.tops, floor := w'.floor)
            && RunOk(w', r.value.0) && g.round <= r.value.0.round && Matches(w'.hist, all))
    decreases |all| - |w.hist|
  {
    hide RunOk, Process, FindOrCreate, LinkOk, LinksOk, TopFor, Steady;
    w' := w;
    var n := |w.hist|;
    if n == |all| {
      assert all[..n] == all;
    } else {
      var e := all[n];
      assert all[n..][1..] == all[n + 1..];
      var top := EntryReady(w, g, all, n);
      var v := ProcessEntry(w, g, e, top);
      var r := Process(w.cfg, g, e);
      if r.Ok? {
        assert Matches(v.hist, all[..n + 1]) by {
          assert forall i | 0 <= i < n :: all[..n + 1][i] == all[..n][i];
        }
        w' := ProcessAllKeeps(v, r.value, all);
      }
    }
  }

  // --- whole runs ---

  /** Stands for the time before the first own block: an id that no block has, with a max of 0. */
  function Genesis(cfg: Config, first: nat, terms: Terms): World {
    var id := BlockID([], 0, if first > 0 then first - 1 else 0);
    World(cfg, Nodes(cfg), [], [], 0, BlockInfo(BlockGraph(id, [], id), 0), 0, terms)
  }

  lemma GenesisOk(cfg: Config, first: nat, terms: Terms)
    requires |Nodes(cfg)| == |cfg.peers| && first <= U64_SIZE
    ensures RunOk(Genesis(cfg, first, terms), Initial(cfg))
  {
  }

  /** The highest round among all blocks of some block graphs. */
  function TopRound(inputs: seq<BlockGraph>): nat {
    if inputs == [] then 0
    else
      var n := |inputs| - 1;
      Larger(TopRound(inputs[..n]), HighRound(inputs[n].deps, inputs[n].block.round))
  }

  ghost predicate RunReached(w: World, g: Graph, cfg: Config, first: nat, terms: Terms, inputs: seq<BlockGraph>) {
    && w.cfg == cfg && w.nodes == Nodes(cfg) && w.terms == terms
    && RunOk(w, g)
    && Matches(w.hist, AllEntries(inputs))
    && (inputs == [] ==> w == Genesis(cfg, first, terms) && g == Initial(cfg))
    && (inputs != [] ==> w.cur.data == inputs[|inputs| - 1])
  }

  lemma TermsPrefix(terms: Terms, inputs: seq<BlockGraph>)
    requires TermsFit(terms, inputs) && inputs != []
    ensures TermsFit(terms, inputs[..|inputs| - 1])
  {
    hide LinksOf, DepBlocks;
    var before := inputs[..|inputs| - 1];
    assert forall i | 0 <= i < |before| :: before[i] == inputs[i];
    if terms.steady {
      SteadyPrefix(AllEntries(before), Entries(inputs[|inputs| - 1]));
    }
  }

  lemma SteadyPrefix(a: seq<Entry>, b: seq<Entry>)
    requires Steady(a + b)
    ensures Steady(a)
  {
    hide LinksOf;
    var c := a + b;
    assert forall i | 0 <= i < |a| :: c[i] == a[i];
    forall m, n, d | 0 <= m < n < |a| && a[m].block == a[n].block && d in LinksOf(a[n]) && Occurs(a, n, d)
      ensures Occurs(a, m + 1, d)
    {
      var p :| 0 <= p < n && p < |a| && a[p].block == d;
      assert c[p].block == d && Occurs(c, n, d);
      assert c[m].block == c[n].block && d in LinksOf(c[n]);
      assert Occurs(c, m + 1, d);
      var q :| 0 <= q < m + 1 && q < |c| && c[q].block == d;
      assert a[q].block == d;
    }
  }

  lemma WellFormedPrefix(cfg: Config, inputs: seq<BlockGraph>)
    requires WellFormed(cfg, inputs) && inputs != []
    ensures WellFormed(cfg, inputs[..|inputs| - 1]) && InputOk(cfg, inputs[|inputs| - 1])
  {
    hide InputOk, Bitsets.InRange;
    assert forall i | 0 <= i < |inputs| - 1 :: inputs[..|inputs| - 1][i] == inputs[i];
  }

  /** Records are of exactly the blocks of the entries. */
  lemma RecordedBlocks(hist: seq<Record>, all: seq<Entry>, b: BlockID)
    requires Matches(hist, all)
    ensures b in Recorded(hist) <==> exists i :: 0 <= i < |all| && all[i].block == b
  {
    if b in Recorded(hist) {
      var i := Found(hist, b);
      assert all[i].block == b;
    }
    if i :| 0 <= i < |all| && all[i].block == b {
      assert hist[i] in hist;
    }
  }

  /** A block that is interpreted is an own block or a dependency. */
  lemma {:induction false} EntryOfInput(inputs: seq<BlockGraph>, i: nat) returns (k: nat)
    requires i < |AllEntries(inputs)|
    ensures k < |inputs| && (AllEntries(inputs)[i].block == inputs[k].block
      || AllEntries(inputs)[i].block in DepBlocks(inputs[k]))
    decreases |inputs|
  {
    var n := |inputs| - 1;
    var before := AllEntries(inputs[..n]);
    if i < |before| {
      k := EntryOfInput(inputs[..n], i);
    } else {
      k := n;
      var j := i - |before|;
      assert AllEntries(inputs)[i] == Entries(inputs[n])[j];
      assert j < |inputs[n].deps| ==> inputs[n].deps[j] in inputs[n].deps;
    }
  }

  /** The next input is ready to be admitted. */
  lemma InputReady(w: World, g: Graph, cfg: Config, first: nat, terms: Terms, inputs: seq<BlockGraph>)
    requires inputs != [] && WellFormed(cfg, inputs) && TermsFit(terms, inputs) && first == inputs[0].block.round
    requires RunReached(w, g, cfg, first, terms, inputs[..|inputs| - 1])
    ensures Follows(w, inputs[|inputs| - 1]) && CurInterpreted(w, g)
  {
    hide RunOk, AllEntries, Matches, Steady, Recorded, DepBlocks, IdsOf;
    var n := |inputs| - 1;
    var bg := inputs[n];
    WellFormedPrefix(cfg, inputs);
    OwnRound(cfg, bg);
    if n > 0 {
      assert inputs[..n][n - 1] == inputs[n - 1];
      WellFormedAt(cfg, inputs, n - 1);
      OwnRound(cfg, inputs[n - 1]);
      AllDone(w, inputs[..n]);
    } else {
      DepsValid(cfg, bg);
    }
    if terms.apart {
      NotBefore(w.hist, inputs);
    }
  }

  lemma DepsValid(cfg: Config, bg: BlockGraph)
    requires InputOk(cfg, bg)
    ensures forall b | b in DepBlocks(bg) :: b.Valid()
  {
    forall b | b in DepBlocks(bg) ensures b.Valid() {
      var d :| d in bg.deps && d.block == b;
      var i :| 0 <= i < |bg.deps| && bg.deps[i] == d;
      assert EntryOk(cfg, Entries(bg)[i]);
    }
  }

  lemma WellFormedAt(cfg: Config, inputs: seq<BlockGraph>, i: nat)
    requires WellFormed(cfg, inputs) && i < |inputs|
    ensures InputOk(cfg, inputs[i])
  {
  }

  lemma OwnRound(cfg: Config, bg: BlockGraph)
    requires InputOk(cfg, bg)
    ensures 1 <= bg.block.round < U64_SIZE
  {
  }

  lemma {:induction false} AllDone(w: World, inputs: seq<BlockGraph>)
    requires inputs != [] && Matches(w.hist, AllEntries(inputs)) && w.cur.data == inputs[|inputs| - 1]
    ensures IdsOf(w.cur) <= Recorded(w.hist)
  {
    hide Matches, Recorded;
    var bg := inputs[|inputs| - 1];
    var before, es := AllEntries(inputs[..|inputs| - 1]), Entries(bg);
    var all := AllEntries(inputs);
    forall id | id in IdsOf(w.cur) ensures id in Recorded(w.hist) {
      var j: nat := |bg.deps|;
      if id != bg.block {
        var d :| d in bg.deps && d.block == id;
        j :| 0 <= j < |bg.deps| && bg.deps[j] == d;
      }
      assert all[|before| + j] == es[j];
      RecordedBlocks(w.hist, all, id);
    }
  }

  /** With own blocks apart, a new own block has not been interpreted. */
  lemma NotBefore(hist: seq<Record>, inputs: seq<BlockGraph>)
    requires inputs != [] && Matches(hist, AllEntries(inputs[..|inputs| - 1]))
    requires OwnRounds(inputs) && OwnApart(inputs)
    ensures inputs[|inputs| - 1].block !in Recorded(hist)
  {
    hide Matches, AllEntries, DepBlocks, Recorded;
    var n := |inputs| - 1;
    var b := inputs[n].block;
    RecordedBlocks(hist, AllEntries(inputs[..n]), b);
    if i :| 0 <= i < |AllEntries(inputs[..n])| && AllEntries(inputs[..n])[i].block == b {
      var k := EntryOfInput(inputs[..n], i);
      assert inputs[..n][k] == inputs[k];
      RoundsApart(inputs, k, n);
    }
  }

  lemma {:induction false} RoundsApart(inputs: seq<BlockGraph>, i: nat, j: nat)
    requires OwnRounds(inputs) && i < j < |inputs|
    ensures inputs[j].block.round == inputs[i].block.round + (j - i)
  {
    if i + 1 < j {
      RoundsApart(inputs, i, j - 1);
    }
  }

  lemma {:induction false} RunPrefixKeeps(cfg: Config, first: nat, terms: Terms, inputs: seq<BlockGraph>)
    returns (w: World)
    requires WellFormed(cfg, inputs) && TermsFit(terms, inputs)
    requires first < U64_SIZE && (inputs != [] ==> first == inputs[0].block.round)
    ensures
      var r := RunAll(cfg, inputs);
      && r != Panic
      && (r.Ok? ==>
            && w.hist == r.value.1 && w.top == TopRound(inputs)
            && RunReached(w, r.value.0, cfg, first, terms, inputs))
    decreases |inputs|
  {
    hide Run, TermsFit;
    w := Genesis(cfg, first, terms);
    if inputs == [] {
      GenesisOk(cfg, first, terms);
    } else {
      hide RunReached, WellFormed;
      var n := |inputs| - 1;
      WellFormedPrefix(cfg, inputs);
      TermsPrefix(terms, inputs);
      w := RunPrefixKeeps(cfg, first, terms, inputs[..n]);
      var p := RunAll(cfg, inputs[..n]);
      if p.Ok? {
        w := RunKeeps(w, p.value.0, cfg, first, terms, inputs);
      }
    }
  }

  /** One more input. */
  lemma RunKeeps(w: World, g: Graph, cfg: Config, first: nat, terms: Terms, inputs: seq<BlockGraph>) returns (w': World)
    requires inputs != [] && WellFormed(cfg, inputs) && TermsFit(terms, inputs) && first == inputs[0].block.round
    requires RunReached(w, g, cfg, first, terms, inputs[..|inputs| - 1])
    ensures
      var r := Run(cfg, g, w.hist, inputs[|inputs| - 1]);
      && r != Panic
      && (r.Ok? ==>
            && w'.hist == r.value.1
            && w'.top == Larger(w.top, HighRound(inputs[|inputs| - 1].deps, inputs[|inputs| - 1].block.round))
            && RunReached(w', r.value.0, cfg, first, terms, inputs))
  {
    hide RunOk, WellFormed, Entries, Admit, ProcessAll, Genesis, Follows, InputOk, Steady, OwnRounds, OwnApart,
      CurInterpreted;
    var n := |inputs| - 1;
    var bg := inputs[n];
    InputReady(w, g, cfg, first, terms, inputs);
    var v := AdmitKeeps(w, g, bg);
    var before, all := AllEntries(inputs[..n]), AllEntries(inputs);
    assert all[..|before|] == before && all[|before|..] == Entries(bg);
    WellFormedPrefix(cfg, inputs);
    InputComing(v, cfg, bg, all, |before|);
    w' := ProcessAllKeeps(v, Admit(g, bg), all);
  }

  lemma InputComing(w: World, cfg: Config, bg: BlockGraph, all: seq<Entry>, n: nat)
    requires n <= |all| && all[n..] == Entries(bg) && InputOk(cfg, bg) && w.nodes == Nodes(cfg)
    requires bg.block.round <= w.top && forall d | d in bg.deps :: d.block.round <= w.top
    ensures Coming(w, all, n)
  {
    var es := Entries(bg);
    forall k | n <= k < |all|
      ensures all[k].block.Valid() && all[k].block.node in w.nodes && all[k].block.round <= w.top
    {
      assert all[k] == es[k - n];
      assert EntryOk(cfg, es[k - n]);
      assert k - n < |bg.deps| ==> bg.deps[k - n] in bg.deps;
    }
  }
}
