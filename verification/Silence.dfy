/**
  A node that hears from nobody. It delivers nothing, and in its block of round 11 every slot of round 1 leaves
  view 0: the run in which timeouts are all that happens.
 */
module Silence {
  import opened Ids
  import opened Outcomes
  import opened Protocol
  import opened Interpreter
  import opened Sets
  import opened Quorums
  import opened Clocks
  import opened Runs
  import opened Consensus
  import opened TenRounds
  import opened Deadlines
  import Bitsets
  import Consumption
  import Evidence
  import Patience

  // --- too few nodes ---

  /** While fewer nodes than a quorum have made blocks, nothing is told. */
  lemma TooFewNodes(cfg: Config, inputs: seq<BlockGraph>, g: Graph, hist: seq<Record>, nodes: set<nat>)
    requires Reaches(cfg, inputs, g, hist) && cfg.peers != [] && |nodes| < cfg.Quorum()
    requires forall i | 0 <= i < |hist| :: hist[i].block.node in nodes
    ensures g.log == []
  {
    hide Reaches;
    if g.log != [] {
      DeliveredInOrder(cfg, inputs, g, hist, 0);
      var hashes :| RoundDecisions(cfg, hist, g.log[0].round, hashes);
      var n := cfg.peers[0];
      assert n in Nodes(cfg);
      NotDecided(cfg, inputs, g, hist, nodes, Slot(n, g.log[0].round), hashes[n]);
    }
  }

  lemma NotDecided(cfg: Config, inputs: seq<BlockGraph>, g: Graph, hist: seq<Record>, nodes: set<nat>, k: Slot,
                   hash: Hash)
    requires Reaches(cfg, inputs, g, hist) && |nodes| < cfg.Quorum()
    requires forall i | 0 <= i < |hist| :: hist[i].block.node in nodes
    ensures !CertifiedDecision(cfg, hist, k, hash)
  {
    hide Reaches;
    if CertifiedDecision(cfg, hist, k, hash) {
      var i :| 0 <= i < |hist| && Evidence.Certified(cfg.Quorum(), hist[i].end.bitsets, k, hash);
      var p := CertifiedBy(cfg.Quorum(), hist[i].end.bitsets, k, hash);
      Certificates(cfg, inputs, g, hist, i);
      forall x | x in hist[i].end.bitsets[p].commits ensures x in nodes {
        assert CommitSentBy(hist, i, p, x);
      }
      CardinalityGrows(hist[i].end.bitsets[p].commits, nodes);
    }
  }

  lemma CertifiedBy(quorum: nat, bitsets: map<Proposal, Votes>, k: Slot, hash: Hash) returns (p: Proposal)
    requires Evidence.Certified(quorum, bitsets, k, hash)
    ensures p in bitsets && |bitsets[p].commits| >= quorum
  {
    p :| p in bitsets && p.At() == k && p.hash == hash && |bitsets[p].commits| >= quorum;
  }

  // --- one node alone ---

  const NOTHING := BlockID([], 0, 0)

  function Block(me: nat, h: Hash, round: nat): BlockID {
    if round == 0 then NOTHING else BlockID(h, me, round)
  }

  /** Own block i + 1: it names the one before, and nothing else. */
  function Alone(me: nat, h: Hash, i: nat): BlockGraph {
    BlockGraph(Block(me, h, i + 1), [], Block(me, h, i))
  }

  function Inputs(me: nat, h: Hash, n: nat): (r: seq<BlockGraph>)
    ensures |r| == n && forall i | 0 <= i < n :: r[i] == Alone(me, h, i)
  {
    seq(n, i requires 0 <= i < n => Alone(me, h, i))
  }

  function EntryAt(me: nat, h: Hash, i: nat): Entry {
    Entry(Block(me, h, i + 1), [Block(me, h, i)], Block(me, h, i))
  }

  lemma OneEntry(me: nat, h: Hash, i: nat)
    ensures Entries(Alone(me, h, i)) == [EntryAt(me, h, i)]
  {
    assert Blocks([]) == [];
    assert [Block(me, h, i)] + [] == [Block(me, h, i)];
  }

  lemma {:induction false} EntriesAre(me: nat, h: Hash, n: nat)
    ensures
      var all := AllEntries(Inputs(me, h, n));
      |all| == n && forall i | 0 <= i < n :: all[i] == EntryAt(me, h, i)
    decreases n
  {
    hide Entries, EntryAt, Alone;
    if n > 0 {
      EntriesAre(me, h, n - 1);
      OneEntry(me, h, n - 1);
      assert Inputs(me, h, n)[..n - 1] == Inputs(me, h, n - 1);
    }
  }

  /** A configuration of at least four nodes that has delivered nothing. */
  ghost predicate Fit(cfg: Config, me: nat, h: Hash) {
    && |Nodes(cfg)| == |cfg.peers| && (forall x | x in cfg.peers :: Bitsets.InRange(|cfg.peers|, x))
    && cfg.Faults() >= 1 && cfg.lastInterpreted == 0 && me in cfg.peers && h != []
  }

  lemma InputsFit(cfg: Config, me: nat, h: Hash)
    requires Fit(cfg, me, h)
    ensures WellFormed(cfg, Inputs(me, h, 10))
  {
    forall i | 0 <= i < 10 ensures InputOk(cfg, Inputs(me, h, 10)[i]) {
      OneEntry(me, h, i);
    }
  }

  lemma InTenRounds(me: nat, h: Hash)
    ensures AllInTime(Calendar([1, 1, 1, 1, 1, 1, 1, 1, 1, 1], 10), AllEntries(Inputs(me, h, 10)))
  {
    hide AllEntries, Inputs;
    EntriesAre(me, h, 10);
    var c, all := Calendar([1, 1, 1, 1, 1, 1, 1, 1, 1, 1], 10), AllEntries(Inputs(me, h, 10));
    forall i | 0 <= i < |all| ensures Patience.InTime(c.lows[i], c.last, all[i]) {
      assert all[i] == EntryAt(me, h, i);
    }
  }

  lemma NoForks(me: nat, h: Hash, n: nat, x: nat)
    ensures Linear(AllEntries(Inputs(me, h, n)) + [EntryAt(me, h, n)], x) && Linear(AllEntries(Inputs(me, h, n)), x)
  {
    hide AllEntries, Inputs;
    EntriesAre(me, h, n);
    var entries := AllEntries(Inputs(me, h, n));
    var all := entries + [EntryAt(me, h, n)];
    assert forall i | 0 <= i < |all| :: all[i] == EntryAt(me, h, i);
    forall i, j | 0 <= i < j < |all| && all[i].block.node == x && all[j].block.node == x && NoneBetween(all, x, i, j)
      ensures all[j].prev == all[i].block && all[i].block.round < all[j].block.round
    {
      assert all[i + 1].block.node == x;
    }
    LinearBefore(entries, EntryAt(me, h, n), x);
  }

  /** The shortest timeout is the first one. */
  lemma FirstTimeout(cfg: Config, me: nat, h: Hash, s: State)
    requires Clocked(cfg, EntryAt(me, h, 0), FRESH, s) && cfg.Faults() >= 1
    ensures s.timeout == 10
  {
    var deps := [NOTHING];
    forall n | n in s.delay ensures n == 0 && s.delay[n] == 10 {
      assert DelayIs(map[], 1, deps, s.delay, n);
      assert n != 0 ==> NoneOf(deps, n);
      assert n == 0 ==> LastOf(deps, n, 0);
    }
    assert s.delay.Keys <= {0};
    CardinalityGrows(s.delay.Keys, {0});
    assert |s.delay| == |s.delay.Keys|;
  }

  /** The first block starts afresh. */
  lemma FirstStart(cfg: Config, inputs: seq<BlockGraph>, g: Graph, hist: seq<Record>)
    requires RunAll(cfg, inputs) == Ok((g, hist)) && hist != []
    ensures hist[0].start == FRESH
  {
    FirstRecord(cfg, inputs);
  }

  lemma {:induction false} FirstRecord(cfg: Config, inputs: seq<BlockGraph>)
    requires RunAll(cfg, inputs).Ok?
    ensures
      var (g, hist) := RunAll(cfg, inputs).value;
      (inputs == [] ==> hist == []) && (inputs != [] ==> hist != [] && hist[0].start == FRESH)
    decreases |inputs|
  {
    hide Admit, ProcessAll;
    if inputs != [] {
      var n := |inputs| - 1;
      FirstRecord(cfg, inputs[..n]);
      var (g, hist) := RunAll(cfg, inputs[..n]).value;
      HistoryStays(cfg, Admit(g, inputs[n]), hist, Entries(inputs[n]));
      if n == 0 {
        NothingYet(cfg, inputs[0]);
      }
    }
  }

  lemma {:induction false} HistoryStays(cfg: Config, g: Graph, hist: seq<Record>, entries: seq<Entry>)
    requires ProcessAll(cfg, g, hist, entries).Ok?
    ensures hist <= ProcessAll(cfg, g, hist, entries).value.1
    decreases |entries|
  {
    hide Process, FindOrCreate;
    if entries != [] {
      var e := entries[0];
      var g' := Process(cfg, g, e).value;
      HistoryStays(cfg, g', hist + [Record(e.block, e.prev, FindOrCreate(g, e), g'.statess[e.block])], entries[1..]);
    }
  }

  lemma NothingYet(cfg: Config, bg: BlockGraph)
    requires ProcessAll(cfg, Admit(Initial(cfg), bg), [], Entries(bg)).Ok?
    ensures
      var hist := ProcessAll(cfg, Admit(Initial(cfg), bg), [], Entries(bg)).value.1;
      hist != [] && hist[0].start == FRESH
  {
    hide Process;
    var g, es := Admit(Initial(cfg), bg), Entries(bg);
    assert g.statess == map[] by { hide RecordMax, MaxOver; }
    hide Admit, Entries;
    var e := es[0];
    var g' := Process(cfg, g, e).value;
    var rec := Record(e.block, e.prev, FindOrCreate(g, e), g'.statess[e.block]);
    HistoryStays(cfg, g', [] + [rec], es[1..]);
    assert ([] + [rec])[0] == rec;
  }

  /** Ten rounds alone: nothing is told, and the next block gives up view 0 of every slot of round 1. */
  lemma TimesOutAlone(cfg: Config, me: nat, h: Hash) returns (g: Graph, hist: seq<Record>)
    requires Fit(cfg, me, h)
    ensures Reaches(cfg, Inputs(me, h, 10), g, hist) && g.log == [] && |hist| == 10
    ensures forall y | y in cfg.peers :: ViewOf(Opening(cfg, g, EntryAt(me, h, 10)).0, Slot(y, 1)) > 0
  {
    hide RunAll, WellFormed, AllEntries, AllInTime, Linear, Inputs, Opening, ViewOf, EntryAt;
    var inputs, e := Inputs(me, h, 10), EntryAt(me, h, 10);
    InputsFit(cfg, me, h);
    InTenRounds(me, h);
    EntriesAre(me, h, 10);
    forall x | x in Nodes(cfg) ensures Tolerated(cfg, AllEntries(inputs), {}, x) {
      forall y ensures Linear(AllEntries(inputs), y) {
        NoForks(me, h, 10, y);
      }
    }
    NeverStops(cfg, inputs, {}, Calendar([1, 1, 1, 1, 1, 1, 1, 1, 1, 1], 10));
    g, hist :| Reaches(cfg, inputs, g, hist);
    RunIsAlone(cfg, me, h, g, hist);
    TooFewNodes(cfg, inputs, g, hist, {me});
    NothingDelivered(cfg, inputs, g, hist);
    NoForks(me, h, 10, me);
    AloneEntries(me, h);
    forall y | y in cfg.peers ensures ViewOf(Opening(cfg, g, e).0, Slot(y, 1)) > 0 {
      RoundsTimeOut(cfg, inputs, g, hist, e, 0, y);
    }
  }

  lemma AloneEntries(me: nat, h: Hash)
    ensures EntryAt(me, h, 10).block.node == me && EntryAt(me, h, 10).block.round == 11
  {
  }

  lemma NothingDelivered(cfg: Config, inputs: seq<BlockGraph>, g: Graph, hist: seq<Record>)
    requires Reaches(cfg, inputs, g, hist) && g.log == []
    ensures g.round == cfg.lastInterpreted + 1
  {
    hide RunAll, WellFormed;
    Consumption.RoundsReached(cfg, inputs, g, hist);
  }

  lemma RunIsAlone(cfg: Config, me: nat, h: Hash, g: Graph, hist: seq<Record>)
    requires Reaches(cfg, Inputs(me, h, 10), g, hist) && cfg.Faults() >= 1
    ensures |hist| == 10 && (forall i | 0 <= i < 10 :: hist[i].block == Block(me, h, i + 1) && hist[i].block.node == me)
    ensures hist[0].end.timeout == 10
  {
    hide RunAll, WellFormed, AllEntries, Inputs, AllClocked;
    var inputs := Inputs(me, h, 10);
    EntriesAre(me, h, 10);
    RunClocked(cfg, inputs, g, hist);
    MatchesAll(cfg, inputs, g, hist);
    FirstStart(cfg, inputs, g, hist);
    ClockedAt(cfg, hist, AllEntries(inputs), 0);
    FirstTimeout(cfg, me, h, hist[0].end);
  }

  lemma MatchesAll(cfg: Config, inputs: seq<BlockGraph>, g: Graph, hist: seq<Record>)
    requires Reaches(cfg, inputs, g, hist)
    ensures Matches(hist, AllEntries(inputs))
  {
    hide RunAll, AllEntries, WellFormed, RunOk;
    var w := ReachedWorld(cfg, inputs, g, hist, PLAIN);
  }
}
