/**
  How many forking nodes agreement in view 0 tolerates: as many as the quorums are made for exactly when
  there are three times as many nodes and one more, or when the quorums are made for none.
 */
module Tolerance {
  import opened Bytes
  import opened Ids
  import opened Outcomes
  import opened Protocol
  import opened Interpreter
  import opened Runs
  import opened Consensus
  import opened Sets
  import opened ForkedProposal
  import Bitsets

  /** Two commits about one slot, in view 0 of a round that is not delivered, in a run with so many forking nodes. */
  ghost predicate Commits(cfg: Config, inputs: seq<BlockGraph>, g: Graph, hist: seq<Record>, byz: set<nat>, i: nat,
                          j: nat, m: Message, m': Message) {
    && Reaches(cfg, inputs, g, hist) && |AllEntries(inputs)| < U32_SIZE
    && |byz| <= cfg.Faults() && (forall x | x in Nodes(cfg) && x !in byz :: Linear(AllEntries(inputs), x))
    && i < |hist| && j < |hist| && m.Commit? && m'.Commit? && m in hist[i].end.out && m' in hist[j].end.out
    && m.p.At() == m'.p.At() && m.p.view == m'.p.view == 0 && m.p.round >= g.round
  }

  /** With at most the number of forking nodes that the quorums are made for, there is agreement in every run. */
  ghost predicate Agreement(peers: seq<nat>) {
    forall cfg: Config, inputs, g, hist, byz, i, j, m, m' | cfg.peers == peers
      && Commits(cfg, inputs, g, hist, byz, i, j, m, m') ::
      m.p.hash == m'.p.hash
  }

  /** Distinct nodes that a bitset has room for; not billions of them. */
  ghost predicate PeersOk(peers: seq<nat>) {
    && peers != [] && |Elements(peers)| == |peers| && |peers| < 1_000_000_000
    && forall x | x in peers :: Bitsets.InRange(|peers|, x)
  }

  lemma EnoughNodes(cfg: Config, inputs: seq<BlockGraph>, g: Graph, hist: seq<Record>, byz: set<nat>, i: nat, j: nat,
                    m: Message, m': Message)
    requires Commits(cfg, inputs, g, hist, byz, i, j, m, m') && cfg.peers != []
    requires cfg.PeerCount() == 3 * cfg.Faults() + 1 || cfg.Faults() == 0
    ensures m.p.hash == m'.p.hash
  {
    hide Reaches, AllEntries, Linear;
    FaultsTolerated(cfg);
    ViewZeroAgreement(cfg, inputs, g, hist, byz, i, j, m, m');
  }

  // --- the failing runs ---

  function CastOf(cfg: Config): Cast
    requires cfg.Faults() >= 1 && cfg.PeerCount() >= 3 * cfg.Faults() + 2
  {
    var f, p := cfg.Faults(), cfg.peers;
    Cast(cfg, p[0], p[1..2 * f], p[2 * f], p[1..f] + p[2 * f + 1..3 * f + 1], p[3 * f + 1])
  }

  lemma ElementsStep(p: seq<nat>)
    requires p != []
    ensures Elements(p) == Elements(p[..|p| - 1]) + {p[|p| - 1]}
  {
    var n := |p| - 1;
    assert p == p[..n] + [p[n]];
  }

  lemma {:induction false} AtMostLength(p: seq<nat>)
    ensures |Elements(p)| <= |p|
  {
    if p != [] {
      AtMostLength(p[..|p| - 1]);
      ElementsStep(p);
    }
  }

  lemma {:induction false} AllDistinct(p: seq<nat>)
    requires |Elements(p)| == |p|
    ensures Distinct(p)
  {
    if p != [] {
      var n := |p| - 1;
      var before := p[..n];
      AtMostLength(before);
      ElementsStep(p);
      assert p[n] !in Elements(before) by {
        assert p[n] in Elements(before) ==> Elements(p) == Elements(before);
      }
      AllDistinct(before);
      forall i, j | 0 <= i < j < |p| ensures p[i] != p[j] {
        assert p[i] == before[i] && before[i] in Elements(before);
        assert j < n ==> p[j] == before[j];
      }
    }
  }

  lemma CastIsOk(cfg: Config)
    requires cfg.Faults() >= 1 && cfg.PeerCount() >= 3 * cfg.Faults() + 2 && Distinct(cfg.peers)
    ensures CastOf(cfg).Ok()
  {
    hide Distinct;
    var f, p := cfg.Faults(), cfg.peers;
    var a := CastOf(cfg);
    assert [a.z] + a.ys + [a.c] == p[..2 * f + 1];
    assert [a.z] + a.others + [a.c'] == p[..f] + p[2 * f + 1..3 * f + 2];
    Picked(p, f);
  }

  /** The two teams, and the two that commit. */
  lemma Picked(p: seq<nat>, f: nat)
    requires f >= 1 && |p| >= 3 * f + 2 && Distinct(p)
    ensures Distinct(p[..2 * f + 1]) && Distinct(p[..f] + p[2 * f + 1..3 * f + 2]) && p[2 * f] != p[3 * f + 1]
    ensures p[2 * f] !in p[1..f] + p[2 * f + 1..3 * f + 1] && p[3 * f + 1] !in p[1..2 * f]
  {
    var two := p[..f] + p[2 * f + 1..3 * f + 2];
    assert forall i | 0 <= i < |two| :: two[i] == p[if i < f then i else i + f + 1];
  }

  /** Which peer the block of entry i is of. */
  function PeerOf(f: nat, i: nat): nat
    requires f >= 1 && i < 4 * f + 2
  {
    if i == 0 || i == 2 * f then 0
    else if i < f then i
    else if i < 2 * f then i + f + 1
    else if i < 4 * f then i - 2 * f
    else if i == 4 * f then 2 * f
    else 3 * f + 1
  }

  lemma EntryPeers(cfg: Config, h: Hash, h': Hash)
    requires cfg.Faults() >= 1 && cfg.PeerCount() >= 3 * cfg.Faults() + 2
    ensures
      var f, es := cfg.Faults(), Entries(CastOf(cfg).Input(h, h'));
      |es| == 4 * f + 2 && forall i | 0 <= i < |es| :: es[i].block.node == cfg.peers[PeerOf(f, i)]
  {
    hide Entries, TeamDeps, Later, Cast.Input;
    var f, p, a := cfg.Faults(), cfg.peers, CastOf(cfg);
    var es := Entries(a.Input(h, h'));
    EntriesOfInput(a, h, h');
    var n := 2 * f - 1;
    forall i | 0 <= i < |es| ensures es[i].block.node == p[PeerOf(f, i)] {
      if 0 < i < n + 1 {
        assert es[i] == es[0 + 1 + (i - 1)] && es[i].block.node == a.others[i - 1];
      } else if n + 1 < i < 2 * n + 2 {
        assert es[i] == es[n + 1 + 1 + (i - n - 2)] && es[i].block.node == a.ys[i - n - 2];
      }
    }
  }

  lemma TwiceIsFirst(f: nat, i: nat, j: nat)
    requires f >= 1 && i < j < 4 * f + 2 && PeerOf(f, i) == PeerOf(f, j)
    ensures PeerOf(f, i) < f
  {
  }

  /** Only the first f peers have two blocks. */
  lemma OthersOnce(cfg: Config, h: Hash, h': Hash, x: nat)
    requires cfg.Faults() >= 1 && cfg.PeerCount() >= 3 * cfg.Faults() + 2 && Distinct(cfg.peers)
    requires x !in cfg.peers[..cfg.Faults()]
    ensures Linear(AllEntries([CastOf(cfg).Input(h, h')]), x)
  {
    hide Linear, Entries, AllEntries, CastOf, Cast.Input, PeerOf;
    var bg := CastOf(cfg).Input(h, h');
    var es := Entries(bg);
    OneInput(bg);
    EntryPeers(cfg, h, h');
    OnlyOnce(es, cfg.peers, cfg.Faults(), x);
    OnceIsLinear(es, x);
  }

  lemma OnlyOnce(es: seq<Entry>, p: seq<nat>, f: nat, x: nat)
    requires f >= 1 && |es| == 4 * f + 2 && |p| >= 3 * f + 2 && Distinct(p) && x !in p[..f]
    requires forall i | 0 <= i < |es| :: es[i].block.node == p[PeerOf(f, i)]
    ensures forall i, j | 0 <= i < j < |es| :: es[i].block.node != x || es[j].block.node != x
  {
    forall i, j | 0 <= i < j < |es| ensures es[i].block.node != x || es[j].block.node != x {
      var k, k' := PeerOf(f, i), PeerOf(f, j);
      assert k < f ==> p[..f][k] == p[k];
      if k == k' {
        TwiceIsFirst(f, i, j);
      }
    }
  }

  lemma OneInput(bg: BlockGraph)
    ensures AllEntries([bg]) == Entries(bg)
  {
    var inputs := [bg];
    assert inputs[..0] == [] && AllEntries([]) == [];
  }

  /** A node with one block does not fork. */
  lemma OnceIsLinear(es: seq<Entry>, x: nat)
    requires forall i, j | 0 <= i < j < |es| :: es[i].block.node != x || es[j].block.node != x
    ensures Linear(es, x)
  {
  }

  lemma TooManyNodes(peers: seq<nat>)
    requires PeersOk(peers)
    requires var f := (|peers| - 1) / 3; f >= 1 && |peers| != 3 * f + 1
    ensures !Agreement(peers)
  {
    hide Bitsets.InRange, Reaches, Linear, AllEntries, Cast.Input, CastOf;
    var cfg := Config(peers, 0);
    var f := cfg.Faults();
    AllDistinct(peers);
    assert Nodes(cfg) == Elements(peers);
    CastIsOk(cfg);
    var a := CastOf(cfg);
    CastParts(cfg);
    var h: Hash, h': Hash := [1], [2];
    var g, hist := DisagreementRun(a, h, h');
    var inputs := [a.Input(h, h')];
    var byz := Elements(peers[..f]);
    AtMostLength(peers[..f]);
    forall x | x in Nodes(cfg) && x !in byz ensures Linear(AllEntries(inputs), x) {
      OthersOnce(cfg, h, h', x);
    }
    OneInput(a.Input(h, h'));
    EntryPeers(cfg, h, h');
    var m, m' := Commit(Choice(a.z, h), a.c), Commit(Choice(a.z, h'), a.c');
    assert Commits(cfg, inputs, g, hist, byz, |hist| - 2, |hist| - 1, m, m');
    assert m.p.hash != m'.p.hash;
  }

  lemma CastParts(cfg: Config)
    requires cfg.Faults() >= 1 && cfg.PeerCount() >= 3 * cfg.Faults() + 2
    ensures CastOf(cfg).cfg == cfg
  {
  }

  /** Agreement with as many forking nodes as the quorums are made for holds exactly if there are just enough nodes. */
  lemma AgreementExactly(peers: seq<nat>)
    requires PeersOk(peers)
    ensures var f := (|peers| - 1) / 3; Agreement(peers) <==> |peers| == 3 * f + 1 || f == 0
  {
    hide PeersOk, Commits;
    var f := (|peers| - 1) / 3;
    assert peers != [] by { SomePeer(peers); }
    if |peers| == 3 * f + 1 || f == 0 {
      forall cfg: Config, inputs, g, hist, byz, i, j, m, m' | cfg.peers == peers
        && Commits(cfg, inputs, g, hist, byz, i, j, m, m')
        ensures m.p.hash == m'.p.hash
      {
        EnoughNodes(cfg, inputs, g, hist, byz, i, j, m, m');
      }
    } else {
      TooManyNodes(peers);
    }
  }

  lemma SomePeer(peers: seq<nat>)
    requires PeersOk(peers)
    ensures peers != []
  {
  }
}
