/**
  What every run of the interpreter guarantees, whether or not blocks fork or come back: certificates,
  monotone chains, agreement in view 0, lossless pruning and in-order delivery.
 */
module Consensus {
  import opened Bytes
  import opened Ids
  import opened Outcomes
  import opened Protocol
  import opened Interpreter
  import opened Evidence
  import opened Zones
  import opened Delivery
  import opened Passes
  import opened Runs
  import opened Sets
  import Bitsets

  /** The graph and the records of a run that has not stopped. */
  ghost predicate Reaches(cfg: Config, inputs: seq<BlockGraph>, g: Graph, hist: seq<Record>) {
    WellFormed(cfg, inputs) && RunAll(cfg, inputs) == Ok((g, hist))
  }

  /** Nothing but what holds of all runs. */
  const PLAIN := Terms(false, false, false)

  lemma ReachedWorld(cfg: Config, inputs: seq<BlockGraph>, g: Graph, hist: seq<Record>, terms: Terms) returns (w: World)
    requires Reaches(cfg, inputs, g, hist) && TermsFit(terms, inputs)
    ensures w.cfg == cfg && w.nodes == Nodes(cfg) && w.hist == hist && w.terms == terms
    ensures RunOk(w, g) && Matches(hist, AllEntries(inputs))
    ensures inputs != [] ==> w.cur.data == inputs[|inputs| - 1]
  {
    hide RunOk, RunAll, AllEntries, Matches, TermsFit;
    var first := if inputs == [] then 1 else inputs[0].block.round;
    assert inputs != [] ==> InputOk(cfg, inputs[0]);
    w := RunPrefixKeeps(cfg, first, terms, inputs);
  }

  /** deliverRound never reads the first block of an empty list. */
  lemma NeverPanics(cfg: Config, inputs: seq<BlockGraph>)
    requires WellFormed(cfg, inputs)
    ensures RunAll(cfg, inputs) != Panic
  {
    var first := if inputs == [] then 1 else inputs[0].block.round;
    assert inputs != [] ==> InputOk(cfg, inputs[0]);
    var _ := RunPrefixKeeps(cfg, first, PLAIN, inputs);
  }

  /**
    In every record, each Commit was put out by the block's own node and is backed by a quorum of
    prepares for the same proposal; each decision is backed by a quorum of commits for its hash, each
    of them sent by a block of the voter; and nothing is prepared or committed twice.
   */
  lemma Certificates(cfg: Config, inputs: seq<BlockGraph>, g: Graph, hist: seq<Record>, i: nat)
    requires Reaches(cfg, inputs, g, hist) && i < |hist|
    ensures
      var s := hist[i].end;
      && (forall m | m in s.out && m.Commit? ::
            m.sender == hist[i].block.node && m.p in s.bitsets && |s.bitsets[m.p].prepares| >= cfg.Quorum()
              && m.sender in s.bitsets[m.p].commits)
      && (forall k | k in s.final :: Certified(cfg.Quorum(), s.bitsets, k, s.final[k]))
      && (forall p, x | p in s.bitsets && x in s.bitsets[p].commits :: CommitSentBy(hist, i, p, x))
      && OnceOnly(s.out)
  {
    hide RunAll, AllEntries, Ledger, Linked, Calm;
    var w := ReachedWorld(cfg, inputs, g, hist, PLAIN);
    assert RecordOk(cfg.Quorum(), hist, i);
    hide History, WellFormed, Grows;
    var c := RecordCtx(cfg.Quorum(), hist, i);
    var s := hist[i].end;
    forall m | m in s.out && m.Commit?
      ensures m.sender == hist[i].block.node && m.p in s.bitsets && |s.bitsets[m.p].prepares| >= cfg.Quorum()
      ensures m.sender in s.bitsets[m.p].commits
    {
      assert MessageBacked(c, s, m);
    }
    forall p, x | p in s.bitsets && x in s.bitsets[p].commits ensures CommitSentBy(hist, i, p, x) {
      assert Sent(c, s.out, Commit(p, x));
      SentByRecord(cfg.Quorum(), hist, i, Commit(p, x));
    }
  }

  /** A block of that node, not later than record i, put the Commit out. */
  ghost predicate CommitSentBy(hist: seq<Record>, i: nat, p: Proposal, x: nat) {
    exists k :: 0 <= k <= i < |hist| && hist[k].block.node == x && Commit(p, x) in hist[k].end.out
  }

  lemma SentByRecord(quorum: nat, hist: seq<Record>, i: nat, m: Message)
    requires m.Prepare? || m.Commit?
    requires i < |hist| && Sent(RecordCtx(quorum, hist, i), hist[i].end.out, m)
    ensures exists k :: 0 <= k <= i && hist[k].block.node == m.sender && m in hist[k].end.out
  {
    var c := RecordCtx(quorum, hist, i);
    if !(m.sender == c.block.node && m in hist[i].end.out) {
      var k :| 0 <= k < |c.hist| && c.hist[k].block.node == m.sender && m in c.hist[k].end.out;
      assert hist[k] == c.hist[k];
    }
  }

  // --- chains ---

  ghost predicate NoneBetween(entries: seq<Entry>, x: nat, i: nat, j: nat) {
    forall k | i < k < j && k < |entries| :: entries[k].block.node != x
  }

  /** Node x does not fork: each of its blocks names the one before it as its previous block. */
  ghost predicate Linear(entries: seq<Entry>, x: nat) {
    forall i, j | 0 <= i < j < |entries| && entries[i].block.node == x && entries[j].block.node == x
      && NoneBetween(entries, x, i, j) ::
      entries[j].prev == entries[i].block && entries[i].block.round < entries[j].block.round
  }

  lemma {:induction false} LastBefore(entries: seq<Entry>, x: nat, i: nat, j: nat, k: nat) returns (m: nat)
    requires i < k <= j < |entries| && entries[i].block.node == x && NoneBetween(entries, x, k - 1, j)
    ensures i <= m < j && entries[m].block.node == x && NoneBetween(entries, x, m, j)
    decreases k
  {
    if entries[k - 1].block.node == x {
      m := k - 1;
    } else {
      m := LastBefore(entries, x, i, j, k - 1);
    }
  }

  /** The rounds of a node that does not fork only rise. */
  lemma {:induction false} LinearRounds(entries: seq<Entry>, x: nat, i: nat, j: nat)
    requires Linear(entries, x) && i < j < |entries| && entries[i].block.node == x && entries[j].block.node == x
    ensures entries[i].block.round < entries[j].block.round
    decreases j
  {
    var m := LastBefore(entries, x, i, j, j);
    if i < m {
      LinearRounds(entries, x, i, m);
    }
  }

  /** A block of such a node comes only once. */
  lemma NotRepeated(hist: seq<Record>, entries: seq<Entry>, x: nat, m: nat, j: nat)
    requires Matches(hist, entries) && Linear(entries, x) && m < j <= |hist| && hist[m].block.node == x
    ensures Single(hist[..j], m)
  {
    forall k | 0 <= k < j && k != m ensures hist[k].block != hist[m].block {
      if hist[k].block == hist[m].block {
        if k < m {
          LinearRounds(entries, x, k, m);
        } else {
          LinearRounds(entries, x, m, k);
        }
      }
    }
  }

  ghost predicate ViewsTame(hist: seq<Record>) {
    |hist| < U32_SIZE
  }

  /** From the state of one block of a node to the start of a later one, nothing live is lost. */
  lemma {:induction false} ChainToStart(quorum: nat, hist: seq<Record>, entries: seq<Entry>, low: nat, x: nat, i: nat,
                                        j: nat)
    requires History(quorum, hist) && Linked(hist, low) && Matches(hist, entries) && Linear(entries, x)
    requires i < j < |hist| && hist[i].block.node == x && hist[j].block.node == x
    ensures Grows(hist[i].end, hist[j].start, low)
    ensures ViewsTame(hist) ==> ViewsGrow(hist[i].end.view, hist[j].start.view, low)
    decreases j
  {
    hide History, Grows, ViewsGrow;
    var m := LastBefore(entries, x, i, j, j);
    assert hist[j].prev == hist[m].block;
    NotRepeated(hist, entries, x, m, j);
    assert Grows(hist[m].end, hist[j].start, low);
    if i < m {
      ChainToStart(quorum, hist, entries, low, x, i, m);
      assert RecordOk(quorum, hist, m) by { HistoryAt(quorum, hist, m); }
      WithinBlock(quorum, hist, m, low);
      GrowsTransitive(hist[i].end, hist[m].start, hist[m].end, low);
      GrowsTransitive(hist[i].end, hist[m].end, hist[j].start, low);
      if ViewsTame(hist) {
        ViewsTransitive(hist[i].end.view, hist[m].start.view, hist[m].end.view, low);
        ViewsTransitive(hist[i].end.view, hist[m].end.view, hist[j].start.view, low);
      }
    }
  }

  lemma HistoryAt(quorum: nat, hist: seq<Record>, m: nat)
    requires History(quorum, hist) && m < |hist|
    ensures RecordOk(quorum, hist, m)
  {
  }

  lemma ViewsTransitive(a: map<Slot, nat>, b: map<Slot, nat>, c: map<Slot, nat>, low: nat)
    requires ViewsGrow(a, b, low) && ViewsGrow(b, c, low)
    ensures ViewsGrow(a, c, low)
  {
  }

  lemma WithinBlock(quorum: nat, hist: seq<Record>, m: nat, low: nat)
    requires m < |hist| && RecordOk(quorum, hist, m)
    ensures Grows(hist[m].start, hist[m].end, low)
    ensures ViewsTame(hist) ==> ViewsGrow(hist[m].start.view, hist[m].end.view, low)
  {
    hide CommitsSent, OutBacked, OnceOnly, FinalBacked, PreparesBacked, PrePreparedKnown, OutCalm, ViewsCapped,
      TimeoutsCapped;
  }

  /**
    Along the blocks of a node that does not fork, for rounds that are not yet delivered: vote sets
    only grow, a pre-prepared proposal, a prepared hash and a decision never change, and, as long as
    fewer than 2^32 blocks were interpreted, views never decrease.
   */
  lemma ChainMonotone(cfg: Config, inputs: seq<BlockGraph>, g: Graph, hist: seq<Record>, x: nat, i: nat, j: nat)
    requires Reaches(cfg, inputs, g, hist) && Linear(AllEntries(inputs), x)
    requires i < j < |hist| && hist[i].block.node == x && hist[j].block.node == x
    ensures Grows(hist[i].end, hist[j].end, g.round)
    ensures ViewsTame(hist) ==> ViewsGrow(hist[i].end.view, hist[j].end.view, g.round)
  {
    hide RunAll, AllEntries, Ledger, Grows, ViewsGrow;
    var w := ReachedWorld(cfg, inputs, g, hist, PLAIN);
    ChainToStart(cfg.Quorum(), hist, AllEntries(inputs), g.round, x, i, j);
    WithinBlock(cfg.Quorum(), hist, j, g.round);
    GrowsTransitive(hist[i].end, hist[j].start, hist[j].end, g.round);
    if ViewsTame(hist) {
      ViewsTransitive(hist[i].end.view, hist[j].start.view, hist[j].end.view, g.round);
    }
  }

  /** Two of its blocks never prepare two proposals for one ballot, nor commit one proposal twice. */
  lemma ChainOnce(cfg: Config, inputs: seq<BlockGraph>, g: Graph, hist: seq<Record>, x: nat, i: nat, j: nat,
                  m: Message, m': Message)
    requires Reaches(cfg, inputs, g, hist) && Linear(AllEntries(inputs), x)
    requires i < |hist| && j < |hist| && hist[i].block.node == x && hist[j].block.node == x
    requires m in hist[i].end.out && m' in hist[j].end.out && m.p.round >= g.round
    requires (m.Prepare? && m'.Prepare? && m.p.Key() == m'.p.Key()) || (m.Commit? && m'.Commit? && m.p == m'.p)
    ensures i == j && m == m'
  {
    hide Reaches, AllEntries, Linear, History, Linked, VotersIn;
    var w := ReachedWorld(cfg, inputs, g, hist, PLAIN);
    AccountOf(w, g, AllEntries(inputs));
    OnceInAccount(cfg.Quorum(), w.nodes, hist, AllEntries(inputs), g.round, x, i, j, m, m');
  }

  // --- what agreement needs to know of the records ---

  ghost predicate RecordIn(nodes: set<nat>, r: Record) {
    r.block.node in nodes && forall p | p in r.end.bitsets :: r.end.bitsets[p].prepares <= nodes
  }

  ghost predicate VotersIn(nodes: set<nat>, hist: seq<Record>) {
    forall i | 0 <= i < |hist| :: RecordIn(nodes, hist[i])
  }

  /** Records of the entries, in order, with their evidence, and with nothing lost from round `low` on. */
  ghost predicate Account(quorum: nat, nodes: set<nat>, hist: seq<Record>, entries: seq<Entry>, low: nat) {
    History(quorum, hist) && Linked(hist, low) && Matches(hist, entries) && VotersIn(nodes, hist)
  }

  lemma AccountOf(w: World, g: Graph, entries: seq<Entry>)
    requires RunOk(w, g) && Matches(w.hist, entries)
    ensures Account(w.cfg.Quorum(), w.nodes, w.hist, entries, g.round)
  {
    hide Ledger, Linked, TopsSteady, History, Matches;
    forall i | 0 <= i < |w.hist| ensures RecordIn(w.nodes, w.hist[i]) {
      PlacedAt(w, g, i);
      PlacedIn(w, w.hist[i], w.tops[i]);
    }
  }

  lemma PlacedIn(w: World, r: Record, top: nat)
    requires RecordPlaced(w, r, top)
    ensures RecordIn(w.nodes, r)
  {
    hide SlotsIn, BallotsIn, FlagsIn, TimeoutsIn, MessagesIn;
  }

  lemma OnceInAccount(quorum: nat, nodes: set<nat>, hist: seq<Record>, entries: seq<Entry>, low: nat, x: nat, i: nat,
                      j: nat, m: Message, m': Message)
    requires Account(quorum, nodes, hist, entries, low) && Linear(entries, x)
    requires i < |hist| && j < |hist| && hist[i].block.node == x && hist[j].block.node == x
    requires m in hist[i].end.out && m' in hist[j].end.out && m.p.round >= low
    requires (m.Prepare? && m'.Prepare? && m.p.Key() == m'.p.Key()) || (m.Commit? && m'.Commit? && m.p == m'.p)
    ensures i == j && m == m'
  {
    hide Linked, Linear, Matches, VotersIn;
    if i < j {
      NotAgain(quorum, hist, entries, low, x, i, j, m, m');
    } else if j < i {
      NotAgain(quorum, hist, entries, low, x, j, i, m', m);
    } else {
      HistoryAt(quorum, hist, i);
      SameMessage(quorum, hist, i, m, m');
    }
  }

  lemma SameMessage(quorum: nat, hist: seq<Record>, i: nat, m: Message, m': Message)
    requires i < |hist| && RecordOk(quorum, hist, i) && m in hist[i].end.out && m' in hist[i].end.out
    requires (m.Prepare? && m'.Prepare? && m.p.Key() == m'.p.Key()) || (m.Commit? && m'.Commit? && m.p == m'.p)
    ensures m == m'
  {
    hide Grows, Calm, CommitsSent, FinalBacked;
    var out := hist[i].end.out;
    var a :| 0 <= a < |out| && out[a] == m;
    var b :| 0 <= b < |out| && out[b] == m';
    assert a < b ==> Differ(out[a], out[b]);
    assert b < a ==> Differ(out[b], out[a]);
  }

  /** A later block of the node does not repeat or contradict a vote of an earlier one. */
  lemma NotAgain(quorum: nat, hist: seq<Record>, entries: seq<Entry>, low: nat, x: nat, i: nat, j: nat, m: Message,
                 m': Message)
    requires History(quorum, hist) && Linked(hist, low) && Matches(hist, entries) && Linear(entries, x)
    requires i < j < |hist| && hist[i].block.node == x && hist[j].block.node == x
    requires m in hist[i].end.out && m' in hist[j].end.out && m.p.round >= low
    ensures Differ(m, m')
  {
    hide Matches, Linear;
    ChainToStart(quorum, hist, entries, low, x, i, j);
    HistoryAt(quorum, hist, i);
    HistoryAt(quorum, hist, j);
    hide History, Linked, Calm, CommitsSent, FinalBacked, OnceOnly;
    assert MessageBacked(RecordCtx(quorum, hist, i), hist[i].end, m);
    assert MessageBacked(RecordCtx(quorum, hist, j), hist[j].end, m');
  }

  // --- agreement ---

  /** Two sets of nodes that are together larger than all nodes and the faulty ones share a good node. */
  lemma HonestOverlap(nodes: set<nat>, a: set<nat>, b: set<nat>, byz: set<nat>) returns (y: nat)
    requires a <= nodes && b <= nodes && |a| + |b| > |nodes| + |byz|
    ensures y in a && y in b && y !in byz
  {
    CardinalityGrows(a + b, nodes);
    if forall x | x in a && x in b :: x in byz {
      CardinalityGrows(a * b, byz);
    }
    y :| y in a && y in b && y !in byz;
  }

  /** The quorums are large enough for f faulty nodes exactly when there are 3f+1 nodes. */
  lemma FaultsTolerated(cfg: Config)
    requires cfg.peers != []
    ensures cfg.PeerCount() + cfg.Faults() < 2 * cfg.Quorum() <==> cfg.PeerCount() == 3 * cfg.Faults() + 1
  {
  }

  /** A node's prepare vote for a view-0 proposal: the block exists, and the node made it or sent a Prepare. */
  lemma PrepareEvidence(quorum: nat, hist: seq<Record>, i: nat, p: Proposal, y: nat)
    requires i < |hist| && RecordOk(quorum, hist, i) && ViewsTame(hist) && p.view == 0
    requires p in hist[i].end.bitsets && y in hist[i].end.bitsets[p].prepares
    ensures exists k :: 0 <= k < |hist| && hist[k].block == p.Block()
    ensures y == p.node || exists k :: 0 <= k < |hist| && hist[k].block.node == y && Prepare(p, y) in hist[k].end.out
  {
    hide Sound, PrePreparedKnown, OutCalm, ViewsGrow, ViewsCapped, TimeoutsCapped;
    var c := RecordCtx(quorum, hist, i);
    assert PrepareBacked(c, hist[i].end.out, p, y);
    hide PreparesBacked;
    if p.Block() != c.block {
      var k :| 0 <= k < |c.hist| && c.hist[k].block == p.Block();
      assert hist[k] == c.hist[k];
    }
    hide Known;
    if y != p.node {
      SentByRecord(quorum, hist, i, Prepare(p, y));
    }
  }

  /** A Commit that was put out, with the quorum of nodes that prepared its proposal. */
  lemma CommitQuorum(quorum: nat, nodes: set<nat>, hist: seq<Record>, i: nat, m: Message) returns (voters: set<nat>)
    requires i < |hist| && RecordOk(quorum, hist, i) && RecordIn(nodes, hist[i]) && m.Commit? && m in hist[i].end.out
    ensures m.p in hist[i].end.bitsets && voters == hist[i].end.bitsets[m.p].prepares
    ensures voters <= nodes && |voters| >= quorum
  {
    hide Calm, CommitsSent, FinalBacked, OnceOnly, Grows;
    assert MessageBacked(RecordCtx(quorum, hist, i), hist[i].end, m);
    voters := hist[i].end.bitsets[m.p].prepares;
  }

  /** Blocks of one node that does not fork are the same block if they are of the same round. */
  lemma OneBlockPerRound(hist: seq<Record>, entries: seq<Entry>, a: nat, b: nat)
    requires Matches(hist, entries) && a < |hist| && b < |hist| && Linear(entries, hist[a].block.node)
    requires hist[a].block.node == hist[b].block.node && hist[a].block.round == hist[b].block.round
    ensures a == b
  {
    if a < b {
      LinearRounds(entries, hist[a].block.node, a, b);
    } else if b < a {
      LinearRounds(entries, hist[a].block.node, b, a);
    }
  }

  /** Which nodes may fork without endangering a node's slot; module Tolerance says how far that goes. */
  ghost predicate Tolerated(cfg: Config, entries: seq<Entry>, byz: set<nat>, node: nat) {
    && (forall x | x in Nodes(cfg) && x !in byz :: Linear(entries, x))
    && (node !in byz || cfg.PeerCount() + |byz| < 2 * cfg.Quorum())
  }

  /** Agreement on records: it needs no more of a run than the account of it. */
  lemma CommitsAgree(cfg: Config, hist: seq<Record>, entries: seq<Entry>, low: nat, byz: set<nat>, i: nat, j: nat,
                     m: Message, m': Message)
    requires Account(cfg.Quorum(), Nodes(cfg), hist, entries, low) && ViewsTame(hist) && |Nodes(cfg)| == cfg.PeerCount()
    requires i < |hist| && j < |hist| && m.Commit? && m'.Commit? && m in hist[i].end.out && m' in hist[j].end.out
    requires m.p.At() == m'.p.At() && m.p.view == m'.p.view == 0 && m.p.round >= low
    requires Tolerated(cfg, entries, byz, m.p.node)
    ensures m.p.hash == m'.p.hash
  {
    hide RecordOk, RecordIn, Nodes, Linear, Linked, Matches;
    var nodes, quorum := Nodes(cfg), cfg.Quorum();
    HistoryAt(quorum, hist, i);
    HistoryAt(quorum, hist, j);
    var voters := CommitQuorum(quorum, nodes, hist, i, m);
    var voters' := CommitQuorum(quorum, nodes, hist, j, m');
    if m.p.node in byz {
      var y := HonestOverlap(nodes, voters, voters', byz);
      PrepareEvidence(quorum, hist, i, m.p, y);
      PrepareEvidence(quorum, hist, j, m'.p, y);
      var a :| 0 <= a < |hist| && hist[a].block.node == y && Prepare(m.p, y) in hist[a].end.out;
      var b :| 0 <= b < |hist| && hist[b].block.node == y && Prepare(m'.p, y) in hist[b].end.out;
      OnceInAccount(quorum, nodes, hist, entries, low, y, a, b, Prepare(m.p, y), Prepare(m'.p, y));
    } else {
      var y :| y in voters;
      var y' :| y' in voters';
      PrepareEvidence(quorum, hist, i, m.p, y);
      PrepareEvidence(quorum, hist, j, m'.p, y');
      var a :| 0 <= a < |hist| && hist[a].block == m.p.Block();
      var b :| 0 <= b < |hist| && hist[b].block == m'.p.Block();
      NodeIn(nodes, hist, a);
      OneBlockPerRound(hist, entries, a, b);
    }
  }

  lemma NodeIn(nodes: set<nat>, hist: seq<Record>, i: nat)
    requires VotersIn(nodes, hist) && i < |hist|
    ensures hist[i].block.node in nodes
  {
  }

  /** A commit vote leads to the block that put it out. */
  lemma CommitOrigin(quorum: nat, hist: seq<Record>, i: nat, p: Proposal, x: nat) returns (a: nat)
    requires i < |hist| && RecordOk(quorum, hist, i) && p in hist[i].end.bitsets && x in hist[i].end.bitsets[p].commits
    ensures a <= i && hist[a].block.node == x && Commit(p, x) in hist[a].end.out
  {
    hide Calm, OutBacked, FinalBacked, OnceOnly, Grows;
    assert Sent(RecordCtx(quorum, hist, i), hist[i].end.out, Commit(p, x));
    SentByRecord(quorum, hist, i, Commit(p, x));
    a :| 0 <= a <= i && hist[a].block.node == x && Commit(p, x) in hist[a].end.out;
  }

  lemma VotesAgree(cfg: Config, hist: seq<Record>, entries: seq<Entry>, low: nat, byz: set<nat>, i: nat, j: nat,
                   p: Proposal, q: Proposal)
    requires Account(cfg.Quorum(), Nodes(cfg), hist, entries, low) && ViewsTame(hist) && |Nodes(cfg)| == cfg.PeerCount()
    requires i < |hist| && j < |hist| && p in hist[i].end.bitsets && q in hist[j].end.bitsets
    requires hist[i].end.bitsets[p].commits != {} && hist[j].end.bitsets[q].commits != {}
    requires p.At() == q.At() && p.view == q.view == 0 && p.round >= low
    requires Tolerated(cfg, entries, byz, p.node)
    ensures p.hash == q.hash
  {
    hide RecordOk, VotersIn, Nodes, Linked, Matches, Tolerated;
    var x :| x in hist[i].end.bitsets[p].commits;
    var y :| y in hist[j].end.bitsets[q].commits;
    HistoryAt(cfg.Quorum(), hist, i);
    HistoryAt(cfg.Quorum(), hist, j);
    var a := CommitOrigin(cfg.Quorum(), hist, i, p, x);
    var b := CommitOrigin(cfg.Quorum(), hist, j, q, y);
    CommitsAgree(cfg, hist, entries, low, byz, a, b, Commit(p, x), Commit(q, y));
  }

  /**
    Agreement in view 0. Let all nodes but those of `byz` not fork, and let either the proposing node
    be one that does not fork or `byz` be small enough for the quorums. Then in no run do two blocks,
    of whatever nodes, commit to different hashes for one slot of a round not yet delivered.
   */
  lemma ViewZeroAgreement(cfg: Config, inputs: seq<BlockGraph>, g: Graph, hist: seq<Record>, byz: set<nat>, i: nat,
                          j: nat, m: Message, m': Message)
    requires Reaches(cfg, inputs, g, hist) && |AllEntries(inputs)| < U32_SIZE
    requires i < |hist| && j < |hist| && m.Commit? && m'.Commit? && m in hist[i].end.out && m' in hist[j].end.out
    requires m.p.At() == m'.p.At() && m.p.view == m'.p.view == 0 && m.p.round >= g.round
    requires Tolerated(cfg, AllEntries(inputs), byz, m.p.node)
    ensures m.p.hash == m'.p.hash
  {
    hide RunAll, AllEntries, RunOk, Account, Tolerated, InputOk, Bitsets.InRange;
    var w := ReachedWorld(cfg, inputs, g, hist, PLAIN);
    AccountOf(w, g, AllEntries(inputs));
    CommitsAgree(cfg, hist, AllEntries(inputs), g.round, byz, i, j, m, m');
  }

  /** Hence two states that hold a commit quorum, or any commit vote at all, in view 0 agree. */
  lemma QuorumAgreement(cfg: Config, inputs: seq<BlockGraph>, g: Graph, hist: seq<Record>, byz: set<nat>, i: nat,
                        j: nat, p: Proposal, q: Proposal)
    requires Reaches(cfg, inputs, g, hist) && |AllEntries(inputs)| < U32_SIZE
    requires i < |hist| && j < |hist| && p in hist[i].end.bitsets && q in hist[j].end.bitsets
    requires hist[i].end.bitsets[p].commits != {} && hist[j].end.bitsets[q].commits != {}
    requires p.At() == q.At() && p.view == q.view == 0 && p.round >= g.round
    requires Tolerated(cfg, AllEntries(inputs), byz, p.node)
    ensures p.hash == q.hash
  {
    hide RunAll, AllEntries, RunOk, Account, Tolerated, InputOk, Bitsets.InRange;
    var w := ReachedWorld(cfg, inputs, g, hist, PLAIN);
    AccountOf(w, g, AllEntries(inputs));
    VotesAgree(cfg, hist, AllEntries(inputs), g.round, byz, i, j, p, q);
  }

  lemma RunHistory(w: World, g: Graph)
    requires RunOk(w, g)
    ensures History(w.cfg.Quorum(), w.hist)
  {
  }

  // --- pruning ---

  /** Nothing in the state is about a round from `round` on. */
  ghost predicate Spent(s: State, round: nat) {
    && (forall p | p in s.bitsets :: p.round < round)
    && (forall k | k in s.view :: k.round < round)
    && (forall k | k in s.prePrepared :: k.round < round)
    && (forall k | k in s.prepared :: k.round < round)
    && (forall k | k in s.viewChanged :: k.round < round)
    && (forall k | k in s.hnv :: k.round < round)
    && (forall k | k in s.final :: k.round < round)
    && (forall m | m in s.out :: m.p.round < round)
    && (forall r, t | r in s.timeouts && t in s.timeouts[r] :: t.round < round)
  }

  lemma ZoneSpent(z: Zone, s: State, round: nat)
    requires StateIn(z, s) && z.top < round
    ensures Spent(s, round)
  {
  }

  /**
    The state of a block that was interpreted once is still stored, or speaks only of rounds that have been
    delivered. So is the latest state of any block, if blocks that come back find no new links.
   */
  lemma PruningLosesNothing(cfg: Config, inputs: seq<BlockGraph>, g: Graph, hist: seq<Record>, i: nat)
    requires Reaches(cfg, inputs, g, hist) && i < |hist| && Latest(hist, i)
    requires Single(hist, i) || Steady(AllEntries(inputs))
    ensures (hist[i].block in g.statess && g.statess[hist[i].block] == hist[i].end) || Spent(hist[i].end, g.round)
  {
    hide RunAll, AllEntries, WellFormed, Spent, StateIn, Steady, Single;
    var terms := Terms(Steady(AllEntries(inputs)), false, false);
    var w := ReachedWorld(cfg, inputs, g, hist, terms);
    hide BlocksBounded, AllInterpreted, Current, ResolvedOk, LogRounds, LogTold, RoundsOk, MaxOk, Linked, TopsSteady,
      History;
    assert RecordKept(w, g, i) && RecordPlaced(w, w.hist[i], w.tops[i]);
    var b := hist[i].block;
    if b in g.statess {
      var k: nat :| StoredAs(hist, k, b, g.statess[b]);
      assert k == i;
    } else {
      ZoneSpent(Zone(w.nodes, w.tops[i]), hist[i].end, g.round);
    }
  }

  /** Every vote is of a node of the configuration, so every bit that is set is within the bitset. */
  lemma VotersAreNodes(cfg: Config, inputs: seq<BlockGraph>, g: Graph, hist: seq<Record>, i: nat, p: Proposal)
    requires Reaches(cfg, inputs, g, hist) && i < |hist| && p in hist[i].end.bitsets
    ensures p.node in Nodes(cfg)
    ensures hist[i].end.bitsets[p].prepares <= Nodes(cfg) && hist[i].end.bitsets[p].commits <= Nodes(cfg)
    ensures forall x | x in Nodes(cfg) :: Bitsets.InRange(cfg.PeerCount(), x)
  {
    hide RunAll, AllEntries;
    var w := ReachedWorld(cfg, inputs, g, hist, PLAIN);
    hide Ledger, Linked, TopsSteady, History;
    PlacedAt(w, g, i);
  }

  // --- delivery ---

  /** The decisions of all nodes for a round, each taken by an interpreted block on a commit quorum. */
  ghost predicate RoundDecisions(cfg: Config, hist: seq<Record>, round: nat, hashes: map<nat, Hash>) {
    && hashes.Keys == Nodes(cfg)
    && forall n | n in hashes :: CertifiedDecision(cfg, hist, Slot(n, round), hashes[n])
  }

  ghost predicate CertifiedDecision(cfg: Config, hist: seq<Record>, k: Slot, hash: Hash) {
    exists i :: 0 <= i < |hist| && k in hist[i].end.final && hist[i].end.final[k] == hash
      && Certified(cfg.Quorum(), hist[i].end.bitsets, k, hash)
  }

  /**
    The callback is called for the rounds after the last interpreted one, without gap or repeat. For
    each round it gets, in sorted order, exactly the non-empty hashes decided for all the nodes, every
    decision backed by a commit quorum; and no round that is decided for all is left waiting.
   */
  lemma DeliveredInOrder(cfg: Config, inputs: seq<BlockGraph>, g: Graph, hist: seq<Record>, i: nat)
    requires Reaches(cfg, inputs, g, hist) && i < |g.log|
    ensures g.log[i].round == cfg.lastInterpreted + 1 + i && g.round == cfg.lastInterpreted + 1 + |g.log|
    ensures exists hashes ::
      && RoundDecisions(cfg, hist, g.log[i].round, hashes)
      && Listing.ListsRound(g.log[i].blocks, g.log[i].round, hashes)
    ensures !Full(cfg, g, g.round)
  {
    hide RunAll, AllEntries, WellFormed;
    var w := ReachedWorld(cfg, inputs, g, hist, PLAIN);
    hide BlocksBounded, AllInterpreted, Current, ResolvedOk, RoundsOk, MaxOk, HistPlaced, Linked, TopsSteady, Stored;
    assert ToldOk(w, map[], g.log[i]);
    var round := g.log[i].round;
    var hashes: map<nat, Hash> :|
      && hashes.Keys == w.nodes
      && AllDecided(w.hist, map[], round, hashes)
      && g.log[i].blocks == Listing.ListingOf(Listing.Chosen(round, hashes));
    Listing.ListedIsRound(g.log[i].blocks, round, hashes);
    hide LogTold, Listing.IsListing, Listing.ListsRound;
    forall n | n in hashes ensures CertifiedDecision(cfg, hist, Slot(n, round), hashes[n]) {
      DecisionCertified(cfg, hist, Slot(n, round), hashes[n]);
    }
    assert RoundDecisions(cfg, hist, round, hashes);
  }

  /**
    What a block reads of a link that was interpreted once: all that it has put out, or, once the link's state is
    gone, nothing, and then all of it is about rounds that are delivered.
   */
  lemma LinksRead(cfg: Config, inputs: seq<BlockGraph>, g: Graph, hist: seq<Record>, i: nat)
    requires Reaches(cfg, inputs, g, hist) && i < |hist| && Single(hist, i)
    ensures
      || OutputOf(g, hist[i].block) == hist[i].end.out
      || (OutputOf(g, hist[i].block) == [] && forall m | m in hist[i].end.out :: m.p.round < g.round)
  {
    hide RunAll, AllEntries, WellFormed;
    var w := ReachedWorld(cfg, inputs, g, hist, PLAIN);
    hide BlocksBounded, AllInterpreted, Current, ResolvedOk, LogRounds, LogTold, RoundsOk, MaxOk, Linked, TopsSteady,
      History, Matches, DataIn;
    var b := hist[i].block;
    assert RecordKept(w, g, i) && RecordPlaced(w, hist[i], w.tops[i]);
    if b in g.statess {
      var k: nat :| StoredAs(hist, k, b, g.statess[b]);
      assert k == i;
    } else {
      assert MessagesIn(Zone(w.nodes, w.tops[i]), hist[i].end.out);
    }
  }

  lemma DecisionCertified(cfg: Config, hist: seq<Record>, k: Slot, hash: Hash)
    requires History(cfg.Quorum(), hist) && Decided(hist, map[], k, hash)
    ensures CertifiedDecision(cfg, hist, k, hash)
  {
    hide Grows, Calm, OutBacked, OnceOnly, CommitsSent;
    var i :| 0 <= i < |hist| && k in hist[i].end.final && hist[i].end.final[k] == hash;
    assert RecordOk(cfg.Quorum(), hist, i);
  }

  /**
    With own blocks of consecutive rounds, whatever else comes back: the kept ones are consecutive and end
    with the newest; what the callback was told to be consumed never decreases, and is last the round just
    before the first kept block.
   */
  lemma ConsumedInOrder(cfg: Config, inputs: seq<BlockGraph>, g: Graph, hist: seq<Record>)
    requires Reaches(cfg, inputs, g, hist) && inputs != [] && OwnRounds(inputs)
    ensures Consecutive(g.blocks)
    ensures g.blocks != [] ==> g.blocks[|g.blocks| - 1].data == inputs[|inputs| - 1]
    ensures forall i, j | 0 <= i <= j < |g.log| :: g.log[i].consumed <= g.log[j].consumed
    ensures g.log != [] && g.blocks == [] ==> g.log[|g.log| - 1].consumed == inputs[|inputs| - 1].block.round
    ensures g.log != [] && g.blocks != [] ==> g.log[|g.log| - 1].consumed + 1 == g.blocks[0].data.block.round
  {
    hide RunAll, AllEntries, WellFormed, Largest;
    var w := ReachedWorld(cfg, inputs, g, hist, Terms(false, true, false));
    hide BlocksBounded, AllInterpreted, ResolvedOk, MaxOk, Linked, TopsSteady, HistPlaced, Stored, History, LogTold,
      LogRounds;
  }

  /**
    If moreover no own block is a dependency of another, the max of own blocks never decreases, so that
    pruning up to a round, which stops at the first larger max, removes exactly the blocks that may go.
   */
  lemma PrunedExactly(cfg: Config, inputs: seq<BlockGraph>, g: Graph, hist: seq<Record>, round: nat)
    requires Reaches(cfg, inputs, g, hist) && OwnRounds(inputs) && OwnApart(inputs)
    ensures Rising(g.blocks)
    ensures forall i | 0 <= i < |g.blocks| :: g.blocks[i].max <= round <==> i < PruneCount(g.blocks, round)
  {
    hide RunAll, AllEntries, WellFormed, PruneCount;
    var w := ReachedWorld(cfg, inputs, g, hist, Terms(false, true, true));
    hide BlocksBounded, AllInterpreted, Current, ResolvedOk, Linked, TopsSteady, HistPlaced, Stored, History, LogTold,
      LogRounds, RoundsOk;
    forall i | 0 <= i < |g.blocks| ensures g.blocks[i].max <= round <==> i < PruneCount(g.blocks, round) {
      PruneIsExact(g.blocks, round, i);
    }
  }
}
