/**
  Runs in which own blocks come back as dependencies. The max of a block is then recorded a second time, from
  what is known of its links by then. It falls below the first one only if the run started after the links of
  the first own block, and by then all of them have come, back to blocks without links. Unless that happens the
  maxima of own blocks never decrease.
 */
module Echoes {
  import opened Bytes
  import opened Ids
  import opened Interpreter
  import opened Delivery
  import opened Runs
  import Listing

  // --- the block graphs ---

  /** Dependency j of block graph t is own block n, come back. */
  ghost predicate Echo(all: seq<BlockGraph>, n: int, t: int, j: int) {
    0 <= n < |all| && Given(all, t, j) && all[t].deps[j].block == all[n].block
  }

  ghost predicate Unechoed(all: seq<BlockGraph>, n: int) {
    forall t, j :: !Echo(all, n, t, j)
  }

  ghost predicate Comes(all: seq<BlockGraph>, n: int, t: int) {
    exists j :: Echo(all, n, t, j)
  }

  ghost predicate Successive(all: seq<BlockGraph>) {
    && OwnRounds(all)
    && (all != [] ==> 1 <= all[0].block.round && all[0].prev.round < all[0].block.round)
    && (forall n | 0 < n < |all| :: all[n].prev == all[n - 1].block)
  }

  ghost predicate Given(all: seq<BlockGraph>, t: int, j: int) {
    0 <= t < |all| && 0 <= j < |all[t].deps|
  }

  ghost predicate OnceEach(all: seq<BlockGraph>) {
    forall t, j, t', j' | Given(all, t, j) && Given(all, t', j') && all[t].deps[j].block == all[t'].deps[j'].block ::
      t == t' && j == j'
  }

  /** What comes back is an earlier own block, with its links. */
  ghost predicate Same(all: seq<BlockGraph>) {
    forall n, t, j | Echo(all, n, t, j) ::
      n < t && all[t].deps[j].deps == Blocks(all[n].deps) && all[t].deps[j].prev == all[n].prev
  }

  ghost predicate Before(t: int, j: int, t': int, j': int) {
    t < t' || (t == t' && j < j')
  }

  ghost predicate Good(all: seq<BlockGraph>) {
    Successive(all) && OnceEach(all) && Same(all)
  }

  /** There is a block before the first own one, and it is not known when that one is admitted. */
  ghost predicate RootOpen(all: seq<BlockGraph>) {
    all != [] && all[0].block.round != 1 && forall j | 0 <= j < |all[0].deps| :: all[0].deps[j].block != all[0].prev
  }

  ghost predicate GivenBefore(all: seq<BlockGraph>, t: int, j: int, x: BlockID) {
    exists t', j' | Given(all, t', j') && Before(t', j', t, j) :: all[t'].deps[j'].block == x
  }

  /**
    With own block k its predecessor comes back, and by then all dependencies have come after everything that
    they link to: so the first own block and the one before it have come back as well.
   */
  ghost predicate Whole(all: seq<BlockGraph>, k: int) {
    && RootOpen(all) && 0 < k < |all| && Comes(all, k - 1, k)
    && forall t, j, x | Given(all, t, j) && t <= k && x in Links(all[t].deps[j]) :: GivenBefore(all, t, j, x)
  }

  lemma OwnDistinct(all: seq<BlockGraph>, n: nat, m: nat)
    requires Successive(all) && n < m < |all|
    ensures all[n].block != all[m].block && all[n].block.round < all[m].block.round
  {
    RoundsApart(all, n, m);
  }

  // --- the record ---

  /**
    What is known of the past: for each own block its max, and the current round and the number of own blocks
    that had gone when it was admitted; and the maxima of its dependencies.
   */
  datatype Past = Past(all: seq<BlockGraph>, ms: seq<nat>, rs: seq<nat>, cs: seq<nat>, vs: seq<seq<nat>>)

  function Bound(max: map<BlockID, nat>, round: nat, x: BlockID): nat {
    if x in max then max[x] else round
  }

  ghost predicate Shape(p: Past, cut: nat, round: nat) {
    && |p.all| == |p.rs| == |p.cs| == |p.vs| && |p.ms| <= |p.all| <= |p.ms| + 1 && cut <= |p.ms|
    && (forall t | 0 <= t < |p.all| ::
          |p.vs[t]| == |p.all[t].deps| && p.cs[t] <= cut && p.cs[t] <= t && p.rs[0] <= p.rs[t] <= round)
    && (forall n | 0 <= n < |p.ms| :: p.all[n].block.round <= p.ms[n])
  }

  /** Dependencies: what is on record is what was recorded, unless its block graph or own block has gone. */
  ghost predicate DepOk(p: Past, max: map<BlockID, nat>, round: nat, cut: nat, t: int, j: int)
    requires Shape(p, cut, round) && Given(p.all, t, j)
  {
    var x, v := p.all[t].deps[j].block, p.vs[t][j];
    && (x in max ==> max[x] == v && t >= cut)
    && (x !in max ==> t < |p.ms| && (t < cut || exists k | 0 <= k < cut :: p.all[k].block == x))
    && (t < |p.ms| ==> v <= p.ms[t])
  }

  ghost predicate DepsOk(p: Past, max: map<BlockID, nat>, round: nat, cut: nat)
    requires Shape(p, cut, round)
  {
    forall t, j | Given(p.all, t, j) :: DepOk(p, max, round, cut, t, j)
  }

  /** Own blocks are on record until they go; those that have not come back with the max of their admission. */
  ghost predicate OwnOk(p: Past, max: map<BlockID, nat>, cut: nat, n: nat)
    requires n < |p.ms| <= |p.all|
  {
    var x := p.all[n].block;
    && (n >= cut ==> x in max)
    && (Unechoed(p.all, n) ==> if n >= cut then max[x] == p.ms[n] else x !in max)
  }

  ghost predicate OwnsOk(p: Past, max: map<BlockID, nat>, cut: nat)
    requires |p.ms| <= |p.all|
  {
    forall n | 0 <= n < |p.ms| :: OwnOk(p, max, cut, n)
  }

  /** Own blocks from the first on without any link. */
  ghost predicate Bare(all: seq<BlockGraph>, n: int) {
    0 <= n < |all| && forall i | 0 <= i <= n :: all[i].deps == []
  }

  /** The block before the first own one has no max beyond b, up to block graph t. */
  ghost predicate Covers(p: Past, t: int, b: nat) {
    forall s, i | Given(p.all, s, i) && s <= t && p.all[s].deps[i].block == p.all[0].prev ::
      s < |p.vs| && i < |p.vs[s]| && p.vs[s][i] <= b
  }

  /** A max that is no more than the first one of own block n, the round, or the block before the first own one. */
  ghost predicate Capped(p: Past, n: int, t: int, round: nat, v: nat)
    requires 0 <= n < |p.ms|
  {
    forall b: nat | p.ms[n] <= b && round <= b && Covers(p, t, b) :: v <= b
  }

  /** What an own block can fall to when its max is recorded again: the round at which the run started. */
  ghost function Least(p: Past, v: nat): nat
    requires p.rs != []
  {
    if RootOpen(p.all) then Larger(v, p.rs[0]) else v
  }

  /** What is recorded for an own block that comes back. */
  ghost predicate EchoOk(p: Past, n: int, t: int, j: int)
    requires 0 <= n < |p.ms| && 0 <= t < |p.rs| == |p.cs| == |p.vs| && 0 <= j < |p.vs[t]|
  {
    var v := p.vs[t][j];
    && p.ms[n] <= Least(p, v)
    && Capped(p, n, t, p.rs[t], v)
    && (forall s | n < s <= t && p.cs[s] == s :: p.rs[s] <= v || Bare(p.all, n))
  }

  ghost predicate EchoesOk(p: Past, cut: nat, round: nat)
    requires Shape(p, cut, round)
  {
    forall n, t, j | Echo(p.all, n, t, j) :: n < |p.ms| && EchoOk(p, n, t, j)
  }

  /** Where the max of an own block came from. */
  ghost predicate MaxFrom(p: Past, n: nat)
    requires n < |p.ms| <= |p.all| == |p.rs| == |p.cs| == |p.vs|
  {
    var m := p.ms[n];
    || m <= p.all[n].block.round
    || (exists j | 0 <= j < |p.vs[n]| :: m <= p.vs[n][j])
    || (n > 0 && p.cs[n] < n && m <= p.ms[n - 1])
    || (n > 0 && p.cs[n] == n && m <= p.rs[n])
    || (n == 0 && m <= p.rs[0] && RootOpen(p.all))
  }

  ghost predicate MaximaOk(p: Past, cut: nat, round: nat)
    requires Shape(p, cut, round)
  {
    && (forall n | 0 <= n < |p.ms| :: MaxFrom(p, n))
    && (forall n | 0 <= n < cut :: p.ms[n] <= round)
    && (forall n, s | 0 <= s < |p.cs| && 0 <= n < p.cs[s] :: p.ms[n] <= p.rs[s])
    && (forall n | 0 < n < |p.ms| && p.cs[n] < n :: p.ms[n - 1] <= p.ms[n])
  }

  /** With own blocks alone no more than their rounds are delivered. */
  ghost predicate BareOk(p: Past, cut: nat, round: nat)
    requires Shape(p, cut, round)
  {
    forall n | 0 < n < |p.all| && p.cs[n] == n && Bare(p.all, n - 1) :: p.rs[n] <= p.all[n].block.round
  }

  /** Given before, with a max below the round at which the run started. */
  ghost predicate GivenLow(p: Past, t: int, j: int, x: BlockID)
    requires |p.vs| == |p.all| && p.rs != [] && forall s | 0 <= s < |p.all| :: |p.vs[s]| == |p.all[s].deps|
  {
    exists t', j' | Given(p.all, t', j') && Before(t', j', t, j) ::
      p.all[t'].deps[j'].block == x && p.vs[t'][j'] < p.rs[0]
  }

  ghost predicate LinksLow(p: Past, t: int, j: int)
    requires |p.vs| == |p.all| && p.rs != [] && forall s | 0 <= s < |p.all| :: |p.vs[s]| == |p.all[s].deps|
    requires Given(p.all, t, j)
  {
    forall x | x in Links(p.all[t].deps[j]) :: GivenLow(p, t, j, x)
  }

  ghost predicate LowDep(p: Past, t: int, j: int)
    requires |p.vs| == |p.cs| == |p.all| && p.rs != [] && forall s | 0 <= s < |p.all| :: |p.vs[s]| == |p.all[s].deps|
    requires Given(p.all, t, j)
  {
    && (p.vs[t][j] < p.rs[0] ==> LinksLow(p, t, j))
    && (p.cs[t] == 0 && p.all[t].deps[j].block.round < p.rs[0] && LinksLow(p, t, j) ==> p.vs[t][j] < p.rs[0])
  }

  /** A max is so low only by links that are; but own blocks are not admitted with one. */
  ghost predicate LowOk(p: Past, cut: nat, round: nat)
    requires Shape(p, cut, round)
  {
    RootOpen(p.all) ==>
      && (forall t, j | Given(p.all, t, j) :: LowDep(p, t, j))
      && (forall n | 0 <= n < |p.ms| :: p.rs[0] <= p.ms[n])
  }

  /** Nothing else is on record. */
  ghost predicate Listed(p: Past, x: BlockID) {
    || (exists n | 0 <= n < |p.ms| && n < |p.all| :: p.all[n].block == x)
    || (exists t, j | Given(p.all, t, j) :: p.all[t].deps[j].block == x)
  }

  ghost predicate KeysOk(p: Past, max: map<BlockID, nat>) {
    forall x | x in max :: Listed(p, x)
  }

  ghost predicate Kept(p: Past, max: map<BlockID, nat>, round: nat, cut: nat) {
    && Shape(p, cut, round) && DepsOk(p, max, round, cut) && OwnsOk(p, max, cut) && EchoesOk(p, cut, round)
    && MaximaOk(p, cut, round) && BareOk(p, cut, round) && LowOk(p, cut, round) && KeysOk(p, max)
  }

  // --- an own block that comes back ---

  lemma {:induction false} MaxOverAtMost(max: map<BlockID, nat>, round: nat, links: seq<BlockID>, m: nat, bound: nat)
    requires m <= bound && forall x | x in links :: Bound(max, round, x) <= bound
    ensures MaxOver(max, round, links, m) <= bound
    decreases |links|
  {
    if links != [] {
      assert links[0] in links;
      MaxOverAtMost(max, round, links[1..], Larger(m, Bound(max, round, links[0])), bound);
    }
  }

  /** A dependency of own block n, when n comes back. */
  lemma DepBound(p: Past, max: map<BlockID, nat>, round: nat, cut: nat, n: nat, j: nat)
    requires Kept(p, max, round, cut) && n < |p.ms| && j < |p.all[n].deps|
    ensures
      var b := Bound(max, round, p.all[n].deps[j].block);
      b <= Larger(p.ms[n], round) && (n < cut ==> b == round)
  {
    hide OwnsOk, EchoesOk, MaximaOk, BareOk, LowOk, KeysOk;
    assert Given(p.all, n, j);
    assert DepOk(p, max, round, cut, n, j);
  }

  /** Its max is covered by what covers the links and the own blocks that are kept before n. */
  lemma DepCovered(p: Past, max: map<BlockID, nat>, round: nat, cut: nat, n: nat, j: nat, b: nat)
    requires Kept(p, max, round, cut) && Good(p.all) && n < |p.ms| && j < |p.all[n].deps|
    requires forall i | 0 <= i < |p.all[n].deps| :: Bound(max, round, p.all[n].deps[i].block) <= b
    requires forall s | cut <= s < n :: p.ms[s] <= b
    ensures p.vs[n][j] <= b
  {
    hide OwnsOk, BareOk, LowOk, KeysOk, Good, Covers, MaxFrom;
    assert Given(p.all, n, j) && DepOk(p, max, round, cut, n, j);
    var x := p.all[n].deps[j].block;
    if x !in max && n >= cut {
      var k :| 0 <= k < cut && p.all[k].block == x;
      assert Echo(p.all, k, n, j) && EchoOk(p, k, n, j);
      RootCovered(p, max, round, cut, n, b);
    }
  }

  lemma RootCovered(p: Past, max: map<BlockID, nat>, round: nat, cut: nat, n: nat, b: nat)
    requires Kept(p, max, round, cut) && Good(p.all) && cut <= n < |p.ms| && round <= b
    requires forall i | 0 <= i < |p.all[n].deps| :: Bound(max, round, p.all[n].deps[i].block) <= b
    requires forall s | cut <= s < n :: p.ms[s] <= b
    ensures Covers(p, n, b)
  {
    hide OwnsOk, EchoesOk, BareOk, LowOk, KeysOk, MaxFrom;
    forall s, i | Given(p.all, s, i) && s <= n && p.all[s].deps[i].block == p.all[0].prev
      ensures s < |p.vs| && i < |p.vs[s]| && p.vs[s][i] <= b
    {
      assert DepOk(p, max, round, cut, s, i);
      if s == n && p.all[0].prev !in max {
        var k :| 0 <= k < cut && p.all[k].block == p.all[0].prev;
        RootIsNotOwn(p.all, k);
      }
    }
  }

  lemma RootIsNotOwn(all: seq<BlockGraph>, k: nat)
    requires Good(all) && k < |all|
    ensures all[k].block != all[0].prev
  {
    if k > 0 {
      OwnDistinct(all, 0, k);
    }
  }

  /** The own block before it. */
  lemma OwnBound(p: Past, max: map<BlockID, nat>, round: nat, cut: nat, n: nat)
    requires Kept(p, max, round, cut) && n + 1 < |p.ms|
    ensures
      var b := Bound(max, round, p.all[n].block);
      && p.ms[n] <= Least(p, b)
      && (p.cs[n + 1] == n + 1 ==> p.rs[n + 1] <= b || Bare(p.all, n))
      && (forall s | n < s < |p.cs| && p.cs[s] == s :: p.rs[s] <= b || Bare(p.all, n))
  {
    hide BareOk, LowOk, KeysOk, MaxFrom, Bare, Covers, RootOpen;
    var x := p.all[n].block;
    assert OwnOk(p, max, cut, n);
    if Unechoed(p.all, n) {
      hide DepsOk, EchoesOk, Unechoed;
    } else {
      var t, j :| Echo(p.all, n, t, j);
      assert Given(p.all, t, j) && DepOk(p, max, round, cut, t, j);
      assert EchoOk(p, n, t, j);
      hide DepsOk, EchoesOk, OwnsOk, Unechoed;
    }
  }

  lemma OwnCovered(p: Past, max: map<BlockID, nat>, round: nat, cut: nat, n: nat, c: nat)
    requires Kept(p, max, round, cut) && n + 1 < |p.ms| && p.ms[n + 1] <= c && round <= c && Covers(p, |p.all| - 1, c)
    ensures Bound(max, round, p.all[n].block) <= c
  {
    hide BareOk, LowOk, KeysOk, MaxFrom, Bare, RootOpen;
    assert p.ms[n] <= c;
    assert OwnOk(p, max, cut, n);
    if Unechoed(p.all, n) {
      hide DepsOk, EchoesOk, Unechoed, Covers;
    } else {
      var t, j :| Echo(p.all, n, t, j);
      assert Given(p.all, t, j) && DepOk(p, max, round, cut, t, j);
      assert EchoOk(p, n, t, j);
      hide DepsOk, EchoesOk, OwnsOk, Unechoed, MaximaOk;
      assert Covers(p, t, c);
    }
  }

  /** The block before the first own one. */
  lemma RootBound(p: Past, max: map<BlockID, nat>, round: nat, cut: nat, c: nat)
    requires Kept(p, max, round, cut) && p.ms != [] && Good(p.all) && round <= c && Covers(p, |p.all| - 1, c)
    ensures Bound(max, round, p.all[0].prev) <= c
  {
    hide OwnsOk, EchoesOk, MaximaOk, BareOk, LowOk, Good;
    var x := p.all[0].prev;
    if x in max {
      var t, j := RootGiven(p, max);
      assert DepOk(p, max, round, cut, t, j);
    }
  }

  lemma RootGiven(p: Past, max: map<BlockID, nat>) returns (t: int, j: int)
    requires KeysOk(p, max) && Good(p.all) && p.all != [] && p.all[0].prev in max
    ensures Given(p.all, t, j) && p.all[t].deps[j].block == p.all[0].prev
  {
    hide Good;
    var x := p.all[0].prev;
    assert Listed(p, x);
    if n :| 0 <= n < |p.ms| && n < |p.all| && p.all[n].block == x {
      RootIsNotOwn(p.all, n);
    }
    t, j :| Given(p.all, t, j) && p.all[t].deps[j].block == x;
  }

  /** The links of an own block: what they are bounded by when it comes back. */
  lemma LinkBound(p: Past, max: map<BlockID, nat>, round: nat, cut: nat, n: nat, d: Dep, x: BlockID, c: nat)
    requires Kept(p, max, round, cut) && Good(p.all) && n < |p.ms| && Returning(p, n, d) && x in Links(d)
    requires p.ms[n] <= c && round <= c && Covers(p, |p.all| - 1, c)
    ensures Bound(max, round, x) <= c
  {
    hide Kept, Good, Covers;
    KeptAt(p, max, round, cut, n);
    if x in d.deps {
      var j :| 0 <= j < |p.all[n].deps| && p.all[n].deps[j].block == x;
      DepBound(p, max, round, cut, n, j);
    } else if n > 0 {
      PrevIs(p.all, n);
      OwnCovered(p, max, round, cut, n - 1, c);
    } else {
      RootBound(p, max, round, cut, c);
    }
  }

  /** The dependency is own block n. */
  ghost predicate Returning(p: Past, n: nat, d: Dep)
    requires |p.ms| <= |p.all|
  {
    n < |p.ms| && d == Dep(p.all[n].block, Blocks(p.all[n].deps), p.all[n].prev)
  }

  lemma GoodParts(all: seq<BlockGraph>)
    requires Good(all)
    ensures Successive(all) && OnceEach(all) && Same(all)
  {
  }

  lemma PrevIs(all: seq<BlockGraph>, n: nat)
    requires Good(all) && 0 < n < |all|
    ensures all[n].prev == all[n - 1].block && all[n].block.round != 1
    ensures all[n - 1].block.round + 1 == all[n].block.round
  {
    RoundsApart(all, 0, n);
  }

  /** Its max, recorded again, is at least the first one, unless that was the round at which the run started. */
  lemma NotBelow(p: Past, max: map<BlockID, nat>, round: nat, cut: nat, n: nat, d: Dep)
    requires Kept(p, max, round, cut) && Good(p.all) && n < |p.ms| && Returning(p, n, d)
    ensures p.rs != [] && p.ms[n] <= Least(p, MaxOver(max, round, Links(d), d.block.round))
  {
    hide Kept, Good, MaxOver, RootOpen;
    var m := MaxOver(max, round, Links(d), d.block.round);
    MaxOverAtLeast(max, round, Links(d), d.block.round);
    assert forall x | x in Links(d) :: Bound(max, round, x) <= m;
    KeptAt(p, max, round, cut, n);
    if n > 0 {
      PrevIs(p.all, n);
      OwnBound(p, max, round, cut, n - 1);
      assert d.prev in Links(d);
    }
    if j :| 0 <= j < |p.vs[n]| && p.ms[n] <= p.vs[n][j] {
      forall i | 0 <= i < |p.all[n].deps| ensures Bound(max, round, p.all[n].deps[i].block) <= m {
        assert p.all[n].deps[i].block in d.deps;
      }
      forall s | cut <= s < n ensures p.ms[s] <= Least(p, m) {
        KeptRises(p, max, round, cut, s, n - 1);
      }
      DepCovered(p, max, round, cut, n, j, Least(p, m));
    }
  }

  lemma KeptRises(p: Past, max: map<BlockID, nat>, round: nat, cut: nat, i: nat, j: nat)
    requires Kept(p, max, round, cut) && cut <= i <= j < |p.ms|
    ensures p.ms[i] <= p.ms[j]
  {
    hide DepsOk, OwnsOk, EchoesOk, BareOk, LowOk, KeysOk, MaximaOk;
    MaximaRise(p, cut, round, i, j);
  }

  lemma KeptAt(p: Past, max: map<BlockID, nat>, round: nat, cut: nat, n: nat)
    requires Kept(p, max, round, cut) && n < |p.ms|
    ensures Shape(p, cut, round) && MaxFrom(p, n) && p.all[n].block.round <= p.ms[n]
    ensures n > 0 && p.cs[n] == n && Bare(p.all, n - 1) ==> p.rs[n] <= p.all[n].block.round
    ensures p.rs[0] <= p.rs[n] <= round
  {
    hide DepsOk, OwnsOk, EchoesOk, LowOk, KeysOk;
  }

  /** Nor is it below the round at which all own blocks up to it had gone, but for own blocks alone. */
  lemma AboveRound(p: Past, max: map<BlockID, nat>, round: nat, cut: nat, n: nat, d: Dep, s: nat)
    requires Kept(p, max, round, cut) && Good(p.all) && n < |p.ms| && Returning(p, n, d) && n < s < |p.cs|
    requires p.cs[s] == s
    ensures p.rs[s] <= MaxOver(max, round, Links(d), d.block.round) || Bare(p.all, n)
  {
    hide Kept, Good, MaxOver;
    MaxOverAtLeast(max, round, Links(d), d.block.round);
    KeptAt(p, max, round, cut, n);
    assert p.cs[s] <= cut && p.rs[s] <= round;
    if p.all[n].deps != [] {
      DepBound(p, max, round, cut, n, 0);
      assert d.deps[0] in Links(d);
    } else if n > 0 {
      PrevIs(p.all, n);
      OwnBound(p, max, round, cut, n - 1);
      assert d.prev in Links(d);
    }
  }

  lemma EchoRecorded(p: Past, max: map<BlockID, nat>, round: nat, cut: nat, n: nat, d: Dep)
    requires Kept(p, max, round, cut) && Good(p.all) && n < |p.ms| && Returning(p, n, d)
    ensures
      var m := MaxOver(max, round, Links(d), d.block.round);
      && p.rs != [] && p.ms[n] <= Least(p, m)
      && Capped(p, n, |p.all| - 1, round, m)
      && (forall s | n < s < |p.cs| && p.cs[s] == s :: p.rs[s] <= m || Bare(p.all, n))
  {
    hide Kept, Good, MaxOver, Bare, Returning, Covers, Least;
    var m := MaxOver(max, round, Links(d), d.block.round);
    NotBelow(p, max, round, cut, n, d);
    KeptAt(p, max, round, cut, n);
    assert d.block.round <= p.ms[n] by { ReturningRound(p, n, d); }
    var k := |p.all| - 1;
    forall c: nat | p.ms[n] <= c && round <= c && Covers(p, k, c) ensures m <= c {
      forall x | x in Links(d) ensures Bound(max, round, x) <= c {
        LinkBound(p, max, round, cut, n, d, x, c);
      }
      MaxOverAtMost(max, round, Links(d), d.block.round, c);
    }
    forall s | n < s < |p.cs| && p.cs[s] == s ensures p.rs[s] <= m || Bare(p.all, n) {
      AboveRound(p, max, round, cut, n, d, s);
    }
  }

  lemma ReturningRound(p: Past, n: nat, d: Dep)
    requires |p.ms| <= |p.all| && n < |p.ms| && Returning(p, n, d)
    ensures d.block == p.all[n].block
  {
  }

  // --- one more dependency ---

  /** The block graph that is being admitted, with one more dependency. */
  function Grown(all: seq<BlockGraph>, d: Dep): seq<BlockGraph>
    requires all != []
  {
    var k := |all| - 1;
    all[..k] + [all[k].(deps := all[k].deps + [d])]
  }

  function Noted(p: Past, d: Dep, m: nat): Past
    requires p.all != [] && |p.vs| == |p.all|
  {
    var k := |p.all| - 1;
    p.(all := Grown(p.all, d), vs := p.vs[..k] + [p.vs[k] + [m]])
  }

  lemma GrownGiven(all: seq<BlockGraph>, d: Dep, t: int, j: int)
    requires all != []
    ensures
      var k, all' := |all| - 1, Grown(all, d);
      && (Given(all', t, j) <==> Given(all, t, j) || (t == k && j == |all[k].deps|))
      && (Given(all, t, j) ==> all'[t].deps[j] == all[t].deps[j])
      && (t == k && j == |all[k].deps| ==> all'[t].deps[j] == d)
  {
  }

  lemma GrownEcho(all: seq<BlockGraph>, d: Dep, n: int, t: int, j: int)
    requires all != []
    ensures
      var k, all' := |all| - 1, Grown(all, d);
      Echo(all', n, t, j) <==>
        Echo(all, n, t, j) || (0 <= n <= k && t == k && j == |all[k].deps| && d.block == all[n].block)
  {
    hide Grown;
    GrownGiven(all, d, t, j);
    GrownSame(all, d);
  }

  lemma GrownSame(all: seq<BlockGraph>, d: Dep)
    requires all != []
    ensures
      var k, all' := |all| - 1, Grown(all, d);
      && |all'| == |all| && (forall n | 0 <= n < k :: all'[n] == all[n])
      && all'[k] == all[k].(deps := all[k].deps + [d])
  {
  }

  lemma GoodBefore(all: seq<BlockGraph>, d: Dep)
    requires all != [] && Good(Grown(all, d))
    ensures Good(all)
  {
    var all' := Grown(all, d);
    GrownSame(all, d);
    hide Grown, Echo, Given;
    forall t, j ensures Given(all, t, j) ==> Given(all', t, j) && all'[t].deps[j] == all[t].deps[j] {
      GrownGiven(all, d, t, j);
    }
    forall n, t, j ensures Echo(all, n, t, j) ==> Echo(all', n, t, j) {
      GrownEcho(all, d, n, t, j);
    }
    GrownParts(all, d);
  }

  lemma GrownParts(all: seq<BlockGraph>, d: Dep)
    requires all != [] && Good(Grown(all, d))
    requires forall t, j :: Given(all, t, j) ==>
      Given(Grown(all, d), t, j) && Grown(all, d)[t].deps[j] == all[t].deps[j]
    requires forall n, t, j :: Echo(all, n, t, j) ==> Echo(Grown(all, d), n, t, j)
    ensures Good(all)
  {
    var all' := Grown(all, d);
    GrownSame(all, d);
    hide Grown;
    forall n, t, j | Echo(all, n, t, j)
      ensures n < t && all[t].deps[j].deps == Blocks(all[n].deps) && all[t].deps[j].prev == all[n].prev
    {
      assert Echo(all', n, t, j);
      assert n < t;
    }
    forall n | 0 < n < |all| ensures all[n].prev == all[n - 1].block
      && all[n].block.round == all[n - 1].block.round + 1
    {
      assert all'[n].prev == all'[n - 1].block;
    }
  }

  /** A block graph is being admitted. */
  ghost predicate Open(p: Past, round: nat, cut: nat) {
    && |p.all| == |p.rs| == |p.cs| == |p.vs| == |p.ms| + 1
    && p.rs[|p.ms|] == round && p.cs[|p.ms|] == cut && |p.vs[|p.ms|]| == |p.all[|p.ms|].deps|
  }

  lemma NotedSame(p: Past, d: Dep, m: nat)
    requires p.all != [] && |p.vs| == |p.all|
    ensures
      var p', k := Noted(p, d, m), |p.all| - 1;
      && p'.all == Grown(p.all, d) && p' == p.(all := p'.all, vs := p'.vs) && |p'.vs| == |p.vs|
      && (forall t | 0 <= t < k :: p'.vs[t] == p.vs[t]) && p'.vs[k] == p.vs[k] + [m]
  {
  }

  lemma NotAgain(all: seq<BlockGraph>, d: Dep, t: int, j: int)
    requires all != [] && Good(Grown(all, d)) && Given(all, t, j)
    ensures all[t].deps[j].block != d.block
  {
    var k := |all| - 1;
    GoodParts(Grown(all, d));
    hide Grown, Good;
    GrownGiven(all, d, t, j);
    GrownGiven(all, d, k, |all[k].deps|);
  }

  lemma NotedDeps(p: Past, max: map<BlockID, nat>, round: nat, cut: nat, d: Dep, m: nat)
    requires Kept(p, max, round, cut) && Open(p, round, cut) && Good(Grown(p.all, d))
    ensures var p' := Noted(p, d, m); Shape(p', cut, round) && DepsOk(p', max[d.block := m], round, cut)
  {
    hide OwnsOk, EchoesOk, MaximaOk, BareOk, LowOk, KeysOk;
    var p', max' := Noted(p, d, m), max[d.block := m];
    NotedSame(p, d, m);
    GrownSame(p.all, d);
    hide Noted, Grown, Good;
    assert Shape(p', cut, round);
    forall t, j | Given(p'.all, t, j) ensures DepOk(p', max', round, cut, t, j) {
      GrownGiven(p.all, d, t, j);
      if Given(p.all, t, j) {
        var x := p.all[t].deps[j].block;
        assert DepOk(p, max, round, cut, t, j);
        NotAgain(p.all, d, t, j);
        assert p'.vs[t][j] == p.vs[t][j];
        if x !in max && t >= cut {
          var n :| 0 <= n < cut && p.all[n].block == x;
          assert p'.all[n].block == x;
        }
      }
    }
  }

  lemma NotedOwns(p: Past, max: map<BlockID, nat>, round: nat, cut: nat, d: Dep, m: nat)
    requires Kept(p, max, round, cut) && Open(p, round, cut)
    ensures var p' := Noted(p, d, m); |p'.ms| <= |p'.all| && OwnsOk(p', max[d.block := m], cut)
  {
    hide DepsOk, EchoesOk, MaximaOk, BareOk, LowOk, KeysOk;
    var p', max', k := Noted(p, d, m), max[d.block := m], |p.ms|;
    NotedSame(p, d, m);
    GrownSame(p.all, d);
    hide Noted, Grown, Echo;
    forall n | 0 <= n < |p'.ms| ensures OwnOk(p', max', cut, n) {
      assert OwnOk(p, max, cut, n);
      if Unechoed(p'.all, n) {
        forall t, j ensures !Echo(p.all, n, t, j) {
          GrownEcho(p.all, d, n, t, j);
        }
        GrownEcho(p.all, d, n, k, |p.all[k].deps|);
        assert !Echo(p'.all, n, k, |p.all[k].deps|);
      }
    }
  }

  lemma NotedEchoes(p: Past, max: map<BlockID, nat>, round: nat, cut: nat, d: Dep)
    requires Kept(p, max, round, cut) && Open(p, round, cut) && Good(Grown(p.all, d))
    ensures
      var p' := Noted(p, d, MaxOver(max, round, Links(d), d.block.round));
      Shape(p', cut, round) && EchoesOk(p', cut, round)
  {
    hide DepsOk, OwnsOk, MaximaOk, BareOk, LowOk, KeysOk, MaxOver, Covers, RootOpen, Bare;
    var m := MaxOver(max, round, Links(d), d.block.round);
    var p', k := Noted(p, d, m), |p.ms|;
    NotedDeps(p, max, round, cut, d, m);
    NotedSame(p, d, m);
    GrownSame(p.all, d);
    hide Noted, Grown, Good;
    forall n, t, j | Echo(p'.all, n, t, j) ensures n < |p'.ms| && EchoOk(p', n, t, j) {
      GrownEcho(p.all, d, n, t, j);
      if Echo(p.all, n, t, j) {
        assert EchoOk(p, n, t, j);
        assert p'.vs[t][j] == p.vs[t][j];
      } else {
        EchoIsReturning(p, d, n);
        GoodBefore(p.all, d);
        EchoRecorded(p, max, round, cut, n, d);
      }
      BareSame(p.all, d, n);
      RootSame(p.all, d);
      forall b: nat | Covers(p', t, b) ensures Covers(p, t, b) {
        CoversLess(p, d, m, t, b);
      }
    }
  }

  lemma RootSame(all: seq<BlockGraph>, d: Dep)
    requires |all| > 1
    ensures RootOpen(Grown(all, d)) <==> RootOpen(all)
  {
    GrownSame(all, d);
    hide Grown;
  }

  lemma CoversLess(p: Past, d: Dep, m: nat, t: int, b: nat)
    requires |p.all| > 1 && |p.vs| == |p.all| && Covers(Noted(p, d, m), t, b)
    requires forall s | 0 <= s < |p.all| :: |p.vs[s]| == |p.all[s].deps|
    ensures Covers(p, t, b)
  {
    var p' := Noted(p, d, m);
    NotedSame(p, d, m);
    GrownSame(p.all, d);
    hide Noted, Grown;
    forall s, i | Given(p.all, s, i) && s <= t && p.all[s].deps[i].block == p.all[0].prev
      ensures p.vs[s][i] <= b
    {
      GrownGiven(p.all, d, s, i);
      assert p'.vs[s][i] == p.vs[s][i];
    }
  }

  lemma BareSame(all: seq<BlockGraph>, d: Dep, n: int)
    requires all != [] && n < |all| - 1
    ensures Bare(Grown(all, d), n) <==> Bare(all, n)
  {
    GrownSame(all, d);
    hide Grown;
  }

  lemma EchoIsReturning(p: Past, d: Dep, n: int)
    requires |p.all| == |p.ms| + 1 && Good(Grown(p.all, d)) && 0 <= n < |p.all| && d.block == p.all[n].block
    ensures n < |p.ms| && Returning(p, n, d)
  {
    var k, all' := |p.ms|, Grown(p.all, d);
    var j' := |p.all[k].deps|;
    GrownSame(p.all, d);
    GrownEcho(p.all, d, n, k, j');
    GrownGiven(p.all, d, k, j');
    GoodParts(all');
    hide Grown;
    assert Echo(all', n, k, j');
  }

  lemma NotedMaxima(p: Past, max: map<BlockID, nat>, round: nat, cut: nat, d: Dep, m: nat)
    requires Kept(p, max, round, cut) && Open(p, round, cut) && Shape(Noted(p, d, m), cut, round)
    ensures MaximaOk(Noted(p, d, m), cut, round)
  {
    hide DepsOk, OwnsOk, EchoesOk, BareOk, LowOk, KeysOk, RootOpen;
    var p' := Noted(p, d, m);
    NotedSame(p, d, m);
    GrownSame(p.all, d);
    hide Noted, Grown;
    forall n | 0 <= n < |p'.ms| ensures MaxFrom(p', n) {
      assert MaxFrom(p, n);
      RootSame(p.all, d);
    }
  }

  lemma NotedBare(p: Past, max: map<BlockID, nat>, round: nat, cut: nat, d: Dep, m: nat)
    requires Kept(p, max, round, cut) && Open(p, round, cut) && Shape(Noted(p, d, m), cut, round)
    ensures BareOk(Noted(p, d, m), cut, round)
  {
    hide DepsOk, OwnsOk, EchoesOk, MaximaOk, LowOk, KeysOk, Bare;
    var p' := Noted(p, d, m);
    NotedSame(p, d, m);
    GrownSame(p.all, d);
    hide Noted, Grown;
    forall n | 0 <= n < |p.ms| ensures Bare(p'.all, n) <==> Bare(p.all, n) {
      BareSame(p.all, d, n);
    }
  }

  /** Low values stay so, for the same reasons. */
  lemma NotedLowSame(p: Past, d: Dep, m: nat, t: int, j: int)
    requires |p.vs| == |p.cs| == |p.all| && p.rs != [] && forall s | 0 <= s < |p.all| :: |p.vs[s]| == |p.all[s].deps|
    requires Given(p.all, t, j)
    ensures
      var p' := Noted(p, d, m);
      && |p'.vs| == |p'.cs| == |p'.all| && (forall s | 0 <= s < |p'.all| :: |p'.vs[s]| == |p'.all[s].deps|)
      && Given(p'.all, t, j) && (LowDep(p', t, j) <==> LowDep(p, t, j))
  {
    var p' := Noted(p, d, m);
    NotedSame(p, d, m);
    GrownSame(p.all, d);
    GrownGiven(p.all, d, t, j);
    assert p'.vs[t][j] == p.vs[t][j];
    hide Noted, Grown, Links;
    forall x ensures GivenLow(p', t, j, x) <==> GivenLow(p, t, j, x) {
      NotedGivenLow(p, d, m, t, j, x);
    }
  }

  lemma NotedGivenLow(p: Past, d: Dep, m: nat, t: int, j: int, x: BlockID)
    requires |p.vs| == |p.all| && p.rs != [] && forall s | 0 <= s < |p.all| :: |p.vs[s]| == |p.all[s].deps|
    requires p.all != [] && (t < |p.all| - 1 || (t == |p.all| - 1 && j <= |p.all[t].deps|))
    ensures
      var p' := Noted(p, d, m);
      && |p'.vs| == |p'.all| && (forall s | 0 <= s < |p'.all| :: |p'.vs[s]| == |p'.all[s].deps|)
      && (GivenLow(p', t, j, x) <==> GivenLow(p, t, j, x))
  {
    var p' := Noted(p, d, m);
    NotedSame(p, d, m);
    GrownSame(p.all, d);
    hide Noted, Grown;
    if GivenLow(p, t, j, x) {
      var t', j' :| Given(p.all, t', j') && Before(t', j', t, j) && p.all[t'].deps[j'].block == x
        && p.vs[t'][j'] < p.rs[0];
      GrownGiven(p.all, d, t', j');
      assert p'.vs[t'][j'] == p.vs[t'][j'];
    }
    if GivenLow(p', t, j, x) {
      var t', j' :| Given(p'.all, t', j') && Before(t', j', t, j) && p'.all[t'].deps[j'].block == x
        && p'.vs[t'][j'] < p'.rs[0];
      GrownGiven(p.all, d, t', j');
      assert p'.vs[t'][j'] == p.vs[t'][j'];
    }
  }

  /** A link that is on record with a low max was given. */
  lemma LowIsGiven(p: Past, max: map<BlockID, nat>, round: nat, cut: nat, x: BlockID)
    requires Kept(p, max, round, cut) && Open(p, round, cut) && RootOpen(p.all) && Bound(max, round, x) < p.rs[0]
    ensures GivenLow(p, |p.ms|, |p.all[|p.ms|].deps|, x)
  {
    hide EchoesOk, MaximaOk, BareOk, RootOpen, LowDep;
    assert x in max && Listed(p, x);
    if n :| 0 <= n < |p.ms| && n < |p.all| && p.all[n].block == x {
      assert OwnOk(p, max, cut, n);
      assert !Unechoed(p.all, n);
      var t, j :| Echo(p.all, n, t, j);
      assert Given(p.all, t, j);
    }
    var t, j :| Given(p.all, t, j) && p.all[t].deps[j].block == x;
    assert DepOk(p, max, round, cut, t, j);
    assert Before(t, j, |p.ms|, |p.all[|p.ms|].deps|);
  }

  /** As long as nothing has gone, what was given with a low max is on record. */
  lemma GivenIsLow(p: Past, max: map<BlockID, nat>, round: nat, cut: nat, t: int, j: int, x: BlockID)
    requires Kept(p, max, round, cut) && cut == 0 && p.rs != [] && GivenLow(p, t, j, x)
    ensures Bound(max, round, x) < p.rs[0]
  {
    hide OwnsOk, EchoesOk, MaximaOk, BareOk, LowOk, KeysOk;
    var t', j' :| Given(p.all, t', j') && Before(t', j', t, j) && p.all[t'].deps[j'].block == x
      && p.vs[t'][j'] < p.rs[0];
    assert DepOk(p, max, round, cut, t', j');
  }

  lemma NotedLowDep(p: Past, max: map<BlockID, nat>, round: nat, cut: nat, d: Dep)
    requires Kept(p, max, round, cut) && Open(p, round, cut) && RootOpen(p.all)
    ensures
      var m, k := MaxOver(max, round, Links(d), d.block.round), |p.ms|;
      var p' := Noted(p, d, m);
      Shape(p', cut, round) && Given(p'.all, k, |p.all[k].deps|) && LowDep(p', k, |p.all[k].deps|)
  {
    hide Kept, MaxOver, RootOpen, GivenLow, Links;
    var m, k := MaxOver(max, round, Links(d), d.block.round), |p.ms|;
    var p', j := Noted(p, d, m), |p.all[k].deps|;
    KeptKeys(p, max, round, cut);
    NotedSame(p, d, m);
    GrownSame(p.all, d);
    GrownGiven(p.all, d, k, j);
    hide Noted, Grown;
    MaxOverAtLeast(max, round, Links(d), d.block.round);
    forall x ensures GivenLow(p', k, j, x) <==> GivenLow(p, k, j, x) {
      NotedGivenLow(p, d, m, k, j, x);
    }
    forall x | x in Links(d) && m < p.rs[0] ensures GivenLow(p, k, j, x) {
      LowIsGiven(p, max, round, cut, x);
    }
    if p.cs[k] == 0 && d.block.round < p.rs[0] && LinksLow(p', k, j) {
      forall x | x in Links(d) ensures Bound(max, round, x) <= p.rs[0] - 1 {
        GivenIsLow(p, max, round, cut, k, j, x);
      }
      MaxOverAtMost(max, round, Links(d), d.block.round, p.rs[0] - 1);
    }
  }

  lemma NotedLow(p: Past, max: map<BlockID, nat>, round: nat, cut: nat, d: Dep)
    requires Kept(p, max, round, cut) && Open(p, round, cut)
    requires Shape(Noted(p, d, MaxOver(max, round, Links(d), d.block.round)), cut, round)
    ensures LowOk(Noted(p, d, MaxOver(max, round, Links(d), d.block.round)), cut, round)
  {
    hide DepsOk, OwnsOk, EchoesOk, MaximaOk, BareOk, KeysOk, MaxOver, LowDep;
    var m := MaxOver(max, round, Links(d), d.block.round);
    var p' := Noted(p, d, m);
    NotedSame(p, d, m);
    hide Noted;
    if RootOpen(p'.all) {
      RootBefore(p.all, d);
      NotedLowDep(p, max, round, cut, d);
      forall t, j | Given(p'.all, t, j) ensures LowDep(p', t, j) {
        GrownGiven(p.all, d, t, j);
        if Given(p.all, t, j) {
          NotedLowSame(p, d, m, t, j);
        }
      }
    }
  }

  lemma RootBefore(all: seq<BlockGraph>, d: Dep)
    requires all != [] && RootOpen(Grown(all, d))
    ensures RootOpen(all)
  {
    var all' := Grown(all, d);
    GrownSame(all, d);
    hide Grown;
    forall j | 0 <= j < |all[0].deps| ensures all[0].deps[j].block != all[0].prev {
      assert all'[0].deps[j] == all[0].deps[j];
    }
  }

  lemma NotedKeys(p: Past, max: map<BlockID, nat>, round: nat, cut: nat, d: Dep, m: nat)
    requires Kept(p, max, round, cut) && Open(p, round, cut)
    ensures KeysOk(Noted(p, d, m), max[d.block := m])
  {
    hide Shape, DepsOk, OwnsOk, EchoesOk, MaximaOk, BareOk, LowOk;
    var p', k := Noted(p, d, m), |p.ms|;
    NotedSame(p, d, m);
    GrownSame(p.all, d);
    hide Noted, Grown, Given;
    GrownGiven(p.all, d, k, |p.all[k].deps|);
    forall x | Listed(p, x) ensures Listed(p', x) {
      if n :| 0 <= n < |p.ms| && n < |p.all| && p.all[n].block == x {
        assert p'.all[n].block == x;
      } else {
        var t, j :| Given(p.all, t, j) && p.all[t].deps[j].block == x;
        GrownGiven(p.all, d, t, j);
      }
    }
    assert Listed(p', d.block);
  }

  lemma NotedKept(p: Past, max: map<BlockID, nat>, round: nat, cut: nat, d: Dep)
    requires Kept(p, max, round, cut) && Open(p, round, cut) && Good(Grown(p.all, d))
    ensures
      var m := MaxOver(max, round, Links(d), d.block.round);
      var p' := Noted(p, d, m);
      Kept(p', max[d.block := m], round, cut) && Open(p', round, cut)
  {
    hide Kept, Good, MaxOver, DepsOk, OwnsOk, EchoesOk, MaximaOk, BareOk, LowOk, KeysOk;
    var m := MaxOver(max, round, Links(d), d.block.round);
    NotedDeps(p, max, round, cut, d, m);
    NotedOwns(p, max, round, cut, d, m);
    NotedEchoes(p, max, round, cut, d);
    NotedMaxima(p, max, round, cut, d, m);
    NotedBare(p, max, round, cut, d, m);
    NotedLow(p, max, round, cut, d);
    NotedKeys(p, max, round, cut, d, m);
    KeptFrom(Noted(p, d, m), max[d.block := m], round, cut);
  }

  lemma KeptFrom(p: Past, max: map<BlockID, nat>, round: nat, cut: nat)
    requires Shape(p, cut, round) && DepsOk(p, max, round, cut) && OwnsOk(p, max, cut) && EchoesOk(p, cut, round)
    requires MaximaOk(p, cut, round) && BareOk(p, cut, round) && LowOk(p, cut, round) && KeysOk(p, max)
    ensures Kept(p, max, round, cut)
  {
  }

  // --- a block graph ---

  /** Own blocks alone: the last is of the highest round. */
  lemma {:induction false} BareTop(all: seq<BlockGraph>, n: nat)
    requires Successive(all) && Bare(all, n)
    ensures TopRound(all[..n + 1]) <= all[n].block.round
  {
    assert all[..n + 1][..n] == all[..n];
    if n > 0 {
      BareTop(all, n - 1);
    }
  }

  function Opened(p: Past, bg: BlockGraph, round: nat, cut: nat): Past {
    Past(p.all + [bg.(deps := [])], p.ms, p.rs + [round], p.cs + [cut], p.vs + [[]])
  }

  /** Admission begins: nothing is recorded yet. */
  lemma OpenedKept(p: Past, max: map<BlockID, nat>, round: nat, cut: nat, bg: BlockGraph)
    requires Kept(p, max, round, cut) && |p.all| == |p.ms| && Good(p.all + [bg.(deps := [])])
    requires cut > 0 ==> round <= TopRound(p.all) + 1
    ensures Kept(Opened(p, bg, round, cut), max, round, cut) && Open(Opened(p, bg, round, cut), round, cut)
  {
    hide Kept, Good, DepsOk, OwnsOk, EchoesOk, MaximaOk, BareOk, LowOk, KeysOk, TopRound;
    OpenedDeps(p, max, round, cut, bg);
    assert KeysOk(p, max) && |p.all| == |p.vs| by { KeptKeys(p, max, round, cut); }
    OpenedKeys(p, max, round, cut, bg);
    OpenedOwns(p, max, round, cut, bg);
    OpenedMaxima(p, max, round, cut, bg);
    OpenedBare(p, max, round, cut, bg);
    OpenedLow(p, max, round, cut, bg);
    KeptFrom(Opened(p, bg, round, cut), max, round, cut);
  }

  lemma KeptKeys(p: Past, max: map<BlockID, nat>, round: nat, cut: nat)
    requires Kept(p, max, round, cut)
    ensures KeysOk(p, max) && Shape(p, cut, round)
  {
  }

  lemma OpenedGiven(p: Past, bg: BlockGraph, round: nat, cut: nat, t: int, j: int)
    requires |p.vs| == |p.all|
    ensures
      var p' := Opened(p, bg, round, cut);
      && (Given(p'.all, t, j) <==> Given(p.all, t, j))
      && (Given(p.all, t, j) ==> p'.all[t] == p.all[t] && p'.vs[t] == p.vs[t])
  {
  }

  lemma OpenedDeps(p: Past, max: map<BlockID, nat>, round: nat, cut: nat, bg: BlockGraph)
    requires Kept(p, max, round, cut) && |p.all| == |p.ms|
    ensures
      var p' := Opened(p, bg, round, cut);
      Shape(p', cut, round) && DepsOk(p', max, round, cut)
  {
    hide OwnsOk, EchoesOk, MaximaOk, BareOk, LowOk, KeysOk;
    var p' := Opened(p, bg, round, cut);
    assert Shape(p', cut, round);
    hide Given;
    forall t, j ensures Given(p'.all, t, j) <==> Given(p.all, t, j) {
      OpenedGiven(p, bg, round, cut, t, j);
    }
    forall t, j | Given(p'.all, t, j) ensures DepOk(p', max, round, cut, t, j) {
      OpenedGiven(p, bg, round, cut, t, j);
      assert DepOk(p, max, round, cut, t, j);
      var x := p.all[t].deps[j].block;
      if x !in max && t >= cut {
        var k :| 0 <= k < cut && p.all[k].block == x;
        assert p'.all[k].block == x;
      }
    }
  }

  lemma OpenedKeys(p: Past, max: map<BlockID, nat>, round: nat, cut: nat, bg: BlockGraph)
    requires KeysOk(p, max) && |p.all| == |p.ms| == |p.vs|
    ensures KeysOk(Opened(p, bg, round, cut), max)
  {
    var p' := Opened(p, bg, round, cut);
    forall x | x in max ensures Listed(p', x) {
      assert Listed(p, x);
      if n :| 0 <= n < |p.ms| && n < |p.all| && p.all[n].block == x {
        assert p'.all[n].block == x;
      } else {
        var t, j :| Given(p.all, t, j) && p.all[t].deps[j].block == x;
        OpenedGiven(p, bg, round, cut, t, j);
      }
    }
  }

  lemma OpenedEcho(p: Past, bg: BlockGraph, round: nat, cut: nat, n: int, t: int, j: int)
    requires |p.vs| == |p.all| && Good(Opened(p, bg, round, cut).all)
    ensures Echo(Opened(p, bg, round, cut).all, n, t, j) <==> Echo(p.all, n, t, j)
  {
    OpenedGiven(p, bg, round, cut, t, j);
    GoodParts(Opened(p, bg, round, cut).all);
  }

  lemma OpenedOwns(p: Past, max: map<BlockID, nat>, round: nat, cut: nat, bg: BlockGraph)
    requires Kept(p, max, round, cut) && |p.all| == |p.ms| && Good(Opened(p, bg, round, cut).all)
    requires Shape(Opened(p, bg, round, cut), cut, round)
    ensures
      var p' := Opened(p, bg, round, cut);
      OwnsOk(p', max, cut) && EchoesOk(p', cut, round)
  {
    hide DepsOk, MaximaOk, BareOk, LowOk, KeysOk, Good, Covers;
    var p' := Opened(p, bg, round, cut);
    forall n, t, j ensures Echo(p'.all, n, t, j) <==> Echo(p.all, n, t, j) {
      OpenedEcho(p, bg, round, cut, n, t, j);
    }
    forall n | 0 <= n < |p'.ms| ensures OwnOk(p', max, cut, n) {
      assert OwnOk(p, max, cut, n);
    }
    forall n, t, j | Echo(p'.all, n, t, j) ensures n < |p'.ms| && EchoOk(p', n, t, j) {
      assert Echo(p.all, n, t, j) && EchoOk(p, n, t, j);
      assert Bare(p'.all, n) <==> Bare(p.all, n);
      assert RootOpen(p'.all) <==> RootOpen(p.all);
      forall b: nat | Covers(p', t, b) ensures Covers(p, t, b) {
        OpenedCovers(p, bg, round, cut, t, b);
      }
    }
  }

  lemma OpenedCovers(p: Past, bg: BlockGraph, round: nat, cut: nat, t: int, b: nat)
    requires |p.vs| == |p.all| && p.all != [] && Covers(Opened(p, bg, round, cut), t, b)
    ensures Covers(p, t, b)
  {
    var p' := Opened(p, bg, round, cut);
    forall s, i | Given(p.all, s, i) && s <= t && p.all[s].deps[i].block == p.all[0].prev
      ensures s < |p.vs| && i < |p.vs[s]| && p.vs[s][i] <= b
    {
      OpenedGiven(p, bg, round, cut, s, i);
    }
  }

  lemma OpenedGivenLow(p: Past, bg: BlockGraph, round: nat, cut: nat, t: int, j: int, x: BlockID)
    requires |p.vs| == |p.all| && p.rs != [] && forall s | 0 <= s < |p.all| :: |p.vs[s]| == |p.all[s].deps|
    ensures
      var p' := Opened(p, bg, round, cut);
      && |p'.vs| == |p'.all| && (forall s | 0 <= s < |p'.all| :: |p'.vs[s]| == |p'.all[s].deps|)
      && (GivenLow(p', t, j, x) <==> GivenLow(p, t, j, x))
  {
    var p' := Opened(p, bg, round, cut);
    if GivenLow(p, t, j, x) {
      var t', j' :| Given(p.all, t', j') && Before(t', j', t, j) && p.all[t'].deps[j'].block == x
        && p.vs[t'][j'] < p.rs[0];
      OpenedGiven(p, bg, round, cut, t', j');
    }
    if GivenLow(p', t, j, x) {
      var t', j' :| Given(p'.all, t', j') && Before(t', j', t, j) && p'.all[t'].deps[j'].block == x
        && p'.vs[t'][j'] < p'.rs[0];
      OpenedGiven(p, bg, round, cut, t', j');
    }
  }

  lemma OpenedLow(p: Past, max: map<BlockID, nat>, round: nat, cut: nat, bg: BlockGraph)
    requires Kept(p, max, round, cut) && |p.all| == |p.ms| && Shape(Opened(p, bg, round, cut), cut, round)
    ensures LowOk(Opened(p, bg, round, cut), cut, round)
  {
    hide DepsOk, OwnsOk, EchoesOk, MaximaOk, BareOk, KeysOk, GivenLow, Links;
    var p' := Opened(p, bg, round, cut);
    forall t, j ensures Given(p'.all, t, j) <==> Given(p.all, t, j) {
      OpenedGiven(p, bg, round, cut, t, j);
    }
    if p.all != [] && RootOpen(p'.all) {
      assert RootOpen(p.all);
      forall t, j | Given(p'.all, t, j) ensures LowDep(p', t, j) {
        OpenedGiven(p, bg, round, cut, t, j);
        assert LowDep(p, t, j);
        forall x ensures GivenLow(p', t, j, x) <==> GivenLow(p, t, j, x) {
          OpenedGivenLow(p, bg, round, cut, t, j, x);
        }
      }
    }
  }

  lemma OpenedMaxima(p: Past, max: map<BlockID, nat>, round: nat, cut: nat, bg: BlockGraph)
    requires Kept(p, max, round, cut) && |p.all| == |p.ms| && Shape(Opened(p, bg, round, cut), cut, round)
    ensures MaximaOk(Opened(p, bg, round, cut), cut, round)
  {
    hide DepsOk, OwnsOk, EchoesOk, BareOk, LowOk, KeysOk;
    var p' := Opened(p, bg, round, cut);
    forall n | 0 <= n < |p'.ms| ensures MaxFrom(p', n) {
      assert MaxFrom(p, n);
    }
  }

  lemma OpenedBare(p: Past, max: map<BlockID, nat>, round: nat, cut: nat, bg: BlockGraph)
    requires Kept(p, max, round, cut) && |p.all| == |p.ms| && Shape(Opened(p, bg, round, cut), cut, round)
    requires Good(Opened(p, bg, round, cut).all) && (cut > 0 ==> round <= TopRound(p.all) + 1)
    ensures BareOk(Opened(p, bg, round, cut), cut, round)
  {
    hide DepsOk, OwnsOk, EchoesOk, MaximaOk, LowOk, KeysOk, Good, TopRound;
    var p', k := Opened(p, bg, round, cut), |p.ms|;
    assert forall n | 0 <= n < k :: Bare(p'.all, n) <==> Bare(p.all, n);
    if k > 0 && cut == k && Bare(p.all, k - 1) {
      PrevIs(p'.all, k);
      GoodParts(p'.all);
      BareTop(p'.all, k - 1);
      assert p'.all[..k] == p.all;
    }
  }

  // --- all its dependencies ---

  function GrownBy(all: seq<BlockGraph>, deps: seq<Dep>): seq<BlockGraph>
    requires all != []
  {
    var k := |all| - 1;
    all[..k] + [all[k].(deps := all[k].deps + deps)]
  }

  lemma GrownOne(all: seq<BlockGraph>, d: Dep, deps: seq<Dep>)
    requires all != []
    ensures GrownBy(Grown(all, d), deps) == GrownBy(all, [d] + deps) && GrownBy(all, [d]) == Grown(all, d)
    ensures GrownBy(all, []) == all
    ensures Grown(GrownBy(all, deps), d) == GrownBy(all, deps + [d])
  {
    var k := |all| - 1;
    assert all[k].deps + [d] + deps == all[k].deps + ([d] + deps)
      && all[k].deps + deps + [d] == all[k].deps + (deps + [d]);
    assert all[k].deps + [] == all[k].deps;
  }

  lemma {:induction false} GoodShorter(all: seq<BlockGraph>, deps: seq<Dep>, n: nat)
    requires all != [] && n <= |deps| && Good(GrownBy(all, deps))
    ensures Good(GrownBy(all, deps[..n]))
    decreases |deps|
  {
    hide Good, GrownBy, Grown;
    if n == |deps| {
      assert deps[..n] == deps;
    } else {
      var m := |deps| - 1;
      assert deps[..m] + [deps[m]] == deps && deps[..m][..n] == deps[..n];
      GrownOne(all, deps[m], deps[..m]);
      assert GrownBy(all, deps[..m]) != [] by { GrownLength(all, deps[..m]); }
      GoodBefore(GrownBy(all, deps[..m]), deps[m]);
      GoodShorter(all, deps[..m], n);
    }
  }

  lemma GrownLength(all: seq<BlockGraph>, deps: seq<Dep>)
    requires all != []
    ensures |GrownBy(all, deps)| == |all|
  {
  }

  /** The new values are at most `top`, which is one of them unless it was so before. */
  ghost predicate Topped(before: seq<nat>, vs: seq<nat>, top: nat, top': nat) {
    && |before| <= |vs| && top <= top'
    && (forall j | |before| <= j < |vs| :: vs[j] <= top')
    && (top' == top || exists j | |before| <= j < |vs| :: vs[j] == top')
  }

  lemma {:induction false} RecordKept(p: Past, max: map<BlockID, nat>, round: nat, cut: nat, deps: seq<Dep>, top: nat)
    returns (p': Past)
    requires Kept(p, max, round, cut) && Open(p, round, cut) && Good(GrownBy(p.all, deps))
    ensures var (max', top') := RecordMax(max, round, deps, top); Kept(p', max', round, cut) && Open(p', round, cut)
    ensures p'.all == GrownBy(p.all, deps) && p' == p.(all := p'.all, vs := p'.vs)
    ensures Topped(p.vs[|p.ms|], p'.vs[|p.ms|], top, RecordMax(max, round, deps, top).1)
    ensures p.vs[|p.ms|] <= p'.vs[|p.ms|]
    decreases |deps|
  {
    hide Kept, Good, MaxOver, Links, Noted, GrownBy, Grown;
    if deps == [] {
      p' := p;
      GrownOne(p.all, Dep(p.all[0].block, [], p.all[0].prev), []);
    } else {
      var d, k := deps[0], |p.ms|;
      var m := MaxOver(max, round, Links(d), d.block.round);
      assert deps == [d] + deps[1..] && deps[..1] == [d];
      GoodShorter(p.all, deps, 1);
      GrownOne(p.all, d, deps[1..]);
      NotedKept(p, max, round, cut, d);
      NotedSame(p, d, m);
      var q := Noted(p, d, m);
      p' := RecordKept(q, max[d.block := m], round, cut, deps[1..], Larger(top, m));
      ToppedStep(p.vs[k], m, p'.vs[k], top, RecordMax(max, round, deps, top).1);
    }
  }

  lemma ToppedStep(before: seq<nat>, m: nat, vs: seq<nat>, top: nat, top': nat)
    requires Topped(before + [m], vs, Larger(top, m), top') && before + [m] <= vs
    ensures Topped(before, vs, top, top') && before <= vs
  {
    assert vs[|before|] == m;
  }

  // --- the own block ---

  function OwnMax(max: map<BlockID, nat>, round: nat, bg: BlockGraph, top: nat): nat {
    if bg.block.round != 1 then Larger(top, Bound(max, round, bg.prev)) else top
  }

  /** All dependencies are recorded, and `top` is the largest max of them and the own round. */
  ghost predicate Ready(p: Past, round: nat, cut: nat, top: nat) {
    && Open(p, round, cut) && Good(p.all) && p.all[|p.ms|].block.round <= top
    && (forall j | 0 <= j < |p.vs[|p.ms|]| :: p.vs[|p.ms|][j] <= top)
    && (top == p.all[|p.ms|].block.round || exists j | 0 <= j < |p.vs[|p.ms|]| :: p.vs[|p.ms|][j] == top)
  }

  function Closed(p: Past, m: nat): Past {
    p.(ms := p.ms + [m])
  }

  /** The own block before the one that is admitted. */
  lemma LastBound(p: Past, max: map<BlockID, nat>, round: nat, cut: nat)
    requires Kept(p, max, round, cut) && Open(p, round, cut) && Good(p.all) && p.ms != []
    ensures
      var k := |p.ms|;
      var b := Bound(max, round, p.all[k - 1].block);
      && p.ms[k - 1] <= Least(p, b)
      && ((exists j | 0 <= j < |p.vs[k]| :: b <= p.vs[k][j]) || (cut < k && b <= p.ms[k - 1])
        || (cut == k && b <= round))
      && (cut == k ==> round <= b || Bare(p.all, k - 1))
      && (Unechoed(p.all, k - 1) ==> p.ms[k - 1] <= b)
  {
    hide BareOk, LowOk, KeysOk, MaxFrom, Good, Covers, RootOpen, Bare;
    var k := |p.ms|;
    var n := k - 1;
    assert OwnOk(p, max, cut, n);
    if Unechoed(p.all, n) {
      hide DepsOk, EchoesOk, Unechoed;
    } else {
      var t, j :| Echo(p.all, n, t, j);
      GoodParts(p.all);
      assert t == k;
      assert Given(p.all, t, j) && DepOk(p, max, round, cut, t, j);
      assert EchoOk(p, n, t, j);
      hide DepsOk, EchoesOk, OwnsOk, Unechoed;
    }
  }

  /** The block before the first own one, when that one is admitted. */
  lemma FirstBound(p: Past, max: map<BlockID, nat>, round: nat, cut: nat)
    requires Kept(p, max, round, cut) && Open(p, round, cut) && Good(p.all) && p.ms == []
    ensures
      var b := Bound(max, round, p.all[0].prev);
      && (p.all[0].block.round != 1 ==> (exists j | 0 <= j < |p.vs[0]| :: b <= p.vs[0][j]) || RootOpen(p.all))
      && (RootOpen(p.all) ==> b == round == p.rs[0])
  {
    hide OwnsOk, EchoesOk, MaximaOk, BareOk, LowOk, Good;
    var x := p.all[0].prev;
    if x in max {
      assert Listed(p, x);
      var t, j :| Given(p.all, t, j) && p.all[t].deps[j].block == x;
      assert DepOk(p, max, round, cut, t, j);
    } else {
      forall j | 0 <= j < |p.all[0].deps| ensures p.all[0].deps[j].block != x {
        assert Given(p.all, 0, j) && DepOk(p, max, round, cut, 0, j);
      }
    }
  }

  /** If an own block came back with a low max, then with and after low dependencies. */
  lemma EchoLow(p: Past, cut: nat, round: nat, n: nat, t: int, j: int) returns (t': int, j': int)
    requires Shape(p, cut, round) && LowOk(p, cut, round) && RootOpen(p.all) && Good(p.all)
    requires Echo(p.all, n, t, j) && p.vs[t][j] < p.rs[0]
    ensures forall i | 0 <= i < |p.all[n].deps| :: p.vs[n][i] < p.rs[0]
    ensures n > 0 ==> Echo(p.all, n - 1, t', j') && p.vs[t'][j'] < p.rs[0]
  {
    t', j' := 0, 0;
    var d := p.all[t].deps[j];
    GoodParts(p.all);
    assert Given(p.all, t, j) && LowDep(p, t, j);
    hide LowOk, LowDep;
    forall i | 0 <= i < |p.all[n].deps| ensures p.vs[n][i] < p.rs[0] {
      var x := Blocks(p.all[n].deps)[i];
      assert x in Links(d) && GivenLow(p, t, j, x) && Given(p.all, n, i);
      var s', i' :| Given(p.all, s', i') && Before(s', i', t, j) && p.all[s'].deps[i'].block == x
        && p.vs[s'][i'] < p.rs[0];
    }
    if n > 0 {
      PrevIs(p.all, n);
      assert d.prev in Links(d) && GivenLow(p, t, j, d.prev);
      t', j' :| Given(p.all, t', j') && Before(t', j', t, j) && p.all[t'].deps[j'].block == d.prev
        && p.vs[t'][j'] < p.rs[0];
    }
  }

  lemma {:induction false} AllLow(p: Past, cut: nat, round: nat, n: nat, t: int, j: int)
    requires Shape(p, cut, round) && LowOk(p, cut, round) && RootOpen(p.all) && Good(p.all)
    requires Echo(p.all, n, t, j) && p.vs[t][j] < p.rs[0]
    ensures forall s, i | Given(p.all, s, i) && s <= n :: p.vs[s][i] < p.rs[0]
    decreases n
  {
    hide LowOk, RootOpen, Good;
    var t', j' := EchoLow(p, cut, round, n, t, j);
    if n > 0 {
      AllLow(p, cut, round, n - 1, t', j');
    }
  }

  lemma LowIsWhole(p: Past, cut: nat, round: nat, k: nat, j: int)
    requires Shape(p, cut, round) && LowOk(p, cut, round) && RootOpen(p.all) && Good(p.all)
    requires 0 < k < |p.all| && Echo(p.all, k - 1, k, j)
    requires forall i | 0 <= i < |p.vs[k]| :: p.vs[k][i] < p.rs[0]
    ensures Whole(p.all, k)
  {
    AllLow(p, cut, round, k - 1, k, j);
    hide RootOpen, Good, Links;
    forall t, j, x | Given(p.all, t, j) && t <= k && x in Links(p.all[t].deps[j]) ensures GivenBefore(p.all, t, j, x) {
      assert LowDep(p, t, j) && LinksLow(p, t, j) && GivenLow(p, t, j, x);
    }
  }

  /** Conversely, if the run started beyond all rounds, and nothing has gone. */
  lemma {:induction false} WholeIsLow(p: Past, round: nat, k: int, t: int, j: int)
    requires Shape(p, 0, round) && LowOk(p, 0, round) && Whole(p.all, k) && Given(p.all, t, j) && t <= k
    requires forall s, i | Given(p.all, s, i) :: p.all[s].deps[i].block.round < p.rs[0]
    ensures p.vs[t][j] < p.rs[0]
    decreases t, j
  {
    hide RootOpen, Links;
    forall x | x in Links(p.all[t].deps[j]) ensures GivenLow(p, t, j, x) {
      assert GivenBefore(p.all, t, j, x);
      var t', j' :| Given(p.all, t', j') && Before(t', j', t, j) && p.all[t'].deps[j'].block == x;
      WholeIsLow(p, round, k, t', j');
    }
    assert LowDep(p, t, j);
  }

  /** Own blocks are not admitted with a max below the round at which the run started. */
  lemma NewMaxHigh(p: Past, max: map<BlockID, nat>, round: nat, cut: nat, top: nat)
    requires Kept(p, max, round, cut) && Ready(p, round, cut, top) && !Whole(p.all, |p.ms|) && RootOpen(p.all)
    ensures p.rs[0] <= OwnMax(max, round, p.all[|p.ms|], top)
  {
    hide Kept, Good, Whole, RootOpen, Bare;
    var k := |p.ms|;
    assert p.rs[0] <= round by { KeptKeys(p, max, round, cut); }
    if k == 0 {
      FirstBound(p, max, round, cut);
      assert p.all[0].block.round != 1 by { OpenRound(p.all); }
    } else {
      PrevIs(p.all, k);
      LastBound(p, max, round, cut);
      KeptLow(p, max, round, cut);
      var m := OwnMax(max, round, p.all[k], top);
      if m < p.rs[0] {
        var t, j :| Echo(p.all, k - 1, t, j);
        GoodParts(p.all);
        LowIsWhole(p, cut, round, k, j);
      }
    }
  }

  lemma OpenRound(all: seq<BlockGraph>)
    requires RootOpen(all)
    ensures all[0].block.round != 1
  {
  }

  lemma KeptLow(p: Past, max: map<BlockID, nat>, round: nat, cut: nat)
    requires Kept(p, max, round, cut)
    ensures Shape(p, cut, round) && LowOk(p, cut, round)
    ensures RootOpen(p.all) ==> forall n | 0 <= n < |p.ms| :: p.rs[0] <= p.ms[n]
    ensures forall n | 0 < n < |p.all| && p.cs[n] == n && Bare(p.all, n - 1) :: p.rs[n] <= p.all[n].block.round
  {
    hide DepsOk, OwnsOk, EchoesOk, MaximaOk, KeysOk, LowDep;
  }

  /** Where the max of the new own block comes from. */
  lemma NewMaxFrom(p: Past, max: map<BlockID, nat>, round: nat, cut: nat, top: nat)
    requires Kept(p, max, round, cut) && Ready(p, round, cut, top) && !Whole(p.all, |p.ms|)
    ensures
      var k := |p.ms|;
      var m := OwnMax(max, round, p.all[k], top);
      && top <= m && MaxFrom(Closed(p, m), k) && (k > 0 && cut < k ==> p.ms[k - 1] <= m)
      && (RootOpen(p.all) ==> p.rs[0] <= m)
  {
    hide Kept, Good, Whole, RootOpen;
    var k := |p.ms|;
    assert cut <= k by { KeptKeys(p, max, round, cut); }
    if RootOpen(p.all) {
      NewMaxHigh(p, max, round, cut, top);
    }
    if k > 0 {
      PrevIs(p.all, k);
      LastBound(p, max, round, cut);
    } else {
      FirstBound(p, max, round, cut);
    }
  }

  lemma ClosedDeps(p: Past, max: map<BlockID, nat>, round: nat, cut: nat, top: nat, m: nat)
    requires Kept(p, max, round, cut) && Ready(p, round, cut, top) && top <= m
    ensures
      var p', max' := Closed(p, m), max[p.all[|p.ms|].block := m];
      Shape(p', cut, round) && DepsOk(p', max', round, cut) && OwnsOk(p', max', cut)
  {
    hide EchoesOk, MaximaOk, BareOk, LowOk, KeysOk;
    var k := |p.ms|;
    var p', max' := Closed(p, m), max[p.all[k].block := m];
    GoodParts(p.all);
    hide Good;
    assert Shape(p', cut, round);
    forall t, j | Given(p'.all, t, j) ensures DepOk(p', max', round, cut, t, j) {
      assert DepOk(p, max, round, cut, t, j);
      assert !Echo(p.all, k, t, j);
    }
    forall n | 0 <= n < |p'.ms| ensures OwnOk(p', max', cut, n) {
      if n < k {
        OwnDistinct(p.all, n, k);
        assert OwnOk(p, max, cut, n);
      }
    }
  }

  lemma ClosedMaxima(p: Past, max: map<BlockID, nat>, round: nat, cut: nat, m: nat)
    requires Kept(p, max, round, cut) && Open(p, round, cut) && Shape(Closed(p, m), cut, round)
    requires MaxFrom(Closed(p, m), |p.ms|) && (|p.ms| > 0 && cut < |p.ms| ==> p.ms[|p.ms| - 1] <= m)
    ensures MaximaOk(Closed(p, m), cut, round)
  {
    hide DepsOk, OwnsOk, EchoesOk, BareOk, LowOk, KeysOk, RootOpen;
    var p', k := Closed(p, m), |p.ms|;
    forall n | 0 <= n < |p'.ms| ensures MaxFrom(p', n) {
      if n < k {
        assert MaxFrom(p, n);
      }
    }
  }

  lemma ClosedEchoes(p: Past, max: map<BlockID, nat>, round: nat, cut: nat, m: nat)
    requires Kept(p, max, round, cut) && Open(p, round, cut) && Shape(Closed(p, m), cut, round)
    requires RootOpen(p.all) ==> p.rs[0] <= m
    ensures
      var p', max' := Closed(p, m), max[p.all[|p.ms|].block := m];
      EchoesOk(p', cut, round) && BareOk(p', cut, round) && LowOk(p', cut, round) && KeysOk(p', max')
  {
    hide DepsOk, OwnsOk, MaximaOk, RootOpen, Links, Bare;
    var p', k := Closed(p, m), |p.ms|;
    forall n, t, j | Echo(p'.all, n, t, j) ensures n < |p'.ms| && EchoOk(p', n, t, j) {
      assert EchoOk(p, n, t, j);
      assert forall b: nat :: Covers(p', t, b) <==> Covers(p, t, b);
    }
    ClosedLow(p, m);
    assert p'.all[k].block == p.all[k].block && k < |p'.ms|;
    assert Listed(p', p.all[k].block);
    forall x | Listed(p, x) ensures Listed(p', x) {
      if n :| 0 <= n < |p.ms| && n < |p.all| && p.all[n].block == x {
        assert p'.all[n].block == x;
      }
    }
  }

  lemma ClosedLow(p: Past, m: nat)
    requires |p.vs| == |p.cs| == |p.all| && p.rs != [] && forall s | 0 <= s < |p.all| :: |p.vs[s]| == |p.all[s].deps|
    ensures forall t, j | Given(p.all, t, j) :: LowDep(Closed(p, m), t, j) <==> LowDep(p, t, j)
  {
    var p' := Closed(p, m);
    assert forall t, j, x :: GivenLow(p', t, j, x) <==> GivenLow(p, t, j, x);
  }

  lemma ClosedKept(p: Past, max: map<BlockID, nat>, round: nat, cut: nat, top: nat)
    requires Kept(p, max, round, cut) && Ready(p, round, cut, top) && !Whole(p.all, |p.ms|)
    ensures
      var m := OwnMax(max, round, p.all[|p.ms|], top);
      Kept(Closed(p, m), max[p.all[|p.ms|].block := m], round, cut)
  {
    hide Kept, MaxFrom, Whole, RootOpen, DepsOk, OwnsOk, EchoesOk, MaximaOk, BareOk, LowOk, KeysOk, Good, OwnMax;
    var m := OwnMax(max, round, p.all[|p.ms|], top);
    NewMaxFrom(p, max, round, cut, top);
    ClosedDeps(p, max, round, cut, top, m);
    ClosedMaxima(p, max, round, cut, m);
    ClosedEchoes(p, max, round, cut, m);
    KeptFrom(Closed(p, m), max[p.all[|p.ms|].block := m], round, cut);
  }

  // --- the graph ---

  ghost predicate Following(p: Past, g: Graph) {
    && |p.all| == |p.ms| && |g.blocks| <= |p.all|
    && Kept(p, g.max, g.round, |p.all| - |g.blocks|)
    && (forall j | 0 <= j < |g.blocks| ::
          g.blocks[j] == BlockInfo(p.all[|p.all| - |g.blocks| + j], p.ms[|p.all| - |g.blocks| + j]))
    && (|g.blocks| < |p.all| ==> g.log != [])
  }

  lemma NothingFollows(cfg: Config)
    ensures Following(Past([], [], [], [], []), Initial(cfg))
  {
    assert forall n, t, j :: !Echo([], n, t, j);
  }

  /** A block graph whose dependencies are recorded one after the other. */
  lemma Unfolded(all: seq<BlockGraph>, bg: BlockGraph)
    requires Good(all + [bg])
    ensures GrownBy(all + [bg.(deps := [])], bg.deps) == all + [bg] && Good(all + [bg.(deps := [])])
  {
    var start := all + [bg.(deps := [])];
    assert bg.(deps := []).deps + bg.deps == bg.deps;
    assert GrownBy(start, bg.deps) == all + [bg];
    hide Good;
    GoodShorter(start, bg.deps, 0);
    assert bg.deps[..0] == [];
    GrownOne(start, Dep(bg.block, [], bg.prev), []);
  }

  /** All its dependencies are recorded. */
  lemma AdmitReady(p: Past, max: map<BlockID, nat>, round: nat, cut: nat, bg: BlockGraph) returns (r: Past)
    requires Kept(p, max, round, cut) && |p.all| == |p.ms| && Good(p.all + [bg])
    requires cut > 0 ==> round <= TopRound(p.all) + 1
    ensures
      var (max', top) := RecordMax(max, round, bg.deps, bg.block.round);
      && Kept(r, max', round, cut) && Ready(r, round, cut, top)
      && r.all == p.all + [bg] && r.ms == p.ms && r.rs == p.rs + [round]
  {
    hide Good, GrownBy, Kept, TopRound, RecordMax;
    var k := |p.all|;
    Unfolded(p.all, bg);
    OpenedKept(p, max, round, cut, bg);
    var q := Opened(p, bg, round, cut);
    assert q.vs[k] == [];
    r := RecordKept(q, max, round, cut, bg.deps, bg.block.round);
    assert r.all[k] == bg;
  }

  /** And the own block. */
  lemma AdmitKept(p: Past, max: map<BlockID, nat>, round: nat, cut: nat, bg: BlockGraph) returns (p': Past)
    requires Kept(p, max, round, cut) && |p.all| == |p.ms| && Good(p.all + [bg]) && !Whole(p.all + [bg], |p.all|)
    requires cut > 0 ==> round <= TopRound(p.all) + 1
    ensures
      var (max', top) := RecordMax(max, round, bg.deps, bg.block.round);
      var m := OwnMax(max', round, bg, top);
      && Kept(p', max'[bg.block := m], round, cut)
      && p'.all == p.all + [bg] && p'.ms == p.ms + [m] && p'.rs == p.rs + [round]
  {
    hide Good, Kept, TopRound, RecordMax, Whole;
    var r := AdmitReady(p, max, round, cut, bg);
    var (max', top) := RecordMax(max, round, bg.deps, bg.block.round);
    ClosedKept(r, max', round, cut, top);
    p' := Closed(r, OwnMax(max', round, bg, top));
  }

  /** Admitting the next block graph. */
  lemma AdmitFollows(p: Past, g: Graph, bg: BlockGraph) returns (p': Past)
    requires Following(p, g) && Good(p.all + [bg]) && !Whole(p.all + [bg], |p.all|)
    requires (g.log != [] ==> g.round <= TopRound(p.all) + 1)
    ensures Following(p', Admit(g, bg)) && p'.all == p.all + [bg] && p'.rs == p.rs + [g.round]
  {
    hide Good, Kept, TopRound, RecordMax, Admit, OwnMax, Whole;
    p' := AdmitKept(p, g.max, g.round, |p.all| - |g.blocks|, bg);
    AdmitIs(g, bg);
  }

  /** If the run started beyond all rounds, an own block with which everything has come has a lower max. */
  lemma AdmitFalls(p: Past, g: Graph, bg: BlockGraph)
    requires Following(p, g) && |g.blocks| == |p.all| && Good(p.all + [bg]) && Whole(p.all + [bg], |p.all|)
    requires p.rs != [] && bg.block.round < p.rs[0]
    requires forall t, j | Given(p.all + [bg], t, j) :: (p.all + [bg])[t].deps[j].block.round < p.rs[0]
    ensures
      var infos, k := Admit(g, bg).blocks, |p.all|;
      0 < k && |infos| == k + 1 && infos[k].max < infos[k - 1].max
  {
    hide Good, Kept, TopRound, RecordMax, Admit;
    var k := |p.all|;
    var r := AdmitReady(p, g.max, g.round, 0, bg);
    var (max, top) := RecordMax(g.max, g.round, bg.deps, bg.block.round);
    AdmitIs(g, bg);
    KeptLow(r, max, g.round, 0);
    hide LowOk, Shape;
    FallsTo(r, max, g.round, top);
  }

  lemma FallsTo(p: Past, max: map<BlockID, nat>, round: nat, top: nat)
    requires Kept(p, max, round, 0) && Ready(p, round, 0, top) && Whole(p.all, |p.ms|)
    requires p.all[|p.ms|].block.round < p.rs[0]
    requires forall t, j | Given(p.all, t, j) :: p.all[t].deps[j].block.round < p.rs[0]
    ensures p.ms != [] && OwnMax(max, round, p.all[|p.ms|], top) < p.rs[0] <= p.ms[|p.ms| - 1]
  {
    hide OwnsOk, EchoesOk, MaximaOk, BareOk, KeysOk, Good, GivenBefore, Links;
    var k := |p.ms|;
    forall i | 0 <= i < |p.vs[k]| ensures p.vs[k][i] < p.rs[0] {
      assert Given(p.all, k, i);
      WholeIsLow(p, round, k, k, i);
    }
    PrevIs(p.all, k);
    var j :| Echo(p.all, k - 1, k, j);
    assert Given(p.all, k, j) && DepOk(p, max, round, 0, k, j);
  }

  lemma AdmitIs(g: Graph, bg: BlockGraph)
    ensures
      var (max, top) := RecordMax(g.max, g.round, bg.deps, bg.block.round);
      var m := OwnMax(max, g.round, bg, top);
      Admit(g, bg) == g.(max := max[bg.block := m], blocks := g.blocks + [BlockInfo(bg, m)])
  {
    hide RecordMax, MaxOver;
    var (max, top) := RecordMax(g.max, g.round, bg.deps, bg.block.round);
    OneLink(max, g.round, bg.prev, top);
  }

  lemma OneLink(max: map<BlockID, nat>, round: nat, x: BlockID, m: nat)
    ensures MaxOver(max, round, [x], m) == Larger(m, Bound(max, round, x))
  {
    assert [x][1..] == [];
  }

  // --- a delivery ---

  /** The ids that go with the own blocks from cut up to cut'. */
  ghost predicate Gone(p: Past, cut: nat, cut': nat, gone: set<BlockID>) {
    && (forall x | x in gone :: exists n | cut <= n < cut' && n < |p.all| :: InGraph(p.all[n], x))
    && (forall n, x | cut <= n < cut' && n < |p.all| && InGraph(p.all[n], x) :: x in gone)
  }

  ghost predicate InGraph(bg: BlockGraph, x: BlockID) {
    x == bg.block || exists j | 0 <= j < |bg.deps| :: bg.deps[j].block == x
  }

  ghost predicate Pruning(p: Past, round: nat, cut: nat, cut': nat, gone: set<BlockID>) {
    && |p.all| == |p.ms| && cut <= cut' <= |p.all| && Gone(p, cut, cut', gone)
    && (forall n | cut <= n < cut' :: p.ms[n] <= round)
  }

  lemma PrunedDeps(p: Past, max: map<BlockID, nat>, round: nat, cut: nat, cut': nat, gone: set<BlockID>)
    requires Kept(p, max, round, cut) && Pruning(p, round, cut, cut', gone) && Good(p.all)
    ensures Shape(p, cut', round + 1) && DepsOk(p, max - gone, round + 1, cut')
  {
    hide OwnsOk, EchoesOk, BareOk, LowOk, KeysOk, MaximaOk;
    GoodParts(p.all);
    hide Good;
    forall t, j | Given(p.all, t, j) ensures DepOk(p, max - gone, round + 1, cut', t, j) {
      assert DepOk(p, max, round, cut, t, j);
      var x := p.all[t].deps[j].block;
      assert InGraph(p.all[t], x);
      if x in gone {
        var n :| cut <= n < cut' && n < |p.all| && InGraph(p.all[n], x);
        if x != p.all[n].block {
          var i :| 0 <= i < |p.all[n].deps| && p.all[n].deps[i].block == x;
          assert Given(p.all, n, i);
        }
      }
    }
  }

  lemma PrunedOwns(p: Past, max: map<BlockID, nat>, round: nat, cut: nat, cut': nat, gone: set<BlockID>)
    requires Kept(p, max, round, cut) && Pruning(p, round, cut, cut', gone) && Good(p.all)
    ensures OwnsOk(p, max - gone, cut')
  {
    hide DepsOk, EchoesOk, BareOk, LowOk, KeysOk, MaximaOk;
    GoodParts(p.all);
    hide Good;
    forall e | 0 <= e < |p.ms| ensures OwnOk(p, max - gone, cut', e) {
      assert OwnOk(p, max, cut, e);
      assert InGraph(p.all[e], p.all[e].block);
      forall n | cut <= n < cut' && n < |p.all| && n != e && (n < e || Unechoed(p.all, e))
        ensures !InGraph(p.all[n], p.all[e].block)
      {
        NotElsewhere(p.all, e, n);
      }
    }
  }

  lemma NotElsewhere(all: seq<BlockGraph>, e: nat, n: nat)
    requires Successive(all) && Same(all) && e < |all| && n < |all| && n != e && (n < e || Unechoed(all, e))
    ensures !InGraph(all[n], all[e].block)
  {
    if n < e {
      OwnDistinct(all, n, e);
    } else {
      OwnDistinct(all, e, n);
    }
    forall i | 0 <= i < |all[n].deps| ensures all[n].deps[i].block != all[e].block {
      assert !Echo(all, e, n, i);
    }
  }

  lemma PrunedRest(p: Past, max: map<BlockID, nat>, round: nat, cut: nat, cut': nat, gone: set<BlockID>)
    requires Kept(p, max, round, cut) && Pruning(p, round, cut, cut', gone) && Shape(p, cut', round + 1)
    ensures EchoesOk(p, cut', round + 1) && MaximaOk(p, cut', round + 1) && BareOk(p, cut', round + 1)
    ensures LowOk(p, cut', round + 1) && KeysOk(p, max - gone)
  {
    hide DepsOk, OwnsOk, Gone, MaxFrom, EchoOk, Bare, LowDep, RootOpen;
  }

  lemma PrunedKept(p: Past, max: map<BlockID, nat>, round: nat, cut: nat, cut': nat, gone: set<BlockID>)
    requires Kept(p, max, round, cut) && Pruning(p, round, cut, cut', gone) && Good(p.all)
    ensures Kept(p, max - gone, round + 1, cut')
  {
    hide Kept, Pruning, DepsOk, OwnsOk, EchoesOk, MaximaOk, BareOk, LowOk, KeysOk, Good;
    PrunedDeps(p, max, round, cut, cut', gone);
    PrunedOwns(p, max, round, cut, cut', gone);
    PrunedRest(p, max, round, cut, cut', gone);
    KeptFrom(p, max - gone, round + 1, cut');
  }

  lemma DeliveredParts(g: Graph, round: nat)
    requires round in g.resolved && g.blocks != []
    ensures
      var g', k, n := DeliverOne(g, round), PruneCount(g.blocks, round), |g.log|;
      && g'.blocks == g.blocks[k..] && g'.max == g.max - PrunedIds(g.blocks[..k]) && g'.round == g.round + 1
      && |g'.log| == n + 1 && (forall i | 0 <= i < n :: g'.log[i] == g.log[i])
      && g'.log[n].consumed == Wrap64(g.blocks[0].data.block.round + U64_SIZE - 1 + k)
  {
    hide Listing.ListingOf, PrunedIds, Wrap64, PruneCount;
  }

  lemma DeliverFollows(p: Past, g: Graph)
    requires Following(p, g) && Good(p.all) && g.round in g.resolved && g.blocks != []
    ensures Following(p, DeliverOne(g, g.round))
  {
    hide Kept, Good, DeliverOne, PruneCount, PrunedIds, Gone;
    var k := PruneCount(g.blocks, g.round);
    var gone := PrunedIds(g.blocks[..k]);
    var cut := |p.all| - |g.blocks|;
    PruneStops(g.blocks, g.round);
    PrunedAre(p, g, k);
    forall n | cut <= n < cut + k ensures p.ms[n] <= g.round {
      assert g.blocks[n - cut].max == p.ms[n];
    }
    PrunedKept(p, g.max, g.round, cut, cut + k, gone);
    DeliveredParts(g, g.round);
  }

  lemma PrunedAre(p: Past, g: Graph, k: nat)
    requires |p.all| == |p.ms| && |g.blocks| <= |p.all| && k <= |g.blocks|
    requires forall j | 0 <= j < |g.blocks| ::
      g.blocks[j] == BlockInfo(p.all[|p.all| - |g.blocks| + j], p.ms[|p.all| - |g.blocks| + j])
    ensures var cut := |p.all| - |g.blocks|; Gone(p, cut, cut + k, PrunedIds(g.blocks[..k]))
  {
    var cut, infos := |p.all| - |g.blocks|, g.blocks[..k];
    forall x | x in PrunedIds(infos) ensures exists n | cut <= n < cut + k && n < |p.all| :: InGraph(p.all[n], x) {
      var info :| info in infos && x in IdsOf(info);
      var j :| 0 <= j < k && infos[j] == info;
      IdsIn(p.all[cut + j], p.ms[cut + j], x);
      assert InGraph(p.all[cut + j], x);
    }
    forall n, x | cut <= n < cut + k && n < |p.all| && InGraph(p.all[n], x) ensures x in PrunedIds(infos) {
      IdsIn(p.all[n], p.ms[n], x);
      assert infos[n - cut] in infos;
    }
  }

  lemma IdsIn(bg: BlockGraph, m: nat, x: BlockID)
    ensures x in IdsOf(BlockInfo(bg, m)) <==> InGraph(bg, x)
  {
    if j :| 0 <= j < |bg.deps| && bg.deps[j].block == x {
      assert bg.deps[j] in bg.deps;
    }
    if d :| d in bg.deps && d.block == x {
      var j :| 0 <= j < |bg.deps| && bg.deps[j] == d;
    }
  }

  /** The maxima of kept own blocks never decrease. */
  lemma FollowingRises(p: Past, g: Graph)
    requires Following(p, g)
    ensures Rising(g.blocks)
  {
    hide DepsOk, OwnsOk, EchoesOk, BareOk, LowOk, KeysOk, MaxFrom;
    var cut := |p.all| - |g.blocks|;
    forall i, j | 0 <= i <= j < |g.blocks| ensures g.blocks[i].max <= g.blocks[j].max {
      MaximaRise(p, cut, g.round, cut + i, cut + j);
    }
  }

  lemma {:induction false} MaximaRise(p: Past, cut: nat, round: nat, i: nat, j: nat)
    requires Shape(p, cut, round) && MaximaOk(p, cut, round) && cut <= i <= j < |p.ms|
    ensures p.ms[i] <= p.ms[j]
    decreases j
  {
    if i < j {
      MaximaRise(p, cut, round, i, j - 1);
    }
  }
}
