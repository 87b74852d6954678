/**
  The maxima that run records when it admits a block graph, said without its loops: each is the largest of a
  block's own round and what is known of its links at that point, and the blocks that are then interpreted.
 */
module Maxima {
  import opened Ids
  import opened Interpreter

  /** m is the largest of these. */
  ghost predicate IsLargest(m: nat, first: nat, rest: seq<nat>) {
    && first <= m && (forall i | 0 <= i < |rest| :: rest[i] <= m)
    && (m == first || exists i | 0 <= i < |rest| :: rest[i] == m)
  }

  /** The last of the first n dependencies that is this block. */
  ghost predicate LastAt(deps: seq<Dep>, n: nat, x: BlockID, i: int) {
    0 <= i < n <= |deps| && deps[i].block == x && forall k | i < k < n :: deps[k].block != x
  }

  ghost predicate NoneAt(deps: seq<Dep>, n: nat, x: BlockID) {
    forall k | 0 <= k < n && k < |deps| :: deps[k].block != x
  }

  /** What is known of a block after the first n dependencies: their max, the one on record, or the current round. */
  ghost predicate KnownAs(g: Graph, deps: seq<Dep>, vs: seq<nat>, n: nat, x: BlockID, v: nat) {
    && (forall i | LastAt(deps, n, x, i) :: i < |vs| && v == vs[i])
    && (NoneAt(deps, n, x) ==> v == if x in g.max then g.max[x] else g.round)
  }

  ghost predicate AllKnown(g: Graph, deps: seq<Dep>, vs: seq<nat>, n: nat, links: seq<BlockID>, bounds: seq<nat>) {
    |bounds| == |links| && forall k | 0 <= k < |links| :: KnownAs(g, deps, vs, n, links[k], bounds[k])
  }

  /** The previous block counts, except in round 1. */
  ghost predicate LinksAre(d: Dep, links: seq<BlockID>) {
    if d.block.round == 1 then links == d.deps
    else |links| == |d.deps| + 1 && links[0] == d.prev && links[1..] == d.deps
  }

  /** The max of dependency j. */
  ghost predicate DepMax(g: Graph, deps: seq<Dep>, vs: seq<nat>, j: nat)
    requires j < |vs| <= |deps|
  {
    exists links, bounds ::
      && LinksAre(deps[j], links) && AllKnown(g, deps, vs, j, links, bounds)
      && IsLargest(vs[j], deps[j].block.round, bounds)
  }

  // --- the loop ---

  function BoundOf(max: map<BlockID, nat>, round: nat, x: BlockID): nat {
    if x in max then max[x] else round
  }

  function BoundsOf(max: map<BlockID, nat>, round: nat, links: seq<BlockID>): (r: seq<nat>)
    ensures |r| == |links| && forall k | 0 <= k < |links| :: r[k] == BoundOf(max, round, links[k])
  {
    seq(|links|, k requires 0 <= k < |links| => BoundOf(max, round, links[k]))
  }

  lemma {:induction false} MaxOverIsLargest(max: map<BlockID, nat>, round: nat, links: seq<BlockID>, m: nat)
    ensures IsLargest(MaxOver(max, round, links, m), m, BoundsOf(max, round, links))
    decreases |links|
  {
    if links != [] {
      var b := BoundOf(max, round, links[0]);
      MaxOverIsLargest(max, round, links[1..], Larger(m, b));
      var rest, all := BoundsOf(max, round, links[1..]), BoundsOf(max, round, links);
      assert all[0] == b && forall k | 0 <= k < |rest| :: rest[k] == all[k + 1];
      LargestStep(MaxOver(max, round, links, m), m, b, rest, all);
    }
  }

  lemma LargestStep(m': nat, m: nat, b: nat, rest: seq<nat>, all: seq<nat>)
    requires |all| == |rest| + 1 && all[0] == b && forall k | 0 <= k < |rest| :: rest[k] == all[k + 1]
    requires IsLargest(m', Larger(m, b), rest)
    ensures IsLargest(m', m, all)
  {
    forall i | 0 <= i < |all| ensures all[i] <= m' {
      if i > 0 {
        assert all[i] == rest[i - 1];
      }
    }
    if i :| 0 <= i < |rest| && rest[i] == m' {
      assert all[i + 1] == m';
    }
  }

  /** The loop, with one more dependency. */
  lemma {:induction false} RecordMaxPush(max: map<BlockID, nat>, round: nat, deps: seq<Dep>, d: Dep, top: nat)
    ensures
      var (max', top') := RecordMax(max, round, deps, top);
      var v := MaxOver(max', round, Links(d), d.block.round);
      RecordMax(max, round, deps + [d], top) == (max'[d.block := v], Larger(top', v))
    decreases |deps|
  {
    hide MaxOver, Links;
    if deps == [] {
      assert deps + [d] == [d] && [d][1..] == [];
    } else {
      var m := MaxOver(max, round, Links(deps[0]), deps[0].block.round);
      assert (deps + [d])[0] == deps[0] && (deps + [d])[1..] == deps[1..] + [d];
      RecordMaxPush(max[deps[0].block := m], round, deps[1..], d, Larger(top, m));
    }
  }

  /** What the loop leaves after n dependencies. */
  ghost predicate RecordedUpTo(g: Graph, deps: seq<Dep>, vs: seq<nat>, n: nat, top: nat, max: map<BlockID, nat>,
                               top': nat)
  {
    && |vs| == n <= |deps|
    && (forall x :: KnownAs(g, deps, vs, n, x, BoundOf(max, g.round, x)))
    && (forall x :: x in max <==> x in g.max || !NoneAt(deps, n, x))
    && IsLargest(top', top, vs)
  }

  lemma {:induction false} LoopExact(g: Graph, deps: seq<Dep>, n: nat, top: nat) returns (vs: seq<nat>)
    requires n <= |deps|
    ensures
      var (max, top') := RecordMax(g.max, g.round, deps[..n], top);
      RecordedUpTo(g, deps, vs, n, top, max, top')
    ensures |vs| == n && forall j | 0 <= j < n :: DepMax(g, deps, vs, j)
    decreases n
  {
    hide MaxOver, Links, RecordMax, DepMax, RecordedUpTo;
    vs := [];
    if n == 0 {
      NothingRecorded(g, deps, top);
    } else {
      vs := LoopExact(g, deps, n - 1, top);
      var (max, top') := RecordMax(g.max, g.round, deps[..n - 1], top);
      var d := deps[n - 1];
      assert deps[..n] == deps[..n - 1] + [d];
      RecordMaxPush(g.max, g.round, deps[..n - 1], d, top);
      var v := MaxOver(max, g.round, Links(d), d.block.round);
      OneRecorded(g, deps, vs, n - 1, top, max, top', v);
      NewMax(g, deps, vs, n - 1, top, max, top');
      forall j | 0 <= j < n - 1 ensures DepMax(g, deps, vs + [v], j) {
        DepMaxStays(g, deps, vs, v, j);
      }
      vs := vs + [v];
    }
  }

  lemma NothingRecorded(g: Graph, deps: seq<Dep>, top: nat)
    ensures
      var (max, top') := RecordMax(g.max, g.round, deps[..0], top);
      RecordedUpTo(g, deps, [], 0, top, max, top')
  {
    assert deps[..0] == [];
  }

  lemma OneRecorded(g: Graph, deps: seq<Dep>, vs: seq<nat>, n: nat, top: nat, max: map<BlockID, nat>, top': nat, v: nat)
    requires n < |deps| && RecordedUpTo(g, deps, vs, n, top, max, top')
    ensures RecordedUpTo(g, deps, vs + [v], n + 1, top, max[deps[n].block := v], Larger(top', v))
  {
    var vs', max', b := vs + [v], max[deps[n].block := v], deps[n].block;
    forall x ensures KnownAs(g, deps, vs', n + 1, x, BoundOf(max', g.round, x)) {
      assert KnownAs(g, deps, vs, n, x, BoundOf(max, g.round, x));
      forall i | LastAt(deps, n + 1, x, i) ensures i < |vs'| && BoundOf(max', g.round, x) == vs'[i] {
        if i < n {
          assert LastAt(deps, n, x, i);
        }
      }
    }
    forall x ensures NoneAt(deps, n + 1, x) <==> NoneAt(deps, n, x) && x != b {
    }
    LargestPush(top', top, vs, v);
  }

  lemma LargestPush(m: nat, first: nat, vs: seq<nat>, v: nat)
    requires IsLargest(m, first, vs)
    ensures IsLargest(Larger(m, v), first, vs + [v])
  {
    assert (vs + [v])[|vs|] == v && forall i | 0 <= i < |vs| :: (vs + [v])[i] == vs[i];
  }

  lemma NewMax(g: Graph, deps: seq<Dep>, vs: seq<nat>, n: nat, top: nat, max: map<BlockID, nat>, top': nat)
    requires n < |deps| && RecordedUpTo(g, deps, vs, n, top, max, top')
    ensures DepMax(g, deps, vs + [MaxOver(max, g.round, Links(deps[n]), deps[n].block.round)], n)
  {
    var d := deps[n];
    var links := Links(d);
    var v := MaxOver(max, g.round, links, d.block.round);
    var bounds, vs' := BoundsOf(max, g.round, links), vs + [v];
    LinksIs(d);
    MaxOverIsLargest(max, g.round, links, d.block.round);
    hide MaxOver, Links, IsLargest;
    forall k | 0 <= k < |links| ensures KnownAs(g, deps, vs', n, links[k], bounds[k]) {
      assert KnownAs(g, deps, vs, n, links[k], BoundOf(max, g.round, links[k]));
    }
    assert AllKnown(g, deps, vs', n, links, bounds);
  }

  lemma LinksIs(d: Dep)
    ensures LinksAre(d, Links(d))
  {
  }

  lemma DepMaxStays(g: Graph, deps: seq<Dep>, vs: seq<nat>, v: nat, j: nat)
    requires j < |vs| < |deps| && DepMax(g, deps, vs, j)
    ensures DepMax(g, deps, vs + [v], j)
  {
    hide IsLargest, LinksAre;
    var vs' := vs + [v];
    var links, bounds :|
      && LinksAre(deps[j], links) && AllKnown(g, deps, vs, j, links, bounds)
      && IsLargest(vs[j], deps[j].block.round, bounds);
    forall k | 0 <= k < |links| ensures KnownAs(g, deps, vs', j, links[k], bounds[k]) {
      assert KnownAs(g, deps, vs, j, links[k], bounds[k]);
    }
    assert AllKnown(g, deps, vs', j, links, bounds) && vs'[j] == vs[j];
  }

  // --- a block graph ---

  /**
    What run records for a block graph: a max for each dependency and for the own block, each the largest of its
    round and what is known of its links by then; nothing else on record changes.
   */
  lemma AdmitExact(g: Graph, bg: BlockGraph) returns (vs: seq<nat>, m: nat, w: nat)
    ensures |vs| == |bg.deps| && forall j | 0 <= j < |vs| :: DepMax(g, bg.deps, vs, j)
    ensures KnownAs(g, bg.deps, vs, |vs|, bg.prev, w)
    ensures IsLargest(m, bg.block.round, if bg.block.round == 1 then vs else vs + [w])
    ensures
      var g' := Admit(g, bg);
      && g' == g.(max := g'.max, blocks := g.blocks + [BlockInfo(bg, m)])
      && bg.block in g'.max && g'.max[bg.block] == m
      && (forall x | x != bg.block :: x in g'.max <==> x in g.max || !NoneAt(bg.deps, |vs|, x))
      && (forall x | x != bg.block && x in g'.max :: KnownAs(g, bg.deps, vs, |vs|, x, g'.max[x]))
  {
    hide MaxOver, DepMax;
    var deps := bg.deps;
    assert deps[..|deps|] == deps;
    vs := LoopExact(g, deps, |deps|, bg.block.round);
    var (max, top) := RecordMax(g.max, g.round, deps, bg.block.round);
    hide RecordMax;
    w := BoundOf(max, g.round, bg.prev);
    m := if bg.block.round != 1 then Larger(top, w) else top;
    MaxOverOne(max, g.round, bg.prev, top);
    LargestPush(top, bg.block.round, vs, w);
    var g' := Admit(g, bg);
    forall x | x != bg.block && x in g'.max ensures KnownAs(g, deps, vs, |vs|, x, g'.max[x]) {
      assert KnownAs(g, deps, vs, |vs|, x, BoundOf(max, g.round, x));
    }
  }

  lemma MaxOverOne(max: map<BlockID, nat>, round: nat, x: BlockID, m: nat)
    ensures MaxOver(max, round, [x], m) == Larger(m, BoundOf(max, round, x))
  {
    assert [x][1..] == [];
  }

  /** The blocks that are then interpreted: the dependencies in order, with their links, and the own block. */
  lemma EntriesExact(bg: BlockGraph)
    ensures
      var es := Entries(bg);
      && |es| == |bg.deps| + 1
      && (forall j | 0 <= j < |bg.deps| ::
            es[j].block == bg.deps[j].block && es[j].prev == bg.deps[j].prev && LinksAre(bg.deps[j], es[j].deps))
      && var own := es[|bg.deps|];
         && own.block == bg.block && own.prev == bg.prev && |own.deps| == |bg.deps| + 1 && own.deps[0] == bg.prev
         && forall j | 0 <= j < |bg.deps| :: own.deps[j + 1] == bg.deps[j].block
  {
    forall j | 0 <= j < |bg.deps| ensures LinksAre(bg.deps[j], Entries(bg)[j].deps) {
      LinksIs(bg.deps[j]);
    }
  }
}
