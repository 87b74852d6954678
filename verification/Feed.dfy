/**
  What the scheduler and genBlocks feed to the interpreter: each own block takes the next released blocks
  as its dependencies. Received blocks are released once; but the scheduler does not know own blocks, so
  an own block that a peer sends back is released like any other and interpreted a second time.
 */
module Feed {
  import opened Ids
  import opened Interpreter
  import opened Runs
  import opened Scheduling
  import Depgraph

  function DepOf(b: BlockData): Dep {
    Dep(b.id, b.deps, b.prev)
  }

  function DepsOf(bs: seq<BlockData>): (r: seq<Dep>)
    ensures |r| == |bs| && forall i | 0 <= i < |bs| :: r[i] == DepOf(bs[i])
  {
    seq(|bs|, i requires 0 <= i < |bs| => DepOf(bs[i]))
  }

  function AllDeps(inputs: seq<BlockGraph>): seq<Dep> {
    if inputs == [] then [] else AllDeps(inputs[..|inputs| - 1]) + inputs[|inputs| - 1].deps
  }

  /** Own blocks of consecutive rounds, each naming the one before. */
  ghost predicate Chained(inputs: seq<BlockGraph>) {
    && OwnRounds(inputs)
    && (forall i | 0 <= i < |inputs| :: inputs[i].block.round >= 1)
    && (forall i | 0 < i < |inputs| :: inputs[i].prev == inputs[i - 1].block)
    && (inputs != [] ==> inputs[0].prev.round < inputs[0].block.round)
  }

  /**
    What the interpreter has been given: first own blocks from the store, with the dependencies `stored`, as
    after a start of the node; then new ones, which have taken the blocks of `taken`, in order.
   */
  ghost predicate Fed(stored: seq<Dep>, taken: seq<BlockData>, inputs: seq<BlockGraph>) {
    Chained(inputs) && AllDeps(inputs) == stored + DepsOf(taken)
  }

  /** The block graph of a new own block, as genBlocks makes it from what the scheduler hands out. */
  method NextBlock(d: Depgraph.Depgraph, hash: Hash, limit: nat, ghost stored: seq<Dep>, ghost inputs: seq<BlockGraph>,
                   round: nat, prevhash: Hash)
    returns (bg: BlockGraph)
    requires d.Running() && d.store.Valid() && d.taken <= |d.released| && Fed(stored, d.released[..d.taken], inputs)
    requires round >= 1 && (inputs != [] ==> round == inputs[|inputs| - 1].block.round + 1)
    requires inputs != [] ==> inputs[|inputs| - 1].block == BlockID(prevhash, d.self, round - 1)
    modifies d`blocks, d`taken, d`tcache, d.store
    ensures d.Running() && d.store.Valid() && bg.block == BlockID(hash, d.self, round)
    ensures bg.prev == if round != 1 then BlockID(prevhash, d.self, round - 1) else BlockID([], 0, 0)
    ensures old(d.taken) + |bg.deps| == d.taken <= |d.released| && d.released == old(d.released)
    ensures forall i | 0 <= i < |bg.deps| ::
      var b := d.released[old(d.taken) + i];
      bg.deps[i].block == b.id && bg.deps[i].deps == b.deps && bg.deps[i].prev == b.prev
    ensures d.taken <= |d.released| && Fed(stored, d.released[..d.taken], inputs + [bg])
  {
    hide Depgraph.Depgraph.Running, Fed;
    var block := BlockID(hash, d.self, round);
    ghost var before := d.taken;
    var refs := Depgraph.IncludeReleased(d, block, limit);
    var prev := if round != 1 then BlockID(prevhash, d.self, round - 1) else BlockID([], 0, 0);
    bg := BlockGraph(block, DepsOf(refs), prev);
    assert d.released[..d.taken] == d.released[..before] + refs;
    FedNext(stored, d.released[..before], refs, inputs, bg);
  }

  lemma FedNext(stored: seq<Dep>, taken: seq<BlockData>, refs: seq<BlockData>, inputs: seq<BlockGraph>, bg: BlockGraph)
    requires Fed(stored, taken, inputs) && bg.deps == DepsOf(refs) && bg.block.round >= 1
    requires inputs != [] ==> bg.block.round == inputs[|inputs| - 1].block.round + 1
    requires inputs != [] && bg.block.round != 1 ==> bg.prev == inputs[|inputs| - 1].block
    requires bg.prev.round < bg.block.round
    ensures Fed(stored, taken + refs, inputs + [bg])
  {
    var all := inputs + [bg];
    assert all[..|inputs|] == inputs;
    assert DepsOf(taken + refs) == DepsOf(taken) + DepsOf(refs);
    assert (stored + DepsOf(taken)) + DepsOf(refs) == stored + (DepsOf(taken) + DepsOf(refs));
  }

  // --- where a block comes from ---

  /** Entry i of the run is the own block of input k, or dependency j of it. */
  datatype Place = Own(k: nat) | Given(k: nat, j: nat)

  ghost predicate At(inputs: seq<BlockGraph>, i: nat, p: Place) {
    i < |AllEntries(inputs)| && p.k < |inputs| &&
    match p
    case Own(k) => AllEntries(inputs)[i] == OwnEntry(inputs[k])
    case Given(k, j) => j < |inputs[k].deps| && AllEntries(inputs)[i] == DepEntry(inputs[k].deps[j])
  }

  /** The index of a place, counted in entries and in dependencies. */
  function EntryIndex(inputs: seq<BlockGraph>, p: Place): nat
    requires p.k < |inputs|
  {
    |AllEntries(inputs[..p.k])| + match p case Own(k) => |inputs[k].deps| case Given(k, j) => j
  }

  lemma {:induction false} PlaceOf(inputs: seq<BlockGraph>, i: nat) returns (p: Place)
    requires i < |AllEntries(inputs)|
    ensures At(inputs, i, p) && EntryIndex(inputs, p) == i
    decreases |inputs|
  {
    var n := |inputs| - 1;
    var before := AllEntries(inputs[..n]);
    if i < |before| {
      p := PlaceOf(inputs[..n], i);
      assert inputs[..n][..p.k] == inputs[..p.k];
    } else {
      var j := i - |before|;
      assert AllEntries(inputs)[i] == Entries(inputs[n])[j];
      p := if j < |inputs[n].deps| then Given(n, j) else Own(n);
    }
  }

  lemma {:induction false} EntriesPrefix(inputs: seq<BlockGraph>, k: nat)
    requires k <= |inputs|
    ensures AllEntries(inputs[..k]) <= AllEntries(inputs)
    decreases |inputs|
  {
    if k == |inputs| {
      assert inputs[..k] == inputs;
    } else {
      EntriesPrefix(inputs[..|inputs| - 1], k);
      assert inputs[..|inputs| - 1][..k] == inputs[..k];
    }
  }

  lemma AtPlace(inputs: seq<BlockGraph>, p: Place)
    requires p.k < |inputs| && (p.Given? ==> p.j < |inputs[p.k].deps|)
    ensures At(inputs, EntryIndex(inputs, p), p)
  {
    EntriesPrefix(inputs, p.k + 1);
    var upTo := inputs[..p.k + 1];
    assert upTo[..p.k] == inputs[..p.k];
    var es := Entries(inputs[p.k]);
    assert AllEntries(upTo) == AllEntries(inputs[..p.k]) + es;
    var j := EntryIndex(inputs, p) - |AllEntries(inputs[..p.k])|;
    assert AllEntries(upTo)[EntryIndex(inputs, p)] == es[j];
  }

  /** The index of a dependency among all dependencies, and back. */
  lemma {:induction false} DepPlace(inputs: seq<BlockGraph>, i: nat) returns (k: nat, j: nat)
    requires i < |AllDeps(inputs)|
    ensures k < |inputs| && j < |inputs[k].deps| && AllDeps(inputs)[i] == inputs[k].deps[j]
    ensures i == |AllDeps(inputs[..k])| + j < |AllDeps(inputs[..k + 1])|
    decreases |inputs|
  {
    var n := |inputs| - 1;
    var before := AllDeps(inputs[..n]);
    if i < |before| {
      k, j := DepPlace(inputs[..n], i);
      assert inputs[..n][..k] == inputs[..k] && inputs[..n][..k + 1] == inputs[..k + 1];
    } else {
      k, j := n, i - |before|;
      assert inputs[..k + 1] == inputs;
    }
  }

  lemma {:induction false} DepIndex(inputs: seq<BlockGraph>, k: nat, j: nat) returns (i: nat)
    requires k < |inputs| && j < |inputs[k].deps|
    ensures i < |AllDeps(inputs)| && AllDeps(inputs)[i] == inputs[k].deps[j]
    ensures |AllDeps(inputs[..k])| <= i == |AllDeps(inputs[..k])| + j < |AllDeps(inputs[..k + 1])|
    decreases |inputs|
  {
    var n := |inputs| - 1;
    var before := AllDeps(inputs[..n]);
    assert inputs[..k + 1][..k] == inputs[..k];
    if k < n {
      i := DepIndex(inputs[..n], k, j);
      assert inputs[..n][..k] == inputs[..k] && inputs[..n][..k + 1] == inputs[..k + 1];
    } else {
      i := |before| + j;
      assert inputs[..k + 1] == inputs;
    }
  }

  lemma {:induction false} DepsPrefix(inputs: seq<BlockGraph>, k: nat, l: nat)
    requires k <= l <= |inputs|
    ensures |AllDeps(inputs[..k])| <= |AllDeps(inputs[..l])|
    decreases l
  {
    if k < l {
      DepsPrefix(inputs, k, l - 1);
      assert inputs[..l][..l - 1] == inputs[..l - 1];
    }
  }

  // --- each block once ---

  ghost predicate DistinctBlocks(entries: seq<Entry>) {
    forall i, j | 0 <= i < j < |entries| :: entries[i].block != entries[j].block
  }

  /** No own block has been taken as a dependency. */
  ghost predicate NoEcho(inputs: seq<BlockGraph>) {
    forall i, d | 0 <= i < |inputs| && d in AllDeps(inputs) :: d.block != inputs[i].block
  }

  /** The scheduler releases a block once, and none that was included before. */
  lemma FedDistinct(d: Depgraph.Depgraph, stored: seq<Dep>, inputs: seq<BlockGraph>)
    requires d.Valid() && d.taken <= |d.released| && Fed(stored, d.released[..d.taken], inputs)
    requires DistinctDeps(stored) && forall x | x in stored :: x.block in d.base
    ensures DistinctDeps(AllDeps(inputs))
  {
    hide Depgraph.Depgraph.CachesOk, Depgraph.Depgraph.ReceivedOk, Depgraph.Depgraph.Consistent, Quiet, Needs, Chained;
    var taken := d.released[..d.taken];
    var all := AllDeps(inputs);
    forall i, j | 0 <= i < j < |all| ensures all[i].block != all[j].block {
      if i >= |stored| {
        assert all[i].block == d.released[i - |stored|].id && all[j].block == d.released[j - |stored|].id;
      } else if j >= |stored| {
        assert all[i] == stored[i] && stored[i] in stored && all[j].block == d.released[j - |stored|].id;
      }
    }
  }

  /** Two different places of one block: one is the own block, the other its echo. */
  lemma SamePlaces(inputs: seq<BlockGraph>, p: Place, q: Place, i: nat, j: nat)
    requires Chained(inputs) && DistinctDeps(AllDeps(inputs))
    requires At(inputs, i, p) && At(inputs, j, q) && EntryIndex(inputs, p) == i && EntryIndex(inputs, q) == j && i != j
    requires AllEntries(inputs)[i].block == AllEntries(inputs)[j].block
    ensures p.Own? != q.Own?
  {
    hide AllEntries;
    if p.Own? && q.Own? {
      if p.k < q.k {
        RoundsApart(inputs, p.k, q.k);
      } else if q.k < p.k {
        RoundsApart(inputs, q.k, p.k);
      }
    }
    if p.Given? && q.Given? {
      hide Chained, AllDeps;
      var a := DepIndex(inputs, p.k, p.j);
      var b := DepIndex(inputs, q.k, q.j);
      assert a == b;
      if p.k < q.k {
        DepsPrefix(inputs, p.k + 1, q.k);
      } else if q.k < p.k {
        DepsPrefix(inputs, q.k + 1, p.k);
      }
    }
  }

  /**
    Every block is interpreted once if and only if no own block was taken back as a dependency; own blocks
    are then also apart from all dependencies.
   */
  lemma DistinctExactly(inputs: seq<BlockGraph>)
    requires Chained(inputs) && DistinctDeps(AllDeps(inputs))
    ensures DistinctBlocks(AllEntries(inputs)) <==> NoEcho(inputs)
    ensures OwnApart(inputs) <==> NoEcho(inputs)
  {
    hide Chained, DistinctDeps, DistinctBlocks, NoEcho, OwnApart;
    if DistinctBlocks(AllEntries(inputs)) {
      DistinctHasNoEcho(inputs);
    }
    if NoEcho(inputs) {
      NoEchoIsDistinct(inputs);
    }
    ApartExactly(inputs);
  }

  lemma DepIsGiven(inputs: seq<BlockGraph>, d: Dep) returns (k: nat, j: nat)
    requires d in AllDeps(inputs)
    ensures k < |inputs| && j < |inputs[k].deps| && inputs[k].deps[j] == d
  {
    var n :| 0 <= n < |AllDeps(inputs)| && AllDeps(inputs)[n] == d;
    k, j := DepPlace(inputs, n);
  }

  lemma DistinctHasNoEcho(inputs: seq<BlockGraph>)
    requires DistinctBlocks(AllEntries(inputs))
    ensures NoEcho(inputs)
  {
    hide AllEntries, AllDeps;
    forall i, d | 0 <= i < |inputs| && d in AllDeps(inputs) ensures d.block != inputs[i].block {
      var k, j := DepIsGiven(inputs, d);
      var p, q := Given(k, j), Own(i);
      AtPlace(inputs, p);
      AtPlace(inputs, q);
      var x, y := EntryIndex(inputs, p), EntryIndex(inputs, q);
      IndexApart(inputs, p, q);
      assert x < y || y < x;
    }
  }

  lemma IndexApart(inputs: seq<BlockGraph>, p: Place, q: Place)
    requires p.k < |inputs| && q.k < |inputs| && p.Given? && q.Own? && p.j < |inputs[p.k].deps|
    ensures EntryIndex(inputs, p) != EntryIndex(inputs, q)
  {
    if p.k < q.k {
      EntriesUpTo(inputs, p.k, q.k);
    } else if q.k < p.k {
      EntriesUpTo(inputs, q.k, p.k);
    }
  }

  lemma EntriesUpTo(inputs: seq<BlockGraph>, k: nat, l: nat)
    requires k < l <= |inputs|
    ensures |AllEntries(inputs[..k])| + |inputs[k].deps| + 1 <= |AllEntries(inputs[..l])|
  {
    EntriesPrefix(inputs[..l], k + 1);
    assert inputs[..l][..k + 1] == inputs[..k + 1] && inputs[..k + 1][..k] == inputs[..k];
  }

  lemma NoEchoIsDistinct(inputs: seq<BlockGraph>)
    requires Chained(inputs) && DistinctDeps(AllDeps(inputs)) && NoEcho(inputs)
    ensures DistinctBlocks(AllEntries(inputs))
  {
    hide Chained, DistinctDeps, NoEcho, AllEntries;
    var all := AllEntries(inputs);
    forall i, j | 0 <= i < j < |all| ensures all[i].block != all[j].block {
      if all[i].block == all[j].block {
        TwiceIsEcho(inputs, i, j);
      }
    }
  }

  lemma TwiceIsEcho(inputs: seq<BlockGraph>, i: nat, j: nat)
    requires Chained(inputs) && DistinctDeps(AllDeps(inputs)) && i < j < |AllEntries(inputs)|
    requires AllEntries(inputs)[i].block == AllEntries(inputs)[j].block
    ensures !NoEcho(inputs)
  {
    hide Chained, DistinctDeps, NoEcho, AllEntries;
    var p := PlaceOf(inputs, i);
    var q := PlaceOf(inputs, j);
    SamePlaces(inputs, p, q, i, j);
    var given, own := if p.Given? then p else q, if p.Given? then q else p;
    DepIsEcho(inputs, given.k, given.j, own.k);
  }

  lemma DepIsEcho(inputs: seq<BlockGraph>, k: nat, j: nat, i: nat)
    requires k < |inputs| && j < |inputs[k].deps| && i < |inputs| && inputs[k].deps[j].block == inputs[i].block
    ensures !NoEcho(inputs)
  {
    hide AllDeps;
    var n := DepIndex(inputs, k, j);
    assert AllDeps(inputs)[n] in AllDeps(inputs);
  }

  lemma ApartExactly(inputs: seq<BlockGraph>)
    requires Chained(inputs)
    ensures OwnApart(inputs) <==> NoEcho(inputs)
  {
    hide AllDeps;
    if OwnApart(inputs) {
      forall i, d | 0 <= i < |inputs| && d in AllDeps(inputs) ensures d.block != inputs[i].block {
        var k, j := DepIsGiven(inputs, d);
        assert inputs[k].deps[j] in inputs[k].deps;
        assert d.block in DepBlocks(inputs[k]);
      }
    }
    if NoEcho(inputs) {
      forall i, k | 0 <= i < |inputs| && 0 <= k < |inputs| ensures inputs[i].block !in DepBlocks(inputs[k]) {
        if d :| d in inputs[k].deps && d.block == inputs[i].block {
          var j :| 0 <= j < |inputs[k].deps| && inputs[k].deps[j] == d;
          DepIsEcho(inputs, k, j, i);
        }
      }
    }
  }

  // --- the echo of an own block ---

  /** The block data that a peer sends back for an own block: the id is a hash of the content. */
  ghost predicate EchoOf(b: BlockData, bg: BlockGraph) {
    b.id == bg.block && b.deps == Blocks(bg.deps) && b.prev == bg.prev
  }

  /**
    An own block that is received back, also after a start of the node: it is released if and only if it has
    no previous block, or its previous block has come back and been included as well.
   */
  lemma EchoReleased(d: Depgraph.Depgraph, b: BlockData, stored: seq<Dep>, inputs: seq<BlockGraph>, k: nat)
    requires d.Valid() && b in d.received && b.id !in d.base
    requires d.taken <= |d.released| && Fed(stored, d.released[..d.taken], inputs) && k < |inputs|
    requires EchoOf(b, inputs[k]) && forall x | x in stored :: x.block in d.base
    ensures b.id in IdsIn(d.released) <==> !b.prev.Valid() || b.prev in d.Inc()
  {
    hide Depgraph.Depgraph.CachesOk, Depgraph.Depgraph.ReceivedOk, Quiet, Chained, AllDeps;
    forall x | x in Blocks(inputs[k].deps) ensures x in d.Inc() {
      var j :| 0 <= j < |inputs[k].deps| && inputs[k].deps[j].block == x;
      var n := DepIndex(inputs, k, j);
      if n < |stored| {
        assert stored[n] in stored;
      } else {
        assert d.released[n - |stored|] in d.released;
      }
    }
    if b.id in IdsIn(d.released) {
      NeedsOfReleased(d, b);
    } else {
      NotYetNeeded(d, b);
    }
  }

  lemma NeedsOfReleased(d: Depgraph.Depgraph, b: BlockData)
    requires d.Valid() && b in d.received && b.id in IdsIn(d.released)
    ensures Needs(d.self, b) <= d.Inc()
  {
    hide Depgraph.Depgraph.CachesOk, Depgraph.Depgraph.ReceivedOk, Quiet, Needs;
    var i :| 0 <= i < |d.released| && d.released[i].id == b.id;
    assert d.released[i] in d.released;
    assert Needs(d.self, d.released[i]) == Needs(d.self, b);
    assert IdsIn(d.released[..i]) <= IdsIn(d.released);
  }

  lemma NotYetNeeded(d: Depgraph.Depgraph, b: BlockData)
    requires d.Valid() && b in d.received && b.id !in d.Inc()
    ensures !(Needs(d.self, b) <= d.Inc())
  {
    hide Depgraph.Depgraph.CachesOk, Depgraph.Depgraph.ReceivedOk, Depgraph.Depgraph.Consistent, Quiet, Topological,
      Needs;
    d.ReleasedExactly({});
  }

  /**
    Once it is handed out, the block is interpreted a second time, as a dependency of a later own block; so
    the blocks of the run are not distinct.
   */
  lemma EchoRepeats(inputs: seq<BlockGraph>, d: Dep, i: nat)
    requires Chained(inputs) && DistinctDeps(AllDeps(inputs)) && d in AllDeps(inputs) && i < |inputs|
    requires d.block == inputs[i].block
    ensures !DistinctBlocks(AllEntries(inputs)) && !OwnApart(inputs)
  {
    hide Chained, DistinctDeps, DistinctBlocks, OwnApart;
    DistinctExactly(inputs);
    assert !NoEcho(inputs);
  }

  /** Echoes are of own blocks made before, with their content. */
  ghost predicate Faithful(inputs: seq<BlockGraph>) {
    forall k, l, j | 0 <= k < |inputs| && 0 <= l < |inputs| && 0 <= j < |inputs[l].deps|
      && inputs[l].deps[j].block == inputs[k].block ::
      k < l && inputs[l].deps[j].deps == Blocks(inputs[k].deps) && inputs[l].deps[j].prev == inputs[k].prev
  }

  /**
    After the first own block of the run, the block before that one came back, and after it the first own
    block itself. It takes a start of the node: otherwise there is no block before.
   */
  ghost predicate PrevBetween(inputs: seq<BlockGraph>) {
    inputs != [] &&
    exists a, b | |inputs[0].deps| <= a < b < |AllDeps(inputs)| ::
      AllDeps(inputs)[a].block == inputs[0].prev && AllDeps(inputs)[b].block == inputs[0].block
  }

  ghost predicate AllValid(entries: seq<Entry>) {
    forall i | 0 <= i < |entries| :: entries[i].block.Valid()
  }

  /** A block that comes back finds no link that it did not find the first time, if and only if that is not so. */
  lemma SteadyExactly(inputs: seq<BlockGraph>)
    requires Chained(inputs) && DistinctDeps(AllDeps(inputs)) && Faithful(inputs) && AllValid(AllEntries(inputs))
    ensures Steady(AllEntries(inputs)) <==> !PrevBetween(inputs)
  {
    hide Chained, DistinctDeps, Faithful, AllValid, Steady, AllEntries, AllDeps, PrevBetween;
    if PrevBetween(inputs) {
      NotSteady(inputs);
    } else {
      EchoesAreSteady(inputs);
    }
  }

  lemma EchoesAreSteady(inputs: seq<BlockGraph>)
    requires Chained(inputs) && DistinctDeps(AllDeps(inputs)) && Faithful(inputs) && AllValid(AllEntries(inputs))
    requires !PrevBetween(inputs)
    ensures Steady(AllEntries(inputs))
  {
    hide Chained, DistinctDeps, LinksOf, Faithful, AllValid, AllEntries, AllDeps, PrevBetween;
    var all := AllEntries(inputs);
    forall m, n, d | 0 <= m < n < |all| && all[m].block == all[n].block && d in LinksOf(all[n]) && Occurs(all, n, d)
      ensures Occurs(all, m + 1, d)
    {
      var p := PlaceOf(inputs, m);
      var q := PlaceOf(inputs, n);
      SamePlaces(inputs, p, q, m, n);
      if p.Own? {
        EchoLink(inputs, m, n, p.k, q.k, q.j, d);
      } else {
        OwnIsFirst(inputs, p, q);
      }
    }
  }

  lemma OwnIsFirst(inputs: seq<BlockGraph>, p: Place, q: Place)
    requires Faithful(inputs) && p.Given? && q.Own? && p.k < |inputs| && q.k < |inputs| && p.j < |inputs[p.k].deps|
    requires inputs[p.k].deps[p.j].block == inputs[q.k].block
    ensures EntryIndex(inputs, q) < EntryIndex(inputs, p)
  {
    EntriesUpTo(inputs, q.k, p.k);
  }

  lemma EchoLink(inputs: seq<BlockGraph>, m: nat, n: nat, k: nat, l: nat, j: nat, d: BlockID)
    requires Chained(inputs) && Faithful(inputs) && AllValid(AllEntries(inputs)) && !PrevBetween(inputs)
    requires At(inputs, m, Own(k)) && EntryIndex(inputs, Own(k)) == m
    requires At(inputs, n, Given(l, j)) && EntryIndex(inputs, Given(l, j)) == n
    requires AllEntries(inputs)[m].block == AllEntries(inputs)[n].block
    requires d in LinksOf(AllEntries(inputs)[n]) && Occurs(AllEntries(inputs), n, d)
    ensures Occurs(AllEntries(inputs), m + 1, d)
  {
    hide AllEntries, AllDeps, PrevBetween;
    var all := AllEntries(inputs);
    var dep := inputs[l].deps[j];
    assert dep.deps == Blocks(inputs[k].deps) && dep.prev == inputs[k].prev;
    if d in Blocks(inputs[k].deps) {
      var i :| 0 <= i < |inputs[k].deps| && inputs[k].deps[i].block == d;
      var p := Given(k, i);
      AtPlace(inputs, p);
      assert all[EntryIndex(inputs, p)].block == d;
    } else if k > 0 {
      var p := Own(k - 1);
      AtPlace(inputs, p);
      EntriesUpTo(inputs, k - 1, k);
      assert all[EntryIndex(inputs, p)].block == d;
    } else {
      FirstPrev(inputs, n, l, j, d);
    }
  }

  /** The block before the first own block, when the first own block finds it on coming back. */
  lemma FirstPrev(inputs: seq<BlockGraph>, n: nat, l: nat, j: nat, d: BlockID)
    requires inputs != [] && Chained(inputs) && !PrevBetween(inputs) && d == inputs[0].prev
    requires At(inputs, n, Given(l, j)) && EntryIndex(inputs, Given(l, j)) == n
    requires inputs[l].deps[j].block == inputs[0].block
    requires Occurs(AllEntries(inputs), n, d)
    ensures Occurs(AllEntries(inputs), EntryIndex(inputs, Own(0)) + 1, d)
  {
    hide AllEntries, AllDeps;
    var all := AllEntries(inputs);
    var i :| 0 <= i < n && i < |all| && all[i].block == d;
    var p := PlaceOf(inputs, i);
    if p.Own? {
      if p.k > 0 {
        RoundsApart(inputs, 0, p.k);
      }
    } else if p.k > 0 {
      var a := DepIndex(inputs, p.k, p.j);
      var b := DepIndex(inputs, l, j);
      DepsInOrder(inputs, p, Given(l, j), a, b);
      FirstDeps(inputs, p.k);
    } else {
      assert all[EntryIndex(inputs, p)].block == d;
    }
  }

  lemma FirstDeps(inputs: seq<BlockGraph>, k: nat)
    requires 0 < k <= |inputs|
    ensures |inputs[0].deps| <= |AllDeps(inputs[..k])| && inputs[..0] == [] && AllDeps([]) == []
  {
    DepsPrefix(inputs, 1, k);
    assert inputs[..1] == [inputs[0]] && inputs[..1][..0] == [];
    assert AllDeps(inputs[..1]) == [] + inputs[0].deps;
  }

  /** Dependencies are interpreted in the order in which they were taken. */
  lemma DepsInOrder(inputs: seq<BlockGraph>, p: Place, q: Place, a: nat, b: nat)
    requires p.Given? && q.Given? && p.k < |inputs| && q.k < |inputs| && p.j < |inputs[p.k].deps|
    requires q.j < |inputs[q.k].deps|
    requires a == |AllDeps(inputs[..p.k])| + p.j < |AllDeps(inputs[..p.k + 1])|
    requires b == |AllDeps(inputs[..q.k])| + q.j < |AllDeps(inputs[..q.k + 1])|
    ensures EntryIndex(inputs, p) < EntryIndex(inputs, q) <==> a < b
  {
    hide AllEntries, AllDeps;
    if p.k < q.k {
      EntriesUpTo(inputs, p.k, q.k);
      DepsPrefix(inputs, p.k + 1, q.k);
    } else if q.k < p.k {
      EntriesUpTo(inputs, q.k, p.k);
      DepsPrefix(inputs, q.k + 1, p.k);
    }
  }

  lemma NotSteady(inputs: seq<BlockGraph>)
    requires Chained(inputs) && DistinctDeps(AllDeps(inputs)) && Faithful(inputs) && PrevBetween(inputs)
    ensures !Steady(AllEntries(inputs))
  {
    hide AllEntries, AllDeps;
    var all, deps := AllEntries(inputs), AllDeps(inputs);
    var a, b :| |inputs[0].deps| <= a < b < |deps| && deps[a].block == inputs[0].prev
      && deps[b].block == inputs[0].block;
    var k, j := DepPlace(inputs, a);
    var l, i := DepPlace(inputs, b);
    var p, q, own := Given(k, j), Given(l, i), Own(0);
    DepsInOrder(inputs, p, q, a, b);
    AtPlace(inputs, p);
    AtPlace(inputs, q);
    AtPlace(inputs, own);
    OwnIsFirst(inputs, q, own);
    var m, n, d := EntryIndex(inputs, own), EntryIndex(inputs, q), inputs[0].prev;
    assert all[EntryIndex(inputs, p)].block == d && Occurs(all, n, d);
    assert all[n].prev == d && d in LinksOf(all[n]);
    NotBeforeFirst(inputs, a);
  }

  lemma NotBeforeFirst(inputs: seq<BlockGraph>, a: nat)
    requires inputs != [] && Chained(inputs) && DistinctDeps(AllDeps(inputs))
    requires |inputs[0].deps| <= a < |AllDeps(inputs)| && AllDeps(inputs)[a].block == inputs[0].prev
    ensures !Occurs(AllEntries(inputs), EntryIndex(inputs, Own(0)) + 1, inputs[0].prev)
  {
    hide AllEntries, AllDeps;
    var all := AllEntries(inputs);
    if i :| 0 <= i < EntryIndex(inputs, Own(0)) + 1 && i < |all| && all[i].block == inputs[0].prev {
      var p := PlaceOf(inputs, i);
      if p.k > 0 {
        EntriesUpTo(inputs, 0, p.k);
      } else if p.Given? {
        var b := DepIndex(inputs, 0, p.j);
        FirstDeps(inputs, 1);
      }
    }
  }
}
