/**
  The reasoning behind the block scheduler of broadcast/depgraph.go: which blocks wait for which, what
  a cascade of releases keeps, and which blocks end up released.
 */
module Scheduling {
  import opened Ids

  /** A received block; `size` is the rough size of its signed reference. */
  datatype BlockData = BlockData(id: BlockID, prev: BlockID, deps: seq<BlockID>, size: nat)

  /** What a block must wait for: its previous block, and its dependencies other than our own blocks. */
  function Needs(self: nat, b: BlockData): set<BlockID> {
    (if b.prev.Valid() then {b.prev} else {}) + set d | d in b.deps && d.node != self
  }

  // --- the lists of waiting blocks ---

  type Await = map<BlockID, seq<BlockID>>
  type Pending = map<BlockID, BlockData>

  predicate Lists(await: Await, d: BlockID, x: BlockID) {
    d in await && x in await[d]
  }

  /** The await map of addPending. */
  function AddAwait(await: Await, deps: seq<BlockID>, x: BlockID): Await
    decreases |deps|
  {
    if deps == [] then await
    else
      var d := deps[0];
      var list := if d in await then await[d] else [];
      AddAwait(if x in list then await else await[d := list + [x]], deps[1..], x)
  }

  lemma {:induction false} AddAwaitLists(await: Await, deps: seq<BlockID>, x: BlockID)
    ensures
      var a := AddAwait(await, deps, x);
      forall d, y :: Lists(a, d, y) <==> Lists(await, d, y) || (y == x && d in deps)
    ensures AddAwait(await, deps, x).Keys == await.Keys + set d | d in deps
    decreases |deps|
  {
    if deps != [] {
      var d := deps[0];
      var list := if d in await then await[d] else [];
      AddAwaitLists(if x in list then await else await[d := list + [x]], deps[1..], x);
    }
  }

  lemma {:induction false} AddAwaitSame(await: Await, deps: seq<BlockID>, x: BlockID)
    requires forall d | d in deps :: Lists(await, d, x)
    ensures AddAwait(await, deps, x) == await
    decreases |deps|
  {
    if deps != [] {
      assert Lists(await, deps[0], x);
      AddAwaitSame(await, deps[1..], x);
    }
  }

  // --- what the cascade keeps ---

  /** Only blocks that are not included, or whose turn is still to come, are waited for. */
  ghost predicate Awaited(await: Await, inc: set<BlockID>, q: seq<BlockID>) {
    forall d | d in await :: d !in inc || d in q
  }

  /** Whoever is listed is pending, and is listed under something that it needs. */
  ghost predicate ListedPending(self: nat, await: Await, pending: Pending) {
    && (forall x | x in pending :: pending[x].id == x)
    && (forall d, x | Lists(await, d, x) :: x in pending && d in Needs(self, pending[x]))
  }

  /** A block that is listed has its turn only after every block under which it is listed. */
  ghost predicate TurnsOrdered(await: Await, q: seq<BlockID>) {
    forall d, x, k: nat | Lists(await, d, x) && k < |q| && q[k] == x :: d in q[..k]
  }

  /** Included blocks are taken off the pending map at their turn; until then all they need is included. */
  ghost predicate PendingReleased(self: nat, pending: Pending, inc: set<BlockID>, q: seq<BlockID>) {
    forall x | x in pending && x in inc :: Needs(self, pending[x]) <= inc && x in q
  }

  /** A pending block is listed under everything that it still needs. */
  ghost predicate PendingListed(self: nat, await: Await, pending: Pending, inc: set<BlockID>) {
    forall x, d | x in pending && x !in inc && d in Needs(self, pending[x]) && d !in inc :: Lists(await, d, x)
  }

  ghost predicate Waits(await: Await, x: BlockID) {
    exists d :: Lists(await, d, x)
  }

  ghost predicate PendingWaits(await: Await, pending: Pending, inc: set<BlockID>) {
    forall x | x in pending && x !in inc :: Waits(await, x)
  }

  ghost predicate Cascade(self: nat, await: Await, pending: Pending, inc: set<BlockID>, q: seq<BlockID>) {
    && Awaited(await, inc, q)
    && ListedPending(self, await, pending)
    && TurnsOrdered(await, q)
    && PendingReleased(self, pending, inc, q)
    && PendingListed(self, await, pending, inc)
    && (forall x | x in q :: x in inc)
  }

  /** The state between two received blocks. */
  ghost predicate Quiet(self: nat, await: Await, pending: Pending, inc: set<BlockID>) {
    Cascade(self, await, pending, inc, []) && PendingWaits(await, pending, inc)
  }

  /** While it is `next`'s turn and its list is done up to i. */
  ghost predicate Turn(self: nat, await: Await, pending: Pending, inc: set<BlockID>, next: BlockID, rest: seq<BlockID>,
                       i: nat) {
    && Cascade(self, await, pending, inc, [next] + rest)
    && (forall x | x in pending && x !in inc ::
          (exists d :: d != next && Lists(await, d, x))
            || (next in await && i <= |await[next]| && x in await[next][i..]))
  }

  /** Blocks found to be waiting, since the last release, for something not included. */
  ghost predicate SeenWaits(await: Await, inc: set<BlockID>, seen: set<BlockID>) {
    forall x | x in seen :: x in inc || exists d :: d !in inc && Lists(await, d, x)
  }

  // --- a block that is taken from the input ---

  /** A released block starts a cascade with itself in the queue; it was not pending. */
  lemma ReleaseFirst(self: nat, await: Await, pending: Pending, inc: set<BlockID>, b: BlockData)
    requires Quiet(self, await, pending, inc)
    requires b.id in pending ==> Needs(self, pending[b.id]) == Needs(self, b)
    requires b.id in inc || Needs(self, b) <= inc
    ensures b.id !in pending
    ensures Cascade(self, await, pending, inc + {b.id}, [b.id]) && PendingWaits(await, pending, inc + {b.id})
  {
    assert b.id in pending && b.id !in inc ==> Waits(await, b.id);
  }

  /** A block that cannot be released is put on the lists of all that it lacks. */
  lemma ParkFirst(self: nat, await: Await, pending: Pending, inc: set<BlockID>, b: BlockData, missing: seq<BlockID>)
    requires Quiet(self, await, pending, inc) && b.id !in inc
    requires b.id in pending ==> Needs(self, pending[b.id]) == Needs(self, b)
    requires missing != [] && forall d :: d in missing <==> d in Needs(self, b) && d !in inc
    ensures Quiet(self, AddAwait(await, missing, b.id), pending[b.id := b], inc)
  {
    AddAwaitLists(await, missing, b.id);
    var a, p := AddAwait(await, missing, b.id), pending[b.id := b];
    assert Lists(a, missing[0], b.id);
    forall x | x in p && x !in inc ensures Waits(a, x) {
      if x != b.id {
        assert Waits(await, x);
        var d :| Lists(await, d, x);
        assert Lists(a, d, x);
      }
    }
  }

  // --- the turns of a cascade ---

  lemma StartTurn(self: nat, await: Await, pending: Pending, inc: set<BlockID>, q: seq<BlockID>)
    requires q != [] && Cascade(self, await, pending, inc, q) && PendingWaits(await, pending, inc)
    ensures Turn(self, await, pending, inc, q[0], q[1..], 0)
  {
    assert [q[0]] + q[1..] == q;
    forall x | x in pending && x !in inc
      ensures (exists d :: d != q[0] && Lists(await, d, x)) || (q[0] in await && x in await[q[0]][0..])
    {
      assert Waits(await, x);
      var d :| Lists(await, d, x);
    }
  }

  /** The next block on the list is released, or was already: it joins the end of the queue. */
  lemma ReleaseListed(self: nat, await: Await, pending: Pending, inc: set<BlockID>, next: BlockID, rest: seq<BlockID>,
                      i: nat)
    requires Turn(self, await, pending, inc, next, rest, i) && next in await && i < |await[next]|
    requires var x := await[next][i]; x in inc || (x in pending && Needs(self, pending[x]) <= inc)
    ensures Turn(self, await, pending, inc + {await[next][i]}, next, rest + [await[next][i]], i + 1)
  {
    hide Needs;
    var x := await[next][i];
    assert Lists(await, next, x);
    var q := [next] + rest;
    var q' := [next] + (rest + [x]);
    assert q' == q + [x];
    assert Needs(self, pending[x]) <= inc;
    forall d | Lists(await, d, x) ensures d in q {
      assert d in Needs(self, pending[x]);
    }
    TurnsOrderedAppend(await, q, x);
    hide TurnsOrdered;
    assert await[next][i..] == [x] + await[next][i + 1..];
    hide Lists;
  }

  lemma TurnsOrderedAppend(await: Await, q: seq<BlockID>, x: BlockID)
    requires TurnsOrdered(await, q) && forall d | Lists(await, d, x) :: d in q
    ensures TurnsOrdered(await, q + [x])
  {
    var q' := q + [x];
    forall d, y, k: nat | Lists(await, d, y) && k < |q'| && q'[k] == y ensures d in q'[..k] {
      if k < |q| {
        assert d in q[..k] && q[..k] == q'[..k];
      } else {
        assert q'[..k] == q;
      }
    }
  }

  /** The next block on the list still lacks something, and is already listed under all of it. */
  lemma KeepListed(self: nat, await: Await, pending: Pending, inc: set<BlockID>, next: BlockID, rest: seq<BlockID>,
                   i: nat, d: BlockID)
    requires Turn(self, await, pending, inc, next, rest, i) && next in await && i < |await[next]|
    requires d !in inc && Lists(await, d, await[next][i])
    ensures Turn(self, await, pending, inc, next, rest, i + 1)
  {
    assert next in [next] + rest;
    assert await[next][i..] == [await[next][i]] + await[next][i + 1..];
  }

  lemma SkipIncluded(self: nat, await: Await, pending: Pending, inc: set<BlockID>, next: BlockID, rest: seq<BlockID>,
                     i: nat)
    requires Turn(self, await, pending, inc, next, rest, i) && next in await && i < |await[next]|
    requires await[next][i] in inc
    ensures Turn(self, await, pending, inc, next, rest, i + 1)
  {
    assert await[next][i..] == [await[next][i]] + await[next][i + 1..];
  }

  lemma NotListed(await: Await, next: BlockID, rest: seq<BlockID>, d: BlockID)
    requires TurnsOrdered(await, [next] + rest)
    ensures !Lists(await, d, next)
  {
    var q := [next] + rest;
    assert q[0] == next && q[..0] == [];
  }

  lemma TurnsOrderedRest(await: Await, next: BlockID, rest: seq<BlockID>)
    requires TurnsOrdered(await, [next] + rest)
    ensures TurnsOrdered(await - {next}, rest)
  {
    var q := [next] + rest;
    forall d, y, k: nat | Lists(await - {next}, d, y) && k < |rest| && rest[k] == y ensures d in rest[..k] {
      assert Lists(await, d, y) && q[k + 1] == y;
      assert q[..k + 1] == [next] + rest[..k];
    }
  }

  /** Whoever has had its turn is on no list, so its pending entry can go. */
  lemma EndTurn(self: nat, await: Await, pending: Pending, inc: set<BlockID>, next: BlockID, rest: seq<BlockID>, i: nat)
    requires Turn(self, await, pending, inc, next, rest, i) && (next in await ==> i == |await[next]|)
    ensures
      var a, p := await - {next}, pending - {next};
      Cascade(self, a, p, inc, rest) && PendingWaits(a, p, inc)
  {
    hide Needs;
    var q := [next] + rest;
    var a, p := await - {next}, pending - {next};
    TurnsOrderedRest(await, next, rest);
    forall d, x ensures Lists(a, d, x) <==> d != next && Lists(await, d, x) {
    }
    forall d, x | Lists(a, d, x) ensures x in p && d in Needs(self, p[x]) {
      NotListed(await, next, rest, d);
    }
    hide TurnsOrdered, Lists;
    assert next in q;
    assert forall x :: x in q <==> x == next || x in rest;
    forall x | x in p && x !in inc ensures Waits(a, x) {
      var d :| d != next && Lists(await, d, x);
      assert Lists(a, d, x);
    }
  }

  // --- what has been released ---

  function IdsIn(blocks: seq<BlockData>): set<BlockID> {
    set b | b in blocks :: b.id
  }

  /** No id twice, and every block after all that it needs, starting from the blocks of `base`. */
  ghost predicate Topological(self: nat, base: set<BlockID>, released: seq<BlockData>) {
    && (forall i, j | 0 <= i < j < |released| :: released[i].id != released[j].id)
    && (forall i | 0 <= i < |released| ::
          released[i].id !in base && Needs(self, released[i]) <= base + IdsIn(released[..i]))
  }

  /** Before anything is received. */
  lemma NothingScheduled(self: nat, base: set<BlockID>)
    ensures Quiet(self, map[], map[], base) && Topological(self, base, []) && IdsIn([]) == {}
  {
    hide Needs;
  }

  lemma TopologicalPush(self: nat, base: set<BlockID>, released: seq<BlockData>, b: BlockData)
    requires Topological(self, base, released)
    requires b.id !in base + IdsIn(released) && Needs(self, b) <= base + IdsIn(released)
    ensures Topological(self, base, released + [b]) && IdsIn(released + [b]) == IdsIn(released) + {b.id}
  {
    var r := released + [b];
    forall i | 0 <= i < |r| ensures r[i].id !in base && Needs(self, r[i]) <= base + IdsIn(r[..i]) {
      if i < |released| {
        assert r[..i] == released[..i];
      } else {
        assert r[..i] == released;
      }
    }
    forall i | 0 <= i < |released| ensures released[i].id in IdsIn(released) {
    }
  }

  /** A set of ids that contains every received block all of whose needs it contains. */
  ghost predicate Closed(self: nat, received: set<BlockData>, ids: set<BlockID>) {
    forall b | b in received && Needs(self, b) <= ids :: b.id in ids
  }

  /** Nothing is released that could be withheld: every closed set holds all that was released. */
  lemma {:induction false} ReleasedIsLeast(self: nat, base: set<BlockID>, received: set<BlockData>,
                                           released: seq<BlockData>, ids: set<BlockID>)
    requires Topological(self, base, released) && (forall b | b in released :: b in received)
    requires base <= ids && Closed(self, received, ids)
    ensures base + IdsIn(released) <= ids
    decreases |released|
  {
    hide Needs, IdsIn;
    if released == [] {
      NoIds();
    } else {
      var n := |released| - 1;
      var before, last := released[..n], released[n];
      TopologicalPrefix(self, base, released, n);
      ReleasedIsLeast(self, base, received, before, ids);
      IdsInPush(before, last);
      assert released == before + [last];
      assert last in released;
    }
  }

  lemma NoIds()
    ensures IdsIn([]) == {}
  {
  }

  lemma IdsInPush(blocks: seq<BlockData>, b: BlockData)
    ensures IdsIn(blocks + [b]) == IdsIn(blocks) + {b.id}
  {
  }

  lemma TopologicalPrefix(self: nat, base: set<BlockID>, released: seq<BlockData>, n: nat)
    requires Topological(self, base, released) && n <= |released|
    ensures Topological(self, base, released[..n])
  {
    hide Needs, IdsIn;
    forall i | 0 <= i < n ensures released[..n][..i] == released[..i] {
    }
  }

  /**
    What is released depends only on which blocks were received, not on their order: two schedulers
    that received the same blocks, and hold nothing back that could go, have released the same.
   */
  lemma OrderIrrelevant(self: nat, base: set<BlockID>, received: set<BlockData>, released: seq<BlockData>,
                        released': seq<BlockData>)
    requires Topological(self, base, released) && (forall b | b in released :: b in received)
    requires Topological(self, base, released') && (forall b | b in released' :: b in received)
    requires Closed(self, received, base + IdsIn(released)) && Closed(self, received, base + IdsIn(released'))
    ensures IdsIn(released) == IdsIn(released')
  {
    hide Needs, Closed;
    assert base !! IdsIn(released) && base !! IdsIn(released');
    hide Topological, IdsIn;
    ReleasedIsLeast(self, base, received, released, base + IdsIn(released'));
    ReleasedIsLeast(self, base, received, released', base + IdsIn(released));
  }

  lemma SeenStays(await: Await, inc: set<BlockID>, seen: set<BlockID>, next: BlockID)
    requires SeenWaits(await, inc, seen) && next in inc
    ensures SeenWaits(await - {next}, inc, seen)
  {
    forall x | x in seen && x !in inc ensures exists d :: d !in inc && Lists(await - {next}, d, x) {
      var d :| d !in inc && Lists(await, d, x);
      assert Lists(await - {next}, d, x);
    }
  }

  lemma FewerAwaited(await: Await, next: BlockID)
    ensures next in await ==> |await - {next}| < |await|
    ensures next !in await ==> await - {next} == await
  {
    assert (await - {next}).Keys == await.Keys - {next};
  }

  /** Who is listed under `next` is pending. */
  lemma ListedIsPending(self: nat, await: Await, pending: Pending, inc: set<BlockID>, next: BlockID,
                        rest: seq<BlockID>, i: nat)
    requires Turn(self, await, pending, inc, next, rest, i) && next in await && i < |await[next]|
    ensures await[next][i] in pending && pending[await[next][i]].id == await[next][i] && next in inc
  {
    assert Lists(await, next, await[next][i]);
    assert next in [next] + rest;
  }

  /** Parking a block of the cascade once more changes nothing. */
  lemma ParkAgain(self: nat, await: Await, pending: Pending, inc: set<BlockID>, next: BlockID, rest: seq<BlockID>,
                  i: nat, x: BlockID, missing: seq<BlockID>)
    requires Turn(self, await, pending, inc, next, rest, i) && x in pending && x !in inc
    requires forall d :: d in missing <==> d in Needs(self, pending[x]) && d !in inc
    ensures AddAwait(await, missing, x) == await && pending[x := pending[x]] == pending
    ensures forall d | d in missing :: Lists(await, d, x)
  {
    AddAwaitSame(await, missing, x);
  }

  /** Between received blocks, a pending block is listed under something that is still missing. */
  lemma PendingLacks(self: nat, await: Await, pending: Pending, inc: set<BlockID>, x: BlockID)
    requires Quiet(self, await, pending, inc) && x in pending
    ensures exists d :: d in Needs(self, pending[x]) && d !in inc && Lists(await, d, x)
  {
    assert x !in inc;
    var d :| Lists(await, d, x);
  }

  lemma QueuedIncluded(self: nat, await: Await, pending: Pending, inc: set<BlockID>, q: seq<BlockID>)
    requires Cascade(self, await, pending, inc, q) && q != []
    ensures q[0] in inc
  {
    assert q[0] in q;
  }

  lemma PendingIds(self: nat, await: Await, pending: Pending, inc: set<BlockID>, x: BlockID)
    requires Quiet(self, await, pending, inc) && x in pending
    ensures pending[x].id == x
  {
  }

  lemma SeenFirst(await: Await, inc: set<BlockID>, x: BlockID)
    requires x in inc
    ensures SeenWaits(await, inc, {x})
  {
  }
}
