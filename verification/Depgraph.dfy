/**
  The block scheduler: broadcast/depgraph.go, with the included index of broadcast/store.go that it
  consults and the steps of genBlocks in broadcast/broadcast.go that take blocks from it.
 */
module Depgraph {
  import opened Ids
  import opened Scheduling

  /** The part of the store that tells which received blocks have been included in an own block. */
  class StoreIndex {
    /** The included keys, with the value that is stored under them. */
    var included: map<BlockID, bool>
    /** The not-included keys. */
    var notIncluded: set<BlockID>
    /** The ids under which a block is stored. */
    var blocks: set<BlockID>

    /** Exactly the blocks marked as not included have a not-included key, and they are stored. */
    ghost predicate Valid()
      reads this
    {
      (forall id :: id in notIncluded <==> id in included && !included[id]) && notIncluded <= blocks
    }

    constructor ()
      ensures Valid() && included == map[] && blocks == {}
    {
      included, notIncluded, blocks := map[], {}, {};
    }

    predicate IsIncluded(id: BlockID)
      reads this
    {
      id in included && included[id]
    }

    /** setBlock: a block that is already known keeps its mark. */
    method SetBlock(id: BlockID)
      requires Valid()
      modifies this
      ensures Valid()
      ensures forall x :: IsIncluded(x) <==> old(IsIncluded(x))
      ensures id in included && (id !in old(included) ==> id in blocks && id in notIncluded)
      ensures old(included.Keys) <= included.Keys && old(notIncluded) <= notIncluded && old(blocks) <= blocks
    {
      if id in included {
        return;
      }
      included := included[id := false];
      notIncluded := notIncluded + {id};
      blocks := blocks + {id};
    }

    /** setOwnBlock: the dependencies of the own block become included. */
    method SetOwnBlock(own: BlockID, deps: seq<BlockID>)
      requires Valid()
      modifies this
      ensures Valid() && own in blocks
      ensures forall x :: IsIncluded(x) <==> old(IsIncluded(x)) || x in deps
      ensures forall x :: x in notIncluded <==> x in old(notIncluded) && x !in deps
    {
      blocks := blocks + {own};
      for i := 0 to |deps|
        invariant blocks == old(blocks) + {own} && notIncluded == old(notIncluded)
        invariant included.Keys == old(included).Keys + set d | d in deps[..i]
        invariant forall x | x in included ::
          included[x] == (x in deps[..i] || (x in old(included) && old(included)[x]))
      {
        assert deps[..i + 1] == deps[..i] + [deps[i]];
        included := included[deps[i] := true];
      }
      assert deps[..|deps|] == deps;
      for i := 0 to |deps|
        invariant blocks == old(blocks) + {own} && included.Keys == old(included).Keys + set d | d in deps
        invariant forall x | x in included :: included[x] == (x in deps || (x in old(included) && old(included)[x]))
        invariant forall x :: x in notIncluded <==> x in old(notIncluded) && x !in deps[..i]
      {
        assert deps[..i + 1] == deps[..i] + [deps[i]];
        notIncluded := notIncluded - {deps[i]};
      }
    }
  }

  /** The loop over icache that stops after n entries. */
  method SomeEntries(cache: map<BlockID, bool>, n: nat) returns (ncache: map<BlockID, bool>)
    requires n <= |cache|
    ensures |ncache| == n && forall k | k in ncache :: k in cache && ncache[k] == cache[k]
  {
    ncache := map[];
    var keys, j := cache.Keys, 0;
    while j < n
      invariant 0 <= j <= n && |ncache| == j && |keys| == |cache| - j && keys <= cache.Keys && ncache.Keys !! keys
      invariant forall k | k in ncache :: k in cache && ncache[k] == cache[k]
    {
      var k :| k in keys;
      ncache := ncache[k := cache[k]];
      keys := keys - {k};
      j := j + 1;
    }
  }

  class Depgraph {
    const self: nat
    const store: StoreIndex
    var await: Await
    var pending: Pending
    var blocks: seq<BlockData>
    var input: seq<BlockData>
    var icache: map<BlockID, bool>
    var tcache: map<BlockID, bool>

    /** What was included when the scheduler was made. */
    ghost var base: set<BlockID>
    /** All blocks that were released, and how many of them have been taken. */
    ghost var released: seq<BlockData>
    ghost var taken: nat
    /** All blocks that were taken from the input. */
    ghost var received: set<BlockData>

    /** The ids ever marked as included, or stored as included. */
    ghost function Inc(): set<BlockID>
      reads this`base, this`released
    {
      base + IdsIn(released)
    }

    /** The two caches and the store together answer for Inc. */
    ghost predicate CachesOk()
      reads this`tcache, this`icache, this`base, this`released, store
    {
      && (forall id | id in tcache :: tcache[id] && id in Inc())
      && (forall id | id in icache :: icache[id] == (id in Inc()))
      && (forall id | id in Inc() :: id in tcache || store.IsIncluded(id))
      && (forall id | store.IsIncluded(id) :: id in Inc())
    }

    ghost predicate QueueOk()
      reads this`taken, this`released, this`blocks, this`base, this`received
    {
      && taken <= |released| && blocks == released[taken..]
      && Topological(self, base, released)
      && forall b | b in released :: b in received
    }

    /** Every received block is included or pending. */
    ghost predicate ReceivedOk()
      reads this`received, this`pending, this`base, this`released
    {
      && (forall b | b in received :: b.id in Inc() || b.id in pending)
      && (forall x | x in pending :: pending[x] in received)
    }

    /** Blocks of one id need the same: the id's hash is of their content. */
    ghost predicate Consistent()
      reads this`received, this`input
    {
      forall a, b | a in received + InputSet() && b in received + InputSet() && a.id == b.id ::
        Needs(self, a) == Needs(self, b)
    }

    ghost function InputSet(): set<BlockData>
      reads this`input
    {
      set b | b in input
    }

    ghost predicate Valid()
      reads this, store
    {
      CachesOk() && QueueOk() && ReceivedOk() && Consistent() && Quiet(self, await, pending, Inc())
    }

    /** A new scheduler over a store, as after a start of the node. */
    constructor (self: nat, store: StoreIndex)
      ensures Valid() && this.self == self && this.store == store
      ensures released == [] && received == {} && input == [] && forall id :: id in Inc() <==> store.IsIncluded(id)
    {
      this.self, this.store := self, store;
      await, pending, blocks, input, icache, tcache := map[], map[], [], [], map[], map[];
      base := set id | id in store.included && store.included[id];
      released, taken, received := [], 0, {};
      new;
      hide Quiet, Topological, Needs, IdsIn;
      NothingScheduled(self, base);
    }

    /** isIncluded: whatever the caches hold, the answer is membership in Inc. */
    method IsIncluded(id: BlockID) returns (inc: bool)
      requires CachesOk()
      modifies this`icache
      ensures CachesOk() && inc == (id in Inc())
    {
      if id in tcache {
        return tcache[id];
      }
      if id in icache {
        return icache[id];
      }
      inc := store.IsIncluded(id);
      icache := icache[id := inc];
    }

    /** markIncluded. */
    method MarkIncluded(id: BlockID)
      modifies this`icache, this`tcache
      ensures icache == old(icache)[id := true] && tcache == old(tcache)[id := true]
    {
      icache := icache[id := true];
      tcache := tcache[id := true];
    }

    /** actuallyIncluded: safe once the store knows of the block. */
    method ActuallyIncluded(id: BlockID)
      requires CachesOk() && store.IsIncluded(id)
      modifies this`tcache
      ensures CachesOk() && tcache == old(tcache) - {id}
    {
      tcache := tcache - {id};
    }

    /** The pruning of icache: any thousand entries may stay. */
    method PruneCache()
      requires CachesOk()
      modifies this`icache
      ensures CachesOk()
      ensures |old(icache)| > 1000 ==> |icache| == 1000
    {
      if |icache| > 1000 {
        icache := SomeEntries(icache, 1000);
      }
    }

    /** add. */
    method Add(b: BlockData)
      requires Valid()
      requires forall a | a in received + InputSet() && a.id == b.id :: Needs(self, a) == Needs(self, b)
      modifies this`input
      ensures Valid() && input == old(input) + [b]
    {
      input := input + [b];
      assert InputSet() == old(InputSet()) + {b};
    }

    /** addPending. */
    method AddPending(b: BlockData, deps: seq<BlockID>)
      modifies this`pending, this`await
      ensures pending == old(pending)[b.id := b] && await == AddAwait(old(await), deps, b.id)
    {
      pending := pending[b.id := b];
      for i := 0 to |deps|
        invariant pending == old(pending)[b.id := b]
        invariant AddAwait(await, deps[i..], b.id) == AddAwait(old(await), deps, b.id)
      {
        var dep := deps[i];
        assert deps[i..][1..] == deps[i + 1..] && [] + [b.id] == [b.id];
        if dep in await {
          if b.id !in await[dep] {
            await := await[dep := await[dep] + [b.id]];
          }
        } else {
          await := await[dep := [b.id]];
        }
      }
    }

    /** The dependencies that are not included, in the order in which processBlock looks at them. */
    method FindMissing(b: BlockData) returns (missing: seq<BlockID>)
      requires CachesOk()
      modifies this`icache
      ensures CachesOk()
      ensures forall d :: d in missing <==> d in Needs(self, b) && d !in Inc()
    {
      missing := [];
      if b.prev.Valid() {
        var inc := IsIncluded(b.prev);
        if !inc {
          missing := missing + [b.prev];
        }
      }
      ghost var first := missing;
      for i := 0 to |b.deps|
        invariant CachesOk()
        invariant forall d :: d in missing <==> d in first || (d in b.deps[..i] && d.node != self && d !in Inc())
      {
        var dep := b.deps[i];
        assert b.deps[..i + 1] == b.deps[..i] + [dep];
        if dep.node != self {
          var inc := IsIncluded(dep);
          if !inc {
            missing := missing + [dep];
          }
        }
      }
      assert b.deps[..|b.deps|] == b.deps;
    }

    /** processBlock: releases a block if all that it needs is included, and parks it otherwise. */
    method ProcessBlock(b: BlockData) returns (ok: bool, ghost missing: seq<BlockID>)
      requires CachesOk() && QueueOk() && b in received
      modifies this`icache, this`tcache, this`pending, this`await, this`blocks, this`released
      ensures CachesOk() && QueueOk()
      ensures ok <==> b.id in old(Inc()) || Needs(self, b) <= old(Inc())
      ensures Inc() == old(Inc()) + (if ok then {b.id} else {})
      ensures released == old(released) + (if ok && b.id !in old(Inc()) then [b] else [])
      ensures ok ==> await == old(await) && pending == old(pending)
      ensures !ok ==> missing != [] && forall d :: d in missing <==> d in Needs(self, b) && d !in Inc()
      ensures !ok ==> pending == old(pending)[b.id := b] && await == AddAwait(old(await), missing, b.id)
    {
      hide Topological, Needs, IdsIn, AddAwait;
      missing := [];
      var known := IsIncluded(b.id);
      if known {
        return true, [];
      }
      var deps := FindMissing(b);
      missing := deps;
      if |deps| > 0 {
        AddPending(b, deps);
        assert deps[0] in deps;
        return false, deps;
      }
      Release(b);
      ok := true;
    }

    /** Marks a block as included and queues it. */
    method Release(b: BlockData)
      requires CachesOk() && QueueOk() && b in received && b.id !in Inc() && Needs(self, b) <= Inc()
      modifies this`icache, this`tcache, this`blocks, this`released
      ensures CachesOk() && QueueOk()
      ensures Inc() == old(Inc()) + {b.id} && released == old(released) + [b]
    {
      hide Needs, Topological, IdsIn;
      TopologicalPush(self, base, released, b);
      MarkIncluded(b.id);
      blocks := blocks + [b];
      released := released + [b];
    }

    /** One turn of the outer loop of process: a block from the input, and all the releases it causes. */
    method Step()
      requires Valid() && input != []
      modifies this
      ensures Valid() && base == old(base) && taken == old(taken)
      ensures input == old(input)[1..] && received == old(received) + {old(input)[0]}
      ensures old(released) <= released
    {
      hide Needs, AddAwait, CachesOk, QueueOk, Quiet, Cascade, PendingWaits, IdsIn;
      var info := input[0];
      ghost var inc := Inc();
      TakeInput();
      if info.id in pending {
        PendingIds(self, await, pending, inc, info.id);
      }
      ghost var missing;
      var ok;
      ok, missing := ProcessBlock(info);
      if !ok {
        assert Inc() == inc;
        ParkFirst(self, old(await), old(pending), inc, info, missing);
        return;
      }
      ReleaseFirst(self, await, pending, inc, info);
      RunCascade(info);
    }

    /** Takes the first block from the input. */
    method TakeInput()
      requires input != [] && QueueOk() && Consistent() && ReceivedOk()
      modifies this`input, this`received
      ensures input == old(input)[1..] && received == old(received) + {old(input)[0]}
      ensures QueueOk() && Consistent()
      ensures forall x | x in pending :: pending[x] in received && Sibling(x, old(input)[0])
    {
      hide Needs, Topological, IdsIn;
      assert input == [input[0]] + input[1..];
      assert InputSet() == {input[0]} + set b | b in input[1..];
      received := received + {input[0]};
      input := input[1..];
    }

    /** A pending entry of that id needs the same. */
    ghost predicate Sibling(x: BlockID, b: BlockData)
      requires x in pending
      reads this`pending
    {
      pending[x].id == x && x == b.id ==> Needs(self, pending[x]) == Needs(self, b)
    }

    /** What holds of the queue, the caches and the received blocks while a cascade goes on. */
    ghost predicate Running()
      reads this, store
    {
      CachesOk() && QueueOk() && ReceivedOk() && Consistent()
    }

    /** The inner loop of process: visits the blocks that are listed under `next`. */
    method VisitList(next: BlockID, rest: seq<BlockID>, seen: set<BlockID>)
      returns (rest': seq<BlockID>, seen': set<BlockID>)
      requires Running() && Turn(self, await, pending, Inc(), next, rest, 0) && SeenWaits(await, Inc(), seen)
      modifies this`icache, this`tcache, this`pending, this`await, this`blocks, this`released
      ensures Running() && await == old(await) && pending == old(pending) && old(released) <= released
      ensures old(Inc()) <= Inc()
      ensures Turn(self, await, pending, Inc(), next, rest', if next in await then |await[next]| else 0)
      ensures SeenWaits(await, Inc(), seen') && (next !in await ==> rest' == rest)
    {
      hide Turn, CachesOk, QueueOk, Consistent, Needs, AddAwait, Inc;
      rest', seen' := rest, seen;
      var list := if next in await then await[next] else [];
      var i := 0;
      while i < |list|
        invariant 0 <= i <= |list| && Running() && await == old(await) && pending == old(pending)
        invariant old(released) <= released
        invariant Turn(self, await, pending, Inc(), next, rest', i) && SeenWaits(await, Inc(), seen')
        invariant old(Inc()) <= Inc() && (list == [] ==> rest' == rest)
      {
        var x := list[i];
        ghost var inc := Inc();
        ListedIsPending(self, await, pending, inc, next, rest', i);
        if x in seen' {
          if x in inc {
            SkipIncluded(self, await, pending, inc, next, rest', i);
          } else {
            ghost var d :| d !in inc && Lists(await, d, x);
            KeepListed(self, await, pending, inc, next, rest', i, d);
          }
        } else {
          ghost var missing;
          var ok;
          ok, missing := ProcessBlock(pending[x]);
          if ok {
            ReleaseListed(self, await, pending, inc, next, rest', i);
            rest' := rest' + [x];
            seen' := {};
          } else {
            assert Inc() == inc;
            ParkAgain(self, old(await), old(pending), inc, next, rest', i, x, missing);
            KeepListed(self, await, pending, inc, next, rest', i, missing[0]);
            seen' := seen' + {x};
          }
        }
        i := i + 1;
      }
    }

    /** The cascade of process, from a block that has just been released or was already. */
    method RunCascade(info: BlockData)
      requires Running() && info.id !in pending && info.id in Inc()
      requires Cascade(self, await, pending, Inc(), [info.id]) && PendingWaits(await, pending, Inc())
      modifies this`icache, this`tcache, this`pending, this`await, this`blocks, this`released
      ensures Valid() && old(released) <= released
    {
      hide Cascade, PendingWaits, Running, Needs, Turn, Inc, SeenWaits;
      SeenFirst(await, Inc(), info.id);
      var first := true;
      var processed := [info.id];
      var seen := {info.id};
      while processed != []
        invariant Running() && old(released) <= released
        invariant Cascade(self, await, pending, Inc(), processed) && PendingWaits(await, pending, Inc())
        invariant SeenWaits(await, Inc(), seen)
        invariant first ==> processed == [info.id] && info.id !in pending
        decreases |await|, |processed|
      {
        var next := processed[0];
        StartTurn(self, await, pending, Inc(), processed);
        FewerAwaited(await, next);
        QueuedIncluded(self, await, pending, Inc(), processed);
        processed, seen := VisitList(next, processed[1..], seen);
        EndTurn(self, await, pending, Inc(), next, processed, if next in await then |await[next]| else 0);
        SeenStays(await, Inc(), seen, next);
        TakeOff(next, first);
        first := false;
      }
      FinishCascade();
    }

    lemma FinishCascade()
      requires Running() && Cascade(self, await, pending, Inc(), []) && PendingWaits(await, pending, Inc())
      ensures Valid()
    {
    }

    /** The end of a turn: the list goes, and so does the pending entry, if there is one. */
    method TakeOff(next: BlockID, first: bool)
      requires Running() && next in Inc() && (first ==> next !in pending)
      modifies this`await, this`pending
      ensures Running() && await == old(await) - {next} && pending == old(pending) - {next}
    {
      hide CachesOk, QueueOk, Consistent, IdsIn;
      await := await - {next};
      if first {
        assert pending - {next} == pending;
      } else {
        pending := pending - {next};
      }
    }

    /**
      getBlocks: the longest front part of the queue that stays within the limit. genBlocks may call it at
      any time, also in the middle of a cascade.
     */
    method GetBlocks(limit: nat) returns (r: seq<BlockData>)
      requires Running()
      modifies this`blocks, this`taken
      ensures Running() && r + blocks == old(blocks) && taken == old(taken) + |r| && r == released[old(taken)..taken]
      ensures TotalSize(r) <= limit && (blocks != [] ==> TotalSize(r) + blocks[0].size > limit)
    {
      hide Topological, CachesOk, ReceivedOk, Consistent;
      var all := blocks;
      assert TotalSize(all[..0]) == 0;
      hide TotalSize;
      var idx, total := 0, 0;
      while idx < |all|
        invariant 0 <= idx <= |all| && total == TotalSize(all[..idx]) <= limit
        modifies {}
      {
        TotalSizeNext(all, idx);
        total := total + all[idx].size;
        if total > limit {
          break;
        }
        idx := idx + 1;
      }
      r := all[..idx];
      TakenParts(released, taken, idx);
      blocks := all[idx..];
      taken := taken + idx;
    }

    /** The calls of actuallyIncluded in genBlocks. */
    method ClearMarks(refs: seq<BlockData>)
      requires CachesOk() && forall b | b in refs :: store.IsIncluded(b.id)
      modifies this`tcache
      ensures CachesOk()
    {
      for i := 0 to |refs|
        invariant CachesOk()
      {
        ActuallyIncluded(refs[i].id);
      }
    }

    /** Every received block is included, or is listed under something that it needs and that is not. */
    lemma Complete(b: BlockData)
      requires Valid() && b in received
      ensures b.id in Inc() || (b.id in pending && exists d ::
        d in Needs(self, b) && d !in Inc() && Lists(await, d, b.id))
    {
      hide Needs, CachesOk, QueueOk, IdsIn;
      if b.id !in Inc() {
        PendingLacks(self, await, pending, Inc(), b.id);
        PendingIds(self, await, pending, Inc(), b.id);
        assert pending[b.id] in received;
      }
    }

    /**
      A received block that was not included from the start is released if and only if its previous block, if it
      has one, and its dependencies are, but for our own blocks.
     */
    lemma IncludedExactly(b: BlockData)
      requires Valid() && b in received && b.id !in base
      ensures b.id in Inc() <==>
        (b.prev.Valid() ==> b.prev in Inc()) && forall d | d in b.deps && d.node != self :: d in Inc()
    {
      hide CachesOk, ReceivedOk, Quiet;
      Complete(b);
      if b.id in Inc() {
        var a :| a in released && a.id == b.id;
        var i :| 0 <= i < |released| && released[i] == a;
        assert a in received + InputSet() && b in received + InputSet();
        assert Needs(self, b) <= base + IdsIn(released[..i]);
      }
    }

    /** So nothing is held back that could be released: the released blocks are the least such set. */
    lemma ReleasedExactly(ids: set<BlockID>)
      requires Valid()
      ensures Closed(self, received, Inc()) && Topological(self, base, released)
      ensures base <= ids && Closed(self, received, ids) ==> Inc() <= ids
    {
      forall b | b in received && Needs(self, b) <= Inc() ensures b.id in Inc() {
        Complete(b);
      }
      hide Needs, CachesOk, ReceivedOk, Consistent, Quiet, Topological;
      if base <= ids && Closed(self, received, ids) {
        ReleasedIsLeast(self, base, received, released, ids);
      }
    }
  }

  lemma TakenParts(s: seq<BlockData>, taken: nat, n: nat)
    requires taken + n <= |s|
    ensures s[taken..][n..] == s[taken + n..] && s[taken..][..n] == s[taken..taken + n]
    ensures s[taken..] == s[taken..][..n] + s[taken..][n..]
  {
  }

  function TotalSize(blocks: seq<BlockData>): nat {
    if blocks == [] then 0 else blocks[0].size + TotalSize(blocks[1..])
  }

  lemma {:induction false} TotalSizePush(blocks: seq<BlockData>, b: BlockData)
    ensures TotalSize(blocks + [b]) == TotalSize(blocks) + b.size
  {
    if blocks != [] {
      assert (blocks + [b])[1..] == blocks[1..] + [b];
      TotalSizePush(blocks[1..], b);
    }
  }

  lemma TotalSizeNext(blocks: seq<BlockData>, i: nat)
    requires i < |blocks|
    ensures TotalSize(blocks[..i + 1]) == TotalSize(blocks[..i]) + blocks[i].size
  {
    TotalSizePush(blocks[..i], blocks[i]);
    assert blocks[..i + 1] == blocks[..i] + [blocks[i]];
  }

  /**
    The part of genBlocks that takes released blocks, stores them as included and clears their marks. It
    may come in the middle of a cascade, whose lists and included blocks it does not touch.
   */
  method IncludeReleased(d: Depgraph, own: BlockID, limit: nat) returns (refs: seq<BlockData>)
    requires d.Running() && d.store.Valid()
    modifies d`blocks, d`taken, d`tcache, d.store
    ensures d.Running() && d.store.Valid() && (old(d.Valid()) ==> d.Valid())
    ensures d.Inc() == old(d.Inc()) && d.await == old(d.await) && d.pending == old(d.pending)
    ensures d.released == old(d.released)
    ensures refs + d.blocks == old(d.blocks) && refs == d.released[old(d.taken)..d.taken]
    ensures old(d.taken) <= d.taken <= |d.released|
    ensures forall id :: d.store.IsIncluded(id) <==> old(d.store.IsIncluded(id)) || id in IdsIn(refs)
  {
    hide Topological, Quiet, Needs, IdsIn, Depgraph.ReceivedOk, Depgraph.Consistent;
    refs := d.GetBlocks(limit);
    var ids := seq(|refs|, i requires 0 <= i < |refs| => refs[i].id);
    ReleasedIds(refs, ids, d.released, old(d.taken));
    d.store.SetOwnBlock(own, ids);
    assert d.CachesOk();
    d.ClearMarks(refs);
  }

  lemma ReleasedIds(refs: seq<BlockData>, ids: seq<BlockID>, released: seq<BlockData>, from: nat)
    requires |refs| == |ids| && forall i | 0 <= i < |refs| :: ids[i] == refs[i].id
    requires from <= |released| && refs <= released[from..]
    ensures forall id :: id in ids <==> id in IdsIn(refs)
    ensures forall id | id in ids :: id in IdsIn(released)
    ensures forall b | b in refs :: b.id in ids
  {
    forall b | b in refs ensures b.id in ids {
      var i :| 0 <= i < |refs| && refs[i] == b;
      assert ids[i] == b.id;
    }
    forall id | id in ids ensures id in IdsIn(refs) && id in IdsIn(released) {
      var i :| 0 <= i < |ids| && ids[i] == id;
      assert refs[i] in refs && refs[i] == released[from + i] && released[from + i] in released;
    }
    forall id | id in IdsIn(refs) ensures id in ids {
      var i :| 0 <= i < |refs| && refs[i].id == id;
      assert ids[i] == id;
    }
  }
}
