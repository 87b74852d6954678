/** The sorted block list of a delivered round: blockmania/graph.go, lines 91-100. */
module Listing {
  import opened Bytes
  import opened Ids

  /** Ascending by hash; node and round settle what Go's unstable sort leaves open. */
  predicate BlockLess(a: BlockID, b: BlockID) {
    || LexLess(a.hash, b.hash)
    || (a.hash == b.hash && (a.node < b.node || (a.node == b.node && a.round < b.round)))
  }

  predicate Sorted(s: seq<BlockID>) {
    forall i, j | 0 <= i < j < |s| :: BlockLess(s[i], s[j])
  }

  ghost predicate IsListing(s: seq<BlockID>, ids: set<BlockID>) {
    Sorted(s) && forall b :: b in s <==> b in ids
  }

  lemma BlockLessOrder(a: BlockID, b: BlockID, c: BlockID)
    ensures !BlockLess(a, a)
    ensures BlockLess(a, b) && BlockLess(b, c) ==> BlockLess(a, c)
    ensures a == b || BlockLess(a, b) || BlockLess(b, a)
  {
    LexIrreflexive(a.hash);
    LexTotal(a.hash, b.hash);
    if LexLess(a.hash, b.hash) && LexLess(b.hash, c.hash) {
      LexTransitive(a.hash, b.hash, c.hash);
    }
  }

  /** A set of blocks has only one sorted listing. */
  lemma {:induction false} ListingUnique(s: seq<BlockID>, t: seq<BlockID>, ids: set<BlockID>)
    requires IsListing(s, ids) && IsListing(t, ids)
    ensures s == t
    decreases |s|
  {
    assert s != [] ==> s[0] in t;
    assert t != [] ==> t[0] in s;
    if s != [] && t != [] {
      FirstIsSame(s, t, ids);
      var b := s[0];
      TailIsListing(s, ids);
      TailIsListing(t, ids);
      ListingUnique(s[1..], t[1..], ids - {b});
      assert s == [b] + s[1..] && t == [b] + t[1..];
    }
  }

  lemma FirstIsSame(s: seq<BlockID>, t: seq<BlockID>, ids: set<BlockID>)
    requires IsListing(s, ids) && IsListing(t, ids) && s != [] && t != []
    ensures s[0] == t[0]
  {
    assert s[0] in t && t[0] in s;
    var i :| 0 <= i < |t| && t[i] == s[0];
    var j :| 0 <= j < |s| && s[j] == t[0];
    BlockLessOrder(s[0], t[0], s[0]);
  }

  lemma TailIsListing(s: seq<BlockID>, ids: set<BlockID>)
    requires IsListing(s, ids) && s != []
    ensures IsListing(s[1..], ids - {s[0]})
  {
    forall b ensures b in s[1..] <==> b in ids - {s[0]} {
      assert s == [s[0]] + s[1..];
      assert b in s <==> b == s[0] || b in s[1..];
      if b in s[1..] {
        var i :| 1 <= i < |s| && s[i] == b;
        BlockLessOrder(s[0], b, b);
      }
    }
  }

  /** Puts one more block where it belongs. */
  method Insert(s: seq<BlockID>, ghost ids: set<BlockID>, b: BlockID) returns (r: seq<BlockID>)
    requires IsListing(s, ids) && b !in ids
    ensures IsListing(r, ids + {b})
  {
    var j := 0;
    while j < |s| && BlockLess(s[j], b)
      invariant 0 <= j <= |s|
      invariant forall k | 0 <= k < j :: BlockLess(s[k], b)
    {
      j := j + 1;
    }
    r := s[..j] + [b] + s[j..];
    Inserted(s, ids, j, b);
  }

  lemma Inserted(s: seq<BlockID>, ids: set<BlockID>, j: nat, b: BlockID)
    requires IsListing(s, ids) && b !in ids && j <= |s|
    requires forall k | 0 <= k < j :: BlockLess(s[k], b)
    requires j < |s| ==> !BlockLess(s[j], b)
    ensures IsListing(s[..j] + [b] + s[j..], ids + {b})
  {
    hide BlockLess;
    InsertKeepsOrder(s, j, b);
    hide Sorted;
    forall x ensures x in s[..j] + [b] + s[j..] <==> x in ids + {b} {
      InsertedMember(s, j, b, x);
    }
  }

  lemma InsertedMember(s: seq<BlockID>, j: nat, b: BlockID, x: BlockID)
    requires j <= |s|
    ensures x in s[..j] + [b] + s[j..] <==> x in s || x == b
  {
    assert s == s[..j] + s[j..];
  }

  lemma InsertKeepsOrder(s: seq<BlockID>, j: nat, b: BlockID)
    requires Sorted(s) && j <= |s| && b !in s
    requires forall k | 0 <= k < j :: BlockLess(s[k], b)
    requires j < |s| ==> !BlockLess(s[j], b)
    ensures Sorted(s[..j] + [b] + s[j..])
  {
    forall k | j <= k < |s| ensures BlockLess(b, s[k]) {
      BlockLessOrder(b, s[j], s[k]);
    }
  }

  lemma {:induction false} ListingExists(ids: set<BlockID>)
    ensures exists s :: IsListing(s, ids)
  {
    hide BlockLess, Position;
    if ids == {} {
      assert IsListing([], ids);
    } else {
      var b :| b in ids;
      ListingExists(ids - {b});
      var s :| IsListing(s, ids - {b});
      var j := Position(s, b);
      Inserted(s, ids - {b}, j, b);
      assert ids - {b} + {b} == ids;
    }
  }

  ghost function Position(s: seq<BlockID>, b: BlockID): (j: nat)
    ensures j <= |s|
    ensures forall k | 0 <= k < j :: BlockLess(s[k], b)
    ensures j < |s| ==> !BlockLess(s[j], b)
  {
    if s == [] || !BlockLess(s[0], b) then 0
    else 1 + Position(s[1..], b)
  }

  ghost function ListingOf(ids: set<BlockID>): (s: seq<BlockID>)
    ensures IsListing(s, ids)
  {
    ListingExists(ids);
    var s :| IsListing(s, ids);
    s
  }

  /** The blocks that a round's decisions name: the empty hash stands for no block. */
  function Chosen(round: nat, hashes: map<nat, Hash>): set<BlockID> {
    set n | n in hashes && hashes[n] != [] :: BlockID(hashes[n], n, round)
  }

  /** Sorted, and exactly one block for each node that has one. */
  ghost predicate ListsRound(blocks: seq<BlockID>, round: nat, hashes: map<nat, Hash>) {
    && Sorted(blocks)
    && forall b: BlockID ::
         b in blocks <==> b.round == round && b.node in hashes && b.hash == hashes[b.node] && |b.hash| > 0
  }

  lemma ListedIsRound(blocks: seq<BlockID>, round: nat, hashes: map<nat, Hash>)
    requires IsListing(blocks, Chosen(round, hashes))
    ensures ListsRound(blocks, round, hashes)
  {
    hide Sorted;
    forall b: BlockID
      ensures b in blocks <==> b.round == round && b.node in hashes && b.hash == hashes[b.node] && |b.hash| > 0
    {
      assert b in blocks <==> b in Chosen(round, hashes);
    }
  }

  /** The loop of deliverRound that lists a round's blocks. */
  method ListBlocks(round: nat, hashes: map<nat, Hash>) returns (blocks: seq<BlockID>)
    ensures ListsRound(blocks, round, hashes)
    ensures blocks == ListingOf(Chosen(round, hashes))
  {
    blocks := [];
    var keys := hashes.Keys;
    ghost var ids: set<BlockID> := {};
    while keys != {}
      invariant keys <= hashes.Keys
      invariant ids == set n | n in hashes && n !in keys && hashes[n] != [] :: BlockID(hashes[n], n, round)
      invariant IsListing(blocks, ids)
      decreases |keys|
    {
      var n :| n in keys;
      keys := keys - {n};
      if hashes[n] != [] {
        blocks := Insert(blocks, ids, BlockID(hashes[n], n, round));
        ids := ids + {BlockID(hashes[n], n, round)};
      }
    }
    assert ids == Chosen(round, hashes);
    ListingUnique(blocks, ListingOf(ids), ids);
    ListedIsRound(blocks, round, hashes);
  }
}
