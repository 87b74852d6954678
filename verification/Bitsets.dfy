/**
  The vote bitset: blockmania/bitset.go, as two sets of node ids. A 64-bit word is a number below 2^64;
  shifting and masking by powers of two are division and remainder.
 */
module Bitsets {

  const WORD_SIZE: nat := 0x1_0000_0000_0000_0000

  // --- one word ---

  /** w & (1 << j) != 0 */
  predicate Bit(w: nat, j: nat) {
    if j == 0 then w % 2 == 1 else Bit(w / 2, j - 1)
  }

  /** w | 1 << j */
  function SetBit(w: nat, j: nat): nat {
    if j == 0 then (if w % 2 == 1 then w else w + 1) else 2 * SetBit(w / 2, j - 1) + w % 2
  }

  function Pow2(k: nat): nat {
    if k == 0 then 1 else 2 * Pow2(k - 1)
  }

  /** bits.OnesCount64 */
  function OnesCount(w: nat): nat {
    if w == 0 then 0 else w % 2 + OnesCount(w / 2)
  }

  lemma {:induction false} BitAfterSet(w: nat, j: nat, i: nat)
    ensures Bit(SetBit(w, j), i) <==> Bit(w, i) || i == j
    decreases j
  {
    if j > 0 && i > 0 {
      BitAfterSet(w / 2, j - 1, i - 1);
    }
  }

  lemma {:induction false} SetBitFits(w: nat, j: nat, k: nat)
    requires w < Pow2(k) && j < k
    ensures SetBit(w, j) < Pow2(k)
    decreases j
  {
    if j > 0 {
      SetBitFits(w / 2, j - 1, k - 1);
    } else {
      assert Pow2(k) % 2 == 0;
    }
  }

  lemma WordPower()
    ensures Pow2(64) == WORD_SIZE
  {
    assert Pow2(8) == 256;
    assert Pow2(16) == 65536;
    assert Pow2(24) == 0x100_0000;
    assert Pow2(32) == 0x1_0000_0000;
    assert Pow2(40) == 0x100_0000_0000;
    assert Pow2(48) == 0x1_0000_0000_0000;
    assert Pow2(56) == 0x100_0000_0000_0000;
  }

  /** How many of the first k bits are set. */
  function Ones(w: nat, k: nat): nat {
    if k == 0 then 0 else Ones(w, k - 1) + (if Bit(w, k - 1) then 1 else 0)
  }

  lemma {:induction false} OnesShift(w: nat, k: nat)
    ensures Ones(w, k + 1) == w % 2 + Ones(w / 2, k)
  {
    if k > 0 {
      OnesShift(w, k - 1);
    } else {
      assert Ones(w, 1) == Ones(w, 0) + (if Bit(w, 0) then 1 else 0);
    }
  }

  lemma {:induction false} OnesCountExact(w: nat, k: nat)
    requires w < Pow2(k)
    ensures OnesCount(w) == Ones(w, k)
  {
    if k > 0 {
      OnesShift(w, k - 1);
      OnesCountExact(w / 2, k - 1);
    }
  }

  // --- a row of words ---

  predicate IsWords(a: seq<nat>) {
    forall i | 0 <= i < |a| :: a[i] < WORD_SIZE
  }

  predicate Has(a: seq<nat>, v: nat) {
    v < 64 * |a| && Bit(a[v / 64], v % 64)
  }

  /** The ids whose bits are set, among the first k. */
  ghost function IdsBelow(a: seq<nat>, k: nat): set<nat> {
    set v: nat | v < k && Has(a, v)
  }

  ghost function IdSet(a: seq<nat>): set<nat> {
    IdsBelow(a, 64 * |a|)
  }

  lemma {:induction false} CountWord(a: seq<nat>, i: nat, k: nat)
    requires i < |a| && k <= 64
    ensures |IdsBelow(a, 64 * i + k)| == |IdsBelow(a, 64 * i)| + Ones(a[i], k)
  {
    if k > 0 {
      CountWord(a, i, k - 1);
      var v := 64 * i + k - 1;
      assert v / 64 == i && v % 64 == k - 1;
      assert IdsBelow(a, v + 1) == IdsBelow(a, v) + (if Has(a, v) then {v} else {});
    }
  }

  lemma SetInRow(a: seq<nat>, v: nat)
    requires v < 64 * |a| && IsWords(a)
    ensures
      var b := a[v / 64 := SetBit(a[v / 64], v % 64)];
      IsWords(b) && IdSet(b) == IdSet(a) + {v}
  {
    var i, j := v / 64, v % 64;
    var b := a[i := SetBit(a[i], j)];
    WordPower();
    SetBitFits(a[i], j, 64);
    forall u: nat | u < 64 * |a| ensures Has(b, u) <==> Has(a, u) || u == v {
      if u / 64 == i {
        BitAfterSet(a[i], j, u % 64);
      }
    }
  }

  lemma EmptyRow(a: seq<nat>)
    requires forall i | 0 <= i < |a| :: a[i] == 0
    ensures IsWords(a) && IdSet(a) == {}
  {
    forall v: nat | v < 64 * |a| ensures !Has(a, v) {
      ZeroBits(v % 64);
    }
  }

  lemma {:induction false} ZeroBits(j: nat)
    ensures !Bit(0, j)
  {
    if j > 0 {
      ZeroBits(j - 1);
    }
  }

  /** commitCount and prepareCount: the number of ids in the row. */
  method CountRow(a: array<nat>) returns (c: nat)
    requires IsWords(a[..])
    ensures c == |IdSet(a[..])|
  {
    c := 0;
    WordPower();
    assert IdsBelow(a[..], 0) == {};
    for i := 0 to a.Length
      invariant c == |IdsBelow(a[..], 64 * i)|
    {
      CountWord(a[..], i, 64);
      OnesCountExact(a[i], 64);
      c := c + OnesCount(a[i]);
    }
  }

  class Bitset {
    const commits: array<nat>
    const prepares: array<nat>

    ghost predicate Valid()
      reads this, commits, prepares
    {
      commits != prepares && commits.Length == prepares.Length && IsWords(commits[..]) && IsWords(prepares[..])
    }

    ghost function Commits(): set<nat>
      reads this, commits
    {
      IdSet(commits[..])
    }

    ghost function Prepares(): set<nat>
      reads this, prepares
    {
      IdSet(prepares[..])
    }

    /** newBitset. */
    constructor (size: nat)
      ensures Valid() && fresh(commits) && fresh(prepares)
      ensures commits.Length == (size + 63) / 64 && Commits() == {} && Prepares() == {}
    {
      var words := (size + 63) / 64;
      commits := new nat[words](_ => 0);
      prepares := new nat[words](_ => 0);
      new;
      EmptyRow(commits[..]);
      EmptyRow(prepares[..]);
    }

    method SetCommit(v: nat)
      requires Valid() && v < 64 * commits.Length
      modifies commits
      ensures Valid() && Commits() == old(Commits()) + {v} && Prepares() == old(Prepares())
    {
      SetInRow(commits[..], v);
      commits[v / 64] := SetBit(commits[v / 64], v % 64);
      assert commits[..] == old(commits[..])[v / 64 := SetBit(old(commits[v / 64]), v % 64)];
    }

    method SetPrepare(v: nat)
      requires Valid() && v < 64 * prepares.Length
      modifies prepares
      ensures Valid() && Prepares() == old(Prepares()) + {v} && Commits() == old(Commits())
    {
      SetInRow(prepares[..], v);
      prepares[v / 64] := SetBit(prepares[v / 64], v % 64);
      assert prepares[..] == old(prepares[..])[v / 64 := SetBit(old(prepares[v / 64]), v % 64)];
    }

    predicate HasCommit(v: nat)
      reads this, commits
      requires v < 64 * commits.Length
      ensures HasCommit(v) <==> v in Commits()
    {
      Bit(commits[v / 64], v % 64)
    }

    predicate HasPrepare(v: nat)
      reads this, prepares
      requires v < 64 * prepares.Length
      ensures HasPrepare(v) <==> v in Prepares()
    {
      Bit(prepares[v / 64], v % 64)
    }

    method CommitCount() returns (c: nat)
      requires Valid()
      ensures c == |Commits()|
    {
      c := CountRow(commits);
    }

    method PrepareCount() returns (c: nat)
      requires Valid()
      ensures c == |Prepares()|
    {
      c := CountRow(prepares);
    }

    /** clone: the same votes in fresh words, so that later votes are not shared. */
    method Clone() returns (n: Bitset)
      requires Valid()
      ensures n.Valid() && fresh(n) && fresh(n.commits) && fresh(n.prepares)
      ensures n.Commits() == Commits() && n.Prepares() == Prepares() && n.commits.Length == commits.Length
    {
      n := new Bitset(64 * commits.Length);
      forall i | 0 <= i < commits.Length {
        n.commits[i] := commits[i];
      }
      forall i | 0 <= i < prepares.Length {
        n.prepares[i] := prepares[i];
      }
      assert n.commits[..] == commits[..] && n.prepares[..] == prepares[..];
    }
  }

  /** The id has a bit in a bitset for that many nodes. */
  predicate InRange(size: nat, id: nat) {
    id < 64 * ((size + 63) / 64)
  }

  /** All node ids 1 to n are within a bitset for n nodes exactly when n is not a multiple of 64. */
  lemma IdsInRange(n: nat)
    requires n > 0
    ensures (forall id: nat | 1 <= id <= n :: InRange(n, id)) <==> n % 64 != 0
  {
    assert InRange(n, n) <==> n % 64 != 0;
  }
}
