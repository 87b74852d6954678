/** The composite keys of the store: broadcast/store.go, lines 786-906 and 967-993. */
module Keys {
  import opened Bytes
  import opened Ids
  import opened Lexinum

  const BLOCK_PREFIX: byte := 1
  const BLOCK_GRAPH_PREFIX: byte := 2

  /** A BlockID as Go has it: node and round are uint64s. */
  predicate Fits(id: BlockID) {
    id.node < U64_SIZE && id.round < U64_SIZE
  }

  /** encodeBlockID. */
  function IdBytes(id: BlockID): seq<byte>
    requires Fits(id)
  {
    Encoded(id.node) + [0] + (Encoded(id.round) + [0] + id.hash)
  }

  /** blockKey, blockGraphKey, includedKey and notIncludedKey, by prefix. */
  function Key(prefix: byte, id: BlockID): seq<byte>
    requires Fits(id)
  {
    [prefix] + IdBytes(id)
  }

  /** Where the keys of one node start. */
  function NodePrefix(prefix: byte, node: u64): seq<byte> {
    [prefix] + Encoded(node) + [0]
  }

  predicate NoZero(s: seq<byte>) {
    forall i | 0 <= i < |s| :: s[i] != 0
  }

  // --- the zero byte as a separator ---

  /** The first zero byte, or the length. */
  function FirstZero(d: seq<byte>): (i: nat)
    ensures i <= |d| && (i < |d| ==> d[i] == 0) && (forall k | 0 <= k < i :: d[k] != 0)
  {
    if d == [] || d[0] == 0 then 0 else 1 + FirstZero(d[1..])
  }

  lemma FirstZeroAt(a: seq<byte>, t: seq<byte>)
    requires NoZero(a)
    ensures FirstZero(a + [0] + t) == |a|
  {
    var d := a + [0] + t;
    assert d[|a|] == 0;
    assert forall i | 0 <= i < |a| :: d[i] == a[i];
  }

  /** Separated parts compare like the parts, whatever follows. */
  lemma {:induction false} SeparatedOrder(x: seq<byte>, y: seq<byte>, s: seq<byte>, t: seq<byte>)
    requires NoZero(x) && NoZero(y) && LexLess(x, y)
    ensures LexLess(x + [0] + s, y + t)
  {
    if x == [] {
      assert (x + [0] + s)[0] == 0 && (y + t)[0] == y[0];
    } else if x[0] == y[0] {
      SeparatedOrder(x[1..], y[1..], s, t);
      assert (x + [0] + s)[1..] == x[1..] + [0] + s && (y + t)[1..] == y[1..] + t;
    }
  }

  /** The order of ids: by node, then round, then hash. */
  predicate IdLess(a: BlockID, b: BlockID) {
    a.node < b.node || (a.node == b.node && (a.round < b.round || (a.round == b.round && LexLess(a.hash, b.hash))))
  }

  lemma EncodedNoZero(v: u64)
    ensures NoZero(Encoded(v))
  {
    hide Encoded;
    NoZeroByte(v);
    assert forall i | 0 <= i < |Encoded(v)| :: Encoded(v)[i] in Encoded(v);
  }

  lemma NumberOrder(a: u64, b: u64, s: seq<byte>, t: seq<byte>)
    requires a < b
    ensures LexLess(Encoded(a) + [0] + s, Encoded(b) + [0] + t)
  {
    hide Encoded, LexLess, NoZero;
    EncodedNoZero(a);
    EncodedNoZero(b);
    OrderEmbedding(a, b);
    SeparatedOrder(Encoded(a), Encoded(b), s, [0] + t);
    assert Encoded(b) + ([0] + t) == Encoded(b) + [0] + t;
  }

  lemma IdBytesOrder(a: BlockID, b: BlockID)
    requires Fits(a) && Fits(b) && IdLess(a, b)
    ensures LexLess(IdBytes(a), IdBytes(b))
  {
    hide Encoded, LexLess;
    if a.node < b.node {
      NumberOrder(a.node, b.node, Encoded(a.round) + [0] + a.hash, Encoded(b.round) + [0] + b.hash);
    } else {
      if a.round < b.round {
        NumberOrder(a.round, b.round, a.hash, b.hash);
      } else {
        LexSamePrefix(Encoded(a.round) + [0], a.hash, b.hash);
      }
      LexSamePrefix(Encoded(a.node) + [0], Encoded(a.round) + [0] + a.hash, Encoded(b.round) + [0] + b.hash);
    }
  }

  /** Keys of one kind sort by node, round and hash, and no two ids share a key. */
  lemma KeyOrder(prefix: byte, a: BlockID, b: BlockID)
    requires Fits(a) && Fits(b)
    ensures IdLess(a, b) <==> LexLess(Key(prefix, a), Key(prefix, b))
    ensures a == b <==> Key(prefix, a) == Key(prefix, b)
  {
    hide IdBytes, LexLess;
    LexSamePrefix([prefix], IdBytes(a), IdBytes(b));
    LexSamePrefix([prefix], IdBytes(b), IdBytes(a));
    LexIrreflexive(Key(prefix, a));
    LexTotal(a.hash, b.hash);
    if IdLess(a, b) {
      IdBytesOrder(a, b);
      LexAsymmetric(Key(prefix, a), Key(prefix, b));
    } else if IdLess(b, a) {
      IdBytesOrder(b, a);
      LexAsymmetric(Key(prefix, b), Key(prefix, a));
    }
  }

  // --- reading keys back ---

  datatype IdDecoding = Id(id: BlockID) | BadId | IdCrash

  /** decodeBlockID, by the positions of the first two zero bytes. */
  function DecodedId(d: seq<byte>): IdDecoding {
    var i := FirstZero(d);
    if i == |d| then Id(BlockID([], 0, 0))
    else
      match Decoded(d[..i])
      case Malformed => BadId
      case OutOfRange => IdCrash
      case Number(node) =>
        DecodedRest(d[i + 1..], node)
  }

  function DecodedRest(t: seq<byte>, node: u64): IdDecoding {
    var j := FirstZero(t);
    if j == |t| then Id(BlockID([], node, 0))
    else
      match Decoded(t[..j])
      case Malformed => BadId
      case OutOfRange => IdCrash
      case Number(round) => Id(BlockID(t[j + 1..], node, round))
  }

  /** A zero byte at i, the first one from `lo` on, and none at all. */
  lemma RestAt(d: seq<byte>, lo: nat, i: nat, node: u64)
    requires lo <= i < |d| && d[i] == 0 && FirstZero(d[lo..]) >= i - lo
    ensures
      DecodedRest(d[lo..], node) ==
      match Decoded(d[lo..i])
      case Malformed => BadId
      case OutOfRange => IdCrash
      case Number(round) => Id(BlockID(d[i + 1..], node, round))
  {
    hide Decoded, FirstZero;
    var t := d[lo..];
    assert t[i - lo] == d[i];
    assert t[..i - lo] == d[lo..i] && t[i - lo + 1..] == d[i + 1..];
  }

  lemma RestEnds(t: seq<byte>, node: u64)
    requires FirstZero(t) == |t|
    ensures DecodedRest(t, node) == Id(BlockID([], node, 0))
  {
  }

  /** decodeBlockID: one pass over the bytes. */
  method DecodeBlockID(d: seq<byte>) returns (r: IdDecoding)
    ensures r == DecodedId(d)
  {
    hide Decoded, FirstZero, DecodedRest;
    var hash, nodeID, round, rstart, stage := [], 0, 0, 0, 0;
    for i := 0 to |d|
      invariant hash == [] && round == 0 && 0 <= nodeID < U64_SIZE
      invariant stage == 0 ==> nodeID == 0 && FirstZero(d) >= i
      invariant stage != 0 ==> stage == 1 && 0 <= rstart <= i && FirstZero(d[rstart..]) >= i - rstart
      invariant stage != 0 ==> DecodedId(d) == DecodedRest(d[rstart..], nodeID)
    {
      if d[i] == 0x00 {
        if stage == 0 {
          var n := Decode(d[..i]);
          if n.Malformed? {
            return BadId;
          } else if n.OutOfRange? {
            return IdCrash;
          }
          nodeID := n.value;
          rstart := i + 1;
          stage := 1;
        } else {
          var n := Decode(d[rstart..i]);
          RestAt(d, rstart, i, nodeID);
          if n.Malformed? {
            return BadId;
          } else if n.OutOfRange? {
            return IdCrash;
          }
          return Id(BlockID(d[i + 1..], nodeID, n.value));
        }
      } else if stage != 0 {
        assert d[rstart..][i - rstart] == d[i];
      }
    }
    if stage != 0 {
      RestEnds(d[rstart..], nodeID);
    }
    return Id(BlockID(hash, nodeID, round));
  }

  /** Reading an encoded id gives it back, zero bytes in its hash included. */
  lemma IdRoundTrip(id: BlockID)
    requires Fits(id)
    ensures DecodedId(IdBytes(id)) == Id(id)
  {
    hide Encoded, Decoded, NoZero;
    var d := IdBytes(id);
    var node, round := Encoded(id.node), Encoded(id.round);
    var t := round + [0] + id.hash;
    EncodedNoZero(id.node);
    EncodedNoZero(id.round);
    FirstZeroAt(node, t);
    FirstZeroAt(round, id.hash);
    assert d[..|node|] == node && d[|node| + 1..] == t;
    assert t[..|round|] == round && t[|round| + 1..] == id.hash;
    RoundTrip(id.node);
    RoundTrip(id.round);
  }

  /** decodeBlockRound, on a key with its prefix byte: what stands between the first two zero bytes. */
  function DecodedRound(d: seq<byte>): Decoding {
    if d == [] then OutOfRange
    else
      var i := FirstZero(d[1..]);
      if i >= |d| - 1 then Decoded([])
      else
        var j := FirstZero(d[i + 2..]);
        if i + 2 + j < |d| then Decoded(d[i + 2..i + 2 + j]) else OutOfRange
  }

  /** decodeBlockRound: one pass over the bytes. */
  method DecodeBlockRound(d: seq<byte>) returns (r: Decoding)
    ensures r == DecodedRound(d)
  {
    hide Decoded;
    if d == [] {
      return OutOfRange;
    }
    var rstart, rend := 0, 0;
    ghost var z := FirstZero(d[1..]);
    for i := 0 to |d| - 1
      invariant rend == 0 && (rstart == 0 ==> z >= i)
      invariant rstart != 0 ==> z < |d| - 1 && rstart == z + 2 <= i + 1 && FirstZero(d[rstart..]) >= i + 1 - rstart
    {
      assert d[1..][i] == d[i + 1];
      if d[i + 1] == 0x00 {
        if rstart == 0 {
          rstart := i + 2;
        } else {
          rend := i + 1;
          assert d[rstart..][rend - rstart] == 0;
          r := Decode(d[rstart..rend]);
          return;
        }
      } else if rstart != 0 {
        assert d[rstart..][i + 1 - rstart] == d[i + 1];
      }
    }
    if rstart > rend {
      return OutOfRange;
    }
    r := Decode(d[rstart..rend]);
  }

  /** The round that it finds in a key is the round of the key. */
  lemma KeyRound(prefix: byte, id: BlockID)
    requires Fits(id)
    ensures DecodedRound(Key(prefix, id)) == Number(id.round)
  {
    hide Encoded, Decoded, NoZero, FirstZero;
    var d := Key(prefix, id);
    var node, round := Encoded(id.node), Encoded(id.round);
    var t := round + [0] + id.hash;
    EncodedNoZero(id.node);
    EncodedNoZero(id.round);
    FirstZeroAt(node, t);
    FirstZeroAt(round, id.hash);
    RoundTrip(id.round);
    assert d == [prefix] + (node + [0] + t);
    RoundAt(d, prefix, node, round, id.hash);
  }

  lemma RoundAt(d: seq<byte>, prefix: byte, node: seq<byte>, round: seq<byte>, hash: seq<byte>)
    requires d == [prefix] + (node + [0] + (round + [0] + hash))
    requires FirstZero(node + [0] + (round + [0] + hash)) == |node| && FirstZero(round + [0] + hash) == |round|
    ensures DecodedRound(d) == Decoded(round)
  {
    hide Decoded, FirstZero;
    assert d[1..] == node + [0] + (round + [0] + hash);
    assert d[|node| + 2..] == round + [0] + hash;
    assert d[|node| + 2..|node| + 2 + |round|] == round;
  }
}
