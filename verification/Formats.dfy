/** What the stored bytes mean: numbers by position, and every format written out once. */
module Formats {
  import opened Bytes
  import opened Ids
  import opened Lexinum
  import opened Keys
  import opened GraphCodec
  import opened TxLog

  /** The number that digits above 1 stand for, in base 253. */
  function Value(ds: seq<byte>): int {
    if ds == [] then 0 else Value(ds[..|ds| - 1]) * 253 + ds[|ds| - 1] as int - 2
  }

  lemma LastDigit(x: nat) returns (q: nat, r: nat)
    requires x > 0
    ensures x == 253 * q + r && r < 253 && q < x && Digits(x) == Digits(q) + [r + 2]
  {
    q, r := x / 253, x % 253;
  }

  lemma {:induction false} DigitsMean(x: nat)
    ensures Value(Digits(x)) == x
  {
    if x > 0 {
      var q, r := LastDigit(x);
      DigitsMean(q);
      hide Digits;
      ValuePush(Digits(q), r + 2);
    }
  }

  lemma {:induction false} NoLeadingZero(x: nat)
    requires x > 0
    ensures Digits(x) != [] && Digits(x)[0] > 2
  {
    var q, r := LastDigit(x);
    assert q == 0 ==> Digits(q) == [];
    if q > 0 {
      NoLeadingZero(q);
    }
  }

  lemma ValuePush(ds: seq<byte>, d: byte)
    ensures Value(ds + [d]) == Value(ds) * 253 + d as int - 2
  {
    assert (ds + [d])[..|ds|] == ds;
  }

  /** Numbers below 255 * 255 * 127 are three digits in base 255. */
  lemma SmallMeans(v: u64)
    requires v < 255 * 255 * 127
    ensures
      var e := Encoded(v);
      && |e| == 3 && 128 <= e[0] <= 254 && e[1] >= 1 && e[2] >= 1
      && v == ((e[0] as int - 128) * 255 + e[1] as int - 1) * 255 + e[2] as int - 1
  {
  }

  /**
    From there on: 255, one more than the number of digits that follow, but at least 2; the digits of the part
    divided by 255, in base 253, without leading zeros; and the remainder after a 1, if there is one.
   */
  lemma BigMeans(v: u64) returns (ds: seq<byte>, rem: byte)
    requires v >= 255 * 255 * 127
    ensures (forall d | d in ds :: d >= 2) && (ds != [] ==> ds[0] > 2) && rem < 255
    ensures |ds| <= 8 && Encoded(v) == [255, (if ds == [] then 1 else |ds|) + 1] + ds + if rem > 0 then [1, rem] else []
    ensures v == 255 * 255 * 127 + 255 * Value(ds) + rem
  {
    var w := v - MAX_SMALL;
    ds, rem := Digits(w / 255), w % 255;
    AnnouncedAtMost8(v);
    DigitsMean(w / 255);
    if ds != [] {
      NoLeadingZero(w / 255);
    }
  }

  // --- any bytes ---

  /** Bytes as digits in base 253, going on from v. */
  function Horner(t: seq<byte>, v: nat): nat {
    if t == [] then v else Horner(t[1..], 253 * v + (t[0] as int + 254) % 256)
  }

  /** One step of the loop, modulo 2^64. */
  lemma WrapStep(h: nat, x: nat)
    ensures (253 * (h % U64_SIZE) + x) % U64_SIZE == (253 * h + x) % U64_SIZE
  {
    var q, r := h / U64_SIZE, h % U64_SIZE;
    assert 253 * h + x == U64_SIZE * (253 * q) + (253 * r + x);
    ModShift(U64_SIZE, 253 * q, 253 * r + x);
  }

  lemma WrapEnd(h: nat, c: nat)
    ensures ((h % U64_SIZE) * 255 + c) % U64_SIZE == (h * 255 + c) % U64_SIZE
  {
    var q, r := h / U64_SIZE, h % U64_SIZE;
    assert h * 255 + c == U64_SIZE * (255 * q) + (r * 255 + c);
    ModShift(U64_SIZE, 255 * q, r * 255 + c);
  }

  lemma {:induction false} DigitsDecoded(t: seq<byte>, rest: seq<byte>, h: nat)
    requires forall i | 0 <= i < |t| :: t[i] != 1
    ensures BigValue(t + rest, h % U64_SIZE) == BigValue(rest, Horner(t, h) % U64_SIZE)
    decreases |t|
  {
    if t == [] {
      assert t + rest == rest;
    } else {
      var x := (t[0] as int + 254) % 256;
      assert ByteMinus(t[0], 2) == x;
      WrapStep(h, x);
      DigitsDecoded(t[1..], rest, 253 * h + x);
      assert (t + rest)[0] == t[0] && (t + rest)[1..] == t[1..] + rest;
      var v := h % U64_SIZE;
      assert v + v * 252 + x == 253 * v + x;
    }
  }

  /** The number that was read, with the remainder that follows a 1, modulo 2^64; or a 1 with nothing after it. */
  function Ended(h: nat, rest: seq<byte>): Decoding {
    if |rest| == 1 then OutOfRange
    else Number((h * 255 + (if rest == [] then 0 else rest[1]) + 255 * 255 * 127) % U64_SIZE)
  }

  lemma RestDecoded(rest: seq<byte>, h: nat)
    requires rest == [] || rest[0] == 1
    ensures BigValue(rest, h % U64_SIZE) == Ended(h, rest)
  {
    var rem: nat := if |rest| < 2 then 0 else rest[1];
    WrapEnd(h, rem + MAX_SMALL);
  }

  lemma AfterTwo(lead: byte, u: seq<byte>)
    ensures Decoded([255, lead] + u) == BigValue(u, 0)
  {
    assert ([255, lead] + u)[2..] == u;
  }

  /** What bytes that start with 255 decode to: the digits up to the first 1, and the byte after it. */
  lemma BigDecodes(lead: byte, t: seq<byte>, rest: seq<byte>)
    requires (forall i | 0 <= i < |t| :: t[i] != 1) && (rest == [] || rest[0] == 1)
    ensures Decoded([255, lead] + (t + rest)) == Ended(Horner(t, 0), rest)
  {
    hide Horner, BigValue, Decoded, Ended;
    AfterTwo(lead, t + rest);
    DigitsDecoded(t, rest, 0);
    RestDecoded(rest, Horner(t, 0));
  }

  /** Bytes that do not start with 255. */
  lemma SmallDecodes(d: seq<byte>)
    requires |d| < 2 || d[0] != 255
    ensures Decoded(d) == Malformed <==> |d| < 3 || d[0] < 128
    ensures |d| >= 3 && d[0] >= 128 ==>
      Decoded(d) == Number(((d[0] as int - 128) * 255 + (d[1] as int + 255) % 256) * 255 + (d[2] as int + 255) % 256)
  {
  }

  /** What any bytes decode to as an id: node, round and hash between the first two zero bytes. */
  lemma IdDecodes(a: seq<byte>, b: seq<byte>, c: seq<byte>)
    requires NoZero(a) && NoZero(b)
    ensures DecodedId(a) == Id(BlockID([], 0, 0))
    ensures Decoded(a) == Malformed ==> DecodedId(a + [0] + c) == BadId
    ensures Decoded(a) == OutOfRange ==> DecodedId(a + [0] + c) == IdCrash
    ensures Decoded(a).Number? ==>
      && DecodedId(a + [0] + b) == Id(BlockID([], Decoded(a).value, 0))
      && DecodedId(a + [0] + (b + [0] + c)) ==
         match Decoded(b)
         case Malformed => BadId
         case OutOfRange => IdCrash
         case Number(round) => Id(BlockID(c, Decoded(a).value, round))
  {
    hide Decoded;
    NoneIsZero(a);
    NoneIsZero(b);
    FirstZeroAt(a, c);
    FirstZeroAt(a, b);
    FirstZeroAt(a, b + [0] + c);
    FirstZeroAt(b, c);
    hide FirstZero;
    Parts(a, c);
    Parts(a, b);
    Parts(a, b + [0] + c);
    Parts(b, c);
  }

  /** What any key decodes to as a round: the bytes between its first two zero bytes, after the prefix byte. */
  lemma RoundDecodes(p: byte, a: seq<byte>, b: seq<byte>, c: seq<byte>)
    requires NoZero(a) && NoZero(b)
    ensures DecodedRound([]) == OutOfRange && DecodedRound([p] + a) == Malformed
    ensures DecodedRound([p] + (a + [0] + b)) == OutOfRange
    ensures DecodedRound([p] + (a + [0] + (b + [0] + c))) == Decoded(b)
  {
    NoneIsZero(a);
    assert ([p] + a)[1..] == a && Decoded([]) == Malformed;
    hide Decoded;
    RoundParts(p, a, b);
    RoundParts(p, a, b + [0] + c);
    NoneIsZero(b);
    FirstZeroAt(b, c);
    Parts(b, c);
  }

  lemma RoundParts(p: byte, a: seq<byte>, t: seq<byte>)
    requires NoZero(a)
    ensures
      var d, j := [p] + (a + [0] + t), FirstZero(t);
      DecodedRound(d) == if j < |t| then Decoded(t[..j]) else OutOfRange
  {
    hide Decoded, FirstZero, DecodedRound;
    var d, j := [p] + (a + [0] + t), FirstZero(t);
    FirstZeroAt(a, t);
    KeyParts(p, a, t, j);
    RoundAt(d, |a|, t, j);
  }

  lemma RoundAt(d: seq<byte>, i: nat, t: seq<byte>, j: nat)
    requires |d| == i + 2 + |t| && FirstZero(d[1..]) == i && t == d[i + 2..] && j == FirstZero(t)
    requires j < |t| ==> d[i + 2..i + 2 + j] == t[..j]
    ensures DecodedRound(d) == if j < |t| then Decoded(t[..j]) else OutOfRange
  {
    hide Decoded, FirstZero;
  }

  lemma KeyParts(p: byte, a: seq<byte>, t: seq<byte>, j: nat)
    requires j <= |t|
    ensures
      var d, n := [p] + (a + [0] + t), |a| + 2;
      |d| == n + |t| && d[1..] == a + [0] + t && d[n..] == t && d[n..n + j] == t[..j]
  {
    var d, n := [p] + (a + [0] + t), |a| + 2;
    assert d[n..] == t;
    assert d[n..n + j] == d[n..][..j];
  }

  lemma NoneIsZero(a: seq<byte>)
    requires NoZero(a)
    ensures FirstZero(a) == |a|
  {
  }

  lemma Parts(a: seq<byte>, t: seq<byte>)
    ensures (a + [0] + t)[..|a|] == a && (a + [0] + t)[|a| + 1..] == t && |a + [0] + t| > |a|
  {
  }

  // --- examples ---

  /** A block id, a block graph with one dependency, and a transaction log. */
  lemma WrittenOut()
    ensures IdBytes(BlockID([7], 1, 2)) == [128, 1, 2, 0, 128, 1, 3, 0, 7]
    ensures Key(BLOCK_PREFIX, BlockID([7], 1, 2)) == [1, 128, 1, 2, 0, 128, 1, 3, 0, 7]
    ensures Key(BLOCK_GRAPH_PREFIX, BlockID([7], 1, 2)) == [2, 128, 1, 2, 0, 128, 1, 3, 0, 7]
    ensures
      var d := Dep(BlockID([8], 3, 1), [BlockID([9], 4, 1)], BlockID([], 0, 0));
      GraphBytes(BlockGraph(BlockID([6], 1, 3), [d], BlockID([7], 1, 2))) ==
      [9, 0] + [128, 1, 2, 0, 128, 1, 3, 0, 7] + ([1, 0, 0, 0]
        + ([9, 0] + [128, 1, 4, 0, 128, 1, 2, 0, 8]
          + ([0, 0] + ([1, 0, 0, 0] + ([9, 0] + [128, 1, 5, 0, 128, 1, 2, 0, 9])))))
    ensures LogBytes([Tx(258, [9, 9])]) == [2, 1, 0, 0, 0, 0, 0, 0, 2, 0, 0, 0, 9, 9]
  {
    ThreeIds();
    OneTx();
    OneGraph();
  }

  lemma ThreeIds()
    ensures IdBytes(BlockID([7], 1, 2)) == [128, 1, 2, 0, 128, 1, 3, 0, 7]
    ensures IdBytes(BlockID([8], 3, 1)) == [128, 1, 4, 0, 128, 1, 2, 0, 8]
    ensures IdBytes(BlockID([9], 4, 1)) == [128, 1, 5, 0, 128, 1, 2, 0, 9]
  {
  }

  lemma OneTx()
    ensures LogBytes([Tx(258, [9, 9])]) == [2, 1, 0, 0, 0, 0, 0, 0, 2, 0, 0, 0, 9, 9]
  {
    var tx := Tx(258, [9, 9]);
    assert TxBytes(tx) == [2, 1, 0, 0, 0, 0, 0, 0, 2, 0, 0, 0, 9, 9];
    assert LogBytes([tx]) == TxBytes(tx) + LogBytes([]);
  }

  lemma OneGraph()
    ensures
      var d := Dep(BlockID([8], 3, 1), [BlockID([9], 4, 1)], BlockID([], 0, 0));
      GraphBytes(BlockGraph(BlockID([6], 1, 3), [d], BlockID([7], 1, 2))) ==
      [9, 0] + [128, 1, 2, 0, 128, 1, 3, 0, 7] + ([1, 0, 0, 0]
        + ([9, 0] + [128, 1, 4, 0, 128, 1, 2, 0, 8]
          + ([0, 0] + ([1, 0, 0, 0] + ([9, 0] + [128, 1, 5, 0, 128, 1, 2, 0, 9])))))
  {
    ThreeIds();
    hide IdBytes;
    var prev, block, link := BlockID([7], 1, 2), BlockID([8], 3, 1), BlockID([9], 4, 1);
    var d := Dep(block, [link], BlockID([], 0, 0));
    assert Le16(9) == [9, 0] && Le32(1) == [1, 0, 0, 0];
    hide Le16, Le32;
    assert LinksBytes([link]) == IdField(link) + LinksBytes([]);
    assert LinksBytes([link]) == IdField(link);
    assert DepsBytes([d]) == DepBytes(d) + DepsBytes([]);
    assert DepsBytes([d]) == DepBytes(d);
  }
}
