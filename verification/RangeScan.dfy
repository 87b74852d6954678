/**
  Range scans over the store's sorted keys: the seek-and-iterate loops of getMissing and
  getBlockGraphs in broadcast/store.go.
 */
module RangeScan {
  import opened Bytes
  import opened Ids
  import opened Lexinum
  import opened Keys
  import opened Sets

  type Db = seq<seq<byte>>

  /** The keys of the database in iteration order. */
  ghost predicate Sorted(db: Db) {
    forall i, j | 0 <= i < j < |db| :: LexLess(db[i], db[j])
  }

  /** The keys under a prefix byte are those of these ids: the store writes no others. */
  ghost predicate Holds(db: Db, prefix: byte, ids: set<BlockID>) {
    && (forall id | id in ids :: Fits(id) && Key(prefix, id) in db)
    && (forall i | 0 <= i < |db| && db[i] != [] && db[i][0] == prefix ::
          exists id :: id in ids && Fits(id) && db[i] == Key(prefix, id))
  }

  // --- prefixes in the order of keys ---

  lemma PrefixTail(p: seq<byte>, k: seq<byte>)
    requires p != [] && k != [] && p[0] == k[0]
    ensures p <= k <==> p[1..] <= k[1..]
  {
    if p[1..] <= k[1..] {
      assert p == [p[0]] + p[1..] && k == [k[0]] + k[1..];
    }
  }

  /** What lies beyond a string with a prefix, without having the prefix, lies beyond all that have it. */
  lemma {:induction false} PrefixConvex(p: seq<byte>, a: seq<byte>, k: seq<byte>, b: seq<byte>)
    requires p <= a && p <= b && LexLess(a, k) && !(p <= k)
    ensures LexLess(b, k)
  {
    if p != [] {
      if a[0] == k[0] {
        PrefixTail(p, k);
        PrefixConvex(p[1..], a[1..], k[1..], b[1..]);
      }
    }
  }

  lemma {:induction false} LexLonger(x: seq<byte>, y: seq<byte>, t: seq<byte>)
    requires LexLess(x, y)
    ensures LexLess(x, y + t)
  {
    if x != [] && x[0] == y[0] {
      LexLonger(x[1..], y[1..], t);
      assert (y + t)[1..] == y[1..] + t;
    }
  }

  /** A key is at or after the start of a scan exactly when its round is. */
  lemma RoundAtStart(round: u64, from: u64, hash: Hash)
    ensures LexLess(Encoded(round) + [0] + hash, Encoded(from)) <==> round < from
  {
    hide Encoded, LexLess, NoZero;
    var k, s := Encoded(round) + [0] + hash, Encoded(from);
    EncodedNoZero(round);
    EncodedNoZero(from);
    if round < from {
      OrderEmbedding(round, from);
      SeparatedOrder(Encoded(round), s, hash, []);
      assert s + [] == s;
    } else {
      if round == from {
        LexExtends(s, [0] + hash);
        assert s + ([0] + hash) == k;
      } else {
        OrderEmbedding(from, round);
        LexLonger(s, Encoded(round), [0] + hash);
        assert Encoded(round) + ([0] + hash) == k;
      }
      LexAsymmetric(s, k);
    }
  }

  function ScanStart(prefix: byte, node: u64, from: u64): seq<byte> {
    NodePrefix(prefix, node) + Encoded(from)
  }

  lemma KeyParts(prefix: byte, id: BlockID)
    requires Fits(id)
    ensures Key(prefix, id) == NodePrefix(prefix, id.node) + (Encoded(id.round) + [0] + id.hash)
  {
  }

  /** Only the keys of a node begin with that node's prefix. */
  lemma NodePrefixExact(prefix: byte, node: u64, id: BlockID)
    requires Fits(id)
    ensures NodePrefix(prefix, node) <= Key(prefix, id) <==> id.node == node
  {
    hide Encoded, NoZero;
    var p, k := NodePrefix(prefix, node), Key(prefix, id);
    KeyParts(prefix, id);
    if p <= k {
      EncodedNoZero(node);
      EncodedNoZero(id.node);
      assert k[1..] == Encoded(id.node) + [0] + (Encoded(id.round) + [0] + id.hash);
      assert k[1..] == Encoded(node) + [0] + k[|p|..];
      hide Key, NodePrefix;
      SameFirstPart(Encoded(node), k[|p|..], Encoded(id.node), Encoded(id.round) + [0] + id.hash);
      OrderExact(node, id.node);
    }
  }

  lemma SameFirstPart(x: seq<byte>, s: seq<byte>, y: seq<byte>, t: seq<byte>)
    requires NoZero(x) && NoZero(y) && x + [0] + s == y + [0] + t
    ensures x == y
  {
    hide NoZero;
    FirstZeroAt(x, s);
    FirstZeroAt(y, t);
    assert x == (x + [0] + s)[..|x|] && y == (y + [0] + t)[..|y|];
  }

  lemma AtStart(prefix: byte, node: u64, from: u64, id: BlockID)
    requires Fits(id) && id.node == node
    ensures LexLess(Key(prefix, id), ScanStart(prefix, node, from)) <==> id.round < from
  {
    hide Encoded, LexLess;
    KeyParts(prefix, id);
    RoundAtStart(id.round, from, id.hash);
    LexSamePrefix(NodePrefix(prefix, node), Encoded(id.round) + [0] + id.hash, Encoded(from));
  }

  // --- seek, and iterate while the prefix holds ---

  /** The keys that the iterator visits. */
  ghost predicate IsScan(db: Db, prefix: seq<byte>, start: seq<byte>, lo: nat, hi: nat) {
    && lo <= hi <= |db|
    && (forall i | 0 <= i < lo :: LexLess(db[i], start))
    && (forall i | lo <= i < |db| :: !LexLess(db[i], start))
    && (forall i | lo <= i < hi :: prefix <= db[i])
    && (hi < |db| ==> !(prefix <= db[hi]))
  }

  /** Nothing with the prefix is missed after the iterator stops. */
  lemma NothingAfter(db: Db, prefix: seq<byte>, start: seq<byte>, hi: nat, i: nat)
    requires Sorted(db) && prefix <= start && hi <= i < |db|
    requires !(prefix <= db[hi]) && !LexLess(db[hi], start)
    ensures !(prefix <= db[i])
  {
    if prefix <= db[i] {
      LexTotal(db[hi], start);
      PrefixConvex(prefix, start, db[hi], db[i]);
      if hi < i {
        LexAsymmetric(db[hi], db[i]);
      }
      LexIrreflexive(db[i]);
    }
  }

  /** The ids that a scan from `from` should find. */
  ghost predicate Wanted(ids: set<BlockID>, node: u64, from: u64, id: BlockID) {
    id in ids && id.node == node && id.round >= from
  }

  /**
    Seeking to a node and a round visits exactly the keys of that node's blocks from that round on.
    As keys are sorted, they are visited by round and then by hash.
   */
  lemma ScanExact(db: Db, prefix: byte, ids: set<BlockID>, node: u64, from: u64, lo: nat, hi: nat, id: BlockID)
    requires Sorted(db) && Holds(db, prefix, ids) && Fits(id)
    requires IsScan(db, NodePrefix(prefix, node), ScanStart(prefix, node, from), lo, hi)
    ensures Wanted(ids, node, from, id) <==> Key(prefix, id) in db[lo..hi]
  {
    hide Encoded, LexLess, Key, NodePrefix, ScanStart;
    var p, start := NodePrefix(prefix, node), ScanStart(prefix, node, from);
    assert p <= start by { StartPrefix(prefix, node, from); }
    NodePrefixExact(prefix, node, id);
    if Wanted(ids, node, from, id) {
      var i :| 0 <= i < |db| && db[i] == Key(prefix, id);
      AtStart(prefix, node, from, id);
      if hi <= i {
        NothingAfter(db, p, start, hi, i);
      }
      assert lo <= i < hi;
      assert db[lo..hi][i - lo] == Key(prefix, id);
    }
    if Key(prefix, id) in db[lo..hi] {
      var i :| lo <= i < hi && db[i] == Key(prefix, id);
      KeyInIds(db, prefix, ids, i, id);
      AtStart(prefix, node, from, id);
    }
  }

  lemma StartPrefix(prefix: byte, node: u64, from: u64)
    ensures NodePrefix(prefix, node) <= ScanStart(prefix, node, from)
  {
  }

  lemma KeyInIds(db: Db, prefix: byte, ids: set<BlockID>, i: nat, id: BlockID)
    requires Holds(db, prefix, ids) && i < |db| && Fits(id) && db[i] == Key(prefix, id)
    ensures id in ids
  {
    hide IdBytes;
    assert db[i][0] == prefix;
    var x :| x in ids && Fits(x) && db[i] == Key(prefix, x);
    KeyOrder(prefix, id, x);
  }

  // --- getMissing ---

  /** A block of that node and round is stored. */
  ghost predicate Present(ids: set<BlockID>, node: u64, round: nat) {
    exists id :: id in ids && id.node == node && id.round == round
  }

  /** it.Seek. */
  /** The first key that is not before the start. */
  ghost predicate IsSeek(db: Db, start: seq<byte>, lo: nat) {
    && lo <= |db|
    && (forall i | 0 <= i < lo :: LexLess(db[i], start))
    && (forall i | lo <= i < |db| :: !LexLess(db[i], start))
  }

  method Seek(db: Db, start: seq<byte>) returns (lo: nat)
    requires Sorted(db)
    ensures IsSeek(db, start, lo)
  {
    lo := 0;
    while lo < |db| && LexLess(db[lo], start)
      invariant 0 <= lo <= |db|
      invariant forall i | 0 <= i < lo :: LexLess(db[i], start)
    {
      lo := lo + 1;
    }
    forall i | lo <= i < |db| ensures !LexLess(db[i], start) {
      if LexLess(db[i], start) && lo < i {
        LexTransitive(db[lo], db[i], start);
      }
    }
  }

  /** The id behind a visited key. */
  lemma VisitedId(db: Db, prefix: byte, ids: set<BlockID>, node: u64, from: u64, i: nat) returns (id: BlockID)
    requires Holds(db, prefix, ids) && i < |db|
    requires NodePrefix(prefix, node) <= db[i] && !LexLess(db[i], ScanStart(prefix, node, from))
    ensures id in ids && Fits(id) && db[i] == Key(prefix, id) && id.node == node && id.round >= from
  {
    hide Encoded, LexLess, IdBytes;
    assert NodePrefix(prefix, node)[0] == prefix && db[i][0] == prefix;
    id :| id in ids && Fits(id) && db[i] == Key(prefix, id);
    NodePrefixExact(prefix, node, id);
    AtStart(prefix, node, from, id);
  }

  /** Blocks beyond `latest` are still to be visited. */
  ghost predicate Ahead(db: Db, prefix: byte, ids: set<BlockID>, node: u64, latest: nat, pos: nat)
    requires pos <= |db|
  {
    forall id | id in ids && id.node == node && id.round > latest && Fits(id) :: Key(prefix, id) in db[pos..]
  }

  /** The first key ahead has the smallest round ahead. */
  lemma SmallestAhead(db: Db, prefix: byte, ids: set<BlockID>, node: u64, latest: nat, pos: nat, next: BlockID,
                      round: nat)
    requires Sorted(db) && Holds(db, prefix, ids) && pos < |db| && Ahead(db, prefix, ids, node, latest, pos)
    requires next in ids && Fits(next) && next.node == node && db[pos] == Key(prefix, next)
    requires latest < round && Present(ids, node, round)
    ensures round >= next.round
  {
    hide Key, LexLess;
    var id :| id in ids && id.node == node && id.round == round;
    assert Fits(id);
    var j :| pos <= j < |db| && db[j] == Key(prefix, id) by {
      var t := db[pos..];
      var k :| 0 <= k < |t| && t[k] == Key(prefix, id);
      assert db[pos + k] == t[k];
    }
    KeyOrder(prefix, next, id);
  }

  lemma AheadNext(db: Db, prefix: byte, ids: set<BlockID>, node: u64, latest: nat, pos: nat, next: BlockID)
    requires pos < |db| && Ahead(db, prefix, ids, node, latest, pos)
    requires Fits(next) && db[pos] == Key(prefix, next)
    ensures Ahead(db, prefix, ids, node, if next.round > latest then next.round else latest, pos + 1)
  {
    hide Key;
    forall id | id in ids && id.node == node && id.round > latest && id.round > next.round && Fits(id)
      ensures Key(prefix, id) in db[pos + 1..]
    {
      KeyOrder(prefix, id, next);
      assert db[pos..] == [db[pos]] + db[pos + 1..];
    }
  }

  /** What is still to be visited is not before `latest`. */
  ghost predicate NotBehind(db: Db, prefix: byte, node: u64, latest: nat, pos: nat) {
    forall i, x | pos <= i < |db| && Fits(x) && x.node == node && db[i] == Key(prefix, x) :: x.round >= latest
  }

  lemma NotBehindNext(db: Db, prefix: byte, node: u64, pos: nat, next: BlockID)
    requires Sorted(db) && pos < |db| && Fits(next) && next.node == node && db[pos] == Key(prefix, next)
    ensures NotBehind(db, prefix, node, next.round, pos + 1)
  {
    hide Key, LexLess;
    forall i, x | pos + 1 <= i < |db| && Fits(x) && x.node == node && db[i] == Key(prefix, x)
      ensures x.round >= next.round
    {
      KeyOrder(prefix, next, x);
    }
  }

  ghost predicate Ascending(rounds: seq<nat>) {
    forall i, j | 0 <= i < j < |rounds| :: rounds[i] < rounds[j]
  }

  /** The rounds between `since` and `latest` of which no block is stored, in order. */
  ghost predicate MissingUpTo(ids: set<BlockID>, node: u64, since: nat, latest: nat, rounds: seq<nat>) {
    && Ascending(rounds)
    && forall r: nat :: r in rounds <==> since < r <= latest && !Present(ids, node, r)
  }

  lemma MissingOneMore(ids: set<BlockID>, node: u64, since: nat, latest: nat, rounds: seq<nat>)
    requires MissingUpTo(ids, node, since, latest, rounds) && since <= latest && !Present(ids, node, latest + 1)
    ensures MissingUpTo(ids, node, since, latest + 1, rounds + [latest + 1])
  {
    hide Present;
    forall i | 0 <= i < |rounds| ensures rounds[i] <= latest {
      assert rounds[i] in rounds;
    }
  }

  lemma MissingStep(ids: set<BlockID>, node: u64, since: nat, latest: nat, rounds: seq<nat>)
    requires MissingUpTo(ids, node, since, latest, rounds) && since <= latest && Present(ids, node, latest + 1)
    ensures MissingUpTo(ids, node, since, latest + 1, rounds)
  {
    hide Present, Ascending;
  }

  lemma NoneMissing(ids: set<BlockID>, node: u64, since: nat)
    ensures MissingUpTo(ids, node, since, since, [])
  {
  }

  /** At the start of the scan. */
  lemma StartAhead(db: Db, ids: set<BlockID>, node: u64, since: u64, pos: nat)
    requires Sorted(db) && Holds(db, BLOCK_PREFIX, ids) && since + 1 < U64_SIZE && pos <= |db|
    requires forall i | 0 <= i < pos :: LexLess(db[i], ScanStart(BLOCK_PREFIX, node, since + 1))
    requires forall i | pos <= i < |db| :: !LexLess(db[i], ScanStart(BLOCK_PREFIX, node, since + 1))
    ensures Ahead(db, BLOCK_PREFIX, ids, node, since, pos) && NotBehind(db, BLOCK_PREFIX, node, since, pos)
  {
    hide Key, LexLess, ScanStart;
    forall id | id in ids && id.node == node && id.round > since && Fits(id)
      ensures Key(BLOCK_PREFIX, id) in db[pos..]
    {
      var i :| 0 <= i < |db| && db[i] == Key(BLOCK_PREFIX, id);
      AtStart(BLOCK_PREFIX, node, since + 1, id);
      assert db[pos..][i - pos] == db[i];
    }
    forall i, x | pos <= i < |db| && Fits(x) && x.node == node && db[i] == Key(BLOCK_PREFIX, x)
      ensures x.round >= since
    {
      AtStart(BLOCK_PREFIX, node, since + 1, x);
    }
  }

  /** When the iterator has left the node's keys, no block is ahead. */
  lemma AllSeen(db: Db, ids: set<BlockID>, node: u64, since: u64, pos: nat, latest: nat)
    requires Sorted(db) && Holds(db, BLOCK_PREFIX, ids) && since + 1 < U64_SIZE && pos <= |db|
    requires Ahead(db, BLOCK_PREFIX, ids, node, latest, pos)
    requires forall i | pos <= i < |db| :: !LexLess(db[i], ScanStart(BLOCK_PREFIX, node, since + 1))
    requires pos < |db| ==> !(NodePrefix(BLOCK_PREFIX, node) <= db[pos])
    ensures forall r: nat | r > latest :: !Present(ids, node, r)
  {
    hide Key, LexLess, ScanStart, NodePrefix;
    forall r: nat | r > latest ensures !Present(ids, node, r) {
      forall id | id in ids && id.node == node && id.round == r ensures false {
        assert Fits(id) && Key(BLOCK_PREFIX, id) in db[pos..];
        var k :| 0 <= k < |db[pos..]| && db[pos..][k] == Key(BLOCK_PREFIX, id);
        StartPrefix(BLOCK_PREFIX, node, since + 1);
        NothingAfter(db, NodePrefix(BLOCK_PREFIX, node), ScanStart(BLOCK_PREFIX, node, since + 1), pos, pos + k);
        NodePrefixExact(BLOCK_PREFIX, node, id);
      }
    }
  }

  /** decodeBlockRound on a stored key. */
  method RoundOfKey(key: seq<byte>, ghost id: BlockID) returns (round: u64)
    requires Fits(id) && key == Key(BLOCK_PREFIX, id)
    ensures round == id.round
  {
    hide DecodedRound, Key;
    KeyRound(BLOCK_PREFIX, id);
    var r := DecodeBlockRound(key);
    round := r.value;
  }

  lemma NextIsPresent(db: Db, ids: set<BlockID>, node: u64, latest: nat, pos: nat, next: BlockID)
    requires next in ids && Fits(next) && next.node == node && pos < |db| && db[pos] == Key(BLOCK_PREFIX, next)
    requires NotBehind(db, BLOCK_PREFIX, node, latest, pos)
    ensures latest <= next.round && Present(ids, node, next.round)
  {
    hide Key;
  }

  const MAX_ROUND: nat := U64_SIZE - 1

  /** Two blocks of that node and the largest round are stored: the node has forked there. */
  ghost predicate ForkedAtMax(ids: set<BlockID>, node: u64) {
    exists x, y :: x in ids && y in ids && x != y && x.node == y.node == node && x.round == y.round == MAX_ROUND
  }

  /** No more than `limit` rounds up to the largest one are missing. */
  ghost predicate FewMissing(ids: set<BlockID>, node: u64, since: nat, limit: nat) {
    exists rounds: seq<nat> :: MissingUpTo(ids, node, since, MAX_ROUND, rounds) && |rounds| <= limit
  }

  /** The scan gets to the largest round and meets another block, so that the count of rounds wraps around. */
  ghost predicate Wraps(ids: set<BlockID>, node: u64, since: nat, limit: nat) {
    if since == MAX_ROUND then exists id :: id in ids && id.node == node
    else ForkedAtMax(ids, node) && FewMissing(ids, node, since, limit)
  }

  function Span(a: nat, b: nat): (r: seq<nat>)
    ensures forall x :: x in r <==> a <= x < b
    ensures |r| == if a < b then b - a else 0
  {
    if a < b then Span(a, b - 1) + [b - 1] else []
  }

  lemma SpanNext(a: nat, b: nat)
    requires a <= b
    ensures Span(a, b + 1) == Span(a, b) + [b]
  {
  }

  /** The inner loop of getMissing: the rounds from `first` up to the next one that is stored. */
  method FillGap(first: u64, next: u64, limit: nat, rounds0: seq<nat>, latest0: u64)
    returns (rounds: seq<nat>, latest: u64, done: bool)
    requires |rounds0| <= limit
    ensures |rounds0| <= |rounds| <= limit + 1 && rounds == rounds0 + Span(first, first + |rounds| - |rounds0|)
    ensures done ==> |rounds| == limit + 1 && latest + 1 == first + |rounds| - |rounds0| <= next
    ensures !done ==> |rounds| <= limit && latest == next && |rounds| - |rounds0| == if first < next then next - first
      else 0
  {
    rounds, latest, done := rounds0, latest0, false;
    var i := first;
    while i < next
      invariant first <= i && (first < next ==> i <= next) && (first >= next ==> i == first)
      invariant |rounds| == |rounds0| + (i - first) <= limit && rounds == rounds0 + Span(first, i)
      decreases next - i
    {
      SpanNext(first, i);
      latest := i;
      rounds := rounds + [i];
      i := i + 1;
      if |rounds| == limit + 1 {
        done := true;
        return;
      }
    }
    latest := next;
  }

  /** A gap of rounds that are all missing. */
  lemma {:induction false} MissingSpan(ids: set<BlockID>, node: u64, since: nat, latest: nat, rounds: seq<nat>,
                                       end: nat)
    requires MissingUpTo(ids, node, since, latest, rounds) && since <= latest <= end
    requires forall r | latest < r <= end :: !Present(ids, node, r)
    ensures MissingUpTo(ids, node, since, end, rounds + Span(latest + 1, end + 1))
    decreases end
  {
    hide Present, MissingUpTo;
    if latest == end {
      assert rounds + Span(latest + 1, end + 1) == rounds;
    } else {
      MissingSpan(ids, node, since, latest, rounds, end - 1);
      MissingOneMore(ids, node, since, end - 1, rounds + Span(latest + 1, end));
      SpanNext(latest + 1, end);
      assert rounds + Span(latest + 1, end) + [end] == rounds + Span(latest + 1, end + 1);
    }
  }

  /** The rounds that a turn of the outer loop appends. */
  lemma GapMissing(db: Db, ids: set<BlockID>, node: u64, since: u64, pos: nat, id: BlockID, latest0: nat,
                   rounds0: seq<nat>, n: nat)
    requires Sorted(db) && Holds(db, BLOCK_PREFIX, ids) && pos < |db| && since <= latest0
    requires (n > 0 ==> latest0 + n < id.round)
    requires id in ids && Fits(id) && id.node == node && db[pos] == Key(BLOCK_PREFIX, id)
    requires MissingUpTo(ids, node, since, latest0, rounds0) && Ahead(db, BLOCK_PREFIX, ids, node, latest0, pos)
    ensures MissingUpTo(ids, node, since, latest0 + n, rounds0 + Span(latest0 + 1, latest0 + 1 + n))
  {
    hide Present, Holds, Sorted, MissingUpTo, Ahead, Key, Span;
    forall r | latest0 < r <= latest0 + n ensures !Present(ids, node, r) {
      if Present(ids, node, r) {
        SmallestAhead(db, BLOCK_PREFIX, ids, node, latest0, pos, id, r);
      }
    }
    MissingSpan(ids, node, since, latest0, rounds0, latest0 + n);
  }

  /** The key that a turn visits. */
  lemma KeyVisited(db: Db, ids: set<BlockID>, node: u64, pos: nat, id: BlockID, latest0: nat)
    requires Sorted(db) && Holds(db, BLOCK_PREFIX, ids) && pos < |db|
    requires id in ids && Fits(id) && id.node == node && db[pos] == Key(BLOCK_PREFIX, id)
    requires Ahead(db, BLOCK_PREFIX, ids, node, latest0, pos) && NotBehind(db, BLOCK_PREFIX, node, latest0, pos)
    ensures latest0 <= id.round && Present(ids, node, id.round)
    ensures Ahead(db, BLOCK_PREFIX, ids, node, id.round, pos + 1)
    ensures NotBehind(db, BLOCK_PREFIX, node, id.round, pos + 1)
  {
    hide Present, Holds, Sorted, Ahead, NotBehind, Key;
    NextIsPresent(db, ids, node, latest0, pos, id);
    AheadNext(db, BLOCK_PREFIX, ids, node, latest0, pos, id);
    NotBehindNext(db, BLOCK_PREFIX, node, pos, id);
  }

  /** A turn of the outer loop that does not wrap around. */
  lemma TurnOk(db: Db, ids: set<BlockID>, node: u64, since: u64, limit: nat, pos: nat, id: BlockID,
               latest0: nat, rounds0: seq<nat>, rounds: seq<nat>, latest: nat, done: bool)
    requires Sorted(db) && Holds(db, BLOCK_PREFIX, ids) && pos < |db| && since <= latest0 < MAX_ROUND
    requires |rounds0| <= |rounds|
    requires id in ids && Fits(id) && id.node == node && db[pos] == Key(BLOCK_PREFIX, id)
    requires MissingUpTo(ids, node, since, latest0, rounds0)
    requires Ahead(db, BLOCK_PREFIX, ids, node, latest0, pos) && NotBehind(db, BLOCK_PREFIX, node, latest0, pos)
    requires rounds == rounds0 + Span(latest0 + 1, latest0 + 1 + |rounds| - |rounds0|)
    requires done ==> latest == latest0 + |rounds| - |rounds0| && latest < id.round
    requires !done ==> latest == id.round && |rounds| - |rounds0| == if latest0 + 1 < latest then latest - latest0 - 1
      else 0
    ensures since <= latest && MissingUpTo(ids, node, since, latest, rounds)
    ensures !done ==>
      && Present(ids, node, latest)
      && Ahead(db, BLOCK_PREFIX, ids, node, latest, pos + 1) && NotBehind(db, BLOCK_PREFIX, node, latest, pos + 1)
  {
    hide *;
    KeyVisited(db, ids, node, pos, id, latest0);
    var n := |rounds| - |rounds0|;
    GapMissing(db, ids, node, since, pos, id, latest0, rounds0, n);
    if !done && latest0 < latest {
      MissingStep(ids, node, since, latest0 + n, rounds);
    }
  }

  /** The last visited key, unless the scan has just begun, is of the latest round. */
  ghost predicate LastSeen(db: Db, ids: set<BlockID>, node: u64, since: nat, latest: nat, pos: nat) {
    || latest == since
    || (0 < pos <= |db| && exists x ::
          x in ids && Fits(x) && x.node == node && x.round == latest && db[pos - 1] == Key(BLOCK_PREFIX, x))
  }

  lemma WrapsHere(db: Db, ids: set<BlockID>, node: u64, since: u64, limit: nat, pos: nat, id: BlockID, rounds: seq<nat>)
    requires Sorted(db) && pos < |db| && since < MAX_ROUND && |rounds| <= limit
    requires id in ids && Fits(id) && id.node == node && db[pos] == Key(BLOCK_PREFIX, id)
    requires MissingUpTo(ids, node, since, MAX_ROUND, rounds) && NotBehind(db, BLOCK_PREFIX, node, MAX_ROUND, pos)
    requires LastSeen(db, ids, node, since, MAX_ROUND, pos)
    ensures Wraps(ids, node, since, limit) && id.round == MAX_ROUND
  {
    hide Key, LexLess, MissingUpTo;
    var x :| x in ids && Fits(x) && x.node == node && x.round == MAX_ROUND && db[pos - 1] == Key(BLOCK_PREFIX, x);
    LexIrreflexive(db[pos]);
    assert x != id;
  }

  lemma SeenNone(db: Db, ids: set<BlockID>, node: u64, since: nat, pos: nat)
    ensures LastSeen(db, ids, node, since, since, pos)
  {
  }

  lemma SeenOne(db: Db, ids: set<BlockID>, node: u64, since: nat, pos: nat, id: BlockID)
    requires pos < |db| && id in ids && Fits(id) && id.node == node && db[pos] == Key(BLOCK_PREFIX, id)
    ensures LastSeen(db, ids, node, since, id.round, pos + 1)
  {
    hide Key;
  }

  /** Of the keys visited before the last one, none is of the largest round. */
  ghost predicate BelowMax(db: Db, node: u64, first: nat, pos: nat) {
    forall i, x | first <= i < pos - 1 && i < |db| && Fits(x) && x.node == node && db[i] == Key(BLOCK_PREFIX, x) ::
      x.round < MAX_ROUND
  }

  lemma BelowMaxNext(db: Db, ids: set<BlockID>, node: u64, since: nat, first: nat, pos: nat, latest: nat)
    requires first <= pos <= |db| && BelowMax(db, node, first, pos) && latest < MAX_ROUND
    requires LastSeen(db, ids, node, since, latest, pos) && (pos > first ==> latest != since)
    ensures BelowMax(db, node, first, pos + 1)
  {
    hide Key;
    forall i, x | first <= i < pos && i < |db| && Fits(x) && x.node == node && db[i] == Key(BLOCK_PREFIX, x)
      ensures x.round < MAX_ROUND
    {
      if i == pos - 1 {
        var y :| y in ids && Fits(y) && y.node == node && y.round == latest && db[pos - 1] == Key(BLOCK_PREFIX, y);
        KeyOrder(BLOCK_PREFIX, x, y);
      }
    }
  }

  lemma WrapsAtOnce(ids: set<BlockID>, node: u64, limit: nat, id: BlockID)
    requires id in ids && id.node == node
    ensures Wraps(ids, node, MAX_ROUND, limit) && (!Present(ids, node, 0) ==> id.round > 0)
  {
  }

  lemma {:induction false} AscendingCount(xs: seq<nat>)
    requires Ascending(xs)
    ensures |Elements(xs)| == |xs|
  {
    if xs != [] {
      var n := |xs| - 1;
      AscendingCount(xs[..n]);
      assert xs == xs[..n] + [xs[n]];
      assert Elements(xs) == Elements(xs[..n]) + {xs[n]};
      assert xs[n] !in Elements(xs[..n]);
    }
  }

  /** With more than `limit` rounds missing already, more are missing up to the largest round. */
  lemma CutShort(ids: set<BlockID>, node: u64, since: nat, limit: nat, latest: nat, rounds: seq<nat>)
    requires since < MAX_ROUND && latest <= MAX_ROUND && MissingUpTo(ids, node, since, latest, rounds)
    requires |rounds| > limit
    ensures !Wraps(ids, node, since, limit)
  {
    hide Present;
    forall all: seq<nat> | MissingUpTo(ids, node, since, MAX_ROUND, all) ensures |all| > limit {
      AscendingCount(all);
      AscendingCount(rounds);
      CardinalityGrows(Elements(rounds), Elements(all));
    }
  }

  /** A scan that has passed all keys without wrapping around has met no fork at the largest round. */
  lemma NoFork(db: Db, ids: set<BlockID>, node: u64, since: u64, first: nat, pos: nat)
    requires Sorted(db) && Holds(db, BLOCK_PREFIX, ids) && since < MAX_ROUND && first <= pos <= |db|
    requires forall i | 0 <= i < first :: LexLess(db[i], ScanStart(BLOCK_PREFIX, node, since + 1))
    requires forall i | pos <= i < |db| :: !LexLess(db[i], ScanStart(BLOCK_PREFIX, node, since + 1))
    requires pos < |db| ==> !(NodePrefix(BLOCK_PREFIX, node) <= db[pos])
    requires BelowMax(db, node, first, pos)
    ensures !ForkedAtMax(ids, node)
  {
    hide Key, LexLess, ScanStart, NodePrefix, Sorted;
    forall x, y | x in ids && y in ids && x.node == y.node == node && x.round == y.round == MAX_ROUND ensures x == y {
      var i := WhereMax(db, ids, node, since, first, pos, x);
      var j := WhereMax(db, ids, node, since, first, pos, y);
      KeyOrder(BLOCK_PREFIX, x, y);
    }
  }

  lemma WhereMax(db: Db, ids: set<BlockID>, node: u64, since: u64, first: nat, pos: nat, x: BlockID) returns (i: nat)
    requires Sorted(db) && Holds(db, BLOCK_PREFIX, ids) && since < MAX_ROUND && first <= pos <= |db|
    requires forall i | 0 <= i < first :: LexLess(db[i], ScanStart(BLOCK_PREFIX, node, since + 1))
    requires forall i | pos <= i < |db| :: !LexLess(db[i], ScanStart(BLOCK_PREFIX, node, since + 1))
    requires pos < |db| ==> !(NodePrefix(BLOCK_PREFIX, node) <= db[pos])
    requires BelowMax(db, node, first, pos) && x in ids && x.node == node && x.round == MAX_ROUND
    ensures Fits(x) && i == pos - 1 && i < |db| && db[i] == Key(BLOCK_PREFIX, x)
  {
    hide Key, LexLess, ScanStart, NodePrefix;
    i :| 0 <= i < |db| && db[i] == Key(BLOCK_PREFIX, x);
    AtStart(BLOCK_PREFIX, node, since + 1, x);
    if pos <= i {
      StartPrefix(BLOCK_PREFIX, node, since + 1);
      NothingAfter(db, NodePrefix(BLOCK_PREFIX, node), ScanStart(BLOCK_PREFIX, node, since + 1), pos, i);
      NodePrefixExact(BLOCK_PREFIX, node, x);
    }
  }

  /** A scan from round 0 that visits nothing: no block of the node is stored. */
  lemma NothingStored(db: Db, ids: set<BlockID>, node: u64, pos: nat)
    requires Sorted(db) && Holds(db, BLOCK_PREFIX, ids) && pos <= |db|
    requires forall i | 0 <= i < pos :: LexLess(db[i], ScanStart(BLOCK_PREFIX, node, 0))
    requires forall i | pos <= i < |db| :: !LexLess(db[i], ScanStart(BLOCK_PREFIX, node, 0))
    requires pos < |db| ==> !(NodePrefix(BLOCK_PREFIX, node) <= db[pos])
    ensures forall id | id in ids :: id.node != node
  {
    hide Key, LexLess, ScanStart, NodePrefix;
    forall id | id in ids && id.node == node ensures false {
      var i :| 0 <= i < |db| && db[i] == Key(BLOCK_PREFIX, id);
      AtStart(BLOCK_PREFIX, node, 0, id);
      StartPrefix(BLOCK_PREFIX, node, 0);
      NothingAfter(db, NodePrefix(BLOCK_PREFIX, node), ScanStart(BLOCK_PREFIX, node, 0), pos, i);
      NodePrefixExact(BLOCK_PREFIX, node, id);
    }
  }

  /**
    getMissing. Unless the count of rounds wraps around: exactly the absent rounds after `since` up to
    `latest`, ascending and at most limit+1 of them; when not cut short, `latest` is the last round of which
    a block is stored. If it does wrap around, round 0 is reported, unless a block of round 0 is stored.
   */
  method GetMissing(db: Db, ghost ids: set<BlockID>, node: u64, since: u64, limit: nat)
    returns (rounds: seq<nat>, latest: u64)
    requires Sorted(db) && Holds(db, BLOCK_PREFIX, ids)
    ensures |rounds| <= limit + 1
    ensures !Wraps(ids, node, since, limit) ==> since <= latest && MissingUpTo(ids, node, since, latest, rounds)
    ensures !Wraps(ids, node, since, limit) && |rounds| <= limit ==>
      (latest == since || Present(ids, node, latest)) && forall r: nat | r > latest :: !Present(ids, node, r)
    ensures Wraps(ids, node, since, limit) && !Present(ids, node, 0) ==> 0 in rounds
  {
    hide Present, Holds, Sorted, MissingUpTo, Ahead, NotBehind, NodePrefix, ScanStart, Encoded, LexLess, Key, LastSeen,
      Wraps;
    rounds, latest := [], since;
    var from := Wrap64(since + 1);
    var prefix, start := NodePrefix(BLOCK_PREFIX, node), ScanStart(BLOCK_PREFIX, node, from);
    var pos := Seek(db, start);
    ghost var wrapped := since == MAX_ROUND;
    ghost var first := pos;
    if since < MAX_ROUND {
      StartAhead(db, ids, node, since, pos);
    }
    NoneMissing(ids, node, since);
    SeenNone(db, ids, node, since, pos);
    while pos < |db| && prefix <= db[pos]
      invariant 0 <= first <= pos <= |db| && 0 <= latest < U64_SIZE && |rounds| <= limit
      invariant forall i | 0 <= i < first :: LexLess(db[i], start)
      invariant forall i | pos <= i < |db| :: !LexLess(db[i], start)
      invariant pos == first ==> latest == since && rounds == []
      invariant !wrapped ==> since <= latest && since < MAX_ROUND && MissingUpTo(ids, node, since, latest, rounds)
      invariant !wrapped ==> Ahead(db, BLOCK_PREFIX, ids, node, latest, pos)
      invariant !wrapped ==> NotBehind(db, BLOCK_PREFIX, node, latest, pos)
      invariant !wrapped ==> BelowMax(db, node, first, pos) && (pos > first ==> latest != since)
      invariant !wrapped ==> LastSeen(db, ids, node, since, latest, pos)
      invariant !wrapped ==> latest == since || Present(ids, node, latest)
      invariant wrapped && pos > first ==> Wraps(ids, node, since, limit) && (!Present(ids, node, 0) ==> 0 in rounds)
      invariant wrapped && pos == first ==> since == MAX_ROUND
    {
      ghost var id := VisitedId(db, BLOCK_PREFIX, ids, node, from, pos);
      var next := RoundOfKey(db[pos], id);
      ghost var rounds0, latest0 := rounds, latest;
      var done;
      rounds, latest, done := FillGap(Wrap64(latest + 1), next, limit, rounds, latest);
      if !wrapped && latest0 < MAX_ROUND {
        TurnOk(db, ids, node, since, limit, pos, id, latest0, rounds0, rounds, latest, done);
        SeenOne(db, ids, node, since, pos, id);
        BelowMaxNext(db, ids, node, since, first, pos, latest0);
      } else if !wrapped {
        WrapsHere(db, ids, node, since, limit, pos, id, rounds0);
        assert 0 in Span(0, 1);
        wrapped := true;
      } else if pos == first {
        WrapsAtOnce(ids, node, limit, id);
        assert id.round > 0 ==> 0 in Span(0, 1);
      }
      if done {
        if !wrapped {
          CutShort(ids, node, since, limit, latest, rounds);
        }
        return;
      }
      pos := pos + 1;
    }
    if !wrapped {
      AllSeen(db, ids, node, since, pos, latest);
      NoFork(db, ids, node, since, first, pos);
      NotForked(ids, node, since, limit);
    } else if pos == first {
      NothingStored(db, ids, node, pos);
      NothingWraps(ids, node, limit);
    }
  }

  lemma NotForked(ids: set<BlockID>, node: u64, since: nat, limit: nat)
    requires since < MAX_ROUND && !ForkedAtMax(ids, node)
    ensures !Wraps(ids, node, since, limit)
  {
  }

  lemma NothingWraps(ids: set<BlockID>, node: u64, limit: nat)
    requires forall id | id in ids :: id.node != node
    ensures !Wraps(ids, node, MAX_ROUND, limit) && forall r: nat :: !Present(ids, node, r)
  {
  }
}
