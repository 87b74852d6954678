/**
  The transaction log of a block: AddTransaction and the hand-off in genBlocks (broadcast/broadcast.go)
  write it, TxIterator (broadcast/ext.go) reads it.
 */
module TxLog {
  import opened Bytes
  import opened Outcomes
  import opened GraphCodec
  import Lexinum

  datatype Tx = Tx(fee: u64, data: seq<byte>)

  /** A transaction that AddTransaction takes: its size fits 32 bits. */
  predicate Storable(tx: Tx) {
    |tx.data| < U32_SIZE
  }

  predicate AllStorable(txs: seq<Tx>) {
    forall i | 0 <= i < |txs| :: Storable(txs[i])
  }

  function Le64(n: u64): seq<byte> {
    Le32(n % U32_SIZE) + Le32(n / U32_SIZE)
  }

  function Get64(s: seq<byte>): u64
    requires |s| >= 8
  {
    Get32(s) + U32_SIZE * Get32(s[4..8])
  }

  lemma Le64Read(n: u64, t: seq<byte>)
    ensures |Le64(n)| == 8 && Get64(Le64(n) + t) == n
  {
    hide Le32, Get32;
    var lo, hi := n % U32_SIZE, n / U32_SIZE;
    var s := Le64(n) + t;
    Le32Length(lo);
    Le32Length(hi);
    FixedWidth(lo, Le32(hi) + t);
    assert s == Le32(lo) + (Le32(hi) + t);
    FixedWidth(hi, []);
    assert s[4..8] == Le32(hi) + [];
  }

  lemma Le32Length(n: nat)
    ensures |Le32(n)| == 4
  {
  }

  /** One entry: the fee, the size and the data. */
  function TxBytes(tx: Tx): (s: seq<byte>)
    requires Storable(tx)
    ensures |s| == 12 + |tx.data|
  {
    Le64(tx.fee) + (Le32(|tx.data|) + tx.data)
  }

  function LogBytes(txs: seq<Tx>): seq<byte>
    requires AllStorable(txs)
  {
    if txs == [] then [] else TxBytes(txs[0]) + LogBytes(txs[1..])
  }

  lemma {:induction false} LogBytesPush(txs: seq<Tx>, tx: Tx)
    requires AllStorable(txs) && Storable(tx)
    ensures AllStorable(txs + [tx]) && LogBytes(txs + [tx]) == LogBytes(txs) + TxBytes(tx)
    decreases |txs|
  {
    hide TxBytes;
    if txs == [] {
      assert txs + [tx] == [tx];
    } else {
      LogBytesPush(txs[1..], tx);
      assert (txs + [tx])[1..] == txs[1..] + [tx];
    }
  }

  /** Added, refused, or to be tried again after the next block. */
  datatype Attempt = Added | TooLarge | MustWait

  /** The decision of one turn of the loop of AddTransaction. */
  function Decide(limit: nat, idx: nat, count: nat, countLimit: nat, size: nat): Attempt {
    if size >= U32_SIZE || size > limit then TooLarge
    else if count == countLimit || idx + size + 100 > limit then MustWait
    else Added
  }

  /**
    The sizes that are neither refused nor ever taken: they pass the first check but leave no room for
    the 100 spare bytes, however empty the buffer is.
   */
  lemma WaitsForever(limit: nat, countLimit: nat, size: nat)
    requires countLimit > 0
    ensures Decide(limit, 0, 0, countLimit, size) == Added <==> size + 100 <= limit && size < U32_SIZE
    ensures (forall idx: nat, count: nat :: Decide(limit, idx, count, countLimit, size) == MustWait)
       <==> size <= limit < size + 100 && size < U32_SIZE
  {
    if size <= limit < size + 100 && size < U32_SIZE {
      forall idx: nat, count: nat ensures Decide(limit, idx, count, countLimit, size) == MustWait {
      }
    } else {
      assert Decide(limit, 0, 0, countLimit, size) != MustWait;
    }
  }

  // --- the limit on the number of transactions ---

  /** How full the buffer is, and the limit in force. */
  datatype Counter = Counter(idx: nat, count: nat, limit: nat)

  datatype Operation = Add(size: nat) | SetLimit(rate: nat) | Take

  function Next(room: nat, c: Counter, op: Operation): Counter {
    match op
    case Add(size) =>
      if Decide(room, c.idx, c.count, c.limit, size).Added? then Counter(c.idx + 12 + size, c.count + 1, c.limit) else c
    case SetLimit(rate) => c.(limit := rate)
    case Take => c.(idx := 0, count := 0)
  }

  function Counted(room: nat, c: Counter, ops: seq<Operation>): Counter {
    if ops == [] then c else Next(room, Counted(room, c, ops[..|ops| - 1]), ops[|ops| - 1])
  }

  ghost predicate Within(room: nat, c: Counter, ops: seq<Operation>, n: nat)
    requires n <= |ops|
  {
    var d := Counted(room, c, ops[..n]);
    d.count <= d.limit
  }

  /** Operation n does not set a limit that the count is already beyond. */
  ghost predicate NotBelow(room: nat, c: Counter, ops: seq<Operation>, n: nat)
    requires n < |ops|
  {
    ops[n].SetLimit? ==> Counted(room, c, ops[..n]).count <= ops[n].rate
  }

  /**
    Whatever is added, taken and set: the count never goes beyond the limit in force, and so no block has more
    transactions, if and only if the limit is never set below the count. Beyond it there is no limit at all, since
    the count is compared for equality.
   */
  lemma LimitKeptExactly(room: nat, c: Counter, ops: seq<Operation>)
    requires c.count <= c.limit
    ensures (forall n | 0 <= n <= |ops| :: Within(room, c, ops, n)) <==>
      (forall n | 0 <= n < |ops| :: NotBelow(room, c, ops, n))
  {
    if forall n | 0 <= n < |ops| :: NotBelow(room, c, ops, n) {
      forall n | 0 <= n <= |ops| ensures Within(room, c, ops, n) {
        LimitKept(room, c, ops, n);
      }
    } else {
      var n :| 0 <= n < |ops| && !NotBelow(room, c, ops, n);
      assert ops[..n + 1][..n] == ops[..n];
      assert !Within(room, c, ops, n + 1);
    }
  }

  lemma {:induction false} LimitKept(room: nat, c: Counter, ops: seq<Operation>, n: nat)
    requires c.count <= c.limit && n <= |ops| && forall i | 0 <= i < n :: NotBelow(room, c, ops, i)
    ensures Within(room, c, ops, n)
    decreases n
  {
    if n > 0 {
      LimitKept(room, c, ops, n - 1);
      assert ops[..n][..n - 1] == ops[..n - 1] && NotBelow(room, c, ops, n - 1);
    }
  }

  /** A limit that is set below the count lets everything pass that there is room for. */
  lemma PastTheLimit(room: nat, c: Counter, size: nat)
    requires c.count > c.limit && size < U32_SIZE && c.idx + size + 100 <= room
    ensures Next(room, c, Add(size)) == Counter(c.idx + 12 + size, c.count + 1, c.limit)
  {
  }

  /** The buffer of the current block. */
  class TxBuffer {
    const data: array<byte>
    var idx: nat
    var count: nat
    var countLimit: nat
    /** The transactions added since the last block. */
    ghost var log: seq<Tx>

    ghost predicate Valid()
      reads this, data
    {
      && idx <= data.Length && count == |log| && AllStorable(log)
      && data[..idx] == LogBytes(log)
    }

    function Counts(): Counter
      reads this
    {
      Counter(idx, count, countLimit)
    }

    constructor (txSizeLimit: nat, rate: nat)
      ensures Valid() && fresh(data) && log == [] && data.Length == txSizeLimit && Counts() == Counter(0, 0, rate)
    {
      data := new byte[txSizeLimit];
      idx, count, countLimit, log := 0, 0, rate, [];
    }

    /**
      One turn of AddTransaction's loop: a transaction that is taken is appended, within the buffer. One that fits
      is taken unless the number of transactions is just the limit.
     */
    method AddTransaction(txdata: seq<byte>, fee: u64) returns (r: Attempt)
      requires Valid()
      modifies this`idx, this`count, this`log, data
      ensures Valid() && Counts() == Next(data.Length, old(Counts()), Add(|txdata|))
      ensures r.TooLarge? <==> |txdata| >= U32_SIZE || |txdata| > data.Length
      ensures r.Added? <==>
        |txdata| < U32_SIZE && old(|log|) != countLimit && |old(LogBytes(log))| + |txdata| + 100 <= data.Length
      ensures log == if r.Added? then old(log) + [Tx(fee, txdata)] else old(log)
    {
      var size := |txdata|;
      if size >= U32_SIZE || size > data.Length {
        return TooLarge;
      }
      if count == countLimit {
        return MustWait;
      }
      if idx + size + 100 > data.Length {
        return MustWait;
      }
      ghost var tx := Tx(fee, txdata);
      LogBytesPush(log, tx);
      Put(idx, Le64(fee) + (Le32(size) + txdata));
      count := count + 1;
      idx := idx + 12 + size;
      log := log + [tx];
      return Added;
    }

    /** genBlocks changes the limit, which may be below the count by then. */
    method SetLimit(rate: nat)
      requires Valid()
      modifies this`countLimit
      ensures Valid() && Counts() == Next(data.Length, old(Counts()), Operation.SetLimit(rate))
    {
      countLimit := rate;
    }

    /** Writes bytes into the buffer, as PutUint64, PutUint32 and copy do. */
    method Put(at: nat, bytes: seq<byte>)
      requires at + |bytes| <= data.Length
      modifies data
      ensures data[..at] == old(data[..at]) && data[at..at + |bytes|] == bytes
      ensures data[..at + |bytes|] == old(data[..at]) + bytes
    {
      for i := 0 to |bytes|
        invariant data[..at] == old(data[..at]) && data[at..at + i] == bytes[..i]
      {
        data[at + i] := bytes[i];
        assert data[at..at + i + 1] == data[at..at + i] + [bytes[i]];
      }
      assert data[..at + |bytes|] == data[..at] + data[at..at + |bytes|];
    }

    /** The hand-off to a new block: its transactions are those added since the last one. */
    method TakeBlock() returns (total: nat, bytes: seq<byte>)
      requires Valid()
      modifies this`idx, this`count, this`log
      ensures Valid() && log == [] && AllStorable(old(log)) && Counts() == Next(data.Length, old(Counts()), Take)
      ensures total == |old(log)| && bytes == LogBytes(old(log))
    {
      total := count;
      bytes := data[..idx];
      count := 0;
      idx := 0;
      log := [];
    }
  }

  // --- reading ---

  /** The first transaction and what follows it; Panic where a slice is out of range. */
  function FirstTx(s: seq<byte>): Outcome<(Tx, seq<byte>)> {
    if |s| < 12 then Panic
    else
      var n := Get32(s[8..12]);
      if |s| < 12 + n then Panic else Ok((Tx(Get64(s[0..8]), s[12..12 + n]), s[12 + n..]))
  }

  /** What an iteration over `total` transactions finds. */
  function ReadTxs(s: seq<byte>, total: nat): Outcome<seq<Tx>>
    decreases total
  {
    if total == 0 then Ok([])
    else
      var (tx, t) :- FirstTx(s);
      var txs :- ReadTxs(t, total - 1);
      Ok([tx] + txs)
  }

  /** Positions in what is left of some data. */
  lemma SliceOf(s: seq<byte>, data: seq<byte>, at: nat, lo: nat, hi: nat)
    requires at <= |data| && s == data[at..] && lo <= hi <= |s|
    ensures data[at + lo..at + hi] == s[lo..hi]
  {
  }

  lemma RestOf(s: seq<byte>, data: seq<byte>, at: nat, lo: nat)
    requires at <= |data| && s == data[at..] && lo <= |s|
    ensures data[at + lo..] == s[lo..]
  {
  }

  class TxIterator {
    const data: seq<byte>
    const total: u64
    var cur: u64
    var idx: nat
    var txData: seq<byte>
    var txFee: u64

    /** What has not been read. */
    ghost function Unread(): seq<byte>
      reads this
      requires idx <= |data|
    {
      data[idx..]
    }

    /** Iter. */
    constructor (data: seq<byte>, total: u64)
      ensures idx <= |this.data| && Unread() == data && this.total == total && cur == 0
    {
      this.data, this.total := data, total;
      cur, idx, txData, txFee := 0, 0, [], 0;
    }

    predicate Valid()
      reads this
    {
      cur < total
    }

    /** Next, on any data: the next transaction, or a slice out of range. */
    method Next() returns (o: Outcome<()>)
      requires idx <= |data|
      modifies this
      ensures o != Fatal && idx <= |data| && (o.Ok? <==> FirstTx(old(Unread())).Ok?)
      ensures o.Ok? ==> FirstTx(old(Unread())) == Ok((Tx(txFee, txData), Unread())) && cur == Wrap64(old(cur) + 1)
    {
      hide Get64, Get32;
      ghost var s := data[idx..];
      if idx + 8 > |data| {
        return Panic;
      }
      SliceOf(s, data, idx, 0, 8);
      txFee := Get64(data[idx..idx + 8]);
      idx := idx + 8;
      if idx + 4 > |data| {
        return Panic;
      }
      SliceOf(s, data, idx - 8, 8, 12);
      var size := Get32(data[idx..idx + 4]);
      idx := idx + 4;
      if idx + size > |data| {
        return Panic;
      }
      SliceOf(s, data, idx - 12, 12, 12 + size);
      RestOf(s, data, idx - 12, 12 + size);
      txData := data[idx..idx + size];
      idx := idx + size;
      cur := Wrap64(cur + 1);
      return Ok(());
    }
  }

  /** The loop over a block's transactions. */
  method ReadAll(data: seq<byte>, total: u64) returns (o: Outcome<seq<Tx>>)
    ensures o == ReadTxs(data, total)
  {
    hide FirstTx;
    var r: seq<Tx> := [];
    var it := new TxIterator(data, total);
    BeforeNone(ReadTxs(data, total));
    while it.Valid()
      invariant fresh(it) && it.idx <= |it.data| && it.total == total && it.cur <= total
      invariant Before(r, ReadTxs(it.Unread(), total - it.cur)) == ReadTxs(data, total)
      decreases total - it.cur
    {
      ghost var s := it.Unread();
      var next := it.Next();
      NeverFatal(s);
      if !next.Ok? {
        return Panic;
      }
      BeforeOne(r, Tx(it.txFee, it.txData), ReadTxs(it.Unread(), total - it.cur));
      r := r + [Tx(it.txFee, it.txData)];
    }
    assert r + [] == r;
    o := Ok(r);
  }

  function Before(r: seq<Tx>, o: Outcome<seq<Tx>>): Outcome<seq<Tx>> {
    if o.Ok? then Ok(r + o.value) else o
  }

  lemma BeforeNone(o: Outcome<seq<Tx>>)
    ensures Before([], o) == o
  {
    if o.Ok? {
      assert [] + o.value == o.value;
    }
  }

  lemma BeforeOne(r: seq<Tx>, tx: Tx, o: Outcome<seq<Tx>>)
    ensures o.Ok? ==> Before(r, Ok([tx] + o.value)) == Before(r + [tx], o)
  {
    if o.Ok? {
      assert r + ([tx] + o.value) == r + [tx] + o.value;
    }
  }

  // --- what is read is what was written ---

  lemma Le32Written(s: seq<byte>)
    requires |s| == 4
    ensures Get32(s) < U32_SIZE && Le32(Get32(s)) == s
  {
    hide Le32;
    Le32Parts(s[0], s[1], s[2], s[3]);
    assert s == [s[0], s[1], s[2], s[3]];
  }

  lemma Le32Parts(a: byte, b: byte, c: byte, d: byte)
    ensures Le32(a + 256 * b + 65536 * c + 16777216 * d) == [a, b, c, d]
  {
    var n := a + 256 * b + 65536 * c + 16777216 * d;
    Quotient(n, 256, b + 256 * c + 65536 * d, a);
    Quotient(n, 65536, c + 256 * d, a + 256 * b);
    Quotient(n, 16777216, d, a + 256 * b + 65536 * c);
  }

  lemma Quotient(n: nat, m: nat, q: nat, r: nat)
    requires n == m * q + r && r < m
    ensures n / m == q && n % m == r
  {
    var q', r' := n / m, n % m;
    assert n == m * q' + r';
    if q < q' {
      Lexinum.MulGap(m, q, q');
    } else if q' < q {
      Lexinum.MulGap(m, q', q);
    }
  }

  lemma Le64Written(s: seq<byte>)
    requires |s| == 8
    ensures Le64(Get64(s)) == s
  {
    hide Le32, Get32;
    var lo, hi := Get32(s[..4]), Get32(s[4..8]);
    Le32Written(s[..4]);
    Le32Written(s[4..8]);
    assert Get32(s) == lo by { SameFirst(s); }
    assert Get64(s) == lo + U32_SIZE * hi;
    assert Get64(s) % U32_SIZE == lo && Get64(s) / U32_SIZE == hi;
    assert s == s[..4] + s[4..8];
  }

  lemma SameFirst(s: seq<byte>)
    requires |s| == 8
    ensures Get32(s) == Get32(s[..4])
  {
  }

  /** A transaction is found if and only if its written form comes first. */
  lemma FirstExactly(s: seq<byte>, tx: Tx, t: seq<byte>)
    ensures FirstTx(s) == Ok((tx, t)) <==> Storable(tx) && s == TxBytes(tx) + t
  {
    hide Le64, Le32, Get64, Get32;
    if Storable(tx) && s == TxBytes(tx) + t {
      Le64Read(tx.fee, []);
      Le32Length(|tx.data|);
      FixedWidth(|tx.data|, []);
      assert s == Le64(tx.fee) + (Le32(|tx.data|) + tx.data) + t;
      assert s[0..8] == Le64(tx.fee) + [] && s[8..12] == Le32(|tx.data|) + [];
      assert s[12..12 + |tx.data|] == tx.data && s[12 + |tx.data|..] == t;
    }
    if FirstTx(s) == Ok((tx, t)) {
      Le64Written(s[0..8]);
      Le32Written(s[8..12]);
      var n := Get32(s[8..12]);
      assert s == s[0..8] + (s[8..12] + s[12..12 + n]) + s[12 + n..];
    }
  }

  /**
    An iteration succeeds and finds these transactions if and only if the data begins with their written
    form; whatever else is in it is not read. On all other data a slice is out of range.
   */
  lemma {:induction false} ReadsExactly(s: seq<byte>, total: nat, txs: seq<Tx>)
    ensures ReadTxs(s, total) == Ok(txs) <==> |txs| == total && AllStorable(txs) && LogBytes(txs) <= s
    ensures ReadTxs(s, total) != Fatal
    decreases total
  {
    hide FirstTx, TxBytes;
    if total == 0 {
    } else {
      var first := FirstTx(s);
      NeverFatal(s);
      if first.Ok? {
        var (tx, t) := first.value;
        FirstExactly(s, tx, t);
        ReadsExactly(t, total - 1, if txs == [] then [] else txs[1..]);
        FoundExactly(s, total, txs, tx, t);
      } else if txs != [] && AllStorable(txs) {
        NotWritten(s, txs);
      }
    }
  }

  lemma NeverFatal(s: seq<byte>)
    ensures FirstTx(s) != Fatal
  {
  }

  lemma NotWritten(s: seq<byte>, txs: seq<Tx>)
    requires !FirstTx(s).Ok? && txs != [] && AllStorable(txs)
    ensures !(LogBytes(txs) <= s)
  {
    hide FirstTx, TxBytes;
    if LogBytes(txs) <= s {
      var t := s[|TxBytes(txs[0])|..];
      assert s == TxBytes(txs[0]) + t;
      FirstExactly(s, txs[0], t);
    }
  }

  lemma FoundExactly(s: seq<byte>, total: nat, txs: seq<Tx>, tx: Tx, t: seq<byte>)
    requires total > 0 && FirstTx(s) == Ok((tx, t)) && Storable(tx) && s == TxBytes(tx) + t
    requires
      var rest := if txs == [] then [] else txs[1..];
      && ReadTxs(t, total - 1) != Fatal
      && (ReadTxs(t, total - 1) == Ok(rest) <==> |rest| == total - 1 && AllStorable(rest) && LogBytes(rest) <= t)
    ensures ReadTxs(s, total) == Ok(txs) <==> |txs| == total && AllStorable(txs) && LogBytes(txs) <= s
    ensures ReadTxs(s, total) != Fatal
  {
    hide FirstTx, TxBytes;
    if txs != [] && AllStorable(txs) && LogBytes(txs) <= s {
      var u := s[|TxBytes(txs[0])|..];
      assert s == TxBytes(txs[0]) + u;
      FirstExactly(s, txs[0], u);
      assert txs[0] == tx && u == t;
      assert LogBytes(txs)[|TxBytes(tx)|..] == LogBytes(txs[1..]);
    }
    if txs != [] {
      assert txs == [txs[0]] + txs[1..];
    }
    if ReadTxs(s, total) == Ok(txs) {
      var rest := ReadTxs(t, total - 1).value;
      assert txs == [tx] + rest && txs[1..] == rest;
      assert LogBytes(txs) == TxBytes(tx) + LogBytes(rest);
    }
  }

  /** Iterating over a block gives exactly the transactions that were added to it, in order. */
  lemma WrittenIsRead(txs: seq<Tx>)
    requires AllStorable(txs)
    ensures ReadTxs(LogBytes(txs), |txs|) == Ok(txs)
  {
    ReadsExactly(LogBytes(txs), |txs|, txs);
  }
}
