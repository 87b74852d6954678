/**
  The order-preserving encoding of uint64s: internal/lexinum/lexinum.go. Integer operations wrap around
  at 64 bits where the code's do.
 */
module Lexinum {
  import opened Bytes

  const MAX_SMALL: nat := 8258175
  const RADIX: nat := 253

  // --- pow, with 64-bit wrap-around ---

  function Power(a: nat, b: nat): nat {
    if b == 0 then 1 else a * Power(a, b - 1)
  }

  lemma {:induction false} ModShift(m: nat, k: nat, z: nat)
    requires m > 0
    ensures (m * k + z) % m == z % m
  {
    if k > 0 {
      ModShift(m, k - 1, z);
      assert m * k + z == (m * (k - 1) + z) + m;
      ModOnce(m, m * (k - 1) + z);
    }
  }

  lemma ModOnce(m: nat, x: nat)
    requires m > 0
    ensures (x + m) % m == x % m
  {
    var q, r := x / m, x % m;
    assert x + m == m * (q + 1) + r;
    DivUnique(m, q + 1, r, x + m);
  }

  lemma DivUnique(m: nat, q: nat, r: nat, x: nat)
    requires m > 0 && r < m && x == m * q + r
    ensures x % m == r && x / m == q
  {
    var q', r' := x / m, x % m;
    assert x == m * q' + r';
    if q < q' {
      MulGap(m, q, q');
    } else if q' < q {
      MulGap(m, q', q);
    }
  }

  lemma {:induction false} MulGap(m: nat, a: nat, b: nat)
    requires a < b
    ensures m * a + m <= m * b
    decreases b
  {
    if a + 1 < b {
      MulGap(m, a, b - 1);
      assert m * b == m * (b - 1) + m;
    } else {
      assert m * b == m * a + m;
    }
  }

  lemma ModMul(m: nat, x: nat, y: nat)
    requires m > 0
    ensures ((x % m) * y) % m == (x * y) % m
  {
    var q, r := x / m, x % m;
    var a, c := q * y, r * y;
    ProductParts(m, q, r, x, y);
    ModShift(m, a, c);
  }

  lemma ProductParts(m: nat, q: nat, r: nat, x: nat, y: nat)
    requires x == m * q + r
    ensures x * y == m * (q * y) + r * y
  {
    calc {
      x * y;
      (m * q + r) * y;
      (m * q) * y + r * y;
      m * (q * y) + r * y;
    }
  }

  lemma {:induction false} PowerSquare(a: nat, k: nat)
    ensures Power(a * a, k) == Power(a, 2 * k)
  {
    if k > 0 {
      PowerSquare(a, k - 1);
      assert Power(a, 2 * k) == a * Power(a, 2 * k - 1) == a * (a * Power(a, 2 * k - 2));
      assert a * (a * Power(a, 2 * k - 2)) == (a * a) * Power(a, 2 * k - 2);
    }
  }

  lemma {:induction false} PowerMod(m: nat, a: nat, k: nat)
    requires m > 0
    ensures Power(a % m, k) % m == Power(a, k) % m
  {
    if k > 0 {
      PowerMod(m, a, k - 1);
      var p, p' := Power(a, k - 1), Power(a % m, k - 1);
      calc {
        ((a % m) * p') % m;
        { ModMul(m, a, p'); }
        (a * p') % m;
        { assert a * p' == p' * a; ModMul(m, p', a); }
        ((p' % m) * a) % m;
        { ModMul(m, p, a); }
        (p * a) % m;
        { assert p * a == a * p; }
        (a * p) % m;
      }
    }
  }

  /** One turn of the loop of pow keeps n * a^b, up to wrap-around. */
  lemma PowStep(n: nat, a: nat, b: nat)
    requires b > 0
    ensures
      var n' := if b % 2 != 0 then Wrap64(n * a) else n;
      (n' * Power(Wrap64(a * a), b / 2)) % U64_SIZE == (n * Power(a, b)) % U64_SIZE
  {
    var m := U64_SIZE;
    var n0 := if b % 2 != 0 then n * a else n;
    var n' := if b % 2 != 0 then Wrap64(n * a) else n;
    var h := Power(Wrap64(a * a), b / 2);
    calc {
      (n' * h) % m;
      { ModMul(m, n0, h); }
      (n0 * h) % m;
      { assert n0 * h == h * n0; ModMul(m, h, n0); }
      ((h % m) * n0) % m;
      { PowerMod(m, a * a, b / 2); }
      ((Power(a * a, b / 2) % m) * n0) % m;
      { ModMul(m, Power(a * a, b / 2), n0); }
      (Power(a * a, b / 2) * n0) % m;
      { PowerSquare(a, b / 2); }
      (Power(a, 2 * (b / 2)) * n0) % m;
      { PowHalves(n, a, b); }
      (n * Power(a, b)) % m;
    }
  }

  lemma PowHalves(n: nat, a: nat, b: nat)
    requires b > 0
    ensures Power(a, 2 * (b / 2)) * (if b % 2 != 0 then n * a else n) == n * Power(a, b)
  {
    var p := Power(a, 2 * (b / 2));
    if b % 2 != 0 {
      assert Power(a, b) == a * p;
      assert p * (n * a) == n * (a * p);
    }
  }

  /** pow: the power modulo 2^64, for all arguments. */
  method Pow(a0: u64, b0: u64) returns (n: u64)
    ensures n == Power(a0, b0) % U64_SIZE
  {
    hide Power;
    n := 1;
    var a, b := a0, b0;
    while b > 0
      invariant 0 <= n < U64_SIZE && 0 <= a < U64_SIZE && 0 <= b
      invariant (n * Power(a, b)) % U64_SIZE == Power(a0, b0) % U64_SIZE
      decreases b
    {
      PowStep(n, a, b);
      if b % 2 != 0 {
        n := Wrap64(n * a);
      }
      b := b / 2;
      a := Wrap64(a * a);
    }
    PowerZero(a);
  }

  lemma PowerZero(a: nat)
    ensures Power(a, 0) == 1
  {
  }

  /** The powers that Encode needs fit 64 bits, so that pow's wrapped squaring never shows. */
  lemma RadixPowers()
    ensures Power(RADIX, 1) == 253 && Power(RADIX, 2) == 64009 && Power(RADIX, 3) == 16194277
    ensures Power(RADIX, 4) == 4097152081 && Power(RADIX, 5) == 1036579476493 && Power(RADIX, 6) == 262254607552729
    ensures Power(RADIX, 7) == 66350415710840437 && Power(RADIX, 8) == 16786655174842630561 < U64_SIZE
  {
    assert Power(RADIX, 0) == 1;
    assert Power(RADIX, 1) == 253 * Power(RADIX, 0);
    assert Power(RADIX, 2) == 253 * Power(RADIX, 1);
    assert Power(RADIX, 3) == 253 * Power(RADIX, 2);
    assert Power(RADIX, 4) == 253 * Power(RADIX, 3);
    assert Power(RADIX, 5) == 253 * Power(RADIX, 4);
    assert Power(RADIX, 6) == 253 * Power(RADIX, 5);
    assert Power(RADIX, 7) == 253 * Power(RADIX, 6);
    assert Power(RADIX, 8) == 253 * Power(RADIX, 7);
  }

  // --- the digits of the leading part ---

  /** Base 253, most significant digit first, without leading zeros; none for zero. */
  function Digits(x: nat): (ds: seq<byte>)
    ensures forall d | d in ds :: 2 <= d <= 254
    ensures x == 0 <==> ds == []
  {
    if x == 0 then [] else Digits(x / 253) + [x % 253 + 2]
  }

  /** The number of digits is decided by the powers of the radix. */
  lemma {:induction false} DigitsLength(x: nat, k: nat)
    ensures |Digits(x)| <= k <==> x < Power(RADIX, k)
  {
    if k == 0 {
    } else if x == 0 {
      PowerPositive(k);
    } else {
      DigitsLength(x / 253, k - 1);
      var p := Power(RADIX, k - 1);
      assert x / 253 < p <==> x < 253 * p;
    }
  }

  lemma {:induction false} PowerPositive(k: nat)
    ensures Power(RADIX, k) > 0
  {
    if k > 0 {
      PowerPositive(k - 1);
    }
  }

  // --- lexicographic order ---

  /** The first difference decides. */
  lemma {:induction false} LexAt(p: seq<byte>, x: byte, y: byte, s: seq<byte>, t: seq<byte>)
    requires x < y
    ensures LexLess(p + [x] + s, p + [y] + t)
  {
    if p != [] {
      LexAt(p[1..], x, y, s, t);
      var a, b := p + [x] + s, p + [y] + t;
      assert a[1..] == p[1..] + [x] + s && b[1..] == p[1..] + [y] + t;
    } else {
      assert p + [x] + s == [x] + s && p + [y] + t == [y] + t;
    }
  }

  lemma {:induction false} LexExtends(p: seq<byte>, t: seq<byte>)
    requires t != []
    ensures LexLess(p, p + t)
  {
    if p != [] {
      LexExtends(p[1..], t);
      assert (p + t)[1..] == p[1..] + t;
    }
  }

  lemma {:induction false} LexSamePrefix(p: seq<byte>, s: seq<byte>, t: seq<byte>)
    ensures LexLess(p + s, p + t) <==> LexLess(s, t)
  {
    if p == [] {
      assert p + s == s && p + t == t;
    } else {
      LexSamePrefix(p[1..], s, t);
      assert (p + s)[1..] == p[1..] + s && (p + t)[1..] == p[1..] + t;
    }
  }

  /** Of two numbers with equally many digits the larger one has the larger digits, whatever follows. */
  lemma {:induction false} DigitsOrder(a: nat, b: nat, s: seq<byte>, t: seq<byte>)
    requires a < b && |Digits(a)| == |Digits(b)|
    ensures LexLess(Digits(a) + s, Digits(b) + t)
    decreases b
  {
    var da, db := Digits(a / 253), Digits(b / 253);
    assert a != 0;
    assert Digits(a) + s == da + ([a % 253 + 2] + s) && Digits(b) + t == db + ([b % 253 + 2] + t);
    if a / 253 == b / 253 {
      LexAt(da, a % 253 + 2, b % 253 + 2, s, t);
      assert da + [a % 253 + 2] + s == da + ([a % 253 + 2] + s);
      assert db + [b % 253 + 2] + t == db + ([b % 253 + 2] + t);
    } else {
      DigitsOrder(a / 253, b / 253, [a % 253 + 2] + s, [b % 253 + 2] + t);
    }
  }

  // --- the encoding ---

  function SmallBytes(v: nat): seq<byte>
    requires v < MAX_SMALL
  {
    [v / 255 / 255 + 128, v / 255 % 255 + 1, v % 255 + 1]
  }

  /** How many digits are announced: at least one. */
  function Announced(lead: nat): (n: nat)
    ensures n >= 1
  {
    if lead == 0 then 1 else |Digits(lead)|
  }

  function Remainder(rem: nat): seq<byte>
    requires rem < 255
  {
    if rem > 0 then [1, rem] else []
  }

  lemma AnnouncedAtMost8(v: u64)
    requires v >= MAX_SMALL
    ensures Announced((v - MAX_SMALL) / 255) <= 8
  {
    var lead := (v - MAX_SMALL) / 255;
    RadixPowers();
    DigitsLength(lead, 8);
  }

  function BigBytes(v: u64): seq<byte>
    requires v >= MAX_SMALL
  {
    AnnouncedAtMost8(v);
    var w := v - MAX_SMALL;
    [255, Announced(w / 255) + 1] + Digits(w / 255) + Remainder(w % 255)
  }

  /** What Encode returns. */
  function Encoded(v: u64): seq<byte> {
    if v < MAX_SMALL then SmallBytes(v) else BigBytes(v)
  }

  /** No byte of an encoding is zero, so that zero can separate the parts of a key. */
  lemma NoZeroByte(v: u64)
    ensures forall b | b in Encoded(v) :: b != 0
  {
  }

  lemma SmallOrder(a: nat, b: nat)
    requires a < b < MAX_SMALL
    ensures LexLess(SmallBytes(a), SmallBytes(b))
  {
    var x, y := SmallBytes(a), SmallBytes(b);
    if x[0] == y[0] {
      if x[1] == y[1] {
        LexAt(x[..2], x[2], y[2], [], []);
        assert x == x[..2] + [x[2]] + [] && y == x[..2] + [y[2]] + [];
      } else {
        LexAt(x[..1], x[1], y[1], x[2..], y[2..]);
        assert x == x[..1] + [x[1]] + x[2..] && y == x[..1] + [y[1]] + y[2..];
      }
    }
  }

  lemma BigOrder(a: u64, b: u64)
    requires MAX_SMALL <= a < b
    ensures LexLess(BigBytes(a), BigBytes(b))
  {
    hide Digits, LexLess;
    AnnouncedAtMost8(a);
    AnnouncedAtMost8(b);
    var la, ra := (a - MAX_SMALL) / 255, (a - MAX_SMALL) % 255;
    var lb, rb := (b - MAX_SMALL) / 255, (b - MAX_SMALL) % 255;
    var na, nb := Announced(la), Announced(lb);
    var ta, tb := Digits(la) + Remainder(ra), Digits(lb) + Remainder(rb);
    assert BigBytes(a) == [255, na + 1] + ta && BigBytes(b) == [255, nb + 1] + tb;
    if na < nb {
      LexAt([255], na + 1, nb + 1, ta, tb);
      assert [255] + [na + 1] + ta == [255, na + 1] + ta && [255] + [nb + 1] + tb == [255, nb + 1] + tb;
    } else {
      LeadOrder(la, lb, ra, rb);
      LexSamePrefix([255, na + 1], ta, tb);
    }
  }

  /** The digits and the remainder, when no more digits are announced for the smaller number. */
  lemma LeadOrder(la: nat, lb: nat, ra: nat, rb: nat)
    requires la <= lb && ra < 255 && rb < 255 && (la == lb ==> ra < rb) && Announced(la) >= Announced(lb)
    ensures Announced(la) == Announced(lb)
    ensures LexLess(Digits(la) + Remainder(ra), Digits(lb) + Remainder(rb))
  {
    if la == lb {
      RemainderOrder(ra, rb);
      LexSamePrefix(Digits(la), Remainder(ra), Remainder(rb));
    } else {
      MoreDigits(la, lb);
      if la == 0 {
        assert Digits(0) + Remainder(ra) == Remainder(ra);
        var ds := Digits(lb);
        assert ds[0] in ds;
        assert (ds + Remainder(rb))[0] == ds[0];
      } else {
        DigitsOrder(la, lb, Remainder(ra), Remainder(rb));
      }
    }
  }

  lemma MoreDigits(a: nat, b: nat)
    requires a <= b
    ensures |Digits(a)| <= |Digits(b)|
  {
    DigitsLength(b, |Digits(b)|);
    DigitsLength(a, |Digits(b)|);
  }

  lemma RemainderOrder(ra: nat, rb: nat)
    requires ra < rb < 255
    ensures LexLess(Remainder(ra), Remainder(rb))
  {
    if ra > 0 {
      LexAt([1], ra, rb, [], []);
      assert [1] + [ra] + [] == Remainder(ra) && [1] + [rb] + [] == Remainder(rb);
    }
  }

  /** The encoding preserves the order of all uint64s, across the boundary of its two forms. */
  lemma OrderEmbedding(a: u64, b: u64)
    requires a < b
    ensures LexLess(Encoded(a), Encoded(b))
  {
    if b < MAX_SMALL {
      SmallOrder(a, b);
    } else if a >= MAX_SMALL {
      BigOrder(a, b);
    } else {
      assert Encoded(a)[0] < 255 == Encoded(b)[0];
    }
  }

  /** Hence it is injective, and its order is the numeric one. */
  lemma OrderExact(a: u64, b: u64)
    ensures a < b <==> LexLess(Encoded(a), Encoded(b))
    ensures a == b <==> Encoded(a) == Encoded(b)
  {
    hide Encoded, LexLess;
    if a < b {
      OrderEmbedding(a, b);
      LexAsymmetric(Encoded(a), Encoded(b));
    } else if b < a {
      OrderEmbedding(b, a);
      LexAsymmetric(Encoded(b), Encoded(a));
    } else {
      LexIrreflexive(Encoded(a));
    }
  }

  lemma LexAsymmetric(a: seq<byte>, b: seq<byte>)
    requires LexLess(a, b)
    ensures !LexLess(b, a) && a != b
  {
    LexIrreflexive(a);
    if LexLess(b, a) {
      LexTransitive(a, b, a);
    }
  }

  /** Encode. */
  method Encode(v: u64) returns (enc: seq<byte>)
    ensures enc == Encoded(v)
  {
    if v == 0 {
      return [0x80, 0x01, 0x01];
    }
    if v < MAX_SMALL {
      enc := [0x80, 0x01, 0x01];
      var div, mod := v / 255, v % 255;
      enc := enc[2 := mod + 1];
      if div > 0 {
        div, mod := div / 255, div % 255;
        enc := enc[1 := mod + 1];
        if div > 0 {
          enc := enc[0 := div + 128];
        }
      }
      return enc;
    }
    enc := EncodeBig(v);
  }

  /** The part of Encode for big numbers. */
  method EncodeBig(v: u64) returns (enc: seq<byte>)
    requires v >= MAX_SMALL
    ensures enc == BigBytes(v)
  {
    hide Digits;
    var w := v - MAX_SMALL;
    var lead, rem := w / 255, w % 255;
    AnnouncedAtMost8(v);
    var n := CountDigits(lead);
    var chars := LowDigits(lead);
    enc := [0xff, n + 1];
    var i := |chars|;
    assert chars[..i] == chars;
    while i > 0
      invariant 0 <= i <= |chars|
      invariant enc + Reversed(chars[..i]) == [0xff, n + 1] + Digits(lead)
    {
      i := i - 1;
      assert chars[..i + 1][..i] == chars[..i];
      assert enc + ([chars[i]] + Reversed(chars[..i])) == (enc + [chars[i]]) + Reversed(chars[..i]);
      enc := enc + [chars[i]];
    }
    assert enc + [] == enc;
    if rem > 0 {
      enc := enc + [0x01, rem];
    }
  }

  function Reversed(s: seq<byte>): seq<byte> {
    if s == [] then [] else [s[|s| - 1]] + Reversed(s[..|s| - 1])
  }

  /** The loop that finds how many digits to announce; it stops at 8. */
  method CountDigits(lead: u64) returns (n: byte)
    requires Announced(lead) <= 8
    ensures n == Announced(lead)
  {
    hide Power, Digits;
    n := 1;
    var p := Pow(RADIX, n);
    RadixFits(n);
    DigitsLength(lead, n);
    Quotient(lead, p);
    while lead / p > 0
      invariant 1 <= n <= Announced(lead) && n <= 8 && 0 < p == Power(RADIX, n) < U64_SIZE
      invariant (|Digits(lead)| <= n <==> lead < p) && (lead / p > 0 <==> lead >= p)
      decreases 8 - n
    {
      n := n + 1;
      p := Pow(RADIX, n);
      RadixFits(n);
      DigitsLength(lead, n);
      Quotient(lead, p);
    }
  }

  lemma Quotient(x: nat, p: nat)
    requires p > 0
    ensures x / p > 0 <==> x >= p
  {
    assert x == p * (x / p) + x % p;
  }

  lemma RadixFits(n: nat)
    requires 1 <= n <= 8
    ensures 0 < Power(RADIX, n) < U64_SIZE && Power(RADIX, n) % U64_SIZE == Power(RADIX, n)
  {
    RadixPowers();
  }

  /** The loop that takes off the digits, the least significant first. */
  method LowDigits(x: u64) returns (chars: seq<byte>)
    ensures Reversed(chars) == Digits(x)
  {
    chars := [];
    var lead := x;
    while lead != 0
      invariant 0 <= lead
      invariant Digits(lead) + Reversed(chars) == Digits(x)
      decreases lead
    {
      var mod := lead % 253;
      assert (chars + [mod + 2])[..|chars|] == chars;
      assert Digits(lead) + Reversed(chars) == Digits(lead / 253) + ([mod + 2] + Reversed(chars));
      chars := chars + [mod + 2];
      lead := lead / 253;
    }
    assert [] + Reversed(chars) == Reversed(chars);
  }

  // --- decoding ---

  /** An error for a malformed slice, and a crash for one that ends in a remainder mark. */
  datatype Decoding = Number(value: u64) | Malformed | OutOfRange

  /** Subtraction on uint8. */
  function ByteMinus(b: byte, k: byte): byte {
    (b + 256 - k) % 256
  }

  /** What Decode makes of the bytes after the first two, having read v so far. */
  function BigValue(t: seq<byte>, v: u64): Decoding {
    if t == [] then Number(Wrap64(v * 255 + MAX_SMALL))
    else if t[0] == 1 then
      if |t| < 2 then OutOfRange else Number(Wrap64(v * 255 + t[1] + MAX_SMALL))
    else BigValue(t[1..], Wrap64(v + v * 252 + ByteMinus(t[0], 2)))
  }

  /** What Decode returns. */
  function Decoded(d: seq<byte>): Decoding {
    if |d| < 2 || d[0] < 0x80 then Malformed
    else if d[0] == 0xff then BigValue(d[2..], 0)
    else if |d| < 3 then Malformed
    else Number(((d[0] - 128) * 255 + ByteMinus(d[1], 1)) * 255 + ByteMinus(d[2], 1))
  }

  /** Decode. */
  method Decode(d: seq<byte>) returns (r: Decoding)
    ensures r == Decoded(d)
  {
    if |d| < 2 || d[0] < 0x80 {
      return Malformed;
    }
    if d[0] == 0xff {
      var rem: nat, v: u64 := 0, 0;
      var i := 0;
      while i < |d| - 2
        invariant 0 <= i <= |d| - 2 && rem == 0
        invariant BigValue(d[i + 2..], v) == BigValue(d[2..], 0)
      {
        var b := d[i + 2];
        assert d[i + 2..][1..] == d[i + 3..];
        if b == 0x01 {
          if i + 3 >= |d| {
            return OutOfRange;
          }
          rem := d[i + 3];
          assert BigValue(d[2..], 0) == Number(Wrap64(v * 255 + rem + MAX_SMALL));
          return Number(Wrap64(v * 255 + rem + MAX_SMALL));
        }
        v := Wrap64(v + v * 252 + ByteMinus(b, 2));
        i := i + 1;
      }
      return Number(Wrap64(v * 255 + rem + MAX_SMALL));
    }
    if |d| < 3 {
      return Malformed;
    }
    return Number(((d[0] - 128) * 255 + ByteMinus(d[1], 1)) * 255 + ByteMinus(d[2], 1));
  }

  lemma {:induction false} DigitsDecoded(x: u64, t: seq<byte>)
    ensures BigValue(Digits(x) + t, 0) == BigValue(t, x)
    decreases x
  {
    if x == 0 {
      assert Digits(x) + t == t;
    } else {
      var y, d := x / 253, x % 253 + 2;
      DigitsDecoded(y, [d] + t);
      assert Digits(x) + t == Digits(y) + ([d] + t);
      hide Digits, BigValue;
      DigitDecoded(y, d, t);
    }
  }

  lemma DigitDecoded(y: u64, d: byte, t: seq<byte>)
    requires d >= 2 && y * 253 + (d - 2) < U64_SIZE
    ensures BigValue([d] + t, y) == BigValue(t, y * 253 + (d - 2))
  {
    assert ([d] + t)[0] == d && ([d] + t)[1..] == t;
    assert y + y * 252 + ByteMinus(d, 2) == y * 253 + (d - 2);
  }

  lemma SmallRoundTrip(v: nat)
    requires v < MAX_SMALL
    ensures Decoded(SmallBytes(v)) == Number(v)
  {
    var q := v / 255;
    assert v == q * 255 + v % 255 && q == q / 255 * 255 + q % 255;
  }

  lemma BigRoundTrip(v: u64)
    requires v >= MAX_SMALL
    ensures Decoded(BigBytes(v)) == Number(v)
  {
    hide Digits;
    var w := v - MAX_SMALL;
    var lead, rem := w / 255, w % 255;
    DigitsDecoded(lead, Remainder(rem));
    AnnouncedAtMost8(v);
    assert BigBytes(v)[2..] == Digits(lead) + Remainder(rem);
    assert lead * 255 + rem + MAX_SMALL == v;
  }

  /** Decoding an encoding gives back the number, for every uint64. */
  lemma RoundTrip(v: u64)
    ensures Decoded(Encoded(v)) == Number(v)
  {
    if v < MAX_SMALL {
      SmallRoundTrip(v);
    } else {
      BigRoundTrip(v);
    }
  }
}
