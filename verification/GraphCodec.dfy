/** The stored form of a block graph: encodeBlockGraph and its decoder in getBlockGraphs, broadcast/store.go. */
module GraphCodec {
  import opened Bytes
  import opened Ids
  import opened Keys

  const NO_BLOCK := BlockID([], 0, 0)

  // --- fixed-width numbers, least significant byte first; larger numbers are truncated ---

  function Le16(n: nat): seq<byte> {
    [n % 256, n / 256 % 256]
  }

  function Le32(n: nat): seq<byte> {
    [n % 256, n / 256 % 256, n / 65536 % 256, n / 16777216 % 256]
  }

  function Get16(s: seq<byte>): nat
    requires |s| >= 2
  {
    s[0] as int + 256 * (s[1] as int)
  }

  function Get32(s: seq<byte>): nat
    requires |s| >= 4
  {
    s[0] as int + 256 * (s[1] as int) + 65536 * (s[2] as int) + 16777216 * (s[3] as int)
  }

  lemma FixedWidth(n: nat, t: seq<byte>)
    ensures n < 65536 ==> Get16(Le16(n) + t) == n
    ensures n < U32_SIZE ==> Get32(Le32(n) + t) == n
  {
    var a := n / 256;
    var b := a / 256;
    assert n / 65536 == b && n / 16777216 == b / 256;
    assert n == n % 256 + 256 * (a % 256) + 65536 * (b % 256) + 16777216 * (b / 256);
    assert n < U32_SIZE ==> b / 256 % 256 == b / 256;
  }

  // --- writing ---

  function IdField(id: BlockID): seq<byte>
    requires Fits(id)
  {
    Le16(|IdBytes(id)|) + IdBytes(id)
  }

  function PrevField(id: BlockID): seq<byte>
    requires Fits(id)
  {
    if id.Valid() then IdField(id) else [0, 0]
  }

  predicate AllFit(ids: seq<BlockID>) {
    forall i | 0 <= i < |ids| :: Fits(ids[i])
  }

  predicate DepFits(d: Dep) {
    Fits(d.block) && Fits(d.prev) && AllFit(d.deps)
  }

  predicate DepsFit(ds: seq<Dep>) {
    forall i | 0 <= i < |ds| :: DepFits(ds[i])
  }

  function LinksBytes(ids: seq<BlockID>): seq<byte>
    requires AllFit(ids)
  {
    if ids == [] then [] else IdField(ids[0]) + LinksBytes(ids[1..])
  }

  function DepBytes(d: Dep): seq<byte>
    requires DepFits(d)
  {
    IdField(d.block) + (PrevField(d.prev) + (Le32(|d.deps|) + LinksBytes(d.deps)))
  }

  function DepsBytes(ds: seq<Dep>): seq<byte>
    requires DepsFit(ds)
  {
    if ds == [] then [] else DepBytes(ds[0]) + DepsBytes(ds[1..])
  }

  /** What encodeBlockGraph returns; the block itself is in the key. */
  function GraphBytes(g: BlockGraph): seq<byte>
    requires Fits(g.prev) && DepsFit(g.deps)
  {
    PrevField(g.prev) + (Le32(|g.deps|) + DepsBytes(g.deps))
  }

  // --- reading ---

  /** A value and what follows it; an error of decodeBlockID; or a slice out of range. */
  datatype Parse<+T> = Parsed(value: T, rest: seq<byte>) | Failed | Crashed {
    predicate IsFailure() {
      !Parsed?
    }

    function PropagateFailure<U>(): Parse<U>
      requires IsFailure()
    {
      if Failed? then Failed else Crashed
    }

    function Extract(): (T, seq<byte>)
      requires !IsFailure()
    {
      (value, rest)
    }
  }

  /** A length and an id of that length; a length of zero stands for no block. */
  function ParseId(s: seq<byte>): Parse<BlockID> {
    if |s| < 2 then Crashed
    else
      var k := Get16(s);
      if |s| < 2 + k then Crashed
      else
        match DecodedId(s[2..2 + k])
        case Id(id) => Parsed(id, s[2 + k..])
        case BadId => Failed
        case IdCrash => Crashed
  }

  function ParseCount(s: seq<byte>): Parse<nat> {
    if |s| < 4 then Crashed else Parsed(Get32(s), s[4..])
  }

  function ParseLinks(s: seq<byte>, n: nat): Parse<seq<BlockID>>
    decreases n
  {
    if n == 0 then Parsed([], s)
    else
      var (id, s1) :- ParseId(s);
      var (ids, s2) :- ParseLinks(s1, n - 1);
      Parsed([id] + ids, s2)
  }

  function ParseDep(s: seq<byte>): Parse<Dep> {
    var (block, s1) :- ParseId(s);
    var (prev, s2) :- ParseId(s1);
    var (n, s3) :- ParseCount(s2);
    var (links, s4) :- ParseLinks(s3, n);
    Parsed(Dep(block, links, prev), s4)
  }

  function ParseDeps(s: seq<byte>, n: nat): Parse<seq<Dep>>
    decreases n
  {
    if n == 0 then Parsed([], s)
    else
      var (d, s1) :- ParseDep(s);
      var (ds, s2) :- ParseDeps(s1, n - 1);
      Parsed([d] + ds, s2)
  }

  /** What the loop body of getBlockGraphs makes of a value, for the block of the key. */
  function ParseGraph(block: BlockID, s: seq<byte>): Parse<BlockGraph> {
    var (prev, s1) :- ParseId(s);
    var (n, s2) :- ParseCount(s1);
    var (deps, s3) :- ParseDeps(s2, n);
    Parsed(BlockGraph(block, deps, prev), s3)
  }

  // --- round trip ---

  /** The id's encoding fits the 16-bit length. */
  predicate Short(id: BlockID) {
    Fits(id) && |IdBytes(id)| < 65536
  }

  /** Where a previous block is expected, an id without a hash is written as no block at all. */
  predicate PrevShort(id: BlockID) {
    Fits(id) && (id.Valid() ==> Short(id))
  }

  predicate LinksShort(ids: seq<BlockID>) {
    |ids| < U32_SIZE && forall i | 0 <= i < |ids| :: Short(ids[i])
  }

  predicate DepShort(d: Dep) {
    Short(d.block) && PrevShort(d.prev) && LinksShort(d.deps)
  }

  /** All ids fit the 16-bit lengths, and all counts fit 32 bits. */
  predicate GraphShort(g: BlockGraph) {
    PrevShort(g.prev) && |g.deps| < U32_SIZE && forall i | 0 <= i < |g.deps| :: DepShort(g.deps[i])
  }

  function NormalId(id: BlockID): BlockID {
    if id.Valid() then id else NO_BLOCK
  }

  function NormalDep(d: Dep): Dep {
    d.(prev := NormalId(d.prev))
  }

  function NormalDeps(ds: seq<Dep>): (r: seq<Dep>)
    ensures |r| == |ds| && forall i | 0 <= i < |ds| :: r[i] == NormalDep(ds[i])
  {
    seq(|ds|, i requires 0 <= i < |ds| => NormalDep(ds[i]))
  }

  /** The graph with the zero id for every previous block, its own and its dependencies', without a hash. */
  function NormalGraph(g: BlockGraph): BlockGraph {
    BlockGraph(g.block, NormalDeps(g.deps), NormalId(g.prev))
  }

  predicate PrevKept(id: BlockID) {
    id.Valid() || id == NO_BLOCK
  }

  /** Every previous block has a hash or is the zero id. */
  predicate PrevsKept(g: BlockGraph) {
    PrevKept(g.prev) && forall i | 0 <= i < |g.deps| :: PrevKept(g.deps[i].prev)
  }

  lemma IdFieldParsed(id: BlockID, t: seq<byte>)
    requires Short(id)
    ensures ParseId(IdField(id) + t) == Parsed(id, t)
  {
    hide IdBytes, DecodedId;
    var b := IdBytes(id);
    var s := IdField(id) + t;
    FixedWidth(|b|, b + t);
    assert s == Le16(|b|) + (b + t);
    assert s[2..2 + |b|] == b && s[2 + |b|..] == t;
    IdRoundTrip(id);
  }

  lemma PrevFieldParsed(id: BlockID, t: seq<byte>)
    requires PrevShort(id)
    ensures ParseId(PrevField(id) + t) == Parsed(NormalId(id), t)
  {
    if id.Valid() {
      hide IdField;
      IdFieldParsed(id, t);
    } else {
      var s := [0, 0] + t;
      assert s[2..2] == [] && s[2..] == t;
    }
  }

  lemma CountParsed(n: nat, t: seq<byte>)
    requires n < U32_SIZE
    ensures ParseCount(Le32(n) + t) == Parsed(n, t)
  {
    FixedWidth(n, t);
    assert (Le32(n) + t)[4..] == t;
  }

  lemma {:induction false} LinksParsed(ids: seq<BlockID>, t: seq<byte>)
    requires forall i | 0 <= i < |ids| :: Short(ids[i])
    ensures AllFit(ids) && ParseLinks(LinksBytes(ids) + t, |ids|) == Parsed(ids, t)
    decreases |ids|
  {
    hide IdField, ParseId, Short;
    ShortFits(ids);
    if ids == [] {
      assert LinksBytes(ids) + t == t;
    } else {
      var u := LinksBytes(ids[1..]) + t;
      IdFieldParsed(ids[0], u);
      LinksParsed(ids[1..], t);
      assert LinksBytes(ids) + t == IdField(ids[0]) + u;
      assert [ids[0]] + ids[1..] == ids;
    }
  }

  lemma ShortFits(ids: seq<BlockID>)
    requires forall i | 0 <= i < |ids| :: Short(ids[i])
    ensures AllFit(ids) && (ids != [] ==> Short(ids[0]))
  {
  }

  lemma DepParsed(d: Dep, t: seq<byte>)
    requires DepShort(d)
    ensures DepFits(d) && ParseDep(DepBytes(d) + t) == Parsed(NormalDep(d), t)
  {
    hide IdField, PrevField, Le32, ParseId, ParseCount, ParseLinks, LinksBytes;
    var u3 := LinksBytes(d.deps) + t;
    var u2 := Le32(|d.deps|) + u3;
    var u1 := PrevField(d.prev) + u2;
    assert DepBytes(d) + t == IdField(d.block) + u1;
    IdFieldParsed(d.block, u1);
    PrevFieldParsed(d.prev, u2);
    CountParsed(|d.deps|, u3);
    LinksParsed(d.deps, t);
  }

  lemma {:induction false} DepsParsed(ds: seq<Dep>, t: seq<byte>)
    requires forall i | 0 <= i < |ds| :: DepShort(ds[i])
    ensures DepsFit(ds) && ParseDeps(DepsBytes(ds) + t, |ds|) == Parsed(NormalDeps(ds), t)
    decreases |ds|
  {
    hide DepBytes, ParseDep, DepShort;
    forall i | 0 <= i < |ds| ensures DepFits(ds[i]) {
      DepParsed(ds[i], []);
    }
    if ds == [] {
      assert DepsBytes(ds) + t == t;
    } else {
      var u := DepsBytes(ds[1..]) + t;
      DepParsed(ds[0], u);
      DepsParsed(ds[1..], t);
      assert DepsBytes(ds) + t == DepBytes(ds[0]) + u;
      assert [NormalDep(ds[0])] + NormalDeps(ds[1..]) == NormalDeps(ds);
    }
  }

  /** Reading a written block graph gives it back, whatever follows, but for previous blocks without a hash. */
  lemma GraphReadBack(g: BlockGraph, t: seq<byte>)
    requires GraphShort(g)
    ensures Fits(g.prev) && DepsFit(g.deps) && ParseGraph(g.block, GraphBytes(g) + t) == Parsed(NormalGraph(g), t)
  {
    hide PrevField, Le32, ParseId, ParseCount, ParseDeps, DepsBytes;
    DepsParsed(g.deps, t);
    var u2 := DepsBytes(g.deps) + t;
    var u1 := Le32(|g.deps|) + u2;
    assert GraphBytes(g) + t == PrevField(g.prev) + u1;
    PrevFieldParsed(g.prev, u1);
    CountParsed(|g.deps|, u2);
  }

  lemma NormalExactly(g: BlockGraph)
    ensures NormalGraph(g) == g <==> PrevsKept(g)
  {
    if NormalGraph(g) == g {
      forall i | 0 <= i < |g.deps| ensures PrevKept(g.deps[i].prev) {
        assert NormalDeps(g.deps)[i] == g.deps[i];
      }
    }
    if PrevsKept(g) {
      assert NormalDeps(g.deps) == g.deps;
    }
  }

  /** So it comes back unchanged if and only if every previous block has a hash or is the zero id. */
  lemma GraphRoundTrip(g: BlockGraph, t: seq<byte>)
    requires GraphShort(g)
    ensures Fits(g.prev) && DepsFit(g.deps)
    ensures ParseGraph(g.block, GraphBytes(g) + t) == Parsed(g, t) <==> PrevsKept(g)
  {
    hide ParseGraph, GraphBytes, NormalGraph, PrevsKept;
    GraphReadBack(g, t);
    NormalExactly(g);
  }

  /**
    The input that is lost: a received block may name a previous block of the right node and round with an
    empty hash, which is dropped from the stored graph of the own block that includes it.
   */
  lemma EmptyDepPrevLost(g: BlockGraph, i: nat, t: seq<byte>)
    requires GraphShort(g) && i < |g.deps| && g.deps[i].block.round >= 2
    requires g.deps[i].prev == BlockID([], g.deps[i].block.node, g.deps[i].block.round - 1)
    ensures Fits(g.prev) && DepsFit(g.deps)
    ensures
      var r := ParseGraph(g.block, GraphBytes(g) + t);
      r.Parsed? && |r.value.deps| == |g.deps| && r.value.deps[i] == g.deps[i].(prev := NO_BLOCK) && r.value != g
  {
    hide ParseGraph, GraphBytes;
    GraphReadBack(g, t);
    assert NormalDeps(g.deps)[i] == NormalDep(g.deps[i]);
  }

  /** Graphs that differ only in such ids are written alike. */
  lemma {:induction false} NormalDepsBytes(ds: seq<Dep>)
    requires DepsFit(ds)
    ensures DepsFit(NormalDeps(ds)) && DepsBytes(NormalDeps(ds)) == DepsBytes(ds)
    decreases |ds|
  {
    forall i | 0 <= i < |ds| ensures DepFits(NormalDeps(ds)[i]) {
      assert DepFits(ds[i]);
    }
    if ds != [] {
      NormalDepsBytes(ds[1..]);
      assert NormalDeps(ds)[1..] == NormalDeps(ds[1..]);
    }
  }

  lemma NormalBytes(g: BlockGraph)
    requires GraphShort(g)
    ensures Fits(g.prev) && DepsFit(g.deps) && GraphShort(NormalGraph(g)) && PrevsKept(NormalGraph(g))
    ensures Fits(NormalId(g.prev)) && DepsFit(NormalDeps(g.deps)) && GraphBytes(NormalGraph(g)) == GraphBytes(g)
  {
    hide DepBytes, IdField, Short, IdBytes;
    ShortGraphFits(g);
    NormalDepsBytes(g.deps);
  }

  lemma ShortGraphFits(g: BlockGraph)
    requires GraphShort(g)
    ensures Fits(g.prev) && DepsFit(g.deps)
  {
    forall i | 0 <= i < |g.deps| ensures DepFits(g.deps[i]) {
      assert DepShort(g.deps[i]);
    }
  }

  // --- the loops ---

  lemma {:induction false} LinksBytesPush(ids: seq<BlockID>, id: BlockID)
    requires AllFit(ids) && Fits(id)
    ensures AllFit(ids + [id]) && LinksBytes(ids + [id]) == LinksBytes(ids) + IdField(id)
    decreases |ids|
  {
    hide IdField;
    if ids == [] {
      assert ids + [id] == [id];
    } else {
      LinksBytesPush(ids[1..], id);
      assert (ids + [id])[1..] == ids[1..] + [id];
    }
  }

  lemma {:induction false} DepsBytesPush(ds: seq<Dep>, d: Dep)
    requires DepsFit(ds) && DepFits(d)
    ensures DepsFit(ds + [d]) && DepsBytes(ds + [d]) == DepsBytes(ds) + DepBytes(d)
    decreases |ds|
  {
    hide DepBytes;
    if ds == [] {
      assert ds + [d] == [d];
    } else {
      DepsBytesPush(ds[1..], d);
      assert (ds + [d])[1..] == ds[1..] + [d];
    }
  }

  /** encodeBlockGraph. */
  method EncodeBlockGraph(g: BlockGraph) returns (out: seq<byte>)
    requires Fits(g.prev) && DepsFit(g.deps)
    ensures out == GraphBytes(g)
  {
    hide IdField, DepBytes, DepFits;
    out := [];
    if g.prev.Valid() {
      out := out + IdField(g.prev);
    } else {
      out := out + [0x00, 0x00];
    }
    out := out + Le32(|g.deps|);
    ghost var head := out;
    for i := 0 to |g.deps|
      invariant out == head + DepsBytes(g.deps[..i])
    {
      var dep := EncodeDep(g.deps[i]);
      DepsBytesPush(g.deps[..i], g.deps[i]);
      assert g.deps[..i + 1] == g.deps[..i] + [g.deps[i]];
      out := out + dep;
    }
    assert g.deps[..|g.deps|] == g.deps;
    assert head == PrevField(g.prev) + Le32(|g.deps|);
  }

  /** The body of its loop. */
  method EncodeDep(dep: Dep) returns (out: seq<byte>)
    requires DepFits(dep)
    ensures out == DepBytes(dep)
  {
    hide IdField;
    out := IdField(dep.block);
    if dep.prev.Valid() {
      out := out + IdField(dep.prev);
    } else {
      out := out + [0x00, 0x00];
    }
    out := out + Le32(|dep.deps|);
    ghost var head := out;
    for j := 0 to |dep.deps|
      invariant out == head + LinksBytes(dep.deps[..j])
    {
      LinksBytesPush(dep.deps[..j], dep.deps[j]);
      assert dep.deps[..j + 1] == dep.deps[..j] + [dep.deps[j]];
      out := out + IdField(dep.deps[j]);
    }
    assert dep.deps[..|dep.deps|] == dep.deps;
    assert head == IdField(dep.block) + (PrevField(dep.prev) + Le32(|dep.deps|));
  }

  function Prepend<T>(xs: seq<T>, p: Parse<seq<T>>): Parse<seq<T>> {
    if p.Parsed? then Parsed(xs + p.value, p.rest) else p
  }

  /** The cursor after a parse stands where the unread part begins. */
  ghost predicate At<T>(p: Parse<T>, val: seq<byte>, idx: nat) {
    p.Parsed? ==> idx <= |val| && p.rest == val[idx..]
  }

  method ReadId(val: seq<byte>, idx: nat) returns (r: Parse<BlockID>, next: nat)
    requires idx <= |val|
    ensures r == ParseId(val[idx..]) && At(r, val, next)
  {
    hide DecodedId;
    next := idx;
    if |val| < idx + 2 {
      return Crashed, idx;
    }
    var ksize := Get16(val[idx..]);
    next := idx + 2;
    if |val| < next + ksize {
      return Crashed, next;
    }
    var id := DecodeBlockID(val[next..next + ksize]);
    assert val[idx..][2..2 + ksize] == val[next..next + ksize] && val[idx..][2 + ksize..] == val[next + ksize..];
    next := next + ksize;
    match id
    case Id(b) => r := Parsed(b, val[next..]);
    case BadId => r := Failed;
    case IdCrash => r := Crashed;
  }

  method ReadCount(val: seq<byte>, idx: nat) returns (r: Parse<nat>, next: nat)
    requires idx <= |val|
    ensures r == ParseCount(val[idx..]) && At(r, val, next)
  {
    if |val| < idx + 4 {
      return Crashed, idx;
    }
    next := idx + 4;
    assert val[idx..][4..] == val[next..];
    r := Parsed(Get32(val[idx..]), val[next..]);
  }

  /** The innermost loop of the decoder. */
  method ReadLinks(val: seq<byte>, idx: nat, lsize: nat) returns (r: Parse<seq<BlockID>>, next: nat)
    requires idx <= |val|
    ensures r == ParseLinks(val[idx..], lsize) && At(r, val, next)
  {
    hide ParseId;
    var links: seq<BlockID> := [];
    next := idx;
    PrependNone(ParseLinks(val[idx..], lsize));
    for j := 0 to lsize
      invariant next <= |val|
      invariant ParseLinks(val[idx..], lsize) == Prepend(links, ParseLinks(val[next..], lsize - j))
    {
      var link, k := ReadId(val, next);
      if !link.Parsed? {
        return link.PropagateFailure(), k;
      }
      PrependOne(links, link.value, ParseLinks(val[k..], lsize - j - 1));
      links := links + [link.value];
      next := k;
    }
    r := Parsed(links, val[next..]);
    assert links + [] == links;
  }

  lemma PrependNone<T>(p: Parse<seq<T>>)
    ensures Prepend([], p) == p
  {
    if p.Parsed? {
      assert [] + p.value == p.value;
    }
  }

  lemma PrependOne<T>(xs: seq<T>, x: T, p: Parse<seq<T>>)
    ensures p.Parsed? ==> Prepend(xs, Parsed([x] + p.value, p.rest)) == Prepend(xs + [x], p)
  {
    if p.Parsed? {
      assert xs + ([x] + p.value) == xs + [x] + p.value;
    }
  }

  method ReadDep(val: seq<byte>, idx: nat) returns (r: Parse<Dep>, next: nat)
    requires idx <= |val|
    ensures r == ParseDep(val[idx..]) && At(r, val, next)
  {
    hide ParseId, ParseCount, ParseLinks;
    var id, i1 := ReadId(val, idx);
    if !id.Parsed? {
      return id.PropagateFailure(), i1;
    }
    var prev, i2 := ReadId(val, i1);
    if !prev.Parsed? {
      return prev.PropagateFailure(), i2;
    }
    var lsize, i3 := ReadCount(val, i2);
    if !lsize.Parsed? {
      return lsize.PropagateFailure(), i3;
    }
    var links, i4 := ReadLinks(val, i3, lsize.value);
    if !links.Parsed? {
      return links.PropagateFailure(), i4;
    }
    return Parsed(Dep(id.value, links.value, prev.value), val[i4..]), i4;
  }

  /** The decoder of getBlockGraphs: one cursor over the value. */
  method DecodeBlockGraph(block: BlockID, val: seq<byte>) returns (r: Parse<BlockGraph>)
    ensures r == ParseGraph(block, val)
  {
    hide ParseId, ParseCount, ParseDep;
    assert val[0..] == val;
    var prev, idx := ReadId(val, 0);
    if !prev.Parsed? {
      return prev.PropagateFailure();
    }
    var size, next := ReadCount(val, idx);
    if !size.Parsed? {
      return size.PropagateFailure();
    }
    ghost var s2 := val[next..];
    var deps: seq<Dep> := [];
    PrependNone(ParseDeps(s2, size.value));
    for i := 0 to size.value
      invariant next <= |val|
      invariant ParseDeps(s2, size.value) == Prepend(deps, ParseDeps(val[next..], size.value - i))
    {
      var dep, k := ReadDep(val, next);
      if !dep.Parsed? {
        return dep.PropagateFailure();
      }
      PrependOne(deps, dep.value, ParseDeps(val[k..], size.value - i - 1));
      deps := deps + [dep.value];
      next := k;
    }
    assert deps + [] == deps;
    r := Parsed(BlockGraph(block, deps, prev.value), val[next..]);
  }
}
