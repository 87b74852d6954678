/** A stored block graph that was cut short is never read as another one: the read goes beyond the data. */
module Truncation {
  import opened Bytes
  import opened Ids
  import opened Keys
  import opened GraphCodec

  /** A beginning, but not all of it. */
  ghost predicate Cut(u: seq<byte>, s: seq<byte>) {
    |u| < |s| && u == s[..|u|]
  }

  /** A cut of two parts is a cut of the first, or all of it and a cut of the second. */
  lemma CutParts(u: seq<byte>, a: seq<byte>, b: seq<byte>)
    requires Cut(u, a + b)
    ensures Cut(u, a) || (|a| <= |u| && u == a + u[|a|..] && Cut(u[|a|..], b))
  {
    if |u| < |a| {
      assert u == a[..|u|];
    } else {
      var v := u[|a|..];
      assert u[..|a|] == a;
      assert v == b[..|v|];
    }
  }

  lemma IdCut(id: BlockID, u: seq<byte>)
    requires Short(id) && Cut(u, IdField(id))
    ensures ParseId(u) == Crashed
  {
    hide IdBytes, DecodedId;
    var b := IdBytes(id);
    if |u| >= 2 {
      FixedWidth(|b|, b);
      assert u[0] == IdField(id)[0] && u[1] == IdField(id)[1];
      assert Get16(u) == Get16(Le16(|b|) + b);
    }
  }

  lemma PrevCut(id: BlockID, u: seq<byte>)
    requires PrevShort(id) && Cut(u, PrevField(id))
    ensures ParseId(u) == Crashed
  {
    if id.Valid() {
      hide IdField, ParseId;
      IdCut(id, u);
    }
  }

  lemma CountCut(n: nat, u: seq<byte>)
    requires Cut(u, Le32(n))
    ensures ParseCount(u) == Crashed
  {
  }

  lemma {:induction false} LinksCut(ids: seq<BlockID>, u: seq<byte>)
    requires (forall i | 0 <= i < |ids| :: Short(ids[i])) && AllFit(ids) && Cut(u, LinksBytes(ids))
    ensures ParseLinks(u, |ids|) == Crashed
    decreases |ids|
  {
    hide IdField, ParseId, Short;
    if ids != [] {
      var first := IdField(ids[0]);
      CutParts(u, first, LinksBytes(ids[1..]));
      if Cut(u, first) {
        IdCut(ids[0], u);
      } else {
        IdFieldParsed(ids[0], u[|first|..]);
        LinksCut(ids[1..], u[|first|..]);
      }
    }
  }

  lemma LinksAfter(n: nat, links: seq<BlockID>, u: seq<byte>)
    requires LinksShort(links) && AllFit(links) && n == |links| && Cut(u, Le32(n) + LinksBytes(links))
    ensures
      var c := ParseCount(u);
      c == Crashed || (c.Parsed? && c.value == n && ParseLinks(c.rest, n) == Crashed)
  {
    hide Le32, ParseCount, ParseLinks, LinksBytes, Short;
    var a := Le32(n);
    CutParts(u, a, LinksBytes(links));
    if Cut(u, a) {
      CountCut(n, u);
    } else {
      CountParsed(n, u[|a|..]);
      LinksCut(links, u[|a|..]);
    }
  }

  lemma DepCut(d: Dep, u: seq<byte>)
    requires DepShort(d) && DepFits(d) && Cut(u, DepBytes(d))
    ensures ParseDep(u) == Crashed
  {
    hide IdField, PrevField, Le32, ParseId, ParseCount, ParseLinks, LinksBytes, Short, Cut;
    var a, b, c := IdField(d.block), PrevField(d.prev), Le32(|d.deps|) + LinksBytes(d.deps);
    CutParts(u, a, b + c);
    if Cut(u, a) {
      IdCut(d.block, u);
    } else {
      var v := u[|a|..];
      IdFieldParsed(d.block, v);
      CutParts(v, b, c);
      if Cut(v, b) {
        PrevCut(d.prev, v);
      } else {
        PrevFieldParsed(d.prev, v[|b|..]);
        LinksAfter(|d.deps|, d.deps, v[|b|..]);
      }
    }
  }

  lemma {:induction false} DepsCut(ds: seq<Dep>, u: seq<byte>)
    requires (forall i | 0 <= i < |ds| :: DepShort(ds[i])) && DepsFit(ds) && Cut(u, DepsBytes(ds))
    ensures ParseDeps(u, |ds|) == Crashed
    decreases |ds|
  {
    hide DepBytes, ParseDep, DepShort, DepFits;
    if ds != [] {
      var first := DepBytes(ds[0]);
      CutParts(u, first, DepsBytes(ds[1..]));
      if Cut(u, first) {
        DepCut(ds[0], u);
      } else {
        DepParsed(ds[0], u[|first|..]);
        DepsCut(ds[1..], u[|first|..]);
      }
    }
  }

  /** However a written block graph is cut short, reading it is a slice out of range. */
  lemma GraphCut(g: BlockGraph, block: BlockID, u: seq<byte>)
    requires GraphShort(g) && Fits(g.prev) && DepsFit(g.deps) && Cut(u, GraphBytes(g))
    ensures ParseGraph(block, u) == Crashed
  {
    hide PrevField, Le32, ParseId, ParseCount, ParseDeps, DepsBytes, DepShort, Cut;
    var a, b, c := PrevField(g.prev), Le32(|g.deps|), DepsBytes(g.deps);
    CutParts(u, a, b + c);
    if Cut(u, a) {
      PrevCut(g.prev, u);
    } else {
      var v := u[|a|..];
      PrevFieldParsed(g.prev, v);
      CutParts(v, b, c);
      if Cut(v, b) {
        CountCut(|g.deps|, v);
      } else {
        CountParsed(|g.deps|, v[|b|..]);
        DepsCut(g.deps, v[|b|..]);
      }
    }
  }
}
