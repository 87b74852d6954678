/** The timeout that a block's delays give: blockmania/graph.go, lines 172-219, and diff in state.go. */
module Timeouts {
  import opened Sets

  const MIN_TIMEOUT: nat := 10

  function Diff(a: nat, b: nat): (d: nat)
    ensures a == b + d || b == a + d
  {
    if a >= b then a - b else b - a
  }

  ghost function Below(delay: map<nat, nat>, x: nat): set<nat> {
    set n | n in delay && delay[n] < x
  }

  ghost function UpTo(delay: map<nat, nat>, x: nat): set<nat> {
    set n | n in delay && delay[n] <= x
  }

  /** x is the delay at index k when the delays are put in ascending order. */
  ghost predicate IsOrderStatistic(delay: map<nat, nat>, k: nat, x: nat) {
    |Below(delay, x)| <= k < |UpTo(delay, x)|
  }

  ghost predicate IsLargest(delay: map<nat, nat>, x: nat) {
    && x >= MIN_TIMEOUT
    && (forall n | n in delay :: delay[n] <= x)
    && (x == MIN_TIMEOUT || exists n :: n in delay && delay[n] == x)
  }

  /** What a block's timeout is: independent of the order in which a map is traversed. */
  ghost predicate IsTimeout(delay: map<nat, nat>, quorum2f: nat, t: nat) {
    if |delay| > quorum2f + 1 then
      exists x: nat :: IsOrderStatistic(delay, quorum2f, x) && t == if x > MIN_TIMEOUT then x else MIN_TIMEOUT
    else IsLargest(delay, t)
  }

  lemma OrderStatisticUnique(delay: map<nat, nat>, k: nat, x: nat, y: nat)
    requires IsOrderStatistic(delay, k, x) && IsOrderStatistic(delay, k, y)
    ensures x == y
  {
    if x < y {
      CardinalityGrows(UpTo(delay, x), Below(delay, y));
    } else if y < x {
      CardinalityGrows(UpTo(delay, y), Below(delay, x));
    }
  }

  /** Two values that both are the timeout are equal. */
  lemma TimeoutUnique(delay: map<nat, nat>, quorum2f: nat, t: nat, u: nat)
    requires IsTimeout(delay, quorum2f, t) && IsTimeout(delay, quorum2f, u)
    ensures t == u
  {
    hide IsOrderStatistic;
    if |delay| > quorum2f + 1 {
      var x: nat :| IsOrderStatistic(delay, quorum2f, x) && t == if x > MIN_TIMEOUT then x else MIN_TIMEOUT;
      var y: nat :| IsOrderStatistic(delay, quorum2f, y) && u == if y > MIN_TIMEOUT then y else MIN_TIMEOUT;
      OrderStatisticUnique(delay, quorum2f, x, y);
    }
  }

  /**
    With more than 2f+1 known delays, the slowest nodes cannot stretch the timeout: whichever 2f+1
    nodes one looks at, it is at most the larger of the minimum and one of their delays.
   */
  lemma SlowNodesCannotStretch(delay: map<nat, nat>, quorum2f: nat, t: nat, nodes: set<nat>)
    requires IsTimeout(delay, quorum2f, t)
    requires |delay| > quorum2f + 1
    requires nodes <= delay.Keys && |nodes| == quorum2f + 1
    ensures t >= MIN_TIMEOUT
    ensures t == MIN_TIMEOUT || exists n :: n in nodes && t <= delay[n]
  {
    var x: nat :| IsOrderStatistic(delay, quorum2f, x) && t == if x > MIN_TIMEOUT then x else MIN_TIMEOUT;
    if forall n | n in nodes :: delay[n] < x {
      CardinalityGrows(nodes, Below(delay, x));
    }
  }

  method SortAscending(vals: seq<nat>, ghost names: seq<nat>, ghost delay: map<nat, nat>)
    returns (sorted: seq<nat>, ghost order: seq<nat>)
    requires Listed(delay, vals, names)
    ensures Listed(delay, sorted, order)
    ensures |sorted| == |vals|
    ensures Ascending(sorted)
    ensures Elements(order) == Elements(names)
  {
    sorted, order := [], [];
    for i := 0 to |vals|
      invariant |sorted| == i
      invariant Listed(delay, sorted, order)
      invariant Ascending(sorted)
      invariant forall n :: n in order <==> n in names[..i]
    {
      var j := 0;
      while j < |sorted| && sorted[j] <= vals[i]
        invariant 0 <= j <= |sorted|
        invariant forall k | 0 <= k < j :: sorted[k] <= vals[i]
      {
        j := j + 1;
      }
      assert names[..i + 1] == names[..i] + [names[i]];
      assert names[i] !in order;
      InsertedOk(delay, sorted, order, j, vals[i], names[i]);
      InsertedNames(order, j, names[i]);
      sorted := sorted[..j] + [vals[i]] + sorted[j..];
      order := order[..j] + [names[i]] + order[j..];
    }
    assert names[..|vals|] == names;
  }

  /** vals are the delays of the distinct nodes `names`, in that order. */
  ghost predicate Listed(delay: map<nat, nat>, vals: seq<nat>, names: seq<nat>) {
    && |vals| == |names|
    && (forall i | 0 <= i < |names| :: names[i] in delay && vals[i] == delay[names[i]])
    && (forall i, j | 0 <= i < j < |names| :: names[i] != names[j])
  }

  ghost predicate Ascending(s: seq<nat>) {
    forall i, j | 0 <= i < j < |s| :: s[i] <= s[j]
  }

  /** A delay that is put after those that are not larger leaves them listed in order. */
  lemma InsertedOk(delay: map<nat, nat>, sorted: seq<nat>, order: seq<nat>, j: nat, v: nat, n: nat)
    requires Listed(delay, sorted, order) && Ascending(sorted) && j <= |sorted|
    requires n in delay && v == delay[n] && n !in order
    requires (forall k | 0 <= k < j :: sorted[k] <= v) && (j < |sorted| ==> v <= sorted[j])
    ensures Listed(delay, sorted[..j] + [v] + sorted[j..], order[..j] + [n] + order[j..])
    ensures Ascending(sorted[..j] + [v] + sorted[j..])
  {
  }

  lemma InsertedNames(s: seq<nat>, j: nat, n: nat)
    requires j <= |s|
    ensures forall x :: x in s[..j] + [n] + s[j..] <==> x in s || x == n
  {
    assert s == s[..j] + s[j..];
    forall x ensures x in s[..j] + [n] + s[j..] <==> x in s || x == n {
      assert x in s <==> x in s[..j] || x in s[j..];
    }
  }

  lemma IndexIsOrderStatistic(delay: map<nat, nat>, sorted: seq<nat>, order: seq<nat>, k: nat)
    requires Listed(delay, sorted, order)
    requires Elements(order) == delay.Keys
    requires Ascending(sorted)
    requires k < |sorted|
    ensures IsOrderStatistic(delay, k, sorted[k])
  {
    var x := sorted[k];
    var low, high := order[..k], order[..k + 1];
    forall n | n in Below(delay, x) ensures n in Elements(low) {
      assert n in Elements(order);
      var i :| 0 <= i < |order| && order[i] == n;
      assert low[i] == n;
    }
    CardinalityGrows(Below(delay, x), Elements(low));
    Distinct(low);
    forall n | n in Elements(high) ensures n in UpTo(delay, x) {
      var i :| 0 <= i < |high| && high[i] == n;
      assert sorted[i] <= x;
    }
    CardinalityGrows(Elements(high), UpTo(delay, x));
    Distinct(high);
  }

  lemma {:induction false} Distinct(s: seq<nat>)
    requires forall i, j | 0 <= i < j < |s| :: s[i] != s[j]
    ensures |Elements(s)| == |s|
  {
    if s != [] {
      var t := s[..|s| - 1];
      var last := s[|s| - 1];
      Distinct(t);
      assert last !in t;
      assert Elements(s) == Elements(t) + {last};
    }
  }

  /** The computation of tval in process. */
  method ComputeTimeout(delay: map<nat, nat>, quorum2f: nat) returns (tval: nat)
    ensures IsTimeout(delay, quorum2f, tval)
  {
    tval := MIN_TIMEOUT;
    var keys := delay.Keys;
    if |delay| > quorum2f + 1 {
      var vals: seq<nat> := [];
      ghost var names: seq<nat> := [];
      while keys != {}
        invariant keys <= delay.Keys
        invariant forall n :: n in names <==> n in delay && n !in keys
        invariant Listed(delay, vals, names)
        decreases |keys|
      {
        var n :| n in keys;
        vals := vals + [delay[n]];
        names := names + [n];
        keys := keys - {n};
      }
      ghost var order;
      vals, order := SortAscending(vals, names, delay);
      assert Elements(order) == delay.Keys;
      Distinct(order);
      var xval := vals[quorum2f];
      IndexIsOrderStatistic(delay, vals, order, quorum2f);
      if xval > tval {
        tval := xval;
      }
    } else {
      while keys != {}
        invariant keys <= delay.Keys
        invariant forall n | n in delay && n !in keys :: delay[n] <= tval
        invariant tval >= MIN_TIMEOUT
        invariant tval == MIN_TIMEOUT || exists n :: n in delay && delay[n] == tval
        decreases |keys|
      {
        var n :| n in keys;
        if delay[n] > tval {
          tval := delay[n];
        }
        keys := keys - {n};
      }
    }
  }

  lemma {:induction false} LargestExists(delay: map<nat, nat>, keys: set<nat>) returns (x: nat)
    requires keys <= delay.Keys
    ensures x >= MIN_TIMEOUT && (forall n | n in keys :: delay[n] <= x)
    ensures x == MIN_TIMEOUT || exists n :: n in keys && delay[n] == x
    decreases |keys|
  {
    x := MIN_TIMEOUT;
    if keys != {} {
      var n :| n in keys;
      x := LargestExists(delay, keys - {n});
      if delay[n] > x {
        x := delay[n];
      }
    }
  }

  lemma {:induction false} OrderStatisticExists(delay: map<nat, nat>, k: nat, from: nat, bound: nat) returns (x: nat)
    requires |Below(delay, from)| <= k < |delay|
    requires forall n | n in delay :: delay[n] <= bound
    requires from <= bound + 1
    ensures IsOrderStatistic(delay, k, x)
    decreases bound + 1 - from
  {
    assert from >= bound ==> UpTo(delay, from) == delay.Keys;
    if |UpTo(delay, from)| > k {
      x := from;
    } else {
      assert Below(delay, from + 1) == UpTo(delay, from);
      x := OrderStatisticExists(delay, k, from + 1, bound);
    }
  }

  lemma TimeoutExists(delay: map<nat, nat>, quorum2f: nat)
    ensures exists t :: IsTimeout(delay, quorum2f, t)
  {
    var top := LargestExists(delay, delay.Keys);
    if |delay| > quorum2f + 1 {
      assert Below(delay, 0) == {};
      var x := OrderStatisticExists(delay, quorum2f, 0, top);
      assert IsTimeout(delay, quorum2f, if x > MIN_TIMEOUT then x else MIN_TIMEOUT);
    } else {
      assert IsTimeout(delay, quorum2f, top);
    }
  }

  ghost function TimeoutValue(delay: map<nat, nat>, quorum2f: nat): (t: nat)
    ensures IsTimeout(delay, quorum2f, t)
  {
    TimeoutExists(delay, quorum2f);
    var t :| IsTimeout(delay, quorum2f, t);
    t
  }
}
