/** In blocks of ten consecutive rounds no timeout is due: the shortest is ten rounds. */
module Patience {
  import opened Bytes
  import opened Ids
  import opened Protocol
  import opened Interpreter
  import Timeouts

  /** Delays that come from rounds up to `last`. */
  predicate Brief(last: nat, delay: map<nat, nat>) {
    forall n | n in delay :: delay[n] <= 10 * last
  }

  /** A block of the ten rounds from `low` on, not after `last`, with no link beyond. */
  ghost predicate InTime(low: nat, last: nat, e: Entry) {
    && 1 <= e.block.round <= last && low <= e.block.round < low + 10
    && forall d | d in e.deps :: d.round <= last
  }

  /** So many rounds that no sum of a round and a delay wraps around. */
  predicate Counted(last: nat) {
    11 * last < U64_SIZE
  }

  lemma {:induction false} DelaysBrief(last: nat, delay: map<nat, nat>, round: nat, deps: seq<BlockID>)
    requires round <= last && (forall d | d in deps :: d.round <= last) && Brief(last, delay) && Counted(last)
    ensures Brief(last, Delays(delay, round, deps))
    decreases |deps|
  {
    if deps != [] {
      assert deps[0] in deps;
      DelaysBrief(last, delay[deps[0].node := Wrap64(Timeouts.Diff(round, deps[0].round) * 10)], round, deps[1..]);
    }
  }

  lemma TimeoutBrief(last: nat, delay: map<nat, nat>, quorum2f: nat, t: nat)
    requires Timeouts.IsTimeout(delay, quorum2f, t) && Brief(last, delay) && last >= 1
    ensures 10 <= t <= 10 * last
  {
    if |delay| > quorum2f + 1 {
      var x: nat :| Timeouts.IsOrderStatistic(delay, quorum2f, x) && t == if x > Timeouts.MIN_TIMEOUT then x
        else Timeouts.MIN_TIMEOUT;
      assert x > 10 * last ==> Timeouts.Below(delay, x) == delay.Keys;
    }
  }

  lemma AddedLate(low: nat, s: State, at: nat, ts: seq<Timeout>)
    requires (forall r | r in s.timeouts :: r >= low) && at >= low
    ensures var u := AddTimeouts(s, at, ts); u == s.(timeouts := u.timeouts) && forall r | r in u.timeouts :: r >= low
  {
  }

  lemma NoWrap(x: nat)
    requires x < U64_SIZE
    ensures Wrap64(x) == x
  {
  }

  /** The new timeouts are ten rounds or more after `low`, like those before them, and no vote is touched. */
  lemma NothingDue(low: nat, last: nat, cfg: Config, start: State, e: Entry)
    requires Brief(last, start.delay) && (forall r | r in start.timeouts :: r >= low + 10)
    requires InTime(low, last, e) && Counted(last)
    ensures
      var s := WithTimeouts(cfg, start, e);
      && s == start.(delay := s.delay, timeout := s.timeout, timeouts := s.timeouts)
      && Brief(last, s.delay) && (forall r | r in s.timeouts :: r >= low + 10) && TimeoutsAt(s, e.block.round) == []
  {
    hide Delays, Timeouts.TimeoutValue, Timeouts.IsTimeout, NewTimeouts, Brief, Wrap64, AddTimeouts;
    var delay := Delays(start.delay, e.block.round, e.deps);
    var v := Timeouts.TimeoutValue(delay, 2 * cfg.Faults());
    DelaysBrief(last, start.delay, e.block.round, e.deps);
    TimeoutBrief(last, delay, 2 * cfg.Faults(), v);
    NoWrap(e.block.round + v);
    AddedLate(low + 10, start.(delay := delay).(timeout := v), e.block.round + v,
      NewTimeouts(cfg.peers, e.block.round));
  }
}
