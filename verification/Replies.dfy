/**
  The message loops of processMessages end because every reply ranks below what it answers: view-change,
  new-view, pre-prepare, prepare, commit. Hence a message causes at most four. And a block reads every message once,
  however many of its links have put it out.
 */
module Replies {
  import opened Ids
  import opened Outcomes
  import opened Protocol
  import opened Interpreter

  function RankSum(msgs: seq<Message>): nat {
    if msgs == [] then 0 else Rank(msgs[0]) + RankSum(msgs[1..])
  }

  lemma {:induction false} RankSumAppend(a: seq<Message>, b: seq<Message>)
    ensures RankSum(a + b) == RankSum(a) + RankSum(b)
  {
    if a == [] {
      assert a + b == b;
    } else {
      assert (a + b)[1..] == a[1..] + b;
      RankSumAppend(a[1..], b);
    }
  }

  lemma {:induction false} RankSumAtMost(msgs: seq<Message>)
    ensures RankSum(msgs) <= 4 * |msgs|
  {
    if msgs != [] {
      RankSumAtMost(msgs[1..]);
    }
  }

  /** A reply uses up one unit of its message's rank. */
  lemma StepCost(cfg: Config, w: Work, sender: nat, origin: BlockID, msg: Message, out: seq<Message>)
    requires StepMessage(cfg, w, sender, origin, msg).Ok?
    ensures
      var out' := Append(out, StepMessage(cfg, w, sender, origin, msg).value.1);
      && out <= out' && |out'| <= |out| + 1
      && |out'| + RankSum(out') <= |out| + RankSum(out) + Rank(msg)
  {
    var reply := StepMessage(cfg, w, sender, origin, msg).value.1;
    ReplyRank(w.s, w.g.heap, cfg.Quorum(), sender, origin.node, origin.round, msg);
    hide StepMessage;
    if reply.Some? {
      RankSumAppend(out, [reply.value]);
    }
  }

  lemma {:induction false} FirstPassCost(cfg: Config, w: Work, sender: nat, origin: BlockID, msgs: seq<Message>,
                                         out: seq<Message>)
    requires FirstPass(cfg, w, sender, origin, msgs, out).Ok?
    ensures
      var out' := FirstPass(cfg, w, sender, origin, msgs, out).value.1;
      |out'| + RankSum(out') <= |out| + RankSum(out) + RankSum(msgs)
    decreases |msgs|
  {
    hide StepMessage;
    if msgs != [] {
      if msgs[0] in w.processed {
        FirstPassCost(cfg, w, sender, origin, msgs[1..], out);
      } else {
        var step := StepMessage(cfg, w, sender, origin, msgs[0]);
        StepCost(cfg, w, sender, origin, msgs[0], out);
        FirstPassCost(cfg, step.value.0, sender, origin, msgs[1..], Append(out, step.value.1));
      }
    }
  }

  lemma {:induction false} SecondPassCost(cfg: Config, w: Work, sender: nat, origin: BlockID, out: seq<Message>, i: nat)
    requires i <= |out| && SecondPass(cfg, w, sender, origin, out, i).Ok?
    ensures |SecondPass(cfg, w, sender, origin, out, i).value.1| <= |out| + RankSum(out[i..])
    decreases Weight(out[i..]), |out| - i
  {
    hide StepMessage, Weight;
    if i < |out| {
      WeightStep(out, i);
      assert out[i..][1..] == out[i + 1..];
      if out[i] in w.processed {
        SecondPassCost(cfg, w, sender, origin, out, i + 1);
      } else {
        var step := StepMessage(cfg, w, sender, origin, out[i]);
        WeightFalls(cfg, w, sender, origin, out, i);
        var out' := Append(out, step.value.1);
        StepCost(cfg, w, sender, origin, out[i], out[i + 1..]);
        assert out'[i + 1..] == Append(out[i + 1..], step.value.1);
        SecondPassCost(cfg, step.value.0, sender, origin, out', i + 1);
      }
    }
  }

  /** processMessages puts out at most four messages for each one that it is given. */
  lemma AtMostFourReplies(cfg: Config, w: Work, sender: nat, origin: BlockID, msgs: seq<Message>)
    requires ProcessMessages(cfg, w, sender, origin, msgs).Ok?
    ensures |ProcessMessages(cfg, w, sender, origin, msgs).value.1| <= RankSum(msgs) <= 4 * |msgs|
  {
    hide FirstPass, SecondPass;
    var first := FirstPass(cfg, w, sender, origin, msgs, []);
    FirstPassCost(cfg, w, sender, origin, msgs, []);
    SecondPassCost(cfg, first.value.0, sender, origin, first.value.1, 0);
    assert first.value.1[0..] == first.value.1;
    RankSumAtMost(msgs);
  }

  // --- each message once ---

  ghost predicate AllRead(msgs: seq<Message>, seen: set<Message>) {
    forall m | m in msgs :: m in seen
  }

  lemma StepReads(cfg: Config, w: Work, sender: nat, origin: BlockID, msg: Message)
    requires StepMessage(cfg, w, sender, origin, msg).Ok?
    ensures StepMessage(cfg, w, sender, origin, msg).value.0.processed == w.processed + {msg}
  {
    hide Interpret, Deliver;
  }

  lemma {:induction false} FirstReads(cfg: Config, w: Work, sender: nat, origin: BlockID, msgs: seq<Message>,
                                      out: seq<Message>)
    requires FirstPass(cfg, w, sender, origin, msgs, out).Ok?
    ensures
      var w' := FirstPass(cfg, w, sender, origin, msgs, out).value.0;
      w.processed <= w'.processed && AllRead(msgs, w'.processed)
    decreases |msgs|
  {
    hide StepMessage;
    if msgs != [] {
      assert msgs == [msgs[0]] + msgs[1..];
      if msgs[0] in w.processed {
        FirstReads(cfg, w, sender, origin, msgs[1..], out);
      } else {
        var step := StepMessage(cfg, w, sender, origin, msgs[0]);
        StepReads(cfg, w, sender, origin, msgs[0]);
        FirstReads(cfg, step.value.0, sender, origin, msgs[1..], Append(out, step.value.1));
      }
    }
  }

  lemma {:induction false} SecondReads(cfg: Config, w: Work, sender: nat, origin: BlockID, out: seq<Message>, i: nat)
    requires i <= |out| && AllRead(out[..i], w.processed) && SecondPass(cfg, w, sender, origin, out, i).Ok?
    ensures
      var (w', out') := SecondPass(cfg, w, sender, origin, out, i).value;
      w.processed <= w'.processed && AllRead(out', w'.processed)
    decreases Weight(out[i..]), |out| - i
  {
    hide StepMessage, Weight;
    if i == |out| {
      assert out[..i] == out;
    } else {
      WeightStep(out, i);
      assert out[..i + 1] == out[..i] + [out[i]];
      if out[i] in w.processed {
        SecondReads(cfg, w, sender, origin, out, i + 1);
      } else {
        var step := StepMessage(cfg, w, sender, origin, out[i]);
        StepReads(cfg, w, sender, origin, out[i]);
        WeightFalls(cfg, w, sender, origin, out, i);
        var out' := Append(out, step.value.1);
        assert out'[..i + 1] == out[..i + 1];
        SecondReads(cfg, step.value.0, sender, origin, out', i + 1);
      }
    }
  }

  lemma MessagesRead(cfg: Config, w: Work, sender: nat, origin: BlockID, msgs: seq<Message>)
    requires ProcessMessages(cfg, w, sender, origin, msgs).Ok?
    ensures
      var (w', out) := ProcessMessages(cfg, w, sender, origin, msgs).value;
      w.processed <= w'.processed && AllRead(msgs, w'.processed) && AllRead(out, w'.processed)
  {
    hide FirstPass, SecondPass;
    var first := FirstPass(cfg, w, sender, origin, msgs, []);
    FirstReads(cfg, w, sender, origin, msgs, []);
    assert first.value.1[..0] == [];
    SecondReads(cfg, first.value.0, sender, origin, first.value.1, 0);
  }

  lemma {:induction false} NothingNew(cfg: Config, w: Work, sender: nat, origin: BlockID, msgs: seq<Message>,
                                      out: seq<Message>)
    requires AllRead(msgs, w.processed)
    ensures FirstPass(cfg, w, sender, origin, msgs, out) == Ok((w, out))
    decreases |msgs|
  {
    hide StepMessage;
    if msgs != [] {
      assert msgs[0] in msgs;
      NothingNew(cfg, w, sender, origin, msgs[1..], out);
    }
  }

  /** A dependency that puts out messages that the block has read, or has put out itself, changes nothing. */
  lemma {:induction false} ReadOnce(cfg: Config, w: Work, sender: nat, origin: BlockID, msgs: seq<Message>,
                                    sender': nat, again: seq<Message>)
    requires ProcessMessages(cfg, w, sender, origin, msgs).Ok?
    requires
      var (w', out) := ProcessMessages(cfg, w, sender, origin, msgs).value;
      forall m | m in again :: m in msgs || m in out || m in w.processed
    ensures
      var w' := ProcessMessages(cfg, w, sender, origin, msgs).value.0;
      ProcessMessages(cfg, w', sender', origin, again) == Ok((w', []))
  {
    hide FirstPass, SecondPass;
    MessagesRead(cfg, w, sender, origin, msgs);
    var w' := ProcessMessages(cfg, w, sender, origin, msgs).value.0;
    assert AllRead(again, w'.processed);
    NothingNew(cfg, w', sender', origin, again, []);
    NothingMore(cfg, w', sender', origin);
  }

  lemma NothingMore(cfg: Config, w: Work, sender: nat, origin: BlockID)
    ensures SecondPass(cfg, w, sender, origin, [], 0) == Ok((w, []))
  {
  }
}
