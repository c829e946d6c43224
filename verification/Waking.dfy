/** From one place of a log to another: who sleeps, who wakes, who is next to move, and what is gone. */
module Waking {
  import opened Board
  import opened Machine
  import opened Pipelines
  import opened Rotation
  import opened Endings
  import Cancellation

  lemma OneFurther(r: Rules, o: Core, log: seq<Move>, k: nat)
    requires Legal(r, o, log) && k < |log|
    ensures Enabled(r, After(r, o, log[..k]), log[k])
    ensures After(r, o, log[..k + 1]) == Apply(r, After(r, o, log[..k]), log[k])
  {
    hide Enabled, Apply;
    PrefixIsLegal(r, o, log, k);
    assert log[..k + 1][..k] == log[..k];
  }

  /** Between two places no move wakes what waits on the frame. */
  ghost predicate NobodyWakes(log: seq<Move>, a: nat, b: nat, f: FrameId) {
    forall k | a <= k < b && k < |log| :: !(log[k].Wake? && log[k].frame == f)
  }

  ghost predicate NeverBegins(log: seq<Move>, a: nat, b: nat, pipe: nat) {
    forall k | a <= k < b && k < |log| :: log[k] != Begin(pipe)
  }

  lemma {:induction false} SleepsThrough(r: Rules, o: Core, log: seq<Move>, a: nat, b: nat, p: Pipe, f: FrameId)
    requires Legal(r, o, log) && a <= b <= |log| && Unmoved(After(r, o, log[..a]), p)
    requires p.pausedOn == Some(f) && NobodyWakes(log, a, b, f)
    ensures Unmoved(After(r, o, log[..b]), p) && NeverBegins(log, a, b, p.id)
    decreases b
  {
    hide Unmoved, After, Legal;
    if a < b {
      SleepsThrough(r, o, log, a, b - 1, p, f);
      OneFurther(r, o, log, b - 1);
      SleepsOneMove(r, After(r, o, log[..b - 1]), log[b - 1], p, f);
      hide Enabled, Apply;
    }
  }

  lemma AwakeOneMove(r: Rules, c: Core, m: Move, p: Pipe)
    requires Enabled(r, c, m) && Unmoved(c, p) && p.pausedOn.None? && m != Begin(p.id)
    ensures Unmoved(Apply(r, c, m), p)
  {
    var c' := Apply(r, c, m);
    if !TouchesStack(m) {
      StackKept(r, c, m);
    } else if m.Begin? || m.Pop? {
      assert c.stack[|c.stack| - 1] == Top(c.stack);
      assert forall i | 0 <= i < |c.stack| - 1 :: c'.stack[i] == c.stack[i];
    } else if m.Push? {
      assert forall i | 0 <= i < |c.stack| :: c'.stack[i] == c.stack[i];
    } else if m.Restore? {
      assert forall i | 0 <= i < |c'.stack| :: c'.stack[i] in c'.stack;
    }
  }

  lemma {:induction false} StaysAwake(r: Rules, o: Core, log: seq<Move>, a: nat, b: nat, p: Pipe)
    requires Legal(r, o, log) && a <= b <= |log| && Unmoved(After(r, o, log[..a]), p)
    requires p.pausedOn.None? && NeverBegins(log, a, b, p.id)
    ensures Unmoved(After(r, o, log[..b]), p)
    decreases b
  {
    hide Unmoved, After, Legal;
    if a < b {
      StaysAwake(r, o, log, a, b - 1, p);
      OneFurther(r, o, log, b - 1);
      AwakeOneMove(r, After(r, o, log[..b - 1]), log[b - 1], p);
      hide Enabled, Apply;
    }
  }

  lemma WakesUp(r: Rules, c: Core, p: Pipe, f: FrameId, slots: seq<Slot>)
    requires Enabled(r, c, Wake(f, slots)) && Unmoved(c, p) && p.pausedOn == Some(f)
    ensures Unmoved(Apply(r, c, Wake(f, slots)), p.(pausedOn := None, ctx := Written(p.ctx, slots)))
  {
    var c' := Apply(r, c, Wake(f, slots));
    forall i | 0 <= i < |c'.stack| && c'.stack[i].id == p.id
      ensures c'.stack[i] == p.(pausedOn := None, ctx := Written(p.ctx, slots))
    {
      assert c.stack[i].id == p.id;
    }
  }

  lemma OnTop(r: Rules, c: Core, p: Pipe)
    requires Unmoved(c, p) && Enabled(r, c, Begin(p.id))
    ensures Top(c.stack) == p
  {
    assert c.stack[|c.stack| - 1] == Top(c.stack);
  }

  /**
   * A pipeline that waits is woken by the first move that wakes its frame, and
   * takes its next step with what that move wrote and otherwise as it was.
   */
  lemma StepsAsWoken(
    r: Rules, o: Core, log: seq<Move>, a: nat, n: nat, k: nat, p: Pipe, f: FrameId, slots: seq<Slot>)
    requires Legal(r, o, log) && a <= n < |log| && log[n] == Wake(f, slots) && NobodyWakes(log, a, n, f)
    requires Unmoved(After(r, o, log[..a]), p) && p.pausedOn == Some(f)
    requires a <= k < |log| && log[k] == Begin(p.id) && NeverBegins(log, a, k, p.id)
    ensures n < k && After(r, o, log[..k]).stack != []
    ensures Top(After(r, o, log[..k]).stack) == p.(pausedOn := None, ctx := Written(p.ctx, slots))
  {
    hide Unmoved, After, Legal, Written;
    SleepsThrough(r, o, log, a, n, p, f);
    OneFurther(r, o, log, n);
    WakesUp(r, After(r, o, log[..n]), p, f, slots);
    assert n < k;
    var p' := p.(pausedOn := None, ctx := Written(p.ctx, slots));
    StaysAwake(r, o, log, n + 1, k, p');
    OneFurther(r, o, log, k);
    OnTop(r, After(r, o, log[..k]), p');
    hide Apply;
  }

  /** A frame that is gone never comes back: nothing is released, restored, asked or answered under its number again. */
  lemma {:induction false} FrameStaysGone(r: Rules, o: Core, log: seq<Move>, a: nat, b: nat, f: FrameId)
    requires Legal(r, o, log) && a <= b <= |log|
    requires !HasFrame(After(r, o, log[..a]).view, f) && f < After(r, o, log[..a]).nextFrame
    ensures !HasFrame(After(r, o, log[..b]).view, f) && f < After(r, o, log[..b]).nextFrame
    ensures forall k | a <= k < b :: log[k] != Release(f) && log[k] != Restore(f)
    decreases b
  {
    hide HasFrame, After, Legal;
    if a < b {
      FrameStaysGone(r, o, log, a, b - 1, f);
      OneFurther(r, o, log, b - 1);
      var c, m := After(r, o, log[..b - 1]), log[b - 1];
      Cancellation.OnlyOpeningAddsFrames(r, c, m, f);
      FramesOnlyCountUp(r, c, m);
      hide Apply;
    }
  }

  lemma FramesOnlyCountUp(r: Rules, c: Core, m: Move)
    requires Enabled(r, c, m)
    ensures c.nextFrame <= Apply(r, c, m).nextFrame
  {
  }

  lemma {:induction false} StaysGone(r: Rules, o: Core, log: seq<Move>, a: nat, b: nat, pipe: nat)
    requires Legal(r, o, log) && a <= b <= |log| && Gone(After(r, o, log[..a]), pipe)
    ensures Gone(After(r, o, log[..b]), pipe) && NeverBegins(log, a, b, pipe)
    decreases b
  {
    hide Gone, After, Legal;
    if a < b {
      StaysGone(r, o, log, a, b - 1, pipe);
      OneFurther(r, o, log, b - 1);
      GoneOneMove(r, After(r, o, log[..b - 1]), log[b - 1], pipe);
      hide Enabled, Apply;
    }
  }

  /** A table that is concluded, and was not, was concluded by a move in between. */
  lemma {:induction false} ConcludedBetween(r: Rules, o: Core, log: seq<Move>, a: nat, b: nat) returns (j: nat)
    requires IsInitial(o) && Legal(r, o, log) && a <= b <= |log|
    requires !IsConcluded(After(r, o, log[..a])) && IsConcluded(After(r, o, log[..b]))
    ensures a <= j < b && log[j].Conclude?
    decreases b
  {
    hide After, Legal, IsConcluded, IsInitial, EndHolds, PlayHolds;
    assert a < b;
    OneFurther(r, o, log, b - 1);
    PrefixIsLegal(r, o, log, b - 1);
    TheGameEndsOnce(r, o, log[..b - 1]);
    EndOneMove(r, After(r, o, log[..b - 1]), log[b - 1]);
    if log[b - 1].Conclude? { j := b - 1; } else { j := ConcludedBetween(r, o, log, a, b - 1); }
    hide Apply, Enabled;
  }

  lemma ConcludeClears(r: Rules, c: Core, m: Move, pipe: nat)
    requires Enabled(r, c, m) && m.Conclude? && pipe < c.nextPipe
    ensures Gone(Apply(r, c, m), pipe)
  {
  }

  /** Nobody who waited is woken before the game ends, and then all are gone. */
  lemma NeverAfterTheEnd(r: Rules, o: Core, log: seq<Move>, a: nat, b: nat, p: Pipe, f: FrameId)
    requires IsInitial(o) && Legal(r, o, log) && a <= b <= |log|
    requires !IsConcluded(After(r, o, log[..a])) && IsConcluded(After(r, o, log[..b]))
    requires Unmoved(After(r, o, log[..a]), p) && p.pausedOn == Some(f) && NobodyWakes(log, a, b, f)
    ensures NeverBegins(log, a, |log|, p.id)
  {
    hide After, Legal, IsConcluded, IsInitial;
    var j := ConcludedBetween(r, o, log, a, b);
    SleepsThrough(r, o, log, a, j, p, f);
    OneFurther(r, o, log, j);
    ConcludeClears(r, After(r, o, log[..j]), log[j], p.id);
    hide Apply, Enabled;
    StaysGone(r, o, log, j + 1, |log|, p.id);
    SleepsThrough(r, o, log, a, j, p, f);
  }
}
