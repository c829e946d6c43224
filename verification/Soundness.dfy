/** What every move keeps, whoever makes it: the facts the two schedulers rely on about each other. */
module Soundness {
  import opened Board
  import opened Machine
  import opened Ages
  import opened Pipelines
  import opened TurnLaws
  import opened Rotation

  /** Frames are listed in the order they opened, under rising numbers and marks. */
  ghost predicate FramesOrdered(frames: seq<Frame>, nextFrame: FrameId, nextPipe: nat) {
    && (forall i | 0 <= i < |frames| :: frames[i].id < nextFrame && frames[i].mark <= nextPipe)
    && (forall i, j | 0 <= i < j < |frames| ::
          frames[i].id < frames[j].id && frames[i].mark <= frames[j].mark)
  }

  lemma {:induction false} WithoutFrameOrdered(frames: seq<Frame>, id: FrameId, nextFrame: FrameId, nextPipe: nat)
    requires FramesOrdered(frames, nextFrame, nextPipe)
    ensures FramesOrdered(WithoutFrame(frames, id), nextFrame, nextPipe)
  {
    if frames != [] {
      var init, last := frames[..|frames| - 1], frames[|frames| - 1];
      WithoutFrameOrdered(init, id, nextFrame, nextPipe);
      var rest := WithoutFrame(init, id);
      forall i | 0 <= i < |rest| ensures rest[i].id < last.id && rest[i].mark <= last.mark {
        assert rest[i] in init;
      }
    }
  }

  predicate TouchesFrames(m: Move) {
    m.Open? || m.AddWindow? || m.CloseWindow? || m.Release? || m.Restore? || m.Conclude?
  }

  lemma FramesKept(r: Rules, c: Core, m: Move)
    requires Enabled(r, c, m) && !TouchesFrames(m)
    ensures var c' := Apply(r, c, m);
      c'.view.frames == c.view.frames && c'.nextFrame == c.nextFrame && c.nextPipe <= c'.nextPipe
  {
  }

  lemma FramesOrderedMoves(r: Rules, c: Core, m: Move)
    requires Enabled(r, c, m) && FramesOrdered(c.view.frames, c.nextFrame, c.nextPipe)
    ensures var c' := Apply(r, c, m); FramesOrdered(c'.view.frames, c'.nextFrame, c'.nextPipe)
  {
    if m.Release? || m.Restore? {
      WithoutFrameOrdered(c.view.frames, m.frame, c.nextFrame, c.nextPipe);
    } else if !TouchesFrames(m) {
      FramesKept(r, c, m);
      hide Apply, Enabled;
    }
  }

  /** The turn's clock never runs under an open window. */
  ghost predicate ClockHeld(c: Core) {
    Machine.Running(c.clock) ==> !HasOpenFrames(c.view)
  }

  /** Windows that are open after a move were open before it, unless the move opened one. */
  lemma WindowsOnlyOpenByAdding(r: Rules, c: Core, m: Move)
    requires Enabled(r, c, m) && !m.AddWindow?
    ensures HasOpenFrames(Apply(r, c, m).view) ==> HasOpenFrames(c.view)
  {
    var c' := Apply(r, c, m);
    if HasOpenFrames(c'.view) {
      var i :| 0 <= i < |c'.view.frames| && IsOpen(c'.view.frames[i]);
      if m.CloseWindow? {
        var w :| w in c'.view.frames[i].windows && w.open;
        assert w in c.view.frames[i].windows;
        assert c.view.frames[i] in c.view.frames;
      } else if m.Open? {
        assert c'.view.frames[i] in c.view.frames;
      } else {
        assert c'.view.frames[i] in c'.view.frames;
      }
    }
  }

  lemma ClockHeldMoves(r: Rules, c: Core, m: Move)
    requires Enabled(r, c, m) && ClockHeld(c)
    ensures ClockHeld(Apply(r, c, m))
  {
    if !m.AddWindow? { WindowsOnlyOpenByAdding(r, c, m); }
  }

  ghost predicate WaitsOwn(stack: seq<Pipe>, frames: seq<Frame>, nextFrame: FrameId) {
    && (forall i, j | 0 <= i < |stack| && 0 <= j < |frames| && WaitsOn(stack[i], frames[j].id) ::
          stack[i].id < frames[j].mark)
    && (forall i | 0 <= i < |stack| && stack[i].pausedOn.Some? :: stack[i].pausedOn.value < nextFrame)
  }

  /** A pipeline waits only on a frame that opened after it started, in a step of its own. */
  ghost predicate OwnFrames(c: Core) {
    && WaitsOwn(c.stack, c.view.frames, c.nextFrame)
    && (c.mode.Stepping? ==>
          && c.mode.since <= c.nextFrame && c.mode.pipe < c.nextPipe
          && forall j | 0 <= j < |c.view.frames| && c.mode.since <= c.view.frames[j].id ::
               c.mode.pipe < c.view.frames[j].mark)
  }

  ghost predicate Numbered(c: Core) {
    && Aged(c.stack, 0, c.nextPipe)
    && FramesOrdered(c.view.frames, c.nextFrame, c.nextPipe)
  }

  lemma OwnFramesStackMoves(r: Rules, c: Core, m: Move)
    requires Enabled(r, c, m) && Numbered(c) && OwnFrames(c) && TouchesStack(m) && !m.Restore? && !m.Finish?
    ensures OwnFrames(Apply(r, c, m))
  {
    var c' := Apply(r, c, m);
    if m.Begin? {
      assert Top(c.stack) == c.stack[|c.stack| - 1];
    }
  }

  lemma OwnFramesFinish(r: Rules, c: Core, m: Move)
    requires Enabled(r, c, m) && Numbered(c) && OwnFrames(c) && m.Finish?
    ensures OwnFrames(Apply(r, c, m))
  {
    var c' := Apply(r, c, m);
    assert forall i | 0 <= i < |c.stack| :: c'.stack[i].id == c.stack[i].id;
    if m.park.Some? {
      var k :| 0 <= k < |c.view.frames| && c.view.frames[k].id == m.park.value;
    }
  }

  lemma FewerWaits(stack: seq<Pipe>, frames: seq<Frame>, stack': seq<Pipe>, frames': seq<Frame>, nextFrame: FrameId)
    requires forall p :: p in stack' ==> p in stack
    requires forall f :: f in frames' ==> f in frames
    requires WaitsOwn(stack, frames, nextFrame)
    ensures WaitsOwn(stack', frames', nextFrame)
  {
    forall i, j | 0 <= i < |stack'| && 0 <= j < |frames'| && WaitsOn(stack'[i], frames'[j].id)
      ensures stack'[i].id < frames'[j].mark
    {
      assert stack'[i] in stack && frames'[j] in frames;
    }
    forall i | 0 <= i < |stack'| && stack'[i].pausedOn.Some? ensures stack'[i].pausedOn.value < nextFrame {
      assert stack'[i] in stack;
    }
  }

  lemma OwnFramesFrameMoves(r: Rules, c: Core, m: Move)
    requires Enabled(r, c, m) && Numbered(c) && OwnFrames(c) && (!TouchesStack(m) || m.Restore?)
    ensures OwnFrames(Apply(r, c, m))
  {
    var c' := Apply(r, c, m);
    if m.Release? || m.Restore? { FewerWaits(c.stack, c.view.frames, c'.stack, c'.view.frames, c.nextFrame); }
  }

  /** Nobody takes the running pipeline off the stack, but the end of the game. */
  ghost predicate StepperStands(c: Core) {
    c.mode.Stepping? ==> IsConcluded(c) || OnStack(c, c.mode.pipe)
  }

  lemma StepperMoves(r: Rules, c: Core, m: Move)
    requires Enabled(r, c, m) && StepperStands(c) && EndHolds(c) && PlayHolds(c)
    ensures StepperStands(Apply(r, c, m))
  {
    var c' := Apply(r, c, m);
    EndOneMove(r, c, m);
    if m.Begin? {
      assert c'.stack[|c.stack| - 1].id == m.pipe;
    } else if c.mode.Stepping? && !IsConcluded(c) && !m.Finish? && !m.Conclude? {
      var i :| 0 <= i < |c.stack| && c.stack[i].id == c.mode.pipe;
      assert c'.stack[i].id == c.mode.pipe;
    }
  }

  /** Everything above, together. */
  ghost predicate Sound(c: Core) {
    Numbered(c) && ClockHeld(c) && OneTimer(c) && OwnFrames(c) && StepperStands(c) && EndHolds(c) && PlayHolds(c)
  }

  lemma SoundOneMove(r: Rules, c: Core, m: Move)
    requires Enabled(r, c, m) && Sound(c)
    ensures Sound(Apply(r, c, m))
    ensures IsConcluded(c) ==> IsConcluded(Apply(r, c, m))
  {
    MoveKeepsAged(r, c, m, 0);
    FramesOrderedMoves(r, c, m);
    ClockHeldMoves(r, c, m);
    ClockOneMove(r, c, m);
    if m.Finish? {
      OwnFramesFinish(r, c, m);
    } else if TouchesStack(m) && !m.Restore? {
      OwnFramesStackMoves(r, c, m);
    } else {
      OwnFramesFrameMoves(r, c, m);
    }
    StepperMoves(r, c, m);
    EndOneMove(r, c, m);
  }

  lemma {:induction false} LogKeepsSound(r: Rules, c: Core, log: seq<Move>)
    requires Legal(r, c, log) && Sound(c)
    ensures Sound(After(r, c, log))
    ensures IsConcluded(c) ==> IsConcluded(After(r, c, log))
  {
    if log != [] {
      LogKeepsSound(r, c, Before(log));
      SoundOneMove(r, After(r, c, Before(log)), Last(log));
    }
  }

  lemma WorldKeepsSound(r: Rules, o: Origin, w: World)
    requires Valid(r, o, w) && Sound(o.core)
    ensures Sound(w.core)
    ensures IsConcluded(o.core) ==> IsConcluded(w.core)
  {
    LogKeepsSound(r, o.core, w.log[|o.past|..]);
  }

  /** Every paused pipeline waits on an open frame, or on one in `gone`, whose last word is still to come. */
  ghost predicate AwaitsOpen(c: Core, gone: set<FrameId>) {
    forall i | 0 <= i < |c.stack| && c.stack[i].pausedOn.Some? ::
      HasFrame(c.view, c.stack[i].pausedOn.value) || c.stack[i].pausedOn.value in gone
  }

  lemma AwaitsOneInnerMove(r: Rules, c: Core, m: Move, gone: set<FrameId>)
    requires Enabled(r, c, m) && Inner(m) && AwaitsOpen(c, gone)
    ensures AwaitsOpen(Apply(r, c, m), gone)
  {
    var c' := Apply(r, c, m);
    if !m.Conclude? { FramesStay(r, c, m); }
    if m.Begin? { assert Top(c.stack) == c.stack[|c.stack| - 1]; }
  }

  /** Inner moves remove no frame, but for the end of the game. */
  lemma FramesStay(r: Rules, c: Core, m: Move)
    requires Enabled(r, c, m) && Inner(m) && !m.Conclude?
    ensures forall f :: HasFrame(c.view, f) ==> HasFrame(Apply(r, c, m).view, f)
  {
    var c' := Apply(r, c, m);
    forall f | HasFrame(c.view, f) ensures HasFrame(c'.view, f) {
      var i :| 0 <= i < |c.view.frames| && c.view.frames[i].id == f;
      assert c'.view.frames[i].id == f;
    }
  }

  lemma {:induction false} LogKeepsAwaiting(r: Rules, c: Core, log: seq<Move>, gone: set<FrameId>)
    requires Legal(r, c, log) && AwaitsOpen(c, gone) && forall i | 0 <= i < |log| :: Inner(log[i])
    ensures AwaitsOpen(After(r, c, log), gone)
  {
    if log != [] {
      assert forall i | 0 <= i < |Before(log)| :: Before(log)[i] == log[i];
      LogKeepsAwaiting(r, c, Before(log), gone);
      AwaitsOneInnerMove(r, After(r, c, Before(log)), Last(log), gone);
    }
  }

  lemma WorldKeepsAwaiting(r: Rules, w: World, w': World, gone: set<FrameId>)
    requires Follows(r, w, w') && AwaitsOpen(w.core, gone)
    ensures AwaitsOpen(w'.core, gone)
  {
    var log := w'.log[|w.log|..];
    assert forall i | 0 <= i < |log| :: log[i] == w'.log[|w.log| + i];
    LogKeepsAwaiting(r, w.core, log, gone);
  }

  /** Every frame but those in `bare` has a window open. */
  ghost predicate Furnished(v: View, bare: set<FrameId>) {
    forall i | 0 <= i < |v.frames| :: IsOpen(v.frames[i]) || v.frames[i].id in bare
  }
}
