/** Rolling a frame back cancels what it started: exactly when, and why the engine's rolls meet it. */
module Cancellation {
  import opened Board
  import opened Abilities
  import opened Machine
  import opened Engine
  import opened EngineLegal
  import opened Requests
  import opened Monsters
  import opened Rollback
  import opened Ages
  import opened Pipelines
  import opened Soundness
  import opened Rest
  import opened Idle
  import opened Settlement

  function MarkOf(c: Core, f: FrameId): nat
    requires HasFrame(c.view, f)
  {
    FrameOf(c.view.frames, f).mark
  }

  /** No pipeline started since the frame opened is left on the stack, so none of them ever runs again. */
  ghost predicate NothingSince(c: Core, mark: nat) {
    forall q | mark <= q < c.nextPipe :: Gone(c, q)
  }

  lemma TopIsYoungest(c: Core, mark: nat)
    requires Numbered(c)
    ensures NothingSince(c, mark) <==> c.stack == [] || Top(c.stack).id < mark
  {
    if c.stack != [] && mark <= Top(c.stack).id {
      assert c.stack[|c.stack| - 1].id == Top(c.stack).id;
      assert !Gone(c, Top(c.stack).id);
    }
  }

  lemma WaitersGo(stack: seq<Pipe>, f: FrameId, i: nat, hi: nat)
    requires Aged(stack, 0, hi) && i < |stack| && WaitsOn(stack[i], f)
    ensures forall k | 0 <= k < |Dropped(stack, f)| :: Dropped(stack, f)[k].id != stack[i].id
  {
    forall k | 0 <= k < |Dropped(stack, f)| ensures Dropped(stack, f)[k].id != stack[i].id {
      assert Dropped(stack, f)[k] in stack;
    }
  }

  /** Older frames were opened over fewer pipelines. */
  lemma OlderMark(c: Core, g: FrameId, f: FrameId)
    requires Numbered(c) && HasFrame(c.view, f) && HasFrame(c.view, g) && g <= f
    ensures MarkOf(c, g) <= MarkOf(c, f)
  {
    var frames := c.view.frames;
    var i :| 0 <= i < |frames| && frames[i] == FrameOf(frames, g);
    var j :| 0 <= j < |frames| && frames[j] == FrameOf(frames, f);
  }

  /** A paused top is older than every frame from the one it waits on. */
  lemma PausedTopIsOlder(c: Core, f: FrameId)
    requires Sound(c) && c.stack != [] && Top(c.stack).pausedOn.Some? && HasFrame(c.view, f)
    requires HasFrame(c.view, Top(c.stack).pausedOn.value) && Top(c.stack).pausedOn.value <= f
    ensures Top(c.stack).id < MarkOf(c, f)
  {
    var g := Top(c.stack).pausedOn.value;
    OlderMark(c, g, f);
    var j :| 0 <= j < |c.view.frames| && c.view.frames[j] == FrameOf(c.view.frames, g);
    assert WaitsOn(c.stack[|c.stack| - 1], c.view.frames[j].id);
  }

  lemma RestoredStack(r: Rules, c: Core, f: FrameId)
    requires Enabled(r, c, Restore(f))
    ensures HasFrame(c.view, f)
    ensures Apply(r, c, Restore(f)).stack == Dropped(c.stack, f) && Apply(r, c, Restore(f)).nextPipe == c.nextPipe
  {
  }

  /**
   * A rollback leaves nothing of what was started since its frame opened if and
   * only if the pipeline on top of the stack, if there is one, is older than the
   * frame. What waited on the frame is gone in any case.
   */
  lemma CancelsIffTopIsOlder(r: Rules, c: Core, f: FrameId)
    requires Sound(c) && Enabled(r, c, Restore(f))
    ensures var c' := Apply(r, c, Restore(f));
      && (NothingSince(c', MarkOf(c, f)) <==> c.stack == [] || Top(c.stack).id < MarkOf(c, f))
      && forall i | 0 <= i < |c.stack| && WaitsOn(c.stack[i], f) :: Gone(c', c.stack[i].id)
  {
    hide Apply, Enabled, Dropped;
    RestoredStack(r, c, f);
    var c', mark := Apply(r, c, Restore(f)), MarkOf(c, f);
    SoundOneMove(r, c, Restore(f));
    TopIsYoungest(c', mark);
    if c.stack != [] {
      DroppedAged(c.stack, f, 0, c.nextPipe);
      if WaitsOn(Top(c.stack), f) { PausedTopIsOlder(c, f); }
      if c'.stack != [] { assert Top(c'.stack) in c'.stack; }
    }
    forall i | 0 <= i < |c.stack| && WaitsOn(c.stack[i], f) ensures Gone(c', c.stack[i].id) {
      WaitersGo(c.stack, f, i, c.nextPipe);
    }
  }

  /** So it is whenever the stack is empty, or its top waits on the frame or on one opened before it. */
  lemma CancelsWhenTopWaitsBelow(r: Rules, c: Core, f: FrameId)
    requires Sound(c) && Enabled(r, c, Restore(f))
    requires c.stack == [] ||
      (Top(c.stack).pausedOn.Some? && HasFrame(c.view, Top(c.stack).pausedOn.value) && Top(c.stack).pausedOn.value <= f)
    ensures NothingSince(Apply(r, c, Restore(f)), MarkOf(c, f))
  {
    hide Apply, Sound;
    CancelsIffTopIsOlder(r, c, f);
    if c.stack != [] { PausedTopIsOlder(c, f); }
  }

  // ---------------------------------------------------------------------------
  // Over any history
  // ---------------------------------------------------------------------------

  /** Pipeline `q` was started after the frame opened. */
  ghost predicate StartedInside(r: Rules, o: Core, log: seq<Move>, f: FrameId, q: nat) {
    q < After(r, o, log).nextPipe &&
    exists k | 0 <= k < |log| :: log[k] == Open && After(r, o, log[..k]).nextFrame == f && After(r, o, log[..k]).nextPipe <= q
  }

  lemma OnlyOpeningAddsFrames(r: Rules, c: Core, m: Move, f: FrameId)
    requires Enabled(r, c, m) && !HasFrame(c.view, f) && !(m.Open? && c.nextFrame == f)
    ensures !HasFrame(Apply(r, c, m).view, f)
  {
    var c' := Apply(r, c, m);
    forall i | 0 <= i < |c'.view.frames| ensures c'.view.frames[i].id != f {
      if m.Release? || m.Restore? {
        assert c'.view.frames[i] in c.view.frames;
      } else if i < |c.view.frames| {
        assert c.view.frames[i] in c.view.frames;
      }
    }
  }

  /** An open frame was opened by some move. */
  lemma {:induction false} WasOpened(r: Rules, o: Core, log: seq<Move>, f: FrameId) returns (k: nat)
    requires IsInitial(o) && Legal(r, o, log) && HasFrame(After(r, o, log).view, f)
    ensures k < |log| && log[k] == Open && After(r, o, log[..k]).nextFrame == f
  {
    hide HasFrame, Apply, Enabled;
    assert log != [] by { NoFrameYet(o, f); }
    var pre := Before(log);
    if Last(log).Open? && After(r, o, pre).nextFrame == f {
      k := |log| - 1;
    } else {
      if !HasFrame(After(r, o, pre).view, f) { OnlyOpeningAddsFrames(r, After(r, o, pre), Last(log), f); }
      k := WasOpened(r, o, pre, f);
      assert pre[..k] == log[..k];
    }
  }

  lemma NoFrameYet(o: Core, f: FrameId)
    requires IsInitial(o)
    ensures !HasFrame(o.view, f)
  {
  }

  lemma MarkIsWhenItOpened(r: Rules, o: Core, log: seq<Move>, f: FrameId, k: nat)
    requires IsInitial(o) && Legal(r, o, log) && HasFrame(After(r, o, log).view, f)
    requires k < |log| && log[k] == Open && After(r, o, log[..k]).nextFrame == f
    ensures MarkOf(After(r, o, log), f) == After(r, o, log[..k]).nextPipe
  {
    PinnedSinceItOpened(r, o, log, k);
    var c := After(r, o, log);
    var i :| 0 <= i < |c.view.frames| && c.view.frames[i] == FrameOf(c.view.frames, f);
  }

  /** While the frame is open, its mark tells who was started inside it. */
  lemma InsideIffYounger(r: Rules, o: Core, log: seq<Move>, f: FrameId, q: nat)
    requires IsInitial(o) && Legal(r, o, log) && HasFrame(After(r, o, log).view, f)
    ensures StartedInside(r, o, log, f, q) <==> MarkOf(After(r, o, log), f) <= q < After(r, o, log).nextPipe
  {
    hide MarkOf, HasFrame, IsInitial;
    var k := WasOpened(r, o, log, f);
    MarkIsWhenItOpened(r, o, log, f, k);
    if StartedInside(r, o, log, f, q) {
      var j :| 0 <= j < |log| && log[j] == Open && After(r, o, log[..j]).nextFrame == f && After(r, o, log[..j]).nextPipe <= q;
      MarkIsWhenItOpened(r, o, log, f, j);
    }
  }

  lemma {:induction false} InitialIsSound(r: Rules, o: Core, log: seq<Move>)
    requires IsInitial(o) && Legal(r, o, log)
    ensures Sound(After(r, o, log))
  {
    assert Sound(o);
    LogKeepsSound(r, o, log);
  }

  /**
   * Whatever has happened so far: a rollback takes every pipeline started since
   * its frame opened off the stack, for ever by `GoneForGood`, if and only if the
   * one on top of the stack, if there is one, was started before.
   */
  lemma RestoreCancelsIffTopIsOutside(r: Rules, o: Core, log: seq<Move>, f: FrameId)
    requires IsInitial(o) && Legal(r, o, log) && Enabled(r, After(r, o, log), Restore(f))
    ensures var c := After(r, o, log); var c' := Apply(r, c, Restore(f));
      (forall q: nat | StartedInside(r, o, log, f, q) :: Gone(c', q))
      <==> c.stack == [] || !StartedInside(r, o, log, f, Top(c.stack).id)
  {
    hide StartedInside, Apply, Sound, MarkOf, IsInitial, Gone, HasFrame, Enabled;
    var c := After(r, o, log);
    var c' := Apply(r, c, Restore(f));
    RestoredStack(r, c, f);
    InitialIsSound(r, o, log);
    CancelsIffTopIsOlder(r, c, f);
    forall q: nat ensures StartedInside(r, o, log, f, q) <==> MarkOf(c, f) <= q < c'.nextPipe {
      InsideIffYounger(r, o, log, f, q);
    }
    if c.stack != [] { TopIsNumbered(c); }
  }

  lemma TopIsNumbered(c: Core)
    requires Sound(c) && c.stack != []
    ensures Top(c.stack).id < c.nextPipe
  {
  }

  // ---------------------------------------------------------------------------
  // While a window closes
  // ---------------------------------------------------------------------------

  /** Every frame was among `known`, or opened since. */
  ghost predicate OldOrNew(c: Core, known: set<FrameId>, since: FrameId) {
    since <= c.nextFrame &&
    forall i | 0 <= i < |c.view.frames| :: c.view.frames[i].id in known || since <= c.view.frames[i].id
  }

  lemma OldOrNewMoves(r: Rules, c: Core, m: Move, known: set<FrameId>, since: FrameId)
    requires Enabled(r, c, m) && Inner(m) && OldOrNew(c, known, since)
    ensures OldOrNew(Apply(r, c, m), known, since)
  {
  }

  lemma {:induction false} InnerLog(r: Rules, c: Core, log: seq<Move>, known: set<FrameId>, since: FrameId, f: FrameId)
    requires Legal(r, c, log) && Sound(c) && (forall i | 0 <= i < |log| :: Inner(log[i])) && OldOrNew(c, known, since)
    ensures OldOrNew(After(r, c, log), known, since)
    ensures HasFrame(c.view, f) && !IsConcluded(After(r, c, log)) ==> HasFrame(After(r, c, log).view, f)
  {
    if log != [] {
      assert forall i | 0 <= i < |Before(log)| :: Before(log)[i] == log[i];
      InnerLog(r, c, Before(log), known, since, f);
      var c1, m := After(r, c, Before(log)), Last(log);
      LogKeepsSound(r, c, Before(log));
      SoundOneMove(r, c1, m);
      OldOrNewMoves(r, c1, m, known, since);
      if !m.Conclude? { FramesStay(r, c1, m); }
    }
  }

  lemma WorldInner(r: Rules, w: World, w': World, known: set<FrameId>, f: FrameId)
    requires Follows(r, w, w') && Sound(w.core) && OldOrNew(w.core, known, w.core.nextFrame)
    ensures OldOrNew(w'.core, known, w.core.nextFrame)
    ensures HasFrame(w.core.view, f) && !IsConcluded(w'.core) ==> HasFrame(w'.core.view, f)
  {
    var log := w'.log[|w.log|..];
    assert forall i | 0 <= i < |log| :: log[i] == w'.log[|w.log| + i];
    InnerLog(r, w.core, log, known, w.core.nextFrame, f);
  }

  function IdsOf(frames: seq<Frame>): set<FrameId> {
    set i | 0 <= i < |frames| :: frames[i].id
  }

  /** At rest every frame has a window open, so a frame nothing stands over is the last one. */
  lemma NothingOverMeansLast(w: World, f: FrameId)
    requires AtRest(w) && !Halted(w) && !IsConcluded(w.core)
    requires HasFrame(w.core.view, f) && !HasOpenFramesAfter(w.core.view, f)
    ensures forall i | 0 <= i < |w.core.view.frames| :: w.core.view.frames[i].id <= f
  {
    var frames := w.core.view.frames;
    var k :| 0 <= k < |frames| && frames[k].id == f;
    forall i | 0 <= i < |frames| ensures frames[i].id <= f {
      assert IsOpen(frames[i]);
      assert !(k < i);
    }
  }

  lemma NumberedBelow(c: Core, k: nat)
    requires Sound(c) && k < |c.view.frames|
    ensures c.view.frames[k].id < c.nextFrame
  {
  }

  lemma WaitingTopIsOlder(c: Core, known: set<FrameId>, f: FrameId)
    requires Sound(c) && AwaitsOpen(c, {}) && !Ready(c.stack) && HasFrame(c.view, f)
    requires OldOrNew(c, known, c.nextFrame) && forall g | g in known :: g <= f
    ensures c.stack == [] || Top(c.stack).id < MarkOf(c, f)
  {
    if c.stack != [] {
      var g := Top(c.stack).pausedOn.value;
      assert c.stack[|c.stack| - 1].pausedOn == Some(g);
      var k :| 0 <= k < |c.view.frames| && c.view.frames[k].id == g;
      NumberedBelow(c, k);
      PausedTopIsOlder(c, f);
    }
  }

  lemma AnnouncedOlderOnTop(r: Rules, w: World, f: FrameId, e: Event)
    requires BeingClosed(w, f) && HasFrame(w.core.view, f) && !Halted(w)
    requires forall i | 0 <= i < |w.core.view.frames| :: w.core.view.frames[i].id <= f
    requires var w1 := Announce(r, w, e);
      !Halted(w1) && !IsConcluded(w1.core) && w1.core.nextFrame == w.core.nextFrame
    ensures var c := Announce(r, w, e).core;
      Sound(c) && HasFrame(c.view, f) && (c.stack == [] || Top(c.stack).id < MarkOf(c, f))
  {
    var w1 := Announce(r, w, e);
    var known, c := IdsOf(w.core.view.frames), w1.core;
    hide Announce, Apply, Sound, Enabled;
    AnnounceEnds(r, w, e);
    AnnounceCloses(r, w, e, f);
    AnnounceFollows(r, w, e);
    SoundFrom(r, w, w1);
    WorldInner(r, w, w1, known, f);
    WaitingTopIsOlder(c, known, f);
  }

  /** The window is closed and its closing announced: the frame still stands, and the top of the stack is older. */
  lemma ClosingLeavesOlderOnTop(r: Rules, w: World, f: FrameId, index: nat, e: Event)
    requires AtRest(w) && !Halted(w) && IsUp(w.core.view, f, index) && !HasOpenFramesAfter(w.core.view, f)
    requires var w1 := Announce(r, Do(r, w, CloseWindow(f, index, [])), e);
      !Halted(w1) && !IsConcluded(w1.core) && w1.core.nextFrame == w.core.nextFrame
    ensures var c := Announce(r, Do(r, w, CloseWindow(f, index, [])), e).core;
      && Sound(c) && c.mode.Resting? && HasFrame(c.view, f)
      && (c.stack == [] || Top(c.stack).id < MarkOf(c, f))
  {
    hide Announce, Apply, Sound, AtRest, BeingClosed, HasOpenFramesAfter, HasFrame, MarkOf;
    StillPlayed(r, w, f, index, e);
    ClosedIsLast(r, w, f, index);
    AnnouncedOlderOnTop(r, Do(r, w, CloseWindow(f, index, [])), f, e);
  }

  lemma StillPlayed(r: Rules, w: World, f: FrameId, index: nat, e: Event)
    requires AtRest(w) && IsUp(w.core.view, f, index)
    ensures Enabled(r, w.core, CloseWindow(f, index, []))
    ensures IsConcluded(w.core) ==> IsConcluded(Announce(r, Do(r, w, CloseWindow(f, index, [])), e).core)
  {
    hide Announce;
  }

  lemma ClosedIsLast(r: Rules, w: World, f: FrameId, index: nat)
    requires AtRest(w) && !Halted(w) && IsUp(w.core.view, f, index) && !HasOpenFramesAfter(w.core.view, f)
    requires !IsConcluded(w.core)
    ensures Enabled(r, w.core, CloseWindow(f, index, []))
    ensures var w0 := Do(r, w, CloseWindow(f, index, []));
      && BeingClosed(w0, f) && HasFrame(w0.core.view, f) && w0.halt == w.halt && w0.core.nextFrame == w.core.nextFrame
      && w0.core.mode.Resting?
      && forall i | 0 <= i < |w0.core.view.frames| :: w0.core.view.frames[i].id <= f
  {
    hide Sound, HasOpenFramesAfter, BeingClosed, QuietBut, Ended;
    CloseMove(r, w, f, index, []);
    FramesStayClosed(r, w, f, index, []);
    NothingOverMeansLast(w, f);
    var frames, frames' := w.core.view.frames, Do(r, w, CloseWindow(f, index, [])).core.view.frames;
    assert frames' == WithClosed(frames, f, index, []);
    assert forall i | 0 <= i < |frames| :: frames'[i].id == frames[i].id;
  }

  // ---------------------------------------------------------------------------
  // Failing outcomes
  // ---------------------------------------------------------------------------

  /** A short hero roll, a fight-back, a miss, a lost challenge. */
  predicate Fails(r: Rules, win: Window, v: Verdict) {
    match (win.kind, v)
    case (Modifier(required, _), Rolled(roll, _)) => roll < required
    case (Attack(monster), Rolled(roll, _)) => !(monster in r.monsters && TrySlay(r.monsters[monster], roll).Slay?)
    case (Challenge(_), Contest(held, defended)) => held && !defended
    case _ => false
  }

  /** The window stands, nothing stands over it, and it is about to fail. */
  ghost predicate AboutToFail(r: Rules, w: World, f: FrameId, index: nat, v: Verdict) {
    && !Halted(w) && HasFrame(w.core.view, f) && !HasOpenFramesAfter(w.core.view, f)
    && var windows := FrameOf(w.core.view.frames, f).windows;
       index < |windows| && windows[index].open && Fails(r, windows[index], v)
  }

  /** What a settlement announces before it restores or releases: the close, and of a contested card the contest too. */
  function Told(r: Rules, w: World, f: FrameId, index: nat, win: Window, contested: bool): (w': World)
    requires w.core.mode.Resting? && IsUp(w.core.view, f, index) && (contested ==> win.kind.Challenge?)
    ensures w'.core.mode.Resting? && w.core.nextFrame <= w'.core.nextFrame
  {
    var w1 := Announce(r, Do(r, w, CloseWindow(f, index, [])), Plain(WindowClosed, win.respondent, SubjectCard(win)));
    if contested then Announce(r, w1, Plain(ChallengeResolved, win.respondent, Some(win.kind.card))) else w1
  }

  /** What a failing settlement announces before it restores. */
  function Announced(r: Rules, w: World, f: FrameId, index: nat, win: Window): (w': World)
    requires w.core.mode.Resting? && IsUp(w.core.view, f, index)
    ensures w'.core.mode.Resting? && w.core.nextFrame <= w'.core.nextFrame
  {
    Told(r, w, f, index, win, win.kind.Challenge?)
  }

  /** None of those announcements halts the engine, ends the game or has a rule open a frame. */
  ghost predicate AsksNothing(r: Rules, w: World, f: FrameId, index: nat, win: Window)
    requires w.core.mode.Resting? && IsUp(w.core.view, f, index)
  {
    var w' := Announced(r, w, f, index, win);
    !Halted(w') && !IsConcluded(w'.core) && w'.core.nextFrame == w.core.nextFrame
  }

  /** The first announcement behind it, the world is as if it had only closed. */
  lemma SecondAnnouncement(r: Rules, w: World, f: FrameId, e: Event, e2: Event)
    requires BeingClosed(w, f) && HasFrame(w.core.view, f) && !Halted(w)
    requires forall i | 0 <= i < |w.core.view.frames| :: w.core.view.frames[i].id <= f
    requires var w2 := Announce(r, Announce(r, w, e), e2);
      !Halted(w2) && !IsConcluded(w2.core) && w2.core.nextFrame == w.core.nextFrame
    ensures var c := Announce(r, Announce(r, w, e), e2).core;
      Sound(c) && HasFrame(c.view, f) && (c.stack == [] || Top(c.stack).id < MarkOf(c, f))
  {
    var w1 := Announce(r, w, e);
    assert !Halted(w1) && !IsConcluded(w1.core) && w1.core.nextFrame == w.core.nextFrame;
    hide Announce, Sound, BeingClosed, MarkOf;
    AnnouncedOlderOnTop(r, w, f, e);
    AnnounceCloses(r, w, e, f);
    NoNewFrames(r, w, f, e);
    AnnouncedOlderOnTop(r, w1, f, e2);
  }

  lemma NoNewFrames(r: Rules, w: World, f: FrameId, e: Event)
    requires BeingClosed(w, f) && !Halted(w)
    requires forall i | 0 <= i < |w.core.view.frames| :: w.core.view.frames[i].id <= f
    requires Announce(r, w, e).core.nextFrame == w.core.nextFrame && Sound(Announce(r, w, e).core)
    ensures forall i | 0 <= i < |Announce(r, w, e).core.view.frames| :: Announce(r, w, e).core.view.frames[i].id <= f
  {
    var w1, known := Announce(r, w, e), IdsOf(w.core.view.frames);
    hide Announce, Sound;
    AnnounceFollows(r, w, e);
    WorldInner(r, w, w1, known, f);
    forall i | 0 <= i < |w1.core.view.frames| ensures w1.core.view.frames[i].id <= f {
      NumberedBelow(w1.core, i);
    }
  }

  /** As a failing outcome restores, its frame still stands and the top of the stack is older than it. */
  lemma FailsOlderOnTop(r: Rules, w: World, f: FrameId, index: nat, win: Window)
    requires AtRest(w) && !Halted(w) && IsUp(w.core.view, f, index) && !HasOpenFramesAfter(w.core.view, f)
    requires AsksNothing(r, w, f, index, win)
    ensures var c := Announced(r, w, f, index, win).core;
      Sound(c) && HasFrame(c.view, f) && (c.stack == [] || Top(c.stack).id < MarkOf(c, f))
  {
    var e := Plain(WindowClosed, win.respondent, SubjectCard(win));
    StillPlayed(r, w, f, index, e);
    var w0 := Do(r, w, CloseWindow(f, index, []));
    var w1 := Announce(r, w0, e);
    hide Announce, Apply, Sound, AtRest, BeingClosed, HasOpenFramesAfter, HasFrame, MarkOf;
    if win.kind.Challenge? {
      ClosedIsLast(r, w, f, index);
      SecondAnnouncement(r, w0, f, e, Plain(ChallengeResolved, win.respondent, Some(win.kind.card)));
    } else {
      ClosingLeavesOlderOnTop(r, w, f, index, e);
    }
  }

  // ---------------------------------------------------------------------------
  // The settlement, and all that follows it
  // ---------------------------------------------------------------------------

  lemma RestoreRests(r: Rules, w: World, f: FrameId)
    requires w.core.mode.Resting? && HasFrame(w.core.view, f)
    ensures Do(r, w, Restore(f)).core.mode.Resting? && RestoreFrame(r, w, f) == Do(r, w, Restore(f))
    ensures Valid(r, Since(Do(r, w, Restore(f))), Do(r, w, Restore(f)))
  {
    SinceItself(r, Do(r, w, Restore(f)));
  }

  lemma HaltsForGood(r: Rules, w: World, e: StepEvent)
    requires !Halted(Announce(r, w, e))
    ensures !Halted(w)
  {
  }

  /** A failing settlement is those announcements, the restore, and what follows the restore. */
  lemma FailsThroughRestore(r: Rules, w: World, f: FrameId, index: nat, win: Window, v: Verdict)
    requires w.core.mode.Resting? && IsUp(w.core.view, f, index) && Fails(r, win, v)
    requires var w' := Announced(r, w, f, index, win); !Halted(w') && HasFrame(w'.core.view, f)
    ensures Valid(r, Since(Do(r, Announced(r, w, f, index, win), Restore(f))), SettleOutcome(r, w, f, index, win, v))
  {
    hide Announce, AnnounceResolved, Valid, Apply, HasFrame, TrySlay, RestoreFrame, SettleModifier, SettleAttack, SettleChallenge;
    var w1 := Announce(r, Do(r, w, CloseWindow(f, index, [])), Plain(WindowClosed, win.respondent, SubjectCard(win)));
    var o := Since(Do(r, Announced(r, w, f, index, win), Restore(f)));
    match (win.kind, v)
    case (Modifier(_, _), Rolled(roll, seed)) =>
      RollFails(r, w1, f, win, roll, seed);
      AnnounceResolvedLegal(r, o, SettleModifier(r, w1, f, win, roll, seed), f, [Slot(CTX_FINAL_ROLL, Number(roll))], None);
    case (Attack(_), Rolled(roll, _)) =>
      AttackFails(r, w1, f, win, roll);
      AnnounceResolvedLegal(r, o, SettleAttack(r, w1, f, win, roll), f, [Slot(CTX_FINAL_ROLL, Number(roll))], None);
    case (Challenge(card), Contest(_, _)) =>
      HaltsForGood(r, w1, Plain(ChallengeResolved, win.respondent, Some(card)));
      ChallengeFails(r, w1, f, win);
      AnnounceResolvedLegal(r, o, SettleChallenge(r, w1, f, win, true, false), f, [], Some(card));
    case _ =>
  }

  lemma RollFails(r: Rules, w: World, f: FrameId, win: Window, roll: int, seed: Ctx)
    requires w.core.mode.Resting? && HasFrame(w.core.view, f) && !Halted(w) && win.kind.Modifier? && roll < win.kind.required
    ensures Valid(r, Since(Do(r, w, Restore(f))), SettleModifier(r, w, f, win, roll, seed))
  {
    hide Announce, Valid, Apply, HasFrame;
    RestoreRests(r, w, f);
    AnnounceLegal(r, Since(Do(r, w, Restore(f))), Do(r, w, Restore(f)), Plain(RollFailed, win.respondent, Some(win.kind.hero)));
  }

  lemma AttackFails(r: Rules, w: World, f: FrameId, win: Window, roll: int)
    requires w.core.mode.Resting? && HasFrame(w.core.view, f) && !Halted(w) && win.kind.Attack?
    requires !(win.kind.monster in r.monsters && TrySlay(r.monsters[win.kind.monster], roll).Slay?)
    ensures Valid(r, Since(Do(r, w, Restore(f))), SettleAttack(r, w, f, win, roll))
  {
    hide Announce, Valid, Apply, HasFrame, TrySlay, ReleaseFrame;
    RestoreRests(r, w, f);
    AnnounceLegal(r, Since(Do(r, w, Restore(f))), Do(r, w, Restore(f)),
      Plain(MonsterFoughtBack, win.respondent, Some(win.kind.monster)));
  }

  lemma ChallengeFails(r: Rules, w: World, f: FrameId, win: Window)
    requires w.core.mode.Resting? && !Halted(w) && win.kind.Challenge?
    requires var w2 := Announce(r, w, Plain(ChallengeResolved, win.respondent, Some(win.kind.card)));
      !Halted(w2) && HasFrame(w2.core.view, f)
    ensures var w2 := Announce(r, w, Plain(ChallengeResolved, win.respondent, Some(win.kind.card)));
      Valid(r, Since(Do(r, w2, Restore(f))), SettleChallenge(r, w, f, win, true, false))
  {
    hide Announce, Valid, Apply, HasFrame, ReleaseFrame;
    var w2 := Announce(r, w, Plain(ChallengeResolved, win.respondent, Some(win.kind.card)));
    RestoreRests(r, w2, f);
    var w3 := Do(r, w2, Restore(f));
    var c := w3.core.view.table.cards;
    DoKeepsValid(r, Since(w3), w3, Edit(c.(discard := c.discard + [win.kind.card])));
  }

  lemma {:induction false} RunAppends(r: Rules, w: World, inputs: seq<Input>, later: seq<Input>)
    requires w.core.mode.Resting?
    ensures Run(r, w, inputs + later) == Run(r, Run(r, w, inputs), later)
  {
    hide Step;
    if later == [] {
      assert inputs + later == inputs;
    } else {
      var pre := later[..|later| - 1];
      RunAppends(r, w, inputs, pre);
      assert (inputs + later)[..|inputs + later| - 1] == inputs + pre;
    }
  }

  lemma FailingIsAnOutcome(r: Rules, w: World, f: FrameId, index: nat, v: Verdict)
    requires w.core.mode.Resting? && AboutToFail(r, w, f, index, v)
    ensures Step(r, w, Settle(f, index, v)) ==
      SettleOutcome(r, w, f, index, FrameOf(w.core.view.frames, f).windows[index], v)
  {
    hide SettleOutcome, HasOpenFramesAfter, TrySlay;
  }

  lemma AnnouncedIsLegal(r: Rules, o: Origin, w: World, f: FrameId, index: nat, win: Window)
    requires Valid(r, o, w) && o.span.AnyMoves? && w.core.mode.Resting? && IsUp(w.core.view, f, index)
    ensures Valid(r, o, Announced(r, w, f, index, win))
  {
    hide Announce, Valid, Apply, HasFrame;
    var e := Plain(WindowClosed, win.respondent, SubjectCard(win));
    DoKeepsValid(r, o, w, CloseWindow(f, index, []));
    AnnounceLegal(r, o, Do(r, w, CloseWindow(f, index, [])), e);
    if win.kind.Challenge? {
      AnnounceLegal(r, o, Announce(r, Do(r, w, CloseWindow(f, index, [])), e),
        Plain(ChallengeResolved, win.respondent, Some(win.kind.card)));
    }
  }

  lemma AnnouncedInARun(r: Rules, w: World, inputs: seq<Input>, f: FrameId, index: nat, win: Window)
    requires Dealt(w) && IsUp(Run(r, w, inputs).core.view, f, index)
    ensures var w' := Announced(r, Run(r, w, inputs), f, index, win);
      Legal(r, w.core, w'.log) && w'.core == After(r, w.core, w'.log)
  {
    hide Run, Announced, HasFrame;
    var o := Origin(w.core, [], AnyMoves, None);
    assert Valid(r, o, w);
    RunIsLegal(r, o, w, inputs);
    AnnouncedIsLegal(r, o, Run(r, w, inputs), f, index, win);
    var log := Announced(r, Run(r, w, inputs), f, index, win).log;
    assert log[0..] == log;
  }

  /** The rest of the run goes on from the settlement, and the settlement from the restore. */
  lemma RunGoesOn(r: Rules, w: World, inputs: seq<Input>, f: FrameId, index: nat, v: Verdict, later: seq<Input>, o: Origin)
    requires w.core.mode.Resting? && AboutToFail(r, Run(r, w, inputs), f, index, v) && o.span.AnyMoves?
    requires var w1 := Run(r, w, inputs);
      Valid(r, o, SettleOutcome(r, w1, f, index, FrameOf(w1.core.view.frames, f).windows[index], v))
    ensures Valid(r, o, Run(r, w, inputs + [Settle(f, index, v)] + later))
  {
    hide Run, SettleOutcome, Valid, Fails, HasFrame, HasOpenFramesAfter, AboutToFail;
    FailingIsAnOutcome(r, Run(r, w, inputs), f, index, v);
    var settled := inputs + [Settle(f, index, v)];
    RunOneMore(r, w, inputs, Settle(f, index, v));
    RunAppends(r, w, settled, later);
    RunIsLegal(r, o, Run(r, w, settled), later);
  }

  /** The one restore takes it off the stack, and it never comes back. */
  lemma RestoredForGood(r: Rules, w: World, f: FrameId, w': World, q: nat)
    requires Sound(w.core) && w.core.mode.Resting? && HasFrame(w.core.view, f)
    requires w.core.stack == [] || Top(w.core.stack).id < MarkOf(w.core, f)
    requires MarkOf(w.core, f) <= q < w.core.nextPipe && Valid(r, Since(Do(r, w, Restore(f))), w')
    ensures w.log + [Restore(f)] <= w'.log && NoBegin(w'.log[|w.log|..], q) && !OnStack(w'.core, q)
  {
    hide MarkOf, Legal, After, OnStack, Sound, HasFrame;
    var past := w.log + [Restore(f)];
    CancelsIffTopIsOlder(r, w.core, f);
    var c := Apply(r, w.core, Restore(f));
    assert c.nextPipe == w.core.nextPipe;
    assert Gone(c, q);
    GoneForGood(r, c, w'.log[|past|..], q);
    var rest := w'.log[|w.log|..];
    forall k | 0 <= k < |rest| ensures rest[k] != Begin(q) {
      if k == 0 { assert rest[0] == w'.log[|w.log|] == past[|w.log|]; }
      else { assert rest[k] == w'.log[|past|..][k - 1]; }
    }
  }

  /** Restoring the frame in this world leaves no pipeline started since it opened. */
  ghost predicate NoneLeft(r: Rules, dealt: World, w: World, f: FrameId)
    requires w.core.mode.Resting?
  {
    forall q: nat | StartedInside(r, dealt.core, w.log, f, q) :: Gone(RestoreFrame(r, w, f).core, q)
  }

  /**
   * Exactly when a failing outcome cancels, in any run: of the pipelines started
   * since its frame opened none is left by its restore, and so none ever steps
   * again, if and only if the one on top of the stack as it restores, if there
   * is one, was started before the frame. The restore is in the run's log.
   */
  lemma FailureCancelsIffTopIsOutside(
    r: Rules, w: World, inputs: seq<Input>, f: FrameId, index: nat, v: Verdict, w1: World, w2: World)
    requires Dealt(w) && w1 == Run(r, w, inputs) && AboutToFail(r, w1, f, index, v)
    requires w2 == Announced(r, w1, f, index, FrameOf(w1.core.view.frames, f).windows[index])
    requires !Halted(w2) && HasFrame(w2.core.view, f)
    ensures w2.log + [Restore(f)] <= Run(r, w, inputs + [Settle(f, index, v)]).log
    ensures NoneLeft(r, w, w2, f) <==> w2.core.stack == [] || !StartedInside(r, w.core, w2.log, f, Top(w2.core.stack).id)
  {
    hide Run, SettleOutcome, Announced, Fails, Gone, StartedInside, Apply, HasFrame, HasOpenFramesAfter, Legal, After;
    var win := FrameOf(w1.core.view.frames, f).windows[index];
    FailsThroughRestore(r, w1, f, index, win, v);
    FailingIsAnOutcome(r, w1, f, index, v);
    RunOneMore(r, w, inputs, Settle(f, index, v));
    AnnouncedInARun(r, w, inputs, f, index, win);
    RestoreCancelsIffTopIsOutside(r, w.core, w2.log, f);
  }

  /**
   * A short hero roll, a fight-back, a miss or a lost challenge, in any run: if
   * no rule answers the announcements that precede the restore with a question
   * of its own, then no pipeline started since the frame opened, those very
   * announcements included, takes another step after the restore, in the rest of
   * the settlement or in anything that follows; and none is left.
   */
  lemma FailureCancels(
    r: Rules, w: World, inputs: seq<Input>, f: FrameId, index: nat, v: Verdict, later: seq<Input>, q: nat)
    requires Dealt(w)
    requires var w1 := Run(r, w, inputs);
      && AboutToFail(r, w1, f, index, v)
      && var win := FrameOf(w1.core.view.frames, f).windows[index];
         AsksNothing(r, w1, f, index, win) && StartedInside(r, w.core, Announced(r, w1, f, index, win).log, f, q)
    ensures var w1 := Run(r, w, inputs);
      var past := Announced(r, w1, f, index, FrameOf(w1.core.view.frames, f).windows[index]).log;
      var w' := Run(r, w, inputs + [Settle(f, index, v)] + later);
      && past + [Restore(f)] <= w'.log && NoBegin(w'.log[|past|..], q) && !OnStack(w'.core, q)
  {
    hide Run, SettleOutcome, Valid, Announced, Fails, NoBegin, OnStack, StartedInside, Apply, Sound, HasFrame, HasOpenFramesAfter;
    var w1 := Run(r, w, inputs);
    var win := FrameOf(w1.core.view.frames, f).windows[index];
    var w2 := Announced(r, w1, f, index, win);
    TheClockNeverLapsesOnABusyBoard(r, w, inputs);
    FailsOlderOnTop(r, w1, f, index, win);
    FailsThroughRestore(r, w1, f, index, win, v);
    RunGoesOn(r, w, inputs, f, index, v, later, Since(Do(r, w2, Restore(f))));
    AnnouncedInARun(r, w, inputs, f, index, win);
    InsideIffYounger(r, w.core, w2.log, f, q);
    RestoredForGood(r, w2, f, Run(r, w, inputs + [Settle(f, index, v)] + later), q);
  }
}
