/**
 * The two schedulers meet: whenever the event loop is between two entries, a
 * busy board has an open window, and so the turn's clock is held. The clock can
 * therefore never lapse on a busy board, over every run.
 */
module Idle {
  import opened Board
  import opened Abilities
  import opened Machine
  import opened Engine
  import opened EngineLegal
  import opened Requests
  import opened Pipelines
  import opened TurnLaws
  import opened Rotation
  import opened Soundness
  import opened Rest

  // ---------------------------------------------------------------------------
  // After an announcement
  // ---------------------------------------------------------------------------

  lemma DrainEnds(r: Rules, w: World)
    requires w.core.mode.Resting? && Sound(w.core)
    ensures Ended(Drain(r, w)) && EndedOnTop(Drain(r, w), w.core.nextFrame)
  {
    SoundOneMove(r, w.core, StartLoop);
    var w1 := Do(r, w, StartLoop);
    hide Loop, Sound;
    LoopEnds(r, w1);
  }

  lemma HearTaskEnds(r: Rules, w: World, e: Event)
    requires w.core.mode.Resting? && Sound(w.core)
    ensures Ended(HearTask(r, w, e)) && EndedOnTop(HearTask(r, w, e), w.core.nextFrame)
  {
    if !IsConcluded(w.core) {
      NothingFollows(r, w);
      ExpireLegal(r, InnerOf(w), w, e);
      var w1 := Expire(r, w, e);
      WakeForLegal(r, InnerOf(w), w1, e);
      var w2 := WakeFor(r, w1, e);
      PushAllLegal(r, InnerOf(w), w2, Started(r, w2.core.view, e));
      var w3 := StartMatching(r, w2, e);
      InnerFollows(r, w, w3);
      SoundFrom(r, w, w3);
      hide Expire, Drain, Started, Sound, WakeFor;
      DrainEnds(r, w3);
    }
  }

  lemma ConcludeEnds(r: Rules, w: World, nextFrame: FrameId)
    requires Ended(w) && EndedOnTop(w, nextFrame)
    ensures Ended(ConcludeIfDue(r, w)) && EndedOnTop(ConcludeIfDue(r, w), nextFrame)
  {
    hide HasPendingOutcome, Winner;
  }

  lemma AnnounceEnds(r: Rules, w: World, e: Event)
    requires w.core.mode.Resting? && Sound(w.core)
    ensures var w' := Announce(r, w, e);
      Sound(w'.core) && Ended(w') && EndedOnTop(w', w.core.nextFrame)
  {
    AnnounceFollows(r, w, e);
    SoundFrom(r, w, Announce(r, w, e));
    if !Halted(w) {
      SoundOneMove(r, w.core, Hear(e));
      var w0 := Do(r, w, Hear(e));
      var w1 := HearClock(r, w0, e);
      NothingFollows(r, w0);
      HearClockLegal(r, InnerOf(w0), w0, e);
      InnerFollows(r, w0, w1);
      SoundFrom(r, w0, w1);
      hide HearTask, Sound, HearClock, ConcludeIfDue, Ended, EndedOnTop;
      HearTaskEnds(r, w1, e);
      ConcludeEnds(r, HearTask(r, w1, e), w.core.nextFrame);
    } else {
      hide Sound;
    }
  }

  // ---------------------------------------------------------------------------
  // Quiet
  // ---------------------------------------------------------------------------

  /** Every open frame has a window, and every paused pipeline an open frame, but for those in `gone`. */
  ghost predicate QuietBut(w: World, gone: set<FrameId>) {
    Halted(w) || IsConcluded(w.core) || (Furnished(w.core.view, {}) && AwaitsOpen(w.core, gone))
  }

  ghost predicate AtRest(w: World) {
    w.core.mode.Resting? && Sound(w.core) && QuietBut(w, {}) && Ended(w) && !w.halt.LapsedBusy?
  }

  lemma AnnounceQuiet(r: Rules, w: World, e: Event, gone: set<FrameId>)
    requires w.core.mode.Resting? && Sound(w.core) && QuietBut(w, gone)
    ensures var w' := Announce(r, w, e);
      w'.core.mode.Resting? && Sound(w'.core) && QuietBut(w', gone) && Ended(w')
  {
    AnnounceEnds(r, w, e);
    hide HearTask, Sound;
    if !Halted(w) && !IsConcluded(w.core) {
      AnnounceDressed(r, w, e, {});
      AnnounceFollows(r, w, e);
      WorldKeepsAwaiting(r, w, Announce(r, w, e), gone);
    }
  }

  lemma NobodyWaitsAfterWake(r: Rules, c: Core, f: FrameId, slots: seq<Slot>)
    requires Enabled(r, c, Wake(f, slots)) && AwaitsOpen(c, {f})
    ensures AwaitsOpen(Apply(r, c, Wake(f, slots)), {})
  {
  }

  lemma ResolvedHeard(r: Rules, w: World, e: Event)
    requires w.core.mode.Resting? && e.kind.FrameResolved?
    requires AwaitsOpen(w.core, {e.frame}) && !IsConcluded(w.core)
    ensures var w' := HearTask(r, w, e); Halted(w') || AwaitsOpen(w'.core, {})
  {
    NothingFollows(r, w);
    ExpireLegal(r, InnerOf(w), w, e);
    var w1 := Expire(r, w, e);
    InnerFollows(r, w, w1);
    WorldKeepsAwaiting(r, w, w1, {e.frame});
    if !Halted(w1) {
      NobodyWaitsAfterWake(r, w1.core, e.frame, e.slots);
      var w2 := WakeFor(r, w1, e);
      NothingFollows(r, w2);
      PushAllLegal(r, InnerOf(w2), w2, Started(r, w2.core.view, e));
      var w3 := StartMatching(r, w2, e);
      DrainLegal(r, InnerOf(w2), w3);
      InnerFollows(r, w2, Drain(r, w3));
      WorldKeepsAwaiting(r, w2, Drain(r, w3), {});
    }
  }

  lemma ConcludeAwaits(r: Rules, w: World)
    requires Halted(w) || AwaitsOpen(w.core, {})
    ensures var w' := ConcludeIfDue(r, w); Halted(w') || AwaitsOpen(w'.core, {})
  {
    hide HasPendingOutcome, Winner;
  }

  lemma ConcludedStays(r: Rules, w: World, e: Event)
    requires Reserved(e.kind) ==> w.core.mode.Resting?
    ensures IsConcluded(w.core) ==> IsConcluded(Announce(r, w, e).core)
    ensures Announce(r, w, e).halt.LapsedBusy? ==> w.halt.LapsedBusy?
    ensures Halted(w) ==> Announce(r, w, e) == w
  {
  }

  /** The frame's last word leaves nobody waiting on it. */
  lemma ResolvedQuiet(r: Rules, w: World, e: Event)
    requires w.core.mode.Resting? && Sound(w.core) && !w.halt.LapsedBusy?
    requires e.kind.FrameResolved? && QuietBut(w, {e.frame})
    ensures AtRest(Announce(r, w, e))
  {
    AnnounceQuiet(r, w, e, {e.frame});
    ConcludedStays(r, w, e);
    var w' := Announce(r, w, e);
    hide Announce;
    if !Halted(w) && !Halted(w') && !IsConcluded(w'.core) {
      hide Sound;
      ResolvedAwaits(r, w, e);
    }
  }

  lemma ResolvedAwaits(r: Rules, w: World, e: Event)
    requires w.core.mode.Resting? && Sound(w.core) && e.kind.FrameResolved? && AwaitsOpen(w.core, {e.frame})
    requires !Halted(w) && !IsConcluded(w.core)
    ensures var w' := Announce(r, w, e); Halted(w') || AwaitsOpen(w'.core, {})
  {
    var w1 := HearClock(r, Do(r, w, Hear(e)), e);
    hide HearTask, Sound, ConcludeIfDue, SyncClock;
    ResolvedHeard(r, w1, e);
    ConcludeAwaits(r, HearTask(r, w1, e));
  }

  // ---------------------------------------------------------------------------
  // Scripts outside a drain: what actions and reactions do
  // ---------------------------------------------------------------------------

  lemma {:induction false} AnnounceAllEnds(r: Rules, w: World, events: seq<StepEvent>)
    requires w.core.mode.Resting? && Sound(w.core) && Ended(w)
    ensures var w' := AnnounceAll(r, w, events); Sound(w'.core) && Ended(w')
    decreases |events|
  {
    hide Announce, Sound;
    if events != [] {
      AnnounceEnds(r, w, events[0]);
      AnnounceAllEnds(r, Announce(r, w, events[0]), events[1..]);
    }
  }

  lemma {:induction false} PlayAllEnds(r: Rules, w: World, plays: seq<Play>)
    requires w.core.mode.Resting? && Sound(w.core) && Ended(w)
    ensures var w' := PlayAll(r, w, plays); Sound(w'.core) && Ended(w')
    decreases |plays|
  {
    if !Halted(w) && plays != [] {
      var m := Edit(plays[0].edit(w.core.view.table.cards));
      SoundOneMove(r, w.core, m);
      var w1 := Do(r, w, m);
      hide Announce, Sound;
      AnnounceEnds(r, w1, plays[0].event);
      PlayAllEnds(r, Announce(r, w1, plays[0].event), plays[1..]);
    }
  }

  lemma {:induction false} AskAllEnds(r: Rules, w: World, f: FrameId, askings: seq<Asking>)
    requires w.core.mode.Resting? && Sound(w.core) && Ended(w)
    ensures var w' := AskAll(r, w, f, askings); Sound(w'.core) && Ended(w')
    decreases |askings|
  {
    if !Halted(w) && askings != [] && HasFrame(w.core.view, f) {
      AnnounceEnds(r, w, askings[0].opening);
      AnnounceAllEnds(r, Announce(r, w, askings[0].opening), askings[0].standing);
      var w1 := AnnounceAll(r, Announce(r, w, askings[0].opening), askings[0].standing);
      hide Announce, AnnounceAll, Sound;
      if !Halted(w1) && HasFrame(w1.core.view, f) {
        var m := AddWindow(f, WindowOf(askings[0]));
        SoundOneMove(r, w1.core, m);
        AskAllEnds(r, Do(r, w1, m), f, askings[1..]);
      }
    }
  }

  lemma PerformEnds(r: Rules, w: World, a: Act)
    requires w.core.mode.Resting? && Sound(w.core) && Ended(w) && !a.Return?
    ensures var w' := Perform(r, w, a); Sound(w'.core) && Ended(w')
  {
    SoundOneMove(r, w.core, Edit(a.cards));
    var w1 := Do(r, w, Edit(a.cards));
    match a
    case Emit(_, _, e) => AnnounceEnds(r, w1, e);
    case Ask(_, _, plays, asking, more) =>
      SoundOneMove(r, w1.core, Open);
      var w2 := Do(r, w1, Open);
      hide Sound;
      PlayAllEnds(r, w2, plays);
      AskAllEnds(r, PlayAll(r, w2, plays), w.core.nextFrame, [asking] + more);
  }

  lemma {:induction false} ExecuteEnds(r: Rules, w: World, s: Script, i: nat, ctx: Ctx, asked: Option<FrameId>)
    requires w.core.mode.Resting? && Sound(w.core) && Ended(w)
    ensures var w' := Execute(r, w, s, i, ctx, asked).world; Sound(w'.core) && Ended(w')
    decreases s.length - i
  {
    if !Halted(w) && i < s.length {
      var a := s.act(i, ctx, asked, w.core.view);
      if a.Return? {
        SoundOneMove(r, w.core, Edit(a.cards));
      } else {
        hide Perform, Sound;
        PerformEnds(r, w, a);
        ExecuteEnds(r, Perform(r, w, a), s, i + 1, a.ctx, if a.Ask? then Some(w.core.nextFrame) else asked);
      }
    }
  }

  lemma ExecuteRests(r: Rules, w: World, s: Script)
    requires AtRest(w)
    ensures AtRest(Execute(r, w, s, 0, map[], None).world)
  {
    var w' := Execute(r, w, s, 0, map[], None).world;
    NothingFollows(r, w);
    ExecuteLegal(r, InnerOf(w), w, s, 0, map[], None);
    InnerFollows(r, w, w');
    SoundFrom(r, w, w');
    ExecuteEnds(r, w, s, 0, map[], None);
    hide Execute, Sound;
    if !Halted(w) && !IsConcluded(w.core) {
      ExecuteDressed(r, w, s, 0, map[], None, {});
      WorldKeepsAwaiting(r, w, w', {});
    }
  }

  // ---------------------------------------------------------------------------
  // Requests
  // ---------------------------------------------------------------------------

  /** Moves that leave the frames and the stack alone. */
  predicate Aside(m: Move) {
    m.Edit? || m.Hear? || m.StartTurn? || m.EndTurn? || m.Pause? || m.Resume? || m.Fire? || m.Advance?
    || m.Accept? || m.Take? || m.BeginGame?
  }

  lemma AsideRests(r: Rules, w: World, m: Move)
    requires AtRest(w) && Enabled(r, w.core, m) && Aside(m)
    ensures AtRest(Do(r, w, m))
  {
    SoundOneMove(r, w.core, m);
  }

  lemma SyncRests(r: Rules, w: World)
    requires AtRest(w)
    ensures AtRest(SyncClock(r, w))
  {
    if Enabled(r, w.core, Pause) { AsideRests(r, w, Pause); }
    if Enabled(r, w.core, Resume) { AsideRests(r, w, Resume); }
    hide AtRest, Apply;
  }

  lemma AnnounceRests(r: Rules, w: World, e: Event)
    requires AtRest(w)
    ensures AtRest(Announce(r, w, e))
  {
    hide Announce, Sound;
    AnnounceQuiet(r, w, e, {});
  }

  lemma StartTurnRests(r: Rules, w: World, player: Id)
    requires AtRest(w) && IsDue(w.core.turn, player) && (IsConcluded(w.core) ==> w.core.turn.phase.Opening?)
    ensures AtRest(StartTurnFor(r, w, player))
  {
    if !Halted(w) && player in r.players {
      AsideRests(r, w, StartTurn(player));
      AnnounceRests(r, Turned(r, w, player), Plain(TurnStarted, player, None));
      SyncRests(r, Announce(r, Turned(r, w, player), Plain(TurnStarted, player, None)));
    }
  }

  lemma FinishTurnRests(r: Rules, w: World)
    requires AtRest(w) && Enabled(r, w.core, EndTurn)
    ensures AtRest(FinishTurn(r, w))
  {
    var e := Plain(TurnEnded, w.core.view.table.current.value, None);
    AsideRests(r, w, EndTurn);
    AnnounceRests(r, Do(r, w, EndTurn), e);
    var w1 := Announce(r, Do(r, w, EndTurn), e);
    if w1.core.turn.order != [] && !IsConcluded(w1.core) {
      StartTurnRests(r, w1, NextSeat(w1.core.turn.order, w1.core.turn.ended));
    }
  }

  lemma {:induction false} DrainQueueRests(r: Rules, w: World)
    requires AtRest(w)
    ensures AtRest(DrainQueue(r, w))
    decreases |w.core.turn.queue|
  {
    var c := w.core;
    if !Halted(w) && c.view.table.current.Some? && !IsBusy(c) {
      if c.turn.queue == [] {
        if Enabled(r, c, EndTurn) { FinishTurnRests(r, w); }
      } else {
        var run := CanExecute(c.view, c.turn.queue[0]);
        AsideRests(r, w, Take(run));
        var w1 := Do(r, w, Take(run));
        hide Execute, Sound, AtRest;
        if !run {
          DrainQueueRests(r, w1);
        } else {
          ExecuteRests(r, w1, c.turn.queue[0].script);
          DrainQueueRests(r, Execute(r, w1, c.turn.queue[0].script, 0, map[], None).world);
        }
      }
    }
  }

  /** A live timer on a board at rest: nothing is open, so nobody waits, so nothing is on the stack. */
  lemma TimerMeansIdle(w: World, timer: nat)
    requires AtRest(w) && !Halted(w) && !IsConcluded(w.core) && timer in w.core.clock.timers
    ensures !IsBusy(w.core)
  {
    assert Machine.Running(w.core.clock);
    FurnishedShows(w.core.view);
    SomebodyWaits(w);
  }

  lemma FurnishedShows(v: View)
    requires Furnished(v, {})
    ensures v.frames == [] || HasOpenFrames(v)
  {
    if v.frames != [] { assert v.frames[0] in v.frames; }
  }

  lemma SomebodyWaits(w: World)
    requires AtRest(w) && !Halted(w) && !IsConcluded(w.core)
    ensures w.core.stack == [] || w.core.view.frames != []
  {
    if i :| 0 <= i < |w.core.stack| && w.core.stack[i].pausedOn.Some? {
      assert HasFrame(w.core.view, w.core.stack[i].pausedOn.value);
    }
  }

  lemma LapseRests(r: Rules, w: World, timer: nat)
    requires AtRest(w) && !Halted(w) && Enabled(r, w.core, Fire(timer))
    ensures AtRest(Lapse(r, w, timer))
  {
    AsideRests(r, w, Fire(timer));
    var w1 := Do(r, w, Fire(timer));
    if !IsConcluded(w.core) { TimerMeansIdle(w, timer); }
    if w1.core.view.table.current.Some? {
      var m := Edit(WithPoints(w1.core.view.table.cards, w1.core.view.table.current.value, 0));
      AsideRests(r, w1, m);
      DrainQueueRests(r, Do(r, w1, m));
    }
  }

  lemma {:induction false} EnqueueRests(r: Rules, w: World, a: Action)
    requires AtRest(w)
    ensures AtRest(Enqueue(r, w, a))
  {
    if !Halted(w) && ReplyTo(w, a).Accepted? {
      AsideRests(r, w, Accept(a));
      DrainQueueRests(r, Do(r, w, Accept(a)));
    }
  }
}
