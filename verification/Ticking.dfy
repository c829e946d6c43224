/**
 * The clock of a timed turn: between two entries of the event loop it runs
 * exactly when no window is open. An opening pauses it, and the window it
 * announces is then on the board; only a settled frame sets it going again.
 */
module Ticking {
  import opened Board
  import opened Abilities
  import opened Machine
  import opened Engine
  import opened EngineLegal
  import opened Requests
  import opened Pipelines
  import opened TurnLaws
  import opened Rotation
  import opened Soundness
  import opened Rest
  import opened Idle
  import opened Settlement
  import opened Waiting

  /** A turn that is being played on time has its timer running, or a window open. */
  ghost predicate Ticks(r: Rules, w: World) {
    || Halted(w) || IsConcluded(w.core) || !w.core.turn.phase.Acting? || r.turnTime.None?
    || w.core.view.table.current.None?
    || HasOpenFrames(w.core.view) || w.core.clock.handle.Some?
  }

  // ---------------------------------------------------------------------------
  // A frame is asked on as long as it stands
  // ---------------------------------------------------------------------------

  lemma {:induction false} FrameStaysOrOver(r: Rules, c: Core, log: seq<Move>, f: FrameId)
    requires Legal(r, c, log) && (HasFrame(c.view, f) || IsConcluded(c)) && forall i | 0 <= i < |log| :: Inner(log[i])
    ensures HasFrame(After(r, c, log).view, f) || IsConcluded(After(r, c, log))
  {
    hide HasFrame, Enabled, Apply;
    if log != [] {
      assert forall i | 0 <= i < |Before(log)| :: Before(log)[i] == log[i];
      FrameStaysOrOver(r, c, Before(log), f);
      var c1, m := After(r, c, Before(log)), Last(log);
      if IsConcluded(c1) {
        InnerNeverReopens(r, c1, m);
      } else if m.Conclude? {
        ConcludeConcludes(r, c1, m);
      } else {
        FramesStay(r, c1, m);
      }
    }
  }

  lemma ConcludeConcludes(r: Rules, c: Core, m: Move)
    requires Enabled(r, c, m) && m.Conclude?
    ensures IsConcluded(Apply(r, c, m))
  {
  }

  lemma FrameStands(r: Rules, w: World, w': World, f: FrameId)
    requires Follows(r, w, w') && HasFrame(w.core.view, f)
    ensures HasFrame(w'.core.view, f) || IsConcluded(w'.core)
  {
    var log := w'.log[|w.log|..];
    assert forall i | 0 <= i < |log| :: log[i] == w'.log[|w.log| + i];
    FrameStaysOrOver(r, w.core, log, f);
  }

  lemma OpenTicks(r: Rules, w: World)
    requires OpenOrOver(w.core)
    ensures Ticks(r, w)
  {
  }

  lemma AddedIsOpen(r: Rules, w: World, f: FrameId, a: Asking)
    requires Enabled(r, w.core, AddWindow(f, WindowOf(a)))
    ensures OpenOrOver(Do(r, w, AddWindow(f, WindowOf(a))).core)
  {
    var v, v' := w.core.view, Do(r, w, AddWindow(f, WindowOf(a))).core.view;
    var i :| 0 <= i < |v.frames| && v.frames[i].id == f;
    assert WindowOf(a) in v'.frames[i].windows && v'.frames[i] in v'.frames;
  }

  /** Once the first of the frame's windows is up, it is up when the asking is done. */
  lemma AskingTicks(r: Rules, w: World, f: FrameId, asking: Asking, more: seq<Asking>)
    requires HasFrame(w.core.view, f) || IsConcluded(w.core)
    ensures Ticks(r, AskAll(r, w, f, [asking] + more))
  {
    hide Announce, AnnounceAll, Valid, Apply, HasFrame, Ticks, OpenOrOver;
    assert ([asking] + more)[1..] == more;
    if Halted(w) || !HasFrame(w.core.view, f) {
      OverTicks(r, w);
      assert AskAll(r, w, f, [asking] + more) == w;
    } else {
      var w1 := AnnounceAll(r, Announce(r, w, asking.opening), asking.standing);
      NothingFollows(r, w);
      AnnounceLegal(r, InnerOf(w), w, asking.opening);
      AnnounceAllLegal(r, InnerOf(w), Announce(r, w, asking.opening), asking.standing);
      InnerFollows(r, w, w1);
      FrameStands(r, w, w1, f);
      if Halted(w1) || !HasFrame(w1.core.view, f) {
        OverTicks(r, w1);
      } else {
        MoreAskedTicks(r, w1, f, asking, more);
      }
    }
  }

  lemma MoreAskedTicks(r: Rules, w: World, f: FrameId, asking: Asking, more: seq<Asking>)
    requires HasFrame(w.core.view, f) && !Machine.Running(w.core.clock)
    ensures Ticks(r, AskAll(r, Do(r, w, AddWindow(f, WindowOf(asking))), f, more))
  {
    hide AskAll, Valid, HasFrame, Ticks, OpenOrOver;
    AddedIsOpen(r, w, f, asking);
    var w1 := Do(r, w, AddWindow(f, WindowOf(asking)));
    NothingFollows(r, w1);
    AskAllLegal(r, InnerOf(w1), w1, f, more);
    InnerFollows(r, w1, AskAll(r, w1, f, more));
    StaysOpen(r, w1, AskAll(r, w1, f, more));
    OpenTicks(r, AskAll(r, w1, f, more));
  }

  lemma OverTicks(r: Rules, w: World)
    requires Halted(w) || IsConcluded(w.core)
    ensures Ticks(r, w)
  {
  }

  lemma OpenAndAskTicks(r: Rules, w: World, cards: Cards, plays: seq<Play>, asking: Asking, more: seq<Asking>)
    ensures Ticks(r, OpenAndAsk(r, w, cards, plays, [asking] + more))
  {
    hide PlayAll, AskAll, Valid, Ticks;
    var f, w1 := w.core.nextFrame, Do(r, Do(r, w, Edit(cards)), Open);
    assert w1.core.view.frames[|w.core.view.frames|].id == f;
    assert HasFrame(w1.core.view, f);
    hide HasFrame;
    NothingFollows(r, w1);
    PlayAllLegal(r, InnerOf(w1), w1, plays);
    InnerFollows(r, w1, PlayAll(r, w1, plays));
    FrameStands(r, w1, PlayAll(r, w1, plays), f);
    AskingTicks(r, PlayAll(r, w1, plays), f, asking, more);
  }

  // ---------------------------------------------------------------------------
  // Nothing but an opening stops it
  // ---------------------------------------------------------------------------

  lemma {:induction false} AnnounceTicks(r: Rules, w: World, e: Event)
    requires Ticks(r, w) && !e.kind.WindowOpened? && (Reserved(e.kind) ==> w.core.mode.Resting?)
    ensures Ticks(r, Announce(r, w, e))
    decreases w.gas, 1, Effects(r, w), 2
  {
    hide HearTask, HearClock, ConcludeIfDue, Ticks;
    if !Halted(w) {
      var w0 := Do(r, w, Hear(e));
      HeardTicks(r, w, e);
      HearClockTicks(r, w0, e);
      HearTaskTicks(r, HearClock(r, w0, e), e);
      ConcludeTicks(r, HearTask(r, HearClock(r, w0, e), e));
    }
  }

  lemma HeardTicks(r: Rules, w: World, e: Event)
    requires Ticks(r, w)
    ensures Ticks(r, Do(r, w, Hear(e)))
  {
  }

  lemma HearClockTicks(r: Rules, w: World, e: Event)
    requires Ticks(r, w) && !e.kind.WindowOpened? && (e.kind.FrameResolved? ==> w.core.mode.Resting?)
    ensures Ticks(r, HearClock(r, w, e))
  {
    hide HasOpenFrames;
  }

  lemma ConcludeTicks(r: Rules, w: World)
    requires Ticks(r, w)
    ensures Ticks(r, ConcludeIfDue(r, w))
  {
    hide Winner, HasPendingOutcome, HasOpenFrames;
  }

  lemma {:induction false} AnnounceAllTicks(r: Rules, w: World, events: seq<StepEvent>)
    requires Ticks(r, w)
    ensures Ticks(r, AnnounceAll(r, w, events))
    decreases w.gas, 1, Effects(r, w), 3, |events|
  {
    hide Ticks;
    if events != [] {
      AnnounceTicks(r, w, events[0]);
      AnnounceAllTicks(r, Announce(r, w, events[0]), events[1..]);
    }
  }

  lemma {:induction false} HearTaskTicks(r: Rules, w: World, e: Event)
    requires Ticks(r, w) && (Reserved(e.kind) ==> w.core.mode.Resting?)
    ensures Ticks(r, HearTask(r, w, e))
    decreases w.gas, 1, Effects(r, w), 1
  {
    if !IsConcluded(w.core) {
      ExpireTicks(r, w, e);
      var w1 := Expire(r, w, e);
      hide Expire, Drain, Started, HasOpenFrames;
      if !Halted(w1) {
        var w2 := StartMatching(r, WakeFor(r, w1, e), e);
        if w2.core.mode.Resting? { DrainTicks(r, w2); }
      }
    }
  }

  lemma {:induction false} DrainTicks(r: Rules, w: World)
    requires Ticks(r, w) && w.core.mode.Resting?
    ensures Ticks(r, Drain(r, w))
    decreases w.gas, 1, Effects(r, w), 0, 1
  {
    hide Loop, HasOpenFrames;
    LoopTicks(r, Do(r, w, StartLoop));
  }

  lemma {:induction false} ExpireTicks(r: Rules, w: World, e: Event)
    requires Ticks(r, w)
    ensures Ticks(r, Expire(r, w, e))
    decreases w.gas, 1, Effects(r, w), 0
  {
    SweepShrinks(r, w.core.view, r.players, r.players, e);
    var swept := Sweep(r, w.core.view, r.players, e);
    EditTicks(r, w, swept.cards);
    hide Ticks;
    if swept.expired != [] { AnnounceAllTicks(r, Do(r, w, Edit(swept.cards)), ExpiredAll(swept.expired)); }
  }

  lemma EditTicks(r: Rules, w: World, cards: Cards)
    requires Ticks(r, w)
    ensures Ticks(r, Do(r, w, Edit(cards)))
  {
  }

  lemma {:induction false} LoopTicks(r: Rules, w: World)
    requires Ticks(r, w) && w.core.mode.Looping?
    ensures Ticks(r, Loop(r, w))
    decreases w.gas, 1, Effects(r, w), 0, 0
  {
    hide Iterate, HasOpenFrames;
    if !Halted(w) && Ready(w.core.stack) && w.gas != 0 {
      IterateTicks(r, w);
      if !Iterate(r, w).stop { LoopTicks(r, Iterate(r, w).world); }
    }
  }

  lemma {:induction false} IterateTicks(r: Rules, w: World)
    requires Ticks(r, w) && w.core.mode.Looping? && Ready(w.core.stack) && w.gas > 0
    ensures Ticks(r, Iterate(r, w).world)
    decreases w.gas, 0
  {
    hide HasOpenFrames, Announce, Execute, IsLastOfCard, FinishedIn;
    var top, spent := Top(w.core.stack), w.(gas := w.gas - 1);
    if top.steps == [] {
      var m := Pop(top.id, IsLastOfCard(w.core.stack[..|w.core.stack| - 1], top));
      if m.done { AnnounceTicks(r, Do(r, spent, m), DoneEvent(top)); }
    } else {
      ExecuteTicks(r, Do(r, spent, Begin(top.id)), top.steps[0], 0, top.ctx, None);
    }
  }

  lemma {:induction false} ExecuteTicks(r: Rules, w: World, s: Script, i: nat, ctx: Ctx, asked: Option<FrameId>)
    requires Ticks(r, w)
    ensures Ticks(r, Execute(r, w, s, i, ctx, asked).world)
    decreases w.gas, 3, s.length - i
  {
    hide Perform, Ticks;
    if !Halted(w) && i < s.length {
      var a := s.act(i, ctx, asked, w.core.view);
      if a.Return? {
        EditTicks(r, w, a.cards);
      } else {
        PerformTicks(r, w, a);
        ExecuteTicks(r, Perform(r, w, a), s, i + 1, a.ctx, if a.Ask? then Some(w.core.nextFrame) else asked);
      }
    }
  }

  lemma {:induction false} PerformTicks(r: Rules, w: World, a: Act)
    requires Ticks(r, w) && !a.Return?
    ensures Ticks(r, Perform(r, w, a))
    decreases w.gas, 3, 0, 1
  {
    hide Ticks, Announce, OpenAndAsk;
    match a
    case Emit(cards, _, e) =>
      EditTicks(r, w, cards);
      AnnounceTicks(r, Do(r, w, Edit(cards)), e);
    case Ask(cards, _, plays, asking, more) => OpenAndAskTicks(r, w, cards, plays, asking, more);
  }

  // ---------------------------------------------------------------------------
  // Turns
  // ---------------------------------------------------------------------------

  /** Read again, the clock is right, whatever it was. */
  lemma SyncTicks(r: Rules, w: World)
    requires w.core.mode.Resting? && HasClock(r, w.core)
    ensures Ticks(r, SyncClock(r, w))
  {
    hide HasOpenFrames;
  }

  lemma InnerMoveKeepsClock(r: Rules, c: Core, m: Move)
    requires Enabled(r, c, m) && Inner(m) && HasClock(r, c)
    ensures HasClock(r, Apply(r, c, m))
  {
  }

  lemma {:induction false} InnerLogKeepsClock(r: Rules, c: Core, log: seq<Move>)
    requires Legal(r, c, log) && HasClock(r, c) && forall i | 0 <= i < |log| :: Inner(log[i])
    ensures HasClock(r, After(r, c, log))
  {
    hide HasClock, Enabled, Apply;
    if log != [] {
      assert forall i | 0 <= i < |Before(log)| :: Before(log)[i] == log[i];
      InnerLogKeepsClock(r, c, Before(log));
      InnerMoveKeepsClock(r, After(r, c, Before(log)), Last(log));
    }
  }

  lemma InnerKeepsClock(r: Rules, w: World, w': World)
    requires Follows(r, w, w') && HasClock(r, w.core)
    ensures HasClock(r, w'.core)
  {
    hide HasClock;
    var log := w'.log[|w.log|..];
    assert forall i | 0 <= i < |log| :: log[i] == w'.log[|w.log| + i];
    InnerLogKeepsClock(r, w.core, log);
  }

  lemma AnnouncedHasClock(r: Rules, w: World, e: Event)
    requires HasClock(r, w.core) && (Reserved(e.kind) ==> w.core.mode.Resting?)
    ensures HasClock(r, Announce(r, w, e).core)
  {
    hide Announce, HasClock, Follows;
    AnnounceFollows(r, w, e);
    InnerKeepsClock(r, w, Announce(r, w, e));
  }

  lemma StartTurnTicks(r: Rules, w: World, player: Id)
    requires w.core.mode.Resting? && IsDue(w.core.turn, player) && (IsConcluded(w.core) ==> w.core.turn.phase.Opening?)
    ensures Ticks(r, StartTurnFor(r, w, player))
  {
    hide Announce, SyncClock, Refreshed, HasOpenFrames, Machine.StopClock;
    if !Halted(w) && player in r.players {
      var w1 := Turned(r, w, player);
      var e := Plain(TurnStarted, player, None);
      assert HasClock(r, w1.core);
      AnnouncedHasClock(r, w1, e);
      SyncTicks(r, Announce(r, w1, e));
    }
  }

  lemma FinishTurnTicks(r: Rules, w: World)
    requires Enabled(r, w.core, EndTurn)
    ensures Ticks(r, FinishTurn(r, w))
  {
    hide Announce, StartTurnFor, HasOpenFrames;
    var w1 := Announce(r, Do(r, w, EndTurn), Plain(TurnEnded, w.core.view.table.current.value, None));
    if !IsConcluded(w1.core) && w1.core.turn.order != [] {
      StartTurnTicks(r, w1, NextSeat(w1.core.turn.order, w1.core.turn.ended));
    }
  }

  lemma {:induction false} DrainQueueTicks(r: Rules, w: World)
    requires w.core.mode.Resting? && Ticks(r, w)
    ensures Ticks(r, DrainQueue(r, w))
    decreases |w.core.turn.queue|
  {
    hide Execute, FinishTurn, IsBusy, CanExecute, Paid, HasOpenFrames;
    var c := w.core;
    if !Halted(w) && c.view.table.current.Some? && !IsBusy(c) {
      if c.turn.queue == [] {
        if Enabled(r, c, EndTurn) { FinishTurnTicks(r, w); }
      } else {
        var run := CanExecute(c.view, c.turn.queue[0]);
        TakeTicks(r, w, run);
        hide Ticks;
        var w1 := Do(r, w, Take(run));
        if run {
          ExecuteTicks(r, w1, c.turn.queue[0].script, 0, map[], None);
          DrainQueueTicks(r, Execute(r, w1, c.turn.queue[0].script, 0, map[], None).world);
        } else {
          DrainQueueTicks(r, w1);
        }
      }
    }
  }

  lemma TakeTicks(r: Rules, w: World, run: bool)
    requires Enabled(r, w.core, Take(run)) && Ticks(r, w)
    ensures Ticks(r, Do(r, w, Take(run)))
  {
  }

  // ---------------------------------------------------------------------------
  // Settlements
  // ---------------------------------------------------------------------------

  lemma ResolvedTicks(r: Rules, w: World, f: FrameId, slots: seq<Slot>, card: Option<Id>)
    requires w.core.mode.Resting? && HasClock(r, w.core)
    ensures Ticks(r, AnnounceResolved(r, w, f, slots, card))
  {
    hide HearTask, ConcludeIfDue, DrainQueue, SyncClock, Ticks, HasClock;
    var e := Resolved(f, slots, card);
    var w1 := Announce(r, w, e);
    if Halted(w) {
      OverTicks(r, w);
    } else {
      var w0 := Do(r, w, Hear(e));
      StillHasClock(r, w, e);
      SyncTicks(r, w0);
      assert HearClock(r, w0, e) == SyncClock(r, w0);
      HearTaskTicks(r, SyncClock(r, w0), e);
      ConcludeTicks(r, HearTask(r, SyncClock(r, w0), e));
      assert w1 == Listen(r, w0, e);
    }
    if !Halted(w1) && !IsConcluded(w1.core) { DrainQueueTicks(r, w1); }
  }

  lemma StillHasClock(r: Rules, w: World, e: Event)
    requires HasClock(r, w.core)
    ensures HasClock(r, Do(r, w, Hear(e)).core)
  {
  }

  lemma {:induction false} LogKeepsClock(r: Rules, c: Core, log: seq<Move>)
    requires Legal(r, c, log) && Sound(c) && HasClock(r, c)
    ensures HasClock(r, After(r, c, log))
  {
    hide HasClock, Enabled, Apply;
    if log != [] {
      LogKeepsClock(r, c, Before(log));
      LogKeepsSound(r, c, Before(log));
      HasClockOneMove(r, After(r, c, Before(log)), Last(log));
    }
  }

  lemma SinceHasClock(r: Rules, w: World, w': World)
    requires Sound(w.core) && HasClock(r, w.core) && Valid(r, Since(w), w')
    ensures HasClock(r, w'.core)
  {
    hide HasClock, Sound;
    LogKeepsClock(r, w.core, w'.log[|w.log|..]);
  }

  lemma OutcomeTicks(r: Rules, w: World, f: FrameId, index: nat, win: Window, v: Verdict)
    requires w.core.mode.Resting? && Sound(w.core) && HasClock(r, w.core)
    requires IsUp(w.core.view, f, index) && !win.kind.Choice? && Answers(win.kind, v)
    ensures Ticks(r, SettleOutcome(r, w, f, index, win, v))
  {
    hide Announce, AnnounceResolved, SettleModifier, SettleAttack, SettleChallenge, Ticks, HasClock, Sound, Valid, WithClosed;
    var o, e := Since(w), Plain(WindowClosed, win.respondent, SubjectCard(win));
    var w1 := Announce(r, Do(r, w, CloseWindow(f, index, [])), e);
    SinceItself(r, w);
    DoKeepsValid(r, o, w, CloseWindow(f, index, []));
    AnnounceLegal(r, o, Do(r, w, CloseWindow(f, index, [])), e);
    match (win.kind, v)
    case (Modifier(_, _), Rolled(roll, seed)) =>
      SettleModifierLegal(r, o, w1, f, win, roll, seed);
      SinceHasClock(r, w, SettleModifier(r, w1, f, win, roll, seed));
      ResolvedTicks(r, SettleModifier(r, w1, f, win, roll, seed), f, [Slot(CTX_FINAL_ROLL, Number(roll))], None);
    case (Attack(_), Rolled(roll, _)) =>
      SettleAttackLegal(r, o, w1, f, win, roll);
      SinceHasClock(r, w, SettleAttack(r, w1, f, win, roll));
      ResolvedTicks(r, SettleAttack(r, w1, f, win, roll), f, [Slot(CTX_FINAL_ROLL, Number(roll))], None);
    case (Challenge(card), Contest(held, defended)) =>
      SettleChallengeLegal(r, o, w1, f, win, held, defended);
      SinceHasClock(r, w, SettleChallenge(r, w1, f, win, held, defended));
      ResolvedTicks(r, SettleChallenge(r, w1, f, win, held, defended), f, [], Some(card));
    case _ =>
  }

  lemma ChoiceTicks(
    r: Rules, w: World, f: FrameId, index: nat, win: Window, slots: seq<Slot>, outcome: seq<StepEvent>)
    requires w.core.mode.Resting? && Sound(w.core) && HasClock(r, w.core) && IsUp(w.core.view, f, index)
    ensures Ticks(r, SettleChoice(r, w, f, index, win, slots, outcome))
  {
    hide Announce, AnnounceAll, AnnounceResolved, Ticks, HasClock, Sound, Valid, IsAsking, WithClosed, HasFrame, PutAway, SpentInto;
    FramesStayClosed(r, w, f, index, slots);
    var o, e := Since(w), Plain(WindowClosed, win.respondent, None);
    var w1 := Do(r, w, CloseWindow(f, index, slots));
    if IsAsking(FrameOf(w1.core.view.frames, f)) {
      AskingStaysOpen(r, w1, f, e, outcome);
      OpenTicks(r, AnnounceAll(r, Announce(r, w1, e), outcome));
    } else {
      SinceItself(r, w);
      DoKeepsValid(r, o, w, CloseWindow(f, index, slots));
      ReleasedChoice(r, o, w1, f, e, outcome);
      var w3 := AnnounceAll(r, Announce(r, Do(r, w1, Release(f)), e), outcome);
      SinceHasClock(r, w, w3);
      ResolvedTicks(r, w3, f, AnswersOf(FrameOf(w1.core.view.frames, f).windows), None);
    }
  }

  lemma ReleasedChoice(r: Rules, o: Origin, w: World, f: FrameId, e: StepEvent, outcome: seq<StepEvent>)
    requires Valid(r, o, w) && o.span.AnyMoves? && w.core.mode.Resting? && HasFrame(w.core.view, f)
    ensures Valid(r, o, AnnounceAll(r, Announce(r, Do(r, w, Release(f)), e), outcome))
    ensures AnnounceAll(r, Announce(r, Do(r, w, Release(f)), e), outcome).core.mode.Resting?
  {
    hide Announce, AnnounceAll, Valid, HasFrame, PutAway, SpentInto;
    DoKeepsValid(r, o, w, Release(f));
    AnnounceLegal(r, o, Do(r, w, Release(f)), e);
    AnnounceAllLegal(r, o, Announce(r, Do(r, w, Release(f)), e), outcome);
  }

  lemma WindowTicks(r: Rules, w: World, f: FrameId, index: nat, v: Verdict)
    requires w.core.mode.Resting? && Sound(w.core) && HasClock(r, w.core) && Ticks(r, w)
    ensures Ticks(r, SettleWindow(r, w, f, index, v))
  {
    hide Ticks, SettleOutcome, SettleChoice, Sound, HasClock;
    if HasFrame(w.core.view, f) {
      var windows := FrameOf(w.core.view.frames, f).windows;
      if index < |windows| && windows[index].open && Answers(windows[index].kind, v) {
        if windows[index].kind.Choice? {
          ChoiceTicks(r, w, f, index, windows[index], v.slots, v.outcome);
        } else {
          OutcomeTicks(r, w, f, index, windows[index], v);
        }
      }
    }
  }

  // ---------------------------------------------------------------------------
  // Every run
  // ---------------------------------------------------------------------------

  /** A timer that fires ends its turn, so no turn goes on without one. */
  lemma LapseTicks(r: Rules, w: World, timer: nat)
    requires Enabled(r, w.core, Fire(timer)) && AtRest(w) && HasReason(w) && !Halted(w)
    ensures Ticks(r, Lapse(r, w, timer))
  {
    hide DrainQueue, FinishTurn;
    var w1 := Do(r, w, Fire(timer));
    if !IsConcluded(w.core) && w.core.view.table.current.Some? && !IsBusy(w.core) {
      var player := w.core.view.table.current.value;
      var w2 := Do(r, w1, Edit(WithPoints(w1.core.view.table.cards, player, 0)));
      SpentBudget(r, w2);
      FinishTurnTicks(r, w2);
    }
  }

  lemma SpentBudget(r: Rules, w: World)
    requires w.core.mode.Resting? && !Halted(w) && w.core.turn.queue == [] && !IsBusy(w.core)
    requires w.core.view.table.current.Some? && PointsOf(w.core.view.table.cards, w.core.view.table.current.value) == 0
    ensures Enabled(r, w.core, EndTurn) && DrainQueue(r, w) == FinishTurn(r, w)
  {
    hide FinishTurn, IsBusy;
  }

  lemma StartTicks(r: Rules, w: World, order: seq<Id>)
    requires w.core.mode.Resting? && Ticks(r, w)
    ensures Ticks(r, StartGame(r, w, order))
  {
    hide Announce, StartTurnFor, HasOpenFrames;
    if !Halted(w) && Enabled(r, w.core, BeginGame(order)) {
      var w1 := Announce(r, Do(r, w, BeginGame(order)), Plain(GameStarted, "", None));
      if order != [] { StartTurnTicks(r, w1, order[0]); }
    }
  }

  lemma StepTicks(r: Rules, w: World, i: Input)
    requires AtRest(w) && HasReason(w) && HasClock(r, w.core) && Ticks(r, w)
    ensures Ticks(r, Step(r, w, i))
  {
    hide StartGame, SettleWindow, Lapse, Execute, DrainQueue, HasReason, HasClock, Sound;
    if !Halted(w) {
      match i
      case Start(order) => StartTicks(r, w, order);
      case Request(a) => if ReplyTo(w, a).Accepted? { DrainQueueTicks(r, Do(r, w, Accept(a))); }
      case React(s) => ExecuteTicks(r, w, s, 0, map[], None);
      case Settle(f, index, v) => WindowTicks(r, w, f, index, v);
      case TimerFires(t) => if Enabled(r, w.core, Fire(t)) { LapseTicks(r, w, t); }
      case Wait(ms) =>
    }
  }

  lemma RunHasClock(r: Rules, w: World, inputs: seq<Input>)
    requires Dealt(w)
    ensures HasClock(r, Run(r, w, inputs).core)
  {
    hide Run, HasClock;
    var o := Origin(w.core, [], AnyMoves, None);
    assert Valid(r, o, w);
    RunIsLegal(r, o, w, inputs);
    var log := Run(r, w, inputs).log;
    assert log[0..] == log;
    ClockConservesTime(r, w.core, log);
  }

  lemma {:induction false} RunTicks(r: Rules, w: World, inputs: seq<Input>)
    requires Dealt(w)
    ensures Ticks(r, Run(r, w, inputs))
  {
    hide Step, HasReason, HasClock, AtRest;
    if inputs != [] {
      var pre := inputs[..|inputs| - 1];
      RunTicks(r, w, pre);
      TheClockNeverLapsesOnABusyBoard(r, w, pre);
      NobodyWaitsOnAnIdleBoard(r, w, pre);
      RunHasClock(r, w, pre);
      hide Ticks;
      StepTicks(r, Run(r, w, pre), inputs[|inputs| - 1]);
    }
  }

  /**
   * Over every run, between two entries of a timed turn of somebody's in a game
   * still played: what the turn has left is known, and the turn's timer is live
   * if and only if no window is open.
   */
  lemma ClockRunsIffNoWindowIsOpen(r: Rules, w: World, inputs: seq<Input>)
    requires Dealt(w)
    requires var w' := Run(r, w, inputs);
      && !Halted(w') && !IsConcluded(w'.core) && w'.core.turn.phase.Acting? && r.turnTime.Some?
      && w'.core.view.table.current.Some?
    ensures var c := Run(r, w, inputs).core;
      && c.clock.remaining.Some?
      && (c.clock.handle.Some? <==> !HasOpenFrames(c.view))
      && c.clock.timers == if c.clock.handle.Some? then
           map[c.clock.handle.value := Timer(c.turn.number, Deadline(c.clock))] else map[]
  {
    hide Run, HasOpenFrames;
    RunTicks(r, w, inputs);
    RunHasClock(r, w, inputs);
    TheClockNeverLapsesOnABusyBoard(r, w, inputs);
    var c := Run(r, w, inputs).core;
    assert ClockHeld(c) && OneTimer(c);
  }
}
