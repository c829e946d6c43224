/** No accepted action is kept waiting by an idle board: whatever the last entry did, the queue was run as far as it goes. */
module Waiting {
  import opened Board
  import opened Machine
  import opened Engine
  import opened EngineLegal
  import opened Requests
  import opened Pipelines
  import opened TurnLaws
  import opened Settlement

  /** Who is still waiting has a reason to: a busy board, the end of the game, or nobody to play. */
  ghost predicate HasReason(w: World) {
    Halted(w) || w.core.turn.queue == [] || IsBusy(w.core) || IsConcluded(w.core) || w.core.view.table.current.None?
  }

  // ---------------------------------------------------------------------------
  // Running the queue
  // ---------------------------------------------------------------------------

  lemma StartTurnKeepsQueue(r: Rules, w: World, player: Id)
    requires w.core.mode.Resting? && IsDue(w.core.turn, player) && (IsConcluded(w.core) ==> w.core.turn.phase.Opening?)
    ensures StartTurnFor(r, w, player).core.turn.queue == w.core.turn.queue
  {
    hide Announce, IsDue, Refreshed;
  }

  lemma FinishTurnKeepsQueue(r: Rules, w: World)
    requires Enabled(r, w.core, EndTurn)
    ensures FinishTurn(r, w).core.turn.queue == []
  {
    hide Announce, StartTurnFor;
    var w1 := Announce(r, Do(r, w, EndTurn), Plain(TurnEnded, w.core.view.table.current.value, None));
    if !IsConcluded(w1.core) && w1.core.turn.order != [] {
      StartTurnKeepsQueue(r, w1, NextSeat(w1.core.turn.order, w1.core.turn.ended));
    }
  }

  lemma {:induction false} QueueRunsOut(r: Rules, w: World)
    requires w.core.mode.Resting?
    ensures HasReason(DrainQueue(r, w))
    decreases |w.core.turn.queue|
  {
    hide Execute, FinishTurn, IsBusy, CanExecute, Paid;
    var c := w.core;
    if !Halted(w) && c.view.table.current.Some? && !IsBusy(c) {
      if c.turn.queue == [] {
        if Enabled(r, c, EndTurn) { FinishTurnKeepsQueue(r, w); }
      } else {
        var run := CanExecute(c.view, c.turn.queue[0]);
        var w1 := Do(r, w, Take(run));
        if run {
          QueueRunsOut(r, Execute(r, w1, c.turn.queue[0].script, 0, map[], None).world);
        } else {
          QueueRunsOut(r, w1);
        }
      }
    }
  }

  // ---------------------------------------------------------------------------
  // Windows stay open while nothing settles
  // ---------------------------------------------------------------------------

  ghost predicate OpenOrOver(c: Core) {
    HasOpenFrames(c.view) || IsConcluded(c)
  }

  lemma InnerMoveKeepsOpen(r: Rules, c: Core, m: Move)
    requires Enabled(r, c, m) && Inner(m) && OpenOrOver(c) && (IsConcluded(c) ==> IsConcluded(Apply(r, c, m)))
    ensures OpenOrOver(Apply(r, c, m))
  {
    var c' := Apply(r, c, m);
    if !IsConcluded(c) && !m.Conclude? {
      var i, j :| 0 <= i < |c.view.frames| && 0 <= j < |c.view.frames[i].windows| && c.view.frames[i].windows[j].open;
      assert c'.view.frames[i].windows[j] in c'.view.frames[i].windows && c'.view.frames[i] in c'.view.frames;
    }
  }

  lemma InnerNeverReopens(r: Rules, c: Core, m: Move)
    requires Enabled(r, c, m) && Inner(m) && IsConcluded(c)
    ensures IsConcluded(Apply(r, c, m))
  {
  }

  lemma {:induction false} InnerLogKeepsOpen(r: Rules, c: Core, log: seq<Move>)
    requires Legal(r, c, log) && OpenOrOver(c) && forall i | 0 <= i < |log| :: Inner(log[i])
    ensures OpenOrOver(After(r, c, log))
  {
    hide OpenOrOver, Enabled, Apply;
    if log != [] {
      assert forall i | 0 <= i < |Before(log)| :: Before(log)[i] == log[i];
      InnerLogKeepsOpen(r, c, Before(log));
      var c1 := After(r, c, Before(log));
      if IsConcluded(c1) { InnerNeverReopens(r, c1, Last(log)); }
      InnerMoveKeepsOpen(r, c1, Last(log));
    }
  }

  lemma StaysOpen(r: Rules, w: World, w': World)
    requires Follows(r, w, w') && OpenOrOver(w.core)
    ensures OpenOrOver(w'.core)
  {
    var log := w'.log[|w.log|..];
    assert forall i | 0 <= i < |log| :: log[i] == w'.log[|w.log| + i];
    InnerLogKeepsOpen(r, w.core, log);
  }

  lemma OpenIsReason(w: World)
    requires OpenOrOver(w.core)
    ensures HasReason(w)
  {
  }

  lemma ReactionKeepsReason(r: Rules, w: World, s: Script)
    requires HasOpenFrames(w.core.view)
    ensures HasReason(Execute(r, w, s, 0, map[], None).world)
  {
    hide Execute, Valid;
    NothingFollows(r, w);
    ExecuteLegal(r, InnerOf(w), w, s, 0, map[], None);
    InnerFollows(r, w, Execute(r, w, s, 0, map[], None).world);
    StaysOpen(r, w, Execute(r, w, s, 0, map[], None).world);
    OpenIsReason(Execute(r, w, s, 0, map[], None).world);
  }

  // ---------------------------------------------------------------------------
  // Settlements
  // ---------------------------------------------------------------------------

  lemma ResolvedHasReason(r: Rules, w: World, f: FrameId, slots: seq<Slot>, card: Option<Id>)
    requires w.core.mode.Resting?
    ensures HasReason(AnnounceResolved(r, w, f, slots, card))
  {
    hide Announce, DrainQueue, IsBusy;
    QueueRunsOut(r, Announce(r, w, Resolved(f, slots, card)));
  }

  lemma OutcomeHasReason(r: Rules, w: World, f: FrameId, index: nat, win: Window, v: Verdict)
    requires w.core.mode.Resting? && IsUp(w.core.view, f, index) && !win.kind.Choice? && Answers(win.kind, v)
    ensures HasReason(SettleOutcome(r, w, f, index, win, v))
  {
    hide Announce, AnnounceResolved, SettleModifier, SettleAttack, SettleChallenge, HasReason, WithClosed;
    var w1 := Announce(r, Do(r, w, CloseWindow(f, index, [])), Plain(WindowClosed, win.respondent, SubjectCard(win)));
    match (win.kind, v)
    case (Modifier(_, _), Rolled(roll, seed)) =>
      ResolvedHasReason(r, SettleModifier(r, w1, f, win, roll, seed), f, [Slot(CTX_FINAL_ROLL, Number(roll))], None);
    case (Attack(_), Rolled(roll, _)) =>
      ResolvedHasReason(r, SettleAttack(r, w1, f, win, roll), f, [Slot(CTX_FINAL_ROLL, Number(roll))], None);
    case (Challenge(card), Contest(held, defended)) =>
      ResolvedHasReason(r, SettleChallenge(r, w1, f, win, held, defended), f, [], Some(card));
    case _ =>
  }

  lemma StillAsking(v: View, f: FrameId)
    requires HasFrame(v, f) && IsAsking(FrameOf(v.frames, f))
    ensures HasOpenFrames(v)
  {
    assert FrameOf(v.frames, f) in v.frames;
  }

  /** One question of several is answered: another window stays open, whatever its close sets off. */
  lemma AskingStaysOpen(r: Rules, w: World, f: FrameId, e: StepEvent, outcome: seq<StepEvent>)
    requires HasFrame(w.core.view, f) && IsAsking(FrameOf(w.core.view.frames, f))
    ensures OpenOrOver(AnnounceAll(r, Announce(r, w, e), outcome).core)
  {
    hide Announce, AnnounceAll, Valid, IsAsking, HasOpenFrames;
    StillAsking(w.core.view, f);
    NothingFollows(r, w);
    AnnounceLegal(r, InnerOf(w), w, e);
    AnnounceAllLegal(r, InnerOf(w), Announce(r, w, e), outcome);
    InnerFollows(r, w, AnnounceAll(r, Announce(r, w, e), outcome));
    StaysOpen(r, w, AnnounceAll(r, Announce(r, w, e), outcome));
  }

  lemma ChoiceHasReason(
    r: Rules, w: World, f: FrameId, index: nat, win: Window, slots: seq<Slot>, outcome: seq<StepEvent>)
    requires w.core.mode.Resting? && IsUp(w.core.view, f, index)
    ensures HasReason(SettleChoice(r, w, f, index, win, slots, outcome))
  {
    hide Announce, AnnounceAll, AnnounceResolved, HasReason, IsAsking, WithClosed, HasFrame, PutAway, SpentInto;
    FramesStayClosed(r, w, f, index, slots);
    var w1, e := Do(r, w, CloseWindow(f, index, slots)), Plain(WindowClosed, win.respondent, None);
    if IsAsking(FrameOf(w1.core.view.frames, f)) {
      AskingStaysOpen(r, w1, f, e, outcome);
      OpenIsReason(AnnounceAll(r, Announce(r, w1, e), outcome));
    } else {
      var w2 := Do(r, w1, Release(f));
      ResolvedHasReason(r, AnnounceAll(r, Announce(r, w2, e), outcome), f,
        AnswersOf(FrameOf(w1.core.view.frames, f).windows), None);
    }
  }

  lemma WindowHasReason(r: Rules, w: World, f: FrameId, index: nat, v: Verdict)
    requires w.core.mode.Resting? && HasReason(w)
    ensures HasReason(SettleWindow(r, w, f, index, v))
  {
    hide HasReason, SettleOutcome, SettleChoice;
    if HasFrame(w.core.view, f) {
      var windows := FrameOf(w.core.view.frames, f).windows;
      if index < |windows| && windows[index].open && Answers(windows[index].kind, v) {
        if windows[index].kind.Choice? {
          ChoiceHasReason(r, w, f, index, windows[index], v.slots, v.outcome);
        } else {
          OutcomeHasReason(r, w, f, index, windows[index], v);
        }
      }
    }
  }

  // ---------------------------------------------------------------------------
  // Every run
  // ---------------------------------------------------------------------------

  lemma LapseHasReason(r: Rules, w: World, timer: nat)
    requires Enabled(r, w.core, Fire(timer)) && HasReason(w)
    ensures HasReason(Lapse(r, w, timer))
  {
    hide DrainQueue, HasOpenFrames;
    var w1 := Do(r, w, Fire(timer));
    if w1.core.view.table.current.Some? {
      QueueRunsOut(r, Do(r, w1, Edit(WithPoints(w1.core.view.table.cards, w1.core.view.table.current.value, 0))));
    }
  }

  lemma StartHasReason(r: Rules, w: World, order: seq<Id>)
    requires w.core.mode.Resting? && HasReason(w) && QueueFits(w.core)
    ensures HasReason(StartGame(r, w, order))
  {
    hide Announce, StartTurnFor, IsBusy;
    if !Halted(w) && Enabled(r, w.core, BeginGame(order)) {
      var w1 := Announce(r, Do(r, w, BeginGame(order)), Plain(GameStarted, "", None));
      if order != [] { StartTurnKeepsQueue(r, w1, order[0]); }
    }
  }

  lemma StepHasReason(r: Rules, w: World, i: Input)
    requires w.core.mode.Resting? && HasReason(w) && QueueFits(w.core)
    ensures HasReason(Step(r, w, i))
  {
    hide StartGame, SettleWindow, Lapse, Execute, DrainQueue;
    if !Halted(w) {
      match i
      case Start(order) => StartHasReason(r, w, order);
      case Request(a) => if ReplyTo(w, a).Accepted? { QueueRunsOut(r, Do(r, w, Accept(a))); }
      case React(s) => if HasOpenFrames(w.core.view) { ReactionKeepsReason(r, w, s); }
      case Settle(f, index, v) => WindowHasReason(r, w, f, index, v);
      case TimerFires(t) => if Enabled(r, w.core, Fire(t)) { LapseHasReason(r, w, t); }
      case Wait(ms) =>
    }
  }

  lemma RunQueueFits(r: Rules, w: World, inputs: seq<Input>)
    requires Dealt(w)
    ensures QueueFits(Run(r, w, inputs).core)
  {
    hide Run;
    var o := Origin(w.core, [], AnyMoves, None);
    assert Valid(r, o, w);
    RunIsLegal(r, o, w, inputs);
    var log := Run(r, w, inputs).log;
    assert log[0..] == log;
    QueueServesInOrder(r, w.core, log);
  }

  /**
   * Over every run and with every rule table: once an entry of the event loop is
   * done, an accepted action is still waiting only if the board is busy or the
   * game over. (The queue also stands still when a rollback has brought back a
   * board of before the first turn, on which nobody is current.)
   */
  lemma {:induction false} NobodyWaitsOnAnIdleBoard(r: Rules, w: World, inputs: seq<Input>)
    requires Dealt(w)
    ensures HasReason(Run(r, w, inputs))
  {
    hide Step, HasReason, QueueFits;
    if inputs == [] {
      DealtHasReason(w);
    } else {
      var pre := inputs[..|inputs| - 1];
      NobodyWaitsOnAnIdleBoard(r, w, pre);
      RunQueueFits(r, w, pre);
      StepHasReason(r, Run(r, w, pre), inputs[|inputs| - 1]);
    }
  }

  lemma DealtHasReason(w: World)
    requires Dealt(w)
    ensures HasReason(w)
  {
  }
}
