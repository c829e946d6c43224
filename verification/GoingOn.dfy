/** The game does not stall between two turns: whatever an entry did, it is somebody's turn again when it is over. */
module GoingOn {
  import opened Board
  import opened Machine
  import opened Engine
  import opened EngineLegal
  import opened Requests
  import opened Pipelines
  import opened TurnLaws
  import opened Rotation
  import opened Soundness
  import opened Settlement
  import opened Cancellation
  import opened Endings

  /** Nobody takes turns who is not at the table. */
  predicate AtTheTable(r: Rules, inputs: seq<Input>) {
    forall i | 0 <= i < |inputs| && inputs[i].Start? ::
      inputs[i].order != [] && forall k | 0 <= k < |inputs[i].order| :: inputs[i].order[k] in r.players
  }

  /** Not between two turns, and whoever is next is there to play. */
  ghost predicate Turns(r: Rules, t: Turn) {
    t.order == [] || (!t.phase.Closing? && forall k | 0 <= k < |t.order| :: t.order[k] in r.players)
  }

  ghost predicate Goes(r: Rules, w: World) {
    Halted(w) || IsConcluded(w.core) || Turns(r, w.core.turn)
  }

  // ---------------------------------------------------------------------------
  // Running the queue
  // ---------------------------------------------------------------------------

  lemma FinishGoes(r: Rules, w: World)
    requires Enabled(r, w.core, EndTurn) && !Halted(w) && Turns(r, w.core.turn)
    ensures Goes(r, FinishTurn(r, w))
  {
    hide Announce, StartTurnFor, NextSeat;
    var w1 := Announce(r, Do(r, w, EndTurn), Plain(TurnEnded, w.core.view.table.current.value, None));
    if !Halted(w1) && !IsConcluded(w1.core) && w1.core.turn.order != [] {
      var player := NextSeat(w1.core.turn.order, w1.core.turn.ended);
      NextIsInOrder(w1.core.turn.order, w1.core.turn.ended);
      TurnOfAnnouncement(r, w1, player);
      StartKeepsOrder(r, w1, player);
    }
  }

  lemma NextIsInOrder(order: seq<Id>, player: Id)
    requires order != []
    ensures NextSeat(order, player) in order
  {
  }

  lemma StartKeepsOrder(r: Rules, w: World, player: Id)
    requires w.core.mode.Resting? && IsDue(w.core.turn, player) && (IsConcluded(w.core) ==> w.core.turn.phase.Opening?)
    ensures StartTurnFor(r, w, player).core.turn.order == w.core.turn.order
  {
    hide Announce, SyncClock, IsDue, Refreshed, Machine.StopClock;
    if !Halted(w) && player in r.players {
      var w1 := Announce(r, Turned(r, w, player), Plain(TurnStarted, player, None));
      if !Halted(w1) { SyncKeepsTurn(r, w1); }
    }
  }

  lemma SyncKeepsTurn(r: Rules, w: World)
    requires w.core.mode.Resting?
    ensures SyncClock(r, w).core.turn == w.core.turn
  {
  }

  lemma {:induction false} DrainGoes(r: Rules, w: World)
    requires w.core.mode.Resting? && Turns(r, w.core.turn)
    ensures Goes(r, DrainQueue(r, w))
    decreases |w.core.turn.queue|
  {
    hide Execute, FinishTurn, IsBusy, CanExecute, Paid;
    var c := w.core;
    if !Halted(w) && c.view.table.current.Some? && !IsBusy(c) {
      if c.turn.queue == [] {
        if Enabled(r, c, EndTurn) { FinishGoes(r, w); }
      } else {
        var run := CanExecute(c.view, c.turn.queue[0]);
        var w1 := Do(r, w, Take(run));
        DrainGoes(r, if run then Execute(r, w1, c.turn.queue[0].script, 0, map[], None).world else w1);
      }
    }
  }

  // ---------------------------------------------------------------------------
  // Settlements
  // ---------------------------------------------------------------------------

  lemma ResolvedGoes(r: Rules, w: World, f: FrameId, slots: seq<Slot>, card: Option<Id>)
    requires w.core.mode.Resting? && Turns(r, w.core.turn)
    ensures Goes(r, AnnounceResolved(r, w, f, slots, card))
  {
    hide Announce, DrainQueue;
    DrainGoes(r, Announce(r, w, Resolved(f, slots, card)));
  }

  lemma SettlingKeepsTurn(r: Rules, w: World, f: FrameId, win: Window, v: Verdict)
    requires w.core.mode.Resting? && Answers(win.kind, v)
    ensures match (win.kind, v)
      case (Modifier(_, _), Rolled(roll, seed)) => SettleModifier(r, w, f, win, roll, seed).core.turn == w.core.turn
      case (Attack(_), Rolled(roll, _)) => SettleAttack(r, w, f, win, roll).core.turn == w.core.turn
      case (Challenge(_), Contest(held, defended)) => SettleChallenge(r, w, f, win, held, defended).core.turn == w.core.turn
      case _ => true
  {
    hide Announce, Slain, PutAway, TakeBack, SpentInto, Dropped;
  }

  lemma OutcomeGoes(r: Rules, w: World, f: FrameId, index: nat, win: Window, v: Verdict)
    requires w.core.mode.Resting? && IsUp(w.core.view, f, index) && Answers(win.kind, v) && Turns(r, w.core.turn)
    ensures Goes(r, SettleOutcome(r, w, f, index, win, v))
  {
    hide Announce, AnnounceResolved, SettleModifier, SettleAttack, SettleChallenge, Goes, Turns, WithClosed;
    var w1 := Announce(r, Do(r, w, CloseWindow(f, index, [])), Plain(WindowClosed, win.respondent, SubjectCard(win)));
    SettlingKeepsTurn(r, w1, f, win, v);
    match (win.kind, v)
    case (Modifier(_, _), Rolled(roll, seed)) =>
      ResolvedGoes(r, SettleModifier(r, w1, f, win, roll, seed), f, [Slot(CTX_FINAL_ROLL, Number(roll))], None);
    case (Attack(_), Rolled(roll, _)) =>
      ResolvedGoes(r, SettleAttack(r, w1, f, win, roll), f, [Slot(CTX_FINAL_ROLL, Number(roll))], None);
    case (Challenge(card), Contest(held, defended)) =>
      ResolvedGoes(r, SettleChallenge(r, w1, f, win, held, defended), f, [], Some(card));
    case _ => TurnsGo(r, w1);
  }

  lemma TurnsGo(r: Rules, w: World)
    requires Turns(r, w.core.turn)
    ensures Goes(r, w)
  {
  }

  lemma ChoiceGoes(
    r: Rules, w: World, f: FrameId, index: nat, win: Window, slots: seq<Slot>, outcome: seq<StepEvent>)
    requires w.core.mode.Resting? && IsUp(w.core.view, f, index) && Turns(r, w.core.turn)
    ensures Goes(r, SettleChoice(r, w, f, index, win, slots, outcome))
  {
    hide Announce, AnnounceAll, AnnounceResolved, Goes, Turns, IsAsking, WithClosed, PutAway, SpentInto;
    var w1, e := Do(r, w, CloseWindow(f, index, slots)), Plain(WindowClosed, win.respondent, None);
    if HasFrame(w1.core.view, f) && !IsAsking(FrameOf(w1.core.view.frames, f)) {
      ResolvedGoes(r, AnnounceAll(r, Announce(r, Do(r, w1, Release(f)), e), outcome), f,
        AnswersOf(FrameOf(w1.core.view.frames, f).windows), None);
    } else {
      TurnsGo(r, AnnounceAll(r, Announce(r, w1, e), outcome));
    }
  }

  lemma WindowGoes(r: Rules, w: World, f: FrameId, index: nat, v: Verdict)
    requires w.core.mode.Resting? && Turns(r, w.core.turn)
    ensures Goes(r, SettleWindow(r, w, f, index, v))
  {
    hide Goes, Turns, SettleOutcome, SettleChoice;
    TurnsGo(r, w);
    if HasFrame(w.core.view, f) {
      var windows := FrameOf(w.core.view.frames, f).windows;
      if index < |windows| && windows[index].open && Answers(windows[index].kind, v) {
        if windows[index].kind.Choice? {
          ChoiceGoes(r, w, f, index, windows[index], v.slots, v.outcome);
        } else {
          OutcomeGoes(r, w, f, index, windows[index], v);
        }
      }
    }
  }

  // ---------------------------------------------------------------------------
  // Every run
  // ---------------------------------------------------------------------------

  lemma StartGoes(r: Rules, w: World, order: seq<Id>)
    requires w.core.mode.Resting? && Turns(r, w.core.turn)
    requires order != [] && forall k | 0 <= k < |order| :: order[k] in r.players
    ensures Goes(r, StartGame(r, w, order))
  {
    hide Announce, StartTurnFor;
    if !Halted(w) && Enabled(r, w.core, BeginGame(order)) {
      StartLeavesOpening(r, w, order);
      StartKeepsOrder(r, Announce(r, Do(r, w, BeginGame(order)), Plain(GameStarted, "", None)), order[0]);
    }
  }

  lemma LapseGoes(r: Rules, w: World, timer: nat)
    requires Enabled(r, w.core, Fire(timer)) && Turns(r, w.core.turn)
    ensures Goes(r, Lapse(r, w, timer))
  {
    hide DrainQueue, IsBusy;
    var w1 := Do(r, w, Fire(timer));
    if w1.core.view.table.current.Some? {
      DrainGoes(r, Do(r, w1, Edit(WithPoints(w1.core.view.table.cards, w1.core.view.table.current.value, 0))));
    }
  }

  lemma EnqueueGoes(r: Rules, w: World, a: Action)
    requires w.core.mode.Resting? && Turns(r, w.core.turn)
    ensures Goes(r, Enqueue(r, w, a))
  {
    hide DrainQueue, IsBusy, CanExecute;
    if !Halted(w) && ReplyTo(w, a).Accepted? { DrainGoes(r, Do(r, w, Accept(a))); }
  }

  lemma StepGoes(r: Rules, w: World, i: Input)
    requires w.core.mode.Resting? && Sound(w.core) && Goes(r, w)
    requires i.Start? ==> i.order != [] && forall k | 0 <= k < |i.order| :: i.order[k] in r.players
    ensures Goes(r, Step(r, w, i))
  {
    hide StartGame, SettleWindow, Lapse, Execute, Enqueue, Sound, Leads;
    if Halted(w) {
    } else if IsConcluded(w.core) {
      SinceItself(r, w);
      StepLegal(r, Since(w), w, i);
      WorldKeepsSound(r, Since(w), Step(r, w, i));
    } else {
      match i
      case Start(order) => StartGoes(r, w, order);
      case Request(a) => EnqueueGoes(r, w, a);
      case React(s) =>
      case Settle(f, index, v) => WindowGoes(r, w, f, index, v);
      case TimerFires(t) => if Enabled(r, w.core, Fire(t)) { LapseGoes(r, w, t); }
      case Wait(ms) =>
    }
  }

  lemma {:induction false} RunGoes(r: Rules, w: World, inputs: seq<Input>)
    requires Dealt(w) && AtTheTable(r, inputs)
    ensures Goes(r, Run(r, w, inputs))
  {
    hide Step, Goes, Sound;
    if inputs == [] {
      DealtGoes(r, w);
    } else {
      var pre, i := inputs[..|inputs| - 1], inputs[|inputs| - 1];
      assert forall k | 0 <= k < |pre| :: pre[k] == inputs[k];
      RunGoes(r, w, pre);
      RunIsSound(r, w, pre);
      StepGoes(r, Run(r, w, pre), i);
    }
  }

  lemma DealtGoes(r: Rules, w: World)
    requires Dealt(w)
    ensures Goes(r, w)
  {
  }

  lemma RunIsSound(r: Rules, w: World, inputs: seq<Input>)
    requires Dealt(w)
    ensures Sound(Run(r, w, inputs).core)
  {
    hide Run, Sound, Leads;
    DealtIsValid(r, w);
    RunIsLegal(r, Origin(w.core, [], AnyMoves, None), w, inputs);
    InitialIsSound(r, w.core, []);
    WorldKeepsSound(r, Origin(w.core, [], AnyMoves, None), Run(r, w, inputs));
  }

  /** A table is in its opening until the first turn starts. */
  lemma {:induction false} OpeningUntilTheFirstTurn(r: Rules, o: Core, log: seq<Move>)
    requires IsInitial(o) && Legal(r, o, log) && Starts(log) == []
    ensures After(r, o, log).turn.phase.Opening?
  {
    if log != [] {
      OpeningUntilTheFirstTurn(r, o, Before(log));
      NobodyBeforeTheFirstTurn(r, o, Before(log));
      TurnUntouched(r, After(r, o, Before(log)), Last(log));
    }
  }

  /**
   * Over every run of a game started with players of the table, that no engine
   * error stops: between entries it is somebody's turn, from the start of the
   * game to its end.
   */
  lemma SomebodyIsToPlay(r: Rules, w: World, inputs: seq<Input>)
    requires Dealt(w) && AtTheTable(r, inputs)
    requires !Halted(Run(r, w, inputs)) && !IsConcluded(Run(r, w, inputs).core)
    ensures var w1 := Run(r, w, inputs);
      w1.core.turn.phase.Acting? || (w1.core.view.table.phase.Setup? && Starts(w1.log) == [])
  {
    hide Run, Leads;
    var w1 := Run(r, w, inputs);
    RunGoes(r, w, inputs);
    StartedOrUnstarted(r, w, inputs);
    DealtIsValid(r, w);
    RunIsLegal(r, Origin(w.core, [], AnyMoves, None), w, inputs);
    RunIsLog(r, w, w1);
    OpeningHasNoStarts(r, w.core, w1.log);
    EveryoneIsSeated(r, w.core, w1.log);
    if Starts(w1.log) == [] { OpeningUntilTheFirstTurn(r, w.core, w1.log); } else { assert Starts(w1.log)[0] in w1.core.turn.order; }
  }

  lemma RunIsLog(r: Rules, w: World, w1: World)
    requires Valid(r, Origin(w.core, [], AnyMoves, None), w1)
    ensures Legal(r, w.core, w1.log) && w1.core == After(r, w.core, w1.log)
  {
    assert w1.log[0..] == w1.log;
  }
}
