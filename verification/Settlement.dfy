/** Every window settles back to rest; so does every entry of the event loop, over every run. */
module Settlement {
  import opened Board
  import opened Abilities
  import opened Machine
  import opened Engine
  import opened EngineLegal
  import opened Requests
  import opened Monsters
  import opened Ages
  import opened Pipelines
  import opened Rotation
  import opened TurnLaws
  import opened Soundness
  import opened Rest
  import opened Idle

  // ---------------------------------------------------------------------------
  // Windows
  // ---------------------------------------------------------------------------

  /** At rest but for the pipelines that wait on `f`, and `f` itself is settled. */
  ghost predicate Settling(w: World, f: FrameId) {
    w.core.mode.Resting? && Sound(w.core) && QuietBut(w, {f}) && !w.halt.LapsedBusy?
  }

  lemma StillFurnished(frames: seq<Frame>, f: FrameId, bare: set<FrameId>)
    requires forall i | 0 <= i < |frames| :: IsOpen(frames[i]) || frames[i].id in bare + {f}
    ensures forall i | 0 <= i < |WithoutFrame(frames, f)| ::
      IsOpen(WithoutFrame(frames, f)[i]) || WithoutFrame(frames, f)[i].id in bare
  {
    forall i | 0 <= i < |WithoutFrame(frames, f)|
      ensures IsOpen(WithoutFrame(frames, f)[i]) || WithoutFrame(frames, f)[i].id in bare
    {
      assert WithoutFrame(frames, f)[i] in frames;
    }
  }

  lemma SettledShape(r: Rules, c: Core, m: Move, f: FrameId)
    requires c.mode.Resting? && Enabled(r, c, m) && (m == Release(f) || m == Restore(f))
    ensures var c' := Apply(r, c, m);
      && c'.mode.Resting? && c'.view.frames == WithoutFrame(c.view.frames, f)
      && c'.stack == (if m.Restore? then Dropped(c.stack, f) else c.stack)
  {
  }

  /** Settling a frame, released or restored, leaves nothing open behind but what waits for its last word. */
  lemma SettleMove(r: Rules, w: World, f: FrameId, m: Move)
    requires w.core.mode.Resting? && Sound(w.core) && !w.halt.LapsedBusy?
    requires Enabled(r, w.core, m) && (m == Release(f) || m == Restore(f))
    requires Halted(w) || IsConcluded(w.core) || (Furnished(w.core.view, {f}) && AwaitsOpen(w.core, {f}))
    ensures Settling(Do(r, w, m), f)
  {
    hide Apply, Enabled, Sound, IsConcluded;
    SettledShape(r, w.core, m, f);
    SoundOneMove(r, w.core, m);
    var c, c' := w.core, Apply(r, w.core, m);
    if !Halted(w) && !IsConcluded(c) && !IsConcluded(c') {
      var frames, frames', stack' := c.view.frames, c'.view.frames, c'.stack;
      StillFurnished(frames, f, {});
      forall i | 0 <= i < |stack'| && stack'[i].pausedOn.Some?
        ensures HasFrame(c'.view, stack'[i].pausedOn.value) || stack'[i].pausedOn.value in {f}
      {
        assert stack'[i] in stack';
        var g := stack'[i].pausedOn.value;
        if g != f {
          var k :| 0 <= k < |frames| && frames[k].id == g;
          assert frames[k] in frames';
        }
      }
    }
  }

  ghost predicate BeingClosed(w: World, f: FrameId) {
    && w.core.mode.Resting? && Sound(w.core) && !w.halt.LapsedBusy?
    && (Halted(w) || IsConcluded(w.core) || (Furnished(w.core.view, {f}) && AwaitsOpen(w.core, {})))
  }

  lemma CloseMove(r: Rules, w: World, f: FrameId, index: nat, answer: seq<Slot>)
    requires AtRest(w) && Enabled(r, w.core, CloseWindow(f, index, answer))
    ensures BeingClosed(Do(r, w, CloseWindow(f, index, answer)), f)
  {
    hide Sound, Ended;
    SoundOneMove(r, w.core, CloseWindow(f, index, answer));
    var v, v' := w.core.view, Do(r, w, CloseWindow(f, index, answer)).core.view;
    forall g | HasFrame(v, g) ensures HasFrame(v', g) {
      var i :| 0 <= i < |v.frames| && v.frames[i].id == g;
      assert v'.frames[i].id == g;
    }
  }

  lemma AnnounceCloses(r: Rules, w: World, e: Event, f: FrameId)
    requires BeingClosed(w, f)
    ensures BeingClosed(Announce(r, w, e), f)
  {
    var w' := Announce(r, w, e);
    AnnounceFollows(r, w, e);
    SoundFrom(r, w, w');
    hide Announce, Sound;
    if !Halted(w) && !IsConcluded(w.core) {
      AnnounceDressed(r, w, e, {f});
      WorldKeepsAwaiting(r, w, w', {});
    }
  }

  lemma SettleFrame(r: Rules, w: World, f: FrameId)
    requires BeingClosed(w, f)
    ensures Settling(ReleaseFrame(r, w, f), f) && Settling(RestoreFrame(r, w, f), f)
  {
    hide Apply, Sound;
    if HasFrame(w.core.view, f) {
      SettleMove(r, w, f, Release(f));
      SettleMove(r, w, f, Restore(f));
    } else if !Halted(w) && !IsConcluded(w.core) {
      NoSuchFrame(w.core.view, f, {});
    }
  }

  lemma AnnounceSettles(r: Rules, w: World, e: Event, f: FrameId)
    requires Settling(w, f)
    ensures Settling(Announce(r, w, e), f)
  {
    hide Announce, Sound;
    AnnounceQuiet(r, w, e, {f});
  }

  lemma EditSettles(r: Rules, w: World, cards: Cards, f: FrameId)
    requires Settling(w, f)
    ensures Settling(Do(r, w, Edit(cards)), f)
  {
    SoundOneMove(r, w.core, Edit(cards));
  }

  lemma ResolvedRests(r: Rules, w: World, f: FrameId, slots: seq<Slot>, card: Option<Id>)
    requires Settling(w, f)
    ensures AtRest(AnnounceResolved(r, w, f, slots, card))
  {
    hide Announce, Sound, DrainQueue;
    ResolvedQuiet(r, w, Resolved(f, slots, card));
    DrainQueueRests(r, Announce(r, w, Resolved(f, slots, card)));
  }

  lemma ModifierSettles(r: Rules, w: World, f: FrameId, win: Window, roll: int, seed: Ctx)
    requires BeingClosed(w, f) && win.kind.Modifier?
    ensures Settling(SettleModifier(r, w, f, win, roll, seed), f)
  {
    hide Announce, RestoreFrame, ReleaseFrame, Sound, QuietBut, Furnished, AwaitsOpen;
    SettleFrame(r, w, f);
    AnnounceSettles(r, RestoreFrame(r, w, f), Plain(RollFailed, win.respondent, Some(win.kind.hero)), f);
    AnnounceSettles(r, ReleaseFrame(r, w, f),
      Plain(RollSuccess, win.respondent, Some(win.kind.hero)).(seed := seed), f);
    if Halted(w) { HaltedSettles(w, f, r); }
  }

  lemma HaltedSettles(w: World, f: FrameId, r: Rules)
    requires BeingClosed(w, f) && Halted(w)
    ensures Settling(w, f)
  {
  }

  lemma AttackSlays(r: Rules, w: World, f: FrameId, player: Id, monster: Id)
    requires Settling(w, f)
    ensures Settling(Announce(r, Do(r, w, Edit(Slain(w.core.view.table.cards, monster, player))),
      Plain(MonsterSlain, player, Some(monster))), f)
    ensures Settling(w.(halt := NotInRow), f)
  {
    var cards := Slain(w.core.view.table.cards, monster, player);
    EditSettles(r, w, cards, f);
    AnnounceSettles(r, Do(r, w, Edit(cards)), Plain(MonsterSlain, player, Some(monster)), f);
    hide Announce, Sound;
  }

  lemma AttackSettles(r: Rules, w: World, f: FrameId, win: Window, roll: int)
    requires BeingClosed(w, f) && win.kind.Attack?
    ensures Settling(SettleAttack(r, w, f, win, roll), f)
  {
    hide Announce, RestoreFrame, ReleaseFrame, Slain, Apply, Sound, QuietBut, Furnished, AwaitsOpen;
    var monster, player := win.kind.monster, win.respondent;
    SettleFrame(r, w, f);
    AttackSlays(r, ReleaseFrame(r, w, f), f, player, monster);
    AnnounceSettles(r, RestoreFrame(r, w, f), Plain(MonsterFoughtBack, player, Some(monster)), f);
    if Halted(w) { HaltedSettles(w, f, r); }
  }

  lemma ChallengeSettles(r: Rules, w: World, f: FrameId, win: Window, held: bool, defended: bool)
    requires BeingClosed(w, f) && win.kind.Challenge?
    ensures Settling(SettleChallenge(r, w, f, win, held, defended), f)
  {
    hide Announce, RestoreFrame, ReleaseFrame, Apply, Sound, QuietBut, Furnished, AwaitsOpen;
    var e := Plain(ChallengeResolved, win.respondent, Some(win.kind.card));
    SettleFrame(r, w, f);
    AnnounceCloses(r, w, e, f);
    var w1 := Announce(r, w, e);
    SettleFrame(r, w1, f);
    var kept, undone := ReleaseFrame(r, w1, f), RestoreFrame(r, w1, f);
    var c, d := kept.core.view.table.cards, undone.core.view.table.cards;
    EditSettles(r, kept, c.(challenged := c.challenged + [win.kind.card]), f);
    EditSettles(r, undone, d.(discard := d.discard + [win.kind.card]), f);
    if Halted(w) { HaltedSettles(w, f, r); }
    if Halted(w1) { HaltedSettles(w1, f, r); }
  }

  lemma OutcomeRests(r: Rules, w: World, f: FrameId, index: nat, win: Window, v: Verdict)
    requires AtRest(w) && IsUp(w.core.view, f, index) && !win.kind.Choice? && Answers(win.kind, v)
    ensures AtRest(SettleOutcome(r, w, f, index, win, v))
  {
    hide Announce, Sound, QuietBut, Furnished, AwaitsOpen, Ended, SettleModifier, SettleAttack, SettleChallenge;
    hide AnnounceResolved, WithClosed;
    var e := Plain(WindowClosed, win.respondent, SubjectCard(win));
    CloseMove(r, w, f, index, []);
    AnnounceCloses(r, Do(r, w, CloseWindow(f, index, [])), e, f);
    var w1 := Announce(r, Do(r, w, CloseWindow(f, index, [])), e);
    match (win.kind, v)
    case (Modifier(_, _), Rolled(roll, seed)) =>
      ModifierSettles(r, w1, f, win, roll, seed);
      ResolvedRests(r, SettleModifier(r, w1, f, win, roll, seed), f, [Slot(CTX_FINAL_ROLL, Number(roll))], None);
    case (Attack(_), Rolled(roll, _)) =>
      AttackSettles(r, w1, f, win, roll);
      ResolvedRests(r, SettleAttack(r, w1, f, win, roll), f, [Slot(CTX_FINAL_ROLL, Number(roll))], None);
    case (Challenge(card), Contest(held, defended)) =>
      ChallengeSettles(r, w1, f, win, held, defended);
      ResolvedRests(r, SettleChallenge(r, w1, f, win, held, defended), f, [], Some(card));
    case _ =>
  }

  /** One question of several was answered: the frame still has another open. */
  lemma NotTheLast(r: Rules, w: World, f: FrameId, index: nat, answer: seq<Slot>)
    requires AtRest(w) && Enabled(r, w.core, CloseWindow(f, index, answer))
    requires var v := Do(r, w, CloseWindow(f, index, answer)).core.view;
      HasFrame(v, f) && IsAsking(FrameOf(v.frames, f))
    ensures AtRest(Do(r, w, CloseWindow(f, index, answer)))
  {
    CloseMove(r, w, f, index, answer);
    var c, c' := w.core, Do(r, w, CloseWindow(f, index, answer)).core;
    assert c'.stack == c.stack;
    if !Halted(w) && !IsConcluded(c) {
      var g := FrameOf(c'.view.frames, f);
      assert FramesOrdered(c'.view.frames, c'.nextFrame, c'.nextPipe);
      forall i | 0 <= i < |c'.view.frames| ensures IsOpen(c'.view.frames[i]) || c'.view.frames[i].id in {} {
        if c'.view.frames[i].id == f { SameFrame(c'.view.frames, g, i, c'.nextFrame, c'.nextPipe); }
      }
    }
  }

  lemma SameFrame(frames: seq<Frame>, g: Frame, i: nat, nextFrame: FrameId, nextPipe: nat)
    requires FramesOrdered(frames, nextFrame, nextPipe) && g in frames && i < |frames| && frames[i].id == g.id
    ensures frames[i] == g
  {
    var j :| 0 <= j < |frames| && frames[j] == g;
  }

  lemma {:induction false} AnnounceAllRests(r: Rules, w: World, events: seq<StepEvent>)
    requires AtRest(w)
    ensures AtRest(AnnounceAll(r, w, events))
    decreases |events|
  {
    hide Announce, AtRest;
    if events != [] {
      AnnounceRests(r, w, events[0]);
      AnnounceAllRests(r, Announce(r, w, events[0]), events[1..]);
    }
  }

  lemma {:induction false} AnnounceAllSettles(r: Rules, w: World, events: seq<StepEvent>, f: FrameId)
    requires Settling(w, f)
    ensures Settling(AnnounceAll(r, w, events), f)
    decreases |events|
  {
    hide Announce, Settling;
    if events != [] {
      AnnounceSettles(r, w, events[0], f);
      AnnounceAllSettles(r, Announce(r, w, events[0]), events[1..], f);
    }
  }

  lemma ChoiceRests(
    r: Rules, w: World, f: FrameId, index: nat, win: Window, slots: seq<Slot>, outcome: seq<StepEvent>)
    requires AtRest(w) && IsUp(w.core.view, f, index)
    ensures AtRest(SettleChoice(r, w, f, index, win, slots, outcome))
  {
    hide Announce, AnnounceAll, Sound, QuietBut, Furnished, AwaitsOpen, Ended, IsAsking, AnnounceResolved, WithClosed;
    var e := Plain(WindowClosed, win.respondent, None);
    var w1 := Do(r, w, CloseWindow(f, index, slots));
    CloseMove(r, w, f, index, slots);
    FramesStayClosed(r, w, f, index, slots);
    if IsAsking(FrameOf(w1.core.view.frames, f)) {
      NotTheLast(r, w, f, index, slots);
      AnnounceRests(r, w1, e);
      AnnounceAllRests(r, Announce(r, w1, e), outcome);
    } else {
      SettleMoveClosed(r, w1, f);
      var w2 := Do(r, w1, Release(f));
      AnnounceSettles(r, w2, e, f);
      AnnounceAllSettles(r, Announce(r, w2, e), outcome, f);
      ResolvedRests(r, AnnounceAll(r, Announce(r, w2, e), outcome), f,
        AnswersOf(FrameOf(w1.core.view.frames, f).windows), None);
    }
  }

  lemma FramesStayClosed(r: Rules, w: World, f: FrameId, index: nat, answer: seq<Slot>)
    requires Enabled(r, w.core, CloseWindow(f, index, answer))
    ensures HasFrame(Do(r, w, CloseWindow(f, index, answer)).core.view, f)
  {
    var v, v' := w.core.view, Do(r, w, CloseWindow(f, index, answer)).core.view;
    var i :| 0 <= i < |v.frames| && v.frames[i].id == f;
    assert v'.frames[i].id == f;
  }

  lemma SettleMoveClosed(r: Rules, w: World, f: FrameId)
    requires BeingClosed(w, f) && HasFrame(w.core.view, f)
    ensures Settling(Do(r, w, Release(f)), f)
  {
    SettleMove(r, w, f, Release(f));
  }

  lemma WindowRests(r: Rules, w: World, f: FrameId, index: nat, v: Verdict)
    requires AtRest(w)
    ensures AtRest(SettleWindow(r, w, f, index, v))
  {
    hide AtRest, SettleOutcome, SettleChoice;
    if HasFrame(w.core.view, f) {
      var windows := FrameOf(w.core.view.frames, f).windows;
      if index < |windows| && windows[index].open && Answers(windows[index].kind, v) {
        if windows[index].kind.Choice? {
          ChoiceRests(r, w, f, index, windows[index], v.slots, v.outcome);
        } else {
          OutcomeRests(r, w, f, index, windows[index], v);
        }
      }
    }
  }

  // ---------------------------------------------------------------------------
  // Every run
  // ---------------------------------------------------------------------------

  lemma StartGameRests(r: Rules, w: World, order: seq<Id>)
    requires AtRest(w)
    ensures AtRest(StartGame(r, w, order))
  {
    if !Halted(w) && Enabled(r, w.core, BeginGame(order)) {
      AsideRests(r, w, BeginGame(order));
      AnnounceRests(r, Do(r, w, BeginGame(order)), Plain(GameStarted, "", None));
      var w1 := Announce(r, Do(r, w, BeginGame(order)), Plain(GameStarted, "", None));
      if order != [] { StartTurnRests(r, w1, order[0]); }
    }
  }

  lemma StepRests(r: Rules, w: World, i: Input)
    requires AtRest(w)
    ensures AtRest(Step(r, w, i))
  {
    if !Halted(w) {
      match i
      case Start(order) => StartGameRests(r, w, order);
      case Request(a) => EnqueueRests(r, w, a);
      case React(s) => ExecuteRests(r, w, s);
      case Settle(f, index, v) => WindowRests(r, w, f, index, v);
      case TimerFires(t) => if Enabled(r, w.core, Fire(t)) { LapseRests(r, w, t); }
      case Wait(ms) => AsideRests(r, w, Advance(ms));
    }
  }

  /** A table as it was dealt, before anything has happened. */
  predicate Dealt(w: World) {
    IsInitial(w.core) && w.log == [] && w.halt.Live?
  }

  lemma DealtRests(w: World)
    requires Dealt(w)
    ensures AtRest(w)
  {
  }

  /**
   * Over every run, with every rule table: between two entries the board is at
   * rest, so the error "the turn clock lapsed on a busy board" never happens.
   */
  lemma {:induction false} TheClockNeverLapsesOnABusyBoard(r: Rules, w: World, inputs: seq<Input>)
    requires Dealt(w)
    ensures AtRest(Run(r, w, inputs)) && Run(r, w, inputs).halt != LapsedBusy
  {
    hide Step;
    if inputs == [] {
      DealtRests(w);
    } else {
      TheClockNeverLapsesOnABusyBoard(r, w, inputs[..|inputs| - 1]);
      StepRests(r, Run(r, w, inputs[..|inputs| - 1]), inputs[|inputs| - 1]);
    }
  }
}
