/**
 * Where the cancelling of rules stops: a run of the whole engine in which a
 * roll fails and is rolled back, and a rule started inside it goes on. The rule
 * answers the closing of the roll's window with a question of its own and waits
 * for that, not for the roll.
 */
module LateQuestions {
  import opened Board
  import opened Abilities
  import opened Machine
  import opened Engine
  import opened EngineLegal
  import opened Requests
  import opened Pipelines
  import opened OneRule
  import Cancellation

  const LAST_STEP: Script := Script(0, (_, ctx, _, v: View) => Return(v.table.cards, ctx, false))

  /** When a window of Ann's closes, her hero asks Bob a question, waits for it and goes on. */
  const RULE: Rule := AnswersTo(WindowClosed, [Asks(Choice, BOB, true), LAST_STEP])
  const RULES: Rules := TableOf(RULE)

  const ROLLING: Window := WindowOn(ROLL, ANN)
  const ASKING: Window := WindowOn(Choice, BOB)
  const CLOSED: Event := Plain(WindowClosed, ANN, None)

  /** Ann pays a point to roll for her hero. */
  const ROLLS: Action := Action("roll", ANN, Cost(1), true, _ => true, Asks(ROLL, ANN, false))

  // ---------------------------------------------------------------------------
  // The roll opens
  // ---------------------------------------------------------------------------

  /** In Ann's first turn, her point spent, with these frames and pipelines. */
  ghost predicate Stands(w: World, frames: seq<Frame>, stack: seq<Pipe>) {
    && InTurn(w, ANN, 1, []) && PointsOf(w.core.view.table.cards, ANN) == 0
    && w.core.view.frames == frames && w.core.stack == stack
  }

  /** The one frame is the roll's, over this very board, and no pipeline was ever started. */
  ghost predicate RollIsOpen(w: World) {
    && Stands(w, [Frame(0, w.core.view.table, [ROLLING], 0)], [])
    && w.core.nextPipe == 0 && w.core.nextFrame == 1
  }

  lemma RollIsPaid(w: World)
    requires InTurn(w, ANN, 1, []) && PointsOf(w.core.view.table.cards, ANN) == 1
    requires w.core.view.frames == [] && w.core.stack == []
    ensures Enabled(RULES, w.core, Accept(ROLLS)) && ReplyTo(w, ROLLS).Accepted?
    ensures var w1 := Do(RULES, w, Accept(ROLLS));
      && Enabled(RULES, w1.core, Take(true)) && w1.core.turn.queue == [ROLLS] && w1.core.view.table.current.Some?
      && Stands(Do(RULES, w1, Take(true)), [], []) && SameWork(w, Do(RULES, w1, Take(true)))
  {
  }

  lemma RollIsServed(w: World)
    requires Enabled(RULES, w.core, Take(true)) && w.core.turn.queue == [ROLLS] && !Halted(w)
    requires w.core.view.table.current.Some?
    requires var w' := Execute(RULES, Do(RULES, w, Take(true)), ROLLS.script, 0, map[], None).world; IsBusy(w'.core)
    ensures DrainQueue(RULES, w) == Execute(RULES, Do(RULES, w, Take(true)), ROLLS.script, 0, map[], None).world
  {
    hide Execute, FinishTurn, TableOf;
  }

  lemma AnnRolls(w: World)
    requires InTurn(w, ANN, 1, []) && PointsOf(w.core.view.table.cards, ANN) == 1 && w.core.nextFrame == w.core.nextPipe == 0
    requires w.core.view.frames == [] && w.core.stack == []
    ensures RollIsOpen(Enqueue(RULES, w, ROLLS)) && Enqueue(RULES, w, ROLLS).gas == w.gas
  {
    hide Execute, DrainQueue, Sparse, TableOf, Apply, Enabled;
    RollIsPaid(w);
    var w1 := Do(RULES, w, Accept(ROLLS));
    var w2 := Do(RULES, w1, Take(true));
    AskOpens(RULE, w2, ROLL, ANN, false, map[]);
    var w3 := Execute(RULES, w2, ROLLS.script, 0, map[], None).world;
    assert w3.core.view.frames == [Frame(0, w2.core.view.table, [ROLLING], 0)];
    OpenIsBusy(w3.core, 0, 0);
    RollIsServed(w1);
  }

  lemma OpenIsBusy(c: Core, i: nat, j: nat)
    requires i < |c.view.frames| && j < |c.view.frames[i].windows| && c.view.frames[i].windows[j].open
    ensures HasOpenFrames(c.view) && IsBusy(c)
  {
    assert c.view.frames[i].windows[j] in c.view.frames[i].windows && c.view.frames[i] in c.view.frames;
  }

  // ---------------------------------------------------------------------------
  // Its close is answered with a question
  // ---------------------------------------------------------------------------

  /** The rule's pipeline, its first step taken, waiting for the question's frame. */
  function Parked(ctx: Ctx): Pipe {
    Pipe(0, HERO, ANN, true, [LAST_STEP], ctx, Some(1))
  }

  lemma StepBegins(w: World, pipe: Pipe)
    requires Calm(w) && w.core.mode.Looping? && w.core.stack == [pipe] && pipe.steps == RULE.steps && pipe.pausedOn.None?
    ensures Enabled(RULES, w.core, Begin(pipe.id))
    ensures Apply(RULES, w.core, Begin(pipe.id))
      == w.core.(stack := [pipe.(steps := [LAST_STEP])], mode := Stepping(pipe.id, w.core.nextFrame))
  {
    hide Sparse, Asks;
    assert RULE.steps[1..] == [LAST_STEP] && [pipe][..0] == [];
  }

  lemma StepParks(w: World, w2: World, pipe: Pipe)
    requires w.core.mode.Looping?
    requires w2.core == Opened(w.core.(stack := [pipe], mode := Stepping(pipe.id, w.core.nextFrame)), ASKING)
    ensures HasFrame(w2.core.view, w.core.nextFrame)
    ensures Enabled(RULES, w2.core, Finish(pipe.id, pipe.ctx, Some(w.core.nextFrame)))
    ensures Apply(RULES, w2.core, Finish(pipe.id, pipe.ctx, Some(w.core.nextFrame)))
      == Opened(w.core, ASKING).(stack := [pipe.(pausedOn := Some(w.core.nextFrame))])
  {
    assert w2.core.view.frames[|w.core.view.frames|].id == w.core.nextFrame;
    var c := Apply(RULES, w2.core, Finish(pipe.id, pipe.ctx, Some(w.core.nextFrame)));
    assert c.stack[0] == pipe.(pausedOn := Some(w.core.nextFrame));
  }

  lemma StepAsks(w: World, pipe: Pipe)
    requires Calm(w) && w.core.mode.Looping? && w.gas > 0 && FramesBelow(w.core)
    requires w.core.stack == [pipe] && pipe.steps == RULE.steps && pipe.pausedOn.None?
    ensures var w' := Loop(RULES, w);
      w' == w.(core := Opened(w.core, ASKING).(stack := [pipe.(steps := [LAST_STEP], pausedOn := Some(w.core.nextFrame))]),
        log := w'.log, gas := w.gas - 1)
  {
    hide Execute, Sparse, Opened, FinishedIn, TableOf, Asks, Apply, HasFrame;
    StepBegins(w, pipe);
    var w1 := Do(RULES, w.(gas := w.gas - 1), Begin(pipe.id));
    assert pipe.steps[0] == Asks(Choice, BOB, true);
    assert Calm(w1) && FramesBelow(w1.core);
    AskOpens(RULE, w1, Choice, BOB, true, pipe.ctx);
    var w2 := Execute(RULES, w1, pipe.steps[0], 0, pipe.ctx, None).world;
    StepParks(w, w2, pipe.(steps := [LAST_STEP]));
    assert Iterate(RULES, w).stop;
  }

  /** The world just before the restore: the roll's window closed, and its close answered. */
  function Answered(w: World): World
    requires w.core.mode.Resting? && IsUp(w.core.view, 0, 0)
  {
    Announce(RULES, Do(RULES, w, CloseWindow(0, 0, [])), CLOSED)
  }

  lemma RollCloses(w: World)
    requires RollIsOpen(w)
    ensures IsUp(w.core.view, 0, 0)
    ensures var t, w1 := w.core.view.table, Do(RULES, w, CloseWindow(0, 0, []));
      && Stands(w1, [Frame(0, t, [ROLLING.(open := false)], 0)], []) && w1.core.view.table == t
      && w1.core.nextPipe == 0 && w1.core.nextFrame == 1 && w1.gas == w.gas
  {
    hide Sparse, TableOf, Asks;
    assert w.core.view.frames[0].id == 0;
    var w1 := Do(RULES, w, CloseWindow(0, 0, []));
    assert w1.core.view.frames[0].windows == [ROLLING.(open := false)];
  }

  /** The roll's frame, closed, under the question's; the rule waiting for the question. */
  lemma CloseIsAnswered(w: World) returns (ctx: Ctx)
    requires RollIsOpen(w) && w.gas >= 2
    ensures IsUp(w.core.view, 0, 0) && HasFrame(Answered(w).core.view, 0)
    ensures var t, w' := w.core.view.table, Answered(w);
      && Stands(w', [Frame(0, t, [ROLLING.(open := false)], 0), Frame(1, t, [ASKING], 1)], [Parked(ctx)])
      && w'.core.view.table == t && w'.gas == w.gas - 1
  {
    hide Sparse, Loop, Asks, TableOf, StartOf, Pushed, Announce;
    RollCloses(w);
    var w1 := Do(RULES, w, CloseWindow(0, 0, []));
    HeardRuns(RULE, w1, CLOSED);
    PushedAlone(RULE, w1, CLOSED);
    StepAsks(Pushed(RULE, w1, CLOSED), PipeFor(RULE, w1.core, CLOSED));
    ctx := PipeFor(RULE, w1.core, CLOSED).ctx;
    assert Answered(w).core.view.frames[0].id == 0;
  }

  // ---------------------------------------------------------------------------
  // The roll fails
  // ---------------------------------------------------------------------------

  lemma RollIsUndone(w: World, t: Table, ctx: Ctx)
    requires Stands(w, [Frame(0, t, [ROLLING.(open := false)], 0), Frame(1, t, [ASKING], 1)], [Parked(ctx)])
    requires w.core.view.table == t
    ensures Enabled(RULES, w.core, Restore(0))
    ensures var w' := Do(RULES, w, Restore(0)); Stands(w', [Frame(1, t, [ASKING], 1)], [Parked(ctx)]) && w'.gas == w.gas
  {
    hide SpentInto, Sparse, Asks;
    var frames := w.core.view.frames;
    assert frames[0].id == 0;
    NothingSpent(t.cards, frames[0]);
    assert frames[..1] == [frames[0]] && [frames[0]][..0] == [];
    assert WithoutFrame([frames[0]], 0) == [] && WithoutFrame(frames, 0) == [frames[1]];
    assert [Parked(ctx)][..0] == [];
    assert Dropped([Parked(ctx)], 0) == [Parked(ctx)];
  }

  const FAILED: Event := Plain(RollFailed, ANN, Some(HERO))
  const LAST_WORD: Event := Resolved(0, [Slot(CTX_FINAL_ROLL, Number(0))], None)

  /** The rest of the settlement changes nothing more: the rule still waits for its question. */
  function Settled(w: World): World
    requires w.core.mode.Resting? && HasFrame(w.core.view, 0)
  {
    AnnounceResolved(RULES, Announce(RULES, Do(RULES, w, Restore(0)), FAILED), 0, LAST_WORD.slots, None)
  }

  lemma TheRuleSurvives(w: World, t: Table, ctx: Ctx)
    requires Stands(w, [Frame(0, t, [ROLLING.(open := false)], 0), Frame(1, t, [ASKING], 1)], [Parked(ctx)])
    requires w.core.view.table == t
    ensures HasFrame(w.core.view, 0)
    ensures Stands(Settled(w), [Frame(1, t, [ASKING], 1)], [Parked(ctx)]) && Settled(w).gas == w.gas
  {
    hide Announce, Sparse, TableOf, Asks, Apply;
    RollIsUndone(w, t, ctx);
    var w1 := Do(RULES, w, Restore(0));
    Unheard(RULE, w1, FAILED);
    var w2 := Announce(RULES, w1, FAILED);
    Unheard(RULE, w2, LAST_WORD);
    var w3 := Announce(RULES, w2, LAST_WORD);
    OpenIsBusy(w3.core, 0, 0);
    assert DrainQueue(RULES, w3) == w3;
  }

  lemma SettlesAsSaid(w: World)
    requires RollIsOpen(w) && w.gas >= 2
    ensures IsUp(w.core.view, 0, 0) && HasFrame(Answered(w).core.view, 0) && Answered(w).core.mode.Resting?
    ensures SettleWindow(RULES, w, 0, 0, Verdict.Rolled(0, map[])) == Settled(Answered(w))
  {
    var ctx := CloseIsAnswered(w);
    hide Announce, AnnounceResolved, Sparse, TableOf, Asks, Apply;
    assert w.core.view.frames[0].windows == [ROLLING];
  }

  lemma SettledStaysLegal(o: Origin, w: World)
    requires w.core.mode.Resting? && HasFrame(w.core.view, 0) && o.span.AnyMoves? && Valid(RULES, o, Do(RULES, w, Restore(0)))
    ensures Valid(RULES, o, Settled(w))
  {
    hide Announce, AnnounceResolved, Valid;
    var w1 := Do(RULES, w, Restore(0));
    AnnounceLegal(RULES, o, w1, FAILED);
    AnnounceResolvedLegal(RULES, o, Announce(RULES, w1, FAILED), 0, LAST_WORD.slots, None);
  }

  // ---------------------------------------------------------------------------
  // The question is answered
  // ---------------------------------------------------------------------------

  const THANKS: Event := Plain(WindowClosed, BOB, None)

  /** The question closed and its frame released, before its last word. */
  function Released(w: World): World
    requires w.core.mode.Resting? && IsUp(w.core.view, 1, 0) && HasFrame(Do(RULES, w, CloseWindow(1, 0, [])).core.view, 1)
  {
    Announce(RULES, Do(RULES, Do(RULES, w, CloseWindow(1, 0, [])), Release(1)), THANKS)
  }

  lemma QuestionCloses(w: World, t: Table, ctx: Ctx)
    requires Stands(w, [Frame(1, t, [ASKING], 1)], [Parked(ctx)])
    ensures IsUp(w.core.view, 1, 0)
    ensures var w1 := Do(RULES, w, CloseWindow(1, 0, []));
      && HasFrame(w1.core.view, 1) && Stands(w1, [Frame(1, t, [ASKING.(open := false)], 1)], [Parked(ctx)]) && w1.gas == w.gas
      && !IsAsking(FrameOf(w1.core.view.frames, 1)) && AnswersOf(FrameOf(w1.core.view.frames, 1).windows) == []
  {
    hide Sparse, TableOf, Asks;
    assert w.core.view.frames[0].id == 1;
    var w1 := Do(RULES, w, CloseWindow(1, 0, []));
    assert w1.core.view.frames[0].windows == [ASKING.(open := false)];
    assert w1.core.view.frames[0].id == 1;
    assert [ASKING.(open := false)][1..] == [];
  }

  lemma QuestionIsReleased(w: World, t: Table, ctx: Ctx)
    requires Stands(w, [Frame(1, t, [ASKING.(open := false)], 1)], [Parked(ctx)]) && HasFrame(w.core.view, 1)
    ensures Stands(Do(RULES, w, Release(1)), [], [Parked(ctx)]) && Do(RULES, w, Release(1)).gas == w.gas
  {
    hide SpentInto, Sparse, Asks;
    var f := w.core.view.frames[0];
    NothingSpent(w.core.view.table.cards, f);
    assert [f][..0] == [] && WithoutFrame([f], 1) == [];
    assert FrameOf([f], 1) == f;
  }

  lemma QuestionSettles(w: World, t: Table, ctx: Ctx)
    requires Stands(w, [Frame(1, t, [ASKING], 1)], [Parked(ctx)])
    ensures IsUp(w.core.view, 1, 0) && HasFrame(Do(RULES, w, CloseWindow(1, 0, [])).core.view, 1)
    ensures Stands(Released(w), [], [Parked(ctx)]) && Released(w).gas == w.gas
    ensures SettleWindow(RULES, w, 1, 0, Picked([], [])) == AnnounceResolved(RULES, Released(w), 1, [], None)
  {
    hide Announce, AnnounceResolved, Sparse, TableOf, Asks, Apply, IsAsking, AnswersOf;
    QuestionCloses(w, t, ctx);
    var w1 := Do(RULES, w, CloseWindow(1, 0, []));
    QuestionIsReleased(w1, t, ctx);
    var w2 := Do(RULES, w1, Release(1));
    Unheard(RULE, w2, THANKS);
    assert AnnounceAll(RULES, Released(w), []) == Released(w);
    assert w.core.view.frames[0].windows == [ASKING];
  }

  /** The question's last word wakes the rule, and the drain is about to run it. */
  function Woken(w: World): World
    requires w.core.mode.Resting?
  {
    var e := Resolved(1, [], None);
    Do(RULES, StartMatching(RULES, WakeFor(RULES, Expire(RULES, Do(RULES, w, Hear(e)), e), e), e), StartLoop)
  }

  lemma TheRuleWakes(w: World, ctx: Ctx)
    requires Stands(w, [], [Parked(ctx)])
    ensures Woken(w) == w.(core := w.core.(stack := [Parked(ctx).(pausedOn := None)], mode := Looping), log := Woken(w).log)
  {
    hide Sparse, TableOf, Asks;
    var e := Resolved(1, [], None);
    ExpireUnheard(RULE, Do(RULES, w, Hear(e)), e);
    var w1 := Expire(RULES, Do(RULES, w, Hear(e)), e);
    hide Expire;
    WaiterWakes(w1, ctx, e);
    var w2 := WakeFor(RULES, w1, e);
    StartedAre(RULE, w2.core.view, e);
    hide Started, WakeFor;
    assert StartMatching(RULES, w2, e) == w2;
  }

  lemma WaiterWakes(w: World, ctx: Ctx, e: Event)
    requires w.core.stack == [Parked(ctx)] && w.core.mode.Resting? && e == Resolved(1, [], None)
    ensures var w' := WakeFor(RULES, w, e);
      w' == w.(core := w.core.(stack := [Parked(ctx).(pausedOn := None)]), log := w'.log)
  {
    assert WokenIn(w.core.stack, 1, []) == [Parked(ctx).(pausedOn := None)];
  }

  lemma LastWordIs(w: World, ctx: Ctx)
    requires Stands(w, [], [Parked(ctx)])
    ensures Announce(RULES, w, Resolved(1, [], None)) == Do(RULES, Loop(RULES, Woken(w)), StopLoop)
  {
    hide Sparse, TableOf, Asks, Expire, StartMatching, Loop, WakeFor;
    var e := Resolved(1, [], None);
    var w0 := Do(RULES, w, Hear(e));
    ClockStands(RULE, w0, e);
    ExpireUnheard(RULE, w0, e);
    NobodyWins(RULE, Do(RULES, Loop(RULES, Woken(w)), StopLoop));
    hide ConcludeIfDue, HearClock;
    assert HearTask(RULES, w0, e) == Do(RULES, Loop(RULES, Woken(w)), StopLoop);
  }

  lemma WokenIsLegal(o: Origin, w: World)
    requires Valid(RULES, o, w) && w.core.mode.Resting? && !Sleeps(o.span)
    ensures Valid(RULES, o, Woken(w))
  {
    hide Valid, Expire;
    var e := Resolved(1, [], None);
    ValidMayHear(RULES, o, w, e);
    HearKeepsValid(RULES, o, w, e);
    var w0 := Do(RULES, w, Hear(e));
    ExpireLegal(RULES, o, w0, e);
    var w1 := Expire(RULES, w0, e);
    WakeForLegal(RULES, o, w1, e);
    var w2 := WakeFor(RULES, w1, e);
    PushAllLegal(RULES, o, w2, Started(RULES, w2.core.view, e));
    DoKeepsValid(RULES, o, StartMatching(RULES, w2, e), StartLoop);
  }

  lemma ReleasedIsLegal(o: Origin, w: World)
    requires Valid(RULES, o, w) && o.span.AnyMoves? && w.core.mode.Resting?
    requires IsUp(w.core.view, 1, 0) && HasFrame(Do(RULES, w, CloseWindow(1, 0, [])).core.view, 1)
    ensures Valid(RULES, o, Released(w))
  {
    hide Valid, Announce;
    DoKeepsValid(RULES, o, w, CloseWindow(1, 0, []));
    DoKeepsValid(RULES, o, Do(RULES, w, CloseWindow(1, 0, [])), Release(1));
    AnnounceLegal(RULES, o, Do(RULES, Do(RULES, w, CloseWindow(1, 0, [])), Release(1)), THANKS);
  }

  /** A loop that begins a step has begun it, whatever the step and the rest of the loop then do. */
  lemma LoopBegins(r: Rules, w: World)
    requires w.core.mode.Looping? && Ready(w.core.stack) && Top(w.core.stack).steps != [] && w.gas > 0 && !Halted(w)
    ensures Enabled(r, w.core, Begin(Top(w.core.stack).id))
    ensures Valid(r, Since(Do(r, w, Begin(Top(w.core.stack).id))), Loop(r, w))
  {
    hide Execute, Valid, Apply;
    var top, spent := Top(w.core.stack), w.(gas := w.gas - 1);
    var w1 := Do(r, spent, Begin(top.id));
    var o := Since(w1);
    SinceItself(r, w1);
    Begun(r, spent);
    ExecuteTopLegal(r, o, w1, top, w.core.nextFrame);
    IterateIsValid(r, o, w);
    if !Iterate(r, w).stop { LoopLegal(r, o, Iterate(r, w).world); }
  }

  lemma Begun(r: Rules, w: World)
    requires w.core.mode.Looping? && Ready(w.core.stack) && Top(w.core.stack).steps != []
    ensures Enabled(r, w.core, Begin(Top(w.core.stack).id))
    ensures Apply(r, w.core, Begin(Top(w.core.stack).id)).mode == Stepping(Top(w.core.stack).id, w.core.nextFrame)
    ensures Apply(r, w.core, Begin(Top(w.core.stack).id)).nextFrame == w.core.nextFrame
  {
  }

  lemma IterateIsValid(r: Rules, o: Origin, w: World)
    requires w.core.mode.Looping? && Ready(w.core.stack) && Top(w.core.stack).steps != [] && w.gas > 0
    requires var top := Top(w.core.stack); var w1 := Do(r, w.(gas := w.gas - 1), Begin(top.id));
      var s := Execute(r, w1, top.steps[0], 0, top.ctx, None);
      var m := Finish(top.id, s.ctx, if s.park.Some? && HasFrame(s.world.core.view, s.park.value) then s.park else None);
      Enabled(r, s.world.core, m) && Valid(r, o, Do(r, s.world, m))
    ensures Valid(r, o, Iterate(r, w).world)
  {
    hide Execute, Apply, Legal, After;
  }

  lemma TheRuleGoesOn(w: World, ctx: Ctx)
    requires Stands(w, [], [Parked(ctx)]) && w.gas > 0
    ensures Woken(w).core.mode.Looping? && Enabled(RULES, Woken(w).core, Begin(0))
    ensures Valid(RULES, Since(Do(RULES, Woken(w), Begin(0))), AnnounceResolved(RULES, w, 1, [], None))
  {
    hide Sparse, TableOf, Asks, Valid, Loop, Announce, DrainQueue, Woken, Apply;
    TheRuleWakes(w, ctx);
    LastWordIs(w, ctx);
    LoopBegins(RULES, Woken(w));
    var o, w1 := Since(Do(RULES, Woken(w), Begin(0))), Loop(RULES, Woken(w));
    DoKeepsValid(RULES, o, w1, StopLoop);
    var w2 := Announce(RULES, w, Resolved(1, [], None));
    DrainQueueLegal(RULES, o, w2);
  }

  // ---------------------------------------------------------------------------
  // The run
  // ---------------------------------------------------------------------------

  const ANSWER: Input := Settle(1, 0, Picked([], []))

  const ENTRIES: seq<Input> := [START, Request(ROLLS), FAIL, ANSWER]

  lemma RollingRun(w: World)
    requires Fresh(w)
    ensures RollIsOpen(Run(RULES, w, ENTRIES[..2])) && Run(RULES, w, ENTRIES[..2]).gas == w.gas
  {
    hide StartGame, Enqueue, Sparse, TableOf, Asks, Run;
    assert ENTRIES[..2] == ([] + [START]) + [Request(ROLLS)];
    RunOneMore(RULES, w, [], START);
    RunOneMore(RULES, w, [] + [START], Request(ROLLS));
    RunNone(RULES, w);
    AnnGoesFirst(RULE, w);
    AnnRolls(StartGame(RULES, w, ORDER));
  }

  lemma DealtIsValid(w: World)
    requires w.log == []
    ensures Valid(RULES, Origin(w.core, [], AnyMoves, None), w)
  {
  }

  lemma FailingRun(w: World) returns (ctx: Ctx, t: Table, j: nat)
    requires Fresh(w) && w.gas >= 2
    ensures var w3 := Run(RULES, w, ENTRIES[..3]);
      && Stands(w3, [Frame(1, t, [ASKING], 1)], [Parked(ctx)]) && w3.gas > 0
      && Valid(RULES, Origin(w.core, [], AnyMoves, None), w3)
      && j < |w3.log| && w3.log[j] == Restore(0)
  {
    hide Run, SettleWindow, Settled, Answered, Sparse, TableOf, Asks, Valid, Announce, Apply;
    assert ENTRIES[..3] == ENTRIES[..2] + [FAIL];
    var o, w2 := Origin(w.core, [], AnyMoves, None), Run(RULES, w, ENTRIES[..2]);
    RollingRun(w);
    RunOneMore(RULES, w, ENTRIES[..2], FAIL);
    ctx := CloseIsAnswered(w2);
    t := w2.core.view.table;
    SettlesAsSaid(w2);
    TheRuleSurvives(Answered(w2), t, ctx);
    DealtIsValid(w);
    RunIsLegal(RULES, o, w, ENTRIES[..2]);
    AnsweredIsLegal(o, w2);
    RunIsLegal(RULES, o, w, ENTRIES[..3]);
    j := RestoreIsLogged(w.core, Answered(w2));
  }

  lemma AnsweredIsLegal(o: Origin, w: World)
    requires Valid(RULES, o, w) && o.span.AnyMoves? && w.core.mode.Resting? && IsUp(w.core.view, 0, 0)
    ensures Valid(RULES, o, Answered(w))
  {
    hide Announce, Valid;
    DoKeepsValid(RULES, o, w, CloseWindow(0, 0, []));
    AnnounceLegal(RULES, o, Do(RULES, w, CloseWindow(0, 0, [])), CLOSED);
  }

  lemma RestoreIsLogged(o: Core, w: World) returns (j: nat)
    requires Valid(RULES, Origin(o, [], AnyMoves, None), w) && w.core.mode.Resting? && HasFrame(w.core.view, 0)
    ensures j < |Settled(w).log| && Settled(w).log[j] == Restore(0)
  {
    hide Settled, Valid, Apply;
    SinceItself(RULES, Do(RULES, w, Restore(0)));
    SettledStaysLegal(Since(Do(RULES, w, Restore(0))), w);
    StaysLogged(RULES, o, w, Restore(0), Settled(w));
    j := |w.log|;
  }

  lemma RollIsAboutToFail(w: World)
    requires RollIsOpen(w)
    ensures Cancellation.AboutToFail(RULES, w, 0, 0, Verdict.Rolled(0, map[]))
  {
    hide Sparse, TableOf, Asks;
    assert w.core.view.frames[0].id == 0;
  }

  /**
   * Cancelling has a limit: when the roll's frame opens no pipeline has ever
   * been started, so the rule's, number 0, is started inside it. After the roll
   * has failed and its frame is restored, the pipeline is still on the stack, and
   * once its question is answered it takes its next step.
   */
  lemma AnsweringTheCloseSurvives(w: World) returns (j: nat, k: nat)
    requires Fresh(w) && w.gas >= 2
    ensures var c2, c3 := Run(RULES, w, ENTRIES[..2]).core, Run(RULES, w, ENTRIES[..3]).core;
      && HasFrame(c2.view, 0) && c2.nextPipe == 0
      && Cancellation.AboutToFail(RULES, Run(RULES, w, ENTRIES[..2]), 0, 0, FAIL.verdict)
      && !HasFrame(c3.view, 0) && OnStack(c3, 0)
    ensures var log := Run(RULES, w, ENTRIES).log;
      && j < |Run(RULES, w, ENTRIES[..3]).log| <= k < |log| && log[j] == Restore(0) && log[k] == Begin(0)
  {
    hide Run, SettleWindow, Sparse, TableOf, Asks, Valid, Released, Woken, AnnounceResolved, Apply;
    hide Cancellation.AboutToFail;
    RollingRun(w);
    RollIsAboutToFail(Run(RULES, w, ENTRIES[..2]));
    assert Run(RULES, w, ENTRIES[..2]).core.view.frames[0].id == 0;
    var ctx, t, at := FailingRun(w);
    j := at;
    assert ENTRIES == ENTRIES[..3] + [ANSWER];
    RunOneMore(RULES, w, ENTRIES[..3], ANSWER);
    var o, w3 := Origin(w.core, [], AnyMoves, None), Run(RULES, w, ENTRIES[..3]);
    assert w3.core.stack[0].id == 0;
    QuestionSettles(w3, t, ctx);
    ReleasedIsLegal(o, w3);
    SinceItself(RULES, w3);
    ReleasedIsLegal(Since(w3), w3);
    WokenIsLegal(o, Released(w3));
    WokenIsLegal(Since(w3), Released(w3));
    TheRuleGoesOn(Released(w3), ctx);
    StaysLogged(RULES, w.core, Woken(Released(w3)), Begin(0), Run(RULES, w, ENTRIES));
    k := |Woken(Released(w3)).log|;
    Prefixes(w3, Woken(Released(w3)), Run(RULES, w, ENTRIES), j);
  }

  lemma Prefixes(w: World, w1: World, w2: World, j: nat)
    requires Valid(RULES, Since(w), w1) && j < |w.log| && |w1.log| < |w2.log| && w2.log[..|w1.log|] == w1.log
    ensures |w.log| <= |w1.log| && w2.log[j] == w.log[j]
  {
    assert w2.log[j] == w2.log[..|w1.log|][j];
  }
}
