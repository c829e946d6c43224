/**
 * Where the laws of the turns stop: runs of the whole engine in which one seat
 * plays twice running, and in which one player's action is served on the board
 * of another's turn. Both come of a frame opened in one turn and restored in
 * the next: a snapshot carries the current player.
 */
module Limits {
  import opened Board
  import opened Abilities
  import opened Machine
  import opened Engine
  import opened EngineLegal
  import opened Requests
  import opened OneRule

  /** When Ann's turn ends, her hero rolls; nobody waits for it. */
  const RULE: Rule := AnswersTo(TurnEnded, [Asks(ROLL, ANN, false)])
  const RULES: Rules := TableOf(RULE)

  const ENDED: Event := Plain(TurnEnded, ANN, None)
  const ROLLING: Window := WindowOn(ROLL, ANN)

  // ---------------------------------------------------------------------------
  // The end of Ann's turn
  // ---------------------------------------------------------------------------

  ghost predicate Idle(w: World) {
    Calm(w) && w.core.mode.Resting? && w.core.stack == [] && w.gas >= 2 && FramesBelow(w.core)
  }

  /** The rule's one pipeline, pushed, run and gone: what is left is the roll. */
  function Rolled(c: Core): Core {
    c.(view := c.view.(frames := c.view.frames + [Frame(c.nextFrame, c.view.table, [ROLLING], c.nextPipe + 1)]),
       nextFrame := c.nextFrame + 1, nextPipe := c.nextPipe + 1)
  }

  lemma StepBegins(w: World, pipe: Pipe)
    requires Calm(w) && w.core.mode.Looping? && w.core.stack == [pipe] && pipe.steps == RULE.steps && pipe.pausedOn.None?
    ensures Enabled(RULES, w.core, Begin(pipe.id))
    ensures var c := Apply(RULES, w.core, Begin(pipe.id));
      c == w.core.(stack := [pipe.(steps := [])], mode := Stepping(pipe.id, w.core.nextFrame))
  {
    hide Sparse, Asks;
    assert RULE.steps[1..] == [] && [pipe][..0] == [];
  }

  lemma StepEnds(w: World, w2: World, pipe: Pipe)
    requires w.core.mode.Looping? && pipe.pausedOn.None?
    requires w2.core == Opened(w.core.(stack := [pipe.(steps := [])], mode := Stepping(pipe.id, w.core.nextFrame)), ROLLING)
    ensures Enabled(RULES, w2.core, Finish(pipe.id, pipe.ctx, None))
    ensures Apply(RULES, w2.core, Finish(pipe.id, pipe.ctx, None)) == Opened(w.core, ROLLING).(stack := [pipe.(steps := [])])
  {
    var c := Apply(RULES, w2.core, Finish(pipe.id, pipe.ctx, None));
    assert c.stack[0] == pipe.(steps := []);
  }

  lemma StepRolls(w: World, pipe: Pipe)
    requires Calm(w) && w.core.mode.Looping? && w.gas > 0 && FramesBelow(w.core)
    requires w.core.stack == [pipe] && pipe.steps == RULE.steps && pipe.pausedOn.None?
    ensures var n := Iterate(RULES, w);
      !n.stop && n.world == w.(core := Opened(w.core, ROLLING).(stack := [pipe.(steps := [])]), log := n.world.log, gas := w.gas - 1)
  {
    hide Execute, Sparse, Opened, FinishedIn, TableOf, Asks;
    StepBegins(w, pipe);
    var w1 := Do(RULES, w.(gas := w.gas - 1), Begin(pipe.id));
    assert pipe.steps[0] == Asks(ROLL, ANN, false);
    AskOpens(RULE, w1, ROLL, ANN, false, pipe.ctx);
    var w2 := Execute(RULES, w1, pipe.steps[0], 0, pipe.ctx, None).world;
    StepEnds(w, w2, pipe);
  }

  /** A system rule's pipeline leaves without a word. */
  lemma PopsQuietly(w: World, pipe: Pipe)
    requires w.core.mode.Looping? && w.gas > 0 && w.core.stack == [pipe]
    requires pipe.steps == [] && pipe.pausedOn.None? && pipe.system
    ensures var n := Iterate(RULES, w);
      !n.stop && n.world == w.(core := w.core.(stack := []), log := n.world.log, gas := w.gas - 1)
  {
    assert [pipe][..0] == [];
  }

  lemma LoopRolls(w: World, pipe: Pipe)
    requires Calm(w) && w.core.mode.Looping? && w.gas >= 2 && FramesBelow(w.core)
    requires w.core.stack == [pipe] && pipe.steps == RULE.steps && pipe.pausedOn.None? && pipe.system
    ensures var w' := Loop(RULES, w);
      w' == w.(core := Opened(w.core, ROLLING).(stack := []), log := w'.log, gas := w.gas - 2)
  {
    hide Sparse, Iterate, TableOf, Asks;
    StepRolls(w, pipe);
    var w1 := Iterate(RULES, w).world;
    PopsQuietly(w1, pipe.(steps := []));
    var w2 := Iterate(RULES, w1).world;
    assert Loop(RULES, w2) == w2;
    assert Loop(RULES, w1) == w2;
  }

  /** Ann's turn ends with a roll open and nothing running. */
  lemma AnnsTurnEnds(w: World)
    requires Idle(w)
    ensures Announce(RULES, w, ENDED) == w.(core := Rolled(w.core), log := Announce(RULES, w, ENDED).log, gas := w.gas - 2)
  {
    hide Sparse, Loop, Asks, TableOf, StartOf, Pushed, Announce;
    HeardRuns(RULE, w, ENDED);
    PushedAlone(RULE, w, ENDED);
    LoopRolls(Pushed(RULE, w, ENDED), PipeFor(RULE, w.core, ENDED));
  }

  // ---------------------------------------------------------------------------
  // Ann passes
  // ---------------------------------------------------------------------------

  /** One frame, a roll of Ann's open in it, snapshotted when she had no points left in a turn of hers. */
  ghost predicate HoldsARoll(w: World) {
    && |w.core.view.frames| == 1 && w.core.stack == []
    && w.core.view.frames[0].windows == [ROLLING] && w.core.view.frames[0].id < w.core.nextFrame
    && var before := w.core.view.frames[0].before;
       && Sparse(before.cards) && PointsOf(before.cards, ANN) == 0
       && before.current == Some(ANN) && before.phase.Turns?
  }

  /** Nothing open, nothing running, and no points left in a turn of Ann's. */
  ghost predicate AnnIsSpent(w: World, number: nat, queue: seq<Action>) {
    && InTurn(w, ANN, number, queue) && PointsOf(w.core.view.table.cards, ANN) == 0
    && w.core.view.frames == [] && w.core.stack == []
  }

  lemma MayPass(w: World)
    requires AnnIsSpent(w, w.core.turn.number, []) && w.gas >= 2
    ensures Enabled(RULES, w.core, EndTurn) && Idle(Do(RULES, w, EndTurn))
    ensures PointsOf(Do(RULES, w, EndTurn).core.view.table.cards, ANN) == 0
  {
  }

  lemma BobIsNext()
    ensures NextSeat(ORDER, ANN) == BOB
  {
    assert IndexOf(ORDER, ANN) == 0;
  }

  lemma AnnPasses(w: World, number: nat)
    requires AnnIsSpent(w, number, []) && w.gas >= 2
    ensures Enabled(RULES, w.core, EndTurn)
    ensures var w' := FinishTurn(RULES, w);
      InTurn(w', BOB, number + 1, []) && HoldsARoll(w') && w'.gas == w.gas - 2
      && w'.core.view.frames[0].id == w.core.nextFrame
  {
    hide Announce, StartTurnFor, Sparse, NextSeat, TableOf, Asks;
    MayPass(w);
    var w1 := Do(RULES, w, EndTurn);
    AnnsTurnEnds(w1);
    BobIsNext();
    TurnBegins(RULE, Announce(RULES, w1, ENDED), BOB);
  }

  function Pass(player: Id): Action {
    Action("pass", player, Forfeit, false, _ => true, Script(0, (_, ctx, _, v: View) => Return(v.table.cards, ctx, false)))
  }

  lemma SpentOnAnIdleBoard(w: World)
    requires AnnIsSpent(w, w.core.turn.number, [])
    ensures Enabled(RULES, w.core, EndTurn) && DrainQueue(RULES, w) == FinishTurn(RULES, w)
  {
    hide FinishTurn, Execute;
  }

  lemma PassIsServed(w: World, player: Id)
    requires Calm(w) && w.core.mode.Resting? && w.core.view.frames == [] && w.core.stack == []
    requires w.core.turn.queue == [Pass(player)] && w.core.view.table.current.Some?
    ensures Enabled(RULES, w.core, Take(true))
    ensures DrainQueue(RULES, w) == DrainQueue(RULES, Do(RULES, w, Take(true)))
  {
    hide FinishTurn, Paid, Sparse, TableOf, Asks;
    var w1 := Do(RULES, w, Take(true));
    assert Execute(RULES, w1, Pass(player).script, 0, map[], None).world == w1;
  }

  lemma PassIsTaken(w: World)
    requires InTurn(w, ANN, 1, []) && w.core.view.frames == [] && w.core.stack == []
    ensures Enabled(RULES, w.core, Accept(Pass(ANN))) && ReplyTo(w, Pass(ANN)).Accepted?
    ensures var w1 := Do(RULES, w, Accept(Pass(ANN)));
      Enabled(RULES, w1.core, Take(true)) && w1.core.turn.queue == [Pass(ANN)]
      && w1.core.mode.Resting? && w1.core.view.frames == [] && w1.core.stack == [] && w1.core.view.table.current.Some?
      && Calm(w1) && AnnIsSpent(Do(RULES, w1, Take(true)), 1, [])
      && Do(RULES, w1, Take(true)).gas == w.gas && Do(RULES, w1, Take(true)).core.nextFrame == w.core.nextFrame
  {
  }

  lemma AnnAsksToPass(w: World)
    requires InTurn(w, ANN, 1, []) && w.core.view.frames == [] && w.core.stack == [] && w.gas >= 2
    ensures var w' := Enqueue(RULES, w, Pass(ANN));
      InTurn(w', BOB, 2, []) && HoldsARoll(w') && w'.gas == w.gas - 2 && w'.core.view.frames[0].id == w.core.nextFrame
  {
    hide DrainQueue, FinishTurn, Sparse, Paid, TableOf, Asks, Pass, Apply, Enabled, HoldsARoll;
    PassIsTaken(w);
    var w1 := Do(RULES, w, Accept(Pass(ANN)));
    PassIsServed(w1, ANN);
    var w2 := Do(RULES, w1, Take(true));
    AnnPasses(w2, 1);
    SpentOnAnIdleBoard(w2);
  }

  // ---------------------------------------------------------------------------
  // The roll fails in Bob's turn
  // ---------------------------------------------------------------------------

  lemma TheRollCloses(w: World, queue: seq<Action>)
    requires InTurn(w, BOB, 2, queue) && HoldsARoll(w)
    ensures var f := w.core.view.frames[0].id;
      && Enabled(RULES, w.core, CloseWindow(f, 0, []))
      && var w1 := Announce(RULES, Do(RULES, w, CloseWindow(f, 0, [])), Plain(WindowClosed, ANN, None));
         InTurn(w1, BOB, 2, queue) && w1.gas == w.gas && |w1.core.view.frames| == 1 && w1.core.stack == []
         && w1.core.view.frames[0] == w.core.view.frames[0].(windows := [ROLLING.(open := false)])
  {
    hide Announce, Sparse, TableOf, Asks;
    var f := w.core.view.frames[0];
    assert HasFrame(w.core.view, f.id);
    var w1 := Do(RULES, w, CloseWindow(f.id, 0, []));
    assert w1.core.view.frames[0].windows == [ROLLING.(open := false)];
    Unheard(RULE, w1, Plain(WindowClosed, ANN, None));
  }

  /** The restored board is one of Ann's turn. */
  lemma TheRollFails(w: World, queue: seq<Action>)
    requires InTurn(w, BOB, 2, queue) && |w.core.view.frames| == 1 && w.core.stack == []
    requires var before := w.core.view.frames[0].before;
      Sparse(before.cards) && PointsOf(before.cards, ANN) == 0 && before.current == Some(ANN) && before.phase.Turns?
    ensures var w' := SettleModifier(RULES, w, w.core.view.frames[0].id, ROLLING, 0, map[]);
      AnnIsSpent(w', 2, queue) && w'.gas == w.gas
  {
    hide Announce, SpentInto, Sparse, Asks;
    var f := w.core.view.frames[0];
    assert w.core.view.frames[..0] == [];
    assert HasFrame(w.core.view, f.id);
    NothingSpent(w.core.view.table.cards, f);
    var w1 := Do(RULES, w, Restore(f.id));
    assert w1.core.view == View(f.before, []);
    assert w1.core.stack == [];
    Unheard(RULE, w1, Plain(RollFailed, ANN, Some(HERO)));
  }

  /** Up to the frame's last word: it is Ann's board, in the turn that was Bob's. */
  function Undone(w: World): World
    requires w.core.mode.Resting? && |w.core.view.frames| == 1 && IsUp(w.core.view, w.core.view.frames[0].id, 0)
  {
    var f := w.core.view.frames[0].id;
    assert HasFrame(w.core.view, f);
    var w1 := Announce(RULES, Do(RULES, w, CloseWindow(f, 0, [])), Plain(WindowClosed, ANN, None));
    Announce(RULES, SettleModifier(RULES, w1, f, ROLLING, 0, map[]), Resolved(f, [Slot(CTX_FINAL_ROLL, Number(0))], None))
  }

  lemma SettlesUndone(w: World, queue: seq<Action>)
    requires InTurn(w, BOB, 2, queue) && HoldsARoll(w)
    ensures IsUp(w.core.view, w.core.view.frames[0].id, 0)
    ensures AnnIsSpent(Undone(w), 2, queue) && Undone(w).gas == w.gas
    ensures SettleWindow(RULES, w, w.core.view.frames[0].id, 0, Verdict.Rolled(0, map[])) == DrainQueue(RULES, Undone(w))
  {
    hide Announce, Sparse, SettleModifier, DrainQueue, TableOf, Asks;
    var f := w.core.view.frames[0];
    assert HasFrame(w.core.view, f.id);
    TheRollCloses(w, queue);
    var w1 := Announce(RULES, Do(RULES, w, CloseWindow(f.id, 0, [])), Plain(WindowClosed, ANN, None));
    TheRollFails(w1, queue);
    Unheard(RULE, SettleModifier(RULES, w1, f.id, ROLLING, 0, map[]), Resolved(f.id, [Slot(CTX_FINAL_ROLL, Number(0))], None));
  }

  lemma UndoneIsLegal(o: Origin, w: World)
    requires Valid(RULES, o, w) && o.span.AnyMoves? && w.core.mode.Resting? && |w.core.view.frames| == 1
    requires IsUp(w.core.view, w.core.view.frames[0].id, 0)
    ensures Valid(RULES, o, Undone(w))
  {
    hide Announce, SettleModifier, Valid;
    var f := w.core.view.frames[0].id;
    assert HasFrame(w.core.view, f);
    DoKeepsValid(RULES, o, w, CloseWindow(f, 0, []));
    var w0 := Do(RULES, w, CloseWindow(f, 0, []));
    AnnounceLegal(RULES, o, w0, Plain(WindowClosed, ANN, None));
    var w1 := Announce(RULES, w0, Plain(WindowClosed, ANN, None));
    SettleModifierLegal(RULES, o, w1, f, ROLLING, 0, map[]);
    AnnounceLegal(RULES, o, SettleModifier(RULES, w1, f, ROLLING, 0, map[]),
      Resolved(f, [Slot(CTX_FINAL_ROLL, Number(0))], None));
  }

  // ---------------------------------------------------------------------------
  // Bob plays twice
  // ---------------------------------------------------------------------------

  /** Ann's turn is hers to end, the roll hers to fail; and the turn after Bob's is Bob's. */
  const TWICE: seq<Input> := [START, Request(Pass(ANN)), FAIL]

  lemma UntilBobsTurn(w: World)
    requires Fresh(w) && w.gas >= 2
    ensures var w' := Run(RULES, w, [START, Request(Pass(ANN))]);
      && InTurn(w', BOB, 2, []) && HoldsARoll(w') && w'.gas == w.gas - 2
      && w'.core.view.frames[0].id == 0
  {
    hide StartGame, Enqueue, Sparse, TableOf, Asks, Run;
    assert [START, Request(Pass(ANN))] == ([] + [START]) + [Request(Pass(ANN))];
    RunOneMore(RULES, w, [], START);
    RunOneMore(RULES, w, [] + [START], Request(Pass(ANN)));
    RunNone(RULES, w);
    AnnGoesFirst(RULE, w);
    AnnAsksToPass(StartGame(RULES, w, ORDER));
  }

  /**
   * The rotation can break: a roll opened by the end of Ann's turn fails in
   * Bob's, the board it restores is one of hers, her spent budget ends a turn of
   * hers again, and the seat after hers is Bob's a second time.
   */
  lemma BobPlaysTwiceRunning(w: World)
    requires Fresh(w) && w.gas >= 4
    ensures var c, c' := Run(RULES, w, TWICE[..2]).core, Run(RULES, w, TWICE).core;
      && c.turn.order == c'.turn.order == ORDER
      && c.turn.number == 2 && c.view.table.current == Some(BOB)
      && c'.turn.number == 3 && c'.view.table.current == Some(BOB)
  {
    hide Run, SettleWindow, Sparse, TableOf, Asks, DrainQueue, FinishTurn, Undone, Announce;
    assert TWICE[..2] == [START, Request(Pass(ANN))] && TWICE == TWICE[..2] + [FAIL];
    UntilBobsTurn(w);
    var w2 := Run(RULES, w, TWICE[..2]);
    RunOneMore(RULES, w, TWICE[..2], FAIL);
    SettlesUndone(w2, []);
    SpentOnAnIdleBoard(Undone(w2));
    AnnPasses(Undone(w2), 2);
  }

  // ---------------------------------------------------------------------------
  // Bob is served in Ann's name
  // ---------------------------------------------------------------------------

  /** Bob asks to end his turn while the roll is open, so he has to wait; then the roll fails. */
  const WAITED: seq<Input> := [START, Request(Pass(ANN)), Request(Pass(BOB)), FAIL]

  lemma BobMustWait(w: World)
    requires InTurn(w, BOB, 2, []) && HoldsARoll(w)
    ensures var w' := Enqueue(RULES, w, Pass(BOB));
      InTurn(w', BOB, 2, [Pass(BOB)]) && HoldsARoll(w') && w'.core.view.frames == w.core.view.frames
  {
    hide FinishTurn, Execute, TableOf, Asks;
    assert ROLLING in w.core.view.frames[0].windows && w.core.view.frames[0] in w.core.view.frames;
    assert HasOpenFrames(w.core.view);
  }

  lemma UntilBobWaits(w: World)
    requires Fresh(w) && w.gas >= 2
    ensures var w' := Run(RULES, w, WAITED[..3]);
      && InTurn(w', BOB, 2, [Pass(BOB)]) && HoldsARoll(w') && w'.core.view.frames[0].id == 0
      && Valid(RULES, Origin(w.core, [], AnyMoves, None), w')
  {
    hide Run, Enqueue, Sparse, TableOf, Asks, Pass;
    assert WAITED[..3] == [START, Request(Pass(ANN))] + [Request(Pass(BOB))];
    UntilBobsTurn(w);
    RunOneMore(RULES, w, [START, Request(Pass(ANN))], Request(Pass(BOB)));
    BobMustWait(Run(RULES, w, [START, Request(Pass(ANN))]));
    assert Valid(RULES, Origin(w.core, [], AnyMoves, None), w);
    RunIsLegal(RULES, Origin(w.core, [], AnyMoves, None), w, WAITED[..3]);
  }

  /**
   * An action can be served outside its player's turn: Bob's, accepted in his
   * turn 2, is taken off the queue and run in that very turn, with Ann current.
   */
  lemma BobIsServedInAnnsName(w: World) returns (k: nat)
    requires Fresh(w) && w.gas >= 2
    ensures var c, log := Run(RULES, w, WAITED[..3]).core, Run(RULES, w, WAITED).log;
      && c.turn.number == 2 && c.turn.queue == [Pass(BOB)] && c.view.table.current == Some(BOB)
      && k < |log| && log[k] == Take(true)
      && var served := After(RULES, w.core, log[..k]);
         served.turn.number == 2 && served.turn.queue == [Pass(BOB)] && served.view.table.current == Some(ANN)
  {
    hide Run, SettleWindow, Sparse, TableOf, Asks, DrainQueue, Undone, Announce, Pass, Valid;
    assert WAITED == WAITED[..3] + [FAIL];
    UntilBobWaits(w);
    RunOneMore(RULES, w, WAITED[..3], FAIL);
    var w3 := Run(RULES, w, WAITED[..3]);
    SettlesUndone(w3, [Pass(BOB)]);
    UndoneIsLegal(Origin(w.core, [], AnyMoves, None), w3);
    var w4 := Undone(w3);
    PassIsServed(w4, BOB);
    var w5 := Do(RULES, w4, Take(true));
    SinceItself(RULES, w5);
    DrainQueueLegal(RULES, Since(w5), w5);
    StaysLogged(RULES, w.core, w4, Take(true), DrainQueue(RULES, w5));
    k := |w4.log|;
  }
}
