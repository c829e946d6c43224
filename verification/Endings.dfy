/**
 * What follows the end of a game: nothing, exactly unless the table was
 * concluded while its start was being announced. Then the first turn starts all
 * the same, with its clock.
 */
module Endings {
  import opened Board
  import opened Abilities
  import opened Machine
  import opened Engine
  import opened EngineLegal
  import opened Requests
  import opened Pipelines
  import opened Rotation
  import opened TurnLaws
  import opened Settlement

  ghost predicate TurnAfterTheEnd(log: seq<Move>) {
    exists j, k | 0 <= j < k < |log| :: log[j].Conclude? && log[k].StartTurn?
  }

  /** The table was concluded before its first turn: while `GameStarted` was being heard. */
  ghost predicate EndedAtTheStart(r: Rules, o: Core, log: seq<Move>) {
    exists j | 0 <= j < |log| :: log[j].Conclude? && After(r, o, log[..j]).turn.phase.Opening?
  }

  // ---------------------------------------------------------------------------
  // Prefixes of a log
  // ---------------------------------------------------------------------------

  lemma {:induction false} PrefixIsLegal(r: Rules, o: Core, log: seq<Move>, k: nat)
    requires Legal(r, o, log) && k <= |log|
    ensures Legal(r, o, log[..k])
    ensures k < |log| ==> Enabled(r, After(r, o, log[..k]), log[k])
  {
    hide Enabled, After;
    if k == |log| {
      assert log[..k] == log;
    } else {
      var pre := Before(log);
      PrefixIsLegal(r, o, pre, k);
      assert pre[..k] == log[..k];
    }
  }

  /** Once the first turn has started, the turn machine never waits for it again. */
  lemma {:induction false} NeverOpensAgain(r: Rules, o: Core, log: seq<Move>, k: nat)
    requires Legal(r, o, log) && k <= |log| && !After(r, o, log[..k]).turn.phase.Opening?
    ensures !After(r, o, log).turn.phase.Opening?
  {
    if k == |log| {
      assert log[..k] == log;
    } else {
      var pre := Before(log);
      assert pre[..k] == log[..k];
      NeverOpensAgain(r, o, pre, k);
      OpensOnce(r, After(r, o, pre), Last(log));
      hide Apply, Enabled;
    }
  }

  lemma OpensOnce(r: Rules, c: Core, m: Move)
    requires Enabled(r, c, m) && !c.turn.phase.Opening?
    ensures !Apply(r, c, m).turn.phase.Opening?
  {
    if !TouchesTurn(m) {
      TurnUntouched(r, c, m);
      hide Apply, Enabled;
    }
  }

  lemma OnlyStartingLeaves(r: Rules, o: Core, log: seq<Move>, m: Move)
    requires IsInitial(o) && Legal(r, o, log) && Enabled(r, After(r, o, log), m)
    requires After(r, o, log).turn.phase.Opening? && !m.StartTurn?
    ensures Apply(r, After(r, o, log), m).turn.phase.Opening?
  {
    OpeningHasNoStarts(r, o, log);
    NobodyBeforeTheFirstTurn(r, o, log);
    hide Legal, After;
    TurnUntouched(r, After(r, o, log), m);
    if !TouchesTurn(m) { hide Apply, Enabled; }
  }

  /** It leaves its opening phase only by starting a turn. */
  lemma {:induction false} LeavesByStarting(r: Rules, o: Core, log: seq<Move>, j: nat) returns (k: nat)
    requires IsInitial(o) && Legal(r, o, log) && j <= |log|
    requires After(r, o, log[..j]).turn.phase.Opening? && !After(r, o, log).turn.phase.Opening?
    ensures j <= k < |log| && log[k].StartTurn?
  {
    hide Apply, Enabled, IsInitial;
    assert log[..|log|] == log;
    var pre := Before(log);
    assert pre[..j] == log[..j];
    if After(r, o, pre).turn.phase.Opening? {
      k := |log| - 1;
      if !Last(log).StartTurn? { OnlyStartingLeaves(r, o, pre, Last(log)); }
    } else {
      k := LeavesByStarting(r, o, pre, j);
    }
  }

  lemma {:induction false} EndingsCount(log: seq<Move>, j: nat)
    requires j < |log| && log[j].Conclude?
    ensures Endings(log) >= 1
  {
    if j < |log| - 1 { EndingsCount(log[..|log| - 1], j); }
  }

  // ---------------------------------------------------------------------------
  // Every log
  // ---------------------------------------------------------------------------

  /** A turn starts after the end only on a table concluded at its start. */
  lemma OnlyTheFirstTurn(r: Rules, o: Core, log: seq<Move>)
    requires IsInitial(o) && Legal(r, o, log) && TurnAfterTheEnd(log)
    ensures EndedAtTheStart(r, o, log)
  {
    var j, k :| 0 <= j < k < |log| && log[j].Conclude? && log[k].StartTurn?;
    var pre := log[..k];
    PrefixIsLegal(r, o, log, k);
    assert pre[j] == log[j] && pre[..j] == log[..j];
    EndingsCount(pre, j);
    TheGameEndsOnce(r, o, pre);
    StartsOverTheEnd(r, After(r, o, pre), log[k]);
    hide Apply, Enabled, IsConcluded;
    if !After(r, o, pre[..j]).turn.phase.Opening? { NeverOpensAgain(r, o, pre, j); }
  }

  lemma StartsOverTheEnd(r: Rules, c: Core, m: Move)
    requires Enabled(r, c, m) && m.StartTurn? && IsConcluded(c)
    ensures c.turn.phase.Opening?
  {
  }

  /** No time left and nothing to run out. */
  ghost predicate Still(c: Core) {
    c.clock.remaining.None? && c.clock.handle.None? && c.clock.timers == map[]
  }

  lemma StillOneMove(r: Rules, c: Core, m: Move)
    requires Enabled(r, c, m) && OneTimer(c)
    requires m.Conclude? || (IsConcluded(c) && Still(c) && !m.StartTurn?)
    ensures Still(Apply(r, c, m))
  {
    ClockOneMove(r, c, m);
  }

  lemma EndedBefore(r: Rules, o: Core, log: seq<Move>)
    requires log != [] && !EndedAtTheStart(r, o, log)
    ensures !EndedAtTheStart(r, o, Before(log))
    ensures Last(log).Conclude? ==> !After(r, o, Before(log)).turn.phase.Opening?
  {
    hide After;
    var pre := Before(log);
    forall j | 0 <= j < |pre| && pre[j].Conclude? ensures !After(r, o, pre[..j]).turn.phase.Opening? {
      assert log[j] == pre[j] && log[..j] == pre[..j];
    }
    if Last(log).Conclude? { assert log[|log| - 1].Conclude? && log[..|log| - 1] == pre; }
  }

  /** No timer outlives the table, nor any of the turn's time, unless the table was concluded at its start. */
  lemma {:induction false} NoTimerOutlivesTheTable(r: Rules, o: Core, log: seq<Move>)
    requires IsInitial(o) && Legal(r, o, log) && IsConcluded(After(r, o, log)) && !EndedAtTheStart(r, o, log)
    ensures Still(After(r, o, log)) && !After(r, o, log).turn.phase.Opening?
  {
    hide Apply, Enabled, EndedAtTheStart, Still, IsConcluded, IsInitial;
    if log == [] {
      NotConcludedYet(o);
    } else {
      var pre, m := Before(log), Last(log);
      var c := After(r, o, pre);
      EndedBefore(r, o, log);
      TheGameEndsOnce(r, o, pre);
      EndOneMove(r, c, m);
      ClockConservesTime(r, o, pre);
      if !m.Conclude? {
        NoTimerOutlivesTheTable(r, o, pre);
        if m.StartTurn? { StartsOverTheEnd(r, c, m); }
      }
      StillOneMove(r, c, m);
      OpensOnce(r, c, m);
    }
  }

  lemma NotConcludedYet(o: Core)
    requires IsInitial(o)
    ensures !IsConcluded(o)
  {
  }

  // ---------------------------------------------------------------------------
  // Every run
  // ---------------------------------------------------------------------------

  /** Tables are started with somebody to go first who is at the table. */
  predicate Registered(r: Rules, inputs: seq<Input>) {
    forall i | 0 <= i < |inputs| && inputs[i].Start? :: inputs[i].order != [] && inputs[i].order[0] in r.players
  }

  /** Nothing has happened yet but that time has passed. */
  ghost predicate Unstarted(w: World) {
    && w.core.mode.Resting? && w.core.stack == [] && w.core.view.frames == []
    && w.core.view.table.phase.Setup? && w.core.turn.phase.Opening? && w.core.clock.timers == map[]
    && Endings(w.log) == 0
  }

  lemma TurnOfAnnouncement(r: Rules, w: World, player: Id)
    requires w.core.mode.Resting? && IsDue(w.core.turn, player) && (IsConcluded(w.core) ==> w.core.turn.phase.Opening?)
    requires !Halted(w) && player in r.players
    ensures StartTurnFor(r, w, player).core.turn.phase.Acting?
  {
    hide Announce, IsDue, Refreshed, Machine.StopClock;
  }

  lemma StartLeavesOpening(r: Rules, w: World, order: seq<Id>)
    requires w.core.mode.Resting? && !Halted(w) && Enabled(r, w.core, BeginGame(order))
    requires order != [] && order[0] in r.players
    ensures Halted(StartGame(r, w, order)) || StartGame(r, w, order).core.turn.phase.Acting?
  {
    hide Announce, StartTurnFor;
    var w1 := Announce(r, Do(r, w, BeginGame(order)), Plain(GameStarted, "", None));
    if !Halted(w1) { TurnOfAnnouncement(r, w1, order[0]); } else { HaltedStays(r, w1, order[0]); }
  }

  lemma HaltedStays(r: Rules, w: World, player: Id)
    requires w.core.mode.Resting? && IsDue(w.core.turn, player) && (IsConcluded(w.core) ==> w.core.turn.phase.Opening?)
    requires Halted(w)
    ensures StartTurnFor(r, w, player) == w
  {
  }

  lemma StepFromUnstarted(r: Rules, w: World, i: Input)
    requires Unstarted(w) && !Halted(w) && (i.Start? ==> i.order != [] && i.order[0] in r.players)
    ensures var w' := Step(r, w, i); Halted(w') || w'.core.turn.phase.Acting? || Unstarted(w')
  {
    hide StartGame, Lapse, DrainQueue, Execute;
    match i
    case Start(order) => StartLeavesOpening(r, w, order);
    case Wait(ms) => assert (w.log + [Advance(ms)])[..|w.log|] == w.log;
    case _ =>
  }

  lemma StepAfterOpening(r: Rules, w: World, i: Input)
    requires w.core.mode.Resting? && !w.core.turn.phase.Opening?
    ensures !Step(r, w, i).core.turn.phase.Opening?
  {
    hide Step;
    SinceItself(r, w);
    StepLegal(r, Since(w), w, i);
    var log := Step(r, w, i).log[|w.log|..];
    assert log[..0] == [];
    NeverOpensAgain(r, w.core, log, 0);
  }

  lemma {:induction false} StartedOrUnstarted(r: Rules, w: World, inputs: seq<Input>)
    requires Dealt(w) && Registered(r, inputs)
    ensures var w' := Run(r, w, inputs); Halted(w') || !w'.core.turn.phase.Opening? || Unstarted(w')
  {
    hide Step, Unstarted;
    if inputs == [] {
      DealtIsUnstarted(w);
    } else {
      var pre, i := inputs[..|inputs| - 1], inputs[|inputs| - 1];
      assert forall k | 0 <= k < |pre| :: pre[k] == inputs[k];
      StartedOrUnstarted(r, w, pre);
      var w1 := Run(r, w, pre);
      if Halted(w1) {
        HaltedStep(r, w1, i);
      } else if w1.core.turn.phase.Opening? {
        assert i == inputs[|inputs| - 1];
        StepFromUnstarted(r, w1, i);
      } else {
        StepAfterOpening(r, w1, i);
      }
    }
  }

  lemma HaltedStep(r: Rules, w: World, i: Input)
    requires w.core.mode.Resting? && Halted(w)
    ensures Step(r, w, i) == w
  {
  }

  lemma DealtIsUnstarted(w: World)
    requires Dealt(w)
    ensures Unstarted(w)
  {
  }

  /**
   * Over every run of a table whose first player is at it, and that no engine
   * error stops: a turn starts after the end of the game if and only if the game
   * ended while its start was being announced.
   */
  lemma TurnAfterTheEndIffEndedAtTheStart(r: Rules, w: World, inputs: seq<Input>)
    requires Dealt(w) && Registered(r, inputs) && !Halted(Run(r, w, inputs))
    ensures var log := Run(r, w, inputs).log;
      TurnAfterTheEnd(log) <==> EndedAtTheStart(r, w.core, log)
  {
    hide Run, Apply, Enabled, Unstarted, IsInitial;
    DealtIsValid(r, w);
    var o, w' := Origin(w.core, [], AnyMoves, None), Run(r, w, inputs);
    RunIsLegal(r, o, w, inputs);
    var log := w'.log;
    assert log[0..] == log;
    if TurnAfterTheEnd(log) { OnlyTheFirstTurn(r, w.core, log); }
    if EndedAtTheStart(r, w.core, log) {
      var j :| 0 <= j < |log| && log[j].Conclude? && After(r, w.core, log[..j]).turn.phase.Opening?;
      EndingsCount(log, j);
      StartedOrUnstarted(r, w, inputs);
      UnstartedHasNoEnd(w');
      var k := LeavesByStarting(r, w.core, log, j);
    }
  }

  lemma UnstartedHasNoEnd(w: World)
    ensures Unstarted(w) ==> Endings(w.log) == 0
  {
  }

  lemma DealtIsValid(r: Rules, w: World)
    requires Dealt(w)
    ensures Valid(r, Origin(w.core, [], AnyMoves, None), w) && IsInitial(w.core) && w.core.mode.Resting?
  {
  }

  // ---------------------------------------------------------------------------
  // The first turn of a concluded table
  // ---------------------------------------------------------------------------

  /** The world in which `GameStarted` has been heard. */
  function StartHeard(r: Rules, w: World, order: seq<Id>): (w': World)
    requires w.core.mode.Resting? && Enabled(r, w.core, BeginGame(order))
    ensures w'.core.mode.Resting? && w'.core.turn == w.core.turn.(order := order)
  {
    Announce(r, Do(r, w, BeginGame(order)), Plain(GameStarted, "", None))
  }

  lemma NobodyHears(r: Rules, w: World, player: Id)
    requires w.core.mode.Resting? && IsConcluded(w.core) && !Halted(w)
    ensures Announce(r, w, Plain(TurnStarted, player, None)) == Do(r, w, Hear(Plain(TurnStarted, player, None)))
  {
    var e := Plain(TurnStarted, player, None);
    var w0 := Do(r, w, Hear(e));
    assert HearClock(r, w0, e) == w0 && HearTask(r, w0, e) == w0;
    assert Listen(r, w0, e) == w0;
  }

  /**
   * If the game ends while its start is announced, the first turn starts on the
   * concluded table, is announced to nobody, and its timer runs unless a window
   * is open.
   */
  lemma FirstTurnStartsAnyway(r: Rules, w: World, order: seq<Id>)
    requires w.core.mode.Resting? && !Halted(w) && Enabled(r, w.core, BeginGame(order))
    requires order != [] && order[0] in r.players
    requires !Halted(StartHeard(r, w, order)) && IsConcluded(StartHeard(r, w, order).core)
    ensures var heard, w' := StartHeard(r, w, order), StartGame(r, w, order);
      && !Halted(w') && IsConcluded(w'.core) && w'.core.view.table.current == Some(order[0])
      && w'.core.turn.phase.Acting? && w'.core.turn.number == w.core.turn.number + 1
      && heard.log + [StartTurn(order[0]), Hear(Plain(TurnStarted, order[0], None))] <= w'.log
      && w'.core.clock.remaining == r.turnTime
      && (w'.core.clock.handle.Some? <==> r.turnTime.Some? && !HasOpenFrames(heard.core.view))
  {
    hide Announce, Turned, HasOpenFrames, Refreshed;
    var heard := StartHeard(r, w, order);
    OpensTheFirstTurn(r, w, heard, order);
    var w1 := Turned(r, heard, order[0]);
    NobodyHears(r, w1, order[0]);
    FirstTurnGoes(r, w, order, heard, w1, Do(r, w1, Hear(Plain(TurnStarted, order[0], None))));
    StoppedClockSyncs(r, Do(r, w1, Hear(Plain(TurnStarted, order[0], None))));
  }

  lemma FirstTurnGoes(r: Rules, w: World, order: seq<Id>, heard: World, w1: World, w2: World)
    requires w.core.mode.Resting? && !Halted(w) && Enabled(r, w.core, BeginGame(order))
    requires order != [] && order[0] in r.players && heard == StartHeard(r, w, order) && !Halted(heard)
    requires Enabled(r, heard.core, StartTurn(order[0])) && w1 == Turned(r, heard, order[0]) && !Halted(w1)
    requires w2.core.mode.Resting? && !Halted(w2) && Announce(r, w1, Plain(TurnStarted, order[0], None)) == w2
    ensures StartGame(r, w, order) == SyncClock(r, w2)
  {
    hide Announce, Turned, SyncClock, Refreshed;
  }

  lemma StoppedClockSyncs(r: Rules, w: World)
    requires w.core.mode.Resting? && w.core.clock.handle.None? && w.core.turn.phase.Acting?
    ensures var w', k := SyncClock(r, w), SyncClock(r, w).core.clock;
      && w'.core == w.core.(clock := k) && w'.halt == w.halt && w.log <= w'.log
      && k.remaining == w.core.clock.remaining
      && (k.handle.Some? <==> k.remaining.Some? && !HasOpenFrames(w.core.view))
  {
    hide HasOpenFrames;
  }

  lemma OpensTheFirstTurn(r: Rules, w: World, heard: World, order: seq<Id>)
    requires w.core.mode.Resting? && Enabled(r, w.core, BeginGame(order)) && order != [] && order[0] in r.players
    requires heard.core.mode.Resting? && heard.core.turn == w.core.turn.(order := order) && IsConcluded(heard.core)
    ensures IsDue(heard.core.turn, order[0]) && Enabled(r, heard.core, StartTurn(order[0]))
    ensures var w' := Turned(r, heard, order[0]);
      && IsConcluded(w'.core) && w'.core.view.table.current == Some(order[0])
      && (HasOpenFrames(w'.core.view) <==> HasOpenFrames(heard.core.view))
      && w'.core.turn.phase.Acting? && w'.core.turn.number == w.core.turn.number + 1
      && w'.core.clock.remaining == r.turnTime && w'.core.clock.handle.None?
      && w'.halt == heard.halt && w'.log == heard.log + [StartTurn(order[0])]
  {
    hide Refreshed;
  }

  // ---------------------------------------------------------------------------
  // A table that is won before it starts
  // ---------------------------------------------------------------------------

  const ANN: Id := "ann"

  /** One player, no cards, a minute a turn, and a condition everybody meets from the first. */
  const WON: Rules := Rules([ANN], map[], [], [], (_, _, _, _) => false, [(_, _) => true], false, map[], Some(60000))

  const BARE: Cards := Cards(map[], [], [], [], [], [], [])

  lemma NothingAnswers(v: View, e: Event)
    requires v.table.cards == BARE
    ensures Started(WON, v, e) == [] && Sweep(WON, v, WON.players, e) == Swept(BARE, [])
  {
    assert [ANN][..0] == [];
    assert SeatSources(WON, BARE, ANN) == [];
    assert SeatsSources(WON, BARE, []) == [];
    assert SeatsSources(WON, BARE, [ANN]) == [];
    assert PrintedOn(WON, [], NO_OWNER) == [];
    assert Sources(WON, BARE) == [];
    assert Sweep(WON, v, [], e) == Swept(BARE, []);
    assert Doomed(WON, v, [], e) == [];
  }

  /** Nothing is woken, nothing starts, and the drain finds nothing to run. */
  lemma HeardByNobody(w: World, e: Event)
    requires !Halted(w) && !IsConcluded(w.core) && w.core.mode.Resting? && w.core.stack == []
    requires w.core.view.table.cards == BARE && e == Plain(GameStarted, "", None)
    ensures HearTask(WON, w, e) == w.(log := HearTask(WON, w, e).log)
  {
    NothingAnswers(w.core.view, e);
    var w1 := Do(WON, w, Edit(BARE));
    assert Expire(WON, w, e) == w1;
    NothingAnswers(w1.core.view, e);
    assert StartMatching(WON, WakeFor(WON, w1, e), e) == w1;
    var w2 := Do(WON, w1, StartLoop);
    hide Expire, StartMatching, WakeFor, Iterate;
    assert Loop(WON, w2) == w2;
    assert HearTask(WON, w, e) == Do(WON, w2, StopLoop);
  }

  lemma BegunBare(w: World)
    requires Dealt(w) && w.core.view.table.cards == BARE
    ensures Enabled(WON, w.core, BeginGame([ANN]))
    ensures var w1 := Do(WON, w, BeginGame([ANN]));
      && !Halted(w1) && !IsConcluded(w1.core) && w1.core.mode.Resting? && w1.core.stack == []
      && w1.core.view.frames == [] && w1.core.view.table.cards == BARE
  {
  }

  lemma WonAtTheStart(w: World)
    requires Dealt(w) && w.core.view.table.cards == BARE
    ensures w.core.mode.Resting? && Enabled(WON, w.core, BeginGame([ANN]))
    ensures var heard := StartHeard(WON, w, [ANN]); !Halted(heard) && IsConcluded(heard.core) && heard.core.view.frames == []
  {
    hide HearTask, ConcludeIfDue, Apply, Enabled, IsInitial;
    BegunBare(w);
    DealtIsValid(WON, w);
    var w1, e := Do(WON, w, BeginGame([ANN])), Plain(GameStarted, "", None);
    BegunHears(w1, e);
    var w2 := Do(WON, w1, Hear(e));
    HeardByNobody(w2, e);
    WonIsConcluded(HearTask(WON, w2, e));
    assert HearClock(WON, w2, e) == w2;
    assert Listen(WON, w2, e) == ConcludeIfDue(WON, HearTask(WON, w2, e));
  }

  lemma BegunHears(w: World, e: Event)
    ensures Enabled(WON, w.core, Hear(e)) && Do(WON, w, Hear(e)) == w.(log := w.log + [Hear(e)])
  {
  }

  lemma WonIsConcluded(w: World)
    requires !Halted(w) && !IsConcluded(w.core) && w.core.view.frames == []
    ensures var w' := ConcludeIfDue(WON, w); IsConcluded(w'.core) && w'.core.view.frames == [] && w'.halt == w.halt
  {
    assert Meets(WON, w.core.view, ANN) by { assert WON.winConditions[0](w.core.view, ANN); }
  }

  lemma {:induction false} EndingsShow(log: seq<Move>) returns (j: nat)
    requires Endings(log) > 0
    ensures j < |log| && log[j].Conclude?
  {
    if log[|log| - 1].Conclude? { j := |log| - 1; } else { j := EndingsShow(log[..|log| - 1]); }
  }

  lemma HeardIsLegal(r: Rules, w: World, order: seq<Id>)
    requires Dealt(w) && Enabled(r, w.core, BeginGame(order))
    ensures var heard := StartHeard(r, w, order);
      Legal(r, w.core, heard.log) && heard.core == After(r, w.core, heard.log)
  {
    hide Announce, Legal, After;
    var o := Origin(w.core, [], AnyMoves, None);
    DealtIsValid(r, w);
    DoKeepsValid(r, o, w, BeginGame(order));
    AnnounceLegal(r, o, Do(r, w, BeginGame(order)), Plain(GameStarted, "", None));
    var heard := StartHeard(r, w, order);
    assert heard.log[0..] == heard.log;
  }

  lemma TheStartIsLogged(r: Rules, w: World, order: seq<Id>, log: seq<Move>)
    requires Dealt(w) && Enabled(r, w.core, BeginGame(order)) && IsConcluded(StartHeard(r, w, order).core)
    requires order != [] && StartHeard(r, w, order).log + [StartTurn(order[0]), Hear(Plain(TurnStarted, order[0], None))] <= log
    ensures TurnAfterTheEnd(log)
  {
    DealtIsValid(r, w);
    hide Announce, Apply, Enabled, IsConcluded, StartHeard, IsInitial;
    var heard := StartHeard(r, w, order);
    HeardIsLegal(r, w, order);
    TheGameEndsOnce(r, w.core, heard.log);
    hide Legal, After;
    var j := EndingsShow(heard.log);
    var begun := heard.log + [StartTurn(order[0]), Hear(Plain(TurnStarted, order[0], None))];
    assert log[j] == begun[j] == heard.log[j] && log[|heard.log|] == begun[|heard.log|];
  }

  lemma TheTimerIsLive(r: Rules, w: World, inputs: seq<Input>)
    requires Dealt(w) && Run(r, w, inputs).core.clock.handle.Some?
    ensures var k := Run(r, w, inputs).core.clock; k.handle.value in k.timers
  {
    hide Run, IsInitial;
    DealtIsValid(r, w);
    RunIsLegal(r, Origin(w.core, [], AnyMoves, None), w, inputs);
    var log := Run(r, w, inputs).log;
    assert log[0..] == log;
    ClockConservesTime(r, w.core, log);
  }

  /**
   * The start is announced, the game is over, and the first turn starts with a
   * timer running on the concluded table: one entry from a dealt one.
   */
  lemma WonBeforeItStarts(w: World)
    requires Dealt(w) && w.core.view.table.cards == BARE
    ensures var w' := Run(WON, w, [Input.Start([ANN])]);
      && !Halted(w') && IsConcluded(w'.core) && w'.core.turn.phase.Acting? && w'.core.turn.number == 1
      && TurnAfterTheEnd(w'.log)
      && w'.core.clock.handle.Some? && w'.core.clock.handle.value in w'.core.clock.timers
  {
    hide StartHeard, Run, TurnAfterTheEnd;
    WonAtTheStart(w);
    FirstTurnStartsAnyway(WON, w, [ANN]);
    RunNone(WON, w);
    RunOneMore(WON, w, [], Input.Start([ANN]));
    assert [] + [Input.Start([ANN])] == [Input.Start([ANN])];
    var w' := StartGame(WON, w, [ANN]);
    TheStartIsLogged(WON, w, [ANN], w'.log);
    TheTimerIsLive(WON, w, [Input.Start([ANN])]);
  }
}
