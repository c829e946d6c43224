/** What each entry of the event loop sets going, and when it sets nothing going at all. */
module Entries {
  import opened Board
  import opened Machine
  import opened Engine
  import opened EngineLegal
  import opened Requests
  import opened TurnLaws
  import opened Soundness
  import opened Idle
  import opened Settlement
  import opened Waiting
  import opened Ticking
  import opened Outcomes

  /** Some window is open. */
  ghost predicate SomethingIsOpen(v: View) {
    exists f | f in v.frames :: exists win | win in f.windows :: win.open
  }

  /** It is its player's turn to ask, nothing is in its way, and it can be paid for. */
  ghost predicate MayAsk(w: World, a: Action) {
    && !IsConcluded(w.core) && w.core.turn.phase.Acting? && w.core.view.table.current == Some(a.player)
    && (a.reactable ==> !SomethingIsOpen(w.core.view) && w.core.stack == [])
    && (match a.price
        case Cost(points) => points <= SeatOf(w.core.view.table.cards, a.player).points
        case Forfeit => true)
    && a.guard(w.core.view)
  }

  /** A request is accepted exactly then; refused, it changes nothing. */
  lemma AcceptedIffItMayAsk(r: Rules, w: World, a: Action)
    requires w.core.mode.Resting? && !Halted(w)
    ensures ReplyTo(w, a).Accepted? <==> MayAsk(w, a)
    ensures if MayAsk(w, a) then w.log + [Accept(a)] <= Step(r, w, Request(a)).log else Step(r, w, Request(a)) == w
  {
    hide DrainQueue, Leads;
    if ReplyTo(w, a).Accepted? {
      var w1 := Do(r, w, Accept(a));
      SinceItself(r, w1);
      DrainQueueLegal(r, Since(w1), w1);
      Onward(r, w1, Step(r, w, Request(a)));
    }
  }

  /** A reaction is only taken into an open window, and time passes by itself. */
  lemma ReactsIntoAWindow(r: Rules, w: World, s: Script, ms: nat)
    requires w.core.mode.Resting?
    ensures !SomethingIsOpen(w.core.view) ==> Step(r, w, React(s)) == w
    ensures !Halted(w) && SomethingIsOpen(w.core.view) ==> Step(r, w, React(s)) == Execute(r, w, s, 0, map[], None).world
    ensures !Halted(w) ==> Step(r, w, Wait(ms)).log == w.log + [Advance(ms)]
  {
    hide Execute;
    assert SomethingIsOpen(w.core.view) <==> HasOpenFrames(w.core.view);
  }

  /** A game starts once: before it has, the order is taken and the start announced; after that nothing happens. */
  lemma StartsOnce(r: Rules, w: World, order: seq<Id>)
    requires w.core.mode.Resting? && !Halted(w)
    ensures if w.core.turn.phase.Opening? && w.core.view.table.phase.Setup?
      then w.log + [BeginGame(order), Hear(Event(GameStarted, "", None, None, None, map[], 0, []))] <= Step(r, w, Input.Start(order)).log
      else Step(r, w, Input.Start(order)) == w
  {
    hide Announce, StartTurnFor, Leads, Listen;
    if w.core.turn.phase.Opening? && w.core.view.table.phase.Setup? {
      var w1, e := Do(r, w, BeginGame(order)), Plain(GameStarted, "", None);
      var w2 := Do(r, w1, Hear(e));
      SinceItself(r, w2);
      ListenLegal(r, Since(w2), w2, e);
      AnnounceListens(r, w1, e);
      var w3 := Announce(r, w1, e);
      if order != [] {
        StillOpening(w, w1, w3, order);
        StartTurnForLegal(r, Since(w2), w3, order[0]);
      }
      Onward(r, w2, StartGame(r, w, order));
    }
  }

  lemma StillOpening(w: World, w1: World, w3: World, order: seq<Id>)
    requires w.core.turn.phase.Opening? && order != [] && Within(w1, w3) && w1.core.turn == w.core.turn.(order := order)
    ensures IsDue(w3.core.turn, order[0]) && w3.core.turn.phase.Opening?
  {
  }

  /** A timer fires only when it is due; before that, and without it, nothing happens. */
  lemma FiresWhenDue(r: Rules, w: World, t: nat)
    requires w.core.mode.Resting?
    ensures t !in w.core.clock.timers || w.core.clock.now < w.core.clock.timers[t].due ==> Step(r, w, TimerFires(t)) == w
  {
  }

  /**
   * Time up, over every run: the live timer of somebody's turn, fired when it is
   * due, takes what points the player has left and ends the turn, and the end is
   * announced.
   */
  lemma TimeUpEndsTheTurn(r: Rules, w: World, inputs: seq<Input>, t: nat)
    requires Dealt(w)
    requires var w1 := Run(r, w, inputs);
      && !Halted(w1) && !IsConcluded(w1.core) && w1.core.view.table.current.Some?
      && t in w1.core.clock.timers && w1.core.clock.timers[t].due <= w1.core.clock.now
    ensures var w1 := Run(r, w, inputs);
      var player, c := w1.core.view.table.current.value, w1.core.view.table.cards;
      w1.log + [Fire(t), Edit(WithSeat(c, player, SeatOf(c, player).(points := 0))), EndTurn,
        Hear(Event(TurnEnded, player, None, None, None, map[], 0, []))] <= Run(r, w, inputs + [TimerFires(t)]).log
  {
    DealtIsInitial(w);
    hide Run, Lapse, HasReason, AtRest, IsInitial;
    TheClockNeverLapsesOnABusyBoard(r, w, inputs);
    NobodyWaitsOnAnIdleBoard(r, w, inputs);
    RunOneMore(r, w, inputs, TimerFires(t));
    LapsedEnds(r, Run(r, w, inputs), t);
  }

  lemma LapsedEnds(r: Rules, w: World, t: nat)
    requires AtRest(w) && HasReason(w) && !Halted(w) && !IsConcluded(w.core) && w.core.view.table.current.Some?
    requires t in w.core.clock.timers && w.core.clock.timers[t].due <= w.core.clock.now
    ensures var player, c := w.core.view.table.current.value, w.core.view.table.cards;
      w.log + [Fire(t), Edit(WithSeat(c, player, SeatOf(c, player).(points := 0))), EndTurn,
        Hear(Event(TurnEnded, player, None, None, None, map[], 0, []))] <= Step(r, w, TimerFires(t)).log
  {
    hide DrainQueue, FinishTurn, Leads;
    TimerMeansIdle(w, t);
    var player, c := w.core.view.table.current.value, w.core.view.table.cards;
    TimerIsThisTurns(w, t);
    var w1 := Do(r, w, Fire(t));
    var w2 := Do(r, w1, Edit(WithPoints(c, player, 0)));
    SpentBudget(r, w2);
    assert Step(r, w, TimerFires(t)) == FinishTurn(r, w2);
    TurnEndIsSaid(r, w2);
  }

  lemma TimerIsThisTurns(w: World, t: nat)
    requires AtRest(w) && t in w.core.clock.timers
    ensures w.core.clock.timers[t].turn == w.core.turn.number && w.core.turn.phase.Acting?
  {
    assert OneTimer(w.core);
  }

  lemma TurnEndIsSaid(r: Rules, w: World)
    requires Enabled(r, w.core, EndTurn) && !Halted(w)
    ensures w.log + [EndTurn, Hear(Plain(TurnEnded, w.core.view.table.current.value, None))] <= FinishTurn(r, w).log
  {
    hide Announce, StartTurnFor, Leads, Listen, HasOpenFrames;
    var e, w1 := Plain(TurnEnded, w.core.view.table.current.value, None), Do(r, w, EndTurn);
    var w2 := Do(r, w1, Hear(e));
    SinceItself(r, w2);
    ListenLegal(r, Since(w2), w2, e);
    AnnounceListens(r, w1, e);
    var w3 := Announce(r, w1, e);
    if w3.core.turn.order != [] && !IsConcluded(w3.core) {
      StartTurnForLegal(r, Since(w2), w3, NextSeat(w3.core.turn.order, w3.core.turn.ended));
    }
    Onward(r, w2, FinishTurn(r, w));
  }
}
