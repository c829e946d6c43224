/** What reaches the engine from outside: requests, reactions, settling windows, timers. */
module Requests {
  import opened Board
  import opened Machine
  import opened Engine
  import opened Monsters

  // ---------------------------------------------------------------------------
  // Turns
  // ---------------------------------------------------------------------------

  function Turned(r: Rules, w: World, player: Id): (w': World)
    requires Enabled(r, w.core, StartTurn(player))
    ensures w'.core.mode.Resting?
  {
    Do(r, w, StartTurn(player))
  }

  function StartTurnFor(r: Rules, w: World, player: Id): (w': World)
    requires w.core.mode.Resting? && IsDue(w.core.turn, player)
    requires IsConcluded(w.core) ==> w.core.turn.phase.Opening?
    ensures w'.core.mode.Resting?
  {
    if Halted(w) || player !in r.players then w
    else
      var w1 := Announce(r, Turned(r, w, player), Plain(TurnStarted, player, None));
      if Halted(w1) then w1 else SyncClock(r, w1)
  }

  function StartNextTurn(r: Rules, w: World): (w': World)
    requires w.core.mode.Resting? && w.core.turn.phase.Closing? && !IsConcluded(w.core)
    ensures w'.core.mode.Resting?
  {
    if w.core.turn.order == [] then w
    else StartTurnFor(r, w, NextSeat(w.core.turn.order, w.core.turn.ended))
  }

  /** The turn ends and, unless that concluded the game, the next one starts. */
  function FinishTurn(r: Rules, w: World): (w': World)
    requires Enabled(r, w.core, EndTurn)
    ensures w'.core.mode.Resting?
  {
    var w1 := Announce(r, Do(r, w, EndTurn), Plain(TurnEnded, w.core.view.table.current.value, None));
    if Halted(w1) || IsConcluded(w1.core) then w1 else StartNextTurn(r, w1)
  }

  /** Runs the queue while the board is idle; a spent budget on an idle board ends the turn. */
  function DrainQueue(r: Rules, w: World): (w': World)
    requires w.core.mode.Resting?
    ensures w'.core.mode.Resting?
    decreases |w.core.turn.queue|
  {
    var c := w.core;
    if Halted(w) || c.view.table.current.None? then w
    else if c.turn.queue == [] then
      if PointsOf(c.view.table.cards, c.view.table.current.value) <= 0 && !IsBusy(c) then FinishTurn(r, w) else w
    else if IsBusy(c) then w
    else
      var run := CanExecute(c.view, c.turn.queue[0]);
      var w1 := Do(r, w, Take(run));
      if !run then DrainQueue(r, w1)
      else
        var w2 := Execute(r, w1, c.turn.queue[0].script, 0, map[], None).world;
        if Halted(w2) || IsBusy(w2.core) then w2 else DrainQueue(r, w2)
  }

  /** What the game engine goes on to do once an event has been heard, unless that stopped or ended the game. */
  function FollowUp(r: Rules, w: World, kind: Kind): (w': World)
    requires kind.TurnEnded? || kind.FrameResolved? ==> w.core.mode.Resting?
    requires kind.TurnEnded? ==> w.core.turn.phase.Closing?
  {
    if Halted(w) || IsConcluded(w.core) then w
    else if kind.TurnEnded? then StartNextTurn(r, w)
    else if kind.FrameResolved? then DrainQueue(r, w)
    else w
  }

  datatype Refusal = GameOver | NotYourTurn | Busy | NotAllowed

  /** `Fault` is the error of a request outside the action phase. */
  datatype Reply = Accepted | Refused(reason: Refusal) | Fault

  function ReplyTo(w: World, a: Action): Reply {
    if IsConcluded(w.core) then Refused(GameOver)
    else if !w.core.turn.phase.Acting? then Fault
    else if w.core.view.table.current != Some(a.player) then Refused(NotYourTurn)
    else if a.reactable && IsBusy(w.core) then Refused(Busy)
    else if !CanExecute(w.core.view, a) then Refused(NotAllowed)
    else Accepted
  }

  function Enqueue(r: Rules, w: World, a: Action): (w': World)
    requires w.core.mode.Resting?
    ensures w'.core.mode.Resting?
  {
    if Halted(w) || !ReplyTo(w, a).Accepted? then w else DrainQueue(r, Do(r, w, Accept(a)))
  }

  function Lapse(r: Rules, w: World, timer: nat): (w': World)
    requires Enabled(r, w.core, Fire(timer))
    ensures w'.core.mode.Resting?
  {
    var turn := w.core.clock.timers[timer].turn;
    var w1 := Do(r, w, Fire(timer));
    if turn != w1.core.turn.number || !w1.core.turn.phase.Acting? || IsConcluded(w1.core) then w1
    else if IsBusy(w1.core) then w1.(halt := LapsedBusy)
    else
      match w1.core.view.table.current
      case None => w1
      case Some(player) =>
        DrainQueue(r, Do(r, w1, Edit(WithPoints(w1.core.view.table.cards, player, 0))))
  }

  // ---------------------------------------------------------------------------
  // Windows
  // ---------------------------------------------------------------------------

  const CTX_FINAL_ROLL := "finalRoll"

  /** What a settling window was told: its final roll, its contest, or what was picked. */
  datatype Verdict =
    | Rolled(roll: int, seed: Ctx)
    | Contest(held: bool, defended: bool)
    | Picked(slots: seq<Slot>, outcome: seq<StepEvent>)

  function ReleaseFrame(r: Rules, w: World, f: FrameId): World
    requires w.core.mode.Resting?
  {
    if HasFrame(w.core.view, f) then Do(r, w, Release(f)) else w
  }

  function RestoreFrame(r: Rules, w: World, f: FrameId): World
    requires w.core.mode.Resting?
  {
    if HasFrame(w.core.view, f) then Do(r, w, Restore(f)) else w
  }

  /** The frame's last word: it wakes what waited, and the drain goes on. */
  function AnnounceResolved(r: Rules, w: World, f: FrameId, slots: seq<Slot>, card: Option<Id>): (w': World)
    requires w.core.mode.Resting?
    ensures w'.core.mode.Resting?
  {
    var w1 := Announce(r, w, Resolved(f, slots, card));
    if Halted(w1) || IsConcluded(w1.core) then w1 else DrainQueue(r, w1)
  }

  function SettleModifier(r: Rules, w: World, f: FrameId, win: Window, roll: int, seed: Ctx): (w': World)
    requires w.core.mode.Resting? && win.kind.Modifier?
    ensures w'.core.mode.Resting?
  {
    if Halted(w) then w
    else if roll < win.kind.required then
      Announce(r, RestoreFrame(r, w, f), Plain(RollFailed, win.respondent, Some(win.kind.hero)))
    else
      Announce(r, ReleaseFrame(r, w, f), Plain(RollSuccess, win.respondent, Some(win.kind.hero)).(seed := seed))
  }

  function Slain(c: Cards, monster: Id, player: Id): Cards {
    var refilled := if c.monsterDeck == [] then Minus(c.row, monster) else Minus(c.row, monster) + [c.monsterDeck[0]];
    var s := SeatOf(c, player);
    WithSeat(c, player, s.(monsters := s.monsters + [monster]))
      .(row := refilled, monsterDeck := if c.monsterDeck == [] then [] else c.monsterDeck[1..])
  }

  function SettleAttack(r: Rules, w: World, f: FrameId, win: Window, roll: int): (w': World)
    requires w.core.mode.Resting? && win.kind.Attack?
    ensures w'.core.mode.Resting?
  {
    var monster, player := win.kind.monster, win.respondent;
    if Halted(w) then w
    else
      match (if monster in r.monsters then TrySlay(r.monsters[monster], roll) else Miss)
      case Slay =>
        var w1 := ReleaseFrame(r, w, f);
        if monster !in w1.core.view.table.cards.row then w1.(halt := NotInRow)
        else Announce(r, Do(r, w1, Edit(Slain(w1.core.view.table.cards, monster, player))),
                      Plain(MonsterSlain, player, Some(monster)))
      case FightBack => Announce(r, RestoreFrame(r, w, f), Plain(MonsterFoughtBack, player, Some(monster)))
      case Miss => RestoreFrame(r, w, f)
  }

  function SettleChallenge(r: Rules, w: World, f: FrameId, win: Window, held: bool, defended: bool): (w': World)
    requires w.core.mode.Resting? && win.kind.Challenge?
    ensures w'.core.mode.Resting?
  {
    if Halted(w) then w
    else if !held then ReleaseFrame(r, w, f)
    else
      var w1 := Announce(r, w, Plain(ChallengeResolved, win.respondent, Some(win.kind.card)));
      if Halted(w1) then w1
      else if defended then
        var w2 := ReleaseFrame(r, w1, f);
        var c := w2.core.view.table.cards;
        Do(r, w2, Edit(c.(challenged := c.challenged + [win.kind.card])))
      else
        var w2 := RestoreFrame(r, w1, f);
        var c := w2.core.view.table.cards;
        Do(r, w2, Edit(c.(discard := c.discard + [win.kind.card])))
  }

  function SubjectCard(win: Window): Option<Id> {
    if win.kind.Challenge? then Some(win.kind.card) else None
  }

  /** The window has closed and its close was heard: restore or release, and resolve. */
  function SettleClosed(r: Rules, w: World, f: FrameId, win: Window, v: Verdict): (w': World)
    requires w.core.mode.Resting?
    ensures w'.core.mode.Resting?
  {
    match (win.kind, v)
    case (Modifier(_, _), Rolled(roll, seed)) =>
      AnnounceResolved(r, SettleModifier(r, w, f, win, roll, seed), f, [Slot(CTX_FINAL_ROLL, Number(roll))], None)
    case (Attack(_), Rolled(roll, _)) =>
      AnnounceResolved(r, SettleAttack(r, w, f, win, roll), f, [Slot(CTX_FINAL_ROLL, Number(roll))], None)
    case (Challenge(card), Contest(held, defended)) =>
      AnnounceResolved(r, SettleChallenge(r, w, f, win, held, defended), f, [], Some(card))
    case _ => w
  }

  /** A roll or a challenge: close, announce the close, settle. */
  function SettleOutcome(r: Rules, w: World, f: FrameId, index: nat, win: Window, v: Verdict): (w': World)
    requires w.core.mode.Resting? && IsUp(w.core.view, f, index)
    ensures w'.core.mode.Resting?
  {
    SettleClosed(r,
      Announce(r, Do(r, w, CloseWindow(f, index, [])), Plain(WindowClosed, win.respondent, SubjectCard(win))), f, win, v)
  }

  /** What a frame's questions were answered with, in the order they were opened. */
  function AnswersOf(windows: seq<Window>): seq<Slot> {
    if windows == [] then []
    else (if windows[0].kind.Choice? then windows[0].answer else []) + AnswersOf(windows[1..])
  }

  /** A question: it never restores, and its frame settles with the last of its questions, every answer in its last word. */
  function SettleChoice(
    r: Rules, w: World, f: FrameId, index: nat, win: Window, slots: seq<Slot>, outcome: seq<StepEvent>
  ): (w': World)
    requires w.core.mode.Resting? && IsUp(w.core.view, f, index)
    ensures w'.core.mode.Resting?
  {
    var w1 := Do(r, w, CloseWindow(f, index, slots));
    var last := HasFrame(w1.core.view, f) && !IsAsking(FrameOf(w1.core.view.frames, f));
    var w2 := if last then Do(r, w1, Release(f)) else w1;
    var w3 := AnnounceAll(r, Announce(r, w2, Plain(WindowClosed, win.respondent, None)), outcome);
    if last then AnnounceResolved(r, w3, f, AnswersOf(FrameOf(w1.core.view.frames, f).windows), None) else w3
  }

  /** The verdict has the shape its window asks for. */
  predicate Answers(kind: WindowKind, v: Verdict) {
    match kind
    case Modifier(_, _) => v.Rolled?
    case Attack(_) => v.Rolled?
    case Challenge(_) => v.Contest?
    case Choice => v.Picked?
  }

  /** A window runs out or is answered. A roll or a challenge waits while a question stands over it. */
  function SettleWindow(r: Rules, w: World, f: FrameId, index: nat, v: Verdict): (w': World)
    requires w.core.mode.Resting?
    ensures w'.core.mode.Resting?
  {
    if Halted(w) || !HasFrame(w.core.view, f) then w
    else
      var windows := FrameOf(w.core.view.frames, f).windows;
      if index >= |windows| || !windows[index].open || !Answers(windows[index].kind, v) then w
      else if windows[index].kind.Choice? then
        SettleChoice(r, w, f, index, windows[index], v.slots, v.outcome)
      else if HasOpenFramesAfter(w.core.view, f) then w
      else SettleOutcome(r, w, f, index, windows[index], v)
  }

  // ---------------------------------------------------------------------------
  // Runs of a table
  // ---------------------------------------------------------------------------

  /** `GameStarted` goes out before the first turn. */
  function StartGame(r: Rules, w: World, order: seq<Id>): (w': World)
    requires w.core.mode.Resting?
    ensures w'.core.mode.Resting?
  {
    if Halted(w) || !Enabled(r, w.core, BeginGame(order)) then w
    else
      var w1 := Announce(r, Do(r, w, BeginGame(order)), Plain(GameStarted, "", None));
      if order == [] then w1 else StartTurnFor(r, w1, order[0])
  }

  datatype Input =
    | Start(order: seq<Id>)
    | Request(action: Action)
    | React(script: Script)
    | Settle(frame: FrameId, index: nat, verdict: Verdict)
    | TimerFires(timer: nat)
    | Wait(ms: nat)

  /** One entry of the event loop, run to its end. A reaction is only ever taken into an open window. */
  function Step(r: Rules, w: World, i: Input): (w': World)
    requires w.core.mode.Resting?
    ensures w'.core.mode.Resting?
  {
    if Halted(w) then w
    else
      match i
      case Start(order) => StartGame(r, w, order)
      case Request(a) => Enqueue(r, w, a)
      case React(s) => if HasOpenFrames(w.core.view) then Execute(r, w, s, 0, map[], None).world else w
      case Settle(f, index, v) => SettleWindow(r, w, f, index, v)
      case TimerFires(t) => if Enabled(r, w.core, Fire(t)) then Lapse(r, w, t) else w
      case Wait(ms) => Do(r, w, Advance(ms))
  }

  /** A whole run: the dealt table, then one entry after another. */
  function Run(r: Rules, w: World, inputs: seq<Input>): (w': World)
    requires w.core.mode.Resting?
    ensures w'.core.mode.Resting?
  {
    if inputs == [] then w
    else Step(r, Run(r, w, inputs[..|inputs| - 1]), inputs[|inputs| - 1])
  }

  lemma RunNone(r: Rules, w: World)
    requires w.core.mode.Resting?
    ensures Run(r, w, []) == w
  {
  }

  lemma RunOneMore(r: Rules, w: World, inputs: seq<Input>, i: Input)
    requires w.core.mode.Resting?
    ensures Run(r, w, inputs + [i]) == Step(r, Run(r, w, inputs), i)
  {
    assert (inputs + [i])[..|inputs|] == inputs;
  }
}
