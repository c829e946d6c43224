/**
 * The engine in its own form: objects whose methods update their fields, a
 * re-entrant emitter, a guarded drain. Each method is proved to do to the whole
 * table exactly what the corresponding function of Engine.dfy and Requests.dfy
 * says, so the theorems about those functions are theorems about these objects.
 */
module Objects {
  import opened Board
  import opened Abilities
  import opened Machine
  import opened Engine
  import opened Requests
  import opened Monsters
  import opened Reading
  import DepthFirst

  /** The board: cards, turn, phase, open frames and the pipeline stack. */
  class GameState {
    var cards: Cards
    var current: Option<Id>
    var phase: Phase
    var winner: Option<Id>
    var frames: seq<Frame>
    var stack: seq<Pipe>
    var nextPipe: nat
    var nextFrame: FrameId

    constructor (cards: Cards)
      ensures this.cards == cards && current == None && phase == Setup && winner == None
      ensures frames == [] && stack == [] && nextPipe == 0 && nextFrame == 0
    {
      this.cards := cards;
      current, phase, winner := None, Setup, None;
      frames, stack, nextPipe, nextFrame := [], [], 0, 0;
    }

    function TableNow(): Table
      reads this
    {
      Table(cards, current, phase, winner)
    }

    function ViewNow(): View
      reads this
    {
      View(TableNow(), frames)
    }

    predicate IsBusy()
      reads this
    {
      HasOpenFrames(ViewNow()) || |stack| > 0
    }
  }

  lemma HaltedFollowUp(r: Rules, w: World, kind: Kind)
    requires Halted(w) && (kind.TurnEnded? || kind.FrameResolved? ==> w.core.mode.Resting?)
    requires kind.TurnEnded? ==> w.core.turn.phase.Closing?
    ensures FollowUp(r, w, kind) == w
  {
  }

  /** The event loop's timers and its time. */
  class EventLoop {
    var timers: map<nat, Timer>
    var nextTimer: nat
    var now: int

    constructor (now: int)
      ensures timers == map[] && nextTimer == 0 && this.now == now
    {
      timers, nextTimer, this.now := map[], 0, now;
    }

    method SetTimeout(turn: nat, ms: int) returns (handle: nat)
      modifies this
      ensures handle == old(nextTimer) && nextTimer == old(nextTimer) + 1 && now == old(now)
      ensures timers == old(timers)[handle := Timer(turn, now + ms)]
    {
      handle := nextTimer;
      timers := timers[handle := Timer(turn, now + ms)];
      nextTimer := nextTimer + 1;
    }

    method Advance(ms: nat)
      modifies this
      ensures now == old(now) + ms && timers == old(timers) && nextTimer == old(nextTimer)
    {
      now := now + ms;
    }

    method ClearTimeout(handle: nat)
      modifies this
      ensures timers == old(timers) - {handle} && nextTimer == old(nextTimer) && now == old(now)
    {
      timers := timers - {handle};
    }
  }

  datatype Listener = TurnClock | Tasks | Conclusion

  function Others(listeners: seq<Listener>, listener: Listener): seq<Listener> {
    if listeners == [] then []
    else
      var last := listeners[|listeners| - 1];
      Others(listeners[..|listeners| - 1], listener) + if last == listener then [] else [last]
  }

  /** Listeners are called in the order they were added. */
  class GameEventEmitter {
    var listeners: seq<Listener>

    constructor ()
      ensures listeners == []
    {
      listeners := [];
    }

    method AddListener(listener: Listener)
      modifies this
      ensures listeners == old(listeners) + [listener]
    {
      listeners := listeners + [listener];
    }

    method RemoveListener(listener: Listener)
      modifies this
      ensures listeners == Others(old(listeners), listener)
    {
      var kept: seq<Listener> := [];
      var i := 0;
      while i < |listeners|
        invariant i <= |listeners| && listeners == old(listeners) && kept == Others(listeners[..i], listener)
      {
        assert listeners[..i + 1][..i] == listeners[..i];
        if listeners[i] != listener { kept := kept + [listeners[i]]; }
        i := i + 1;
      }
      assert listeners[..i] == listeners;
      listeners := kept;
    }
  }

  /** A dealt table: the pieces, wired, and what the proofs keep beside them. */
  class Game {
    const rules: Rules
    const gs: GameState
    const loop: EventLoop
    const tasks: TaskManager
    const turns: TurnManager
    const engine: GameEngine
    const emitter: GameEventEmitter
    var gas: nat
    var halt: Halt
    ghost var log: seq<Move>

    constructor (rules: Rules, cards: Cards, now: int, gas: nat)
      ensures Valid() && fresh(Parts()) && Now().core.mode.Resting?
      ensures IsInitial(Now().core) && Now().log == [] && Now().halt.Live? && Now().gas == gas
      ensures Now().core.view.table.cards == cards && this.rules == rules
    {
      this.rules := rules;
      gs := new GameState(cards);
      loop := new EventLoop(now);
      tasks := new TaskManager();
      turns := new TurnManager();
      engine := new GameEngine();
      emitter := new GameEventEmitter();
      this.gas, halt, log := gas, Live, [];
      new;
      emitter.AddListener(TurnClock);
      emitter.AddListener(Tasks);
      emitter.AddListener(Conclusion);
    }

    ghost function Parts(): set<object> {
      {this, gs, loop, tasks, turns, engine, emitter}
    }

    ghost function Now(): World
      reads Parts()
    {
      World(
        Core(gs.ViewNow(), gs.stack, tasks.mode, gs.nextPipe, gs.nextFrame,
             Clock(turns.remaining, turns.since, turns.handle, loop.timers, loop.nextTimer, loop.now),
             Turn(turns.phase, turns.number, turns.queue, engine.playerOrder, turns.ended)),
        log, gas, halt)
    }

    /** All are listening; and the drain guard is up exactly while a drain loops or a step of it runs. */
    ghost predicate Valid()
      reads Parts()
    {
      emitter.listeners == [TurnClock, Tasks, Conclusion] && tasks.draining == !tasks.mode.Resting?
    }

    method Edit(cards: Cards)
      requires Valid()
      modifies gs, this`log
      ensures Valid() && Now() == Do(rules, old(Now()), Move.Edit(cards))
    {
      gs.cards := cards;
      log := log + [Move.Edit(cards)];
    }

    /** The event is on record from the moment it is emitted. */
    ghost method Note(e: Event)
      requires Valid()
      modifies this`log
      ensures Valid() && Now() == Do(rules, old(Now()), Hear(e))
    {
      log := log + [Hear(e)];
    }

    // --- The frames ---

    /** Snapshots the board and inserts an empty frame. */
    method OpenFrame() returns (f: FrameId)
      requires Valid()
      modifies gs, this`log
      ensures Valid() && Now() == Do(rules, old(Now()), Open) && f == old(gs.nextFrame)
    {
      f := gs.nextFrame;
      gs.frames := gs.frames + [Frame(f, gs.TableNow(), [], gs.nextPipe)];
      gs.nextFrame := f + 1;
      log := log + [Open];
    }

    method AddWindow(f: FrameId, win: Window)
      requires Valid() && Enabled(rules, Now().core, Move.AddWindow(f, win))
      modifies gs, this`log
      ensures Valid() && Now() == Do(rules, old(Now()), Move.AddWindow(f, win))
    {
      gs.frames := WithWindow(gs.frames, f, win);
      log := log + [Move.AddWindow(f, win)];
    }

    method CloseWindow(f: FrameId, index: nat, answer: seq<Slot>)
      requires Valid() && Enabled(rules, Now().core, Move.CloseWindow(f, index, answer))
      modifies gs, this`log
      ensures Valid() && Now() == Do(rules, old(Now()), Move.CloseWindow(f, index, answer))
    {
      gs.frames := WithClosed(gs.frames, f, index, answer);
      log := log + [Move.CloseWindow(f, index, answer)];
    }

    /** Nothing happens for a frame that is not open. */
    method ReleaseFrame(f: FrameId)
      requires Valid() && Now().core.mode.Resting?
      modifies gs, this`log
      ensures Valid() && Now() == Requests.ReleaseFrame(rules, old(Now()), f)
    {
      if !HasFrame(gs.ViewNow(), f) { return; }
      var spent := SpentInto(rules.players, gs.cards, FrameOf(gs.frames, f));
      gs.frames := WithoutFrame(gs.frames, f);
      gs.cards := PutAway(gs.cards, spent);
      log := log + [Release(f)];
    }

    /** Spent cards are read before the swap: restoring is what erases the evidence. */
    method RestoreFrame(f: FrameId)
      requires Valid() && Now().core.mode.Resting?
      modifies gs, this`log
      ensures Valid() && Now() == Requests.RestoreFrame(rules, old(Now()), f)
    {
      if !HasFrame(gs.ViewNow(), f) { return; }
      var frame := FrameOf(gs.frames, f);
      var spent := SpentInto(rules.players, gs.cards, frame);
      gs.frames := WithoutFrame(gs.frames, f);
      gs.stack := Dropped(gs.stack, f);
      gs.cards, gs.current := frame.before.cards, frame.before.current;
      gs.phase, gs.winner := frame.before.phase, frame.before.winner;
      gs.cards := TakeBack(gs.cards, spent);
      log := log + [Restore(f)];
    }

    // --- The emitter: every listener in turn, before the emission returns ---

    /** What the game engine does on hearing these events emits events of its own, inside this emission. */
    static function Rank(kind: Kind): nat {
      match kind
      case FrameResolved => 5
      case TurnEnded => 2
      case _ => 0
    }

    method Emit(e: Event)
      requires Valid() && (Reserved(e.kind) ==> Now().core.mode.Resting?)
      requires e.kind.TurnEnded? ==> turns.phase.Closing? && turns.ended == e.player
      modifies Parts()
      ensures Valid()
      ensures Rank(e.kind) == 0 ==> Now() == Announce(rules, old(Now()), e)
      ensures Rank(e.kind) > 0 ==> Now() == FollowUp(rules, Announce(rules, old(Now()), e), e.kind)
      decreases Rank(e.kind), gas, 1, Effects(rules, Now()), 2
    {
      hide HearTask, HearClock, Engine.ConcludeIfDue, FollowUp;
      if !halt.Live? { HaltedFollowUp(rules, Now(), e.kind); return; }
      Note(e);
      ghost var start := Now();
      var i := 0;
      while i < |emitter.listeners|
        invariant 0 <= i <= |emitter.listeners| == 3 && Valid()
        invariant i == 0 ==> Now() == start
        invariant i == 1 ==> Now() == HearClock(rules, start, e)
        invariant i == 2 ==> Now() == HearTask(rules, HearClock(rules, start, e), e)
        invariant i == 3 && Rank(e.kind) == 0 ==> Now() == Listen(rules, start, e)
        invariant i == 3 && Rank(e.kind) > 0 ==> Now() == FollowUp(rules, Listen(rules, start, e), e.kind)
        decreases 3 - i
      {
        match emitter.listeners[i] {
          case TurnClock => turns.OnEvent(this, e);
          case Tasks => tasks.OnEvent(this, e);
          case Conclusion => engine.OnEvent(this, e);
        }
        i := i + 1;
      }
    }

    method EmitAll(events: seq<StepEvent>)
      requires Valid()
      modifies Parts()
      ensures Valid() && Now() == AnnounceAll(rules, old(Now()), events)
      decreases 0, gas, 1, Effects(rules, Now()), 3, |events|
    {
      if events != [] {
        Emit(events[0]);
        EmitAll(events[1..]);
      }
    }

    // --- Steps ---

    /** Plays a step's script, act by act. */
    method Execute(s: Script, ctx: Ctx) returns (ctx': Ctx, park: Option<FrameId>)
      requires Valid()
      modifies Parts()
      ensures Valid()
      ensures Stepped(Now(), ctx', park) == Engine.Execute(rules, old(Now()), s, 0, ctx, None)
      decreases 0, gas, 3, s.length + 1
    {
      hide Engine.Perform;
      hide Announce;
      ghost var start := Now();
      var i, asked := 0, None;
      ctx', park := ctx, None;
      while halt.Live? && i < s.length
        invariant Valid() && i <= s.length && Within(start, Now())
        invariant Engine.Execute(rules, Now(), s, i, ctx', asked) == Engine.Execute(rules, start, s, 0, ctx, None)
        invariant park == None
        decreases s.length - i
      {
        var a := s.act(i, ctx', asked, gs.ViewNow());
        ctx' := a.ctx;
        if a.Return? {
          Edit(a.cards);
          park := if a.wait then asked else None;
          return;
        }
        var f := gs.nextFrame;
        Perform(a);
        if a.Ask? { asked := Some(f); }
        i := i + 1;
      }
    }

    /** An announcement, or a frame opened over the board as it stands and then its windows. */
    method Perform(a: Act)
      requires Valid() && !a.Return?
      modifies Parts()
      ensures Valid() && Now() == Engine.Perform(rules, old(Now()), a)
      decreases 0, gas, 3, 0, 1
    {
      Edit(a.cards);
      match a {
        case Emit(_, _, e) =>
          Emit(e);
        case Ask(_, _, plays, asking, more) =>
          var f := OpenFrame();
          PlayAll(plays);
          AskAll(f, [asking] + more);
      }
    }

    method PlayAll(plays: seq<Play>)
      requires Valid()
      modifies Parts()
      ensures Valid() && Now() == Engine.PlayAll(rules, old(Now()), plays)
      decreases 0, gas, 2, |plays|
    {
      if !halt.Live? || |plays| == 0 { return; }
      Edit(plays[0].edit(gs.cards));
      Emit(plays[0].event);
      PlayAll(plays[1..]);
    }

    method AskAll(f: FrameId, askings: seq<Asking>)
      requires Valid()
      modifies Parts()
      ensures Valid() && Now() == Engine.AskAll(rules, old(Now()), f, askings)
      decreases 0, gas, 2, |askings|
    {
      if !halt.Live? || askings == [] || !HasFrame(gs.ViewNow(), f) { return; }
      Emit(askings[0].opening);
      EmitAll(askings[0].standing);
      if !halt.Live? || !HasFrame(gs.ViewNow(), f) { return; }
      AddWindow(f, WindowOf(askings[0]));
      AskAll(f, askings[1..]);
    }
  }

  /** The action queue and the turn's clock. */
  class TurnManager {
    var phase: TurnPhase
    var queue: seq<Action>
    var remaining: Option<int>
    var since: int
    var handle: Option<nat>
    var number: nat
    ghost var ended: Id

    constructor ()
      ensures phase == Opening && queue == [] && remaining == None && handle == None && number == 0 && ended == ""
    {
      phase, queue, remaining, since, handle, number := Opening, [], None, 0, None, 0;
      ended := "";
    }

    method OnEvent(g: Game, e: Event)
      requires g.turns == this && g.Valid() && (e.kind.FrameResolved? ==> g.Now().core.mode.Resting?)
      modifies this, g.loop, g`log
      ensures g.Valid() && g.Now() == HearClock(g.rules, old(g.Now()), e)
    {
      if e.kind.WindowOpened? {
        PauseClock(g);
      } else if e.kind.FrameResolved? {
        SyncClock(g);
      }
    }

    method SyncClock(g: Game)
      requires g.turns == this && g.Valid() && g.Now().core.mode.Resting?
      modifies this, g.loop, g`log
      ensures g.Valid() && g.Now() == Engine.SyncClock(g.rules, old(g.Now()))
    {
      if HasOpenFrames(g.gs.ViewNow()) { PauseClock(g); } else { ResumeClock(g); }
    }

    /** Takes the stretch just run off what the turn has left, and the timer with it. */
    method HoldTimer(g: Game)
      requires g.turns == this
      modifies this, g.loop
      ensures Clock(remaining, since, handle, g.loop.timers, g.loop.nextTimer, g.loop.now)
        == Machine.PauseClock(old(Clock(remaining, since, handle, g.loop.timers, g.loop.nextTimer, g.loop.now)))
      ensures phase == old(phase) && queue == old(queue) && number == old(number) && ended == old(ended)
    {
      if handle.None? { return; }
      g.loop.ClearTimeout(handle.value);
      handle := None;
      if remaining.Some? { remaining := Some(remaining.value - (g.loop.now - since)); }
    }

    method PauseClock(g: Game)
      requires g.turns == this && g.Valid()
      modifies this, g.loop, g`log
      ensures g.Valid() && g.Now() ==
        if Running(old(g.Now()).core.clock) then Do(g.rules, old(g.Now()), Pause) else old(g.Now())
    {
      if handle.None? { return; }
      HoldTimer(g);
      g.log := g.log + [Pause];
    }

    method ResumeClock(g: Game)
      requires g.turns == this && g.Valid() && g.Now().core.mode.Resting? && !HasOpenFrames(g.gs.ViewNow())
      modifies this, g.loop, g`log
      ensures g.Valid() && g.Now() ==
        if CanResume(old(g.Now()).core) then Do(g.rules, old(g.Now()), Resume) else old(g.Now())
    {
      if remaining.None? || handle.Some? { return; }
      if !phase.Acting? { return; }
      since := g.loop.now;
      var timer := g.loop.SetTimeout(number, remaining.value);
      handle := Some(timer);
      g.log := g.log + [Resume];
    }

    /** Forgets the turn's clock, timer and all. */
    method StopClock(g: Game)
      requires g.turns == this
      modifies this, g.loop
      ensures Clock(remaining, since, handle, g.loop.timers, g.loop.nextTimer, g.loop.now)
        == Machine.StopClock(old(Clock(remaining, since, handle, g.loop.timers, g.loop.nextTimer, g.loop.now)))
      ensures phase == old(phase) && queue == old(queue) && number == old(number) && ended == old(ended)
    {
      HoldTimer(g);
      remaining := None;
    }

    method StartTurn(g: Game, player: Id)
      requires g.turns == this && g.Valid() && g.Now().core.mode.Resting? && IsDue(g.Now().core.turn, player)
      requires IsConcluded(g.Now().core) ==> phase.Opening?
      modifies g.Parts()
      ensures g.Valid() && g.Now() == StartTurnFor(g.rules, old(g.Now()), player)
      decreases 1, 0
    {
      hide Announce, Turned, Engine.SyncClock;
      if !g.halt.Live? || player !in g.rules.players { return; }
      BeginTurn(g, player);
      g.Emit(Plain(TurnStarted, player, None));
      if g.halt.Live? { SyncClock(g); }
    }

    /** The last turn's timer is forgotten; the new turn has its full time, not yet running. */
    method ResetClock(g: Game)
      requires g.turns == this
      modifies this, g.loop
      ensures Clock(remaining, since, handle, g.loop.timers, g.loop.nextTimer, g.loop.now)
        == Machine.StopClock(old(Clock(remaining, since, handle, g.loop.timers, g.loop.nextTimer, g.loop.now)))
          .(remaining := if g.rules.turnTime.Some? then Some(g.rules.turnTime.value) else None)
      ensures phase == old(phase) && queue == old(queue) && number == old(number) && ended == old(ended)
    {
      StopClock(g);
      remaining := if g.rules.turnTime.Some? then Some(g.rules.turnTime.value) else None;
    }

    /** Everything before the announcement. */
    method BeginTurn(g: Game, player: Id)
      requires g.turns == this && g.Valid() && Enabled(g.rules, g.Now().core, Move.StartTurn(player))
      modifies this, g.gs, g.loop, g`log
      ensures g.Valid() && g.Now() == Turned(g.rules, old(g.Now()), player)
    {
      hide Refreshed, IsDue, Machine.StopClock;
      g.gs.current := Some(player);
      g.gs.cards := Refreshed(g.gs.cards, player);
      phase := Acting;
      number := number + 1;
      ResetClock(g);
      g.log := g.log + [Move.StartTurn(player)];
    }

    method EndTurn(g: Game)
      requires g.turns == this && g.Valid() && Enabled(g.rules, g.Now().core, Move.EndTurn)
      modifies g.Parts()
      ensures g.Valid() && g.Now() == FinishTurn(g.rules, old(g.Now()))
      decreases 3
    {
      hide Announce, Requests.StartNextTurn, HasOpenFrames, Machine.StopClock, PointsOf;
      var player := g.gs.current.value;
      StopClock(g);
      g.gs.cards := g.gs.cards.(used := []);
      phase := Closing;
      ended := player;
      g.log := g.log + [Move.EndTurn];
      g.Emit(Plain(TurnEnded, player, None));
    }

    /** Off the queue, paid for if it may run. */
    method TakeFirst(g: Game) returns (run: bool)
      requires g.turns == this && g.Valid() && queue != []
      requires Enabled(g.rules, g.Now().core, Take(CanExecute(g.gs.ViewNow(), queue[0])))
      modifies this`queue, g.gs`cards, g`log
      ensures run == CanExecute(old(g.gs.ViewNow()), old(queue[0]))
      ensures g.Valid() && g.Now() == Do(g.rules, old(g.Now()), Take(run)) && queue == old(queue[1..])
      ensures g.gs.current == old(g.gs.current)
    {
      hide CanExecute, Paid, HasOpenFrames;
      var action := queue[0];
      run := CanExecute(g.gs.ViewNow(), action);
      queue := queue[1..];
      if run { g.gs.cards := Paid(g.gs.cards, action); }
      g.log := g.log + [Take(run)];
    }

    method Drain(g: Game)
      requires g.turns == this && g.Valid() && g.Now().core.mode.Resting?
      modifies g.Parts()
      ensures g.Valid() && g.Now() == DrainQueue(g.rules, old(g.Now()))
      decreases 4
    {
      hide FinishTurn, Engine.Execute, CanExecute, HasOpenFrames, Apply;
      if !g.halt.Live? || g.gs.current.None? { return; }
      ghost var start := g.Now();
      while |queue| > 0
        invariant g.Valid() && g.Now().core.mode.Resting?
        invariant g.halt.Live? && g.gs.current.Some?
        invariant DrainQueue(g.rules, g.Now()) == DrainQueue(g.rules, start)
        decreases |queue|
      {
        if g.gs.IsBusy() { return; }
        var action := queue[0];
        var run := TakeFirst(g);
        if run {
          var _, _ := g.Execute(action.script, map[]);
          if !g.halt.Live? || g.gs.IsBusy() { return; }
        }
      }
      if PointsOf(g.gs.cards, g.gs.current.value) <= 0 && !g.gs.IsBusy() { EndTurn(g); }
    }

    method Enqueue(g: Game, action: Action) returns (reply: Reply)
      requires g.turns == this && g.Valid() && g.Now().core.mode.Resting? && g.halt.Live?
      modifies g.Parts()
      ensures g.Valid() && g.Now() == Requests.Enqueue(g.rules, old(g.Now()), action)
      ensures reply == ReplyTo(old(g.Now()), action)
    {
      hide DrainQueue, CanExecute, HasOpenFrames;
      if g.gs.phase.Concluded? { return Refused(GameOver); }
      if !phase.Acting? { return Fault; }
      if g.gs.current != Some(action.player) { return Refused(NotYourTurn); }
      if action.reactable && g.gs.IsBusy() { return Refused(Busy); }
      if !CanExecute(g.gs.ViewNow(), action) { return Refused(NotAllowed); }
      queue := queue + [action];
      g.log := g.log + [Accept(action)];
      Drain(g);
      return Accepted;
    }

    method Lapse(g: Game, timer: nat)
      requires g.turns == this && g.Valid() && Enabled(g.rules, g.Now().core, Fire(timer))
      modifies g.Parts()
      ensures g.Valid() && g.Now() == Requests.Lapse(g.rules, old(g.Now()), timer)
    {
      var turn := g.loop.timers[timer].turn;
      g.loop.ClearTimeout(timer);
      handle := None;
      g.log := g.log + [Fire(timer)];
      if turn != number || !phase.Acting? { return; }
      if g.gs.phase.Concluded? { return; }
      if g.gs.IsBusy() { g.halt := LapsedBusy; return; }
      if g.gs.current.None? { return; }
      g.Edit(WithPoints(g.gs.cards, g.gs.current.value, 0));
      Drain(g);
    }
  }

  /** Turn rotation and the end of the game. */
  class GameEngine {
    var playerOrder: seq<Id>
    var dirty: bool

    constructor ()
      ensures playerOrder == []
    {
      playerOrder, dirty := [], false;
    }

    /** The end of the game, if it is due; else the next turn after a turn, the rest of the queue after a frame. */
    method OnEvent(g: Game, e: Event)
      requires g.engine == this && g.Valid() && (Reserved(e.kind) ==> g.Now().core.mode.Resting?)
      requires e.kind.TurnEnded? ==> g.turns.phase.Closing? && g.turns.ended == e.player
      modifies g.Parts()
      ensures g.Valid()
      ensures Game.Rank(e.kind) == 0 ==> g.Now() == Engine.ConcludeIfDue(g.rules, old(g.Now()))
      ensures Game.Rank(e.kind) > 0 ==> g.Now() == FollowUp(g.rules, Engine.ConcludeIfDue(g.rules, old(g.Now())), e.kind)
      decreases Game.Rank(e.kind), g.gas, 1, Effects(g.rules, g.Now()), 0
    {
      hide DrainQueue, Requests.StartNextTurn, Engine.ConcludeIfDue;
      dirty := true;
      ConcludeIfDue(g);
      if !g.halt.Live? || g.gs.phase.Concluded? { return; }
      match e.kind {
        case TurnEnded => StartNextTurn(g, e.player);
        case FrameResolved => g.turns.Drain(g);
        case _ =>
      }
    }

    /** The board is concluded before anybody hears of it. */
    method ConcludeIfDue(g: Game)
      requires g.engine == this && g.Valid() && dirty
      modifies this`dirty, g.turns, g.loop, g.gs, g`log
      ensures g.Valid() && g.Now() == Engine.ConcludeIfDue(g.rules, old(g.Now()))
    {
      hide Winner, HasPendingOutcome, Machine.StopClock;
      if !g.halt.Live? || g.gs.phase.Concluded? { return; }
      if !dirty || HasPendingOutcome(g.gs.ViewNow()) { return; }
      dirty := false;
      var winner := CheckWinConditions(g.rules, g.gs.ViewNow());
      if winner.None? { return; }
      Close(g, winner.value);
    }

    /** The clock first, then the board. */
    method Close(g: Game, winner: Id)
      requires g.engine == this && g.Valid() && Enabled(g.rules, g.Now().core, Conclude(winner))
      modifies g.turns, g.loop, g.gs, g`log
      ensures g.Valid()
      ensures g.Now() == Do(g.rules, Do(g.rules, old(g.Now()), Conclude(winner)), Hear(Plain(GameEnded, winner, None)))
    {
      hide Machine.StopClock, Winner, HasPendingOutcome;
      g.turns.StopClock(g);
      g.gs.phase, g.gs.winner := Concluded, Some(winner);
      g.gs.frames, g.gs.stack := [], [];
      g.log := g.log + [Conclude(winner)];
      assert g.Now() == Do(g.rules, old(g.Now()), Conclude(winner));
      g.Note(Plain(GameEnded, winner, None));
    }

    method StartNextTurn(g: Game, endedBy: Id)
      requires g.engine == this && g.Valid() && g.Now().core.mode.Resting?
      requires g.turns.phase.Closing? && g.turns.ended == endedBy && !IsConcluded(g.Now().core)
      modifies g.Parts()
      ensures g.Valid() && g.Now() == Requests.StartNextTurn(g.rules, old(g.Now()))
      decreases 1, 1
    {
      if |playerOrder| == 0 { return; }
      var next := playerOrder[(IndexOf(playerOrder, endedBy) + 1) % |playerOrder|];
      g.turns.StartTurn(g, next);
    }

    method Seat(g: Game, order: seq<Id>)
      requires g.engine == this && g.Valid() && Enabled(g.rules, g.Now().core, BeginGame(order))
      modifies this`playerOrder, g.gs`phase, g`log
      ensures g.Valid() && g.Now() == Do(g.rules, old(g.Now()), BeginGame(order))
    {
      playerOrder := order;
      g.gs.phase := Turns;
      g.log := g.log + [BeginGame(order)];
    }

    method Start(g: Game, order: seq<Id>)
      requires g.engine == this && g.Valid() && g.Now().core.mode.Resting?
      requires g.halt.Live? && g.turns.phase.Opening? && g.gs.phase.Setup?
      modifies g.Parts()
      ensures g.Valid() && g.Now() == StartGame(g.rules, old(g.Now()), order)
    {
      hide Announce, StartTurnFor, HasOpenFrames;
      Seat(g, order);
      g.Emit(Plain(GameStarted, "", None));
      if |order| > 0 { g.turns.StartTurn(g, order[0]); }
    }
  }

  /** The pipeline stack, opposite the action queue. */
  class TaskManager {
    var draining: bool
    ghost var mode: Mode

    constructor ()
      ensures !draining && mode == Resting
    {
      draining := false;
      mode := Resting;
    }

    method OnEvent(g: Game, e: Event)
      requires g.tasks == this && g.Valid() && (Reserved(e.kind) ==> g.Now().core.mode.Resting?)
      modifies g.Parts()
      ensures g.Valid() && g.Now() == HearTask(g.rules, old(g.Now()), e)
      decreases 0, g.gas, 1, Effects(g.rules, g.Now()), 1
    {
      hide Engine.Expire, Engine.Drain, Engine.StartMatching, Engine.WakeFor;
      if g.gs.phase.Concluded? { return; }
      SweepExpired(g, e);
      if !g.halt.Live? { return; }
      StartPipelines(g, e);
      Drain(g);
    }

    /** Wakes what waited, then adds a pipeline for every rule whose trigger fits. */
    method StartPipelines(g: Game, e: Event)
      requires g.tasks == this && g.Valid() && (Reserved(e.kind) ==> g.Now().core.mode.Resting?)
      modifies g.gs, g`log
      ensures g.Valid() && g.Now() == Engine.StartMatching(g.rules, WakeFor(g.rules, old(g.Now()), e), e)
    {
      if e.kind.FrameResolved? { Wake(g, e.frame, e.slots); }
      var starts := Match(g.rules, g.gs.ViewNow(), e);
      Add(g, starts);
    }

    /** Retires every effect this event ends, then announces each. */
    method SweepExpired(g: Game, e: Event)
      requires g.tasks == this && g.Valid()
      modifies g.Parts()
      ensures g.Valid() && g.Now() == Expire(g.rules, old(g.Now()), e)
      decreases 0, g.gas, 1, Effects(g.rules, g.Now()), 0
    {
      ghost var v := g.gs.ViewNow();
      SweepShrinks(g.rules, v, g.rules.players, g.rules.players, e);
      var players := g.rules.players;
      var cards, expired := g.gs.cards, [];
      var i := 0;
      while i < |players|
        invariant i <= |players|
        invariant Swept(cards, expired) == Sweep(g.rules, v, players[..i], e)
      {
        var seat := SeatOf(cards, players[i]);
        var doomed := Doomed(g.rules, WithCards(g.gs.ViewNow(), cards), seat.effects, e);
        if |doomed| > 0 {
          cards := WithSeat(cards, players[i], seat.(effects := Without(seat.effects, doomed)));
          expired := expired + doomed;
        }
        assert players[..i + 1][..i] == players[..i];
        i := i + 1;
      }
      assert players[..i] == players;
      g.Edit(cards);
      if |expired| > 0 { g.EmitAll(ExpiredAll(expired)); }
    }

    /** Wakes whatever waited on the frame, the window's writes in its context. */
    method Wake(g: Game, f: FrameId, slots: seq<Slot>)
      requires g.tasks == this && g.Valid() && g.Now().core.mode.Resting?
      modifies g.gs, g`log
      ensures g.Valid() && g.Now() == Do(g.rules, old(g.Now()), Move.Wake(f, slots))
    {
      WakeAll(g.gs, f, slots);
      g.log := g.log + [Move.Wake(f, slots)];
    }

    method WakeAll(gs: GameState, f: FrameId, slots: seq<Slot>)
      modifies gs`stack
      ensures gs.stack == WokenIn(old(gs.stack), f, slots)
    {
      var i := 0;
      while i < |gs.stack|
        invariant i <= |gs.stack| == |old(gs.stack)|
        invariant forall j | 0 <= j < i :: gs.stack[j] == WokenPipe(old(gs.stack)[j], f, slots)
        invariant forall j | i <= j < |gs.stack| :: gs.stack[j] == old(gs.stack)[j]
      {
        var pipe := gs.stack[i];
        if pipe.pausedOn == Some(f) {
          gs.stack := gs.stack[i := pipe.(pausedOn := None, ctx := Written(pipe.ctx, slots))];
        }
        i := i + 1;
      }
    }

    /** Backwards, because the top of the stack is what runs next. */
    method Add(g: Game, starts: seq<Start>)
      requires g.tasks == this && g.Valid()
      modifies g.gs, g`log
      ensures g.Valid() && g.Now() == PushAll(g.rules, old(g.Now()), starts)
    {
      var i := |starts|;
      ghost var before := g.Now();
      assert starts[..i] == starts;
      while i > 0
        invariant 0 <= i <= |starts| && g.Valid()
        invariant PushAll(g.rules, g.Now(), starts[..i]) == PushAll(g.rules, before, starts)
      {
        i := i - 1;
        assert starts[..i + 1][..i] == starts[..i];
        var s := starts[i];
        g.gs.stack := g.gs.stack + [Pipe(g.gs.nextPipe, s.card, s.owner, s.system, s.steps, s.ctx, None)];
        g.gs.nextPipe := g.gs.nextPipe + 1;
        g.log := g.log + [Push(s)];
      }
    }

    /** Without the guard an event would run the current pipeline's next step inside the emitting step. */
    method Drain(g: Game)
      requires g.tasks == this && g.Valid()
      modifies g.Parts()
      ensures g.Valid()
      ensures g.Now() == if old(g.Now()).core.mode.Resting? then Engine.Drain(g.rules, old(g.Now())) else old(g.Now())
      decreases 0, g.gas, 1, Effects(g.rules, g.Now()), 0, 1
    {
      if draining { return; }
      draining := true;
      mode := Looping;
      g.log := g.log + [StartLoop];
      RunSteps(g);
      draining := false;
      mode := Resting;
      g.log := g.log + [StopLoop];
    }

    /** A step only ever begins here, in the loop and outside every other step. */
    method RunSteps(g: Game)
      requires g.tasks == this && g.Valid() && mode.Looping?
      modifies g.Parts()
      ensures g.Valid() && g.Now() == Loop(g.rules, old(g.Now()))
      decreases 0, g.gas, 1, Effects(g.rules, g.Now()), 0, 0
    {
      ghost var start := g.Now();
      while g.halt.Live? && Ready(g.gs.stack)
        invariant g.Valid() && mode.Looping? && g.gas <= start.gas
        invariant g.gas == start.gas ==> g.Now() == start
        invariant Loop(g.rules, g.Now()) == Loop(g.rules, start)
        decreases g.gas
      {
        if g.gas == 0 { g.halt := OutOfGas; return; }
        var stop := RunNext(g);
        if stop { return; }
      }
    }

    /** The top pipeline takes its next step and may park; or it is spent, and leaves. */
    method RunNext(g: Game) returns (stop: bool)
      requires g.tasks == this && g.Valid() && mode.Looping? && Ready(g.gs.stack) && g.gas > 0
      modifies g.Parts()
      ensures g.Valid() && Iteration(g.Now(), stop) == Iterate(g.rules, old(g.Now()))
      decreases 0, g.gas, 0, 1
    {
      hide Iterate;
      var top := g.gs.stack[|g.gs.stack| - 1];
      if |top.steps| == 0 {
        PopSpent(g);
        stop := false;
      } else {
        stop := RunStep(g);
      }
    }

    method PopSpent(g: Game)
      requires g.tasks == this && g.Valid() && mode.Looping? && Ready(g.gs.stack) && g.gas > 0
      requires Top(g.gs.stack).steps == []
      modifies g.Parts()
      ensures g.Valid() && Iteration(g.Now(), false) == Iterate(g.rules, old(g.Now()))
      decreases 0, g.gas, 0, 0
    {
      hide Announce, IsLastOfCard;
      g.gas := g.gas - 1;
      var n := |g.gs.stack| - 1;
      var top := g.gs.stack[n];
      g.gs.stack := g.gs.stack[..n];
      var done := IsLastOfCard(g.gs.stack, top);
      g.log := g.log + [Pop(top.id, done)];
      if done { g.Emit(DoneEvent(top)); }
    }

    /** Parks only on a frame that is still open: nothing would ever wake it otherwise. */
    method RunStep(g: Game) returns (stop: bool)
      requires g.tasks == this && g.Valid() && mode.Looping? && Ready(g.gs.stack) && g.gas > 0
      requires Top(g.gs.stack).steps != []
      modifies g.Parts()
      ensures g.Valid() && Iteration(g.Now(), stop) == Iterate(g.rules, old(g.Now()))
      decreases 0, g.gas, 0, 0
    {
      hide Engine.Execute, Iterate, Apply, Enabled, HasFrame;
      g.gas := g.gas - 1;
      var top := BeginStep(g);
      ghost var begun := g.Now();
      var ctx, park := g.Execute(top.steps[0], top.ctx);
      var open := park.Some? && HasFrame(g.gs.ViewNow(), park.value);
      DepthFirst.IterateSteps(g.rules, old(g.Now()), top, begun, Stepped(g.Now(), ctx, park), if open then park else None);
      FinishStep(g, top.id, ctx, if open then park else None);
      if park.Some? && !open { g.halt := FrameNotOpen; }
      stop := park.Some?;
    }

    /** Takes the step off the pipeline that is on top. */
    method BeginStep(g: Game) returns (top: Pipe)
      requires g.tasks == this && g.Valid() && mode.Looping? && Ready(g.gs.stack) && Top(g.gs.stack).steps != []
      modifies g.gs`stack, this, g`log
      ensures top == Top(old(g.gs.stack))
      ensures g.Valid() && g.Now() == Do(g.rules, old(g.Now()), Begin(top.id))
      ensures mode == Stepping(top.id, g.gs.nextFrame)
    {
      var n := |g.gs.stack| - 1;
      top := g.gs.stack[n];
      g.gs.stack := g.gs.stack[..n] + [top.(steps := top.steps[1..])];
      mode := Stepping(top.id, g.gs.nextFrame);
      g.log := g.log + [Begin(top.id)];
    }

    method FinishStep(g: Game, id: nat, ctx: Ctx, park: Option<FrameId>)
      requires g.tasks == this && g.Valid() && Enabled(g.rules, g.Now().core, Finish(id, ctx, park))
      modifies g.gs`stack, this, g`log
      ensures g.Valid() && g.Now() == Do(g.rules, old(g.Now()), Finish(id, ctx, park))
    {
      g.gs.stack := FinishedIn(g.gs.stack, id, ctx, park);
      mode := Looping;
      g.log := g.log + [Finish(id, ctx, park)];
    }
  }
}
