/**
 * The two schedulers and the windows, as functions on worlds: what one event
 * does, what one drain does, what one request from outside does. The classes
 * of Objects.dfy are proved equal to these.
 */
module Engine {
  import opened Board
  import opened Abilities
  import opened Machine

  // ---------------------------------------------------------------------------
  // Effects only run out while events are swept
  // ---------------------------------------------------------------------------

  lemma SeatEffects(c: Cards, p: Id, s: Seat, players: seq<Id>)
    requires |s.effects| <= |SeatOf(c, p).effects|
    ensures EffectCount(WithSeat(c, p, s), players) <= EffectCount(c, players)
    ensures p in players && |s.effects| < |SeatOf(c, p).effects|
      ==> EffectCount(WithSeat(c, p, s), players) < EffectCount(c, players)
  {
    if players != [] {
      SeatEffects(c, p, s, players[..|players| - 1]);
    }
  }

  lemma SweepShrinks(r: Rules, v: View, players: seq<Id>, all: seq<Id>, e: Event)
    requires forall p | p in players :: p in all
    ensures EffectCount(Sweep(r, v, players, e).cards, all) <= EffectCount(v.table.cards, all)
    ensures Sweep(r, v, players, e).expired != []
      ==> EffectCount(Sweep(r, v, players, e).cards, all) < EffectCount(v.table.cards, all)
  {
    if players != [] {
      SweepShrinks(r, v, players[..|players| - 1], all, e);
      var before := Sweep(r, v, players[..|players| - 1], e);
      var p := players[|players| - 1];
      var s := SeatOf(before.cards, p);
      var doomed := Doomed(r, WithCards(v, before.cards), s.effects, e);
      if doomed != [] {
        assert doomed[0] in s.effects && HasId(doomed, doomed[0].id);
        SeatEffects(before.cards, p, s.(effects := Without(s.effects, doomed)), all);
      }
    }
  }

  // ---------------------------------------------------------------------------
  // Listeners
  // ---------------------------------------------------------------------------

  function Effects(r: Rules, w: World): nat {
    EffectCount(w.core.view.table.cards, r.players)
  }

  /** What every emission leaves alone, and what it can only use up. */
  ghost predicate Within(w: World, w': World) {
    && w'.core.mode == w.core.mode
    && w'.core.turn == w.core.turn
    && w'.core.view.table.current == w.core.view.table.current
    && (IsConcluded(w.core) ==> IsConcluded(w'.core))
    && w.core.nextFrame <= w'.core.nextFrame
    && (w'.halt.LapsedBusy? ==> w.halt.LapsedBusy?)
    && w'.gas <= w.gas
    && (!w.core.mode.Resting? ==> w'.gas == w.gas && w'.halt == w.halt)
  }

  /** Only a settled frame or a new turn sets the clock going. */
  ghost predicate Held(w: World, w': World) {
    !Running(w.core.clock) ==> !Running(w'.core.clock)
  }

  ghost predicate Shrinks(r: Rules, w: World, w': World) {
    w'.gas == w.gas ==> Effects(r, w') <= Effects(r, w)
  }

  function SyncClock(r: Rules, w: World): (w': World)
    requires w.core.mode.Resting?
    ensures w'.core.mode.Resting?
  {
    if HasOpenFrames(w.core.view) then (if Running(w.core.clock) then Do(r, w, Pause) else w)
    else if CanResume(w.core) then Do(r, w, Resume) else w
  }

  /** The turn manager hears an event: held at an opening, read again at a settled frame. */
  function HearClock(r: Rules, w: World, e: Event): (w': World)
    requires e.kind.FrameResolved? ==> w.core.mode.Resting?
    ensures w' == w.(core := w.core.(clock := w'.core.clock), log := w'.log)
    ensures !e.kind.FrameResolved? ==> Held(w, w')
    ensures e.kind.WindowOpened? ==> !Running(w'.core.clock)
  {
    match e.kind
    case WindowOpened => if Running(w.core.clock) then Do(r, w, Pause) else w
    case FrameResolved => SyncClock(r, w)
    case _ => w
  }

  /** The game engine hears an event: the win conditions, unless a frame may still restore the board. */
  function ConcludeIfDue(r: Rules, w: World): (w': World)
    ensures Within(w, w') && Held(w, w') && Effects(r, w') == Effects(r, w)
    ensures w'.gas == w.gas && w'.halt == w.halt
  {
    if Halted(w) || IsConcluded(w.core) || HasPendingOutcome(w.core.view) then w
    else
      var winner := Winner(r, w.core.view);
      if winner.None? then w
      else Do(r, Do(r, w, Conclude(winner.value)), Hear(Plain(GameEnded, winner.value, None)))
  }

  // ---------------------------------------------------------------------------
  // The task manager
  // ---------------------------------------------------------------------------

  /** Pushed backwards, so the first one listed is the first one to go. */
  function PushAll(r: Rules, w: World, starts: seq<Start>): (w': World)
    ensures w' == w.(core := w'.core, log := w'.log)
    ensures w'.core == w.core.(stack := w'.core.stack, nextPipe := w'.core.nextPipe)
    decreases |starts|
  {
    if starts == [] then w
    else PushAll(r, Do(r, w, Push(starts[|starts| - 1])), starts[..|starts| - 1])
  }

  /** One event, heard by the turn manager, the task manager and the game engine in that order. */
  function Announce(r: Rules, w: World, e: Event): (w': World)
    requires Reserved(e.kind) ==> w.core.mode.Resting?
    ensures Within(w, w') && Shrinks(r, w, w')
    ensures !e.kind.FrameResolved? ==> Held(w, w')
    ensures e.kind.WindowOpened? && !Halted(w) ==> !Running(w'.core.clock)
    decreases w.gas, 1, Effects(r, w), 2, 1
  {
    if Halted(w) then w else Listen(r, Do(r, w, Hear(e)), e)
  }

  function Listen(r: Rules, w: World, e: Event): (w': World)
    requires Reserved(e.kind) ==> w.core.mode.Resting?
    ensures Within(w, w') && Shrinks(r, w, w')
    ensures !e.kind.FrameResolved? ==> Held(w, w')
    ensures e.kind.WindowOpened? ==> !Running(w'.core.clock)
    decreases w.gas, 1, Effects(r, w), 2, 0
  {
    ConcludeIfDue(r, HearTask(r, HearClock(r, w, e), e))
  }

  function AnnounceAll(r: Rules, w: World, events: seq<StepEvent>): (w': World)
    ensures Within(w, w') && Held(w, w') && Shrinks(r, w, w')
    decreases w.gas, 1, Effects(r, w), 3, |events|
  {
    if events == [] then w
    else AnnounceAll(r, Announce(r, w, events[0]), events[1..])
  }

  /** The task manager hears an event: expire, wake, match, push, and drain unless a drain is running. */
  function HearTask(r: Rules, w: World, e: Event): (w': World)
    requires Reserved(e.kind) ==> w.core.mode.Resting?
    ensures Within(w, w') && Held(w, w') && Shrinks(r, w, w')
    decreases w.gas, 1, Effects(r, w), 1
  {
    if IsConcluded(w.core) then w
    else
      var w1 := Expire(r, w, e);
      if Halted(w1) then w1
      else
        var w2 := StartMatching(r, WakeFor(r, w1, e), e);
        if w2.core.mode.Resting? then Drain(r, w2) else w2
  }

  /** Effects the event ends are gone before anything it fires; each is announced once all are removed. */
  function Expire(r: Rules, w: World, e: Event): (w': World)
    ensures Within(w, w') && Held(w, w') && Shrinks(r, w, w')
    decreases w.gas, 1, Effects(r, w), 0
  {
    SweepShrinks(r, w.core.view, r.players, r.players, e);
    var swept := Sweep(r, w.core.view, r.players, e);
    var w1 := Do(r, w, Edit(swept.cards));
    if swept.expired == [] then w1 else AnnounceAll(r, w1, ExpiredAll(swept.expired))
  }

  function WakeFor(r: Rules, w: World, e: Event): (w': World)
    requires Reserved(e.kind) ==> w.core.mode.Resting?
    ensures w' == w.(core := w.core.(stack := w'.core.stack), log := w'.log)
  {
    if e.kind.FrameResolved? then Do(r, w, Wake(e.frame, e.slots)) else w
  }

  /** Matched after the wake, so anything this event starts goes on top of it. */
  function StartMatching(r: Rules, w: World, e: Event): (w': World)
    ensures w' == w.(core := w.core.(stack := w'.core.stack, nextPipe := w'.core.nextPipe), log := w'.log)
  {
    PushAll(r, w, Started(r, w.core.view, e))
  }

  /** A whole drain: the guard up, the loop, the guard down. */
  function Drain(r: Rules, w: World): (w': World)
    requires w.core.mode.Resting?
    ensures Within(w, w') && Held(w, w') && Shrinks(r, w, w')
    decreases w.gas, 1, Effects(r, w), 0, 1
  {
    Do(r, Loop(r, Do(r, w, StartLoop)), StopLoop)
  }

  /** Runs steps until there are none left to run, or one parks. */
  function Loop(r: Rules, w: World): (w': World)
    requires w.core.mode.Looping?
    ensures w'.halt.LapsedBusy? ==> w.halt.LapsedBusy?
    ensures w'.core.mode.Looping? && w'.gas <= w.gas && w.core.nextFrame <= w'.core.nextFrame
    ensures IsConcluded(w.core) ==> IsConcluded(w'.core)
    ensures w'.core.turn == w.core.turn && w'.core.view.table.current == w.core.view.table.current
    ensures Held(w, w') && Shrinks(r, w, w')
    decreases w.gas, 1, Effects(r, w), 0, 0
  {
    if Halted(w) || !Ready(w.core.stack) then w
    else if w.gas == 0 then w.(halt := OutOfGas)
    else
      var n := Iterate(r, w);
      if n.stop then n.world else Loop(r, n.world)
  }

  datatype Iteration = Iteration(world: World, stop: bool)

  /** One turn of the loop: the top pipeline takes its next step, or leaves the stack. */
  function Iterate(r: Rules, w: World): (n: Iteration)
    requires w.core.mode.Looping? && Ready(w.core.stack) && w.gas > 0
    ensures n.world.halt.LapsedBusy? ==> w.halt.LapsedBusy?
    ensures n.world.core.mode.Looping? && n.world.gas < w.gas && w.core.nextFrame <= n.world.core.nextFrame
    ensures n.world.core.turn == w.core.turn && n.world.core.view.table.current == w.core.view.table.current
    ensures IsConcluded(w.core) ==> IsConcluded(n.world.core)
    ensures Held(w, n.world)
    decreases w.gas, 0
  {
    var top := Top(w.core.stack);
    if top.steps == [] then
      var done := IsLastOfCard(w.core.stack[..|w.core.stack| - 1], top);
      var w1 := Do(r, w.(gas := w.gas - 1), Pop(top.id, done));
      Iteration(if done then Announce(r, w1, DoneEvent(top)) else w1, false)
    else
      var w1 := Do(r, w.(gas := w.gas - 1), Begin(top.id));
      var s := Execute(r, w1, top.steps[0], 0, top.ctx, None);
      var open := s.park.Some? && HasFrame(s.world.core.view, s.park.value);
      var w2 := Do(r, s.world, Finish(top.id, s.ctx, if open then s.park else None));
      Iteration(if s.park.Some? && !open then w2.(halt := FrameNotOpen) else w2, s.park.Some?)
  }

  function DoneEvent(p: Pipe): InsideEvent {
    Plain(AbilityDone, p.owner, Some(p.card))
  }

  // ---------------------------------------------------------------------------
  // Steps
  // ---------------------------------------------------------------------------

  datatype Stepped = Stepped(world: World, ctx: Ctx, park: Option<FrameId>)

  /** A script from its act `i` on. It parks only on a frame it opened itself. */
  function Execute(r: Rules, w: World, s: Script, i: nat, ctx: Ctx, asked: Option<FrameId>): (o: Stepped)
    ensures Within(w, o.world) && Held(w, o.world)
    ensures o.park.Some? ==> o.park == asked || w.core.nextFrame <= o.park.value
    decreases w.gas, 3, s.length - i
  {
    if Halted(w) || i >= s.length then Stepped(w, ctx, None)
    else
      var a := s.act(i, ctx, asked, w.core.view);
      if a.Return? then Stepped(Do(r, w, Edit(a.cards)), a.ctx, if a.wait then asked else None)
      else Execute(r, Perform(r, w, a), s, i + 1, a.ctx, if a.Ask? then Some(w.core.nextFrame) else asked)
  }

  /** An act that is not the last: an announcement, or a question. */
  function Perform(r: Rules, w: World, a: Act): (w': World)
    requires !a.Return?
    ensures Within(w, w') && Held(w, w')
    decreases w.gas, 3, 0, 1
  {
    match a
    case Emit(cards, _, e) => Announce(r, Do(r, w, Edit(cards)), e)
    case Ask(cards, _, plays, asking, more) => OpenAndAsk(r, w, cards, plays, [asking] + more)
  }

  /** A frame over the board as it stands, the card played inside it, then its windows. */
  function OpenAndAsk(r: Rules, w: World, cards: Cards, plays: seq<Play>, askings: seq<Asking>): (w': World)
    ensures Within(w, w') && Held(w, w')
    decreases w.gas, 3, 0, 0
  {
    var w1 := Do(r, Do(r, w, Edit(cards)), Open);
    AskAll(r, PlayAll(r, w1, plays), w.core.nextFrame, askings)
  }

  function PlayAll(r: Rules, w: World, plays: seq<Play>): (w': World)
    ensures Within(w, w') && Held(w, w')
    decreases w.gas, 2, |plays|
  {
    if Halted(w) || plays == [] then w
    else
      var w1 := Do(r, w, Edit(plays[0].edit(w.core.view.table.cards)));
      PlayAll(r, Announce(r, w1, plays[0].event), plays[1..])
  }

  function WindowOf(a: Asking): Window {
    Window(a.kind, a.respondent, true, [])
  }

  /** Opens windows on a frame. Each is announced before it is on the board, and only while the frame stands. */
  function AskAll(r: Rules, w: World, f: FrameId, askings: seq<Asking>): (w': World)
    ensures Within(w, w') && Held(w, w')
    decreases w.gas, 2, |askings|
  {
    if Halted(w) || askings == [] || !HasFrame(w.core.view, f) then w
    else
      var w1 := AnnounceAll(r, Announce(r, w, askings[0].opening), askings[0].standing);
      if Halted(w1) || !HasFrame(w1.core.view, f) then w1
      else AskAll(r, Do(r, w1, AddWindow(f, WindowOf(askings[0]))), f, askings[1..])
  }
}
