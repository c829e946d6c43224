/**
 * The engine as a machine: its whole state, and the moves that change it.
 * Each move has a condition (`Enabled`) and an effect (`Apply`); a log of
 * moves is legal when every move was enabled when it was made. The schedulers
 * of Engine.dfy only ever make enabled moves, so what holds of every legal log
 * holds of every run of the engine.
 */
module Machine {
  import opened Board
  import opened Abilities

  // ---------------------------------------------------------------------------
  // State
  // ---------------------------------------------------------------------------

  /** One ability part-way through its steps. */
  datatype Pipe = Pipe(
    id: nat, card: Id, owner: Id, system: bool,
    steps: seq<Script>, ctx: Ctx, pausedOn: Option<FrameId>)

  /** The drain guard: off, looping, or inside a step; frames from `since` on were opened by that step. */
  datatype Mode = Resting | Looping | Stepping(pipe: nat, since: FrameId)

  datatype Timer = Timer(turn: nat, due: int)

  /**
   * The turn's clock and the event loop's live timers. `handle` is the
   * timer the turn manager knows of; `timers` are those that can still fire.
   */
  datatype Clock = Clock(
    remaining: Option<int>, since: int, handle: Option<nat>,
    timers: map<nat, Timer>, nextTimer: nat, now: int)

  datatype Price = Cost(points: nat) | Forfeit

  datatype Action = Action(
    id: Id, player: Id, price: Price, reactable: bool, guard: View -> bool, script: Script)

  datatype TurnPhase = Opening | Acting | Closing

  /** `ended` is the player the last TurnEnded named. */
  datatype Turn = Turn(phase: TurnPhase, number: nat, queue: seq<Action>, order: seq<Id>, ended: Id)

  datatype Core = Core(
    view: View, stack: seq<Pipe>, mode: Mode, nextPipe: nat, nextFrame: nat, clock: Clock, turn: Turn)

  predicate IsBusy(c: Core) {
    HasOpenFrames(c.view) || c.stack != []
  }

  predicate IsConcluded(c: Core) {
    c.view.table.phase.Concluded?
  }

  predicate Payable(v: View, a: Action) {
    a.price.Cost? ==> a.price.points <= PointsOf(v.table.cards, a.player)
  }

  predicate CanExecute(v: View, a: Action) {
    Payable(v, a) && a.guard(v)
  }

  function Paid(c: Cards, a: Action): Cards {
    WithPoints(c, a.player,
      if a.price.Forfeit? then 0 else PointsOf(c, a.player) - a.price.points)
  }

  // ---------------------------------------------------------------------------
  // The clock
  // ---------------------------------------------------------------------------

  predicate Running(k: Clock) {
    k.handle.Some?
  }

  function PauseClock(k: Clock): Clock {
    if k.handle.None? then k
    else k.(
      timers := k.timers - {k.handle.value},
      handle := None,
      remaining := if k.remaining.Some? then Some(k.remaining.value - (k.now - k.since)) else None)
  }

  function StopClock(k: Clock): Clock {
    PauseClock(k).(remaining := None)
  }

  predicate CanResume(c: Core) {
    && c.clock.remaining.Some?
    && c.clock.handle.None?
    && c.turn.phase.Acting?
  }

  function ResumeClock(k: Clock, turn: nat): Clock
    requires k.remaining.Some?
  {
    k.(since := k.now,
       handle := Some(k.nextTimer),
       timers := k.timers[k.nextTimer := Timer(turn, k.now + k.remaining.value)],
       nextTimer := k.nextTimer + 1)
  }

  // ---------------------------------------------------------------------------
  // The stack
  // ---------------------------------------------------------------------------

  function Top(stack: seq<Pipe>): Pipe
    requires stack != []
  {
    stack[|stack| - 1]
  }

  predicate Ready(stack: seq<Pipe>) {
    stack != [] && Top(stack).pausedOn.None?
  }

  predicate RunsFor(p: Pipe, card: Id) {
    !p.system && p.card == card
  }

  /** How many printed (non-system) pipelines of a card are on the stack. */
  function CountFor(stack: seq<Pipe>, card: Id): nat {
    if stack == [] then 0
    else CountFor(stack[..|stack| - 1], card) + (if RunsFor(Top(stack), card) then 1 else 0)
  }

  /** True when `top`, leaving, is the last printed pipeline of its card. */
  predicate IsLastOfCard(below: seq<Pipe>, top: Pipe) {
    !top.system && forall i | 0 <= i < |below| :: !RunsFor(below[i], top.card)
  }

  function FinishedPipe(p: Pipe, id: nat, ctx: Ctx, park: Option<FrameId>): Pipe {
    if p.id == id then p.(ctx := ctx, pausedOn := park) else p
  }

  function FinishedIn(stack: seq<Pipe>, id: nat, ctx: Ctx, park: Option<FrameId>): (out: seq<Pipe>)
    ensures |out| == |stack|
    ensures forall i | 0 <= i < |stack| :: out[i] == FinishedPipe(stack[i], id, ctx, park)
  {
    seq(|stack|, i requires 0 <= i < |stack| => FinishedPipe(stack[i], id, ctx, park))
  }

  function Written(ctx: Ctx, slots: seq<Slot>): Ctx {
    if slots == [] then ctx
    else Written(ctx, slots[..|slots| - 1])[slots[|slots| - 1].key := slots[|slots| - 1].value]
  }

  predicate WaitsOn(p: Pipe, f: FrameId) {
    p.pausedOn == Some(f)
  }

  function WokenPipe(p: Pipe, f: FrameId, slots: seq<Slot>): Pipe {
    if WaitsOn(p, f) then p.(pausedOn := None, ctx := Written(p.ctx, slots)) else p
  }

  function WokenIn(stack: seq<Pipe>, f: FrameId, slots: seq<Slot>): (out: seq<Pipe>)
    ensures |out| == |stack|
    ensures forall i | 0 <= i < |stack| :: out[i] == WokenPipe(stack[i], f, slots)
  {
    seq(|stack|, i requires 0 <= i < |stack| => WokenPipe(stack[i], f, slots))
  }

  /** The stack without the pipelines that wait on a frame. */
  function Dropped(stack: seq<Pipe>, f: FrameId): (out: seq<Pipe>)
    ensures forall p :: p in out <==> p in stack && !WaitsOn(p, f)
    ensures |out| <= |stack|
  {
    if stack == [] then []
    else
      var rest := Dropped(stack[..|stack| - 1], f);
      if WaitsOn(Top(stack), f) then rest else rest + [Top(stack)]
  }

  // ---------------------------------------------------------------------------
  // Frames
  // ---------------------------------------------------------------------------

  function FrameOf(frames: seq<Frame>, id: FrameId): (f: Frame)
    requires exists f | f in frames :: f.id == id
    ensures f in frames && f.id == id
  {
    if frames[0].id == id then frames[0] else FrameOf(frames[1..], id)
  }

  function WithoutFrame(frames: seq<Frame>, id: FrameId): (out: seq<Frame>)
    ensures forall f :: f in out <==> f in frames && f.id != id
    ensures |out| <= |frames|
  {
    if frames == [] then []
    else
      var rest := WithoutFrame(frames[..|frames| - 1], id);
      var last := frames[|frames| - 1];
      if last.id == id then rest else rest + [last]
  }

  function WithWindow(frames: seq<Frame>, id: FrameId, w: Window): (out: seq<Frame>)
    ensures |out| == |frames|
    ensures forall i | 0 <= i < |frames| ::
      out[i] == if frames[i].id == id then frames[i].(windows := frames[i].windows + [w]) else frames[i]
  {
    seq(|frames|, i requires 0 <= i < |frames| =>
      if frames[i].id == id then frames[i].(windows := frames[i].windows + [w]) else frames[i])
  }

  function Closed(f: Frame, index: nat, answer: seq<Slot>): Frame {
    if index < |f.windows| then f.(windows := f.windows[index := f.windows[index].(open := false, answer := answer)])
    else f
  }

  function WithClosed(frames: seq<Frame>, id: FrameId, index: nat, answer: seq<Slot>): (out: seq<Frame>)
    ensures |out| == |frames|
    ensures forall i | 0 <= i < |frames| ::
      out[i] == if frames[i].id == id then Closed(frames[i], index, answer) else frames[i]
  {
    seq(|frames|, i requires 0 <= i < |frames| =>
      if frames[i].id == id then Closed(frames[i], index, answer) else frames[i])
  }

  /** The card the frame is about: a challenge contests one, other windows none. */
  function SubjectOf(windows: seq<Window>): Option<Id> {
    if windows == [] then None
    else if windows[0].kind.Challenge? && windows[0].kind.card != "" then Some(windows[0].kind.card)
    else SubjectOf(windows[1..])
  }

  datatype Spending = Spending(player: Id, card: Id)

  function SpentBy(player: Id, instances: seq<Id>, before: seq<Id>, subject: Option<Id>): (out: seq<Spending>)
    ensures forall s :: s in out <==>
      s.player == player && s.card in instances && s.card !in before && subject != Some(s.card)
  {
    if instances == [] then []
    else
      var rest := SpentBy(player, instances[1..], before, subject);
      if instances[0] in before || subject == Some(instances[0]) then rest
      else [Spending(player, instances[0])] + rest
  }

  /** What was spent into a frame: every instance card that was not there before, except its subject. */
  function SpentInto(players: seq<Id>, c: Cards, f: Frame): (out: seq<Spending>)
    ensures forall s :: s in out <==>
      && s.player in players
      && s.card in SeatOf(c, s.player).instances
      && s.card !in SeatOf(f.before.cards, s.player).instances
      && SubjectOf(f.windows) != Some(s.card)
  {
    if players == [] then []
    else
      SpentBy(players[0], SeatOf(c, players[0]).instances,
        SeatOf(f.before.cards, players[0]).instances, SubjectOf(f.windows))
      + SpentInto(players[1..], c, f)
  }

  function Minus(ids: seq<Id>, id: Id): (out: seq<Id>)
    ensures forall x :: x in out <==> x in ids && x != id
  {
    if ids == [] then []
    else if ids[0] == id then Minus(ids[1..], id) else [ids[0]] + Minus(ids[1..], id)
  }

  /** Spent cards leave the instance zone for the discard pile. */
  function PutAway(c: Cards, spent: seq<Spending>): Cards
    decreases |spent|
  {
    if spent == [] then c
    else
      var s := SeatOf(c, spent[0].player);
      PutAway(
        WithSeat(c, spent[0].player, s.(instances := Minus(s.instances, spent[0].card)))
          .(discard := c.discard + [spent[0].card]),
        spent[1..])
  }

  /** The snapshot handed spent cards back; they leave the hand for the discard pile. */
  function TakeBack(c: Cards, spent: seq<Spending>): Cards
    decreases |spent|
  {
    if spent == [] then c
    else
      var s := SeatOf(c, spent[0].player);
      TakeBack(
        WithSeat(c, spent[0].player, s.(hand := Minus(s.hand, spent[0].card)))
          .(discard := c.discard + [spent[0].card]),
        spent[1..])
  }

  // ---------------------------------------------------------------------------
  // Turns
  // ---------------------------------------------------------------------------

  function BonusOf(effects: seq<Effect>): int {
    if effects == [] then 0
    else
      var own := if effects[0].passive.ActionPointBonus? && !effects[0].scoped then effects[0].value else 0;
      own + BonusOf(effects[1..])
  }

  /** A fresh turn's board: the slates wiped, the budget reset, the standing bonus on top. */
  function Refreshed(c: Cards, player: Id): Cards {
    var s := SeatOf(c, player);
    WithPoints(c, player, s.budget + BonusOf(s.effects)).(used := [], challenged := [])
  }

  function IndexOf(order: seq<Id>, player: Id): (i: int)
    ensures -1 <= i < |order|
    ensures i == -1 <==> player !in order
    ensures 0 <= i ==> order[i] == player && player !in order[..i]
  {
    if order == [] then -1
    else if order[0] == player then 0
    else
      var rest := IndexOf(order[1..], player);
      if rest == -1 then -1 else rest + 1
  }

  /** The seat after `player`; a player not in the order is followed by the first. */
  function NextSeat(order: seq<Id>, player: Id): Id
    requires order != []
  {
    order[(IndexOf(order, player) + 1) % |order|]
  }

  predicate IsDue(t: Turn, player: Id) {
    && t.order != []
    && match t.phase
       case Opening => player == t.order[0]
       case Closing => player == NextSeat(t.order, t.ended)
       case Acting => false
  }

  // ---------------------------------------------------------------------------
  // The end of the game
  // ---------------------------------------------------------------------------

  predicate Meets(r: Rules, v: View, player: Id) {
    if r.requireAll then forall i | 0 <= i < |r.winConditions| :: r.winConditions[i](v, player)
    else exists i | 0 <= i < |r.winConditions| :: r.winConditions[i](v, player)
  }

  function FirstMeeting(r: Rules, v: View, players: seq<Id>): (winner: Option<Id>)
    ensures winner.Some? ==> winner.value in players && Meets(r, v, winner.value)
    ensures winner.None? ==> forall p | p in players :: !Meets(r, v, p)
  {
    if players == [] then None
    else if Meets(r, v, players[0]) then Some(players[0])
    else FirstMeeting(r, v, players[1..])
  }

  function Winner(r: Rules, v: View): Option<Id> {
    if r.winConditions == [] then None else FirstMeeting(r, v, r.players)
  }

  // ---------------------------------------------------------------------------
  // Moves
  // ---------------------------------------------------------------------------

  datatype Move =
    | Edit(cards: Cards)
    | Push(start: Start)
    | StartLoop
    | StopLoop
    | Begin(pipe: nat)
    | Finish(pipe: nat, ctx: Ctx, park: Option<FrameId>)
    | Pop(pipe: nat, done: bool)
    | Wake(frame: FrameId, slots: seq<Slot>)
    | Open
    | AddWindow(frame: FrameId, window: Window)
    | CloseWindow(frame: FrameId, index: nat, answer: seq<Slot>)
    | Release(frame: FrameId)
    | Restore(frame: FrameId)
    | Conclude(winner: Id)
    | BeginGame(order: seq<Id>)
    | StartTurn(player: Id)
    | EndTurn
    | Pause
    | Resume
    | Fire(timer: nat)
    | Advance(ms: nat)
    | Accept(action: Action)
    | Take(run: bool)
    | Hear(event: Event)

  predicate Enabled(r: Rules, c: Core, m: Move) {
    match m
    case Edit(_) => true
    case Push(_) => true
    case StartLoop => c.mode.Resting?
    case StopLoop => c.mode.Looping?
    case Begin(id) =>
      && c.mode.Looping?
      && Ready(c.stack) && Top(c.stack).id == id
      && Top(c.stack).steps != []
    case Finish(id, _, park) =>
      && c.mode.Stepping? && c.mode.pipe == id
      && (park.Some? ==> HasFrame(c.view, park.value) && c.mode.since <= park.value)
    case Pop(id, done) =>
      && c.mode.Looping?
      && Ready(c.stack) && Top(c.stack).id == id
      && Top(c.stack).steps == []
      && done == IsLastOfCard(c.stack[..|c.stack| - 1], Top(c.stack))
    case Wake(_, _) => c.mode.Resting?
    case Open => true
    case AddWindow(f, w) => HasFrame(c.view, f) && !Running(c.clock)
    case CloseWindow(f, i, _) => c.mode.Resting? && IsUp(c.view, f, i)
    case Release(f) => c.mode.Resting? && HasFrame(c.view, f)
    case Restore(f) => c.mode.Resting? && HasFrame(c.view, f)
    case Conclude(w) => !IsConcluded(c) && !HasPendingOutcome(c.view) && Winner(r, c.view) == Some(w)
    case BeginGame(_) => c.mode.Resting? && c.turn.phase.Opening? && c.view.table.phase.Setup?
    case StartTurn(p) =>
      && c.mode.Resting? && p in r.players && IsDue(c.turn, p)
      && (IsConcluded(c) ==> c.turn.phase.Opening?)
    case EndTurn =>
      && c.mode.Resting? && !IsBusy(c) && c.turn.queue == []
      && c.view.table.current.Some?
      && PointsOf(c.view.table.cards, c.view.table.current.value) <= 0
    case Pause => Running(c.clock)
    case Resume => c.mode.Resting? && CanResume(c) && !HasOpenFrames(c.view)
    case Fire(t) => c.mode.Resting? && t in c.clock.timers && c.clock.timers[t].due <= c.clock.now
    case Advance(_) => true
    case Accept(a) =>
      && c.mode.Resting? && !IsConcluded(c)
      && c.turn.phase.Acting?
      && c.view.table.current == Some(a.player)
      && (a.reactable ==> !IsBusy(c))
      && CanExecute(c.view, a)
    case Take(run) =>
      && c.mode.Resting? && !IsBusy(c) && c.turn.queue != []
      && run == CanExecute(c.view, c.turn.queue[0])
    case Hear(_) => true
  }

  function WithTable(c: Core, t: Table): Core {
    c.(view := c.view.(table := t))
  }

  function Apply(r: Rules, c: Core, m: Move): Core
    requires Enabled(r, c, m)
  {
    var v, t, cards := c.view, c.view.table, c.view.table.cards;
    match m
    case Edit(next) => WithTable(c, t.(cards := next))
    case Push(s) =>
      c.(stack := c.stack + [Pipe(c.nextPipe, s.card, s.owner, s.system, s.steps, s.ctx, None)],
         nextPipe := c.nextPipe + 1)
    case StartLoop => c.(mode := Looping)
    case StopLoop => c.(mode := Resting)
    case Begin(id) =>
      var top := Top(c.stack);
      c.(stack := c.stack[..|c.stack| - 1] + [top.(steps := top.steps[1..])], mode := Stepping(id, c.nextFrame))
    case Finish(id, ctx, park) =>
      c.(stack := FinishedIn(c.stack, id, ctx, park), mode := Looping)
    case Pop(_, _) => c.(stack := c.stack[..|c.stack| - 1])
    case Wake(f, slots) => c.(stack := WokenIn(c.stack, f, slots))
    case Open =>
      c.(view := v.(frames := v.frames + [Frame(c.nextFrame, t, [], c.nextPipe)]),
         nextFrame := c.nextFrame + 1)
    case AddWindow(f, w) => c.(view := v.(frames := WithWindow(v.frames, f, w)))
    case CloseWindow(f, i, answer) => c.(view := v.(frames := WithClosed(v.frames, f, i, answer)))
    case Release(f) =>
      var spent := SpentInto(r.players, cards, FrameOf(v.frames, f));
      c.(view := View(t.(cards := PutAway(cards, spent)), WithoutFrame(v.frames, f)))
    case Restore(f) =>
      var frame := FrameOf(v.frames, f);
      var spent := SpentInto(r.players, cards, frame);
      c.(view := View(frame.before.(cards := TakeBack(frame.before.cards, spent)), WithoutFrame(v.frames, f)),
         stack := Dropped(c.stack, f))
    case Conclude(w) =>
      c.(view := View(t.(phase := Concluded, winner := Some(w)), []), stack := [], clock := StopClock(c.clock))
    case BeginGame(order) =>
      WithTable(c, t.(phase := Turns)).(turn := c.turn.(order := order))
    case StartTurn(p) =>
      WithTable(c, t.(cards := Refreshed(cards, p), current := Some(p))).(
        turn := c.turn.(phase := Acting, number := c.turn.number + 1),
        clock := StopClock(c.clock).(remaining := if r.turnTime.Some? then Some(r.turnTime.value) else None))
    case EndTurn =>
      WithTable(c, t.(cards := cards.(used := []))).(
        turn := c.turn.(phase := Closing, ended := t.current.value),
        clock := StopClock(c.clock))
    case Pause => c.(clock := PauseClock(c.clock))
    case Resume => c.(clock := ResumeClock(c.clock, c.turn.number))
    case Fire(t) => c.(clock := c.clock.(timers := c.clock.timers - {t}, handle := None))
    case Advance(ms) => c.(clock := c.clock.(now := c.clock.now + ms))
    case Accept(a) => c.(turn := c.turn.(queue := c.turn.queue + [a]))
    case Take(run) =>
      var a := c.turn.queue[0];
      var c' := c.(turn := c.turn.(queue := c.turn.queue[1..]));
      if run then WithTable(c', t.(cards := Paid(cards, a))) else c'
    case Hear(_) => c
  }

  predicate TouchesStack(m: Move) {
    m.Push? || m.Begin? || m.Finish? || m.Pop? || m.Wake? || m.Restore? || m.Conclude?
  }

  lemma StackKept(r: Rules, c: Core, m: Move)
    requires Enabled(r, c, m) && !TouchesStack(m)
    ensures Apply(r, c, m).stack == c.stack && Apply(r, c, m).nextPipe == c.nextPipe
  {
  }

  predicate TouchesTurn(m: Move) {
    m.BeginGame? || m.StartTurn? || m.EndTurn? || m.Accept? || m.Take?
  }

  lemma TurnUntouched(r: Rules, c: Core, m: Move)
    requires Enabled(r, c, m)
    ensures !TouchesTurn(m) ==> Apply(r, c, m).turn == c.turn
    ensures !m.StartTurn? && !m.Restore? ==> Apply(r, c, m).view.table.current == c.view.table.current
    ensures !m.BeginGame? ==> Apply(r, c, m).turn.order == c.turn.order
  {
  }

  // ---------------------------------------------------------------------------
  // Runs
  // ---------------------------------------------------------------------------

  /** The log of moves made since `origin`, every one of them enabled when made. */
  ghost predicate Legal(r: Rules, origin: Core, log: seq<Move>) {
    log == [] ||
    (Legal(r, origin, log[..|log| - 1]) && Enabled(r, After(r, origin, log[..|log| - 1]), log[|log| - 1]))
  }

  /** The state a log leads to; past a move that was not enabled it stands still. */
  ghost function After(r: Rules, origin: Core, log: seq<Move>): Core {
    if log == [] then origin
    else
      var c := After(r, origin, log[..|log| - 1]);
      if Enabled(r, c, log[|log| - 1]) then Apply(r, c, log[|log| - 1]) else c
  }

  /** A table before its game: dealt, nothing open, nothing running, nobody's turn. */
  predicate IsInitial(c: Core) {
    && c.stack == [] && c.view.frames == [] && c.mode.Resting?
    && c.view.table.phase.Setup? && c.view.table.current.None?
    && c.nextPipe == 0 && c.nextFrame == 0
    && c.clock.remaining.None? && c.clock.handle.None? && c.clock.timers == map[]
    && c.turn == Turn(Opening, 0, [], [], "")
  }

  datatype Halt = Live | OutOfGas | FrameNotOpen | LapsedBusy | NotInRow

  /** A machine with its history. `gas` bounds the drain, which the rules of a table may keep busy for ever. */
  datatype World = World(core: Core, log: seq<Move>, gas: nat, halt: Halt)

  predicate Halted(w: World) {
    !w.halt.Live?
  }

  function Do(r: Rules, w: World, m: Move): World
    requires Enabled(r, w.core, m)
  {
    w.(core := Apply(r, w.core, m), log := w.log + [m])
  }

  /** What goes on while events are announced and steps run: no window closes, no frame settles, no turn changes. */
  predicate Inner(m: Move) {
    || m.Edit? || m.Push? || m.StartLoop? || m.StopLoop? || m.Begin? || m.Finish? || m.Pop? || m.Wake?
    || m.Open? || m.AddWindow? || m.Conclude? || m.Pause? || m.Resume? || m.Hear?
  }

  // ---------------------------------------------------------------------------
  // What has to be said
  // ---------------------------------------------------------------------------

  /** Announced exactly where the game, a turn or an ability begins or ends. */
  predicate IsOwed(kind: Kind) {
    kind in {GameStarted, GameEnded, TurnStarted, TurnEnded, AbilityDone}
  }

  /** What a move leaves to be announced, at once. */
  function OwedBy(c: Core, m: Move): Option<Event> {
    match m
    case BeginGame(_) => Some(Plain(GameStarted, "", None))
    case StartTurn(player) => Some(Plain(TurnStarted, player, None))
    case EndTurn => if c.view.table.current.Some? then Some(Plain(TurnEnded, c.view.table.current.value, None)) else None
    case Conclude(winner) => Some(Plain(GameEnded, winner, None))
    case Pop(_, done) =>
      if done && c.stack != [] then Some(Plain(AbilityDone, Top(c.stack).owner, Some(Top(c.stack).card))) else None
    case _ => None
  }

  /** What the last move of the log leaves to be announced; `first` was owed before it. */
  ghost function Owing(r: Rules, origin: Core, first: Option<Event>, log: seq<Move>): Option<Event> {
    if log == [] then first else OwedBy(After(r, origin, log[..|log| - 1]), log[|log| - 1])
  }

  /** Whatever is owed is announced by the very next move, and nothing of its kind otherwise. */
  ghost predicate Spoken(r: Rules, origin: Core, first: Option<Event>, log: seq<Move>) {
    log == [] ||
    (Spoken(r, origin, first, log[..|log| - 1]) &&
     match Owing(r, origin, first, log[..|log| - 1])
     case Some(e) => log[|log| - 1] == Hear(e)
     case None => log[|log| - 1].Hear? ==> !IsOwed(log[|log| - 1].event.kind))
  }

  // ---------------------------------------------------------------------------
  // From one state on
  // ---------------------------------------------------------------------------

  /** What may follow: anything, or only what announcements and steps do; of either, only what wakes nobody. */
  datatype Span = AnyMoves | AnyAsleep | InnerMoves | InnerAsleep

  predicate Roams(s: Span) {
    s.AnyMoves? || s.AnyAsleep?
  }

  predicate Sleeps(s: Span) {
    s.AnyAsleep? || s.InnerAsleep?
  }

  predicate Fits(s: Span, m: Move) {
    (Roams(s) || Inner(m)) && (Sleeps(s) ==> !m.Wake?)
  }

  /** A state, the log when the machine was in it, what it owed, and what may follow. */
  datatype Origin = Origin(core: Core, past: seq<Move>, span: Span, owed: Option<Event>)

  function InnerOf(w: World): Origin {
    Origin(w.core, w.log, InnerMoves, None)
  }

  /** The world is what the moves logged since the origin lead to, all enabled when made, `owed` still to be announced. */
  ghost predicate Leads(r: Rules, o: Origin, w: World, owed: Option<Event>) {
    && o.past <= w.log
    && Legal(r, o.core, w.log[|o.past|..])
    && w.core == After(r, o.core, w.log[|o.past|..])
    && (forall i | |o.past| <= i < |w.log| :: Fits(o.span, w.log[i]))
    && Spoken(r, o.core, o.owed, w.log[|o.past|..])
    && Owing(r, o.core, o.owed, w.log[|o.past|..]) == owed
  }

  ghost predicate Valid(r: Rules, o: Origin, w: World) {
    Leads(r, o, w, None)
  }

  /** Ready to hear the event: it is owed, or nothing is. */
  ghost predicate MayHear(r: Rules, o: Origin, w: World, e: Event) {
    Leads(r, o, w, if IsOwed(e.kind) then Some(e) else None)
  }

  lemma DoLeads(r: Rules, o: Origin, w: World, owed: Option<Event>, m: Move)
    requires Leads(r, o, w, owed) && Enabled(r, w.core, m) && Fits(o.span, m)
    requires match owed case Some(e) => m == Hear(e) case None => m.Hear? ==> !IsOwed(m.event.kind)
    ensures Leads(r, o, Do(r, w, m), OwedBy(w.core, m))
  {
    hide Enabled, Apply, OwedBy, Inner;
    var log := (w.log + [m])[|o.past|..];
    assert log[..|log| - 1] == w.log[|o.past|..];
  }

  lemma DoKeepsValid(r: Rules, o: Origin, w: World, m: Move)
    requires Valid(r, o, w) && Enabled(r, w.core, m) && Fits(o.span, m) && !m.Hear?
    ensures OwedBy(w.core, m).None? ==> Valid(r, o, Do(r, w, m))
    ensures Leads(r, o, Do(r, w, m), OwedBy(w.core, m))
  {
    hide Enabled, Apply, OwedBy, Leads, Inner;
    DoLeads(r, o, w, None, m);
  }

  lemma HearKeepsValid(r: Rules, o: Origin, w: World, e: Event)
    requires MayHear(r, o, w, e)
    ensures Valid(r, o, Do(r, w, Hear(e)))
  {
    hide Leads;
    DoLeads(r, o, w, if IsOwed(e.kind) then Some(e) else None, Hear(e));
  }

  /** How far a drain may still go, and what stopped it, are no part of the history. */
  lemma StillLeads(r: Rules, o: Origin, w: World, owed: Option<Event>, gas: nat, halt: Halt)
    requires Leads(r, o, w, owed)
    ensures Leads(r, o, w.(gas := gas, halt := halt), owed)
  {
    hide Legal, After, Spoken, Owing, Fits;
  }

  lemma ValidMayHear(r: Rules, o: Origin, w: World, e: Event)
    requires Valid(r, o, w) && !IsOwed(e.kind)
    ensures MayHear(r, o, w, e)
  {
  }

  /** From one world to another by what announcements and steps do. */
  ghost predicate Follows(r: Rules, w: World, w': World) {
    && w.log <= w'.log
    && Legal(r, w.core, w'.log[|w.log|..])
    && w'.core == After(r, w.core, w'.log[|w.log|..])
    && forall i | |w.log| <= i < |w'.log| :: Inner(w'.log[i])
  }

  lemma SpanFollows(r: Rules, w: World, span: Span, owed: Option<Event>, w': World)
    requires Valid(r, Origin(w.core, w.log, span, owed), w') && !Roams(span)
    ensures Follows(r, w, w')
    ensures Sleeps(span) ==> forall i | |w.log| <= i < |w'.log| :: !w'.log[i].Wake?
  {
    hide Legal, After, Inner, Spoken, Owing;
  }

  lemma InnerFollows(r: Rules, w: World, w': World)
    requires Valid(r, InnerOf(w), w')
    ensures Follows(r, w, w')
  {
    hide Valid, Follows;
    SpanFollows(r, w, InnerMoves, None, w');
  }

  lemma NothingFollows(r: Rules, w: World)
    ensures Valid(r, InnerOf(w), w)
  {
    assert w.log[|w.log|..] == [];
  }

  /** From here on, whatever follows. */
  function Since(w: World): Origin {
    Origin(w.core, w.log, AnyMoves, None)
  }

  lemma SinceItself(r: Rules, w: World)
    ensures Valid(r, Since(w), w)
  {
    assert w.log[|w.log|..] == [];
  }

  /** The move a world made last is in every log that goes on from it, and led there from the same state. */
  lemma StaysLogged(r: Rules, o: Core, w: World, m: Move, w': World)
    requires Valid(r, Origin(o, [], AnyMoves, None), w) && Enabled(r, w.core, m) && Valid(r, Since(Do(r, w, m)), w')
    ensures |w.log| < |w'.log| && w'.log[|w.log|] == m && w'.log[..|w.log|] == w.log
    ensures After(r, o, w'.log[..|w.log|]) == w.core
  {
    assert w.log[0..] == w.log;
    assert w'.log[|w.log|] == (w.log + [m])[|w.log|];
    hide Apply, Enabled;
  }
}
