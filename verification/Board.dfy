/** The board, the rules of the table and the events that move it. */
module Board {

  datatype Option<+T> = None | Some(value: T)

  type Id = string
  type FrameId = nat

  /** A monster in the row is nobody's. */
  const NO_OWNER: Id := ""

  // ---------------------------------------------------------------------------
  // Events
  // ---------------------------------------------------------------------------

  datatype Value = Ids(ids: seq<Id>) | Number(number: int)

  /** What the steps of one pipeline share. */
  type Ctx = map<string, Value>

  datatype Slot = Slot(key: string, value: Value)

  const CTX_SOURCE_CARD := "sourceCard"
  const CTX_CHOSEN_PLAYER := "chosenPlayer"

  datatype Kind =
    | GameStarted | GameEnded | TurnStarted | TurnEnded | FrameResolved
    | WindowOpened | WindowClosed | AbilityDone | EffectExpired
    | RollSuccess | RollFailed | MonsterSlain | MonsterFoughtBack | ChallengeResolved
    | Named(name: string)

  datatype Event = Event(
    kind: Kind,
    player: Id,
    card: Option<Id>,       // payload.cardId
    tag: Option<string>,    // payload.label
    target: Option<Id>,     // payload.targetedCardId
    seed: Ctx,              // payload.ctxSeed
    frame: FrameId,         // payload.frameId, read on FrameResolved only
    slots: seq<Slot>        // payload.result, read on FrameResolved only
  )

  function Plain(kind: Kind, player: Id, card: Option<Id>): Event {
    Event(kind, player, card, None, None, map[], 0, [])
  }

  function Resolved(frame: FrameId, slots: seq<Slot>, card: Option<Id>): Event {
    Event(FrameResolved, "", card, None, None, map[], frame, slots)
  }

  /** Announced by the engine, the turn and the windows, never by a step. */
  predicate Reserved(kind: Kind) {
    kind in {GameStarted, GameEnded, TurnStarted, TurnEnded, FrameResolved}
  }

  type InsideEvent = e: Event | !Reserved(e.kind) witness Plain(AbilityDone, "", None)

  /** What a step announces for itself: neither a window's opening nor that an ability is done. */
  type StepEvent = e: InsideEvent | !e.kind.WindowOpened? && !e.kind.AbilityDone? witness Plain(WindowClosed, "", None)

  /** A window announces its own opening, and nobody else does. */
  type OpeningEvent = e: InsideEvent | e.kind.WindowOpened? witness Plain(WindowOpened, "", None)

  // ---------------------------------------------------------------------------
  // The board
  // ---------------------------------------------------------------------------

  datatype Passive = ActionPointBonus | OtherPassive(name: string)

  /** One way an effect can end; no test means the event alone decides. */
  datatype Expiry = Expiry(on: Kind, test: Option<nat>)

  datatype Effect = Effect(
    id: Id, source: Id, owner: Id, passive: Passive, value: int, scoped: bool,
    expiry: Option<seq<Expiry>>)

  datatype Seat = Seat(
    leader: Id, heroes: seq<Id>, items: map<Id, Id>, monsters: seq<Id>, instances: seq<Id>,
    hand: seq<Id>, budget: int, points: int, effects: seq<Effect>)

  const EMPTY_SEAT := Seat("", [], map[], [], [], [], 0, 0, [])

  datatype Cards = Cards(
    seats: map<Id, Seat>, row: seq<Id>, monsterDeck: seq<Id>, deck: seq<Id>, discard: seq<Id>,
    used: seq<Id>, challenged: seq<Id>)

  datatype Phase = Setup | Turns | Concluded

  /** Everything a snapshot holds. */
  datatype Table = Table(cards: Cards, current: Option<Id>, phase: Phase, winner: Option<Id>)

  datatype WindowKind =
    | Modifier(required: int, hero: Id)
    | Attack(monster: Id)
    | Challenge(card: Id)
    | Choice

  /** `answer` is what the window wrote when it closed; nothing while it is open. */
  datatype Window = Window(kind: WindowKind, respondent: Id, open: bool, answer: seq<Slot>)

  /** `mark` counts the pipelines started before the frame opened; it is bookkeeping for the proofs. */
  datatype Frame = Frame(id: FrameId, before: Table, windows: seq<Window>, mark: nat)

  /** What a step, a guard or a win condition can read: the board without the pipeline stack. */
  datatype View = View(table: Table, frames: seq<Frame>)

  function SeatOf(c: Cards, player: Id): Seat {
    if player in c.seats then c.seats[player] else EMPTY_SEAT
  }

  function PointsOf(c: Cards, player: Id): int {
    SeatOf(c, player).points
  }

  function WithSeat(c: Cards, player: Id, s: Seat): Cards {
    c.(seats := c.seats[player := s])
  }

  function WithPoints(c: Cards, player: Id, points: int): Cards {
    WithSeat(c, player, SeatOf(c, player).(points := points))
  }

  predicate IsOpen(f: Frame) {
    exists w | w in f.windows :: w.open
  }

  /** One of the frame's questions is still to be answered. */
  predicate IsAsking(f: Frame) {
    exists w | w in f.windows :: w.open && w.kind.Choice?
  }

  predicate HasOpenFrames(v: View) {
    exists f | f in v.frames :: IsOpen(f)
  }

  predicate HasFrame(v: View, id: FrameId) {
    exists f | f in v.frames :: f.id == id
  }

  /** The window is on the board and still open. */
  predicate IsUp(v: View, id: FrameId, index: nat) {
    exists f | f in v.frames :: f.id == id && index < |f.windows| && f.windows[index].open
  }

  /** Frames are held in the order they opened, so "after" is a position. */
  predicate HasOpenFramesAfter(v: View, id: FrameId) {
    exists i, j | 0 <= i < j < |v.frames| :: v.frames[i].id == id && IsOpen(v.frames[j])
  }

  predicate MayRestore(w: Window) {
    !w.kind.Choice?
  }

  /** A frame that may still restore the board: nothing open in it, or a roll, attack or challenge. */
  predicate HasPendingOutcome(v: View) {
    exists f | f in v.frames ::
      !IsOpen(f) || exists w | w in f.windows :: w.open && MayRestore(w)
  }

  // ---------------------------------------------------------------------------
  // Rules: what a card or the game does, and when
  // ---------------------------------------------------------------------------

  /** A card played inside a frame: a change of the board, announced. */
  datatype Play = Play(edit: Cards -> Cards, event: StepEvent)

  /** A window to open, its opening announcement and what it announces before it is on the board. */
  datatype Asking = Asking(kind: WindowKind, respondent: Id, opening: OpeningEvent, standing: seq<StepEvent>)

  datatype Act =
    | Emit(cards: Cards, ctx: Ctx, event: StepEvent)
    | Ask(cards: Cards, ctx: Ctx, plays: seq<Play>, asking: Asking, more: seq<Asking>)
    | Return(cards: Cards, ctx: Ctx, wait: bool)

  /** What a step does, act by act: each act is chosen on the context, the frame it opened and the board it sees. */
  datatype Script = Script(length: nat, act: (nat, Ctx, Option<FrameId>, View) -> Act)

  datatype Scope = SelfCard | CarrierCard | OwnerEvent | OwnerTurn | Attacker | Anyone | TargetsOwner

  datatype Trigger = Trigger(on: Kind, scope: Scope, tag: Option<string>)

  datatype Rule = Rule(trigger: Trigger, steps: seq<Script>)

  datatype Source = Source(trigger: Trigger, steps: seq<Script>, card: Id, owner: Id, system: bool)

  datatype CompareMode = HighToWin | LowToWin

  datatype MonsterRoll = MonsterRoll(mode: CompareMode, higher: int, lower: int)

  datatype Rules = Rules(
    players: seq<Id>,
    printed: map<Id, seq<Rule>>,
    heroRules: seq<Rule>,
    instanceRules: seq<Rule>,
    expires: (View, Effect, nat, Event) -> bool,
    winConditions: seq<(View, Id) -> bool>,
    requireAll: bool,
    monsters: map<Id, MonsterRoll>,
    turnTime: Option<nat>)

  /** What the hero carries, from the first party it stands in. */
  function EquippedItem(players: seq<Id>, c: Cards, hero: Id): Option<Id> {
    if players == [] then None
    else
      var s := SeatOf(c, players[0]);
      if hero in s.heroes then (if hero in s.items then Some(s.items[hero]) else None)
      else EquippedItem(players[1..], c, hero)
  }

  predicate Holds(s: Seat, card: Id) {
    || card in s.hand
    || card == s.leader
    || card in s.heroes
    || (exists h | h in s.heroes :: h in s.items && s.items[h] == card)
    || card in s.monsters
    || card in s.instances
  }

  function CardOwner(players: seq<Id>, c: Cards, card: Id): Option<Id> {
    if players == [] then None
    else if Holds(SeatOf(c, players[0]), card) then Some(players[0])
    else CardOwner(players[1..], c, card)
  }

  /** The frames' truthiness test on ids: absent and empty count alike. */
  predicate Names(id: Option<Id>) {
    id.Some? && id.value != ""
  }
}
