/** When an event starts a rule, which rules are live, and when an event ends an effect. */
module Abilities {
  import opened Board

  // ---------------------------------------------------------------------------
  // Starting
  // ---------------------------------------------------------------------------

  predicate ScopeMatches(r: Rules, v: View, s: Source, e: Event) {
    match s.trigger.scope
    case SelfCard => e.card == Some(s.card)
    case CarrierCard => Names(e.card) && EquippedItem(r.players, v.table.cards, e.card.value) == Some(s.card)
    case OwnerEvent => e.player == s.owner
    case OwnerTurn => v.table.current == Some(s.owner)
    case Attacker => e.card == Some(s.card)
    case Anyone => true
    case TargetsOwner =>
      && Names(e.target)
      && CardOwner(r.players, v.table.cards, e.target.value) == Some(s.owner)
      && e.player != s.owner
  }

  predicate TriggerMatches(r: Rules, v: View, s: Source, e: Event) {
    && s.trigger.on == e.kind
    && (s.trigger.tag.Some? ==> e.tag == s.trigger.tag)
    && ScopeMatches(r, v, s, e)
  }

  function OwnerFor(s: Source, e: Event): Id {
    if s.trigger.scope.Attacker? then e.player else s.owner
  }

  /** A pipeline about to be started: the rule's steps, the context they will share. */
  datatype Start = Start(card: Id, owner: Id, steps: seq<Script>, ctx: Ctx, system: bool)

  function StartOf(s: Source, e: Event): Start {
    var base: Ctx := map[CTX_SOURCE_CARD := Ids([s.card])] + e.seed;
    var ctx := if s.trigger.scope.TargetsOwner? then base[CTX_CHOSEN_PLAYER := Ids([e.player])] else base;
    Start(s.card, OwnerFor(s, e), s.steps, ctx, s.system)
  }

  predicate IsNamed(s: Source, e: Event) {
    Names(e.card) && s.card == e.card.value
  }

  // ---------------------------------------------------------------------------
  // Which rules are live: derived from where the cards sit
  // ---------------------------------------------------------------------------

  function FromRules(rules: seq<Rule>, card: Id, owner: Id, system: bool): (out: seq<Source>)
    ensures |out| == |rules|
    ensures forall i | 0 <= i < |out| ::
      out[i] == Source(rules[i].trigger, rules[i].steps, card, owner, system)
  {
    if rules == [] then []
    else [Source(rules[0].trigger, rules[0].steps, card, owner, system)] + FromRules(rules[1..], card, owner, system)
  }

  function Printed(r: Rules, card: Id, owner: Id): seq<Source> {
    FromRules(if card in r.printed then r.printed[card] else [], card, owner, false)
  }

  function PrintedOn(r: Rules, cards: seq<Id>, owner: Id): seq<Source> {
    if cards == [] then []
    else PrintedOn(r, cards[..|cards| - 1], owner) + Printed(r, cards[|cards| - 1], owner)
  }

  function HeroSources(r: Rules, c: Cards, hero: Id, owner: Id): seq<Source> {
    var item := EquippedItem(r.players, c, hero);
    Printed(r, hero, owner) + FromRules(r.heroRules, hero, owner, true)
      + if Names(item) then Printed(r, item.value, owner) else []
  }

  function HeroesSources(r: Rules, c: Cards, heroes: seq<Id>, owner: Id): seq<Source> {
    if heroes == [] then []
    else HeroesSources(r, c, heroes[..|heroes| - 1], owner) + HeroSources(r, c, heroes[|heroes| - 1], owner)
  }

  function InstanceSources(r: Rules, instances: seq<Id>, owner: Id): seq<Source> {
    if instances == [] then []
    else
      var last := instances[|instances| - 1];
      InstanceSources(r, instances[..|instances| - 1], owner)
        + Printed(r, last, owner) + FromRules(r.instanceRules, last, owner, true)
  }

  function SeatSources(r: Rules, c: Cards, player: Id): seq<Source> {
    var s := SeatOf(c, player);
    Printed(r, s.leader, player) + PrintedOn(r, s.monsters, player)
      + HeroesSources(r, c, s.heroes, player) + InstanceSources(r, s.instances, player)
  }

  function SeatsSources(r: Rules, c: Cards, players: seq<Id>): seq<Source> {
    if players == [] then []
    else SeatsSources(r, c, players[..|players| - 1]) + SeatSources(r, c, players[|players| - 1])
  }

  /** Seats first, in seat order; then the monsters of the row, owned by nobody. */
  function Sources(r: Rules, c: Cards): seq<Source> {
    SeatsSources(r, c, r.players) + PrintedOn(r, c.row, NO_OWNER)
  }

  // ---------------------------------------------------------------------------
  // Matching
  // ---------------------------------------------------------------------------

  /** The pipelines started by the sources whose `IsNamed` is `named`, in source order. */
  function StartsOf(r: Rules, v: View, sources: seq<Source>, e: Event, named: bool): seq<Start> {
    if sources == [] then []
    else
      var rest := StartsOf(r, v, sources[..|sources| - 1], e, named);
      var s := sources[|sources| - 1];
      if TriggerMatches(r, v, s, e) && IsNamed(s, e) == named then rest + [StartOf(s, e)] else rest
  }

  /** What an event starts, first to go first: the named card's own rules, then every onlooker's. */
  function Started(r: Rules, v: View, e: Event): seq<Start> {
    var sources := Sources(r, v.table.cards);
    StartsOf(r, v, sources, e, true) + StartsOf(r, v, sources, e, false)
  }

  // ---------------------------------------------------------------------------
  // Ending
  // ---------------------------------------------------------------------------

  predicate IsExpired(r: Rules, v: View, effect: Effect, e: Event) {
    effect.expiry.Some? && exists x | x in effect.expiry.value ::
      x.on == e.kind && (x.test.None? || r.expires(v, effect, x.test.value, e))
  }

  function Doomed(r: Rules, v: View, effects: seq<Effect>, e: Event): (out: seq<Effect>)
    ensures forall d | d in out :: d in effects
    ensures forall d | d in effects :: d in out <==> IsExpired(r, v, d, e)
  {
    if effects == [] then []
    else
      (if IsExpired(r, v, effects[0], e) then [effects[0]] else []) + Doomed(r, v, effects[1..], e)
  }

  predicate HasId(effects: seq<Effect>, id: Id) {
    exists d | d in effects :: d.id == id
  }

  /** The effects left when every id in `doomed` has been dropped. */
  function Without(effects: seq<Effect>, doomed: seq<Effect>): (out: seq<Effect>)
    ensures |out| <= |effects|
    ensures (exists x | x in effects :: HasId(doomed, x.id)) ==> |out| < |effects|
    ensures forall x :: x in out <==> x in effects && !HasId(doomed, x.id)
  {
    if effects == [] then []
    else
      var rest := Without(effects[1..], doomed);
      if HasId(doomed, effects[0].id) then rest else [effects[0]] + rest
  }

  function WithCards(v: View, c: Cards): View {
    v.(table := v.table.(cards := c))
  }

  datatype Swept = Swept(cards: Cards, expired: seq<Effect>)

  /** Seat by seat: decide on the board as the earlier seats left it, then remove. */
  function Sweep(r: Rules, v: View, players: seq<Id>, e: Event): Swept {
    if players == [] then Swept(v.table.cards, [])
    else
      var before := Sweep(r, v, players[..|players| - 1], e);
      var p := players[|players| - 1];
      var s := SeatOf(before.cards, p);
      var doomed := Doomed(r, WithCards(v, before.cards), s.effects, e);
      if doomed == [] then before
      else Swept(WithSeat(before.cards, p, s.(effects := Without(s.effects, doomed))), before.expired + doomed)
  }

  function Expired(effect: Effect): StepEvent {
    Plain(EffectExpired, effect.owner, None)
  }

  function ExpiredAll(effects: seq<Effect>): seq<StepEvent> {
    if effects == [] then [] else [Expired(effects[0])] + ExpiredAll(effects[1..])
  }

  function EffectCount(c: Cards, players: seq<Id>): nat {
    if players == [] then 0
    else EffectCount(c, players[..|players| - 1]) + |SeatOf(c, players[|players| - 1]).effects|
  }
}
