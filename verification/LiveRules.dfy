/** Which rules are live: exactly those of the cards in play, seat by seat and then the row. */
module LiveRules {
  import opened Board
  import opened Abilities
  import opened Starting

  /** It is one of these rules. */
  ghost predicate IsOneOf(rules: seq<Rule>, s: Source) {
    exists rule | rule in rules :: rule.trigger == s.trigger && rule.steps == s.steps
  }

  ghost predicate IsPrinted(r: Rules, s: Source) {
    !s.system && s.card in r.printed && IsOneOf(r.printed[s.card], s)
  }

  /** Carried by a hero of the seat, the first party that hero stands in having the say. */
  ghost predicate IsCarried(r: Rules, c: Cards, heroes: seq<Id>, card: Id) {
    card != "" && exists h | h in heroes :: Carries(r, c, h, card)
  }

  /** Printed on the seat's leader, slain monsters, heroes, what they carry and played instances; or every hero's or instance's. */
  ghost predicate IsLiveAt(r: Rules, c: Cards, seat: Seat, s: Source) {
    || (IsPrinted(r, s) && (s.card == seat.leader || s.card in seat.monsters))
    || IsLiveInParty(r, c, seat.heroes, s)
    || IsLivePlayed(r, seat.instances, s)
  }

  ghost predicate IsLiveInParty(r: Rules, c: Cards, heroes: seq<Id>, s: Source) {
    || (s.card in heroes && (IsPrinted(r, s) || (s.system && IsOneOf(r.heroRules, s))))
    || (IsPrinted(r, s) && IsCarried(r, c, heroes, s.card))
  }

  ghost predicate IsLivePlayed(r: Rules, instances: seq<Id>, s: Source) {
    s.card in instances && (IsPrinted(r, s) || (s.system && IsOneOf(r.instanceRules, s)))
  }

  lemma OneOf(rules: seq<Rule>, card: Id, owner: Id, system: bool, s: Source)
    ensures s in FromRules(rules, card, owner, system) <==>
      s.card == card && s.owner == owner && s.system == system && IsOneOf(rules, s)
  {
    var out := FromRules(rules, card, owner, system);
    if s in out {
      var i :| 0 <= i < |out| && out[i] == s;
      assert rules[i] in rules;
    }
    if s.card == card && s.owner == owner && s.system == system && IsOneOf(rules, s) {
      var rule :| rule in rules && rule.trigger == s.trigger && rule.steps == s.steps;
      var i :| 0 <= i < |rules| && rules[i] == rule;
      assert out[i] == s;
    }
  }

  lemma PrintedIs(r: Rules, card: Id, owner: Id, s: Source)
    ensures s in Printed(r, card, owner) <==> s.card == card && s.owner == owner && IsPrinted(r, s)
  {
    hide IsOneOf, FromRules;
    OneOf(if card in r.printed then r.printed[card] else [], card, owner, false, s);
    if card !in r.printed { assert FromRules([], card, owner, false) == []; }
  }

  lemma {:induction false} PrintedOnIs(r: Rules, cards: seq<Id>, owner: Id, s: Source)
    ensures s in PrintedOn(r, cards, owner) <==> s.card in cards && s.owner == owner && IsPrinted(r, s)
  {
    hide IsPrinted, Printed;
    if cards != [] {
      PrintedOnIs(r, cards[..|cards| - 1], owner, s);
      PrintedIs(r, cards[|cards| - 1], owner, s);
    }
  }

  lemma HeroIs(r: Rules, c: Cards, hero: Id, owner: Id, s: Source)
    ensures s in HeroSources(r, c, hero, owner) <==> s.owner == owner && IsLiveInParty(r, c, [hero], s)
  {
    hide IsPrinted, IsOneOf, Printed, FromRules, Carries, EquippedItem;
    PrintedIs(r, hero, owner, s);
    OneOf(r.heroRules, hero, owner, true, s);
    CarriesIsEquipped(r, c, hero, s.card);
    var item := EquippedItem(r.players, c, hero);
    if Names(item) { PrintedIs(r, item.value, owner, s); }
    assert IsCarried(r, c, [hero], s.card) <==> s.card != "" && Carries(r, c, hero, s.card) by {
      assert hero in [hero];
    }
  }

  lemma PartyParts(r: Rules, c: Cards, heroes: seq<Id>, last: Id, s: Source)
    ensures IsLiveInParty(r, c, heroes + [last], s) <==> IsLiveInParty(r, c, heroes, s) || IsLiveInParty(r, c, [last], s)
  {
    hide IsPrinted, IsOneOf, Carries;
  }

  lemma {:induction false} HeroesAre(r: Rules, c: Cards, heroes: seq<Id>, owner: Id, s: Source)
    ensures s in HeroesSources(r, c, heroes, owner) <==> s.owner == owner && IsLiveInParty(r, c, heroes, s)
  {
    if heroes != [] {
      hide IsLiveInParty, HeroSources;
      var init, last := heroes[..|heroes| - 1], heroes[|heroes| - 1];
      HeroesAre(r, c, init, owner, s);
      HeroIs(r, c, last, owner, s);
      PartyParts(r, c, init, last, s);
      assert heroes == init + [last];
    }
  }

  lemma {:induction false} InstancesAre(r: Rules, instances: seq<Id>, owner: Id, s: Source)
    ensures s in InstanceSources(r, instances, owner) <==> s.owner == owner && IsLivePlayed(r, instances, s)
  {
    hide IsPrinted, IsOneOf, Printed, FromRules;
    if instances != [] {
      var init, last := instances[..|instances| - 1], instances[|instances| - 1];
      InstancesAre(r, init, owner, s);
      PrintedIs(r, last, owner, s);
      OneOf(r.instanceRules, last, owner, true, s);
      assert instances == init + [last];
    }
  }

  lemma SeatIs(r: Rules, c: Cards, player: Id, s: Source)
    ensures s in SeatSources(r, c, player) <==> s.owner == player && IsLiveAt(r, c, SeatOf(c, player), s)
  {
    hide IsPrinted, IsLiveInParty, IsLivePlayed, Printed, PrintedOn, HeroesSources, InstanceSources;
    var seat := SeatOf(c, player);
    PrintedIs(r, seat.leader, player, s);
    PrintedOnIs(r, seat.monsters, player, s);
    HeroesAre(r, c, seat.heroes, player, s);
    InstancesAre(r, seat.instances, player, s);
  }

  lemma {:induction false} SeatsAre(r: Rules, c: Cards, players: seq<Id>, s: Source)
    ensures s in SeatsSources(r, c, players) <==> s.owner in players && IsLiveAt(r, c, SeatOf(c, s.owner), s)
  {
    hide SeatSources, IsLiveAt;
    if players != [] {
      SeatsAre(r, c, players[..|players| - 1], s);
      SeatIs(r, c, players[|players| - 1], s);
    }
  }

  /**
   * A rule is live exactly when its card is in play: at its owner's seat, as
   * leader, slain monster, hero, carried item or played instance; or in the row,
   * nobody's. Every hero in a party holds the heroes' rules, and every played
   * instance the instances'.
   */
  lemma LiveRulesAre(r: Rules, c: Cards, s: Source)
    ensures s in Sources(r, c) <==>
      || (s.owner in r.players && IsLiveAt(r, c, SeatOf(c, s.owner), s))
      || (s.owner == NO_OWNER && s.card in c.row && IsPrinted(r, s))
  {
    hide SeatsSources, PrintedOn, IsLiveAt, IsPrinted;
    SeatsAre(r, c, r.players, s);
    PrintedOnIs(r, c.row, NO_OWNER, s);
  }

  // ---------------------------------------------------------------------------
  // In which order
  // ---------------------------------------------------------------------------

  const LEADER := 0
  const SLAIN := 1
  const PARTY := 2
  const PLAYED := 3

  const OWN := 0
  const STANDING := 1
  const CARRIED := 2

  /** Where a rule is live: the seat, the part of it, the spot in that, whose rule it is there, and which of those. */
  datatype Place = Place(seat: nat, part: nat, spot: nat, kind: nat, nth: nat)

  /** What a place can hold: rules, and of which card. */
  datatype Holding = Holding(rules: seq<Rule>, card: Id)

  const NOTHING := Holding([], "")

  function PrintedRules(r: Rules, card: Id): Holding {
    if card in r.printed then Holding(r.printed[card], card) else NOTHING
  }

  function HeldAt(r: Rules, c: Cards, seat: Seat, p: Place): Holding {
    if p.part == LEADER then
      if p.spot == 0 && p.kind == OWN then PrintedRules(r, seat.leader) else NOTHING
    else if p.part == SLAIN then
      if p.spot < |seat.monsters| && p.kind == OWN then PrintedRules(r, seat.monsters[p.spot]) else NOTHING
    else if p.part == PARTY then
      if p.spot >= |seat.heroes| then NOTHING
      else if p.kind == OWN then PrintedRules(r, seat.heroes[p.spot])
      else if p.kind == STANDING then Holding(r.heroRules, seat.heroes[p.spot])
      else
        var item := EquippedItem(r.players, c, seat.heroes[p.spot]);
        if p.kind == CARRIED && Names(item) then PrintedRules(r, item.value) else NOTHING
    else if p.part == PLAYED && p.spot < |seat.instances| then
      if p.kind == OWN then PrintedRules(r, seat.instances[p.spot])
      else if p.kind == STANDING then Holding(r.instanceRules, seat.instances[p.spot])
      else NOTHING
    else NOTHING
  }

  /** The row comes behind the last seat. */
  function HeldIn(r: Rules, c: Cards, p: Place): Holding {
    if p.seat < |r.players| then HeldAt(r, c, SeatOf(c, r.players[p.seat]), p)
    else if p.seat == |r.players| && p.part == 0 && p.spot < |c.row| && p.kind == OWN then PrintedRules(r, c.row[p.spot])
    else NOTHING
  }

  predicate IsPlace(r: Rules, c: Cards, p: Place) {
    p.nth < |HeldIn(r, c, p).rules|
  }

  /** The rule in that place. */
  function RuleAt(r: Rules, c: Cards, p: Place): Source
    requires IsPlace(r, c, p)
  {
    var held := HeldIn(r, c, p);
    var rule := held.rules[p.nth];
    Source(rule.trigger, rule.steps, held.card,
      if p.seat < |r.players| then r.players[p.seat] else NO_OWNER, p.kind == STANDING)
  }

  predicate Before(a: Place, b: Place) {
    if a.seat != b.seat then a.seat < b.seat
    else if a.part != b.part then a.part < b.part
    else if a.spot != b.spot then a.spot < b.spot
    else if a.kind != b.kind then a.kind < b.kind
    else a.nth < b.nth
  }

  predicate Within(lo: Place, p: Place, hi: Place) {
    !Before(p, lo) && Before(p, hi)
  }

  ghost predicate InOrder(places: seq<Place>) {
    forall i, j | 0 <= i < j < |places| :: Before(places[i], places[j])
  }

  /** The list holds the rule of every place from `lo` up to `hi`, once, in the order of the places. */
  ghost predicate Lists(r: Rules, c: Cards, all: seq<Source>, places: seq<Place>, lo: Place, hi: Place) {
    && |places| == |all| && InOrder(places)
    && (forall i | 0 <= i < |places| ::
          Within(lo, places[i], hi) && IsPlace(r, c, places[i]) && all[i] == RuleAt(r, c, places[i]))
    && (forall p | IsPlace(r, c, p) && Within(lo, p, hi) :: p in places)
  }

  lemma BeforeIsAnOrder(a: Place, b: Place, c: Place)
    ensures Before(a, b) && Before(b, c) ==> Before(a, c)
    ensures Before(a, b) ==> !Before(b, a)
    ensures Before(a, b) || Before(b, a) || a == b
  {
  }

  /** Two stretches that meet make one. */
  lemma Joins(r: Rules, c: Cards, a: seq<Source>, ps: seq<Place>, b: seq<Source>, qs: seq<Place>, lo: Place, mid: Place, hi: Place)
    requires Lists(r, c, a, ps, lo, mid) && Lists(r, c, b, qs, mid, hi)
    requires !Before(mid, lo) && !Before(hi, mid)
    ensures Lists(r, c, a + b, ps + qs, lo, hi)
  {
    hide Before, IsPlace, RuleAt;
    var all, places := a + b, ps + qs;
    forall i, j | 0 <= i < j < |places| ensures Before(places[i], places[j]) {
      if i < |ps| <= j {
        BeforeIsAnOrder(places[i], mid, places[j]);
        BeforeIsAnOrder(mid, places[j], mid);
      }
    }
    forall i | 0 <= i < |places|
      ensures Within(lo, places[i], hi) && IsPlace(r, c, places[i]) && all[i] == RuleAt(r, c, places[i])
    {
      WithinBoth(lo, mid, hi, places[i]);
    }
    forall p | IsPlace(r, c, p) && Within(lo, p, hi) ensures p in places {
      WithinEither(lo, mid, hi, p);
      if Within(lo, p, mid) { assert p in ps; } else { assert p in qs; }
    }
  }

  lemma WithinBoth(lo: Place, mid: Place, hi: Place, p: Place)
    requires !Before(mid, lo) && !Before(hi, mid)
    ensures Within(lo, p, mid) || Within(mid, p, hi) ==> Within(lo, p, hi)
  {
  }

  lemma WithinEither(lo: Place, mid: Place, hi: Place, p: Place)
    requires Within(lo, p, hi)
    ensures Within(lo, p, mid) || Within(mid, p, hi)
  {
  }

  /** One holding's rules, in the order they are written down. */
  lemma ListsOne(r: Rules, c: Cards, p: Place, card: Id, owner: Id) returns (places: seq<Place>)
    requires p.nth == 0 && owner == (if p.seat < |r.players| then r.players[p.seat] else NO_OWNER)
    requires HeldIn(r, c, p).rules == [] || HeldIn(r, c, p).card == card
    ensures Lists(r, c, FromRules(HeldIn(r, c, p).rules, card, owner, p.kind == STANDING), places, p, p.(kind := p.kind + 1))
  {
    hide HeldAt;
    var rules := HeldIn(r, c, p).rules;
    places := seq(|rules|, n requires 0 <= n < |rules| => p.(nth := n));
    forall n: nat ensures HeldIn(r, c, p.(nth := n)) == HeldIn(r, c, p) { SameHolding(r, c, p, n); }
    forall q | IsPlace(r, c, q) && Within(p, q, p.(kind := p.kind + 1)) ensures q in places {
      assert q == p.(nth := q.nth);
      assert places[q.nth] == q;
    }
  }

  lemma SameHolding(r: Rules, c: Cards, p: Place, n: nat)
    ensures HeldIn(r, c, p.(nth := n)) == HeldIn(r, c, p)
  {
  }

  /** A stretch that holds nothing. */
  lemma ListsNone(r: Rules, c: Cards, lo: Place, hi: Place)
    requires forall p | Within(lo, p, hi) :: !IsPlace(r, c, p)
    ensures Lists(r, c, [], [], lo, hi)
  {
  }

  ghost predicate Listed(r: Rules, c: Cards, all: seq<Source>, lo: Place, hi: Place) {
    exists places :: Lists(r, c, all, places, lo, hi)
  }

  lemma OneListed(r: Rules, c: Cards, p: Place, card: Id, owner: Id)
    requires p.nth == 0 && owner == (if p.seat < |r.players| then r.players[p.seat] else NO_OWNER)
    requires HeldIn(r, c, p).rules == [] || HeldIn(r, c, p).card == card
    ensures Listed(r, c, FromRules(HeldIn(r, c, p).rules, card, owner, p.kind == STANDING), p, p.(kind := p.kind + 1))
  {
    hide Lists, HeldIn, FromRules;
    var places := ListsOne(r, c, p, card, owner);
  }

  lemma NoneListed(r: Rules, c: Cards, lo: Place, hi: Place)
    requires forall p | Within(lo, p, hi) :: !IsPlace(r, c, p)
    ensures Listed(r, c, [], lo, hi)
  {
    hide Lists, IsPlace, Within;
    ListsNone(r, c, lo, hi);
  }

  lemma BothListed(r: Rules, c: Cards, a: seq<Source>, b: seq<Source>, lo: Place, mid: Place, hi: Place)
    requires Listed(r, c, a, lo, mid) && Listed(r, c, b, mid, hi)
    requires !Before(mid, lo) && !Before(hi, mid)
    ensures Listed(r, c, a + b, lo, hi)
  {
    hide Lists, Before;
    var ps :| Lists(r, c, a, ps, lo, mid);
    var qs :| Lists(r, c, b, qs, mid, hi);
    Joins(r, c, a, ps, b, qs, lo, mid, hi);
  }

  /** What the rest of a stretch holds is nothing. */
  lemma UpTo(r: Rules, c: Cards, all: seq<Source>, lo: Place, mid: Place, hi: Place)
    requires Listed(r, c, all, lo, mid)
    requires !Before(mid, lo) && !Before(hi, mid)
    requires forall p | Within(mid, p, hi) :: !IsPlace(r, c, p)
    ensures Listed(r, c, all, lo, hi)
  {
    hide Lists, Before, IsPlace, Within;
    NoneListed(r, c, mid, hi);
    BothListed(r, c, all, [], lo, mid, hi);
    assert all + [] == all;
  }

  // ---------------------------------------------------------------------------
  // Card by card, part by part, seat by seat
  // ---------------------------------------------------------------------------

  function SeatOwner(r: Rules, k: nat): Id {
    if k < |r.players| then r.players[k] else NO_OWNER
  }

  function Spot(k: nat, part: nat, spot: nat): Place {
    Place(k, part, spot, OWN, 0)
  }

  lemma NothingBetween(r: Rules, c: Cards, p: Place, hi: Place)
    requires !Before(hi, p) && forall q | Within(p, q, hi) :: HeldIn(r, c, q) == NOTHING
    ensures forall q | Within(p, q, hi) :: !IsPlace(r, c, q)
  {
  }

  lemma {:induction false} PrintedStretch(r: Rules, c: Cards, cards: seq<Id>, k: nat, part: nat, n: nat)
    requires n <= |cards|
    requires forall p: Place | p.seat == k && p.part == part && p.spot < |cards| ::
      HeldIn(r, c, p) == if p.kind == OWN then PrintedRules(r, cards[p.spot]) else NOTHING
    ensures Listed(r, c, PrintedOn(r, cards[..n], SeatOwner(r, k)), Spot(k, part, 0), Spot(k, part, n))
  {
    hide HeldIn, Listed;
    if n == 0 {
      NoneListed(r, c, Spot(k, part, 0), Spot(k, part, 0));
    } else {
      PrintedStretch(r, c, cards, k, part, n - 1);
      var at, card := Spot(k, part, n - 1), cards[n - 1];
      assert cards[..n][..n - 1] == cards[..n - 1];
      OneListed(r, c, at, card, SeatOwner(r, k));
      BothListed(r, c, PrintedOn(r, cards[..n - 1], SeatOwner(r, k)), Printed(r, card, SeatOwner(r, k)),
        Spot(k, part, 0), at, at.(kind := 1));
      NothingBetween(r, c, at.(kind := 1), Spot(k, part, n));
      UpTo(r, c, PrintedOn(r, cards[..n], SeatOwner(r, k)), Spot(k, part, 0), at.(kind := 1), Spot(k, part, n));
    }
  }

  lemma HeroListed(r: Rules, c: Cards, k: nat, spot: nat)
    requires k < |r.players| && spot < |SeatOf(c, r.players[k]).heroes|
    ensures Listed(r, c, HeroSources(r, c, SeatOf(c, r.players[k]).heroes[spot], r.players[k]), Spot(k, PARTY, spot), Spot(k, PARTY, spot + 1))
  {
    hide Listed, Lists, FromRules, EquippedItem, IsPlace;
    var at, hero, owner := Spot(k, PARTY, spot), SeatOf(c, r.players[k]).heroes[spot], r.players[k];
    var item := EquippedItem(r.players, c, hero);
    var standing, carried, end := at.(kind := STANDING), at.(kind := CARRIED), at.(kind := 3);
    OneListed(r, c, at, hero, owner);
    OneListed(r, c, standing, hero, owner);
    OneListed(r, c, carried, if Names(item) then item.value else "", owner);
    var own, theirs := Printed(r, hero, owner), FromRules(r.heroRules, hero, owner, true);
    var its := if Names(item) then Printed(r, item.value, owner) else [];
    assert its == FromRules(HeldIn(r, c, carried).rules, if Names(item) then item.value else "", owner, false) by {
      NoRules("", owner);
    }
    BothListed(r, c, own, theirs, at, standing, carried);
    BothListed(r, c, own + theirs, its, at, carried, end);
    NothingBetween(r, c, end, Spot(k, PARTY, spot + 1));
    UpTo(r, c, own + theirs + its, at, end, Spot(k, PARTY, spot + 1));
  }

  lemma NoRules(card: Id, owner: Id)
    ensures FromRules([], card, owner, false) == []
  {
  }

  lemma {:induction false} PartyStretch(r: Rules, c: Cards, k: nat, n: nat)
    requires k < |r.players| && n <= |SeatOf(c, r.players[k]).heroes|
    ensures Listed(r, c, HeroesSources(r, c, SeatOf(c, r.players[k]).heroes[..n], r.players[k]), Spot(k, PARTY, 0), Spot(k, PARTY, n))
  {
    hide HeldIn, Listed, HeroSources, IsPlace;
    if n == 0 {
      NoneListed(r, c, Spot(k, PARTY, 0), Spot(k, PARTY, 0));
    } else {
      PartyStretch(r, c, k, n - 1);
      var heroes := SeatOf(c, r.players[k]).heroes;
      assert heroes[..n][..n - 1] == heroes[..n - 1];
      HeroListed(r, c, k, n - 1);
      BothListed(r, c, HeroesSources(r, c, heroes[..n - 1], r.players[k]), HeroSources(r, c, heroes[n - 1], r.players[k]),
        Spot(k, PARTY, 0), Spot(k, PARTY, n - 1), Spot(k, PARTY, n));
    }
  }

  lemma {:induction false} PlayedStretch(r: Rules, c: Cards, k: nat, n: nat)
    requires k < |r.players| && n <= |SeatOf(c, r.players[k]).instances|
    ensures Listed(r, c, InstanceSources(r, SeatOf(c, r.players[k]).instances[..n], r.players[k]), Spot(k, PLAYED, 0), Spot(k, PLAYED, n))
  {
    hide Listed, FromRules, IsPlace, EquippedItem;
    if n == 0 {
      NoneListed(r, c, Spot(k, PLAYED, 0), Spot(k, PLAYED, 0));
    } else {
      PlayedStretch(r, c, k, n - 1);
      var instances, owner, at := SeatOf(c, r.players[k]).instances, r.players[k], Spot(k, PLAYED, n - 1);
      assert instances[..n][..n - 1] == instances[..n - 1];
      var card, before := instances[n - 1], InstanceSources(r, instances[..n - 1], owner);
      var own, theirs := Printed(r, card, owner), FromRules(r.instanceRules, card, owner, true);
      OneListed(r, c, at, card, owner);
      OneListed(r, c, at.(kind := STANDING), card, owner);
      BothListed(r, c, before, own, Spot(k, PLAYED, 0), at, at.(kind := STANDING));
      BothListed(r, c, before + own, theirs, Spot(k, PLAYED, 0), at.(kind := STANDING), at.(kind := 2));
      NothingBetween(r, c, at.(kind := 2), Spot(k, PLAYED, n));
      UpTo(r, c, before + own + theirs, Spot(k, PLAYED, 0), at.(kind := 2), Spot(k, PLAYED, n));
    }
  }

  lemma LeaderListed(r: Rules, c: Cards, k: nat)
    requires k < |r.players|
    ensures Listed(r, c, Printed(r, SeatOf(c, r.players[k]).leader, r.players[k]), Spot(k, LEADER, 0), Spot(k, SLAIN, 0))
  {
    hide Listed, FromRules, IsPlace, EquippedItem;
    var at, leader, owner := Spot(k, LEADER, 0), SeatOf(c, r.players[k]).leader, r.players[k];
    OneListed(r, c, at, leader, owner);
    NothingBetween(r, c, at.(kind := 1), Spot(k, SLAIN, 0));
    UpTo(r, c, Printed(r, leader, owner), at, at.(kind := 1), Spot(k, SLAIN, 0));
  }

  lemma PartEnds(r: Rules, c: Cards, all: seq<Source>, k: nat, part: nat, n: nat, hi: Place)
    requires k < |r.players| && Listed(r, c, all, Spot(k, part, 0), Spot(k, part, n))
    requires hi == (if part < PLAYED then Spot(k, part + 1, 0) else Spot(k + 1, 0, 0)) && SLAIN <= part <= PLAYED
    requires var s := SeatOf(c, r.players[k]);
      n == if part == SLAIN then |s.monsters| else if part == PARTY then |s.heroes| else |s.instances|
    ensures Listed(r, c, all, Spot(k, part, 0), hi)
  {
    hide Listed, IsPlace, EquippedItem;
    NothingBetween(r, c, Spot(k, part, n), hi);
    UpTo(r, c, all, Spot(k, part, 0), Spot(k, part, n), hi);
  }

  lemma SeatListed(r: Rules, c: Cards, k: nat)
    requires k < |r.players|
    ensures Listed(r, c, SeatSources(r, c, r.players[k]), Spot(k, 0, 0), Spot(k + 1, 0, 0))
  {
    hide Listed, Printed, PrintedOn, HeroesSources, InstanceSources, HeldIn, IsPlace;
    var s, p := SeatOf(c, r.players[k]), r.players[k];
    var a, b := Printed(r, s.leader, p), PrintedOn(r, s.monsters, p);
    var d, e := HeroesSources(r, c, s.heroes, p), InstanceSources(r, s.instances, p);
    assert s.monsters[..|s.monsters|] == s.monsters && s.heroes[..|s.heroes|] == s.heroes
      && s.instances[..|s.instances|] == s.instances;
    LeaderListed(r, c, k);
    SlainHeld(r, c, k);
    PrintedStretch(r, c, s.monsters, k, SLAIN, |s.monsters|);
    PartEnds(r, c, b, k, SLAIN, |s.monsters|, Spot(k, PARTY, 0));
    PartyStretch(r, c, k, |s.heroes|);
    PartEnds(r, c, d, k, PARTY, |s.heroes|, Spot(k, PLAYED, 0));
    PlayedStretch(r, c, k, |s.instances|);
    PartEnds(r, c, e, k, PLAYED, |s.instances|, Spot(k + 1, 0, 0));
    BothListed(r, c, a, b, Spot(k, 0, 0), Spot(k, SLAIN, 0), Spot(k, PARTY, 0));
    BothListed(r, c, a + b, d, Spot(k, 0, 0), Spot(k, PARTY, 0), Spot(k, PLAYED, 0));
    BothListed(r, c, a + b + d, e, Spot(k, 0, 0), Spot(k, PLAYED, 0), Spot(k + 1, 0, 0));
  }

  lemma SlainHeld(r: Rules, c: Cards, k: nat)
    requires k < |r.players|
    ensures forall p: Place | p.seat == k && p.part == SLAIN && p.spot < |SeatOf(c, r.players[k]).monsters| ::
      HeldIn(r, c, p) == if p.kind == OWN then PrintedRules(r, SeatOf(c, r.players[k]).monsters[p.spot]) else NOTHING
  {
  }

  lemma {:induction false} SeatsStretch(r: Rules, c: Cards, n: nat)
    requires n <= |r.players|
    ensures Listed(r, c, SeatsSources(r, c, r.players[..n]), Spot(0, 0, 0), Spot(n, 0, 0))
  {
    hide Listed, SeatSources, HeldIn, IsPlace;
    if n == 0 {
      NoneListed(r, c, Spot(0, 0, 0), Spot(0, 0, 0));
    } else {
      SeatsStretch(r, c, n - 1);
      SeatListed(r, c, n - 1);
      assert r.players[..n][..n - 1] == r.players[..n - 1];
      BothListed(r, c, SeatsSources(r, c, r.players[..n - 1]), SeatSources(r, c, r.players[n - 1]),
        Spot(0, 0, 0), Spot(n - 1, 0, 0), Spot(n, 0, 0));
    }
  }

  /**
   * The live rules, each once, in the order of their places: seat by seat in the
   * order of the players, in each seat the leader's, the slain monsters', the
   * party's and the played instances', card by card, of each card first what is
   * printed on it, then every hero's or instance's rules, then what is printed on
   * what it carries, rule by rule; and the row's last.
   */
  lemma ListedInBoardOrder(r: Rules, c: Cards) returns (places: seq<Place>)
    ensures |places| == |Sources(r, c)| && InOrder(places)
    ensures forall i | 0 <= i < |places| :: IsPlace(r, c, places[i]) && Sources(r, c)[i] == RuleAt(r, c, places[i])
    ensures forall p :: IsPlace(r, c, p) ==> p in places
  {
    hide SeatsSources, PrintedOn, IsPlace, RuleAt, Within;
    var n := |r.players|;
    var end := Spot(n, 0, |c.row|);
    assert r.players[..n] == r.players && c.row[..|c.row|] == c.row;
    SeatsStretch(r, c, n);
    PrintedStretch(r, c, c.row, n, 0, |c.row|);
    BothListed(r, c, SeatsSources(r, c, r.players), PrintedOn(r, c.row, NO_OWNER), Spot(0, 0, 0), Spot(n, 0, 0), end);
    places :| Lists(r, c, Sources(r, c), places, Spot(0, 0, 0), end);
    forall p ensures IsPlace(r, c, p) ==> p in places { PlaceIsListed(r, c, places, p); }
  }

  lemma PlaceIsListed(r: Rules, c: Cards, places: seq<Place>, p: Place)
    requires Lists(r, c, Sources(r, c), places, Spot(0, 0, 0), Spot(|r.players|, 0, |c.row|))
    ensures IsPlace(r, c, p) ==> p in places
  {
    hide HeldAt, PrintedRules;
    assert IsPlace(r, c, p) ==> Within(Spot(0, 0, 0), p, Spot(|r.players|, 0, |c.row|));
  }
}
