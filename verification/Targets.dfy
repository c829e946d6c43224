/** The keys by which the board's elements are picked, as strings: printed, parsed, and back. */
module Targets {
  import opened Board

  // ---------------------------------------------------------------------------
  // The view
  // ---------------------------------------------------------------------------

  datatype SeatView = SeatView(player: Id, seat: int)

  datatype HeroView = HeroView(card: Id, item: Option<Id>)

  datatype PartyView = PartyView(player: Id, leader: Id, heroes: seq<HeroView>, monsters: seq<Id>, instances: seq<Id>)

  datatype PlayerView = PlayerView(
    player: Id, seats: seq<SeatView>, hand: seq<Id>, parties: seq<PartyView>, discard: seq<Id>, row: seq<Id>)

  function FindIndex(ids: seq<Id>, id: Id): (at: Option<nat>)
    ensures at.None? <==> id !in ids
    ensures at.Some? ==> at.value < |ids| && ids[at.value] == id && id !in ids[..at.value]
  {
    if ids == [] then None
    else if ids[0] == id then Some(0)
    else
      var rest := FindIndex(ids[1..], id);
      if rest.None? then None else Some(rest.value + 1)
  }

  function AllInstances(parties: seq<PartyView>): seq<Id> {
    if parties == [] then [] else parties[0].instances + AllInstances(parties[1..])
  }

  function NotIn(ids: seq<Id>, out: seq<Id>): seq<Id> {
    if ids == [] then []
    else (if ids[0] in out then [] else [ids[0]]) + NotIn(ids[1..], out)
  }

  /** Cards in mid-play lie on top of the discard pile, each once. */
  function DiscardCards(view: PlayerView): seq<Id> {
    var instances := AllInstances(view.parties);
    instances + NotIn(view.discard, instances)
  }

  function HeroCards(heroes: seq<HeroView>): (ids: seq<Id>)
    ensures |ids| == |heroes| && forall i | 0 <= i < |ids| :: ids[i] == heroes[i].card
  {
    seq(|heroes|, i requires 0 <= i < |heroes| => heroes[i].card)
  }

  function FindItem(heroes: seq<HeroView>, id: Id): (at: Option<nat>)
    ensures at.Some? ==> at.value < |heroes| && heroes[at.value].item == Some(id)
  {
    if heroes == [] then None
    else if heroes[0].item == Some(id) then Some(0)
    else
      var rest := FindItem(heroes[1..], id);
      if rest.None? then None else Some(rest.value + 1)
  }

  // ---------------------------------------------------------------------------
  // Where each seat sits
  // ---------------------------------------------------------------------------

  datatype Placed = Placed(slot: string, player: Option<Id>)

  /** The sign of a remainder follows its dividend. */
  function Rem(a: int, n: int): int
    requires n > 0
  {
    if a >= 0 then a % n else -((-a) % n)
  }

  function Distance(view: PlayerView, mine: SeatView, s: SeatView): int
    requires view.seats != []
  {
    Rem(s.seat - mine.seat + |view.seats|, |view.seats|)
  }

  function InsertSeat(view: PlayerView, mine: SeatView, sorted: seq<SeatView>, s: SeatView): (out: seq<SeatView>)
    requires view.seats != []
    ensures forall x :: x in out <==> x in sorted || x == s
    ensures |out| == |sorted| + 1
  {
    if sorted == [] then [s]
    else if Distance(view, mine, s) < Distance(view, mine, sorted[0]) then [s] + sorted
    else [sorted[0]] + InsertSeat(view, mine, sorted[1..], s)
  }

  /** The others, in rotation from the viewer. */
  function Others(view: PlayerView, mine: SeatView, seats: seq<SeatView>): (out: seq<SeatView>)
    requires view.seats != []
    ensures forall x :: x in out <==> x in seats && x.player != view.player
    ensures |out| <= |seats|
  {
    if seats == [] then []
    else
      var rest, last := Others(view, mine, seats[..|seats| - 1]), seats[|seats| - 1];
      if last.player == view.player then rest else InsertSeat(view, mine, rest, last)
  }

  function SeatOfViewer(view: PlayerView, seats: seq<SeatView>): (mine: Option<SeatView>)
    ensures mine.Some? ==> mine.value in seats
    ensures mine.None? ==> forall s | s in seats :: s.player != view.player
  {
    if seats == [] then None
    else if seats[0].player == view.player then Some(seats[0])
    else SeatOfViewer(view, seats[1..])
  }

  function NthPlayer(seats: seq<SeatView>, n: nat): Option<Id> {
    if n < |seats| then Some(seats[n].player) else None
  }

  predicate FourSlots(slots: seq<Placed>) {
    && |slots| == 4
    && (forall p | p in slots :: p.slot in {"p1", "p2", "p3", "p4"})
    && (forall i, j | 0 <= i < j < 4 :: slots[i].slot != slots[j].slot)
  }

  /** In the order the slots are written down, which is the order they are searched in. */
  function Slots(viewer: Id, others: seq<SeatView>): (slots: seq<Placed>)
    ensures FourSlots(slots)
  {
    if |others| == 1 then
      [Placed("p1", Some(viewer)), Placed("p2", Some(others[0].player)), Placed("p3", None), Placed("p4", None)]
    else if |others| == 2 then
      [Placed("p1", Some(viewer)), Placed("p2", None),
       Placed("p3", Some(others[0].player)), Placed("p4", Some(others[1].player))]
    else
      [Placed("p1", Some(viewer)), Placed("p3", NthPlayer(others, 0)),
       Placed("p2", NthPlayer(others, 1)), Placed("p4", NthPlayer(others, 2))]
  }

  function SlotsFor(view: PlayerView): (slots: seq<Placed>)
    ensures FourSlots(slots)
  {
    var mine := SeatOfViewer(view, view.seats);
    if mine.None? then [Placed("p1", Some(view.player)), Placed("p2", None), Placed("p3", None), Placed("p4", None)]
    else Slots(view.player, Others(view, mine.value, view.seats))
  }

  function FindSlot(slots: seq<Placed>, player: Id): (slot: Option<string>)
    ensures slot.Some? ==> Placed(slot.value, Some(player)) in slots
    ensures slot.None? ==> forall p | p in slots :: p.player != Some(player)
  {
    if slots == [] then None
    else if slots[0].player == Some(player) then Some(slots[0].slot)
    else FindSlot(slots[1..], player)
  }

  function SlotForPlayer(view: PlayerView, player: Id): Option<string> {
    FindSlot(SlotsFor(view), player)
  }

  function PlayerAt(slots: seq<Placed>, slot: string): Option<Id> {
    if slots == [] then None
    else if slots[0].slot == slot then slots[0].player
    else PlayerAt(slots[1..], slot)
  }

  // ---------------------------------------------------------------------------
  // Keys
  // ---------------------------------------------------------------------------

  function Digit(n: nat): char
    requires n < 10
  {
    "0123456789"[n]
  }

  function Decimal(n: nat): (s: string)
    ensures s != [] && ':' !in s
  {
    if n < 10 then [Digit(n)] else Decimal(n / 10) + [Digit(n % 10)]
  }

  function Key1(kind: string, a: string): string {
    kind + ":" + a
  }

  function Key2(kind: string, a: string, b: string): string {
    kind + ":" + a + ":" + b
  }

  /** The keys a party's own elements get, from the first party that has the id and a slot. */
  function PartyKey(view: PlayerView, parties: seq<PartyView>, id: Id): Option<string> {
    if parties == [] then None
    else
      var own := KeyIn(view, parties[0], id);
      if own.Some? then own else PartyKey(view, parties[1..], id)
  }

  function KeyIn(view: PlayerView, party: PartyView, id: Id): Option<string> {
    var slot := SlotForPlayer(view, party.player);
    if slot.None? then None
    else
      var hero := FindIndex(HeroCards(party.heroes), id);
      if hero.Some? then Some(Key2("hero", slot.value, Decimal(hero.value)))
      else
        var item := FindItem(party.heroes, id);
        if item.Some? then Some(Key2("item", slot.value, Decimal(item.value)))
        else if party.leader == id then Some(Key1("leader", slot.value))
        else
          var monster := FindIndex(party.monsters, id);
          if monster.Some? then Some(Key2("slainMonster", slot.value, Decimal(monster.value))) else None
  }

  function TargetKeyForId(view: PlayerView, id: Id): Option<string> {
    var hand := FindIndex(view.hand, id);
    if hand.Some? then Some(Key1("handCard", Decimal(hand.value)))
    else
      var discard := FindIndex(DiscardCards(view), id);
      if discard.Some? then Some(Key1("discardCard", Decimal(discard.value)))
      else
        var ofParty := PartyKey(view, view.parties, id);
        if ofParty.Some? then ofParty
        else
          var monster := FindIndex(view.row, id);
          if monster.Some? then Some(Key1("monster", Decimal(monster.value)))
          else
            var slot := SlotForPlayer(view, id);
            if slot.Some? then Some(Key1("handStack", slot.value)) else None
  }

  // ---------------------------------------------------------------------------
  // Parsing
  // ---------------------------------------------------------------------------

  function Split(s: string, c: char): (parts: seq<string>)
    ensures parts != []
  {
    if s == [] then [[]]
    else if s[0] == c then [[]] + Split(s[1..], c)
    else
      var rest := Split(s[1..], c);
      [[s[0]] + rest[0]] + rest[1..]
  }

  function Part(parts: seq<string>, k: nat): Option<string> {
    if k < |parts| then Some(parts[k]) else None
  }

  predicate IsDigit(c: char) {
    '0' <= c <= '9'
  }

  predicate AllDigits(s: string) {
    forall c | c in s :: IsDigit(c)
  }

  function Value(s: string): nat
    requires AllDigits(s)
  {
    if s == [] then 0
    else
      var last := s[|s| - 1];
      assert last in s;
      10 * Value(s[..|s| - 1]) + (last as int - '0' as int)
  }

  function Number(s: Option<string>): Option<nat> {
    if s.Some? && AllDigits(s.value) then Some(Value(s.value)) else None
  }

  function At(ids: seq<Id>, n: Option<nat>): Option<Id> {
    if n.Some? && n.value < |ids| then Some(ids[n.value]) else None
  }

  function PartyOf(parties: seq<PartyView>, player: Id): (p: Option<PartyView>)
    ensures p.Some? ==> p.value in parties && p.value.player == player
    ensures p.None? ==> forall q | q in parties :: q.player != player
  {
    if parties == [] then None
    else if parties[0].player == player then Some(parties[0])
    else PartyOf(parties[1..], player)
  }

  /** A seat without a name counts as no seat. */
  function PartyAt(view: PlayerView, a: Option<string>): Option<PartyView> {
    var player := if a.Some? then PlayerAt(SlotsFor(view), a.value) else None;
    if Names(player) then PartyOf(view.parties, player.value) else None
  }

  function IdForTargetKey(view: PlayerView, key: string): Option<Id> {
    var parts := Split(key, ':');
    IdFor(view, parts[0], Part(parts, 1), Part(parts, 2))
  }

  function IdFor(view: PlayerView, kind: string, a: Option<string>, b: Option<string>): Option<Id> {
    var party := PartyAt(view, a);
    if kind == "handCard" then At(view.hand, Number(a))
    else if kind == "handStack" then (if a.Some? then PlayerAt(SlotsFor(view), a.value) else None)
    else if kind == "hero" then (if party.Some? then At(HeroCards(party.value.heroes), Number(b)) else None)
    else if kind == "item" then
      (var n := Number(b);
       if party.Some? && n.Some? && n.value < |party.value.heroes| then party.value.heroes[n.value].item else None)
    else if kind == "leader" then (if party.Some? then Some(party.value.leader) else None)
    else if kind == "slainMonster" then (if party.Some? then At(party.value.monsters, Number(b)) else None)
    else if kind == "monster" then At(view.row, Number(a))
    else if kind == "discard" then At(DiscardCards(view), Some(0))
    else if kind == "discardCard" then At(DiscardCards(view), Number(a))
    else if kind == "pendingWindow" then a
    else None
  }

  // ---------------------------------------------------------------------------
  // Printing then parsing
  // ---------------------------------------------------------------------------

  lemma DigitIsDigit(n: nat)
    requires n < 10
    ensures IsDigit(Digit(n)) && Digit(n) as int - '0' as int == n
  {
  }

  lemma {:induction false} ValueOfDecimal(n: nat)
    ensures AllDigits(Decimal(n)) && Value(Decimal(n)) == n
  {
    var s := Decimal(n);
    DigitIsDigit(n % 10);
    if n >= 10 {
      ValueOfDecimal(n / 10);
      assert s[..|s| - 1] == Decimal(n / 10);
    } else {
      assert s[..0] == [];
    }
  }

  lemma {:induction false} SplitOne(s: string, c: char)
    requires c !in s
    ensures Split(s, c) == [s]
  {
    if s != [] {
      SplitOne(s[1..], c);
      assert [s[0]] + s[1..] == s;
    }
  }

  lemma {:induction false} SplitFirst(a: string, c: char, rest: string)
    requires c !in a
    ensures Split(a + [c] + rest, c) == [a] + Split(rest, c)
  {
    var s := a + [c] + rest;
    if a == [] {
      assert s == [c] + rest && s[1..] == rest;
    } else {
      SplitFirst(a[1..], c, rest);
      assert s[1..] == a[1..] + [c] + rest;
      assert [a[0]] + a[1..] == a;
    }
  }

  lemma SplitKey1(kind: string, a: string)
    requires ':' !in kind && ':' !in a
    ensures Split(Key1(kind, a), ':') == [kind, a]
  {
    SplitFirst(kind, ':', a);
    SplitOne(a, ':');
    assert Key1(kind, a) == kind + [':'] + a;
  }

  lemma SplitKey2(kind: string, a: string, b: string)
    requires ':' !in kind && ':' !in a && ':' !in b
    ensures Split(Key2(kind, a, b), ':') == [kind, a, b]
  {
    SplitFirst(kind, ':', a + [':'] + b);
    SplitFirst(a, ':', b);
    SplitOne(b, ':');
    assert Key2(kind, a, b) == kind + [':'] + (a + [':'] + b);
  }

  lemma {:induction false} PlayerAtFound(slots: seq<Placed>, slot: string, player: Id)
    requires Placed(slot, Some(player)) in slots
    requires forall i, j | 0 <= i < j < |slots| :: slots[i].slot != slots[j].slot
    ensures PlayerAt(slots, slot) == Some(player)
  {
    if slots[0] != Placed(slot, Some(player)) {
      PlayerAtFound(slots[1..], slot, player);
      var k :| 0 <= k < |slots| && slots[k] == Placed(slot, Some(player));
      assert slots[0].slot != slots[k].slot;
    }
  }

  /** A seat's slot leads back to it. */
  lemma SlotLeadsBack(view: PlayerView, player: Id)
    requires SlotForPlayer(view, player).Some?
    ensures PlayerAt(SlotsFor(view), SlotForPlayer(view, player).value) == Some(player)
    ensures ':' !in SlotForPlayer(view, player).value
  {
    var slot := SlotForPlayer(view, player).value;
    PlayerAtFound(SlotsFor(view), slot, player);
    assert slot in {"p1", "p2", "p3", "p4"};
  }

  ghost predicate OnePartyEach(parties: seq<PartyView>) {
    forall i, j | 0 <= i < j < |parties| :: parties[i].player != parties[j].player
  }

  lemma OwnKinds(view: PlayerView, a: Option<string>, b: Option<string>)
    ensures var party := PartyAt(view, a);
      && IdFor(view, "hero", a, b) == (if party.Some? then At(HeroCards(party.value.heroes), Number(b)) else None)
      && IdFor(view, "leader", a, b) == (if party.Some? then Some(party.value.leader) else None)
      && IdFor(view, "slainMonster", a, b) == (if party.Some? then At(party.value.monsters, Number(b)) else None)
  {
    hide PartyAt, Number, DiscardCards, SlotsFor;
  }

  lemma ItemKind(view: PlayerView, a: Option<string>, b: Option<string>)
    requires PartyAt(view, a).Some? ==> Number(b).Some? && Number(b).value < |PartyAt(view, a).value.heroes|
    ensures IdFor(view, "item", a, b)
      == if PartyAt(view, a).Some? then PartyAt(view, a).value.heroes[Number(b).value].item else None
  {
    hide PartyAt, Number, DiscardCards, SlotsFor;
  }

  lemma TableKinds(view: PlayerView, a: Option<string>)
    ensures IdFor(view, "handCard", a, None) == At(view.hand, Number(a))
    ensures IdFor(view, "discardCard", a, None) == At(DiscardCards(view), Number(a))
    ensures IdFor(view, "monster", a, None) == At(view.row, Number(a))
  {
    hide PartyAt, Number, DiscardCards, SlotsFor;
  }

  lemma SlotsParty(view: PlayerView, party: PartyView)
    requires OnePartyEach(view.parties) && party in view.parties && SlotForPlayer(view, party.player).Some?
    ensures ':' !in SlotForPlayer(view, party.player).value
    ensures PartyAt(view, Some(SlotForPlayer(view, party.player).value))
      == if party.player != "" then Some(party) else None
  {
    SlotLeadsBack(view, party.player);
    assert PartyOf(view.parties, party.player) == Some(party);
  }

  lemma IndexedParts(view: PlayerView, kind: string, slot: string, n: nat)
    requires ':' !in kind && ':' !in slot
    ensures IdForTargetKey(view, Key2(kind, slot, Decimal(n))) == IdFor(view, kind, Some(slot), Some(Decimal(n)))
    ensures Number(Some(Decimal(n))) == Some(n)
  {
    ValueOfDecimal(n);
    SplitKey2(kind, slot, Decimal(n));
    hide IdFor, Split, Key2, Decimal, Value;
  }

  /** A named seat's own keys parse back to the id they were made for; an unnamed seat's parse to nothing. */
  lemma KeyInParses(view: PlayerView, party: PartyView, id: Id)
    requires OnePartyEach(view.parties) && party in view.parties && KeyIn(view, party, id).Some?
    ensures IdForTargetKey(view, KeyIn(view, party, id).value) == if party.player != "" then Some(id) else None
  {
    SlotsParty(view, party);
    hide IdForTargetKey, IdFor, SlotForPlayer, PartyAt, Key2, Key1, FindIndex, FindItem, Number, Decimal;
    var slot := SlotForPlayer(view, party.player).value;
    var hero, item, monster := FindIndex(HeroCards(party.heroes), id), FindItem(party.heroes, id), FindIndex(party.monsters, id);
    if hero.Some? {
      IndexedParts(view, "hero", slot, hero.value);
      OwnKinds(view, Some(slot), Some(Decimal(hero.value)));
    } else if item.Some? {
      IndexedParts(view, "item", slot, item.value);
      ItemKind(view, Some(slot), Some(Decimal(item.value)));
    } else if party.leader == id {
      LeaderParts(view, slot);
    } else {
      IndexedParts(view, "slainMonster", slot, monster.value);
      OwnKinds(view, Some(slot), Some(Decimal(monster.value)));
    }
  }

  lemma LeaderParts(view: PlayerView, slot: string)
    requires ':' !in slot
    ensures var party := PartyAt(view, Some(slot));
      IdForTargetKey(view, Key1("leader", slot)) == if party.Some? then Some(party.value.leader) else None
  {
    SplitKey1("leader", slot);
    OwnKinds(view, Some(slot), None);
    hide IdFor, Split, Key1, PartyAt;
  }

  lemma IndexKeyParses(view: PlayerView, kind: string, ids: seq<Id>, id: Id)
    requires (kind == "handCard" && ids == view.hand) || (kind == "discardCard" && ids == DiscardCards(view))
      || (kind == "monster" && ids == view.row)
    requires id in ids
    ensures IdForTargetKey(view, Key1(kind, Decimal(FindIndex(ids, id).value))) == Some(id)
  {
    var at := FindIndex(ids, id).value;
    ValueOfDecimal(at);
    SplitKey1(kind, Decimal(at));
    TableKinds(view, Some(Decimal(at)));
    hide IdFor, PartyAt, Split, Key1, FindIndex, Value, Decimal, DiscardCards;
  }

  lemma SeatKeyParses(view: PlayerView, player: Id)
    requires SlotForPlayer(view, player).Some?
    ensures IdForTargetKey(view, Key1("handStack", SlotForPlayer(view, player).value)) == Some(player)
  {
    SlotLeadsBack(view, player);
    SplitKey1("handStack", SlotForPlayer(view, player).value);
    hide PartyAt, Split, Key1, SlotsFor;
  }

  /** The party whose own key an id gets, when it gets one. */
  function Keyed(view: PlayerView, parties: seq<PartyView>, id: Id): (p: Option<PartyView>)
    ensures p.None? <==> PartyKey(view, parties, id).None?
    ensures p.Some? ==> p.value in parties && KeyIn(view, p.value, id).Some?
    ensures p.Some? ==> PartyKey(view, parties, id) == KeyIn(view, p.value, id)
  {
    if parties == [] then None
    else if KeyIn(view, parties[0], id).Some? then Some(parties[0])
    else Keyed(view, parties[1..], id)
  }

  predicate KeyedByParty(view: PlayerView, id: Id) {
    id !in view.hand && id !in DiscardCards(view) && Keyed(view, view.parties, id).Some?
  }

  /**
   * Round trip, with one party per player: an id's key parses back to that id,
   * exactly unless the key is the own key of a party whose player has no name.
   */
  lemma KeysRoundTrip(view: PlayerView, id: Id)
    requires OnePartyEach(view.parties) && TargetKeyForId(view, id).Some?
    ensures IdForTargetKey(view, TargetKeyForId(view, id).value) == Some(id)
      <==> (KeyedByParty(view, id) ==> Keyed(view, view.parties, id).value.player != "")
  {
    hide IdForTargetKey, SlotForPlayer, DiscardCards, KeyIn, Key1, Decimal;
    if id in view.hand {
      IndexKeyParses(view, "handCard", view.hand, id);
    } else if id in DiscardCards(view) {
      IndexKeyParses(view, "discardCard", DiscardCards(view), id);
    } else if Keyed(view, view.parties, id).Some? {
      KeyInParses(view, Keyed(view, view.parties, id).value, id);
    } else if id in view.row {
      IndexKeyParses(view, "monster", view.row, id);
    } else {
      SeatKeyParses(view, id);
    }
  }

  /** So two ids never share a key, on a table whose players all have names. */
  lemma KeysAreDistinct(view: PlayerView, a: Id, b: Id)
    requires OnePartyEach(view.parties) && forall p | p in view.parties :: p.player != ""
    requires TargetKeyForId(view, a).Some? && TargetKeyForId(view, a) == TargetKeyForId(view, b)
    ensures a == b
  {
    KeysRoundTrip(view, a);
    KeysRoundTrip(view, b);
  }

  /** At a table of up to four, every seat has its place on the screen, and no two share one. */
  lemma EverySeatIsPlaced(view: PlayerView, a: SeatView, b: SeatView)
    requires |view.seats| <= 4 && a in view.seats && b in view.seats && a.player != b.player
    requires exists s | s in view.seats :: s.player == view.player
    ensures SlotForPlayer(view, a.player).Some? && SlotForPlayer(view, b.player).Some?
    ensures SlotForPlayer(view, a.player) != SlotForPlayer(view, b.player)
  {
    PlacedSomewhere(view, a);
    PlacedSomewhere(view, b);
    SlotLeadsBack(view, a.player);
    SlotLeadsBack(view, b.player);
    hide SlotsFor;
  }

  lemma {:induction false} FewerOthers(view: PlayerView, mine: SeatView, seats: seq<SeatView>)
    requires view.seats != [] && exists s | s in seats :: s.player == view.player
    ensures |Others(view, mine, seats)| < |seats|
  {
    var pre, last := seats[..|seats| - 1], seats[|seats| - 1];
    if last.player != view.player {
      var s :| s in seats && s.player == view.player;
      assert s in pre;
      FewerOthers(view, mine, pre);
    }
  }

  lemma SlotForEach(viewer: Id, others: seq<SeatView>, k: nat)
    requires k < |others| <= 3
    ensures exists p | p in Slots(viewer, others) :: p.player == Some(others[k].player)
  {
    var slots := Slots(viewer, others);
    assert slots[1].player == Some(others[k].player) || slots[2].player == Some(others[k].player)
      || slots[3].player == Some(others[k].player);
  }

  lemma PlacedSomewhere(view: PlayerView, a: SeatView)
    requires |view.seats| <= 4 && a in view.seats
    requires exists s | s in view.seats :: s.player == view.player
    ensures SlotForPlayer(view, a.player).Some?
  {
    hide Others, FindSlot, FourSlots, Slots;
    var mine := SeatOfViewer(view, view.seats).value;
    var others := Others(view, mine, view.seats);
    FewerOthers(view, mine, view.seats);
    if a.player != view.player {
      assert a in others;
      var k :| 0 <= k < |others| && others[k] == a;
      SlotForEach(view.player, others, k);
    } else {
      ViewerFirst(view.player, others);
    }
  }

  lemma ViewerFirst(viewer: Id, others: seq<SeatView>)
    ensures exists p | p in Slots(viewer, others) :: p.player == Some(viewer)
  {
    assert Slots(viewer, others)[0].player == Some(viewer);
  }

  // ---------------------------------------------------------------------------
  // Who sits where
  // ---------------------------------------------------------------------------

  /** One seat to a player, numbered without gaps. */
  ghost predicate WellSeated(view: PlayerView) {
    && (forall i, j | 0 <= i < j < |view.seats| ::
          view.seats[i].player != view.seats[j].player && view.seats[i].seat != view.seats[j].seat)
    && (forall s | s in view.seats :: 0 <= s.seat < |view.seats|)
  }

  /** The viewer sits below; the others go round from there, in the order of their turns. */
  lemma SeatsGoRound(view: PlayerView, mine: SeatView, s: SeatView)
    requires WellSeated(view) && |view.seats| <= 4
    requires mine in view.seats && mine.player == view.player && s in view.seats
    ensures var n, k := |view.seats|, (s.seat - mine.seat) % |view.seats|;
      SlotForPlayer(view, s.player) == Some(
        if k == 0 then "p1" else if n == 2 then "p2"
        else if k == 1 then "p3" else if k == n - 1 then "p4" else "p2")
  {
    hide Others, FindSlot, Slots, Rising;
    var n := |view.seats|;
    ViewerFound(view, mine);
    var others := Others(view, mine, view.seats);
    assert view.seats[..n] == view.seats;
    InRotation(view, mine, n);
    DistanceIsRest(view, mine, s);
    if s.player == view.player {
      assert s == mine;
      ViewerBelow(view.player, others);
    } else {
      var i :| 0 <= i < |others| && others[i] == s;
      CountedOff(view, mine, others, i);
      RisingApart(view, mine, others);
      OtherPlaced(view.player, others, i);
    }
  }

  lemma ViewerFound(view: PlayerView, mine: SeatView)
    requires WellSeated(view) && mine in view.seats && mine.player == view.player
    ensures SeatOfViewer(view, view.seats) == Some(mine)
  {
    var found := SeatOfViewer(view, view.seats);
    if found.Some? { FoundIsViewer(view, view.seats); }
  }

  lemma {:induction false} FoundIsViewer(view: PlayerView, seats: seq<SeatView>)
    ensures var found := SeatOfViewer(view, seats); found.Some? ==> found.value.player == view.player
  {
    if seats != [] { FoundIsViewer(view, seats[1..]); }
  }

  lemma RestIs(x: int, n: nat, q: int, rest: nat)
    requires 0 < n && rest < n && x == n * q + rest
    ensures x % n == rest
  {
    var d := x / n;
    assert x == n * d + x % n;
    if d < q { NoMore(n, d + 1, q); }
    if q < d { NoMore(n, q + 1, d); }
  }

  lemma NoMore(n: nat, a: int, b: int)
    requires a <= b
    ensures n * a <= n * b
  {
  }

  lemma RestOf(d: int, n: int)
    requires 0 < n && -n < d < n
    ensures Rem(d + n, n) == (if d >= 0 then d else d + n)
    ensures d % n == (if d >= 0 then d else d + n)
  {
    if d >= 0 {
      RestIs(d + n, n, 1, d);
    } else {
      RestIs(d, n, -1, d + n);
    }
  }

  lemma DistanceIsRest(view: PlayerView, mine: SeatView, s: SeatView)
    requires WellSeated(view) && mine in view.seats && s in view.seats
    ensures Distance(view, mine, s) == (s.seat - mine.seat) % |view.seats|
    ensures 0 <= Distance(view, mine, s) < |view.seats|
    ensures Distance(view, mine, s) == if s.seat >= mine.seat then s.seat - mine.seat else s.seat - mine.seat + |view.seats|
  {
    RestOf(s.seat - mine.seat, |view.seats|);
  }

  /** In the order of their distance from the viewer, no two alike. */
  ghost predicate Rising(view: PlayerView, mine: SeatView, seats: seq<SeatView>)
    requires view.seats != []
  {
    forall i, j | 0 <= i < j < |seats| :: Distance(view, mine, seats[i]) < Distance(view, mine, seats[j])
  }

  lemma {:induction false} InsertRises(view: PlayerView, mine: SeatView, sorted: seq<SeatView>, s: SeatView)
    requires view.seats != [] && Rising(view, mine, sorted)
    requires forall x | x in sorted :: Distance(view, mine, x) != Distance(view, mine, s)
    ensures Rising(view, mine, InsertSeat(view, mine, sorted, s))
  {
    hide Distance;
    if sorted != [] && Distance(view, mine, s) >= Distance(view, mine, sorted[0]) {
      InsertRises(view, mine, sorted[1..], s);
      var rest := InsertSeat(view, mine, sorted[1..], s);
      assert InsertSeat(view, mine, sorted, s) == [sorted[0]] + rest;
      forall x | x in rest ensures Distance(view, mine, sorted[0]) < Distance(view, mine, x) {
        if x != s {
          var k :| 0 <= k < |sorted[1..]| && sorted[1..][k] == x;
          assert sorted[k + 1] == x;
        }
      }
    }
  }

  lemma {:induction false} InRotation(view: PlayerView, mine: SeatView, m: nat)
    requires WellSeated(view) && m <= |view.seats| && mine in view.seats && mine.player == view.player
    ensures var others := Others(view, mine, view.seats[..m]);
      Rising(view, mine, others) && |others| == m - if mine in view.seats[..m] then 1 else 0
  {
    hide Distance;
    if m > 0 {
      InRotation(view, mine, m - 1);
      var pre, last := view.seats[..m - 1], view.seats[m - 1];
      assert view.seats[..m][..m - 1] == pre;
      if last.player == view.player {
        assert last == mine;
      } else {
        var rest := Others(view, mine, pre);
        forall x | x in rest ensures Distance(view, mine, x) != Distance(view, mine, last) {
          DistanceIsRest(view, mine, x);
          DistanceIsRest(view, mine, last);
        }
        InsertRises(view, mine, rest, last);
      }
    }
  }

  lemma AtLeastItsPlace(view: PlayerView, mine: SeatView, others: seq<SeatView>, i: nat)
    requires view.seats != [] && Rising(view, mine, others) && i < |others|
    requires 1 <= Distance(view, mine, others[0])
    ensures i + 1 <= Distance(view, mine, others[i])
  {
    if i > 0 { AtLeastItsPlace(view, mine, others, i - 1); }
  }

  lemma AtMostItsPlace(view: PlayerView, mine: SeatView, others: seq<SeatView>, i: nat)
    requires view.seats != [] && Rising(view, mine, others) && i < |others|
    requires Distance(view, mine, others[|others| - 1]) <= |others|
    ensures Distance(view, mine, others[i]) <= i + 1
    decreases |others| - i
  {
    if i < |others| - 1 { AtMostItsPlace(view, mine, others, i + 1); }
  }

  lemma CountedOff(view: PlayerView, mine: SeatView, others: seq<SeatView>, i: nat)
    requires WellSeated(view) && mine in view.seats
    requires Rising(view, mine, others) && |others| == |view.seats| - 1 && i < |others|
    requires forall x | x in others :: x in view.seats && x.player != mine.player
    ensures Distance(view, mine, others[i]) == i + 1
  {
    hide Distance;
    DistanceIsRest(view, mine, others[0]);
    DistanceIsRest(view, mine, others[|others| - 1]);
    AtLeastItsPlace(view, mine, others, i);
    AtMostItsPlace(view, mine, others, i);
  }

  lemma RisingApart(view: PlayerView, mine: SeatView, others: seq<SeatView>)
    requires WellSeated(view) && view.seats != [] && Rising(view, mine, others)
    requires forall x | x in others :: x in view.seats
    ensures forall i, j | 0 <= i < j < |others| :: others[i].player != others[j].player
  {
  }

  lemma ViewerBelow(viewer: Id, others: seq<SeatView>)
    ensures FindSlot(Slots(viewer, others), viewer) == Some("p1")
  {
  }

  lemma OtherPlaced(viewer: Id, others: seq<SeatView>, i: nat)
    requires i < |others| <= 3 && others[i].player != viewer
    requires forall i, j | 0 <= i < j < |others| :: others[i].player != others[j].player
    ensures FindSlot(Slots(viewer, others), others[i].player) == Some(
      if |others| == 1 then "p2" else if i == 0 then "p3" else if i == |others| - 1 then "p4" else "p2")
  {
    var slots, p := Slots(viewer, others), others[i].player;
    assert FindSlot(slots, p) == FindSlot(slots[1..], p);
    assert slots[1..][1..] == slots[2..] && slots[2..][1..] == slots[3..] && slots[3..][1..] == [];
  }
}
