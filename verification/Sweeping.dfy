/**
 * When an event ends effects: the sweep decides seat by seat, each seat on the
 * board the earlier seats' removals left. It comes to the same as deciding for
 * every seat before anything is removed whenever the expiry tests do not read
 * the effects in play, and need not otherwise.
 */
module Sweeping {
  import opened Board
  import opened Abilities
  import Rotation

  /** The same board but for the effects on it. */
  ghost predicate SameButEffects(c: Cards, c': Cards) {
    && c' == c.(seats := c'.seats) && c'.seats.Keys == c.seats.Keys
    && forall p | p in c.seats :: c'.seats[p] == c.seats[p].(effects := c'.seats[p].effects)
  }

  /** No expiry test reads which effects are in play. */
  ghost predicate BlindToEffects(r: Rules) {
    forall v: View, c: Cards, effect: Effect, test: nat, e: Event | SameButEffects(v.table.cards, c) ::
      r.expires(WithCards(v, c), effect, test, e) == r.expires(v, effect, test, e)
  }

  /** Every seat's ending effects, in seat order, all decided on the board as it is. */
  function EndingBefore(r: Rules, v: View, players: seq<Id>, e: Event): seq<Effect> {
    if players == [] then []
    else
      var last := players[|players| - 1];
      EndingBefore(r, v, players[..|players| - 1], e) + Doomed(r, v, SeatOf(v.table.cards, last).effects, e)
  }

  lemma {:induction false} DoomedAlike(r: Rules, v: View, c: Cards, effects: seq<Effect>, e: Event)
    requires BlindToEffects(r) && SameButEffects(v.table.cards, c)
    ensures Doomed(r, WithCards(v, c), effects, e) == Doomed(r, v, effects, e)
  {
    if effects != [] {
      DoomedAlike(r, v, c, effects[1..], e);
      ExpiredAlike(r, v, c, effects[0], e);
      hide IsExpired, BlindToEffects;
    }
  }

  lemma ExpiredAlike(r: Rules, v: View, c: Cards, effect: Effect, e: Event)
    requires BlindToEffects(r) && SameButEffects(v.table.cards, c)
    ensures IsExpired(r, WithCards(v, c), effect, e) == IsExpired(r, v, effect, e)
  {
    hide SameButEffects;
  }

  lemma {:induction false} NoneDoomed(effects: seq<Effect>)
    ensures Without(effects, []) == effects
  {
    if effects != [] { NoneDoomed(effects[1..]); }
  }

  /** What the sweep has done to one player's seat. */
  ghost predicate SweptSeat(r: Rules, v: View, swept: Cards, p: Id, e: Event) {
    var s := SeatOf(v.table.cards, p);
    SeatOf(swept, p) == s.(effects := Without(s.effects, Doomed(r, v, s.effects, e)))
  }

  lemma NothingDoomedThere(r: Rules, v: View, p: Id, e: Event)
    requires p !in v.table.cards.seats
    ensures Doomed(r, v, SeatOf(v.table.cards, p).effects, e) == []
  {
  }

  /**
   * With tests that do not read the effects in play, the sweep is what it is
   * meant to be: everything the event ends is decided on the board before any of
   * it is removed, then exactly that is removed, and nobody else's effects go.
   */
  lemma {:induction false} DecidedBeforeRemoval(r: Rules, v: View, players: seq<Id>, e: Event)
    requires BlindToEffects(r) && Rotation.Distinct(players)
    ensures var swept := Sweep(r, v, players, e);
      && swept.expired == EndingBefore(r, v, players, e)
      && SameButEffects(v.table.cards, swept.cards)
      && (forall p | p in players :: SweptSeat(r, v, swept.cards, p, e))
      && (forall p | p !in players :: SeatOf(swept.cards, p) == SeatOf(v.table.cards, p))
  {
    hide BlindToEffects, SweptSeat;
    if players != [] {
      var pre, p := players[..|players| - 1], players[|players| - 1];
      assert p !in pre;
      DecidedBeforeRemoval(r, v, pre, e);
      SweptOneSeat(r, v, Sweep(r, v, pre, e), p, e);
      var before, after := Sweep(r, v, pre, e), Sweep(r, v, players, e);
      forall q | q in pre ensures SweptSeat(r, v, after.cards, q, e) {
        OtherSeat(r, v, before.cards, after.cards, q, e);
      }
      assert forall q | q in players :: q in pre || q == p;
    }
  }

  /** One of the effect's endings is by an event of this kind, and is untested or passes its test. */
  ghost predicate Ends(r: Rules, v: View, effect: Effect, e: Event) {
    && effect.expiry.Some?
    && exists i | 0 <= i < |effect.expiry.value| ::
         var ending := effect.expiry.value[i];
         ending.on == e.kind && (ending.test.Some? ==> r.expires(v, effect, ending.test.value, e))
  }

  lemma EndsIsExpired(r: Rules, v: View, effect: Effect, e: Event)
    ensures Ends(r, v, effect, e) <==> IsExpired(r, v, effect, e)
  {
    if IsExpired(r, v, effect, e) {
      var x :| x in effect.expiry.value && x.on == e.kind && (x.test.None? || r.expires(v, effect, x.test.value, e));
      var i :| 0 <= i < |effect.expiry.value| && effect.expiry.value[i] == x;
    }
  }

  /** What goes, effect by effect: whatever bears the id of one of the seat's own that the event ends. */
  lemma SweptExactly(r: Rules, v: View, players: seq<Id>, e: Event, p: Id, x: Effect)
    requires BlindToEffects(r) && Rotation.Distinct(players) && p in players
    ensures var before, after := SeatOf(v.table.cards, p), SeatOf(Sweep(r, v, players, e).cards, p);
      && after == before.(effects := after.effects)
      && (x in after.effects <==>
          x in before.effects && forall d | d in before.effects && Ends(r, v, d, e) :: d.id != x.id)
  {
    hide BlindToEffects, IsExpired, Ends;
    DecidedBeforeRemoval(r, v, players, e);
    var before := SeatOf(v.table.cards, p);
    forall d | d in before.effects ensures Ends(r, v, d, e) <==> IsExpired(r, v, d, e) { EndsIsExpired(r, v, d, e); }
    assert SweptSeat(r, v, Sweep(r, v, players, e).cards, p, e);
  }

  lemma OtherSeat(r: Rules, v: View, c: Cards, c': Cards, q: Id, e: Event)
    requires SweptSeat(r, v, c, q, e) && SeatOf(c', q) == SeatOf(c, q)
    ensures SweptSeat(r, v, c', q, e)
  {
  }

  /** One more seat: decided on the board so far, which is as good as the board before. */
  lemma SweptOneSeat(r: Rules, v: View, before: Swept, p: Id, e: Event)
    requires BlindToEffects(r) && SameButEffects(v.table.cards, before.cards)
    requires SeatOf(before.cards, p) == SeatOf(v.table.cards, p)
    ensures var s := SeatOf(v.table.cards, p);
      var doomed := Doomed(r, WithCards(v, before.cards), s.effects, e);
      var after := if doomed == [] then before.cards else WithSeat(before.cards, p, s.(effects := Without(s.effects, doomed)));
      && doomed == Doomed(r, v, s.effects, e)
      && SameButEffects(v.table.cards, after) && SweptSeat(r, v, after, p, e)
      && forall q | q != p :: SeatOf(after, q) == SeatOf(before.cards, q)
  {
    var s := SeatOf(v.table.cards, p);
    DoomedAlike(r, v, before.cards, s.effects, e);
    NoneDoomed(s.effects);
    var doomed := Doomed(r, v, s.effects, e);
    if p in v.table.cards.seats {
      EffectsOnly(v.table.cards, before.cards, p, Without(s.effects, doomed));
    } else {
      NothingDoomedThere(r, v, p, e);
    }
    hide BlindToEffects, Doomed, Without, SameButEffects;
  }

  lemma EffectsOnly(c: Cards, c': Cards, p: Id, effects: seq<Effect>)
    requires SameButEffects(c, c') && p in c.seats
    ensures SameButEffects(c, WithSeat(c', p, SeatOf(c, p).(effects := effects)))
  {
  }

  // ---------------------------------------------------------------------------
  // A test that reads another seat's effects
  // ---------------------------------------------------------------------------

  const ANN: Id := "ann"
  const BOB: Id := "bob"

  const HERS: Effect := Effect("hers", "card", ANN, ActionPointBonus, 1, false, Some([Expiry(TurnEnded, None)]))
  const HIS: Effect := Effect("his", "card", BOB, ActionPointBonus, 1, false, Some([Expiry(TurnEnded, Some(0))]))

  /** Bob's effect ends with the turn if Ann has any. */
  const JEALOUS: Rules := Rules(
    [ANN, BOB], map[], [], [], (v: View, _, _, _) => SeatOf(v.table.cards, ANN).effects != [], [], false, map[], None)

  const BOARD: Cards := Cards(
    map[ANN := EMPTY_SEAT.(effects := [HERS]), BOB := EMPTY_SEAT.(effects := [HIS])], [], [], [], [], [], [])

  /** Both effects end on the board as it is, and only Ann's is swept: when Bob's is decided, hers has gone. */
  lemma LaterSeatDecidesLater(v: View, e: Event)
    requires v.table.cards == BOARD && e == Plain(TurnEnded, ANN, None)
    ensures EndingBefore(JEALOUS, v, JEALOUS.players, e) == [HERS, HIS]
    ensures Sweep(JEALOUS, v, JEALOUS.players, e).expired == [HERS]
    ensures SeatOf(Sweep(JEALOUS, v, JEALOUS.players, e).cards, BOB).effects == [HIS]
  {
    assert [ANN, BOB][..1] == [ANN] && [ANN][..0] == [];
    var here, hers, his := Expiry(TurnEnded, None), HERS.expiry.value, HIS.expiry.value;
    assert hers[0].on == e.kind && hers[0].test.None?;
    assert his[0].on == e.kind && his[0].test == Some(0);
    assert IsExpired(JEALOUS, v, HERS, e) && IsExpired(JEALOUS, v, HIS, e);
    assert Doomed(JEALOUS, v, [HERS], e) == [HERS] && Doomed(JEALOUS, v, [HIS], e) == [HIS];
    assert EndingBefore(JEALOUS, v, [ANN], e) == [HERS];
    AnnIsSwept(v, e);
  }

  lemma AnnIsSwept(v: View, e: Event)
    requires v.table.cards == BOARD && e == Plain(TurnEnded, ANN, None)
    ensures var c := WithSeat(BOARD, ANN, EMPTY_SEAT);
      && Sweep(JEALOUS, v, [ANN], e) == Swept(c, [HERS])
      && Sweep(JEALOUS, v, [ANN, BOB], e) == Swept(c, [HERS])
  {
    assert [ANN, BOB][..1] == [ANN] && [ANN][..0] == [];
    assert Sweep(JEALOUS, v, [], e) == Swept(BOARD, []);
    assert HERS.expiry.value[0].on == e.kind;
    assert WithCards(v, BOARD) == v;
    assert Doomed(JEALOUS, v, [HERS], e) == [HERS];
    assert HasId([HERS], "hers");
    assert Without([HERS], [HERS]) == [];
    var c := WithSeat(BOARD, ANN, EMPTY_SEAT);
    assert Sweep(JEALOUS, v, [ANN], e) == Swept(c, [HERS]);
    assert !IsExpired(JEALOUS, WithCards(v, c), HIS, e);
    assert Doomed(JEALOUS, WithCards(v, c), [HIS], e) == [];
  }
}
