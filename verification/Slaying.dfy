/** A slain monster changes hands; no monster is made or lost. */
module Slaying {
  import opened Board
  import opened Machine
  import opened Requests

  lemma {:induction false} MinusOne(ids: seq<Id>, id: Id)
    requires multiset(ids)[id] == 1
    ensures multiset(Minus(ids, id)) == multiset(ids) - multiset{id} && |Minus(ids, id)| == |ids| - 1
  {
    assert ids == [ids[0]] + ids[1..];
    if ids[0] == id {
      NothingMinus(ids[1..], id);
    } else {
      MinusOne(ids[1..], id);
    }
  }

  lemma {:induction false} NothingMinus(ids: seq<Id>, id: Id)
    requires multiset(ids)[id] == 0
    ensures Minus(ids, id) == ids
  {
    if ids != [] {
      assert ids == [ids[0]] + ids[1..];
      NothingMinus(ids[1..], id);
    }
  }

  lemma {:induction false} MinusAt(ids: seq<Id>, at: nat)
    requires at < |ids| && multiset(ids)[ids[at]] == 1
    ensures Minus(ids, ids[at]) == ids[..at] + ids[at + 1..]
  {
    assert ids == [ids[0]] + ids[1..];
    if at == 0 {
      NothingMinus(ids[1..], ids[0]);
    } else {
      assert ids[1..][at - 1] == ids[at];
      MinusAt(ids[1..], at - 1);
    }
  }

  /** Out of the row, into the party; the deck's top goes to the row's end while the deck lasts, and nothing else moves. */
  lemma SlayingMovesOne(c: Cards, monster: Id, player: Id, at: nat)
    requires multiset(c.row)[monster] == 1 && at < |c.row| && c.row[at] == monster
    ensures var c', s := Slain(c, monster, player), SeatOf(c, player);
      && c'.row == c.row[..at] + c.row[at + 1..] + c.monsterDeck[..if c.monsterDeck == [] then 0 else 1]
      && c'.monsterDeck == c.monsterDeck[if c.monsterDeck == [] then 0 else 1..]
      && SeatOf(c', player) == s.(monsters := s.monsters + [monster])
      && |c'.row| == (if c.monsterDeck == [] then |c.row| - 1 else |c.row|)
      && (monster in c'.row ==> monster in c.monsterDeck)
      && (forall p | p != player :: SeatOf(c', p) == SeatOf(c, p))
      && c' == c.(seats := c'.seats, row := c'.row, monsterDeck := c'.monsterDeck)
  {
    hide Minus;
    MinusOne(c.row, monster);
    MinusAt(c.row, at);
  }

  /** The next one is turned up behind it: row, deck and party hold the same monsters together as before. */
  lemma SlayingConservesMonsters(c: Cards, monster: Id, player: Id)
    requires multiset(c.row)[monster] == 1
    ensures var c' := Slain(c, monster, player);
      multiset(c'.row) + multiset(c'.monsterDeck) + multiset(SeatOf(c', player).monsters)
        == multiset(c.row) + multiset(c.monsterDeck) + multiset(SeatOf(c, player).monsters)
  {
    hide Minus;
    MinusOne(c.row, monster);
    var c', s, rest := Slain(c, monster, player), SeatOf(c, player), Minus(c.row, monster);
    assert SeatOf(c', player).monsters == s.monsters + [monster];
    if c.monsterDeck == [] {
      MovesOne(rest, [], s.monsters, monster, []);
    } else {
      assert c.monsterDeck == [c.monsterDeck[0]] + c'.monsterDeck;
      MovesOne(rest, [c.monsterDeck[0]], s.monsters, monster, c'.monsterDeck);
    }
  }

  lemma MovesOne(rest: seq<Id>, drawn: seq<Id>, won: seq<Id>, monster: Id, deck: seq<Id>)
    ensures multiset(rest + drawn) + multiset(deck) + multiset(won + [monster])
      == (multiset(rest) + multiset{monster}) + multiset(drawn + deck) + multiset(won)
  {
  }
}
