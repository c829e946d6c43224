/** What the schedulers read off the board: the live rules, what an event fits, who has won. */
module Reading {
  import opened Board
  import opened Abilities
  import opened Machine

  /** Per player, not per condition: the first player whose party meets them. */
  method CheckWinConditions(rules: Rules, v: View) returns (winner: Option<Id>)
    ensures winner == Winner(rules, v)
  {
    if |rules.winConditions| == 0 { return None; }
    var i := 0;
    while i < |rules.players|
      invariant i <= |rules.players|
      invariant FirstMeeting(rules, v, rules.players)
        == FirstMeeting(rules, v, rules.players[i..])
    {
      if Meets(rules, v, rules.players[i]) { return Some(rules.players[i]); }
      i := i + 1;
    }
    return None;
  }

  /** Which rules are live, read off where the cards sit. */
  method AbilitySources(rules: Rules, c: Cards) returns (out: seq<Source>)
    ensures out == Sources(rules, c)
  {
    out := [];
    var players := rules.players;
    var i := 0;
    while i < |players|
      invariant i <= |players|
      invariant out == SeatsSources(rules, c, players[..i])
    {
      assert players[..i + 1][..i] == players[..i];
      var ofSeat := SourcesOfSeat(rules, c, players[i]);
      out := out + ofSeat;
      i := i + 1;
    }
    assert players[..i] == players;
    var ofRow := SourcesPrintedOn(rules, c.row, NO_OWNER);
    out := out + ofRow;
  }

  method SourcesPrintedOn(rules: Rules, cards: seq<Id>, owner: Id) returns (out: seq<Source>)
    ensures out == PrintedOn(rules, cards, owner)
  {
    out := [];
    var i := 0;
    while i < |cards|
      invariant i <= |cards| && out == PrintedOn(rules, cards[..i], owner)
    {
      assert cards[..i + 1][..i] == cards[..i];
      out := out + Printed(rules, cards[i], owner);
      i := i + 1;
    }
    assert cards[..i] == cards;
  }

  method SourcesOfSeat(rules: Rules, c: Cards, player: Id) returns (out: seq<Source>)
    ensures out == SeatSources(rules, c, player)
  {
    var seat := SeatOf(c, player);
    var monsters := SourcesPrintedOn(rules, seat.monsters, player);
    var heroes := SourcesOfHeroes(rules, c, seat.heroes, player);
    var instances := SourcesOfInstances(rules, seat.instances, player);
    out := Printed(rules, seat.leader, player) + monsters + heroes + instances;
  }

  /** A hero's own entries, then the rules every hero holds, then its item's. */
  method SourcesOfHeroes(rules: Rules, c: Cards, heroes: seq<Id>, player: Id) returns (out: seq<Source>)
    ensures out == HeroesSources(rules, c, heroes, player)
  {
    out := [];
    var i := 0;
    while i < |heroes|
      invariant i <= |heroes| && out == HeroesSources(rules, c, heroes[..i], player)
    {
      assert heroes[..i + 1][..i] == heroes[..i];
      out := out + HeroSources(rules, c, heroes[i], player);
      i := i + 1;
    }
    assert heroes[..i] == heroes;
  }

  method SourcesOfInstances(rules: Rules, instances: seq<Id>, player: Id) returns (out: seq<Source>)
    ensures out == InstanceSources(rules, instances, player)
  {
    out := [];
    var i := 0;
    while i < |instances|
      invariant i <= |instances| && out == InstanceSources(rules, instances[..i], player)
    {
      assert instances[..i + 1][..i] == instances[..i];
      out := out + Printed(rules, instances[i], player)
        + FromRules(rules.instanceRules, instances[i], player, true);
      i := i + 1;
    }
    assert instances[..i] == instances;
  }

  /** Sorts what matches into the named card's own and the rest. */
  method Match(rules: Rules, v: View, e: Event) returns (starts: seq<Start>)
    ensures starts == Started(rules, v, e)
  {
    hide TriggerMatches, IsNamed, Sources, StartOf;
    var own, matched := [], [];
    var sources := AbilitySources(rules, v.table.cards);
    var i := 0;
    while i < |sources|
      invariant i <= |sources|
      invariant own == StartsOf(rules, v, sources[..i], e, true)
      invariant matched == StartsOf(rules, v, sources[..i], e, false)
    {
      assert sources[..i + 1][..i] == sources[..i];
      var source := sources[i];
      if TriggerMatches(rules, v, source, e) {
        if IsNamed(source, e) { own := own + [StartOf(source, e)]; } else { matched := matched + [StartOf(source, e)]; }
      }
      i := i + 1;
    }
    assert sources[..i] == sources;
    starts := own + matched;
  }
}
