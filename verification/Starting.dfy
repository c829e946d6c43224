/**
 * Which rules an announcement starts, in terms of the board and of what was
 * announced: whose rules are live, which of those the event concerns, for whom
 * each runs, what it starts with, and who goes first.
 */
module Starting {
  import opened Board
  import opened Abilities
  import opened Machine
  import opened Engine
  import opened EngineLegal

  // ---------------------------------------------------------------------------
  // What an event concerns
  // ---------------------------------------------------------------------------

  /** The first party the hero stands in, in seat order, has it carry this card. */
  ghost predicate Carries(r: Rules, c: Cards, hero: Id, card: Id) {
    exists i | 0 <= i < |r.players| :: CarriesAt(r, c, hero, card, 0, i)
  }

  /** It carries it in the `i`-th party, and stands in none from `from` on before that. */
  ghost predicate CarriesAt(r: Rules, c: Cards, hero: Id, card: Id, from: nat, i: nat)
    requires i < |r.players|
  {
    var s := SeatOf(c, r.players[i]);
    && hero in s.heroes && hero in s.items && s.items[hero] == card
    && forall j | from <= j < i :: hero !in SeatOf(c, r.players[j]).heroes
  }

  /** The card is somewhere at this seat: in hand, leading, in the party, carried, slain or played. */
  ghost predicate IsAt(s: Seat, card: Id) {
    card in s.hand + [s.leader] + s.heroes + s.monsters + s.instances
    || exists h | h in s.heroes && h in s.items :: s.items[h] == card
  }

  /** It is at this player's seat, and at no seat before. */
  ghost predicate SitsWith(r: Rules, c: Cards, card: Id, player: Id) {
    exists i | 0 <= i < |r.players| :: SitsAt(r, c, card, player, 0, i)
  }

  ghost predicate SitsAt(r: Rules, c: Cards, card: Id, player: Id, from: nat, i: nat)
    requires i < |r.players|
  {
    && r.players[i] == player && IsAt(SeatOf(c, player), card)
    && forall j | from <= j < i :: !IsAt(SeatOf(c, r.players[j]), card)
  }

  /** The event is of the kind and under the label the rule listens for, and within its scope. */
  ghost predicate Concerns(r: Rules, v: View, s: Source, e: Event) {
    && e.kind == s.trigger.on
    && (s.trigger.tag.None? || e.tag == s.trigger.tag)
    && match s.trigger.scope
       case SelfCard => e.card == Some(s.card)
       case Attacker => e.card == Some(s.card)
       case CarrierCard => e.card.Some? && e.card.value != "" && Carries(r, v.table.cards, e.card.value, s.card)
       case OwnerEvent => s.owner == e.player
       case OwnerTurn => v.table.current == Some(s.owner)
       case Anyone => true
       case TargetsOwner =>
         && e.target.Some? && e.target.value != "" && s.owner != e.player
         && SitsWith(r, v.table.cards, e.target.value, s.owner)
  }

  lemma {:induction false} FirstCarrier(r: Rules, c: Cards, from: nat, hero: Id, card: Id)
    requires from <= |r.players|
    ensures EquippedItem(r.players[from..], c, hero) == Some(card) <==>
      exists i | from <= i < |r.players| :: CarriesAt(r, c, hero, card, from, i)
    decreases |r.players| - from
  {
    var rest := r.players[from..];
    if rest != [] {
      var next := from + 1;
      FirstCarrier(r, c, next, hero, card);
      assert rest[0] == r.players[from] && rest[1..] == r.players[from + 1..];
      if hero in SeatOf(c, rest[0]).heroes {
        assert EquippedItem(rest, c, hero) == Some(card) <==> CarriesAt(r, c, hero, card, from, from);
        forall i | from < i < |r.players| ensures !CarriesAt(r, c, hero, card, from, i) {
          assert hero in SeatOf(c, r.players[from]).heroes;
        }
      } else {
        if i :| from <= i < |r.players| && CarriesAt(r, c, hero, card, from, i) {
          assert CarriesAt(r, c, hero, card, next, i);
        }
        if i :| next <= i < |r.players| && CarriesAt(r, c, hero, card, next, i) {
          assert CarriesAt(r, c, hero, card, from, i);
        }
      }
    }
  }

  lemma CarriesIsEquipped(r: Rules, c: Cards, hero: Id, card: Id)
    ensures Carries(r, c, hero, card) <==> EquippedItem(r.players, c, hero) == Some(card)
  {
    FirstCarrier(r, c, 0, hero, card);
    assert r.players[0..] == r.players;
  }

  lemma IsAtIsHolds(s: Seat, card: Id)
    ensures IsAt(s, card) <==> Holds(s, card)
  {
  }

  lemma {:induction false} FirstHolder(r: Rules, c: Cards, from: nat, card: Id, player: Id)
    requires from <= |r.players|
    ensures CardOwner(r.players[from..], c, card) == Some(player) <==>
      exists i | from <= i < |r.players| :: SitsAt(r, c, card, player, from, i)
    decreases |r.players| - from
  {
    hide IsAt, Holds;
    var rest := r.players[from..];
    if rest != [] {
      var next := from + 1;
      FirstHolder(r, c, next, card, player);
      IsAtIsHolds(SeatOf(c, rest[0]), card);
      assert rest[0] == r.players[from] && rest[1..] == r.players[from + 1..];
      if Holds(SeatOf(c, rest[0]), card) {
        assert rest[0] == player <==> SitsAt(r, c, card, player, from, from);
        forall i | from < i < |r.players| ensures !SitsAt(r, c, card, player, from, i) {
          assert IsAt(SeatOf(c, r.players[from]), card);
        }
      } else {
        if i :| from <= i < |r.players| && SitsAt(r, c, card, player, from, i) {
          assert SitsAt(r, c, card, player, next, i);
        }
        if i :| next <= i < |r.players| && SitsAt(r, c, card, player, next, i) {
          assert SitsAt(r, c, card, player, from, i);
        }
      }
    }
  }

  lemma ConcernsIsMatching(r: Rules, v: View, s: Source, e: Event)
    ensures Concerns(r, v, s, e) <==> TriggerMatches(r, v, s, e)
  {
    hide Carries, Holds, IsAt, EquippedItem, CardOwner, CarriesAt, SitsAt;
    match s.trigger.scope
    case CarrierCard => if Names(e.card) { CarriesIsEquipped(r, v.table.cards, e.card.value, s.card); }
    case TargetsOwner =>
      if Names(e.target) {
        FirstHolder(r, v.table.cards, 0, e.target.value, s.owner);
        assert r.players[0..] == r.players;
      }
    case _ =>
  }

  // ---------------------------------------------------------------------------
  // What it starts
  // ---------------------------------------------------------------------------

  /** The card the event names goes before every onlooker. */
  predicate IsOwn(s: Source, e: Event) {
    e.card == Some(s.card) && s.card != ""
  }

  /** For the attacker the event's player acts; every other rule runs for its card's owner. */
  predicate RunsFor(owner: Id, s: Source, e: Event) {
    match s.trigger.scope
    case Attacker => owner == e.player
    case _ => owner == s.owner
  }

  /** The card itself, then all that the event hands on, then whoever picked the target; and nothing else. */
  ghost predicate Briefed(ctx: Ctx, s: Source, e: Event) {
    var chosen := s.trigger.scope.TargetsOwner?;
    && (forall key :: key in ctx <==> key == "sourceCard" || key in e.seed || (chosen && key == "chosenPlayer"))
    && (chosen ==> ctx["chosenPlayer"] == Ids([e.player]))
    && (forall key | key in e.seed && !(chosen && key == "chosenPlayer") :: ctx[key] == e.seed[key])
    && ("sourceCard" !in e.seed ==> ctx["sourceCard"] == Ids([s.card]))
  }

  /** The pipeline is the rule's: its card, its steps, for whom it runs and what it starts with. */
  ghost predicate StartsFrom(start: Start, s: Source, e: Event) {
    start.card == s.card && start.steps == s.steps && start.system == s.system && RunsFor(start.owner, s, e) && Briefed(start.ctx, s, e)
  }

  lemma StartIsBriefed(s: Source, e: Event)
    ensures StartsFrom(StartOf(s, e), s, e)
  {
  }

  /**
   * The order the rules of `sources` go in: each the event concerns exactly once,
   * the named card's own before every onlooker's, and in each group those listed
   * first before those listed later.
   */
  ghost predicate GoesIn(r: Rules, v: View, sources: seq<Source>, e: Event, order: seq<nat>) {
    && (forall i: nat :: i in order <==> i < |sources| && Concerns(r, v, sources[i], e))
    && (forall k, l | 0 <= k < l < |order| && order[k] < |sources| && order[l] < |sources| ::
          || (IsOwn(sources[order[k]], e) && !IsOwn(sources[order[l]], e))
          || (IsOwn(sources[order[k]], e) == IsOwn(sources[order[l]], e) && order[k] < order[l]))
  }

  /** These are the positions of the group's rules, and this is what each starts. */
  ghost predicate IsGroup(r: Rules, v: View, sources: seq<Source>, e: Event, named: bool, at: seq<nat>, starts: seq<Start>) {
    && |at| == |starts|
    && (forall k | 0 <= k < |at| :: at[k] < |sources| && starts[k] == StartOf(sources[at[k]], e))
    && (forall i: nat :: i in at <==> i < |sources| && Concerns(r, v, sources[i], e) && IsOwn(sources[i], e) == named)
    && (forall k, l | 0 <= k < l < |at| :: at[k] < at[l])
  }

  lemma GroupGrows(r: Rules, v: View, sources: seq<Source>, e: Event, named: bool, at: seq<nat>, starts: seq<Start>)
    requires sources != [] && IsGroup(r, v, sources[..|sources| - 1], e, named, at, starts)
    ensures var n := |sources| - 1;
      if Concerns(r, v, sources[n], e) && IsOwn(sources[n], e) == named
      then IsGroup(r, v, sources, e, named, at + [n], starts + [StartOf(sources[n], e)])
      else IsGroup(r, v, sources, e, named, at, starts)
  {
    hide Concerns, StartOf, IsOwn;
    var n := |sources| - 1;
    forall k | 0 <= k < |at| ensures at[k] < n && starts[k] == StartOf(sources[at[k]], e) {}
    forall i: nat | i < n ensures i in at <==> Concerns(r, v, sources[i], e) && IsOwn(sources[i], e) == named {
      assert sources[..n][i] == sources[i];
    }
    assert forall i: nat :: i in at + [n] <==> i in at || i == n;
  }

  lemma {:induction false} GroupOf(r: Rules, v: View, sources: seq<Source>, e: Event, named: bool) returns (at: seq<nat>)
    ensures IsGroup(r, v, sources, e, named, at, StartsOf(r, v, sources, e, named))
  {
    if sources == [] {
      at := [];
    } else {
      hide Concerns, TriggerMatches, StartOf, IsGroup;
      var n := |sources| - 1;
      var rest := GroupOf(r, v, sources[..n], e, named);
      ConcernsIsMatching(r, v, sources[n], e);
      assert IsOwn(sources[n], e) <==> IsNamed(sources[n], e);
      GroupGrows(r, v, sources, e, named, rest, StartsOf(r, v, sources[..n], e, named));
      at := if Concerns(r, v, sources[n], e) && IsOwn(sources[n], e) == named then rest + [n] else rest;
    }
  }

  /** What an event starts, rule by rule, first to go first. */
  lemma StartsInOrder(r: Rules, v: View, e: Event) returns (order: seq<nat>)
    ensures var sources := Sources(r, v.table.cards);
      && |Started(r, v, e)| == |order| && GoesIn(r, v, sources, e, order)
      && forall k | 0 <= k < |order| :: order[k] < |sources| && StartsFrom(Started(r, v, e)[k], sources[order[k]], e)
  {
    hide Sources, Concerns, StartOf, StartsOf, StartsFrom, IsOwn;
    var sources := Sources(r, v.table.cards);
    var own := GroupOf(r, v, sources, e, true);
    var rest := GroupOf(r, v, sources, e, false);
    order := own + rest;
    forall k | 0 <= k < |order| ensures order[k] < |sources| && StartsFrom(Started(r, v, e)[k], sources[order[k]], e) {
      StartIsBriefed(sources[order[k]], e);
    }
    InOrder(r, v, sources, e, own, rest);
  }

  lemma InOrder(r: Rules, v: View, sources: seq<Source>, e: Event, own: seq<nat>, rest: seq<nat>)
    requires forall i: nat :: i in own <==> i < |sources| && Concerns(r, v, sources[i], e) && IsOwn(sources[i], e)
    requires forall i: nat :: i in rest <==> i < |sources| && Concerns(r, v, sources[i], e) && !IsOwn(sources[i], e)
    requires forall k, l | 0 <= k < l < |own| :: own[k] < own[l]
    requires forall k, l | 0 <= k < l < |rest| :: rest[k] < rest[l]
    ensures GoesIn(r, v, sources, e, own + rest)
  {
    hide Concerns, IsOwn;
    var order := own + rest;
    forall k, l | 0 <= k < l < |order| && order[k] < |sources| && order[l] < |sources|
      ensures (IsOwn(sources[order[k]], e) && !IsOwn(sources[order[l]], e))
        || (IsOwn(sources[order[k]], e) == IsOwn(sources[order[l]], e) && order[k] < order[l])
    {
      if k < |own| { assert order[k] in own; } else { assert order[k] in rest; }
      if l < |own| { assert order[l] in own; } else { assert order[l] in rest; }
    }
  }

  // ---------------------------------------------------------------------------
  // On the stack
  // ---------------------------------------------------------------------------

  function PipeOf(s: Start, id: nat): Pipe {
    Pipe(id, s.card, s.owner, s.system, s.steps, s.ctx, None)
  }

  /** Pushing backwards leaves the first one listed on top, above everything already there. */
  lemma {:induction false} FirstListedOnTop(r: Rules, w: World, starts: seq<Start>)
    ensures var stack, stack' := w.core.stack, PushAll(r, w, starts).core.stack;
      && |stack'| == |stack| + |starts|
      && stack'[..|stack|] == stack
      && forall k | 0 <= k < |starts| ::
           stack'[|stack'| - 1 - k] == PipeOf(starts[k], w.core.nextPipe + |starts| - 1 - k)
    decreases |starts|
  {
    if starts == [] {
      assert w.core.stack[..|w.core.stack|] == w.core.stack;
    } else {
      var n := |starts| - 1;
      var w1 := Do(r, w, Push(starts[n]));
      FirstListedOnTop(r, w1, starts[..n]);
      var stack, stack' := w.core.stack, PushAll(r, w, starts).core.stack;
      var pipe := PipeOf(starts[n], w.core.nextPipe);
      assert w1.core.stack == stack + [pipe] && w1.core.nextPipe == w.core.nextPipe + 1;
      assert stack'[..|stack| + 1] == stack + [pipe];
      assert stack'[..|stack|] == stack'[..|stack| + 1][..|stack|] == stack;
      assert stack'[|stack|] == stack'[..|stack| + 1][|stack|] == pipe;
      forall k | 0 <= k < |starts|
        ensures stack'[|stack'| - 1 - k] == PipeOf(starts[k], w.core.nextPipe + |starts| - 1 - k)
      {
        if k < n { assert starts[..n][k] == starts[k]; }
      }
    }
  }

  /**
   * On the stack: what was there stays as it is, and above it lies one pipeline,
   * not yet begun, for each rule the event concerns and for no other; the k-th
   * from the top, so the k-th to go, is the k-th rule in that order, under a fresh
   * number of its own.
   */
  lemma PoppedInPlace(r: Rules, w: World, e: Event) returns (order: seq<nat>)
    ensures var sources := Sources(r, w.core.view.table.cards);
      var stack, stack', n := w.core.stack, StartMatching(r, w, e).core.stack, |order|;
      && GoesIn(r, w.core.view, sources, e, order)
      && |stack'| == |stack| + n && stack'[..|stack|] == stack
      && forall k | 0 <= k < n ::
           var p := stack'[|stack'| - 1 - k];
           && order[k] < |sources| && p.id == w.core.nextPipe + n - 1 - k && p.pausedOn.None?
           && StartsFrom(Start(p.card, p.owner, p.steps, p.ctx, p.system), sources[order[k]], e)
  {
    hide Sources, GoesIn, StartsFrom, Started;
    order := StartsInOrder(r, w.core.view, e);
    var starts, stack' := Started(r, w.core.view, e), StartMatching(r, w, e).core.stack;
    var sources := Sources(r, w.core.view.table.cards);
    FirstListedOnTop(r, w, starts);
    assert |starts| == |order| && GoesIn(r, w.core.view, sources, e, order);
    assert |stack'| == |w.core.stack| + |order| && stack'[..|w.core.stack|] == w.core.stack;
    forall k | 0 <= k < |order|
      ensures var p := stack'[|stack'| - 1 - k];
        && order[k] < |sources| && p.id == w.core.nextPipe + |order| - 1 - k && p.pausedOn.None?
        && StartsFrom(Start(p.card, p.owner, p.steps, p.ctx, p.system), sources[order[k]], e)
    {
      var p := stack'[|stack'| - 1 - k];
      assert p == PipeOf(starts[k], w.core.nextPipe + |order| - 1 - k);
      assert Start(p.card, p.owner, p.steps, p.ctx, p.system) == starts[k];
    }
  }

  // ---------------------------------------------------------------------------
  // In an announcement
  // ---------------------------------------------------------------------------

  lemma {:induction false} PushesAre(r: Rules, w: World, starts: seq<Start>)
    ensures var log' := PushAll(r, w, starts).log;
      && |log'| == |w.log| + |starts| && log'[..|w.log|] == w.log
      && forall k | 0 <= k < |starts| :: log'[|log'| - 1 - k] == Push(starts[k])
    decreases |starts|
  {
    if starts == [] {
      assert w.log[..|w.log|] == w.log;
    } else {
      var n := |starts| - 1;
      var w1 := Do(r, w, Push(starts[n]));
      PushesAre(r, w1, starts[..n]);
      var log' := PushAll(r, w, starts).log;
      assert log'[..|w.log|] == log'[..|w1.log|][..|w.log|];
      assert log'[|w.log|] == log'[..|w1.log|][|w.log|];
      forall k | 0 <= k < |starts| ensures log'[|log'| - 1 - k] == Push(starts[k]) {
        if k < n { assert starts[..n][k] == starts[k]; }
      }
    }
  }

  /** What comes before an announcement's own pipelines: it is heard, effects run out, and a settled frame's waiters wake. */
  function Matched(r: Rules, w: World, e: Event): World
    requires Reserved(e.kind) ==> w.core.mode.Resting?
  {
    var w1 := Expire(r, HearClock(r, Do(r, w, Hear(e)), e), e);
    if Halted(w1) then w1 else WakeFor(r, w1, e)
  }

  lemma AnnounceMatches(r: Rules, w: World, e: Event)
    requires !Halted(w) && !IsConcluded(w.core) && (Reserved(e.kind) ==> w.core.mode.Resting?)
    requires !Halted(Matched(r, w, e))
    ensures var m := Matched(r, w, e);
      var w3 := StartMatching(r, m, e);
      && (w3.core.mode.Resting? ==> Announce(r, w, e) == ConcludeIfDue(r, Drain(r, w3)))
      && (!w3.core.mode.Resting? ==> Announce(r, w, e) == ConcludeIfDue(r, w3))
  {
    hide Expire, StartMatching, Drain, ConcludeIfDue, WakeFor;
    var w1 := HearClock(r, Do(r, w, Hear(e)), e);
    assert Announce(r, w, e) == ConcludeIfDue(r, HearTask(r, w1, e));
  }

  /**
   * An announcement starts a pipeline for every live rule it concerns and for no
   * other, as the board stands once effects have run out; the log has them all
   * together, the last to go first, each with its rule's card and steps, for
   * whom it runs and what it starts with.
   */
  lemma AnnouncementStarts(r: Rules, w: World, e: Event) returns (order: seq<nat>)
    requires !Halted(w) && !IsConcluded(w.core) && (Reserved(e.kind) ==> w.core.mode.Resting?)
    requires !Halted(Matched(r, w, e))
    ensures var m, log := Matched(r, w, e), Announce(r, w, e).log;
      var sources := Sources(r, m.core.view.table.cards);
      && GoesIn(r, m.core.view, sources, e, order)
      && |m.log| + |order| <= |log| && log[..|m.log|] == m.log
      && (forall k | 0 <= k < |order| ::
            && order[k] < |sources| && log[|m.log| + |order| - 1 - k].Push?
            && StartsFrom(log[|m.log| + |order| - 1 - k].start, sources[order[k]], e))
      && (|m.log| + |order| < |log| ==> !log[|m.log| + |order|].Push?)
  {
    hide Sources, GoesIn, StartsFrom, Drain, ConcludeIfDue, Matched, Announce, StartMatching;
    var m := Matched(r, w, e);
    order := StartsInOrder(r, m.core.view, e);
    AnnounceMatches(r, w, e);
    MatchingPushes(r, m, e);
    var w3, log := StartMatching(r, m, e), Announce(r, w, e).log;
    ThenDrains(r, w3);
    var starts, sources := Started(r, m.core.view, e), Sources(r, m.core.view.table.cards);
    assert |m.log| + |order| == |w3.log| && w3.log <= log;
    assert log[..|m.log|] == w3.log[..|m.log|] == m.log;
    forall k | 0 <= k < |order|
      ensures order[k] < |sources| && log[|m.log| + |order| - 1 - k].Push?
        && StartsFrom(log[|m.log| + |order| - 1 - k].start, sources[order[k]], e)
    {
      assert log[|m.log| + |order| - 1 - k] == w3.log[|m.log| + |order| - 1 - k] == Push(starts[k]);
    }
    assert |w3.log| < |log| ==> !log[|w3.log|].Push?;
    assert GoesIn(r, m.core.view, sources, e, order);
  }

  lemma MatchingPushes(r: Rules, w: World, e: Event)
    ensures var starts, log' := Started(r, w.core.view, e), StartMatching(r, w, e).log;
      && |log'| == |w.log| + |starts| && log'[..|w.log|] == w.log
      && forall k | 0 <= k < |starts| :: log'[|w.log| + |starts| - 1 - k] == Push(starts[k])
  {
    hide Started;
    PushesAre(r, w, Started(r, w.core.view, e));
  }

  lemma ThenDrains(r: Rules, w: World)
    ensures !w.core.mode.Resting? ==>
      w.log <= ConcludeIfDue(r, w).log && (|w.log| < |ConcludeIfDue(r, w).log| ==> !ConcludeIfDue(r, w).log[|w.log|].Push?)
    ensures w.core.mode.Resting? ==> w.log + [StartLoop] <= ConcludeIfDue(r, Drain(r, w)).log
  {
    hide Winner, HasPendingOutcome, Loop;
    if w.core.mode.Resting? {
      var w1 := Do(r, w, StartLoop);
      SinceItself(r, w1);
      LoopLegal(r, Since(w1), w1);
      DoKeepsValid(r, Since(w1), Loop(r, w1), StopLoop);
      ConcludeLegal(r, Since(w1), Drain(r, w));
    }
  }
}
