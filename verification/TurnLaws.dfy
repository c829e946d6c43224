/**
 * What holds of the turns over every run: the clock loses exactly the time it
 * ran, and the queue is served in order and emptied before the turn ends.
 */
module TurnLaws {
  import opened Board
  import opened Machine
  import opened Pipelines
  import opened Rotation

  // ---------------------------------------------------------------------------
  // The clock
  // ---------------------------------------------------------------------------

  /** How long the clock has run this turn, and whether it has lapsed. */
  datatype Meter = Meter(ran: int, lapsed: bool)

  ghost function MeterOf(r: Rules, o: Core, log: seq<Move>): Meter {
    if log == [] then Meter(0, false)
    else
      var m := MeterOf(r, o, Before(log));
      match Last(log)
      case StartTurn(_) => Meter(0, false)
      case Fire(_) => m.(lapsed := true)
      case Advance(ms) => if Machine.Running(After(r, o, Before(log)).clock) then m.(ran := m.ran + ms) else m
      case _ => m
  }

  function Elapsed(k: Clock): int {
    if Machine.Running(k) then k.now - k.since else 0
  }

  function Deadline(k: Clock): int
    requires k.remaining.Some?
  {
    k.since + k.remaining.value
  }

  /** At most one live timer: the one the turn manager holds, for the current turn, due at the deadline. */
  ghost predicate OneTimer(c: Core) {
    var k := c.clock;
    match k.handle
    case None => k.timers == map[]
    case Some(h) =>
      && k.remaining.Some? && c.turn.phase.Acting? && h < k.nextTimer
      && k.timers == map[h := Timer(c.turn.number, Deadline(k))]
  }

  ghost predicate ClockAdds(r: Rules, c: Core, m: Meter) {
    !m.lapsed && c.clock.remaining.Some? ==>
      && r.turnTime.Some?
      && c.clock.remaining.value - Elapsed(c.clock) == r.turnTime.value - m.ran
  }

  lemma ClockOneMove(r: Rules, c: Core, m: Move)
    requires Enabled(r, c, m) && OneTimer(c)
    ensures OneTimer(Apply(r, c, m))
  {
    if m.Pause? || m.Conclude? || m.StartTurn? || m.EndTurn? || m.Fire? {
      assert Apply(r, c, m).clock.timers == map[];
    } else if m.Resume? {
      var k := c.clock;
      assert k.timers[k.nextTimer := Timer(c.turn.number, k.now + k.remaining.value)]
        == map[k.nextTimer := Timer(c.turn.number, k.now + k.remaining.value)];
    }
  }

  /** A turn being played in a game being played has a clock, if turns are timed at all. */
  ghost predicate HasClock(r: Rules, c: Core) {
    c.turn.phase.Acting? && !IsConcluded(c) ==> (c.clock.remaining.Some? <==> r.turnTime.Some?)
  }

  lemma HasClockOneMove(r: Rules, c: Core, m: Move)
    requires Enabled(r, c, m) && HasClock(r, c) && EndHolds(c) && PlayHolds(c)
    ensures HasClock(r, Apply(r, c, m))
  {
    EndOneMove(r, c, m);
    if m.Conclude? { hide Enabled; }
  }

  /**
   * Over every run, whatever windows open and settle: a timed turn has its clock
   * for as long as it is played; what it has left is the configured time less
   * the time the clock has run this turn; and no timer is live but its own.
   */
  lemma {:induction false} ClockConservesTime(r: Rules, o: Core, log: seq<Move>)
    requires IsInitial(o) && Legal(r, o, log)
    ensures OneTimer(After(r, o, log))
    ensures HasClock(r, After(r, o, log))
    ensures ClockAdds(r, After(r, o, log), MeterOf(r, o, log))
  {
    hide HasClock;
    if log == [] {
      NoClockYet(r, o);
    } else {
      ClockConservesTime(r, o, Before(log));
      TheGameEndsOnce(r, o, Before(log));
      HasClockOneMove(r, After(r, o, Before(log)), Last(log));
      ClockAddsOneMove(r, o, log);
    }
  }

  lemma NoClockYet(r: Rules, o: Core)
    requires IsInitial(o)
    ensures HasClock(r, o)
  {
  }

  lemma ClockAddsOneMove(r: Rules, o: Core, log: seq<Move>)
    requires log != [] && Legal(r, o, log) && OneTimer(After(r, o, Before(log)))
    requires ClockAdds(r, After(r, o, Before(log)), MeterOf(r, o, Before(log)))
    ensures OneTimer(After(r, o, log)) && ClockAdds(r, After(r, o, log), MeterOf(r, o, log))
  {
    ClockOneMove(r, After(r, o, Before(log)), Last(log));
  }

  /** Once a timer is no longer held it is never held again. */
  ghost predicate HeldOrSpent(c: Core, h: nat, deadline: int) {
    h < c.clock.nextTimer &&
    (c.clock.handle == Some(h) ==> c.clock.remaining.Some? && Deadline(c.clock) == deadline)
  }

  lemma HeldOneMove(r: Rules, c: Core, m: Move, h: nat, deadline: int)
    requires Enabled(r, c, m) && HeldOrSpent(c, h, deadline)
    ensures HeldOrSpent(Apply(r, c, m), h, deadline)
  {
  }

  /** The deadline a snapshot shows is constant while one timer runs. */
  lemma {:induction false} DeadlineIsFixed(r: Rules, c: Core, log: seq<Move>, h: nat, deadline: int)
    requires Legal(r, c, log) && HeldOrSpent(c, h, deadline)
    ensures HeldOrSpent(After(r, c, log), h, deadline)
  {
    if log != [] {
      DeadlineIsFixed(r, c, Before(log), h, deadline);
      HeldOneMove(r, After(r, c, Before(log)), Last(log), h, deadline);
    }
  }

  // ---------------------------------------------------------------------------
  // The queue
  // ---------------------------------------------------------------------------

  /** An action and the turn it was accepted or served in. */
  datatype Entry = Entry(action: Action, turn: nat)

  ghost function Accepted(r: Rules, o: Core, log: seq<Move>): seq<Entry> {
    if log == [] then []
    else if Last(log).Accept? then
      Accepted(r, o, Before(log)) + [Entry(Last(log).action, After(r, o, Before(log)).turn.number)]
    else Accepted(r, o, Before(log))
  }

  /** Every action taken off the queue, run or dropped. */
  ghost function Served(r: Rules, o: Core, log: seq<Move>): seq<Entry> {
    if log == [] then []
    else
      var c := After(r, o, Before(log));
      if Last(log).Take? && c.turn.queue != [] then
        Served(r, o, Before(log)) + [Entry(c.turn.queue[0], c.turn.number)]
      else Served(r, o, Before(log))
  }

  function Waiting(t: Turn): (entries: seq<Entry>)
    ensures |entries| == |t.queue|
    ensures forall i | 0 <= i < |entries| :: entries[i] == Entry(t.queue[i], t.number)
  {
    seq(|t.queue|, i requires 0 <= i < |t.queue| => Entry(t.queue[i], t.number))
  }

  ghost predicate QueueFits(c: Core) {
    !c.turn.phase.Acting? ==> c.turn.queue == []
  }

  lemma WaitingGrows(t: Turn, t': Turn, a: Action)
    requires t'.queue == t.queue + [a] && t'.number == t.number
    ensures Waiting(t') == Waiting(t) + [Entry(a, t.number)]
  {
  }

  lemma WaitingShrinks(t: Turn, t': Turn)
    requires t.queue != [] && t'.queue == t.queue[1..] && t'.number == t.number
    ensures Waiting(t) == [Entry(t.queue[0], t.number)] + Waiting(t')
  {
  }

  lemma QueueOneMove(r: Rules, c: Core, m: Move)
    requires Enabled(r, c, m) && QueueFits(c)
    ensures var t, t' := c.turn, Apply(r, c, m).turn;
      && QueueFits(Apply(r, c, m))
      && (m.Accept? ==> Waiting(t') == Waiting(t) + [Entry(m.action, t.number)])
      && (m.Take? ==> Waiting(t) == [Entry(t.queue[0], t.number)] + Waiting(t'))
      && (!m.Accept? && !m.Take? ==> Waiting(t') == Waiting(t))
  {
    var t, t' := c.turn, Apply(r, c, m).turn;
    if m.Accept? {
      WaitingGrows(t, t', m.action);
    } else if m.Take? {
      assert t.queue == [t.queue[0]] + t'.queue;
      WaitingShrinks(t, t');
    } else {
      assert t'.queue == t.queue;
    }
  }

  /**
   * Over every run, the accepted actions are the served ones followed by those
   * still waiting: each is served at most once, in acceptance order, in the very
   * turn it was accepted in; and nothing waits outside the action phase.
   */
  lemma {:induction false} QueueServesInOrder(r: Rules, o: Core, log: seq<Move>)
    requires IsInitial(o) && Legal(r, o, log)
    ensures Accepted(r, o, log) == Served(r, o, log) + Waiting(After(r, o, log).turn)
    ensures QueueFits(After(r, o, log))
  {
    if log != [] {
      QueueServesInOrder(r, o, Before(log));
      QueueOneMove(r, After(r, o, Before(log)), Last(log));
    }
  }

  // ---------------------------------------------------------------------------
  // A fresh turn
  // ---------------------------------------------------------------------------

  /** Every standing bonus adds its own value, a scoped one and any other passive none; and nothing else counts. */
  lemma {:induction false} BonusAddsUp(effects: seq<Effect>, i: nat)
    requires i < |effects|
    ensures BonusOf(effects) == BonusOf(effects[..i] + effects[i + 1..])
      + if effects[i].passive.ActionPointBonus? && !effects[i].scoped then effects[i].value else 0
    ensures BonusOf([]) == 0
  {
    var rest := effects[..i] + effects[i + 1..];
    if i == 0 {
      assert rest == effects[1..];
    } else {
      BonusAddsUp(effects[1..], i - 1);
      assert rest[0] == effects[0] && rest[1..] == effects[1..][..i - 1] + effects[1..][i..];
    }
  }

  /**
   * Over every run, a turn starts with the player's budget and standing bonus to
   * spend, nothing used and nothing challenged yet, its full time on the clock and
   * the board otherwise as it was.
   */
  lemma FreshTurn(r: Rules, o: Core, log: seq<Move>, p: Id)
    requires Legal(r, o, log) && log != [] && Last(log).StartTurn?
    ensures var c, c', player := After(r, o, Before(log)), After(r, o, log), Last(log).player;
      var cards, cards' := c.view.table.cards, c'.view.table.cards;
      && cards'.used == [] && cards'.challenged == []
      && PointsOf(cards', player) == SeatOf(cards, player).budget + BonusOf(SeatOf(cards, player).effects)
      && SeatOf(cards', player) == SeatOf(cards, player).(points := PointsOf(cards', player))
      && (p != player ==> SeatOf(cards', p) == SeatOf(cards, p))
      && cards' == cards.(seats := cards'.seats, used := [], challenged := [])
      && c'.view.table == c.view.table.(cards := cards', current := Some(player))
      && c'.turn == c.turn.(phase := Acting, number := c.turn.number + 1)
      && c'.clock.remaining == r.turnTime && c'.clock.handle.None?
  {
    hide IsDue, BonusOf;
  }

  /** And it ends with nothing used, no time left and no timer, the board otherwise as it was. */
  lemma TurnEndsClean(r: Rules, o: Core, log: seq<Move>)
    requires Legal(r, o, log) && log != [] && Last(log).EndTurn?
    ensures var c, c' := After(r, o, Before(log)), After(r, o, log);
      && c'.view == c.view.(table := c.view.table.(cards := c.view.table.cards.(used := [])))
      && c'.clock.remaining.None? && c'.clock.handle.None? && c'.turn.phase.Closing? && c'.stack == c.stack
      && c.turn.queue == [] && !IsBusy(c) && c.view.table.current.Some?
      && PointsOf(c.view.table.cards, c.view.table.current.value) <= 0
  {
    hide IsBusy;
  }
}
