/**
 * Every accepted action is served on an idle board, for points that are there.
 * It is served in its own player's turn exactly when no rollback left another
 * player's name on the board, neither when it was accepted nor as it is served.
 */
module Serving {
  import opened Board
  import opened Machine
  import opened Pipelines
  import opened Rollback
  import opened TurnLaws
  import opened Rotation

  /** Nothing on the board differs but this player's points. */
  ghost predicate OnlyPoints(v: View, v': View, player: Id) {
    && v'.frames == v.frames && v'.table == v.table.(cards := v'.table.cards)
    && v'.table.cards == v.table.cards.(seats := v'.table.cards.seats)
    && forall p :: SeatOf(v'.table.cards, p) == if p == player
         then SeatOf(v.table.cards, p).(points := SeatOf(v'.table.cards, p).points) else SeatOf(v.table.cards, p)
  }

  lemma TakeServes(r: Rules, c: Core, m: Move)
    requires Enabled(r, c, m) && m.Take? && QueueFits(c)
    ensures c.turn.queue != [] && !IsBusy(c) && c.turn.phase.Acting?
    ensures var c', a := Apply(r, c, m), c.turn.queue[0];
      && (m.run <==> a.guard(c.view) && (a.price.Cost? ==> a.price.points <= PointsOf(c.view.table.cards, a.player)))
      && (m.run && a.price.Cost? ==>
          0 <= PointsOf(c'.view.table.cards, a.player) == PointsOf(c.view.table.cards, a.player) - a.price.points)
      && (m.run && a.price.Forfeit? ==> PointsOf(c'.view.table.cards, a.player) == 0)
      && (m.run ==> OnlyPoints(c.view, c'.view, a.player))
      && (!m.run ==> c'.view == c.view)
      && c'.turn.queue == c.turn.queue[1..]
  {
    hide HasOpenFrames;
  }

  /**
   * Over every run, an action leaves the queue only on an idle board and in the
   * action phase; it runs exactly when its guard holds that instant; and what it
   * costs is there to be paid.
   */
  lemma ServedOnAnIdleBoard(r: Rules, o: Core, log: seq<Move>)
    requires IsInitial(o) && Legal(r, o, log) && log != [] && Last(log).Take?
    ensures var c, c' := After(r, o, Before(log)), After(r, o, log);
      && c.turn.queue != [] && !IsBusy(c) && c.turn.phase.Acting?
      && var a := c.turn.queue[0];
         && (Last(log).run <==> a.guard(c.view) && (a.price.Cost? ==> a.price.points <= PointsOf(c.view.table.cards, a.player)))
         && (Last(log).run && a.price.Cost? ==>
             0 <= PointsOf(c'.view.table.cards, a.player) == PointsOf(c.view.table.cards, a.player) - a.price.points)
         && (Last(log).run && a.price.Forfeit? ==> PointsOf(c'.view.table.cards, a.player) == 0)
         && (Last(log).run ==> OnlyPoints(c.view, c'.view, a.player))
         && (!Last(log).run ==> c'.view == c.view)
         && c'.turn.queue == c.turn.queue[1..]
  {
    hide IsBusy, Apply, Enabled, QueueFits, OnlyPoints;
    QueueServesInOrder(r, o, Before(log));
    TakeServes(r, After(r, o, Before(log)), Last(log));
  }

  // ---------------------------------------------------------------------------
  // Whose turn it is
  // ---------------------------------------------------------------------------

  /** For each request accepted, first to last: whether the turn was kept until then. */
  ghost function KeptWhenAccepted(r: Rules, o: Core, log: seq<Move>): seq<bool> {
    if log == [] then []
    else if Last(log).Accept? then KeptWhenAccepted(r, o, Before(log)) + [TurnKept(r, o, Before(log))]
    else KeptWhenAccepted(r, o, Before(log))
  }

  /** What waits is the last started turn's player's exactly where `kept`, read from `at` on, says so. */
  ghost predicate OwnIffKept(queue: seq<Action>, starts: seq<Id>, kept: seq<bool>, at: nat) {
    && at + |queue| == |kept|
    && forall i | 0 <= i < |queue| :: starts != [] && (queue[i].player == starts[|starts| - 1] <==> kept[at + i])
  }

  function StartsAfter(starts: seq<Id>, m: Move): seq<Id> {
    if m.StartTurn? then starts + [m.player] else starts
  }

  lemma OwnOneMove(r: Rules, c: Core, m: Move, starts: seq<Id>, kept: seq<bool>, at: nat, now: bool)
    requires Enabled(r, c, m) && QueueFits(c) && OwnIffKept(c.turn.queue, starts, kept, at)
    requires c.turn.phase.Acting? ==> starts != []
    requires m.Accept? && starts != [] ==> (c.view.table.current == Some(starts[|starts| - 1]) <==> now)
    ensures OwnIffKept(Apply(r, c, m).turn.queue, StartsAfter(starts, m),
      if m.Accept? then kept + [now] else kept, if m.Take? then at + 1 else at)
  {
    if !TouchesTurn(m) {
      TurnUntouched(r, c, m);
      hide Apply, Enabled;
    }
  }

  lemma {:induction false} QueueIsOwnIffKept(r: Rules, o: Core, log: seq<Move>)
    requires IsInitial(o) && Legal(r, o, log)
    ensures OwnIffKept(After(r, o, log).turn.queue, Starts(log), KeptWhenAccepted(r, o, log), |Served(r, o, log)|)
  {
    hide Enabled, Apply, TurnKept, OwnIffKept;
    if log == [] {
      NothingWaits(o);
    } else {
      var pre := Before(log);
      QueueIsOwnIffKept(r, o, pre);
      QueueServesInOrder(r, o, pre);
      OpeningHasNoStarts(r, o, pre);
      if Last(log).Accept? && Starts(pre) != [] { KeptIsCurrent(r, o, pre); }
      if Last(log).Take? { TakeServes(r, After(r, o, pre), Last(log)); }
      OwnOneMove(r, After(r, o, pre), Last(log), Starts(pre), KeptWhenAccepted(r, o, pre), |Served(r, o, pre)|,
        TurnKept(r, o, pre));
    }
  }

  lemma NothingWaits(o: Core)
    requires IsInitial(o)
    ensures OwnIffKept(o.turn.queue, [], [], 0)
  {
  }

  /** A request is accepted from the turn's own player exactly when the turn was kept until then. */
  lemma AcceptedInItsOwnTurnIffKept(r: Rules, o: Core, log: seq<Move>)
    requires IsInitial(o) && Legal(r, o, log) && log != [] && Last(log).Accept?
    ensures var starts := Starts(Before(log));
      starts != [] && (Last(log).action.player == starts[|starts| - 1] <==> TurnKept(r, o, Before(log)))
  {
    OpeningHasNoStarts(r, o, Before(log));
    AcceptsTheCurrent(r, After(r, o, Before(log)), Last(log).action);
    hide Enabled, Apply, TurnKept;
    KeptIsCurrent(r, o, Before(log));
  }

  lemma AcceptsTheCurrent(r: Rules, c: Core, a: Action)
    requires Enabled(r, c, Accept(a))
    ensures c.turn.phase.Acting? && c.view.table.current == Some(a.player)
  {
    hide CanExecute, IsBusy;
  }

  /**
   * The n-th action served is the n-th accepted, in the same turn. It is the
   * turn's own player's if and only if the turn was kept until it was accepted;
   * that player is current as it is served if and only if the turn was kept
   * until now; and so it is served in its own player's turn exactly when both hold.
   */
  lemma ServedInItsOwnTurnIffKept(r: Rules, o: Core, log: seq<Move>)
    requires IsInitial(o) && Legal(r, o, log) && log != [] && Last(log).Take?
    ensures var pre := Before(log);
      var c, starts, n := After(r, o, pre), Starts(pre), |Served(r, o, pre)|;
      && c.turn.queue != [] && starts != [] && n < |KeptWhenAccepted(r, o, pre)|
      && n < |Accepted(r, o, pre)| && Accepted(r, o, pre)[n] == Entry(c.turn.queue[0], c.turn.number)
      && var a, own := c.turn.queue[0], starts[|starts| - 1];
         && (a.player == own <==> KeptWhenAccepted(r, o, pre)[n])
         && (c.view.table.current == Some(own) <==> TurnKept(r, o, pre))
         && (a.player == own && c.view.table.current == Some(a.player)
             <==> KeptWhenAccepted(r, o, pre)[n] && TurnKept(r, o, pre))
  {
    hide TurnKept, Apply, Enabled, KeptWhenAccepted, IsBusy, CanExecute;
    var pre := Before(log);
    QueueIsOwnIffKept(r, o, pre);
    QueueServesInOrder(r, o, pre);
    TakeServes(r, After(r, o, pre), Last(log));
    assert Waiting(After(r, o, pre).turn)[0] == Accepted(r, o, pre)[|Served(r, o, pre)|];
    KeptIsCurrent(r, o, pre);
  }

  // ---------------------------------------------------------------------------
  // The price of a failure
  // ---------------------------------------------------------------------------

  /**
   * A rollback refunds nothing, whatever is done between the payment and the
   * opening of the frame, and whatever under it: the points after it are those
   * before the action, less its price, changed only by what was done to them
   * before the frame opened; and the hero's use stands as it did then.
   */
  lemma FailureStillCosts(r: Rules, o: Core, pre: seq<Move>, between: seq<Move>, mid: seq<Move>)
    requires IsInitial(o) && Legal(r, o, pre + [Take(true)]) && Legal(r, o, pre + [Take(true)] + between)
    requires After(r, o, pre).turn.queue != [] && After(r, o, pre).turn.queue[0].price.Cost?
    requires var c := After(r, o, pre + [Take(true)] + between);
      Legal(r, Apply(r, c, Open), mid) && Enabled(r, After(r, Apply(r, c, Open), mid), Restore(c.nextFrame))
    ensures var c, paid, asked := After(r, o, pre), After(r, o, pre + [Take(true)]), After(r, o, pre + [Take(true)] + between);
      var a, undone := c.turn.queue[0], Apply(r, After(r, Apply(r, asked, Open), mid), Restore(asked.nextFrame));
      && 0 <= PointsOf(paid.view.table.cards, a.player) == PointsOf(c.view.table.cards, a.player) - a.price.points
      && PointsOf(undone.view.table.cards, a.player) == PointsOf(asked.view.table.cards, a.player)
      && PointsOf(undone.view.table.cards, a.player) == PointsOf(c.view.table.cards, a.player) - a.price.points
           + (PointsOf(asked.view.table.cards, a.player) - PointsOf(paid.view.table.cards, a.player))
      && undone.view.table.cards.used == asked.view.table.cards.used
  {
    hide Apply, Enabled, CanExecute, IsBusy;
    var paid := pre + [Take(true)];
    assert paid[..|paid| - 1] == pre && paid[|paid| - 1] == Take(true);
    QueueServesInOrder(r, o, pre);
    TakeServes(r, After(r, o, pre), Take(true));
    RestoreUndoesWhatTheFrameSaw(r, o, paid + between, mid, After(r, o, pre).turn.queue[0].player);
  }
}
