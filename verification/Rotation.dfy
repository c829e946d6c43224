/**
 * Whose turn it is, over every run: the seats follow one another as long as no
 * turn ends on a stale snapshot, and a table ends once.
 */
module Rotation {
  import opened Board
  import opened Machine
  import opened Pipelines

  /** Who each turn was started for, first to last. */
  function Starts(log: seq<Move>): seq<Id> {
    if log == [] then []
    else if log[|log| - 1].StartTurn? then Starts(log[..|log| - 1]) + [log[|log| - 1].player]
    else Starts(log[..|log| - 1])
  }

  /** The turn's own player is still the board's: no frame restored this turn brought another one back. */
  ghost predicate TurnKept(r: Rules, o: Core, log: seq<Move>) {
    if log == [] then true
    else
      var c := After(r, o, Before(log));
      match Last(log)
      case StartTurn(_) => true
      case Restore(f) =>
        HasFrame(c.view, f) && Starts(log) != [] &&
        FrameOf(c.view.frames, f).before.current == Some(Starts(log)[|Starts(log)| - 1])
      case _ => TurnKept(r, o, Before(log))
  }

  lemma KeptOneMove(r: Rules, o: Core, log: seq<Move>)
    requires log != [] && Legal(r, o, log) && Starts(log) != []
    requires Starts(Before(log)) != [] ==>
      (TurnKept(r, o, Before(log)) <==>
       After(r, o, Before(log)).view.table.current == Some(Starts(Before(log))[|Starts(Before(log))| - 1]))
    ensures TurnKept(r, o, log) <==> After(r, o, log).view.table.current == Some(Starts(log)[|Starts(log)| - 1])
  {
    var c, m := After(r, o, Before(log)), Last(log);
    TurnUntouched(r, c, m);
    if !m.StartTurn? && !m.Restore? { hide Apply, Enabled; }
  }

  /** Once a turn has started, the board names the turn's own player exactly when the turn was kept. */
  lemma {:induction false} KeptIsCurrent(r: Rules, o: Core, log: seq<Move>)
    requires Legal(r, o, log) && Starts(log) != []
    ensures TurnKept(r, o, log) <==> After(r, o, log).view.table.current == Some(Starts(log)[|Starts(log)| - 1])
  {
    if Starts(Before(log)) != [] { KeptIsCurrent(r, o, Before(log)); }
    KeptOneMove(r, o, log);
  }

  ghost predicate Distinct(order: seq<Id>) {
    forall i, j | 0 <= i < j < |order| :: order[i] != order[j]
  }

  lemma {:induction false} IndexOfAt(order: seq<Id>, i: nat)
    requires Distinct(order) && i < |order|
    ensures IndexOf(order, order[i]) == i
  {
    if i > 0 {
      assert order[0] != order[i] && order[1..][i - 1] == order[i];
      IndexOfAt(order[1..], i - 1);
    }
  }

  /** Whose turn the k-th is, seat by seat, round and round. */
  function SeatAt(order: seq<Id>, k: nat): Id
    requires order != []
  {
    order[k % |order|]
  }

  /** The turns follow the seats. */
  ghost predicate Rotates(order: seq<Id>, starts: seq<Id>) {
    forall k | 0 <= k < |starts| :: order != [] && starts[k] == SeatAt(order, k)
  }

  /** Every turn that ended so far was kept to its end. */
  ghost predicate EveryTurnKept(r: Rules, o: Core, log: seq<Move>) {
    forall k | 0 <= k < |log| && log[k].EndTurn? :: TurnKept(r, o, log[..k])
  }

  /** Where the turn machine stands: between two turns, the last one's player is the one the end named. */
  ghost predicate TurnFollows(r: Rules, o: Core, log: seq<Move>) {
    var t := After(r, o, log).turn;
    match t.phase
    case Opening => Starts(log) == []
    case Acting => Starts(log) != []
    case Closing => Starts(log) != [] && t.ended == Starts(log)[|Starts(log)| - 1]
  }

  lemma MulMono(n: nat, a: nat, b: nat)
    requires a <= b
    ensures n * a <= n * b
  {
  }

  lemma MulNext(n: nat, q: nat)
    ensures n * (q + 1) == n * q + n
  {
  }

  lemma ModIs(x: nat, n: nat, q: nat, a: nat)
    requires n > 0 && a < n && x == n * q + a
    ensures x % n == a
  {
    var d := x / n;
    MulNext(n, d);
    MulNext(n, q);
    if d < q { MulMono(n, d + 1, q); } else if q < d { MulMono(n, q + 1, d); }
  }

  lemma ModNext(k: nat, n: nat)
    requires n > 0
    ensures (k + 1) % n == if k % n + 1 == n then 0 else k % n + 1
  {
    var q, a := k / n, k % n;
    assert k == n * q + a;
    if a + 1 == n {
      MulNext(n, q);
      ModIs(k + 1, n, q + 1, 0);
    } else {
      ModIs(k + 1, n, q, a + 1);
    }
  }

  lemma NextInOrder(order: seq<Id>, k: nat)
    requires Distinct(order) && order != []
    ensures NextSeat(order, SeatAt(order, k)) == SeatAt(order, k + 1)
  {
    var n := |order|;
    var a := k % n;
    IndexOfAt(order, a);
    ModNext(k, n);
    if a + 1 == n { ModIs(n, n, 1, 0); } else { ModIs(a + 1, n, 0, a + 1); }
  }

  lemma {:induction false} OpeningHasNoStarts(r: Rules, o: Core, log: seq<Move>)
    requires IsInitial(o) && Legal(r, o, log)
    ensures After(r, o, log).turn.phase.Acting? ==> Starts(log) != []
    ensures After(r, o, log).turn.phase.Opening? ==> Starts(log) == []
  {
    if log != [] {
      OpeningHasNoStarts(r, o, Before(log));
      var c, m := After(r, o, Before(log)), Last(log);
      TurnUntouched(r, c, m);
      if !TouchesTurn(m) { hide Apply, Enabled; }
    }
  }

  /** Nobody is current, on the board or in a snapshot, before the first turn; so no turn ends before one starts. */
  lemma {:induction false} NobodyBeforeTheFirstTurn(r: Rules, o: Core, log: seq<Move>)
    requires IsInitial(o) && Legal(r, o, log) && Starts(log) == []
    ensures After(r, o, log).view.table.current.None?
    ensures forall i | 0 <= i < |After(r, o, log).view.frames| ::
      After(r, o, log).view.frames[i].before.current.None?
  {
    if log != [] {
      NobodyBeforeTheFirstTurn(r, o, Before(log));
      var c, c', m := After(r, o, Before(log)), After(r, o, log), Last(log);
      if m.Release? || m.Restore? {
        assert FrameOf(c.view.frames, m.frame) in c.view.frames;
        assert forall i | 0 <= i < |c'.view.frames| :: c'.view.frames[i] in c'.view.frames;
      }
    }
  }

  lemma KeptPrefix(r: Rules, o: Core, log: seq<Move>)
    requires log != [] && EveryTurnKept(r, o, log)
    ensures EveryTurnKept(r, o, Before(log))
    ensures Last(log).EndTurn? ==> TurnKept(r, o, Before(log))
  {
    var pre := Before(log);
    forall k | 0 <= k < |pre| && pre[k].EndTurn? ensures TurnKept(r, o, pre[..k]) {
      assert log[k].EndTurn? && log[..k] == pre[..k];
    }
    if Last(log).EndTurn? { assert log[|log| - 1].EndTurn? && log[..|log| - 1] == pre; }
  }

  ghost predicate InRotation(r: Rules, o: Core, log: seq<Move>) {
    Rotates(After(r, o, log).turn.order, Starts(log)) && TurnFollows(r, o, log)
  }

  lemma DueIsNext(t: Turn, p: Id, starts: seq<Id>)
    requires IsDue(t, p) && Distinct(t.order) && Rotates(t.order, starts)
    requires t.phase.Opening? ==> starts == []
    requires t.phase.Closing? ==> starts != [] && t.ended == starts[|starts| - 1]
    ensures Rotates(t.order, starts + [p])
  {
    hide NextSeat;
    if t.phase.Closing? { NextInOrder(t.order, |starts| - 1); }
    assert p == SeatAt(t.order, |starts|);
    hide SeatAt;
  }

  lemma StartKeepsRotation(r: Rules, o: Core, log: seq<Move>)
    requires log != [] && Legal(r, o, log) && Last(log).StartTurn?
    requires Distinct(After(r, o, log).turn.order) && InRotation(r, o, Before(log))
    ensures InRotation(r, o, log)
  {
    var c, c', p := After(r, o, Before(log)), After(r, o, log), Last(log).player;
    TurnUntouched(r, c, Last(log));
    assert IsDue(c.turn, p) && c'.turn.phase.Acting?;
    hide Apply, Enabled, After, Rotates, IsDue, Distinct;
    DueIsNext(c.turn, p, Starts(Before(log)));
  }

  lemma EndKeepsRotation(r: Rules, o: Core, log: seq<Move>)
    requires log != [] && IsInitial(o) && Legal(r, o, log) && EveryTurnKept(r, o, log) && Last(log).EndTurn?
    requires InRotation(r, o, Before(log))
    ensures InRotation(r, o, log)
  {
    KeptPrefix(r, o, log);
    if Starts(Before(log)) == [] { NobodyBeforeTheFirstTurn(r, o, Before(log)); }
    KeptIsCurrent(r, o, Before(log));
  }

  lemma RotatesOneMove(r: Rules, o: Core, log: seq<Move>)
    requires log != [] && IsInitial(o) && Legal(r, o, log) && EveryTurnKept(r, o, log)
    requires !Last(log).BeginGame? && Distinct(After(r, o, log).turn.order)
    requires InRotation(r, o, Before(log))
    ensures InRotation(r, o, log)
  {
    var m := Last(log);
    if m.StartTurn? {
      StartKeepsRotation(r, o, log);
    } else if m.EndTurn? {
      EndKeepsRotation(r, o, log);
    } else {
      var c, c' := After(r, o, Before(log)), After(r, o, log);
      assert c'.turn == c.turn.(queue := c'.turn.queue) by { TurnUntouched(r, c, m); }
      hide Apply, Enabled, After;
    }
  }

  /**
   * The k-th turn belongs to seat k mod n, over every run in which no turn ended
   * with a stale player on the board.
   */
  lemma {:induction false} TurnsRotate(r: Rules, o: Core, log: seq<Move>)
    requires IsInitial(o) && Legal(r, o, log) && EveryTurnKept(r, o, log)
    requires Distinct(After(r, o, log).turn.order)
    ensures InRotation(r, o, log)
  {
    if log != [] {
      var pre := Before(log);
      KeptPrefix(r, o, log);
      if Last(log).BeginGame? {
        OpeningHasNoStarts(r, o, pre);
      } else {
        TurnUntouched(r, After(r, o, pre), Last(log));
        TurnsRotate(r, o, pre);
        RotatesOneMove(r, o, log);
      }
    }
  }

  // ---------------------------------------------------------------------------
  // Exactly when the next seat is next
  // ---------------------------------------------------------------------------

  ghost predicate Seated(order: seq<Id>, player: Option<Id>) {
    player.Some? ==> player.value in order
  }

  ghost predicate EveryoneSeated(c: Core) {
    && Seated(c.turn.order, c.view.table.current)
    && forall i | 0 <= i < |c.view.frames| :: Seated(c.turn.order, c.view.frames[i].before.current)
  }

  lemma SeatedOneMove(r: Rules, c: Core, m: Move)
    requires Enabled(r, c, m) && EveryoneSeated(c) && !m.BeginGame?
    ensures EveryoneSeated(Apply(r, c, m))
  {
    var c' := Apply(r, c, m);
    TurnUntouched(r, c, m);
    if m.Release? || m.Restore? {
      assert FrameOf(c.view.frames, m.frame) in c.view.frames;
      assert forall i | 0 <= i < |c'.view.frames| :: c'.view.frames[i] in c'.view.frames;
    }
  }

  lemma {:induction false} EveryoneIsSeated(r: Rules, o: Core, log: seq<Move>)
    requires IsInitial(o) && Legal(r, o, log)
    ensures EveryoneSeated(After(r, o, log))
    ensures forall k | 0 <= k < |Starts(log)| :: Starts(log)[k] in After(r, o, log).turn.order
  {
    if log != [] {
      var pre, m := Before(log), Last(log);
      EveryoneIsSeated(r, o, pre);
      OpeningHasNoStarts(r, o, pre);
      if m.BeginGame? { NobodyBeforeTheFirstTurn(r, o, pre); } else { SeatedOneMove(r, After(r, o, pre), m); }
    }
  }

  lemma NextSeatInjective(order: seq<Id>, a: Id, b: Id)
    requires Distinct(order) && a in order && b in order
    ensures NextSeat(order, a) == NextSeat(order, b) ==> a == b
  {
    var n, i, j := |order|, IndexOf(order, a), IndexOf(order, b);
    if i + 1 == n { ModIs(n, n, 1, 0); } else { ModIs(i + 1, n, 0, i + 1); }
    if j + 1 == n { ModIs(n, n, 1, 0); } else { ModIs(j + 1, n, 0, j + 1); }
  }

  /**
   * The next turn goes to the next seat if and only if the last frame restored
   * this turn, if there was one, had been opened with this turn's player on the
   * board. A snapshot carries the current player, so a frame opened in one turn
   * and restored in another puts the wrong player's name on the turn's end.
   */
  lemma NextSeatIffKept(r: Rules, o: Core, log: seq<Move>)
    requires IsInitial(o) && Legal(r, o, log) && Starts(log) != []
    requires Enabled(r, After(r, o, log), EndTurn) && Distinct(After(r, o, log).turn.order)
    ensures var c := After(r, o, log);
      var order, player := c.turn.order, Starts(log)[|Starts(log)| - 1];
      order != [] &&
      (NextSeat(order, Apply(r, c, EndTurn).turn.ended) == NextSeat(order, player) <==> TurnKept(r, o, log))
  {
    hide NextSeat, TurnKept, Legal, After, Starts, IsInitial, Distinct, PointsOf, IsBusy;
    var c := After(r, o, log);
    EveryoneIsSeated(r, o, log);
    KeptIsCurrent(r, o, log);
    NextSeatInjective(c.turn.order, c.view.table.current.value, Starts(log)[|Starts(log)| - 1]);
  }

  // ---------------------------------------------------------------------------
  // A table ends once
  // ---------------------------------------------------------------------------

  function Endings(log: seq<Move>): nat {
    if log == [] then 0
    else Endings(log[..|log| - 1]) + (if log[|log| - 1].Conclude? then 1 else 0)
  }

  /** A concluded board only ever holds snapshots of concluded boards. */
  ghost predicate EndHolds(c: Core) {
    IsConcluded(c) ==> forall i | 0 <= i < |c.view.frames| :: c.view.frames[i].before.phase.Concluded?
  }

  /** A board still played has no snapshot of a concluded one. */
  ghost predicate PlayHolds(c: Core) {
    !IsConcluded(c) ==> forall i | 0 <= i < |c.view.frames| :: !c.view.frames[i].before.phase.Concluded?
  }

  lemma EndOneMove(r: Rules, c: Core, m: Move)
    requires Enabled(r, c, m) && EndHolds(c) && PlayHolds(c)
    ensures EndHolds(Apply(r, c, m)) && PlayHolds(Apply(r, c, m))
    ensures IsConcluded(Apply(r, c, m)) <==> IsConcluded(c) || m.Conclude?
  {
    var c' := Apply(r, c, m);
    if m.Release? || m.Restore? {
      assert FrameOf(c.view.frames, m.frame) in c.view.frames;
      assert forall i | 0 <= i < |c'.view.frames| :: c'.view.frames[i] in c'.view.frames;
    }
  }

  /** `GameEnded` goes out at most once, over every run, and no rollback reopens a concluded table. */
  lemma {:induction false} TheGameEndsOnce(r: Rules, o: Core, log: seq<Move>)
    requires IsInitial(o) && Legal(r, o, log)
    ensures EndHolds(After(r, o, log)) && PlayHolds(After(r, o, log))
    ensures Endings(log) == if IsConcluded(After(r, o, log)) then 1 else 0
  {
    if log != [] {
      TheGameEndsOnce(r, o, Before(log));
      EndOneMove(r, After(r, o, Before(log)), Last(log));
    }
  }

  /** After the end no turn starts, unless the table ended before its first turn: that one turn still starts. */
  lemma {:induction false} NoTurnAfterTheEnd(r: Rules, o: Core, pre: seq<Move>, mid: seq<Move>)
    requires IsInitial(o) && Legal(r, o, pre) && Legal(r, After(r, o, pre), mid) && IsConcluded(After(r, o, pre))
    requires !After(r, o, pre).turn.phase.Opening?
    ensures Starts(mid) == [] && IsConcluded(After(r, After(r, o, pre), mid))
    ensures !After(r, After(r, o, pre), mid).turn.phase.Opening?
    ensures EndHolds(After(r, After(r, o, pre), mid)) && PlayHolds(After(r, After(r, o, pre), mid))
  {
    if mid == [] {
      TheGameEndsOnce(r, o, pre);
    } else {
      NoTurnAfterTheEnd(r, o, pre, Before(mid));
      var c := After(r, After(r, o, pre), Before(mid));
      EndOneMove(r, c, Last(mid));
      TurnUntouched(r, c, Last(mid));
    }
  }
}
