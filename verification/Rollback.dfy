/** What a rollback gives back, what it keeps, and what is spent whichever way the frame goes. */
module Rollback {
  import opened Board
  import opened Abilities
  import opened Machine
  import opened Pipelines

  // ---------------------------------------------------------------------------
  // A snapshot stays as it was taken
  // ---------------------------------------------------------------------------

  ghost predicate FramesNumbered(c: Core) {
    forall i | 0 <= i < |c.view.frames| :: c.view.frames[i].id < c.nextFrame
  }

  lemma NumberedOneMove(r: Rules, c: Core, m: Move)
    requires Enabled(r, c, m) && FramesNumbered(c)
    ensures FramesNumbered(Apply(r, c, m)) && c.nextFrame <= Apply(r, c, m).nextFrame
  {
    var c' := Apply(r, c, m);
    if m.Release? || m.Restore? {
      assert forall i | 0 <= i < |c'.view.frames| :: c'.view.frames[i] in c'.view.frames;
    }
  }

  lemma {:induction false} FramesAreNumbered(r: Rules, o: Core, log: seq<Move>)
    requires IsInitial(o) && Legal(r, o, log)
    ensures FramesNumbered(After(r, o, log))
  {
    if log != [] {
      FramesAreNumbered(r, o, Before(log));
      NumberedOneMove(r, After(r, o, Before(log)), Last(log));
    }
  }

  /** While the frame is open, it holds this board and this mark. */
  ghost predicate Pinned(c: Core, f: FrameId, t: Table, mark: nat) {
    && f < c.nextFrame
    && forall i | 0 <= i < |c.view.frames| && c.view.frames[i].id == f ::
      c.view.frames[i].before == t && c.view.frames[i].mark == mark
  }

  lemma PinnedOneMove(r: Rules, c: Core, m: Move, f: FrameId, t: Table, mark: nat)
    requires Enabled(r, c, m) && Pinned(c, f, t, mark)
    ensures Pinned(Apply(r, c, m), f, t, mark)
  {
    var c' := Apply(r, c, m);
    if m.Release? || m.Restore? {
      assert forall i | 0 <= i < |c'.view.frames| :: c'.view.frames[i] in c'.view.frames;
    }
  }

  lemma {:induction false} StaysPinned(r: Rules, c: Core, log: seq<Move>, f: FrameId, t: Table, mark: nat)
    requires Legal(r, c, log) && Pinned(c, f, t, mark)
    ensures Pinned(After(r, c, log), f, t, mark)
  {
    if log != [] {
      StaysPinned(r, c, Before(log), f, t, mark);
      PinnedOneMove(r, After(r, c, Before(log)), Last(log), f, t, mark);
    }
  }

  /** Wherever in a log a frame opened: as long as it is open, it holds the board it opened over. */
  lemma {:induction false} PinnedSinceItOpened(r: Rules, o: Core, log: seq<Move>, k: nat)
    requires IsInitial(o) && Legal(r, o, log) && k < |log| && log[k] == Open
    ensures var c := After(r, o, log[..k]); Pinned(After(r, o, log), c.nextFrame, c.view.table, c.nextPipe)
  {
    var pre := Before(log);
    var c, f := After(r, o, log[..k]), After(r, o, log[..k]).nextFrame;
    if k == |log| - 1 {
      assert log[..k] == pre;
      FramesAreNumbered(r, o, pre);
    } else {
      assert pre[..k] == log[..k];
      PinnedSinceItOpened(r, o, pre, k);
      PinnedOneMove(r, After(r, o, pre), Last(log), f, c.view.table, c.nextPipe);
    }
  }

  // ---------------------------------------------------------------------------
  // What is spent
  // ---------------------------------------------------------------------------

  /** The frame is about this card: the first of its windows to contest one contests this one. */
  ghost predicate IsAbout(windows: seq<Window>, card: Id) {
    exists i | 0 <= i < |windows| :: Contests(windows, card, 0, i)
  }

  /** The `i`-th window contests the card, and none from `from` on before it contests any. */
  ghost predicate Contests(windows: seq<Window>, card: Id, from: nat, i: nat)
    requires i < |windows|
  {
    && windows[i].kind == Challenge(card) && card != ""
    && forall j | from <= j < i && windows[j].kind.Challenge? :: windows[j].kind.card == ""
  }

  lemma {:induction false} FirstContest(windows: seq<Window>, from: nat, card: Id)
    requires from <= |windows|
    ensures SubjectOf(windows[from..]) == Some(card) <==>
      exists i | from <= i < |windows| :: Contests(windows, card, from, i)
    decreases |windows| - from
  {
    var rest := windows[from..];
    if rest != [] {
      var next, kind := from + 1, windows[from].kind;
      FirstContest(windows, next, card);
      assert rest[0] == windows[from] && rest[1..] == windows[next..];
      if kind.Challenge? && kind.card != "" {
        assert kind.card == card <==> Contests(windows, card, from, from);
        forall i | from < i < |windows| ensures !Contests(windows, card, from, i) {
          assert windows[from].kind.Challenge? && windows[from].kind.card != "";
        }
      } else {
        if i :| from <= i < |windows| && Contests(windows, card, from, i) {
          assert Contests(windows, card, next, i);
        }
        if i :| next <= i < |windows| && Contests(windows, card, next, i) {
          assert Contests(windows, card, from, i);
        }
      }
    }
  }

  lemma AboutItsSubject(windows: seq<Window>, card: Id)
    ensures SubjectOf(windows) == Some(card) <==> IsAbout(windows, card)
  {
    FirstContest(windows, 0, card);
    assert windows[0..] == windows;
  }

  /** Played into the frame: it was not there when the frame opened, and is not what the frame is about. */
  ghost predicate PlayedInto(r: Rules, c: Cards, frame: Frame, player: Id, card: Id) {
    && player in r.players && card in SeatOf(c, player).instances
    && card !in SeatOf(frame.before.cards, player).instances && !IsAbout(frame.windows, card)
  }

  lemma PlayedIsSpent(r: Rules, c: Cards, frame: Frame, player: Id, card: Id)
    ensures Spending(player, card) in SpentInto(r.players, c, frame) <==> PlayedInto(r, c, frame, player, card)
  {
    hide IsAbout, SubjectOf;
    AboutItsSubject(frame.windows, card);
  }

  function CardsOf(spent: seq<Spending>): (cards: seq<Id>)
    ensures forall s | s in spent :: s.card in cards
  {
    if spent == [] then [] else [spent[0].card] + CardsOf(spent[1..])
  }

  lemma {:induction false} TakeBackKeeps(c: Cards, spent: seq<Spending>, p: Id)
    ensures var c' := TakeBack(c, spent);
      && c' == c.(seats := c'.seats, discard := c.discard + CardsOf(spent))
      && SeatOf(c', p) == SeatOf(c, p).(hand := SeatOf(c', p).hand)
    decreases |spent|
  {
    if spent == [] {
      assert c.discard + [] == c.discard;
    } else {
      var s := SeatOf(c, spent[0].player);
      var c1 := WithSeat(c, spent[0].player, s.(hand := Minus(s.hand, spent[0].card)))
        .(discard := c.discard + [spent[0].card]);
      hide Minus;
      TakeBackKeeps(c1, spent[1..], p);
      assert c.discard + [spent[0].card] + CardsOf(spent[1..]) == c.discard + CardsOf(spent);
    }
  }

  lemma {:induction false} TakeBackTakes(c: Cards, spent: seq<Spending>, p: Id, x: Id)
    ensures x in SeatOf(TakeBack(c, spent), p).hand <==> x in SeatOf(c, p).hand && Spending(p, x) !in spent
    decreases |spent|
  {
    if spent != [] {
      var s := SeatOf(c, spent[0].player);
      var c1 := WithSeat(c, spent[0].player, s.(hand := Minus(s.hand, spent[0].card)))
        .(discard := c.discard + [spent[0].card]);
      TakeBackTakes(c1, spent[1..], p, x);
      assert Spending(p, x) in spent <==> Spending(p, x) == spent[0] || Spending(p, x) in spent[1..];
    }
  }

  /** Taking spent cards back moves them from hands to the discard pile, and touches nothing else. */
  lemma TakeBackOnlyMoves(c: Cards, spent: seq<Spending>, p: Id)
    ensures var c' := TakeBack(c, spent);
      && c' == c.(seats := c'.seats, discard := c.discard + CardsOf(spent))
      && SeatOf(c', p) == SeatOf(c, p).(hand := SeatOf(c', p).hand)
      && forall x :: x in SeatOf(c', p).hand <==> x in SeatOf(c, p).hand && Spending(p, x) !in spent
  {
    hide TakeBack;
    TakeBackKeeps(c, spent, p);
    forall x ensures x in SeatOf(TakeBack(c, spent), p).hand <==> x in SeatOf(c, p).hand && Spending(p, x) !in spent {
      TakeBackTakes(c, spent, p, x);
    }
  }

  lemma {:induction false} PutAwayKeeps(c: Cards, spent: seq<Spending>, p: Id)
    ensures var c' := PutAway(c, spent);
      && c' == c.(seats := c'.seats, discard := c.discard + CardsOf(spent))
      && SeatOf(c', p) == SeatOf(c, p).(instances := SeatOf(c', p).instances)
    decreases |spent|
  {
    if spent == [] {
      assert c.discard + [] == c.discard;
    } else {
      var s := SeatOf(c, spent[0].player);
      var c1 := WithSeat(c, spent[0].player, s.(instances := Minus(s.instances, spent[0].card)))
        .(discard := c.discard + [spent[0].card]);
      hide Minus;
      PutAwayKeeps(c1, spent[1..], p);
      assert c.discard + [spent[0].card] + CardsOf(spent[1..]) == c.discard + CardsOf(spent);
    }
  }

  lemma {:induction false} PutAwayTakes(c: Cards, spent: seq<Spending>, p: Id, x: Id)
    ensures x in SeatOf(PutAway(c, spent), p).instances <==> x in SeatOf(c, p).instances && Spending(p, x) !in spent
    decreases |spent|
  {
    if spent != [] {
      var s := SeatOf(c, spent[0].player);
      var c1 := WithSeat(c, spent[0].player, s.(instances := Minus(s.instances, spent[0].card)))
        .(discard := c.discard + [spent[0].card]);
      PutAwayTakes(c1, spent[1..], p, x);
      assert Spending(p, x) in spent <==> Spending(p, x) == spent[0] || Spending(p, x) in spent[1..];
    }
  }

  /** Putting spent cards away moves them from the instance zones to the discard pile, and touches nothing else. */
  lemma PutAwayOnlyMoves(c: Cards, spent: seq<Spending>, p: Id)
    ensures var c' := PutAway(c, spent);
      && c' == c.(seats := c'.seats, discard := c.discard + CardsOf(spent))
      && SeatOf(c', p) == SeatOf(c, p).(instances := SeatOf(c', p).instances)
      && forall x :: x in SeatOf(c', p).instances <==> x in SeatOf(c, p).instances && Spending(p, x) !in spent
  {
    hide PutAway;
    PutAwayKeeps(c, spent, p);
    forall x ensures x in SeatOf(PutAway(c, spent), p).instances <==> x in SeatOf(c, p).instances && Spending(p, x) !in spent {
      PutAwayTakes(c, spent, p, x);
    }
  }

  /**
   * Spent is spent whichever way the frame goes: a card thrown into it ends in
   * the discard pile, out of the instance zone, and out of its player's hand
   * where the snapshot had handed it back.
   */
  lemma SpentIsSpent(r: Rules, c: Core, f: FrameId, player: Id, card: Id, restored: bool)
    requires Enabled(r, c, if restored then Restore(f) else Release(f))
    requires HasFrame(c.view, f) && PlayedInto(r, c.view.table.cards, FrameOf(c.view.frames, f), player, card)
    ensures var cards := Apply(r, c, if restored then Restore(f) else Release(f)).view.table.cards;
      && card in cards.discard
      && card !in SeatOf(cards, player).instances
      && (restored ==> card !in SeatOf(cards, player).hand)
  {
    var frame := FrameOf(c.view.frames, f);
    var spent := SpentInto(r.players, c.view.table.cards, frame);
    PlayedIsSpent(r, c.view.table.cards, frame, player, card);
    if restored {
      TakeBackOnlyMoves(frame.before.cards, spent, player);
    } else {
      PutAwayOnlyMoves(c.view.table.cards, spent, player);
    }
  }

  // ---------------------------------------------------------------------------
  // What a rollback gives back
  // ---------------------------------------------------------------------------

  /** Everything about a seat but its hand: its party, its effects and its action points. */
  function Standing(c: Cards, p: Id): Seat {
    SeatOf(c, p).(hand := [])
  }

  /**
   * Rollback, with anything at all between the opening and the restore, other
   * frames opened and settled included: the board is the one the frame opened
   * over, so work done before it stands and points paid before it stay paid;
   * only cards spent into the frame have moved, from hands to the discard pile.
   */
  lemma RestoreUndoesWhatTheFrameSaw(r: Rules, o: Core, pre: seq<Move>, mid: seq<Move>, p: Id)
    requires IsInitial(o) && Legal(r, o, pre)
    requires var c := After(r, o, pre); var c1 := Apply(r, c, Open);
      Legal(r, c1, mid) && Enabled(r, After(r, c1, mid), Restore(c.nextFrame))
    ensures var c := After(r, o, pre); var c2 := After(r, Apply(r, c, Open), mid);
      var t, t' := c.view.table, Apply(r, c2, Restore(c.nextFrame)).view.table;
      var spent := SpentInto(r.players, c2.view.table.cards, FrameOf(c2.view.frames, c.nextFrame));
      && t'.current == t.current && t'.phase == t.phase && t'.winner == t.winner
      && Standing(t'.cards, p) == Standing(t.cards, p)
      && PointsOf(t'.cards, p) == PointsOf(t.cards, p)
      && (forall x :: x in SeatOf(t'.cards, p).hand <==>
            x in SeatOf(t.cards, p).hand && !PlayedInto(r, c2.view.table.cards, FrameOf(c2.view.frames, c.nextFrame), p, x))
      && t'.cards == t.cards.(seats := t'.cards.seats, discard := t.cards.discard + CardsOf(spent))
  {
    hide Apply, Legal, After, SpentInto, TakeBack, FrameOf;
    var c := After(r, o, pre);
    FramesAreNumbered(r, o, pre);
    OpensPinned(r, c);
    StaysPinned(r, Apply(r, c, Open), mid, c.nextFrame, c.view.table, c.nextPipe);
    var c2 := After(r, Apply(r, c, Open), mid);
    RestoresPinned(r, c2, c.nextFrame, c.view.table, c.nextPipe);
    var spent := SpentInto(r.players, c2.view.table.cards, FrameOf(c2.view.frames, c.nextFrame));
    TakeBackOnlyMoves(c.view.table.cards, spent, p);
    hide PlayedInto;
    forall x ensures Spending(p, x) in spent <==>
      PlayedInto(r, c2.view.table.cards, FrameOf(c2.view.frames, c.nextFrame), p, x)
    {
      PlayedIsSpent(r, c2.view.table.cards, FrameOf(c2.view.frames, c.nextFrame), p, x);
    }
  }

  lemma OpensPinned(r: Rules, c: Core)
    requires FramesNumbered(c)
    ensures Pinned(Apply(r, c, Open), c.nextFrame, c.view.table, c.nextPipe)
  {
  }

  lemma RestoresPinned(r: Rules, c: Core, f: FrameId, t: Table, mark: nat)
    requires Pinned(c, f, t, mark) && Enabled(r, c, Restore(f))
    ensures HasFrame(c.view, f)
    ensures var spent := SpentInto(r.players, c.view.table.cards, FrameOf(c.view.frames, f));
      Apply(r, c, Restore(f)).view.table == t.(cards := TakeBack(t.cards, spent))
  {
    assert FrameOf(c.view.frames, f) in c.view.frames;
  }
}
