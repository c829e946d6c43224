/**
 * Who ends the game, over every run: the first in the order of the players whose
 * party meets what it takes, and only while no frame may still undo it.
 */
module Winning {
  import opened Board
  import opened Machine
  import opened Engine
  import opened EngineLegal
  import opened Requests
  import opened Settlement
  import Endings

  /** All of the conditions where all are required, some one of them otherwise; and with none, nobody ever wins. */
  ghost predicate HasWon(r: Rules, v: View, player: Id) {
    && r.winConditions != []
    && (r.requireAll ==> forall met | met in r.winConditions :: met(v, player))
    && (!r.requireAll ==> exists met | met in r.winConditions :: met(v, player))
  }

  /** This player has won, and nobody before it in the order has. */
  ghost predicate IsFirstToHaveWon(r: Rules, v: View, player: Id) {
    exists i | 0 <= i < |r.players| ::
      r.players[i] == player && HasWon(r, v, player) && forall j | 0 <= j < i :: !HasWon(r, v, r.players[j])
  }

  /** Every frame is being asked about, and by questions only: none can still be rolled back. */
  ghost predicate NothingToUndo(v: View) {
    forall f | f in v.frames :: (exists w | w in f.windows :: w.open) && forall w | w in f.windows && w.open :: w.kind.Choice?
  }

  lemma MeetsIsHasWon(r: Rules, v: View, player: Id)
    requires r.winConditions != []
    ensures Meets(r, v, player) <==> HasWon(r, v, player)
  {
    var all := r.winConditions;
    assert forall i | 0 <= i < |all| :: all[i] in all;
    if met :| met in all && met(v, player) {
      var i :| 0 <= i < |all| && all[i] == met;
      assert all[i](v, player);
    }
  }

  lemma {:induction false} FirstMeetingIsFirst(r: Rules, v: View, from: nat)
    requires from <= |r.players| && r.winConditions != []
    ensures var first := FirstMeeting(r, v, r.players[from..]);
      match first
      case Some(p) => exists i | from <= i < |r.players| ::
        r.players[i] == p && HasWon(r, v, p) && forall j | from <= j < i :: !HasWon(r, v, r.players[j])
      case None => forall i | from <= i < |r.players| :: !HasWon(r, v, r.players[i])
    decreases |r.players| - from
  {
    hide HasWon, Meets;
    if from < |r.players| {
      var rest := r.players[from..];
      MeetsIsHasWon(r, v, rest[0]);
      FirstMeetingIsFirst(r, v, from + 1);
      assert rest[0] == r.players[from] && rest[1..] == r.players[from + 1..];
    }
  }

  lemma WinnerIsFirst(r: Rules, v: View)
    ensures match Winner(r, v)
      case Some(p) => IsFirstToHaveWon(r, v, p)
      case None => forall p | p in r.players :: !HasWon(r, v, p)
  {
    if r.winConditions != [] {
      FirstMeetingIsFirst(r, v, 0);
      assert r.players[0..] == r.players;
    }
  }

  /**
   * Over every run, the game ends only for a player who has won, the first in the
   * order who has, on a board that nothing can still undo; and that player is
   * named the winner.
   */
  lemma EndsForTheFirstWinner(r: Rules, o: Core, log: seq<Move>, k: nat)
    requires Legal(r, o, log) && k < |log| && log[k].Conclude?
    ensures var c, c' := After(r, o, log[..k]), After(r, o, log[..k + 1]);
      && !IsConcluded(c) && NothingToUndo(c.view) && IsFirstToHaveWon(r, c.view, log[k].winner)
      && IsConcluded(c') && c'.view.table.winner == Some(log[k].winner)
  {
    Endings.PrefixIsLegal(r, o, log, k + 1);
    assert log[..k + 1][..k] == log[..k];
    WinnerIsFirst(r, After(r, o, log[..k]).view);
    hide Winner, IsFirstToHaveWon, Legal;
  }

  /** The same, of the runs of the engine. */
  lemma RunEndsForTheFirstWinner(r: Rules, w: World, inputs: seq<Input>, k: nat)
    requires Dealt(w) && k < |Run(r, w, inputs).log| && Run(r, w, inputs).log[k].Conclude?
    ensures var log := Run(r, w, inputs).log;
      var c := After(r, w.core, log[..k]);
      !IsConcluded(c) && NothingToUndo(c.view) && IsFirstToHaveWon(r, c.view, log[k].winner)
  {
    hide Run, IsFirstToHaveWon, NothingToUndo;
    var o := Origin(w.core, [], AnyMoves, None);
    assert Valid(r, o, w);
    RunIsLegal(r, o, w, inputs);
    var log := Run(r, w, inputs).log;
    assert log[0..] == log;
    EndsForTheFirstWinner(r, w.core, log, k);
  }

  lemma LastToHear(r: Rules, w: World, p: Id)
    requires var v := ConcludeIfDue(r, w).core.view; NothingToUndo(v) && p in r.players && HasWon(r, v, p)
    requires !Halted(ConcludeIfDue(r, w))
    ensures IsConcluded(ConcludeIfDue(r, w).core)
  {
    hide HasWon, Winner;
    WinnerIsFirst(r, w.core.view);
  }

  /** And nobody's win goes unnoticed: after any announcement on a board that nothing can undo, whoever has won has ended the game. */
  lemma NoWinGoesUnnoticed(r: Rules, w: World, e: Event, p: Id)
    requires Reserved(e.kind) ==> w.core.mode.Resting?
    requires !Halted(Announce(r, w, e)) && NothingToUndo(Announce(r, w, e).core.view)
    requires p in r.players && HasWon(r, Announce(r, w, e).core.view, p)
    ensures IsConcluded(Announce(r, w, e).core)
  {
    hide HearTask, HearClock, HasWon, NothingToUndo, ConcludeIfDue, IsConcluded;
    var w1 := HearTask(r, HearClock(r, Do(r, w, Hear(e)), e), e);
    assert Announce(r, w, e) == ConcludeIfDue(r, w1);
    LastToHear(r, w1, p);
  }
}
