/** What is said, over every run: every beginning and end is announced at once, and nothing of the kind is announced otherwise. */
module Announcing {
  import opened Board
  import opened Machine
  import opened Engine
  import opened EngineLegal
  import opened Requests
  import opened Settlement

  /** What the log's moves up to the `k`-th leave to be said, is what the next one says. */
  lemma {:induction false} SpokenAt(r: Rules, o: Core, log: seq<Move>, k: nat)
    requires Spoken(r, o, None, log) && k < |log|
    ensures match (if k == 0 then None else OwedBy(After(r, o, log[..k - 1]), log[k - 1]))
      case Some(e) => log[k] == Hear(e)
      case None => log[k].Hear? ==> !IsOwed(log[k].event.kind)
  {
    hide OwedBy, IsOwed, After;
    var pre := log[..|log| - 1];
    if k == |pre| {
      if pre != [] { assert pre[..|pre| - 1] == log[..k - 1]; }
    } else {
      SpokenAt(r, o, pre, k);
      assert k > 0 ==> pre[..k - 1] == log[..k - 1] && pre[k - 1] == log[k - 1];
    }
  }

  lemma RunIsSpoken(r: Rules, w: World, inputs: seq<Input>)
    requires Dealt(w)
    ensures var log := Run(r, w, inputs).log; Spoken(r, w.core, None, log) && Owing(r, w.core, None, log) == None
  {
    hide Run;
    var o := Origin(w.core, [], AnyMoves, None);
    assert Valid(r, o, w);
    RunIsLegal(r, o, w, inputs);
    var log := Run(r, w, inputs).log;
    assert log[0..] == log;
  }

  /** The move is announced by the next one in the log. */
  ghost predicate SaidNext(log: seq<Move>, k: nat, kind: Kind, player: Id, card: Option<Id>) {
    k + 1 < |log| && log[k + 1] == Hear(Event(kind, player, card, None, None, map[], 0, []))
  }

  /**
   * The start of the game, of a turn, the end of a turn and of the game, and a
   * card's last pipeline leaving: each is announced by the very next thing that
   * happens, with its player and its card.
   */
  lemma BeginningsAndEndsAreSaid(r: Rules, w: World, inputs: seq<Input>, k: nat)
    requires Dealt(w) && k < |Run(r, w, inputs).log|
    ensures var log := Run(r, w, inputs).log;
      var c := After(r, w.core, log[..k]);
      match log[k]
      case BeginGame(_) => SaidNext(log, k, GameStarted, "", None)
      case StartTurn(player) => SaidNext(log, k, TurnStarted, player, None)
      case EndTurn => c.view.table.current.Some? ==> SaidNext(log, k, TurnEnded, c.view.table.current.value, None)
      case Conclude(winner) => SaidNext(log, k, GameEnded, winner, None)
      case Pop(_, done) =>
        done && c.stack != [] ==> SaidNext(log, k, AbilityDone, Top(c.stack).owner, Some(Top(c.stack).card))
      case _ => true
  {
    hide Run, After, Spoken;
    RunIsSpoken(r, w, inputs);
    var log := Run(r, w, inputs).log;
    if k + 1 < |log| { SpokenAt(r, w.core, log, k + 1); }
  }

  /** And they are announced at no other time, by nobody else. */
  lemma SaidOnlyThen(r: Rules, w: World, inputs: seq<Input>, k: nat)
    requires Dealt(w) && k < |Run(r, w, inputs).log| && Run(r, w, inputs).log[k].Hear?
    ensures var log := Run(r, w, inputs).log;
      var e := log[k].event;
      match e.kind
      case GameStarted => k > 0 && log[k - 1].BeginGame?
      case TurnStarted => k > 0 && log[k - 1] == StartTurn(e.player)
      case TurnEnded => k > 0 && log[k - 1] == EndTurn
      case GameEnded => k > 0 && log[k - 1] == Conclude(e.player)
      case AbilityDone => k > 0 && log[k - 1].Pop? && log[k - 1].done
      case _ => true
  {
    hide Run, After, Spoken;
    RunIsSpoken(r, w, inputs);
    SpokenAt(r, w.core, Run(r, w, inputs).log, k);
  }

  /** In a game that is over an announcement ends no effect, wakes nobody and starts no rule: at most the clock is read. */
  lemma NothingHappensAfterTheEnd(r: Rules, w: World, e: Event)
    requires (Reserved(e.kind) ==> w.core.mode.Resting?) && !Halted(w) && IsConcluded(w.core)
    ensures var w' := Announce(r, w, e);
      && w' == w.(core := w.core.(clock := w'.core.clock), log := w'.log)
      && w.log + [Hear(e)] <= w'.log
      && forall k | |w.log| < k < |w'.log| :: w'.log[k].Pause? || w'.log[k].Resume?
  {
    hide PauseClock, ResumeClock, HasOpenFrames, CanResume, Expire, StartMatching, Drain, Winner, HasPendingOutcome;
    var w0 := Do(r, w, Hear(e));
    assert w0.log == w.log + [Hear(e)];
    var w1 := HearClock(r, w0, e);
    assert HearTask(r, w1, e) == w1;
    assert Listen(r, w0, e) == ConcludeIfDue(r, HearTask(r, w1, e)) == w1;
    AnnounceListens(r, w, e);
  }
}
