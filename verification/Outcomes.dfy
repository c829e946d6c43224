/**
 * What becomes of a window's frame, from the entry that settles the window to
 * the next step of whoever waited: which outcomes keep the board, what is
 * announced, and that what was rolled or answered reaches the waiting rule.
 */
module Outcomes {
  import opened Board
  import opened Abilities
  import opened Machine
  import opened Engine
  import opened EngineLegal
  import opened Requests
  import opened Monsters
  import opened Ages
  import opened Pipelines
  import opened Soundness
  import opened Idle
  import opened Settlement
  import opened Rollback
  import opened Endings
  import opened Cancellation
  import opened Waking

  // ---------------------------------------------------------------------------
  // The entry
  // ---------------------------------------------------------------------------

  function WindowAt(v: View, f: FrameId, index: nat): Window
    requires HasFrame(v, f) && index < |FrameOf(v.frames, f).windows|
  {
    FrameOf(v.frames, f).windows[index]
  }

  /** The window stands open, and the verdict is one it can settle by; for an outcome, nothing stands over it. */
  ghost predicate Settles(w: World, f: FrameId, index: nat, v: Verdict) {
    && !Halted(w) && HasFrame(w.core.view, f) && index < |FrameOf(w.core.view.frames, f).windows|
    && var win := WindowAt(w.core.view, f, index);
       && win.open
       && match v
          case Rolled(_, _) => (win.kind.Modifier? || win.kind.Attack?) && !HasOpenFramesAfter(w.core.view, f)
          case Contest(_, _) => win.kind.Challenge? && !HasOpenFramesAfter(w.core.view, f)
          case Picked(_, _) => win.kind.Choice?
  }

  lemma SettlesIsUp(w: World, f: FrameId, index: nat, v: Verdict)
    requires Settles(w, f, index, v)
    ensures IsUp(w.core.view, f, index)
  {
  }

  lemma StoodOver(c: Core, f: FrameId)
    requires Sound(c) && HasFrame(c.view, f)
    ensures HasOpenFramesAfter(c.view, f) <==> StandsOver(c.view, f)
  {
    var frames := c.view.frames;
    var k :| 0 <= k < |frames| && frames[k].id == f;
    if i, j :| 0 <= i < |frames| && 0 <= j < |frames[i].windows| && f < frames[i].id && frames[i].windows[j].open {
      assert k < i;
      assert IsOpen(frames[i]);
    }
    if i, j :| 0 <= i < j < |frames| && frames[i].id == f && IsOpen(frames[j]) {
      var n :| 0 <= n < |frames[j].windows| && frames[j].windows[n].open;
    }
  }

  /** A window is open in a frame that opened later. */
  ghost predicate StandsOver(v: View, f: FrameId) {
    exists i, j | 0 <= i < |v.frames| && 0 <= j < |v.frames[i].windows| :: f < v.frames[i].id && v.frames[i].windows[j].open
  }

  /** Which entries settle something, over every run: an open window's, by a verdict of its kind, and for an outcome with no later window open. */
  lemma SettlesIffNothingStandsOver(r: Rules, w: World, inputs: seq<Input>, f: FrameId, index: nat, v: Verdict)
    requires Dealt(w) && IsUp(Run(r, w, inputs).core.view, f, index)
    requires HasFrame(Run(r, w, inputs).core.view, f)
    requires index < |FrameOf(Run(r, w, inputs).core.view.frames, f).windows|
    ensures var w1 := Run(r, w, inputs);
      var win := WindowAt(w1.core.view, f, index);
      Settles(w1, f, index, v) <==>
        && !Halted(w1) && win.open
        && match v
           case Rolled(_, _) => (win.kind.Modifier? || win.kind.Attack?) && !StandsOver(w1.core.view, f)
           case Contest(_, _) => win.kind.Challenge? && !StandsOver(w1.core.view, f)
           case Picked(_, _) => win.kind.Choice?
  {
    hide Run, Sound, Leads, HasOpenFramesAfter, StandsOver;
    DealtIsValid(r, w);
    var w1 := Run(r, w, inputs);
    RunIsLegal(r, Origin(w.core, [], AnyMoves, None), w, inputs);
    InitialIsSound(r, w.core, []);
    WorldKeepsSound(r, Origin(w.core, [], AnyMoves, None), w1);
    StoodOver(w1.core, f);
  }

  /** An entry settles exactly what stands open and is not stood over; any other changes nothing at all. */
  lemma SettlesOrNothing(r: Rules, w: World, f: FrameId, index: nat, v: Verdict)
    requires w.core.mode.Resting?
    ensures if Settles(w, f, index, v)
      then w.log + [CloseWindow(f, index, if v.Picked? then v.slots else [])] <= Step(r, w, Settle(f, index, v)).log
      else Step(r, w, Settle(f, index, v)) == w
  {
    hide SettleOutcome, SettleChoice, HasOpenFramesAfter;
    if Settles(w, f, index, v) {
      var win := WindowAt(w.core.view, f, index);
      if v.Picked? { ChoiceCloses(r, w, f, index, win, v.slots, v.outcome); } else { OutcomeCloses(r, w, f, index, win, v); }
    }
  }

  lemma OutcomeCloses(r: Rules, w: World, f: FrameId, index: nat, win: Window, v: Verdict)
    requires w.core.mode.Resting? && IsUp(w.core.view, f, index)
    ensures w.log + [CloseWindow(f, index, [])] <= SettleOutcome(r, w, f, index, win, v).log
  {
    hide SettleModifier, SettleAttack, SettleChallenge, Announce, AnnounceResolved, Leads;
    var w1 := Do(r, w, CloseWindow(f, index, []));
    var o, e := Since(w1), Plain(WindowClosed, win.respondent, SubjectCard(win));
    SinceItself(r, w1);
    AnnounceLegal(r, o, w1, e);
    SettleClosedLegal(r, o, Announce(r, w1, e), f, win, v);
    Onward(r, w1, SettleOutcome(r, w, f, index, win, v));
  }

  lemma Onward(r: Rules, w: World, w': World)
    requires Valid(r, Since(w), w')
    ensures w.log <= w'.log
  {
  }

  lemma ChoiceCloses(r: Rules, w: World, f: FrameId, index: nat, win: Window, slots: seq<Slot>, outcome: seq<StepEvent>)
    requires w.core.mode.Resting? && !Halted(w) && IsUp(w.core.view, f, index) && HasFrame(w.core.view, f)
    requires index < |FrameOf(w.core.view.frames, f).windows|
    ensures w.log + [CloseWindow(f, index, slots)] <= SettleChoice(r, w, f, index, win, slots, outcome).log
  {
    hide Makes, SettleChoice, AsksMore, HasFrame, IsUp, Inner;
    ChoiceGoes(r, w, f, index, win, slots, outcome);
    var w', close := SettleChoice(r, w, f, index, win, slots, outcome), CloseWindow(f, index, slots);
    var heard := Hear(Announcement(WindowClosed, win.respondent, None, map[]));
    if AsksMore(w.core.view, f, index) { MadeFirst(r, w, [close, heard], w'); } else { MadeFirst(r, w, [close, Release(f), heard], w'); }
  }

  // ---------------------------------------------------------------------------
  // What is on record
  // ---------------------------------------------------------------------------

  lemma HeardFirst(r: Rules, w: World, e: Event)
    requires !Halted(w) && !IsOwed(e.kind) && (Reserved(e.kind) ==> w.core.mode.Resting?)
    ensures Valid(r, Since(Do(r, w, Hear(e))), Announce(r, w, e))
  {
    hide Leads, Listen;
    SinceItself(r, Do(r, w, Hear(e)));
    ListenLegal(r, Since(Do(r, w, Hear(e))), Do(r, w, Hear(e)), e);
  }

  lemma LastWordFirst(r: Rules, w: World, f: FrameId, slots: seq<Slot>, card: Option<Id>)
    requires !Halted(w) && w.core.mode.Resting?
    ensures Valid(r, Since(Do(r, w, Hear(Resolved(f, slots, card)))), AnnounceResolved(r, w, f, slots, card))
  {
    hide Leads, Announce, DrainQueue;
    var e := Resolved(f, slots, card);
    HeardFirst(r, w, e);
    DrainQueueLegal(r, Since(Do(r, w, Hear(e))), Announce(r, w, e));
  }

  function Announcement(kind: Kind, player: Id, card: Option<Id>, seed: Ctx): Event {
    Event(kind, player, card, None, None, seed, 0, [])
  }

  /** These moves are made, one right after the other, and whatever else there is follows them. */
  ghost predicate Makes(r: Rules, w: World, moves: seq<Move>, w': World)
    decreases |moves|
  {
    if moves == [] then Valid(r, Since(w), w')
    else Enabled(r, w.core, moves[0]) && Makes(r, Do(r, w, moves[0]), moves[1..], w')
  }

  lemma MakesFirst(r: Rules, w: World, m: Move, moves: seq<Move>, w': World)
    requires Enabled(r, w.core, m) && Makes(r, Do(r, w, m), moves, w')
    ensures Makes(r, w, [m] + moves, w')
  {
    assert ([m] + moves)[1..] == moves;
    hide Enabled, Apply, Leads;
  }

  lemma MakesOne(r: Rules, w: World, m: Move, w': World)
    requires Enabled(r, w.core, m) && Valid(r, Since(Do(r, w, m)), w')
    ensures Makes(r, w, [m], w')
  {
    hide Enabled, Apply, Leads;
    MakesFirst(r, w, m, [], w');
    assert [m] + [] == [m];
  }

  lemma {:induction false} MadeFirst(r: Rules, w: World, moves: seq<Move>, w': World)
    requires Makes(r, w, moves, w')
    ensures w.log + moves <= w'.log
    decreases |moves|
  {
    hide Enabled, Apply;
    if moves == [] {
      Onward(r, w, w');
    } else {
      hide Leads;
      MadeFirst(r, Do(r, w, moves[0]), moves[1..], w');
      assert w.log + moves == (w.log + [moves[0]]) + moves[1..];
    }
  }

  lemma {:induction false} MadeInTheRun(
    r: Rules, w2: World, moves: seq<Move>, w: World, inputs: seq<Input>, i: Input, later: seq<Input>)
    requires w.core.mode.Resting? && Makes(r, w2, moves, Step(r, Run(r, w, inputs), i))
    ensures Makes(r, w2, moves, Run(r, w, inputs + [i] + later))
    decreases |moves|
  {
    hide Enabled, Apply, Leads, Run, Step;
    if moves == [] {
      RunOn(r, w, inputs, i, later, Since(w2));
    } else {
      MadeInTheRun(r, Do(r, w2, moves[0]), moves[1..], w, inputs, i, later);
    }
  }

  /** A roll settles its frame at once, and then says how it went. */
  lemma RollGoes(r: Rules, w: World, f: FrameId, win: Window, roll: int, seed: Ctx, m: Move, e: Event)
    requires w.core.mode.Resting? && !Halted(w) && HasFrame(w.core.view, f) && win.kind.Modifier?
    requires m == if win.kind.required <= roll then Release(f) else Restore(f)
    requires e == if win.kind.required <= roll then Announcement(RollSuccess, win.respondent, Some(win.kind.hero), seed)
                  else Announcement(RollFailed, win.respondent, Some(win.kind.hero), map[])
    ensures Makes(r, w, [m, Hear(e)], SettleClosed(r, w, f, win, Rolled(roll, seed)))
  {
    hide Leads, Announce, AnnounceResolved, Apply, HasFrame;
    SettledRests(r, w, f);
    var w1 := Do(r, w, m);
    HeardFirst(r, w1, e);
    AnnounceResolvedLegal(r, Since(Do(r, w1, Hear(e))), Announce(r, w1, e), f, [Slot(CTX_FINAL_ROLL, Number(roll))], None);
    assert SettleModifier(r, w, f, win, roll, seed) == Announce(r, w1, e);
    MakesOne(r, w1, Hear(e), SettleClosed(r, w, f, win, Rolled(roll, seed)));
    MakesFirst(r, w, m, [Hear(e)], SettleClosed(r, w, f, win, Rolled(roll, seed)));
    assert [m] + [Hear(e)] == [m, Hear(e)];
  }

  lemma SettledRests(r: Rules, w: World, f: FrameId)
    requires w.core.mode.Resting? && HasFrame(w.core.view, f)
    ensures Do(r, w, Release(f)).core.mode.Resting? && Do(r, w, Restore(f)).core.mode.Resting?
  {
  }

  /** No frame of this number is settled from here on. */
  ghost predicate NeverSettled(log: seq<Move>, from: nat, f: FrameId) {
    forall k | from <= k < |log| :: log[k] != Release(f) && log[k] != Restore(f)
  }

  /** Once settled it is gone. */
  lemma SettledForGood(r: Rules, o: Core, log: seq<Move>, n: nat, f: FrameId)
    requires IsInitial(o) && Legal(r, o, log) && n < |log| && (log[n] == Release(f) || log[n] == Restore(f))
    ensures NeverSettled(log, n + 1, f)
  {
    hide Legal, After, IsInitial, HasFrame;
    OneFurther(r, o, log, n);
    PrefixIsLegal(r, o, log, n);
    InitialIsSound(r, o, log[..n]);
    GoneOnceSettled(r, After(r, o, log[..n]), log[n], f);
    FrameStaysGone(r, o, log, n + 1, |log|, f);
    hide Apply, Enabled;
  }

  lemma GoneOnceSettled(r: Rules, c: Core, m: Move, f: FrameId)
    requires Sound(c) && Enabled(r, c, m) && (m == Release(f) || m == Restore(f))
    ensures !HasFrame(Apply(r, c, m).view, f) && f < Apply(r, c, m).nextFrame
  {
    OpenIsNumbered(c, f);
    hide Sound;
    var frames := Apply(r, c, m).view.frames;
    assert forall x | x in frames :: x.id != f;
  }

  lemma OpenIsNumbered(c: Core, f: FrameId)
    requires Sound(c) && HasFrame(c.view, f)
    ensures f < c.nextFrame
  {
  }

  // ---------------------------------------------------------------------------
  // In a run
  // ---------------------------------------------------------------------------

  lemma RunOn(r: Rules, w: World, inputs: seq<Input>, i: Input, later: seq<Input>, o: Origin)
    requires w.core.mode.Resting? && o.span.AnyMoves? && Valid(r, o, Step(r, Run(r, w, inputs), i))
    ensures Valid(r, o, Run(r, w, inputs + [i] + later))
  {
    hide Run, Step, Leads;
    RunOneMore(r, w, inputs, i);
    RunAppends(r, w, inputs + [i], later);
    RunIsLegal(r, o, Run(r, w, inputs + [i]), later);
  }

  lemma RunLegal(r: Rules, w: World, inputs: seq<Input>)
    requires Dealt(w)
    ensures Legal(r, w.core, Run(r, w, inputs).log) && Run(r, w, inputs).core == After(r, w.core, Run(r, w, inputs).log)
    ensures Valid(r, Origin(w.core, [], AnyMoves, None), Run(r, w, inputs)) && Sound(Run(r, w, inputs).core)
  {
    hide Run;
    var o := Origin(w.core, [], AnyMoves, None);
    assert Valid(r, o, w);
    RunIsLegal(r, o, w, inputs);
    var log := Run(r, w, inputs).log;
    assert log[0..] == log;
    InitialIsSound(r, w.core, log);
  }

  lemma OutcomeStep(r: Rules, w: World, f: FrameId, index: nat, v: Verdict)
    requires w.core.mode.Resting? && Settles(w, f, index, v) && !v.Picked?
    ensures IsUp(w.core.view, f, index)
    ensures var win := WindowAt(w.core.view, f, index);
      (v.Contest? ==> win.kind.Challenge?) &&
      Step(r, w, Settle(f, index, v))
        == SettleClosed(r, Told(r, w, f, index, win, false), f, win, v)
  {
    hide SettleClosed, HasOpenFramesAfter, Announce;
    SettlesIsUp(w, f, index, v);
  }

  /** Before its frame is settled an entry has closed the window, said so, and settled nothing. */
  lemma ToldFirst(r: Rules, w: World, f: FrameId, index: nat, win: Window, contested: bool)
    requires w.core.mode.Resting? && IsUp(w.core.view, f, index) && (contested ==> win.kind.Challenge?) && !Halted(w)
    ensures var log := Told(r, w, f, index, win, contested).log;
      && w.log + [CloseWindow(f, index, []), Hear(Announcement(WindowClosed, win.respondent, SubjectCard(win), map[]))] <= log
      && forall k | |w.log| < k < |log| :: Inner(log[k])
  {
    hide Leads, Announce, Follows;
    var w1, e := Do(r, w, CloseWindow(f, index, [])), Announcement(WindowClosed, win.respondent, SubjectCard(win), map[]);
    HeardFirst(r, w1, e);
    Onward(r, Do(r, w1, Hear(e)), Announce(r, w1, e));
    AnnounceFollows(r, w1, e);
    FollowsOn(r, w1, Announce(r, w1, e));
    if contested {
      var e2 := Plain(ChallengeResolved, win.respondent, Some(win.kind.card));
      AnnounceFollows(r, Announce(r, w1, e), e2);
      FollowsOn(r, Announce(r, w1, e), Announce(r, Announce(r, w1, e), e2));
    }
  }

  lemma FollowsOn(r: Rules, w: World, w': World)
    requires Follows(r, w, w')
    ensures w.log <= w'.log && forall k | |w.log| <= k < |w'.log| :: Inner(w'.log[k])
  {
  }

  /**
   * A hero roll, in any run and with anything following: if its frame still
   * stands when the close has been heard, a roll that meets its requirement
   * releases the frame and is announced as made, with what it hands on; any other
   * restores the frame and is announced as failed. The frame is settled once.
   */
  lemma RollIsSettled(
    r: Rules, w: World, inputs: seq<Input>, f: FrameId, index: nat, roll: int, seed: Ctx, later: seq<Input>, w1: World, w2: World)
    requires Dealt(w) && w1 == Run(r, w, inputs) && Settles(w1, f, index, Rolled(roll, seed))
    requires WindowAt(w1.core.view, f, index).kind.Modifier?
    requires w2 == Told(r, w1, f, index, WindowAt(w1.core.view, f, index), false) && !Halted(w2) && HasFrame(w2.core.view, f)
    ensures var log := Run(r, w, inputs + [Settle(f, index, Rolled(roll, seed))] + later).log;
      var win := WindowAt(w1.core.view, f, index);
      && w1.log + [CloseWindow(f, index, []), Hear(Announcement(WindowClosed, win.respondent, None, map[]))] <= w2.log
      && (forall k | |w1.log| < k < |w2.log| :: Inner(w2.log[k]))
      && (win.kind.required <= roll ==>
          w2.log + [Release(f), Hear(Announcement(RollSuccess, win.respondent, Some(win.kind.hero), seed))] <= log)
      && (roll < win.kind.required ==>
          w2.log + [Restore(f), Hear(Announcement(RollFailed, win.respondent, Some(win.kind.hero), map[]))] <= log)
      && NeverSettled(log, |w2.log| + 1, f)
  {
    DealtIsInitial(w);
    hide Run, Step, SettleClosed, Told, Leads, HasFrame, Apply, Enabled, Legal, After, IsInitial, Sound, HasOpenFramesAfter, Makes;
    var win, v := WindowAt(w1.core.view, f, index), Rolled(roll, seed);
    SettlesIsUp(w1, f, index, v);
    OutcomeStep(r, w1, f, index, v);
    ToldFirst(r, w1, f, index, win, false);
    var made := win.kind.required <= roll;
    var m := if made then Release(f) else Restore(f);
    var e := if made then Announcement(RollSuccess, win.respondent, Some(win.kind.hero), seed)
             else Announcement(RollFailed, win.respondent, Some(win.kind.hero), map[]);
    RollGoes(r, w2, f, win, roll, seed, m, e);
    OnRecord(r, w, inputs, Settle(f, index, v), later, w2, [m, Hear(e)], f);
  }

  /** The moves that settle a frame, as the log of any longer run has them. */
  lemma OnRecord(r: Rules, w: World, inputs: seq<Input>, i: Input, later: seq<Input>, w2: World, moves: seq<Move>, f: FrameId)
    requires Dealt(w) && w.core.mode.Resting? && moves != [] && (moves[0] == Release(f) || moves[0] == Restore(f))
    requires Makes(r, w2, moves, Step(r, Run(r, w, inputs), i))
    ensures var log := Run(r, w, inputs + [i] + later).log;
      w2.log + moves <= log && NeverSettled(log, |w2.log| + 1, f)
  {
    DealtIsInitial(w);
    hide Run, Step, Leads, Apply, Enabled, Legal, After, IsInitial, Sound, Makes;
    MadeInTheRun(r, w2, moves, w, inputs, i, later);
    var w' := Run(r, w, inputs + [i] + later);
    MadeFirst(r, w2, moves, w');
    RunLegal(r, w, inputs + [i] + later);
    assert w'.log[|w2.log|] == (w2.log + moves)[|w2.log|];
    SettledForGood(r, w.core, w'.log, |w2.log|, f);
  }

  lemma DealtIsInitial(w: World)
    requires Dealt(w)
    ensures IsInitial(w.core) && w.core.mode.Resting?
  {
  }

  /** The roll is at least what slays, or at most, as the monster reads its dice. */
  predicate Slays(r: Rules, monster: Id, roll: int) {
    && monster in r.monsters
    && match r.monsters[monster].mode
       case HighToWin => r.monsters[monster].higher <= roll
       case LowToWin => roll <= r.monsters[monster].higher
  }

  /** It does not slay, and is at most what is fought back, or at least. */
  predicate IsFoughtBack(r: Rules, monster: Id, roll: int) {
    && monster in r.monsters && !Slays(r, monster, roll)
    && match r.monsters[monster].mode
       case HighToWin => roll <= r.monsters[monster].lower
       case LowToWin => r.monsters[monster].lower <= roll
  }

  lemma SlayGoes(r: Rules, w: World, f: FrameId, win: Window, roll: int, seed: Ctx)
    requires w.core.mode.Resting? && !Halted(w) && HasFrame(w.core.view, f) && win.kind.Attack?
    requires Slays(r, win.kind.monster, roll)
    ensures var w', w1, monster := SettleClosed(r, w, f, win, Rolled(roll, seed)), Do(r, w, Release(f)), win.kind.monster;
      var cards := w1.core.view.table.cards;
      if monster in cards.row then
        Makes(r, w, [Release(f), Edit(Slain(cards, monster, win.respondent)),
          Hear(Announcement(MonsterSlain, win.respondent, Some(monster), map[]))], w')
      else Makes(r, w, [Release(f)], w') && w'.halt.NotInRow?
  {
    hide Leads, Announce, AnnounceResolved, Apply, HasFrame, Slain, Makes;
    SettledRests(r, w, f);
    WhereTheBoundsFall(r.monsters[win.kind.monster], roll);
    var monster, w1 := win.kind.monster, Do(r, w, Release(f));
    var w' := SettleClosed(r, w, f, win, Rolled(roll, seed));
    if monster in w1.core.view.table.cards.row {
      var m, e := Edit(Slain(w1.core.view.table.cards, monster, win.respondent)),
        Announcement(MonsterSlain, win.respondent, Some(monster), map[]);
      EditRests(r, w1, m);
      var w2 := Do(r, w1, m);
      HeardFirst(r, w2, e);
      AnnounceResolvedLegal(r, Since(Do(r, w2, Hear(e))), Announce(r, w2, e), f, [Slot(CTX_FINAL_ROLL, Number(roll))], None);
      assert SettleAttack(r, w, f, win, roll) == Announce(r, w2, e);
      MakesOne(r, w2, Hear(e), w');
      MakesFirst(r, w1, m, [Hear(e)], w');
      MakesFirst(r, w, Release(f), [m] + [Hear(e)], w');
      assert [Release(f)] + ([m] + [Hear(e)]) == [Release(f), m, Hear(e)];
    } else {
      SinceItself(r, w1);
      StillLeads(r, Since(w1), w1, None, w1.gas, NotInRow);
      HaltedResolves(r, w1.(halt := NotInRow), f, [Slot(CTX_FINAL_ROLL, Number(roll))], None);
      MakesOne(r, w, Release(f), w');
    }
  }

  lemma EditRests(r: Rules, w: World, m: Move)
    requires w.core.mode.Resting? && m.Edit?
    ensures Enabled(r, w.core, m) && Do(r, w, m).core.mode.Resting? && Do(r, w, m).halt == w.halt
  {
  }

  lemma HaltedResolves(r: Rules, w: World, f: FrameId, slots: seq<Slot>, card: Option<Id>)
    requires Halted(w) && w.core.mode.Resting?
    ensures AnnounceResolved(r, w, f, slots, card) == w
  {
    HaltedHears(r, w, Resolved(f, slots, card));
  }

  lemma MissGoes(r: Rules, w: World, f: FrameId, win: Window, roll: int, seed: Ctx)
    requires w.core.mode.Resting? && !Halted(w) && HasFrame(w.core.view, f) && win.kind.Attack?
    requires !Slays(r, win.kind.monster, roll)
    ensures Makes(r, w, [Restore(f), Hear(if IsFoughtBack(r, win.kind.monster, roll)
        then Announcement(MonsterFoughtBack, win.respondent, Some(win.kind.monster), map[])
        else Resolved(f, [Slot("finalRoll", Number(roll))], None))],
      SettleClosed(r, w, f, win, Rolled(roll, seed)))
  {
    hide Leads, Announce, AnnounceResolved, Apply, HasFrame, Makes;
    SettledRests(r, w, f);
    var monster, w1 := win.kind.monster, Do(r, w, Restore(f));
    if monster in r.monsters { WhereTheBoundsFall(r.monsters[monster], roll); }
    var w' := SettleClosed(r, w, f, win, Rolled(roll, seed));
    var e := if IsFoughtBack(r, monster, roll) then Announcement(MonsterFoughtBack, win.respondent, Some(monster), map[])
             else Resolved(f, [Slot(CTX_FINAL_ROLL, Number(roll))], None);
    if IsFoughtBack(r, monster, roll) {
      HeardFirst(r, w1, e);
      AnnounceResolvedLegal(r, Since(Do(r, w1, Hear(e))), Announce(r, w1, e), f, [Slot(CTX_FINAL_ROLL, Number(roll))], None);
      assert SettleAttack(r, w, f, win, roll) == Announce(r, w1, e);
    } else {
      LastWordFirst(r, w1, f, [Slot(CTX_FINAL_ROLL, Number(roll))], None);
      assert SettleAttack(r, w, f, win, roll) == w1;
    }
    MakesOne(r, w1, Hear(e), w');
    MakesFirst(r, w, Restore(f), [Hear(e)], w');
    assert [Restore(f)] + [Hear(e)] == [Restore(f), Hear(e)];
  }

  /**
   * An attack, in any run: if its frame still stands when the close has been
   * heard, a roll that slays releases the frame, moves the monster and says so (a
   * monster no longer in the row stops the engine); any other restores the frame,
   * and is announced exactly when it is fought back. The frame is settled once.
   */
  lemma AttackIsSettled(
    r: Rules, w: World, inputs: seq<Input>, f: FrameId, index: nat, roll: int, seed: Ctx, later: seq<Input>, w1: World, w2: World)
    requires Dealt(w) && w1 == Run(r, w, inputs) && Settles(w1, f, index, Rolled(roll, seed))
    requires WindowAt(w1.core.view, f, index).kind.Attack?
    requires w2 == Told(r, w1, f, index, WindowAt(w1.core.view, f, index), false) && !Halted(w2) && HasFrame(w2.core.view, f)
    ensures var log := Run(r, w, inputs + [Settle(f, index, Rolled(roll, seed))] + later).log;
      var win := WindowAt(w1.core.view, f, index);
      var cards := Do(r, w2, Release(f)).core.view.table.cards;
      && w1.log + [CloseWindow(f, index, []), Hear(Announcement(WindowClosed, win.respondent, None, map[]))] <= w2.log
      && (forall k | |w1.log| < k < |w2.log| :: Inner(w2.log[k]))
      && (if Slays(r, win.kind.monster, roll) then
            if win.kind.monster in cards.row then
              w2.log + [Release(f), Edit(Slain(cards, win.kind.monster, win.respondent)),
                Hear(Announcement(MonsterSlain, win.respondent, Some(win.kind.monster), map[]))] <= log
            else w2.log + [Release(f)] <= log
          else
            w2.log + [Restore(f), Hear(if IsFoughtBack(r, win.kind.monster, roll)
              then Announcement(MonsterFoughtBack, win.respondent, Some(win.kind.monster), map[])
              else Resolved(f, [Slot("finalRoll", Number(roll))], None))] <= log)
      && NeverSettled(log, |w2.log| + 1, f)
  {
    DealtIsInitial(w);
    hide Run, Step, SettleClosed, Told, Leads, HasFrame, Apply, Enabled, Legal, After, IsInitial, Sound, HasOpenFramesAfter, Makes;
    hide Slays, IsFoughtBack, Slain;
    var win, v := WindowAt(w1.core.view, f, index), Rolled(roll, seed);
    SettlesIsUp(w1, f, index, v);
    OutcomeStep(r, w1, f, index, v);
    ToldFirst(r, w1, f, index, win, false);
    MayRelease(r, w2, f);
    var cards := Do(r, w2, Release(f)).core.view.table.cards;
    var moves := if Slays(r, win.kind.monster, roll) then
        if win.kind.monster in cards.row then [Release(f), Edit(Slain(cards, win.kind.monster, win.respondent)),
          Hear(Announcement(MonsterSlain, win.respondent, Some(win.kind.monster), map[]))]
        else [Release(f)]
      else [Restore(f), Hear(if IsFoughtBack(r, win.kind.monster, roll)
          then Announcement(MonsterFoughtBack, win.respondent, Some(win.kind.monster), map[])
          else Resolved(f, [Slot("finalRoll", Number(roll))], None))];
    if Slays(r, win.kind.monster, roll) { SlayGoes(r, w2, f, win, roll, seed); } else { MissGoes(r, w2, f, win, roll, seed); }
    OnRecord(r, w, inputs, Settle(f, index, v), later, w2, moves, f);
  }

  lemma MayRelease(r: Rules, w: World, f: FrameId)
    requires w.core.mode.Resting? && HasFrame(w.core.view, f)
    ensures Enabled(r, w.core, Release(f))
  {
  }

  /** A card nobody contested keeps its frame's board. */
  lemma UncontestedGoes(r: Rules, w: World, f: FrameId, win: Window, defended: bool)
    requires w.core.mode.Resting? && win.kind.Challenge? && !Halted(w) && HasFrame(w.core.view, f)
    ensures Makes(r, w, [Release(f), Hear(Resolved(f, [], Some(win.kind.card)))], SettleClosed(r, w, f, win, Contest(false, defended)))
  {
    hide Leads, Announce, AnnounceResolved, Apply, HasFrame, Makes, RestoreFrame;
    SettledRests(r, w, f);
    var w1, last, w' := Do(r, w, Release(f)), Hear(Resolved(f, [], Some(win.kind.card))), SettleClosed(r, w, f, win, Contest(false, defended));
    LastWordFirst(r, w1, f, [], Some(win.kind.card));
    assert SettleChallenge(r, w, f, win, false, defended) == w1;
    MakesOne(r, w1, last, w');
    MakesFirst(r, w, Release(f), [last], w');
    assert [Release(f)] + [last] == [Release(f), last];
  }

  /** Where a contested card ends up, the frame settled. */
  function Contested(c: Cards, card: Id, defended: bool): Cards {
    if defended then c.(challenged := c.challenged + [card]) else c.(discard := c.discard + [card])
  }

  /** A contested one keeps it if it was defended, and else takes it back; the card is put where it belongs. */
  lemma ContestGoes(r: Rules, w: World, f: FrameId, win: Window, defended: bool, w2: World, m: Move, edit: Move)
    requires w.core.mode.Resting? && win.kind.Challenge? && !Halted(w2)
    requires w2 == Announce(r, w, Announcement(ChallengeResolved, win.respondent, Some(win.kind.card), map[]))
    requires w2.core.mode.Resting? && HasFrame(w2.core.view, f) && m == (if defended then Release(f) else Restore(f))
    requires Enabled(r, w2.core, m) && edit == Edit(Contested(Do(r, w2, m).core.view.table.cards, win.kind.card, defended))
    ensures Makes(r, w2, [m, edit, Hear(Resolved(f, [], Some(win.kind.card)))], SettleClosed(r, w, f, win, Contest(true, defended)))
  {
    hide Leads, Announce, AnnounceResolved, Apply, Enabled, HasFrame, Makes;
    SettledRests(r, w2, f);
    NotHaltedBefore(r, w, Announcement(ChallengeResolved, win.respondent, Some(win.kind.card), map[]));
    var w3, last, w' := Do(r, w2, m), Hear(Resolved(f, [], Some(win.kind.card))), SettleClosed(r, w, f, win, Contest(true, defended));
    EditRests(r, w3, edit);
    var w4 := Do(r, w3, edit);
    MayHearAny(r, w4, last.event);
    LastWordFirst(r, w4, f, [], Some(win.kind.card));
    assert SettleChallenge(r, w, f, win, true, defended) == w4;
    MakesOne(r, w4, last, w');
    MakesFirst(r, w3, edit, [last], w');
    MakesFirst(r, w2, m, [edit] + [last], w');
    assert [m] + ([edit] + [last]) == [m, edit, last];
  }

  lemma NotHaltedBefore(r: Rules, w: World, e: Event)
    requires Reserved(e.kind) ==> w.core.mode.Resting?
    requires !Halted(Announce(r, w, e))
    ensures !Halted(w)
  {
    if Halted(w) { HaltedHears(r, w, e); }
  }

  /**
   * A challenge, in any run: if its frame still stands when all has been heard
   * that is said before, a card nobody contested or that was defended keeps its
   * frame's board, and a lost one restores it and goes to the discard pile; a
   * contested card is said to be, and a defended one is marked challenged. The
   * frame is settled once.
   */
  lemma ChallengeIsSettled(
    r: Rules, w: World, inputs: seq<Input>, f: FrameId, index: nat, held: bool, defended: bool, later: seq<Input>,
    w1: World, w2: World, w3: World)
    requires Dealt(w) && w1 == Run(r, w, inputs) && Settles(w1, f, index, Contest(held, defended))
    requires w2 == Told(r, w1, f, index, WindowAt(w1.core.view, f, index), held) && !Halted(w2) && HasFrame(w2.core.view, f)
    requires w3 == if held && !defended then Do(r, w2, Restore(f)) else Do(r, w2, Release(f))
    ensures var log := Run(r, w, inputs + [Settle(f, index, Contest(held, defended))] + later).log;
      var win, c := WindowAt(w1.core.view, f, index), w3.core.view.table.cards;
      var card, last := win.kind.card, Hear(Resolved(f, [], Some(win.kind.card)));
      && w1.log + [CloseWindow(f, index, []), Hear(Announcement(WindowClosed, win.respondent, Some(card), map[]))] <= w2.log
      && (forall k | |w1.log| < k < |w2.log| :: Inner(w2.log[k]))
      && (!held ==> w2.log + [Release(f), last] <= log)
      && (held && defended ==> w2.log + [Release(f), Edit(c.(challenged := c.challenged + [card])), last] <= log)
      && (held && !defended ==> w2.log + [Restore(f), Edit(c.(discard := c.discard + [card])), last] <= log)
      && NeverSettled(log, |w2.log| + 1, f)
  {
    DealtIsInitial(w);
    var win, v := WindowAt(w1.core.view, f, index), Contest(held, defended);
    SettlesIsUp(w1, f, index, v);
    OutcomeStep(r, w1, f, index, v);
    ToldFirst(r, w1, f, index, win, held);
    var w0 := Told(r, w1, f, index, win, false);
    ToldTwice(r, w1, f, index, win, held);
    MayRelease(r, w2, f);
    SettledRests(r, w2, f);
    hide Run, Step, SettleClosed, Told, Leads, HasFrame, Apply, Enabled, Legal, After, IsInitial, Sound, HasOpenFramesAfter, Makes;
    hide Announce, Settles, WindowAt, FrameOf, IsUp, NeverSettled;
    var m := if held && !defended then Restore(f) else Release(f);
    if held { ContestGoes(r, w0, f, win, defended, w2, m, Edit(Contested(w3.core.view.table.cards, win.kind.card, defended))); }
    else { UncontestedGoes(r, w2, f, win, defended); }
    OnRecord(r, w, inputs, Settle(f, index, v), later, w2, ContestMoves(f, win.kind.card, held, defended, w3.core.view.table.cards), f);
  }

  /** The frame settled, the card put where it belongs, the frame's last word. */
  function ContestMoves(f: FrameId, card: Id, held: bool, defended: bool, c: Cards): seq<Move> {
    var m, last := if held && !defended then Restore(f) else Release(f), Hear(Resolved(f, [], Some(card)));
    if held then [m, Edit(Contested(c, card, defended)), last] else [m, last]
  }

  lemma ToldTwice(r: Rules, w: World, f: FrameId, index: nat, win: Window, contested: bool)
    requires w.core.mode.Resting? && IsUp(w.core.view, f, index) && (contested ==> win.kind.Challenge?)
    ensures var w0 := Told(r, w, f, index, win, false);
      Told(r, w, f, index, win, contested) == if contested
        then Announce(r, w0, Announcement(ChallengeResolved, win.respondent, Some(win.kind.card), map[])) else w0
  {
    hide Announce;
  }

  /** And the contest is announced, once the close has been heard, exactly when there was one. */
  lemma ContestIsSaid(r: Rules, w: World, f: FrameId, index: nat, win: Window, held: bool)
    requires w.core.mode.Resting? && IsUp(w.core.view, f, index) && win.kind.Challenge?
    requires !Halted(Told(r, w, f, index, win, held))
    ensures var w0, w2 := Told(r, w, f, index, win, false), Told(r, w, f, index, win, held);
      if held then w0.log + [Hear(Announcement(ChallengeResolved, win.respondent, Some(win.kind.card), map[]))] <= w2.log
      else w2 == w0
  {
    hide Leads, Announce, Told;
    ToldTwice(r, w, f, index, win, held);
    if held {
      var w0 := Told(r, w, f, index, win, false);
      var said := Announcement(ChallengeResolved, win.respondent, Some(win.kind.card), map[]);
      NotHaltedBefore(r, w0, said);
      HeardFirst(r, w0, said);
      Onward(r, Do(r, w0, Hear(said)), Told(r, w, f, index, win, held));
    }
  }

  lemma MayHearAny(r: Rules, w: World, e: Event)
    ensures Enabled(r, w.core, Hear(e))
  {
  }

  /** Another question of the frame is still to be answered. */
  ghost predicate AsksMore(v: View, f: FrameId, index: nat)
    requires HasFrame(v, f)
  {
    exists j | 0 <= j < |FrameOf(v.frames, f).windows| :: j != index && FrameOf(v.frames, f).windows[j].open
      && FrameOf(v.frames, f).windows[j].kind.Choice?
  }

  lemma StaysThere(frames: seq<Frame>, f: FrameId, index: nat, slots: seq<Slot>)
    requires exists x | x in frames :: x.id == f
    ensures exists x | x in WithClosed(frames, f, index, slots) :: x.id == f
  {
    var i :| 0 <= i < |frames| && frames[i].id == f;
    assert WithClosed(frames, f, index, slots)[i] in WithClosed(frames, f, index, slots);
  }

  lemma {:induction false} ClosedIs(frames: seq<Frame>, f: FrameId, index: nat, slots: seq<Slot>)
    requires exists x | x in frames :: x.id == f
    ensures exists x | x in WithClosed(frames, f, index, slots) :: x.id == f
    ensures FrameOf(WithClosed(frames, f, index, slots), f) == Closed(FrameOf(frames, f), index, slots)
  {
    hide Closed, WithClosed;
    StaysThere(frames, f, index, slots);
    var frames' := WithClosed(frames, f, index, slots);
    if frames[0].id == f {
      assert frames'[0] == Closed(frames[0], index, slots) && frames'[0].id == f by { KeepsItsId(frames[0], index, slots); }
    } else {
      var x :| x in frames && x.id == f;
      assert x in frames[1..] && frames'[0] == frames[0];
      ClosedIs(frames[1..], f, index, slots);
      assert frames'[1..] == WithClosed(frames[1..], f, index, slots);
    }
  }

  lemma KeepsItsId(x: Frame, index: nat, slots: seq<Slot>)
    ensures Closed(x, index, slots).id == x.id
  {
  }

  lemma ClosedFrame(r: Rules, c: Core, f: FrameId, index: nat, slots: seq<Slot>)
    requires Enabled(r, c, CloseWindow(f, index, slots))
    ensures HasFrame(c.view, f) && HasFrame(Apply(r, c, CloseWindow(f, index, slots)).view, f)
    ensures FrameOf(Apply(r, c, CloseWindow(f, index, slots)).view.frames, f) == Closed(FrameOf(c.view.frames, f), index, slots)
  {
    hide Closed, WithClosed, FrameOf;
    ClosedIs(c.view.frames, f, index, slots);
  }

  lemma AsksMoreIsAsking(r: Rules, c: Core, f: FrameId, index: nat, slots: seq<Slot>)
    requires Enabled(r, c, CloseWindow(f, index, slots)) && HasFrame(c.view, f) && index < |FrameOf(c.view.frames, f).windows|
    ensures HasFrame(Apply(r, c, CloseWindow(f, index, slots)).view, f)
    ensures AsksMore(c.view, f, index) <==> IsAsking(FrameOf(Apply(r, c, CloseWindow(f, index, slots)).view.frames, f))
  {
    ClosedFrame(r, c, f, index, slots);
    hide Apply, Enabled, FrameOf, HasFrame;
    OthersAsk(FrameOf(c.view.frames, f), index, slots);
  }

  lemma OthersAsk(f: Frame, index: nat, slots: seq<Slot>)
    requires index < |f.windows|
    ensures IsAsking(Closed(f, index, slots)) <==>
      exists j | 0 <= j < |f.windows| :: j != index && f.windows[j].open && f.windows[j].kind.Choice?
  {
    var ws, ws' := f.windows, Closed(f, index, slots).windows;
    if j :| 0 <= j < |ws| && j != index && ws[j].open && ws[j].kind.Choice? {
      assert ws'[j] in ws';
    }
    if IsAsking(Closed(f, index, slots)) {
      var j :| 0 <= j < |ws'| && ws'[j].open && ws'[j].kind.Choice?;
      assert ws[j].open;
    }
  }

  lemma ChoiceGoes(r: Rules, w: World, f: FrameId, index: nat, win: Window, slots: seq<Slot>, outcome: seq<StepEvent>)
    requires w.core.mode.Resting? && !Halted(w) && IsUp(w.core.view, f, index) && HasFrame(w.core.view, f)
    requires index < |FrameOf(w.core.view.frames, f).windows|
    ensures var w', close := SettleChoice(r, w, f, index, win, slots, outcome), CloseWindow(f, index, slots);
      var heard := Hear(Announcement(WindowClosed, win.respondent, None, map[]));
      if AsksMore(w.core.view, f, index) then
        Makes(r, w, [close, heard], w') && forall k | |w.log| < k < |w'.log| :: Inner(w'.log[k])
      else Makes(r, w, [close, Release(f), heard], w')
  {
    hide Leads, Announce, AnnounceAll, AnnounceResolved, Apply, HasFrame, Makes, IsAsking, AnswersOf, Follows, FrameOf;
    var close, e := CloseWindow(f, index, slots), Announcement(WindowClosed, win.respondent, None, map[]);
    var w1, w' := Do(r, w, close), SettleChoice(r, w, f, index, win, slots, outcome);
    AsksMoreIsAsking(r, w.core, f, index, slots);
    CloseRests(r, w, f, index, slots);
    if AsksMore(w.core.view, f, index) {
      HeardFirst(r, w1, e);
      AnnounceAllLegal(r, Since(Do(r, w1, Hear(e))), Announce(r, w1, e), outcome);
      MakesOne(r, w1, Hear(e), w');
      MakesFirst(r, w, close, [Hear(e)], w');
      assert [close] + [Hear(e)] == [close, Hear(e)];
      NothingFollows(r, w1);
      AnnounceLegal(r, InnerOf(w1), w1, e);
      AnnounceAllLegal(r, InnerOf(w1), Announce(r, w1, e), outcome);
      InnerFollows(r, w1, w');
      FollowsOn(r, w1, w');
    } else {
      MayRelease(r, w1, f);
      SettledRests(r, w1, f);
      var w2 := Do(r, w1, Release(f));
      HeardFirst(r, w2, e);
      AnnounceAllLegal(r, Since(Do(r, w2, Hear(e))), Announce(r, w2, e), outcome);
      AnnounceResolvedLegal(r, Since(Do(r, w2, Hear(e))), AnnounceAll(r, Announce(r, w2, e), outcome), f,
        AnswersOf(FrameOf(w1.core.view.frames, f).windows), None);
      MakesOne(r, w2, Hear(e), w');
      MakesFirst(r, w1, Release(f), [Hear(e)], w');
      MakesFirst(r, w, close, [Release(f)] + [Hear(e)], w');
      assert [close] + ([Release(f)] + [Hear(e)]) == [close, Release(f), Hear(e)];
    }
  }

  lemma CloseRests(r: Rules, w: World, f: FrameId, index: nat, slots: seq<Slot>)
    requires w.core.mode.Resting? && IsUp(w.core.view, f, index)
    ensures Enabled(r, w.core, CloseWindow(f, index, slots))
    ensures var w' := Do(r, w, CloseWindow(f, index, slots)); w'.core.mode.Resting? && w'.halt == w.halt
  {
  }

  lemma ChoiceStep(r: Rules, w: World, f: FrameId, index: nat, slots: seq<Slot>, outcome: seq<StepEvent>)
    requires w.core.mode.Resting? && Settles(w, f, index, Picked(slots, outcome))
    ensures IsUp(w.core.view, f, index)
    ensures Step(r, w, Settle(f, index, Picked(slots, outcome)))
      == SettleChoice(r, w, f, index, WindowAt(w.core.view, f, index), slots, outcome)
  {
    hide SettleChoice;
  }

  /**
   * A question, in any run: it never restores. While another of the frame's
   * questions is open, answering it settles nothing; with the last of them the
   * frame is released at once, for good.
   */
  lemma ChoiceIsSettled(
    r: Rules, w: World, inputs: seq<Input>, f: FrameId, index: nat, slots: seq<Slot>, outcome: seq<StepEvent>, later: seq<Input>,
    w1: World)
    requires Dealt(w) && w1 == Run(r, w, inputs) && Settles(w1, f, index, Picked(slots, outcome))
    ensures var i := Settle(f, index, Picked(slots, outcome));
      var settled, log := Run(r, w, inputs + [i]).log, Run(r, w, inputs + [i] + later).log;
      var heard := Hear(Announcement(WindowClosed, WindowAt(w1.core.view, f, index).respondent, None, map[]));
      if AsksMore(w1.core.view, f, index) then
        w1.log + [CloseWindow(f, index, slots), heard] <= log && forall k | |w1.log| < k < |settled| :: Inner(settled[k])
      else
        w1.log + [CloseWindow(f, index, slots), Release(f), heard] <= log && NeverSettled(log, |w1.log| + 2, f)
  {
    DealtIsInitial(w);
    hide Run, Step, SettleChoice, Leads, Apply, Enabled, Legal, After, IsInitial, Sound, Makes, AsksMore;
    var win, i := WindowAt(w1.core.view, f, index), Settle(f, index, Picked(slots, outcome));
    RunLegal(r, w, inputs);
    ChoiceStep(r, w1, f, index, slots, outcome);
    ChoiceGoes(r, w1, f, index, win, slots, outcome);
    RunOneMore(r, w, inputs, i);
    var heard := Hear(Announcement(WindowClosed, win.respondent, None, map[]));
    var moves := if AsksMore(w1.core.view, f, index) then [CloseWindow(f, index, slots), heard]
      else [CloseWindow(f, index, slots), Release(f), heard];
    MadeInTheRun(r, w1, moves, w, inputs, i, later);
    var w' := Run(r, w, inputs + [i] + later);
    MadeFirst(r, w1, moves, w');
    if !AsksMore(w1.core.view, f, index) {
      RunLegal(r, w, inputs + [i] + later);
      assert w'.log[|w1.log| + 1] == (w1.log + moves)[|w1.log| + 1];
      SettledForGood(r, w.core, w'.log, |w1.log| + 1, f);
    }
  }

  // ---------------------------------------------------------------------------
  // What a release keeps
  // ---------------------------------------------------------------------------

  /**
   * Over every run, releasing a frame keeps the board: whoever is on the stack
   * stays there as it is, every other frame stands, and of all the cards only
   * those played into the frame have moved, to the discard pile.
   */
  lemma ReleaseKeepsTheBoard(r: Rules, o: Core, log: seq<Move>, k: nat, f: FrameId, p: Id, x: Id)
    requires Legal(r, o, log) && k < |log| && log[k] == Release(f)
    ensures var c, c' := After(r, o, log[..k]), After(r, o, log[..k + 1]);
      var cards, cards' := c.view.table.cards, c'.view.table.cards;
      && HasFrame(c.view, f) && c'.stack == c.stack
      && (forall g | g in c.view.frames && g.id != f :: g in c'.view.frames)
      && c'.view.table == c.view.table.(cards := cards')
      && cards' == cards.(seats := cards'.seats, discard := cards'.discard) && cards.discard <= cards'.discard
      && SeatOf(cards', p) == SeatOf(cards, p).(instances := SeatOf(cards', p).instances)
      && var played := PlayedInto(r, cards, FrameOf(c.view.frames, f), p, x);
         && (x in SeatOf(cards', p).instances <==> x in SeatOf(cards, p).instances && !played)
         && (played ==> x in cards'.discard)
  {
    hide Legal, After, PutAway, SpentInto, FrameOf;
    OneFurther(r, o, log, k);
    var c := After(r, o, log[..k]);
    var cards, frame := c.view.table.cards, FrameOf(c.view.frames, f);
    var spent := SpentInto(r.players, cards, frame);
    PutAwayOnlyMoves(cards, spent, p);
    PlayedIsSpent(r, cards, frame, p, x);
  }
}
