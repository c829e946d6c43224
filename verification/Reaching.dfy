/**
 * From a window to the rule that waits for it: what was rolled, or answered, is
 * in its context when it takes its next step.
 */
module Reaching {
  import opened Board
  import opened Abilities
  import opened Machine
  import opened Engine
  import opened EngineLegal
  import opened Requests
  import opened Ages
  import opened Pipelines
  import opened Soundness
  import opened Settlement
  import opened Cancellation
  import opened Endings
  import opened Waking
  import opened Outcomes

  /** From here on, as long as nobody is woken. */
  function AsleepSince(w: World): Origin {
    Origin(w.core, w.log, AnyAsleep, None)
  }

  lemma AsleepItself(r: Rules, w: World)
    ensures Valid(r, AsleepSince(w), w)
  {
    assert w.log[|w.log|..] == [];
  }

  /** A wake is made, and whatever else there is follows it. */
  ghost predicate WakesThen(r: Rules, w: World, f: FrameId, slots: seq<Slot>, w': World) {
    Enabled(r, w.core, Wake(f, slots)) && Valid(r, Since(Do(r, w, Wake(f, slots))), w')
  }

  /**
   * The frame's last word wakes with its writes, and nobody is woken before; or
   * the engine stopped or the game ended first, and nobody is woken at all.
   */
  lemma LastWordWakes(r: Rules, q: Origin, w: World, f: FrameId, slots: seq<Slot>, card: Option<Id>) returns (woken: Option<World>)
    requires Valid(r, q, w) && q.span.AnyAsleep? && w.core.mode.Resting?
    ensures var w' := AnnounceResolved(r, w, f, slots, card);
      match woken
      case Some(w1) => Valid(r, q, w1) && WakesThen(r, w1, f, slots, w')
      case None => Valid(r, q, w') && (Halted(w') || IsConcluded(w'.core))
  {
    hide Leads, HearClock, Expire, StartMatching, Drain, ConcludeIfDue, DrainQueue, Apply;
    var e := Resolved(f, slots, card);
    if Halted(w) {
      HaltedResolves(r, w, f, slots, card);
      return None;
    }
    ValidMayHear(r, q, w, e);
    HearKeepsValid(r, q, w, e);
    var w0 := Do(r, w, Hear(e));
    HeardResting(r, w, e);
    HearClockLegal(r, q, w0, e);
    var w1 := HearClock(r, w0, e);
    if IsConcluded(w1.core) {
      ConcludedHears(r, w, e, w1);
      return None;
    }
    ExpireLegal(r, q, w1, e);
    var w2 := Expire(r, w1, e);
    assert Announce(r, w, e) == ConcludeIfDue(r, HearTask(r, w1, e));
    if Halted(w2) {
      HaltedConcludes(r, w2);
      return None;
    }
    woken := Some(w2);
    var w3 := Do(r, w2, Wake(f, slots));
    var o := Since(w3);
    SinceItself(r, w3);
    WokenResting(r, w2, f, slots);
    PushAllLegal(r, o, w3, Started(r, w3.core.view, e));
    var w4 := StartMatching(r, w3, e);
    assert w4 == PushAll(r, w3, Started(r, w3.core.view, e)) by { MatchingIs(r, w3, e); }
    DrainLegal(r, o, w4);
    ConcludeLegal(r, o, Drain(r, w4));
    var w5 := ConcludeIfDue(r, Drain(r, w4));
    assert Announce(r, w, e) == w5;
    DrainQueueLegal(r, o, w5);
  }

  lemma MatchingIs(r: Rules, w: World, e: Event)
    ensures StartMatching(r, w, e) == PushAll(r, w, Started(r, w.core.view, e))
  {
  }

  lemma HeardResting(r: Rules, w: World, e: Event)
    ensures var w' := Do(r, w, Hear(e)); w'.core == w.core && w'.halt == w.halt
  {
  }

  lemma WokenResting(r: Rules, w: World, f: FrameId, slots: seq<Slot>)
    requires w.core.mode.Resting?
    ensures Enabled(r, w.core, Wake(f, slots)) && Do(r, w, Wake(f, slots)).core.mode.Resting?
  {
  }

  lemma ConcludedHears(r: Rules, w: World, e: Event, w1: World)
    requires w.core.mode.Resting? && !Halted(w) && w1 == HearClock(r, Do(r, w, Hear(e)), e) && IsConcluded(w1.core)
    ensures Announce(r, w, e) == w1
  {
    hide HearClock;
    assert HearTask(r, w1, e) == w1 && ConcludeIfDue(r, w1) == w1;
    assert Listen(r, Do(r, w, Hear(e)), e) == w1;
  }

  lemma HaltedConcludes(r: Rules, w: World)
    requires Halted(w)
    ensures ConcludeIfDue(r, w) == w
  {
  }

  // ---------------------------------------------------------------------------
  // The waiter
  // ---------------------------------------------------------------------------

  lemma WaiterIsUnmoved(c: Core, i: nat)
    requires Sound(c) && c.mode.Resting? && i < |c.stack|
    ensures Unmoved(c, c.stack[i])
  {
  }

  lemma AsleepLog(r: Rules, w: World, w': World, f: FrameId)
    requires Valid(r, AsleepSince(w), w')
    ensures w.log <= w'.log && NobodyWakes(w'.log, |w.log|, |w'.log|, f)
  {
    hide Legal, After, Spoken, Owing;
  }

  lemma SamePrefix(log: seq<Move>, log': seq<Move>, a: nat, f: FrameId)
    requires log <= log' && NobodyWakes(log, a, |log|, f)
    ensures NobodyWakes(log', a, |log|, f)
  {
  }

  lemma {:induction false} HaltedRuns(r: Rules, w: World, inputs: seq<Input>)
    requires w.core.mode.Resting? && Halted(w)
    ensures Run(r, w, inputs) == w
  {
    hide Step;
    if inputs != [] {
      HaltedRuns(r, w, inputs[..|inputs| - 1]);
      HaltedStep(r, w, inputs[|inputs| - 1]);
    }
  }

  lemma RunsOn(r: Rules, w: World, inputs: seq<Input>, i: Input, later: seq<Input>)
    requires Dealt(w) && w.core.mode.Resting?
    ensures var w2, w' := Step(r, Run(r, w, inputs), i), Run(r, w, inputs + [i] + later);
      w2.log <= w'.log && w2 == Run(r, w, inputs + [i]) && (Halted(w2) ==> w' == w2)
  {
    hide Run, Step, Leads;
    RunOneMore(r, w, inputs, i);
    RunAppends(r, w, inputs + [i], later);
    var w2 := Run(r, w, inputs + [i]);
    if Halted(w2) { HaltedRuns(r, w2, later); }
    SinceItself(r, w2);
    RunIsLegal(r, Since(w2), w2, later);
    Onward(r, w2, Run(r, w2, later));
  }

  /** A waiter of the run so far, in the log of any longer run: it sleeps as it is, up to the world `to`. */
  lemma Sleeper(r: Rules, w: World, inputs: seq<Input>, w1: World, at: nat, f: FrameId, to: World, all: seq<Input>)
    requires Dealt(w) && w.core.mode.Resting? && w1 == Run(r, w, inputs)
    requires at < |w1.core.stack| && WaitsOn(w1.core.stack[at], f)
    requires Valid(r, AsleepSince(w1), to) && to.log <= Run(r, w, all).log
    ensures var log := Run(r, w, all).log;
      && IsInitial(w.core) && Legal(r, w.core, log) && |w1.log| <= |to.log| <= |log|
      && After(r, w.core, log[..|w1.log|]) == w1.core && Unmoved(w1.core, w1.core.stack[at])
      && NobodyWakes(log, |w1.log|, |to.log|, f)
  {
    DealtIsInitial(w);
    hide Run, Leads, Legal, After, Sound, IsInitial, Unmoved;
    RunLegal(r, w, inputs);
    RunLegal(r, w, all);
    AsleepLog(r, w1, to, f);
    SamePrefix(to.log, Run(r, w, all).log, |w1.log|, f);
    WaiterIsUnmoved(w1.core, at);
    assert Run(r, w, all).log[..|w1.log|] == w1.log;
  }

  /** If nobody was woken because the engine stopped or the game ended, nobody who waited ever steps again. */
  lemma NeverWoken(r: Rules, w: World, inputs: seq<Input>, i: Input, later: seq<Input>, w1: World, at: nat, f: FrameId)
    requires Dealt(w) && w.core.mode.Resting? && w1 == Run(r, w, inputs) && !IsConcluded(w1.core)
    requires at < |w1.core.stack| && WaitsOn(w1.core.stack[at], f)
    requires var w2 := Step(r, w1, i); Valid(r, AsleepSince(w1), w2) && (Halted(w2) || IsConcluded(w2.core))
    ensures var log := Run(r, w, inputs + [i] + later).log; NeverBegins(log, |w1.log|, |log|, w1.core.stack[at].id)
  {
    hide Dealt, Run, Step, Leads, Legal, After, Sound, IsInitial, Unmoved, IsConcluded, NobodyWakes, NeverBegins;
    var p, w2, all := w1.core.stack[at], Step(r, w1, i), inputs + [i] + later;
    RunsOn(r, w, inputs, i, later);
    Sleeper(r, w, inputs, w1, at, f, w2, all);
    var log := Run(r, w, all).log;
    if Halted(w2) {
      SleepsThrough(r, w.core, log, |w1.log|, |w2.log|, p, f);
    } else {
      RunLegal(r, w, inputs + [i]);
      assert log[..|w2.log|] == w2.log;
      NeverAfterTheEnd(r, w.core, log, |w1.log|, |w2.log|, p, f);
    }
  }

  lemma WokenAt(r: Rules, w: World, f: FrameId, slots: seq<Slot>, log: seq<Move>)
    requires Enabled(r, w.core, Wake(f, slots)) && Do(r, w, Wake(f, slots)).log <= log
    ensures w.log <= log && |w.log| < |log| && log[|w.log|] == Wake(f, slots)
  {
    assert log[|w.log|] == Do(r, w, Wake(f, slots)).log[|w.log|];
  }

  /** A waiter's next step, from the entry that woke it on. */
  lemma WokenSteps(
    r: Rules, w: World, inputs: seq<Input>, i: Input, later: seq<Input>, w1: World, at: nat, f: FrameId, slots: seq<Slot>,
    w2: World, k: nat)
    requires Dealt(w) && w.core.mode.Resting? && w1 == Run(r, w, inputs)
    requires at < |w1.core.stack| && WaitsOn(w1.core.stack[at], f)
    requires Valid(r, AsleepSince(w1), w2) && WakesThen(r, w2, f, slots, Step(r, w1, i))
    requires var log := Run(r, w, inputs + [i] + later).log;
      |w1.log| <= k < |log| && log[k] == Begin(w1.core.stack[at].id) && NeverBegins(log, |w1.log|, k, w1.core.stack[at].id)
    ensures var log, p := Run(r, w, inputs + [i] + later).log, w1.core.stack[at];
      && |w2.log| < k && log[|w2.log|] == Wake(f, slots) && After(r, w.core, log[..k]).stack != []
      && Top(After(r, w.core, log[..k]).stack) == p.(pausedOn := None, ctx := Written(p.ctx, slots))
  {
    hide Dealt, Run, Step, Leads, Legal, After, Sound, IsInitial, Unmoved, Written, NobodyWakes, NeverBegins;
    var p, w3, all := w1.core.stack[at], Do(r, w2, Wake(f, slots)), inputs + [i] + later;
    RunOn(r, w, inputs, i, later, Since(w3));
    Onward(r, w3, Run(r, w, all));
    WokenAt(r, w2, f, slots, Run(r, w, all).log);
    hide Apply, Enabled;
    Sleeper(r, w, inputs, w1, at, f, w2, all);
    StepsAsWoken(r, w.core, Run(r, w, all).log, |w1.log|, |w2.log|, k, p, f, slots);
  }

  // ---------------------------------------------------------------------------
  // What an outcome hands on
  // ---------------------------------------------------------------------------

  lemma OutcomeWakes(r: Rules, q: Origin, w: World, f: FrameId, win: Window, v: Verdict) returns (woken: Option<World>)
    requires Valid(r, q, w) && q.span.AnyAsleep? && w.core.mode.Resting? && !win.kind.Choice? && Answers(win.kind, v)
    ensures var slots := if v.Rolled? then [Slot("finalRoll", Number(v.roll))] else [];
      var w' := SettleClosed(r, w, f, win, v);
      match woken
      case Some(w1) => Valid(r, q, w1) && WakesThen(r, w1, f, slots, w')
      case None => Valid(r, q, w') && (Halted(w') || IsConcluded(w'.core))
  {
    hide Leads, SettleModifier, SettleAttack, SettleChallenge, AnnounceResolved, WakesThen, IsConcluded;
    match (win.kind, v)
    case (Modifier(_, _), Rolled(roll, seed)) =>
      SettleModifierLegal(r, q, w, f, win, roll, seed);
      woken := LastWordWakes(r, q, SettleModifier(r, w, f, win, roll, seed), f, [Slot(CTX_FINAL_ROLL, Number(roll))], None);
    case (Attack(_), Rolled(roll, _)) =>
      SettleAttackLegal(r, q, w, f, win, roll);
      woken := LastWordWakes(r, q, SettleAttack(r, w, f, win, roll), f, [Slot(CTX_FINAL_ROLL, Number(roll))], None);
    case (Challenge(card), Contest(held, defended)) =>
      SettleChallengeLegal(r, q, w, f, win, held, defended);
      woken := LastWordWakes(r, q, SettleChallenge(r, w, f, win, held, defended), f, [], Some(card));
  }

  lemma ToldAsleep(r: Rules, w: World, f: FrameId, index: nat, win: Window)
    requires w.core.mode.Resting? && IsUp(w.core.view, f, index)
    ensures Valid(r, AsleepSince(w), Told(r, w, f, index, win, false))
  {
    hide Leads, Announce;
    var e := Plain(WindowClosed, win.respondent, SubjectCard(win));
    AsleepItself(r, w);
    DoKeepsValid(r, AsleepSince(w), w, CloseWindow(f, index, []));
    AnnounceLegal(r, AsleepSince(w), Do(r, w, CloseWindow(f, index, [])), e);
  }

  /** It is the pipeline's next step after the entry. */
  ghost predicate StepsNext(log: seq<Move>, from: nat, k: nat, pipe: nat) {
    from <= k < |log| && log[k] == Begin(pipe) && NeverBegins(log, from, k, pipe)
  }

  lemma OutcomeReaches(
    r: Rules, w: World, inputs: seq<Input>, f: FrameId, index: nat, v: Verdict, later: seq<Input>, w1: World, at: nat, k: nat)
    requires Dealt(w) && w1 == Run(r, w, inputs) && Settles(w1, f, index, v) && !v.Picked? && !IsConcluded(w1.core)
    requires at < |w1.core.stack| && WaitsOn(w1.core.stack[at], f)
    requires StepsNext(Run(r, w, inputs + [Settle(f, index, v)] + later).log, |w1.log|, k, w1.core.stack[at].id)
    ensures var log, p := Run(r, w, inputs + [Settle(f, index, v)] + later).log, w1.core.stack[at];
      var slots := if v.Rolled? then [Slot("finalRoll", Number(v.roll))] else [];
      && After(r, w.core, log[..k]).stack != []
      && Top(After(r, w.core, log[..k]).stack) == p.(pausedOn := None, ctx := Written(p.ctx, slots))
  {
    DealtIsInitial(w);
    var win, i := WindowAt(w1.core.view, f, index), Settle(f, index, v);
    OutcomeStep(r, w1, f, index, v);
    ToldAsleep(r, w1, f, index, win);
    hide Dealt, Run, Step, Leads, Legal, After, Told, SettleClosed, WakesThen, IsConcluded, Written, IsInitial, NeverBegins;
    var woken := OutcomeWakes(r, AsleepSince(w1), Told(r, w1, f, index, win, false), f, win, v);
    SomeStep(Run(r, w, inputs + [i] + later).log, |w1.log|, k, w1.core.stack[at].id);
    if woken.None? { NeverWoken(r, w, inputs, i, later, w1, at, f); }
    assert woken.Some?;
    var slots := if v.Rolled? then [Slot("finalRoll", Number(v.roll))] else [];
    WokenSteps(r, w, inputs, i, later, w1, at, f, slots, woken.value, k);
  }

  lemma SomeStep(log: seq<Move>, from: nat, k: nat, pipe: nat)
    requires StepsNext(log, from, k, pipe)
    ensures !NeverBegins(log, from, |log|, pipe)
  {
  }

  /**
   * What was rolled reaches the rule that waits for it, in any run of a game still
   * played: whoever waits on the frame of a hero roll or an attack takes its next
   * step, whenever that is, with the final roll in its context and otherwise as it
   * was when it went to sleep.
   */
  lemma FinalRollReachesTheWaiter(
    r: Rules, w: World, inputs: seq<Input>, f: FrameId, index: nat, roll: int, seed: Ctx, later: seq<Input>,
    w1: World, at: nat, k: nat)
    requires Dealt(w) && w1 == Run(r, w, inputs) && Settles(w1, f, index, Rolled(roll, seed)) && !IsConcluded(w1.core)
    requires at < |w1.core.stack| && w1.core.stack[at].pausedOn == Some(f)
    requires StepsNext(Run(r, w, inputs + [Settle(f, index, Rolled(roll, seed))] + later).log, |w1.log|, k, w1.core.stack[at].id)
    ensures var c := After(r, w.core, Run(r, w, inputs + [Settle(f, index, Rolled(roll, seed))] + later).log[..k]);
      var p := w1.core.stack[at];
      c.stack != [] && Top(c.stack) == p.(pausedOn := None, ctx := p.ctx["finalRoll" := Number(roll)])
  {
    hide Dealt, Run, Settles, After, IsConcluded, StepsNext;
    OutcomeReaches(r, w, inputs, f, index, Rolled(roll, seed), later, w1, at, k);
    var slots := [Slot("finalRoll", Number(roll))];
    assert slots[..0] == [];
    assert Written(w1.core.stack[at].ctx, slots) == w1.core.stack[at].ctx["finalRoll" := Number(roll)];
  }

  /** A contest hands nothing on: whoever waits for it goes on exactly as it was. */
  lemma ContestReachesTheWaiter(
    r: Rules, w: World, inputs: seq<Input>, f: FrameId, index: nat, held: bool, defended: bool, later: seq<Input>,
    w1: World, at: nat, k: nat)
    requires Dealt(w) && w1 == Run(r, w, inputs) && Settles(w1, f, index, Contest(held, defended)) && !IsConcluded(w1.core)
    requires at < |w1.core.stack| && w1.core.stack[at].pausedOn == Some(f)
    requires StepsNext(Run(r, w, inputs + [Settle(f, index, Contest(held, defended))] + later).log, |w1.log|, k, w1.core.stack[at].id)
    ensures var c := After(r, w.core, Run(r, w, inputs + [Settle(f, index, Contest(held, defended))] + later).log[..k]);
      c.stack != [] && Top(c.stack) == w1.core.stack[at].(pausedOn := None)
  {
    hide Dealt, Run, Settles, After, IsConcluded, StepsNext;
    OutcomeReaches(r, w, inputs, f, index, Contest(held, defended), later, w1, at, k);
  }

  // ---------------------------------------------------------------------------
  // The last word
  // ---------------------------------------------------------------------------

  /** What an outcome's frame says last: the final roll, or the card that was contested. */
  function LastWord(f: FrameId, win: Window, v: Verdict): Event {
    Event(FrameResolved, "", if win.kind.Challenge? then Some(win.kind.card) else None, None, None, map[], f,
      if v.Rolled? then [Slot("finalRoll", Number(v.roll))] else [])
  }

  lemma Speaks(r: Rules, o: Origin, w: World, f: FrameId, slots: seq<Slot>, card: Option<Id>) returns (k: nat)
    requires Valid(r, o, w) && w.core.mode.Resting? && o.span.AnyMoves?
    requires !Halted(AnnounceResolved(r, w, f, slots, card))
    ensures |o.past| <= k < |AnnounceResolved(r, w, f, slots, card).log|
    ensures AnnounceResolved(r, w, f, slots, card).log[k] == Hear(Resolved(f, slots, card))
  {
    hide AnnounceResolved, Legal, After, Spoken, Owing, Fits;
    if Halted(w) { HaltedResolves(r, w, f, slots, card); }
    LastWordFirst(r, w, f, slots, card);
    MayHearAny(r, w, Resolved(f, slots, card));
    var w1, w' := Do(r, w, Hear(Resolved(f, slots, card))), AnnounceResolved(r, w, f, slots, card);
    Onward(r, w1, w');
    k := |w.log|;
    assert w'.log[k] == w1.log[k];
  }

  /** Every outcome ends with its frame's last word, unless the engine stops on the way. */
  lemma OutcomeSpeaks(r: Rules, w: World, inputs: seq<Input>, f: FrameId, index: nat, v: Verdict, w1: World) returns (k: nat)
    requires Dealt(w) && w1 == Run(r, w, inputs) && Settles(w1, f, index, v) && !v.Picked?
    requires !Halted(Run(r, w, inputs + [Settle(f, index, v)]))
    ensures var log := Run(r, w, inputs + [Settle(f, index, v)]).log;
      |w1.log| <= k < |log| && log[k] == Hear(LastWord(f, WindowAt(w1.core.view, f, index), v))
  {
    DealtIsInitial(w);
    var win := WindowAt(w1.core.view, f, index);
    OutcomeStep(r, w1, f, index, v);
    hide Dealt, Run, Leads, Told, IsInitial, Step;
    RunOneMore(r, w, inputs, Settle(f, index, v));
    SinceItself(r, w1);
    var o, w2 := Since(w1), Told(r, w1, f, index, win, false);
    ToldLegal(r, o, w1, f, index, win);
    k := ClosedSpeaks(r, o, w2, f, win, v);
  }

  lemma ToldLegal(r: Rules, o: Origin, w: World, f: FrameId, index: nat, win: Window)
    requires Valid(r, o, w) && o.span.AnyMoves? && w.core.mode.Resting? && IsUp(w.core.view, f, index)
    ensures Valid(r, o, Told(r, w, f, index, win, false))
  {
    hide Leads, Announce;
    DoKeepsValid(r, o, w, CloseWindow(f, index, []));
    AnnounceLegal(r, o, Do(r, w, CloseWindow(f, index, [])), Plain(WindowClosed, win.respondent, SubjectCard(win)));
  }

  lemma ClosedSpeaks(r: Rules, o: Origin, w: World, f: FrameId, win: Window, v: Verdict) returns (k: nat)
    requires Valid(r, o, w) && o.span.AnyMoves? && w.core.mode.Resting? && !win.kind.Choice? && Answers(win.kind, v)
    requires !Halted(SettleClosed(r, w, f, win, v))
    ensures |o.past| <= k < |SettleClosed(r, w, f, win, v).log|
    ensures SettleClosed(r, w, f, win, v).log[k] == Hear(LastWord(f, win, v))
  {
    hide Leads, SettleModifier, SettleAttack, SettleChallenge, AnnounceResolved;
    match (win.kind, v)
    case (Modifier(_, _), Rolled(roll, seed)) =>
      SettleModifierLegal(r, o, w, f, win, roll, seed);
      k := Speaks(r, o, SettleModifier(r, w, f, win, roll, seed), f, [Slot(CTX_FINAL_ROLL, Number(roll))], None);
    case (Attack(_), Rolled(roll, _)) =>
      SettleAttackLegal(r, o, w, f, win, roll);
      k := Speaks(r, o, SettleAttack(r, w, f, win, roll), f, [Slot(CTX_FINAL_ROLL, Number(roll))], None);
    case (Challenge(card), Contest(held, defended)) =>
      SettleChallengeLegal(r, o, w, f, win, held, defended);
      k := Speaks(r, o, SettleChallenge(r, w, f, win, held, defended), f, [], Some(card));
  }

  // ---------------------------------------------------------------------------
  // What questions hand on
  // ---------------------------------------------------------------------------

  /** What the window's question is answered with, by this entry or by an earlier one. */
  function Answer(windows: seq<Window>, index: nat, slots: seq<Slot>, j: nat): seq<Slot>
    requires j < |windows|
  {
    if !windows[j].kind.Choice? then [] else if j == index then slots else windows[j].answer
  }

  /** The answer does not write the key, from its `n`-th write on. */
  ghost predicate Spares(answer: seq<Slot>, n: nat, key: string) {
    forall i | n <= i < |answer| :: answer[i].key != key
  }

  /** No question from the `j`-th on, in the order they were opened, writes the key. */
  ghost predicate AllSpare(windows: seq<Window>, index: nat, slots: seq<Slot>, j: nat, key: string) {
    forall i | j <= i < |windows| :: Spares(Answer(windows, index, slots, i), 0, key)
  }

  /** Every write of every answer, the last one of a key winning, and all else as it was. */
  ghost predicate HasAnswers(ctx: Ctx, before: Ctx, windows: seq<Window>, index: nat, slots: seq<Slot>) {
    && (forall j, n | 0 <= j < |windows| && 0 <= n < |Answer(windows, index, slots, j)| ::
          var s := Answer(windows, index, slots, j)[n];
          Spares(Answer(windows, index, slots, j), n + 1, s.key) && AllSpare(windows, index, slots, j + 1, s.key)
          ==> s.key in ctx && ctx[s.key] == s.value)
    && (forall key | AllSpare(windows, index, slots, 0, key) ::
          (key in ctx <==> key in before) && (key in before ==> ctx[key] == before[key]))
  }

  /** The same of a list of windows that hold their answers. */
  ghost predicate NoneWrites(windows: seq<Window>, j: nat, key: string) {
    forall i | j <= i < |windows| && windows[i].kind.Choice? :: Spares(windows[i].answer, 0, key)
  }

  lemma {:induction false} NotInTheList(windows: seq<Window>, key: string)
    requires NoneWrites(windows, 0, key)
    ensures Spares(AnswersOf(windows), 0, key)
  {
    if windows != [] {
      var own, rest := if windows[0].kind.Choice? then windows[0].answer else [], windows[1..];
      assert forall i | 0 <= i < |rest| :: rest[i] == windows[i + 1];
      NotInTheList(rest, key);
      assert forall i | |own| <= i < |AnswersOf(windows)| :: AnswersOf(windows)[i] == AnswersOf(rest)[i - |own|];
    }
  }

  lemma {:induction false} LastInTheList(windows: seq<Window>, j: nat, n: nat) returns (i: nat)
    requires j < |windows| && windows[j].kind.Choice? && n < |windows[j].answer|
    requires Spares(windows[j].answer, n + 1, windows[j].answer[n].key) && NoneWrites(windows, j + 1, windows[j].answer[n].key)
    ensures i < |AnswersOf(windows)| && AnswersOf(windows)[i] == windows[j].answer[n]
    ensures Spares(AnswersOf(windows), i + 1, windows[j].answer[n].key)
  {
    var own, rest := if windows[0].kind.Choice? then windows[0].answer else [], windows[1..];
    assert forall k | 0 <= k < |rest| :: rest[k] == windows[k + 1];
    assert forall k | |own| <= k < |AnswersOf(windows)| :: AnswersOf(windows)[k] == AnswersOf(rest)[k - |own|];
    if j == 0 {
      i := n;
      NotInTheList(rest, own[n].key);
    } else {
      var at := LastInTheList(rest, j - 1, n);
      i := |own| + at;
    }
  }

  lemma {:induction false} WrittenSpares(ctx: Ctx, slots: seq<Slot>, key: string)
    requires Spares(slots, 0, key)
    ensures key in Written(ctx, slots) <==> key in ctx
    ensures key in ctx ==> Written(ctx, slots)[key] == ctx[key]
  {
    if slots != [] { WrittenSpares(ctx, slots[..|slots| - 1], key); }
  }

  lemma ListHasAnswers(ctx: Ctx, windows: seq<Window>, index: nat, slots: seq<Slot>, closed: seq<Window>)
    requires |closed| == |windows|
    requires forall j | 0 <= j < |windows| :: closed[j].kind == windows[j].kind
    requires forall j | 0 <= j < |windows| && windows[j].kind.Choice? :: closed[j].answer == Answer(windows, index, slots, j)
    ensures HasAnswers(Written(ctx, AnswersOf(closed)), ctx, windows, index, slots)
  {
    hide AnswersOf, Written;
    var all := AnswersOf(closed);
    forall j, n | 0 <= j < |windows| && 0 <= n < |Answer(windows, index, slots, j)|
      && Spares(Answer(windows, index, slots, j), n + 1, Answer(windows, index, slots, j)[n].key)
      && AllSpare(windows, index, slots, j + 1, Answer(windows, index, slots, j)[n].key)
      ensures var s := Answer(windows, index, slots, j)[n]; s.key in Written(ctx, all) && Written(ctx, all)[s.key] == s.value
    {
      var key := Answer(windows, index, slots, j)[n].key;
      SparedInClosed(windows, index, slots, closed, j + 1, key);
      var i := LastInTheList(closed, j, n);
      WrittenHolds(ctx, all, i);
    }
    forall key | AllSpare(windows, index, slots, 0, key)
      ensures (key in Written(ctx, all) <==> key in ctx) && (key in ctx ==> Written(ctx, all)[key] == ctx[key])
    {
      SparedInClosed(windows, index, slots, closed, 0, key);
      NotInTheList(closed, key);
      WrittenSpares(ctx, all, key);
    }
  }

  lemma SparedInClosed(windows: seq<Window>, index: nat, slots: seq<Slot>, closed: seq<Window>, j: nat, key: string)
    requires |closed| == |windows| && AllSpare(windows, index, slots, j, key)
    requires forall i | 0 <= i < |windows| :: closed[i].kind == windows[i].kind
    requires forall i | 0 <= i < |windows| && windows[i].kind.Choice? :: closed[i].answer == Answer(windows, index, slots, i)
    ensures NoneWrites(closed, j, key)
  {
    forall i | j <= i < |closed| && closed[i].kind.Choice? ensures Spares(closed[i].answer, 0, key) {
      assert Spares(Answer(windows, index, slots, i), 0, key);
    }
  }

  /** The last question answered: its frame is released, and its last word carries what all of them were answered with. */
  lemma ChoiceWakes(r: Rules, w: World, f: FrameId, index: nat, win: Window, slots: seq<Slot>, outcome: seq<StepEvent>)
    returns (woken: Option<World>, answers: seq<Slot>)
    requires w.core.mode.Resting? && !Halted(w) && IsUp(w.core.view, f, index) && HasFrame(w.core.view, f)
    requires index < |FrameOf(w.core.view.frames, f).windows| && !AsksMore(w.core.view, f, index)
    ensures answers == AnswersOf(Closed(FrameOf(w.core.view.frames, f), index, slots).windows)
    ensures var w' := SettleChoice(r, w, f, index, win, slots, outcome);
      match woken
      case Some(w1) => Valid(r, AsleepSince(w), w1) && WakesThen(r, w1, f, answers, w')
      case None => Valid(r, AsleepSince(w), w') && (Halted(w') || IsConcluded(w'.core))
  {
    hide Leads, Announce, AnnounceAll, AnnounceResolved, Apply, HasFrame, IsAsking, AnswersOf, FrameOf, Closed, AsksMore, WakesThen;
    var q, close, e := AsleepSince(w), CloseWindow(f, index, slots), Plain(WindowClosed, win.respondent, None);
    AsleepItself(r, w);
    CloseRests(r, w, f, index, slots);
    AsksMoreIsAsking(r, w.core, f, index, slots);
    ClosedFrame(r, w.core, f, index, slots);
    DoKeepsValid(r, q, w, close);
    var w1 := Do(r, w, close);
    MayRelease(r, w1, f);
    SettledRests(r, w1, f);
    DoKeepsValid(r, q, w1, Release(f));
    var w2 := Do(r, w1, Release(f));
    AnnounceLegal(r, q, w2, e);
    AnnounceAllLegal(r, q, Announce(r, w2, e), outcome);
    answers := AnswersOf(FrameOf(w1.core.view.frames, f).windows);
    woken := LastWordWakes(r, q, AnnounceAll(r, Announce(r, w2, e), outcome), f, answers, None);
  }

  lemma ClosedHolds(f: Frame, index: nat, slots: seq<Slot>)
    requires index < |f.windows|
    ensures var closed := Closed(f, index, slots).windows;
      && |closed| == |f.windows|
      && (forall j | 0 <= j < |closed| :: closed[j].kind == f.windows[j].kind)
      && forall j | 0 <= j < |closed| && f.windows[j].kind.Choice? :: closed[j].answer == Answer(f.windows, index, slots, j)
  {
  }

  /**
   * What was answered reaches the rule that waits for it, in any run of a game
   * still played: when the last of a frame's questions is answered, whoever waits
   * on the frame takes its next step, whenever that is, with the answers to all of
   * them in its context, the last write of a key winning, and otherwise as it was.
   */
  lemma AnswersReachTheWaiter(
    r: Rules, w: World, inputs: seq<Input>, f: FrameId, index: nat, slots: seq<Slot>, outcome: seq<StepEvent>, later: seq<Input>,
    w1: World, at: nat, k: nat)
    requires Dealt(w) && w1 == Run(r, w, inputs) && Settles(w1, f, index, Picked(slots, outcome)) && !IsConcluded(w1.core)
    requires !AsksMore(w1.core.view, f, index)
    requires at < |w1.core.stack| && w1.core.stack[at].pausedOn == Some(f)
    requires StepsNext(Run(r, w, inputs + [Settle(f, index, Picked(slots, outcome))] + later).log, |w1.log|, k, w1.core.stack[at].id)
    ensures var c := After(r, w.core, Run(r, w, inputs + [Settle(f, index, Picked(slots, outcome))] + later).log[..k]);
      var p := w1.core.stack[at];
      && c.stack != [] && Top(c.stack) == p.(pausedOn := None, ctx := Top(c.stack).ctx)
      && HasAnswers(Top(c.stack).ctx, p.ctx, FrameOf(w1.core.view.frames, f).windows, index, slots)
  {
    DealtIsInitial(w);
    var frame, i := FrameOf(w1.core.view.frames, f), Settle(f, index, Picked(slots, outcome));
    ChoiceStep(r, w1, f, index, slots, outcome);
    hide Dealt, Run, Step, SettleChoice, Leads, Legal, After, WakesThen, IsConcluded, Written, IsInitial, NeverBegins, AnswersOf;
    hide Closed, AsksMore, HasAnswers, FrameOf;
    var woken, answers := ChoiceWakes(r, w1, f, index, WindowAt(w1.core.view, f, index), slots, outcome);
    SomeStep(Run(r, w, inputs + [i] + later).log, |w1.log|, k, w1.core.stack[at].id);
    if woken.None? { NeverWoken(r, w, inputs, i, later, w1, at, f); }
    assert woken.Some?;
    WokenSteps(r, w, inputs, i, later, w1, at, f, answers, woken.value, k);
    ClosedHolds(frame, index, slots);
    ListHasAnswers(w1.core.stack[at].ctx, frame.windows, index, slots, Closed(frame, index, slots).windows);
  }

  // ---------------------------------------------------------------------------
  // Answers are kept
  // ---------------------------------------------------------------------------

  /** While the frame stands, this is its `j`-th window. */
  ghost predicate HoldsWindow(c: Core, f: FrameId, j: nat, win: Window) {
    && f < c.nextFrame
    && forall x | x in c.view.frames && x.id == f :: j < |x.windows| && x.windows[j] == win
  }

  lemma HoldsOneMove(r: Rules, c: Core, m: Move, f: FrameId, j: nat, win: Window)
    requires Enabled(r, c, m) && HoldsWindow(c, f, j, win) && !win.open
    ensures HoldsWindow(Apply(r, c, m), f, j, win)
  {
    var c' := Apply(r, c, m);
    if m.AddWindow? || m.CloseWindow? {
      forall i | 0 <= i < |c'.view.frames| && c'.view.frames[i].id == f
        ensures j < |c'.view.frames[i].windows| && c'.view.frames[i].windows[j] == win
      {
        assert c.view.frames[i] in c.view.frames;
      }
    } else if m.Release? || m.Restore? {
      assert forall x | x in c'.view.frames :: x in c.view.frames;
    } else if !TouchesFrames(m) {
      FramesKept(r, c, m);
    }
  }

  lemma {:induction false} StaysHeld(r: Rules, o: Core, log: seq<Move>, a: nat, b: nat, f: FrameId, j: nat, win: Window)
    requires Legal(r, o, log) && a <= b <= |log| && HoldsWindow(After(r, o, log[..a]), f, j, win) && !win.open
    ensures HoldsWindow(After(r, o, log[..b]), f, j, win)
    decreases b
  {
    hide HoldsWindow, Legal, After;
    if a < b {
      StaysHeld(r, o, log, a, b - 1, f, j, win);
      OneFurther(r, o, log, b - 1);
      HoldsOneMove(r, After(r, o, log[..b - 1]), log[b - 1], f, j, win);
      hide Enabled, Apply;
    }
  }

  lemma ClosedIsHeld(r: Rules, c: Core, f: FrameId, j: nat, slots: seq<Slot>)
    requires Sound(c) && Enabled(r, c, CloseWindow(f, j, slots)) && HasFrame(c.view, f) && j < |FrameOf(c.view.frames, f).windows|
    ensures HoldsWindow(Apply(r, c, CloseWindow(f, j, slots)), f, j,
      FrameOf(c.view.frames, f).windows[j].(open := false, answer := slots))
  {
    OpenIsNumbered(c, f);
    var frames, frames' := c.view.frames, Apply(r, c, CloseWindow(f, j, slots)).view.frames;
    assert FramesOrdered(frames, c.nextFrame, c.nextPipe);
    hide Sound, Enabled;
    forall i | 0 <= i < |frames'| && frames'[i].id == f ensures frames'[i] == Closed(FrameOf(frames, f), j, slots) {
      assert frames[i].id == f;
      SameFrame(frames, FrameOf(frames, f), i, c.nextFrame, c.nextPipe);
    }
  }

  /**
   * Over every run: what a question was answered with is what its window holds,
   * closed, for as long as its frame stands; so the answers that reach the waiter
   * are those of the entries.
   */
  lemma AnswerIsKept(
    r: Rules, w: World, inputs: seq<Input>, f: FrameId, j: nat, slots: seq<Slot>, outcome: seq<StepEvent>, later: seq<Input>,
    w1: World)
    requires Dealt(w) && w1 == Run(r, w, inputs) && Settles(w1, f, j, Picked(slots, outcome))
    ensures var v := Run(r, w, inputs + [Settle(f, j, Picked(slots, outcome))] + later).core.view;
      HasFrame(v, f) ==>
        && j < |FrameOf(v.frames, f).windows|
        && WindowAt(v, f, j) == WindowAt(w1.core.view, f, j).(open := false, answer := slots)
  {
    DealtIsInitial(w);
    SettlesOrNothing(r, w1, f, j, Picked(slots, outcome));
    hide Run, Step, Leads, Legal, After, Sound, IsInitial, Settles, HasOpenFramesAfter;
    var i := Settle(f, j, Picked(slots, outcome));
    var w', all := Run(r, w, inputs + [i] + later), inputs + [i] + later;
    RunsOn(r, w, inputs, i, later);
    RunLegal(r, w, inputs);
    RunLegal(r, w, all);
    CloseIsLogged(w1.log, CloseWindow(f, j, slots), Step(r, w1, i).log, w'.log);
    HeldSince(r, w.core, w'.log, |w1.log|, f, j, slots, w1.core, w'.core);
  }

  lemma HeldSince(r: Rules, o: Core, log: seq<Move>, n: nat, f: FrameId, j: nat, slots: seq<Slot>, c: Core, c': Core)
    requires IsInitial(o) && Legal(r, o, log) && n < |log| && log[n] == CloseWindow(f, j, slots) && Sound(c)
    requires c == After(r, o, log[..n]) && c' == After(r, o, log) && HasFrame(c.view, f) && j < |FrameOf(c.view.frames, f).windows|
    ensures HasFrame(c'.view, f) ==>
      && j < |FrameOf(c'.view.frames, f).windows|
      && WindowAt(c'.view, f, j) == WindowAt(c.view, f, j).(open := false, answer := slots)
  {
    hide Legal, After, Sound, Apply, Enabled, HoldsWindow, IsInitial, FrameOf, HasFrame;
    OneFurther(r, o, log, n);
    ClosedIsHeld(r, c, f, j, slots);
    var win := WindowAt(c.view, f, j).(open := false, answer := slots);
    StaysHeld(r, o, log, n + 1, |log|, f, j, win);
    assert log[..|log|] == log;
    if HasFrame(c'.view, f) { HeldIsThere(c', f, j, win); }
  }

  lemma CloseIsLogged(log: seq<Move>, m: Move, longer: seq<Move>, longest: seq<Move>)
    requires log + [m] <= longer <= longest
    ensures |log| < |longest| && longest[|log|] == m && longest[..|log|] == log
  {
    assert longest[|log|] == (log + [m])[|log|];
  }

  lemma HeldIsThere(c: Core, f: FrameId, j: nat, win: Window)
    requires HoldsWindow(c, f, j, win) && HasFrame(c.view, f)
    ensures j < |FrameOf(c.view.frames, f).windows| && WindowAt(c.view, f, j) == win
  {
  }
}
