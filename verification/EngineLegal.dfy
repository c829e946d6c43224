/** Everything the schedulers do is a sequence of enabled moves. */
module EngineLegal {
  import opened Board
  import opened Abilities
  import opened Machine
  import opened Engine
  import opened Requests

  lemma HearClockLegal(r: Rules, o: Origin, w: World, e: Event)
    requires Valid(r, o, w)
    requires e.kind.FrameResolved? ==> w.core.mode.Resting?
    ensures Valid(r, o, HearClock(r, w, e))
  {
    hide Leads;
    if Enabled(r, w.core, Pause) { DoKeepsValid(r, o, w, Pause); }
    if Enabled(r, w.core, Resume) { DoKeepsValid(r, o, w, Resume); }
  }

  lemma SyncClockLegal(r: Rules, o: Origin, w: World)
    requires Valid(r, o, w) && w.core.mode.Resting?
    ensures Valid(r, o, SyncClock(r, w))
  {
    hide Leads;
    if Enabled(r, w.core, Pause) { DoKeepsValid(r, o, w, Pause); }
    if Enabled(r, w.core, Resume) { DoKeepsValid(r, o, w, Resume); }
  }

  lemma ConcludeLegal(r: Rules, o: Origin, w: World)
    requires Valid(r, o, w)
    ensures Valid(r, o, ConcludeIfDue(r, w))
  {
    hide Leads, Winner, HasPendingOutcome;
    var winner := Winner(r, w.core.view);
    if !IsConcluded(w.core) && !HasPendingOutcome(w.core.view) && winner.Some? {
      DoKeepsValid(r, o, w, Conclude(winner.value));
      HearKeepsValid(r, o, Do(r, w, Conclude(winner.value)), Plain(GameEnded, winner.value, None));
    }
  }

  lemma {:induction false} PushAllLegal(r: Rules, o: Origin, w: World, starts: seq<Start>)
    requires Valid(r, o, w)
    ensures Valid(r, o, PushAll(r, w, starts))
    decreases |starts|
  {
    hide Leads;
    if starts != [] {
      var m := Push(starts[|starts| - 1]);
      DoKeepsValid(r, o, w, m);
      PushAllLegal(r, o, Do(r, w, m), starts[..|starts| - 1]);
    }
  }

  lemma {:induction false} AnnounceLegal(r: Rules, o: Origin, w: World, e: Event)
    requires if IsOwed(e.kind) then MayHear(r, o, w, e) && !Halted(w) else Valid(r, o, w)
    requires Reserved(e.kind) ==> w.core.mode.Resting?
    requires e.kind.FrameResolved? ==> !Sleeps(o.span)
    ensures Valid(r, o, Announce(r, w, e))
    decreases w.gas, 1, Effects(r, w), 2, 1
  {
    hide Leads, Listen;
    if !Halted(w) {
      HearKeepsValid(r, o, w, e);
      ListenLegal(r, o, Do(r, w, Hear(e)), e);
    }
  }

  lemma {:induction false} ListenLegal(r: Rules, o: Origin, w: World, e: Event)
    requires Valid(r, o, w)
    requires Reserved(e.kind) ==> w.core.mode.Resting?
    requires e.kind.FrameResolved? ==> !Sleeps(o.span)
    ensures Valid(r, o, Listen(r, w, e))
    decreases w.gas, 1, Effects(r, w), 2, 0
  {
    hide Leads;
    HearClockLegal(r, o, w, e);
    HearTaskLegal(r, o, HearClock(r, w, e), e);
    ConcludeLegal(r, o, HearTask(r, HearClock(r, w, e), e));
  }

  /** Whatever the event, what its announcement does is inner: nothing settles, no turn changes hands. */
  lemma AnnounceFollows(r: Rules, w: World, e: Event)
    requires Reserved(e.kind) ==> w.core.mode.Resting?
    ensures Follows(r, w, Announce(r, w, e))
    ensures !e.kind.FrameResolved? ==> forall i | |w.log| <= i < |Announce(r, w, e).log| :: !Announce(r, w, e).log[i].Wake?
  {
    hide Announce, Follows;
    var owed := if IsOwed(e.kind) && !Halted(w) then Some(e) else None;
    var span := if e.kind.FrameResolved? then InnerMoves else InnerAsleep;
    var o := Origin(w.core, w.log, span, owed);
    assert w.log[|w.log|..] == [];
    if Halted(w) && IsOwed(e.kind) { HaltedHears(r, w, e); } else { AnnounceLegal(r, o, w, e); }
    SpanFollows(r, w, span, owed, Announce(r, w, e));
  }

  lemma HaltedHears(r: Rules, w: World, e: Event)
    requires Halted(w) && (Reserved(e.kind) ==> w.core.mode.Resting?)
    ensures Announce(r, w, e) == w
  {
  }

  lemma {:induction false} AnnounceAllLegal(r: Rules, o: Origin, w: World, events: seq<StepEvent>)
    requires Valid(r, o, w)
    ensures Valid(r, o, AnnounceAll(r, w, events))
    decreases w.gas, 1, Effects(r, w), 3, |events|
  {
    hide Leads;
    if events != [] {
      AnnounceLegal(r, o, w, events[0]);
      AnnounceAllLegal(r, o, Announce(r, w, events[0]), events[1..]);
    }
  }

  lemma {:induction false} HearTaskLegal(r: Rules, o: Origin, w: World, e: Event)
    requires Valid(r, o, w)
    requires Reserved(e.kind) ==> w.core.mode.Resting?
    requires e.kind.FrameResolved? ==> !Sleeps(o.span)
    ensures Valid(r, o, HearTask(r, w, e))
    decreases w.gas, 1, Effects(r, w), 1
  {
    hide Leads;
    if !IsConcluded(w.core) {
      ExpireLegal(r, o, w, e);
      var w1 := Expire(r, w, e);
      if !Halted(w1) {
        WakeForLegal(r, o, w1, e);
        var w2 := WakeFor(r, w1, e);
        PushAllLegal(r, o, w2, Started(r, w2.core.view, e));
        var w3 := StartMatching(r, w2, e);
        if w3.core.mode.Resting? { DrainLegal(r, o, w3); }
      }
    }
  }

  lemma {:induction false} ExpireLegal(r: Rules, o: Origin, w: World, e: Event)
    requires Valid(r, o, w)
    ensures Valid(r, o, Expire(r, w, e))
    decreases w.gas, 1, Effects(r, w), 0
  {
    hide Leads;
    SweepShrinks(r, w.core.view, r.players, r.players, e);
    var swept := Sweep(r, w.core.view, r.players, e);
    DoKeepsValid(r, o, w, Edit(swept.cards));
    if swept.expired != [] {
      AnnounceAllLegal(r, o, Do(r, w, Edit(swept.cards)), ExpiredAll(swept.expired));
    }
  }

  lemma WakeForLegal(r: Rules, o: Origin, w: World, e: Event)
    requires Valid(r, o, w)
    requires Reserved(e.kind) ==> w.core.mode.Resting?
    requires e.kind.FrameResolved? ==> !Sleeps(o.span)
    ensures Valid(r, o, WakeFor(r, w, e))
  {
    hide Leads;
    if e.kind.FrameResolved? { DoKeepsValid(r, o, w, Wake(e.frame, e.slots)); }
  }

  lemma {:induction false} DrainLegal(r: Rules, o: Origin, w: World)
    requires Valid(r, o, w) && w.core.mode.Resting?
    ensures Valid(r, o, Drain(r, w))
    decreases w.gas, 1, Effects(r, w), 0, 1
  {
    hide Leads;
    DoKeepsValid(r, o, w, StartLoop);
    LoopLegal(r, o, Do(r, w, StartLoop));
    DoKeepsValid(r, o, Loop(r, Do(r, w, StartLoop)), StopLoop);
  }

  lemma {:induction false} LoopLegal(r: Rules, o: Origin, w: World)
    requires Valid(r, o, w) && w.core.mode.Looping?
    ensures Valid(r, o, Loop(r, w))
    decreases w.gas, 1, Effects(r, w), 0, 0
  {
    hide Leads;
    StillLeads(r, o, w, None, w.gas, OutOfGas);
    if !Halted(w) && Ready(w.core.stack) && w.gas != 0 {
      IterateLegal(r, o, w);
      var n := Iterate(r, w);
      if !n.stop { LoopLegal(r, o, n.world); }
    }
  }

  lemma IterateLegal(r: Rules, o: Origin, w: World)
    requires Valid(r, o, w) && w.core.mode.Looping? && Ready(w.core.stack) && w.gas > 0 && !Halted(w)
    ensures Valid(r, o, Iterate(r, w).world)
    decreases w.gas, 0, 1
  {
    hide Leads, Iterate;
    if Top(w.core.stack).steps == [] { PopLegal(r, o, w); } else { BeginLegal(r, o, w); }
  }

  lemma PopLegal(r: Rules, o: Origin, w: World)
    requires Valid(r, o, w) && w.core.mode.Looping? && Ready(w.core.stack) && w.gas > 0 && !Halted(w)
    requires Top(w.core.stack).steps == []
    ensures Valid(r, o, Iterate(r, w).world)
    decreases w.gas, 0, 0
  {
    hide Leads, Announce, Execute, IsLastOfCard, FinishedIn;
    var top := Top(w.core.stack);
    var spent := w.(gas := w.gas - 1);
    StillLeads(r, o, w, None, w.gas - 1, w.halt);
    var m := Pop(top.id, IsLastOfCard(w.core.stack[..|w.core.stack| - 1], top));
    DoKeepsValid(r, o, spent, m);
    if m.done { AnnounceLegal(r, o, Do(r, spent, m), DoneEvent(top)); }
  }

  lemma BeginLegal(r: Rules, o: Origin, w: World)
    requires Valid(r, o, w) && w.core.mode.Looping? && Ready(w.core.stack) && w.gas > 0 && !Halted(w)
    requires Top(w.core.stack).steps != []
    ensures Valid(r, o, Iterate(r, w).world)
    decreases w.gas, 0, 0
  {
    hide Leads, Announce, Execute, IsLastOfCard, FinishedIn;
    var top := Top(w.core.stack);
    var spent := w.(gas := w.gas - 1);
    StillLeads(r, o, w, None, w.gas - 1, w.halt);
    DoKeepsValid(r, o, spent, Begin(top.id));
    ExecuteTopLegal(r, o, Do(r, spent, Begin(top.id)), top, w.core.nextFrame);
    var n := Iterate(r, w).world;
    StillLeads(r, o, n.(halt := w.halt), None, n.gas, n.halt);
  }

  lemma ExecuteTopLegal(r: Rules, o: Origin, w: World, top: Pipe, since: FrameId)
    requires Valid(r, o, w) && top.steps != [] && w.core.mode == Stepping(top.id, since) && since <= w.core.nextFrame
    ensures var s := Execute(r, w, top.steps[0], 0, top.ctx, None);
      var park := if s.park.Some? && HasFrame(s.world.core.view, s.park.value) then s.park else None;
      var m := Finish(top.id, s.ctx, park);
      Enabled(r, s.world.core, m) && Valid(r, o, Do(r, s.world, m))
    decreases w.gas, 4
  {
    hide Leads;
    ExecuteLegal(r, o, w, top.steps[0], 0, top.ctx, None);
    var s := Execute(r, w, top.steps[0], 0, top.ctx, None);
    var park := if s.park.Some? && HasFrame(s.world.core.view, s.park.value) then s.park else None;
    DoKeepsValid(r, o, s.world, Finish(top.id, s.ctx, park));
  }

  lemma {:induction false} ExecuteLegal(
    r: Rules, o: Origin, w: World, s: Script, i: nat, ctx: Ctx, asked: Option<FrameId>)
    requires Valid(r, o, w)
    ensures Valid(r, o, Execute(r, w, s, i, ctx, asked).world)
    decreases w.gas, 3, s.length - i
  {
    hide Leads, Perform;
    if !Halted(w) && i < s.length {
      var a := s.act(i, ctx, asked, w.core.view);
      if a.Return? {
        DoKeepsValid(r, o, w, Edit(a.cards));
      } else {
        PerformLegal(r, o, w, a);
        ExecuteLegal(r, o, Perform(r, w, a), s, i + 1, a.ctx, if a.Ask? then Some(w.core.nextFrame) else asked);
      }
    }
  }

  lemma PerformLegal(r: Rules, o: Origin, w: World, a: Act)
    requires Valid(r, o, w) && !a.Return?
    ensures Valid(r, o, Perform(r, w, a))
    decreases w.gas, 3, 0, 1
  {
    hide Leads;
    match a
    case Emit(cards, _, e) =>
      DoKeepsValid(r, o, w, Edit(cards));
      AnnounceLegal(r, o, Do(r, w, Edit(cards)), e);
    case Ask(cards, _, plays, asking, more) => OpenAndAskLegal(r, o, w, cards, plays, [asking] + more);
  }

  lemma OpenAndAskLegal(r: Rules, o: Origin, w: World, cards: Cards, plays: seq<Play>, askings: seq<Asking>)
    requires Valid(r, o, w)
    ensures Valid(r, o, OpenAndAsk(r, w, cards, plays, askings))
    decreases w.gas, 3, 0, 0
  {
    hide Leads;
    DoKeepsValid(r, o, w, Edit(cards));
    DoKeepsValid(r, o, Do(r, w, Edit(cards)), Open);
    var w1 := Do(r, Do(r, w, Edit(cards)), Open);
    PlayAllLegal(r, o, w1, plays);
    AskAllLegal(r, o, PlayAll(r, w1, plays), w.core.nextFrame, askings);
  }

  lemma {:induction false} PlayAllLegal(r: Rules, o: Origin, w: World, plays: seq<Play>)
    requires Valid(r, o, w)
    ensures Valid(r, o, PlayAll(r, w, plays))
    decreases w.gas, 2, |plays|
  {
    hide Leads;
    if !Halted(w) && plays != [] {
      var m := Edit(plays[0].edit(w.core.view.table.cards));
      DoKeepsValid(r, o, w, m);
      AnnounceLegal(r, o, Do(r, w, m), plays[0].event);
      PlayAllLegal(r, o, Announce(r, Do(r, w, m), plays[0].event), plays[1..]);
    }
  }

  lemma {:induction false} AskAllLegal(r: Rules, o: Origin, w: World, f: FrameId, askings: seq<Asking>)
    requires Valid(r, o, w)
    ensures Valid(r, o, AskAll(r, w, f, askings))
    decreases w.gas, 2, |askings|
  {
    hide Leads;
    if !Halted(w) && askings != [] && HasFrame(w.core.view, f) {
      AnnounceLegal(r, o, w, askings[0].opening);
      AnnounceAllLegal(r, o, Announce(r, w, askings[0].opening), askings[0].standing);
      var w1 := AnnounceAll(r, Announce(r, w, askings[0].opening), askings[0].standing);
      if !Halted(w1) && HasFrame(w1.core.view, f) {
        DoKeepsValid(r, o, w1, AddWindow(f, WindowOf(askings[0])));
        AskAllLegal(r, o, Do(r, w1, AddWindow(f, WindowOf(askings[0]))), f, askings[1..]);
      }
    }
  }

  // ---------------------------------------------------------------------------
  // Requests
  // ---------------------------------------------------------------------------

  lemma StartTurnForLegal(r: Rules, o: Origin, w: World, player: Id)
    requires Valid(r, o, w) && o.span.AnyMoves? && w.core.mode.Resting? && IsDue(w.core.turn, player)
    requires IsConcluded(w.core) ==> w.core.turn.phase.Opening?
    ensures Valid(r, o, StartTurnFor(r, w, player))
  {
    hide Leads;
    if !Halted(w) && player in r.players {
      DoKeepsValid(r, o, w, StartTurn(player));
      AnnounceLegal(r, o, Do(r, w, StartTurn(player)), Plain(TurnStarted, player, None));
      SyncClockLegal(r, o, Announce(r, Do(r, w, StartTurn(player)), Plain(TurnStarted, player, None)));
    }
  }

  lemma FinishTurnLegal(r: Rules, o: Origin, w: World)
    requires Valid(r, o, w) && o.span.AnyMoves? && Enabled(r, w.core, EndTurn) && !Halted(w)
    ensures Valid(r, o, FinishTurn(r, w))
  {
    hide Leads;
    var e := Plain(TurnEnded, w.core.view.table.current.value, None);
    DoKeepsValid(r, o, w, EndTurn);
    AnnounceLegal(r, o, Do(r, w, EndTurn), e);
    var w1 := Announce(r, Do(r, w, EndTurn), e);
    if w1.core.turn.order != [] && !IsConcluded(w1.core) {
      StartTurnForLegal(r, o, w1, NextSeat(w1.core.turn.order, w1.core.turn.ended));
    }
  }

  lemma {:induction false} DrainQueueLegal(r: Rules, o: Origin, w: World)
    requires Valid(r, o, w) && o.span.AnyMoves? && w.core.mode.Resting?
    ensures Valid(r, o, DrainQueue(r, w))
    decreases |w.core.turn.queue|
  {
    hide Leads, Execute, CanExecute, Paid, FinishTurn;
    var c := w.core;
    if !Halted(w) && c.view.table.current.Some? && !IsBusy(c) {
      if c.turn.queue == [] {
        if Enabled(r, c, EndTurn) { FinishTurnLegal(r, o, w); }
      } else {
        var run := CanExecute(c.view, c.turn.queue[0]);
        DoKeepsValid(r, o, w, Take(run));
        var w1 := Do(r, w, Take(run));
        if !run {
          DrainQueueLegal(r, o, w1);
        } else {
          ExecuteLegal(r, o, w1, c.turn.queue[0].script, 0, map[], None);
          DrainQueueLegal(r, o, Execute(r, w1, c.turn.queue[0].script, 0, map[], None).world);
        }
      }
    }
  }

  lemma EnqueueLegal(r: Rules, o: Origin, w: World, a: Action)
    requires Valid(r, o, w) && o.span.AnyMoves? && w.core.mode.Resting?
    ensures Valid(r, o, Enqueue(r, w, a))
  {
    hide Leads;
    if ReplyTo(w, a).Accepted? {
      DoKeepsValid(r, o, w, Accept(a));
      DrainQueueLegal(r, o, Do(r, w, Accept(a)));
    }
  }

  lemma LapseLegal(r: Rules, o: Origin, w: World, timer: nat)
    requires Valid(r, o, w) && o.span.AnyMoves? && Enabled(r, w.core, Fire(timer))
    ensures Valid(r, o, Lapse(r, w, timer))
  {
    hide Leads;
    DoKeepsValid(r, o, w, Fire(timer));
    var w1 := Do(r, w, Fire(timer));
    StillLeads(r, o, w1, None, w1.gas, LapsedBusy);
    if w1.core.view.table.current.Some? {
      var m := Edit(WithPoints(w1.core.view.table.cards, w1.core.view.table.current.value, 0));
      DoKeepsValid(r, o, w1, m);
      DrainQueueLegal(r, o, Do(r, w1, m));
    }
  }

  lemma AnnounceListens(r: Rules, w: World, e: Event)
    requires !Halted(w) && (Reserved(e.kind) ==> w.core.mode.Resting?)
    ensures Announce(r, w, e) == Listen(r, Do(r, w, Hear(e)), e)
  {
    hide Listen;
  }

  lemma ReleaseFrameLegal(r: Rules, o: Origin, w: World, f: FrameId)
    requires Valid(r, o, w) && Roams(o.span) && w.core.mode.Resting?
    ensures Valid(r, o, ReleaseFrame(r, w, f))
  {
    hide Leads;
    if HasFrame(w.core.view, f) { DoKeepsValid(r, o, w, Release(f)); }
  }

  lemma RestoreFrameLegal(r: Rules, o: Origin, w: World, f: FrameId)
    requires Valid(r, o, w) && Roams(o.span) && w.core.mode.Resting?
    ensures Valid(r, o, RestoreFrame(r, w, f))
  {
    hide Leads;
    if HasFrame(w.core.view, f) { DoKeepsValid(r, o, w, Restore(f)); }
  }

  lemma AnnounceResolvedLegal(r: Rules, o: Origin, w: World, f: FrameId, slots: seq<Slot>, card: Option<Id>)
    requires Valid(r, o, w) && o.span.AnyMoves? && w.core.mode.Resting?
    ensures Valid(r, o, AnnounceResolved(r, w, f, slots, card))
  {
    hide Leads;
    AnnounceLegal(r, o, w, Resolved(f, slots, card));
    DrainQueueLegal(r, o, Announce(r, w, Resolved(f, slots, card)));
  }

  lemma SettleModifierLegal(r: Rules, o: Origin, w: World, f: FrameId, win: Window, roll: int, seed: Ctx)
    requires Valid(r, o, w) && Roams(o.span) && w.core.mode.Resting? && win.kind.Modifier?
    ensures Valid(r, o, SettleModifier(r, w, f, win, roll, seed))
  {
    hide Leads;
    if Halted(w) {
    } else if roll < win.kind.required {
      RestoreFrameLegal(r, o, w, f);
      AnnounceLegal(r, o, RestoreFrame(r, w, f), Plain(RollFailed, win.respondent, Some(win.kind.hero)));
    } else {
      ReleaseFrameLegal(r, o, w, f);
      AnnounceLegal(r, o, ReleaseFrame(r, w, f),
        Plain(RollSuccess, win.respondent, Some(win.kind.hero)).(seed := seed));
    }
  }

  lemma SettleAttackLegal(r: Rules, o: Origin, w: World, f: FrameId, win: Window, roll: int)
    requires Valid(r, o, w) && Roams(o.span) && w.core.mode.Resting? && win.kind.Attack?
    ensures Valid(r, o, SettleAttack(r, w, f, win, roll))
  {
    hide Leads, Announce, SpentInto, Slain;
    var monster, player := win.kind.monster, win.respondent;
    RestoreFrameLegal(r, o, w, f);
    ReleaseFrameLegal(r, o, w, f);
    var w1 := ReleaseFrame(r, w, f);
    StillLeads(r, o, w1, None, w1.gas, NotInRow);
    var m := Edit(Slain(w1.core.view.table.cards, monster, player));
    DoKeepsValid(r, o, w1, m);
    AnnounceLegal(r, o, Do(r, w1, m), Plain(MonsterSlain, player, Some(monster)));
    AnnounceLegal(r, o, RestoreFrame(r, w, f), Plain(MonsterFoughtBack, player, Some(monster)));
  }

  lemma SettleChallengeLegal(r: Rules, o: Origin, w: World, f: FrameId, win: Window, held: bool, defended: bool)
    requires Valid(r, o, w) && Roams(o.span) && w.core.mode.Resting? && win.kind.Challenge?
    ensures Valid(r, o, SettleChallenge(r, w, f, win, held, defended))
  {
    hide Leads;
    ReleaseFrameLegal(r, o, w, f);
    AnnounceLegal(r, o, w, Plain(ChallengeResolved, win.respondent, Some(win.kind.card)));
    var w1 := Announce(r, w, Plain(ChallengeResolved, win.respondent, Some(win.kind.card)));
    ReleaseFrameLegal(r, o, w1, f);
    RestoreFrameLegal(r, o, w1, f);
    var kept, undone := ReleaseFrame(r, w1, f), RestoreFrame(r, w1, f);
    var c, d := kept.core.view.table.cards, undone.core.view.table.cards;
    DoKeepsValid(r, o, kept, Edit(c.(challenged := c.challenged + [win.kind.card])));
    DoKeepsValid(r, o, undone, Edit(d.(discard := d.discard + [win.kind.card])));
  }

  lemma SettleClosedLegal(r: Rules, o: Origin, w: World, f: FrameId, win: Window, v: Verdict)
    requires Valid(r, o, w) && o.span.AnyMoves? && w.core.mode.Resting?
    ensures Valid(r, o, SettleClosed(r, w, f, win, v))
  {
    hide Leads, SettleModifier, SettleAttack, SettleChallenge, AnnounceResolved;
    match (win.kind, v)
    case (Modifier(_, _), Rolled(roll, seed)) =>
      SettleModifierLegal(r, o, w, f, win, roll, seed);
      AnnounceResolvedLegal(r, o, SettleModifier(r, w, f, win, roll, seed), f, [Slot(CTX_FINAL_ROLL, Number(roll))], None);
    case (Attack(_), Rolled(roll, _)) =>
      SettleAttackLegal(r, o, w, f, win, roll);
      AnnounceResolvedLegal(r, o, SettleAttack(r, w, f, win, roll), f, [Slot(CTX_FINAL_ROLL, Number(roll))], None);
    case (Challenge(card), Contest(held, defended)) =>
      SettleChallengeLegal(r, o, w, f, win, held, defended);
      AnnounceResolvedLegal(r, o, SettleChallenge(r, w, f, win, held, defended), f, [], Some(card));
    case _ =>
  }

  lemma SettleOutcomeLegal(r: Rules, o: Origin, w: World, f: FrameId, index: nat, win: Window, v: Verdict)
    requires Valid(r, o, w) && o.span.AnyMoves? && w.core.mode.Resting? && IsUp(w.core.view, f, index)
    ensures Valid(r, o, SettleOutcome(r, w, f, index, win, v))
  {
    hide Leads, Announce, SettleClosed;
    DoKeepsValid(r, o, w, CloseWindow(f, index, []));
    var e := Plain(WindowClosed, win.respondent, SubjectCard(win));
    AnnounceLegal(r, o, Do(r, w, CloseWindow(f, index, [])), e);
    SettleClosedLegal(r, o, Announce(r, Do(r, w, CloseWindow(f, index, [])), e), f, win, v);
  }

  lemma SettleChoiceLegal(
    r: Rules, o: Origin, w: World, f: FrameId, index: nat, win: Window, slots: seq<Slot>, outcome: seq<StepEvent>)
    requires Valid(r, o, w) && o.span.AnyMoves? && w.core.mode.Resting? && IsUp(w.core.view, f, index)
    ensures Valid(r, o, SettleChoice(r, w, f, index, win, slots, outcome))
  {
    hide Leads, Announce, AnnounceAll, AnnounceResolved, IsAsking, WithClosed, SpentInto, PutAway;
    DoKeepsValid(r, o, w, CloseWindow(f, index, slots));
    var w1 := Do(r, w, CloseWindow(f, index, slots));
    var last := HasFrame(w1.core.view, f) && !IsAsking(FrameOf(w1.core.view.frames, f));
    if last { DoKeepsValid(r, o, w1, Release(f)); }
    var w2 := if last then Do(r, w1, Release(f)) else w1;
    var e := Plain(WindowClosed, win.respondent, None);
    AnnounceLegal(r, o, w2, e);
    AnnounceAllLegal(r, o, Announce(r, w2, e), outcome);
    var w3 := AnnounceAll(r, Announce(r, w2, e), outcome);
    if last { AnnounceResolvedLegal(r, o, w3, f, AnswersOf(FrameOf(w1.core.view.frames, f).windows), None); }
  }

  lemma SettleWindowLegal(r: Rules, o: Origin, w: World, f: FrameId, index: nat, v: Verdict)
    requires Valid(r, o, w) && o.span.AnyMoves? && w.core.mode.Resting?
    ensures Valid(r, o, SettleWindow(r, w, f, index, v))
  {
    hide Leads;
    if HasFrame(w.core.view, f) {
      var windows := FrameOf(w.core.view.frames, f).windows;
      if index < |windows| && windows[index].open && Answers(windows[index].kind, v) {
        if windows[index].kind.Choice? {
          SettleChoiceLegal(r, o, w, f, index, windows[index], v.slots, v.outcome);
        } else {
          SettleOutcomeLegal(r, o, w, f, index, windows[index], v);
        }
      }
    }
  }

  lemma StartGameLegal(r: Rules, o: Origin, w: World, order: seq<Id>)
    requires Valid(r, o, w) && o.span.AnyMoves? && w.core.mode.Resting?
    ensures Valid(r, o, StartGame(r, w, order))
  {
    hide Leads;
    if !Halted(w) && Enabled(r, w.core, BeginGame(order)) {
      DoKeepsValid(r, o, w, BeginGame(order));
      AnnounceLegal(r, o, Do(r, w, BeginGame(order)), Plain(GameStarted, "", None));
      var w1 := Announce(r, Do(r, w, BeginGame(order)), Plain(GameStarted, "", None));
      if order != [] { StartTurnForLegal(r, o, w1, order[0]); }
    }
  }

  lemma StepLegal(r: Rules, o: Origin, w: World, i: Input)
    requires Valid(r, o, w) && o.span.AnyMoves? && w.core.mode.Resting?
    ensures Valid(r, o, Step(r, w, i))
  {
    hide Leads;
    if !Halted(w) {
      match i
      case Start(order) => StartGameLegal(r, o, w, order);
      case Request(a) => EnqueueLegal(r, o, w, a);
      case React(s) => ExecuteLegal(r, o, w, s, 0, map[], None);
      case Settle(f, index, v) => SettleWindowLegal(r, o, w, f, index, v);
      case TimerFires(t) => if Enabled(r, w.core, Fire(t)) { LapseLegal(r, o, w, t); }
      case Wait(ms) => DoKeepsValid(r, o, w, Advance(ms));
    }
  }

  /** The refinement: every run of a table, from every deal and with every rule table, is a legal log. */
  lemma {:induction false} RunIsLegal(r: Rules, o: Origin, w: World, inputs: seq<Input>)
    requires Valid(r, o, w) && o.span.AnyMoves? && w.core.mode.Resting?
    ensures Valid(r, o, Run(r, w, inputs))
  {
    hide Leads;
    if inputs != [] {
      RunIsLegal(r, o, w, inputs[..|inputs| - 1]);
      StepLegal(r, o, Run(r, w, inputs[..|inputs| - 1]), inputs[|inputs| - 1]);
    }
  }
}
