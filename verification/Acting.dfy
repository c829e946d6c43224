/**
 * What a step does is on record, act by act: its change of the board, what it
 * announces, the frame it opens and what is played and asked there, and what it
 * hands from one act to the next and to the step after it.
 */
module Acting {
  import opened Board
  import opened Abilities
  import opened Machine
  import opened Engine
  import opened EngineLegal
  import opened Requests
  import opened Outcomes
  import DepthFirst

  /** These moves are made at once, and nothing settles before `w'`. */
  ghost predicate Goes(r: Rules, w: World, moves: seq<Move>, w': World) {
    Makes(r, w, moves, w') && Follows(r, w, w')
  }

  /** The events are announced in turn; an engine that has stopped announces nothing. */
  ghost predicate Said(r: Rules, w: World, events: seq<Event>, w': World)
    decreases |events|
  {
    if events == [] then w' == w
    else exists w1 :: (if Halted(w) then w1 == w else Goes(r, w, [Hear(events[0])], w1)) && Said(r, w1, events[1..], w')
  }

  /** The cards are played in turn: the board changed as it stands then, and the play announced. */
  ghost predicate Played(r: Rules, w: World, plays: seq<Play>, w': World)
    decreases |plays|
  {
    if Halted(w) || plays == [] then w' == w
    else exists w1 ::
      Goes(r, w, [Edit(plays[0].edit(w.core.view.table.cards)), Hear(plays[0].event)], w1) && Played(r, w1, plays[1..], w')
  }

  /** The windows are opened in turn while the frame stands: announced, and then on the board, open and unanswered. */
  ghost predicate Asked(r: Rules, w: World, f: FrameId, askings: seq<Asking>, w': World)
    decreases |askings|, 0
  {
    if Halted(w) || askings == [] || !HasFrame(w.core.view, f) then w' == w
    else
      var a := askings[0];
      exists w1 :: Said(r, w, [a.opening] + a.standing, w1) && AskedOn(r, w1, f, a, askings[1..], w')
  }

  ghost predicate AskedOn(r: Rules, w: World, f: FrameId, a: Asking, more: seq<Asking>, w': World)
    decreases |more|, 1
  {
    if Halted(w) || !HasFrame(w.core.view, f) then w' == w
    else
      var m := AddWindow(f, Window(a.kind, a.respondent, true, []));
      Enabled(r, w.core, m) && Asked(r, Do(r, w, m), f, more, w')
  }

  /** Act by act, each chosen on what the last one handed on, the frame opened last and the board as it stands. */
  ghost predicate ActsOut(r: Rules, s: Script, i: nat, ctx: Ctx, asked: Option<FrameId>, w: World, o: Stepped)
    decreases s.length - i
  {
    if Halted(w) || i >= s.length then o == Stepped(w, ctx, None)
    else
      match s.act(i, ctx, asked, w.core.view)
      case Return(cards, handed, wait) => o == Stepped(Do(r, w, Edit(cards)), handed, if wait then asked else None)
      case Emit(cards, handed, e) =>
        exists w1 :: Goes(r, w, [Edit(cards), Hear(e)], w1) && ActsOut(r, s, i + 1, handed, asked, w1, o)
      case Ask(cards, handed, plays, asking, more) =>
        exists w1, w2 ::
          && Played(r, Do(r, Do(r, w, Edit(cards)), Open), plays, w1)
          && Asked(r, w1, w.core.nextFrame, [asking] + more, w2)
          && ActsOut(r, s, i + 1, handed, Some(w.core.nextFrame), w2, o)
  }

  // ---------------------------------------------------------------------------
  // The engine's steps are played so
  // ---------------------------------------------------------------------------

  lemma AnnounceGoes(r: Rules, w: World, e: StepEvent)
    requires !Halted(w)
    ensures Goes(r, w, [Hear(e)], Announce(r, w, e))
  {
    hide Leads, Announce, Makes, Follows;
    HeardFirst(r, w, e);
    MayHearAny(r, w, e);
    MakesOne(r, w, Hear(e), Announce(r, w, e));
    AnnounceFollows(r, w, e);
  }

  lemma OpeningGoes(r: Rules, w: World, e: OpeningEvent)
    requires !Halted(w)
    ensures Goes(r, w, [Hear(e)], Announce(r, w, e))
  {
    hide Leads, Announce, Makes, Follows;
    HeardFirst(r, w, e);
    MayHearAny(r, w, e);
    MakesOne(r, w, Hear(e), Announce(r, w, e));
    AnnounceFollows(r, w, e);
  }

  lemma EditGoes(r: Rules, w: World, cards: Cards, e: StepEvent)
    requires !Halted(w)
    ensures Goes(r, w, [Edit(cards), Hear(e)], Announce(r, Do(r, w, Edit(cards)), e))
  {
    hide Leads, Announce, Makes, Follows;
    var w1 := Do(r, w, Edit(cards));
    var w2 := Announce(r, w1, e);
    AnnounceGoes(r, w1, e);
    MakesFirst(r, w, Edit(cards), [Hear(e)], w2);
    assert [Edit(cards)] + [Hear(e)] == [Edit(cards), Hear(e)];
    EditFollows(r, w, cards, w1, e);
  }

  lemma EditFollows(r: Rules, w: World, cards: Cards, w1: World, e: StepEvent)
    requires w1 == Do(r, w, Edit(cards))
    ensures Follows(r, w, Announce(r, w1, e))
  {
    hide Leads, Announce, Follows;
    NothingFollows(r, w);
    DoKeepsValid(r, InnerOf(w), w, Edit(cards));
    AnnounceLegal(r, InnerOf(w), w1, e);
    InnerFollows(r, w, Announce(r, w1, e));
  }

  lemma {:induction false} AllSaid(r: Rules, w: World, events: seq<StepEvent>)
    ensures Said(r, w, events, AnnounceAll(r, w, events))
    decreases |events|
  {
    hide Announce, Goes;
    if events != [] {
      if Halted(w) { HaltedHears(r, w, events[0]); } else { AnnounceGoes(r, w, events[0]); }
      AllSaid(r, Announce(r, w, events[0]), events[1..]);
    }
  }

  lemma {:induction false} AllPlayed(r: Rules, w: World, plays: seq<Play>)
    ensures Played(r, w, plays, PlayAll(r, w, plays))
    decreases |plays|
  {
    hide Announce, Goes, Apply;
    if !Halted(w) && plays != [] {
      var cards := plays[0].edit(w.core.view.table.cards);
      EditGoes(r, w, cards, plays[0].event);
      AllPlayed(r, Announce(r, Do(r, w, Edit(cards)), plays[0].event), plays[1..]);
    }
  }

  lemma {:induction false} AllAsked(r: Rules, w: World, f: FrameId, askings: seq<Asking>)
    ensures Asked(r, w, f, askings, AskAll(r, w, f, askings))
    decreases |askings|
  {
    hide Announce, AnnounceAll, Goes, Apply, HasFrame;
    if !Halted(w) && askings != [] && HasFrame(w.core.view, f) {
      var a := askings[0];
      var w0 := Announce(r, w, a.opening);
      OpeningGoes(r, w, a.opening);
      AllSaid(r, w0, a.standing);
      var w1 := AnnounceAll(r, w0, a.standing);
      SaidFirst(r, w, a.opening, a.standing, w0, w1);
      if !Halted(w1) && HasFrame(w1.core.view, f) {
        AllAsked(r, Do(r, w1, AddWindow(f, WindowOf(a))), f, askings[1..]);
      }
      assert AskedOn(r, w1, f, a, askings[1..], AskAll(r, w, f, askings));
    }
  }

  lemma SaidFirst(r: Rules, w: World, e: Event, events: seq<Event>, w0: World, w1: World)
    requires !Halted(w) && Goes(r, w, [Hear(e)], w0) && Said(r, w0, events, w1)
    ensures Said(r, w, [e] + events, w1)
  {
    assert ([e] + events)[1..] == events;
    hide Goes;
  }

  /** Whatever the script, the engine acts it out. */
  lemma {:induction false} EveryActIsPlayed(
    r: Rules, w: World, s: Script, i: nat, ctx: Ctx, asked: Option<FrameId>)
    ensures ActsOut(r, s, i, ctx, asked, w, Execute(r, w, s, i, ctx, asked))
    decreases s.length - i
  {
    hide Announce, PlayAll, AskAll, Goes, Played, Asked, Apply;
    if !Halted(w) && i < s.length {
      var a := s.act(i, ctx, asked, w.core.view);
      match a
      case Return(_, _, _) =>
      case Emit(cards, handed, e) =>
        EditGoes(r, w, cards, e);
        assert Perform(r, w, a) == Announce(r, Do(r, w, Edit(cards)), e);
        EveryActIsPlayed(r, Announce(r, Do(r, w, Edit(cards)), e), s, i + 1, handed, asked);
      case Ask(cards, handed, plays, asking, more) =>
        var w0 := Do(r, Do(r, w, Edit(cards)), Open);
        var w1 := PlayAll(r, w0, plays);
        var w2 := AskAll(r, w1, w.core.nextFrame, [asking] + more);
        AllPlayed(r, w0, plays);
        AllAsked(r, w1, w.core.nextFrame, [asking] + more);
        assert Perform(r, w, a) == w2;
        EveryActIsPlayed(r, w2, s, i + 1, handed, Some(w.core.nextFrame));
    }
  }

  // ---------------------------------------------------------------------------
  // A pipeline's step, a served action, a reaction
  // ---------------------------------------------------------------------------

  /**
   * A turn of the drain that takes a step: it begins the top pipeline's next step
   * with the context the pipeline holds, acts it out, and ends with what the step
   * handed on; it parks exactly when the step waits for a frame that still stands,
   * and a step that waits for one that is gone stops the engine.
   */
  lemma EveryStepIsPlayed(r: Rules, w: World) returns (o: Stepped)
    requires w.core.mode.Looping? && Ready(w.core.stack) && w.gas > 0 && !Halted(w) && Top(w.core.stack).steps != []
    ensures var top, n := Top(w.core.stack), Iterate(r, w);
      && Enabled(r, w.core, Begin(top.id))
      && ActsOut(r, top.steps[0], 0, top.ctx, None, Do(r, w.(gas := w.gas - 1), Begin(top.id)), o)
      && var stands := o.park.Some? && HasFrame(o.world.core.view, o.park.value);
         && n.world.log == o.world.log + [Finish(top.id, o.ctx, if stands then o.park else None)]
         && (n.stop <==> o.park.Some?)
         && n.world.halt == (if o.park.Some? && !stands then FrameNotOpen else o.world.halt)
  {
    hide Execute, ActsOut, HasFrame;
    var top := Top(w.core.stack);
    var w1 := Do(r, w.(gas := w.gas - 1), Begin(top.id));
    EveryActIsPlayed(r, w1, top.steps[0], 0, top.ctx, None);
    o := Execute(r, w1, top.steps[0], 0, top.ctx, None);
    var park := if o.park.Some? && HasFrame(o.world.core.view, o.park.value) then o.park else None;
    DepthFirst.IterateSteps(r, w, top, w1, o, park);
  }

  /** An action taken off the queue to be run is acted out at once, and the queue goes on from there. */
  lemma ServedActionIsPlayed(r: Rules, w: World) returns (o: Stepped)
    requires !Halted(w) && Enabled(r, w.core, Take(true)) && w.core.view.table.current.Some?
    ensures ActsOut(r, w.core.turn.queue[0].script, 0, map[], None, Do(r, w, Take(true)), o)
    ensures Valid(r, Since(o.world), DrainQueue(r, w))
  {
    hide Execute, ActsOut, Leads, IsBusy, CanExecute, FinishTurn;
    var w1, script := Do(r, w, Take(true)), w.core.turn.queue[0].script;
    EveryActIsPlayed(r, w1, script, 0, map[], None);
    o := Execute(r, w1, script, 0, map[], None);
    SinceItself(r, o.world);
    DrainQueueLegal(r, Since(o.world), o.world);
    assert DrainQueue(r, w) == if Halted(o.world) || IsBusy(o.world.core) then o.world else DrainQueue(r, o.world);
  }

  /** A reaction taken into an open window is acted out, and nothing else happens. */
  lemma ReactionIsPlayed(r: Rules, w: World, s: Script) returns (o: Stepped)
    requires w.core.mode.Resting? && !Halted(w) && HasOpenFrames(w.core.view)
    ensures ActsOut(r, s, 0, map[], None, w, o) && Step(r, w, React(s)) == o.world
  {
    hide Execute, ActsOut;
    EveryActIsPlayed(r, w, s, 0, map[], None);
    o := Execute(r, w, s, 0, map[], None);
  }

  // ---------------------------------------------------------------------------
  // An answered question
  // ---------------------------------------------------------------------------

  /**
   * Once its close is heard, what an answer comes to is announced, event by event;
   * then, after the last question of the frame, comes the frame's last word, and
   * otherwise nothing.
   */
  lemma AnswerIsSaid(
    r: Rules, w: World, f: FrameId, index: nat, win: Window, slots: seq<Slot>, outcome: seq<StepEvent>)
    returns (w1: World, w2: World)
    requires w.core.mode.Resting? && !Halted(w) && IsUp(w.core.view, f, index) && HasFrame(w.core.view, f)
    requires index < |FrameOf(w.core.view.frames, f).windows|
    ensures var heard := Hear(Event(WindowClosed, win.respondent, None, None, None, map[], 0, []));
      var last, w' := !AsksMore(w.core.view, f, index), SettleChoice(r, w, f, index, win, slots, outcome);
      && Makes(r, w, if last then [CloseWindow(f, index, slots), Release(f), heard] else [CloseWindow(f, index, slots), heard], w1)
      && Said(r, w1, outcome, w2)
      && (last ==> Valid(r, Since(w2), w')) && (!last ==> w' == w2)
  {
    hide Leads, Announce, AnnounceAll, AnnounceResolved, Apply, HasFrame, Makes, IsAsking, AnswersOf, Said, FrameOf;
    var close, e := CloseWindow(f, index, slots), Announcement(WindowClosed, win.respondent, None, map[]);
    var w0 := Do(r, w, close);
    AsksMoreIsAsking(r, w.core, f, index, slots);
    CloseRests(r, w, f, index, slots);
    if AsksMore(w.core.view, f, index) {
      w1 := Announce(r, w0, e);
      HeardFirst(r, w0, e);
      MakesOne(r, w0, Hear(e), w1);
      MakesFirst(r, w, close, [Hear(e)], w1);
      assert [close] + [Hear(e)] == [close, Hear(e)];
      AllSaid(r, w1, outcome);
      w2 := AnnounceAll(r, w1, outcome);
    } else {
      MayRelease(r, w0, f);
      SettledRests(r, w0, f);
      var released := Do(r, w0, Release(f));
      w1 := Announce(r, released, e);
      HeardFirst(r, released, e);
      MakesOne(r, released, Hear(e), w1);
      MakesFirst(r, w0, Release(f), [Hear(e)], w1);
      MakesFirst(r, w, close, [Release(f)] + [Hear(e)], w1);
      assert [close] + ([Release(f)] + [Hear(e)]) == [close, Release(f), Hear(e)];
      AllSaid(r, w1, outcome);
      w2 := AnnounceAll(r, w1, outcome);
      SinceItself(r, w2);
      AnnounceResolvedLegal(r, Since(w2), w2, f, AnswersOf(FrameOf(w0.core.view.frames, f).windows), None);
    }
  }

  // ---------------------------------------------------------------------------
  // Effects that run out
  // ---------------------------------------------------------------------------

  /** The effects an event ends leave the board in one move, and each is then announced, to its owner. */
  lemma EndedEffectsAreSaid(r: Rules, w: World, e: Event) returns (said: seq<Event>)
    ensures var swept := Sweep(r, w.core.view, r.players, e);
      && |said| == |swept.expired|
      && (forall i | 0 <= i < |said| ::
            said[i] == Event(EffectExpired, swept.expired[i].owner, None, None, None, map[], 0, []))
      && Said(r, Do(r, w, Edit(swept.cards)), said, Expire(r, w, e))
  {
    hide Sweep, Said, Announce;
    var swept := Sweep(r, w.core.view, r.players, e);
    var events := ExpiredAll(swept.expired);
    ExpiredOneByOne(swept.expired);
    said := events;
    AllSaid(r, Do(r, w, Edit(swept.cards)), events);
    if swept.expired == [] { assert AnnounceAll(r, Do(r, w, Edit(swept.cards)), []) == Do(r, w, Edit(swept.cards)); }
  }

  lemma {:induction false} ExpiredOneByOne(effects: seq<Effect>)
    ensures |ExpiredAll(effects)| == |effects|
    ensures forall i | 0 <= i < |effects| ::
      ExpiredAll(effects)[i] == Event(EffectExpired, effects[i].owner, None, None, None, map[], 0, [])
  {
    if effects != [] { ExpiredOneByOne(effects[1..]); }
  }
}
