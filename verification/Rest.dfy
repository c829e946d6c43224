/**
 * Towards the board at rest. No step leaves a frame without a window, and a
 * drain stops only where the stack is empty or somebody on it waits.
 */
module Rest {
  import opened Board
  import opened Abilities
  import opened Machine
  import opened Engine
  import opened EngineLegal
  import opened Requests
  import opened Ages
  import opened Pipelines
  import opened TurnLaws
  import opened Soundness

  // ---------------------------------------------------------------------------
  // No step leaves a frame without a window
  // ---------------------------------------------------------------------------

  ghost predicate Dressed(w: World, bare: set<FrameId>) {
    Halted(w) || Furnished(w.core.view, bare)
  }

  lemma {:induction false} AnnounceDressed(r: Rules, w: World, e: Event, bare: set<FrameId>)
    requires Dressed(w, bare)
    requires Reserved(e.kind) ==> w.core.mode.Resting?
    ensures Dressed(Announce(r, w, e), bare)
    decreases w.gas, 1, Effects(r, w), 2
  {
    hide HearTask, HearClock, ConcludeIfDue, Dressed;
    if !Halted(w) {
      var w0 := Do(r, w, Hear(e));
      HeardDressed(r, w, e, bare);
      ClockDressed(r, w0, e, bare);
      var w1 := HearClock(r, w0, e);
      HearTaskDressed(r, w1, e, bare);
      ConcludeDressed(r, HearTask(r, w1, e), bare);
    }
  }

  lemma HeardDressed(r: Rules, w: World, e: Event, bare: set<FrameId>)
    requires Dressed(w, bare)
    ensures Dressed(Do(r, w, Hear(e)), bare)
  {
  }

  lemma ClockDressed(r: Rules, w: World, e: Event, bare: set<FrameId>)
    requires Dressed(w, bare) && (e.kind.FrameResolved? ==> w.core.mode.Resting?)
    ensures Dressed(HearClock(r, w, e), bare)
  {
  }

  lemma ConcludeDressed(r: Rules, w: World, bare: set<FrameId>)
    requires Dressed(w, bare)
    ensures Dressed(ConcludeIfDue(r, w), bare)
  {
    hide Winner, HasPendingOutcome;
  }

  lemma {:induction false} AnnounceAllDressed(r: Rules, w: World, events: seq<StepEvent>, bare: set<FrameId>)
    requires Dressed(w, bare)
    ensures Dressed(AnnounceAll(r, w, events), bare)
    decreases w.gas, 1, Effects(r, w), 3, |events|
  {
    if events != [] {
      AnnounceDressed(r, w, events[0], bare);
      AnnounceAllDressed(r, Announce(r, w, events[0]), events[1..], bare);
    }
  }

  lemma {:induction false} HearTaskDressed(r: Rules, w: World, e: Event, bare: set<FrameId>)
    requires Dressed(w, bare) && !Halted(w)
    requires Reserved(e.kind) ==> w.core.mode.Resting?
    ensures Dressed(HearTask(r, w, e), bare)
    decreases w.gas, 1, Effects(r, w), 1
  {
    if !IsConcluded(w.core) {
      ExpireDressed(r, w, e, bare);
      var w1 := Expire(r, w, e);
      hide Expire, Drain, Started;
      if !Halted(w1) {
        var w2 := StartMatching(r, WakeFor(r, w1, e), e);
        if w2.core.mode.Resting? { DrainDressed(r, w2, bare); }
      }
    }
  }

  lemma {:induction false} DrainDressed(r: Rules, w: World, bare: set<FrameId>)
    requires Dressed(w, bare) && w.core.mode.Resting?
    ensures Dressed(Drain(r, w), bare)
    decreases w.gas, 1, Effects(r, w), 0, 1
  {
    hide Loop;
    LoopDressed(r, Do(r, w, StartLoop), bare);
  }

  lemma {:induction false} ExpireDressed(r: Rules, w: World, e: Event, bare: set<FrameId>)
    requires Dressed(w, bare) && !Halted(w)
    ensures Dressed(Expire(r, w, e), bare)
    decreases w.gas, 1, Effects(r, w), 0
  {
    SweepShrinks(r, w.core.view, r.players, r.players, e);
    var swept := Sweep(r, w.core.view, r.players, e);
    if swept.expired != [] {
      AnnounceAllDressed(r, Do(r, w, Edit(swept.cards)), ExpiredAll(swept.expired), bare);
    }
  }

  lemma {:induction false} LoopDressed(r: Rules, w: World, bare: set<FrameId>)
    requires Dressed(w, bare) && w.core.mode.Looping?
    ensures Dressed(Loop(r, w), bare)
    decreases w.gas, 1, Effects(r, w), 0, 0
  {
    if !Halted(w) && Ready(w.core.stack) && w.gas != 0 {
      IterateDressed(r, w, bare);
      if !Iterate(r, w).stop { LoopDressed(r, Iterate(r, w).world, bare); }
    }
  }

  lemma {:induction false} IterateDressed(r: Rules, w: World, bare: set<FrameId>)
    requires Dressed(w, bare) && !Halted(w) && w.core.mode.Looping? && Ready(w.core.stack) && w.gas > 0
    ensures Dressed(Iterate(r, w).world, bare)
    decreases w.gas, 0
  {
    var top, spent := Top(w.core.stack), w.(gas := w.gas - 1);
    if top.steps == [] {
      var m := Pop(top.id, IsLastOfCard(w.core.stack[..|w.core.stack| - 1], top));
      if m.done { AnnounceDressed(r, Do(r, spent, m), DoneEvent(top), bare); }
    } else {
      ExecuteDressed(r, Do(r, spent, Begin(top.id)), top.steps[0], 0, top.ctx, None, bare);
    }
  }

  lemma {:induction false} ExecuteDressed(
    r: Rules, w: World, s: Script, i: nat, ctx: Ctx, asked: Option<FrameId>, bare: set<FrameId>)
    requires Dressed(w, bare)
    ensures Dressed(Execute(r, w, s, i, ctx, asked).world, bare)
    decreases w.gas, 3, s.length - i
  {
    if !Halted(w) && i < s.length {
      var a := s.act(i, ctx, asked, w.core.view);
      if !a.Return? {
        PerformDressed(r, w, a, bare);
        ExecuteDressed(r, Perform(r, w, a), s, i + 1, a.ctx, if a.Ask? then Some(w.core.nextFrame) else asked, bare);
      }
    }
  }

  lemma {:induction false} PerformDressed(r: Rules, w: World, a: Act, bare: set<FrameId>)
    requires Dressed(w, bare) && !Halted(w) && !a.Return?
    ensures Dressed(Perform(r, w, a), bare)
    decreases w.gas, 3, 0, 1
  {
    match a
    case Emit(cards, _, e) => AnnounceDressed(r, Do(r, w, Edit(cards)), e, bare);
    case Ask(cards, _, plays, asking, more) =>
      var f := w.core.nextFrame;
      var w1 := Do(r, Do(r, w, Edit(cards)), Open);
      PlayAllDressed(r, w1, plays, bare + {f});
      AskFirstDressed(r, PlayAll(r, w1, plays), f, asking, more, bare);
  }

  lemma {:induction false} PlayAllDressed(r: Rules, w: World, plays: seq<Play>, bare: set<FrameId>)
    requires Dressed(w, bare)
    ensures Dressed(PlayAll(r, w, plays), bare)
    decreases w.gas, 2, |plays|
  {
    if !Halted(w) && plays != [] {
      var w1 := Do(r, w, Edit(plays[0].edit(w.core.view.table.cards)));
      AnnounceDressed(r, w1, plays[0].event, bare);
      PlayAllDressed(r, Announce(r, w1, plays[0].event), plays[1..], bare);
    }
  }

  lemma NoSuchFrame(v: View, f: FrameId, bare: set<FrameId>)
    requires Furnished(v, bare + {f}) && !HasFrame(v, f)
    ensures Furnished(v, bare)
  {
    assert forall i | 0 <= i < |v.frames| :: v.frames[i] in v.frames;
  }

  lemma FirstWindow(r: Rules, w: World, f: FrameId, a: Asking, bare: set<FrameId>)
    requires Enabled(r, w.core, AddWindow(f, WindowOf(a))) && Furnished(w.core.view, bare + {f})
    ensures Furnished(Do(r, w, AddWindow(f, WindowOf(a))).core.view, bare)
  {
    var v, v' := w.core.view, Do(r, w, AddWindow(f, WindowOf(a))).core.view;
    forall i | 0 <= i < |v'.frames| ensures IsOpen(v'.frames[i]) || v'.frames[i].id in bare {
      if v.frames[i].id == f {
        assert WindowOf(a) in v'.frames[i].windows;
      }
    }
  }

  /** The frame just opened is bare until its first window is on the board. */
  lemma {:induction false} AskFirstDressed(
    r: Rules, w: World, f: FrameId, asking: Asking, more: seq<Asking>, bare: set<FrameId>)
    requires Dressed(w, bare + {f})
    ensures Dressed(AskAll(r, w, f, [asking] + more), bare)
    decreases w.gas, 2, |more| + 2
  {
    if !Halted(w) {
      if HasFrame(w.core.view, f) {
        AnnounceDressed(r, w, asking.opening, bare + {f});
        AnnounceAllDressed(r, Announce(r, w, asking.opening), asking.standing, bare + {f});
        var w1 := AnnounceAll(r, Announce(r, w, asking.opening), asking.standing);
        assert ([asking] + more)[1..] == more;
        if !Halted(w1) {
          if HasFrame(w1.core.view, f) {
            FirstWindow(r, w1, f, asking, bare);
            AskAllDressed(r, Do(r, w1, AddWindow(f, WindowOf(asking))), f, more, bare);
          } else {
            NoSuchFrame(w1.core.view, f, bare);
          }
        }
      } else {
        NoSuchFrame(w.core.view, f, bare);
      }
    }
  }

  lemma {:induction false} AskAllDressed(r: Rules, w: World, f: FrameId, askings: seq<Asking>, bare: set<FrameId>)
    requires Dressed(w, bare)
    ensures Dressed(AskAll(r, w, f, askings), bare)
    decreases w.gas, 2, |askings|
  {
    if !Halted(w) && askings != [] && HasFrame(w.core.view, f) {
      AnnounceDressed(r, w, askings[0].opening, bare);
      AnnounceAllDressed(r, Announce(r, w, askings[0].opening), askings[0].standing, bare);
      var w1 := AnnounceAll(r, Announce(r, w, askings[0].opening), askings[0].standing);
      if !Halted(w1) && HasFrame(w1.core.view, f) {
        assert Furnished(w1.core.view, bare + {f});
        FirstWindow(r, w1, f, askings[0], bare);
        AskAllDressed(r, Do(r, w1, AddWindow(f, WindowOf(askings[0]))), f, askings[1..], bare);
      }
    }
  }

  // ---------------------------------------------------------------------------
  // A drain stops only where the stack is empty, or waits
  // ---------------------------------------------------------------------------

  ghost predicate SomeoneWaits(c: Core) {
    c.stack == [] || exists i | 0 <= i < |c.stack| :: c.stack[i].pausedOn.Some?
  }

  ghost predicate Ended(w: World) {
    Halted(w) || IsConcluded(w.core) || SomeoneWaits(w.core)
  }

  /** Stronger: unless a frame opened on the way, the very top of the stack waits, or the stack is empty. */
  ghost predicate EndedOnTop(w: World, nextFrame: FrameId) {
    Halted(w) || IsConcluded(w.core) || !Ready(w.core.stack) || nextFrame < w.core.nextFrame
  }

  lemma SoundFrom(r: Rules, w: World, w': World)
    requires Sound(w.core) && Follows(r, w, w')
    ensures Sound(w'.core) && (IsConcluded(w.core) ==> IsConcluded(w'.core))
  {
    LogKeepsSound(r, w.core, w'.log[|w.log|..]);
  }

  /** A step that parks leaves its own pipeline waiting. */
  lemma ParkWaits(r: Rules, w: World, id: nat, ctx: Ctx, f: FrameId)
    requires Enabled(r, w.core, Finish(id, ctx, Some(f))) && Sound(w.core)
    ensures Ended(Do(r, w, Finish(id, ctx, Some(f))))
  {
    var c' := Do(r, w, Finish(id, ctx, Some(f))).core;
    if !IsConcluded(w.core) {
      var i :| 0 <= i < |w.core.stack| && w.core.stack[i].id == id;
      assert c'.stack[i].pausedOn == Some(f);
    }
  }

  lemma IterateEnds(r: Rules, w: World)
    requires w.core.mode.Looping? && Ready(w.core.stack) && w.gas > 0 && !Halted(w) && Sound(w.core)
    ensures var n := Iterate(r, w);
      && Sound(n.world.core) && w.core.nextFrame <= n.world.core.nextFrame
      && (n.stop ==> Ended(n.world) && EndedOnTop(n.world, w.core.nextFrame))
  {
    hide Sound, Iterate, Ended, EndedOnTop;
    NothingFollows(r, w);
    IterateLegal(r, InnerOf(w), w);
    InnerFollows(r, w, Iterate(r, w).world);
    SoundFrom(r, w, Iterate(r, w).world);
    if Top(w.core.stack).steps != [] { StepEnds(r, w); } else { PopGoesOn(r, w); }
  }

  lemma PopGoesOn(r: Rules, w: World)
    requires w.core.mode.Looping? && Ready(w.core.stack) && w.gas > 0 && Top(w.core.stack).steps == []
    ensures !Iterate(r, w).stop
  {
    hide Announce, IsLastOfCard, Apply;
  }

  lemma StepEnds(r: Rules, w: World)
    requires w.core.mode.Looping? && Ready(w.core.stack) && w.gas > 0 && Sound(w.core) && Top(w.core.stack).steps != []
    ensures var n := Iterate(r, w); n.stop ==> Ended(n.world) && EndedOnTop(n.world, w.core.nextFrame)
  {
    hide Sound, Execute, Announce, Legal, After;
    var top := Top(w.core.stack);
    SoundOneMove(r, w.core, Begin(top.id));
    var w1 := Do(r, w.(gas := w.gas - 1), Begin(top.id));
    NothingFollows(r, w1);
    ExecuteLegal(r, InnerOf(w1), w1, top.steps[0], 0, top.ctx, None);
    var s := Execute(r, w1, top.steps[0], 0, top.ctx, None);
    InnerFollows(r, w1, s.world);
    SoundFrom(r, w1, s.world);
    if s.park.Some? && HasFrame(s.world.core.view, s.park.value) {
      ParkWaits(r, s.world, top.id, s.ctx, s.park.value);
      OpenIsBelow(s.world.core, s.park.value);
    }
  }

  lemma OpenIsBelow(c: Core, f: FrameId)
    requires Sound(c) && HasFrame(c.view, f)
    ensures f < c.nextFrame
  {
  }

  lemma {:induction false} LoopEnds(r: Rules, w: World)
    requires w.core.mode.Looping? && Sound(w.core)
    ensures Ended(Loop(r, w)) && EndedOnTop(Loop(r, w), w.core.nextFrame)
    decreases w.gas
  {
    if !Halted(w) && Ready(w.core.stack) && w.gas != 0 {
      IterateEnds(r, w);
      if !Iterate(r, w).stop { LoopEnds(r, Iterate(r, w).world); }
    } else if w.core.stack != [] {
      assert Top(w.core.stack) == w.core.stack[|w.core.stack| - 1];
    }
  }
}
