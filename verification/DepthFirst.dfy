/**
 * What the drain computes. The reference interpreter below keeps no stack of
 * pipelines and loops over none: it runs a pipeline step by step and, after each
 * step, runs everything that step started by an ordinary recursive call before
 * it goes on. A step itself is `Engine.Execute` in both, whose emissions find a
 * drain going on and only start pipelines. The drain loop makes exactly the same
 * moves, in the same order, for every rule table.
 */
module DepthFirst {
  import opened Board
  import opened Abilities
  import opened Machine
  import opened Engine
  import opened EngineLegal
  import opened Ages

  /** What became of some pipelines: done with, or stopped with `left` (bottom first) still to go. */
  datatype Outcome = Outcome(world: World, left: seq<Pipe>, stopped: bool)

  /** The game ended on the way, which takes every pipeline with it. */
  predicate Wiped(w: World, w': World) {
    !IsConcluded(w.core) && IsConcluded(w'.core)
  }

  function With(w: World, stack: seq<Pipe>): World {
    w.(core := w.core.(stack := stack))
  }

  function Noted(w: World, m: Move, mode: Mode): World {
    w.(core := w.core.(mode := mode), log := w.log + [m])
  }

  function Unless(wiped: bool, pipes: seq<Pipe>): seq<Pipe> {
    if wiped then [] else pipes
  }

  /** One pipeline's next step, or its end: what is left of it, and what it started. */
  datatype Alone = Alone(world: World, rest: seq<Pipe>, kids: seq<Pipe>, stop: bool)

  function StepAlone(r: Rules, w: World, p: Pipe): (a: Alone)
    requires w.core.mode.Looping? && w.gas > 0 && p.steps != []
    ensures a.world.core.mode.Looping? && a.world.core.stack == [] && a.world.gas < w.gas && |a.rest| == 1
    ensures IsConcluded(w.core) ==> IsConcluded(a.world.core)
  {
    var w1 := Noted(w.(gas := w.gas - 1), Begin(p.id), Stepping(p.id, w.core.nextFrame));
    var s := Execute(r, w1, p.steps[0], 0, p.ctx, None);
    var open := s.park.Some? && HasFrame(s.world.core.view, s.park.value);
    var p' := p.(steps := p.steps[1..], ctx := s.ctx, pausedOn := if open then s.park else None);
    var w2 := With(Noted(s.world, Finish(p.id, s.ctx, p'.pausedOn), Looping), []);
    Alone(if s.park.Some? && !open then w2.(halt := FrameNotOpen) else w2, [p'], s.world.core.stack, s.park.Some?)
  }

  function PopAlone(r: Rules, w: World, p: Pipe, below: seq<Pipe>): (a: Alone)
    requires w.core.mode.Looping? && w.gas > 0
    ensures a.world.core.mode.Looping? && a.world.core.stack == [] && a.world.gas < w.gas && a.rest == [] && !a.stop
    ensures IsConcluded(w.core) ==> IsConcluded(a.world.core)
  {
    var done := IsLastOfCard(below, p);
    var w1 := Noted(w.(gas := w.gas - 1), Pop(p.id, done), Looping);
    var w2 := if done then Announce(r, w1, DoneEvent(p)) else w1;
    Alone(With(w2, []), [], w2.core.stack, false)
  }

  function NextAlone(r: Rules, w: World, p: Pipe, below: seq<Pipe>): (a: Alone)
    requires w.core.mode.Looping? && w.gas > 0
    ensures a.world.core.mode.Looping? && a.world.core.stack == [] && a.world.gas < w.gas && |a.rest| <= 1
    ensures IsConcluded(w.core) ==> IsConcluded(a.world.core)
  {
    if p.steps == [] then PopAlone(r, w, p, below) else StepAlone(r, w, p)
  }

  /** One pipeline from its next step to its end; `below` is only read, by the last-of-card test. */
  function RunPipe(r: Rules, w: World, p: Pipe, below: seq<Pipe>): (o: Outcome)
    requires w.core.mode.Looping?
    ensures o.world.core.mode.Looping? && o.world.gas <= w.gas
    ensures !o.stopped ==> o.world.gas < w.gas && o.left == []
    ensures IsConcluded(w.core) ==> IsConcluded(o.world.core)
    decreases w.gas, 0
  {
    if Halted(w) || p.pausedOn.Some? then Outcome(w, [p], true)
    else if w.gas == 0 then Outcome(w.(halt := OutOfGas), [p], true)
    else
      var a := NextAlone(r, w, p, below);
      var wiped := Wiped(w, a.world);
      if a.stop then Outcome(a.world, Unless(wiped, a.rest) + a.kids, true)
      else
        var o := RunAll(r, a.world, a.kids, Unless(wiped, below + a.rest));
        var rest := Unless(Wiped(w, o.world), a.rest);
        if o.stopped then o.(left := rest + o.left)
        else if rest == [] then o
        else RunPipe(r, o.world, rest[0], below)
  }

  /** Several pipelines, bottom first: each is run to its end before the one under it moves. */
  function RunAll(r: Rules, w: World, pipes: seq<Pipe>, below: seq<Pipe>): (o: Outcome)
    requires w.core.mode.Looping?
    ensures o.world.core.mode.Looping? && o.world.gas <= w.gas
    ensures !o.stopped ==> o.left == []
    ensures IsConcluded(w.core) ==> IsConcluded(o.world.core)
    decreases w.gas, 1
  {
    if pipes == [] then Outcome(w, [], false)
    else
      var rest := pipes[..|pipes| - 1];
      var o := RunPipe(r, w, Top(pipes), below + rest);
      var wiped := Wiped(w, o.world);
      if o.stopped then o.(left := Unless(wiped, rest) + o.left)
      else RunAll(r, o.world, Unless(wiped, rest), Unless(wiped, below))
  }

  /** A whole drain, depth first. */
  function DrainDepthFirst(r: Rules, w: World): World
    requires w.core.mode.Resting?
  {
    var o := RunAll(r, With(Noted(w, StartLoop, Looping), []), w.core.stack, []);
    Noted(With(o.world, o.left), StopLoop, Resting)
  }

  // ---------------------------------------------------------------------------
  // Inside a step nothing looks at the stack: it is only pushed on, or wiped
  // ---------------------------------------------------------------------------

  /** `w` on top of the pipelines `s`. */
  function Under(s: seq<Pipe>, w: World): World {
    With(w, s + w.core.stack)
  }

  /** Where `w` leads, had it stood on `s`: still on `s`, unless the game ended on the way. */
  function Over(s: seq<Pipe>, w: World, w': World): World {
    if Wiped(w, w') then w' else Under(s, w')
  }

  lemma {:induction false} PushAllBlind(r: Rules, s: seq<Pipe>, w: World, starts: seq<Start>)
    ensures PushAll(r, Under(s, w), starts) == Under(s, PushAll(r, w, starts))
    decreases |starts|
  {
    if starts != [] {
      var m := Push(starts[|starts| - 1]);
      assert Do(r, Under(s, w), m).core.stack == Under(s, Do(r, w, m)).core.stack;
      assert Do(r, Under(s, w), m) == Under(s, Do(r, w, m));
      PushAllBlind(r, s, Do(r, w, m), starts[..|starts| - 1]);
    }
  }

  lemma {:induction false} HearTaskBlind(r: Rules, s: seq<Pipe>, w: World, e: InsideEvent)
    requires !w.core.mode.Resting?
    ensures HearTask(r, Under(s, w), e) == Over(s, w, HearTask(r, w, e))
    decreases w.gas, 1, Effects(r, w), 1
  {
    if !IsConcluded(w.core) {
      ExpireBlind(r, s, w, e);
      var w1 := Expire(r, w, e);
      hide Expire;
      if !Halted(w1) { PushAllBlind(r, s, w1, Started(r, w1.core.view, e)); }
    }
  }

  lemma {:induction false} ExpireBlind(r: Rules, s: seq<Pipe>, w: World, e: InsideEvent)
    requires !w.core.mode.Resting?
    ensures Expire(r, Under(s, w), e) == Over(s, w, Expire(r, w, e))
    decreases w.gas, 1, Effects(r, w), 0
  {
    SweepShrinks(r, w.core.view, r.players, r.players, e);
    var swept := Sweep(r, w.core.view, r.players, e);
    var w1 := Do(r, w, Edit(swept.cards));
    assert Do(r, Under(s, w), Edit(swept.cards)) == Under(s, w1);
    if swept.expired != [] { AnnounceAllBlind(r, s, w1, ExpiredAll(swept.expired)); }
  }

  lemma ConcludeBlind(r: Rules, s: seq<Pipe>, w: World)
    ensures ConcludeIfDue(r, Under(s, w)) == Over(s, w, ConcludeIfDue(r, w))
  {
    hide Winner, HasPendingOutcome, StopClock;
  }

  lemma {:induction false} AnnounceBlind(r: Rules, s: seq<Pipe>, w: World, e: InsideEvent)
    requires !w.core.mode.Resting?
    ensures Announce(r, Under(s, w), e) == Over(s, w, Announce(r, w, e))
    decreases w.gas, 1, Effects(r, w), 2
  {
    hide HearTask, ConcludeIfDue, HasPendingOutcome;
    if !Halted(w) {
      var w0 := Do(r, w, Hear(e));
      HeardBlind(r, s, w, e);
      var w1 := HearClock(r, w0, e);
      hide HearClock;
      HearTaskBlind(r, s, w1, e);
      ConcludeBlind(r, s, HearTask(r, w1, e));
      EndsOnce(r, HearTask(r, w1, e));
    }
  }

  lemma EndsOnce(r: Rules, w: World)
    ensures IsConcluded(w.core) ==> ConcludeIfDue(r, w) == w
  {
  }

  lemma HeardBlind(r: Rules, s: seq<Pipe>, w: World, e: InsideEvent)
    ensures Enabled(r, Under(s, w).core, Hear(e)) && Do(r, Under(s, w), Hear(e)) == Under(s, Do(r, w, Hear(e)))
    ensures HearClock(r, Under(s, Do(r, w, Hear(e))), e) == Under(s, HearClock(r, Do(r, w, Hear(e)), e))
    ensures IsConcluded(HearClock(r, Do(r, w, Hear(e)), e).core) == IsConcluded(w.core)
  {
  }

  lemma {:induction false} AnnounceAllBlind(r: Rules, s: seq<Pipe>, w: World, events: seq<StepEvent>)
    requires !w.core.mode.Resting?
    ensures AnnounceAll(r, Under(s, w), events) == Over(s, w, AnnounceAll(r, w, events))
    decreases w.gas, 1, Effects(r, w), 3, |events|
  {
    if events != [] {
      AnnounceBlind(r, s, w, events[0]);
      var w1 := Announce(r, w, events[0]);
      if !Wiped(w, w1) { AnnounceAllBlind(r, s, w1, events[1..]); }
    }
  }

  lemma {:induction false} ExecuteBlind(
    r: Rules, s: seq<Pipe>, w: World, script: Script, i: nat, ctx: Ctx, asked: Option<FrameId>)
    requires !w.core.mode.Resting?
    ensures Execute(r, Under(s, w), script, i, ctx, asked)
      == Execute(r, w, script, i, ctx, asked).(world := Over(s, w, Execute(r, w, script, i, ctx, asked).world))
    decreases w.gas, 3, script.length - i
  {
    hide Perform;
    if !Halted(w) && i < script.length {
      var a := script.act(i, ctx, asked, w.core.view);
      if a.Return? {
        assert Do(r, Under(s, w), Edit(a.cards)) == Under(s, Do(r, w, Edit(a.cards)));
      } else {
        PerformBlind(r, s, w, a);
        var w1 := Perform(r, w, a);
        if !Wiped(w, w1) {
          ExecuteBlind(r, s, w1, script, i + 1, a.ctx, if a.Ask? then Some(w.core.nextFrame) else asked);
        }
      }
    }
  }

  lemma PerformBlind(r: Rules, s: seq<Pipe>, w: World, a: Act)
    requires !w.core.mode.Resting? && !a.Return?
    ensures Perform(r, Under(s, w), a) == Over(s, w, Perform(r, w, a))
    decreases w.gas, 3, 0, 1
  {
    match a
    case Emit(cards, _, e) =>
      assert Do(r, Under(s, w), Edit(cards)) == Under(s, Do(r, w, Edit(cards)));
      AnnounceBlind(r, s, Do(r, w, Edit(cards)), e);
    case Ask(cards, _, plays, asking, more) => OpenAndAskBlind(r, s, w, cards, plays, [asking] + more);
  }

  lemma OpenAndAskBlind(r: Rules, s: seq<Pipe>, w: World, cards: Cards, plays: seq<Play>, askings: seq<Asking>)
    requires !w.core.mode.Resting?
    ensures OpenAndAsk(r, Under(s, w), cards, plays, askings) == Over(s, w, OpenAndAsk(r, w, cards, plays, askings))
    decreases w.gas, 3, 0, 0
  {
    var w1 := Do(r, Do(r, w, Edit(cards)), Open);
    assert Do(r, Do(r, Under(s, w), Edit(cards)), Open) == Under(s, w1);
    PlayAllBlind(r, s, w1, plays);
    var w2 := PlayAll(r, w1, plays);
    if !Wiped(w1, w2) { AskAllBlind(r, s, w2, w.core.nextFrame, askings); }
  }

  lemma {:induction false} PlayAllBlind(r: Rules, s: seq<Pipe>, w: World, plays: seq<Play>)
    requires !w.core.mode.Resting?
    ensures PlayAll(r, Under(s, w), plays) == Over(s, w, PlayAll(r, w, plays))
    decreases w.gas, 2, |plays|
  {
    if !Halted(w) && plays != [] {
      var m := Edit(plays[0].edit(w.core.view.table.cards));
      assert Do(r, Under(s, w), m) == Under(s, Do(r, w, m));
      AnnounceBlind(r, s, Do(r, w, m), plays[0].event);
      var w1 := Announce(r, Do(r, w, m), plays[0].event);
      if !Wiped(w, w1) { PlayAllBlind(r, s, w1, plays[1..]); }
    }
  }

  lemma {:induction false} AskAllBlind(r: Rules, s: seq<Pipe>, w: World, f: FrameId, askings: seq<Asking>)
    requires !w.core.mode.Resting?
    ensures AskAll(r, Under(s, w), f, askings) == Over(s, w, AskAll(r, w, f, askings))
    decreases w.gas, 2, |askings|
  {
    hide Announce, AnnounceAll;
    if !Halted(w) && askings != [] && HasFrame(w.core.view, f) {
      AnnounceBlind(r, s, w, askings[0].opening);
      var w1 := Announce(r, w, askings[0].opening);
      if !Wiped(w, w1) { AnnounceAllBlind(r, s, w1, askings[0].standing); }
      var w2 := AnnounceAll(r, w1, askings[0].standing);
      if !Wiped(w, w1) && !Wiped(w1, w2) && !Halted(w2) && HasFrame(w2.core.view, f) {
        var m := AddWindow(f, WindowOf(askings[0]));
        assert Do(r, Under(s, w2), m) == Under(s, Do(r, w2, m));
        AskAllBlind(r, s, Do(r, w2, m), f, askings[1..]);
      }
    }
  }

  // ---------------------------------------------------------------------------
  // The loop is the recursion
  // ---------------------------------------------------------------------------

  /** What the loop is left with when the pipelines above `below` ended in `o`. */
  function Resumed(r: Rules, w: World, o: Outcome, below: seq<Pipe>): World
    requires o.world.core.mode.Looping?
  {
    var base := Unless(Wiped(w, o.world), below);
    if o.stopped then With(o.world, base + o.left) else Loop(r, With(o.world, base))
  }

  ghost predicate Stands(w: World, pipes: seq<Pipe>) {
    w.core.mode.Looping? && w.core.stack == [] && Aged(pipes, 0, w.core.nextPipe)
  }

  ghost predicate Agrees(r: Rules, w: World, o: Outcome, pipes: seq<Pipe>, below: seq<Pipe>)
    requires w.core.mode.Looping? && o.world.core.mode.Looping?
  {
    && o.world.core.stack == []
    && w.core.nextPipe <= o.world.core.nextPipe
    && Loop(r, With(w, below + pipes)) == Resumed(r, w, o, below)
  }

  /** What a step or an announcement starts is younger than everything already there. */
  lemma KidsAreYounger(r: Rules, w: World, w': World, stack: seq<Pipe>)
    requires w.core.stack == [] && Follows(r, w, w') && Aged(stack, 0, w.core.nextPipe)
    ensures w.core.nextPipe <= w'.core.nextPipe
    ensures Aged(stack + w'.core.stack, 0, w'.core.nextPipe)
    ensures forall i | 0 <= i < |w'.core.stack| :: w.core.nextPipe <= w'.core.stack[i].id
  {
    WorldKeepsAged(r, w, w', w.core.nextPipe);
  }

  lemma SameIds(below: seq<Pipe>, q: Pipe, p: Pipe, kids: seq<Pipe>, lo: nat, hi: nat)
    requires Aged(below + [q] + kids, lo, hi) && p.id == q.id
    ensures Aged(below + [p] + kids, lo, hi)
  {
    assert forall i | 0 <= i < |below + [p] + kids| ::
      (below + [p] + kids)[i].id == (below + [q] + kids)[i].id;
  }

  lemma FinishOthers(stack: seq<Pipe>, id: nat, ctx: Ctx, park: Option<FrameId>)
    requires forall i | 0 <= i < |stack| :: stack[i].id != id
    ensures FinishedIn(stack, id, ctx, park) == stack
  {
  }

  lemma FinishParts(a: seq<Pipe>, b: seq<Pipe>, id: nat, ctx: Ctx, park: Option<FrameId>)
    ensures FinishedIn(a + b, id, ctx, park) == FinishedIn(a, id, ctx, park) + FinishedIn(b, id, ctx, park)
  {
    hide FinishedPipe;
    var whole, parts := FinishedIn(a + b, id, ctx, park), FinishedIn(a, id, ctx, park) + FinishedIn(b, id, ctx, park);
    assert |whole| == |parts|;
    forall i | 0 <= i < |whole| ensures whole[i] == parts[i] {
      assert (a + b)[i] == if i < |a| then a[i] else b[i - |a|];
    }
  }

  lemma FinishTop(below: seq<Pipe>, q: Pipe, kids: seq<Pipe>, wiped: bool, ctx: Ctx, park: Option<FrameId>, hi: nat)
    requires Aged(below + [q] + kids, 0, hi)
    ensures FinishedIn(Unless(wiped, below + [q]) + kids, q.id, ctx, park)
      == Unless(wiped, below + [q.(ctx := ctx, pausedOn := park)]) + kids
  {
    hide FinishedIn;
    var all := below + [q] + kids;
    assert all[|below|] == q;
    assert forall i | 0 <= i < |below| :: all[i] == below[i];
    assert forall i | 0 <= i < |kids| :: all[|below| + 1 + i] == kids[i];
    FinishOthers(below, q.id, ctx, park);
    FinishOthers(kids, q.id, ctx, park);
    FinishParts(below, [q], q.id, ctx, park);
    FinishParts(below + [q], kids, q.id, ctx, park);
    assert FinishedIn([q], q.id, ctx, park) == [q.(ctx := ctx, pausedOn := park)];
    assert [] + kids == kids;
  }

  ghost predicate IteratesAs(r: Rules, w: World, p: Pipe, below: seq<Pipe>, a: Alone)
    requires w.core.mode.Looping? && w.gas > 0 && p.pausedOn.None?
  {
    && Top(below + [p]) == p
    && Iterate(r, With(w, below + [p]))
       == Iteration(With(a.world, Unless(Wiped(w, a.world), below + a.rest) + a.kids), a.stop)
    && w.core.nextPipe <= a.world.core.nextPipe
    && Aged(below + a.rest + a.kids, 0, a.world.core.nextPipe)
  }

  lemma PopIterates(r: Rules, w: World, p: Pipe, below: seq<Pipe>)
    requires Stands(w, below + [p])
    requires p.pausedOn.None? && w.gas > 0 && p.steps == []
    ensures IteratesAs(r, w, p, below, PopAlone(r, w, p, below))
  {
    hide Announce, Loop, Execute, IsLastOfCard, Aged, Stands;
    StandsBelow(w, p, below);
    var stack := below + [p];
    var done := IsLastOfCard(below, p);
    var w1 := Noted(w.(gas := w.gas - 1), Pop(p.id, done), Looping);
    var w2 := if done then Announce(r, w1, DoneEvent(p)) else w1;
    assert stack[..|stack| - 1] == below;
    assert Do(r, With(w, stack).(gas := w.gas - 1), Pop(p.id, done)) == Under(below, w1);
    AnnounceBlind(r, below, w1, DoneEvent(p));
    AnnounceFollows(r, w1, DoneEvent(p));
    NothingFollows(r, w1);
    InnerFollows(r, w1, w1);
    KidsAreYounger(r, w1, w2, below);
    assert below + [] == below;
  }

  lemma StandsBelow(w: World, p: Pipe, below: seq<Pipe>)
    requires Stands(w, below + [p])
    ensures w.core.mode.Looping? && w.core.stack == [] && Aged(below, 0, w.core.nextPipe)
  {
    var stack := below + [p];
    assert forall i | 0 <= i < |below| :: stack[i] == below[i];
  }

  lemma BeginAlone(r: Rules, w: World, p: Pipe, below: seq<Pipe>)
    requires w.core.mode.Looping? && w.core.stack == [] && p.pausedOn.None? && w.gas > 0 && p.steps != []
    ensures var stack := below + [p];
      Ready(stack) && Top(stack) == p &&
      Do(r, With(w, stack).(gas := w.gas - 1), Begin(p.id))
        == Under(below + [p.(steps := p.steps[1..])],
             Noted(w.(gas := w.gas - 1), Begin(p.id), Stepping(p.id, w.core.nextFrame)))
  {
    var stack := below + [p];
    assert stack[..|stack| - 1] == below;
  }

  /** A turn of the loop that takes a step, spelled out. */
  lemma IterateSteps(r: Rules, w: World, top: Pipe, w1: World, s: Stepped, park: Option<FrameId>)
    requires w.core.mode.Looping? && Ready(w.core.stack) && w.gas > 0 && top == Top(w.core.stack) && top.steps != []
    requires w1 == Do(r, w.(gas := w.gas - 1), Begin(top.id))
    requires s == Execute(r, w1, top.steps[0], 0, top.ctx, None)
    requires park == if s.park.Some? && HasFrame(s.world.core.view, s.park.value) then s.park else None
    ensures Enabled(r, s.world.core, Finish(top.id, s.ctx, park))
    ensures var w2 := Do(r, s.world, Finish(top.id, s.ctx, park));
      Iterate(r, w) == Iteration(if s.park.Some? && park.None? then w2.(halt := FrameNotOpen) else w2, s.park.Some?)
  {
    hide Execute, Announce, HasFrame;
  }

  lemma StepAges(r: Rules, w: World, p: Pipe, below: seq<Pipe>)
    requires Stands(w, below + [p]) && w.gas > 0 && p.steps != []
    ensures var q, a := p.(steps := p.steps[1..]), StepAlone(r, w, p);
      && w.core.nextPipe <= a.world.core.nextPipe
      && Aged(below + [q] + a.kids, 0, a.world.core.nextPipe)
      && Aged(below + a.rest + a.kids, 0, a.world.core.nextPipe)
  {
    hide Announce, Execute, Aged, HasFrame;
    var q := p.(steps := p.steps[1..]);
    var w1 := Noted(w.(gas := w.gas - 1), Begin(p.id), Stepping(p.id, w.core.nextFrame));
    var s := Execute(r, w1, p.steps[0], 0, p.ctx, None);
    var park := if s.park.Some? && HasFrame(s.world.core.view, s.park.value) then s.park else None;
    NothingFollows(r, w1);
    ExecuteLegal(r, InnerOf(w1), w1, p.steps[0], 0, p.ctx, None);
    InnerFollows(r, w1, s.world);
    assert below + [p] + [] == below + [p] && below + [q] + [] == below + [q];
    SameIds(below, p, q, [], 0, w.core.nextPipe);
    KidsAreYounger(r, w1, s.world, below + [q]);
    SameIds(below, q, q.(ctx := s.ctx, pausedOn := park), s.world.core.stack, 0, s.world.core.nextPipe);
  }

  lemma StepIterates(r: Rules, w: World, p: Pipe, below: seq<Pipe>)
    requires Stands(w, below + [p])
    requires p.pausedOn.None? && w.gas > 0 && p.steps != []
    ensures IteratesAs(r, w, p, below, StepAlone(r, w, p))
  {
    hide Announce, Loop, Execute, Aged, HasFrame, IsLastOfCard, Iterate, FinishedIn;
    StepAges(r, w, p, below);
    BeginAlone(r, w, p, below);
    var stack := below + [p];
    var q := p.(steps := p.steps[1..]);
    var w1 := Noted(w.(gas := w.gas - 1), Begin(p.id), Stepping(p.id, w.core.nextFrame));
    var s := Execute(r, w1, p.steps[0], 0, p.ctx, None);
    var park := if s.park.Some? && HasFrame(s.world.core.view, s.park.value) then s.park else None;
    ExecuteBlind(r, below + [q], w1, p.steps[0], 0, p.ctx, None);
    var begun := Under(below + [q], w1);
    IterateSteps(r, With(w, stack), p, begun, Execute(r, begun, p.steps[0], 0, p.ctx, None), park);
    FinishTop(below, q, s.world.core.stack, Wiped(w1, s.world), s.ctx, park, s.world.core.nextPipe);
  }

  lemma {:induction false} PipeAgrees(r: Rules, w: World, p: Pipe, below: seq<Pipe>)
    requires Stands(w, below + [p])
    ensures Agrees(r, w, RunPipe(r, w, p, below), [p], below)
    decreases w.gas, 0
  {
    var stack := below + [p];
    assert Top(stack) == p;
    if !Halted(w) && p.pausedOn.None? && w.gas > 0 {
      var a := NextAlone(r, w, p, below);
      if p.steps == [] { PopIterates(r, w, p, below); } else { StepIterates(r, w, p, below); }
      NextAgrees(r, w, p, below, a);
    }
  }

  lemma LoopOnce(r: Rules, w: World)
    requires w.core.mode.Looping? && !Halted(w) && Ready(w.core.stack) && w.gas > 0
    ensures Loop(r, w) == if Iterate(r, w).stop then Iterate(r, w).world else Loop(r, Iterate(r, w).world)
  {
    hide Iterate;
  }

  lemma Associate(a: seq<Pipe>, b: seq<Pipe>, c: seq<Pipe>)
    ensures a + (b + c) == a + b + c
  {
  }

  lemma {:induction false} NextAgrees(r: Rules, w: World, p: Pipe, below: seq<Pipe>, a: Alone)
    requires Stands(w, below + [p]) && !Halted(w) && p.pausedOn.None? && w.gas > 0
    requires a == NextAlone(r, w, p, below) && IteratesAs(r, w, p, below, a)
    ensures Agrees(r, w, RunPipe(r, w, p, below), [p], below)
    decreases w.gas, 0, 0
  {
    hide Loop, Iterate, NextAlone, RunAll, Aged;
    var base := Unless(Wiped(w, a.world), below + a.rest);
    LoopOnce(r, With(w, below + [p]));
    if a.stop {
      Associate(below, a.rest, a.kids);
    } else {
      AgedParts(below + a.rest, a.kids, 0, a.world.core.nextPipe, a.world.core.nextPipe);
      assert [] + a.kids == a.kids;
      AllAgrees(r, a.world, a.kids, base);
      var o := RunAll(r, a.world, a.kids, base);
      if Wiped(w, o.world) {
      } else if o.stopped {
        Associate(below, a.rest, o.left);
      } else if a.rest == [] {
        assert below + [] == below;
      } else {
        assert a.rest == [a.rest[0]];
        AgedParts(below + a.rest, a.kids, 0, a.world.core.nextPipe, o.world.core.nextPipe);
        PipeAgrees(r, o.world, a.rest[0], below);
      }
    }
  }

  lemma {:induction false} AllAgrees(r: Rules, w: World, pipes: seq<Pipe>, below: seq<Pipe>)
    requires Stands(w, below + pipes)
    ensures Agrees(r, w, RunAll(r, w, pipes, below), pipes, below)
    decreases w.gas, 1
  {
    hide Loop, RunPipe, Aged;
    if pipes == [] {
      assert below + pipes == below;
    } else {
      var rest := pipes[..|pipes| - 1];
      assert below + pipes == below + rest + [Top(pipes)];
      PipeAgrees(r, w, Top(pipes), below + rest);
      var o := RunPipe(r, w, Top(pipes), below + rest);
      var wiped := Wiped(w, o.world);
      if o.stopped {
        assert below + (rest + o.left) == below + rest + o.left;
      } else {
        var rest', below' := Unless(wiped, rest), Unless(wiped, below);
        assert Unless(wiped, below + rest) == below' + rest';
        AgedParts(below + rest, [Top(pipes)], 0, w.core.nextPipe, o.world.core.nextPipe);
        AgedParts([], below' + rest', 0, o.world.core.nextPipe, o.world.core.nextPipe);
        AllAgrees(r, o.world, rest', below');
      }
    }
  }

  lemma LoopEmpty(r: Rules, w: World)
    requires w.core.mode.Looping? && w.core.stack == []
    ensures Loop(r, w) == w
  {
  }

  /** For every rule table and every board: the drain is the depth-first interpreter, move for move. */
  lemma DrainIsDepthFirst(r: Rules, w: World)
    requires w.core.mode.Resting? && Aged(w.core.stack, 0, w.core.nextPipe)
    ensures Drain(r, w) == DrainDepthFirst(r, w)
  {
    hide Loop, RunAll, Aged, IsConcluded;
    var w1 := With(Noted(w, StartLoop, Looping), []);
    assert Do(r, w, StartLoop) == With(w1, w.core.stack);
    OnNothing(w.core.stack);
    AllAgrees(r, w1, w.core.stack, []);
    var o := RunAll(r, w1, w.core.stack, []);
    OnNothing(o.left);
    LoopEmpty(r, With(o.world, []));
  }

  lemma OnNothing(stack: seq<Pipe>)
    ensures [] + stack == stack && forall wiped :: Unless(wiped, []) + stack == stack
  {
    assert forall wiped :: Unless(wiped, []) + stack == [] + stack;
  }
}
