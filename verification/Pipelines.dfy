/**
 * What holds of the pipelines over every run: each runs its own steps, in order
 * and once; a parked one sleeps until its own frame resolves; `AbilityDone`
 * counts the cards that finish; a pipeline that left the stack never comes back.
 */
module Pipelines {
  import opened Board
  import opened Abilities
  import opened Machine
  import opened Ages

  ghost function Before(log: seq<Move>): seq<Move>
    requires log != []
  {
    log[..|log| - 1]
  }

  function Last(log: seq<Move>): Move
    requires log != []
  {
    log[|log| - 1]
  }

  lemma {:induction false} StackIsAged(r: Rules, o: Core, log: seq<Move>)
    requires IsInitial(o) && Legal(r, o, log)
    ensures Aged(After(r, o, log).stack, 0, After(r, o, log).nextPipe)
  {
    LogKeepsAged(r, o, log, 0);
  }

  // ---------------------------------------------------------------------------
  // Conservation of steps
  // ---------------------------------------------------------------------------

  /**
   * What a log tells of one pipeline: the run it was started as, the steps it
   * took, whether it was popped, the context its last step left with the writes
   * it was woken with, and the frame it waits for.
   */
  datatype Account = Account(
    start: Option<Start>, ran: seq<Script>, popped: bool, ctx: Ctx, park: Option<FrameId>)

  const NO_ACCOUNT := Account(None, [], false, map[], None)

  ghost function Entered(c: Core, m: Move, a: Account, pipe: nat): Account {
    match m
    case Push(start) => if c.nextPipe == pipe then a.(start := Some(start), ctx := start.ctx) else a
    case Begin(id) =>
      if id == pipe && c.stack != [] && Top(c.stack).steps != [] then a.(ran := a.ran + [Top(c.stack).steps[0]]) else a
    case Pop(id, _) => if id == pipe then a.(popped := true) else a
    case Finish(id, ctx, park) => if id == pipe && a.start.Some? then a.(ctx := ctx, park := park) else a
    case Wake(f, slots) => if a.park == Some(f) then a.(ctx := Written(a.ctx, slots), park := None) else a
    case _ => a
  }

  ghost function AccountOf(r: Rules, o: Core, log: seq<Move>, pipe: nat): Account {
    if log == [] then NO_ACCOUNT
    else Entered(After(r, o, Before(log)), Last(log), AccountOf(r, o, Before(log), pipe), pipe)
  }

  ghost predicate OnStack(c: Core, pipe: nat) {
    exists i | 0 <= i < |c.stack| :: c.stack[i].id == pipe
  }

  /** The pipeline on the stack is the run it was started as, less the steps it took. */
  ghost predicate Matches(p: Pipe, a: Account) {
    && a.start.Some?
    && a.ran + p.steps == a.start.value.steps
    && p.card == a.start.value.card && p.owner == a.start.value.owner && p.system == a.start.value.system
    && p.ctx == a.ctx && p.pausedOn == a.park
  }

  /** What the log says of one pipeline agrees with what the stack holds of it. */
  ghost predicate Balanced(c: Core, a: Account, pipe: nat) {
    if c.nextPipe <= pipe then a == NO_ACCOUNT && !OnStack(c, pipe)
    else
      && a.start.Some? && a.ran <= a.start.value.steps
      && (a.popped ==> a.ran == a.start.value.steps && !OnStack(c, pipe))
      && (forall i | 0 <= i < |c.stack| && c.stack[i].id == pipe :: Matches(c.stack[i], a))
  }

  lemma BeginBalances(r: Rules, c: Core, m: Move, a: Account, pipe: nat)
    requires Enabled(r, c, m) && (m.Begin? || m.Pop?)
    requires Balanced(c, a, pipe) && Aged(c.stack, 0, c.nextPipe)
    ensures Balanced(Apply(r, c, m), Entered(c, m, a, pipe), pipe)
  {
    var c' := Apply(r, c, m);
    var top := Top(c.stack);
    assert top == c.stack[|c.stack| - 1];
    assert forall i | 0 <= i < |c.stack| - 1 :: c'.stack[i] == c.stack[i] && c.stack[i].id != top.id;
    if m.Begin? {
      assert Top(c'.stack) == c'.stack[|c.stack| - 1];
      assert a.ran + top.steps == a.ran + [top.steps[0]] + top.steps[1..];
    } else {
      assert a.ran + [] == a.ran;
    }
  }

  /** One move on, every pipeline's account still balances. */
  lemma EveryMoveBalances(r: Rules, c: Core, m: Move, a: Account, pipe: nat)
    requires Enabled(r, c, m) && Balanced(c, a, pipe) && Aged(c.stack, 0, c.nextPipe)
    ensures Balanced(Apply(r, c, m), Entered(c, m, a, pipe), pipe)
  {
    var c' := Apply(r, c, m);
    if !TouchesStack(m) {
      StackKept(r, c, m);
    } else if m.Begin? || m.Pop? {
      BeginBalances(r, c, m, a, pipe);
    } else if m.Push? {
      assert forall i | 0 <= i < |c.stack| :: c'.stack[i] == c.stack[i];
    } else if m.Restore? {
      assert forall i | 0 <= i < |c'.stack| :: c'.stack[i] in c'.stack && c'.stack[i] in c.stack;
    }
  }

  /**
   * Conservation, over every run and for every pipeline ever started: what it
   * has run, followed by what is left of it, is exactly what its rule declared;
   * it acts for whom it was started for, and goes from step to step with what the
   * last one left it and what it was woken with; one that left the stack by itself
   * has run all of it, and one that was cancelled has run a prefix.
   */
  lemma {:induction false} EveryPipelineRunsItsOwnSteps(r: Rules, o: Core, log: seq<Move>, pipe: nat)
    requires IsInitial(o) && Legal(r, o, log)
    ensures Balanced(After(r, o, log), AccountOf(r, o, log, pipe), pipe)
  {
    if log != [] {
      EveryPipelineRunsItsOwnSteps(r, o, Before(log), pipe);
      StackIsAged(r, o, Before(log));
      EveryMoveBalances(r, After(r, o, Before(log)), Last(log), AccountOf(r, o, Before(log), pipe), pipe);
    }
  }

  // ---------------------------------------------------------------------------
  // Sleeping and waking
  // ---------------------------------------------------------------------------

  ghost predicate NoWake(log: seq<Move>, f: FrameId) {
    forall k | 0 <= k < |log| :: !(log[k].Wake? && log[k].frame == f)
  }

  ghost predicate NoBegin(log: seq<Move>, pipe: nat) {
    forall k | 0 <= k < |log| :: log[k] != Begin(pipe)
  }

  /** Whatever is on the stack under this number is `p`, as it is. */
  ghost predicate Unmoved(c: Core, p: Pipe) {
    && p.id < c.nextPipe
    && !(c.mode.Stepping? && c.mode.pipe == p.id)
    && forall i | 0 <= i < |c.stack| && c.stack[i].id == p.id :: c.stack[i] == p
  }

  lemma SleepsOneMove(r: Rules, c: Core, m: Move, p: Pipe, f: FrameId)
    requires Enabled(r, c, m) && Unmoved(c, p) && p.pausedOn == Some(f) && !(m.Wake? && m.frame == f)
    ensures Unmoved(Apply(r, c, m), p) && m != Begin(p.id)
  {
    var c' := Apply(r, c, m);
    if m.Begin? || m.Pop? {
      assert c.stack[|c.stack| - 1] == Top(c.stack);
      assert forall i | 0 <= i < |c.stack| - 1 :: c'.stack[i] == c.stack[i];
    } else if m.Push? {
      assert forall i | 0 <= i < |c.stack| :: c'.stack[i] == c.stack[i];
    } else if m.Restore? {
      assert forall i | 0 <= i < |c'.stack| :: c'.stack[i] in c'.stack;
    }
  }

  /** A parked pipeline runs nothing, and nothing of it changes, until its own frame resolves. */
  lemma {:induction false} SleepsUntilItsFrameResolves(r: Rules, c: Core, log: seq<Move>, p: Pipe, f: FrameId)
    requires Legal(r, c, log) && Unmoved(c, p) && p.pausedOn == Some(f) && NoWake(log, f)
    ensures Unmoved(After(r, c, log), p) && NoBegin(log, p.id)
  {
    if log != [] {
      assert NoWake(Before(log), f) by {
        forall k | 0 <= k < |Before(log)| ensures !(Before(log)[k].Wake? && Before(log)[k].frame == f) {
          assert Before(log)[k] == log[k];
        }
      }
      SleepsUntilItsFrameResolves(r, c, Before(log), p, f);
      SleepsOneMove(r, After(r, c, Before(log)), Last(log), p, f);
      forall k | 0 <= k < |log| ensures log[k] != Begin(p.id) {
        if k < |log| - 1 { assert Before(log)[k] == log[k]; }
      }
    }
  }

  lemma {:induction false} WrittenHolds(ctx: Ctx, slots: seq<Slot>, i: nat)
    requires i < |slots| && forall j | i < j < |slots| :: slots[j].key != slots[i].key
    ensures slots[i].key in Written(ctx, slots) && Written(ctx, slots)[slots[i].key] == slots[i].value
  {
    if i < |slots| - 1 {
      var init := slots[..|slots| - 1];
      assert init[i] == slots[i] && forall j | i < j < |init| :: init[j] == slots[j];
      WrittenHolds(ctx, init, i);
    }
  }

  /** Resolving its frame wakes it, every write of that frame in its context and nothing else changed. */
  lemma WakesWithTheWrites(r: Rules, c: Core, f: FrameId, slots: seq<Slot>, i: nat, k: nat)
    requires Enabled(r, c, Wake(f, slots)) && i < |c.stack| && WaitsOn(c.stack[i], f)
    requires k < |slots| && forall j | k < j < |slots| :: slots[j].key != slots[k].key
    ensures var p, p' := c.stack[i], Apply(r, c, Wake(f, slots)).stack[i];
      && p' == p.(pausedOn := None, ctx := p'.ctx)
      && slots[k].key in p'.ctx && p'.ctx[slots[k].key] == slots[k].value
  {
    WrittenHolds(c.stack[i].ctx, slots, k);
  }

  // ---------------------------------------------------------------------------
  // AbilityDone
  // ---------------------------------------------------------------------------

  lemma {:induction false} SameCounts(a: seq<Pipe>, b: seq<Pipe>, card: Id)
    requires |a| == |b|
    requires forall i | 0 <= i < |a| :: a[i].card == b[i].card && a[i].system == b[i].system
    ensures CountFor(a, card) == CountFor(b, card)
  {
    if a != [] { SameCounts(a[..|a| - 1], b[..|b| - 1], card); }
  }

  lemma {:induction false} CountsNone(stack: seq<Pipe>, card: Id)
    ensures CountFor(stack, card) == 0 <==> forall i | 0 <= i < |stack| :: !RunsFor(stack[i], card)
  {
    if stack != [] {
      CountsNone(stack[..|stack| - 1], card);
      assert forall i | 0 <= i < |stack| - 1 :: stack[..|stack| - 1][i] == stack[i];
    }
  }

  ghost function Running(r: Rules, o: Core, log: seq<Move>, card: Id): nat {
    CountFor(After(r, o, log).stack, card)
  }

  /** How often a card went from nothing printed on the stack to something. */
  ghost function Bursts(r: Rules, o: Core, log: seq<Move>, card: Id): nat {
    if log == [] then 0
    else
      var more := if Running(r, o, Before(log), card) == 0 < Running(r, o, log, card) then 1 else 0;
      Bursts(r, o, Before(log), card) + more
  }

  /** How often `AbilityDone` went out for a card. */
  ghost function Dones(r: Rules, o: Core, log: seq<Move>, card: Id): nat {
    if log == [] then 0
    else
      var c := After(r, o, Before(log));
      var more := if Last(log).Pop? && Last(log).done && c.stack != [] && Top(c.stack).card == card then 1 else 0;
      Dones(r, o, Before(log), card) + more
  }

  /** How often a rollback or the end of the game took the last of a card's printed pipelines. */
  ghost function Cancelled(r: Rules, o: Core, log: seq<Move>, card: Id): nat {
    if log == [] then 0
    else
      var taken := Running(r, o, log, card) == 0 < Running(r, o, Before(log), card);
      var more := if (Last(log).Restore? || Last(log).Conclude?) && taken then 1 else 0;
      Cancelled(r, o, Before(log), card) + more
  }

  /** `AbilityDone` goes out exactly at the pops that take a card's printed pipelines from one to none. */
  lemma DoneIsTheLastPop(r: Rules, c: Core, pipe: nat, done: bool)
    requires Enabled(r, c, Pop(pipe, done))
    ensures var card, after := Top(c.stack).card, Apply(r, c, Pop(pipe, done)).stack;
      && (done <==> CountFor(c.stack, card) == 1 && CountFor(after, card) == 0)
      && (Top(c.stack).system ==> CountFor(after, card) == CountFor(c.stack, card))
  {
    CountsNone(c.stack[..|c.stack| - 1], Top(c.stack).card);
  }

  lemma {:induction false} DroppedCounts(stack: seq<Pipe>, f: FrameId, card: Id)
    ensures CountFor(Dropped(stack, f), card) <= CountFor(stack, card)
  {
    if stack != [] {
      var rest := Dropped(stack[..|stack| - 1], f);
      DroppedCounts(stack[..|stack| - 1], f, card);
      assert (rest + [Top(stack)])[..|rest|] == rest;
    }
  }

  lemma CountMoves(r: Rules, c: Core, m: Move, card: Id)
    requires Enabled(r, c, m)
    ensures var n, n' := CountFor(c.stack, card), CountFor(Apply(r, c, m).stack, card);
      && (n < n' ==> m.Push?)
      && (n' < n ==> m.Restore? || m.Conclude? || (m.Pop? && n' == n - 1 && Top(c.stack).card == card && (m.done <==> n' == 0)))
      && (m.Pop? && m.done && Top(c.stack).card == card ==> n == 1 && n' == 0)
  {
    var c' := Apply(r, c, m);
    if !TouchesStack(m) {
      StackKept(r, c, m);
    } else if m.Push? {
      assert c'.stack[..|c.stack|] == c.stack;
    } else if m.Pop? {
      CountsNone(c'.stack, card);
    } else if m.Restore? {
      DroppedCounts(c.stack, m.frame, card);
    } else if !m.Conclude? {
      SameCounts(c.stack, c'.stack, card);
    }
  }

  /**
   * The books of `AbilityDone`, over every run and for every card: each burst
   * of printed pipelines ends in exactly one announcement, one rollback or the
   * end of the game, or is still going.
   */
  lemma {:induction false} EveryBurstEndsOnce(r: Rules, o: Core, log: seq<Move>, card: Id)
    requires IsInitial(o) && Legal(r, o, log)
    ensures Bursts(r, o, log, card) ==
      Dones(r, o, log, card) + Cancelled(r, o, log, card) + if Running(r, o, log, card) > 0 then 1 else 0
  {
    if log != [] {
      EveryBurstEndsOnce(r, o, Before(log), card);
      CountMoves(r, After(r, o, Before(log)), Last(log), card);
    }
  }

  // ---------------------------------------------------------------------------
  // Gone is gone
  // ---------------------------------------------------------------------------

  ghost predicate Gone(c: Core, pipe: nat) {
    pipe < c.nextPipe && !OnStack(c, pipe)
  }

  lemma GoneOneMove(r: Rules, c: Core, m: Move, pipe: nat)
    requires Enabled(r, c, m) && Gone(c, pipe)
    ensures Gone(Apply(r, c, m), pipe) && m != Begin(pipe)
  {
    var c' := Apply(r, c, m);
    if !TouchesStack(m) {
      StackKept(r, c, m);
    } else if m.Restore? {
      assert forall i | 0 <= i < |c'.stack| :: c'.stack[i] in c'.stack && c'.stack[i] in c.stack;
    } else if m.Push? {
      assert forall i | 0 <= i < |c.stack| :: c'.stack[i] == c.stack[i];
    } else if m.Begin? {
      assert Top(c.stack) == c.stack[|c.stack| - 1];
    } else if !m.Conclude? {
      assert forall i | 0 <= i < |c'.stack| :: c'.stack[i].id == c.stack[i].id;
    }
  }

  /** A pipeline that finished, was rolled back or was cleared away never runs another step. */
  lemma {:induction false} GoneForGood(r: Rules, c: Core, log: seq<Move>, pipe: nat)
    requires Legal(r, c, log) && Gone(c, pipe)
    ensures Gone(After(r, c, log), pipe) && NoBegin(log, pipe)
  {
    if log != [] {
      GoneForGood(r, c, Before(log), pipe);
      GoneOneMove(r, After(r, c, Before(log)), Last(log), pipe);
      forall k | 0 <= k < |log| ensures log[k] != Begin(pipe) {
        if k < |log| - 1 { assert Before(log)[k] == log[k]; }
      }
    }
  }

  /** Whoever is about to move is younger than nobody: all it started has already left the stack. */
  lemma NextToMoveIsYoungest(r: Rules, o: Core, log: seq<Move>, m: Move)
    requires IsInitial(o) && Legal(r, o, log) && Enabled(r, After(r, o, log), m) && (m.Begin? || m.Pop?)
    ensures forall q | m.pipe < q < After(r, o, log).nextPipe :: Gone(After(r, o, log), q)
  {
    StackIsAged(r, o, log);
    hide Legal, After, IsInitial;
    MoverIsYoungest(r, After(r, o, log), m);
  }

  lemma MoverIsYoungest(r: Rules, c: Core, m: Move)
    requires Enabled(r, c, m) && (m.Begin? || m.Pop?) && Aged(c.stack, 0, c.nextPipe)
    ensures forall q | m.pipe < q < c.nextPipe :: Gone(c, q)
  {
    assert Top(c.stack) == c.stack[|c.stack| - 1];
  }
}
