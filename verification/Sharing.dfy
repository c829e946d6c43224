/**
 * The pipelines as the engine holds them: objects on the heap, each with a list
 * of steps that is consumed in place, woken and parked by assignment. A rule's
 * list is built once and used for ever. Copying it at the push keeps the two
 * apart: whatever a run of the engine does to its stack, re-entrant pushes,
 * parks, wakes and rollbacks included, the rules declare the steps they declared.
 */
module Sharing {
  import opened Board
  import opened Abilities
  import opened Machine

  class StepList {
    var items: seq<Script>

    constructor (items: seq<Script>)
      ensures this.items == items
    {
      this.items := items;
    }

    /** Takes the first step off. */
    method Shift() returns (step: Script)
      requires items != []
      modifies this
      ensures [step] + items == old(items)
    {
      step := items[0];
      items := items[1..];
    }
  }

  class Pipeline {
    const id: nat
    const card: Id
    const owner: Id
    const system: bool
    const steps: StepList
    var ctx: Ctx
    var pausedOn: Option<FrameId>

    constructor (id: nat, start: Start, steps: StepList)
      ensures this.id == id && card == start.card && owner == start.owner && system == start.system
      ensures this.steps == steps && ctx == start.ctx && pausedOn == None
    {
      this.id, card, owner, system, this.steps := id, start.card, start.owner, start.system, steps;
      ctx, pausedOn := start.ctx, None;
    }

    function AsPipe(): Pipe
      reads this, steps
    {
      Pipe(id, card, owner, system, steps.items, ctx, pausedOn)
    }
  }

  class PipelineStack {
    /** The rules' own lists. */
    const table: seq<StepList>
    var pipelines: seq<Pipeline>
    var nextPipe: nat

    constructor (table: seq<StepList>)
      ensures Valid() && this.table == table && pipelines == [] && nextPipe == 0 && Contents() == []
    {
      this.table, pipelines, nextPipe := table, [], 0;
    }

    /** The pipelines and their lists. */
    ghost function Parts(): set<object>
      reads this
    {
      (set i | 0 <= i < |pipelines| :: pipelines[i]) + (set i | 0 <= i < |pipelines| :: pipelines[i].steps)
    }

    /** No two pipelines share a list, and none has one of the rules'. */
    ghost predicate Valid()
      reads this
    {
      && (forall i, j | 0 <= i < j < |pipelines| :: pipelines[i].steps != pipelines[j].steps)
      && (forall i | 0 <= i < |pipelines| :: pipelines[i].steps !in table)
    }

    ghost function Contents(): (stack: seq<Pipe>)
      reads this, Parts()
      ensures |stack| == |pipelines|
      ensures forall i | 0 <= i < |stack| :: stack[i] == pipelines[i].AsPipe()
    {
      seq(|pipelines|, i requires 0 <= i < |pipelines| reads this, Parts() => pipelines[i].AsPipe())
    }

    ghost function Declared(): (lists: seq<seq<Script>>)
      reads table
      ensures |lists| == |table|
    {
      seq(|table|, i requires 0 <= i < |table| reads table => table[i].items)
    }

    /** A rule's pipeline starts with a copy of the rule's steps. */
    method PushPipeline(rule: nat, start: Start)
      requires Valid() && rule < |table| && Declared()[rule] == start.steps
      modifies this
      ensures Valid() && nextPipe == old(nextPipe) + 1 && Declared() == old(Declared())
      ensures Contents() == old(Contents()) + [Pipe(old(nextPipe), start.card, start.owner, start.system, start.steps, start.ctx, None)]
      ensures fresh(Parts() - old(Parts()))
    {
      var copy := new StepList(table[rule].items);
      var pipeline := new Pipeline(nextPipe, start, copy);
      pipelines := pipelines + [pipeline];
      nextPipe := nextPipe + 1;
    }

    /** The top pipeline's next step, taken off its own list and nobody else's. */
    method NextStep() returns (step: Script)
      requires Valid() && pipelines != [] && Top(Contents()).steps != []
      modifies pipelines[|pipelines| - 1].steps
      ensures Valid() && Declared() == old(Declared())
      ensures var top := Top(old(Contents()));
        && [step] + top.steps[1..] == top.steps
        && Contents() == old(Contents())[..|pipelines| - 1] + [top.(steps := top.steps[1..])]
    {
      step := pipelines[|pipelines| - 1].steps.Shift();
    }

    method PopPipeline()
      requires Valid() && pipelines != []
      modifies this`pipelines
      ensures Valid() && Declared() == old(Declared())
      ensures Contents() == old(Contents())[..old(|pipelines|) - 1] && Parts() <= old(Parts())
    {
      pipelines := pipelines[..|pipelines| - 1];
    }

    /** The step that ran leaves its context, and may park its pipeline, which need not be on top any more. */
    method FinishStep(id: nat, ctx: Ctx, park: Option<FrameId>)
      requires Valid()
      modifies Parts()
      ensures Valid() && Declared() == old(Declared()) && Contents() == FinishedIn(old(Contents()), id, ctx, park)
      ensures Parts() == old(Parts())
    {
      ghost var before := Contents();
      var i := 0;
      while i < |pipelines|
        invariant i <= |pipelines| && Declared() == old(Declared())
        invariant forall j | 0 <= j < i :: pipelines[j].AsPipe() == FinishedPipe(before[j], id, ctx, park)
        invariant forall j | i <= j < |pipelines| :: pipelines[j].AsPipe() == before[j]
      {
        var pipeline := pipelines[i];
        if pipeline.id == id { pipeline.ctx, pipeline.pausedOn := ctx, park; }
        i := i + 1;
      }
    }

    /** Whoever waited on the frame wakes with its writes. */
    method WakeAll(f: FrameId, slots: seq<Slot>)
      requires Valid()
      modifies Parts()
      ensures Valid() && Declared() == old(Declared()) && Contents() == WokenIn(old(Contents()), f, slots)
      ensures Parts() == old(Parts())
    {
      ghost var before := Contents();
      var i := 0;
      while i < |pipelines|
        invariant i <= |pipelines| && Declared() == old(Declared())
        invariant forall j | 0 <= j < i :: pipelines[j].AsPipe() == WokenPipe(before[j], f, slots)
        invariant forall j | i <= j < |pipelines| :: pipelines[j].AsPipe() == before[j]
      {
        var pipeline := pipelines[i];
        if pipeline.pausedOn == Some(f) {
          pipeline.ctx, pipeline.pausedOn := Written(pipeline.ctx, slots), None;
        }
        i := i + 1;
      }
    }

    /** Those that do not wait on the frame, in their order; `places` says where they stood. */
    method OthersThan(f: FrameId) returns (kept: seq<Pipeline>, ghost places: seq<nat>)
      requires Valid()
      ensures |kept| == |places|
      ensures forall k | 0 <= k < |kept| :: places[k] < |pipelines| && kept[k] == pipelines[places[k]]
      ensures Picks(Contents(), places, Dropped(Contents(), f))
    {
      hide Dropped;
      ghost var before, left: seq<Pipe> := Contents(), [];
      kept, places := [], [];
      var i := 0;
      DroppedNone(f);
      assert before[..0] == [];
      while i < |pipelines|
        invariant i <= |pipelines| == |before| && before == Contents() && left == Dropped(before[..i], f)
        invariant |kept| == |places| && Picks(before[..i], places, left)
        invariant forall k | 0 <= k < |kept| :: places[k] < i && kept[k] == pipelines[places[k]]
      {
        OneMore(before, i, f);
        PicksOneMore(before, places, left, i);
        if pipelines[i].pausedOn != Some(f) {
          kept, places, left := kept + [pipelines[i]], places + [i], left + [before[i]];
        }
        i := i + 1;
      }
      assert before[..i] == before;
    }

    /** A rollback drops whoever waited on the frame. */
    method DropWaiters(f: FrameId)
      requires Valid()
      modifies this`pipelines
      ensures Valid() && Declared() == old(Declared())
      ensures Contents() == Dropped(old(Contents()), f) && Parts() <= old(Parts())
    {
      var kept, places := OthersThan(f);
      ghost var parts, left := Parts(), Dropped(Contents(), f);
      hide Dropped;
      assert forall k | 0 <= k < |kept| :: kept[k].steps !in table && kept[k] in parts && kept[k].steps in parts;
      pipelines := kept;
      assert Valid();
      assert Contents() == left;
      assert Parts() <= parts;
    }

    /** The end of the game takes every pipeline. */
    method Clear()
      modifies this`pipelines
      ensures Valid() && Declared() == old(Declared()) && Contents() == [] && Parts() == {}
    {
      pipelines := [];
    }

    /** A move that changes pipelines where they stand. */
    method MakeInPlace(ghost r: Rules, ghost c: Core, m: Move)
      requires Valid() && Contents() == c.stack && Enabled(r, c, m) && (m.Begin? || m.Finish? || m.Wake?)
      modifies Parts()
      ensures Valid() && Contents() == Apply(r, c, m).stack && Declared() == old(Declared()) && Parts() == old(Parts())
    {
      hide Apply, Enabled, Dropped, FinishedIn, WokenIn;
      StackMoves(r, c, m);
      match m {
        case Begin(_) => var _ := NextStep();
        case Finish(id, ctx, park) => FinishStep(id, ctx, park);
        case Wake(f, slots) => WakeAll(f, slots);
      }
    }

    /** A move that takes pipelines off. */
    method MakeShorter(ghost r: Rules, ghost c: Core, m: Move)
      requires Valid() && Contents() == c.stack && Enabled(r, c, m) && (m.Pop? || m.Restore? || m.Conclude?)
      modifies this`pipelines
      ensures Valid() && Contents() == Apply(r, c, m).stack && Declared() == old(Declared()) && Parts() <= old(Parts())
    {
      hide Apply, Enabled, Dropped;
      StackMoves(r, c, m);
      match m {
        case Pop(_, _) => PopPipeline();
        case Restore(f) => DropWaiters(f);
        case Conclude(_) => Clear();
      }
    }

    /** One move of the engine, made on the objects. */
    method Make(ghost r: Rules, ghost c: Core, m: Move, rule: nat)
      requires Valid() && Contents() == c.stack && nextPipe == c.nextPipe && Enabled(r, c, m)
      requires m.Push? ==> rule < |table| && Declared()[rule] == m.start.steps
      modifies this, Parts()
      ensures Valid() && Contents() == Apply(r, c, m).stack && nextPipe == Apply(r, c, m).nextPipe
      ensures Declared() == old(Declared()) && fresh(Parts() - old(Parts()))
    {
      hide Apply, Enabled, Dropped, FinishedIn, WokenIn;
      StackMoves(r, c, m);
      if m.Push? {
        PushPipeline(rule, m.start);
      } else if m.Begin? || m.Finish? || m.Wake? {
        MakeInPlace(r, c, m);
      } else if m.Pop? || m.Restore? || m.Conclude? {
        MakeShorter(r, c, m);
      }
    }

    /**
     * A whole run. Made on the objects one after another, the moves of any legal
     * log, so of any run of the engine, lead to the engine's own stack, and the
     * rules' lists are as they were. `rules` says whose steps each push starts.
     */
    method Replay(ghost r: Rules, ghost o: Core, log: seq<Move>, rules: seq<nat>)
      requires Valid() && pipelines == [] && nextPipe == 0 && IsInitial(o) && Legal(r, o, log)
      requires |rules| == |log|
      requires forall i | 0 <= i < |log| && log[i].Push? :: rules[i] < |table| && Declared()[rules[i]] == log[i].start.steps
      modifies this
      ensures Valid() && Contents() == After(r, o, log).stack && Declared() == old(Declared())
    {
      hide Apply, Enabled;
      var i := 0;
      assert log[..0] == [];
      while i < |log|
        invariant i <= |log| && Valid() && Declared() == old(Declared()) && fresh(Parts())
        invariant Contents() == After(r, o, log[..i]).stack && nextPipe == After(r, o, log[..i]).nextPipe
      {
        LegalUpTo(r, o, log, i);
        Make(r, After(r, o, log[..i]), log[i], rules[i]);
        i := i + 1;
      }
      assert log[..i] == log;
    }
  }

  /** The second sequence is what stands in the first at these places, which rise. */
  ghost predicate Picks(stack: seq<Pipe>, places: seq<nat>, left: seq<Pipe>) {
    && |places| == |left|
    && (forall k | 0 <= k < |places| :: places[k] < |stack| && left[k] == stack[places[k]])
    && (forall j, k | 0 <= j < k < |places| :: places[j] < places[k])
  }

  lemma PicksOneMore(stack: seq<Pipe>, places: seq<nat>, left: seq<Pipe>, i: nat)
    requires i < |stack| && Picks(stack[..i], places, left)
    ensures Picks(stack[..i + 1], places, left) && Picks(stack[..i + 1], places + [i], left + [stack[i]])
  {
  }

  lemma DroppedNone(f: FrameId)
    ensures Dropped([], f) == []
  {
  }

  lemma OneMore(stack: seq<Pipe>, i: nat, f: FrameId)
    requires i < |stack|
    ensures Dropped(stack[..i + 1], f) == if WaitsOn(stack[i], f) then Dropped(stack[..i], f) else Dropped(stack[..i], f) + [stack[i]]
  {
    assert stack[..i + 1][..i] == stack[..i];
  }

  /** What each move does to the stack. */
  lemma StackMoves(r: Rules, c: Core, m: Move)
    requires Enabled(r, c, m)
    ensures m.Begin? || m.Pop? ==> c.stack != [] && (m.Begin? ==> Top(c.stack).steps != [])
    ensures Apply(r, c, m).nextPipe == c.nextPipe + if m.Push? then 1 else 0
    ensures Apply(r, c, m).stack ==
      match m
      case Push(s) => c.stack + [Pipe(c.nextPipe, s.card, s.owner, s.system, s.steps, s.ctx, None)]
      case Begin(_) => c.stack[..|c.stack| - 1] + [Top(c.stack).(steps := Top(c.stack).steps[1..])]
      case Finish(id, ctx, park) => FinishedIn(c.stack, id, ctx, park)
      case Pop(_, _) => c.stack[..|c.stack| - 1]
      case Wake(f, slots) => WokenIn(c.stack, f, slots)
      case Restore(f) => Dropped(c.stack, f)
      case Conclude(_) => []
      case _ => c.stack
  {
  }

  lemma {:induction false} LegalUpTo(r: Rules, o: Core, log: seq<Move>, k: nat)
    requires Legal(r, o, log) && k < |log|
    ensures Enabled(r, After(r, o, log[..k]), log[k])
    ensures After(r, o, log[..k + 1]) == Apply(r, After(r, o, log[..k]), log[k])
  {
    hide Enabled, Apply;
    var pre := log[..|log| - 1];
    if k < |pre| {
      LegalUpTo(r, o, pre, k);
      assert pre[..k] == log[..k] && pre[..k + 1] == log[..k + 1];
    } else {
      assert log[..k + 1] == log && log[..k] == pre;
    }
  }
}
