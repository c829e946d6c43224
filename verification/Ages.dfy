/** Pipelines are numbered as they start, and the stack always lists them oldest first. */
module Ages {
  import opened Board
  import opened Abilities
  import opened Machine

  /** Numbered in rising order, from `lo` up to but not including `hi`. */
  ghost predicate Aged(stack: seq<Pipe>, lo: nat, hi: nat) {
    && (forall i | 0 <= i < |stack| :: lo <= stack[i].id < hi)
    && (forall i, j | 0 <= i < j < |stack| :: stack[i].id < stack[j].id)
  }

  lemma AgedParts(a: seq<Pipe>, b: seq<Pipe>, lo: nat, hi: nat, hi': nat)
    requires Aged(a + b, lo, hi) && hi <= hi'
    ensures Aged(a, lo, hi') && Aged(b, lo, hi')
  {
    assert forall i | 0 <= i < |a| :: a[i] == (a + b)[i];
    assert forall i | 0 <= i < |b| :: b[i] == (a + b)[|a| + i];
  }

  lemma {:induction false} DroppedAged(stack: seq<Pipe>, f: FrameId, lo: nat, hi: nat)
    requires Aged(stack, lo, hi)
    ensures Aged(Dropped(stack, f), lo, hi)
    ensures stack != [] && !WaitsOn(Top(stack), f) ==> Dropped(stack, f) != [] && Top(Dropped(stack, f)) == Top(stack)
  {
    if stack != [] {
      var rest := Dropped(stack[..|stack| - 1], f);
      DroppedAged(stack[..|stack| - 1], f, lo, Top(stack).id);
    }
  }

  lemma MoveKeepsAged(r: Rules, c: Core, m: Move, lo: nat)
    requires Enabled(r, c, m) && lo <= c.nextPipe && Aged(c.stack, lo, c.nextPipe)
    ensures c.nextPipe <= Apply(r, c, m).nextPipe
    ensures Aged(Apply(r, c, m).stack, lo, Apply(r, c, m).nextPipe)
  {
    if TouchesStack(m) {
      if m.Restore? { DroppedAged(c.stack, m.frame, lo, c.nextPipe); }
    } else {
      StackKept(r, c, m);
      hide Apply, Enabled;
    }
  }

  lemma {:induction false} LogKeepsAged(r: Rules, c: Core, log: seq<Move>, lo: nat)
    requires Legal(r, c, log) && lo <= c.nextPipe && Aged(c.stack, lo, c.nextPipe)
    ensures c.nextPipe <= After(r, c, log).nextPipe
    ensures Aged(After(r, c, log).stack, lo, After(r, c, log).nextPipe)
  {
    if log != [] {
      LogKeepsAged(r, c, log[..|log| - 1], lo);
      MoveKeepsAged(r, After(r, c, log[..|log| - 1]), log[|log| - 1], lo);
    }
  }

  lemma WorldKeepsAged(r: Rules, w: World, w': World, lo: nat)
    requires Follows(r, w, w') && lo <= w.core.nextPipe && Aged(w.core.stack, lo, w.core.nextPipe)
    ensures w.core.nextPipe <= w'.core.nextPipe
    ensures Aged(w'.core.stack, lo, w'.core.nextPipe)
  {
    LogKeepsAged(r, w.core, w'.log[|w.log|..], lo);
  }
}
