/** Commands answered once: what each seat was last told, and when the engine is asked again. */
module Ledger {
  import opened Board

  type Seat = string
  type CommandId = string

  const REMEMBERED_PER_SEAT := 64

  datatype Result = Result(command: CommandId, accepted: bool, error: Option<string>)

  const INTERNAL_ERROR := "INTERNAL_ERROR"

  // ---------------------------------------------------------------------------
  // A map that keeps the order of insertion
  // ---------------------------------------------------------------------------

  datatype Entry = Entry(id: CommandId, result: Result)

  type Answers = seq<Entry>

  predicate HasId(answers: Answers, id: CommandId) {
    exists e | e in answers :: e.id == id
  }

  function Get(answers: Answers, id: CommandId): (r: Option<Result>)
    ensures r.None? <==> !HasId(answers, id)
  {
    if answers == [] then None
    else if answers[0].id == id then Some(answers[0].result)
    else Get(answers[1..], id)
  }

  /** Setting a key again changes its value and leaves it where it was. */
  function Set(answers: Answers, id: CommandId, result: Result): (out: Answers)
    ensures !HasId(answers, id) ==> out == answers + [Entry(id, result)]
    ensures |out| == |answers| + (if HasId(answers, id) then 0 else 1)
  {
    if answers == [] then [Entry(id, result)]
    else if answers[0].id == id then [Entry(id, result)] + answers[1..]
    else [answers[0]] + Set(answers[1..], id, result)
  }

  type Memory = map<Seat, Answers>

  function AnswersOf(m: Memory, seat: Seat): Answers {
    if seat in m then m[seat] else []
  }

  function Recall(m: Memory, seat: Seat, id: CommandId): Option<Result> {
    Get(AnswersOf(m, seat), id)
  }

  function Forget(m: Memory, seat: Seat): Memory {
    m - {seat}
  }

  /** Past its bound the oldest goes: a map iterates in insertion order. */
  function Bounded(answers: Answers): Answers {
    if |answers| > REMEMBERED_PER_SEAT then answers[1..] else answers
  }

  function Remember(m: Memory, seat: Seat, id: CommandId, result: Result): Memory {
    m[seat := Bounded(Set(AnswersOf(m, seat), id, result))]
  }

  // ---------------------------------------------------------------------------
  // The gateway
  // ---------------------------------------------------------------------------

  /** A command as it arrives; an id that could not be read is empty. */
  datatype Command = Command(seat: Seat, id: CommandId, leaves: bool)

  /** Whether the table is still there, and what its engine or registry would answer. */
  datatype Reply = Reply(live: bool, accepted: bool, error: Option<string>)

  /** `executed` counts what reached the engine or the registry; `answered` is every answer since the seat last left. */
  datatype State = State(memory: Memory, executed: nat, answered: Memory)

  const SILENT := State(map[], 0, map[])

  datatype Handled = Handled(state: State, result: Result)

  function Handle(s: State, c: Command, reply: Reply): Handled {
    var remembered := if c.id == "" then None else Recall(s.memory, c.seat, c.id);
    if remembered.Some? then Handled(s, remembered.value)
    else if !reply.live then Handled(s, Result(c.id, false, Some(INTERNAL_ERROR)))
    else
      var result := Result(c.id, reply.accepted, reply.error);
      var s1 :=
        if c.leaves && reply.accepted
        then s.(memory := Forget(s.memory, c.seat), answered := Forget(s.answered, c.seat))
        else s;
      var s2 := s1.(executed := s.executed + 1);
      if c.id == "" then Handled(s2, result)
      else
        Handled(
          s2.(memory := Remember(s2.memory, c.seat, c.id, result),
              answered := s2.answered[c.seat := AnswersOf(s2.answered, c.seat) + [Entry(c.id, result)]]),
          result)
  }

  datatype Arrival = Arrival(command: Command, reply: Reply)

  function Run(arrivals: seq<Arrival>): State {
    if arrivals == [] then SILENT
    else
      var last := arrivals[|arrivals| - 1];
      Handle(Run(arrivals[..|arrivals| - 1]), last.command, last.reply).state
  }

  // ---------------------------------------------------------------------------
  // What a seat remembers
  // ---------------------------------------------------------------------------

  function LastOf(answers: Answers, n: nat): (out: Answers)
    ensures |out| == if |answers| < n then |answers| else n
    ensures forall k | 0 <= k < |out| :: out[k] == answers[|answers| - |out| + k]
  {
    if |answers| < n then answers else answers[|answers| - n..]
  }

  ghost predicate Distinct(answers: Answers) {
    forall i, j | 0 <= i < j < |answers| :: answers[i].id != answers[j].id
  }

  ghost predicate Faithful(s: State) {
    forall seat ::
      && AnswersOf(s.memory, seat) == LastOf(AnswersOf(s.answered, seat), REMEMBERED_PER_SEAT)
      && Distinct(AnswersOf(s.memory, seat))
  }

  lemma LastOfNext(answered: Answers, e: Entry)
    ensures Bounded(LastOf(answered, REMEMBERED_PER_SEAT) + [e]) == LastOf(answered + [e], REMEMBERED_PER_SEAT)
  {
    var n := |answered|;
    if n < REMEMBERED_PER_SEAT {
      assert (answered + [e])[0..] == answered + [e];
    } else {
      assert answered[n - REMEMBERED_PER_SEAT..] + [e] == (answered + [e])[n - REMEMBERED_PER_SEAT..];
      assert (answered + [e])[n - REMEMBERED_PER_SEAT..][1..] == (answered + [e])[n + 1 - REMEMBERED_PER_SEAT..];
    }
  }

  lemma DistinctNext(memory: Answers, e: Entry)
    requires Distinct(memory) && !HasId(memory, e.id)
    ensures Distinct(Bounded(memory + [e]))
  {
    var all := memory + [e];
    forall i, j | 0 <= i < j < |all| ensures all[i].id != all[j].id {
      assert all[i] == memory[i] && memory[i] in memory;
    }
    assert Distinct(all);
  }

  lemma RememberedNext(memory: Answers, answered: Answers, e: Entry)
    requires memory == LastOf(answered, REMEMBERED_PER_SEAT) && Distinct(memory) && !HasId(memory, e.id)
    ensures Bounded(memory + [e]) == LastOf(answered + [e], REMEMBERED_PER_SEAT)
    ensures Distinct(Bounded(memory + [e]))
  {
    hide LastOf, Distinct, HasId, Bounded;
    LastOfNext(answered, e);
    DistinctNext(memory, e);
  }

  lemma HandleFaithful(s: State, c: Command, reply: Reply)
    requires Faithful(s)
    ensures Faithful(Handle(s, c, reply).state)
  {
    var s' := Handle(s, c, reply).state;
    forall seat
      ensures AnswersOf(s'.memory, seat) == LastOf(AnswersOf(s'.answered, seat), REMEMBERED_PER_SEAT)
        && Distinct(AnswersOf(s'.memory, seat))
    {
      assert AnswersOf(s.memory, seat) == LastOf(AnswersOf(s.answered, seat), REMEMBERED_PER_SEAT);
      if seat == c.seat && s' != s && c.id != "" {
        var left := c.leaves && reply.accepted;
        RememberedNext(if left then [] else AnswersOf(s.memory, seat), if left then [] else AnswersOf(s.answered, seat),
          Entry(c.id, Result(c.id, reply.accepted, reply.error)));
      }
    }
  }

  /** A seat's memory is exactly its last answers, up to the bound, in the order they were given. */
  lemma {:induction false} MemoryIsTheLastAnswers(arrivals: seq<Arrival>)
    ensures Faithful(Run(arrivals))
  {
    if arrivals != [] {
      var pre, last := arrivals[..|arrivals| - 1], arrivals[|arrivals| - 1];
      MemoryIsTheLastAnswers(pre);
      HandleFaithful(Run(pre), last.command, last.reply);
    }
  }

  // ---------------------------------------------------------------------------
  // At most once
  // ---------------------------------------------------------------------------

  lemma {:induction false} GetAt(answers: Answers, k: nat)
    requires Distinct(answers) && k < |answers|
    ensures Get(answers, answers[k].id) == Some(answers[k].result)
  {
    if k > 0 {
      assert answers[0].id != answers[k].id;
      GetAt(answers[1..], k - 1);
    }
  }

  /** A command among a seat's last answers gets its answer again, and nothing happens. */
  lemma RepeatIsRecalled(arrivals: seq<Arrival>, c: Command, reply: Reply, k: nat)
    requires var answered := AnswersOf(Run(arrivals).answered, c.seat);
      c.id != "" && k < |answered| && answered[k].id == c.id && |answered| - k <= REMEMBERED_PER_SEAT
    ensures Handle(Run(arrivals), c, reply)
      == Handled(Run(arrivals), AnswersOf(Run(arrivals).answered, c.seat)[k].result)
  {
    MemoryIsTheLastAnswers(arrivals);
    var s := Run(arrivals);
    var memory, answered := AnswersOf(s.memory, c.seat), AnswersOf(s.answered, c.seat);
    GetAt(memory, k - (|answered| - |memory|));
  }

  /** While the table lives, a command reaches it exactly when its id is not among the seat's last answers. */
  lemma ReachesTheTableIffForgotten(arrivals: seq<Arrival>, c: Command, reply: Reply)
    requires c.id != "" && reply.live
    ensures Handle(Run(arrivals), c, reply).state.executed
      == Run(arrivals).executed
        + if HasId(LastOf(AnswersOf(Run(arrivals).answered, c.seat), REMEMBERED_PER_SEAT), c.id) then 0 else 1
  {
    MemoryIsTheLastAnswers(arrivals);
    assert AnswersOf(Run(arrivals).memory, c.seat)
      == LastOf(AnswersOf(Run(arrivals).answered, c.seat), REMEMBERED_PER_SEAT);
  }

  /**
   * A command that is not recalled: a table that is gone answers with an error and
   * nothing happens; a live one answers for itself, and its answer is remembered
   * under the command's id, if it has one. Accepted leaving forgets the seat first.
   * No other seat's memory changes.
   */
  lemma TheTableAnswers(arrivals: seq<Arrival>, c: Command, reply: Reply)
    requires c.id == "" || !HasId(LastOf(AnswersOf(Run(arrivals).answered, c.seat), REMEMBERED_PER_SEAT), c.id)
    ensures var s, h := Run(arrivals), Handle(Run(arrivals), c, reply);
      var kept := if c.leaves && reply.accepted then [] else AnswersOf(s.answered, c.seat);
      if !reply.live then h == Handled(s, Result(c.id, false, Some(INTERNAL_ERROR)))
      else
        && h.result == Result(c.id, reply.accepted, reply.error) && h.state.executed == s.executed + 1
        && (forall seat | seat != c.seat :: AnswersOf(h.state.memory, seat) == AnswersOf(s.memory, seat))
        && AnswersOf(h.state.memory, c.seat)
          == LastOf(if c.id == "" then kept else kept + [Entry(c.id, h.result)], REMEMBERED_PER_SEAT)
  {
    MemoryIsTheLastAnswers(arrivals);
    HandleFaithful(Run(arrivals), c, reply);
    var s, s' := Run(arrivals), Handle(Run(arrivals), c, reply).state;
    assert AnswersOf(s.memory, c.seat) == LastOf(AnswersOf(s.answered, c.seat), REMEMBERED_PER_SEAT);
    assert AnswersOf(s'.memory, c.seat) == LastOf(AnswersOf(s'.answered, c.seat), REMEMBERED_PER_SEAT);
    hide Run, Set, LastOf;
  }

  function Extended(s: State, arrivals: seq<Arrival>): State {
    if arrivals == [] then s
    else
      var last := arrivals[|arrivals| - 1];
      Handle(Extended(s, arrivals[..|arrivals| - 1]), last.command, last.reply).state
  }

  lemma {:induction false} RunExtends(before: seq<Arrival>, after: seq<Arrival>)
    ensures Run(before + after) == Extended(Run(before), after)
  {
    if after == [] {
      assert before + after == before;
    } else {
      hide Handle;
      var pre, last := after[..|after| - 1], after[|after| - 1];
      RunExtends(before, pre);
      var all := before + after;
      assert all[..|all| - 1] == before + pre && all[|all| - 1] == last;
    }
  }

  predicate Leaves(arrivals: seq<Arrival>, seat: Seat) {
    exists a | a in arrivals :: a.command.seat == seat && a.command.leaves && a.reply.accepted && a.reply.live
  }

  lemma {:induction false} AnswersGrow(s: State, arrivals: seq<Arrival>, seat: Seat)
    requires !Leaves(arrivals, seat)
    ensures AnswersOf(s.answered, seat) <= AnswersOf(Extended(s, arrivals).answered, seat)
  {
    if arrivals != [] {
      var pre, last := arrivals[..|arrivals| - 1], arrivals[|arrivals| - 1];
      assert forall a | a in pre :: a in arrivals;
      assert last in arrivals;
      AnswersGrow(s, pre, seat);
    }
  }

  /**
   * At most once: a command that was executed and answered, repeated while its
   * seat has not left and has had fewer than 64 newer answers, is answered the
   * same and executes nothing.
   */
  lemma AtMostOnce(before: seq<Arrival>, first: Arrival, between: seq<Arrival>, reply: Reply)
    requires first.command.id != "" && !Leaves(between, first.command.seat)
    requires Run(before + [first]).executed == Run(before).executed + 1
    requires |AnswersOf(Run(before + [first] + between).answered, first.command.seat)|
      < |AnswersOf(Run(before + [first]).answered, first.command.seat)| + REMEMBERED_PER_SEAT
    ensures Handle(Run(before + [first] + between), first.command, reply)
      == Handled(Run(before + [first] + between), Handle(Run(before), first.command, first.reply).result)
  {
    var seat := first.command.seat;
    assert (before + [first])[..|before|] == before;
    var s := Run(before + [first]);
    var k := |AnswersOf(s.answered, seat)| - 1;
    RunExtends(before + [first], between);
    AnswersGrow(s, between, seat);
    RepeatIsRecalled(before + [first] + between, first.command, reply, k);
  }

  // ---------------------------------------------------------------------------
  // In its own form
  // ---------------------------------------------------------------------------

  class CommandLedger {
    var bySeat: Memory

    constructor ()
      ensures bySeat == map[]
    {
      bySeat := map[];
    }

    method Lookup(seat: Seat, id: CommandId) returns (r: Option<Result>)
      ensures r == Recall(bySeat, seat, id)
    {
      if seat !in bySeat { return None; }
      r := Get(bySeat[seat], id);
    }

    method Drop(seat: Seat)
      modifies this
      ensures bySeat == Forget(old(bySeat), seat)
    {
      bySeat := bySeat - {seat};
    }

    method Store(seat: Seat, id: CommandId, result: Result)
      modifies this
      ensures bySeat == Remember(old(bySeat), seat, id, result)
    {
      if seat !in bySeat { bySeat := bySeat[seat := []]; }
      var answers := Set(bySeat[seat], id, result);
      if |answers| > REMEMBERED_PER_SEAT { answers := answers[1..]; }
      bySeat := bySeat[seat := answers];
    }
  }

  class GameGateway {
    const ledger: CommandLedger
    var executed: nat
    ghost var answered: Memory

    constructor ()
      ensures fresh(ledger) && Now() == SILENT
    {
      ledger := new CommandLedger();
      executed, answered := 0, map[];
    }

    ghost function Now(): State
      reads this, ledger
    {
      State(ledger.bySeat, executed, answered)
    }

    /** Memory first: a retried leave that emptied the table is answered after the table is gone. */
    method HandleCommand(c: Command, reply: Reply) returns (result: Result)
      modifies this, ledger
      ensures Handled(Now(), result) == Handle(old(Now()), c, reply)
    {
      hide Get, Set;
      if c.id != "" {
        var remembered := ledger.Lookup(c.seat, c.id);
        if remembered.Some? { return remembered.value; }
      }
      if !reply.live { return Result(c.id, false, Some(INTERNAL_ERROR)); }
      executed := executed + 1;
      result := Result(c.id, reply.accepted, reply.error);
      if c.leaves && reply.accepted {
        ledger.Drop(c.seat);
        answered := Forget(answered, c.seat);
      }
      if c.id != "" {
        ledger.Store(c.seat, c.id, result);
        answered := answered[c.seat := AnswersOf(answered, c.seat) + [Entry(c.id, result)]];
      }
    }
  }
}
