/** From the engine's events to its flushes: one per burst, numbered, nothing lost. */
module Publisher {
  import opened Board
  import opened Stores

  /** An event as the log and the watcher hear it: its record, its line if it has one, and whether it ends the game. */
  datatype Heard = Heard(body: string, line: Option<string>, ends: bool)

  /** What one seat was sent. */
  datatype Push = Push(seat: Id, version: int, completed: bool, view: string)

  /** A tick of the event loop, with what the board shows each seat then. */
  datatype Moment = Moment(at: int, views: Id -> string, winner: Option<Id>)

  datatype Published = Published(flush: Flush, completed: bool)

  /** `heard` and `marks` (how many events were out before each flush, and now) are kept for the proofs. */
  datatype State = State(
    events: seq<Record>, lines: seq<Record>, drainedEvents: nat, drainedLines: nat,
    pending: bool, ended: bool, scheduled: nat, version: int,
    flushes: seq<Published>, pushes: seq<Push>, told: nat,
    heard: seq<Heard>, marks: seq<nat>)

  const FRESH := State([], [], 0, 0, false, false, 0, 0, [], [], 0, [], [0])

  datatype Happening = Hear(event: Heard) | Tick(moment: Moment)

  function ViewsOf(seats: seq<Id>, views: Id -> string): Views {
    map s | s in seats :: views(s)
  }

  function PushesTo(seats: seq<Id>, version: int, completed: bool, views: Id -> string): seq<Push> {
    if seats == [] then []
    else
      var last := seats[|seats| - 1];
      PushesTo(seats[..|seats| - 1], version, completed, views) + [Push(last, version, completed, views(last))]
  }

  function Logged(s: State, e: Heard): State {
    s.(events := s.events + [Record(|s.events| + 1, e.body)],
       lines := if e.line.Some? then s.lines + [Record(|s.lines| + 1, e.line.value)] else s.lines,
       heard := s.heard + [e])
  }

  /** Marks the table; schedules a flush if none is on its way. */
  function Marked(s: State, e: Heard): State {
    var s' := if e.ends then s.(ended := true) else s;
    if s.pending then s' else s'.(pending := true, scheduled := s.scheduled + 1)
  }

  function Pushed(seats: seq<Id>, s: State, completed: bool, m: Moment): State
    requires s.drainedEvents <= |s.events| && s.drainedLines <= |s.lines|
  {
    var flush := Flush(s.version + 1, m.at, s.events[s.drainedEvents..], s.lines[s.drainedLines..],
      ViewsOf(seats, m.views), if completed then m.winner else None);
    s.(version := s.version + 1,
       pushes := s.pushes + PushesTo(seats, s.version + 1, completed, m.views),
       drainedEvents := |s.events|, drainedLines := |s.lines|,
       flushes := s.flushes + [Published(flush, completed)],
       told := s.told + (if completed then 1 else 0),
       marks := s.marks + [|s.heard|])
  }

  predicate Within(s: State) {
    s.drainedEvents <= |s.events| && s.drainedLines <= |s.lines|
  }

  function Step(seats: seq<Id>, s: State, h: Happening): State {
    match h
    case Hear(e) => Marked(Logged(s, e), e)
    case Tick(m) =>
      if s.scheduled == 0 || !Within(s) then s
      else Pushed(seats, s.(scheduled := s.scheduled - 1, pending := false, ended := false), s.ended, m)
  }

  function Run(seats: seq<Id>, happenings: seq<Happening>): State {
    if happenings == [] then FRESH
    else Step(seats, Run(seats, happenings[..|happenings| - 1]), happenings[|happenings| - 1])
  }

  function FlushesOf(published: seq<Published>): (out: seq<Flush>)
    ensures |out| == |published| && forall k | 0 <= k < |out| :: out[k] == published[k].flush
  {
    seq(|published|, k requires 0 <= k < |published| => published[k].flush)
  }

  ghost predicate Ends(heard: seq<Heard>, from: nat, to: nat) {
    exists i | from <= i < to && i < |heard| :: heard[i].ends
  }

  // ---------------------------------------------------------------------------
  // What every interleaving keeps
  // ---------------------------------------------------------------------------

  ghost predicate OnePending(s: State) {
    && s.scheduled == (if s.pending then 1 else 0)
    && Within(s)
    && (!s.pending ==> s.drainedEvents == |s.events| && s.drainedLines == |s.lines|)
    && |s.events| == |s.heard|
  }

  ghost predicate Numbers(records: seq<Record>) {
    forall i | 0 <= i < |records| :: records[i].number == i + 1
  }

  /** Every record flushed, in order and once, and the ones still to go. */
  ghost predicate NothingLost(s: State) {
    && Within(s)
    && Delivered(FlushesOf(s.flushes), false) == s.events[..s.drainedEvents]
    && Delivered(FlushesOf(s.flushes), true) == s.lines[..s.drainedLines]
    && Numbers(s.events) && Numbers(s.lines)
    && |s.heard| == |s.events| && (forall i | 0 <= i < |s.heard| :: s.events[i].body == s.heard[i].body)
  }

  ghost predicate Versioned(s: State) {
    && s.version == |s.flushes|
    && (forall k | 0 <= k < |s.flushes| :: s.flushes[k].flush.version == k + 1)
  }

  /** A flush completes the game exactly when its burst ended it. */
  ghost predicate EndsOnTime(s: State) {
    && |s.marks| == |s.flushes| + 1 && s.marks[0] == 0
    && s.drainedEvents == s.marks[|s.flushes|] <= |s.heard|
    && (forall j, k | 0 <= j < k < |s.marks| :: s.marks[j] < s.marks[k])
    && (forall k | 0 <= k < |s.flushes| :: s.flushes[k].completed <==> Ends(s.heard, s.marks[k], s.marks[k + 1]))
    && (s.ended <==> Ends(s.heard, s.drainedEvents, |s.heard|))
    && (s.pending <==> s.drainedEvents < |s.heard|)
  }

  lemma EndsOneMore(heard: seq<Heard>, e: Heard, from: nat, to: nat)
    requires from <= to <= |heard|
    ensures Ends(heard + [e], from, to) <==> Ends(heard, from, to)
    ensures Ends(heard + [e], from, |heard| + 1) <==> Ends(heard, from, |heard|) || e.ends
  {
    var heard' := heard + [e];
    assert heard'[|heard|] == e;
    if i :| from <= i < |heard| && heard[i].ends { assert heard'[i].ends; }
    if i :| from <= i < to && heard[i].ends { assert heard'[i].ends; }
  }

  lemma HearEnds(seats: seq<Id>, s: State, e: Heard)
    requires EndsOnTime(s)
    ensures EndsOnTime(Step(seats, s, Hear(e)))
  {
    var s' := Step(seats, s, Hear(e));
    forall k | 0 <= k < |s.flushes| ensures s'.flushes[k].completed <==> Ends(s'.heard, s'.marks[k], s'.marks[k + 1]) {
      assert s.marks[k] < s.marks[k + 1] && (k + 1 < |s.flushes| ==> s.marks[k + 1] < s.marks[|s.flushes|]);
      EndsOneMore(s.heard, e, s.marks[k], s.marks[k + 1]);
    }
    EndsOneMore(s.heard, e, s.drainedEvents, |s.heard|);
    hide Ends;
  }

  lemma HearKeeps(seats: seq<Id>, s: State, e: Heard)
    requires OnePending(s) && NothingLost(s) && Versioned(s)
    ensures var s' := Step(seats, s, Hear(e)); OnePending(s') && NothingLost(s') && Versioned(s')
  {
    var s' := Step(seats, s, Hear(e));
    assert s'.events[..s.drainedEvents] == s.events[..s.drainedEvents];
    assert s'.lines[..s.drainedLines] == s.lines[..s.drainedLines];
  }

  lemma TickEnds(seats: seq<Id>, s: State, m: Moment)
    requires EndsOnTime(s) && OnePending(s)
    ensures EndsOnTime(Step(seats, s, Tick(m)))
  {
    var s' := Step(seats, s, Tick(m));
    hide Ends, PushesTo, ViewsOf;
    if s.scheduled != 0 {
      forall k | 0 <= k < |s'.flushes| ensures s'.flushes[k].completed <==> Ends(s'.heard, s'.marks[k], s'.marks[k + 1]) {
        if k < |s.flushes| { assert s'.flushes[k] == s.flushes[k]; }
      }
      NothingEnds(s.heard, |s.heard|);
    }
  }

  lemma NothingEnds(heard: seq<Heard>, n: nat)
    ensures !Ends(heard, n, n)
  {
  }

  lemma TickKeeps(seats: seq<Id>, s: State, m: Moment)
    requires OnePending(s) && NothingLost(s) && Versioned(s)
    ensures var s' := Step(seats, s, Tick(m)); OnePending(s') && NothingLost(s') && Versioned(s')
  {
    var s' := Step(seats, s, Tick(m));
    hide PushesTo, ViewsOf;
    if s.scheduled != 0 {
      var flushes, flushes' := FlushesOf(s.flushes), FlushesOf(s'.flushes);
      assert flushes'[..|flushes'| - 1] == flushes;
      assert s.events[..s.drainedEvents] + s.events[s.drainedEvents..] == s.events == s'.events[..|s.events|];
      assert s.lines[..s.drainedLines] + s.lines[s.drainedLines..] == s.lines == s'.lines[..|s.lines|];
    }
  }

  lemma {:induction false} RunKeeps(seats: seq<Id>, happenings: seq<Happening>)
    ensures var s := Run(seats, happenings); OnePending(s) && NothingLost(s) && Versioned(s) && EndsOnTime(s)
  {
    if happenings != [] {
      var pre, last := happenings[..|happenings| - 1], happenings[|happenings| - 1];
      RunKeeps(seats, pre);
      match last {
        case Hear(e) => HearKeeps(seats, Run(seats, pre), e); HearEnds(seats, Run(seats, pre), e);
        case Tick(m) => TickKeeps(seats, Run(seats, pre), m); TickEnds(seats, Run(seats, pre), m);
      }
    }
  }

  /** At most one flush is on its way, and when none is, every event so far has been flushed, once and in order, under versions from one up. */
  lemma EveryEventIsFlushedOnce(seats: seq<Id>, happenings: seq<Happening>)
    ensures var s := Run(seats, happenings);
      && s.scheduled <= 1
      && s.version == |s.flushes| && (forall k | 0 <= k < |s.flushes| :: s.flushes[k].flush.version == k + 1)
      && |s.events| == |s.heard| && (forall i | 0 <= i < |s.heard| :: s.events[i] == Record(i + 1, s.heard[i].body))
      && Delivered(FlushesOf(s.flushes), false) <= s.events && Delivered(FlushesOf(s.flushes), true) <= s.lines
      && (s.scheduled == 0 ==>
          Delivered(FlushesOf(s.flushes), false) == s.events && Delivered(FlushesOf(s.flushes), true) == s.lines)
  {
    RunKeeps(seats, happenings);
    hide Run;
    var s := Run(seats, happenings);
    forall i | 0 <= i < |s.heard| ensures s.events[i] == Record(i + 1, s.heard[i].body) { }
  }

  function EventsOf(happenings: seq<Happening>): seq<Heard> {
    if happenings == [] then []
    else
      var last := happenings[|happenings| - 1];
      EventsOf(happenings[..|happenings| - 1]) + if last.Hear? then [last.event] else []
  }

  function LinesOf(heard: seq<Heard>): seq<string> {
    if heard == [] then []
    else
      var last := heard[|heard| - 1];
      LinesOf(heard[..|heard| - 1]) + if last.line.Some? then [last.line.value] else []
  }

  /** Every event that happens is heard, in order, and those with a line to tell have it told. */
  lemma {:induction false} EveryLineIsTold(seats: seq<Id>, happenings: seq<Happening>)
    ensures var s := Run(seats, happenings);
      && s.heard == EventsOf(happenings) && |s.lines| == |LinesOf(EventsOf(happenings))|
      && forall k | 0 <= k < |s.lines| :: s.lines[k] == Record(k + 1, LinesOf(EventsOf(happenings))[k])
  {
    if happenings != [] {
      var pre, last := happenings[..|happenings| - 1], happenings[|happenings| - 1];
      EveryLineIsTold(seats, pre);
      if last.Hear? {
        assert (EventsOf(pre) + [last.event])[..|EventsOf(pre)|] == EventsOf(pre);
      }
    }
  }

  /**
   * A tick flushes what was heard since the last flush, if anything was: the time
   * and every seat's view are the tick's own, and the winner goes out with the end.
   */
  lemma FlushShowsTheMoment(seats: seq<Id>, happenings: seq<Happening>, m: Moment)
    ensures var s, s' := Run(seats, happenings), Run(seats, happenings + [Tick(m)]);
      var from := |Delivered(FlushesOf(s.flushes), false)|;
      if from == |s.heard| then s' == s
      else
        && |s'.flushes| == |s.flushes| + 1 && s'.flushes[..|s.flushes|] == s.flushes && s'.heard == s.heard
        && var last := s'.flushes[|s.flushes|];
        && last.flush.at == m.at
        && (forall seat :: seat in last.flush.views <==> seat in seats)
        && (forall seat | seat in seats :: last.flush.views[seat] == m.views(seat))
        && (last.completed <==> exists i | from <= i < |s.heard| :: s.heard[i].ends)
        && last.flush.winner == if last.completed then m.winner else None
  {
    RunKeeps(seats, happenings);
    assert (happenings + [Tick(m)])[..|happenings|] == happenings;
    hide Run, PushesTo;
  }

  /** An end heard once completes exactly one flush: the first one after it. */
  lemma OneEndCompletesOneFlush(seats: seq<Id>, happenings: seq<Happening>, i: nat) returns (k: nat)
    requires var s := Run(seats, happenings);
      && !s.pending && i < |s.heard| && s.heard[i].ends
      && (forall j | 0 <= j < |s.heard| && j != i :: !s.heard[j].ends)
    ensures var s := Run(seats, happenings);
      && k < |s.flushes| && |s.marks| == |s.flushes| + 1 && s.marks[k] <= i < s.marks[k + 1]
      && (forall n | 0 <= n < |s.flushes| :: s.flushes[n].completed <==> n == k)
  {
    RunKeeps(seats, happenings);
    hide Run;
    var s := Run(seats, happenings);
    k := BurstOf(s.marks, i);
    forall n | 0 <= n < |s.flushes| ensures s.flushes[n].completed <==> n == k {
      assert s.flushes[n].completed <==> Ends(s.heard, s.marks[n], s.marks[n + 1]);
      if n < k {
        assert s.marks[n + 1] <= s.marks[k] by { assert n + 1 == k || s.marks[n + 1] < s.marks[k]; }
      } else if k < n {
        assert s.marks[k + 1] <= s.marks[n] by { assert n == k + 1 || s.marks[k + 1] < s.marks[n]; }
      }
      assert s.marks[n] <= i < s.marks[n + 1] <==> n == k;
      hide EndsOnTime;
      if n == k { assert s.heard[i].ends; }
    }
  }

  lemma BurstOf(marks: seq<nat>, i: nat) returns (k: nat)
    requires |marks| > 0 && marks[0] == 0 && i < marks[|marks| - 1]
    ensures k + 1 < |marks| && marks[k] <= i < marks[k + 1]
  {
    k := 0;
    while marks[k + 1] <= i
      invariant k + 1 < |marks| && marks[k] <= i
      decreases |marks| - k
    {
      k := k + 1;
    }
  }

  // ---------------------------------------------------------------------------
  // The seats
  // ---------------------------------------------------------------------------

  /** Every push so far, flush by flush: each to every seat in order, under one version. */
  function AllPushes(seats: seq<Id>, published: seq<Published>): seq<Push> {
    if published == [] then []
    else
      var last := published[|published| - 1];
      AllPushes(seats, published[..|published| - 1])
        + PushesTo(seats, last.flush.version, last.completed, s => if s in last.flush.views then last.flush.views[s] else "")
  }

  lemma {:induction false} SameViewsSamePushes(seats: seq<Id>, version: int, completed: bool, a: Id -> string, b: Id -> string)
    requires forall s | s in seats :: a(s) == b(s)
    ensures PushesTo(seats, version, completed, a) == PushesTo(seats, version, completed, b)
  {
    if seats != [] { SameViewsSamePushes(seats[..|seats| - 1], version, completed, a, b); }
  }

  /** Each seat is sent every version once, in order, with the very view that is stored for it. */
  lemma {:induction false} SeatsShareVersions(seats: seq<Id>, happenings: seq<Happening>)
    ensures var s := Run(seats, happenings); s.pushes == AllPushes(seats, s.flushes)
  {
    if happenings != [] {
      var pre, last := happenings[..|happenings| - 1], happenings[|happenings| - 1];
      SeatsShareVersions(seats, pre);
      var s, s' := Run(seats, pre), Run(seats, happenings);
      if last.Tick? && s' != s {
        var flush := s'.flushes[|s.flushes|].flush;
        assert s'.flushes[..|s.flushes|] == s.flushes;
        SameViewsSamePushes(seats, flush.version, s.ended, last.moment.views,
          x => if x in flush.views then flush.views[x] else "");
      }
    }
  }

  // ---------------------------------------------------------------------------
  // From the engine to the database
  // ---------------------------------------------------------------------------

  /**
   * Whatever order the flushes of a table reach the database in, and however
   * often each, once all have: its rows are the log, number for number, and its
   * board is the last one shown.
   */
  lemma TheDatabaseTellsTheStory(
    seats: seq<Id>, happenings: seq<Happening>, t: Tables, game: GameId, arrived: seq<Flush>)
    requires var s := Run(seats, happenings);
      s.scheduled == 0 && s.flushes != [] && forall f :: f in arrived <==> f in FlushesOf(s.flushes)
    requires StoredBefore(t, game) && forall lines, key | key in RowsOf(t, lines) :: key.0 != game
    ensures var s, t' := Run(seats, happenings), StoreAll(t, game, arrived);
      && game in t'.games && t'.games[game].version == s.version
      && t'.games[game].state == s.flushes[|s.flushes| - 1].flush.views
      && (forall i | 0 <= i < |s.heard| ::
            (game, i + 1) in t'.events && t'.events[(game, i + 1)] == Record(i + 1, s.heard[i].body))
      && (forall n: nat :: (game, n) in t'.events <==> 1 <= n <= |s.heard|)
  {
    EveryEventIsFlushedOnce(seats, happenings);
    RunKeeps(seats, happenings);
    assert Deliveries(FlushesOf(Run(seats, happenings).flushes));
    hide Run;
    var s := Run(seats, happenings);
    var flushes := FlushesOf(s.flushes);
    assert IsNewest(flushes, flushes[|flushes| - 1]);
    AllKeepTheNewest(t, game, arrived, flushes[|flushes| - 1]);
    SameRecords(flushes, arrived, false);
    SameRecords(arrived, flushes, false);
    RowsAreTheLog(t, game, arrived, s.events, s.heard);
  }

  lemma RowsAreTheLog(t: Tables, game: GameId, arrived: seq<Flush>, events: seq<Record>, heard: seq<Heard>)
    requires game in t.games && forall lines, key | key in RowsOf(t, lines) :: key.0 != game
    requires |events| == |heard| && forall i | 0 <= i < |heard| :: events[i] == Record(i + 1, heard[i].body)
    requires forall r :: r in Delivered(arrived, false) <==> r in events
    ensures var rows := StoreAll(t, game, arrived).events;
      && (forall i | 0 <= i < |heard| :: (game, i + 1) in rows && rows[(game, i + 1)] == Record(i + 1, heard[i].body))
      && (forall n: nat :: (game, n) in rows <==> 1 <= n <= |heard|)
  {
    hide StoreAll, Delivered;
    assert Numbered(Delivered(arrived, false));
    assert forall key | key in RowsOf(t, false) :: key.0 != game;
    OneRowPerNumber(t, game, arrived, false);
    RowsByNumber(RowsOf(StoreAll(t, game, arrived), false), game, Delivered(arrived, false), events, heard);
  }

  lemma RowsByNumber(rows: Rows, game: GameId, records: seq<Record>, events: seq<Record>, heard: seq<Heard>)
    requires |events| == |heard| && forall i | 0 <= i < |heard| :: events[i] == Record(i + 1, heard[i].body)
    requires forall r :: r in records <==> r in events
    requires forall r :: r in records <==> (game, r.number) in rows && rows[(game, r.number)] == r
    requires forall key | key in rows && key.0 == game :: rows[key] in records && rows[key].number == key.1
    ensures forall i | 0 <= i < |heard| :: (game, i + 1) in rows && rows[(game, i + 1)] == Record(i + 1, heard[i].body)
    ensures forall n: nat :: (game, n) in rows <==> 1 <= n <= |heard|
  {
    forall i | 0 <= i < |heard|
      ensures (game, i + 1) in rows && rows[(game, i + 1)] == Record(i + 1, heard[i].body)
    {
      assert events[i] in events && events[i] in records && events[i].number == i + 1;
    }
    forall n: nat ensures (game, n) in rows <==> 1 <= n <= |heard| {
      if (game, n) in rows {
        var r := rows[(game, n)];
        assert r in records && r in events && r.number == n;
      }
      if 1 <= n <= |heard| {
        var r := events[n - 1];
        assert r in events && r in records && r.number == n;
      }
    }
  }

  // ---------------------------------------------------------------------------
  // The publisher in its own form
  // ---------------------------------------------------------------------------

  class GameLog {
    var events: seq<Record>
    var lines: seq<Record>
    var drainedEvents: nat
    var drainedLines: nat

    constructor ()
      ensures events == [] && lines == [] && drainedEvents == 0 && drainedLines == 0
    {
      events, lines, drainedEvents, drainedLines := [], [], 0, 0;
    }

    method OnEvent(e: Heard)
      modifies this
      ensures events == old(events) + [Record(old(|events|) + 1, e.body)]
      ensures lines == if e.line.Some? then old(lines) + [Record(old(|lines|) + 1, e.line.value)] else old(lines)
      ensures drainedEvents == old(drainedEvents) && drainedLines == old(drainedLines)
    {
      events := events + [Record(|events| + 1, e.body)];
      if e.line.Some? { lines := lines + [Record(|lines| + 1, e.line.value)]; }
    }

    method Drain() returns (newEvents: seq<Record>, newLines: seq<Record>)
      requires drainedEvents <= |events| && drainedLines <= |lines|
      modifies this
      ensures newEvents == old(events[drainedEvents..]) && newLines == old(lines[drainedLines..])
      ensures events == old(events) && lines == old(lines)
      ensures drainedEvents == |events| && drainedLines == |lines|
    {
      newEvents, newLines := events[drainedEvents..], lines[drainedLines..];
      drainedEvents, drainedLines := |events|, |lines|;
    }
  }

  class Watcher {
    const seats: seq<Id>
    const gameLog: GameLog
    var pending: bool
    var ended: bool
    var scheduled: nat
    var version: int
    var sent: seq<Push>
    var stored: seq<Published>
    var told: nat
    ghost var heard: seq<Heard>
    ghost var marks: seq<nat>

    constructor (seats: seq<Id>)
      ensures fresh(gameLog) && this.seats == seats && Now() == FRESH
    {
      this.seats := seats;
      gameLog := new GameLog();
      pending, ended, scheduled, version := false, false, 0, 0;
      sent, stored, told, heard, marks := [], [], 0, [], [0];
    }

    ghost function Now(): State
      reads this, gameLog
    {
      State(gameLog.events, gameLog.lines, gameLog.drainedEvents, gameLog.drainedLines,
        pending, ended, scheduled, version, stored, sent, told, heard, marks)
    }

    /** The log hears first: it listens first. */
    method OnEvent(e: Heard)
      modifies this, gameLog
      ensures Now() == Step(seats, old(Now()), Hear(e))
    {
      gameLog.OnEvent(e);
      heard := heard + [e];
      if e.ends { ended := true; }
      if pending { return; }
      pending := true;
      scheduled := scheduled + 1;
    }

    /** The scheduled flush runs once the entry that caused it has unwound. */
    method OnTick(m: Moment)
      requires scheduled > 0 && Within(Now())
      modifies this, gameLog
      ensures Now() == Step(seats, old(Now()), Tick(m))
    {
      scheduled := scheduled - 1;
      pending := false;
      var completed := ended;
      ended := false;
      PushAll(completed, m);
    }

    /** One view per seat, one push per seat's room. */
    method PushSeats(completed: bool, m: Moment) returns (views: Views)
      modifies this`sent
      ensures views == ViewsOf(seats, m.views)
      ensures sent == old(sent) + PushesTo(seats, version, completed, m.views)
    {
      views := map[];
      var i := 0;
      while i < |seats|
        invariant i <= |seats| && views == ViewsOf(seats[..i], m.views)
        invariant sent == old(sent) + PushesTo(seats[..i], version, completed, m.views)
      {
        assert seats[..i + 1] == seats[..i] + [seats[i]];
        assert seats[..i + 1][..i] == seats[..i];
        views := views[seats[i] := m.views(seats[i])];
        sent := sent + [Push(seats[i], version, completed, m.views(seats[i]))];
        i := i + 1;
      }
      assert seats[..i] == seats;
    }

    method PushAll(completed: bool, m: Moment)
      requires Within(Now())
      modifies this, gameLog
      ensures Now() == Pushed(seats, old(Now()), completed, m)
    {
      version := version + 1;
      var views := PushSeats(completed, m);
      var events, lines := gameLog.Drain();
      stored := stored + [Published(Flush(version, m.at, events, lines, views, if completed then m.winner else None), completed)];
      if completed { told := told + 1; }
      marks := marks + [|heard|];
    }
  }
}
