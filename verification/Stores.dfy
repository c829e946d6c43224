/** Where flushes land, in whatever order and however often: the process's memory, the database, a client. */
module Stores {
  import opened Board

  type GameId = string
  type Views = map<Id, string>

  datatype Record = Record(number: nat, body: string)

  /** One burst: its records, and the board as every seat now sees it. */
  datatype Flush = Flush(
    version: int, at: int, events: seq<Record>, lines: seq<Record>, views: Views, winner: Option<Id>)

  // ---------------------------------------------------------------------------
  // In memory
  // ---------------------------------------------------------------------------

  datatype Remembered = Remembered(
    version: int, views: Views, events: seq<Record>, lines: seq<Record>, winner: Option<Id>)

  const FORGOTTEN := Remembered(0, map[], [], [], None)

  function Remember(m: Remembered, f: Flush): Remembered {
    Remembered(
      if f.version > m.version then f.version else m.version,
      if f.version > m.version then f.views else m.views,
      m.events + f.events, m.lines + f.lines,
      if f.winner.Some? then f.winner else m.winner)
  }

  function RememberAll(flushes: seq<Flush>): Remembered {
    if flushes == [] then FORGOTTEN
    else Remember(RememberAll(flushes[..|flushes| - 1]), flushes[|flushes| - 1])
  }

  // ---------------------------------------------------------------------------
  // In the database
  // ---------------------------------------------------------------------------

  type Rows = map<(GameId, nat), Record>

  datatype GameRow = GameRow(version: int, state: Views, updated: int, ended: Option<int>, winner: Option<Id>)

  datatype Tables = Tables(games: map<GameId, GameRow>, events: Rows, lines: Rows)

  const NEW_GAME := GameRow(0, map[], 0, None, None)

  /** A row whose key is already there is left alone. */
  function Insert(rows: Rows, game: GameId, records: seq<Record>): Rows {
    if records == [] then rows
    else
      var rest, last := Insert(rows, game, records[..|records| - 1]), records[|records| - 1];
      if (game, last.number) in rest then rest else rest[(game, last.number) := last]
  }

  function Coalesce<T>(a: Option<T>, b: Option<T>): Option<T> {
    if a.Some? then a else b
  }

  function Updated(row: GameRow, f: Flush): GameRow {
    if row.version < f.version then
      GameRow(f.version, f.views, f.at,
        Coalesce(row.ended, if f.winner.Some? then Some(f.at) else None), Coalesce(row.winner, f.winner))
    else row
  }

  /** One transaction; for a game nobody created the records' foreign key fails it whole. */
  function Store(t: Tables, game: GameId, f: Flush): Tables {
    if game !in t.games then t
    else Tables(t.games[game := Updated(t.games[game], f)],
                Insert(t.events, game, f.events), Insert(t.lines, game, f.lines))
  }

  function StoreAll(t: Tables, game: GameId, flushes: seq<Flush>): Tables {
    if flushes == [] then t
    else Store(StoreAll(t, game, flushes[..|flushes| - 1]), game, flushes[|flushes| - 1])
  }

  // ---------------------------------------------------------------------------
  // On a client
  // ---------------------------------------------------------------------------

  datatype Snapshot = Snapshot(version: int, views: Views)

  function Accept(current: Option<Snapshot>, next: Snapshot): Option<Snapshot> {
    if current.Some? && next.version <= current.value.version then current else Some(next)
  }

  function AcceptAll(flushes: seq<Flush>): Option<Snapshot> {
    if flushes == [] then None
    else
      var last := flushes[|flushes| - 1];
      Accept(AcceptAll(flushes[..|flushes| - 1]), Snapshot(last.version, last.views))
  }

  // ---------------------------------------------------------------------------
  // The newest board
  // ---------------------------------------------------------------------------

  /** Deliveries of the publisher's flushes: versions count from one, and a version is one flush, delivered or redelivered. */
  ghost predicate Deliveries(flushes: seq<Flush>) {
    && (forall f | f in flushes :: f.version > 0)
    && (forall f, g | f in flushes && g in flushes && f.version == g.version :: f == g)
  }

  ghost predicate IsNewest(flushes: seq<Flush>, f: Flush) {
    f in flushes && forall g | g in flushes :: g.version <= f.version
  }

  ghost predicate StoredBefore(t: Tables, game: GameId) {
    game in t.games && t.games[game] == NEW_GAME
  }

  /** Each of the three ends on the newest flush delivered, whatever the order and the repeats. */
  lemma {:induction false} AllKeepTheNewest(t: Tables, game: GameId, flushes: seq<Flush>, newest: Flush)
    requires Deliveries(flushes) && IsNewest(flushes, newest) && StoredBefore(t, game)
    ensures RememberAll(flushes).version == newest.version && RememberAll(flushes).views == newest.views
    ensures game in StoreAll(t, game, flushes).games
    ensures StoreAll(t, game, flushes).games[game].version == newest.version
    ensures StoreAll(t, game, flushes).games[game].state == newest.views
    ensures StoreAll(t, game, flushes).games[game].updated == newest.at
    ensures AcceptAll(flushes) == Some(Snapshot(newest.version, newest.views))
  {
    var pre, last := flushes[..|flushes| - 1], flushes[|flushes| - 1];
    assert forall g | g in flushes :: g in pre || g == last;
    if pre != [] {
      var before := Newest(pre);
      assert before in flushes;
      AllKeepTheNewest(t, game, pre, before);
    }
  }

  lemma {:induction false} Newest(flushes: seq<Flush>) returns (newest: Flush)
    requires flushes != []
    ensures IsNewest(flushes, newest)
  {
    var pre, last := flushes[..|flushes| - 1], flushes[|flushes| - 1];
    newest := last;
    assert forall g | g in flushes :: g in pre || g == last;
    if pre != [] {
      var before := Newest(pre);
      if before.version > last.version { newest := before; }
    }
  }

  // ---------------------------------------------------------------------------
  // The rows
  // ---------------------------------------------------------------------------

  /** Every record delivered, in the order of delivery. */
  function Delivered(flushes: seq<Flush>, lines: bool): seq<Record> {
    if flushes == [] then []
    else
      var last := flushes[|flushes| - 1];
      Delivered(flushes[..|flushes| - 1], lines) + if lines then last.lines else last.events
  }

  /** A sequence number is one record's. */
  ghost predicate Numbered(records: seq<Record>) {
    forall a, b | a in records && b in records && a.number == b.number :: a == b
  }

  lemma {:induction false} InsertAdds(rows: Rows, game: GameId, records: seq<Record>)
    ensures forall key: (GameId, nat) :: key in Insert(rows, game, records) <==>
      key in rows || (key.0 == game && exists r | r in records :: r.number == key.1)
    ensures forall key | key in rows :: Insert(rows, game, records)[key] == rows[key]
    ensures forall key | key in Insert(rows, game, records) && key !in rows ::
      Insert(rows, game, records)[key] in records && Insert(rows, game, records)[key].number == key.1
  {
    if records != [] {
      var pre, last := records[..|records| - 1], records[|records| - 1];
      InsertAdds(rows, game, pre);
      assert forall r | r in records :: r in pre || r == last;
      assert last in records;
    }
  }

  lemma {:induction false} InsertInTurn(rows: Rows, game: GameId, a: seq<Record>, b: seq<Record>)
    ensures Insert(rows, game, a + b) == Insert(Insert(rows, game, a), game, b)
  {
    if b == [] {
      assert a + b == a;
    } else {
      InsertInTurn(rows, game, a, b[..|b| - 1]);
      assert (a + b)[..|a + b| - 1] == a + b[..|b| - 1];
    }
  }

  function RowsOf(t: Tables, lines: bool): Rows {
    if lines then t.lines else t.events
  }

  lemma {:induction false} InsertedInTurn(t: Tables, game: GameId, flushes: seq<Flush>, lines: bool)
    requires game in t.games
    ensures game in StoreAll(t, game, flushes).games
    ensures RowsOf(StoreAll(t, game, flushes), lines) == Insert(RowsOf(t, lines), game, Delivered(flushes, lines))
  {
    if flushes != [] {
      var pre, last := flushes[..|flushes| - 1], flushes[|flushes| - 1];
      InsertedInTurn(t, game, pre, lines);
      InsertInTurn(RowsOf(t, lines), game, Delivered(pre, lines), if lines then last.lines else last.events);
    }
  }

  /** One row per number, holding the record that has it, and no row of another game touched. */
  lemma OneRowPerNumber(t: Tables, game: GameId, flushes: seq<Flush>, lines: bool)
    requires game in t.games && Numbered(Delivered(flushes, lines))
    requires forall key | key in RowsOf(t, lines) :: key.0 != game
    ensures var rows, records := RowsOf(StoreAll(t, game, flushes), lines), Delivered(flushes, lines);
      && (forall r :: r in records <==> (game, r.number) in rows && rows[(game, r.number)] == r)
      && (forall key | key in rows && key.0 == game :: rows[key] in records && rows[key].number == key.1)
      && (forall key: (GameId, nat) | key.0 != game :: key in rows <==> key in RowsOf(t, lines))
      && (forall key | key in RowsOf(t, lines) :: rows[key] == RowsOf(t, lines)[key])
  {
    InsertedInTurn(t, game, flushes, lines);
    InsertAdds(RowsOf(t, lines), game, Delivered(flushes, lines));
    hide Insert, StoreAll, Delivered;
  }

  /**
   * Order and repeats leave no trace in the database: two deliveries of the same
   * flushes end on the same board and the same rows.
   */
  lemma SameFlushesSameTables(t: Tables, game: GameId, flushes: seq<Flush>, again: seq<Flush>)
    requires Deliveries(flushes) && flushes != [] && forall f :: f in flushes <==> f in again
    requires StoredBefore(t, game)
    requires forall lines :: Numbered(Delivered(flushes, lines)) && forall key | key in RowsOf(t, lines) :: key.0 != game
    ensures var a, b := StoreAll(t, game, flushes), StoreAll(t, game, again);
      && a.events == b.events && a.lines == b.lines
      && game in a.games && game in b.games
      && a.games[game].version == b.games[game].version && a.games[game].state == b.games[game].state
  {
    var newest := Newest(flushes);
    AllKeepTheNewest(t, game, flushes, newest);
    AllKeepTheNewest(t, game, again, newest);
    forall lines ensures RowsOf(StoreAll(t, game, flushes), lines) == RowsOf(StoreAll(t, game, again), lines) {
      SameRecords(flushes, again, lines);
      SameRecords(again, flushes, lines);
      SameRows(t, game, flushes, again, lines);
    }
    assert RowsOf(StoreAll(t, game, flushes), true) == RowsOf(StoreAll(t, game, again), true);
    assert RowsOf(StoreAll(t, game, flushes), false) == RowsOf(StoreAll(t, game, again), false);
  }

  lemma SameRows(t: Tables, game: GameId, flushes: seq<Flush>, again: seq<Flush>, lines: bool)
    requires game in t.games && forall key | key in RowsOf(t, lines) :: key.0 != game
    requires Numbered(Delivered(flushes, lines))
    requires forall r :: r in Delivered(flushes, lines) <==> r in Delivered(again, lines)
    ensures RowsOf(StoreAll(t, game, flushes), lines) == RowsOf(StoreAll(t, game, again), lines)
  {
    InsertedInTurn(t, game, flushes, lines);
    InsertedInTurn(t, game, again, lines);
    InsertSame(RowsOf(t, lines), game, Delivered(flushes, lines), Delivered(again, lines));
  }

  lemma InsertSame(rows: Rows, game: GameId, a: seq<Record>, b: seq<Record>)
    requires Numbered(a) && (forall r :: r in a <==> r in b) && forall key | key in rows :: key.0 != game
    ensures Insert(rows, game, a) == Insert(rows, game, b)
  {
    InsertAdds(rows, game, a);
    InsertAdds(rows, game, b);
    var left, right := Insert(rows, game, a), Insert(rows, game, b);
    hide Insert;
    forall key: (GameId, nat) ensures key in left <==> key in right {
      assert (exists r | r in a :: r.number == key.1) <==> (exists r | r in b :: r.number == key.1);
    }
    forall key | key in left ensures left[key] == right[key] {
      if key !in rows { assert left[key] in a && right[key] in a; }
    }
  }

  lemma {:induction false} SameRecords(flushes: seq<Flush>, again: seq<Flush>, lines: bool)
    requires forall f | f in flushes :: f in again
    ensures forall r | r in Delivered(flushes, lines) :: r in Delivered(again, lines)
  {
    if flushes != [] {
      var pre, last := flushes[..|flushes| - 1], flushes[|flushes| - 1];
      SameRecords(pre, again, lines);
      assert last in flushes;
      DeliveredBy(again, last, lines);
    }
  }

  lemma {:induction false} DeliveredBy(flushes: seq<Flush>, f: Flush, lines: bool)
    requires f in flushes
    ensures forall r | r in (if lines then f.lines else f.events) :: r in Delivered(flushes, lines)
  {
    var pre, last := flushes[..|flushes| - 1], flushes[|flushes| - 1];
    if f != last { DeliveredBy(pre, f, lines); }
  }

  function RecordsOf(f: Flush, lines: bool): seq<Record> {
    if lines then f.lines else f.events
  }

  /** How many of the deliveries carried this record. */
  function Carrying(flushes: seq<Flush>, r: Record, lines: bool): nat {
    if flushes == [] then 0
    else
      var last := flushes[|flushes| - 1];
      Carrying(flushes[..|flushes| - 1], r, lines) + if r in RecordsOf(last, lines) then 1 else 0
  }

  /**
   * Memory keeps a record once for every delivery that carried it, repeats
   * included: where the database has one row, memory has as many as were sent.
   */
  lemma {:induction false} MemoryCountsRepeats(flushes: seq<Flush>, r: Record, lines: bool)
    requires forall f | f in flushes :: multiset(RecordsOf(f, lines))[r] <= 1
    ensures var m := RememberAll(flushes);
      multiset(if lines then m.lines else m.events)[r] == Carrying(flushes, r, lines)
  {
    if flushes != [] {
      var pre, last := flushes[..|flushes| - 1], flushes[|flushes| - 1];
      MemoryCountsRepeats(pre, r, lines);
      assert r in RecordsOf(last, lines) <==> multiset(RecordsOf(last, lines))[r] == 1;
    }
  }

  // ---------------------------------------------------------------------------
  // The winner
  // ---------------------------------------------------------------------------

  lemma {:induction false} NobodyWon(t: Tables, game: GameId, flushes: seq<Flush>)
    requires StoredBefore(t, game) && forall f | f in flushes :: f.winner.None?
    ensures game in StoreAll(t, game, flushes).games
    ensures StoreAll(t, game, flushes).games[game].winner.None? && RememberAll(flushes).winner.None?
    ensures StoreAll(t, game, flushes).games[game].ended.None?
  {
    if flushes != [] { NobodyWon(t, game, flushes[..|flushes| - 1]); }
  }

  /** Neither flushes without a winner nor a repeat of one that has been delivered change the winner kept. */
  lemma {:induction false} WinnerStays(t: Tables, game: GameId, before: seq<Flush>, after: seq<Flush>, final: Flush)
    requires game in t.games && final in before && RememberAll(before).winner == final.winner
    requires forall f | f in after :: f.winner.None? || f == final
    ensures game in StoreAll(t, game, before).games && game in StoreAll(t, game, before + after).games
    ensures StoreAll(t, game, before + after).games[game].winner == StoreAll(t, game, before).games[game].winner
    ensures StoreAll(t, game, before + after).games[game].ended == StoreAll(t, game, before).games[game].ended
    ensures StoreAll(t, game, before + after).games[game].version >= final.version
    ensures RememberAll(before + after).winner == final.winner
  {
    InsertedInTurn(t, game, before, true);
    if after == [] {
      assert before + after == before;
      StoredUpTo(t, game, before, final);
    } else {
      var pre := after[..|after| - 1];
      WinnerStays(t, game, before, pre, final);
      assert (before + after)[..|before + after| - 1] == before + pre;
    }
  }

  lemma {:induction false} StoredUpTo(t: Tables, game: GameId, flushes: seq<Flush>, f: Flush)
    requires game in t.games && f in flushes
    ensures game in StoreAll(t, game, flushes).games && StoreAll(t, game, flushes).games[game].version >= f.version
  {
    var pre, last := flushes[..|flushes| - 1], flushes[|flushes| - 1];
    InsertedInTurn(t, game, pre, true);
    if f != last { StoredUpTo(t, game, pre, f); }
  }

  /**
   * Memory always keeps the winner. The database keeps it, and when the game ended,
   * exactly when the flush that names it is not overtaken: when everything delivered
   * before it is older.
   * Delivering that flush again, any number of times, changes neither.
   */
  lemma WinnerKeptIffNotOvertaken(t: Tables, game: GameId, before: seq<Flush>, final: Flush, after: seq<Flush>)
    requires StoredBefore(t, game) && Deliveries(before + [final] + after) && final.winner.Some?
    requires (forall f | f in before :: f.winner.None?) && forall f | f in after :: f.winner.None? || f == final
    ensures RememberAll(before + [final] + after).winner == final.winner
    ensures game in StoreAll(t, game, before + [final] + after).games
    ensures StoreAll(t, game, before + [final] + after).games[game].winner
      == if forall f | f in before :: f.version < final.version then final.winner else None
    ensures StoreAll(t, game, before + [final] + after).games[game].ended
      == if forall f | f in before :: f.version < final.version then Some(final.at) else None
  {
    assert (before + [final])[..|before|] == before;
    assert final in before + [final];
    WinnerStays(t, game, before + [final], after, final);
    NobodyWon(t, game, before);
    var all := before + [final] + after;
    assert forall f | f in before :: f in all;
    assert final in all;
    if before != [] {
      var newest := Newest(before);
      AllKeepTheNewest(t, game, before, newest);
      assert newest.version == final.version ==> newest == final;
    }
  }

  // ---------------------------------------------------------------------------
  // The stores in their own form
  // ---------------------------------------------------------------------------

  class InMemoryGameStore {
    var games: map<GameId, Remembered>

    constructor ()
      ensures games == map[]
    {
      games := map[];
    }

    method Create(game: GameId) returns (ok: bool)
      modifies this
      ensures ok <==> game !in old(games)
      ensures games == if ok then old(games)[game := FORGOTTEN] else old(games)
    {
      if game in games { return false; }
      games := games[game := FORGOTTEN];
      ok := true;
    }

    method FlushTo(game: GameId, f: Flush) returns (ok: bool)
      modifies this
      ensures ok <==> game in old(games)
      ensures games == if ok then old(games)[game := Remember(old(games)[game], f)] else old(games)
    {
      if game !in games { return false; }
      var remembered := games[game];
      remembered := remembered.(events := remembered.events + f.events, lines := remembered.lines + f.lines);
      if f.version > remembered.version {
        remembered := remembered.(version := f.version, views := f.views);
      }
      if f.winner.Some? { remembered := remembered.(winner := f.winner); }
      games := games[game := remembered];
      ok := true;
    }
  }

  class PostgresGameStore {
    var games: map<GameId, GameRow>
    var events: Rows
    var lines: Rows

    constructor ()
      ensures Now() == Tables(map[], map[], map[])
    {
      games, events, lines := map[], map[], map[];
    }

    function Now(): Tables
      reads this
    {
      Tables(games, events, lines)
    }

    /** `ON CONFLICT DO NOTHING`, record by record. */
    method InsertRecords(rows: Rows, game: GameId, records: seq<Record>) returns (out: Rows)
      ensures out == Insert(rows, game, records)
    {
      out := rows;
      var i := 0;
      while i < |records|
        invariant i <= |records| && out == Insert(rows, game, records[..i])
      {
        assert records[..i + 1][..i] == records[..i];
        if (game, records[i].number) !in out { out := out[(game, records[i].number) := records[i]]; }
        i := i + 1;
      }
      assert records[..i] == records;
    }

    method FlushTo(game: GameId, f: Flush)
      modifies this
      ensures Now() == Store(old(Now()), game, f)
    {
      if game !in games { return; }
      events := InsertRecords(events, game, f.events);
      lines := InsertRecords(lines, game, f.lines);
      var row := games[game];
      if row.version < f.version {
        games := games[game := GameRow(f.version, f.views, f.at,
          Coalesce(row.ended, if f.winner.Some? then Some(f.at) else None), Coalesce(row.winner, f.winner))];
      }
    }
  }
}
