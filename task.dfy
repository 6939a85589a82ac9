/**
 * `Task` (src/bot/task.rs): the cursor store's reader and writer over its own
 * connection to the database, and the placeholder message handler.
 */
module Task {
  import opened Wrappers
  import opened Text
  import opened Store

  /**
   * What `get_last_known_batch` makes of the query: a failed query and a
   * blank stored cursor both mean "no usable cursor".
   */
  function NormaliseBatch(q: Result<string, StoreError>): (r: Option<string>)
    ensures r.None? <==> q.Err? || Blank(q.value)
    ensures r.Some? ==> r.value == q.value
  {
    match q
    case Err(_) => None
    case Ok(v) =>
      TrimEmptyIffBlank(v);
      if Trim(v) == [] then None else Some(v)
  }

  /**
   * The table after `tick(next_batch)`: untouched for an empty cursor or a
   * failing engine (the panic case), otherwise row 1 rewritten if it exists.
   */
  function TickedTable(t: Table, nextBatch: string): (r: Table)
    ensures nextBatch == [] || !t.available || 1 !in t.rows ==> r == t
    ensures r.available == t.available && r.rows.Keys == t.rows.Keys
    ensures forall j :: j in t.rows && j != 1 ==> r.rows[j] == t.rows[j]
    ensures nextBatch != [] && t.available && 1 in t.rows ==> r.rows[1] == nextBatch
  {
    if nextBatch == [] then t
    else match UpdateNextBatch(t, 1, nextBatch)
      case Ok((t', _)) => t'
      case Err(_) => t
  }

  class Task {
    const conn: Database

    constructor (conn: Database)
      ensures this.conn == conn
    {
      this.conn := conn;
    }

    /** Reads the stored cursor and drops it when the query fails or it is blank. */
    method GetLastKnownBatch() returns (r: Option<string>)
      ensures r == NormaliseBatch(SelectNextBatch(conn.table))
    {
      var data := SelectNextBatch(conn.table);
      match data
      case Ok(v) =>
        if Trim(v) == [] {
          return None;
        }
        r := Some(v);
      case Err(_) =>
        r := None;
    }

    /**
     * Persists a non-empty cursor into row 1. A failing `execute` is unwrapped
     * in the Rust code, which aborts the process; `aborted` reports that case.
     */
    method Tick(nextBatch: string) returns (aborted: bool)
      modifies conn
      ensures conn.table == TickedTable(old(conn.table), nextBatch)
      ensures aborted <==> nextBatch != [] && !old(conn.table).available
    {
      aborted := false;
      if nextBatch != [] {
        var res := UpdateNextBatch(conn.table, 1, nextBatch);
        match res
        case Ok((t', _)) => conn.table := t';
        case Err(_) => aborted := true;
      }
    }

    /** The message handler placeholder: it only logs, so no state changes. */
    method Parse(room: string, sender: string, message: string)
      ensures conn.table == old(conn.table)
    {
    }
  }

  /** `tick("")` leaves the whole table as it was. */
  lemma TickEmptyIsNoOp(t: Table)
    ensures TickedTable(t, "") == t
  {
  }

  /**
   * Round trip: when row 1 is the first row of a working table (in particular
   * when it is the only one), a cursor written by `tick` is read back
   * unchanged by `get_last_known_batch` unless it is blank.
   */
  lemma TickThenReadRoundTrip(t: Table, s: string)
    requires t.available && 1 in t.rows && forall j :: j in t.rows ==> 1 <= j
    requires !Blank(s)
    ensures NormaliseBatch(SelectNextBatch(TickedTable(t, s))) == Some(s)
  {
  }

  /**
   * The asymmetry between the two halves of the store: `tick` tests only
   * `is_empty`, the read tests `trim().is_empty`, so a non-empty blank cursor
   * is written into row 1 and then read back as no cursor at all, whenever
   * row 1 is the first row of a working table (a single-row table in particular).
   */
  lemma BlankCursorWrittenButNotRead(t: Table, s: string)
    requires t.available && 1 in t.rows && forall j :: j in t.rows ==> 1 <= j
    requires s != [] && Blank(s)
    ensures TickedTable(t, s).rows == t.rows[1 := s]
    ensures NormaliseBatch(SelectNextBatch(TickedTable(t, s))) == None
  {
  }
}
