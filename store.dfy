/**
 * The SQLite database file the bot opens, reduced to the one table the
 * shown code touches: `matrix(id, next_batch)`. The engine is abstract:
 * a map from row id to value, and whether statements can run at all.
 */
module Store {
  import opened Wrappers

  /** The `matrix` table; `available` is false when the table or file cannot be used. */
  datatype Table = Table(rows: map<int, string>, available: bool)

  /** Why a statement failed: the engine is unusable, or a single-row query found no row. */
  datatype StoreError = Unavailable | NoRows

  /** A handle on the database file; main.rs opens the bot's and the task's on the same file. */
  class Database {
    var table: Table

    constructor (t: Table)
      ensures table == t
    {
      table := t;
    }
  }

  /** A non-empty set of row ids has a member. */
  lemma HasMember(ids: set<int>)
    requires ids != {}
    ensures exists k :: k in ids
  {
    if forall k :: k !in ids {
      assert false;
    }
  }

  /** A finite non-empty set of row ids has a smallest member. */
  lemma {:induction false} SmallestIdExists(ids: set<int>)
    requires ids != {}
    ensures exists m :: m in ids && forall j :: j in ids ==> m <= j
    decreases |ids|
  {
    HasMember(ids);
    var k :| k in ids;
    if ids != {k} {
      var rest := ids - {k};
      SmallestIdExists(rest);
      var m :| m in rest && forall j :: j in rest ==> m <= j;
      var least := if k < m then k else m;
      forall j | j in ids ensures least <= j {
        if j != k {
          assert j in rest;
        }
      }
    } else {
      assert forall j :: j in ids ==> k <= j;
    }
  }

  /** The first row id in scan order: the smallest one. */
  function FirstId(ids: set<int>): (m: int)
    requires ids != {}
    ensures m in ids && forall j :: j in ids ==> m <= j
  {
    SmallestIdExists(ids);
    var m :| m in ids && forall j :: j in ids ==> m <= j;
    m
  }

  /** `SELECT next_batch FROM matrix LIMIT 1` through `query_row`. */
  function SelectNextBatch(t: Table): (r: Result<string, StoreError>)
    ensures r == Err(Unavailable) <==> !t.available
    ensures r == Err(NoRows) <==> t.available && t.rows == map[]
    ensures r.Ok? ==> exists id :: id in t.rows && t.rows[id] == r.value && forall j :: j in t.rows ==> id <= j
  {
    if !t.available then Err(Unavailable)
    else if t.rows == map[] then Err(NoRows)
    else
      var id := FirstId(t.rows.Keys);
      Ok(t.rows[id])
  }

  /**
   * `UPDATE matrix SET next_batch = v WHERE id = id` through `execute`:
   * the new table and the number of rows changed.
   */
  function UpdateNextBatch(t: Table, id: int, v: string): (r: Result<(Table, nat), StoreError>)
    ensures r.Err? <==> !t.available
    ensures r.Ok? ==> r.value.0.available && r.value.0.rows.Keys == t.rows.Keys
    ensures r.Ok? ==> forall j :: j in t.rows && j != id ==> r.value.0.rows[j] == t.rows[j]
    ensures r.Ok? && id in t.rows ==> r.value.0.rows[id] == v && r.value.1 == 1
    ensures r.Ok? && id !in t.rows ==> r.value.0 == t && r.value.1 == 0
  {
    if !t.available then Err(Unavailable)
    else if id in t.rows then Ok((t.(rows := t.rows[id := v]), 1))
    else Ok((t, 0))
  }
}
