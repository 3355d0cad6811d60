/** The SQLite file summaries.db with its single table `summaries`
    (topic TEXT PRIMARY KEY, summary, ui_summary, timestamp). */
module Database {
  import opened Common

  /** One row, keyed by its `topic` column (the cache key). */
  datatype Row = Row(summary: string, uiSummary: string, timestamp: int)

  /** The table's rows; None while the table has not been created. */
  type Table = Option<map<string, Row>>

  /** sqlite3 raises OperationalError when the table does not exist. */
  const NoSuchTable: Raised := OtherException("no such table: summaries")

  /** CREATE TABLE IF NOT EXISTS: creates an empty table, keeps an existing one. */
  function CreateIfAbsent(t: Table): (r: Table)
    ensures r.Some?
    ensures t.Some? ==> r == t
  {
    if t.Some? then t else Some(map[])
  }

  /** SELECT summary, ui_summary, timestamp ... WHERE topic=? with fetchone(). */
  function Select(t: Table, key: string): (r: Result<Option<Row>>)
    ensures t.None? <==> r.Err?
    ensures r.Ok? ==> (r.value.Some? <==> key in t.value)
  {
    if t.None? then Err(NoSuchTable)
    else if key in t.value then Ok(Some(t.value[key]))
    else Ok(None)
  }

  /** INSERT OR REPLACE keyed by the primary key: at most one row per key. */
  function Upsert(rows: map<string, Row>, key: string, row: Row): (r: map<string, Row>)
    ensures r.Keys == rows.Keys + {key}
    ensures |r| == if key in rows then |rows| else |rows| + 1
  {
    rows[key := row]
  }

  class SummaryStore {
    var table: Table

    /** Opens the database file in whatever state an earlier run left it. */
    constructor (existing: Table)
      ensures table == existing
    {
      table := existing;
    }

    /** init_db */
    method InitDb()
      modifies this
      ensures table == CreateIfAbsent(old(table))
    {
      if table.None? {
        table := Some(map[]);
      }
    }

    /** get_summary_from_db: runs the SELECT on the store's table; reads,
        never writes. */
    method GetSummary(key: string) returns (r: Result<Option<Row>>)
      ensures r == Select(table, key)
    {
      r := Select(table, key);
    }

    /** save_summary_to_db */
    method SaveSummary(key: string, summary: string, uiSummary: string, timestamp: int)
      returns (r: Result<()>)
      modifies this
      ensures old(table).None? ==> r == Err(NoSuchTable) && table == old(table)
      ensures old(table).Some? ==>
        r == Ok(()) && table == Some(Upsert(old(table).value, key, Row(summary, uiSummary, timestamp)))
    {
      if table.None? {
        r := Err(NoSuchTable);
      } else {
        table := Some(Upsert(table.value, key, Row(summary, uiSummary, timestamp)));
        r := Ok(());
      }
    }
  }

  /** init_db twice is init_db once. */
  lemma InitIdempotent(t: Table)
    ensures CreateIfAbsent(CreateIfAbsent(t)) == CreateIfAbsent(t)
  {
  }

  /** A saved row is read back exactly; every other key reads as before. */
  lemma SaveThenSelect(rows: map<string, Row>, key: string, row: Row, other: string)
    ensures Select(Some(Upsert(rows, key, row)), key) == Ok(Some(row))
    ensures other != key ==> Select(Some(Upsert(rows, key, row)), other) == Select(Some(rows), other)
  {
  }

  /** One call of save_summary_to_db: (key, summary, ui_summary, timestamp). */
  datatype Save = Save(key: string, row: Row)

  /** The rows after a series of saves, applied in order. */
  function Replay(rows: map<string, Row>, saves: seq<Save>): (r: map<string, Row>)
    decreases |saves|
  {
    if saves == [] then rows
    else Replay(Upsert(rows, saves[0].key, saves[0].row), saves[1..])
  }

  /** The row of the last save for `key` in `saves`, if any. */
  function LastSaved(saves: seq<Save>, key: string): Option<Row>
  {
    if saves == [] then None
    else if saves[|saves| - 1].key == key then Some(saves[|saves| - 1].row)
    else LastSaved(saves[..|saves| - 1], key)
  }

  lemma {:induction false} ReplayAppend(rows: map<string, Row>, saves: seq<Save>, s: Save)
    ensures Replay(rows, saves + [s]) == Upsert(Replay(rows, saves), s.key, s.row)
    decreases |saves|
  {
    if saves != [] {
      assert (saves + [s])[1..] == saves[1..] + [s];
      ReplayAppend(Upsert(rows, saves[0].key, saves[0].row), saves[1..], s);
    }
  }

  /** Last writer wins: after any series of saves, a key reads as its most
      recent save, or as before the series when it was never saved; a key
      that was neither present nor saved reads as None. */
  lemma {:induction false} ReplayReadsLastSave(rows: map<string, Row>, saves: seq<Save>, key: string)
    ensures LastSaved(saves, key).Some? ==>
      Select(Some(Replay(rows, saves)), key) == Ok(Some(LastSaved(saves, key).value))
    ensures LastSaved(saves, key).None? ==>
      Select(Some(Replay(rows, saves)), key) == Select(Some(rows), key)
    decreases |saves|
  {
    if saves != [] {
      var init := saves[..|saves| - 1];
      var s := saves[|saves| - 1];
      assert saves == init + [s];
      ReplayAppend(rows, init, s);
      ReplayReadsLastSave(rows, init, key);
    }
  }
}
