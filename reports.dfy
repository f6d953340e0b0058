/**
 * The `reports` table (medvi.py:21-28): `id INTEGER PRIMARY KEY AUTOINCREMENT`
 * followed by five text columns. The application only ever inserts, so the
 * table is an append-only sequence of records plus SQLite's AUTOINCREMENT
 * counter (the `sqlite_sequence` entry: the largest id ever handed out).
 */
module Reports {
  import opened Wrappers

  /** Largest rowid SQLite can hand out (2^63 - 1); once it has been used an
      AUTOINCREMENT insert fails with SQLITE_FULL. */
  const MaxRowId: int := 0x7FFF_FFFF_FFFF_FFFF

  /** The values the INSERT statement supplies. */
  datatype Row = Row(patientId: string, phoneNumber: string, timestamp: string,
                     imagePath: string, extractedText: string)

  datatype Record = Record(id: int, row: Row)

  datatype Table = Table(records: seq<Record>, lastId: int)

  /** Ids lie between 1 and the counter and increase along the table. */
  predicate ValidTable(t: Table) {
    0 <= t.lastId <= MaxRowId &&
    (forall i :: 0 <= i < |t.records| ==> 1 <= t.records[i].id <= t.lastId) &&
    (forall i, j :: 0 <= i < j < |t.records| ==> t.records[i].id < t.records[j].id)
  }

  /** A table as `CREATE TABLE IF NOT EXISTS` leaves it on a first run. */
  const EmptyTable := Table([], 0)

  /** The id AUTOINCREMENT gives the next row: one past every id ever used,
      or none when the id space is exhausted. */
  function NextId(t: Table): (r: Option<int>)
    requires ValidTable(t)
    ensures r.None? <==> t.lastId == MaxRowId
    ensures r.Some? ==> 1 <= r.value <= MaxRowId && t.lastId < r.value
    ensures r.Some? ==> forall i :: 0 <= i < |t.records| ==> t.records[i].id < r.value
  {
    if t.lastId < MaxRowId then Some(t.lastId + 1) else None
  }

  /** One INSERT: the table grows by exactly one record carrying `row` and a
      fresh id, earlier records untouched; with no id left it is unchanged. */
  function Insert(t: Table, row: Row): (r: Table)
    requires ValidTable(t)
    ensures ValidTable(r)
    ensures |r.records| == |t.records| + (if NextId(t).Some? then 1 else 0)
    ensures r.records[..|t.records|] == t.records
    ensures NextId(t).Some? ==> r.records[|t.records|] == Record(NextId(t).value, row)
    ensures NextId(t).Some? ==> r.lastId == NextId(t).value
    ensures NextId(t).None? ==> r == t
  {
    match NextId(t)
    case None => t
    case Some(id) => Table(t.records + [Record(id, row)], id)
  }

  /** Inserting the same row twice yields two records with equal contents and
      distinct, increasing ids: there is no deduplication. */
  lemma InsertTwiceNoDedup(t: Table, row1: Row, row2: Row)
    requires ValidTable(t) && t.lastId + 2 <= MaxRowId
    ensures var t2 := Insert(Insert(t, row1), row2);
      |t2.records| == |t.records| + 2 &&
      t2.records[..|t.records|] == t.records &&
      t2.records[|t.records|].row == row1 &&
      t2.records[|t.records| + 1].row == row2 &&
      t2.records[|t.records|].id < t2.records[|t.records| + 1].id
  {
    var t1 := Insert(t, row1);
    assert t1.records[..|t.records|] == Insert(t1, row2).records[..|t.records|];
  }

  /** The table in the database file, updated in place by INSERT. */
  class ReportStore {
    var records: seq<Record>
    var lastId: int

    function Contents(): Table
      reads this
    {
      Table(records, lastId)
    }

    predicate Valid()
      reads this
    {
      ValidTable(Contents())
    }

    /** Opens the table as found on disk (empty on a first run). */
    constructor Open(existing: Table)
      requires ValidTable(existing)
      ensures Valid() && Contents() == existing
    {
      records := existing.records;
      lastId := existing.lastId;
    }

    /** `cursor.execute("INSERT ...")` followed by `conn.commit()`: returns the
        id given to the new record, or `None` when SQLite reports the table full. */
    method Append(row: Row) returns (id: Option<int>)
      requires Valid()
      modifies this
      ensures Valid()
      ensures id == NextId(old(Contents()))
      ensures Contents() == Insert(old(Contents()), row)
    {
      if lastId == MaxRowId {
        id := None;
        return;
      }
      lastId := lastId + 1;
      records := records + [Record(lastId, row)];
      id := Some(lastId);
    }
  }
}
