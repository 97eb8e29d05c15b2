/**
 * The `messages` table: one row per stored message, inserted and never
 * updated or deleted by the listener. The PDO connection and the SQL text
 * are not part of this model; the table is the sequence of its rows in
 * insertion order.
 */
module MessageStore {
  import opened Wrappers

  /** A row: `channel`, `message_ts` and `message`. */
  datatype Record = Record(channel: string, ts: real, message: string)

  /** The cursor base used when the table is empty: 2021-09-01 00:00 at UTC+2
      (2021-08-31 22:00 UTC). */
  const FallbackOldest: real := 1630447200.0

  /** The newest-first lookup of `fetchOldest`, limited to one row: the
      largest timestamp of any row, of any channel, or nothing on an empty
      table. */
  function Newest(rows: seq<Record>): (r: Option<real>)
    ensures r.None? <==> rows == []
  {
    if rows == [] then None
    else
      match Newest(rows[1..])
      case None => Some(rows[0].ts)
      case Some(t) => Some(if rows[0].ts < t then t else rows[0].ts)
  }

  /** The timestamp `Newest` finds belongs to a row and no row is newer. */
  lemma {:induction false} NewestIsLargest(rows: seq<Record>)
    requires rows != []
    ensures exists i :: 0 <= i < |rows| && rows[i].ts == Newest(rows).value
    ensures forall i :: 0 <= i < |rows| ==> rows[i].ts <= Newest(rows).value
  {
    if |rows| == 1 {
      assert rows[1..] == [];
      assert rows[0].ts == Newest(rows).value;
    } else {
      NewestIsLargest(rows[1..]);
      assert forall i :: 1 <= i < |rows| ==> rows[i] == rows[1..][i - 1];
      var k :| 0 <= k < |rows[1..]| && rows[1..][k].ts == Newest(rows[1..]).value;
      if rows[0].ts < Newest(rows[1..]).value {
        assert rows[k + 1].ts == Newest(rows).value;
      } else {
        assert rows[0].ts == Newest(rows).value;
      }
    }
  }

  /** `fetchOldest`: the newest stored timestamp, or the fallback date when
      the table is empty. */
  function FetchOldest(rows: seq<Record>): real {
    match Newest(rows)
    case None => FallbackOldest
    case Some(t) => t
  }

  /** `fetchOldest` answers the fallback date on an empty table and
      otherwise the timestamp of a row that no row is newer than. */
  lemma FetchOldestIsNewest(rows: seq<Record>)
    ensures rows == [] ==> FetchOldest(rows) == FallbackOldest
    ensures rows != [] ==> exists i :: 0 <= i < |rows| && rows[i].ts == FetchOldest(rows)
    ensures forall i :: 0 <= i < |rows| ==> rows[i].ts <= FetchOldest(rows)
  {
    if rows != [] {
      NewestIsLargest(rows);
    }
  }

  /** Rows in strictly increasing timestamp order. */
  predicate Ascending(rows: seq<Record>) {
    forall i, j :: 0 <= i < j < |rows| ==> rows[i].ts < rows[j].ts
  }

  /** Rows below `bound` followed by rows at or above it, each part
      ascending, are ascending together. */
  lemma AscendingAppend(rows: seq<Record>, added: seq<Record>, bound: real)
    requires Ascending(rows) && Ascending(added)
    requires forall i :: 0 <= i < |rows| ==> rows[i].ts < bound
    requires forall j :: 0 <= j < |added| ==> added[j].ts >= bound
    ensures Ascending(rows + added)
  {
    var all := rows + added;
    forall i, j | 0 <= i < j < |all| ensures all[i].ts < all[j].ts {
      if j < |rows| {
        assert all[i] == rows[i] && all[j] == rows[j];
      } else if i < |rows| {
        assert all[i] == rows[i] && all[j] == added[j - |rows|];
      } else {
        assert all[i] == added[i - |rows|] && all[j] == added[j - |rows|];
      }
    }
  }

  /** On an ascending table the newest timestamp is the last row's. */
  lemma FetchOldestOfAscending(rows: seq<Record>)
    requires Ascending(rows) && rows != []
    ensures FetchOldest(rows) == rows[|rows| - 1].ts
  {
    FetchOldestIsNewest(rows);
    var i :| 0 <= i < |rows| && rows[i].ts == FetchOldest(rows);
    assert rows[|rows| - 1].ts <= rows[i].ts;
  }

  /** Once ascending rows newer than every row of the table are appended,
      whatever order the table was in, the newest timestamp is the last
      appended row's. */
  lemma NewestAfterAppend(rows: seq<Record>, added: seq<Record>)
    requires added != [] && Ascending(added)
    requires forall i :: 0 <= i < |rows| ==> rows[i].ts < added[|added| - 1].ts
    ensures FetchOldest(rows + added) == added[|added| - 1].ts
  {
    var all := rows + added;
    var last := added[|added| - 1].ts;
    forall j | 0 <= j < |all| ensures all[j].ts <= last {
      if j < |rows| {
        assert all[j] == rows[j];
      } else {
        assert all[j] == added[j - |rows|];
      }
    }
    FetchOldestIsNewest(all);
    assert all[|all| - 1].ts == last;
  }

  /** The table behind the PDO handle. */
  class MessageTable {
    var rows: seq<Record>

    constructor (rows: seq<Record>)
      ensures this.rows == rows
    {
      this.rows := rows;
    }

    /** Adds one row with the given channel, timestamp and message text. */
    method Insert(channel: string, ts: real, message: string)
      modifies this
      ensures rows == old(rows) + [Record(channel, ts, message)]
    {
      rows := rows + [Record(channel, ts, message)];
    }
  }
}
