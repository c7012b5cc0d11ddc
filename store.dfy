/**
 * The accepted_scooters table, held in memory. The SQL statements the bot
 * issues become operations on a sequence of rows: an INSERT OR IGNORE
 * batch keyed on UNIQUE(scooter_number, accepted_by_user_id, timestamp),
 * a DELETE by number and username, and SELECTs filtered by timestamp or
 * number. Rows are returned in insertion order.
 */
module Store {
  import opened Wrappers

  /** The columns written by db_write_batch, in its order. */
  datatype Record = Record(
    number: string,
    service: string,
    userId: int,
    username: Option<string>,
    fullName: string,
    timestamp: int,
    chatId: int)

  /** A stored row: the AUTOINCREMENT id and the record. */
  datatype Row = Row(id: nat, rec: Record)

  datatype RecordKey = RecordKey(number: string, userId: int, timestamp: int)

  function Key(r: Record): RecordKey
  {
    RecordKey(r.number, r.userId, r.timestamp)
  }

  predicate HasKey(rs: seq<Record>, k: RecordKey)
  {
    exists j :: 0 <= j < |rs| && Key(rs[j]) == k
  }

  predicate UniqueKeys(rs: seq<Record>)
  {
    forall i, j :: 0 <= i < j < |rs| ==> Key(rs[i]) != Key(rs[j])
  }

  /** executemany of INSERT OR IGNORE: a record whose key is already present is dropped. */
  function InsertOrIgnore(stored: seq<Record>, batch: seq<Record>): seq<Record>
  {
    if batch == [] then stored
    else
      var prev := InsertOrIgnore(stored, batch[..|batch| - 1]);
      var b := batch[|batch| - 1];
      if HasKey(prev, Key(b)) then prev else prev + [b]
  }

  /**
   * INSERT OR IGNORE keeps what was stored, adds only records of the batch,
   * never two rows with one key, and afterwards every key of the batch is
   * present.
   */
  lemma {:induction false} InsertOrIgnoreProperties(stored: seq<Record>, batch: seq<Record>)
    requires UniqueKeys(stored)
    ensures var r := InsertOrIgnore(stored, batch);
      && |stored| <= |r| <= |stored| + |batch|
      && r[..|stored|] == stored
      && (forall j :: |stored| <= j < |r| ==> r[j] in batch)
      && UniqueKeys(r)
      && (forall b :: b in batch ==> HasKey(r, Key(b)))
  {
    if batch != [] {
      var init := batch[..|batch| - 1];
      var b := batch[|batch| - 1];
      InsertOrIgnoreProperties(stored, init);
      var prev := InsertOrIgnore(stored, init);
      var r := InsertOrIgnore(stored, batch);
      forall x | x in batch ensures HasKey(r, Key(x)) {
        if x != b {
          assert x in init;
          var j :| 0 <= j < |prev| && Key(prev[j]) == Key(x);
          assert r[j] == prev[j];
        } else if !HasKey(prev, Key(b)) {
          assert r[|r| - 1] == b;
        }
      }
      forall j | |stored| <= j < |r| ensures r[j] in batch {
        if j < |prev| {
          assert r[j] == prev[j] && prev[j] in init;
        }
      }
      if !HasKey(prev, Key(b)) {
        assert r[..|stored|] == prev[..|stored|];
      }
    }
  }

  /**
   * When the keys of the batch are pairwise distinct and none is stored
   * yet, INSERT OR IGNORE appends the whole batch.
   */
  lemma {:induction false} InsertOrIgnoreFresh(stored: seq<Record>, batch: seq<Record>)
    requires UniqueKeys(batch)
    requires forall b :: b in batch ==> !HasKey(stored, Key(b))
    ensures InsertOrIgnore(stored, batch) == stored + batch
  {
    if batch != [] {
      var init := batch[..|batch| - 1];
      var b := batch[|batch| - 1];
      assert UniqueKeys(init);
      InsertOrIgnoreFresh(stored, init);
      var prev := stored + init;
      assert !HasKey(stored, Key(b));
      forall j | 0 <= j < |prev| ensures Key(prev[j]) != Key(b) {
        if j >= |stored| {
          assert prev[j] == batch[j - |stored|];
        }
      }
      assert init + [b] == batch;
    }
  }

  /** The rows whose record satisfies `keep`, in stored order. */
  function Where(rows: seq<Row>, keep: Record -> bool): (r: seq<Row>)
    ensures |r| <= |rows|
    ensures forall x :: x in r ==> x in rows && keep(x.rec)
    ensures forall x :: x in rows && keep(x.rec) ==> x in r
  {
    if rows == [] then []
    else
      var prev := Where(rows[..|rows| - 1], keep);
      var x := rows[|rows| - 1];
      assert forall y :: y in rows ==> y in rows[..|rows| - 1] || y == x;
      if keep(x.rec) then prev + [x] else prev
  }

  function RecordsOf(rows: seq<Row>): seq<Record>
  {
    seq(|rows|, k requires 0 <= k < |rows| => rows[k].rec)
  }

  /** `WHERE timestamp BETWEEN lo AND hi`: inclusive at both ends. */
  function Between(rows: seq<Row>, lo: int, hi: int): seq<Row>
  {
    Where(rows, (r: Record) => lo <= r.timestamp <= hi)
  }

  /** `WHERE timestamp >= lo AND timestamp < hi` */
  function HalfOpen(rows: seq<Row>, lo: int, hi: int): seq<Row>
  {
    Where(rows, (r: Record) => lo <= r.timestamp < hi)
  }

  predicate IdsIncreasing(rows: seq<Row>)
  {
    forall i, j :: 0 <= i < j < |rows| ==> rows[i].id < rows[j].id
  }

  lemma {:induction false} WhereKeepsOrder(rows: seq<Row>, keep: Record -> bool)
    requires IdsIncreasing(rows)
    ensures IdsIncreasing(Where(rows, keep))
  {
    if rows != [] {
      var init := rows[..|rows| - 1];
      WhereKeepsOrder(init, keep);
      var prev := Where(init, keep);
      forall y | y in prev ensures y.id < rows[|rows| - 1].id {
        var k :| 0 <= k < |init| && init[k] == y;
      }
    }
  }

  predicate UniqueRowKeys(rows: seq<Row>)
  {
    forall i, j :: 0 <= i < j < |rows| ==> Key(rows[i].rec) != Key(rows[j].rec)
  }

  lemma UniqueRowKeysOfRecords(rows: seq<Row>)
    ensures UniqueRowKeys(rows) <==> UniqueKeys(RecordsOf(rows))
  {
    assert forall k :: 0 <= k < |rows| ==> RecordsOf(rows)[k] == rows[k].rec;
  }

  lemma {:induction false} WhereKeepsUniqueKeys(rows: seq<Row>, keep: Record -> bool)
    requires UniqueRowKeys(rows)
    ensures UniqueRowKeys(Where(rows, keep))
  {
    if rows != [] {
      var init := rows[..|rows| - 1];
      WhereKeepsUniqueKeys(init, keep);
      var prev := Where(init, keep);
      var x := rows[|rows| - 1];
      if keep(x.rec) {
        forall y | y in prev ensures Key(y.rec) != Key(x.rec) {
          var k :| 0 <= k < |init| && init[k] == y;
          assert rows[k] == y;
        }
      }
    }
  }

  /** The accepted_scooters table. */
  class Table {
    var rows: seq<Row>
    /** The next AUTOINCREMENT value. */
    var nextId: nat

    ghost predicate Valid()
      reads this
    {
      && nextId >= 1
      && (forall k :: 0 <= k < |rows| ==> 1 <= rows[k].id < nextId)
      && IdsIncreasing(rows)
      && UniqueRowKeys(rows)
    }

    function Records(): seq<Record>
      reads this
    {
      RecordsOf(rows)
    }

    constructor ()
      ensures Valid() && rows == [] && nextId == 1
    {
      rows := [];
      nextId := 1;
    }

    /** db_write_batch: one executemany of INSERT OR IGNORE. */
    method WriteBatch(batch: seq<Record>)
      requires Valid()
      modifies this
      ensures Valid()
      ensures Records() == InsertOrIgnore(old(Records()), batch)
      ensures |old(rows)| <= |rows| && rows[..|old(rows)|] == old(rows)
    {
      var i := 0;
      while i < |batch|
        invariant 0 <= i <= |batch|
        invariant Valid()
        invariant Records() == InsertOrIgnore(old(Records()), batch[..i])
        invariant |old(rows)| <= |rows| && rows[..|old(rows)|] == old(rows)
      {
        var b := batch[i];
        assert batch[..i + 1][..i] == batch[..i];
        if !HasKey(Records(), Key(b)) {
          AppendRow(b);
        }
        i := i + 1;
      }
      assert batch[..|batch|] == batch;
    }

    /** One row of the executemany whose key is not in the table yet. */
    method AppendRow(b: Record)
      requires Valid() && !HasKey(Records(), Key(b))
      modifies this
      ensures Valid()
      ensures rows == old(rows) + [Row(old(nextId), b)] && nextId == old(nextId) + 1
      ensures Records() == old(Records()) + [b]
    {
      ghost var before := rows;
      forall j | 0 <= j < |before| ensures Key(before[j].rec) != Key(b) {
        assert RecordsOf(before)[j] == before[j].rec;
      }
      rows := rows + [Row(nextId, b)];
      nextId := nextId + 1;
      assert Records() == RecordsOf(before) + [b];
    }

    /** `DELETE FROM accepted_scooters WHERE scooter_number = ? AND accepted_by_username = ?` */
    method Delete(number: string, username: string) returns (deleted: nat)
      requires Valid()
      modifies this
      ensures Valid()
      ensures rows == Where(old(rows), (r: Record) => !(r.number == number && r.username == Some(username)))
      ensures deleted == |old(rows)| - |rows|
      ensures nextId == old(nextId)
    {
      var keep := (r: Record) => !(r.number == number && r.username == Some(username));
      WhereKeepsOrder(rows, keep);
      WhereKeepsUniqueKeys(rows, keep);
      var kept := Where(rows, keep);
      deleted := |rows| - |kept|;
      rows := kept;
    }
  }
}
