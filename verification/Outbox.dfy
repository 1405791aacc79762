/** The durable outbox and its relay (packages/shared/envelope/envelope.go:134-275): rows are appended to a log,
    updated by appending again, and forwarded to a bus that may fail. */
module Outbox {
  import opened Options

  datatype Status = Pending | Published | Failed

  datatype Row = Row(number: nat, topic: string, envelope: string, status: Status, attempts: nat)

  // ----- The log as rows -----

  /** The last row written under a number. */
  function Latest(log: seq<Row>, n: nat): Option<Row> {
    if log == [] then None
    else if log[|log| - 1].number == n then Some(log[|log| - 1])
    else Latest(log[..|log| - 1], n)
  }

  /** Where the row with a number stands, or the length. */
  function Find(rows: seq<Row>, n: nat): (i: nat)
    ensures i <= |rows| && (i < |rows| ==> rows[i].number == n) && forall j :: 0 <= j < i ==> rows[j].number != n
  {
    if rows == [] || rows[0].number == n then 0 else 1 + Find(rows[1..], n)
  }

  function PutRow(rows: seq<Row>, r: Row): seq<Row> {
    var i := Find(rows, r.number);
    if i < |rows| then rows[i := r] else rows + [r]
  }

  /** First-written order, last write wins. */
  function Rows(log: seq<Row>): seq<Row> {
    if log == [] then [] else PutRow(Rows(log[..|log| - 1]), log[|log| - 1])
  }

  predicate Numbered(rows: seq<Row>) {
    forall i, j :: 0 <= i < j < |rows| ==> rows[i].number != rows[j].number
  }

  lemma PutRowMembers(rows: seq<Row>, r: Row)
    requires Numbered(rows)
    ensures Numbered(PutRow(rows, r))
    ensures forall x :: x in PutRow(rows, r) <==> x == r || (x in rows && x.number != r.number)
  {
    var i := Find(rows, r.number);
    if i < |rows| {
      assert rows[i := r][i] == r;
      forall x | x in rows && x.number != r.number
        ensures x in rows[i := r]
      {
        var j :| 0 <= j < |rows| && rows[j] == x;
        assert rows[i := r][j] == x;
      }
    }
  }

  /** The rows are exactly the latest ones. */
  lemma {:induction false} RowsAreLatest(log: seq<Row>)
    ensures Numbered(Rows(log))
    ensures forall x :: x in Rows(log) <==> Latest(log, x.number) == Some(x)
  {
    if log != [] {
      RowsAreLatest(log[..|log| - 1]);
      PutRowMembers(Rows(log[..|log| - 1]), log[|log| - 1]);
    }
  }

  lemma {:induction false} LatestNumber(log: seq<Row>, n: nat)
    ensures Latest(log, n).Some? ==> Latest(log, n).value.number == n && Latest(log, n).value in log
  {
    if log != [] && log[|log| - 1].number != n {
      LatestNumber(log[..|log| - 1], n);
    }
  }

  lemma LatestNext(log: seq<Row>, r: Row, n: nat)
    ensures Latest(log + [r], n) == if n == r.number then Some(r) else Latest(log, n)
  {
    assert (log + [r])[..|log|] == log;
  }

  function MaxNumber(rows: seq<Row>): nat {
    if rows == [] then 0
    else
      var m := MaxNumber(rows[..|rows| - 1]);
      if rows[|rows| - 1].number > m then rows[|rows| - 1].number else m
  }

  lemma {:induction false} MaxIs(rows: seq<Row>, n: nat)
    requires forall r :: r in rows ==> r.number <= n
    requires n > 0 ==> exists r :: r in rows && r.number == n
    ensures MaxNumber(rows) == n
  {
    MaxBounds(rows);
    if n > 0 {
      var r :| r in rows && r.number == n;
    }
  }

  lemma {:induction false} MaxBounds(rows: seq<Row>)
    ensures forall r :: r in rows ==> r.number <= MaxNumber(rows)
    ensures MaxNumber(rows) > 0 ==> exists r :: r in rows && r.number == MaxNumber(rows)
  {
    if rows != [] {
      MaxBounds(rows[..|rows| - 1]);
      assert rows == rows[..|rows| - 1] + [rows[|rows| - 1]];
    }
  }

  function MarkedLog(log: seq<Row>, n: nat, status: Status, attempts: nat): seq<Row> {
    match Latest(log, n)
    case None => log
    case Some(r) => log + [r.(status := status, attempts := attempts)]
  }

  /** The map and the order the fold keeps, against the rows they stand for. */
  ghost predicate Indexed(rows: seq<Row>, byNumber: map<nat, Row>, order: seq<nat>) {
    && |order| == |rows|
    && (forall k :: 0 <= k < |rows| ==>
          order[k] == rows[k].number && order[k] in byNumber && byNumber[order[k]] == rows[k])
    && forall n :: n in byNumber ==> Find(rows, n) < |rows|
  }

  lemma {:induction false} FindKnown(rows: seq<Row>, k: nat)
    requires k < |rows|
    ensures Find(rows, rows[k].number) < |rows|
  {
  }

  lemma IndexedKnown(rows: seq<Row>, byNumber: map<nat, Row>, order: seq<nat>, r: Row)
    requires Indexed(rows, byNumber, order) && Numbered(rows) && r.number in byNumber
    ensures Indexed(PutRow(rows, r), byNumber[r.number := r], order)
  {
    var i, rows' := Find(rows, r.number), PutRow(rows, r);
    forall n | n in byNumber
      ensures Find(rows', n) < |rows'|
    {
      FindKnown(rows', Find(rows, n));
    }
  }

  lemma IndexedNew(rows: seq<Row>, byNumber: map<nat, Row>, order: seq<nat>, r: Row)
    requires Indexed(rows, byNumber, order) && Numbered(rows) && r.number !in byNumber
    ensures Indexed(PutRow(rows, r), byNumber[r.number := r], order + [r.number])
  {
    var rows' := PutRow(rows, r);
    assert rows' == rows + [r];
    hide PutRow, Find;
    forall n | n in byNumber || n == r.number
      ensures Find(rows', n) < |rows'|
    {
      FindKnown(rows', Find(rows, n));
    }
  }

  lemma LatestInRows(log: seq<Row>, n: nat)
    ensures Latest(log, n).Some? ==> Latest(log, n).value.number == n && Latest(log, n).value in Rows(log)
  {
    LatestNumber(log, n);
    RowsAreLatest(log);
  }

  /** The outbox object. */
  class DurableOutbox {
    var log: seq<Row>
    var number: nat

    /** The numbering continues after the rows found. */
    constructor (found: seq<Row>)
      ensures log == found && number == MaxNumber(Rows(found))
    {
      hide Rows;
      log, number := found, 0;
      new;
      var rows := ReadRows();
      var i := 0;
      while i < |rows|
        invariant 0 <= i <= |rows| && number == MaxNumber(rows[..i]) && log == found
      {
        assert rows[..i + 1][..i] == rows[..i];
        if rows[i].number > number {
          number := rows[i].number;
        }
        i := i + 1;
      }
      assert rows[..i] == rows;
    }

    method Publish(topic: string, envelope: string)
      modifies this
      ensures number == old(number) + 1 && log == old(log) + [Row(number, topic, envelope, Pending, 0)]
    {
      number := number + 1;
      log := log + [Row(number, topic, envelope, Pending, 0)];
    }

    /** The fold over the log, with the map and the order it keeps. */
    method ReadRows() returns (rows: seq<Row>)
      ensures rows == Rows(log)
    {
      hide PutRow;
      var byNumber: map<nat, Row> := map[];
      var order: seq<nat> := [];
      var i := 0;
      while i < |log|
        invariant 0 <= i <= |log| && Indexed(Rows(log[..i]), byNumber, order)
      {
        var r := log[i];
        assert log[..i + 1][..i] == log[..i];
        RowsAreLatest(log[..i]);
        if r.number in byNumber {
          IndexedKnown(Rows(log[..i]), byNumber, order, r);
        } else {
          IndexedNew(Rows(log[..i]), byNumber, order, r);
          order := order + [r.number];
        }
        byNumber := byNumber[r.number := r];
        i := i + 1;
      }
      assert log[..i] == log;
      rows := [];
      i := 0;
      while i < |order|
        invariant 0 <= i <= |order| && rows == Rows(log)[..i]
      {
        rows := rows + [byNumber[order[i]]];
        i := i + 1;
      }
    }

    method Mark(n: nat, status: Status, attempts: nat) returns (found: bool)
      modifies this`log
      ensures found == Latest(old(log), n).Some? && log == MarkedLog(old(log), n, status, attempts)
    {
      var rows := ReadRows();
      RowsAreLatest(log);
      var i := 0;
      while i < |rows|
        invariant 0 <= i <= |rows| && log == old(log) && forall k :: 0 <= k < i ==> rows[k].number != n
      {
        if rows[i].number == n {
          assert rows[i] in rows;
          log := log + [rows[i].(status := status, attempts := attempts)];
          return true;
        }
        i := i + 1;
      }
      LatestInRows(log, n);
      return false;
    }
  }
}
