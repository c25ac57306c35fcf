/**
 * The two result shapes a driver operation hands back: the outcome of an exec,
 * and the cursor over the rows of a query.
 */
module DbResult {
  import opened Wire

  const DriverName: string := "dbproxy"

  /** `Result`: what an exec reports. */
  datatype ExecResult = ExecResult(lastInsertId: int64, rowsAffected: int64)
  {
    /** The stored id, and never an error. */
    function LastInsertId(): (r: (int64, Option<Error>))
      ensures r.0 == lastInsertId && r.1 == None
    {
      (lastInsertId, None)
    }

    /** The stored count, and never an error. */
    function RowsAffected(): (r: (int64, Option<Error>))
      ensures r.0 == rowsAffected && r.1 == None
    {
      (rowsAffected, None)
    }
  }

  /** The error `Next` returns for a row whose width is not the destination's. */
  const DifferentColumns: Error := Errorf("different columns")

  /**
   * A row stream (None is a nil channel) and how many of its rows have been
   * received are consistent.
   */
  predicate InRange(rows: Option<seq<Row>>, consumed: nat)
  {
    rows.Some? ==> consumed <= |rows.value|
  }

  /** The state `Next` leaves behind: its error, rows received so far, the destination. */
  datatype Stepped = Stepped(err: Option<Error>, consumed: nat, dest: seq<Value>)

  /**
   * One `Next(dest)` on a stream of which `consumed` rows were received. A closed
   * channel keeps answering EOF, so an exhausted stream stays at EOF.
   */
  function Step(rows: Option<seq<Row>>, consumed: nat, dest: seq<Value>): (s: Stepped)
    requires InRange(rows, consumed)
    ensures InRange(rows, s.consumed) && |s.dest| == |dest|
    ensures s.err.None? <==> rows.Some? && consumed < |rows.value| && |rows.value[consumed]| == |dest|
    ensures s.err.None? ==> s.dest == rows.value[consumed] && s.consumed == consumed + 1
    ensures s.err.Some? ==> s.dest == dest
  {
    if rows.None? || consumed == |rows.value| then Stepped(Some(EOF), consumed, dest)
    else if |rows.value[consumed]| != |dest| then Stepped(Some(DifferentColumns), consumed + 1, dest)
    else Stepped(None, consumed + 1, rows.value[consumed])
  }

  /** The states after each of `k` successive calls of `Next`. */
  function Trace(rows: Option<seq<Row>>, consumed: nat, dest: seq<Value>, k: nat): (t: seq<Stepped>)
    requires InRange(rows, consumed)
    ensures |t| == k
    decreases k
  {
    if k == 0 then []
    else
      var s := Step(rows, consumed, dest);
      [s] + Trace(rows, s.consumed, s.dest, k - 1)
  }

  /** On a nil stream `Next` answers EOF and leaves the destination as it was. */
  lemma NilStreamIsEof(dest: seq<Value>, consumed: nat)
    ensures Step(None, consumed, dest) == Stepped(Some(EOF), consumed, dest)
  {
  }

  /** Once the stream is exhausted, every later `Next` answers EOF and changes nothing. */
  lemma {:induction false} ExhaustedStaysEof(rows: seq<Row>, dest: seq<Value>, k: nat)
    ensures forall i :: 0 <= i < k ==>
      Trace(Some(rows), |rows|, dest, k)[i] == Stepped(Some(EOF), |rows|, dest)
  {
    if k > 0 {
      ExhaustedStaysEof(rows, dest, k - 1);
      assert Trace(Some(rows), |rows|, dest, k) == [Stepped(Some(EOF), |rows|, dest)] + Trace(Some(rows), |rows|, dest, k - 1);
    }
  }

  /**
   * A row of the wrong width is consumed with the "different columns" error and
   * the destination untouched, whatever follows it; the error is not sticky: the
   * next call reads the following row, and succeeds exactly when that row fits.
   */
  lemma ShapeErrorIsNotSticky(rows: seq<Row>, consumed: nat, dest: seq<Value>)
    requires consumed < |rows| && |rows[consumed]| != |dest|
    ensures Step(Some(rows), consumed, dest) == Stepped(Some(DifferentColumns), consumed + 1, dest)
    ensures consumed + 1 < |rows| ==>
      Step(Some(rows), consumed + 1, dest).consumed == consumed + 2
      && (Step(Some(rows), consumed + 1, dest).err.None? <==> |rows[consumed + 1]| == |dest|)
      && (|rows[consumed + 1]| == |dest| ==> Step(Some(rows), consumed + 1, dest).dest == rows[consumed + 1])
    ensures consumed + 1 == |rows| ==> Step(Some(rows), consumed + 1, dest) == Stepped(Some(EOF), |rows|, dest)
  {
  }

  /**
   * A stream of rows all as wide as the destination yields each remaining row, in
   * order, with no error, and then EOF on every further call.
   */
  lemma {:induction false} DrainYieldsRowsThenEof(rows: seq<Row>, consumed: nat, dest: seq<Value>, k: nat)
    requires consumed <= |rows|
    requires forall j :: consumed <= j < |rows| ==> |rows[j]| == |dest|
    ensures forall i :: 0 <= i < k && consumed + i < |rows| ==>
      Trace(Some(rows), consumed, dest, k)[i] == Stepped(None, consumed + i + 1, rows[consumed + i])
    ensures forall i :: 0 <= i < k && consumed + i >= |rows| ==>
      Trace(Some(rows), consumed, dest, k)[i].err == Some(EOF)
    decreases k
  {
    if k > 0 {
      var s := Step(Some(rows), consumed, dest);
      var t := Trace(Some(rows), consumed, dest, k);
      assert t == [s] + Trace(Some(rows), s.consumed, s.dest, k - 1);
      if consumed == |rows| {
        ExhaustedStaysEof(rows, dest, k);
      } else {
        assert |s.dest| == |dest|;
        DrainYieldsRowsThenEof(rows, consumed + 1, s.dest, k - 1);
      }
    }
  }

  /** `ResultSet`: a cursor over a query's row stream. */
  class ResultSet {
    const columns: seq<string>
    /** The row stream; None stands for a nil channel. */
    const rows: Option<seq<Row>>
    /** How many rows have been received from the stream. */
    var consumed: nat

    ghost predicate Valid()
      reads this
    {
      InRange(rows, consumed)
    }

    constructor (columns: seq<string>, rows: Option<seq<Row>>)
      ensures this.columns == columns && this.rows == rows && consumed == 0 && Valid()
    {
      this.columns := columns;
      this.rows := rows;
      consumed := 0;
    }

    /** The column list fixed at construction; every call gives the same list. */
    function Columns(): (cols: seq<string>)
      ensures cols == columns
    {
      columns
    }

    /** Does nothing and never fails. */
    method Close() returns (err: Option<Error>)
      ensures err == None
    {
      err := None;
    }

    /** Receives the next row and copies it into `dest`. */
    method Next(dest: array<Value>) returns (err: Option<Error>)
      requires Valid()
      modifies this, dest
      ensures Valid()
      ensures Stepped(err, consumed, dest[..]) == Step(rows, old(consumed), old(dest[..]))
    {
      if rows.None? || consumed == |rows.value| {
        return Some(EOF);
      }
      var row := rows.value[consumed];
      consumed := consumed + 1;
      if |row| != dest.Length {
        return Some(DifferentColumns);
      }
      for i := 0 to |row|
        modifies dest
        invariant dest[..i] == row[..i]
      {
        dest[i] := row[i];
      }
      assert dest[..] == row[..|row|];
      err := None;
    }
  }
}
