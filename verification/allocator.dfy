/**
  The allocation engine of the loan allocator (`LoanAllocatorGUI.allocate`).

  After checking both schemas it normalises PAID, initialises DIFF, sums the
  Collected table into an ID pool and an employee pool, and then walks the
  Submission rows in order. Each row pulls what it still needs first from the
  pool of its ID NUMBER and, only if still short, from the pool of its
  EMPLOYEE NUMBER; PAID is clamped to the instalment and DIFF rewritten.
 */
module Allocator {
  import opened Tables
  import opened Pools

  /** The summary record handed back to the caller (the output path is set by the window, not here). */
  datatype AllocationResult = AllocationResult(records: nat, totalPaid: int)

  /** The rewritten Submission rows together with the summary. */
  datatype Allocation = Allocation(rows: seq<Row>, summary: AllocationResult)

  /** The two pools, consumed as the rows are walked. */
  datatype State = State(byId: Pool, byEmployee: Pool)

  function PoolOf(s: State, c: Column): Pool
  {
    match c
    case ById => s.byId
    case ByEmployee => s.byEmployee
  }

  /** One row's allocation: the written-back row, what it drew from each pool, and the pools afterwards. */
  datatype RowStep = RowStep(row: Row, idAlloc: int, employeeAlloc: int, after: State)

  function AllocOf(st: RowStep, c: Column): int
  {
    match c
    case ById => st.idAlloc
    case ByEmployee => st.employeeAlloc
  }

  function Min(a: int, b: int): int
  {
    if a <= b then a else b
  }

  // ---------------------------------------------------------------------------
  // Schema check, PAID normalisation, DIFF initialisation
  // ---------------------------------------------------------------------------

  /**
    The Submission schema is checked before the Collected one, and the error names
    exactly the required columns the offending file lacks.
   */
  function CheckSchema(sub: SubmissionTable, col: CollectedTable): (e: Option<SchemaError>)
    ensures e == None <==> RequiredSubmission <= sub.columns && RequiredCollected <= col.columns
    ensures !(RequiredSubmission <= sub.columns) ==>
              e == Some(MissingColumns(SubmissionFile, RequiredSubmission - sub.columns))
    ensures RequiredSubmission <= sub.columns && !(RequiredCollected <= col.columns) ==>
              e == Some(MissingColumns(CollectedFile, RequiredCollected - col.columns))
    ensures e.Some? ==> e.value.missing != {}
  {
    var missingSub := RequiredSubmission - sub.columns;
    var missingCol := RequiredCollected - col.columns;
    assert missingSub == {} <==> RequiredSubmission <= sub.columns by {
      if missingSub == {} {
        forall x | x in RequiredSubmission ensures x in sub.columns {
          assert x !in missingSub;
        }
      }
    }
    assert missingCol == {} <==> RequiredCollected <= col.columns by {
      if missingCol == {} {
        forall x | x in RequiredCollected ensures x in col.columns {
          assert x !in missingCol;
        }
      }
    }
    if missingSub != {} then Some(MissingColumns(SubmissionFile, missingSub))
    else if missingCol != {} then Some(MissingColumns(CollectedFile, missingCol))
    else None
  }

  /** The starting PAID of a row: zero when the table has no PAID column, zero for a null cell. */
  function StartingPaid(sub: SubmissionTable, r: SubmissionRow): int
  {
    if Paid !in sub.columns then 0 else r.paid.GetOr(0)
  }

  /** The Submission rows with PAID normalised and DIFF set to what is still owed. */
  function Prepare(sub: SubmissionTable): (rows: seq<Row>)
    ensures |rows| == |sub.rows|
    ensures forall i :: 0 <= i < |rows| ==>
              && rows[i].id == sub.rows[i].id
              && rows[i].employee == sub.rows[i].employee
              && rows[i].instalment == sub.rows[i].instalment
              && rows[i].diff == rows[i].instalment - rows[i].paid
    ensures Paid !in sub.columns ==> forall i :: 0 <= i < |rows| ==> rows[i].paid == 0
    ensures Paid in sub.columns ==> forall i :: 0 <= i < |rows| ==>
              (sub.rows[i].paid.None? ==> rows[i].paid == 0) &&
              (sub.rows[i].paid.Some? ==> rows[i].paid == sub.rows[i].paid.value)
  {
    seq(|sub.rows|, i requires 0 <= i < |sub.rows| =>
      var r := sub.rows[i];
      var paid := StartingPaid(sub, r);
      Row(r.id, r.employee, r.instalment, paid, r.instalment - paid))
  }

  /** The ID pool and the employee pool, both summed from every collected row. */
  function InitialState(col: CollectedTable): (s: State)
    ensures forall c, k :: Avail(PoolOf(s, c), k) == SumFor(col.rows, c, k)
  {
    forall c, k ensures Avail(BuildPool(col.rows, c), k) == SumFor(col.rows, c, k) {
      PoolIsGroupedSum(col.rows, c, k);
    }
    State(BuildPool(col.rows, ById), BuildPool(col.rows, ByEmployee))
  }

  // ---------------------------------------------------------------------------
  // One row
  // ---------------------------------------------------------------------------

  /** What a row short of `instalment` by `instalment - paid` draws from a pool holding `available`. */
  function Draw(instalment: int, paid: int, available: int): int
  {
    if available > 0 then Min(instalment - paid, available) else 0
  }

  /**
    Allocates one Submission row against the pools: the ID pass, then the
    employee pass if the row is still short, then the clamp and write-back.
   */
  function AllocateRow(row: Row, s: State): (st: RowStep)
    // the row keeps its keys and instalment; PAID is capped and DIFF is what is still owed
    ensures st.row.id == row.id && st.row.employee == row.employee && st.row.instalment == row.instalment
    ensures st.row.paid <= row.instalment
    ensures st.row.diff == row.instalment - st.row.paid && st.row.diff >= 0
    // each pool loses exactly this row's draw under this row's key and nothing else
    ensures forall c, k :: Avail(PoolOf(st.after, c), k)
              == Avail(PoolOf(s, c), k) - (if RowKey(row, c) == k then AllocOf(st, c) else 0)
    ensures forall c :: PoolOf(st.after, c).Keys == PoolOf(s, c).Keys
    // a pool with nothing available under the row's key is not drawn from
    ensures forall c :: Avail(PoolOf(s, c), RowKey(row, c)) <= 0 ==> AllocOf(st, c) == 0
    // from a well-formed start every draw lies between zero and what was available
    ensures row.paid <= row.instalment ==> forall c ::
              Avail(PoolOf(s, c), RowKey(row, c)) > 0 ==>
                0 <= AllocOf(st, c) <= Avail(PoolOf(s, c), RowKey(row, c))
    ensures row.paid <= row.instalment ==> 0 <= st.idAlloc && 0 <= st.employeeAlloc
    ensures row.paid <= row.instalment ==> st.row.paid == row.paid + st.idAlloc + st.employeeAlloc
    // the ID pool is drawn first, as far as the row needs or the pool holds
    ensures row.paid <= row.instalment ==>
              (row.paid + st.idAlloc == row.instalment || Avail(st.after.byId, row.id) <= 0)
    // the row ends fully paid, or with nothing left in either of its pools
    ensures row.paid <= row.instalment ==>
              (st.row.paid == row.instalment
               || (Avail(st.after.byId, row.id) <= 0 && Avail(st.after.byEmployee, row.employee) <= 0))
    // the employee pool is touched exactly when the row is still short after the ID pass
    ensures st.after.byEmployee != s.byEmployee <==>
              row.paid + st.idAlloc < row.instalment && Avail(s.byEmployee, row.employee) > 0
    ensures row.paid + st.idAlloc >= row.instalment ==> st.employeeAlloc == 0 && st.after.byEmployee == s.byEmployee
    // an over-paid row is cut back to its instalment, its excess credited to a positive ID pool
    ensures row.paid > row.instalment ==>
              && st.row.paid == row.instalment
              && st.employeeAlloc == 0
              && st.idAlloc == (if Avail(s.byId, row.id) > 0 then row.instalment - row.paid else 0)
  {
    var idAvailable := Avail(s.byId, row.id);
    var idAlloc := Draw(row.instalment, row.paid, idAvailable);
    var byId := if idAvailable > 0 then s.byId[row.id := idAvailable - idAlloc] else s.byId;
    var paid := row.paid + idAlloc;
    var empAvailable := Avail(s.byEmployee, row.employee);
    var empAlloc := if paid < row.instalment then Draw(row.instalment, paid, empAvailable) else 0;
    var byEmployee := if paid < row.instalment && empAvailable > 0
                      then s.byEmployee[row.employee := empAvailable - empAlloc]
                      else s.byEmployee;
    var final := Min(paid + empAlloc, row.instalment);
    var st := RowStep(Row(row.id, row.employee, row.instalment, final, row.instalment - final),
                      idAlloc, empAlloc, State(byId, byEmployee));
    assert byEmployee != s.byEmployee ==> paid < row.instalment && empAvailable > 0;
    assert paid < row.instalment && empAvailable > 0 ==> byEmployee[row.employee] != s.byEmployee[row.employee];
    st
  }

  // ---------------------------------------------------------------------------
  // The walk over all rows
  // ---------------------------------------------------------------------------

  /** The pools after a run of steps that started from `s0`. */
  function After(steps: seq<RowStep>, s0: State): State
  {
    if |steps| == 0 then s0 else steps[|steps| - 1].after
  }

  /** Allocates the rows in table order, each one against the pools the previous rows left. */
  function Steps(rows: seq<Row>, s0: State): (steps: seq<RowStep>)
    ensures |steps| == |rows|
    decreases |rows|
  {
    if |rows| == 0 then []
    else
      var prev := Steps(rows[..|rows| - 1], s0);
      prev + [AllocateRow(rows[|rows| - 1], After(prev, s0))]
  }

  function Outputs(steps: seq<RowStep>): (rows: seq<Row>)
    ensures |rows| == |steps|
    ensures forall i :: 0 <= i < |steps| ==> rows[i] == steps[i].row
  {
    if |steps| == 0 then [] else Outputs(steps[..|steps| - 1]) + [steps[|steps| - 1].row]
  }

  /** Sum of PAID over rows, accumulated in table order. */
  function SumPaid(rows: seq<Row>): int
  {
    if |rows| == 0 then 0 else SumPaid(rows[..|rows| - 1]) + rows[|rows| - 1].paid
  }

  /** Total drawn from pool `c` under key `k` by a run of steps. */
  function Drawn(steps: seq<RowStep>, c: Column, k: Key): int
  {
    if |steps| == 0 then 0
    else
      var last := steps[|steps| - 1];
      Drawn(steps[..|steps| - 1], c, k) + (if RowKey(last.row, c) == k then AllocOf(last, c) else 0)
  }

  /** Extending the rows by one extends the run by that row's step. */
  lemma StepsSnoc(rows: seq<Row>, s0: State, i: nat)
    requires i < |rows|
    ensures Steps(rows[..i + 1], s0)
         == Steps(rows[..i], s0) + [AllocateRow(rows[i], After(Steps(rows[..i], s0), s0))]
  {
    assert rows[..i + 1][..i] == rows[..i];
  }

  /**
    Every row the walk writes back keeps its keys and instalment, has PAID
    capped at the instalment and DIFF equal to what is still owed; a row that
    starts at or below its instalment never ends with less PAID.
   */
  lemma {:induction false} StepsKeepRows(rows: seq<Row>, s0: State)
    ensures forall i :: 0 <= i < |rows| ==>
              && Steps(rows, s0)[i].row.id == rows[i].id
              && Steps(rows, s0)[i].row.employee == rows[i].employee
              && Steps(rows, s0)[i].row.instalment == rows[i].instalment
              && Steps(rows, s0)[i].row.paid <= rows[i].instalment
              && Steps(rows, s0)[i].row.diff == rows[i].instalment - Steps(rows, s0)[i].row.paid
    ensures forall i :: 0 <= i < |rows| && rows[i].paid <= rows[i].instalment ==>
              rows[i].paid <= Steps(rows, s0)[i].row.paid
    decreases |rows|
  {
    if |rows| > 0 {
      var prefix := rows[..|rows| - 1];
      StepsKeepRows(prefix, s0);
      assert forall i :: 0 <= i < |prefix| ==> Steps(rows, s0)[i] == Steps(prefix, s0)[i] && rows[i] == prefix[i];
    }
  }

  lemma OutputsSnoc(steps: seq<RowStep>, st: RowStep)
    ensures Outputs(steps + [st]) == Outputs(steps) + [st.row]
  {
    assert (steps + [st])[..|steps|] == steps;
  }

  lemma SumPaidSnoc(rows: seq<Row>, r: Row)
    ensures SumPaid(rows + [r]) == SumPaid(rows) + r.paid
  {
    assert (rows + [r])[..|rows|] == rows;
  }

  /** The whole engine: schema check, normalisation, pools, the walk, and the summary. */
  function Allocate(sub: SubmissionTable, col: CollectedTable): (r: Result<Allocation>)
    ensures r.Err? <==> !(RequiredSubmission <= sub.columns && RequiredCollected <= col.columns)
    ensures !(RequiredSubmission <= sub.columns) ==>
              r == Err(MissingColumns(SubmissionFile, RequiredSubmission - sub.columns))
    ensures RequiredSubmission <= sub.columns && !(RequiredCollected <= col.columns) ==>
              r == Err(MissingColumns(CollectedFile, RequiredCollected - col.columns))
    ensures r.Ok? ==>
              && |r.value.rows| == |sub.rows|
              && forall i :: 0 <= i < |sub.rows| ==>
                   && r.value.rows[i].id == sub.rows[i].id
                   && r.value.rows[i].employee == sub.rows[i].employee
                   && r.value.rows[i].instalment == sub.rows[i].instalment
                   && r.value.rows[i].paid <= sub.rows[i].instalment
                   && r.value.rows[i].diff == sub.rows[i].instalment - r.value.rows[i].paid
    ensures r.Ok? ==> r.value.summary == AllocationResult(|sub.rows|, SumPaid(r.value.rows))
  {
    match CheckSchema(sub, col)
    case Some(e) => Err(e)
    case None =>
      StepsKeepRows(Prepare(sub), InitialState(col));
      var rows := Outputs(Steps(Prepare(sub), InitialState(col)));
      Ok(Allocation(rows, AllocationResult(|sub.rows|, SumPaid(rows))))
  }

  // ---------------------------------------------------------------------------
  // The engine as the source writes it: loops and in-place pool updates
  // ---------------------------------------------------------------------------

  /** The two pools summed in one pass over the Collected table, updating each in place. */
  method SumPools(col: CollectedTable) returns (s: State)
    ensures s == InitialState(col)
    ensures forall c, k :: Avail(PoolOf(s, c), k) == SumFor(col.rows, c, k)
  {
    var byId: Pool := map[];
    var byEmployee: Pool := map[];
    var j := 0;
    while j < |col.rows|
      invariant 0 <= j <= |col.rows|
      invariant byId == BuildPool(col.rows[..j], ById)
      invariant byEmployee == BuildPool(col.rows[..j], ByEmployee)
    {
      var payment := col.rows[j];
      assert col.rows[..j + 1][..j] == col.rows[..j];
      assert BuildPool(col.rows[..j + 1], ById) == Credit(byId, payment.id, payment.paid);
      assert BuildPool(col.rows[..j + 1], ByEmployee) == Credit(byEmployee, payment.employee, payment.paid);
      byId := byId[payment.id := Avail(byId, payment.id) + payment.paid];
      byEmployee := byEmployee[payment.employee := Avail(byEmployee, payment.employee) + payment.paid];
      j := j + 1;
    }
    assert col.rows[..|col.rows|] == col.rows;
    s := State(byId, byEmployee);
  }

  /** One row as the source's loop body handles it: the ID pass, the employee pass if short, the clamp. */
  method AllocateRowInPlace(row: Row, byId: Pool, byEmployee: Pool)
    returns (written: Row, byId': Pool, byEmployee': Pool)
    ensures written == AllocateRow(row, State(byId, byEmployee)).row
    ensures State(byId', byEmployee') == AllocateRow(row, State(byId, byEmployee)).after
  {
    byId', byEmployee' := byId, byEmployee;
    var instalment := row.instalment;
    var paid := row.paid;
    var available := Avail(byId', row.id);
    if available > 0 {
      var needed := instalment - paid;
      var alloc := Min(needed, available);
      paid := paid + alloc;
      byId' := byId'[row.id := available - alloc];
    }
    if paid < instalment {
      available := Avail(byEmployee', row.employee);
      if available > 0 {
        var needed := instalment - paid;
        var alloc := Min(needed, available);
        paid := paid + alloc;
        byEmployee' := byEmployee'[row.employee := available - alloc];
      }
    }
    paid := Min(paid, instalment);
    written := Row(row.id, row.employee, instalment, paid, instalment - paid);
  }

  /** One more row of the walk adds that row's step to the outputs and moves the pools on. */
  lemma WalkStep(rows: seq<Row>, s0: State, i: nat, out: seq<Row>, s: State, written: Row, s': State)
    requires i < |rows|
    requires out == Outputs(Steps(rows[..i], s0)) && s == After(Steps(rows[..i], s0), s0)
    requires written == AllocateRow(rows[i], s).row && s' == AllocateRow(rows[i], s).after
    ensures out + [written] == Outputs(Steps(rows[..i + 1], s0))
    ensures s' == After(Steps(rows[..i + 1], s0), s0)
  {
    var prev := Steps(rows[..i], s0);
    StepsSnoc(rows, s0, i);
    OutputsSnoc(prev, AllocateRow(rows[i], s));
  }

  /**
    The walk over the Submission rows as the source's loop writes it: each row
    updates the pools in place and adds its final PAID to the running total.
   */
  method WalkRows(rows: seq<Row>, s0: State) returns (out: seq<Row>, s: State, totalPaid: int)
    ensures out == Outputs(Steps(rows, s0))
    ensures s == After(Steps(rows, s0), s0)
    ensures totalPaid == SumPaid(out)
  {
    var byId := s0.byId;
    var byEmployee := s0.byEmployee;
    out := [];
    totalPaid := 0;
    var i := 0;
    while i < |rows|
      invariant 0 <= i <= |rows|
      invariant out == Outputs(Steps(rows[..i], s0))
      invariant State(byId, byEmployee) == After(Steps(rows[..i], s0), s0)
      invariant totalPaid == SumPaid(out)
    {
      var written, byId', byEmployee' := AllocateRowInPlace(rows[i], byId, byEmployee);
      WalkStep(rows, s0, i, out, State(byId, byEmployee), written, State(byId', byEmployee'));
      byId, byEmployee := byId', byEmployee';
      SumPaidSnoc(out, written);
      out := out + [written];
      totalPaid := totalPaid + written.paid;
      i := i + 1;
    }
    assert rows[..|rows|] == rows;
    s := State(byId, byEmployee);
  }

  /**
    The same engine written as the source's statements: schema checks with early
    error returns, then the pool sums and the walk. It returns exactly what
    `Allocate` describes, and its summary counts the Submission rows and totals
    their final PAID.
   */
  method AllocateInPlace(sub: SubmissionTable, col: CollectedTable) returns (r: Result<Allocation>)
    ensures r == Allocate(sub, col)
    ensures r.Ok? ==> r.value.summary.records == |sub.rows| == |r.value.rows|
    ensures r.Ok? ==> r.value.summary.totalPaid == SumPaid(r.value.rows)
  {
    var missing := RequiredSubmission - sub.columns;
    if missing != {} {
      return Err(MissingColumns(SubmissionFile, missing));
    }
    missing := RequiredCollected - col.columns;
    if missing != {} {
      return Err(MissingColumns(CollectedFile, missing));
    }
    var rows := Prepare(sub);
    var s0 := SumPools(col);
    var out, _, totalPaid := WalkRows(rows, s0);
    return Ok(Allocation(out, AllocationResult(|sub.rows|, totalPaid)));
  }
}
