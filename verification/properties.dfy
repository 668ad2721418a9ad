/**
  Properties of a whole allocation run: pool bookkeeping, the bound on what each
  key's pool gives out, and the link between the pools and the Collected table.
 */
module AllocationProperties {
  import opened Tables
  import opened Pools
  import opened Allocator

  /** Every row starts with PAID at most its instalment. */
  ghost predicate WellFormedStart(rows: seq<Row>)
  {
    forall i :: 0 <= i < |rows| ==> rows[i].paid <= rows[i].instalment
  }

  /** The last step of a non-empty run is the last row allocated against what the earlier rows left. */
  lemma StepsUnfold(rows: seq<Row>, s0: State)
    requires |rows| > 0
    ensures Steps(rows, s0)[..|rows| - 1] == Steps(rows[..|rows| - 1], s0)
    ensures Steps(rows, s0)[|rows| - 1]
         == AllocateRow(rows[|rows| - 1], After(Steps(rows[..|rows| - 1], s0), s0))
  {
  }

  /** What a pool holds at the end is what it held at the start less everything drawn under that key. */
  lemma {:induction false} PoolAccounting(rows: seq<Row>, s0: State, c: Column, k: Key)
    ensures Avail(PoolOf(s0, c), k) - Avail(PoolOf(After(Steps(rows, s0), s0), c), k)
         == Drawn(Steps(rows, s0), c, k)
    decreases |rows|
  {
    if |rows| > 0 {
      var prefix := rows[..|rows| - 1];
      StepsUnfold(rows, s0);
      PoolAccounting(prefix, s0, c, k);
    }
  }

  /**
    From a well-formed start, a pool entry with nothing available is never
    touched, and a positive one only ever shrinks, never below zero.
   */
  lemma {:induction false} PoolsStayInRange(rows: seq<Row>, s0: State, c: Column, k: Key)
    requires WellFormedStart(rows)
    ensures var a0 := Avail(PoolOf(s0, c), k);
            var a := Avail(PoolOf(After(Steps(rows, s0), s0), c), k);
            (a0 <= 0 ==> a == a0) && (a0 > 0 ==> 0 <= a <= a0)
    decreases |rows|
  {
    if |rows| > 0 {
      var prefix := rows[..|rows| - 1];
      StepsUnfold(rows, s0);
      PoolsStayInRange(prefix, s0, c, k);
    }
  }

  /**
    From a well-formed start, the total drawn from the pool of column `c` under
    key `k` is never negative and never more than the collected payments under
    that key; when those sum to zero or less, nothing is drawn at all.
   */
  lemma DrawnWithinCollected(sub: SubmissionTable, col: CollectedTable, c: Column, k: Key)
    requires WellFormedStart(Prepare(sub))
    ensures var drawn := Drawn(Steps(Prepare(sub), InitialState(col)), c, k);
            && 0 <= drawn
            && (SumFor(col.rows, c, k) <= 0 ==> drawn == 0)
            && (SumFor(col.rows, c, k) > 0 ==> drawn <= SumFor(col.rows, c, k))
  {
    PoolAccounting(Prepare(sub), InitialState(col), c, k);
    PoolsStayInRange(Prepare(sub), InitialState(col), c, k);
  }

  /** With no negative payments the bound reads simply: drawn under `k` is at most collected under `k`. */
  lemma DrawnAtMostCollected(sub: SubmissionTable, col: CollectedTable, c: Column, k: Key)
    requires WellFormedStart(Prepare(sub))
    requires forall i :: 0 <= i < |col.rows| ==> col.rows[i].paid >= 0
    ensures 0 <= Drawn(Steps(Prepare(sub), InitialState(col)), c, k) <= SumFor(col.rows, c, k)
  {
    DrawnWithinCollected(sub, col, c, k);
    SumForNonNegative(col.rows, c, k);
  }

  /**
    From a well-formed start, a row the run leaves short of its instalment had
    nothing left to take: at the end of the run both its ID pool and its
    employee pool hold zero or less.
   */
  lemma {:induction false} ShortRowLeavesPoolsEmpty(rows: seq<Row>, s0: State, i: nat)
    requires WellFormedStart(rows)
    requires i < |rows|
    requires Steps(rows, s0)[i].row.paid < rows[i].instalment
    ensures var s := After(Steps(rows, s0), s0);
            Avail(s.byId, rows[i].id) <= 0 && Avail(s.byEmployee, rows[i].employee) <= 0
    decreases |rows|
  {
    StepsUnfold(rows, s0);
    if i < |rows| - 1 {
      var prefix := rows[..|rows| - 1];
      ShortRowLeavesPoolsEmpty(prefix, s0, i);
    }
  }

  /** From a well-formed start every row's final PAID is its starting PAID plus its two draws. */
  lemma {:induction false} PaidIsStartPlusDraws(rows: seq<Row>, s0: State, i: nat)
    requires WellFormedStart(rows)
    requires i < |rows|
    ensures var st := Steps(rows, s0)[i];
            0 <= st.idAlloc && 0 <= st.employeeAlloc && st.row.paid == rows[i].paid + st.idAlloc + st.employeeAlloc
    decreases |rows|
  {
    StepsUnfold(rows, s0);
    if i < |rows| - 1 {
      PaidIsStartPlusDraws(rows[..|rows| - 1], s0, i);
    }
  }
}
