/**
  Concrete allocations worked out by the verifier, including the case where the
  same collected money is paid out once through the ID pool and again through
  the employee pool.
 */
module Scenarios {
  import opened Tables
  import opened Pools
  import opened Allocator

  const AllColumns: set<string> := {IdNumber, EmployeeNumber, InstalmentAmount, Paid}

  lemma OneRowWalk(r0: Row, s0: State)
    ensures Steps([r0], s0) == [AllocateRow(r0, s0)]
  {
    StepsSnoc([r0], s0, 0);
    assert [r0][..0] == [] && [r0][..1] == [r0];
  }

  lemma TwoRowWalk(r0: Row, r1: Row, s0: State)
    ensures Steps([r0, r1], s0) == [AllocateRow(r0, s0), AllocateRow(r1, AllocateRow(r0, s0).after)]
  {
    StepsSnoc([r0, r1], s0, 1);
    assert [r0, r1][..1] == [r0] && [r0, r1][..2] == [r0, r1];
    OneRowWalk(r0, s0);
  }

  lemma OneRowOutput(st: RowStep)
    ensures Outputs([st]) == [st.row] && SumPaid([st.row]) == st.row.paid
  {
    OutputsSnoc([], st);
    SumPaidSnoc([], st.row);
    assert [] + [st] == [st] && [] + [st.row] == [st.row];
  }

  lemma TwoRowOutput(st0: RowStep, st1: RowStep)
    ensures Outputs([st0, st1]) == [st0.row, st1.row]
  {
    OneRowOutput(st0);
    OutputsSnoc([st0], st1);
    assert [st0] + [st1] == [st0, st1];
  }

  // ---------------------------------------------------------------------------
  // One payment of 60 against an instalment of 100 under the same ID and employee
  // ---------------------------------------------------------------------------

  lemma SinglePaymentPools()
    ensures InitialState(CollectedTable(AllColumns, [CollectedRow(Number(1), Text("A"), 60)]))
         == State(map[Number(1) := 60], map[Text("A") := 60])
  {
    assert [CollectedRow(Number(1), Text("A"), 60)][..0] == [];
  }

  /** The ID pass takes all 60 and the employee pass, still short, takes 40 more from the same money. */
  lemma SinglePaymentRow()
    ensures AllocateRow(Row(Number(1), Text("A"), 100, 0, 100), State(map[Number(1) := 60], map[Text("A") := 60]))
         == RowStep(Row(Number(1), Text("A"), 100, 100, 0), 60, 40, State(map[Number(1) := 0], map[Text("A") := 20]))
  {
  }

  /**
    One payment of 60 fills an instalment of 100: the employee pool summed the
    very same payment the ID pool did, so the total paid exceeds the total
    collected.
   */
  lemma SamePaymentDrawnTwice()
    ensures var sub := SubmissionTable(AllColumns, [SubmissionRow(Number(1), Text("A"), 100, Some(0))]);
            var col := CollectedTable(AllColumns, [CollectedRow(Number(1), Text("A"), 60)]);
            && Allocate(sub, col) == Ok(Allocation([Row(Number(1), Text("A"), 100, 100, 0)], AllocationResult(1, 100)))
            && SumFor(col.rows, ById, Number(1)) == 60
  {
    var sub := SubmissionTable(AllColumns, [SubmissionRow(Number(1), Text("A"), 100, Some(0))]);
    var r0 := Row(Number(1), Text("A"), 100, 0, 100);
    var s0 := State(map[Number(1) := 60], map[Text("A") := 60]);
    assert Prepare(sub) == [r0];
    SinglePaymentPools();
    SinglePaymentRow();
    OneRowWalk(r0, s0);
    OneRowOutput(AllocateRow(r0, s0));
  }

  // ---------------------------------------------------------------------------
  // A payment of 150 against an instalment of 100
  // ---------------------------------------------------------------------------

  lemma LargePaymentPools()
    ensures InitialState(CollectedTable(AllColumns, [CollectedRow(Number(1), Text("A"), 150)]))
         == State(map[Number(1) := 150], map[Text("A") := 150])
  {
    assert [CollectedRow(Number(1), Text("A"), 150)][..0] == [];
  }

  lemma LargePaymentRow()
    ensures AllocateRow(Row(Number(1), Text("A"), 100, 0, 100), State(map[Number(1) := 150], map[Text("A") := 150]))
         == RowStep(Row(Number(1), Text("A"), 100, 100, 0), 100, 0, State(map[Number(1) := 50], map[Text("A") := 150]))
  {
  }

  /** A payment larger than the instalment fills it and no more; the employee pool is left alone. */
  lemma PaymentCappedAtInstalment()
    ensures var sub := SubmissionTable(AllColumns, [SubmissionRow(Number(1), Text("A"), 100, Some(0))]);
            var col := CollectedTable(AllColumns, [CollectedRow(Number(1), Text("A"), 150)]);
            Allocate(sub, col) == Ok(Allocation([Row(Number(1), Text("A"), 100, 100, 0)], AllocationResult(1, 100)))
  {
    var sub := SubmissionTable(AllColumns, [SubmissionRow(Number(1), Text("A"), 100, Some(0))]);
    var r0 := Row(Number(1), Text("A"), 100, 0, 100);
    var s0 := State(map[Number(1) := 150], map[Text("A") := 150]);
    assert Prepare(sub) == [r0];
    LargePaymentPools();
    LargePaymentRow();
    OneRowWalk(r0, s0);
    OneRowOutput(AllocateRow(r0, s0));
  }

  // ---------------------------------------------------------------------------
  // No ID match: two rows of one employee share a payment of 30
  // ---------------------------------------------------------------------------

  lemma FallbackPools()
    ensures InitialState(CollectedTable(AllColumns, [CollectedRow(Number(9), Text("A"), 30)]))
         == State(map[Number(9) := 30], map[Text("A") := 30])
  {
    assert [CollectedRow(Number(9), Text("A"), 30)][..0] == [];
  }

  /** The first row finds no ID pool and empties the employee pool. */
  lemma FallbackFirstRow()
    ensures AllocateRow(Row(Number(1), Text("A"), 50, 0, 50), State(map[Number(9) := 30], map[Text("A") := 30]))
         == RowStep(Row(Number(1), Text("A"), 50, 30, 20), 0, 30, State(map[Number(9) := 30], map[Text("A") := 0]))
  {
  }

  /** The second row finds the employee pool already empty. */
  lemma FallbackSecondRow()
    ensures AllocateRow(Row(Number(2), Text("A"), 50, 0, 50), State(map[Number(9) := 30], map[Text("A") := 0]))
         == RowStep(Row(Number(2), Text("A"), 50, 0, 50), 0, 0, State(map[Number(9) := 30], map[Text("A") := 0]))
  {
  }

  /**
    With no ID match the employee pool pays the rows in table order: the first
    row takes all 30 and the second, same employee, gets nothing.
   */
  lemma EmployeeFallbackInTableOrder()
    ensures var sub := SubmissionTable(AllColumns, [SubmissionRow(Number(1), Text("A"), 50, Some(0)),
                                                    SubmissionRow(Number(2), Text("A"), 50, Some(0))]);
            var col := CollectedTable(AllColumns, [CollectedRow(Number(9), Text("A"), 30)]);
            && Allocate(sub, col).Ok?
            && Allocate(sub, col).value.rows
               == [Row(Number(1), Text("A"), 50, 30, 20), Row(Number(2), Text("A"), 50, 0, 50)]
  {
    var sub := SubmissionTable(AllColumns, [SubmissionRow(Number(1), Text("A"), 50, Some(0)),
                                            SubmissionRow(Number(2), Text("A"), 50, Some(0))]);
    var r0 := Row(Number(1), Text("A"), 50, 0, 50);
    var r1 := Row(Number(2), Text("A"), 50, 0, 50);
    var s0 := State(map[Number(9) := 30], map[Text("A") := 30]);
    assert Prepare(sub) == [r0, r1];
    FallbackPools();
    FallbackFirstRow();
    FallbackSecondRow();
    TwoRowWalk(r0, r1, s0);
    TwoRowOutput(AllocateRow(r0, s0), AllocateRow(r1, AllocateRow(r0, s0).after));
  }

  // ---------------------------------------------------------------------------
  // Two payments of 20 under one ID against an instalment of 30 with a null PAID
  // ---------------------------------------------------------------------------

  lemma TwoPaymentsPools()
    ensures InitialState(CollectedTable(AllColumns, [CollectedRow(Number(1), Text("A"), 20),
                                                     CollectedRow(Number(1), Text("A"), 20)]))
         == State(map[Number(1) := 40], map[Text("A") := 40])
  {
    var rows := [CollectedRow(Number(1), Text("A"), 20), CollectedRow(Number(1), Text("A"), 20)];
    assert rows[..1] == [rows[0]] && rows[..1][..0] == [];
    assert BuildPool(rows[..1], ById) == map[Number(1) := 20];
    assert BuildPool(rows[..1], ByEmployee) == map[Text("A") := 20];
  }

  lemma TwoPaymentsRow()
    ensures AllocateRow(Row(Number(1), Text("A"), 30, 0, 30), State(map[Number(1) := 40], map[Text("A") := 40]))
         == RowStep(Row(Number(1), Text("A"), 30, 30, 0), 30, 0, State(map[Number(1) := 10], map[Text("A") := 40]))
  {
  }

  /** Two payments under one ID are summed into one pool before any row draws from it; a null PAID starts at 0. */
  lemma PaymentsSummedPerKey()
    ensures var sub := SubmissionTable(AllColumns, [SubmissionRow(Number(1), Text("A"), 30, None)]);
            var col := CollectedTable(AllColumns, [CollectedRow(Number(1), Text("A"), 20),
                                                   CollectedRow(Number(1), Text("A"), 20)]);
            Allocate(sub, col) == Ok(Allocation([Row(Number(1), Text("A"), 30, 30, 0)], AllocationResult(1, 30)))
  {
    var sub := SubmissionTable(AllColumns, [SubmissionRow(Number(1), Text("A"), 30, None)]);
    var r0 := Row(Number(1), Text("A"), 30, 0, 30);
    var s0 := State(map[Number(1) := 40], map[Text("A") := 40]);
    assert Prepare(sub) == [r0];
    TwoPaymentsPools();
    TwoPaymentsRow();
    OneRowWalk(r0, s0);
    OneRowOutput(AllocateRow(r0, s0));
  }

  /** A Submission table lacking INSTALMENT AMOUNT is refused, naming just that column. */
  lemma MissingInstalmentRefused()
    ensures var sub := SubmissionTable({IdNumber, EmployeeNumber}, []);
            Allocate(sub, CollectedTable({}, [])) == Err(MissingColumns(SubmissionFile, {InstalmentAmount}))
  {
  }
}
