/**
  The two in-memory tables the loan allocator works on, as they arrive from the
  spreadsheet loader: a Submission table of instalments owed and a Collected
  table of payments received. Money is counted in whole cents.
 */
module Tables {

  /** A spreadsheet cell used as a matching key (an ID NUMBER or an EMPLOYEE NUMBER). */
  datatype Key = Text(text: string) | Number(number: int)

  const IdNumber: string := "ID NUMBER"
  const EmployeeNumber: string := "EMPLOYEE NUMBER"
  const InstalmentAmount: string := "INSTALMENT AMOUNT"
  const Paid: string := "PAID"

  /** Columns the Submission table must carry. */
  const RequiredSubmission: set<string> := {IdNumber, EmployeeNumber, InstalmentAmount}

  /** Columns the Collected table must carry. */
  const RequiredCollected: set<string> := {IdNumber, EmployeeNumber, Paid}

  /** The two matching columns; each one keys a pool of collected money. */
  datatype Column = ById | ByEmployee

  /**
    A Submission row as loaded. `paid` is None for an empty (null) cell; when the
    table has no PAID column at all the field carries no meaning.
   */
  datatype SubmissionRow = SubmissionRow(id: Key, employee: Key, instalment: int, paid: Option<int>)

  datatype SubmissionTable = SubmissionTable(columns: set<string>, rows: seq<SubmissionRow>)

  /** A Collected row: one payment received from a payer. */
  datatype CollectedRow = CollectedRow(id: Key, employee: Key, paid: int)

  datatype CollectedTable = CollectedTable(columns: set<string>, rows: seq<CollectedRow>)

  /** A Submission row once PAID is normalised and DIFF is present: the shape the allocator writes back. */
  datatype Row = Row(id: Key, employee: Key, instalment: int, paid: int, diff: int)

  function CollectedKey(r: CollectedRow, c: Column): Key
  {
    match c
    case ById => r.id
    case ByEmployee => r.employee
  }

  function RowKey(r: Row, c: Column): Key
  {
    match c
    case ById => r.id
    case ByEmployee => r.employee
  }

  datatype Option<+T> = None | Some(value: T) {
    function GetOr(default: T): T
    {
      match this
      case Some(v) => v
      case None => default
    }
  }

  /** Which input file a schema error is about. */
  datatype File = SubmissionFile | CollectedFile

  /** The allocator's only error: required columns absent from one input file. */
  datatype SchemaError = MissingColumns(file: File, missing: set<string>)

  datatype Result<+T> = Ok(value: T) | Err(error: SchemaError)
}
