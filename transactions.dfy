/**
 * The payment-gateway ledger tools of banking_chatbot/app/tools/transaction_tools.py:
 * looking a transaction up by id, and repairing a transaction whose payment
 * succeeded but whose core-banking status did not.
 *
 * The CSV file is a value: missing, present without a header line, or a table
 * of rows. Other columns a row may carry are kept in `extra`.
 */
module Transactions {
  import opened Wrappers

  /** The five columns the tools read. */
  datatype TxRecord = TxRecord(
    transactionId: string,
    timestamp: string,
    amount: string,
    paymentStatus: string,
    coreBankingStatus: string)

  datatype TxRow = TxRow(fields: TxRecord, extra: map<string, string>)

  datatype TxFile = Missing | NoHeader | Table(rows: seq<TxRow>)

  /** `lookup_transaction`'s dict: the five fields, or an `error` entry. */
  datatype LookupResult = Found(record: TxRecord) | LookupError(message: string)

  /** `fix_core_banking_status`'s dict: `success` with a message, or an `error` entry. */
  datatype FixResult = FixSuccess(message: string) | FixError(message: string)

  function FileNotFound(path: string): string {
    "CSV file not found at " + path
  }

  function NotFound(id: string): string {
    "Transaction '" + id + "' not found."
  }

  const NoHeaders: string := "CSV has no headers."

  const NoUpdate: string := "No update done. Possibly transaction not found or PaymentStatus not Success."

  function Updated(id: string): string {
    "Updated transaction " + id + " so CoreBankingStatus=Success."
  }

  /** The position of the first row carrying `id`. */
  function FirstIndex(rows: seq<TxRow>, id: string): (r: Option<nat>)
    ensures r.Some? ==> (r.value < |rows| && rows[r.value].fields.transactionId == id
                         && forall j :: 0 <= j < r.value ==> rows[j].fields.transactionId != id)
    ensures r.None? ==> forall j :: 0 <= j < |rows| ==> rows[j].fields.transactionId != id
  {
    if rows == [] then None
    else if rows[0].fields.transactionId == id then Some(0)
    else
      match FirstIndex(rows[1..], id)
      case None => None
      case Some(k) => Some(k + 1)
  }

  /** What `lookup_transaction` returns for a file as it stands. */
  function Lookup(file: TxFile, id: string, path: string): (r: LookupResult)
    ensures file.Missing? ==> r == LookupError(FileNotFound(path))
    ensures r.Found? <==> file.Table? && exists j :: 0 <= j < |file.rows| && file.rows[j].fields.transactionId == id
    ensures r.Found? ==> r.record.transactionId == id
    ensures r.Found? ==> (exists j :: 0 <= j < |file.rows| && file.rows[j].fields == r.record
                                     && forall k :: 0 <= k < j ==> file.rows[k].fields.transactionId != id)
    ensures !file.Missing? && r.LookupError? ==> r.message == NotFound(id)
  {
    match file
    case Missing => LookupError(FileNotFound(path))
    case NoHeader => LookupError(NotFound(id))
    case Table(rows) =>
      match FirstIndex(rows, id)
      case None => LookupError(NotFound(id))
      case Some(j) => Found(rows[j].fields)
  }

  /** `lookup_transaction`: scan the rows and return the first match. */
  method LookupTransaction(file: TxFile, id: string, path: string) returns (r: LookupResult)
    ensures r == Lookup(file, id, path)
  {
    if file.Missing? {
      return LookupError(FileNotFound(path));
    }
    if file.Table? {
      var rows := file.rows;
      var i := 0;
      while i < |rows|
        invariant 0 <= i <= |rows|
        invariant forall j :: 0 <= j < i ==> rows[j].fields.transactionId != id
      {
        if rows[i].fields.transactionId == id {
          FirstIndexIs(rows, id, i);
          return Found(rows[i].fields);
        }
        i := i + 1;
      }
    }
    return LookupError(NotFound(id));
  }

  lemma {:induction false} FirstIndexIs(rows: seq<TxRow>, id: string, i: nat)
    requires i < |rows| && rows[i].fields.transactionId == id
    requires forall j :: 0 <= j < i ==> rows[j].fields.transactionId != id
    ensures FirstIndex(rows, id) == Some(i)
  {
    if i > 0 {
      FirstIndexIs(rows[1..], id, i - 1);
    }
  }

  /** The rows the repair touches: this id, payment succeeded, core banking did not. */
  predicate Qualifies(row: TxRow, id: string) {
    row.fields.transactionId == id && row.fields.paymentStatus == "Success"
    && row.fields.coreBankingStatus != "Success"
  }

  function FixRow(row: TxRow, id: string): TxRow {
    if Qualifies(row, id) then row.(fields := row.fields.(coreBankingStatus := "Success")) else row
  }

  /** The table after the repair: every qualifying row gets `CoreBankingStatus = Success`. */
  function FixRows(rows: seq<TxRow>, id: string): (r: seq<TxRow>)
    ensures |r| == |rows|
  {
    seq(|rows|, i requires 0 <= i < |rows| => FixRow(rows[i], id))
  }

  predicate AnyQualifies(rows: seq<TxRow>, id: string) {
    exists j :: 0 <= j < |rows| && Qualifies(rows[j], id)
  }

  /**
   * `fix_core_banking_status`: the result and the file afterwards. The file is
   * rewritten only when some row was updated.
   */
  method FixCoreBankingStatus(file: TxFile, id: string, path: string) returns (r: FixResult, after: TxFile)
    ensures file.Missing? ==> r == FixError(FileNotFound(path))
    ensures file.NoHeader? ==> r == FixError(NoHeaders)
    ensures r.FixSuccess? <==> file.Table? && AnyQualifies(file.rows, id)
    ensures r.FixSuccess? ==> r.message == Updated(id) && after == Table(FixRows(file.rows, id))
    ensures file.Table? && r.FixError? ==> r.message == NoUpdate
    ensures r.FixError? ==> after == file
  {
    if file.Missing? {
      return FixError(FileNotFound(path)), file;
    }
    if file.NoHeader? {
      return FixError(NoHeaders), file;
    }
    var rows := file.rows;
    var updated := false;
    var out: seq<TxRow> := [];
    for i := 0 to |rows|
      invariant |out| == i
      invariant forall j :: 0 <= j < i ==> out[j] == FixRow(rows[j], id)
      invariant updated <==> exists j :: 0 <= j < i && Qualifies(rows[j], id)
    {
      var row := rows[i];
      if row.fields.transactionId == id {
        if row.fields.paymentStatus == "Success" && row.fields.coreBankingStatus != "Success" {
          row := row.(fields := row.fields.(coreBankingStatus := "Success"));
          updated := true;
        }
      }
      out := out + [row];
    }
    if !updated {
      return FixError(NoUpdate), file;
    }
    assert out == FixRows(rows, id);
    return FixSuccess(Updated(id)), Table(out);
  }

  /** The repair changes only `CoreBankingStatus`, and only on rows of this id. */
  lemma FixTouchesOnlyStatus(rows: seq<TxRow>, id: string, i: nat)
    requires i < |rows|
    ensures var f := FixRows(rows, id)[i];
      f.extra == rows[i].extra
      && f.fields.(coreBankingStatus := "") == rows[i].fields.(coreBankingStatus := "")
      && (rows[i].fields.transactionId != id ==> f == rows[i])
  {
  }

  /** After the repair no row qualifies, so a second repair reports "No update done". */
  lemma FixLeavesNothingToFix(rows: seq<TxRow>, id: string)
    ensures !AnyQualifies(FixRows(rows, id), id)
  {
  }

  /** Repairing twice is the same as repairing once. */
  lemma FixIdempotent(rows: seq<TxRow>, id: string)
    ensures FixRows(FixRows(rows, id), id) == FixRows(rows, id)
  {
  }

  /** After the repair, every row of this id whose payment succeeded shows core banking succeeded too. */
  lemma FixMakesStatusesAgree(rows: seq<TxRow>, id: string, i: nat)
    requires i < |rows|
    requires rows[i].fields.transactionId == id && rows[i].fields.paymentStatus == "Success"
    ensures FixRows(rows, id)[i].fields.coreBankingStatus == "Success"
  {
  }

  /**
   * When the first row of an id records a successful payment, a lookup after a
   * successful repair reports `CoreBankingStatus = Success`.
   */
  lemma {:induction false} LookupAfterFix(rows: seq<TxRow>, id: string, path: string)
    requires FirstIndex(rows, id).Some?
    requires rows[FirstIndex(rows, id).value].fields.paymentStatus == "Success"
    ensures var r := Lookup(Table(FixRows(rows, id)), id, path);
      r.Found? && r.record.paymentStatus == "Success" && r.record.coreBankingStatus == "Success"
  {
    var i := FirstIndex(rows, id).value;
    var fixed := FixRows(rows, id);
    assert forall j :: 0 <= j < i ==> fixed[j].fields.transactionId != id;
    FirstIndexIs(fixed, id, i);
  }

  /**
   * With a repeated id whose first row is not a successful payment, the repair
   * succeeds on a later row while the lookup still reports the first row's status.
   */
  lemma DuplicateIdKeepsMismatchVisible()
    ensures var first := TxRow(TxRecord("TX1", "t0", "5", "Failed", "Pending"), map[]);
      var second := TxRow(TxRecord("TX1", "t1", "5", "Success", "Pending"), map[]);
      var rows := [first, second];
      AnyQualifies(rows, "TX1")
      && Lookup(Table(FixRows(rows, "TX1")), "TX1", "p") == Found(first.fields)
  {
    var first := TxRow(TxRecord("TX1", "t0", "5", "Failed", "Pending"), map[]);
    var second := TxRow(TxRecord("TX1", "t1", "5", "Success", "Pending"), map[]);
    var rows := [first, second];
    assert Qualifies(rows[1], "TX1");
    FirstIndexIs(FixRows(rows, "TX1"), "TX1", 0);
  }
}
