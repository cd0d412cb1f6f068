/**
 * The payments agent of banking_chatbot/app/agents/payments_agent.py: it asks the
 * user for a transaction id, looks it up, and when the gateway recorded a successful
 * payment that core banking did not, offers to repair the record.
 *
 * The two answers read from the console (`input`) are parameters. The model call the
 * handler starts with has no effect on what follows, so it is not modelled.
 */
module PaymentsAgent {
  import opened PyStrings
  import opened Messages
  import opened Transactions

  const PaymentsTopic: string := "Payments"

  /** The gateway succeeded and core banking did not: the only case where the user is asked. */
  predicate Mismatch(lookup: LookupResult) {
    lookup.Found? && lookup.record.paymentStatus == "Success" && lookup.record.coreBankingStatus != "Success"
  }

  /** `confirmation.lower().startswith("y")` */
  predicate Confirms(confirmation: string) {
    StartsWith(Lower(confirmation), "y")
  }

  /** `json.dumps` of the repair tool's dict. */
  function FixResultJson(r: FixResult): string {
    match r
    case FixSuccess(m) => "{\"success\": true, \"message\": " + JsonQuote(m) + "}"
    case FixError(m) => "{\"error\": " + JsonQuote(m) + "}"
  }

  function NoDiscrepancy(id: string): string {
    "No discrepancy detected for transaction " + id + "."
  }

  function NoChanges(id: string): string {
    "No changes made for transaction " + id + "."
  }

  function UpdatedReport(id: string, fix: FixResult): string {
    "Transaction " + id + " updated: " + FixResultJson(fix)
  }

  /**
   * `handle_task`: the extended context, the publish of the reply (to the bare
   * "User" topic-type string), and the transaction file afterwards.
   */
  method HandleTask(idType: string, task: UserTask, txId: string, confirmation: string, file: TxFile, path: string)
    returns (context: seq<LLMMessage>, out: Envelope, after: TxFile)
    ensures |context| == |task.context| + 2 && context[..|task.context|] == task.context
    ensures context[|task.context|] == UserMessage("TransactionID: " + txId, "User")
    ensures context[|task.context| + 1].AssistantMessage? && context[|task.context| + 1].source == idType
    ensures out == Envelope(ToBareType("User"), ResponseMsg(AgentResponse(PaymentsTopic, context)))
    ensures var text := context[|task.context| + 1].body;
      var lookup := Lookup(file, txId, path);
      (!Mismatch(lookup) ==> text == TextContent(NoDiscrepancy(txId)) && after == file)
      && (Mismatch(lookup) && !Confirms(confirmation) ==> text == TextContent(NoChanges(txId)) && after == file)
      && (Mismatch(lookup) && Confirms(confirmation) ==>
            text == TextContent(UpdatedReport(txId, FixSuccess(Updated(txId))))
            && file.Table? && after == Table(FixRows(file.rows, txId)))
  {
    context := task.context + [UserMessage("TransactionID: " + txId, "User")];
    var responseText;
    responseText, after := Resolve(txId, confirmation, file, path);
    context := context + [AssistantMessage(TextContent(responseText), idType)];
    out := Envelope(ToBareType("User"), ResponseMsg(AgentResponse(PaymentsTopic, context)));
  }

  /** The middle of `handle_task`: the lookup, the question on a mismatch, and the repair when confirmed. */
  method Resolve(txId: string, confirmation: string, file: TxFile, path: string)
    returns (responseText: string, after: TxFile)
    ensures var lookup := Lookup(file, txId, path);
      (!Mismatch(lookup) ==> responseText == NoDiscrepancy(txId) && after == file)
      && (Mismatch(lookup) && !Confirms(confirmation) ==> responseText == NoChanges(txId) && after == file)
      && (Mismatch(lookup) && Confirms(confirmation) ==>
            responseText == UpdatedReport(txId, FixSuccess(Updated(txId)))
            && file.Table? && after == Table(FixRows(file.rows, txId)))
  {
    var lookup := LookupTransaction(file, txId, path);
    after := file;
    if lookup.Found? && lookup.record.paymentStatus == "Success" && lookup.record.coreBankingStatus != "Success" {
      if StartsWith(Lower(confirmation), "y") {
        MismatchMeansFixable(file, txId, path);
        var fix;
        fix, after := FixCoreBankingStatus(file, txId, path);
        responseText := UpdatedReport(txId, fix);
      } else {
        responseText := NoChanges(txId);
      }
    } else {
      responseText := NoDiscrepancy(txId);
    }
  }

  /** A mismatch seen by the lookup is a row the repair will update. */
  lemma MismatchMeansFixable(file: TxFile, id: string, path: string)
    requires Mismatch(Lookup(file, id, path))
    ensures file.Table? && AnyQualifies(file.rows, id)
  {
    var j := FirstIndex(file.rows, id).value;
    assert Qualifies(file.rows[j], id);
  }

  /** After a confirmed repair, looking the same id up again shows no discrepancy. */
  lemma RepairResolvesMismatch(file: TxFile, id: string, path: string)
    requires Mismatch(Lookup(file, id, path))
    ensures file.Table?
    ensures !Mismatch(Lookup(Table(FixRows(file.rows, id)), id, path))
  {
    MismatchMeansFixable(file, id, path);
    LookupAfterFix(file.rows, id, path);
  }
}
