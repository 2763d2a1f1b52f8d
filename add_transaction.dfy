/**
 * The add-transaction page: free text is sent for analysis and the detected
 * transactions are held for review; while they are pending the manual form
 * does nothing; they are saved in bulk or cleared by the user.
 *
 * The page's state is a class. A network answer is a parameter of the method
 * that awaits it, and each method returns the request it sends, if any.
 */
module AddTransaction {
  import opened Wrappers
  import opened JsStrings

  /** One detected transaction as the analysis returns it. */
  datatype AiTransaction = AiTransaction(
    kind: string,
    amount: real,
    category: string,
    description: Option<string>,
    paymentMethod: Option<string>,
    confidence: Option<real>)

  /** The answer to the analysis request: a failure, or data whose `transactions` may be missing. */
  datatype ParseReply = ParseFailed | ParseOk(transactions: Option<seq<AiTransaction>>)

  /** The requests the page sends. */
  datatype Request =
    | AnalyzeRequest(text: string)
    | BulkSave(transactions: seq<AiTransaction>)
    | ManualSave(kind: string, amount: real, category: string, date: string)

  const EnterText: string := "Please enter some text"
  const NothingDetected: string := "AI could not detect transactions"
  const AnalysisFailed: string := "AI analysis failed"
  const BulkSaved: string := "AI Transactions Saved Successfully"
  const BulkSaveFailed: string := "Failed to save AI transactions"
  const FieldsRequired: string := "All fields are required"
  const ManualSaved: string := "Transaction saved successfully"
  const ManualSaveFailed: string := "Save failed"

  /** `res.data?.transactions || []`. */
  function Detected(reply: ParseReply): seq<AiTransaction>
    requires reply.ParseOk?
  {
    reply.transactions.GetOr([])
  }

  class AddTransactionPage {
    var text: string
    var kind: string
    var amount: string
    var category: string
    var date: string
    var aiResults: seq<AiTransaction>
    var error: string
    var success: string

    constructor ()
      ensures text == "" && kind == "expense" && amount == "" && category == "" && date == ""
      ensures aiResults == [] && error == "" && success == ""
    {
      text, kind, amount, category, date := "", "expense", "", "", "";
      aiResults, error, success := [], "", "";
    }

    /** The review is pending: detected transactions wait to be saved or cleared. */
    predicate Pending()
      reads this
    {
      |aiResults| > 0
    }

    /**
     * `analyzeText`. Whitespace-only text (`!text.trim()`) only sets an error; otherwise
     * the pending results are emptied, the text is sent, and the answer decides
     * what is held for review. Nothing is ever saved here.
     */
    method AnalyzeText(reply: ParseReply) returns (sent: Option<Request>)
      modifies this
      ensures text == old(text) && kind == old(kind) && amount == old(amount)
      ensures category == old(category) && date == old(date) && success == old(success)
      ensures IsBlank(old(text)) ==>
        sent == None && error == EnterText && aiResults == old(aiResults)
      ensures !IsBlank(old(text)) ==>
        && sent == Some(AnalyzeRequest(old(text)))
        && (reply.ParseFailed? ==> error == AnalysisFailed && aiResults == [])
        && (reply.ParseOk? && Detected(reply) == [] ==> error == NothingDetected && aiResults == [])
        && (reply.ParseOk? && Detected(reply) != [] ==> error == "" && aiResults == Detected(reply))
    {
      TrimEmptyIffBlank(text);
      if Trim(text) == "" {
        error := EnterText;
        return None;
      }
      error := "";
      aiResults := [];
      sent := Some(AnalyzeRequest(text));
      match reply
      case ParseFailed =>
        error := AnalysisFailed;
      case ParseOk(_) =>
        var transactions := Detected(reply);
        if |transactions| == 0 {
          error := NothingDetected;
          return;
        }
        aiResults := transactions;
    }

    /** `clearAI`: drop the pending results and the text. */
    method ClearAI()
      modifies this
      ensures aiResults == [] && text == ""
      ensures kind == old(kind) && amount == old(amount) && category == old(category) && date == old(date)
      ensures error == old(error) && success == old(success)
    {
      aiResults := [];
      text := "";
    }

    /**
     * `saveAITransactions`: the pending results are sent unchanged; a
     * successful save empties them and the text, a failed one keeps them.
     */
    method SaveAITransactions(saved: bool) returns (sent: Option<Request>)
      modifies this
      ensures sent == Some(BulkSave(old(aiResults)))
      ensures kind == old(kind) && amount == old(amount) && category == old(category) && date == old(date)
      ensures saved ==> aiResults == [] && text == "" && success == BulkSaved && error == ""
      ensures !saved ==> aiResults == old(aiResults) && text == old(text) && success == "" && error == BulkSaveFailed
    {
      error := "";
      success := "";
      sent := Some(BulkSave(aiResults));
      if saved {
        success := BulkSaved;
        aiResults := [];
        text := "";
      } else {
        error := BulkSaveFailed;
      }
    }

    /**
     * `handleSubmit` of the manual form. Nothing happens while a review is
     * pending; an empty amount, category or date is refused; otherwise the
     * entry is sent with `toNumber(amount)` and, once saved, the fields are cleared.
     */
    method HandleSubmit(toNumber: string -> real, saved: bool) returns (sent: Option<Request>)
      modifies this
      ensures old(Pending()) ==> sent == None && unchanged(this)
      ensures text == old(text) && kind == old(kind) && aiResults == old(aiResults)
      ensures !old(Pending()) && (old(amount) == "" || old(category) == "" || old(date) == "") ==>
        && sent == None && error == FieldsRequired && success == ""
        && amount == old(amount) && category == old(category) && date == old(date)
      ensures !old(Pending()) && old(amount) != "" && old(category) != "" && old(date) != "" ==>
        && sent == Some(ManualSave(old(kind), toNumber(old(amount)), old(category), old(date)))
        && (saved ==> success == ManualSaved && error == "" && amount == "" && category == "" && date == "")
        && (!saved ==> success == "" && error == ManualSaveFailed
                       && amount == old(amount) && category == old(category) && date == old(date))
    {
      if |aiResults| > 0 {
        return None;
      }
      error := "";
      success := "";
      if amount == "" || category == "" || date == "" {
        error := FieldsRequired;
        return None;
      }
      sent := Some(ManualSave(kind, toNumber(amount), category, date));
      if saved {
        success := ManualSaved;
        amount, category, date := "", "", "";
      } else {
        error := ManualSaveFailed;
      }
    }
  }

  /**
   * The review cycle: once an analysis has detected something, the manual
   * form sends nothing until the results are saved or cleared, and then it
   * works again.
   */
  method ReviewBlocksManualSave(page: AddTransactionPage, reply: ParseReply, toNumber: string -> real)
    returns (blocked: Option<Request>, afterClear: Option<Request>)
    requires !IsBlank(page.text) && reply.ParseOk? && Detected(reply) != []
    requires page.amount != "" && page.category != "" && page.date != ""
    modifies page
    ensures blocked == None
    ensures afterClear.Some? && afterClear.value.ManualSave?
  {
    var analysed := page.AnalyzeText(reply);
    blocked := page.HandleSubmit(toNumber, true);
    page.ClearAI();
    afterClear := page.HandleSubmit(toNumber, true);
  }
}
