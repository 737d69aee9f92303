/**
 * Payment by transfer slip: the configuration check, the ordered checks on what the slip
 * service read from the slip, and the all-or-nothing write of a verified payment (the
 * transaction, the order marked PAID, the PAID history row).
 */
module Payment {
  import opened Common
  import opened Schema
  import Transactions
  import CustomerOrders

  /** The settings the service reads at construction. */
  datatype PaymentConfig = PaymentConfig(promptpayNumber: string, apiKey: Option<string>, endpoint: Option<string>)

  const NotConfigured := "PROMPTPAY_MOBILE_NUMBER is not configured in environment"

  /** The constructor: a missing or empty PromptPay number is an error; the other two settings may be missing. */
  function Configure(promptpayNumber: Option<string>, apiKey: Option<string>, endpoint: Option<string>): (r: Result<PaymentConfig>)
    ensures r.Ok? <==> promptpayNumber.Some? && promptpayNumber.value != ""
    ensures r.Err? ==> r == Err(PlainError(NotConfigured))
    ensures r.Ok? ==> r.value.promptpayNumber == promptpayNumber.value
  {
    if promptpayNumber.None? || promptpayNumber.value == "" then Err(PlainError(NotConfigured))
    else Ok(PaymentConfig(promptpayNumber.value, apiKey, endpoint))
  }

  /** What the slip service read from the slip. */
  datatype SlipData = SlipData(amount: int, bankAccount: string, senderName: string, senderBank: string,
                               time: Timestamp, transactionId: Id)

  /** How the call to the slip service ended: data (possibly empty), an HTTP-client error, or another exception. */
  datatype ApiOutcome = Answered(data: Option<SlipData>) | ApiFailed | Crashed

  datatype SlipDetails = SlipDetails(amount: int, senderName: string, senderBank: string, transactionTime: Timestamp, transactionId: Id)

  datatype VerificationError = VerificationError(
    code: string, expectedAmount: Option<int>, actualAmount: Option<int>,
    expectedAccount: Option<string>, actualAccount: Option<string>)

  /** VerificationResult. */
  datatype VerificationResult = VerificationResult(
    success: bool, message: string, details: Option<SlipDetails>, error: Option<VerificationError>)

  function DetailsOf(s: SlipData): SlipDetails
  {
    SlipDetails(s.amount, s.senderName, s.senderBank, s.time, s.transactionId)
  }

  function Code(code: string): Option<VerificationError>
  {
    Some(VerificationError(code, None, None, None, None))
  }

  const InvalidSlip := VerificationResult(false, "Invalid slip image", None, Code("INVALID_SLIP"))
  const ApiError := VerificationResult(false, "Failed to verify slip with external service", None, Code("API_ERROR"))
  const InternalError := VerificationResult(false, "An unexpected error occurred during verification", None, Code("INTERNAL_ERROR"))

  function Verified(s: SlipData): VerificationResult
  {
    VerificationResult(true, "Payment verified successfully", Some(DetailsOf(s)), None)
  }

  /** Where the check cascade ends: a rejection, or a slip to record. */
  datatype Verdict = Rejected(result: VerificationResult) | Accepted(slip: SlipData)

  /**
   * verifySlip's checks, in their order: no data, then the amount, then the receiving account.
   * An HTTP-client error is API_ERROR and any other exception INTERNAL_ERROR.
   */
  function Check(outcome: ApiOutcome, expectedAmount: int, account: string): (v: Verdict)
    ensures v.Accepted? <==>
      (outcome.Answered? && outcome.data.Some?
       && outcome.data.value.amount == expectedAmount && outcome.data.value.bankAccount == account)
    ensures v.Accepted? ==> v.slip == outcome.data.value
    ensures v.Rejected? ==> !v.result.success && v.result.error.Some?
  {
    match outcome
    case ApiFailed => Rejected(ApiError)
    case Crashed => Rejected(InternalError)
    case Answered(data) =>
      if data.None? then Rejected(InvalidSlip)
      else
        var s := data.value;
        if s.amount != expectedAmount then
          Rejected(VerificationResult(false, "Payment amount does not match order amount", Some(DetailsOf(s)),
                                      Some(VerificationError("AMOUNT_MISMATCH", Some(expectedAmount), Some(s.amount), None, None))))
        else if s.bankAccount != account then
          Rejected(VerificationResult(false, "Payment was sent to wrong account", Some(DetailsOf(s)),
                                      Some(VerificationError("WRONG_ACCOUNT", None, None, Some(account), Some(s.bankAccount)))))
        else Accepted(s)
  }

  /**
   * The order of the checks decides the code: a slip whose amount is wrong is an amount
   * mismatch whatever account it was sent to, and the account is only reported wrong when
   * the amount is right.
   */
  lemma CheckOrder(s: SlipData, expectedAmount: int, account: string)
    ensures s.amount != expectedAmount ==>
      Check(Answered(Some(s)), expectedAmount, account).result.error.value.code == "AMOUNT_MISMATCH"
      && Check(Answered(Some(s)), expectedAmount, account).result.error.value.actualAmount == Some(s.amount)
    ensures s.amount == expectedAmount && s.bankAccount != account ==>
      Check(Answered(Some(s)), expectedAmount, account).result.error.value.code == "WRONG_ACCOUNT"
      && Check(Answered(Some(s)), expectedAmount, account).result.error.value.actualAccount == Some(s.bankAccount)
    ensures Check(Answered(None), expectedAmount, account) == Rejected(InvalidSlip)
  {
  }

  /** UPDATE customer_purchase_orders SET status = 'PAID', paid_date_time WHERE id: no check of the prior status. */
  function MarkPaid(cpos: seq<CustomerOrder>, id: Id, time: Timestamp): (r: seq<CustomerOrder>)
    ensures |r| == |cpos|
  {
    if cpos == [] then []
    else [if cpos[0].id == id then cpos[0].(status := Paid, paidDateTime := Some(time)) else cpos[0]] + MarkPaid(cpos[1..], id, time)
  }

  /** The transaction a verified slip records: the slip's own id and amount, its time, method qr. */
  function PaymentTransaction(orderId: Id, s: SlipData): Transaction
  {
    Transaction(s.transactionId, orderId, Some(s.amount), Some(s.time), Some("qr"))
  }

  lemma {:induction false} MarkPaidAt(cpos: seq<CustomerOrder>, id: Id, time: Timestamp, i: nat)
    requires i < |cpos|
    ensures MarkPaid(cpos, id, time)[i] == if cpos[i].id == id then cpos[i].(status := Paid, paidDateTime := Some(time)) else cpos[i]
  {
    if i > 0 {
      MarkPaidAt(cpos[1..], id, time, i - 1);
    }
  }

  /**
   * After the update the order reads back as PAID and Completed whatever its status was (an
   * unknown id updates nothing and still succeeds), and every other order reads back as before.
   */
  lemma {:induction false} MarkPaidFind(cpos: seq<CustomerOrder>, id: Id, time: Timestamp, y: Id)
    ensures CustomerOrders.FindOrder(MarkPaid(cpos, id, time), y)
         == if y == id && CustomerOrders.FindOrder(cpos, id).Some?
            then Some(CustomerOrders.FindOrder(cpos, id).value.(status := Paid, paidDateTime := Some(time)))
            else CustomerOrders.FindOrder(cpos, y)
    ensures y == id && CustomerOrders.FindOrder(cpos, id).Some? ==>
      CustomerOrders.ViewOf(CustomerOrders.FindOrder(MarkPaid(cpos, id, time), y).value).paymentStatus == "Completed"
      && CustomerOrders.ViewOf(CustomerOrders.FindOrder(MarkPaid(cpos, id, time), y).value).orderStatus == "PAID"
  {
    if cpos != [] {
      MarkPaidFind(cpos[1..], id, time, y);
    }
  }

  /**
   * savePaymentDetails: inserts the transaction, marks the order PAID and logs PAID, then
   * commits. A transaction id already in the table (a slip used twice) or any other rejected
   * statement rolls all three back.
   */
  method SavePaymentDetails(db: Db, orderId: Id, s: SlipData, historyId: Id, now: Timestamp, storeFailure: Option<string>)
    returns (saved: bool)
    modifies db`transactions, db`cpos, db`history
    ensures saved <==> storeFailure.None? && Transactions.FindTxById(old(db.transactions), s.transactionId).None?
    ensures !saved ==> db.transactions == old(db.transactions) && db.cpos == old(db.cpos) && db.history == old(db.history)
    ensures saved ==>
      db.transactions == old(db.transactions) + [PaymentTransaction(orderId, s)]
      && db.cpos == MarkPaid(old(db.cpos), orderId, s.time)
      && db.history == old(db.history) + [HistoryRow(historyId, orderId, "PAID", now)]
  {
    var duplicate := Transactions.FindTxById(db.transactions, s.transactionId);
    if duplicate.Some? || storeFailure.Some? {
      return false;
    }
    db.transactions := db.transactions + [PaymentTransaction(orderId, s)];
    db.cpos := MarkPaid(db.cpos, orderId, s.time);
    db.history := db.history + [HistoryRow(historyId, orderId, "PAID", now)];
    saved := true;
  }

  /**
   * verifySlip: runs the checks; only a slip that passes them all is saved and reported as
   * verified, and a failed save is reported as INTERNAL_ERROR. Nothing is rethrown.
   */
  method VerifySlip(db: Db, config: PaymentConfig, orderId: Id, expectedAmount: int, outcome: ApiOutcome,
                    historyId: Id, now: Timestamp, storeFailure: Option<string>)
    returns (res: VerificationResult)
    modifies db`transactions, db`cpos, db`history
    ensures Check(outcome, expectedAmount, config.promptpayNumber).Rejected? ==>
      res == Check(outcome, expectedAmount, config.promptpayNumber).result
      && db.transactions == old(db.transactions) && db.cpos == old(db.cpos) && db.history == old(db.history)
    ensures Check(outcome, expectedAmount, config.promptpayNumber).Accepted? ==>
      var s := Check(outcome, expectedAmount, config.promptpayNumber).slip;
      if storeFailure.None? && Transactions.FindTxById(old(db.transactions), s.transactionId).None? then
        res == Verified(s)
        && db.transactions == old(db.transactions) + [PaymentTransaction(orderId, s)]
        && db.cpos == MarkPaid(old(db.cpos), orderId, s.time)
        && db.history == old(db.history) + [HistoryRow(historyId, orderId, "PAID", now)]
      else
        res == InternalError
        && db.transactions == old(db.transactions) && db.cpos == old(db.cpos) && db.history == old(db.history)
    ensures res.success ==> outcome.Answered? && outcome.data.Some? && res == Verified(outcome.data.value)
  {
    var verdict := Check(outcome, expectedAmount, config.promptpayNumber);
    if verdict.Rejected? {
      return verdict.result;
    }
    var saved := SavePaymentDetails(db, orderId, verdict.slip, historyId, now, storeFailure);
    if saved {
      res := Verified(verdict.slip);
    } else {
      res := InternalError;
    }
  }
}
