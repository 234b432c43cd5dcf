/**
 * The canned answers of the support agent: the knowledge table keyed by topic name, the
 * default answer for an unknown key, and the escalation message.
 */
module Knowledge {
  import opened Wrappers
  import opened Intent

  /**
   * The knowledge table as a lookup: the stored answer for each of its eight keys, and
   * `None` for every other key.
   */
  function CreditCardKnowledge(key: string): Option<string> {
    if key == "bill_generation" then
      Some("Your credit card bill is generated on the 1st of every month. "
           + "The billing cycle runs from the 1st to the last day of each month.")
    else if key == "payment_deduction" then
      Some("Payment is automatically deducted 15 days after bill generation, "
           + "on the 16th of each month from your registered bank account.")
    else if key == "outstanding_balance" then
      Some("Your current outstanding balance can be checked in your monthly statement. "
           + "For the most accurate balance, please check your latest statement or "
           + "contact your bank directly.")
    else if key == "due_date" then
      Some("Your payment due date is the 16th of every month. "
           + "A grace period of 3 days is available until the 19th without late fees.")
    else if key == "double_deduction" then
      Some("We understand your concern about a double deduction. This has been noted "
           + "and will be investigated. A refund will be processed within 5-7 business "
           + "days if confirmed.")
    else if key == "incorrect_billing" then
      Some("We take incorrect billing seriously. Your complaint has been registered "
           + "and our billing team will review your account within 24 hours.")
    else if key == "unauthorized_charge" then
      Some("An unauthorized charge is a serious matter. We will immediately flag your "
           + "account for review and our fraud team will investigate within 24 hours.")
    else if key == "missing_refund" then
      Some("Refunds typically take 7-10 business days to process. If it has been "
           + "longer, your case will be escalated for immediate review.")
    else None
  }

  const DefaultKnowledgeResponse: string :=
    "I'd be happy to help you with that. Could you provide more details about your query?"

  const EscalationResponse: string :=
    "I understand your frustration, and I sincerely apologize for the inconvenience. "
    + "A customer care executive will connect with you within 30 minutes to resolve "
    + "this personally. Your concern has been escalated to our priority queue."

  /** `get_knowledge_response`: the stored answer for a topic key, or the default request for details. */
  function GetKnowledgeResponse(topic: string): (answer: string)
    ensures CreditCardKnowledge(topic).Some? ==> answer == CreditCardKnowledge(topic).value
    ensures CreditCardKnowledge(topic).None? ==> answer == DefaultKnowledgeResponse
  {
    CreditCardKnowledge(topic).GetOr(DefaultKnowledgeResponse)
  }

  /**
   * Every topic the classifier can return is a key of the table, so for classifier output the
   * answer is always the stored one and never the default.
   */
  lemma EveryTopicHasKnowledge(t: Topic)
    ensures CreditCardKnowledge(TopicName(t)).Some?
    ensures GetKnowledgeResponse(TopicName(t)) == CreditCardKnowledge(TopicName(t)).value
  {
    match t
    case DoubleDeduction =>
    case IncorrectBilling =>
    case UnauthorizedCharge =>
    case MissingRefund =>
    case BillGeneration =>
    case PaymentDeduction =>
    case OutstandingBalance =>
    case DueDate =>
  }

  /**
   * For classifier output the answer is never the default request for details, so every
   * recognised topic gets its own answer.
   */
  lemma KnowledgeNotDefault(t: Topic)
    ensures GetKnowledgeResponse(TopicName(t)) != DefaultKnowledgeResponse
  {
    match t
    case DoubleDeduction => DoubleDeductionNotDefault();
    case IncorrectBilling => IncorrectBillingNotDefault();
    case UnauthorizedCharge => UnauthorizedChargeNotDefault();
    case MissingRefund => MissingRefundNotDefault();
    case BillGeneration => BillGenerationNotDefault();
    case PaymentDeduction => PaymentDeductionNotDefault();
    case OutstandingBalance => OutstandingBalanceNotDefault();
    case DueDate => DueDateNotDefault();
  }

  /** The `double_deduction` answer is not the default answer. */
  lemma DoubleDeductionNotDefault()
    ensures GetKnowledgeResponse("double_deduction") != DefaultKnowledgeResponse
  {
    EveryTopicHasKnowledge(DoubleDeduction);
  }

  /** The `incorrect_billing` answer is not the default answer. */
  lemma IncorrectBillingNotDefault()
    ensures GetKnowledgeResponse("incorrect_billing") != DefaultKnowledgeResponse
  {
    EveryTopicHasKnowledge(IncorrectBilling);
  }

  /** The `unauthorized_charge` answer is not the default answer. */
  lemma UnauthorizedChargeNotDefault()
    ensures GetKnowledgeResponse("unauthorized_charge") != DefaultKnowledgeResponse
  {
    EveryTopicHasKnowledge(UnauthorizedCharge);
  }

  /** The `missing_refund` answer is not the default answer. */
  lemma MissingRefundNotDefault()
    ensures GetKnowledgeResponse("missing_refund") != DefaultKnowledgeResponse
  {
    EveryTopicHasKnowledge(MissingRefund);
  }

  /** The `bill_generation` answer is not the default answer. */
  lemma BillGenerationNotDefault()
    ensures GetKnowledgeResponse("bill_generation") != DefaultKnowledgeResponse
  {
    EveryTopicHasKnowledge(BillGeneration);
  }

  /** The `payment_deduction` answer is not the default answer. */
  lemma PaymentDeductionNotDefault()
    ensures GetKnowledgeResponse("payment_deduction") != DefaultKnowledgeResponse
  {
    EveryTopicHasKnowledge(PaymentDeduction);
  }

  /** The `outstanding_balance` answer is not the default answer. */
  lemma OutstandingBalanceNotDefault()
    ensures GetKnowledgeResponse("outstanding_balance") != DefaultKnowledgeResponse
  {
    EveryTopicHasKnowledge(OutstandingBalance);
  }

  /** The `due_date` answer is not the default answer. */
  lemma DueDateNotDefault()
    ensures GetKnowledgeResponse("due_date") != DefaultKnowledgeResponse
  {
    EveryTopicHasKnowledge(DueDate);
  }
}
