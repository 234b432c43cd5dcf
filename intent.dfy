/**
 * The intent classifier of the support agent. Classification is a
 * fixed, ordered, first-match-wins rule table over the lower-cased message: the complaint
 * rules first, then the informational rules (all required keywords and at least one of the
 * any-of keywords), then a fallback. Matching is plain substring containment.
 */
module Intent {
  import opened Wrappers
  import opened Strings

  /** The query types the turn handler distinguishes; the classifier never yields Farewell. */
  datatype QueryType = Complaint | Informational | Farewell

  datatype Topic =
    | DoubleDeduction | IncorrectBilling | UnauthorizedCharge | MissingRefund
    | BillGeneration | PaymentDeduction | OutstandingBalance | DueDate

  /** The key under which the knowledge table stores each topic. */
  function TopicName(t: Topic): string {
    match t
    case DoubleDeduction => "double_deduction"
    case IncorrectBilling => "incorrect_billing"
    case UnauthorizedCharge => "unauthorized_charge"
    case MissingRefund => "missing_refund"
    case BillGeneration => "bill_generation"
    case PaymentDeduction => "payment_deduction"
    case OutstandingBalance => "outstanding_balance"
    case DueDate => "due_date"
  }

  /** `topic.replace("_", " ")`, used in conversation summaries. */
  function TopicPhrase(t: Topic): (phrase: string)
    ensures |phrase| == |TopicName(t)| && '_' !in phrase
    ensures forall i :: 0 <= i < |phrase| ==> phrase[i] == (if TopicName(t)[i] == '_' then ' ' else TopicName(t)[i])
  {
    ReplaceChar(TopicName(t), '_', ' ')
  }

  /**
   * `topic.replace("_", " ").title()`, used as the conversation title: the phrase with only
   * letter case changed, starting with a capital.
   */
  function TopicLabel(t: Topic): (title: string)
    ensures |title| == |TopicName(t)|
    ensures forall i :: 0 <= i < |title| ==> LowerChar(title[i]) == LowerChar(TopicPhrase(t)[i])
    ensures IsUpper(title[0])
  {
    var phrase := TopicPhrase(t);
    TopicNameStartsLower(t);
    TitleChangesOnlyCase(phrase);
    Title(phrase)
  }

  /** Every topic key starts with a lower-case letter. */
  lemma TopicNameStartsLower(t: Topic)
    ensures |TopicName(t)| > 0 && IsLower(TopicName(t)[0])
  {
  }

  datatype ComplaintRule = ComplaintRule(topic: Topic, keywords: seq<string>)
  datatype InformationalRule = InformationalRule(topic: Topic, required: seq<string>, anyOf: seq<string>)

  const ComplaintPatterns: seq<ComplaintRule> := [
    ComplaintRule(DoubleDeduction, ["double", "twice", "charged twice"]),
    ComplaintRule(IncorrectBilling, ["incorrect", "wrong", "error", "mistake"]),
    ComplaintRule(UnauthorizedCharge, ["unauthorized", "fraud"]),
    ComplaintRule(MissingRefund, ["refund", "not received", "missing refund"])
  ]

  const InformationalPatterns: seq<InformationalRule> := [
    InformationalRule(BillGeneration, ["bill"], ["generat", "when", "date"]),
    InformationalRule(PaymentDeduction, ["payment"], ["deduct", "when"]),
    InformationalRule(OutstandingBalance, [], ["balance", "outstanding", "owe"]),
    InformationalRule(DueDate, ["due"], ["date", "when"])
  ]

  /** `any(kw in text for kw in words)`. */
  predicate AnyIn(words: seq<string>, text: string) {
    exists i :: 0 <= i < |words| && Contains(text, words[i])
  }

  /** `all(kw in text for kw in words)`; true of the empty list. */
  predicate AllIn(words: seq<string>, text: string) {
    forall i :: 0 <= i < |words| ==> Contains(text, words[i])
  }

  /** No word of `words` occurs when, for each word, the character at the chosen index `ks[j]` is absent from `text`. */
  lemma NoneIn(words: seq<string>, text: string, ks: seq<nat>)
    requires |ks| == |words|
    requires forall j :: 0 <= j < |words| ==> ks[j] < |words[j]| && words[j][ks[j]] !in text
    ensures !AnyIn(words, text)
  {
    forall j | 0 <= j < |words|
      ensures !Contains(text, words[j])
    {
      AbsentCharExcludes(text, words[j], ks[j]);
    }
  }

  predicate ComplaintMatches(rule: ComplaintRule, text: string) {
    AnyIn(rule.keywords, text)
  }

  predicate InformationalMatches(rule: InformationalRule, text: string) {
    AllIn(rule.required, text) && AnyIn(rule.anyOf, text)
  }

  /** Complaint rule `i` matches and no rule before it does. */
  predicate IsFirstComplaint(text: string, i: int) {
    0 <= i < |ComplaintPatterns| && ComplaintMatches(ComplaintPatterns[i], text)
    && forall j :: 0 <= j < i ==> !ComplaintMatches(ComplaintPatterns[j], text)
  }

  /** Informational rule `i` matches and no rule before it does. */
  predicate IsFirstInformational(text: string, i: int) {
    0 <= i < |InformationalPatterns| && InformationalMatches(InformationalPatterns[i], text)
    && forall j :: 0 <= j < i ==> !InformationalMatches(InformationalPatterns[j], text)
  }

  /** The topic of the first complaint rule from index `k` on that matches `text`. */
  function FirstComplaintFrom(text: string, k: nat): (r: Option<Topic>)
    requires k <= |ComplaintPatterns|
    ensures r.None? <==> forall i :: k <= i < |ComplaintPatterns| ==> !ComplaintMatches(ComplaintPatterns[i], text)
    ensures r.Some? ==> exists i :: k <= i < |ComplaintPatterns| && ComplaintMatches(ComplaintPatterns[i], text)
                          && (forall j :: k <= j < i ==> !ComplaintMatches(ComplaintPatterns[j], text))
                          && r.value == ComplaintPatterns[i].topic
    decreases |ComplaintPatterns| - k
  {
    if k == |ComplaintPatterns| then None
    else if ComplaintMatches(ComplaintPatterns[k], text) then Some(ComplaintPatterns[k].topic)
    else FirstComplaintFrom(text, k + 1)
  }

  /** The topic of the first informational rule from index `k` on that matches `text`. */
  function FirstInformationalFrom(text: string, k: nat): (r: Option<Topic>)
    requires k <= |InformationalPatterns|
    ensures r.None? <==> forall i :: k <= i < |InformationalPatterns| ==> !InformationalMatches(InformationalPatterns[i], text)
    ensures r.Some? ==> exists i :: k <= i < |InformationalPatterns| && InformationalMatches(InformationalPatterns[i], text)
                          && (forall j :: k <= j < i ==> !InformationalMatches(InformationalPatterns[j], text))
                          && r.value == InformationalPatterns[i].topic
    decreases |InformationalPatterns| - k
  {
    if k == |InformationalPatterns| then None
    else if InformationalMatches(InformationalPatterns[k], text) then Some(InformationalPatterns[k].topic)
    else FirstInformationalFrom(text, k + 1)
  }

  /**
   * `classify_intent`: total, never Farewell; complaint exactly when some complaint keyword
   * occurs, with the topic of the first matching complaint rule; otherwise the topic of the
   * first matching informational rule, or bill generation when none matches.
   */
  function ClassifyIntent(message: string): (r: (QueryType, Topic))
    ensures r.0 == Complaint || r.0 == Informational
    ensures r.0 == Complaint <==> exists i :: 0 <= i < |ComplaintPatterns| && ComplaintMatches(ComplaintPatterns[i], Lower(message))
    ensures r.0 == Complaint ==> exists i :: IsFirstComplaint(Lower(message), i) && r.1 == ComplaintPatterns[i].topic
    ensures r.0 == Informational ==>
              (exists i :: IsFirstInformational(Lower(message), i) && r.1 == InformationalPatterns[i].topic)
              || ((forall i :: 0 <= i < |InformationalPatterns| ==> !InformationalMatches(InformationalPatterns[i], Lower(message)))
                  && r.1 == BillGeneration)
  {
    var text := Lower(message);
    match FirstComplaintFrom(text, 0)
    case Some(topic) => (Complaint, topic)
    case None =>
      match FirstInformationalFrom(text, 0)
      case Some(topic) => (Informational, topic)
      case None => (Informational, BillGeneration)
  }

  /** Complaint topics come only with Complaint, informational topics only with Informational. */
  lemma ClassifyPairsTopicWithType(message: string)
    ensures var (kind, topic) := ClassifyIntent(message);
            (kind == Complaint) <==> topic in {DoubleDeduction, IncorrectBilling, UnauthorizedCharge, MissingRefund}
  {
    var text := Lower(message);
    if FirstComplaintFrom(text, 0).None? {
      var info := FirstInformationalFrom(text, 0);
      assert info.Some? ==> info.value in {BillGeneration, PaymentDeduction, OutstandingBalance, DueDate};
    }
  }

  /** Classification ignores letter case. */
  lemma ClassifyIgnoresCase(message: string)
    ensures ClassifyIntent(Lower(message)) == ClassifyIntent(message)
  {
    LowerIdempotent(message);
  }

  /** For a lower-case message, classification is read off the two scans (a hint for the examples below). */
  lemma ClassifyLowerCase(m: string)
    requires Lower(m) == m
    ensures FirstComplaintFrom(m, 0).Some? ==> ClassifyIntent(m) == (Complaint, FirstComplaintFrom(m, 0).value)
    ensures FirstComplaintFrom(m, 0).None? && FirstInformationalFrom(m, 0).Some?
            ==> ClassifyIntent(m) == (Informational, FirstInformationalFrom(m, 0).value)
  {
  }

  /** The complaint scan of the next example. */
  lemma ComplaintTakesPrecedenceScan(t: string)
    requires t == "wrong bill date"
    ensures FirstComplaintFrom(t, 0) == Some(IncorrectBilling)
  {
    NoneIn(ComplaintPatterns[0].keywords, t, [2, 3, 0]);
    assert ComplaintMatches(ComplaintPatterns[1], t) by {
      OccursAtContains(t, "wrong", 0);
      assert Contains(t, ComplaintPatterns[1].keywords[1]);
    }
  }

  /** "wrong bill date" also fits the bill-generation rule. */
  lemma WrongBillDateFitsBillRule(t: string)
    requires t == "wrong bill date"
    ensures InformationalMatches(InformationalPatterns[0], t)
  {
    assert AllIn(InformationalPatterns[0].required, t) by {
      OccursAtContains(t, "bill", 6);
      assert Contains(t, InformationalPatterns[0].required[0]);
    }
    assert AnyIn(InformationalPatterns[0].anyOf, t) by {
      OccursAtContains(t, "date", 11);
      assert Contains(t, InformationalPatterns[0].anyOf[2]);
    }
  }

  /** A complaint keyword wins over informational keywords: "wrong bill date" is an incorrect-billing complaint. */
  lemma ComplaintTakesPrecedence(t: string)
    requires t == "wrong bill date"
    ensures InformationalMatches(InformationalPatterns[0], t)
    ensures ClassifyIntent(t) == (Complaint, IncorrectBilling)
  {
    WrongBillDateFitsBillRule(t);
    assert Lower(t) == t by { LowerOfLowerCase(t); }
    assert FirstComplaintFrom(t, 0) == Some(IncorrectBilling) by { ComplaintTakesPrecedenceScan(t); }
    ClassifyLowerCase(t);
  }

  /** The complaint scan of the next example. */
  lemma FirstComplaintRuleWinsScan(t: string)
    requires t == "double refund"
    ensures FirstComplaintFrom(t, 0) == Some(DoubleDeduction)
  {
    assert ComplaintMatches(ComplaintPatterns[0], t) by {
      OccursAtContains(t, "double", 0);
      assert Contains(t, ComplaintPatterns[0].keywords[0]);
    }
  }

  /** The first complaint rule in table order wins: "double refund" is a double deduction. */
  lemma FirstComplaintRuleWins(t: string)
    requires t == "double refund"
    ensures ComplaintMatches(ComplaintPatterns[3], t)
    ensures ClassifyIntent(t) == (Complaint, DoubleDeduction)
  {
    assert ComplaintMatches(ComplaintPatterns[3], t) by {
      OccursAtContains(t, "refund", 7);
      assert Contains(t, ComplaintPatterns[3].keywords[0]);
    }
    assert Lower(t) == t by { LowerOfLowerCase(t); }
    assert FirstComplaintFrom(t, 0) == Some(DoubleDeduction) by { FirstComplaintRuleWinsScan(t); }
    ClassifyLowerCase(t);
  }

  /** No complaint keyword occurs in "bill due date". */
  lemma BillDueDateNoComplaint(t: string)
    requires t == "bill due date"
    ensures FirstComplaintFrom(t, 0).None?
  {
    NoneIn(ComplaintPatterns[0].keywords, t, [1, 1, 0]);
    NoneIn(ComplaintPatterns[1].keywords, t, [1, 0, 1, 0]);
    NoneIn(ComplaintPatterns[2].keywords, t, [1, 0]);
    NoneIn(ComplaintPatterns[3].keywords, t, [0, 0, 0]);
  }

  /** The informational scan of the next example. */
  lemma BillRuleBeforeDueRuleScan(t: string)
    requires t == "bill due date"
    ensures FirstInformationalFrom(t, 0) == Some(BillGeneration)
  {
    OccursAtContains(t, "bill", 0);
    OccursAtContains(t, "date", 9);
    assert Contains(t, InformationalPatterns[0].required[0]);
    assert Contains(t, InformationalPatterns[0].anyOf[2]);
    assert InformationalMatches(InformationalPatterns[0], t);
  }

  /** Informational rules are tried in order: "bill due date" fits the bill rule and the due-date rule, and the bill rule wins. */
  lemma BillRuleBeforeDueRule(t: string)
    requires t == "bill due date"
    ensures InformationalMatches(InformationalPatterns[3], t)
    ensures ClassifyIntent(t) == (Informational, BillGeneration)
  {
    assert Lower(t) == t by { LowerOfLowerCase(t); }
    assert FirstComplaintFrom(t, 0).None? by { BillDueDateNoComplaint(t); }
    assert InformationalMatches(InformationalPatterns[3], t) by {
      OccursAtContains(t, "due", 5);
      OccursAtContains(t, "date", 9);
      assert Contains(t, InformationalPatterns[3].required[0]);
      assert Contains(t, InformationalPatterns[3].anyOf[0]);
    }
    assert FirstInformationalFrom(t, 0) == Some(BillGeneration) by { BillRuleBeforeDueRuleScan(t); }
    ClassifyLowerCase(t);
  }

  /** No complaint keyword occurs in "due date". */
  lemma DueDateNoComplaint(t: string)
    requires t == "due date"
    ensures FirstComplaintFrom(t, 0).None?
  {
    NoneIn(ComplaintPatterns[0].keywords, t, [1, 1, 0]);
    NoneIn(ComplaintPatterns[1].keywords, t, [0, 0, 1, 0]);
    NoneIn(ComplaintPatterns[2].keywords, t, [1, 0]);
    NoneIn(ComplaintPatterns[3].keywords, t, [0, 0, 0]);
  }

  /** The informational scan of the next example. */
  lemma DueDateQuestionScan(t: string)
    requires t == "due date"
    ensures FirstInformationalFrom(t, 0) == Some(DueDate)
  {
    assert !InformationalMatches(InformationalPatterns[0], t) by {
      AbsentCharExcludes(t, "bill", 0);
      assert !Contains(t, InformationalPatterns[0].required[0]);
    }
    assert !InformationalMatches(InformationalPatterns[1], t) by {
      AbsentCharExcludes(t, "payment", 0);
      assert !Contains(t, InformationalPatterns[1].required[0]);
    }
    assert !InformationalMatches(InformationalPatterns[2], t) by {
      AbsentCharExcludes(t, "balance", 0);
      AbsentCharExcludes(t, "outstanding", 0);
      AbsentCharExcludes(t, "owe", 0);
    }
    assert InformationalMatches(InformationalPatterns[3], t) by {
      OccursAtContains(t, "due", 0);
      OccursAtContains(t, "date", 4);
      assert Contains(t, InformationalPatterns[3].required[0]);
      assert Contains(t, InformationalPatterns[3].anyOf[0]);
    }
  }

  /** "due date" passes over the first three informational rules and reaches the due-date rule. */
  lemma DueDateQuestion(t: string)
    requires t == "due date"
    ensures ClassifyIntent(t) == (Informational, DueDate)
  {
    assert Lower(t) == t by { LowerOfLowerCase(t); }
    assert FirstComplaintFrom(t, 0).None? by { DueDateNoComplaint(t); }
    assert FirstInformationalFrom(t, 0) == Some(DueDate) by { DueDateQuestionScan(t); }
    ClassifyLowerCase(t);
  }

  /** No complaint keyword occurs in "however". */
  lemma HoweverNoComplaint(t: string)
    requires t == "however"
    ensures FirstComplaintFrom(t, 0).None?
  {
    NoneIn(ComplaintPatterns[0].keywords, t, [0, 0, 0]);
    assert !ComplaintMatches(ComplaintPatterns[1], t) by {
      AbsentCharExcludes(t, "incorrect", 0);
      AbsentCharExcludes(t, "wrong", 3);
      FirstCharExcludes(t, "error");
      AbsentCharExcludes(t, "mistake", 0);
    }
    NoneIn(ComplaintPatterns[2].keywords, t, [0, 0]);
    NoneIn(ComplaintPatterns[3].keywords, t, [2, 0, 0]);
  }

  /** The informational scan of the next example. */
  lemma OweInsideHoweverScan(t: string)
    requires t == "however"
    ensures FirstInformationalFrom(t, 0) == Some(OutstandingBalance)
  {
    assert !InformationalMatches(InformationalPatterns[0], t) by {
      AbsentCharExcludes(t, "bill", 0);
      assert !Contains(t, InformationalPatterns[0].required[0]);
    }
    assert !InformationalMatches(InformationalPatterns[1], t) by {
      AbsentCharExcludes(t, "payment", 0);
      assert !Contains(t, InformationalPatterns[1].required[0]);
    }
    assert InformationalMatches(InformationalPatterns[2], t) by {
      OccursAtContains(t, "owe", 1);
      assert Contains(t, InformationalPatterns[2].anyOf[2]);
    }
  }

  /** Plain substring matching: "owe" inside "however" makes it a balance question. */
  lemma OweInsideHowever(t: string)
    requires t == "however"
    ensures ClassifyIntent(t) == (Informational, OutstandingBalance)
  {
    assert Lower(t) == t by { LowerOfLowerCase(t); }
    assert FirstComplaintFrom(t, 0).None? by { HoweverNoComplaint(t); }
    assert FirstInformationalFrom(t, 0) == Some(OutstandingBalance) by { OweInsideHoweverScan(t); }
    ClassifyLowerCase(t);
  }

  /** A message that matches no rule falls back to bill generation. */
  lemma FallbackIsBillGeneration(message: string)
    requires forall i :: 0 <= i < |ComplaintPatterns| ==> !ComplaintMatches(ComplaintPatterns[i], Lower(message))
    requires forall i :: 0 <= i < |InformationalPatterns| ==> !InformationalMatches(InformationalPatterns[i], Lower(message))
    ensures ClassifyIntent(message) == (Informational, BillGeneration)
  {
  }
}
