/**
 * The conversation routes: a key-addressed store of conversation records, the start of a
 * session, one typed turn (user message, local sentiment, intent, ticket, one assistant
 * reply), closing a session, and listing. Clock readings, message timestamps and the outcome
 * of each ticket request are inputs.
 */
module Conversations {
  import opened Wrappers
  import opened Strings
  import Clock
  import Intent
  import Knowledge
  import Sentiment
  import Trello
  import Config
  import Http

  datatype Role = User | Assistant

  datatype Message = Message(role: Role, content: string, timestamp: string)

  datatype Status = Active | Escalated | Closed

  datatype ResolutionStatus = InProgress | AiResolved | HumanFollowupRequired

  /** A conversation record as it is kept in the store. */
  datatype Conversation = Conversation(
    id: string,
    title: string,
    status: Status,
    sentiment: Sentiment.Label,
    ticketId: Option<string>,
    ticketType: Intent.QueryType,
    resolutionStatus: ResolutionStatus,
    messages: seq<Message>,
    createdAt: string,
    summary: Option<string>,
    escalated: bool)

  datatype HttpError = NotFound

  /** What a typed turn answers: the updated record, the text sentiment and the reply text. */
  datatype TurnReply = TurnReply(conversation: Conversation, sentiment: Sentiment.SentimentResult, response: string)

  const NewSessionTitle := "New Support Session"

  const GreetingMessage: string :=
    "Hello! I'm your Assist Link support agent. "
    + "How can I help you with your credit card today?"

  const FollowUpQuestion := "\n\nIs there anything else I can help you with?"

  /** The farewell text is imported by the routes but defined nowhere in the services; its value is left open. */
  const FarewellResponse: string

  const FarewellSummary := "Customer ended conversation. Query resolved by AI agent."

  /** `"conv-"` followed by the twenty-digit microseconds stamp of the clock reading. */
  function ConversationId(clock: Clock.Instant): (id: string)
    ensures |id| == 25 && id[..5] == "conv-" && id[5..] == Clock.MicrosStamp(clock)
  {
    "conv-" + Clock.MicrosStamp(clock)
  }

  /** Two sessions started at different microseconds get different ids. */
  lemma {:induction false} ConversationIdsDiffer(a: Clock.Instant, b: Clock.Instant)
    requires a != b
    ensures ConversationId(a) != ConversationId(b)
  {
    if ConversationId(a) == ConversationId(b) {
      assert ConversationId(a)[5..] == ConversationId(b)[5..];
      Clock.MicrosStampInjective(a, b);
    }
  }

  /** The record `start_conversation` stores: an active session holding the greeting alone. */
  function NewConversation(id: string, now: string): (c: Conversation)
    ensures c.id == id && c.createdAt == now && c.title == NewSessionTitle
    ensures c.status == Active && c.sentiment == Sentiment.Neutral
    ensures c.ticketType == Intent.Informational && c.resolutionStatus == InProgress
    ensures c.ticketId == None && c.summary == None && !c.escalated
    ensures c.messages == [Message(Assistant, GreetingMessage, now)]
  {
    Conversation(id, NewSessionTitle, Active, Sentiment.Neutral, None, Intent.Informational, InProgress,
                 [Message(Assistant, GreetingMessage, now)], now, None, false)
  }

  /** `_handle_farewell`: closes the session, renames an untitled one, and appends the farewell. */
  function HandleFarewell(c: Conversation, at: string): (r: (Conversation, string))
    ensures r.1 == FarewellResponse
    ensures r.0.status == Closed && r.0.resolutionStatus == AiResolved && r.0.summary == Some(FarewellSummary)
    ensures r.0.title != NewSessionTitle
    ensures c.title == NewSessionTitle ==> r.0.title == "Support Session"
    ensures c.title != NewSessionTitle ==> r.0.title == c.title
    ensures r.0.messages == c.messages + [Message(Assistant, r.1, at)]
    ensures && r.0.id == c.id && r.0.createdAt == c.createdAt && r.0.ticketId == c.ticketId
            && r.0.sentiment == c.sentiment && r.0.ticketType == c.ticketType && r.0.escalated == c.escalated
  {
    var title := if c.title == NewSessionTitle then "Support Session" else c.title;
    (c.(status := Closed, resolutionStatus := AiResolved, title := title, summary := Some(FarewellSummary),
        messages := c.messages + [Message(Assistant, FarewellResponse, at)]),
     FarewellResponse)
  }

  /** `_handle_escalation`: marks the session negative and escalated, and appends the escalation message. */
  function HandleEscalation(c: Conversation, topicLabel: string, at: string): (r: (Conversation, string))
    ensures r.1 == Knowledge.EscalationResponse
    ensures r.0.status == Escalated && r.0.escalated && r.0.sentiment == Sentiment.Negative
    ensures r.0.ticketType == Intent.Complaint && r.0.resolutionStatus == HumanFollowupRequired
    ensures r.0.title == topicLabel
    ensures r.0.messages == c.messages + [Message(Assistant, r.1, at)]
    ensures r.0.id == c.id && r.0.createdAt == c.createdAt && r.0.ticketId == c.ticketId && r.0.summary == c.summary
  {
    (c.(sentiment := Sentiment.Negative, status := Escalated, escalated := true,
        ticketType := Intent.Complaint, resolutionStatus := HumanFollowupRequired, title := topicLabel,
        messages := c.messages + [Message(Assistant, Knowledge.EscalationResponse, at)]),
     Knowledge.EscalationResponse)
  }

  /** The stored label after a resolved turn: mixed stays mixed, anything else becomes positive. */
  function ResolvedLabel(reading: Sentiment.Label): (l: Sentiment.Label)
    ensures l == Sentiment.Mixed <==> reading == Sentiment.Mixed
    ensures l != Sentiment.Mixed ==> l == Sentiment.Positive
  {
    if reading == Sentiment.Mixed then Sentiment.Mixed else Sentiment.Positive
  }

  /** `_handle_resolved`: records the answer to the query and appends the knowledge text with the follow-up question. */
  function HandleResolved(c: Conversation, s: Sentiment.SentimentResult, queryType: Intent.QueryType,
                          topic: Intent.Topic, topicLabel: string, at: string): (r: (Conversation, string))
    ensures r.1 == Knowledge.GetKnowledgeResponse(Intent.TopicName(topic)) + FollowUpQuestion
    ensures r.0.resolutionStatus == AiResolved && r.0.ticketType == queryType && r.0.title == topicLabel
    ensures r.0.sentiment == ResolvedLabel(s.sentiment)
    ensures r.0.messages == c.messages + [Message(Assistant, r.1, at)]
    ensures r.0.status == c.status && r.0.escalated == c.escalated
    ensures r.0.id == c.id && r.0.createdAt == c.createdAt && r.0.ticketId == c.ticketId && r.0.summary == c.summary
  {
    var response := Knowledge.GetKnowledgeResponse(Intent.TopicName(topic)) + FollowUpQuestion;
    (c.(sentiment := ResolvedLabel(s.sentiment), ticketType := queryType, title := topicLabel,
        resolutionStatus := AiResolved, messages := c.messages + [Message(Assistant, response, at)]),
     response)
  }

  /** The summary of an escalated turn names the topic, with spaces for underscores. */
  function EscalationSummary(topic: Intent.Topic): (summary: string)
    ensures Contains(summary, Intent.TopicPhrase(topic))
  {
    var prefix := "Customer reported ";
    var summary := prefix + Intent.TopicPhrase(topic) + " and showed dissatisfaction. Escalated to human agent.";
    OccursAtContains(summary, Intent.TopicPhrase(topic), |prefix|);
    summary
  }

  /** The summary of a resolved turn names the topic, with spaces for underscores. */
  function ResolvedSummary(topic: Intent.Topic): (summary: string)
    ensures Contains(summary, Intent.TopicPhrase(topic))
  {
    var prefix := "User asked about ";
    var summary := prefix + Intent.TopicPhrase(topic) + ". Query resolved by AI agent.";
    OccursAtContains(summary, Intent.TopicPhrase(topic), |prefix|);
    summary
  }

  /**
   * The branch of `process_message` once the user message is in: a farewell closes the
   * session, a negative reading escalates it, anything else is answered from the knowledge
   * table. Each branch appends one reply and stores the ticket id of the turn.
   */
  function Respond(withUser: Conversation, s: Sentiment.SentimentResult, queryType: Intent.QueryType,
                   topic: Intent.Topic, ticketId: Option<string>, replyAt: string): (r: TurnReply)
    ensures r.sentiment == s
    ensures r.conversation.messages == withUser.messages + [Message(Assistant, r.response, replyAt)]
    ensures r.conversation.ticketId == ticketId
    ensures r.conversation.id == withUser.id && r.conversation.createdAt == withUser.createdAt
    ensures queryType != Intent.Farewell ==> r.conversation.title == Intent.TopicLabel(topic)
  {
    var topicLabel := Intent.TopicLabel(topic);
    if queryType == Intent.Farewell then
      var (handled, response) := HandleFarewell(withUser, replyAt);
      TurnReply(handled.(ticketId := ticketId), s, response)
    else if s.sentiment == Sentiment.Negative then
      var (handled, response) := HandleEscalation(withUser, topicLabel, replyAt);
      TurnReply(handled.(ticketId := ticketId, summary := Some(EscalationSummary(topic))), s, response)
    else
      var (handled, response) := HandleResolved(withUser, s, queryType, topic, topicLabel, replyAt);
      TurnReply(handled.(ticketId := ticketId, summary := Some(ResolvedSummary(topic))), s, response)
  }

  /**
   * The record update of `process_message` once the conversation is found: the user message
   * is appended, the text is scored and classified, and the reply follows.
   */
  function TextTurn(c: Conversation, text: string, userAt: string, replyAt: string, ticket: Trello.TicketCall): (r: TurnReply)
    ensures r.sentiment == Sentiment.AnalyzeText(text)
    ensures r.conversation.ticketId == Trello.CreateTrelloTicket(ticket)
    ensures r.conversation.id == c.id && r.conversation.createdAt == c.createdAt
    ensures r.conversation.title == Intent.TopicLabel(Intent.ClassifyIntent(text).1)
  {
    var (queryType, topic) := Intent.ClassifyIntent(text);
    Respond(c.(messages := c.messages + [Message(User, text, userAt)]), Sentiment.AnalyzeText(text),
            queryType, topic, Trello.CreateTrelloTicket(ticket), replyAt)
  }

  /** A turn appends exactly two messages, the user's text and then the reply, and keeps the earlier ones. */
  lemma TurnAppendsTwoMessages(c: Conversation, text: string, userAt: string, replyAt: string, ticket: Trello.TicketCall)
    ensures var r := TextTurn(c, text, userAt, replyAt, ticket);
            && |r.conversation.messages| == |c.messages| + 2
            && r.conversation.messages[..|c.messages|] == c.messages
            && r.conversation.messages[|c.messages|] == Message(User, text, userAt)
            && r.conversation.messages[|c.messages| + 1] == Message(Assistant, r.response, replyAt)
  {
    var r := TextTurn(c, text, userAt, replyAt, ticket);
    var user, reply := Message(User, text, userAt), Message(Assistant, r.response, replyAt);
    assert r.conversation.messages == (c.messages + [user]) + [reply];
    AppendedTwo(c.messages, user, reply);
  }

  /** Appending two messages keeps the history as a prefix and puts them in the two new slots. */
  lemma AppendedTwo(before: seq<Message>, first: Message, second: Message)
    ensures var after := before + [first] + [second];
            && |after| == |before| + 2 && after[..|before|] == before
            && after[|before|] == first && after[|before| + 1] == second
  {
    var after := before + [first] + [second];
    assert after[..|before|] == before;
  }

  /** A non-farewell turn with a negative reading escalates the conversation. */
  lemma RespondEscalates(withUser: Conversation, s: Sentiment.SentimentResult, queryType: Intent.QueryType,
                         topic: Intent.Topic, ticketId: Option<string>, replyAt: string)
    requires queryType != Intent.Farewell && s.sentiment == Sentiment.Negative
    ensures var r := Respond(withUser, s, queryType, topic, ticketId, replyAt);
            && r.conversation.status == Escalated && r.conversation.escalated
            && r.conversation.ticketType == Intent.Complaint
            && r.conversation.resolutionStatus == HumanFollowupRequired
            && r.conversation.sentiment == Sentiment.Negative
            && r.response == Knowledge.EscalationResponse
            && r.conversation.summary == Some(EscalationSummary(topic))
  {
  }

  /** A non-farewell turn with any other reading is answered, and status and flag stay as they were. */
  lemma RespondResolves(withUser: Conversation, s: Sentiment.SentimentResult, queryType: Intent.QueryType,
                        topic: Intent.Topic, ticketId: Option<string>, replyAt: string)
    requires queryType != Intent.Farewell && s.sentiment != Sentiment.Negative
    ensures var r := Respond(withUser, s, queryType, topic, ticketId, replyAt);
            && r.conversation.status == withUser.status && r.conversation.escalated == withUser.escalated
            && r.conversation.ticketType == queryType
            && r.conversation.resolutionStatus == AiResolved
            && r.conversation.sentiment == ResolvedLabel(s.sentiment)
            && r.response == Knowledge.GetKnowledgeResponse(Intent.TopicName(topic)) + FollowUpQuestion
            && r.conversation.summary == Some(ResolvedSummary(topic))
  {
  }

  /** A negative reading of the text escalates the conversation and answers with the escalation message. */
  lemma NegativeTurnEscalates(c: Conversation, text: string, userAt: string, replyAt: string, ticket: Trello.TicketCall)
    requires Sentiment.AnalyzeText(text).sentiment == Sentiment.Negative
    ensures var r := TextTurn(c, text, userAt, replyAt, ticket);
            && r.conversation.status == Escalated && r.conversation.escalated
            && r.conversation.ticketType == Intent.Complaint
            && r.conversation.resolutionStatus == HumanFollowupRequired
            && r.conversation.sentiment == Sentiment.Negative
            && r.response == Knowledge.EscalationResponse
            && r.conversation.summary == Some(EscalationSummary(Intent.ClassifyIntent(text).1))
  {
    var (queryType, topic) := Intent.ClassifyIntent(text);
    RespondEscalates(c.(messages := c.messages + [Message(User, text, userAt)]), Sentiment.AnalyzeText(text),
                     queryType, topic, Trello.CreateTrelloTicket(ticket), replyAt);
  }

  /**
   * Any other reading answers from the knowledge table and records the query type; status
   * and the escalation flag are left as they were.
   */
  lemma NonNegativeTurnResolves(c: Conversation, text: string, userAt: string, replyAt: string, ticket: Trello.TicketCall)
    requires Sentiment.AnalyzeText(text).sentiment != Sentiment.Negative
    ensures var r := TextTurn(c, text, userAt, replyAt, ticket);
            var (queryType, topic) := Intent.ClassifyIntent(text);
            && r.conversation.status == c.status && r.conversation.escalated == c.escalated
            && r.conversation.ticketType == queryType
            && r.conversation.resolutionStatus == AiResolved
            && r.conversation.sentiment == ResolvedLabel(r.sentiment.sentiment)
            && r.response == Knowledge.GetKnowledgeResponse(Intent.TopicName(topic)) + FollowUpQuestion
            && r.conversation.summary == Some(ResolvedSummary(topic))
  {
    var (queryType, topic) := Intent.ClassifyIntent(text);
    RespondResolves(c.(messages := c.messages + [Message(User, text, userAt)]), Sentiment.AnalyzeText(text),
                    queryType, topic, Trello.CreateTrelloTicket(ticket), replyAt);
  }

  /** The classifier never answers Farewell, so no typed turn closes a conversation. */
  lemma FarewellUnreachable(c: Conversation, text: string, userAt: string, replyAt: string, ticket: Trello.TicketCall)
    ensures Intent.ClassifyIntent(text).0 != Intent.Farewell
    ensures TextTurn(c, text, userAt, replyAt, ticket).conversation.status == Closed ==> c.status == Closed
  {
    if Sentiment.AnalyzeText(text).sentiment == Sentiment.Negative {
      NegativeTurnEscalates(c, text, userAt, replyAt, ticket);
    } else {
      NonNegativeTurnResolves(c, text, userAt, replyAt, ticket);
    }
  }

  /** A turn escalates exactly when the text reads negative; once escalated, a conversation stays escalated. */
  lemma EscalationFromOneReading(c: Conversation, text: string, userAt: string, replyAt: string, ticket: Trello.TicketCall)
    ensures TextTurn(c, text, userAt, replyAt, ticket).conversation.escalated
            <==> c.escalated || Sentiment.AnalyzeText(text).sentiment == Sentiment.Negative
  {
    if Sentiment.AnalyzeText(text).sentiment == Sentiment.Negative {
      NegativeTurnEscalates(c, text, userAt, replyAt, ticket);
    } else {
      NonNegativeTurnResolves(c, text, userAt, replyAt, ticket);
    }
  }

  /** A closed conversation still takes turns: a non-negative one leaves it closed and answers it. */
  lemma ClosedConversationStillAnswers(c: Conversation, text: string, userAt: string, replyAt: string, ticket: Trello.TicketCall)
    requires c.status == Closed
    requires Sentiment.AnalyzeText(text).sentiment != Sentiment.Negative
    ensures TextTurn(c, text, userAt, replyAt, ticket).conversation.status == Closed
    ensures TextTurn(c, text, userAt, replyAt, ticket).conversation.resolutionStatus == AiResolved
  {
    NonNegativeTurnResolves(c, text, userAt, replyAt, ticket);
  }

  /**
   * Closed is not final: a negative turn on a closed conversation that was never escalated
   * moves it to escalated and sets the flag.
   */
  lemma ClosedConversationEscalates(c: Conversation, text: string, userAt: string, replyAt: string, ticket: Trello.TicketCall)
    requires c.status == Closed && !c.escalated
    requires Sentiment.AnalyzeText(text).sentiment == Sentiment.Negative
    ensures TextTurn(c, text, userAt, replyAt, ticket).conversation.status == Escalated
    ensures TextTurn(c, text, userAt, replyAt, ticket).conversation.escalated
  {
    NegativeTurnEscalates(c, text, userAt, replyAt, ticket);
  }

  /**
   * A ticket request answered with a `null` card id leaves the turn without a ticket id, so a
   * later close requests another ticket.
   */
  lemma NullCardIdNeedsNewTicket(c: Conversation, text: string, userAt: string, replyAt: string,
                                 ticket: Trello.TicketCall, closing: Trello.TicketCall)
    requires Config.TrelloConfigured(ticket.config) && ticket.outcome == Http.Responded(Http.Ok, Trello.CardBody(Trello.IdNull))
    ensures TextTurn(c, text, userAt, replyAt, ticket).conversation.ticketId == None
    ensures CloseRecord(TextTurn(c, text, userAt, replyAt, ticket).conversation, closing).ticketId
            == Trello.CreateTrelloTicket(closing)
  {
    assert Trello.CreateTrelloTicket(ticket) == None;
    var turned := TextTurn(c, text, userAt, replyAt, ticket).conversation;
    assert NeedsTicket(turned);
  }

  /** A history that grew by exactly two given messages is the old one with those two appended. */
  lemma GrewByTwo(before: seq<Message>, after: seq<Message>, first: Message, second: Message)
    requires |after| == |before| + 2 && after[..|before|] == before
    requires after[|before|] == first && after[|before| + 1] == second
    ensures after == before + [first, second]
  {
    assert after == after[..|before|] + after[|before|..];
    assert after[|before|..] == [first, second];
  }

  /** The inputs of one typed turn. */
  datatype TurnInput = TurnInput(text: string, userAt: string, replyAt: string, ticket: Trello.TicketCall)

  /** A conversation after a run of typed turns, in order. */
  function Replay(c: Conversation, turns: seq<TurnInput>): Conversation
    decreases |turns|
  {
    if turns == [] then c
    else
      var t := turns[0];
      Replay(TextTurn(c, t.text, t.userAt, t.replyAt, t.ticket).conversation, turns[1..])
  }

  /**
   * Across any run of turns the history only grows, by two messages a turn, earlier messages
   * are kept, and the escalation flag is never cleared.
   */
  lemma {:induction false} ReplayKeepsHistory(c: Conversation, turns: seq<TurnInput>)
    ensures |Replay(c, turns).messages| == |c.messages| + 2 * |turns|
    ensures Replay(c, turns).messages[..|c.messages|] == c.messages
    ensures c.escalated ==> Replay(c, turns).escalated
    ensures Replay(c, turns).id == c.id && Replay(c, turns).createdAt == c.createdAt
    decreases |turns|
  {
    if turns != [] {
      var t := turns[0];
      var next := TextTurn(c, t.text, t.userAt, t.replyAt, t.ticket).conversation;
      TurnAppendsTwoMessages(c, t.text, t.userAt, t.replyAt, t.ticket);
      EscalationFromOneReading(c, t.text, t.userAt, t.replyAt, t.ticket);
      ReplayKeepsHistory(next, turns[1..]);
      assert Replay(c, turns) == Replay(next, turns[1..]);
      PrefixOfPrefix(c.messages, next.messages, Replay(next, turns[1..]).messages);
    }
  }

  /** A prefix of a prefix is a prefix. */
  lemma PrefixOfPrefix(a: seq<Message>, b: seq<Message>, c: seq<Message>)
    requires |a| <= |b| <= |c| && b[..|a|] == a && c[..|b|] == b
    ensures c[..|a|] == a
  {
    assert c[..|a|] == c[..|b|][..|a|];
  }

  /** `not conv_data.get("ticket_id")`: no ticket id, or an empty one. */
  predicate NeedsTicket(c: Conversation)
    ensures !NeedsTicket(c) ==> c.ticketId.Some? && |c.ticketId.value| > 0
  {
    MissingTicketId(c.ticketId)
  }

  /** A ticket id that Python reads as false: `None` or the empty string. */
  predicate MissingTicketId(id: Option<string>) {
    id == None || id == Some("")
  }

  /** The record update of `close_conversation`: closed, and given a ticket only when it has none. */
  function CloseRecord(c: Conversation, ticket: Trello.TicketCall): (r: Conversation)
    ensures r.status == Closed
    ensures !NeedsTicket(c) ==> r == c.(status := Closed)
    ensures NeedsTicket(c) ==> r == c.(status := Closed, ticketId := Trello.CreateTrelloTicket(ticket))
  {
    var closed := c.(status := Closed);
    if NeedsTicket(c) then closed.(ticketId := Trello.CreateTrelloTicket(ticket)) else closed
  }

  /** A second close changes nothing, unless the first one stored an empty card id. */
  lemma CloseIdempotent(c: Conversation, first: Trello.TicketCall, second: Trello.TicketCall)
    requires !NeedsTicket(c) || !MissingTicketId(Trello.CreateTrelloTicket(first))
    ensures CloseRecord(CloseRecord(c, first), second) == CloseRecord(c, first)
  {
  }

  /** `created_at` descending, in Python's string order. */
  predicate SortedByNewest(convs: seq<Conversation>) {
    forall i, j :: 0 <= i < j < |convs| ==> LexLe(convs[j].createdAt, convs[i].createdAt)
  }

  predicate Distinct(keys: seq<string>) {
    forall i, j :: 0 <= i < j < |keys| ==> keys[i] != keys[j]
  }

  /** The in-memory store of conversation records, keyed by conversation id. */
  class ConversationStore {
    var conversations: map<string, Conversation>

    constructor ()
      ensures conversations == map[]
    {
      conversations := map[];
    }

    /** `start_conversation`: stores a new session under its clock-derived id, replacing any record with that id. */
    method StartConversation(clock: Clock.Instant, now: string) returns (c: Conversation)
      modifies this
      ensures c == NewConversation(ConversationId(clock), now)
      ensures conversations == old(conversations)[c.id := c]
    {
      c := NewConversation(ConversationId(clock), now);
      conversations := conversations[c.id := c];
    }

    /** `process_message`: 404 for an unknown id, otherwise one typed turn stored back under the same id. */
    method ProcessMessage(id: string, text: string, userAt: string, replyAt: string, ticket: Trello.TicketCall)
      returns (r: Result<TurnReply, HttpError>)
      modifies this
      ensures id !in old(conversations) ==> r == Failure(NotFound) && conversations == old(conversations)
      ensures id in old(conversations) ==>
                && r == Success(TextTurn(old(conversations)[id], text, userAt, replyAt, ticket))
                && conversations == old(conversations)[id := r.value.conversation]
    {
      if id !in conversations {
        return Failure(NotFound);
      }
      var turn := TextTurn(conversations[id], text, userAt, replyAt, ticket);
      conversations := conversations[id := turn.conversation];
      r := Success(turn);
    }

    /** `close_conversation`: 404 for an unknown id, otherwise the closed record stored back. */
    method CloseConversation(id: string, ticket: Trello.TicketCall) returns (r: Result<Conversation, HttpError>)
      modifies this
      ensures id !in old(conversations) ==> r == Failure(NotFound) && conversations == old(conversations)
      ensures id in old(conversations) ==>
                && r == Success(CloseRecord(old(conversations)[id], ticket))
                && conversations == old(conversations)[id := r.value]
    {
      if id !in conversations {
        return Failure(NotFound);
      }
      var closed := CloseRecord(conversations[id], ticket);
      conversations := conversations[id := closed];
      r := Success(closed);
    }

    /** `get_conversation`: the stored record, or 404. */
    method GetConversation(id: string) returns (r: Result<Conversation, HttpError>)
      ensures id in conversations <==> r.Success?
      ensures id in conversations ==> r.value == conversations[id]
    {
      if id in conversations {
        r := Success(conversations[id]);
      } else {
        r := Failure(NotFound);
      }
    }

    /**
     * `get_conversations`: every stored record exactly once, newest first. `keys` names the
     * store entry each listed record comes from.
     */
    method GetConversations() returns (convs: seq<Conversation>, ghost keys: seq<string>)
      ensures |keys| == |convs| && Distinct(keys)
      ensures forall k :: k in keys <==> k in conversations
      ensures forall i :: 0 <= i < |keys| ==> keys[i] in conversations && convs[i] == conversations[keys[i]]
      ensures SortedByNewest(convs)
    {
      convs := [];
      keys := [];
      var remaining := conversations.Keys;
      while remaining != {}
        invariant remaining <= conversations.Keys
        invariant |keys| == |convs| && Distinct(keys)
        invariant forall k :: k in keys <==> k in conversations && k !in remaining
        invariant forall i :: 0 <= i < |keys| ==> keys[i] in conversations && convs[i] == conversations[keys[i]]
        invariant SortedByNewest(convs)
        decreases |remaining|
      {
        var k :| k in remaining;
        var c := conversations[k];
        var pos := InsertionPoint(convs, c.createdAt);
        InsertKeepsOrder(convs, c, pos);
        InsertKeepsPairing(keys, convs, pos, k, conversations);
        convs := convs[..pos] + [c] + convs[pos..];
        keys := keys[..pos] + [k] + keys[pos..];
        remaining := remaining - {k};
      }
    }
  }

  /** The first position whose record is not newer than `at`: inserting there keeps the list newest first. */
  method InsertionPoint(convs: seq<Conversation>, at: string) returns (pos: nat)
    requires SortedByNewest(convs)
    ensures pos <= |convs|
    ensures forall i :: 0 <= i < pos ==> LexLe(at, convs[i].createdAt)
    ensures forall i :: pos <= i < |convs| ==> LexLe(convs[i].createdAt, at)
  {
    pos := 0;
    while pos < |convs| && !LexLe(convs[pos].createdAt, at)
      invariant pos <= |convs|
      invariant forall i :: 0 <= i < pos ==> LexLe(at, convs[i].createdAt)
    {
      LexLeTotal(convs[pos].createdAt, at);
      pos := pos + 1;
    }
    forall i | pos <= i < |convs|
      ensures LexLe(convs[i].createdAt, at)
    {
      if pos < i {
        LexLeTransitive(convs[i].createdAt, convs[pos].createdAt, at);
      }
    }
  }

  /** Inserting a stored key and its record at the same position keeps keys distinct and paired with their records. */
  lemma InsertKeepsPairing(keys: seq<string>, convs: seq<Conversation>, pos: nat, k: string, m: map<string, Conversation>)
    requires |keys| == |convs| && Distinct(keys) && pos <= |keys|
    requires forall i :: 0 <= i < |keys| ==> keys[i] in m && convs[i] == m[keys[i]]
    requires k in m && k !in keys
    ensures var ks, cs := keys[..pos] + [k] + keys[pos..], convs[..pos] + [m[k]] + convs[pos..];
            && |ks| == |cs| && Distinct(ks)
            && (forall x :: x in ks <==> x in keys || x == k)
            && (forall i :: 0 <= i < |ks| ==> ks[i] in m && cs[i] == m[ks[i]])
  {
    var ks, cs := keys[..pos] + [k] + keys[pos..], convs[..pos] + [m[k]] + convs[pos..];
    assert keys == keys[..pos] + keys[pos..];
    forall i | 0 <= i < |ks|
      ensures ks[i] in m && cs[i] == m[ks[i]]
    {
      if i < pos {
        assert ks[i] == keys[i] && cs[i] == convs[i];
      } else if i > pos {
        assert ks[i] == keys[i - 1] && cs[i] == convs[i - 1];
      }
    }
    forall i, j | 0 <= i < j < |ks|
      ensures ks[i] != ks[j]
    {
      if j < pos {
        assert ks[i] == keys[i] && ks[j] == keys[j];
      } else if j == pos {
        assert ks[i] == keys[i];
      } else if i < pos {
        assert ks[i] == keys[i] && ks[j] == keys[j - 1];
      } else if i == pos {
        assert ks[j] == keys[j - 1];
      } else {
        assert ks[i] == keys[i - 1] && ks[j] == keys[j - 1];
      }
    }
  }

  /** Inserting a record at such a position keeps the list sorted newest first. */
  lemma InsertKeepsOrder(convs: seq<Conversation>, c: Conversation, pos: nat)
    requires SortedByNewest(convs) && pos <= |convs|
    requires forall i :: 0 <= i < pos ==> LexLe(c.createdAt, convs[i].createdAt)
    requires forall i :: pos <= i < |convs| ==> LexLe(convs[i].createdAt, c.createdAt)
    ensures SortedByNewest(convs[..pos] + [c] + convs[pos..])
  {
    var r := convs[..pos] + [c] + convs[pos..];
    forall i, j | 0 <= i < j < |r|
      ensures LexLe(r[j].createdAt, r[i].createdAt)
    {
      if j < pos {
        assert r[i] == convs[i] && r[j] == convs[j];
      } else if j == pos {
        assert r[i] == convs[i] && r[j] == c;
      } else if i < pos {
        assert r[i] == convs[i] && r[j] == convs[j - 1];
      } else if i == pos {
        assert r[i] == c && r[j] == convs[j - 1];
      } else {
        assert r[i] == convs[i - 1] && r[j] == convs[j - 1];
      }
    }
  }
}
