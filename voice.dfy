/**
 * The voice turn: the audio is transcribed and scored by the speech service, a negative audio
 * reading escalates the conversation directly, and any other reading hands the transcript to
 * the typed turn. The two service outcomes, the timestamps and the ticket request outcome are
 * inputs.
 */
module Voice {
  import opened Wrappers
  import Strings
  import Config
  import Http
  import Deepgram
  import Intent
  import Knowledge
  import Sentiment
  import Trello
  import opened Conversations

  const TranscriptionErrorMessage := "Could not transcribe audio. Please try again or type your message."

  /** What the voice route answers once the conversation is found. */
  datatype VoiceReply =
    | VoiceAnswered(conversation: Conversation, sentiment: Sentiment.SentimentResult, transcript: string, response: string)
    | TranscriptionError(error: string)

  /** The summary of a voice escalation names the topic, with spaces for underscores. */
  function VoiceSummary(topic: Intent.Topic): (summary: string)
    ensures Strings.Contains(summary, Intent.TopicPhrase(topic))
  {
    var prefix := "Voice query about ";
    var summary := prefix + Intent.TopicPhrase(topic) + ". Negative sentiment detected via audio analysis. Escalated.";
    Strings.OccursAtContains(summary, Intent.TopicPhrase(topic), |prefix|);
    summary
  }

  /**
   * The record update of the negative-audio branch: the transcript and the escalation reply are
   * appended, the escalation fields are set without any turn handler, and the ticket id, the
   * topic title and the voice summary are stored.
   */
  function VoiceEscalation(c: Conversation, transcript: string, userAt: string, replyAt: string, ticket: Trello.TicketCall): (v: Conversation)
    ensures v.messages == c.messages + [Message(User, transcript, userAt), Message(Assistant, Knowledge.EscalationResponse, replyAt)]
    ensures v.status == Escalated && v.escalated && v.sentiment == Sentiment.Negative
    ensures v.ticketType == Intent.Complaint && v.resolutionStatus == HumanFollowupRequired
    ensures v.ticketId == Trello.CreateTrelloTicket(ticket)
    ensures v.title == Intent.TopicLabel(Intent.ClassifyIntent(transcript).1)
    ensures v.summary == Some(VoiceSummary(Intent.ClassifyIntent(transcript).1))
    ensures v.id == c.id && v.createdAt == c.createdAt
  {
    var topic := Intent.ClassifyIntent(transcript).1;
    c.(messages := c.messages + [Message(User, transcript, userAt), Message(Assistant, Knowledge.EscalationResponse, replyAt)],
       sentiment := Sentiment.Negative, status := Escalated, escalated := true,
       ticketType := Intent.Complaint, resolutionStatus := HumanFollowupRequired,
       ticketId := Trello.CreateTrelloTicket(ticket), title := Intent.TopicLabel(topic),
       summary := Some(VoiceSummary(topic)))
  }

  /**
   * `process_voice` once the conversation is found: no transcript is an error and nothing
   * else; a negative audio reading escalates; anything else is the typed turn on the
   * transcript, reported with the audio reading.
   */
  function VoiceTurn(c: Conversation, transcript: string, audio: Sentiment.SentimentResult,
                     userAt: string, replyAt: string, ticket: Trello.TicketCall): (r: VoiceReply)
    ensures transcript == "" <==> r == TranscriptionError(TranscriptionErrorMessage)
    ensures r.VoiceAnswered? ==> r.transcript == transcript && r.sentiment == audio
    ensures r.VoiceAnswered? ==>
              && r.conversation.ticketId == Trello.CreateTrelloTicket(ticket)
              && r.conversation.title == Intent.TopicLabel(Intent.ClassifyIntent(transcript).1)
              && r.conversation.id == c.id && r.conversation.createdAt == c.createdAt
    ensures transcript != "" && audio.sentiment == Sentiment.Negative ==>
              && r.VoiceAnswered?
              && |r.conversation.messages| == |c.messages| + 2
              && r.conversation.messages[..|c.messages|] == c.messages
              && r.conversation.messages[|c.messages|] == Message(User, transcript, userAt)
              && r.conversation.messages[|c.messages| + 1] == Message(Assistant, Knowledge.EscalationResponse, replyAt)
              && r.conversation.status == Escalated && r.conversation.escalated
              && r.conversation.ticketType == Intent.Complaint
              && r.conversation.resolutionStatus == HumanFollowupRequired
              && r.conversation.sentiment == Sentiment.Negative
              && r.conversation.summary == Some(VoiceSummary(Intent.ClassifyIntent(transcript).1))
              && r.response == Knowledge.EscalationResponse
    ensures transcript != "" && audio.sentiment != Sentiment.Negative ==>
              var t := TextTurn(c, transcript, userAt, replyAt, ticket);
              r == VoiceAnswered(t.conversation, audio, transcript, t.response)
  {
    if transcript == "" then
      TranscriptionError(TranscriptionErrorMessage)
    else if audio.sentiment == Sentiment.Negative then
      VoiceAnswered(VoiceEscalation(c, transcript, userAt, replyAt, ticket), audio, transcript, Knowledge.EscalationResponse)
    else
      var t := TextTurn(c, transcript, userAt, replyAt, ticket);
      VoiceAnswered(t.conversation, audio, transcript, t.response)
  }

  /**
   * When the typed text alone would also read negative, the voice escalation stores the same
   * record as a typed escalation, apart from its summary.
   */
  lemma VoiceEscalationMatchesTextEscalation(c: Conversation, transcript: string, audio: Sentiment.SentimentResult,
                                             userAt: string, replyAt: string, ticket: Trello.TicketCall)
    requires transcript != "" && audio.sentiment == Sentiment.Negative
    requires Sentiment.AnalyzeText(transcript).sentiment == Sentiment.Negative
    ensures VoiceTurn(c, transcript, audio, userAt, replyAt, ticket).conversation
            == TextTurn(c, transcript, userAt, replyAt, ticket).conversation.(summary := Some(VoiceSummary(Intent.ClassifyIntent(transcript).1)))
  {
    var t := TextTurn(c, transcript, userAt, replyAt, ticket);
    NegativeTurnEscalates(c, transcript, userAt, replyAt, ticket);
    TurnAppendsTwoMessages(c, transcript, userAt, replyAt, ticket);
    GrewByTwo(c.messages, t.conversation.messages, Message(User, transcript, userAt), Message(Assistant, t.response, replyAt));
    var v := VoiceEscalation(c, transcript, userAt, replyAt, ticket);
    assert v == t.conversation.(summary := v.summary);
  }

  /** A voice turn escalates when either reading that decides it is negative, and never clears the flag. */
  lemma VoiceEscalationFlag(c: Conversation, transcript: string, audio: Sentiment.SentimentResult,
                            userAt: string, replyAt: string, ticket: Trello.TicketCall)
    requires transcript != ""
    ensures VoiceTurn(c, transcript, audio, userAt, replyAt, ticket).conversation.escalated
            <==> c.escalated || audio.sentiment == Sentiment.Negative
                 || Sentiment.AnalyzeText(transcript).sentiment == Sentiment.Negative
  {
    EscalationFromOneReading(c, transcript, userAt, replyAt, ticket);
  }

  /**
   * `process_voice`: 404 for an unknown id; otherwise both speech-service requests are made,
   * and the store is written only when a transcript came back.
   */
  method ProcessVoice(store: ConversationStore, id: string, config: Config.DeepgramConfig,
                      transcription: Http.Outcome<Deepgram.Response>, analysis: Http.Outcome<Deepgram.Response>,
                      userAt: string, replyAt: string, ticket: Trello.TicketCall)
    returns (r: Result<VoiceReply, HttpError>)
    modifies store
    ensures id !in old(store.conversations) ==> r == Failure(NotFound) && store.conversations == old(store.conversations)
    ensures id in old(store.conversations) ==>
              var transcript := Deepgram.TranscribeAudio(config, transcription);
              var audio := Sentiment.AnalyzeSentimentDeepgram(config, analysis);
              && r == Success(VoiceTurn(old(store.conversations)[id], transcript, audio, userAt, replyAt, ticket))
              && (r.value.TranscriptionError? ==> store.conversations == old(store.conversations))
              && (r.value.VoiceAnswered? ==> store.conversations == old(store.conversations)[id := r.value.conversation])
  {
    if id !in store.conversations {
      return Failure(NotFound);
    }
    var transcript := Deepgram.TranscribeAudio(config, transcription);
    var audio := Sentiment.AnalyzeSentimentDeepgram(config, analysis);
    if transcript == "" {
      return Success(TranscriptionError(TranscriptionErrorMessage));
    }
    if audio.sentiment == Sentiment.Negative {
      var escalated := VoiceEscalation(store.conversations[id], transcript, userAt, replyAt, ticket);
      store.conversations := store.conversations[id := escalated];
      return Success(VoiceAnswered(escalated, audio, transcript, Knowledge.EscalationResponse));
    }
    var typed := store.ProcessMessage(id, transcript, userAt, replyAt, ticket);
    r := Success(VoiceAnswered(typed.value.conversation, audio, transcript, typed.value.response));
  }
}
