# Assist Link conversation core, modelled in Dafny

Assist Link is a credit-card support agent. Its backend keeps conversation sessions in an
in-memory store, keyed by id. Each typed or spoken turn goes through the same steps:

- the customer's text is scored for sentiment by keyword counting;
- the text is classified against a fixed, ordered rule table (the complaint rules first,
  then the informational rules, then a fallback);
- the reply is a canned knowledge answer or an escalation message;
- a Trello ticket is requested, with a local `LOCAL-<timestamp>` id when that request
  fails.

Voice turns are first transcribed by Deepgram. Deepgram's audio sentiment, taken as a
majority vote over its sentences, can escalate the conversation directly.

This project models that core as the code behaves and proves properties of the model.
Its modules follow the source files. `Intent` and `Knowledge` share one service file,
and `Strings`, `Clock`, `Wrappers` and `Http` are support modules with no source file of
their own:

| module | models |
|---|---|
| `Intent`, `Knowledge` | the rule tables, `classify_intent`, the knowledge table and `get_knowledge_response` |
| `Sentiment` | `analyze_sentiment_from_text`, `_extract_sentiments` (four nested loops, as methods with invariants), `_aggregate_sentiments` and the fallback decisions of `analyze_sentiment_deepgram` |
| `Conversations` | the record updates of the conversation routes, and the store as a class whose route methods change a `map<string, Conversation>` |
| `Voice` | `process_voice` |
| `Trello`, `Deepgram`, `Http` | the ticket-id and transcript fallback decisions over an abstract request outcome |
| `Config` | the configuration records, their predicates and URLs, and `AppSettings` with its post-initialisation |
| `Strings`, `Clock`, `Wrappers` | Python string operations, `strftime` stamps, `Option` and `Result` |

The outside world is passed in as parameters:

- each clock reading is a `Clock.Instant` (a date and time whose fields are each within range), and each ISO
  timestamp is an opaque string;
- each HTTP exchange is an `Http.Outcome`: an exception, or a status code with a decoded
  body;
- each ticket request is a `Trello.TicketCall`: configuration, outcome and clock reading.

## Model

| member | source | states |
|---|---|---|
| Strings.Lower | backend/services/conversation.py:66 | `str.lower` on ASCII: same length, and every character mapped to its lower-case form |
| Strings.LowerIdempotent | backend/services/sentiment.py:20 | lower-casing twice is the same as lower-casing once |
| Strings.ReplaceChar | backend/routes/conversations.py:70 | `replace` of one character: same length; each occurrence is replaced and every other character is kept |
| Strings.Contains | backend/services/conversation.py:68-76 | Python's `w in s`: the empty word occurs in every text, and a word longer than the text never occurs |
| Strings.TitleFrom | backend/routes/conversations.py:70 | `title()` keeps the length; each cased character is lower-cased after a cased character and upper-cased otherwise, and every other character is kept |
| Strings.TitleChangesOnlyCase | backend/routes/conversations.py:70 | `title()` changes only letter case, and capitalises a leading lower-case letter |
| Strings.LexLeTotal | backend/routes/conversations.py:158 | Python's string order compares any two strings |
| Strings.LexLeTransitive | backend/routes/conversations.py:158 | Python's string order is transitive |
| Clock.SecondsStamp | backend/services/trello.py:46 | `%Y%m%d%H%M%S` is fourteen digits |
| Clock.MicrosStamp | backend/routes/conversations.py:31 | `%Y%m%d%H%M%S%f` is twenty digits |
| Clock.SecondsStampInjective | backend/services/trello.py:46 | equal seconds stamps come from readings in the same second |
| Clock.MicrosStampInjective | backend/routes/conversations.py:31 | equal microsecond stamps come from equal readings |
| Config.DefaultDeepgramConfig | backend/config.py:6-10 | a Deepgram configuration built from a key keeps that key |
| Config.ListenUrl | backend/config.py:16-18 | the listen URL is the base URL followed by the listen endpoint |
| Config.DefaultListenUrl | backend/config.py:8-18 | the default listen URL is `https://api.deepgram.com/v1/listen`; Deepgram is configured exactly when the key is non-empty |
| Config.DeepgramConfiguredByKeyOnly | backend/config.py:12-14 | `is_configured` depends on the key alone and is false without one |
| Config.DefaultTrelloConfig | backend/config.py:21-28 | a Trello configuration keeps the key, token and lists it is built from |
| Config.TrelloConfiguredNeedsEachCredential | backend/config.py:30-32 | `is_configured` needs each of the key, the token and the target list, and the three together suffice |
| Config.TrelloConfiguredIgnoresDoneList | backend/config.py:30-32 | whether Trello is configured does not depend on the done-list id |
| Config.CardsUrl | backend/config.py:34-36 | the cards URL is the base URL followed by `/cards` |
| Config.DefaultCardsUrl | backend/config.py:27-36 | the default cards URL is `https://api.trello.com/1/cards` |
| Config.AppSettings.constructor | backend/config.py:39-48 | the given fields are kept; a missing origin list becomes `["*"]` |
| Config.AppSettings.Default | backend/config.py:41-48 | the defaults are host `0.0.0.0`, port 8001, title `Assist Link API` and origins `["*"]` |
| Config.AppSettings.PostInit | backend/config.py:46-48 | a missing origin list becomes `["*"]`; a given list, even an empty one, is kept |
| Trello.LocalTicketId | backend/services/trello.py:45-46 | a local id is `LOCAL-` followed by the fourteen-digit seconds stamp |
| Trello.LocalTicketIdsDiffer | backend/services/trello.py:45-46 | two local ids are equal exactly when they were issued in the same second |
| Trello.CardParams | backend/services/trello.py:21-27 | the request carries exactly key, token, list, name and description; a fact about this builder alone, since `Trello.CreateTrelloTicket` abstracts the request and takes no title, description or labels |
| Trello.LabelsNeverSent | backend/services/trello.py:9-27 | the labels argument is never sent and does not change the request; about this builder alone, as above |
| Trello.CreateTrelloTicket | backend/services/trello.py:9-42 | a configured call answered with status 200 returns the card's `"id"`: the string when one is given, no id when it is `null`, a local id when the key is missing. Every other case (not configured, other status, exception) gives a local id. The result is no id exactly in the `null` case |
| Trello.UnconfiguredIgnoresNetwork | backend/services/trello.py:16-17 | without a configuration the outcome plays no part and the id is local |
| Trello.FallbackIsLocal | backend/services/trello.py:16-46 | whenever the reply supplies no `"id"` key, or is not used at all, the id starts with `LOCAL-` |
| Deepgram.ExtractTranscript | backend/services/deepgram.py:33-39 | the transcript of the first alternative of the first channel; `""` when there are no channels, no alternatives or no transcript key |
| Deepgram.TranscriptFromFirstChannelOnly | backend/services/deepgram.py:35-38 | channels after the first never change the transcript |
| Deepgram.NonEmptyTranscriptHasSource | backend/services/deepgram.py:33-39 | a non-empty transcript is exactly the first alternative's transcript |
| Deepgram.TranscribeAudio | backend/services/deepgram.py:6-30 | `""` without a key, on a status other than 200, or on an exception; otherwise the extracted transcript |
| Deepgram.UnconfiguredTranscribesNothing | backend/services/deepgram.py:9-10 | without a key the outcome plays no part and the transcript is `""` |
| Sentiment.WordLists | backend/services/sentiment.py:6-16 | neither word list repeats a word, and every strong word is also a negative word |
| Sentiment.CountFound | backend/services/sentiment.py:22-23 | the count is at most the number of listed words, and zero exactly when none of them occurs |
| Sentiment.CountFoundIsSetSize | backend/services/sentiment.py:22-23 | a count is the number of distinct list words that occur, not the number of occurrences |
| Sentiment.CountFoundMonotone | backend/services/sentiment.py:22-23 | a sub-list never finds more words than the list that contains it |
| Sentiment.StrongAtMostNegative | backend/services/sentiment.py:22-23 | the strong count never exceeds the negative count |
| Sentiment.AnalyzeText | backend/services/sentiment.py:19-42 | never neutral. Negative iff some strong word or at least three negative words occur. Mixed iff one or two negative words occur and no strong word. Positive iff no negative word occurs. The confidence is fixed per label |
| Sentiment.AnalyzeTextIgnoresCase | backend/services/sentiment.py:20 | scoring ignores letter case |
| Sentiment.NothingFoundInEmpty | backend/services/sentiment.py:22-23 | no non-empty word occurs in the empty text |
| Sentiment.EmptyTextIsPositive | backend/services/sentiment.py:37-42 | the empty text is positive |
| Sentiment.RepeatedWordCountsOnce | backend/services/sentiment.py:22-36 | "angry angry angry" counts one negative word and is mixed |
| Sentiment.SentenceLabelsPointwise | backend/services/sentiment.py:100-101 | one label per sentence, in order, `neutral` when the sentence has none |
| Sentiment.AppendSentenceLabels | backend/services/sentiment.py:100-101 | the innermost loop appends the labels of the sentences in order |
| Sentiment.AppendParagraphLabels | backend/services/sentiment.py:99-101 | the paragraph loop appends the labels of every paragraph in order |
| Sentiment.AppendAlternativeLabels | backend/services/sentiment.py:98-101 | the alternative loop appends the labels of every alternative in order |
| Sentiment.ExtractSentiments | backend/services/sentiment.py:94-102 | the result is the labels of all sentences in channel, alternative, paragraph, sentence order; missing levels contribute nothing |
| Sentiment.Count | backend/services/sentiment.py:106-107 | `list.count`: at most the length, and zero exactly when the label does not occur |
| Sentiment.CountIsMultiplicity | backend/services/sentiment.py:106-107 | `list.count` is the multiplicity in the multiset of labels |
| Sentiment.CountsBounded | backend/services/sentiment.py:106-108 | the counts of two different labels add up to at most the total |
| Sentiment.AggregateSentiments | backend/services/sentiment.py:105-127 | on a non-empty list: negative iff more than half are negative; positive iff more than half are positive (so the two exclude each other); otherwise neutral; never mixed; the confidence is the ratio, or 0.6 for neutral |
| Sentiment.AggregateIgnoresOrder | backend/services/sentiment.py:105-127 | the vote depends only on the multiset of labels |
| Sentiment.AnalyzeSentimentDeepgram | backend/services/sentiment.py:45-91 | neutral with confidence 0.5 without a key, on a status other than 200, or on an exception; neutral with 0.6 when the response contains no sentences; otherwise the vote over the extracted labels; never mixed, and negative iff more than half of the labels are negative |
| Intent.TopicPhrase | backend/routes/conversations.py:101 | the topic key with each underscore replaced by a space and every other character kept; no underscore is left |
| Intent.TopicLabel | backend/routes/conversations.py:70 | the title is the topic phrase with only letter case changed, of the key's length, starting with a capital |
| Intent.FirstComplaintFrom | backend/services/conversation.py:68-70 | the topic of the first complaint rule from a position on that matches; none iff no later rule matches |
| Intent.FirstInformationalFrom | backend/services/conversation.py:72-76 | the topic of the first informational rule from a position on that matches; none iff no later rule matches |
| Intent.ClassifyIntent | backend/services/conversation.py:65-78 | total and never farewell. Complaint iff some complaint keyword occurs in the lower-cased text, with the topic of the first such rule. Otherwise the topic of the first informational rule whose required words all occur and one of whose any-of words occurs, or bill generation when none does |
| Intent.ClassifyPairsTopicWithType | backend/services/conversation.py:38-78 | complaint topics come only with the complaint type, informational topics only with the informational type |
| Intent.ClassifyIgnoresCase | backend/services/conversation.py:66 | classifying a text and its lower-case form gives the same result |
| Intent.ComplaintTakesPrecedence | backend/services/conversation.py:68-76 | "wrong bill date" is an incorrect-billing complaint, although it also fits an informational rule |
| Intent.FirstComplaintRuleWins | backend/services/conversation.py:38-70 | "double refund" fits two complaint rules, and the earlier one, double deduction, wins |
| Intent.BillRuleBeforeDueRule | backend/services/conversation.py:45-76 | "bill due date" fits both the bill-generation rule and the due-date rule, and bill generation wins |
| Intent.DueDateQuestion | backend/services/conversation.py:45-76 | "due date" fits none of the first three informational rules and is a due-date question |
| Intent.OweInsideHowever | backend/services/conversation.py:54-74 | matching is by plain substring: "owe" inside "however" makes it an outstanding-balance question |
| Intent.FallbackIsBillGeneration | backend/services/conversation.py:78 | a text that fits no rule is informational, about bill generation |
| Knowledge.GetKnowledgeResponse | backend/services/conversation.py:81-85 | the stored answer for a key in the table, the default answer for any other key |
| Knowledge.EveryTopicHasKnowledge | backend/services/conversation.py:1-85 | every topic the classifier can return is a key of the table, and its answer is the table's entry for that key |
| Knowledge.KnowledgeNotDefault | backend/services/conversation.py:1-85 | for every topic the classifier can return, the answer is not the default request for details |
| Conversations.ConversationId | backend/routes/conversations.py:31 | the id is `conv-` followed by the twenty-digit microsecond stamp |
| Conversations.ConversationIdsDiffer | backend/routes/conversations.py:31 | sessions started at different microseconds get different ids |
| Conversations.NewConversation | backend/routes/conversations.py:34-49 | a new session is active, neutral, informational and in progress; it is not escalated, has no ticket and no summary, and holds only the greeting |
| Conversations.HandleFarewell | backend/routes/conversations.py:170-185 | closes the session as AI-resolved, sets the farewell summary and appends the farewell reply. An untitled session becomes "Support Session", any other title is kept, and the title is never the untitled one afterwards. Id, creation time, ticket, sentiment, type and flag are kept |
| Conversations.HandleEscalation | backend/routes/conversations.py:188-204 | sets negative, escalated and the flag, the complaint type, human follow-up and the topic title, and appends the escalation reply; id, creation time, ticket and summary are kept |
| Conversations.ResolvedLabel | backend/routes/conversations.py:214 | the stored label is mixed iff the reading is mixed, and positive otherwise |
| Conversations.HandleResolved | backend/routes/conversations.py:207-230 | records the query type, the topic title, AI resolution and mixed-or-positive, and appends the knowledge answer followed by the follow-up question; status, flag, id, creation time, ticket and summary are kept |
| Conversations.EscalationSummary | backend/routes/conversations.py:100-103 | the escalation summary names the topic phrase |
| Conversations.ResolvedSummary | backend/routes/conversations.py:118-120 | the resolved summary names the topic phrase |
| Conversations.Respond | backend/routes/conversations.py:72-120 | whichever branch is taken, exactly one reply is appended to the history, the reading is reported, and the ticket id of the turn is stored; id and creation time are kept; outside the farewell branch the title is the topic label |
| Conversations.RespondEscalates | backend/routes/conversations.py:85-103 | with a negative reading outside the farewell branch, the session is escalated and answered with the escalation message and summary |
| Conversations.RespondResolves | backend/routes/conversations.py:104-120 | with any other reading outside the farewell branch, the session is answered from the knowledge table; status and flag stay as they were |
| Conversations.TextTurn | backend/routes/conversations.py:61-122 | on every turn the sentiment is the text reading, the title is the topic label, and the ticket id is replaced by what this turn's request returns, no id included; id and creation time are kept |
| Conversations.TurnAppendsTwoMessages | backend/routes/conversations.py:62-228 | a turn appends exactly two messages, the user's text and then the reply, and keeps the earlier messages |
| Conversations.NegativeTurnEscalates | backend/routes/conversations.py:85-103 | a negative reading escalates: status, flag, complaint type, human follow-up, negative label, the escalation reply and the escalation summary |
| Conversations.NonNegativeTurnResolves | backend/routes/conversations.py:104-120 | any other reading leaves status and flag as they were. It records the query type and AI resolution, stores mixed or positive, and answers with the knowledge text plus the follow-up question and the resolved summary |
| Conversations.FarewellUnreachable | backend/routes/conversations.py:72-84 | the classifier never answers farewell, so no turn closes a conversation that was not already closed |
| Conversations.EscalationFromOneReading | backend/routes/conversations.py:85-120 | after a turn the flag is set iff it was set before or this one reading is negative |
| Conversations.ClosedConversationStillAnswers | backend/routes/conversations.py:55-128 | a closed conversation still takes turns; a non-negative one leaves it closed and AI-resolved |
| Conversations.ClosedConversationEscalates | backend/routes/conversations.py:85-86 | a negative turn on a closed conversation that was never escalated moves it to escalated and sets the flag |
| Conversations.NullCardIdNeedsNewTicket | backend/routes/conversations.py:113-139 | a ticket request answered with a `null` card id leaves the turn without a ticket id, and a later close requests another ticket |
| Conversations.ReplayKeepsHistory | backend/routes/conversations.py:55-128 | over any run of turns the history grows by two messages a turn, earlier messages are kept, the escalation flag is never cleared, and id and creation time stay |
| Conversations.NeedsTicket | backend/routes/conversations.py:139 | a conversation that does not need a ticket has a non-empty ticket id |
| Conversations.CloseRecord | backend/routes/conversations.py:137-149 | closing sets the status to closed; it requests a ticket only when the ticket id is missing or empty, and otherwise keeps it |
| Conversations.CloseIdempotent | backend/routes/conversations.py:137-149 | a second close changes nothing, unless the first close stored an empty ticket id or none |
| Conversations.ConversationStore.StartConversation | backend/routes/conversations.py:29-52 | the new session is stored under its id, replacing any record with that id |
| Conversations.ConversationStore.ProcessMessage | backend/routes/conversations.py:55-128 | an unknown id gives 404 and leaves the store unchanged; otherwise the turn's record is stored back under the same id and nothing else changes |
| Conversations.ConversationStore.CloseConversation | backend/routes/conversations.py:131-152 | an unknown id gives 404 and leaves the store unchanged; otherwise the closed record is stored back |
| Conversations.ConversationStore.GetConversation | backend/routes/conversations.py:162-167 | the stored record iff the id is present, and 404 otherwise |
| Conversations.ConversationStore.GetConversations | backend/routes/conversations.py:155-159 | every stored record exactly once, ordered by creation time, newest first |
| Conversations.InsertKeepsPairing | backend/routes/conversations.py:157-158 | inserting a stored key and its record at the same position keeps the keys distinct and each paired with its stored record |
| Conversations.InsertionPoint | backend/routes/conversations.py:158 | the insertion point for a creation time in a list sorted newest first: newer records before it, the rest after |
| Conversations.InsertKeepsOrder | backend/routes/conversations.py:158 | inserting a record at that point keeps the list sorted newest first |
| Voice.VoiceSummary | backend/routes/voice.py:73-76 | the voice summary names the topic phrase |
| Voice.VoiceEscalation | backend/routes/voice.py:37-76 | the transcript and the escalation reply are appended. Negative, escalated, the flag, the complaint type and human follow-up are set. The ticket id, the topic title and the voice summary are stored. Id and creation time are kept |
| Voice.VoiceTurn | backend/routes/voice.py:29-98 | no transcript gives the error and nothing else. A negative audio reading appends the transcript and the escalation reply and sets the escalation fields, the topic title, the ticket id and the voice summary. Any other reading gives exactly the typed turn on the transcript, reported with the audio reading |
| Voice.VoiceEscalationMatchesTextEscalation | backend/routes/voice.py:34-85 | when the transcript alone also reads negative, the voice escalation stores the same record as a typed escalation, apart from the summary |
| Voice.VoiceEscalationFlag | backend/routes/voice.py:34-98 | after a voice turn the flag is set iff it was set, the audio reading is negative, or the typed reading of the transcript is negative |
| Voice.ProcessVoice | backend/routes/voice.py:16-98 | an unknown id gives 404 and leaves the store unchanged. When the conversation exists but nothing is transcribed, the store is not touched. Otherwise the voice turn's record is stored under the id |

## Code and design differ

The model follows the code. In these places the code does not do what the system's design
describes:

- A single negative reading escalates a conversation (`Conversations.EscalationFromOneReading`).
  There is no count of consecutive negative turns and no turn limit.
- Turns are never refused, and closed is not a final state. A non-negative turn on a
  closed conversation leaves it closed (`Conversations.ClosedConversationStillAnswers`). A
  negative one moves it from closed to escalated and sets the flag
  (`Conversations.ClosedConversationEscalates`); the voice route does the same. An escalated
  conversation keeps getting
  automated answers. A later non-negative turn then sets `resolution_status` to
  `ai_resolved` while `escalated` stays true (`Conversations.NonNegativeTurnResolves`).
- Every turn requests a new ticket, and its id replaces the previous one
  (`Conversations.TextTurn`). Ticketing is not limited to one request per conversation.
- The farewell branch of `process_message` cannot be taken (`Conversations.FarewellUnreachable`).
  No turn ever closes a conversation.
- Local ticket ids use a `YYYYmmddHHMMSS` stamp, not a Unix timestamp (`Trello.LocalTicketId`).
  Two fallbacks in the same second give the same id (`Trello.LocalTicketIdsDiffer`).

## Left out

- HTTP requests, `asyncio.gather`, the JSON decoding of response bodies, and reading
  settings from the environment. Each exchange is an input outcome and each configuration
  is a given value.
- `datetime.now()`: clock readings and ISO timestamps are inputs. `Clock.Instant` assumes
  a four-digit year.
- The ticket title and description texts: they only format a request payload. A ticket
  request is the `Trello.TicketCall` outcome passed to each turn.
- The `details` text of a sentiment result; status codes and exception messages appear
  only there.
- Floating point: each confidence is an exact fraction. `Sentiment.AggregateSentiments`
  states the test `count / total > 0.5` as `2 * count > total`. The two agree for totals
  below 2^53.
- `Strings.Lower`, `Strings.TitleFrom`: only ASCII letters change case. Python's Unicode case
  mapping is not modelled.
- JSON `null` in Deepgram responses, and any key holding a value of the wrong type. A Trello
  card's `"id"` may be `null` and is modelled (`Trello.CardId`); every other key is only
  present or absent. The uncovered cases still reach the modelled results. A null
  `"channels"` gives `""`. A null `"transcript"` comes back as `None`, which the voice route
  treats like `""`. A null `"results"` raises, as does a null list that the sentiment
  extraction iterates over, so both end in the exception fallback. A null sentence sentiment
  counts like `neutral` in the vote.
- Trello.CreateTrelloTicket: a card `"id"` that is a number or some other non-string value
  would be returned as is; the model only has string ids.
- `Conversations.ConversationStore.GetConversations`: the order of records with equal
  creation times is not stated. Python's stable sort would keep the dict's insertion
  order, and the store is a map without one.
- The store holds records as values. The source mutates the same dict object that the
  store holds. When requests do not interleave, both give the same stored result. The store
  module itself (`backend.store`) is not part of this model.
- Each route is one atomic step. In the source every route awaits between changing the
  record in place and writing it back: the ticket request in `process_message` and
  `close_conversation`, and in `process_voice` also the audio read and the two speech
  requests after the record is fetched. Two requests on the same id can interleave there.
  The model does not capture that interleaving: one turn's reply can then report another
  turn's response, and a later turn can overwrite an earlier one's ticket id and summary.
- `Conversations.FarewellResponse`: the farewell text is imported by the conversation
  routes but does not appear in any of the service files, so its value is left open. The
  branch that would use it cannot be taken.
- The `CREDIT_CARD_KNOWLEDGE` dict is the lookup function `Knowledge.CreditCardKnowledge`:
  the dict's answer for each of its eight keys, and nothing for any other key.
- The application wiring in `backend/main.py` and the pass-through routes
  `backend/routes/health.py` and `backend/routes/sentiment.py`.
