/**
 * The ticket issuer: `create_trello_ticket` asks Trello to create a card and falls back to a
 * locally generated id whenever Trello is not configured, answers with a status other than
 * 200, or the call raises. Failure never propagates to the caller.
 */
module Trello {
  import opened Wrappers
  import Config
  import Http
  import Clock

  /** The `"id"` key of a decoded card: missing, JSON `null`, or a string. */
  datatype CardId = IdMissing | IdNull | Id(value: string)

  /** The decoded body of a 200 response. */
  datatype CardBody = CardBody(id: CardId)

  /**
   * Everything one call of `create_trello_ticket` depends on: the configuration read at the
   * call, the outcome of the request it would send, and the clock reading a local id would use.
   */
  datatype TicketCall = TicketCall(config: Config.TrelloConfig, outcome: Http.Outcome<CardBody>, clock: Clock.Instant)

  /** `_generate_local_ticket_id`: `LOCAL-` followed by the fourteen-digit seconds stamp. */
  function LocalTicketId(t: Clock.Instant): (id: string)
    ensures |id| == 20 && id[..6] == "LOCAL-"
    ensures id[6..] == Clock.SecondsStamp(t) && Clock.AllDigits(id[6..])
  {
    "LOCAL-" + Clock.SecondsStamp(t)
  }

  /** Local ids issued in different seconds are different; within one second they collide. */
  lemma {:induction false} LocalTicketIdsDiffer(a: Clock.Instant, b: Clock.Instant)
    ensures LocalTicketId(a) == LocalTicketId(b) <==> Clock.SameSecond(a, b)
  {
    if LocalTicketId(a) == LocalTicketId(b) {
      assert LocalTicketId(a)[6..] == LocalTicketId(b)[6..];
      Clock.SecondsStampInjective(a, b);
    }
  }

  /**
   * The query parameters of the card-creation request. The `labels` argument is accepted and
   * never sent.
   */
  function CardParams(config: Config.TrelloConfig, title: string, description: string, labels: seq<string>): (params: map<string, string>)
    ensures params.Keys == {"key", "token", "idList", "name", "desc"}
    ensures params["key"] == config.apiKey && params["token"] == config.token && params["idList"] == config.listId
    ensures params["name"] == title && params["desc"] == description
  {
    map["key" := config.apiKey, "token" := config.token, "idList" := config.listId, "name" := title, "desc" := description]
  }

  lemma LabelsNeverSent(config: Config.TrelloConfig, title: string, description: string, labels: seq<string>, other: seq<string>)
    ensures "labels" !in CardParams(config, title, description, labels)
    ensures CardParams(config, title, description, labels) == CardParams(config, title, description, other)
  {
  }

  /**
   * `create_trello_ticket`: the card id Trello returned, or a local id. `card.get("id", ...)`
   * passes a JSON `null` through, so a configured 200 reply whose id is `null` gives no id.
   */
  function CreateTrelloTicket(call: TicketCall): (id: Option<string>)
    ensures !Config.TrelloConfigured(call.config) ==> id == Some(LocalTicketId(call.clock))
    ensures !Http.IsOk(call.outcome) ==> id == Some(LocalTicketId(call.clock))
    ensures Config.TrelloConfigured(call.config) && Http.IsOk(call.outcome) ==>
              match call.outcome.body.id
              case IdMissing => id == Some(LocalTicketId(call.clock))
              case IdNull => id == None
              case Id(value) => id == Some(value)
    ensures id.None? <==> Config.TrelloConfigured(call.config) && Http.IsOk(call.outcome) && call.outcome.body.id.IdNull?
  {
    if !Config.TrelloConfigured(call.config) then Some(LocalTicketId(call.clock))
    else match call.outcome
      case Raised => Some(LocalTicketId(call.clock))
      case Responded(status, card) =>
        if status != Http.Ok then Some(LocalTicketId(call.clock))
        else match card.id
          case IdMissing => Some(LocalTicketId(call.clock))
          case IdNull => None
          case Id(value) => Some(value)
  }

  /** Without a configuration no request is made: the outcome plays no part in the result. */
  lemma UnconfiguredIgnoresNetwork(call: TicketCall, other: Http.Outcome<CardBody>)
    requires !Config.TrelloConfigured(call.config)
    ensures CreateTrelloTicket(call.(outcome := other)) == CreateTrelloTicket(call) == Some(LocalTicketId(call.clock))
  {
  }

  /** When the reply supplies no id key, the ticket id is a local one with the `LOCAL-` prefix. */
  lemma FallbackIsLocal(call: TicketCall)
    requires !(Config.TrelloConfigured(call.config) && Http.IsOk(call.outcome) && !call.outcome.body.id.IdMissing?)
    ensures CreateTrelloTicket(call).Some? && CreateTrelloTicket(call).value[..6] == "LOCAL-"
  {
  }
}
