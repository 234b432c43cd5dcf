/**
 * Configuration records of the backend: the Deepgram and Trello client settings and the
 * application settings. Reading them from the environment is not part of this model; a
 * configuration is a given value.
 */
module Config {
  import opened Wrappers

  datatype DeepgramConfig = DeepgramConfig(apiKey: string, baseUrl: string, listenEndpoint: string)

  /** The configuration built from an API key with the defaults of the dataclass. */
  function DefaultDeepgramConfig(apiKey: string): (c: DeepgramConfig)
    ensures c.apiKey == apiKey
  {
    DeepgramConfig(apiKey, "https://api.deepgram.com/v1", "/listen")
  }

  /** Deepgram is usable exactly when an API key is set. */
  predicate DeepgramConfigured(c: DeepgramConfig) {
    c.apiKey != ""
  }

  /** Only the key decides: the URLs play no part, and without a key Deepgram is not configured. */
  lemma DeepgramConfiguredByKeyOnly(c: DeepgramConfig, baseUrl: string, listenEndpoint: string)
    ensures DeepgramConfigured(c.(baseUrl := baseUrl, listenEndpoint := listenEndpoint)) <==> DeepgramConfigured(c)
    ensures !DeepgramConfigured(c.(apiKey := ""))
  {
  }

  function ListenUrl(c: DeepgramConfig): (url: string)
    ensures |url| == |c.baseUrl| + |c.listenEndpoint|
    ensures url[..|c.baseUrl|] == c.baseUrl && url[|c.baseUrl|..] == c.listenEndpoint
  {
    c.baseUrl + c.listenEndpoint
  }

  lemma DefaultListenUrl(apiKey: string)
    ensures ListenUrl(DefaultDeepgramConfig(apiKey)) == "https://api.deepgram.com/v1/listen"
    ensures DeepgramConfigured(DefaultDeepgramConfig(apiKey)) <==> apiKey != ""
  {
  }

  datatype TrelloConfig = TrelloConfig(apiKey: string, token: string, listId: string, listIdDone: string, baseUrl: string)

  function DefaultTrelloConfig(apiKey: string, token: string, listId: string, listIdDone: string): (c: TrelloConfig)
    ensures c.apiKey == apiKey && c.token == token && c.listId == listId && c.listIdDone == listIdDone
  {
    TrelloConfig(apiKey, token, listId, listIdDone, "https://api.trello.com/1")
  }

  /** Trello is usable exactly when the key, the token and the target list are all set. */
  predicate TrelloConfigured(c: TrelloConfig) {
    c.apiKey != "" && c.token != "" && c.listId != ""
  }

  /** Each of the key, the token and the target list is needed, and together they suffice. */
  lemma TrelloConfiguredNeedsEachCredential(c: TrelloConfig)
    ensures !TrelloConfigured(c.(apiKey := "")) && !TrelloConfigured(c.(token := "")) && !TrelloConfigured(c.(listId := ""))
    ensures c.apiKey != "" && c.token != "" && c.listId != "" ==> TrelloConfigured(c)
  {
  }

  /** The list for finished cards plays no part in whether Trello is configured. */
  lemma TrelloConfiguredIgnoresDoneList(c: TrelloConfig, done: string)
    ensures TrelloConfigured(c.(listIdDone := done)) <==> TrelloConfigured(c)
  {
  }

  function CardsUrl(c: TrelloConfig): (url: string)
    ensures |url| == |c.baseUrl| + 6
    ensures url[..|c.baseUrl|] == c.baseUrl && url[|c.baseUrl|..] == "/cards"
  {
    c.baseUrl + "/cards"
  }

  lemma DefaultCardsUrl(apiKey: string, token: string, listId: string, listIdDone: string)
    ensures CardsUrl(DefaultTrelloConfig(apiKey, token, listId, listIdDone)) == "https://api.trello.com/1/cards"
  {
  }

  /** The application settings; construction runs the dataclass's post-initialisation. */
  class AppSettings {
    var host: string
    var port: int
    var appTitle: string
    /** `None` only between field assignment and post-initialisation. */
    var corsOrigins: Option<seq<string>>

    constructor (host: string, port: int, appTitle: string, corsOrigins: Option<seq<string>>)
      ensures this.host == host && this.port == port && this.appTitle == appTitle
      ensures this.corsOrigins == Some(if corsOrigins.None? then ["*"] else corsOrigins.value)
    {
      this.host := host;
      this.port := port;
      this.appTitle := appTitle;
      this.corsOrigins := corsOrigins;
      new;
      PostInit();
    }

    /** The settings with every field left at its default. */
    constructor Default()
      ensures host == "0.0.0.0" && port == 8001 && appTitle == "Assist Link API"
      ensures corsOrigins == Some(["*"])
    {
      host := "0.0.0.0";
      port := 8001;
      appTitle := "Assist Link API";
      corsOrigins := None;
      new;
      PostInit();
    }

    /** A missing origin list becomes `["*"]`; a given list, even an empty one, is kept. */
    method PostInit()
      modifies this`corsOrigins
      ensures old(corsOrigins).None? ==> corsOrigins == Some(["*"])
      ensures old(corsOrigins).Some? ==> corsOrigins == old(corsOrigins)
    {
      if corsOrigins.None? {
        corsOrigins := Some(["*"]);
      }
    }
  }
}
