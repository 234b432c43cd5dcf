/**
 * Speech-to-text through Deepgram: the shape of the JSON a listen request returns, the
 * extraction of the transcript from it, and the fallbacks of `transcribe_audio_deepgram`,
 * which answer `""` whenever no usable transcript can be obtained.
 */
module Deepgram {
  import opened Wrappers
  import Config
  import Http

  /** A listen response. Each optional field is a JSON key that may be missing. */
  datatype Response = Response(results: Option<Results>)
  datatype Results = Results(channels: Option<seq<Channel>>)
  datatype Channel = Channel(alternatives: Option<seq<Alternative>>)
  datatype Alternative = Alternative(transcript: Option<string>, paragraphs: Option<ParagraphBlock>)
  datatype ParagraphBlock = ParagraphBlock(paragraphs: Option<seq<Paragraph>>)
  datatype Paragraph = Paragraph(sentences: Option<seq<Sentence>>)
  datatype Sentence = Sentence(sentiment: Option<string>)

  /** `result.get("results", {}).get("channels", [])`. */
  function Channels(r: Response): seq<Channel> {
    match r.results
    case None => []
    case Some(res) => res.channels.GetOr([])
  }

  /** `channel.get("alternatives", [])`. */
  function Alternatives(c: Channel): seq<Alternative> {
    c.alternatives.GetOr([])
  }

  /** `alt.get("paragraphs", {}).get("paragraphs", [])`. */
  function Paragraphs(a: Alternative): seq<Paragraph> {
    match a.paragraphs
    case None => []
    case Some(block) => block.paragraphs.GetOr([])
  }

  /** `para.get("sentences", [])`. */
  function Sentences(p: Paragraph): seq<Sentence> {
    p.sentences.GetOr([])
  }

  /** `_extract_transcript`: the transcript of the first alternative of the first channel, or `""`. */
  function ExtractTranscript(r: Response): (transcript: string)
    ensures Channels(r) == [] ==> transcript == ""
    ensures Channels(r) != [] && Alternatives(Channels(r)[0]) == [] ==> transcript == ""
    ensures Channels(r) != [] && Alternatives(Channels(r)[0]) != []
            ==> transcript == Alternatives(Channels(r)[0])[0].transcript.GetOr("")
  {
    var channels := Channels(r);
    if channels != [] then
      var alternatives := Alternatives(channels[0]);
      if alternatives != [] then alternatives[0].transcript.GetOr("") else ""
    else ""
  }

  /** Only the first channel counts: replacing the later channels does not change the transcript. */
  lemma TranscriptFromFirstChannelOnly(first: Channel, rest: seq<Channel>, other: seq<Channel>)
    ensures ExtractTranscript(Response(Some(Results(Some([first] + rest)))))
         == ExtractTranscript(Response(Some(Results(Some([first] + other)))))
  {
  }

  /** A transcript is non-empty only when the first alternative of the first channel carries it. */
  lemma NonEmptyTranscriptHasSource(r: Response)
    requires ExtractTranscript(r) != ""
    ensures Channels(r) != [] && Alternatives(Channels(r)[0]) != []
    ensures Alternatives(Channels(r)[0])[0].transcript == Some(ExtractTranscript(r))
  {
  }

  /** `transcribe_audio_deepgram`: the transcript, or `""` without a configuration, on a status other than 200, or on an exception. */
  function TranscribeAudio(config: Config.DeepgramConfig, outcome: Http.Outcome<Response>): (transcript: string)
    ensures !Config.DeepgramConfigured(config) ==> transcript == ""
    ensures !Http.IsOk(outcome) ==> transcript == ""
    ensures Config.DeepgramConfigured(config) && Http.IsOk(outcome) ==> transcript == ExtractTranscript(outcome.body)
  {
    if !Config.DeepgramConfigured(config) then ""
    else match outcome
      case Raised => ""
      case Responded(status, body) => if status == Http.Ok then ExtractTranscript(body) else ""
  }

  /** Without an API key no request is made: the outcome plays no part in the result. */
  lemma UnconfiguredTranscribesNothing(config: Config.DeepgramConfig, o1: Http.Outcome<Response>, o2: Http.Outcome<Response>)
    requires !Config.DeepgramConfigured(config)
    ensures TranscribeAudio(config, o1) == TranscribeAudio(config, o2) == ""
  {
  }
}
