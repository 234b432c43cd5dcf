/**
 * Sentiment of a conversation turn. Typed text is scored locally by keyword counting against
 * two word lists; spoken audio is scored by Deepgram per sentence and the sentence labels are
 * combined by a strict-majority vote. Confidences are kept as exact fractions.
 */
module Sentiment {
  import opened Wrappers
  import opened Strings
  import Config
  import Http
  import Deepgram

  datatype Label = Positive | Neutral | Negative | Mixed

  /** A confidence value `numerator / denominator`. */
  datatype Confidence = Confidence(numerator: nat, denominator: nat)

  /** What the classifiers report; the free-text `details` are not modelled. */
  datatype SentimentResult = SentimentResult(sentiment: Label, confidence: Confidence)

  const NegativeWords: seq<string> := [
    "angry", "frustrated", "annoyed", "terrible", "horrible", "worst",
    "hate", "ridiculous", "unacceptable", "disgusting", "furious",
    "outraged", "stupid", "useless", "pathetic", "scam", "fraud",
    "steal", "cheat", "liar", "incompetent", "never", "nothing", "waste"
  ]

  const StrongNegativeWords: seq<string> := [
    "furious", "outraged", "scam", "fraud", "steal",
    "cheat", "liar", "pathetic", "disgusting"
  ]

  predicate NoDuplicates(words: seq<string>) {
    forall i, j :: 0 <= i < j < |words| ==> words[i] != words[j]
  }

  /** How many entries of `words` occur in `text`: distinct entries, not occurrences. */
  function CountFound(words: seq<string>, text: string): (n: nat)
    ensures n <= |words|
    ensures n == 0 <==> forall i :: 0 <= i < |words| ==> !Contains(text, words[i])
  {
    if words == [] then 0
    else (if Contains(text, words[0]) then 1 else 0) + CountFound(words[1..], text)
  }

  /** The entries of `words` that occur in `text`. */
  function FoundSet(words: seq<string>, text: string): set<string> {
    set w | w in words && Contains(text, w)
  }

  /** For a list without repeated entries, the count is the number of distinct words found. */
  lemma {:induction false} CountFoundIsSetSize(words: seq<string>, text: string)
    requires NoDuplicates(words)
    ensures CountFound(words, text) == |FoundSet(words, text)|
  {
    if words != [] {
      var rest := words[1..];
      assert NoDuplicates(rest) by {
        forall i, j | 0 <= i < j < |rest| ensures rest[i] != rest[j] {
          assert rest[i] == words[i + 1] && rest[j] == words[j + 1];
        }
      }
      CountFoundIsSetSize(rest, text);
      assert words[0] !in rest by {
        forall i | 0 <= i < |rest| ensures rest[i] != words[0] {
          assert rest[i] == words[i + 1];
        }
      }
      if Contains(text, words[0]) {
        assert FoundSet(words, text) == FoundSet(rest, text) + {words[0]};
      } else {
        assert FoundSet(words, text) == FoundSet(rest, text);
      }
    }
  }

  lemma {:induction false} SubsetSize<T>(a: set<T>, b: set<T>)
    requires a <= b
    ensures |a| <= |b|
    decreases |b|
  {
    if b != {} {
      var x :| x in b;
      SubsetSize(a - {x}, b - {x});
    }
  }

  /** Counting a list contained in another finds no more words than counting the other. */
  lemma CountFoundMonotone(small: seq<string>, large: seq<string>, text: string)
    requires NoDuplicates(small) && NoDuplicates(large)
    requires forall w :: w in small ==> w in large
    ensures CountFound(small, text) <= CountFound(large, text)
  {
    CountFoundIsSetSize(small, text);
    CountFoundIsSetSize(large, text);
    SubsetSize(FoundSet(small, text), FoundSet(large, text));
  }

  /** Every strong word is also a negative word, and neither list repeats an entry. */
  lemma WordLists()
    ensures NoDuplicates(NegativeWords) && NoDuplicates(StrongNegativeWords)
    ensures forall w :: w in StrongNegativeWords ==> w in NegativeWords
  {
  }

  function NegativeCount(message: string): nat {
    CountFound(NegativeWords, Lower(message))
  }

  function StrongNegativeCount(message: string): nat {
    CountFound(StrongNegativeWords, Lower(message))
  }

  lemma StrongAtMostNegative(message: string)
    ensures StrongNegativeCount(message) <= NegativeCount(message)
  {
    WordLists();
    CountFoundMonotone(StrongNegativeWords, NegativeWords, Lower(message));
  }

  const TextNegativeConfidence := Confidence(95, 100)
  const TextMixedConfidence := Confidence(7, 10)
  const TextPositiveConfidence := Confidence(8, 10)

  /**
   * `analyze_sentiment_from_text`: negative on any strong word or at least three negative
   * words, mixed on one or two negative words, positive otherwise. Never neutral.
   */
  function AnalyzeText(message: string): (r: SentimentResult)
    ensures r.sentiment != Neutral
    ensures r.sentiment == Negative <==> StrongNegativeCount(message) > 0 || NegativeCount(message) >= 3
    ensures r.sentiment == Mixed <==> 1 <= NegativeCount(message) <= 2 && StrongNegativeCount(message) == 0
    ensures r.sentiment == Positive <==> NegativeCount(message) == 0
    ensures r.confidence == match r.sentiment
                            case Negative => TextNegativeConfidence
                            case Mixed => TextMixedConfidence
                            case _ => TextPositiveConfidence
  {
    StrongAtMostNegative(message);
    var negative := NegativeCount(message);
    var strong := StrongNegativeCount(message);
    if strong > 0 || negative >= 3 then SentimentResult(Negative, TextNegativeConfidence)
    else if negative >= 1 then SentimentResult(Mixed, TextMixedConfidence)
    else SentimentResult(Positive, TextPositiveConfidence)
  }

  /** Scoring ignores letter case. */
  lemma AnalyzeTextIgnoresCase(message: string)
    ensures AnalyzeText(Lower(message)) == AnalyzeText(message)
  {
    LowerIdempotent(message);
  }

  lemma {:induction false} NothingFoundInEmpty(words: seq<string>)
    requires forall i :: 0 <= i < |words| ==> words[i] != ""
    ensures CountFound(words, "") == 0
  {
    if words != [] {
      NotInEmpty(words[0]);
      NothingFoundInEmpty(words[1..]);
    }
  }

  /**
   * No entry of `words` from index `from` on is found in a text drawn from `alphabet` when,
   * for each such entry, the character at the chosen index `ks[j]` lies outside `alphabet`.
   */
  lemma {:induction false} NoneFound(words: seq<string>, from: nat, text: string, alphabet: set<char>, ks: seq<nat>)
    requires forall i :: 0 <= i < |text| ==> text[i] in alphabet
    requires from <= |words| == |ks|
    requires forall j :: from <= j < |words| ==> ks[j] < |words[j]| && words[j][ks[j]] !in alphabet
    ensures CountFound(words[from..], text) == 0
    decreases |words| - from
  {
    if from < |words| {
      AbsentCharExcludes(text, words[from], ks[from]);
      NoneFound(words, from + 1, text, alphabet, ks);
      assert words[from..][1..] == words[from + 1..];
    }
  }

  /** An empty message reads as positive. */
  lemma EmptyTextIsPositive(t: string)
    requires t == ""
    ensures AnalyzeText(t).sentiment == Positive
  {
    assert Lower(t) == t;
    NothingFoundInEmpty(NegativeWords);
  }

  /** None of the negative words after "angry" occurs in "angry angry angry". */
  lemma NoOtherNegativeWordInAngry(t: string)
    requires t == "angry angry angry"
    ensures CountFound(NegativeWords[1..], t) == 0
  {
    NoneFound(NegativeWords, 1, t, {'a', 'n', 'g', 'r', 'y', ' '}, [0, 0, 3, 0, 0, 0, 0, 1, 0, 0, 0, 0, 0, 0, 0, 0, 0, 0, 0, 0, 0, 1, 1, 0]);
  }

  /** Of the negative words, "angry angry angry" contains "angry" alone. */
  lemma OnlyAngryFound(t: string)
    requires t == "angry angry angry"
    ensures CountFound(NegativeWords, t) == 1
  {
    NoOtherNegativeWordInAngry(t);
    assert Contains(t, NegativeWords[0]) by { OccursAtContains(t, "angry", 0); }
  }

  /** "angry angry angry" contains no strong negative word. */
  lemma NoStrongWordInAngry(t: string)
    requires t == "angry angry angry"
    ensures CountFound(StrongNegativeWords, t) == 0
  {
    NoneFound(StrongNegativeWords, 0, t, {'a', 'n', 'g', 'r', 'y', ' '}, [0, 0, 0, 0, 0, 0, 0, 0, 0]);
    assert StrongNegativeWords[0..] == StrongNegativeWords;
  }

  /** A word repeated counts once: "angry angry angry" has one negative word and is mixed. */
  lemma RepeatedWordCountsOnce(t: string)
    requires t == "angry angry angry"
    ensures NegativeCount(t) == 1
    ensures AnalyzeText(t).sentiment == Mixed
  {
    assert Lower(t) == t by { LowerOfLowerCase(t); }
    OnlyAngryFound(t);
    NoStrongWordInAngry(t);
  }

  // Deepgram sentiment

  /** `sentence.get("sentiment", "neutral")`: Deepgram's label of one sentence. */
  function SentenceLabel(s: Deepgram.Sentence): string {
    s.sentiment.GetOr("neutral")
  }

  /** The concatenation of `f(x)` over `xs`, in order. */
  function FlatMap<T>(xs: seq<T>, f: T -> seq<string>): seq<string> {
    if xs == [] then [] else f(xs[0]) + FlatMap(xs[1..], f)
  }

  /** Appending an element to the input appends its image to the output. */
  lemma {:induction false} FlatMapSnoc<T>(xs: seq<T>, x: T, f: T -> seq<string>)
    ensures FlatMap(xs + [x], f) == FlatMap(xs, f) + f(x)
  {
    if xs == [] {
      assert [x][1..] == [];
    } else {
      assert (xs + [x])[1..] == xs[1..] + [x];
      FlatMapSnoc(xs[1..], x, f);
    }
  }

  /** Extending a prefix of the input by one element extends the output by that element's image. */
  lemma FlatMapPrefix<T>(xs: seq<T>, n: nat, f: T -> seq<string>)
    requires n < |xs|
    ensures FlatMap(xs[..n + 1], f) == FlatMap(xs[..n], f) + f(xs[n])
  {
    assert xs[..n + 1] == xs[..n] + [xs[n]];
    FlatMapSnoc(xs[..n], xs[n], f);
  }

  function SentenceLabels(s: Deepgram.Sentence): seq<string> {
    [SentenceLabel(s)]
  }

  function ParagraphLabels(p: Deepgram.Paragraph): seq<string> {
    FlatMap(Deepgram.Sentences(p), SentenceLabels)
  }

  function AlternativeLabels(a: Deepgram.Alternative): seq<string> {
    FlatMap(Deepgram.Paragraphs(a), ParagraphLabels)
  }

  function ChannelLabels(c: Deepgram.Channel): seq<string> {
    FlatMap(Deepgram.Alternatives(c), AlternativeLabels)
  }

  /** The sentence labels of a response: channels, alternatives, paragraphs and sentences in document order. */
  function ResponseLabels(r: Deepgram.Response): seq<string> {
    FlatMap(Deepgram.Channels(r), ChannelLabels)
  }

  /** One label per sentence: the labels of a list of sentences are exactly their sentiments, in order. */
  lemma {:induction false} SentenceLabelsPointwise(ss: seq<Deepgram.Sentence>)
    ensures |FlatMap(ss, SentenceLabels)| == |ss|
    ensures forall i :: 0 <= i < |ss| ==> FlatMap(ss, SentenceLabels)[i] == SentenceLabel(ss[i])
  {
    if ss != [] {
      SentenceLabelsPointwise(ss[1..]);
      assert FlatMap(ss, SentenceLabels) == [SentenceLabel(ss[0])] + FlatMap(ss[1..], SentenceLabels);
    }
  }

  // `_extract_sentiments` is one function with four nested loops; each loop level is a method here.

  /** The innermost loop: appends the label of each sentence, in order. */
  method AppendSentenceLabels(acc: seq<string>, sentences: seq<Deepgram.Sentence>) returns (out: seq<string>)
    ensures out == acc + FlatMap(sentences, SentenceLabels)
  {
    out := acc;
    var m := 0;
    while m < |sentences|
      invariant 0 <= m <= |sentences|
      invariant out == acc + FlatMap(sentences[..m], SentenceLabels)
    {
      FlatMapPrefix(sentences, m, SentenceLabels);
      out := out + [SentenceLabel(sentences[m])];
      m := m + 1;
    }
    assert sentences[..m] == sentences;
  }

  /** The paragraph loop: appends the labels of each paragraph's sentences. */
  method AppendParagraphLabels(acc: seq<string>, paragraphs: seq<Deepgram.Paragraph>) returns (out: seq<string>)
    ensures out == acc + FlatMap(paragraphs, ParagraphLabels)
  {
    out := acc;
    var k := 0;
    while k < |paragraphs|
      invariant 0 <= k <= |paragraphs|
      invariant out == acc + FlatMap(paragraphs[..k], ParagraphLabels)
    {
      FlatMapPrefix(paragraphs, k, ParagraphLabels);
      out := AppendSentenceLabels(out, Deepgram.Sentences(paragraphs[k]));
      k := k + 1;
    }
    assert paragraphs[..k] == paragraphs;
  }

  /** The alternative loop: appends the labels of each alternative's paragraphs. */
  method AppendAlternativeLabels(acc: seq<string>, alternatives: seq<Deepgram.Alternative>) returns (out: seq<string>)
    ensures out == acc + FlatMap(alternatives, AlternativeLabels)
  {
    out := acc;
    var j := 0;
    while j < |alternatives|
      invariant 0 <= j <= |alternatives|
      invariant out == acc + FlatMap(alternatives[..j], AlternativeLabels)
    {
      FlatMapPrefix(alternatives, j, AlternativeLabels);
      out := AppendParagraphLabels(out, Deepgram.Paragraphs(alternatives[j]));
      j := j + 1;
    }
    assert alternatives[..j] == alternatives;
  }

  /** `_extract_sentiments`: one label per sentence, in document order. */
  method ExtractSentiments(r: Deepgram.Response) returns (sentiments: seq<string>)
    ensures sentiments == ResponseLabels(r)
  {
    sentiments := [];
    var channels := Deepgram.Channels(r);
    var i := 0;
    while i < |channels|
      invariant 0 <= i <= |channels|
      invariant sentiments == FlatMap(channels[..i], ChannelLabels)
    {
      FlatMapPrefix(channels, i, ChannelLabels);
      sentiments := AppendAlternativeLabels(sentiments, Deepgram.Alternatives(channels[i]));
      i := i + 1;
    }
    assert channels[..i] == channels;
  }

  /** `labels.count(x)`. */
  function Count(labels: seq<string>, x: string): (n: nat)
    ensures n <= |labels|
    ensures n == 0 <==> x !in labels
  {
    if labels == [] then 0 else (if labels[0] == x then 1 else 0) + Count(labels[1..], x)
  }

  /** The count of a label is its multiplicity in the list. */
  lemma {:induction false} CountIsMultiplicity(labels: seq<string>, x: string)
    ensures Count(labels, x) == multiset(labels)[x]
  {
    if labels != [] {
      CountIsMultiplicity(labels[1..], x);
      assert labels == [labels[0]] + labels[1..];
      assert multiset(labels) == multiset([labels[0]]) + multiset(labels[1..]);
    }
  }

  /** Two different labels together occur no more often than the list is long. */
  lemma {:induction false} CountsBounded(labels: seq<string>, a: string, b: string)
    requires a != b
    ensures Count(labels, a) + Count(labels, b) <= |labels|
  {
    if labels != [] {
      CountsBounded(labels[1..], a, b);
    }
  }

  const NeutralMixConfidence := Confidence(6, 10)
  const UnavailableConfidence := Confidence(5, 10)

  /**
   * `_aggregate_sentiments`: negative when more than half of the labels are "negative",
   * else positive when more than half are "positive", else neutral. The ratio test
   * `count / total > 0.5` is the exact `2 * count > total`. The source divides by the
   * length, so it needs a non-empty list.
   */
  function AggregateSentiments(labels: seq<string>): (r: SentimentResult)
    requires |labels| > 0
    ensures r.sentiment != Mixed
    ensures r.sentiment == Negative <==> 2 * Count(labels, "negative") > |labels|
    ensures r.sentiment == Positive <==> 2 * Count(labels, "positive") > |labels|
    ensures r.sentiment == Negative ==> r.confidence == Confidence(Count(labels, "negative"), |labels|)
    ensures r.sentiment == Positive ==> r.confidence == Confidence(Count(labels, "positive"), |labels|)
    ensures r.sentiment == Neutral ==> r.confidence == NeutralMixConfidence
  {
    CountsBounded(labels, "negative", "positive");
    var negative := Count(labels, "negative");
    var positive := Count(labels, "positive");
    var total := |labels|;
    if 2 * negative > total then SentimentResult(Negative, Confidence(negative, total))
    else if 2 * positive > total then SentimentResult(Positive, Confidence(positive, total))
    else SentimentResult(Neutral, NeutralMixConfidence)
  }

  /** The vote depends only on how often each label occurs, not on the order of the sentences. */
  lemma AggregateIgnoresOrder(a: seq<string>, b: seq<string>)
    requires |a| > 0 && multiset(a) == multiset(b)
    ensures |b| > 0 && AggregateSentiments(a) == AggregateSentiments(b)
  {
    assert |a| == |multiset(a)| == |multiset(b)| == |b|;
    CountIsMultiplicity(a, "negative");
    CountIsMultiplicity(b, "negative");
    CountIsMultiplicity(a, "positive");
    CountIsMultiplicity(b, "positive");
  }

  /**
   * `analyze_sentiment_deepgram`: neutral at one half without a configuration, on a failed
   * request or a status other than 200; neutral at 0.6 when the response has no sentences;
   * otherwise the vote over the sentence labels.
   */
  function AnalyzeSentimentDeepgram(config: Config.DeepgramConfig, outcome: Http.Outcome<Deepgram.Response>): (r: SentimentResult)
    ensures !Config.DeepgramConfigured(config) || !Http.IsOk(outcome) ==> r == SentimentResult(Neutral, UnavailableConfidence)
    ensures Config.DeepgramConfigured(config) && Http.IsOk(outcome) && ResponseLabels(outcome.body) == []
            ==> r == SentimentResult(Neutral, NeutralMixConfidence)
    ensures Config.DeepgramConfigured(config) && Http.IsOk(outcome) && ResponseLabels(outcome.body) != []
            ==> r == AggregateSentiments(ResponseLabels(outcome.body))
    ensures r.sentiment != Mixed
    ensures r.sentiment == Negative <==>
              Config.DeepgramConfigured(config) && Http.IsOk(outcome)
              && 2 * Count(ResponseLabels(outcome.body), "negative") > |ResponseLabels(outcome.body)|
  {
    if !Config.DeepgramConfigured(config) then SentimentResult(Neutral, UnavailableConfidence)
    else match outcome
      case Raised => SentimentResult(Neutral, UnavailableConfidence)
      case Responded(status, body) =>
        if status != Http.Ok then SentimentResult(Neutral, UnavailableConfidence)
        else
          var labels := ResponseLabels(body);
          if labels == [] then SentimentResult(Neutral, NeutralMixConfidence)
          else AggregateSentiments(labels)
  }
}
