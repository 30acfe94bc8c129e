/**
 * The analysis client's deterministic part: the safety truncation of the input
 * text, and the validating decode of the language model's reply into an
 * `AnalysisResult` (keyword and list defaults, local sentiment tally, one fixed
 * error message for every failure).
 */
module AnalysisClient {
  import opened Wrappers
  import opened Types
  import JsText

  /** Number of characters of the input that may go into the prompt. */
  const MAX_INPUT_CHARS: nat := 30000

  /** The single user-facing message every failure of an analysis collapses to. */
  const ANALYSIS_FAILED := "Failed to analyze reviews. Please try again."

  /** `text.slice(0, 30000)`: the text embedded in the prompt. */
  function PromptText(text: string): (r: string)
    ensures |r| <= MAX_INPUT_CHARS && |r| <= |text|
    ensures r == text[..|r|]
    ensures |text| <= MAX_INPUT_CHARS ==> r == text
    ensures |text| > MAX_INPUT_CHARS ==> |r| == MAX_INPUT_CHARS
  {
    if |text| <= MAX_INPUT_CHARS then text else text[..MAX_INPUT_CHARS]
  }

  /** One element of the parsed reply's `reviews` array; `None` stands for an absent (falsy) field. */
  datatype RawReview = RawReview(
    originalText: string,
    sentiment: Option<string>,
    summary: string,
    keywords: Option<seq<string>>)

  /**
   * The parsed JSON reply. For `reviews`, `None` stands for an absent or non-array
   * field (either makes `.map` throw); for the two lists, `None` stands for a
   * falsy (absent) field, which `|| []` replaces.
   */
  datatype RawReply = RawReply(
    reviews: Option<seq<RawReview>>,
    frequentComplaints: Option<seq<string>>,
    frequentPraises: Option<seq<string>>)

  /**
   * What the call to the language model produced: the call itself failed, or it
   * returned a reply text (an absent text is the empty string) together with what
   * `JSON.parse` made of it (`None`: the text is not JSON).
   */
  datatype ModelReply =
    | TransportError
    | Reply(text: string, json: Option<RawReply>)

  /** The sentiment a raw review's tag denotes, if it is one of the three enum values. */
  function RawSentiment(raw: RawReview): Option<Sentiment> {
    if raw.sentiment.Some? then ParseTag(raw.sentiment.value) else None
  }

  /** A raw review the decode can type: its sentiment is one of the three values. */
  predicate Typable(raw: RawReview) {
    RawSentiment(raw).Some?
  }

  /** The normalised review: fields copied, an absent keyword list becomes `[]`. */
  function NormalizeReview(raw: RawReview): (r: ReviewAnalysis)
    requires Typable(raw)
    ensures r.originalText == raw.originalText && r.summary == raw.summary
    ensures r.sentiment.Tag() == raw.sentiment.value
    ensures raw.keywords.None? ==> r.keywords == []
    ensures raw.keywords.Some? ==> r.keywords == raw.keywords.value
  {
    ReviewAnalysis(raw.originalText, RawSentiment(raw).value, raw.summary, raw.keywords.GetOr([]))
  }

  /** The `map` over the reply's reviews: same length, same order, each element normalised. */
  function NormalizeReviews(raws: seq<RawReview>): (rs: seq<ReviewAnalysis>)
    requires forall i :: 0 <= i < |raws| ==> Typable(raws[i])
    ensures |rs| == |raws|
    ensures forall i :: 0 <= i < |raws| ==> rs[i] == NormalizeReview(raws[i])
  {
    if raws == [] then [] else [NormalizeReview(raws[0])] + NormalizeReviews(raws[1..])
  }

  /** `acc[key] = (acc[key] || 0) + 1` for the three known keys. */
  function Increment(acc: SentimentCounts, key: string): SentimentCounts {
    if key == "positive" then acc.(positive := acc.positive + 1)
    else if key == "negative" then acc.(negative := acc.negative + 1)
    else if key == "neutral" then acc.(neutral := acc.neutral + 1)
    else acc
  }

  /** Incrementing by a sentiment's count key bumps that sentiment's counter and no other. */
  lemma IncrementBySentiment(acc: SentimentCounts, s: Sentiment, t: Sentiment)
    ensures Increment(acc, s.CountKey()).Of(t) == acc.Of(t) + (if s == t then 1 else 0)
  {
  }

  /**
   * The `reduce` over the processed reviews: starting from accumulator `acc`,
   * each review bumps the counter named by its lower-cased sentiment tag.
   */
  function TallyFrom(acc: SentimentCounts, rs: seq<ReviewAnalysis>): SentimentCounts
    decreases rs
  {
    if rs == [] then acc
    else TallyFrom(Increment(acc, JsText.ToLower(rs[0].sentiment.Tag())), rs[1..])
  }

  /** The fold adds to each counter of `acc` the number of reviews with that sentiment. */
  lemma {:induction false} TallyFromCounts(acc: SentimentCounts, rs: seq<ReviewAnalysis>, s: Sentiment)
    ensures TallyFrom(acc, rs).Of(s) == acc.Of(s) + CountOf(rs, s)
    decreases rs
  {
    if rs != [] {
      var r := rs[0].sentiment;
      LowerTagIsCountKey(r, r);
      IncrementBySentiment(acc, r, s);
      TallyFromCounts(Increment(acc, r.CountKey()), rs[1..], s);
    }
  }

  /** The sentiment counts tallied from the reviews, starting from all zero. */
  function Tally(rs: seq<ReviewAnalysis>): (c: SentimentCounts)
    ensures forall s: Sentiment :: c.Of(s) == CountOf(rs, s)
    ensures c.Sum() == |rs|
  {
    var c := TallyFrom(SentimentCounts(0, 0, 0), rs);
    TallyFromCounts(SentimentCounts(0, 0, 0), rs, POSITIVE);
    TallyFromCounts(SentimentCounts(0, 0, 0), rs, NEGATIVE);
    TallyFromCounts(SentimentCounts(0, 0, 0), rs, NEUTRAL);
    CountsPartition(rs);
    c
  }

  /** The reply decodes: a non-empty text that parsed, with a review list whose every sentiment is typable. */
  predicate Decodable(reply: ModelReply) {
    && reply.Reply?
    && reply.text != ""
    && reply.json.Some?
    && reply.json.value.reviews.Some?
    && forall i :: 0 <= i < |reply.json.value.reviews.value| ==> Typable(reply.json.value.reviews.value[i])
  }

  /**
   * The reply post-processing, with its `try`/`catch`: either the typed result or
   * the one fixed error message, never a partial result.
   */
  function Decode(reply: ModelReply): (r: Result<AnalysisResult, string>)
    ensures r.Success? <==> Decodable(reply)
    ensures r.Failure? ==> r.error == ANALYSIS_FAILED
    ensures r.Success? ==> Consistent(r.value)
    ensures r.Success? ==>
      var data := reply.json.value;
      && |r.value.reviews| == |data.reviews.value|
      && (forall i :: 0 <= i < |data.reviews.value| ==> r.value.reviews[i] == NormalizeReview(data.reviews.value[i]))
      && r.value.frequentComplaints == data.frequentComplaints.GetOr([])
      && r.value.frequentPraises == data.frequentPraises.GetOr([])
  {
    if !Decodable(reply) then Failure(ANALYSIS_FAILED)
    else
      var data := reply.json.value;
      var processed := NormalizeReviews(data.reviews.value);
      Success(AnalysisResult(
        |processed|,
        Tally(processed),
        data.frequentComplaints.GetOr([]),
        data.frequentPraises.GetOr([]),
        processed))
  }
}
