/** The shared data shapes: a sentiment, one analysed review, and the aggregate result. */
module Types {
  import opened Wrappers
  import JsText

  /** The closed three-value sentiment enumeration. */
  datatype Sentiment = POSITIVE | NEGATIVE | NEUTRAL {

    /** The enum's string value, identical to its member name. */
    function Tag(): (t: string)
      ensures t in {"POSITIVE", "NEGATIVE", "NEUTRAL"}
    {
      match this
      case POSITIVE => "POSITIVE"
      case NEGATIVE => "NEGATIVE"
      case NEUTRAL => "NEUTRAL"
    }

    /** The name of the `sentimentCounts` field that tallies this sentiment. */
    function CountKey(): (k: string)
      ensures k in {"positive", "negative", "neutral"}
    {
      match this
      case POSITIVE => "positive"
      case NEGATIVE => "negative"
      case NEUTRAL => "neutral"
    }
  }

  /** Reads a string as a sentiment: the string must be one of the three enum values. */
  function ParseTag(t: string): (r: Option<Sentiment>)
    ensures r.Some? ==> r.value.Tag() == t
    ensures r.None? ==> forall s: Sentiment :: s.Tag() != t
  {
    if t == "POSITIVE" then Some(POSITIVE)
    else if t == "NEGATIVE" then Some(NEGATIVE)
    else if t == "NEUTRAL" then Some(NEUTRAL)
    else None
  }

  /** The three values are distinct and each tag reads back as its own value. */
  lemma TagRoundTrip(s: Sentiment, s': Sentiment)
    ensures ParseTag(s.Tag()) == Some(s)
    ensures s.Tag() == s'.Tag() ==> s == s'
  {
  }

  /**
   * Lower-casing a tag yields the count key of the same sentiment, and the count
   * keys name the three counter fields one-to-one.
   */
  lemma LowerTagIsCountKey(s: Sentiment, s': Sentiment)
    ensures JsText.ToLower(s.Tag()) == s.CountKey()
    ensures s.CountKey() == s'.CountKey() ==> s == s'
  {
    var t, k := s.Tag(), s.CountKey();
    assert |JsText.ToLower(t)| == |k|;
    forall i | 0 <= i < |k| ensures JsText.ToLower(t)[i] == k[i] {
      assert JsText.ToLower(t)[i] == JsText.LowerChar(t[i]);
    }
  }

  /** One review as the application stores it: the keyword list is always present. */
  datatype ReviewAnalysis = ReviewAnalysis(
    originalText: string,
    sentiment: Sentiment,
    summary: string,
    keywords: seq<string>)

  /** The three sentiment counters. */
  datatype SentimentCounts = SentimentCounts(positive: nat, negative: nat, neutral: nat) {

    /** The counter for sentiment `s`. */
    function Of(s: Sentiment): nat {
      match s
      case POSITIVE => positive
      case NEGATIVE => negative
      case NEUTRAL => neutral
    }

    function Sum(): nat {
      positive + negative + neutral
    }
  }

  /** The aggregate result of one analysis. */
  datatype AnalysisResult = AnalysisResult(
    totalReviews: nat,
    sentimentCounts: SentimentCounts,
    frequentComplaints: seq<string>,
    frequentPraises: seq<string>,
    reviews: seq<ReviewAnalysis>)

  /** Number of reviews in `rs` whose sentiment is `s`. */
  function CountOf(rs: seq<ReviewAnalysis>, s: Sentiment): (n: nat)
    ensures n <= |rs|
  {
    if rs == [] then 0
    else (if rs[0].sentiment == s then 1 else 0) + CountOf(rs[1..], s)
  }

  /** Every review carries exactly one of the three sentiments, so the counts partition the list. */
  lemma {:induction false} CountsPartition(rs: seq<ReviewAnalysis>)
    ensures CountOf(rs, POSITIVE) + CountOf(rs, NEGATIVE) + CountOf(rs, NEUTRAL) == |rs|
  {
    if rs != [] {
      CountsPartition(rs[1..]);
    }
  }

  /**
   * The invariant every analysis result satisfies: each counter is the number of
   * reviews with that sentiment, and the counters sum to the review total.
   */
  predicate Consistent(a: AnalysisResult) {
    && a.totalReviews == |a.reviews|
    && (forall s: Sentiment :: a.sentimentCounts.Of(s) == CountOf(a.reviews, s))
    && a.sentimentCounts.Sum() == a.totalReviews
  }
}
