/**
 * The review list: a sentiment filter (All or one sentiment, changed by the
 * filter buttons) applied as a pure, order-preserving predicate over the
 * result's reviews, and the display gates derived from it.
 */
module ReviewList {
  import opened Types

  /** The filter state: every review, or only those of one sentiment. */
  datatype Filter = All | Only(sentiment: Sentiment)

  /** `filter === 'ALL' || r.sentiment === filter`. */
  predicate Matches(f: Filter, r: ReviewAnalysis) {
    f.All? || r.sentiment == f.sentiment
  }

  /** `reviews.filter(...)`: the reviews the filter lets through, in their original order. */
  function Filtered(reviews: seq<ReviewAnalysis>, f: Filter): (rs: seq<ReviewAnalysis>)
    ensures |rs| <= |reviews|
    ensures forall r :: r in rs <==> r in reviews && Matches(f, r)
  {
    if reviews == [] then []
    else (if Matches(f, reviews[0]) then [reviews[0]] else []) + Filtered(reviews[1..], f)
  }

  /**
   * Filtering distributes over concatenation; with `Filtered([r])` this fixes the
   * result completely, so the kept reviews keep their relative order.
   */
  lemma {:induction false} FilteredAppend(a: seq<ReviewAnalysis>, b: seq<ReviewAnalysis>, f: Filter)
    ensures Filtered(a + b, f) == Filtered(a, f) + Filtered(b, f)
    decreases a
  {
    if a == [] {
      assert a + b == b;
    } else {
      var ab := a + b;
      assert ab[0] == a[0] && ab[1..] == a[1..] + b;
      FilteredAppend(a[1..], b, f);
    }
  }

  /** A single review is kept exactly when it matches the filter. */
  lemma FilteredSingle(r: ReviewAnalysis, f: Filter)
    ensures Filtered([r], f) == if Matches(f, r) then [r] else []
  {
    assert [r][1..] == [];
  }

  /** The All filter shows every review, unchanged. */
  lemma {:induction false} FilterAllIsIdentity(reviews: seq<ReviewAnalysis>)
    ensures Filtered(reviews, All) == reviews
  {
    if reviews != [] {
      FilterAllIsIdentity(reviews[1..]);
      assert [reviews[0]] + reviews[1..] == reviews;
    }
  }

  /** A sentiment filter keeps exactly as many reviews as there are reviews of that sentiment. */
  lemma {:induction false} FilteredCount(reviews: seq<ReviewAnalysis>, s: Sentiment)
    ensures |Filtered(reviews, Only(s))| == CountOf(reviews, s)
  {
    if reviews != [] {
      FilteredCount(reviews[1..], s);
    }
  }

  /** The three sentiment filters partition the list: their lengths add up to its length. */
  lemma FilteredPartition(reviews: seq<ReviewAnalysis>)
    ensures |Filtered(reviews, Only(POSITIVE))| + |Filtered(reviews, Only(NEGATIVE))|
            + |Filtered(reviews, Only(NEUTRAL))| == |reviews|
  {
    FilteredCount(reviews, POSITIVE);
    FilteredCount(reviews, NEGATIVE);
    FilteredCount(reviews, NEUTRAL);
    CountsPartition(reviews);
  }

  /** Filtering is idempotent: the filter's own output passes through it unchanged. */
  lemma {:induction false} FilterIdempotent(reviews: seq<ReviewAnalysis>, f: Filter)
    ensures Filtered(Filtered(reviews, f), f) == Filtered(reviews, f)
  {
    if reviews != [] {
      var head := if Matches(f, reviews[0]) then [reviews[0]] else [];
      FilteredAppend(head, Filtered(reviews[1..], f), f);
      FilterIdempotent(reviews[1..], f);
    }
  }

  /** The "no reviews found" placeholder is shown exactly when the filter lets no review through. */
  function PlaceholderShown(reviews: seq<ReviewAnalysis>, f: Filter): (shown: bool)
    ensures shown <==> forall r :: r in reviews ==> !Matches(f, r)
  {
    var rs := Filtered(reviews, f);
    assert rs != [] ==> rs[0] in rs;
    |rs| == 0
  }

  /** Keyword chips are shown for a review exactly when it has at least one keyword. */
  function KeywordChipsShown(r: ReviewAnalysis): (shown: bool)
    ensures shown <==> r.keywords != []
  {
    |r.keywords| > 0
  }

  class ReviewListView {
    const reviews: seq<ReviewAnalysis>
    var filter: Filter

    constructor(reviews: seq<ReviewAnalysis>)
      ensures this.reviews == reviews && filter == All
      ensures Visible() == reviews
    {
      this.reviews := reviews;
      filter := All;
      new;
      FilterAllIsIdentity(reviews);
    }

    /** The rows currently listed. */
    function Visible(): seq<ReviewAnalysis>
      reads this
    {
      Filtered(reviews, filter)
    }

    /** The count on the All button: the unfiltered total, whatever the current filter. */
    function AllCount(): (n: nat)
      ensures n == |reviews| && |Visible()| <= n
    {
      |reviews|
    }

    /** A filter button was pressed. */
    method SetFilter(f: Filter)
      modifies this
      ensures filter == f && Visible() == Filtered(reviews, f)
    {
      filter := f;
    }
  }
}
