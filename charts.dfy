/**
 * The sentiment distribution chart's data: one slice per sentiment, in the
 * order positive, negative, neutral, with the zero-valued slices dropped.
 */
module Charts {
  import opened Types

  /** One slice of the pie: its legend name, its value and its colour. */
  datatype Slice = Slice(name: string, value: nat, color: string)

  const POSITIVE_SLICE_COLOR := "#22c55e"
  const NEGATIVE_SLICE_COLOR := "#ef4444"
  const NEUTRAL_SLICE_COLOR := "#94a3b8"

  /** The fixed slice of sentiment `s` carrying `value`. */
  function SliceOf(s: Sentiment, value: nat): Slice {
    match s
    case POSITIVE => Slice("Positive", value, POSITIVE_SLICE_COLOR)
    case NEGATIVE => Slice("Negative", value, NEGATIVE_SLICE_COLOR)
    case NEUTRAL => Slice("Neutral", value, NEUTRAL_SLICE_COLOR)
  }

  /** The `data` triple: one slice per sentiment, valued by its count. */
  function Data(counts: SentimentCounts): (data: seq<Slice>)
    ensures |data| == 3
    ensures data[0] == SliceOf(POSITIVE, counts.Of(POSITIVE))
    ensures data[1] == SliceOf(NEGATIVE, counts.Of(NEGATIVE))
    ensures data[2] == SliceOf(NEUTRAL, counts.Of(NEUTRAL))
  {
    [SliceOf(POSITIVE, counts.positive), SliceOf(NEGATIVE, counts.negative), SliceOf(NEUTRAL, counts.neutral)]
  }

  /** `slices.filter(d => d.value > 0)`. */
  function NonZero(slices: seq<Slice>): (kept: seq<Slice>)
    ensures |kept| <= |slices|
    ensures forall d :: d in kept ==> d in slices && d.value > 0
    ensures forall d :: d in slices && d.value > 0 ==> d in kept
  {
    if slices == [] then []
    else (if slices[0].value > 0 then [slices[0]] else []) + NonZero(slices[1..])
  }

  /** The slices actually drawn. */
  function ActiveData(counts: SentimentCounts): (active: seq<Slice>)
    ensures |active| <= 3
    ensures forall d :: d in active ==> d.value > 0
    ensures forall d :: d in Data(counts) && d.value > 0 ==> d in active
  {
    NonZero(Data(counts))
  }

  /**
   * The drawn slices, spelled out: the positive, negative and neutral slices in
   * that order, each present exactly when its count is non-zero.
   */
  lemma ActiveDataInOrder(counts: SentimentCounts)
    ensures ActiveData(counts) ==
      (if counts.positive > 0 then [SliceOf(POSITIVE, counts.positive)] else [])
      + (if counts.negative > 0 then [SliceOf(NEGATIVE, counts.negative)] else [])
      + (if counts.neutral > 0 then [SliceOf(NEUTRAL, counts.neutral)] else [])
  {
    var data := Data(counts);
    assert data[1..][1..][1..] == [];
    assert NonZero(data[1..][1..][1..]) == [];
    assert NonZero(data[1..][1..]) == (if counts.neutral > 0 then [data[2]] else []);
    assert NonZero(data[1..]) == (if counts.negative > 0 then [data[1]] else []) + NonZero(data[1..][1..]);
  }

  /** With all three counts non-zero every slice is drawn. */
  lemma AllSlicesWhenAllNonZero(counts: SentimentCounts)
    requires counts.positive > 0 && counts.negative > 0 && counts.neutral > 0
    ensures |ActiveData(counts)| == 3
  {
    ActiveDataInOrder(counts);
  }
}
