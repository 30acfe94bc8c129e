/**
 * The figures the dashboard derives from an analysis result: the rounded
 * percentages of the positive and negative cards, the plural of "review",
 * the 1-based ranks of the complaint and praise lists and their placeholders.
 */
module Dashboard {
  import opened Types

  /**
   * `total ? Math.round(count / total * 100) : 0`, in exact arithmetic: the integer
   * nearest to `100 * count / total`, halves rounded up.
   */
  function Percent(count: nat, total: nat): (p: nat)
    ensures total == 0 ==> p == 0
    ensures total > 0 ==> 2 * total * p <= 200 * count + total < 2 * total * (p + 1)
    ensures count <= total ==> p <= 100
  {
    if total == 0 then 0
    else
      DivBounds(200 * count + total, 2 * total);
      assert count <= total ==> 200 * count + total < 2 * total * 101;
      (200 * count + total) / (2 * total)
  }

  /** The two facts about integer division the rounding needs. */
  lemma DivBounds(a: nat, b: nat)
    requires b > 0
    ensures b * (a / b) <= a < b * (a / b + 1)
    ensures a < b * 101 ==> a / b <= 100
  {
  }

  /** What a KPI card shows under its count. */
  datatype Caption = PercentOfTotal(percent: nat) | FixedText(text: string)

  /** One KPI card: its title, its count and its caption. */
  datatype KpiCard = KpiCard(title: string, count: nat, caption: Caption)

  /**
   * The three KPI cards in page order: positive and negative carry their share of
   * the total, neutral a fixed caption.
   */
  function KpiCards(result: AnalysisResult): (cards: seq<KpiCard>)
    ensures |cards| == 3
    ensures cards[0] == KpiCard("Positive", result.sentimentCounts.positive,
                                PercentOfTotal(Percent(result.sentimentCounts.positive, result.totalReviews)))
    ensures cards[1] == KpiCard("Negative", result.sentimentCounts.negative,
                                PercentOfTotal(Percent(result.sentimentCounts.negative, result.totalReviews)))
    ensures cards[2] == KpiCard("Neutral", result.sentimentCounts.neutral, FixedText("Balanced views"))
  {
    var c := result.sentimentCounts;
    [ KpiCard("Positive", c.positive, PercentOfTotal(Percent(c.positive, result.totalReviews))),
      KpiCard("Negative", c.negative, PercentOfTotal(Percent(c.negative, result.totalReviews))),
      KpiCard("Neutral", c.neutral, FixedText("Balanced views")) ]
  }

  /** For a consistent result both percentages lie in 0..100 and the three cards account for every review. */
  lemma KpiCardsOfConsistent(result: AnalysisResult)
    requires Consistent(result)
    ensures var cards := KpiCards(result);
      && cards[0].caption.percent <= 100
      && cards[1].caption.percent <= 100
      && cards[0].count + cards[1].count + cards[2].count == result.totalReviews
  {
  }

  /** The noun of the "Analyzed N review(s)" badge: plural unless there is exactly one review. */
  function ReviewNoun(total: nat): (noun: string)
    ensures |noun| >= 6 && noun[..6] == "review"
    ensures noun == "reviews" <==> total != 1
    ensures noun == "review" <==> total == 1
  {
    "review" + (if total != 1 then "s" else "")
  }

  /** One entry of the complaints or praises list with its displayed rank. */
  datatype RankedItem = RankedItem(rank: nat, text: string)

  /** `items.map((item, idx) => ... idx + 1 ...)`: every item, in order, ranked from 1. */
  function Ranked(items: seq<string>): (ranked: seq<RankedItem>)
    ensures |ranked| == |items|
    ensures forall i :: 0 <= i < |items| ==> ranked[i] == RankedItem(i + 1, items[i])
  {
    if items == [] then []
    else [RankedItem(1, items[0])] + Shift(Ranked(items[1..]))
  }

  /** Moves every rank one place down the list. */
  function Shift(ranked: seq<RankedItem>): (r: seq<RankedItem>)
    ensures |r| == |ranked|
    ensures forall i :: 0 <= i < |ranked| ==> r[i] == ranked[i].(rank := ranked[i].rank + 1)
  {
    seq(|ranked|, i requires 0 <= i < |ranked| => ranked[i].(rank := ranked[i].rank + 1))
  }

  /** The "no major complaints/praises detected" placeholder is shown exactly when there is nothing to rank. */
  function PlaceholderShown(items: seq<string>): (shown: bool)
    ensures shown <==> Ranked(items) == []
  {
    |items| == 0
  }
}
