/** The derived values of src/pages/History.tsx: the search filter, the
 *  number of scans, the rounded average score and the colour of that
 *  average. Fetching the history is I/O; only what the page does with the
 *  settled result is modelled. */
module HistoryPage {
  import opened Common
  import opened Types
  import opened Api
  import HealthScoreBadge

  /** The history the page keeps after the fetch: a failure shows an empty list. */
  function LoadedHistory(fetched: Result<seq<HistoryItem>, ApiError>): (h: seq<HistoryItem>)
    ensures fetched.Ok? ==> h == fetched.value
    ensures fetched.Err? ==> h == []
  {
    match fetched
    case Ok(items) => items
    case Err(_) => []
  }

  /** An item matches when its lower-cased name contains the lower-cased query. */
  predicate Matches(item: HistoryItem, query: string) {
    Includes(Lower(item.name), Lower(query))
  }

  /** `filteredHistory`: the matching items, in history order. */
  function FilteredHistory(history: seq<HistoryItem>, query: string): (r: seq<HistoryItem>)
    ensures Subsequence(r, history)
    ensures forall i :: 0 <= i < |r| ==> Matches(r[i], query)
    ensures forall i :: 0 <= i < |history| && Matches(history[i], query) ==> history[i] in r
  {
    FilterIsSubsequence(history, (item: HistoryItem) => Matches(item, query));
    Filter(history, (item: HistoryItem) => Matches(item, query))
  }

  /** An empty search shows the whole history. */
  lemma EmptyQueryKeepsAll(history: seq<HistoryItem>)
    ensures FilteredHistory(history, "") == history
  {
    forall i | 0 <= i < |history|
      ensures Matches(history[i], "")
    {
      assert Lower("") == "";
      IncludesEmpty(Lower(history[i].name));
    }
    FilterAll(history, (item: HistoryItem) => Matches(item, ""));
  }

  /** Queries that differ only in the case of ASCII letters filter alike. */
  lemma SearchIgnoresCase(history: seq<HistoryItem>, q1: string, q2: string)
    requires Lower(q1) == Lower(q2)
    ensures FilteredHistory(history, q1) == FilteredHistory(history, q2)
  {
    FilterAgrees(history, (item: HistoryItem) => Matches(item, q1), (item: HistoryItem) => Matches(item, q2));
  }

  // ---------------------------------------------------------------------------
  // statistics

  /** The `reduce` over the scores, from the left. */
  function Sum(history: seq<HistoryItem>): real {
    if history == [] then 0.0 else Sum(history[..|history| - 1]) + history[|history| - 1].healthScore
  }

  /** `avgHealthScore`. */
  function AvgHealthScore(history: seq<HistoryItem>): int {
    if |history| > 0 then Round(Sum(history) / |history| as real) else 0
  }

  datatype HistoryStats = HistoryStats(totalScans: nat, avgHealthScore: int)

  /** The two figures of the page header. */
  function Stats(history: seq<HistoryItem>): (s: HistoryStats)
    ensures s.totalScans == |history|
    ensures history == [] ==> s.avgHealthScore == 0
    ensures history != [] ==>
              s.avgHealthScore as real <= Sum(history) / |history| as real + 0.5 < s.avgHealthScore as real + 1.0
  {
    HistoryStats(|history|, AvgHealthScore(history))
  }

  predicate ScoresWithin(history: seq<HistoryItem>, lo: real, hi: real) {
    forall i :: 0 <= i < |history| ==> lo <= history[i].healthScore <= hi
  }

  lemma {:induction false} SumWithin(history: seq<HistoryItem>, lo: real, hi: real)
    requires ScoresWithin(history, lo, hi)
    ensures lo * |history| as real <= Sum(history) <= hi * |history| as real
  {
    if history != [] {
      var front := history[..|history| - 1];
      assert ScoresWithin(front, lo, hi);
      SumWithin(front, lo, hi);
      var last := history[|history| - 1];
      assert lo <= last.healthScore <= hi;
      assert Sum(history) == Sum(front) + last.healthScore;
      assert lo * |history| as real == lo * |front| as real + lo;
      assert hi * |history| as real == hi * |front| as real + hi;
    }
  }

  /** The rounded average of scores between two whole numbers lies between them. */
  lemma AverageWithin(history: seq<HistoryItem>, lo: int, hi: int)
    requires history != [] && ScoresWithin(history, lo as real, hi as real)
    ensures lo <= AvgHealthScore(history) <= hi
  {
    SumWithin(history, lo as real, hi as real);
    MeanWithin(Sum(history), |history| as real, lo as real, hi as real);
  }

  /** A total between `n` times two bounds has its mean between them. */
  lemma MeanWithin(total: real, n: real, lo: real, hi: real)
    requires n > 0.0 && lo * n <= total <= hi * n
    ensures lo <= total / n <= hi
  {
    var mean := total / n;
    assert mean * n == total;
    assert (mean - lo) * n == total - lo * n;
    assert (hi - mean) * n == hi * n - total;
  }

  // ---------------------------------------------------------------------------
  // colour of the average

  /** The colour of the average as the page writes it: above 70 safe, above
      40 warning, else danger. */
  function AvgToneAsWritten(avg: int): (t: string)
    ensures t == "text-safe" <==> avg > 70
    ensures t == "text-warning" <==> 40 < avg <= 70
    ensures t == "text-danger" <==> avg <= 40
  {
    if avg > 70 then "text-safe" else if avg > 40 then "text-warning" else "text-danger"
  }

  /** With scores on the 0 to 10 scale the badges use, the average as written
      is always coloured danger. */
  lemma AsWrittenAverageIsAlwaysDanger(history: seq<HistoryItem>)
    requires ScoresWithin(history, 0.0, 10.0)
    ensures AvgToneAsWritten(AvgHealthScore(history)) == "text-danger"
  {
    if history != [] {
      AverageWithin(history, 0, 10);
    }
  }

  /** A single scan scoring 9, which its own badge shows as Good, makes the
      average danger-coloured. */
  lemma AsWrittenCounterexample()
    ensures var h := [HistoryItem(1, "", "Oats", 9.0, "")];
            && AvgHealthScore(h) == 9
            && HealthScoreBadge.BandOf(9.0) == HealthScoreBadge.Good
            && AvgToneAsWritten(AvgHealthScore(h)) == "text-danger"
  {
    var h := [HistoryItem(1, "", "Oats", 9.0, "")];
    assert h[..0] == [];
    assert Sum(h) == 9.0;
  }

  /** The colour of the average on the badges' scale: the tone of the
      badge's label for that score. */
  function AvgTone(avg: int): (t: string)
    ensures t == HealthScoreBadge.LabelTone(avg as real)
    ensures t == "text-safe" <==> avg >= 7
    ensures t == "text-warning" <==> 4 <= avg < 7
    ensures t == "text-danger" <==> avg < 4
  {
    if avg >= 7 then "text-safe" else if avg >= 4 then "text-warning" else "text-danger"
  }

  /** A history whose every score is Good shows a safe average. */
  lemma GoodHistoryIsSafe(history: seq<HistoryItem>)
    requires history != [] && ScoresWithin(history, 7.0, 10.0)
    ensures AvgTone(AvgHealthScore(history)) == "text-safe"
  {
    AverageWithin(history, 7, 10);
  }

  /** A history with no Poor score never shows a danger average. */
  lemma FairHistoryIsNotDanger(history: seq<HistoryItem>)
    requires history != [] && ScoresWithin(history, 4.0, 10.0)
    ensures AvgTone(AvgHealthScore(history)) != "text-danger"
  {
    AverageWithin(history, 4, 10);
  }
}
