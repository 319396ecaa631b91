/** Which product src/components/CompareResultCard.tsx crowns, and the
 *  safety badge of each product. */
module CompareResultCard {
  import opened Types

  /** `product1IsBest`: the backend names the first description, or the
      first product scores strictly higher. */
  predicate Product1IsBest(r: CompareResult) {
    r.bestProduct == r.description1 || r.healthScore1 > r.healthScore2
  }

  /** `product2IsBest`. */
  predicate Product2IsBest(r: CompareResult) {
    !Product1IsBest(r)
  }

  /** The products that carry the "Best Choice" badge, 1 and/or 2. */
  function BestBadges(r: CompareResult): (b: set<int>)
    ensures |b| == 1
    ensures 1 in b <==> r.bestProduct == r.description1 || r.healthScore1 > r.healthScore2
    ensures 2 in b <==> r.bestProduct != r.description1 && r.healthScore1 <= r.healthScore2
  {
    (if Product1IsBest(r) then {1} else {}) + (if Product2IsBest(r) then {2} else {})
  }

  /** On equal scores the second product wins unless it is named otherwise. */
  lemma TieGoesToSecond(r: CompareResult)
    requires r.healthScore1 == r.healthScore2 && r.bestProduct != r.description1
    ensures BestBadges(r) == {2}
  {
  }

  /** The text of a product's safety badge. */
  function SafetyLabel(isSafe: bool): (l: string)
    ensures l == "Safe" <==> isSafe
    ensures !isSafe ==> l == "Caution"
  {
    if isSafe then "Safe" else "Caution"
  }
}
