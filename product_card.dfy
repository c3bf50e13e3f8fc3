/** The card drawn for one matched product: a badge with the rounded score
    in a colour chosen by score band. */
module ProductCard {
  import opened Text

  /** The badge colours: green, yellow and orange text. */
  datatype ScoreColor = Green | Yellow | Orange

  /** The colour for a score: green above 85, yellow above 70, otherwise
      orange. */
  function ScoreColorOf(similarityScore: int): (c: ScoreColor)
    ensures c == Green <==> similarityScore > 85
    ensures c == Yellow <==> 70 < similarityScore <= 85
    ensures c == Orange <==> similarityScore <= 70
  {
    if similarityScore > 85 then Green
    else if similarityScore > 70 then Yellow
    else Orange
  }

  /** The order of the bands from the lowest scores to the highest. */
  function Rank(c: ScoreColor): nat
  {
    match c
    case Orange => 0
    case Yellow => 1
    case Green => 2
  }

  /** A higher score never gets a lower band. */
  lemma ScoreColorMonotone(lower: int, higher: int)
    requires lower <= higher
    ensures Rank(ScoreColorOf(lower)) <= Rank(ScoreColorOf(higher))
  {
  }

  const BadgeSuffix := "% Match"

  /** `Math.round(score)` followed by `% Match`; rounding leaves an integer
      score as it is. */
  function BadgeText(similarityScore: int): string
  {
    IntToString(similarityScore) + BadgeSuffix
  }

  /** The badge ends in `% Match`, and the text before it reads back as the
      score. */
  lemma BadgeTextSpec(similarityScore: int)
    ensures var b := BadgeText(similarityScore);
      |b| > |BadgeSuffix| && b[|b| - |BadgeSuffix|..] == BadgeSuffix &&
      ParseInt(b[..|b| - |BadgeSuffix|]) == similarityScore
  {
    var b := BadgeText(similarityScore);
    var n := IntToString(similarityScore);
    assert b[..|b| - |BadgeSuffix|] == n;
    assert b[|b| - |BadgeSuffix|..] == BadgeSuffix;
    ParseIntToString(similarityScore);
  }
}
