/**
 * The analyzer's two classification thresholds, the rule by which its
 * constructor accepts or replaces them, and the three-way classification
 * of a polarity score (sentiment.py, SentimentAnalyzer.__init__ and
 * classify_sentiment).
 */
module Classifier {

  /** The three labels, from most negative to most positive. */
  datatype Classification = Negative | Neutral | Positive

  /** The order of the labels along the polarity axis. */
  function Rank(c: Classification): nat {
    match c
    case Negative => 0
    case Neutral => 1
    case Positive => 2
  }

  const DefaultPositive: real := 0.1
  const DefaultNegative: real := -0.1

  datatype Thresholds = Thresholds(positive: real, negative: real)

  const Defaults: Thresholds := Thresholds(DefaultPositive, DefaultNegative)

  /** The constructor's acceptance test: -1 <= negative <= positive <= 1. */
  predicate Logical(positive: real, negative: real) {
    -1.0 <= negative <= positive <= 1.0
  }

  /**
   * The thresholds an analyzer ends up with: the supplied pair when it is
   * logical, and exactly the defaults (0.1, -0.1) otherwise.
   */
  function Normalise(positive: real, negative: real): (t: Thresholds)
    ensures Logical(t.positive, t.negative)
    ensures t == Thresholds(positive, negative) <==> Logical(positive, negative)
    ensures !Logical(positive, negative) ==> t == Defaults
  {
    if !Logical(positive, negative) then Defaults else Thresholds(positive, negative)
  }

  /** Normalising an already normalised pair changes nothing. */
  lemma NormaliseIdempotent(positive: real, negative: real)
    ensures var t := Normalise(positive, negative); Normalise(t.positive, t.negative) == t
  {
  }

  /**
   * The classification rule: Positive is tested first, then Negative, and
   * whatever lies strictly between the thresholds is Neutral.
   */
  function Classify(t: Thresholds, polarity: real): (c: Classification)
    ensures c == Positive <==> polarity >= t.positive
    ensures c == Negative <==> polarity < t.positive && polarity <= t.negative
    ensures c == Neutral <==> t.negative < polarity < t.positive
  {
    if polarity >= t.positive then Positive
    else if polarity <= t.negative then Negative
    else Neutral
  }

  /** When both thresholds coincide with the score, the score is Positive. */
  lemma TieIsPositive(t: Thresholds, polarity: real)
    requires polarity == t.positive == t.negative
    ensures Classify(t, polarity) == Positive
  {
  }

  /**
   * Under the constructor's invariant the Negative band is everything at or
   * below the negative threshold except a score that also reaches the
   * positive one, which is only possible when the two thresholds coincide.
   */
  lemma LogicalBands(t: Thresholds, polarity: real)
    requires Logical(t.positive, t.negative)
    ensures Classify(t, polarity) == Negative <==> polarity <= t.negative && polarity != t.positive
    ensures polarity <= t.negative && t.negative < t.positive ==> Classify(t, polarity) == Negative
    ensures Classify(t, polarity) == Negative ==> polarity < t.positive
  {
  }

  /** A higher score never gets a lower label. */
  lemma ClassifyMonotone(t: Thresholds, p1: real, p2: real)
    requires p1 <= p2
    ensures Rank(Classify(t, p1)) <= Rank(Classify(t, p2))
  {
  }
}
