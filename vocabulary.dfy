/**
 * The rating and confidence vocabulary shared by the server's insights and
 * the app's `Insight.Rating` / `Insight.Confidence` raw-value enums.
 */
module Vocabulary {
  import opened Wrappers

  /** A posture rating; the raw values are what the insight payload carries. */
  datatype Rating = Good | Fair | NotSoGood | Poor {
    function RawValue(): string {
      match this
      case Good => "good"
      case Fair => "fair"
      case NotSoGood => "not_so_good"
      case Poor => "poor"
    }

    /** How bad the rating is, good being 0. */
    function Severity(): nat {
      match this
      case Good => 0
      case Fair => 1
      case NotSoGood => 2
      case Poor => 3
    }
  }

  datatype Confidence = Low | Medium | High {
    function RawValue(): string {
      match this
      case Low => "low"
      case Medium => "medium"
      case High => "high"
    }
  }

  /** `Rating(rawValue:)`: the case with exactly this raw value, nil for any other string. */
  function RatingOf(raw: string): (r: Option<Rating>)
    ensures r.Some? ==> r.value.RawValue() == raw
    ensures r.None? ==> raw !in {"good", "fair", "not_so_good", "poor"}
  {
    if raw == "good" then Some(Good)
    else if raw == "fair" then Some(Fair)
    else if raw == "not_so_good" then Some(NotSoGood)
    else if raw == "poor" then Some(Poor)
    else None
  }

  /** `Confidence(rawValue:)`. */
  function ConfidenceOf(raw: string): (c: Option<Confidence>)
    ensures c.Some? ==> c.value.RawValue() == raw
    ensures c.None? ==> raw !in {"low", "medium", "high"}
  {
    if raw == "low" then Some(Low)
    else if raw == "medium" then Some(Medium)
    else if raw == "high" then Some(High)
    else None
  }

  /** Every rating survives the trip through its raw value, and only raw values parse. */
  lemma RatingRoundTrip(r: Rating, raw: string)
    ensures RatingOf(r.RawValue()) == Some(r)
    ensures RatingOf(raw).Some? <==> exists q: Rating :: q.RawValue() == raw
  {
    forall q: Rating | q.RawValue() == raw ensures RatingOf(raw) == Some(q) {
      assert RatingOf(q.RawValue()) == Some(q);
    }
  }

  /** Every confidence survives the trip through its raw value, and only raw values parse. */
  lemma ConfidenceRoundTrip(c: Confidence, raw: string)
    ensures ConfidenceOf(c.RawValue()) == Some(c)
    ensures ConfidenceOf(raw).Some? <==> exists q: Confidence :: q.RawValue() == raw
  {
    forall q: Confidence | q.RawValue() == raw ensures ConfidenceOf(raw) == Some(q) {
      assert ConfidenceOf(q.RawValue()) == Some(q);
    }
  }

  /** Distinct ratings have distinct raw values. */
  lemma RatingRawValuesDistinct(r1: Rating, r2: Rating)
    requires r1 != r2
    ensures r1.RawValue() != r2.RawValue()
  {
    RatingRoundTrip(r1, "");
    RatingRoundTrip(r2, "");
  }
}
