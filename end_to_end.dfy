/**
 * The insight a processed window produces, as the app receives it: the
 * server's `insightObj` carried over the socket and read by
 * `Insight.from(message:)`.
 */
module EndToEnd {
  import opened Wrappers
  import opened Vocabulary
  import opened FallbackInsight
  import opened Server
  import opened AppInsight
  import Features

  /**
   * `insightObj` as the app decodes it; the window bounds travel as the
   * texts `isoText` gives for the bounds' instants (`toISOString`).
   */
  function Wire(u: InsightUpdate, isoText: int -> string): (m: TelemetryMessage)
    ensures m.msgType == Some(InsightUpdateType) && m.kind.None?
    ensures m.windowStart == Some(isoText(u.windowStart)) && m.windowEnd == Some(isoText(u.windowEnd))
    ensures m.rating == u.rating && m.confidence == u.confidence && m.summary == u.summary && m.tip == u.tip
    ensures m.issues == Some(u.issues) && m.suggestions == Some(u.suggestions)
  {
    TelemetryMessage(None, Some(InsightUpdateType), None, None, None, None, None, None,
                     Some(isoText(u.windowStart)), Some(isoText(u.windowEnd)),
                     u.rating, u.summary, Some(u.issues), Some(u.suggestions), u.tip, u.confidence)
  }

  /**
   * Without a key, or when the model call throws, the server's own
   * fallback reaches the app intact: the app accepts it, names it by the
   * window start text and shows the fallback's rating, confidence and texts.
   */
  lemma FallbackReachesApp(f: Features.WindowFeatures, call: GeminiCall, isoText: int -> string,
                           parseIso: string -> Option<real>, now: real)
    requires !call.Returned?
    ensures var a := CreateFallbackInsight(f);
      var i := From(Wire(InsightObject(f, ChooseInsight(f, call)), isoText), parseIso, now);
      && i.Some?
      && i.value.id == isoText(f.windowStart)
      && i.value.rating == a.rating && i.value.confidence == a.confidence
      && i.value.summary == a.summary && i.value.tip == a.tip
      && i.value.issues == a.issues && i.value.suggestions == a.suggestions
  {
    var a := CreateFallbackInsight(f);
    RatingRoundTrip(a.rating, "");
    ConfidenceRoundTrip(a.confidence, "");
    var i := From(Wire(InsightObject(f, ChooseInsight(f, call)), isoText), parseIso, now);
    RatingRoundTrip(i.value.rating, "");
    ConfidenceRoundTrip(i.value.confidence, "");
    SameRatingRawValue(i.value.rating, a.rating);
    SameConfidenceRawValue(i.value.confidence, a.confidence);
  }

  /** Ratings with equal raw values are equal. */
  lemma SameRatingRawValue(r1: Rating, r2: Rating)
    requires r1.RawValue() == r2.RawValue()
    ensures r1 == r2
  {
    if r1 != r2 {
      RatingRawValuesDistinct(r1, r2);
    }
  }

  /** Confidences with equal raw values are equal. */
  lemma SameConfidenceRawValue(c1: Confidence, c2: Confidence)
    requires c1.RawValue() == c2.RawValue()
    ensures c1 == c2
  {
    ConfidenceRoundTrip(c1, "");
    ConfidenceRoundTrip(c2, "");
  }

  /**
   * A model reply is stored and broadcast unchecked, so one whose rating
   * is outside the vocabulary is broadcast and then dropped by the app.
   */
  lemma UncheckedReplyDroppedByApp(f: Features.WindowFeatures, reply: Reply, isoText: int -> string,
                                   parseIso: string -> Option<real>, now: real)
    requires reply.rating == Some("excellent")
    ensures InsightObject(f, ChooseInsight(f, Returned(Some(reply)))).rating == Some("excellent")
    ensures From(Wire(InsightObject(f, ChooseInsight(f, Returned(Some(reply)))), isoText), parseIso, now).None?
  {
  }
}
