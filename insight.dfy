/**
 * The app's side of the wire: the decoded telemetry message and the
 * validating `Insight.from(message:)` constructor.
 */
module AppInsight {
  import opened Wrappers
  import opened Vocabulary

  /**
   * A decoded `TelemetryMessage`: every field optional. `msgType` is the
   * JSON `type` key. Dates travel as text; instants are seconds since the
   * epoch, as `Date` holds them.
   */
  datatype TelemetryMessage = TelemetryMessage(
    kind: Option<string>,
    msgType: Option<string>,
    source: Option<int>,
    ts: Option<real>,
    pitch: Option<real>,
    pitchSmooth: Option<real>,
    roll: Option<real>,
    event: Option<string>,
    windowStart: Option<string>,
    windowEnd: Option<string>,
    rating: Option<string>,
    summary: Option<string>,
    issues: Option<seq<string>>,
    suggestions: Option<seq<string>>,
    tip: Option<string>,
    confidence: Option<string>)

  /** An insight as the app shows it; `id` is the text of the window start. */
  datatype Insight = Insight(
    id: string,
    windowStart: real,
    windowEnd: real,
    rating: Rating,
    summary: string,
    issues: seq<string>,
    suggestions: seq<string>,
    tip: string,
    confidence: Confidence)

  const InsightUpdateType: string := "insight_update"

  /**
   * `Insight.from(message:)`. `parseIso` stands for
   * `ISO8601DateFormatter.date(from:)` and `now` for `Date()`, which an
   * unparsable window bound falls back to. The message is refused unless
   * its type is the insight type and the window bounds, summary and tip
   * are present and the rating and confidence are raw values of the
   * vocabulary; an accepted message keeps its texts, takes its id from the
   * window start text and reads missing lists as empty.
   */
  function From(m: TelemetryMessage, parseIso: string -> Option<real>, now: real): (r: Option<Insight>)
    ensures r.Some? <==>
      && m.msgType == Some(InsightUpdateType)
      && m.windowStart.Some? && m.windowEnd.Some? && m.summary.Some? && m.tip.Some?
      && m.rating.Some? && m.rating.value in {"good", "fair", "not_so_good", "poor"}
      && m.confidence.Some? && m.confidence.value in {"low", "medium", "high"}
    ensures r.Some? ==>
      && r.value.id == m.windowStart.value
      && r.value.windowStart == parseIso(m.windowStart.value).GetOr(now)
      && r.value.windowEnd == parseIso(m.windowEnd.value).GetOr(now)
      && r.value.rating.RawValue() == m.rating.value
      && r.value.confidence.RawValue() == m.confidence.value
      && r.value.summary == m.summary.value && r.value.tip == m.tip.value
      && r.value.issues == m.issues.GetOr([]) && r.value.suggestions == m.suggestions.GetOr([])
  {
    if m.msgType != Some(InsightUpdateType) || m.windowStart.None? || m.windowEnd.None? || m.rating.None? then None
    else
      match RatingOf(m.rating.value)
      case None => None
      case Some(rating) =>
        if m.summary.None? || m.tip.None? || m.confidence.None? then None
        else
          match ConfidenceOf(m.confidence.value)
          case None => None
          case Some(confidence) =>
            Some(Insight(
              m.windowStart.value,
              parseIso(m.windowStart.value).GetOr(now),
              parseIso(m.windowEnd.value).GetOr(now),
              rating,
              m.summary.value,
              m.issues.GetOr([]),
              m.suggestions.GetOr([]),
              m.tip.value,
              confidence))
  }

  /** The message an accepted insight reads back from: the same insight comes out. */
  function AsMessage(i: Insight, startText: string, endText: string): (m: TelemetryMessage)
    ensures m.msgType == Some(InsightUpdateType) && m.windowStart == Some(startText) && m.windowEnd == Some(endText)
  {
    TelemetryMessage(None, Some(InsightUpdateType), None, None, None, None, None, None,
                     Some(startText), Some(endText), Some(i.rating.RawValue()), Some(i.summary),
                     Some(i.issues), Some(i.suggestions), Some(i.tip), Some(i.confidence.RawValue()))
  }

  /**
   * Writing an insight out with its id as the start text and bound texts
   * that parse to its instants, then reading it back, gives the insight.
   */
  lemma FromAsMessage(i: Insight, endText: string, parseIso: string -> Option<real>, now: real)
    requires parseIso(i.id) == Some(i.windowStart) && parseIso(endText) == Some(i.windowEnd)
    ensures From(AsMessage(i, i.id, endText), parseIso, now) == Some(i)
  {
    RatingRoundTrip(i.rating, "");
    ConfidenceRoundTrip(i.confidence, "");
  }
}
