/**
 * The server's deterministic insight (`createFallbackInsight` in
 * backend/server.js), used when no language model is configured or the
 * model call fails, and the insight shapes the pipeline passes around.
 */
module FallbackInsight {
  import opened Wrappers
  import opened Vocabulary
  import Features
  import Windows
  import JsValues

  /** An insight as the fallbacks build it: every field present, rating and confidence from the vocabulary. */
  datatype Advice = Advice(
    rating: Rating,
    summary: string,
    issues: seq<string>,
    suggestions: seq<string>,
    tip: string,
    confidence: Confidence)

  /**
   * An insight as the server reads it: either a fallback or the model's
   * parsed JSON object, so any field may be missing and the rating and
   * confidence are unchecked strings. Fields of other JSON types are not
   * represented.
   */
  datatype Reply = Reply(
    rating: Option<string>,
    summary: Option<string>,
    issues: Option<seq<string>>,
    suggestions: Option<seq<string>>,
    tip: Option<string>,
    confidence: Option<string>)

  /** A fallback seen as a reply: every field present, the enums as their raw values. */
  function AsReply(a: Advice): (r: Reply)
    ensures r.rating == Some(a.rating.RawValue()) && r.confidence == Some(a.confidence.RawValue())
    ensures r.summary == Some(a.summary) && r.tip == Some(a.tip)
    ensures r.issues == Some(a.issues) && r.suggestions == Some(a.suggestions)
  {
    Reply(Some(a.rating.RawValue()), Some(a.summary), Some(a.issues), Some(a.suggestions), Some(a.tip),
          Some(a.confidence.RawValue()))
  }

  // ---------------------------------------------------------------------
  // The choices the fallback makes

  /**
   * `avgSlouch`: the mean of the two slouch shares when both sensors have
   * data, the active sensor's share when one has, and 0 otherwise.
   */
  function AvgSlouch(f: Features.WindowFeatures): (avg: real)
    ensures f.sensor1.hasData && f.sensor2.hasData ==> avg == (f.sensor1.slouchPercent + f.sensor2.slouchPercent) / 2.0
    ensures f.sensor1.hasData && !f.sensor2.hasData ==> avg == f.sensor1.slouchPercent
    ensures !f.sensor1.hasData && f.sensor2.hasData ==> avg == f.sensor2.slouchPercent
    ensures !f.sensor1.hasData && !f.sensor2.hasData ==> avg == 0.0
  {
    if f.sensor1.hasData && f.sensor2.hasData then (f.sensor1.slouchPercent + f.sensor2.slouchPercent) / 2.0
    else if f.sensor1.hasData then f.sensor1.slouchPercent
    else if f.sensor2.hasData then f.sensor2.slouchPercent
    else 0.0
  }

  /** The rating thresholds: poor from 60 %, not so good from 40 %, fair from 15 %, else good. */
  function RatingFor(avg: real): (r: Rating)
    ensures r == Poor <==> avg >= 60.0
    ensures r == NotSoGood <==> 40.0 <= avg < 60.0
    ensures r == Fair <==> 15.0 <= avg < 40.0
    ensures r == Good <==> avg < 15.0
  {
    if avg >= 60.0 then Poor else if avg >= 40.0 then NotSoGood else if avg >= 15.0 then Fair else Good
  }

  /** `(sensor1.sampleCount + sensor2.sampleCount) % 4`: an index into every four-entry table. */
  function Variation(f: Features.WindowFeatures): (v: nat)
    ensures v < 4
    ensures (f.sensor1.sampleCount + f.sensor2.sampleCount - v) % 4 == 0
  {
    (f.sensor1.sampleCount + f.sensor2.sampleCount) % 4
  }

  /** High confidence for good data, medium for partial, low otherwise. */
  function ConfidenceFor(q: Features.DataQuality): (c: Confidence)
    ensures c == High <==> q.Good?
    ensures c == Medium <==> q.Partial?
    ensures c == Low <==> q.Low?
  {
    match q
    case Good => High
    case Partial => Medium
    case Low => Low
  }

  /** A higher average slouch share never gives a better rating. */
  lemma RatingMonotone(a1: real, a2: real)
    requires a1 <= a2
    ensures RatingFor(a1).Severity() <= RatingFor(a2).Severity()
  {
  }

  /** For features the extractor computed, the average slouch share is a percentage. */
  lemma AvgSlouchIsPercentage(w: Windows.Window)
    ensures 0.0 <= AvgSlouch(Features.ComputeWindowFeatures(w)) <= 100.0
  {
  }

  // ---------------------------------------------------------------------
  // The server's phrase tables

  const GoodSuggestion: string := "Keep maintaining good posture!"

  const GoodSummaries: seq<string> := [
    "Your posture looks excellent! You're maintaining good alignment throughout.",
    "Great job! Your posture is well-aligned and consistent.",
    "Excellent posture maintenance. Keep it up!",
    "Your alignment is looking strong. Well done!"]

  const FairSummaries: seq<string> := [
    "Your posture could use some attention. You're slouching occasionally.",
    "You're showing some lean. Try to straighten up when you notice it.",
    "Moderate slouching detected. Focus on keeping your shoulders back.",
    "Your posture is okay but could be improved. Be mindful of lean."]

  const NotSoGoodSummaries: seq<string> := [
    "You're slouching noticeably. Try to sit up straighter.",
    "Noticeable lean detected. Make an effort to correct your posture.",
    "You're leaning often. Focus on keeping your back straight.",
    "Your posture needs attention. You're slouching more than usual."]

  const PoorSummaries: seq<string> := [
    "You're slouching quite often. Try to sit up straighter.",
    "Frequent lean detected. Make an effort to correct your posture.",
    "You're leaning most of the time. Focus on keeping your back straight.",
    "Your posture needs attention. You're slouching regularly."]

  const FairIssues: seq<string> := [
    "You're leaning forward occasionally",
    "Some forward slouching detected",
    "Posture could be more consistent",
    "Occasional forward lean"]

  const NotSoGoodIssues: seq<string> := [
    "You're leaning forward often",
    "Noticeable forward slouching detected",
    "Posture needs improvement",
    "Regular forward lean"]

  const PoorIssues: seq<string> := [
    "You're slouching forward frequently",
    "Frequent forward lean detected",
    "Posture needs significant improvement",
    "Persistent forward slouching"]

  const FairSuggestions: seq<string> := [
    "Try a 20–30s posture reset: shoulders back, chin neutral, sit tall",
    "Take breaks to check your posture and straighten up",
    "Adjust your screen height so you can see without leaning forward",
    "Consider using lumbar support to help maintain alignment"]

  const NotSoGoodSuggestions: seq<string> := [
    "Take breaks to reset your posture: shoulders back, chin neutral, sit tall",
    "Raise your screen to eye level to reduce forward lean",
    "Use lumbar support and adjust your chair height",
    "Set reminders to check and correct your posture every 15 minutes"]

  const PoorSuggestions: seq<string> := [
    "Take frequent breaks to reset your posture: shoulders back, chin neutral",
    "Raise your screen to eye level to reduce forward lean",
    "Use lumbar support and adjust your chair height",
    "Set reminders to check and correct your posture every 15 minutes"]

  const GoodTips: seq<string> := [
    "Keep up the great work maintaining good posture!",
    "You're doing well! Continue to be mindful of your alignment.",
    "Excellent posture habits! Keep them up.",
    "Great job! Your consistent good posture is paying off."]

  const FairTips: seq<string> := [
    "Set a reminder every 15 minutes to check your posture",
    "Try posture exercises to strengthen your back muscles",
    "Be more mindful of when you start to lean forward",
    "Take a quick posture break right now - sit tall!"]

  const NotSoGoodTips: seq<string> := [
    "Start by setting a reminder every 15 minutes to check your posture",
    "Try a posture reset right now: sit tall, shoulders back",
    "Consider ergonomic adjustments to your workspace",
    "Focus on small, frequent posture corrections throughout the day"]

  const PoorTips: seq<string> := [
    "Start by setting a reminder every 15 minutes to check your posture",
    "Try a posture reset right now: sit tall, shoulders back",
    "Consider ergonomic adjustments to your workspace",
    "Focus on small, frequent posture corrections throughout the day"]

  function Summaries(r: Rating): (s: seq<string>)
    ensures |s| == 4
  {
    match r
    case Good => GoodSummaries
    case Fair => FairSummaries
    case NotSoGood => NotSoGoodSummaries
    case Poor => PoorSummaries
  }

  /** `issuesFair`, `issuesNotSoGood`, `issuesPoor`; a good rating has no issues. */
  function Issues(r: Rating): (s: seq<string>)
    requires r != Good
    ensures |s| == 4
  {
    match r
    case Fair => FairIssues
    case NotSoGood => NotSoGoodIssues
    case Poor => PoorIssues
  }

  /** `suggestionsFair`, `suggestionsNotSoGood`, `suggestionsPoor`. */
  function Suggestions(r: Rating): (s: seq<string>)
    requires r != Good
    ensures |s| == 4
  {
    match r
    case Fair => FairSuggestions
    case NotSoGood => NotSoGoodSuggestions
    case Poor => PoorSuggestions
  }

  function Tips(r: Rating): (s: seq<string>)
    ensures |s| == 4
  {
    match r
    case Good => GoodTips
    case Fair => FairTips
    case NotSoGood => NotSoGoodTips
    case Poor => PoorTips
  }

  /** Neighbouring entries of a suggestion table (cyclically) differ. */
  lemma SuggestionNeighboursDiffer(r: Rating, v: nat)
    requires v < 4
    ensures r != Good ==> Suggestions(r)[v] != Suggestions(r)[(v + 1) % 4]
  {
  }

  // ---------------------------------------------------------------------
  // The fallback insight

  /**
   * `createFallbackInsight`: the rating follows the average slouch share
   * and the confidence the data quality; the variation picks the summary
   * and tip; a good rating has no issue and the one stock suggestion, any
   * other rating one issue and two different suggestions.
   */
  function CreateFallbackInsight(f: Features.WindowFeatures): (a: Advice)
    ensures a.rating == RatingFor(AvgSlouch(f))
    ensures a.confidence == ConfidenceFor(f.quality.dataQuality)
    ensures a.summary == Summaries(a.rating)[Variation(f)]
    ensures a.tip == Tips(a.rating)[Variation(f)]
    ensures a.rating == Good ==> a.issues == [] && a.suggestions == [GoodSuggestion]
    ensures a.rating != Good ==>
      && a.issues == [Issues(a.rating)[Variation(f)]]
      && |a.suggestions| == 2
      && a.suggestions[0] == Suggestions(a.rating)[Variation(f)]
      && a.suggestions[0] != a.suggestions[1]
      && a.suggestions[1] == Suggestions(a.rating)[(Variation(f) + 1) % 4]
  {
    var rating := RatingFor(AvgSlouch(f));
    var v := Variation(f);
    var issues := if rating == Good then [] else [Issues(rating)[v]];
    SuggestionNeighboursDiffer(rating, v);
    var suggestions :=
      if rating == Good then [GoodSuggestion]
      else [Suggestions(rating)[v], Suggestions(rating)[(v + 1) % 4]];
    Advice(rating, Summaries(rating)[v], issues, suggestions, Tips(rating)[v], ConfidenceFor(f.quality.dataQuality))
  }

  /**
   * A window with only twenty calm samples on one sensor gets a good
   * rating, no issues and low confidence.
   */
  lemma QuietWindowFallback(s: JsValues.Record, start: int, end: int)
    requires JsValues.FinitePitch(s) == Some(5.0)
    ensures var a := CreateFallbackInsight(Features.ComputeWindowFeatures(Windows.Window(seq(20, _ => s), [], start, end)));
      a.rating == Good && a.issues == [] && a.confidence == Low
  {
    Features.OneQuietSensor(s, start, end);
  }
}
