/**
 * The deterministic parts of backend/gemini.js: the insight computed beside
 * the model call (`generateInsight`'s own fallback copy), the choice
 * between the parsed reply and that fallback, and the two prompt
 * summaries.
 */
module Gemini {
  import opened Wrappers
  import opened JsValues
  import opened Vocabulary
  import opened FallbackInsight
  import Features

  // ---------------------------------------------------------------------
  // The fallback copy and its phrase tables

  const GoodSummariesCopy: seq<string> := [
    "Your posture looks excellent! You're maintaining good alignment throughout.",
    "Great job! Your posture is well-aligned and consistent.",
    "Excellent posture maintenance. Keep it up!",
    "Your alignment is looking strong. Well done!"]

  const FairSummariesCopy: seq<string> := [
    "Your posture could use some attention. You're slouching occasionally.",
    "You're showing some lean. Try to straighten up when you notice it.",
    "Moderate slouching detected. Focus on keeping your shoulders back.",
    "Your posture is okay but could be improved. Be mindful of lean."]

  const NotSoGoodSummariesCopy: seq<string> := [
    "You're slouching noticeably. Try to sit up straighter.",
    "Noticeable lean detected. Make an effort to correct your posture.",
    "You're leaning often. Focus on keeping your back straight.",
    "Your posture needs attention. You're slouching more than usual."]

  const PoorSummariesCopy: seq<string> := [
    "You're slouching quite often. Try to sit up straighter.",
    "Frequent lean detected. Make an effort to correct your posture.",
    "You're leaning most of the time. Focus on keeping your back straight.",
    "Your posture needs attention. You're slouching regularly."]

  const FairIssuesCopy: seq<string> := [
    "You're leaning occasionally",
    "Some slouching detected",
    "Posture could be more consistent",
    "Occasional lean"]

  const NotSoGoodIssuesCopy: seq<string> := [
    "You're leaning often",
    "Noticeable slouching detected",
    "Posture needs improvement",
    "Regular lean"]

  const PoorIssuesCopy: seq<string> := [
    "You're slouching frequently",
    "Frequent lean detected",
    "Posture needs significant improvement",
    "Persistent slouching"]

  const FairSuggestionsCopy: seq<string> := [
    "Try a 20–30s posture reset: shoulders back, chin neutral, sit tall",
    "Take breaks to check your posture and straighten up",
    "Adjust your screen height so you can see without leaning",
    "Consider using lumbar support to help maintain alignment"]

  const NotSoGoodSuggestionsCopy: seq<string> := [
    "Take breaks to reset your posture: shoulders back, chin neutral, sit tall",
    "Raise your screen to eye level to reduce lean",
    "Use lumbar support and adjust your chair height",
    "Set reminders to check and correct your posture every 15 minutes"]

  const PoorSuggestionsCopy: seq<string> := [
    "Take frequent breaks to reset your posture: shoulders back, chin neutral",
    "Raise your screen to eye level to reduce lean",
    "Use lumbar support and adjust your chair height",
    "Set reminders to check and correct your posture every 15 minutes"]

  const GoodTipsCopy: seq<string> := [
    "Keep up the great work maintaining good posture!",
    "You're doing well! Continue to be mindful of your alignment.",
    "Excellent posture habits! Keep them up.",
    "Great job! Your consistent good posture is paying off."]

  const FairTipsCopy: seq<string> := [
    "Set a reminder every 15 minutes to check your posture",
    "Try posture exercises to strengthen your back muscles",
    "Be more mindful of when you start to lean",
    "Take a quick posture break right now - sit tall!"]

  const NotSoGoodTipsCopy: seq<string> := [
    "Start by setting a reminder every 15 minutes to check your posture",
    "Try a posture reset right now: sit tall, shoulders back",
    "Consider ergonomic adjustments to your workspace",
    "Focus on small, frequent posture corrections throughout the day"]

  const PoorTipsCopy: seq<string> := [
    "Start by setting a reminder every 15 minutes to check your posture",
    "Try a posture reset right now: sit tall, shoulders back",
    "Consider ergonomic adjustments to your workspace",
    "Focus on small, frequent posture corrections throughout the day"]

  function SummariesCopy(r: Rating): (s: seq<string>)
    ensures |s| == 4
  {
    match r
    case Good => GoodSummariesCopy
    case Fair => FairSummariesCopy
    case NotSoGood => NotSoGoodSummariesCopy
    case Poor => PoorSummariesCopy
  }

  function IssuesCopy(r: Rating): (s: seq<string>)
    requires r != Good
    ensures |s| == 4
  {
    match r
    case Fair => FairIssuesCopy
    case NotSoGood => NotSoGoodIssuesCopy
    case Poor => PoorIssuesCopy
  }

  function SuggestionsCopy(r: Rating): (s: seq<string>)
    requires r != Good
    ensures |s| == 4
  {
    match r
    case Fair => FairSuggestionsCopy
    case NotSoGood => NotSoGoodSuggestionsCopy
    case Poor => PoorSuggestionsCopy
  }

  function TipsCopy(r: Rating): (s: seq<string>)
    ensures |s| == 4
  {
    match r
    case Good => GoodTipsCopy
    case Fair => FairTipsCopy
    case NotSoGood => NotSoGoodTipsCopy
    case Poor => PoorTipsCopy
  }

  /**
   * The fallback inside `generateInsight`, with its own average, variation
   * and rating thresholds: a good rating has no issue and the one stock
   * suggestion, any other rating one issue and two different suggestions;
   * the confidence follows the data quality.
   */
  function GeminiFallback(f: Features.WindowFeatures): (a: Advice)
    ensures a.rating == Good ==> a.issues == [] && a.suggestions == ["Keep maintaining good posture!"]
    ensures a.rating != Good ==> |a.issues| == 1 && |a.suggestions| == 2 && a.suggestions[0] != a.suggestions[1]
    ensures a.confidence == High <==> f.quality.dataQuality.Good?
    ensures a.confidence == Medium <==> f.quality.dataQuality.Partial?
    ensures a.confidence == Low <==> f.quality.dataQuality.Low?
  {
    var avgSlouch :=
      if f.sensor1.hasData && f.sensor2.hasData then (f.sensor1.slouchPercent + f.sensor2.slouchPercent) / 2.0
      else if f.sensor1.hasData then f.sensor1.slouchPercent
      else if f.sensor2.hasData then f.sensor2.slouchPercent
      else 0.0;
    var variation := (f.sensor1.sampleCount + f.sensor2.sampleCount) % 4;
    var rating := if avgSlouch >= 60.0 then Poor else if avgSlouch >= 40.0 then NotSoGood else if avgSlouch >= 15.0 then Fair else Good;
    var issues := if rating == Good then [] else [IssuesCopy(rating)[variation]];
    var suggestions :=
      if rating == Good then ["Keep maintaining good posture!"]
      else [SuggestionsCopy(rating)[variation], SuggestionsCopy(rating)[(variation + 1) % 4]];
    var confidence :=
      if f.quality.dataQuality == Features.Good then High
      else if f.quality.dataQuality == Features.Partial then Medium
      else Low;
    Advice(rating, SummariesCopy(rating)[variation], issues, suggestions, TipsCopy(rating)[variation], confidence)
  }

  // ---------------------------------------------------------------------
  // How the two fallbacks compare

  /** Only the third issue (index 2) reads the same in the two copies. */
  lemma IssueTablesAgreeOnlyAtTwo(r: Rating, v: nat)
    requires r != Good && v < 4
    ensures IssuesCopy(r)[v] == Issues(r)[v] <==> v == 2
  {
  }

  /** The fair tables differ in their third suggestion, the other two in their second. */
  lemma SuggestionTablesDiffer(r: Rating, v: nat)
    requires r != Good && v < 4
    ensures r == Fair ==> (SuggestionsCopy(r)[v] == Suggestions(r)[v] <==> v != 2)
    ensures r != Fair ==> (SuggestionsCopy(r)[v] == Suggestions(r)[v] <==> v != 1)
  {
  }

  /** The tip tables differ only in the third fair tip. */
  lemma TipTablesDiffer(r: Rating, v: nat)
    requires v < 4
    ensures TipsCopy(r)[v] == Tips(r)[v] <==> !(r == Fair && v == 2)
  {
  }

  /**
   * For the same features, the model-side fallback and the server's agree
   * on rating, confidence, summary and list lengths; issues, suggestions and
   * tip differ only in wording, and only for the entries named here.
   */
  lemma FallbacksAgree(f: Features.WindowFeatures)
    ensures var s, g := CreateFallbackInsight(f), GeminiFallback(f);
      && g.rating == s.rating && g.confidence == s.confidence && g.summary == s.summary
      && |g.issues| == |s.issues| && |g.suggestions| == |s.suggestions|
      && (g.tip == s.tip <==> !(s.rating == Fair && Variation(f) == 2))
      && (s.rating == Good ==> g.issues == s.issues && g.suggestions == s.suggestions)
      && (s.rating != Good ==> (g.issues == s.issues <==> Variation(f) == 2))
      && (s.rating == Fair ==> (g.suggestions == s.suggestions <==> Variation(f) == 0 || Variation(f) == 3))
      && (s.rating == NotSoGood || s.rating == Poor ==> (g.suggestions == s.suggestions <==> Variation(f) >= 2))
  {
    var s, g := CreateFallbackInsight(f), GeminiFallback(f);
    var v := Variation(f);
    assert GoodSummariesCopy == GoodSummaries && FairSummariesCopy == FairSummaries;
    assert NotSoGoodSummariesCopy == NotSoGoodSummaries && PoorSummariesCopy == PoorSummaries;
    TipTablesDiffer(s.rating, v);
    if s.rating != Good {
      IssueTablesAgreeOnlyAtTwo(s.rating, v);
      assert g.issues == s.issues <==> g.issues[0] == s.issues[0];
      var w := (v + 1) % 4;
      SuggestionTablesDiffer(s.rating, v);
      SuggestionTablesDiffer(s.rating, w);
      assert g.suggestions == s.suggestions <==> g.suggestions[0] == s.suggestions[0] && g.suggestions[1] == s.suggestions[1];
    }
  }

  // ---------------------------------------------------------------------
  // Choosing the reply

  /**
   * `parsed ?? fallback`: the model's parsed JSON is used as it is whenever
   * parsing gave a non-null value (`Some`), with no check of its fields;
   * otherwise the local fallback.
   */
  function GenerateInsight(f: Features.WindowFeatures, parsed: Option<Reply>): (r: Reply)
    ensures parsed.Some? ==> r == parsed.value
    ensures parsed.None? ==> r == AsReply(GeminiFallback(f))
  {
    match parsed
    case Some(reply) => reply
    case None => AsReply(GeminiFallback(f))
  }

  /**
   * A reply that falls back is complete and uses the app's vocabulary; a
   * parsed reply is passed on even with a rating the app does not know.
   */
  lemma GenerateInsightChecksNothing(f: Features.WindowFeatures, parsed: Option<Reply>)
    ensures parsed.None? ==>
      var r := GenerateInsight(f, parsed);
      && r.summary.Some? && r.tip.Some? && r.issues.Some? && r.suggestions.Some?
      && r.rating.Some? && RatingOf(r.rating.value).Some?
      && r.confidence.Some? && ConfidenceOf(r.confidence.value).Some?
    ensures parsed == Some(Reply(Some("excellent"), None, None, None, None, None)) ==>
      RatingOf(GenerateInsight(f, parsed).rating.value).None?
  {
    var a := GeminiFallback(f);
    RatingRoundTrip(a.rating, "");
    ConfidenceRoundTrip(a.confidence, "");
  }

  // ---------------------------------------------------------------------
  // Prompt summaries

  /** `buildTelemetrySummary` fixes its own slouch threshold of 15 degrees. */
  const TelemetrySlouchDeg: real := 15.0

  /**
   * What `buildTelemetrySummary` reports: one of two fixed sentences, or the
   * figures its four text lines print (rounded there with `toFixed`).
   */
  datatype TelemetrySummary =
    | NoSamples
    | NoNumericPitch
    | Report(count: nat, minPitch: real, avgPitch: real, maxPitch: real, slouchPercent: real,
             lastPitch: JsValue, lastTs: JsValue)
  {
    /** The text of the two fixed answers. */
    function FixedText(): (s: string)
      requires !Report?
      ensures s != []
    {
      if NoSamples? then "No samples available." else "No numeric pitch samples available."
    }
  }

  /**
   * `buildTelemetrySummary`: no samples, or no finite numeric pitch among
   * them, give the fixed sentences; otherwise the count, extremes and mean
   * of the finite pitches, the share at or above 15 degrees, and the last
   * sample's raw pitch and time stamp.
   */
  function BuildTelemetrySummary(samples: seq<Record>): (r: TelemetrySummary)
    ensures r == NoSamples <==> samples == []
    ensures r == NoNumericPitch <==> samples != [] && Features.Pitches(samples) == []
    ensures r.Report? ==>
      && r.count == |Features.Pitches(samples)| > 0
      && r.minPitch <= r.avgPitch <= r.maxPitch
      && 0.0 <= r.slouchPercent <= 100.0
      && r.lastPitch == Get(samples[|samples| - 1], "pitch")
      && r.lastTs == Get(samples[|samples| - 1], "ts")
  {
    if samples == [] then NoSamples
    else
      var ps := Features.Pitches(samples);
      if ps == [] then NoNumericPitch
      else
        var n := |ps| as real;
        var slouchCount := Features.CountAtLeast(ps, TelemetrySlouchDeg);
        Features.PercentBounds(slouchCount, |ps|);
        Features.MeanBetweenMinAndMax(ps);
        var last := samples[|samples| - 1];
        Report(|ps|, Features.Min(ps), Features.Sum(ps) / n, Features.Max(ps), (slouchCount as real / n) * 100.0,
               Get(last, "pitch"), Get(last, "ts"))
  }

  /**
   * The telemetry summary reports the same count, extremes, mean and slouch
   * share as the window statistics of the same samples.
   */
  lemma TelemetrySummaryAgreesWithStats(samples: seq<Record>)
    requires BuildTelemetrySummary(samples).Report?
    ensures var r, st := BuildTelemetrySummary(samples), Features.ComputeSensorStats(samples);
      && st.hasData && r.count == st.sampleCount
      && Some(r.minPitch) == st.minPitch && Some(r.avgPitch) == st.meanPitch && Some(r.maxPitch) == st.maxPitch
      && r.slouchPercent == st.slouchPercent
  {
  }

  /** A line of `buildFeatureSummary` about one sensor. */
  datatype SensorLine =
    | NoDataLine
    | StatsLine(sampleCount: nat, meanPitch: Option<real>, minPitch: Option<real>, maxPitch: Option<real>, slouchPercent: real)
  {
    function FixedText(): string
      requires NoDataLine?
    {
      "  No data"
    }
  }

  /** The alignment line of `buildFeatureSummary`. */
  datatype AlignmentLine =
    | OnlyOneSensorLine
    | ScoreLine(pitchDifference: Option<real>, alignmentScore: Option<real>)
  {
    function FixedText(): string
      requires OnlyOneSensorLine?
    {
      "  Only one sensor active"
    }
  }

  /** The lines of `buildFeatureSummary`, the numbers kept as numbers. */
  datatype FeatureSummary = FeatureSummary(
    windowStart: int,
    windowEnd: int,
    sensor1: SensorLine,
    sensor2: SensorLine,
    alignment: AlignmentLine,
    qualityLine: string,
    slouchThresholdDeg: real)

  const LowSampleNote: string := " (low sample count)"

  function SensorLineOf(s: Features.SensorStats): (l: SensorLine)
    ensures l.NoDataLine? <==> !s.hasData
    ensures l.StatsLine? ==> l.sampleCount == s.sampleCount && l.meanPitch == s.meanPitch && l.slouchPercent == s.slouchPercent
    ensures l.StatsLine? ==> l.minPitch == s.minPitch && l.maxPitch == s.maxPitch
  {
    if s.hasData then StatsLine(s.sampleCount, s.meanPitch, s.minPitch, s.maxPitch, s.slouchPercent) else NoDataLine
  }

  predicate EndsWith(s: string, suffix: string) {
    |s| >= |suffix| && s[|s| - |suffix|..] == suffix
  }

  predicate StartsWith(s: string, prefix: string) {
    |s| >= |prefix| && s[..|prefix|] == prefix
  }

  /** `Data quality: <class>`, with the low-sample note exactly when the counts are low. */
  function QualityLine(q: Features.Quality): (line: string)
    ensures StartsWith(line, "Data quality: " + q.dataQuality.Name())
    ensures EndsWith(line, LowSampleNote) <==> q.lowSamples
  {
    var head := "Data quality: " + q.dataQuality.Name();
    assert (head + (if q.lowSamples then LowSampleNote else ""))[..|head|] == head;
    AppendedSuffix(head, LowSampleNote);
    QualityHeadHasNoNote(q.dataQuality);
    head + (if q.lowSamples then LowSampleNote else "")
  }

  lemma AppendedSuffix(head: string, suffix: string)
    ensures EndsWith(head + suffix, suffix)
  {
    assert (head + suffix)[|head|..] == suffix;
  }

  /** The quality line without the note does not end like the note: its last letter is not `)`. */
  lemma QualityHeadHasNoNote(d: Features.DataQuality)
    ensures !EndsWith("Data quality: " + d.Name(), LowSampleNote)
  {
    var head := "Data quality: " + d.Name();
    assert head[|head| - 1] != ')';
    assert LowSampleNote[|LowSampleNote| - 1] == ')';
    if |head| >= |LowSampleNote| {
      var tail := head[|head| - |LowSampleNote|..];
      assert tail[|tail| - 1] == head[|head| - 1];
      assert tail != LowSampleNote;
    }
  }

  /**
   * `buildFeatureSummary`: "  No data" for a sensor without data, "  Only
   * one sensor active" unless both are active, otherwise the difference and
   * score; the quality line names the quality class and ends in the
   * low-sample note exactly when the sample counts are low.
   */
  function BuildFeatureSummary(f: Features.WindowFeatures): (r: FeatureSummary)
    ensures r.sensor1.NoDataLine? <==> !f.sensor1.hasData
    ensures r.sensor2.NoDataLine? <==> !f.sensor2.hasData
    ensures r.alignment.OnlyOneSensorLine? <==> !f.alignment.bothActive
    ensures r.alignment.ScoreLine? ==> r.alignment.alignmentScore == f.alignment.alignmentScore
    ensures r.alignment.ScoreLine? ==> r.alignment.pitchDifference == f.alignment.pitchDifference
    ensures r.sensor1 == SensorLineOf(f.sensor1) && r.sensor2 == SensorLineOf(f.sensor2)
    ensures StartsWith(r.qualityLine, "Data quality: " + f.quality.dataQuality.Name())
    ensures EndsWith(r.qualityLine, LowSampleNote) <==> f.quality.lowSamples
    ensures r.windowStart == f.windowStart && r.windowEnd == f.windowEnd && r.slouchThresholdDeg == f.slouchThresholdDeg
  {
    var alignment :=
      if f.alignment.bothActive then ScoreLine(f.alignment.pitchDifference, f.alignment.alignmentScore)
      else OnlyOneSensorLine;
    FeatureSummary(f.windowStart, f.windowEnd, SensorLineOf(f.sensor1), SensorLineOf(f.sensor2), alignment,
                   QualityLine(f.quality), f.slouchThresholdDeg)
  }

  /** A window without samples is summarised with both "No data" lines and the single-sensor line. */
  lemma EmptyWindowSummary(w: Windows.Window)
    requires w.sensor1 == [] && w.sensor2 == []
    ensures var r := BuildFeatureSummary(Features.ComputeWindowFeatures(w));
      r.sensor1.NoDataLine? && r.sensor2.NoDataLine? && r.alignment.OnlyOneSensorLine?
      && r.qualityLine == "Data quality: low (low sample count)"
  {
    Features.EmptyWindowIsLow(w);
  }
}
