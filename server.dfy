/**
 * The telemetry server's state and its two state-changing steps
 * (backend/server.js): `handleIncoming`, which validates a posted body,
 * records it and feeds samples to the window table, and
 * `processClosedWindow`, which turns a closed window into an insight at
 * most once.
 *
 * Both run to completion here, one call after another; the source starts
 * `processClosedWindow` without awaiting it.
 */
module Server {
  import opened Wrappers
  import opened JsValues
  import opened OrderedIds
  import opened Windows
  import opened Features
  import opened FallbackInsight
  import opened Gemini
  import opened Ingress

  /** `MAX_BUFFER`: entries kept per sensor history. */
  const MaxBuffer: nat := 2000
  /** `MAX_INSIGHT_HISTORY`. */
  const MaxInsightHistory: nat := 240
  /** `MIN_SAMPLES_THRESHOLD`: fewer samples than this in a window give no insight. */
  const MinSamplesThreshold: nat := 10
  /** How many processed window ids are remembered. */
  const ProcessedWindowsKept: nat := 500
  /** The window count `trimHistory` is called with. */
  const WindowsKept: nat := 240

  // ---------------------------------------------------------------------
  // Bounded histories and the processed-id set

  /** Appending to a capped list, then dropping its first entry once it exceeds the cap, as a value. */
  function PushBounded<T>(h: seq<T>, x: T, cap: nat): (r: seq<T>)
    requires cap > 0
    ensures |h| <= cap ==> |r| <= cap
    ensures r != [] && r[|r| - 1] == x
    ensures |h| < cap ==> r == h + [x]
    ensures |h| >= cap ==> r == h[1..] + [x]
  {
    var pushed := h + [x];
    if |pushed| > cap then pushed[1..] else pushed
  }

  /** Pushing onto a full history drops exactly the oldest entry. */
  lemma PushBoundedDropsOldest<T>(h: seq<T>, x: T, cap: nat)
    requires cap > 0 && |h| == cap
    ensures |PushBounded(h, x, cap)| == cap
    ensures forall i :: 1 <= i < |h| ==> PushBounded(h, x, cap)[i - 1] == h[i]
  {
  }

  predicate Distinct(s: seq<int>) {
    forall i, j :: 0 <= i < j < |s| ==> s[i] != s[j]
  }

  lemma DistinctAppend(s: seq<int>, x: int)
    requires Distinct(s) && x !in s
    ensures Distinct(s + [x])
  {
    var t := s + [x];
    forall i, j | 0 <= i < j < |t| ensures t[i] != t[j] {
      if j < |s| {
        assert t[i] == s[i] && t[j] == s[j];
      } else {
        assert t[i] == s[i] && t[j] == x;
      }
    }
  }

  /**
   * The eviction of `processedWindows`: when more than `n` ids are held, the
   * earliest inserted go and the `n` latest stay, in order.
   */
  function KeepLatest(ids: seq<int>, n: nat): (r: seq<int>)
    ensures |ids| <= n ==> r == ids
    ensures |ids| > n ==> |r| == n
    ensures r == ids[|ids| - |r|..]
    ensures Distinct(ids) ==> Distinct(r)
  {
    if |ids| > n then ids[|ids| - n..] else ids
  }

  // ---------------------------------------------------------------------
  // Insights

  /** The insight object the server stores and broadcasts; the bounds are instants. */
  datatype InsightUpdate = InsightUpdate(
    windowStart: int,
    windowEnd: int,
    rating: Option<string>,
    summary: Option<string>,
    issues: seq<string>,
    suggestions: seq<string>,
    tip: Option<string>,
    confidence: Option<string>,
    features: WindowFeatures)

  /** What the model call did: no key configured, the call threw, or it returned text that parsed to `parsed`. */
  datatype GeminiCall = NoApiKey | Threw | Returned(parsed: Option<Reply>)

  /**
   * The insight for a processed window: the server's own fallback without
   * a key or when the call throws, otherwise what `generateInsight` gave.
   */
  function ChooseInsight(f: WindowFeatures, call: GeminiCall): (r: Reply)
    ensures !call.Returned? ==> r == AsReply(CreateFallbackInsight(f))
    ensures call.Returned? && call.parsed.Some? ==> r == call.parsed.value
    ensures call.Returned? && call.parsed.None? ==> r == AsReply(GeminiFallback(f))
  {
    match call
    case Returned(parsed) => GenerateInsight(f, parsed)
    case _ => AsReply(CreateFallbackInsight(f))
  }

  /** The stored object: the window bounds, the reply's fields, missing lists read as empty. */
  function InsightObject(f: WindowFeatures, r: Reply): (o: InsightUpdate)
    ensures o.windowStart == f.windowStart && o.windowEnd == f.windowEnd && o.features == f
    ensures o.rating == r.rating && o.summary == r.summary && o.tip == r.tip && o.confidence == r.confidence
    ensures o.issues == r.issues.GetOr([]) && o.suggestions == r.suggestions.GetOr([])
  {
    InsightUpdate(f.windowStart, f.windowEnd, r.rating, r.summary, r.issues.GetOr([]), r.suggestions.GetOr([]),
                  r.tip, r.confidence, f)
  }

  /** Which way `processClosedWindow` goes for a window id. */
  datatype Gate = AlreadyProcessed | NoWindow | TooFewSamples | Process

  /**
   * The checks at the top of `processClosedWindow`, in order: an id already
   * processed, then a window the table does not hold, then one with fewer
   * than ten samples over both sensors.
   */
  function GateOf(processed: seq<int>, windows: map<int, Window>, id: int): (g: Gate)
    ensures g == AlreadyProcessed <==> id in processed
    ensures g == NoWindow <==> id !in processed && id !in windows
    ensures g == TooFewSamples <==>
      id !in processed && id in windows && |windows[id].sensor1| + |windows[id].sensor2| < MinSamplesThreshold
    ensures g == Process <==>
      id !in processed && id in windows && |windows[id].sensor1| + |windows[id].sensor2| >= MinSamplesThreshold
  {
    if id in processed then AlreadyProcessed
    else if id !in windows then NoWindow
    else if |windows[id].sensor1| + |windows[id].sensor2| < MinSamplesThreshold then TooFewSamples
    else Process
  }

  /** A window that was turned into an insight is never turned into another while its id is remembered. */
  lemma ProcessedOnce(processed: seq<int>, windows: map<int, Window>, id: int)
    requires GateOf(processed, windows, id) == Process
    ensures GateOf(KeepLatest(processed + [id], ProcessedWindowsKept), windows, id) == AlreadyProcessed
  {
    var after := processed + [id];
    var kept := KeepLatest(after, ProcessedWindowsKept);
    assert kept[|kept| - 1] == after[|after| - 1] == id;
  }

  // ---------------------------------------------------------------------
  // The server

  class TelemetryServer {
    var history1: seq<Record>
    var history2: seq<Record>
    var latest1: Record
    var latest2: Record
    const windowManager: WindowManager
    var latestInsight: Option<InsightUpdate>
    var insightHistory: seq<InsightUpdate>
    /** The `processedWindows` set, in insertion order. */
    var processedWindows: seq<int>

    ghost predicate Valid()
      reads this, windowManager
    {
      && windowManager.Valid()
      && |history1| <= MaxBuffer && |history2| <= MaxBuffer
      && |insightHistory| <= MaxInsightHistory
      && Distinct(processedWindows)
      && (latestInsight.Some? ==> insightHistory != [] && insightHistory[|insightHistory| - 1] == latestInsight.value)
    }

    /** The start-up state; `now` is the start-up time the two placeholder samples carry. */
    constructor (now: int)
      ensures Valid() && fresh(windowManager)
      ensures history1 == [] && history2 == [] && insightHistory == [] && processedWindows == []
      ensures latestInsight == None && windowManager.windows == map[]
      ensures latest1 == map["pitch" := Num(0.0), "ts" := Num(now as real), "source" := Num(1.0)]
      ensures latest2 == map["pitch" := Num(0.0), "ts" := Num(now as real), "source" := Num(2.0)]
    {
      history1 := [];
      history2 := [];
      latest1 := map["pitch" := Num(0.0), "ts" := Num(now as real), "source" := Num(1.0)];
      latest2 := map["pitch" := Num(0.0), "ts" := Num(now as real), "source" := Num(2.0)];
      windowManager := new WindowManager();
      latestInsight := None;
      insightHistory := [];
      processedWindows := [];
    }

    /**
     * `processClosedWindow`: an id already processed or without a window
     * changes nothing; a window with fewer than ten samples is only marked
     * processed; any other is marked, the remembered ids are cut to the 500
     * latest, its insight becomes the latest and joins the bounded history,
     * the table is trimmed to 240 windows and the window is removed.
     */
    method ProcessClosedWindow(id: int, call: GeminiCall)
      requires Valid()
      modifies this, windowManager
      ensures Valid()
      ensures history1 == old(history1) && history2 == old(history2)
      ensures latest1 == old(latest1) && latest2 == old(latest2)
      ensures windowManager.currentWindowId == old(windowManager.currentWindowId)
      ensures windowManager.lastClosedWindowId == old(windowManager.lastClosedWindowId)
      ensures id in old(processedWindows) || id in old(windowManager.windows) ==> id in processedWindows
      ensures var g := GateOf(old(processedWindows), old(windowManager.windows), id);
        && (g == AlreadyProcessed || g == NoWindow ==>
              && processedWindows == old(processedWindows)
              && latestInsight == old(latestInsight) && insightHistory == old(insightHistory)
              && windowManager.windows == old(windowManager.windows))
        && (g == TooFewSamples ==>
              && processedWindows == old(processedWindows) + [id]
              && latestInsight == old(latestInsight) && insightHistory == old(insightHistory)
              && windowManager.windows == old(windowManager.windows))
        && (g == Process ==>
              var f := ComputeWindowFeatures(old(windowManager.windows)[id]);
              var o := InsightObject(f, ChooseInsight(f, call));
              && processedWindows == KeepLatest(old(processedWindows) + [id], ProcessedWindowsKept)
              && |processedWindows| <= ProcessedWindowsKept
              && latestInsight == Some(o)
              && insightHistory == PushBounded(old(insightHistory), o, MaxInsightHistory)
              && id !in windowManager.windows
              && |windowManager.windows| <= WindowsKept
              && forall k :: k in windowManager.windows ==>
                   k in old(windowManager.windows) && windowManager.windows[k] == old(windowManager.windows)[k])
    {
      if id in processedWindows {
        return;
      }
      var window := windowManager.GetWindow(id);
      if window.None? {
        return;
      }
      var w := window.value;
      var totalSamples := |w.sensor1| + |w.sensor2|;
      DistinctAppend(processedWindows, id);
      if totalSamples < MinSamplesThreshold {
        processedWindows := processedWindows + [id];
        return;
      }
      processedWindows := processedWindows + [id];
      if |processedWindows| > ProcessedWindowsKept {
        // The ids are distinct, so deleting the first |ids| - 500 of them keeps the last 500.
        processedWindows := processedWindows[|processedWindows| - ProcessedWindowsKept..];
      }
      assert processedWindows == KeepLatest(old(processedWindows) + [id], ProcessedWindowsKept);
      assert processedWindows[|processedWindows| - 1] == id;
      var features := ComputeWindowFeatures(w);
      var insight := ChooseInsight(features, call);
      var insightObj := InsightObject(features, insight);
      RecordInsight(insightObj);
      windowManager.TrimHistory(WindowsKept);
      windowManager.RemoveWindow(id);
    }

    /** `latestInsight = insightObj; insightHistory.push(insightObj)`, shifting out the oldest beyond 240. */
    method RecordInsight(insightObj: InsightUpdate)
      requires |insightHistory| <= MaxInsightHistory
      modifies this
      ensures latestInsight == Some(insightObj)
      ensures insightHistory == PushBounded(old(insightHistory), insightObj, MaxInsightHistory)
      ensures history1 == old(history1) && history2 == old(history2)
      ensures latest1 == old(latest1) && latest2 == old(latest2)
      ensures processedWindows == old(processedWindows)
    {
      latestInsight := Some(insightObj);
      insightHistory := insightHistory + [insightObj];
      if |insightHistory| > MaxInsightHistory {
        insightHistory := insightHistory[1..];
      }
    }

    /** Appends the message to its source's history, dropping that history's oldest entry beyond `MaxBuffer`. */
    method AppendToHistory(source: int, msg: Record)
      requires source == 1 || source == 2
      requires |history1| <= MaxBuffer && |history2| <= MaxBuffer
      modifies this
      ensures source == 1 ==> history1 == PushBounded(old(history1), msg, MaxBuffer) && history2 == old(history2)
      ensures source == 2 ==> history2 == PushBounded(old(history2), msg, MaxBuffer) && history1 == old(history1)
      ensures latest1 == old(latest1) && latest2 == old(latest2)
      ensures latestInsight == old(latestInsight) && insightHistory == old(insightHistory)
      ensures processedWindows == old(processedWindows)
    {
      if source == 1 {
        history1 := history1 + [msg];
        if |history1| > MaxBuffer {
          history1 := history1[1..];
        }
      } else {
        history2 := history2 + [msg];
        if |history2| > MaxBuffer {
          history2 := history2[1..];
        }
      }
    }

    /**
     * The sample half of `handleIncoming`, after normalisation: the sample
     * becomes the sensor's latest and joins its history, is filed in the
     * window of its time stamp, and a window that closes is processed.
     */
    method HandleSample(msg: Record, source: int, now: int, call: GeminiCall)
      requires Valid()
      requires source == 1 || source == 2
      requires HasUsableTs(msg)
      modifies this, windowManager
      ensures Valid()
      ensures source == 1 ==>
        && latest1 == msg && latest2 == old(latest2)
        && history1 == PushBounded(old(history1), msg, MaxBuffer) && history2 == old(history2)
      ensures source == 2 ==>
        && latest2 == msg && latest1 == old(latest1)
        && history2 == PushBounded(old(history2), msg, MaxBuffer) && history1 == old(history1)
      ensures var id := WindowIdOf(SampleTime(msg, now));
        var closed := Step(old(Pointers(windowManager.currentWindowId, windowManager.lastClosedWindowId)), id).1;
        && windowManager.currentWindowId == Some(id)
        && (closed.None? ==>
              && windowManager.windows == FileSample(old(windowManager.windows), id, source, msg)
              && processedWindows == old(processedWindows)
              && latestInsight == old(latestInsight) && insightHistory == old(insightHistory))
        && (closed.Some? && closed.value in old(windowManager.windows) ==> closed.value in processedWindows)
    {
      if source == 1 {
        latest1 := msg;
      } else {
        latest2 := msg;
      }
      AppendToHistory(source, msg);
      var closedWindowId := windowManager.IngestSample(source, msg, now);
      if closedWindowId.Some? {
        ProcessClosedWindow(closedWindowId.value, call);
      }
    }

    /**
     * `handleIncoming` for the route of sensor `source`. A body whose
     * `event` is a string is an event: an empty one is refused with 400 and
     * changes nothing, any other is stamped and appended to the sensor's
     * bounded history. Any other body is a sample: one whose pitch does not
     * convert is refused with 400 and changes nothing; otherwise it is
     * handled as `HandleSample` describes.
     */
    method HandleIncoming(body: Record, source: int, now: int, call: GeminiCall) returns (status: int, error: Option<string>)
      requires Valid()
      requires source == 1 || source == 2
      modifies this, windowManager
      ensures Valid()
      ensures status == 200 || status == 400
      ensures var norm := if Get(body, "event").Str? then NormalizeEvent(body, now) else NormalizeSample(body, now);
        && (status == 400 <==> norm.Rejected?)
        && (norm.Rejected? ==> error == Some(norm.error) && unchanged(this) && unchanged(windowManager))
        && (norm.Accepted? ==>
              var msg := norm.msg["source" := Num(source as real)];
              && error == None
              && (source == 1 ==> history1 == PushBounded(old(history1), msg, MaxBuffer) && history2 == old(history2))
              && (source == 2 ==> history2 == PushBounded(old(history2), msg, MaxBuffer) && history1 == old(history1)))
      ensures Get(body, "event").Str? && status == 200 ==>
        && latest1 == old(latest1) && latest2 == old(latest2)
        && unchanged(windowManager)
        && latestInsight == old(latestInsight) && insightHistory == old(insightHistory)
        && processedWindows == old(processedWindows)
      ensures !Get(body, "event").Str? && status == 200 ==>
        var msg := NormalizeSample(body, now).msg["source" := Num(source as real)];
        var id := WindowIdOf(TimeValue(StampOf(body, now)));
        var closed := Step(old(Pointers(windowManager.currentWindowId, windowManager.lastClosedWindowId)), id).1;
        && (source == 1 ==> latest1 == msg && latest2 == old(latest2))
        && (source == 2 ==> latest2 == msg && latest1 == old(latest1))
        && windowManager.currentWindowId == Some(id)
        && (closed.None? ==>
              && windowManager.windows == FileSample(old(windowManager.windows), id, source, msg)
              && processedWindows == old(processedWindows)
              && latestInsight == old(latestInsight) && insightHistory == old(insightHistory))
        && (closed.Some? && closed.value in old(windowManager.windows) ==> closed.value in processedWindows)
    {
      if Get(body, "event").Str? {
        var norm := NormalizeEvent(body, now);
        if norm.Rejected? {
          return 400, Some(norm.error);
        }
        var msg := norm.msg["source" := Num(source as real)];
        AppendToHistory(source, msg);
        return 200, None;
      }
      var norm := NormalizeSample(body, now);
      if norm.Rejected? {
        return 400, Some(norm.error);
      }
      var msg := norm.msg["source" := Num(source as real)];
      AcceptedSampleIsUsable(body, now);
      assert Get(msg, "ts") == Get(norm.msg, "ts");
      HandleSample(msg, source, now, call);
      return 200, None;
    }
  }
}
