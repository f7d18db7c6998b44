/**
 * Fifteen-second, wall-clock-aligned windows and the window table that the
 * telemetry server fills sample by sample (backend/windowManager.js).
 *
 * A window id is the ISO-8601 rendering of the window's start instant; here
 * it is that instant itself, in integer milliseconds since the epoch, so
 * parsing an id back (`getWindowStart`) is the identity.
 */
module Windows {
  import opened Wrappers
  import opened JsValues
  import opened OrderedIds

  const WindowDurationMs: int := 15000

  /**
   * `getWindowId`: zero the milliseconds and the seconds below the last
   * 15-second boundary. Local seconds equal UTC seconds for a whole-minute
   * time-zone offset, so this is flooring to a multiple of 15000 ms (Dafny's
   * `%` is Euclidean, so this is the floor for negative instants too).
   */
  function WindowIdOf(ts: int): (id: int)
    ensures id <= ts < id + WindowDurationMs
    ensures id % WindowDurationMs == 0
  {
    ts - ts % WindowDurationMs
  }

  /** `getWindowStart`: the instant an id names. */
  function WindowStart(id: int): int {
    id
  }

  /** `getWindowEnd`: the exclusive end of the window an id names. */
  function WindowEnd(id: int): int {
    WindowStart(id) + WindowDurationMs
  }

  /** Two instants get the same id exactly when they lie in the same 15 s bucket. */
  lemma SameBucketSameId(t1: int, t2: int)
    ensures WindowIdOf(t1) == WindowIdOf(t2) <==> WindowStart(WindowIdOf(t1)) <= t2 < WindowEnd(WindowIdOf(t1))
  {
    var a, b := WindowIdOf(t1), WindowIdOf(t2);
    if a < b {
      MultiplesApart(a, b);
    } else if b < a {
      MultiplesApart(b, a);
    }
  }

  /** Distinct multiples of the window length are at least one window apart. */
  lemma MultiplesApart(a: int, b: int)
    requires a % WindowDurationMs == 0 && b % WindowDurationMs == 0 && a < b
    ensures a + WindowDurationMs <= b
  {
    var qa, qb := a / WindowDurationMs, b / WindowDurationMs;
    assert a == WindowDurationMs * qa;
    assert b == WindowDurationMs * qb;
    assert qa < qb;
  }

  /** Every instant of a window maps back to that window; re-aligning a start changes nothing. */
  lemma RealignIsIdempotent(t: int)
    ensures WindowIdOf(WindowStart(WindowIdOf(t))) == WindowIdOf(t)
    ensures forall u :: WindowStart(WindowIdOf(t)) <= u < WindowEnd(WindowIdOf(t)) ==> WindowIdOf(u) == WindowIdOf(t)
  {
    forall u | WindowStart(WindowIdOf(t)) <= u < WindowEnd(WindowIdOf(t))
      ensures WindowIdOf(u) == WindowIdOf(t)
    {
      SameBucketSameId(t, u);
    }
    SameBucketSameId(t, WindowStart(WindowIdOf(t)));
  }

  /** Windows are half-open: distinct ids name disjoint intervals, and the next one starts where this one ends. */
  lemma WindowsDoNotOverlap(t1: int, t2: int)
    requires WindowIdOf(t1) < WindowIdOf(t2)
    ensures WindowEnd(WindowIdOf(t1)) <= WindowStart(WindowIdOf(t2))
    ensures WindowIdOf(WindowEnd(WindowIdOf(t1))) == WindowEnd(WindowIdOf(t1))
  {
    MultiplesApart(WindowIdOf(t1), WindowIdOf(t2));
    var e := WindowEnd(WindowIdOf(t1));
    assert e % WindowDurationMs == 0 by {
      var q := WindowIdOf(t1) / WindowDurationMs;
      assert WindowIdOf(t1) == WindowDurationMs * q;
      assert e == WindowDurationMs * (q + 1);
    }
  }

  /** Later instants never get an earlier window. */
  lemma WindowIdMonotone(t1: int, t2: int)
    requires t1 <= t2
    ensures WindowIdOf(t1) <= WindowIdOf(t2)
  {
    if WindowIdOf(t2) < WindowIdOf(t1) {
      MultiplesApart(WindowIdOf(t2), WindowIdOf(t1));
    }
  }

  // ---------------------------------------------------------------------
  // Sample timestamps

  /**
   * `new Date(x).getTime()` for a finite number of milliseconds: the time
   * value is truncated toward zero.
   */
  function TimeValue(x: real): (t: int)
    ensures 0.0 <= x ==> t as real <= x < t as real + 1.0
    ensures x < 0.0 ==> t as real - 1.0 < x <= t as real
  {
    if 0.0 <= x then x.Floor else -((-x).Floor)
  }

  /** A `ts` that `sample.ts ?? Date.now()` turns into a valid date. */
  predicate HasUsableTs(sample: Record) {
    var v := Get(sample, "ts");
    v.Num? || v.Undefined? || v.Null?
  }

  /** `sample.ts ?? Date.now()`, as the instant `getWindowId` reads. */
  function SampleTime(sample: Record, now: int): (t: int)
    requires HasUsableTs(sample)
    ensures Get(sample, "ts").Num? ==> t == TimeValue(Get(sample, "ts").x)
    ensures !Get(sample, "ts").Num? ==> t == now
  {
    match Get(sample, "ts")
    case Num(x) => TimeValue(x)
    case _ => now
  }

  // ---------------------------------------------------------------------
  // The window table

  /** One bucket of the table: the samples of each sensor, in arrival order, and the bounds. */
  datatype Window = Window(sensor1: seq<Record>, sensor2: seq<Record>, start: int, end: int)

  /** The entry `ingestSample` creates for an id it has not seen. */
  function NewWindow(id: int): (w: Window)
    ensures w.sensor1 == [] && w.sensor2 == []
    ensures w.start == WindowStart(id) && w.end == w.start + WindowDurationMs
  {
    Window([], [], WindowStart(id), WindowEnd(id))
  }

  /** The entry for `id` before a sample is filed: the existing one, or a new empty one. */
  function EntryOrNew(windows: map<int, Window>, id: int): Window {
    if id in windows then windows[id] else NewWindow(id)
  }

  /**
   * The table after `ingestSample` files `sample` under `id` for `sensorId`:
   * the sample goes at the end of exactly one sensor list, or nowhere for a
   * sensor id other than 1 and 2; no other entry changes.
   */
  function FileSample(windows: map<int, Window>, id: int, sensorId: int, sample: Record): (r: map<int, Window>)
    ensures r.Keys == windows.Keys + {id}
    ensures forall k :: k in windows && k != id ==> r[k] == windows[k]
    ensures r[id].start == EntryOrNew(windows, id).start && r[id].end == EntryOrNew(windows, id).end
    ensures r[id].sensor1 == EntryOrNew(windows, id).sensor1 + (if sensorId == 1 then [sample] else [])
    ensures r[id].sensor2 == EntryOrNew(windows, id).sensor2 + (if sensorId == 2 then [sample] else [])
  {
    var w := EntryOrNew(windows, id);
    if sensorId == 1 then windows[id := w.(sensor1 := w.sensor1 + [sample])]
    else if sensorId == 2 then windows[id := w.(sensor2 := w.sensor2 + [sample])]
    else windows[id := w]
  }

  /** Every entry's bounds are derived from its id, as `ingestSample` creates them. */
  ghost predicate BoundsDerived(windows: map<int, Window>) {
    forall id :: id in windows ==> windows[id].start == WindowStart(id) && windows[id].end == WindowEnd(id)
  }

  // ---------------------------------------------------------------------
  // Closure detection

  /** The two ids `WindowManager` tracks: the window being filled and the last one reported closed. */
  datatype Pointers = Pointers(current: Option<int>, lastClosed: Option<int>)

  /**
   * What the pointers satisfy between calls: nothing is closed before any
   * sample, and the current window is never the last one reported.
   */
  predicate Consistent(p: Pointers) {
    && (p.current.None? ==> p.lastClosed.None?)
    && (p.current.Some? ==> p.current != p.lastClosed)
  }

  /**
   * One `ingestSample` on the pointers, with its guards as written: report
   * the current id when the new sample's id differs from it and it is not
   * the last one reported. Under `Consistent` that second guard never
   * blocks: a close is reported exactly when the current id changes, and
   * the invariant is kept.
   */
  function Step(p: Pointers, id: int): (r: (Pointers, Option<int>))
    ensures r.0.current == Some(id)
    ensures r.1.Some? ==> r.1 == p.current && r.0.lastClosed == r.1
    ensures r.1.None? ==> r.0.lastClosed == p.lastClosed
    ensures Consistent(p) ==> Consistent(r.0)
    ensures Consistent(p) ==> r.1 == (if p.current.Some? && p.current.value != id then p.current else None)
  {
    var closed := if p.current.Some? && p.current.value != id && p.current != p.lastClosed then p.current else None;
    (Pointers(Some(id), if closed.Some? then closed else p.lastClosed), closed)
  }

  /** The pointers after ingesting samples whose window ids are `ids`, in order, and the ids reported closed. */
  function Run(p: Pointers, ids: seq<int>): (Pointers, seq<int>)
    decreases |ids|
  {
    if ids == [] then (p, [])
    else
      var (p1, c) := Step(p, ids[0]);
      var (pn, cs) := Run(p1, ids[1..]);
      (pn, (if c.Some? then [c.value] else []) + cs)
  }

  /** How many times the window id changes along `ids`, starting from `current`. */
  function Crossings(current: Option<int>, ids: seq<int>): nat
    decreases |ids|
  {
    if ids == [] then 0
    else (if current.Some? && current.value != ids[0] then 1 else 0) + Crossings(Some(ids[0]), ids[1..])
  }

  /**
   * Whatever the order of the samples and however the two sensors
   * interleave, every change of window id is reported exactly once, and
   * nothing else is.
   */
  lemma {:induction false} OneCloseAPerCrossing(p: Pointers, ids: seq<int>)
    requires Consistent(p)
    ensures |Run(p, ids).1| == Crossings(p.current, ids)
    ensures Consistent(Run(p, ids).0)
    decreases |ids|
  {
    if ids != [] {
      OneCloseAPerCrossing(Step(p, ids[0]).0, ids[1..]);
    }
  }

  /** The window being filled after a run is the last one ingested. */
  lemma {:induction false} RunEndsInLastWindow(p: Pointers, ids: seq<int>)
    ensures Run(p, ids).0.current == (if ids == [] then p.current else Some(ids[|ids| - 1]))
    decreases |ids|
  {
    if ids != [] {
      RunEndsInLastWindow(Step(p, ids[0]).0, ids[1..]);
    }
  }

  /** Under ordered ids, nothing reported lies before the window current at the start. */
  lemma {:induction false} ClosedAfter(p: Pointers, ids: seq<int>, x: int)
    requires Consistent(p) && p.current.Some?
    requires NonDecreasing(ids)
    requires ids != [] ==> p.current.value <= ids[0]
    requires x in Run(p, ids).1
    ensures p.current.value <= x
    decreases |ids|
  {
    var (p1, c) := Step(p, ids[0]);
    var (pn, cs) := Run(p1, ids[1..]);
    if !(c.Some? && x == c.value) {
      assert x in cs;
      assert NonDecreasing(ids[1..]);
      ClosedAfter(p1, ids[1..], x);
    }
  }

  /**
   * With window ids that never go back (from non-decreasing timestamps), the
   * reported ids are strictly increasing, hence pairwise distinct.
   */
  lemma {:induction false} OrderedClosesAreDistinct(p: Pointers, ids: seq<int>)
    requires Consistent(p)
    requires NonDecreasing(ids)
    requires p.current.Some? && ids != [] ==> p.current.value <= ids[0]
    ensures Increasing(Run(p, ids).1)
    decreases |ids|
  {
    if ids != [] {
      var (p1, c) := Step(p, ids[0]);
      assert NonDecreasing(ids[1..]);
      OrderedClosesAreDistinct(p1, ids[1..]);
      var (pn, cs) := Run(p1, ids[1..]);
      if c.Some? {
        assert c.value < ids[0] == p1.current.value;
        forall j | 0 <= j < |cs| ensures c.value < cs[j] {
          ClosedAfter(p1, ids[1..], cs[j]);
        }
        assert Run(p, ids).1 == [c.value] + cs;
      } else {
        assert Run(p, ids).1 == cs;
      }
    }
  }

  /** The window ids of a run of timestamps. */
  function IdsOf(ts: seq<int>): (ids: seq<int>)
    ensures |ids| == |ts| && forall i :: 0 <= i < |ts| ==> ids[i] == WindowIdOf(ts[i])
  {
    seq(|ts|, i requires 0 <= i < |ts| => WindowIdOf(ts[i]))
  }

  /**
   * For any interleaving of the two sensors with non-decreasing timestamps,
   * starting from a fresh manager, each boundary crossing is reported once
   * and no window is reported twice.
   */
  lemma OrderedTimestampsCloseEachWindowOnce(ts: seq<int>)
    requires NonDecreasing(ts)
    ensures |Run(Pointers(None, None), IdsOf(ts)).1| == Crossings(None, IdsOf(ts))
    ensures Increasing(Run(Pointers(None, None), IdsOf(ts)).1)
  {
    var ids := IdsOf(ts);
    forall i, j | 0 <= i < j < |ids| ensures ids[i] <= ids[j] {
      WindowIdMonotone(ts[i], ts[j]);
    }
    OneCloseAPerCrossing(Pointers(None, None), ids);
    OrderedClosesAreDistinct(Pointers(None, None), ids);
  }

  /**
   * Out of order, one window can be reported twice: samples in windows
   * A, B, A, B report A, B and A again. The server's processed-window set
   * exists for this.
   */
  lemma OutOfOrderReportsTwice()
    ensures Run(Pointers(None, None), [0, 15000, 0, 15000]).1 == [0, 15000, 0]
  {
  }

  // ---------------------------------------------------------------------
  // The manager object

  class WindowManager {
    var currentWindowId: Option<int>
    var lastClosedWindowId: Option<int>
    var windows: map<int, Window>

    ghost predicate Valid()
      reads this
    {
      Consistent(Pointers(currentWindowId, lastClosedWindowId)) && BoundsDerived(windows)
    }

    constructor ()
      ensures Valid()
      ensures currentWindowId == None && lastClosedWindowId == None && windows == map[]
    {
      currentWindowId := None;
      lastClosedWindowId := None;
      windows := map[];
    }

    /**
     * `ingestSample`: file the sample under its window and report the
     * window that just closed, if any.
     */
    method IngestSample(sensorId: int, sample: Record, now: int) returns (closed: Option<int>)
      requires Valid()
      requires HasUsableTs(sample)
      modifies this
      ensures Valid()
      ensures var id := WindowIdOf(SampleTime(sample, now));
        && (Pointers(currentWindowId, lastClosedWindowId), closed) == Step(old(Pointers(currentWindowId, lastClosedWindowId)), id)
        && closed == (if old(currentWindowId).Some? && old(currentWindowId) != Some(id) then old(currentWindowId) else None)
        && currentWindowId == Some(id) && id in windows
        && windows == FileSample(old(windows), id, sensorId, sample)
    {
      var ts := SampleTime(sample, now);
      var windowId := WindowIdOf(ts);
      closed := None;
      if currentWindowId.Some? && currentWindowId.value != windowId {
        if currentWindowId != lastClosedWindowId {
          closed := currentWindowId;
          lastClosedWindowId := currentWindowId;
        }
      }
      currentWindowId := Some(windowId);
      if windowId !in windows {
        windows := windows[windowId := NewWindow(windowId)];
      }
      var w := windows[windowId];
      if sensorId == 1 {
        windows := windows[windowId := w.(sensor1 := w.sensor1 + [sample])];
      } else if sensorId == 2 {
        windows := windows[windowId := w.(sensor2 := w.sensor2 + [sample])];
      }
    }

    /** `getWindow`. */
    method GetWindow(id: int) returns (w: Option<Window>)
      ensures w.Some? <==> id in windows
      ensures w.Some? ==> w.value == windows[id]
    {
      w := if id in windows then Some(windows[id]) else None;
    }

    /** `removeWindow`: deletes its own key and nothing else. */
    method RemoveWindow(id: int)
      requires Valid()
      modifies this
      ensures Valid()
      ensures windows == old(windows) - {id}
      ensures currentWindowId == old(currentWindowId) && lastClosedWindowId == old(lastClosedWindowId)
    {
      windows := windows - {id};
    }

    /** `getCurrentWindowId`. */
    method GetCurrentWindowId() returns (id: Option<int>)
      ensures id == currentWindowId
    {
      id := currentWindowId;
    }

    /**
     * `Array.from(windows.entries()).sort(by start)`: the ids, oldest start
     * first. Starts are derived from ids, so they are distinct and the order
     * the map yields its entries in does not matter.
     */
    method IdsByStart() returns (ids: seq<int>)
      requires Valid()
      ensures Increasing(ids)
      ensures forall i :: 0 <= i < |ids| ==> ids[i] in windows
      ensures forall k :: k in windows ==> k in ids
      ensures forall i, j :: 0 <= i < j < |ids| ==> windows[ids[i]].start < windows[ids[j]].start
      ensures |ids| == |windows|
    {
      ids := [];
      var rest := windows.Keys;
      while rest != {}
        invariant rest <= windows.Keys
        invariant Increasing(ids)
        invariant forall i :: 0 <= i < |ids| ==> ids[i] in windows && ids[i] !in rest
        invariant forall k :: k in windows && k !in rest ==> k in ids
        invariant forall i, r :: 0 <= i < |ids| && r in rest ==> ids[i] < r
        decreases rest
      {
        var m := MinOf(rest);
        ids := ids + [m];
        rest := rest - {m};
      }
      DistinctCount(ids, windows.Keys);
    }

    /**
     * `trimHistory`: once the table holds more than `maxWindows` entries,
     * delete the oldest-started ones until exactly `maxWindows` are left;
     * the survivors are untouched.
     */
    method TrimHistory(maxWindows: nat)
      requires Valid()
      modifies this
      ensures Valid()
      ensures currentWindowId == old(currentWindowId) && lastClosedWindowId == old(lastClosedWindowId)
      ensures |old(windows)| <= maxWindows ==> windows == old(windows)
      ensures |old(windows)| > maxWindows ==> |windows| == maxWindows
      ensures forall k :: k in windows ==> k in old(windows) && windows[k] == old(windows)[k]
      ensures forall k, j :: k in old(windows) && k !in windows && j in windows ==> old(windows)[k].start < windows[j].start
    {
      if |windows| <= maxWindows {
        return;
      }
      var entries := IdsByStart();
      var toRemove := entries[..|entries| - maxWindows];
      ghost var before := windows;
      var i := 0;
      while i < |toRemove|
        invariant 0 <= i <= |toRemove|
        invariant forall j :: 0 <= j < i ==> entries[j] !in windows
        invariant forall j :: i <= j < |entries| ==> entries[j] in windows
        invariant forall k :: k in windows ==> k in before && windows[k] == before[k]
        invariant |windows| == |before| - i
        invariant Valid()
        invariant currentWindowId == old(currentWindowId) && lastClosedWindowId == old(lastClosedWindowId)
      {
        var k := toRemove[i];
        assert k == entries[i] && k in windows;
        assert |windows.Keys - {k}| == |windows.Keys| - 1;
        windows := windows - {k};
        forall j | i < j < |entries| ensures entries[j] in windows {
          assert entries[i] < entries[j];
        }
        i := i + 1;
      }
      forall k, j | k in before && k !in windows && j in windows
        ensures before[k].start < windows[j].start
      {
        var a :| 0 <= a < |entries| && entries[a] == k;
        var b :| 0 <= b < |entries| && entries[b] == j;
        assert a < i <= b;
      }
    }
  }
}
