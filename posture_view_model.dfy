/**
 * The app's `PostureViewModel.handle`: insight bookkeeping (deduplicated,
 * capped, newest-first history), the last event and the live pitch fields.
 */
module PostureView {
  import opened Wrappers
  import opened AppInsight

  /** The cap on the insight history: 48 windows. */
  const MaxHistory: nat := 48

  // ---------------------------------------------------------------------
  // The history order

  /** Newest window first: no entry starts later than one before it. */
  ghost predicate NewestFirst(s: seq<Insight>) {
    forall i, j :: 0 <= i < j < |s| ==> s[i].windowStart >= s[j].windowStart
  }

  /** No two entries share an id. */
  ghost predicate UniqueIds(s: seq<Insight>) {
    forall i, j :: 0 <= i < |s| && 0 <= j < |s| && s[i].id == s[j].id ==> i == j
  }

  /** `contains(where: { $0.id == id })`. */
  predicate HasId(s: seq<Insight>, id: string) {
    exists i :: 0 <= i < |s| && s[i].id == id
  }

  /** `x` placed before the first entry that starts no later than it. */
  function InsertNewestFirst(x: Insight, s: seq<Insight>): (r: seq<Insight>)
    ensures |r| == |s| + 1
  {
    if s == [] || x.windowStart >= s[0].windowStart then [x] + s
    else [s[0]] + InsertNewestFirst(x, s[1..])
  }

  /** `sort { $0.windowStart > $1.windowStart }`, as a stable insertion sort. */
  function SortNewestFirst(s: seq<Insight>): (r: seq<Insight>)
    ensures |r| == |s|
  {
    if s == [] then [] else InsertNewestFirst(s[0], SortNewestFirst(s[1..]))
  }

  lemma {:induction false} InsertIsPermutation(x: Insight, s: seq<Insight>)
    ensures multiset(InsertNewestFirst(x, s)) == multiset(s) + multiset{x}
  {
    if s == [] || x.windowStart >= s[0].windowStart {
    } else {
      InsertIsPermutation(x, s[1..]);
      assert s == [s[0]] + s[1..];
    }
  }

  lemma {:induction false} InsertKeepsOrder(x: Insight, s: seq<Insight>)
    requires NewestFirst(s)
    ensures NewestFirst(InsertNewestFirst(x, s))
  {
    if s == [] || x.windowStart >= s[0].windowStart {
    } else {
      var rest := InsertNewestFirst(x, s[1..]);
      InsertKeepsOrder(x, s[1..]);
      InsertIsPermutation(x, s[1..]);
      forall j | 0 <= j < |rest| ensures s[0].windowStart >= rest[j].windowStart {
        assert rest[j] in multiset(rest);
        if rest[j] != x {
          assert rest[j] in multiset(s[1..]);
          var k :| 0 <= k < |s[1..]| && s[1..][k] == rest[j];
          assert s[k + 1] == rest[j];
        }
      }
    }
  }

  lemma {:induction false} InsertKeepsIdsUnique(x: Insight, s: seq<Insight>)
    requires UniqueIds(s) && !HasId(s, x.id)
    ensures UniqueIds(InsertNewestFirst(x, s))
  {
    if s == [] || x.windowStart >= s[0].windowStart {
      var r := [x] + s;
      forall i, j | 0 <= i < |r| && 0 <= j < |r| && r[i].id == r[j].id ensures i == j {
        if i > 0 && j > 0 {
          assert s[i - 1].id == s[j - 1].id;
        }
      }
    } else {
      var rest := InsertNewestFirst(x, s[1..]);
      var r := [s[0]] + rest;
      assert !HasId(s[1..], x.id);
      assert UniqueIds(s[1..]) by {
        forall i, j | 0 <= i < |s[1..]| && 0 <= j < |s[1..]| && s[1..][i].id == s[1..][j].id ensures i == j {
          assert s[i + 1].id == s[j + 1].id;
        }
      }
      InsertKeepsIdsUnique(x, s[1..]);
      InsertIsPermutation(x, s[1..]);
      forall j | 0 <= j < |rest| ensures rest[j].id != s[0].id {
        assert rest[j] in multiset(rest);
        if rest[j] == x {
          assert s[0].id != x.id;
        } else {
          assert rest[j] in multiset(s[1..]);
          var k :| 0 <= k < |s[1..]| && s[1..][k] == rest[j];
          assert s[k + 1] == rest[j];
        }
      }
      forall i, j | 0 <= i < |r| && 0 <= j < |r| && r[i].id == r[j].id ensures i == j {
        if i > 0 && j > 0 {
          assert rest[i - 1].id == rest[j - 1].id;
        }
      }
    }
  }

  /** The sort orders newest first and only rearranges. */
  lemma {:induction false} SortIsOrderedPermutation(s: seq<Insight>)
    ensures NewestFirst(SortNewestFirst(s))
    ensures multiset(SortNewestFirst(s)) == multiset(s)
  {
    if s != [] {
      SortIsOrderedPermutation(s[1..]);
      InsertKeepsOrder(s[0], SortNewestFirst(s[1..]));
      InsertIsPermutation(s[0], SortNewestFirst(s[1..]));
      assert s == [s[0]] + s[1..];
    }
  }

  /** Entries with distinct ids are distinct, and a rearrangement keeps them so. */
  lemma PermutationKeepsIdsUnique(s: seq<Insight>, t: seq<Insight>)
    requires UniqueIds(s) && multiset(t) == multiset(s)
    ensures UniqueIds(t)
  {
    forall i, j | 0 <= i < |t| && 0 <= j < |t| && t[i].id == t[j].id ensures i == j {
      if i != j {
        assert t[i] in multiset(s) && t[j] in multiset(s);
        var a :| 0 <= a < |s| && s[a] == t[i];
        var b :| 0 <= b < |s| && s[b] == t[j];
        assert a == b;
        assert t[i] == t[j];
        // The one entry of s with this value occurs twice in t.
        MultiplicityOfUnique(s, a);
        MultiplicityAtLeastTwo(t, i, j);
        assert false;
      }
    }
  }

  /** An entry of a sequence with unique ids occurs in it once. */
  lemma {:induction false} MultiplicityOfUnique(s: seq<Insight>, a: nat)
    requires UniqueIds(s) && a < |s|
    ensures multiset(s)[s[a]] == 1
  {
    var pre, post := s[..a], s[a + 1..];
    assert s == pre + [s[a]] + post;
    assert s[a] !in pre;
    assert s[a] !in post;
    assert multiset(pre)[s[a]] == 0 && multiset(post)[s[a]] == 0;
  }

  /** A value at two different indices occurs at least twice. */
  lemma MultiplicityAtLeastTwo(t: seq<Insight>, i: nat, j: nat)
    requires i < |t| && j < |t| && i != j && t[i] == t[j]
    ensures multiset(t)[t[i]] >= 2
  {
    var lo, hi := if i < j then i else j, if i < j then j else i;
    assert t == t[..lo] + [t[lo]] + t[lo + 1..hi] + [t[hi]] + t[hi + 1..];
  }

  // ---------------------------------------------------------------------
  // Adding an insight to the history

  /**
   * The history after a new insight, as `handle` computes it: append,
   * drop index 0 beyond 48, sort newest first. The history it is given
   * is already newest first, so index 0 is its newest entry.
   */
  function AddAsWritten(h: seq<Insight>, x: Insight): (r: seq<Insight>)
    ensures |h| <= MaxHistory ==> |r| <= MaxHistory
    ensures |h| < MaxHistory ==> multiset(r) == multiset(h) + multiset{x}
    ensures |h| >= MaxHistory ==> multiset(r) == multiset(h[1..]) + multiset{x}
    ensures NewestFirst(r)
  {
    var appended := h + [x];
    var trimmed := if |appended| > MaxHistory then appended[1..] else appended;
    SortIsOrderedPermutation(trimmed);
    assert |h| >= MaxHistory ==> trimmed == h[1..] + [x];
    SortNewestFirst(trimmed)
  }

  /** A new id joining a history with unique ids keeps them unique. */
  lemma AddAsWrittenKeepsIdsUnique(h: seq<Insight>, x: Insight)
    requires UniqueIds(h) && !HasId(h, x.id)
    ensures UniqueIds(AddAsWritten(h, x))
  {
    var appended := h + [x];
    var trimmed := if |appended| > MaxHistory then appended[1..] else appended;
    assert UniqueIds(appended) by {
      forall i, j | 0 <= i < |appended| && 0 <= j < |appended| && appended[i].id == appended[j].id ensures i == j {
        if i < |h| && j < |h| {
          assert h[i].id == h[j].id;
        }
      }
    }
    assert UniqueIds(trimmed) by {
      if |appended| > MaxHistory {
        forall i, j | 0 <= i < |trimmed| && 0 <= j < |trimmed| && trimmed[i].id == trimmed[j].id ensures i == j {
          assert appended[i + 1].id == appended[j + 1].id;
        }
      }
    }
    SortIsOrderedPermutation(trimmed);
    PermutationKeepsIdsUnique(trimmed, SortNewestFirst(trimmed));
  }

  /**
   * The cap as written drops the newest earlier insight: with a full
   * history whose first (newest) entry starts after its last (oldest),
   * the newest is gone and the oldest stays.
   */
  lemma AddAsWrittenDropsNewest(h: seq<Insight>, x: Insight)
    requires |h| == MaxHistory && NewestFirst(h) && UniqueIds(h) && !HasId(h, x.id)
    requires h[0].windowStart > h[MaxHistory - 1].windowStart
    ensures h[0] !in AddAsWritten(h, x)
    ensures h[MaxHistory - 1] in AddAsWritten(h, x)
  {
    var r := AddAsWritten(h, x);
    assert h[0] !in multiset(h[1..]);
    assert h[0].id != x.id;
    assert h[0] !in multiset(r);
    assert h[MaxHistory - 1] == h[1..][MaxHistory - 2];
    assert h[MaxHistory - 1] in multiset(r);
  }

  /**
   * The evidently intended cap: sort newest first, then keep the first 48,
   * so a full history stays at exactly 48 and the insight that goes is one
   * that starts no later than any kept.
   */
  function AddKeepingNewest(h: seq<Insight>, x: Insight): (r: seq<Insight>)
    ensures |r| <= MaxHistory && NewestFirst(r)
    ensures |r| == if |h| < MaxHistory then |h| + 1 else MaxHistory
    ensures var all := SortNewestFirst(h + [x]);
      && |r| <= |all| && r == all[..|r|]
      && multiset(all) == multiset(h) + multiset{x}
      && (|h| < MaxHistory ==> r == all)
      && forall i, j :: 0 <= i < |r| <= j < |all| ==> r[i].windowStart >= all[j].windowStart
  {
    var all := SortNewestFirst(h + [x]);
    SortIsOrderedPermutation(h + [x]);
    if |all| > MaxHistory then all[..MaxHistory] else all
  }

  /** Under the intended cap the newest earlier insight of a full history stays. */
  lemma AddKeepingNewestKeepsNewest(h: seq<Insight>, x: Insight)
    requires |h| == MaxHistory && NewestFirst(h) && UniqueIds(h) && !HasId(h, x.id)
    requires h[0].windowStart > h[MaxHistory - 1].windowStart
    ensures h[0] in AddKeepingNewest(h, x)
  {
    var all := SortNewestFirst(h + [x]);
    var r := AddKeepingNewest(h, x);
    assert h[0] in multiset(all) && h[MaxHistory - 1] in multiset(all) by {
      assert (h + [x])[0] == h[0] && (h + [x])[MaxHistory - 1] == h[MaxHistory - 1];
    }
    var i :| 0 <= i < |all| && all[i] == h[0];
    var k :| 0 <= k < |all| && all[k] == h[MaxHistory - 1];
    SortIsOrderedPermutation(h + [x]);
    // h[0] starts after h[MaxHistory - 1], so it sorts before it, hence within the first 48.
    assert all[i].windowStart > all[k].windowStart;
    assert i < k;
    assert r[i] == h[0];
  }

  // ---------------------------------------------------------------------
  // The view model

  /** Whether `handle` treats a message as an insight: typed `insight_update`, or typed without a kind. */
  predicate IsInsightMessage(m: TelemetryMessage) {
    m.msgType == Some(InsightUpdateType) || (m.kind.None? && m.msgType.Some?)
  }

  /** `msg.pitch_smooth ?? msg.pitch ?? 0`. */
  function DisplayedPitch(m: TelemetryMessage): (p: real)
    ensures m.pitchSmooth.Some? ==> p == m.pitchSmooth.value
    ensures m.pitchSmooth.None? && m.pitch.Some? ==> p == m.pitch.value
    ensures m.pitchSmooth.None? && m.pitch.None? ==> p == 0.0
  {
    m.pitchSmooth.GetOr(m.pitch.GetOr(0.0))
  }

  /** The sample's instant in seconds: `ts / 1000` when present, else `Date()`. */
  function SampleInstant(m: TelemetryMessage, now: real): (t: real)
    ensures m.ts.Some? ==> t * 1000.0 == m.ts.value
    ensures m.ts.None? ==> t == now
  {
    match m.ts
    case Some(ts) => ts / 1000.0
    case None => now
  }

  /** A message the insight branch accepts never reaches the event or sample handling. */
  lemma InsightMessagesStayInsights(m: TelemetryMessage, parseIso: string -> Option<real>, now: real)
    requires From(m, parseIso, now).Some?
    ensures IsInsightMessage(m)
  {
  }

  class PostureViewModel {
    var upperPitch: real
    var upperRoll: real
    var lowerPitch: real
    var lastEvent: Option<string>
    var latestInsight: Option<Insight>
    var insightHistory: seq<Insight>

    /** At most 48 insights, no id twice, newest first. */
    ghost predicate Valid()
      reads this
    {
      |insightHistory| <= MaxHistory && UniqueIds(insightHistory) && NewestFirst(insightHistory)
    }

    constructor ()
      ensures Valid()
      ensures upperPitch == 0.0 && upperRoll == 0.0 && lowerPitch == 0.0
      ensures lastEvent == None && latestInsight == None && insightHistory == []
    {
      upperPitch, upperRoll, lowerPitch := 0.0, 0.0, 0.0;
      lastEvent := None;
      latestInsight := None;
      insightHistory := [];
    }

    /**
     * `handle(_:)`. `parseIso` and `now` stand for the date formatter and
     * `Date()`. An insight message is consumed whatever comes of it: a
     * valid insight whose id differs from the latest one becomes the
     * latest and, when its id is new to the history, joins it; an event
     * message records its event; a sample clears a latest insight whose
     * window ended before the sample and updates the source's pitch;
     * anything else is ignored.
     */
    method Handle(msg: TelemetryMessage, parseIso: string -> Option<real>, now: real)
      requires Valid()
      modifies this
      ensures Valid()
      ensures IsInsightMessage(msg) ==>
        var ins := From(msg, parseIso, now);
        && upperPitch == old(upperPitch) && upperRoll == old(upperRoll) && lowerPitch == old(lowerPitch)
        && lastEvent == old(lastEvent)
        && (ins.None? || (old(latestInsight).Some? && old(latestInsight).value.id == ins.value.id) ==>
              latestInsight == old(latestInsight) && insightHistory == old(insightHistory))
        && (ins.Some? && !(old(latestInsight).Some? && old(latestInsight).value.id == ins.value.id) ==>
              && latestInsight == ins
              && (HasId(old(insightHistory), ins.value.id) ==> insightHistory == old(insightHistory))
              && (!HasId(old(insightHistory), ins.value.id) ==>
                    insightHistory == AddAsWritten(old(insightHistory), ins.value)))
      ensures !IsInsightMessage(msg) && msg.kind == Some("event") ==>
        && lastEvent == msg.event
        && upperPitch == old(upperPitch) && upperRoll == old(upperRoll) && lowerPitch == old(lowerPitch)
        && latestInsight == old(latestInsight) && insightHistory == old(insightHistory)
      ensures !IsInsightMessage(msg) && msg.kind == Some("sample") ==>
        && lastEvent == old(lastEvent) && insightHistory == old(insightHistory)
        && (old(latestInsight).Some? && SampleInstant(msg, now) > old(latestInsight).value.windowEnd ==>
              latestInsight == None)
        && (old(latestInsight).None? || SampleInstant(msg, now) <= old(latestInsight).value.windowEnd ==>
              latestInsight == old(latestInsight))
        && (msg.source == Some(1) ==>
              upperPitch == DisplayedPitch(msg) && upperRoll == msg.roll.GetOr(0.0) && lowerPitch == old(lowerPitch))
        && (msg.source == Some(2) ==>
              lowerPitch == DisplayedPitch(msg) && upperPitch == old(upperPitch) && upperRoll == old(upperRoll))
        && (msg.source != Some(1) && msg.source != Some(2) ==>
              upperPitch == old(upperPitch) && upperRoll == old(upperRoll) && lowerPitch == old(lowerPitch))
      ensures !IsInsightMessage(msg) && msg.kind != Some("event") && msg.kind != Some("sample") ==> unchanged(this)
    {
      if IsInsightMessage(msg) {
        var ins := From(msg, parseIso, now);
        if ins.Some? {
          var insight := ins.value;
          if latestInsight.None? || latestInsight.value.id != insight.id {
            latestInsight := Some(insight);
            if !HasId(insightHistory, insight.id) {
              AddAsWrittenKeepsIdsUnique(insightHistory, insight);
              insightHistory := insightHistory + [insight];
              if |insightHistory| > MaxHistory {
                insightHistory := insightHistory[1..];
              }
              insightHistory := SortNewestFirst(insightHistory);
              assert insightHistory == AddAsWritten(old(insightHistory), insight);
            }
          }
        }
        return;
      }

      if msg.kind == Some("event") {
        lastEvent := msg.event;
        return;
      }

      if msg.kind != Some("sample") {
        return;
      }

      if latestInsight.Some? {
        var sampleTimestamp := SampleInstant(msg, now);
        if sampleTimestamp > latestInsight.value.windowEnd {
          latestInsight := None;
        }
      }

      var pitch := DisplayedPitch(msg);
      var roll := msg.roll.GetOr(0.0);
      if msg.source == Some(1) {
        upperPitch := pitch;
        upperRoll := roll;
      } else if msg.source == Some(2) {
        lowerPitch := pitch;
      }
    }
  }
}
