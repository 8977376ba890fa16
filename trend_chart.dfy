/**
 * The score-trend chart of a contest (components/charts/echarts-trend-chart.tsx).
 *
 * Every score event time is truncated to the whole second; the truncated times
 * of all users plus the truncated "now" form one sorted, duplicate-free master
 * axis; each user's history is then swept with a pointer so that the user's
 * series holds one step-function sample per master time.
 */
module TrendChart {
  import opened Types
  import opened Sorting

  /** `Date#setMilliseconds(0)`: the last whole second at or before `t` (milliseconds). */
  function TruncateToSecond(t: int): (r: int)
    ensures r <= t < r + 1000
    ensures r % 1000 == 0
  {
    t - t % 1000
  }

  lemma TruncateIdempotent(t: int)
    ensures TruncateToSecond(TruncateToSecond(t)) == TruncateToSecond(t)
  {
  }

  /** The whole second at or before `t` is the only multiple of 1000 within 999 ms below `t`. */
  lemma TruncateUnique(t: int, m: int)
    requires m % 1000 == 0 && m <= t < m + 1000
    ensures m == TruncateToSecond(t)
  {
    var a := m / 1000;
    assert m == 1000 * a;
    assert t == 1000 * a + (t - m) && 0 <= t - m < 1000;
    assert t % 1000 == t - m;
  }

  function TimeOf(p: ScorePoint): int {
    p.time
  }

  function Identity(t: int): int {
    t
  }

  /** A user's history with every time truncated to the second, in the original order. */
  function TruncatedPoints(h: seq<ScorePoint>): (r: seq<ScorePoint>)
    ensures |r| == |h|
    ensures forall q :: 0 <= q < |h| ==>
      r[q].time == TruncateToSecond(h[q].time) && r[q].score == h[q].score && r[q].problemId == h[q].problemId
  {
    seq(|h|, q requires 0 <= q < |h| => h[q].(time := TruncateToSecond(h[q].time)))
  }

  /** The history the sweep walks: truncated, then stably sorted by time. */
  function SortedHistory(h: seq<ScorePoint>): (r: seq<ScorePoint>)
    ensures |r| == |h|
    ensures SortedBy(r, TimeOf)
    ensures multiset(r) == multiset(TruncatedPoints(h))
  {
    SortBy(TruncatedPoints(h), TimeOf)
  }

  /** The truncated times of the points of `h`. */
  function PointTimes(h: seq<ScorePoint>): set<int> {
    if h == [] then {} else PointTimes(h[..|h| - 1]) + {TruncateToSecond(h[|h| - 1].time)}
  }

  /** The truncated times of every point of every user. */
  function HistoryTimes(trend: seq<TrendEntry>): set<int> {
    if trend == [] then {} else HistoryTimes(trend[..|trend| - 1]) + PointTimes(trend[|trend| - 1].history)
  }

  lemma {:induction false} PointTimesMembers(h: seq<ScorePoint>, t: int)
    ensures t in PointTimes(h) <==> exists q :: 0 <= q < |h| && TruncateToSecond(h[q].time) == t
  {
    if h != [] {
      PointTimesMembers(h[..|h| - 1], t);
      if t in PointTimes(h[..|h| - 1]) {
        var q :| 0 <= q < |h| - 1 && TruncateToSecond(h[..|h| - 1][q].time) == t;
        assert TruncateToSecond(h[q].time) == t;
      }
    }
  }

  lemma {:induction false} HistoryTimesMembers(trend: seq<TrendEntry>, t: int)
    ensures t in HistoryTimes(trend) <==> exists i :: 0 <= i < |trend| && t in PointTimes(trend[i].history)
  {
    if trend != [] {
      HistoryTimesMembers(trend[..|trend| - 1], t);
      if t in HistoryTimes(trend[..|trend| - 1]) {
        var i :| 0 <= i < |trend| - 1 && t in PointTimes(trend[..|trend| - 1][i].history);
        assert t in PointTimes(trend[i].history);
      }
    }
  }

  ghost predicate Distinct(s: seq<int>) {
    forall i, j :: 0 <= i < j < |s| ==> s[i] != s[j]
  }

  ghost predicate StrictlyIncreasing(s: seq<int>) {
    forall i, j :: 0 <= i < j < |s| ==> s[i] < s[j]
  }

  /**
   * The `Set` of time points filled by the nested `forEach`: an
   * insertion-ordered collection without repetitions.
   */
  method CollectTimePoints(trend: seq<TrendEntry>, now: int) returns (points: seq<int>)
    ensures Distinct(points)
    ensures forall t :: t in points <==> t in HistoryTimes(trend) || t == TruncateToSecond(now)
  {
    points := [];
    for i := 0 to |trend|
      invariant Distinct(points)
      invariant forall t :: t in points <==> t in HistoryTimes(trend[..i])
    {
      var history := trend[i].history;
      for q := 0 to |history|
        invariant Distinct(points)
        invariant forall t :: t in points <==> t in HistoryTimes(trend[..i]) || t in PointTimes(history[..q])
      {
        points := AddPoint(points, TruncateToSecond(history[q].time));
        assert history[..q + 1][..q] == history[..q];
      }
      assert history[..|history|] == history;
      assert trend[..i + 1][..i] == trend[..i];
    }
    assert trend[..|trend|] == trend;
    points := AddPoint(points, TruncateToSecond(now));
  }

  /** `Set#add`: appends `t` unless it is already present. */
  function AddPoint(points: seq<int>, t: int): (r: seq<int>)
    requires Distinct(points)
    ensures Distinct(r)
    ensures forall x :: x in r <==> x in points || x == t
  {
    if t in points then points else points + [t]
  }

  /** A sorted sequence whose elements are pairwise different is strictly increasing. */
  lemma {:induction false} SortedDistinctIncreasing(s: seq<int>, r: seq<int>)
    requires Distinct(s)
    requires multiset(r) == multiset(s)
    requires SortedBy(r, Identity)
    ensures StrictlyIncreasing(r)
  {
    forall x
      ensures multiset(r)[x] <= 1
    {
      DistinctCountsOnce(s, x);
    }
    CountsOnceDistinct(r);
    forall i, j | 0 <= i < j < |r|
      ensures r[i] < r[j]
    {
      assert Identity(r[i]) <= Identity(r[j]);
    }
  }

  lemma {:induction false} CountsOnceDistinct(s: seq<int>)
    requires forall x :: multiset(s)[x] <= 1
    ensures Distinct(s)
  {
    if s != [] {
      var init, last := s[..|s| - 1], s[|s| - 1];
      assert s == init + [last];
      assert multiset(s) == multiset(init) + multiset{last};
      forall x
        ensures multiset(init)[x] <= 1
      {
        assert multiset(init)[x] <= multiset(s)[x];
      }
      CountsOnceDistinct(init);
      assert multiset(s)[last] == multiset(init)[last] + 1;
      assert last !in init;
    }
  }

  lemma {:induction false} DistinctCountsOnce(s: seq<int>, x: int)
    requires Distinct(s)
    ensures multiset(s)[x] <= 1
  {
    if s != [] {
      var init := s[..|s| - 1];
      assert s == init + [s[|s| - 1]];
      DistinctCountsOnce(init, x);
      if x == s[|s| - 1] {
        assert x !in init;
      }
    }
  }

  /**
   * `sortedTimePoints`: the master axis, strictly increasing, holding exactly the
   * truncated history times and the truncated "now".
   */
  method SortedTimePoints(trend: seq<TrendEntry>, now: int) returns (axis: seq<int>)
    ensures StrictlyIncreasing(axis)
    ensures forall t :: t in axis <==> t in HistoryTimes(trend) || t == TruncateToSecond(now)
  {
    var points := CollectTimePoints(trend, now);
    axis := SortBy(points, Identity);
    SortedDistinctIncreasing(points, axis);
    forall t
      ensures t in axis <==> t in points
    {
      assert t in axis <==> t in multiset(axis);
      assert t in points <==> t in multiset(points);
    }
  }

  /** The score of the last point of `h` whose time is at most `t`, or 0 when there is none. */
  function ScoreAt(h: seq<ScorePoint>, t: int): int {
    if h == [] then 0
    else if h[|h| - 1].time <= t then h[|h| - 1].score
    else ScoreAt(h[..|h| - 1], t)
  }

  lemma {:induction false} ScoreAtNone(h: seq<ScorePoint>, t: int)
    requires forall q :: 0 <= q < |h| ==> h[q].time > t
    ensures ScoreAt(h, t) == 0
  {
    if h != [] {
      ScoreAtNone(h[..|h| - 1], t);
    }
  }

  lemma {:induction false} ScoreAtIndex(h: seq<ScorePoint>, t: int, q: nat)
    requires q < |h| && h[q].time <= t
    requires forall q' :: q < q' < |h| ==> h[q'].time > t
    ensures ScoreAt(h, t) == h[q].score
  {
    if q < |h| - 1 {
      ScoreAtIndex(h[..|h| - 1], t, q);
    }
  }

  /** One sample `[masterTime, score]` per master time, in axis order. */
  function StepSamples(h: seq<ScorePoint>, axis: seq<int>): (r: seq<(int, int)>)
    ensures |r| == |axis|
    ensures forall k :: 0 <= k < |axis| ==> r[k] == (axis[k], ScoreAt(h, axis[k]))
  {
    seq(|axis|, k requires 0 <= k < |axis| => (axis[k], ScoreAt(h, axis[k])))
  }

  /** After the master times `done`, the pointer `p` has passed exactly the points at or before the last of them. */
  ghost predicate PointerAt(h: seq<ScorePoint>, p: int, done: seq<int>) {
    && 0 <= p <= |h|
    && (done == [] ==> p == 0)
    && (done != [] ==>
          && (forall q :: 0 <= q < p ==> h[q].time <= done[|done| - 1])
          && (forall q :: p <= q < |h| ==> h[q].time > done[|done| - 1]))
  }

  /** The per-user sweep state agrees with the specification after the master times `done`. */
  ghost predicate Synced(h: seq<ScorePoint>, p: int, score: int, samples: seq<(int, int)>, done: seq<int>) {
    && PointerAt(h, p, done)
    && score == (if p == 0 then 0 else h[p - 1].score)
    && samples == StepSamples(h, done)
  }

  ghost predicate DistinctUserIds(users: seq<TrendEntry>) {
    forall i, j :: 0 <= i < j < |users| ==> users[i].userId != users[j].userId
  }

  lemma {:induction false} StepSamplesSnoc(h: seq<ScorePoint>, done: seq<int>, t: int)
    ensures StepSamples(h, done + [t]) == StepSamples(h, done) + [(t, ScoreAt(h, t))]
  {
  }

  /** The sweep state of user `u`, kept in the three dictionaries, agrees with the specification after `done`. */
  ghost predicate UserSynced(u: TrendEntry, pointers: map<string, int>, scores: map<string, int>,
                             series: map<string, seq<(int, int)>>, done: seq<int>) {
    && u.userId in pointers && u.userId in scores && u.userId in series
    && Synced(u.history, pointers[u.userId], scores[u.userId], series[u.userId], done)
  }

  /**
   * The pointer sweep of `seriesData`: for each master time and each user, the
   * user's pointer advances past every point at or before that time, carrying
   * the score of the last point passed, and a sample is pushed.
   */
  method SweepSeries(users: seq<TrendEntry>, axis: seq<int>) returns (seriesMap: map<string, seq<(int, int)>>)
    requires DistinctUserIds(users)
    requires forall i :: 0 <= i < |users| ==> SortedBy(users[i].history, TimeOf)
    requires SortedBy(axis, Identity)
    ensures forall i :: 0 <= i < |users| ==>
      users[i].userId in seriesMap && seriesMap[users[i].userId] == StepSamples(users[i].history, axis)
  {
    var historyPointers: map<string, int> := FromEntries(users, 0);
    var currentUserScores: map<string, int> := FromEntries(users, 0);
    seriesMap := FromEntries(users, []);
    for k := 0 to |axis|
      invariant forall i :: 0 <= i < |users| ==>
        UserSynced(users[i], historyPointers, currentUserScores, seriesMap, axis[..k])
    {
      historyPointers, currentUserScores, seriesMap :=
        SampleAllUsers(users, axis, k, historyPointers, currentUserScores, seriesMap);
    }
    assert axis[..|axis|] == axis;
  }

  /** `Object.fromEntries(trendData.map(u => [u.user_id, v]))`. */
  function FromEntries<V>(users: seq<TrendEntry>, v: V): (m: map<string, V>)
    ensures forall i :: 0 <= i < |users| ==> users[i].userId in m && m[users[i].userId] == v
  {
    if users == [] then map[]
    else FromEntries(users[..|users| - 1], v)[users[|users| - 1].userId := v]
  }

  /** The body of the outer loop: every user, in order, is sampled at `axis[k]`. */
  method SampleAllUsers(users: seq<TrendEntry>, axis: seq<int>, k: nat,
                        pointers: map<string, int>, scores: map<string, int>, series: map<string, seq<(int, int)>>)
    returns (historyPointers: map<string, int>, currentUserScores: map<string, int>,
             seriesMap: map<string, seq<(int, int)>>)
    requires DistinctUserIds(users)
    requires forall i :: 0 <= i < |users| ==> SortedBy(users[i].history, TimeOf)
    requires k < |axis| && SortedBy(axis, Identity)
    requires forall i :: 0 <= i < |users| ==> UserSynced(users[i], pointers, scores, series, axis[..k])
    ensures forall i :: 0 <= i < |users| ==>
      UserSynced(users[i], historyPointers, currentUserScores, seriesMap, axis[..k + 1])
  {
    historyPointers, currentUserScores, seriesMap := pointers, scores, series;
    for j := 0 to |users|
      invariant forall i :: 0 <= i < j ==>
        UserSynced(users[i], historyPointers, currentUserScores, seriesMap, axis[..k + 1])
      invariant forall i :: j <= i < |users| ==>
        UserSynced(users[i], historyPointers, currentUserScores, seriesMap, axis[..k])
    {
      var id := users[j].userId;
      ghost var pointers0, scores0, series0 := historyPointers, currentUserScores, seriesMap;
      historyPointers, currentUserScores, seriesMap :=
        SampleUser(users[j], axis, k, historyPointers, currentUserScores, seriesMap);
      forall i | 0 <= i < |users| && i != j
        ensures UserSynced(users[i], historyPointers, currentUserScores, seriesMap,
                           if i < j then axis[..k + 1] else axis[..k])
      {
        assert users[i].userId != id;
        var other := users[i].userId;
        assert historyPointers[other] == pointers0[other];
        assert currentUserScores[other] == scores0[other];
        assert seriesMap[other] == series0[other];
      }
    }
  }

  /**
   * One pass of the inner loop for one user at master time `axis[k]`: the
   * `while` that advances the user's pointer and score, then the `push`.
   * Only the user's own dictionary entries change.
   */
  method SampleUser(user: TrendEntry, axis: seq<int>, k: nat,
                    pointers: map<string, int>, scores: map<string, int>, series: map<string, seq<(int, int)>>)
    returns (historyPointers: map<string, int>, currentUserScores: map<string, int>,
             seriesMap: map<string, seq<(int, int)>>)
    requires k < |axis| && SortedBy(axis, Identity) && SortedBy(user.history, TimeOf)
    requires UserSynced(user, pointers, scores, series, axis[..k])
    ensures UserSynced(user, historyPointers, currentUserScores, seriesMap, axis[..k + 1])
    ensures historyPointers == pointers[user.userId := historyPointers[user.userId]]
    ensures currentUserScores == scores[user.userId := currentUserScores[user.userId]]
    ensures seriesMap == series[user.userId := seriesMap[user.userId]]
    ensures pointers[user.userId] <= historyPointers[user.userId]
  {
    var id, h, masterTime := user.userId, user.history, axis[k];
    historyPointers, currentUserScores := pointers, scores;
    PointerBelow(h, pointers[id], axis, k);
    while historyPointers[id] < |h| && h[historyPointers[id]].time <= masterTime
      invariant id in historyPointers && id in currentUserScores
      invariant historyPointers == pointers[id := historyPointers[id]]
      invariant currentUserScores == scores[id := currentUserScores[id]]
      invariant pointers[id] <= historyPointers[id] <= |h|
      invariant forall q :: 0 <= q < historyPointers[id] ==> h[q].time <= masterTime
      invariant currentUserScores[id] == if historyPointers[id] == 0 then 0 else h[historyPointers[id] - 1].score
      decreases |h| - historyPointers[id]
    {
      currentUserScores := currentUserScores[id := h[historyPointers[id]].score];
      historyPointers := historyPointers[id := historyPointers[id] + 1];
    }
    SampleSynced(h, axis, k, historyPointers[id], currentUserScores[id], series[id]);
    seriesMap := series[id := series[id] + [(masterTime, currentUserScores[id])]];
  }

  /** Pushing the carried score once the pointer has stopped keeps the user's state in step with the specification. */
  lemma SampleSynced(h: seq<ScorePoint>, axis: seq<int>, k: nat, p: int, score: int, samples: seq<(int, int)>)
    requires k < |axis| && SortedBy(h, TimeOf)
    requires 0 <= p <= |h|
    requires forall q :: 0 <= q < p ==> h[q].time <= axis[k]
    requires p < |h| ==> h[p].time > axis[k]
    requires score == if p == 0 then 0 else h[p - 1].score
    requires samples == StepSamples(h, axis[..k])
    ensures Synced(h, p, score, samples + [(axis[k], score)], axis[..k + 1])
  {
    SweepStep(h, p, axis, k);
    ScoreAtPointer(h, p, axis[..k + 1]);
    StepSamplesSnoc(h, axis[..k], axis[k]);
    assert axis[..k + 1] == axis[..k] + [axis[k]];
  }

  /** Points the pointer has already passed are at or before the next master time. */
  lemma PointerBelow(h: seq<ScorePoint>, p: int, axis: seq<int>, k: nat)
    requires k < |axis| && SortedBy(axis, Identity)
    requires PointerAt(h, p, axis[..k])
    ensures forall q :: 0 <= q < p ==> h[q].time <= axis[k]
  {
    if k > 0 {
      assert Identity(axis[k - 1]) <= Identity(axis[k]);
    }
  }

  /** Where the inner `while` stops, the pointer has passed exactly the points at or before `axis[k]`. */
  lemma SweepStep(h: seq<ScorePoint>, p: int, axis: seq<int>, k: nat)
    requires SortedBy(h, TimeOf)
    requires k < |axis|
    requires 0 <= p <= |h|
    requires forall q :: 0 <= q < p ==> h[q].time <= axis[k]
    requires p < |h| ==> h[p].time > axis[k]
    ensures PointerAt(h, p, axis[..k + 1])
  {
    forall q | p <= q < |h|
      ensures h[q].time > axis[k]
    {
      assert TimeOf(h[p]) <= TimeOf(h[q]);
    }
  }

  lemma ScoreAtPointer(h: seq<ScorePoint>, p: int, done: seq<int>)
    requires done != [] && PointerAt(h, p, done)
    ensures ScoreAt(h, done[|done| - 1]) == if p == 0 then 0 else h[p - 1].score
  {
    if p == 0 {
      ScoreAtNone(h, done[|done| - 1]);
    } else {
      ScoreAtIndex(h, done[|done| - 1], p - 1);
    }
  }

  /** The score a user ends on: that of the last point of the sorted history, or 0 without history. */
  function LatestScore(h: seq<ScorePoint>): int {
    if h == [] then 0 else h[|h| - 1].score
  }

  /**
   * The last master time is at or after every truncated history time, so every
   * series ends on the user's latest score.
   */
  lemma {:induction false} LastSampleIsLatest(trend: seq<TrendEntry>, now: int, axis: seq<int>, i: nat)
    requires i < |trend|
    requires StrictlyIncreasing(axis)
    requires forall t :: t in axis <==> t in HistoryTimes(trend) || t == TruncateToSecond(now)
    ensures |axis| > 0
    ensures ScoreAt(SortedHistory(trend[i].history), axis[|axis| - 1]) == LatestScore(SortedHistory(trend[i].history))
  {
    assert TruncateToSecond(now) in axis;
    var h := SortedHistory(trend[i].history);
    if h != [] {
      var t := h[|h| - 1].time;
      assert t in HistoryTimes(trend) by {
        SortedTimeIsHistoryTime(trend[i].history, h[|h| - 1]);
        HistoryTimesMembers(trend, t);
      }
      assert t in axis;
      var k :| 0 <= k < |axis| && axis[k] == t;
      assert k == |axis| - 1 || axis[k] < axis[|axis| - 1];
    }
  }

  /** A point of the sorted history carries the truncated time of some raw point. */
  lemma SortedTimeIsHistoryTime(history: seq<ScorePoint>, p: ScorePoint)
    requires p in SortedHistory(history)
    ensures p.time in PointTimes(history)
  {
    var raw := TruncatedPoints(history);
    assert p in multiset(SortedHistory(history));
    assert p in raw;
    var q :| 0 <= q < |raw| && raw[q] == p;
    assert TruncateToSecond(history[q].time) == p.time;
    PointTimesMembers(history, p.time);
  }

  /** One chart series as handed to the chart library. */
  datatype LineSeries = LineSeries(name: string, kind: string, step: string, symbol: string, data: seq<(int, int)>)

  /**
   * `seriesData`: one step series per trend entry, in input order, named by the
   * user's nickname, sampled at every master time.
   */
  method TrendSeries(trend: seq<TrendEntry>, now: int) returns (axis: seq<int>, series: seq<LineSeries>)
    requires DistinctUserIds(trend)
    ensures StrictlyIncreasing(axis)
    ensures forall t :: t in axis <==> t in HistoryTimes(trend) || t == TruncateToSecond(now)
    ensures |series| == |trend|
    ensures forall i :: 0 <= i < |trend| ==>
      && series[i].name == trend[i].nickname
      && series[i].kind == "line" && series[i].step == "end" && series[i].symbol == "none"
      && series[i].data == StepSamples(SortedHistory(trend[i].history), axis)
    ensures forall i :: 0 <= i < |trend| ==>
      |series[i].data| == |axis| > 0 &&
      series[i].data[|axis| - 1].1 == LatestScore(SortedHistory(trend[i].history))
  {
    axis := SortedTimePoints(trend, now);
    var sortedUsers := seq(|trend|, i requires 0 <= i < |trend| => trend[i].(history := SortedHistory(trend[i].history)));
    assert SortedBy(axis, Identity);
    var seriesMap := SweepSeries(sortedUsers, axis);
    forall i | 0 <= i < |trend|
      ensures trend[i].userId in seriesMap
      ensures seriesMap[trend[i].userId] == StepSamples(SortedHistory(trend[i].history), axis)
    {
      assert sortedUsers[i].userId == trend[i].userId;
      assert sortedUsers[i].history == SortedHistory(trend[i].history);
    }
    series := ChartSeries(trend, seriesMap);
    forall i | 0 <= i < |trend|
      ensures |series[i].data| == |axis| > 0
      ensures series[i].data[|axis| - 1].1 == LatestScore(SortedHistory(trend[i].history))
    {
      LastSampleIsLatest(trend, now, axis, i);
    }
  }

  /** The returned `trendData.map(...)`: series `i` is named after user `i` and carries that user's samples. */
  function ChartSeries(trend: seq<TrendEntry>, seriesMap: map<string, seq<(int, int)>>): (series: seq<LineSeries>)
    requires forall i :: 0 <= i < |trend| ==> trend[i].userId in seriesMap
    ensures |series| == |trend|
    ensures forall i :: 0 <= i < |trend| ==>
      series[i] == LineSeries(trend[i].nickname, "line", "end", "none", seriesMap[trend[i].userId])
  {
    seq(|trend|, i requires 0 <= i < |trend| =>
      LineSeries(trend[i].nickname, "line", "end", "none", seriesMap[trend[i].userId]))
  }
}
