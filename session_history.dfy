/**
 * The session-history endpoints of the backend (`backend/app/api/sessions.py`)
 * over an in-memory list of saved session records: `get_sessions` filters by
 * type, sorts newest first and keeps at most `limit` records;
 * `get_session_stats` counts the records and compares the average tremor
 * score of the five newest with that of the five before them.
 */
module SessionHistory {
  import opened Wrappers
  import opened Numeric
  import opened Statistics

  /**
   * The fields of a saved session that these endpoints read: `type`,
   * `timestamp` and `tremor_score`, each of which may be missing (a
   * `tremor_score` of `None` counts as missing).
   */
  datatype SessionRecord = SessionRecord(kind: Option<string>, timestamp: Option<string>, tremorScore: Option<real>)

  /** The sort key `x.get("timestamp", "")`. */
  function Key(r: SessionRecord): string {
    r.timestamp.GetOr("")
  }

  // ---------------------------------------------------------------------
  // Python's string order
  // ---------------------------------------------------------------------

  /** Python's `a < b` on strings: by code point, a proper prefix first. */
  predicate StrLess(a: string, b: string)
    decreases |a|
  {
    |b| > 0 && (|a| == 0 || a[0] < b[0] || (a[0] == b[0] && StrLess(a[1..], b[1..])))
  }

  lemma {:induction false} StrLessAsymmetric(a: string, b: string)
    ensures StrLess(a, b) ==> !StrLess(b, a)
    decreases |a|
  {
    if |a| > 0 && |b| > 0 && a[0] == b[0] {
      StrLessAsymmetric(a[1..], b[1..]);
    }
  }

  lemma {:induction false} StrLessTotal(a: string, b: string)
    ensures a == b || StrLess(a, b) || StrLess(b, a)
    decreases |a|
  {
    if |a| > 0 && |b| > 0 && a[0] == b[0] {
      StrLessTotal(a[1..], b[1..]);
      if a[1..] == b[1..] {
        assert a == [a[0]] + a[1..] && b == [b[0]] + b[1..];
      }
    }
  }

  lemma {:induction false} StrLessTransitive(a: string, b: string, c: string)
    requires StrLess(a, b) && StrLess(b, c)
    ensures StrLess(a, c)
    decreases |a|
  {
    if |a| > 0 && a[0] == b[0] && b[0] == c[0] {
      StrLessTransitive(a[1..], b[1..], c[1..]);
    }
  }

  /** "Not older" is transitive: `a >= b >= c` gives `a >= c`. */
  lemma NotLessTransitive(a: string, b: string, c: string)
    requires !StrLess(a, b) && !StrLess(b, c)
    ensures !StrLess(a, c)
  {
    StrLessTotal(a, b);
    StrLessTotal(b, c);
    if a != b && b != c {
      StrLessTransitive(c, b, a);
      StrLessAsymmetric(c, a);
    } else if a != b {
      StrLessAsymmetric(b, a);
    } else if b != c {
      StrLessAsymmetric(c, b);
    }
  }

  // ---------------------------------------------------------------------
  // Newest first
  // ---------------------------------------------------------------------

  /** `r` may stand before `s` in newest-first order: its key is not smaller. */
  predicate NotOlder(r: SessionRecord, s: SessionRecord) {
    !StrLess(Key(r), Key(s))
  }

  /** The neighbours at `k - 1` and `k` are in newest-first order. */
  predicate InOrderAt(s: seq<SessionRecord>, k: int) {
    0 < k < |s| && NotOlder(s[k - 1], s[k])
  }

  predicate AdjacentNewestFirst(s: seq<SessionRecord>) {
    forall k :: 0 < k < |s| ==> InOrderAt(s, k)
  }

  /** `sort(key=timestamp, reverse=True)` order: no record is older than one after it. */
  predicate NewestFirst(s: seq<SessionRecord>) {
    forall i, j :: 0 <= i < j < |s| ==> NotOlder(s[i], s[j])
  }

  /** Order between neighbours is order throughout. */
  lemma {:induction false} AdjacentIsNewestFirst(s: seq<SessionRecord>)
    requires AdjacentNewestFirst(s)
    ensures NewestFirst(s)
  {
    if |s| > 1 {
      var init := s[..|s| - 1];
      forall k | 0 < k < |init|
        ensures InOrderAt(init, k)
      {
        assert InOrderAt(s, k);
      }
      AdjacentIsNewestFirst(init);
      forall i, j | 0 <= i < j < |s|
        ensures NotOlder(s[i], s[j])
      {
        assert InOrderAt(s, j);
        if j == |s| - 1 && i < j - 1 {
          assert NotOlder(init[i], init[j - 1]);
          NotLessTransitive(Key(s[i]), Key(s[j - 1]), Key(s[j]));
        } else if j < |s| - 1 {
          assert NotOlder(init[i], init[j]);
        }
      }
    }
  }

  /**
   * `list.sort(key=lambda x: x.get("timestamp", ""), reverse=True)`, in
   * place: an insertion sort by adjacent swaps that moves a record left only
   * past strictly older ones.
   */
  method SortNewestFirst(a: array<SessionRecord>)
    modifies a
    ensures NewestFirst(a[..])
    ensures multiset(a[..]) == multiset(old(a[..]))
  {
    var i := 0;
    while i < a.Length
      invariant 0 <= i <= a.Length
      invariant AdjacentNewestFirst(a[..i])
      invariant multiset(a[..]) == multiset(old(a[..]))
    {
      SinkNewest(a, i);
      i := i + 1;
    }
    assert a[..] == a[..a.Length];
    AdjacentIsNewestFirst(a[..]);
  }

  /** Exchanging two entries keeps the same records. */
  lemma SwapKeepsRecords(s: seq<SessionRecord>, i: nat, j: nat)
    requires i < |s| && j < |s|
    ensures multiset(s[i := s[j]][j := s[i]]) == multiset(s)
  {
  }

  /**
   * The state of one insertion pass while the record from position `i` sits
   * at `j`: neighbours are in order on both sides of it, and its two
   * neighbours are in order with each other.
   */
  predicate Sinking(s: seq<SessionRecord>, j: nat, i: nat)
    requires j <= i < |s|
  {
    && (forall k :: 0 < k < j ==> InOrderAt(s, k))
    && (forall k :: j < k <= i ==> InOrderAt(s, k))
    && (0 < j < i ==> NotOlder(s[j - 1], s[j + 1]))
  }

  lemma SinkStart(s: seq<SessionRecord>, i: nat)
    requires i < |s| && AdjacentNewestFirst(s[..i])
    ensures Sinking(s, i, i)
  {
    forall k | 0 < k < i
      ensures InOrderAt(s, k)
    {
      assert InOrderAt(s[..i], k);
      assert s[k - 1] == s[..i][k - 1] && s[k] == s[..i][k];
    }
  }

  /** Swapping the record past a strictly older neighbour keeps the pass in shape. */
  lemma SinkStep(s: seq<SessionRecord>, j: nat, i: nat)
    requires 0 < j <= i < |s| && Sinking(s, j, i) && StrLess(Key(s[j - 1]), Key(s[j]))
    ensures Sinking(s[j - 1 := s[j]][j := s[j - 1]], j - 1, i)
  {
    StrLessAsymmetric(Key(s[j - 1]), Key(s[j]));
    var t := s[j - 1 := s[j]][j := s[j - 1]];
    forall k | 0 < k < j - 1
      ensures InOrderAt(t, k)
    {
      assert InOrderAt(s, k);
    }
    forall k | j - 1 < k <= i
      ensures InOrderAt(t, k)
    {
      if k > j {
        assert InOrderAt(s, k) || k == j + 1;
      }
    }
    if 0 < j - 1 {
      assert InOrderAt(s, j - 1);
    }
  }

  /** The pass ends at the front or next to a record that is not older. */
  lemma SinkDone(s: seq<SessionRecord>, j: nat, i: nat)
    requires j <= i < |s| && Sinking(s, j, i)
    requires j == 0 || !StrLess(Key(s[j - 1]), Key(s[j]))
    ensures AdjacentNewestFirst(s[..i + 1])
  {
    var t := s[..i + 1];
    forall k | 0 < k < |t|
      ensures InOrderAt(t, k)
    {
      if k != j {
        assert InOrderAt(s, k);
      }
      assert t[k - 1] == s[k - 1] && t[k] == s[k];
    }
  }

  /** Exchanges two entries of the array. */
  method Swap(a: array<SessionRecord>, i: nat, j: nat)
    requires i < a.Length && j < a.Length
    modifies a
    ensures a[..] == old(a[..])[i := old(a[j])][j := old(a[i])]
    ensures multiset(a[..]) == multiset(old(a[..]))
  {
    SwapKeepsRecords(a[..], i, j);
    a[i], a[j] := a[j], a[i];
  }

  /**
   * One pass of the insertion sort: `a[i]` moves left past every strictly
   * older neighbour, so `a[..i + 1]` ends up in order.
   */
  method SinkNewest(a: array<SessionRecord>, i: nat)
    requires i < a.Length && AdjacentNewestFirst(a[..i])
    modifies a
    ensures AdjacentNewestFirst(a[..i + 1])
    ensures multiset(a[..]) == multiset(old(a[..]))
  {
    SinkStart(a[..], i);
    var j: nat := i;
    while 0 < j && StrLess(Key(a[j - 1]), Key(a[j]))
      invariant j <= i && Sinking(a[..], j, i)
      invariant multiset(a[..]) == multiset(old(a[..]))
    {
      ghost var before := a[..];
      SinkStep(before, j, i);
      Swap(a, j - 1, j);
      j := j - 1;
    }
    SinkDone(a[..], j, i);
  }

  // ---------------------------------------------------------------------
  // get_sessions
  // ---------------------------------------------------------------------

  /** `str.upper()` on ASCII letters; other characters are kept. */
  function UpperChar(c: char): char {
    if 'a' <= c <= 'z' then (c as int - 32) as char else c
  }

  function Upper(s: string): (u: string)
    ensures |u| == |s| && forall i :: 0 <= i < |s| ==> u[i] == UpperChar(s[i])
  {
    seq(|s|, i requires 0 <= i < |s| => UpperChar(s[i]))
  }

  /** `s.get("type", "").upper() == session_type.upper()`. */
  predicate TypeMatches(r: SessionRecord, wanted: string) {
    Upper(r.kind.GetOr("")) == Upper(wanted)
  }

  /** The list comprehension of the type filter: matching records, in their order. */
  function FilterByType(s: seq<SessionRecord>, wanted: string): (kept: seq<SessionRecord>)
    ensures |kept| <= |s|
    ensures forall r :: r in kept ==> r in s && TypeMatches(r, wanted)
    ensures forall r :: r in s && TypeMatches(r, wanted) ==> r in kept
  {
    if |s| == 0 then []
    else
      var rest := FilterByType(s[..|s| - 1], wanted);
      assert forall r :: r in s ==> r in s[..|s| - 1] || r == s[|s| - 1];
      if TypeMatches(s[|s| - 1], wanted) then rest + [s[|s| - 1]] else rest
  }

  /** `if session_type:` filters only for a non-empty type. */
  function TypeFilter(s: seq<SessionRecord>, sessionType: Option<string>): seq<SessionRecord> {
    if sessionType.None? || sessionType.value == "" then s else FilterByType(s, sessionType.value)
  }

  /** A filter with different letter case selects the same records. */
  lemma FilterIgnoresCase(s: seq<SessionRecord>, wanted: string)
    ensures FilterByType(s, Upper(wanted)) == FilterByType(s, wanted)
  {
    assert Upper(Upper(wanted)) == Upper(wanted);
  }

  /**
   * `get_sessions(limit, session_type)` over the loaded records: the sorted
   * matching records (`sorted`, newest first) cut to at most `limit`, and
   * their number. The query checks `1 <= limit <= 200` before the call.
   */
  method GetSessions(records: seq<SessionRecord>, limit: int, sessionType: Option<string>)
    returns (sessions: seq<SessionRecord>, total: nat, ghost sorted: seq<SessionRecord>)
    requires 1 <= limit <= 200
    ensures NewestFirst(sorted) && multiset(sorted) == multiset(TypeFilter(records, sessionType))
    ensures sessions == sorted[..Min(limit, |sorted|)]
    ensures total == |sessions| && total <= limit
    ensures forall r :: r in sessions ==> r in records
    ensures sessionType.Some? && sessionType.value != "" ==>
      forall r :: r in sessions ==> TypeMatches(r, sessionType.value)
  {
    var filtered := TypeFilter(records, sessionType);
    var a := new SessionRecord[|filtered|](i requires 0 <= i < |filtered| => filtered[i]);
    assert a[..] == filtered;
    SortNewestFirst(a);
    sorted := a[..];
    sessions := a[..Min(limit, a.Length)];
    total := |sessions|;
    forall r | r in sessions
      ensures r in filtered
    {
      assert r in multiset(sorted);
    }
  }

  // ---------------------------------------------------------------------
  // get_session_stats
  // ---------------------------------------------------------------------

  datatype Trend = Improving | Declining | Stable

  datatype SessionStats = SessionStats(
    totalSessions: nat,
    holdSessions: nat,
    followSessions: nat,
    avgScoreRecent: real,
    avgScorePrevious: real,
    trend: Trend,
    trendPercent: real)

  /** The tremor scores that are present, in order. */
  function Scores(s: seq<SessionRecord>): (scores: seq<real>)
    ensures |scores| <= |s|
  {
    if |s| == 0 then []
    else
      var last := s[|s| - 1];
      Scores(s[..|s| - 1]) + (if last.tremorScore.Some? then [last.tremorScore.value] else [])
  }

  /** `avg_score(session_list)`: the mean of the present scores, 0 without any. */
  function AvgScore(s: seq<SessionRecord>): real {
    var scores := Scores(s);
    if |scores| == 0 then 0.0 else Mean(scores)
  }

  /** A record without a score does not move the average. */
  lemma AvgScoreSkipsMissing(s: seq<SessionRecord>, r: SessionRecord)
    requires r.tremorScore.None?
    ensures AvgScore(s + [r]) == AvgScore(s)
  {
    assert (s + [r])[..|s|] == s;
    assert Scores(s + [r]) == Scores(s);
  }

  /** Scores that all lie in `[lo, hi]` average into `[lo, hi]`, or to 0 when there are none. */
  lemma {:induction false} AvgScoreBounds(s: seq<SessionRecord>, lo: real, hi: real)
    requires forall k :: 0 <= k < |s| && s[k].tremorScore.Some? ==> lo <= s[k].tremorScore.value <= hi
    ensures |Scores(s)| == 0 ==> AvgScore(s) == 0.0
    ensures |Scores(s)| > 0 ==> lo <= AvgScore(s) <= hi
  {
    ScoresBounds(s, lo, hi);
    if |Scores(s)| > 0 {
      MeanBounds(Scores(s), lo, hi);
    }
  }

  lemma {:induction false} ScoresBounds(s: seq<SessionRecord>, lo: real, hi: real)
    requires forall k :: 0 <= k < |s| && s[k].tremorScore.Some? ==> lo <= s[k].tremorScore.value <= hi
    ensures forall k :: 0 <= k < |Scores(s)| ==> lo <= Scores(s)[k] <= hi
  {
    if |s| > 0 {
      ScoresBounds(s[..|s| - 1], lo, hi);
    }
  }

  /** `len([s for s in sessions if s.get("type") == kind])`: exact, case-sensitive. */
  function CountKind(s: seq<SessionRecord>, kind: string): (n: nat)
    ensures n <= |s|
  {
    if |s| == 0 then 0
    else CountKind(s[..|s| - 1], kind) + (if s[|s| - 1].kind == Some(kind) then 1 else 0)
  }

  /** HOLD and FOLLOW records together are never more than all records. */
  lemma {:induction false} KindCountsBounded(s: seq<SessionRecord>)
    ensures CountKind(s, "HOLD") + CountKind(s, "FOLLOW") <= |s|
  {
    if |s| > 0 {
      KindCountsBounded(s[..|s| - 1]);
    }
  }

  /** The change from the previous to the recent average, in percent; 0 unless the previous is positive. */
  function TrendPercent(recent: real, previous: real): (p: real)
    ensures previous <= 0.0 ==> p == 0.0
    ensures 0.0 < previous ==> (p > 0.0 <==> recent > previous) && (p < 0.0 <==> recent < previous)
  {
    if previous > 0.0 then
      var p := (recent - previous) / previous * 100.0;
      assert recent > previous ==> (recent - previous) / previous > 0.0;
      assert recent < previous ==> (recent - previous) / previous < 0.0;
      p
    else 0.0
  }

  /** Against a positive previous average, 5 percent up or down is a factor of 1.05 or 0.95. */
  lemma PercentThreshold(recent: real, previous: real)
    requires 0.0 < previous
    ensures TrendPercent(recent, previous) > 5.0 <==> recent > previous * 1.05
    ensures TrendPercent(recent, previous) < -5.0 <==> recent < previous * 0.95
  {
    DivCompare(recent - previous, previous, 0.05);
    DivCompare(recent - previous, previous, -0.05);
  }

  /** Against a positive divisor, comparing a quotient is comparing the dividend with the scaled bound. */
  lemma DivCompare(d: real, p: real, c: real)
    requires 0.0 < p
    ensures d / p > c <==> d > c * p
    ensures d / p < c <==> d < c * p
  {
    var q := d / p;
    assert q * p == d;
    ScaleBy(q, c, p);
  }

  /** Multiplying both sides by a positive factor keeps a strict comparison, both ways. */
  lemma ScaleBy(x: real, y: real, f: real)
    requires 0.0 < f
    ensures x > y <==> x * f > y * f
    ensures x < y <==> x * f < y * f
  {
  }

  /** More than 5 percent up is improving, more than 5 percent down declining, anything else stable. */
  function TrendOf(percent: real): (t: Trend)
    ensures t == Improving <==> percent > 5.0
    ensures t == Declining <==> percent < -5.0
    ensures t == Stable <==> -5.0 <= percent <= 5.0
  {
    if percent > 5.0 then Improving else if percent < -5.0 then Declining else Stable
  }

  /** `get_session_stats()` on the records already sorted newest first. */
  function StatsOf(sorted: seq<SessionRecord>): (st: SessionStats)
    ensures st.totalSessions == |sorted|
    ensures st.holdSessions + st.followSessions <= st.totalSessions
    ensures st.trend == TrendOf(st.trendPercent)
  {
    KindCountsBounded(sorted);
    if |sorted| == 0 then SessionStats(0, 0, 0, 0.0, 0.0, Stable, 0.0)
    else
      var recent := sorted[..Min(5, |sorted|)];
      var previous := if |sorted| > 5 then sorted[5..Min(10, |sorted|)] else [];
      var avgRecent := AvgScore(recent);
      var avgPrevious := if |previous| > 0 then AvgScore(previous) else avgRecent;
      var percent := TrendPercent(avgRecent, avgPrevious);
      SessionStats(|sorted|, CountKind(sorted, "HOLD"), CountKind(sorted, "FOLLOW"),
        avgRecent, avgPrevious, TrendOf(percent), percent)
  }

  /** With no records every count and average is 0 and the trend is stable. */
  lemma EmptyHistoryIsStable()
    ensures StatsOf([]) == SessionStats(0, 0, 0, 0.0, 0.0, Stable, 0.0)
  {
  }

  /** With at most five records there is nothing to compare with: the trend is stable at 0 percent. */
  lemma FewSessionsAreStable(sorted: seq<SessionRecord>)
    requires 0 < |sorted| <= 5
    ensures StatsOf(sorted).avgScorePrevious == StatsOf(sorted).avgScoreRecent == AvgScore(sorted)
    ensures StatsOf(sorted).trendPercent == 0.0 && StatsOf(sorted).trend == Stable
  {
    assert sorted[..Min(5, |sorted|)] == sorted;
  }

  /**
   * The trend compares the five newest records with the five before them:
   * improving exactly when their average score is more than 5 percent above,
   * declining exactly when it is more than 5 percent below.
   */
  lemma TrendComparesWindows(sorted: seq<SessionRecord>)
    requires |sorted| > 5 && AvgScore(sorted[5..Min(10, |sorted|)]) > 0.0
    ensures StatsOf(sorted).avgScoreRecent == AvgScore(sorted[..5])
    ensures StatsOf(sorted).avgScorePrevious == AvgScore(sorted[5..Min(10, |sorted|)])
    ensures StatsOf(sorted).trend == Improving <==>
      AvgScore(sorted[..5]) > AvgScore(sorted[5..Min(10, |sorted|)]) * 1.05
    ensures StatsOf(sorted).trend == Declining <==>
      AvgScore(sorted[..5]) < AvgScore(sorted[5..Min(10, |sorted|)]) * 0.95
  {
    var r, p := AvgScore(sorted[..5]), AvgScore(sorted[5..Min(10, |sorted|)]);
    assert Min(5, |sorted|) == 5;
    PercentThreshold(r, p);
  }

  /**
   * `get_session_stats()` over the loaded records: they are sorted newest
   * first in place (`sorted`), then counted and averaged.
   */
  method GetSessionStats(records: seq<SessionRecord>) returns (stats: SessionStats, ghost sorted: seq<SessionRecord>)
    ensures NewestFirst(sorted) && multiset(sorted) == multiset(records)
    ensures stats == StatsOf(sorted)
    ensures stats.totalSessions == |records|
    ensures stats.holdSessions + stats.followSessions <= stats.totalSessions
  {
    if |records| == 0 {
      stats, sorted := SessionStats(0, 0, 0, 0.0, 0.0, Stable, 0.0), records;
      return;
    }
    var a := new SessionRecord[|records|](i requires 0 <= i < |records| => records[i]);
    assert a[..] == records;
    SortNewestFirst(a);
    sorted := a[..];
    assert |sorted| == |multiset(sorted)| == |records|;
    KindCountsBounded(sorted);
    stats := StatsOf(a[..]);
  }
}
