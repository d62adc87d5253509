/**
 * The bookkeeping of `updateScore` (script.js:171-221): the leaderboard
 * entries, their stable sort by score, the score total behind the average,
 * the verdict bands, and the fastest and average round times.
 */
module Leaderboard {

  import opened Wrappers
  import opened JsMath

  /** One leaderboard row: `{ score, name, duration }`, the duration `null` when none was captured. */
  datatype Entry = Entry(score: int, name: string, duration: Option<nat>)

  /** The name recorded for a round: the saved first name, or 'Anonymous' when there is none. */
  function PlayerName(firstName: string): (name: string)
    ensures name != ""
    ensures firstName != "" ==> name == firstName
    ensures firstName == "" ==> name == "Anonymous"
  {
    if |firstName| > 0 then firstName else "Anonymous"
  }

  /** Ascending by score. */
  predicate Sorted(s: seq<Entry>)
  {
    forall i, j :: 0 <= i < j < |s| ==> s[i].score <= s[j].score
  }

  /**
   * Places `e` after every entry, counted from the back, until one with a
   * score no greater than its own: in a sorted sequence, after all entries
   * whose score is at most `e.score`.
   */
  function Insert(s: seq<Entry>, e: Entry): (r: seq<Entry>)
    ensures multiset(r) == multiset(s) + multiset{e}
  {
    if |s| == 0 then [e]
    else if s[|s| - 1].score <= e.score then s + [e]
    else
      var front, last := s[..|s| - 1], s[|s| - 1];
      assert s == front + [last];
      Insert(front, e) + [last]
  }

  /** Appending an entry that no earlier entry outscores keeps a leaderboard sorted. */
  lemma SortedAppend(r: seq<Entry>, x: Entry)
    requires Sorted(r)
    requires forall i :: 0 <= i < |r| ==> r[i].score <= x.score
    ensures Sorted(r + [x])
  {
    forall i, j | 0 <= i < j < |r + [x]|
      ensures (r + [x])[i].score <= (r + [x])[j].score
    {
      if j < |r| {
        assert (r + [x])[i] == r[i] && (r + [x])[j] == r[j];
      }
    }
  }

  /** Inserting into a sorted leaderboard keeps it sorted. */
  lemma {:induction false} InsertSorted(s: seq<Entry>, e: Entry)
    requires Sorted(s)
    ensures Sorted(Insert(s, e))
  {
    if |s| == 0 {
      assert Insert(s, e) == [e];
    } else if s[|s| - 1].score <= e.score {
      SortedAppend(s, e);
    } else {
      var front, last := s[..|s| - 1], s[|s| - 1];
      assert s == front + [last];
      InsertSorted(front, e);
      var r := Insert(front, e);
      forall i | 0 <= i < |r|
        ensures r[i].score <= last.score
      {
        assert r[i] in multiset(r);
        if r[i] != e {
          assert r[i] in multiset(front);
          var m :| 0 <= m < |front| && front[m] == r[i];
          assert s[m] == front[m];
        }
      }
      SortedAppend(r, last);
    }
  }

  /**
   * The in-place sort of script.js:178, ascending by score, which in
   * JavaScript is stable: an insertion sort that keeps entries of equal score in
   * their original order.
   */
  function SortByScore(s: seq<Entry>): (r: seq<Entry>)
    ensures Sorted(r)
    ensures multiset(r) == multiset(s)
  {
    if |s| == 0 then []
    else
      var front, last := s[..|s| - 1], s[|s| - 1];
      assert s == front + [last];
      InsertSorted(SortByScore(front), last);
      Insert(SortByScore(front), last)
  }

  /** The entries of `s` whose score is `k`, in their order in `s`. */
  function WithScore(s: seq<Entry>, k: int): seq<Entry>
  {
    if s == [] then []
    else WithScore(s[..|s| - 1], k) + (if s[|s| - 1].score == k then [s[|s| - 1]] else [])
  }

  lemma {:induction false} WithScoreAppend(a: seq<Entry>, b: seq<Entry>, k: int)
    ensures WithScore(a + b, k) == WithScore(a, k) + WithScore(b, k)
    decreases |b|
  {
    if b != [] {
      var b', x := b[..|b| - 1], b[|b| - 1];
      assert (a + b)[..|a + b| - 1] == a + b';
      WithScoreAppend(a, b', k);
    } else {
      assert a + b == a;
    }
  }

  lemma WithScoreSingle(x: Entry, k: int)
    ensures WithScore([x], k) == if x.score == k then [x] else []
  {
    assert [x][..0] == [];
  }

  lemma EmptyCommutes(a: seq<Entry>, x: seq<Entry>, y: seq<Entry>)
    requires x == [] || y == []
    ensures a + x + y == a + y + x
  {
    if x == [] {
      assert a + x == a;
    } else {
      assert a + y == a;
    }
  }

  /** Inserting into a sorted sequence puts the new entry after every entry of equal score. */
  lemma {:induction false} InsertKeepsTies(s: seq<Entry>, e: Entry, k: int)
    requires Sorted(s)
    ensures WithScore(Insert(s, e), k) == WithScore(s, k) + WithScore([e], k)
  {
    if |s| == 0 {
      assert Insert(s, e) == [] + [e];
    } else if s[|s| - 1].score <= e.score {
      WithScoreAppend(s, [e], k);
    } else {
      var front, last := s[..|s| - 1], s[|s| - 1];
      assert s == front + [last];
      var inserted := Insert(front, e);
      assert Insert(s, e) == inserted + [last];
      WithScoreSingle(e, k);
      WithScoreSingle(last, k);
      var below, tie, top := WithScore(front, k), WithScore([e], k), WithScore([last], k);
      calc {
        WithScore(Insert(s, e), k);
        { WithScoreAppend(inserted, [last], k); }
        WithScore(inserted, k) + top;
        { InsertKeepsTies(front, e, k); }
        below + tie + top;
        { EmptyCommutes(below, tie, top); }
        below + top + tie;
        { WithScoreAppend(front, [last], k); }
        WithScore(s, k) + tie;
      }
    }
  }

  /** The sort is stable: entries of any one score keep their relative order. */
  lemma {:induction false} SortIsStable(s: seq<Entry>, k: int)
    ensures WithScore(SortByScore(s), k) == WithScore(s, k)
  {
    if |s| > 0 {
      var front, last := s[..|s| - 1], s[|s| - 1];
      assert s == front + [last];
      SortIsStable(front, k);
      InsertKeepsTies(SortByScore(front), last, k);
      WithScoreAppend(front, [last], k);
    }
  }

  /** Sorting a leaderboard that is already in order leaves it as it is. */
  lemma {:induction false} SortKeepsSorted(s: seq<Entry>)
    requires Sorted(s)
    ensures SortByScore(s) == s
  {
    if |s| > 0 {
      var front, last := s[..|s| - 1], s[|s| - 1];
      assert s == front + [last];
      SortKeepsSorted(front);
    }
  }

  /**
   * Pushing one entry onto a sorted leaderboard and sorting it again places
   * the entry after every entry whose score is at most its own.
   */
  lemma PushThenSort(s: seq<Entry>, e: Entry)
    requires Sorted(s)
    ensures SortByScore(s + [e]) == Insert(s, e)
  {
    assert (s + [e])[..|s|] == s;
    SortKeepsSorted(s);
  }

  /** In a sorted leaderboard the last entry has the highest score. */
  lemma LastIsHighest(s: seq<Entry>)
    requires Sorted(s) && |s| > 0
    ensures forall i :: 0 <= i < |s| ==> s[i].score <= s[|s| - 1].score
  {
  }

  /** The sum of the scores. */
  function TotalScore(s: seq<Entry>): int
  {
    if s == [] then 0 else TotalScore(s[..|s| - 1]) + s[|s| - 1].score
  }

  lemma {:induction false} TotalScoreInsert(s: seq<Entry>, e: Entry)
    ensures TotalScore(Insert(s, e)) == TotalScore(s) + e.score
  {
    if |s| > 0 && s[|s| - 1].score > e.score {
      var front, last := s[..|s| - 1], s[|s| - 1];
      var r := Insert(front, e) + [last];
      assert r[..|r| - 1] == Insert(front, e);
      TotalScoreInsert(front, e);
    } else if |s| > 0 {
      assert (s + [e])[..|s|] == s;
    } else {
      assert [e][..0] == [];
    }
  }

  /** Sorting does not change the total, so the average score is that of the rounds played. */
  lemma {:induction false} TotalScoreOfSort(s: seq<Entry>)
    ensures TotalScore(SortByScore(s)) == TotalScore(s)
  {
    if |s| > 0 {
      var front := s[..|s| - 1];
      TotalScoreOfSort(front);
      TotalScoreInsert(SortByScore(front), s[|s| - 1]);
    }
  }

  /** The accumulator loop of script.js:181-183. */
  method SumScores(entries: seq<Entry>) returns (sum: int)
    ensures sum == TotalScore(entries)
  {
    sum := 0;
    for i := 0 to |entries|
      invariant sum == TotalScore(entries[..i])
    {
      assert entries[..i + 1][..i] == entries[..i];
      sum := sum + entries[i].score;
    }
    assert entries[..|entries|] == entries;
  }

  /** The average score, `sum / scoreArr.length`, kept exact. */
  function AverageScore(total: int, count: nat): (avg: real)
    requires count > 0
    ensures avg * count as real == total as real
  {
    total as real / count as real
  }

  datatype Verdict = Good | Okay | Bad | Awful

  /**
   * The verdict's denominator (script.js:197):
   * the parsed level unless it is missing or zero, then the score, then 1.
   * It is never zero.
   */
  function VerdictDenominator(levelNumber: Option<int>, recentScore: int): (d: int)
    ensures d != 0
    ensures levelNumber.Some? && levelNumber.value != 0 ==> d == levelNumber.value
    ensures (levelNumber.None? || levelNumber.value == 0) && recentScore != 0 ==> d == recentScore
  {
    if levelNumber.Some? && levelNumber.value != 0 then levelNumber.value
    else if recentScore != 0 then recentScore
    else 1
  }

  /** The bands of script.js:198-203 on the exact ratio `score / denominator`. */
  function VerdictOf(score: int, denominator: int): Verdict
    requires denominator != 0
  {
    var pct := score as real / denominator as real;
    if pct <= 0.2 then Good
    else if pct <= 0.4 then Okay
    else if pct <= 0.7 then Bad
    else Awful
  }

  /** Comparing a ratio with a positive denominator is comparing the cross products. */
  lemma RatioAtMost(a: int, d: int, c: real)
    requires d > 0
    ensures a as real / d as real <= c <==> a as real <= c * d as real
  {
    var x := a as real / d as real;
    assert x * d as real == a as real;
    if x <= c {
      assert x * d as real <= c * d as real;
    } else {
      assert x * d as real > c * d as real;
    }
  }

  /**
   * With a positive denominator the bands are, in integers: Good when
   * `5 * score <= d`, Okay up to `5 * score <= 2 * d`, Bad up to
   * `10 * score <= 7 * d`, Awful above.
   */
  lemma VerdictBands(score: int, d: int)
    requires d > 0
    ensures VerdictOf(score, d) == Good <==> 5 * score <= d
    ensures VerdictOf(score, d) == Okay <==> d < 5 * score <= 2 * d
    ensures VerdictOf(score, d) == Bad <==> 2 * d < 5 * score && 10 * score <= 7 * d
    ensures VerdictOf(score, d) == Awful <==> 7 * d < 10 * score
  {
    RatioAtMost(score, d, 0.2);
    RatioAtMost(score, d, 0.4);
    RatioAtMost(score, d, 0.7);
  }

  function Rank(v: Verdict): nat
  {
    match v
    case Good => 0
    case Okay => 1
    case Bad => 2
    case Awful => 3
  }

  /** More tries against the same range never earn a better verdict. */
  lemma VerdictMonotone(score: int, score': int, d: int)
    requires d > 0 && score <= score'
    ensures Rank(VerdictOf(score, d)) <= Rank(VerdictOf(score', d))
  {
    VerdictBands(score, d);
    VerdictBands(score', d);
  }

  /** The boundaries belong to the better band: 0.2 is Good, 0.4 Okay, 0.7 Bad; giving up on 1-10 is Awful. */
  lemma VerdictBoundaries()
    ensures VerdictOf(2, 10) == Good && VerdictOf(4, 10) == Okay
    ensures VerdictOf(7, 10) == Bad && VerdictOf(10, 10) == Awful
  {
  }

  /** The sum of the recorded durations (script.js:214). */
  function TotalTime(times: seq<nat>): nat
  {
    if times == [] then 0 else TotalTime(times[..|times| - 1]) + times[|times| - 1]
  }

  /** The shortest recorded duration (script.js:213). */
  function MinTime(times: seq<nat>): (m: nat)
    requires |times| > 0
    ensures m in times
    ensures forall t :: t in times ==> m <= t
  {
    if |times| == 1 then times[0]
    else
      var front, last := times[..|times| - 1], times[|times| - 1];
      assert times == front + [last];
      var m := MinTime(front);
      if last < m then last else m
  }

  /**
   * `Math.round(total / count)` in exact integer arithmetic: the nearest
   * integer to the exact mean, a half rounded up.
   */
  function RoundedMean(total: nat, count: nat): (r: nat)
    requires count > 0
    ensures r == Round(total as real / count as real)
  {
    var n, d := 2 * total + count, 2 * count;
    FloorOfQuotient(n, d);
    var mean := total as real / count as real;
    assert mean * count as real == total as real;
    assert (mean + 0.5) * d as real == n as real;
    DivideProduct(n as real, d as real, mean + 0.5);
    n / d
  }

  /** What the page shows once a round with a duration is recorded. */
  datatype TimeStats = TimeStats(fastest: nat, average: nat)

  /** What `updateScore` computes for display besides the new leaderboard. */
  datatype Report = Report(wins: nat, scoreSum: int, average: real, recent: Entry,
                           verdict: Verdict, times: Option<TimeStats>)

  /** The fastest and the rounded mean of the recorded round times (script.js:213-215). */
  function RoundTimes(times: seq<nat>): (t: TimeStats)
    requires |times| > 0
    ensures t.fastest in times && forall d :: d in times ==> t.fastest <= d
    ensures t.average == Round(TotalTime(times) as real / |times| as real)
  {
    TimeStats(MinTime(times), RoundedMean(TotalTime(times), |times|))
  }

  /**
   * What `updateScore` shows for the sorted leaderboard (script.js:180-203):
   * the win count, the score total and its mean, the last entry, which has
   * the highest score, and the verdict on it.
   */
  function Summary(board: seq<Entry>, levelNumber: Option<int>, times: Option<TimeStats>): (r: Report)
    requires Sorted(board) && |board| > 0
    ensures r.wins == |board| && r.scoreSum == TotalScore(board)
    ensures r.average * |board| as real == TotalScore(board) as real
    ensures r.recent == board[|board| - 1]
    ensures forall i :: 0 <= i < |board| ==> board[i].score <= r.recent.score
    ensures r.verdict == VerdictOf(r.recent.score, VerdictDenominator(levelNumber, r.recent.score))
    ensures r.times == times
  {
    LastIsHighest(board);
    var total, recent := TotalScore(board), board[|board| - 1];
    Report(|board|, total, AverageScore(total, |board|), recent,
           VerdictOf(recent.score, VerdictDenominator(levelNumber, recent.score)), times)
  }
}
