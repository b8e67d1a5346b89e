/**
 * Scoring and ordering of the results the resultifier produced: each result
 * takes the essence score of its essence (or none, with a warning), then the
 * results are sorted by score, highest first, a missing score counting as 0;
 * the sort is stable, as Python's `list.sort(reverse=True)` is.
 */
module InferRanking {
  import opened Wrappers
  import opened InferTypes

  /** A result as far as scoring is concerned: its essence and its score. */
  datatype ResultRow = ResultRow(essence: string, score: Option<Score>)

  const MissingScorePrefix := "Error retrieving score for result essence "
  const MissingScoreSuffix := ". Setting result score to None."

  function MissingScoreWarning(essence: string): string {
    MissingScorePrefix + essence + MissingScoreSuffix
  }

  /** Two different essences never produce the same warning. */
  lemma MissingScoreWarningInjective(e: string, e': string)
    requires MissingScoreWarning(e) == MissingScoreWarning(e')
    ensures e == e'
  {
    var w, w' := MissingScoreWarning(e), MissingScoreWarning(e');
    assert |e| == |e'|;
    assert e == w[|MissingScorePrefix|..|MissingScorePrefix| + |e|];
    assert e' == w'[|MissingScorePrefix|..|MissingScorePrefix| + |e'|];
  }

  /** The score a result gets: its essence's score, or none when the essence has no score. */
  function ScoreOf(row: ResultRow, scores: map<string, Score>): ResultRow {
    if row.essence in scores then row.(score := Some(scores[row.essence])) else row.(score := None)
  }

  /** The first `count` results rescored. */
  function ScoredRows(rows: seq<ResultRow>, scores: map<string, Score>, count: nat): seq<ResultRow>
    requires count <= |rows|
  {
    if count == 0 then [] else ScoredRows(rows, scores, count - 1) + [ScoreOf(rows[count - 1], scores)]
  }

  /** The warnings the first `count` results raise, one per result whose essence has no score. */
  function ScoreWarnings(rows: seq<ResultRow>, scores: map<string, Score>, count: nat): seq<string>
    requires count <= |rows|
  {
    if count == 0 then []
    else
      var w := if rows[count - 1].essence in scores then [] else [MissingScoreWarning(rows[count - 1].essence)];
      ScoreWarnings(rows, scores, count - 1) + w
  }

  /**
   * Rescoring keeps the results and their order; a result's score is its
   * essence's score exactly when the essence has one, and none otherwise.
   */
  lemma {:induction false} ScoredRowsSpec(rows: seq<ResultRow>, scores: map<string, Score>, count: nat, i: nat)
    requires i < count <= |rows|
    ensures |ScoredRows(rows, scores, count)| == count
    ensures ScoredRows(rows, scores, count)[i].essence == rows[i].essence
    ensures ScoredRows(rows, scores, count)[i].score ==
      if rows[i].essence in scores then Some(scores[rows[i].essence]) else None
  {
    if i < count - 1 {
      ScoredRowsSpec(rows, scores, count - 1, i);
    }
    ScoredRowsLength(rows, scores, count - 1);
  }

  lemma {:induction false} ScoredRowsLength(rows: seq<ResultRow>, scores: map<string, Score>, count: nat)
    requires count <= |rows|
    ensures |ScoredRows(rows, scores, count)| == count
  {
    if count > 0 {
      ScoredRowsLength(rows, scores, count - 1);
    }
  }

  /** A warning is raised for essence `e` exactly when some result has essence `e` and `e` has no score. */
  lemma {:induction false} ScoreWarningsSpec(rows: seq<ResultRow>, scores: map<string, Score>, count: nat, e: string)
    requires count <= |rows|
    ensures MissingScoreWarning(e) in ScoreWarnings(rows, scores, count) <==>
      e !in scores && exists i | 0 <= i < count :: rows[i].essence == e
  {
    if count > 0 {
      var last := count - 1;
      ScoreWarningsSpec(rows, scores, last, e);
      var w := ScoreWarnings(rows, scores, count);
      if MissingScoreWarning(e) in w && MissingScoreWarning(e) !in ScoreWarnings(rows, scores, last) {
        MissingScoreWarningInjective(e, rows[last].essence);
      }
      if e !in scores && rows[last].essence == e {
        assert w[|w| - 1] == MissingScoreWarning(e);
      }
    }
  }

  /** One warning per result without a score: no more, no fewer. */
  lemma {:induction false} ScoreWarningsCount(rows: seq<ResultRow>, scores: map<string, Score>, count: nat)
    requires count <= |rows|
    ensures |ScoreWarnings(rows, scores, count)| == |MissingRows(rows, scores, count)|
  {
    if count == 0 {
      assert MissingRows(rows, scores, count) == {};
    } else {
      var last := count - 1;
      ScoreWarningsCount(rows, scores, last);
      var before := MissingRows(rows, scores, last);
      if rows[last].essence in scores {
        assert MissingRows(rows, scores, count) == before;
      } else {
        assert MissingRows(rows, scores, count) == before + {last};
        assert last !in before;
      }
    }
  }

  /** The positions among the first `count` results whose essence has no score. */
  function MissingRows(rows: seq<ResultRow>, scores: map<string, Score>, count: nat): set<nat>
    requires count <= |rows|
  {
    set i: nat | i < count && rows[i].essence !in scores
  }

  /** The scoring loop of `resultify_and_sort`. */
  method ScoreResultsLoop(rows: seq<ResultRow>, scores: map<string, Score>)
    returns (scored: seq<ResultRow>, warnings: seq<string>)
    ensures scored == ScoredRows(rows, scores, |rows|)
    ensures warnings == ScoreWarnings(rows, scores, |rows|)
  {
    scored, warnings := [], [];
    for i := 0 to |rows|
      invariant scored == ScoredRows(rows, scores, i)
      invariant warnings == ScoreWarnings(rows, scores, i)
    {
      var row := rows[i];
      if row.essence in scores {
        row := row.(score := Some(scores[row.essence]));
      } else {
        row := row.(score := None);
        warnings := warnings + [MissingScoreWarning(row.essence)];
      }
      scored := scored + [row];
    }
  }

  /** The sort key: the score, a missing score counting as 0. */
  function Key(row: ResultRow): Score {
    NoneToZero(row.score)
  }

  /** Highest key first. */
  predicate SortedDesc(rows: seq<ResultRow>) {
    forall i, j | 0 <= i < j < |rows| :: Key(rows[i]) >= Key(rows[j])
  }

  /** Place `x` before the first row whose key is not above its own. */
  function Insert(x: ResultRow, rows: seq<ResultRow>): seq<ResultRow> {
    if |rows| == 0 || Key(rows[0]) <= Key(x) then [x] + rows
    else [rows[0]] + Insert(x, rows[1..])
  }

  /** A stable sort by descending key: insertion of each row, front to back, into the sorted rest. */
  function SortByScore(rows: seq<ResultRow>): seq<ResultRow> {
    if |rows| == 0 then [] else Insert(rows[0], SortByScore(rows[1..]))
  }

  lemma {:induction false} InsertPermutes(x: ResultRow, rows: seq<ResultRow>)
    ensures multiset(Insert(x, rows)) == multiset(rows) + multiset{x}
  {
    if |rows| > 0 && Key(rows[0]) > Key(x) {
      InsertPermutes(x, rows[1..]);
      assert rows == [rows[0]] + rows[1..];
    }
  }

  lemma {:induction false} InsertSorted(x: ResultRow, rows: seq<ResultRow>)
    requires SortedDesc(rows)
    ensures SortedDesc(Insert(x, rows))
  {
    if |rows| > 0 && Key(rows[0]) > Key(x) {
      InsertSorted(x, rows[1..]);
      InsertPermutes(x, rows[1..]);
      var r := Insert(x, rows[1..]);
      forall k | 0 <= k < |r|
        ensures Key(rows[0]) >= Key(r[k])
      {
        assert r[k] in multiset(rows[1..]) + multiset{x};
        if r[k] != x {
          assert r[k] in rows[1..];
        }
      }
      assert Insert(x, rows) == [rows[0]] + r;
    }
  }

  /** The results come out sorted by descending score and are a permutation of the input. */
  lemma {:induction false} SortByScoreSorted(rows: seq<ResultRow>)
    ensures SortedDesc(SortByScore(rows))
    ensures multiset(SortByScore(rows)) == multiset(rows)
  {
    if |rows| > 0 {
      SortByScoreSorted(rows[1..]);
      InsertSorted(rows[0], SortByScore(rows[1..]));
      InsertPermutes(rows[0], SortByScore(rows[1..]));
      assert rows == [rows[0]] + rows[1..];
    }
  }

  /** The rows whose key is `k`, in their order. */
  function WithKey(rows: seq<ResultRow>, k: Score): seq<ResultRow> {
    if |rows| == 0 then []
    else (if Key(rows[0]) == k then [rows[0]] else []) + WithKey(rows[1..], k)
  }

  lemma {:induction false} InsertWithKey(x: ResultRow, rows: seq<ResultRow>, k: Score)
    ensures WithKey(Insert(x, rows), k) == (if Key(x) == k then [x] else []) + WithKey(rows, k)
  {
    var r := Insert(x, rows);
    var mine := if Key(x) == k then [x] else [];
    if |rows| > 0 && Key(rows[0]) > Key(x) {
      InsertWithKey(x, rows[1..], k);
      assert r[0] == rows[0] && r[1..] == Insert(x, rows[1..]);
      var head := if Key(rows[0]) == k then [rows[0]] else [];
      assert WithKey(r, k) == head + (mine + WithKey(rows[1..], k));
      assert WithKey(rows, k) == head + WithKey(rows[1..], k);
      if Key(x) == k {
        assert head == [];
      }
    } else {
      assert r[0] == x && r[1..] == rows;
    }
  }

  /** Stability: the results sharing a score keep their relative order. */
  lemma {:induction false} SortByScoreStable(rows: seq<ResultRow>, k: Score)
    ensures WithKey(SortByScore(rows), k) == WithKey(rows, k)
  {
    if |rows| > 0 {
      SortByScoreStable(rows[1..], k);
      InsertWithKey(rows[0], SortByScore(rows[1..]), k);
    }
  }
}
