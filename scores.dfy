/**
 * Per-category statistics kept across rounds: total points, games played, games
 * counted as won, and the average score per game. The browser's key-value store
 * that holds them is modelled as a map from category name to record.
 */
module Scores {

  datatype CategoryStats = CategoryStats(totalPoints: int, gamesPlayed: nat, gamesWon: nat, averageScore: int)

  /** The record a category gets when its first result is stored. */
  const ZERO_STATS := CategoryStats(0, 0, 0, 0)

  /**
   * `Math.round(total / played)`: the integer nearest to the quotient, a tie (an
   * exact half) going up. `/` on `int` floors for a positive divisor, so
   * floor(total/played + 1/2) is (2*total + played) / (2*played) for every total.
   */
  function RoundedAverage(total: int, played: nat): (r: int)
    requires played > 0
    ensures played * (2 * r - 1) <= 2 * total < played * (2 * r + 1)
  {
    var q := (2 * total + played) / (2 * played);
    var m := (2 * total + played) % (2 * played);
    assert 2 * total + played == 2 * played * q + m && 0 <= m < 2 * played;
    q
  }

  /** Multiplying by a positive factor keeps `<=`: the nonlinear step `RoundedAverageUnique` needs. */
  lemma MulLeftMonotone(a: int, x: int, y: int)
    requires a > 0 && x <= y
    ensures a * x <= a * y
  {
    assert a * y - a * x == a * (y - x);
  }

  /** The rounding bounds pin the average down: no other integer satisfies them. */
  lemma RoundedAverageUnique(total: int, played: nat, r: int)
    requires played > 0
    requires played * (2 * r - 1) <= 2 * total < played * (2 * r + 1)
    ensures r == RoundedAverage(total, played)
  {
    var q := RoundedAverage(total, played);
    if r < q {
      MulLeftMonotone(played, 2 * r + 1, 2 * q - 1);
    } else if r > q {
      MulLeftMonotone(played, 2 * q + 1, 2 * r - 1);
    }
  }

  /** The stored record of `category`, or the zero record when there is none. */
  function StatsOf(scores: map<string, CategoryStats>, category: string): CategoryStats
  {
    if category in scores then scores[category] else ZERO_STATS
  }

  /**
   * `updateScore(category, points)`: the category's record (created at zero when
   * missing) gains `points`, one more game played, one more game won exactly when
   * `points > 0`, and its average is recomputed; no other category changes.
   */
  function RecordResult(scores: map<string, CategoryStats>, category: string, points: int): (r: map<string, CategoryStats>)
    ensures r.Keys == scores.Keys + {category}
    ensures forall c :: c in scores && c != category ==> r[c] == scores[c]
    ensures r[category].totalPoints == StatsOf(scores, category).totalPoints + points
    ensures r[category].gamesPlayed == StatsOf(scores, category).gamesPlayed + 1
    ensures r[category].gamesWon == StatsOf(scores, category).gamesWon + 1 <==> points > 0
    ensures r[category].gamesWon == StatsOf(scores, category).gamesWon <==> points <= 0
    ensures var s := r[category];
      s.gamesPlayed * (2 * s.averageScore - 1) <= 2 * s.totalPoints < s.gamesPlayed * (2 * s.averageScore + 1)
  {
    var prev := StatsOf(scores, category);
    var total := prev.totalPoints + points;
    var played := prev.gamesPlayed + 1;
    var won := if points > 0 then prev.gamesWon + 1 else prev.gamesWon;
    scores[category := CategoryStats(total, played, won, RoundedAverage(total, played))]
  }

  /**
   * A record as `updateScore` leaves it: no more wins than games, points never
   * negative, and the average the rounded quotient (or 0 before any game).
   */
  ghost predicate Consistent(s: CategoryStats)
  {
    && s.gamesWon <= s.gamesPlayed
    && s.totalPoints >= 0
    && (s.gamesPlayed == 0 ==> s.totalPoints == 0 && s.averageScore == 0)
    && (s.gamesPlayed > 0 ==> s.averageScore == RoundedAverage(s.totalPoints, s.gamesPlayed))
  }

  ghost predicate WellFormed(scores: map<string, CategoryStats>)
  {
    forall c :: c in scores ==> Consistent(scores[c])
  }

  /** Recording a non-negative result keeps every record consistent. */
  lemma RecordResultKeepsWellFormed(scores: map<string, CategoryStats>, category: string, points: int)
    requires WellFormed(scores) && points >= 0
    ensures WellFormed(RecordResult(scores, category, points))
  {
    var r := RecordResult(scores, category, points);
    var s := r[category];
    RoundedAverageUnique(s.totalPoints, s.gamesPlayed, s.averageScore);
  }

  /** Some category of a non-empty map: the one the sum below takes out first. */
  ghost function AnyCategory(scores: map<string, CategoryStats>): (c: string)
    requires scores != map[]
    ensures c in scores
  {
    var c :| c in scores; c
  }

  /** The sum of `totalPoints` over all categories (`getTotalScore`). */
  ghost function TotalPoints(scores: map<string, CategoryStats>): int
    decreases |scores|
  {
    if scores == map[] then 0
    else
      var c := AnyCategory(scores);
      assert |scores - {c}| < |scores| by {
        assert (scores - {c}).Keys == scores.Keys - {c};
      }
      scores[c].totalPoints + TotalPoints(scores - {c})
  }

  /** The sum does not depend on which category is taken out first. */
  lemma {:induction false} TotalPointsRemove(scores: map<string, CategoryStats>, category: string)
    requires category in scores
    ensures TotalPoints(scores) == scores[category].totalPoints + TotalPoints(scores - {category})
    decreases |scores|
  {
    var c := AnyCategory(scores);
    assert |scores - {c}| < |scores| by {
      assert (scores - {c}).Keys == scores.Keys - {c};
    }
    if c != category {
      assert |scores - {category}| < |scores| by {
        assert (scores - {category}).Keys == scores.Keys - {category};
      }
      TotalPointsRemove(scores - {c}, category);
      TotalPointsRemove(scores - {category}, c);
      assert scores - {c} - {category} == scores - {category} - {c};
    }
  }

  /** With no negative totals stored, the sum is not negative. */
  lemma {:induction false} TotalPointsNonNegative(scores: map<string, CategoryStats>)
    requires WellFormed(scores)
    ensures TotalPoints(scores) >= 0
    decreases |scores|
  {
    if scores != map[] {
      var c := AnyCategory(scores);
      assert |scores - {c}| < |scores| by {
        assert (scores - {c}).Keys == scores.Keys - {c};
      }
      TotalPointsNonNegative(scores - {c});
    }
  }

  /**
   * With consistent records, one category's points (0 for a category with no
   * record) lie between zero and the sum over all categories.
   */
  lemma CategoryPointsAtMostTotal(scores: map<string, CategoryStats>, category: string)
    ensures WellFormed(scores) ==> 0 <= StatsOf(scores, category).totalPoints <= TotalPoints(scores)
  {
    if WellFormed(scores) {
      TotalPointsNonNegative(scores);
      if category in scores {
        TotalPointsRemove(scores, category);
        assert |scores - {category}| < |scores| by {
          assert (scores - {category}).Keys == scores.Keys - {category};
        }
        TotalPointsNonNegative(scores - {category});
      }
    }
  }

  /** Recording a result adds exactly its points to the sum over all categories. */
  lemma TotalPointsAfterRecord(scores: map<string, CategoryStats>, category: string, points: int)
    ensures TotalPoints(RecordResult(scores, category, points)) == TotalPoints(scores) + points
  {
    var r := RecordResult(scores, category, points);
    TotalPointsRemove(r, category);
    assert r - {category} == scores - {category};
    if category in scores {
      TotalPointsRemove(scores, category);
    } else {
      assert scores - {category} == scores;
    }
  }

}
