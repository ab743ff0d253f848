/** Best-week scoring and the weekly progress figures. */
module Scoring {
  import Phases

  /** The stats record; `streak` is stored but never computed. */
  datatype Stats = Stats(totalPoints: int, streak: int, bestWeek: int)

  const Initial: Stats := Stats(0, 0, 0)

  /** calculateStats' update for an observed week total: the best week becomes
      the larger of the two, and the running total is credited with exactly
      the amount by which the record rose. */
  function Step(s: Stats, weekPoints: int): (r: Stats)
    ensures r.bestWeek >= s.bestWeek && r.bestWeek >= weekPoints
    ensures r.bestWeek == s.bestWeek || r.bestWeek == weekPoints
    ensures r.totalPoints - s.totalPoints == r.bestWeek - s.bestWeek
    ensures r.totalPoints >= s.totalPoints
    ensures r.streak == s.streak
  {
    Stats(s.totalPoints + (if weekPoints > s.bestWeek then weekPoints - s.bestWeek else 0),
          s.streak,
          if s.bestWeek > weekPoints then s.bestWeek else weekPoints)
  }

  /** The stats after a sequence of observed week totals, in order. */
  function Run(s: Stats, observed: seq<int>): Stats
    decreases |observed|
  {
    if observed == [] then s else Run(Step(s, observed[0]), observed[1..])
  }

  /** Over any sequence of updates: bestWeek is the maximum of the starting
      record and every observed total, totalPoints rises by exactly as much
      as bestWeek, and streak never changes. */
  lemma {:induction false} RunSpec(s: Stats, observed: seq<int>)
    ensures Run(s, observed).bestWeek >= s.bestWeek
    ensures forall i :: 0 <= i < |observed| ==> observed[i] <= Run(s, observed).bestWeek
    ensures Run(s, observed).bestWeek == s.bestWeek || Run(s, observed).bestWeek in observed
    ensures Run(s, observed).totalPoints - s.totalPoints == Run(s, observed).bestWeek - s.bestWeek
    ensures Run(s, observed).streak == s.streak
    decreases |observed|
  {
    if observed != [] {
      var t := Step(s, observed[0]);
      RunSpec(t, observed[1..]);
      forall i | 0 <= i < |observed|
        ensures observed[i] <= Run(s, observed).bestWeek
      {
        if i > 0 { assert observed[i] == observed[1..][i - 1]; }
      }
      if Run(t, observed[1..]).bestWeek in observed[1..] {
        var j :| 0 <= j < |observed[1..]| && observed[1..][j] == Run(t, observed[1..]).bestWeek;
        assert observed[j + 1] == Run(t, observed[1..]).bestWeek;
      }
    }
  }

  /** From the initial (or reset) stats, totalPoints always equals bestWeek,
      and neither is negative. */
  lemma TotalEqualsBest(observed: seq<int>)
    ensures Run(Initial, observed).totalPoints == Run(Initial, observed).bestWeek >= 0
    ensures Run(Initial, observed).streak == 0
  {
    RunSpec(Initial, observed);
  }

  /** Math.round(points / goal * 100) in integers: the nearest whole percent,
      a half rounding up, i.e. r - 1/2 <= points * 100 / goal < r + 1/2. */
  function RoundedPercent(points: int, goal: int): (r: int)
    requires goal > 0
    ensures goal * (2 * r - 1) <= 200 * points < goal * (2 * r + 1)
  {
    var q := (200 * points + goal) / (2 * goal);
    assert 200 * points + goal == 2 * goal * q + (200 * points + goal) % (2 * goal);
    q
  }

  /** For the three weekly goals, points * 100 / goal is a multiple of 1/3,
      so it always lies at least 1/6 away from every point halfway between
      two integers: 3 * |200 * points - goal * (2r - 1)| >= goal. Floating-
      point error far smaller than 1/6 cannot change the rounded value. */
  lemma NoTies(points: int, p: int)
    requires Phases.IsPhase(p)
    ensures var goal := Phases.Phase(p).weeklyGoal;
      forall r :: 3 * (200 * points - goal * (2 * r - 1)) >= goal
               || 3 * (goal * (2 * r - 1) - 200 * points) >= goal
  {
    var goal := Phases.Phase(p).weeklyGoal;
    forall r
      ensures 3 * (200 * points - goal * (2 * r - 1)) >= goal
           || 3 * (goal * (2 * r - 1) - 200 * points) >= goal
    {
      // the difference is an odd multiple of 20, 10 or 5 respectively
      var d := 200 * points - goal * (2 * r - 1);
      if p == 1 {
        assert d == 20 * (2 * (5 * points - r) + 1);
      } else if p == 2 {
        assert d == 10 * (2 * (10 * points - 3 * r) + 3);
      } else {
        assert d == 5 * (2 * (20 * points - 3 * r) + 3);
      }
    }
  }

  /** Multiplying by a non-negative number keeps an inequality. */
  lemma MulMono(a: int, x: int, y: int)
    requires a >= 0 && x <= y
    ensures a * x <= a * y
  {
  }

  /** With a goal below 200 points, the percentage reaches 100 exactly when
      the points reach the goal. */
  lemma GoalReached(points: int, goal: int)
    requires 0 < goal < 200
    ensures RoundedPercent(points, goal) >= 100 <==> points >= goal
  {
    var r := RoundedPercent(points, goal);
    if r >= 100 {
      MulMono(goal, 199, 2 * r - 1);
      assert 200 * points >= goal * 199 > 200 * (goal - 1);
    } else {
      MulMono(goal, 2 * r + 1, 199);
      assert 200 * points < goal * 199 < 200 * goal;
    }
  }

  /** getWeekProgress' result. */
  datatype Progress = Progress(points: int, percentage: int, goal: int)

  /** The progress of a week with the given points in phase p: the phase's
      goal and the rounded percentage, which may exceed 100. */
  function WeekProgress(points: int, p: int): (r: Progress)
    requires Phases.IsPhase(p)
    ensures r.points == points && r.goal == Phases.Phase(p).weeklyGoal
    ensures r.goal * (2 * r.percentage - 1) <= 200 * points < r.goal * (2 * r.percentage + 1)
    ensures points >= 0 ==> r.percentage >= 0
  {
    var goal := Phases.Phase(p).weeklyGoal;
    Progress(points, RoundedPercent(points, goal), goal)
  }
}
