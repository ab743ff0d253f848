/** The component's state (cursor, habit log, stats) and the handlers that
    update it. */
module Tracker {
  import Phases
  import Navigation
  import opened HabitLog
  import opened Scoring

  class HabitTracker {
    var currentPhase: int
    var currentWeek: int
    var habits: Log
    var stats: Stats

    /** The invariant every handler keeps: the cursor is in bounds, every
        stored status is 0, 1 or 2, and the stats are those of the initial
        record after some sequence of updates. */
    ghost predicate Valid()
      reads this
    {
      && Navigation.InBounds(Navigation.Cursor(currentPhase, currentWeek))
      && ValidLog(habits)
      && stats.totalPoints == stats.bestWeek >= 0
      && stats.streak == 0
    }

    /** The component's initial state. */
    constructor ()
      ensures Valid()
      ensures currentPhase == 1 && currentWeek == 1
      ensures habits == map[] && stats == Initial
    {
      currentPhase, currentWeek := 1, 1;
      habits := map[];
      stats := Initial;
    }

    /** getWeekKey: the key of the week under the cursor; under the
        invariant it names one of the twelve weeks of the programme. */
    function CurrentKey(): (k: WeekKey)
      reads this
      ensures Valid() ==> 1 <= k.phase <= 3 && 1 <= k.week <= 4
    {
      WeekKey(currentPhase, currentWeek)
    }

    /** getHabitStatus for the week under the cursor. */
    function GetHabitStatus(habitId: string, dayIndex: int): (s: int)
      reads this
      requires Valid()
      ensures 0 <= s <= 2
    {
      Status(habits, CurrentKey(), CellKey(habitId, dayIndex))
    }

    /** The SCORE column of a habit's row: its statuses over the seven days
        of the week under the cursor, between 0 and 14. */
    function HabitWeekTotal(habitId: string): (t: int)
      reads this
      requires Valid()
      ensures 0 <= t <= 2 * Phases.DaysPerWeek
    {
      RowTotal(habits, CurrentKey(), habitId, Phases.DaysPerWeek)
    }

    /** calculateStats: reads the week under the cursor in `snapshot`, the
        log as the handler's render saw it, and folds its total into the
        best-week record. */
    method CalculateStats(snapshot: Log)
      requires Valid()
      modifies this
      ensures Valid()
      ensures stats == Step(old(stats), Total(WeekOf(snapshot, CurrentKey())))
      ensures stats.bestWeek >= old(stats.bestWeek) && stats.totalPoints >= old(stats.totalPoints)
      ensures habits == old(habits)
      ensures currentPhase == old(currentPhase) && currentWeek == old(currentWeek)
    {
      var weekPoints := SumStatuses(WeekOf(snapshot, CurrentKey()));
      stats := Step(stats, weekPoints);
    }

    /** toggleHabit: cycles one cell of the week under the cursor, creating
        the week's map if missing, then runs calculateStats.

        The copy of the log made by the update is shallow: when the week
        already exists, the new log and the handler's closure share that
        week's map, and the write lands in it. `updaterRan` says whether the
        state update had already been applied when calculateStats reads the
        closure's log. If it had and the week existed, the stats see the
        week with the click; otherwise they see the week as it was before. */
    method ToggleHabit(habitId: string, dayIndex: int, updaterRan: bool)
      requires Valid()
      modifies this
      ensures Valid()
      ensures habits == Toggle(old(habits), CurrentKey(), CellKey(habitId, dayIndex))
      ensures var before := Status(old(habits), CurrentKey(), CellKey(habitId, dayIndex));
        var seen := Total(WeekOf(old(habits), CurrentKey())) +
          (if updaterRan && CurrentKey() in old(habits) then Cycle(before) - before else 0);
        stats == Step(old(stats), seen)
      ensures currentPhase == old(currentPhase) && currentWeek == old(currentWeek)
    {
      var closure := habits;
      var weekKey := CurrentKey();
      var dayKey := CellKey(habitId, dayIndex);
      var week := if weekKey in habits then habits[weekKey] else map[];
      var currentValue := if dayKey in week then week[dayKey] else 0;
      var newValue := if currentValue == 2 then 0 else currentValue + 1;
      habits := habits[weekKey := week[dayKey := newValue]];
      if updaterRan && weekKey in closure {
        // the closure's week map is the object the update wrote into
        closure := closure[weekKey := habits[weekKey]];
      }
      ToggleTotal(old(habits), weekKey, dayKey);
      CalculateStats(closure);
    }

    /** getWeekProgress for the week under the cursor. */
    method GetWeekProgress() returns (pr: Progress)
      requires Valid()
      ensures pr == WeekProgress(Total(WeekOf(habits, CurrentKey())), currentPhase)
      ensures pr.points >= 0 && pr.percentage >= 0
    {
      var points := SumStatuses(WeekOf(habits, CurrentKey()));
      TotalBounds(WeekOf(habits, CurrentKey()));
      pr := WeekProgress(points, currentPhase);
    }

    /** nextWeek */
    method NextWeek()
      requires Valid()
      modifies this
      ensures Valid()
      ensures Navigation.Cursor(currentPhase, currentWeek) ==
        Navigation.Next(Navigation.Cursor(old(currentPhase), old(currentWeek)))
      ensures habits == old(habits) && stats == old(stats)
    {
      if currentPhase == 3 && currentWeek == 4 {
        return;
      }
      if currentWeek == 4 {
        currentPhase := if currentPhase + 1 < 3 then currentPhase + 1 else 3;
        currentWeek := 1;
      } else {
        currentWeek := currentWeek + 1;
      }
    }

    /** prevWeek */
    method PrevWeek()
      requires Valid()
      modifies this
      ensures Valid()
      ensures Navigation.Cursor(currentPhase, currentWeek) ==
        Navigation.Prev(Navigation.Cursor(old(currentPhase), old(currentWeek)))
      ensures habits == old(habits) && stats == old(stats)
    {
      if currentPhase == 1 && currentWeek == 1 {
        return;
      }
      if currentWeek == 1 {
        currentPhase := if currentPhase - 1 > 1 then currentPhase - 1 else 1;
        currentWeek := 4;
      } else {
        currentWeek := currentWeek - 1;
      }
    }

    /** resetProgress, confirmed: everything back to the initial values. */
    method ResetProgress()
      modifies this
      ensures Valid()
      ensures habits == map[] && stats == Stats(0, 0, 0)
      ensures currentPhase == 1 && currentWeek == 1
    {
      habits := map[];
      stats := Stats(0, 0, 0);
      currentPhase := 1;
      currentWeek := 1;
    }
  }

  /** Two clicks on the first habit's Monday cell of week 1 of phase 1, from
      an empty log: the cell reads 2, the week totals 2 points, 10% of the
      goal of 20. */
  lemma TwoClicksExample()
    ensures var k, c := WeekKey(1, 1), CellKey("physical", 0);
      var log := Toggle(Toggle(map[], k, c), k, c);
      && Status(log, k, c) == 2
      && Total(WeekOf(log, k)) == 2
      && WeekProgress(Total(WeekOf(log, k)), 1) == Progress(2, 10, 20)
  {
  }

  /** Week (1,1) holds physical/day 0 = 1 and the record is (1, 0, 1); then
      physical/day 1 is clicked. If calculateStats reads the closure's log
      before the update runs, it sees 1 point and the stats stay (1, 0, 1);
      if the update already wrote into the shared week map, it sees 2 points
      and the stats become (2, 0, 2). */
  lemma SharedWeekExample()
    ensures var k := WeekKey(1, 1);
      var log: Log := map[k := map[CellKey("physical", 0) := 1]];
      var after := Toggle(log, k, CellKey("physical", 1));
      && Step(Stats(1, 0, 1), Total(WeekOf(log, k))) == Stats(1, 0, 1)
      && Step(Stats(1, 0, 1), Total(WeekOf(after, k))) == Stats(2, 0, 2)
  {
    var k, c := WeekKey(1, 1), CellKey("physical", 0);
    var w: Week := map[c := 1];
    TotalRemove(w, c);
    assert w - {c} == map[];
    ToggleTotal(map[k := w], k, CellKey("physical", 1));
  }
}
