# Habit tracker engine in Dafny

This project models the state engine of the `BatmanHabitTracker` React
component. The component runs a twelve-week training programme: three phases
of four weeks each. Each phase has its own list of habits and a weekly point
goal. For every week the user clicks grid cells (habit × day). Each click
cycles the cell through 0 (not done), 1 (done) and 2 (excellent). The
component keeps a best-week record and shows the week's progress against the
goal.

Modules, one per part of the engine:

- `Phases` (`phases.dfy`): the read-only phase table. It lists the habit ids
  and the weekly goal (20, 30, 15) of phases 1, 2 and 3.
- `Navigation` (`navigation.dfy`): the (phase, week) cursor and the pure
  transitions `Next`/`Prev`. `Index` places a cursor at one of twelve
  positions in a line. It is the reference against which both transitions
  are proved: each moves exactly one step along the line. `IndexInjective`
  shows that an in-bounds cursor is fixed by its position, so those
  contracts determine `Next` and `Prev` completely.
- `HabitLog` (`habit_log.dfy`): the log is a map from `WeekKey(phase, week)`
  to a map from `CellKey(habit, day)` to a status. It also holds the status
  read, the toggle, and the two sums. The week total `Total` is a ghost
  function that removes an arbitrary key. `SumStatuses` is the loop that
  computes it, the way `Object.values(...).reduce` does. `RowTotal` is the
  per-habit sum over days.
- `Scoring` (`scoring.dfy`): the stats record and its update `Step`. `Run`
  folds `Step` over any sequence of observed week totals. This module also
  holds the integer form of the rounded percentage and the progress record.
- `Tracker` (`tracker.dfy`): the class `HabitTracker`. Its fields are
  `currentPhase`, `currentWeek`, `habits` and `stats`. It has one method per
  handler, and `Valid()` is the invariant that every handler keeps.

One consequence of the scoring rule is proved and also kept in `Valid()`.
Starting from the initial or reset stats, `totalPoints` always equals
`bestWeek`, because each update credits exactly the amount by which the
record rose. `streak` stays 0.

`calculateStats` reads `habits` from the render in which the click handler
was created, not the value that `toggleHabit` has just queued. The model
makes this explicit: `CalculateStats` takes that log as a `snapshot`
argument. The update inside `toggleHabit` copies only the outer map. When the
week already exists, the new log and the handler's log share that week's map,
and the click is written into it. So what the stats see depends on whether
React has already applied the update. `ToggleHabit` takes this as a boolean
`updaterRan`. If the update ran and the week existed, the stats see the week
with the click. Otherwise they see the week as it was before the click.
`SharedWeekExample` shows one click for which the two cases give different
stats.

## Model

| member | source | states |
|---|---|---|
| `Phases.Phase` | src/BatmanHabitTracker.jsx:14-52 | each of phases 1..3 has a positive weekly goal and a non-empty list of pairwise distinct habit ids |
| `Navigation.Next` | src/BatmanHabitTracker.jsx:127-136 | keeps an in-bounds cursor in bounds; is a no-op at (3,4); otherwise moves exactly one week forward in the twelve-week order, rolling week 4 into the next phase |
| `Navigation.Prev` | src/BatmanHabitTracker.jsx:138-147 | keeps an in-bounds cursor in bounds; is a no-op at (1,1); otherwise moves exactly one week back, rolling week 1 into week 4 of the previous phase |
| `Navigation.IndexRange` | src/BatmanHabitTracker.jsx:127-147 | in bounds, the cursor's position lies in 0..11, and the two no-op states are exactly positions 0 and 11 |
| `Navigation.PrevAfterNext` | src/BatmanHabitTracker.jsx:127-147 | prevWeek undoes nextWeek for every in-bounds cursor except (3,4) |
| `Navigation.NextAfterPrev` | src/BatmanHabitTracker.jsx:127-147 | nextWeek undoes prevWeek for every in-bounds cursor except (1,1) |
| `Tracker.HabitTracker.CurrentKey` | src/BatmanHabitTracker.jsx:77 | the key of the week under the cursor; under the invariant it names a phase in 1..3 and a week in 1..4 |
| `HabitLog.Cycle` | src/BatmanHabitTracker.jsx:88 | on a status v in {0,1,2}, one click gives (v+1) mod 3 |
| `HabitLog.Status` | src/BatmanHabitTracker.jsx:109-113 | an unset cell or a missing week reads as 0; in a valid log every read is in {0,1,2} |
| `HabitLog.CycleOrbit` | src/BatmanHabitTracker.jsx:87-88 | a click maps 0→1, 1→2, 2→0 (that is, (v+1) mod 3), never leaves {0,1,2}, and three clicks are the identity |
| `HabitLog.Toggle` | src/BatmanHabitTracker.jsx:84-89 | creates the week if it is missing and writes the cycled status into that one cell; every other cell of that week and every other week keep their status; validity of the log is preserved |
| `HabitLog.ToggleThrice` | src/BatmanHabitTracker.jsx:87-89 | three toggles of one cell leave every status in the log unchanged |
| `HabitLog.TotalRemove` | src/BatmanHabitTracker.jsx:100 | the week total does not depend on the order in which cells are summed |
| `HabitLog.TotalBounds` | src/BatmanHabitTracker.jsx:117-118 | a valid week totals between 0 and twice its number of stored cells |
| `HabitLog.ToggleTotal` | src/BatmanHabitTracker.jsx:87-89 | a toggle changes the week total by exactly the change of the toggled cell's status |
| `HabitLog.SumStatuses` | src/BatmanHabitTracker.jsx:99-100 | the reduction over the stored statuses returns the week total, with an absent week counting as 0 at the call sites |
| `HabitLog.RowTotal` | src/BatmanHabitTracker.jsx:278-280 | a habit's row total over n days of a valid log lies in [0, 2n] |
| `HabitLog.ToggleRowTotal` | src/BatmanHabitTracker.jsx:278-280 | a toggle changes only the toggled habit's row total, and by exactly the change of the toggled cell, when its day is within the row |
| `Scoring.Step` | src/BatmanHabitTracker.jsx:102-106 | bestWeek becomes the maximum of the old record and the observed total; totalPoints rises by exactly what bestWeek rose; neither decreases; streak is unchanged |
| `Scoring.RunSpec` | src/BatmanHabitTracker.jsx:102-106 | after any sequence of updates, bestWeek is the maximum of the start record and every observed total; totalPoints grew by exactly as much as bestWeek; streak is unchanged |
| `Scoring.TotalEqualsBest` | src/BatmanHabitTracker.jsx:8-12 | starting from the initial stats, totalPoints equals bestWeek (and is non-negative) after any sequence of updates, and streak stays 0 |
| `Scoring.RoundedPercent` | src/BatmanHabitTracker.jsx:122 | the result is the nearest integer to points·100/goal, with a half rounding up |
| `Scoring.NoTies` | src/BatmanHabitTracker.jsx:122 | for goals 20, 30 and 15, points·100/goal is always at least 1/6 away from every point halfway between two integers |
| `Scoring.GoalReached` | src/BatmanHabitTracker.jsx:122 | for a goal under 200, the percentage is at least 100 exactly when points ≥ goal |
| `Scoring.WeekProgress` | src/BatmanHabitTracker.jsx:115-125 | the progress carries the points, the goal of the cursor's phase, and their rounded percentage, which is non-negative for non-negative points and may exceed 100 |
| `Tracker.HabitTracker.constructor` | src/BatmanHabitTracker.jsx:5-12 | the initial state: cursor (1,1), empty log, zero stats; the invariant holds |
| `Tracker.HabitTracker.GetHabitStatus` | src/BatmanHabitTracker.jsx:109-113 | the status of a cell of the week under the cursor, always in {0,1,2} |
| `Tracker.HabitTracker.HabitWeekTotal` | src/BatmanHabitTracker.jsx:278-280 | a habit's row total (the SCORE column) over the seven days of the week under the cursor lies in [0,14] |
| `Tracker.HabitTracker.CalculateStats` | src/BatmanHabitTracker.jsx:97-107 | applies the best-week update to the current week's total in the given snapshot; the log and cursor are unchanged; the invariant holds |
| `Tracker.HabitTracker.ToggleHabit` | src/BatmanHabitTracker.jsx:79-95 | the new log is the old one with the one cell toggled; the stats are updated from the week total `calculateStats` sees, which is the pre-click total plus the cell's change exactly when the update already ran on an existing, shared week map; the cursor is unchanged; the invariant holds |
| `Tracker.SharedWeekExample` | src/BatmanHabitTracker.jsx:84-105 | with week (1,1) = {physical-0: 1} and stats (1,0,1), clicking physical/1 leaves the stats at (1,0,1) if the pre-click week is read, and raises them to (2,0,2) if the shared week map already holds the click |
| `Tracker.HabitTracker.GetWeekProgress` | src/BatmanHabitTracker.jsx:115-125 | the progress of the week under the cursor, computed by summing its stored statuses; points and percentage are non-negative |
| `Tracker.HabitTracker.NextWeek` | src/BatmanHabitTracker.jsx:127-136 | the cursor moves as `Next` says; the log and stats are unchanged; the invariant holds |
| `Tracker.HabitTracker.PrevWeek` | src/BatmanHabitTracker.jsx:138-147 | the cursor moves as `Prev` says; the log and stats are unchanged; the invariant holds |
| `Tracker.HabitTracker.ResetProgress` | src/BatmanHabitTracker.jsx:149-156 | whatever the prior state: the log is empty, the stats are {0,0,0}, the cursor is (1,1), and the invariant holds |
| `Tracker.TwoClicksExample` | src/BatmanHabitTracker.jsx:79-125 | from an empty log, two clicks on physical/day 0 of week (1,1) give status 2, a week total of 2, and 10% of the goal of 20 |

## Left out

- Rendering, styling, icons and colour thresholds (src/BatmanHabitTracker.jsx:161-419). They are presentation only.
- Loading and saving through localStorage with JSON (lines 56-75). This is browser I/O. The model starts from the initial state, so a snapshot restored from storage, which need not satisfy `Valid()`, is not modelled.
- The `confirm()` dialog of `resetProgress`. Only the confirmed branch is modelled; the declined branch does nothing.
- React's scheduling of state setters. Whether the update of `toggleHabit` has run before `calculateStats` reads the log is a parameter (`updaterRan`), not derived from React's rules. Each handler is otherwise one atomic update of the object. The render closure that `calculateStats` reads is the `snapshot` parameter.
- The string form of the week and cell keys (`phase<p>-week<w>`, `<habitId>-<dayIndex>`). They are structured datatype keys here. Two different cells can share one string only when one of them has a negative day index and the other's habit id is the first one's id followed by '-', such as ("x", -1) and ("x-", 1), both "x--1". So the string is injective on any set of keys whose day indices are all non-negative, or whose habit ids contain no '-'; the grid passes only such keys (line 300). For a colliding pair the source treats the two cells as one, while the model keeps them apart.
- The phase fields `name`, `weeks`, `maxPoints`, `advanced`, the habit names, descriptions and icons, and the day labels. None of them takes part in any computation; only the number of days (7) is kept.
- The insertion order of `Object.values`. The model's sum removes cells in an arbitrary order, and `TotalRemove` shows that the order does not matter.
- The floating-point division in the percentage. It is replaced by the integer formula `(200·points + goal) / (2·goal)`, which equals `Math.round(points/goal·100)` exactly. `NoTies` shows that for the three goals, points·100/goal always lies at least 1/6 away from a halfway point. The floating-point error of the division is far smaller than that, so it cannot change the rounding.
- `toggleHabit` does not check its habit id or day index, and the model does not either. Any key is accepted, as in the source.
