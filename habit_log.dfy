/** The habit log: week key -> (cell key -> status), with the tri-state
    toggle, the status read and the two point reductions. */
module HabitLog {

  /** A week of a phase; stands for the string `phase<p>-week<w>`. */
  datatype WeekKey = WeekKey(phase: int, week: int)

  /** One grid cell; stands for the string `<habitId>-<dayIndex>`. */
  datatype CellKey = CellKey(habit: string, day: int)

  type Week = map<CellKey, int>
  type Log = map<WeekKey, Week>

  /** Every stored status of a week is 0 (none), 1 (done) or 2 (excellent). */
  predicate ValidWeek(w: Week)
  {
    forall c :: c in w ==> 0 <= w[c] <= 2
  }

  predicate ValidLog(log: Log)
  {
    forall k :: k in log ==> ValidWeek(log[k])
  }

  /** The cells recorded for week k, an absent week reading as empty. */
  function WeekOf(log: Log, k: WeekKey): Week
  {
    if k in log then log[k] else map[]
  }

  /** getHabitStatus: the stored status, an unset cell reading as 0. */
  function Status(log: Log, k: WeekKey, c: CellKey): (s: int)
    ensures ValidLog(log) ==> 0 <= s <= 2
    ensures c !in WeekOf(log, k) ==> s == 0
  {
    var w := WeekOf(log, k);
    if c in w then w[c] else 0
  }

  /** One click on a cell: 2 wraps to 0, anything else goes up by one. */
  function Cycle(v: int): (r: int)
    ensures 0 <= v <= 2 ==> r == (v + 1) % 3
  {
    if v == 2 then 0 else v + 1
  }

  /** On statuses, a click moves 0 to 1, 1 to 2 and 2 to 0, and three clicks
      are the identity. */
  lemma CycleOrbit(v: int)
    requires 0 <= v <= 2
    ensures 0 <= Cycle(v) <= 2 && Cycle(v) != v
    ensures Cycle(v) == (v + 1) % 3
    ensures Cycle(Cycle(Cycle(v))) == v
  {
  }

  /** toggleHabit's update of the log: create week k empty if missing, then
      write the cycled status into cell c. */
  function Toggle(log: Log, k: WeekKey, c: CellKey): (r: Log)
    ensures r.Keys == log.Keys + {k}
    ensures WeekOf(r, k).Keys == WeekOf(log, k).Keys + {c}
    ensures Status(r, k, c) == Cycle(Status(log, k, c))
    ensures forall k' :: k' in log && k' != k ==> r[k'] == log[k']
    ensures forall c' :: c' in WeekOf(log, k) && c' != c ==> r[k][c'] == log[k][c']
    ensures forall k', c' :: (k', c') != (k, c) ==> Status(r, k', c') == Status(log, k', c')
    ensures ValidLog(log) ==> ValidLog(r)
  {
    var w := WeekOf(log, k);
    log[k := w[c := Cycle(if c in w then w[c] else 0)]]
  }

  /** Three toggles of one cell leave every status as it was. */
  lemma ToggleThrice(log: Log, k: WeekKey, c: CellKey)
    requires 0 <= Status(log, k, c) <= 2
    ensures forall k', c' ::
      Status(Toggle(Toggle(Toggle(log, k, c), k, c), k, c), k', c') == Status(log, k', c')
  {
  }

  /** Sum of all stored statuses of a week (Object.values(...).reduce). */
  ghost function Total(w: Week): int
    decreases |w|
  {
    if w == map[] then 0
    else
      var c :| c in w;
      w[c] + Total(w - {c})
  }

  /** The sum does not depend on which cell is taken out first. */
  lemma {:induction false} TotalRemove(w: Week, c: CellKey)
    requires c in w
    ensures Total(w) == w[c] + Total(w - {c})
    decreases |w|
  {
    var d :| d in w && Total(w) == w[d] + Total(w - {d});
    if d != c {
      TotalRemove(w - {d}, c);
      TotalRemove(w - {c}, d);
      assert w - {d} - {c} == w - {c} - {d};
    }
  }

  /** A week of statuses sums to between 0 and twice its number of cells. */
  lemma {:induction false} TotalBounds(w: Week)
    requires ValidWeek(w)
    ensures 0 <= Total(w) <= 2 * |w|
    decreases |w|
  {
    if w != map[] {
      var c :| c in w;
      TotalRemove(w, c);
      TotalBounds(w - {c});
    }
  }

  /** Toggling cell c of week k changes that week's sum by exactly the
      change of c's status (other weeks are untouched, by Toggle's contract). */
  lemma ToggleTotal(log: Log, k: WeekKey, c: CellKey)
    ensures Total(WeekOf(Toggle(log, k, c), k)) ==
      Total(WeekOf(log, k)) + Cycle(Status(log, k, c)) - Status(log, k, c)
  {
    var w, w' := WeekOf(log, k), WeekOf(Toggle(log, k, c), k);
    assert w' - {c} == w - {c};
    TotalRemove(w', c);
    if c in w {
      TotalRemove(w, c);
    } else {
      assert w - {c} == w;
    }
  }

  /** The week sum as the source computes it: visit the stored cells one at a
      time and accumulate. */
  method SumStatuses(w: Week) returns (total: int)
    ensures total == Total(w)
  {
    total := 0;
    var rest := w;
    while rest != map[]
      invariant total + Total(rest) == Total(w)
      decreases |rest|
    {
      var c :| c in rest;
      TotalRemove(rest, c);
      total := total + rest[c];
      rest := rest - {c};
    }
  }

  /** Row total of one habit over days 0 .. n-1 of week k (the SCORE column). */
  function RowTotal(log: Log, k: WeekKey, habit: string, n: nat): (r: int)
    ensures ValidLog(log) ==> 0 <= r <= 2 * n
  {
    if n == 0 then 0
    else RowTotal(log, k, habit, n - 1) + Status(log, k, CellKey(habit, n - 1))
  }

  /** Toggling a cell moves only its own row's total, and by exactly the
      change of that cell's status. */
  lemma {:induction false} ToggleRowTotal(log: Log, k: WeekKey, c: CellKey, habit: string, n: nat)
    ensures RowTotal(Toggle(log, k, c), k, habit, n) ==
      RowTotal(log, k, habit, n) +
      (if c.habit == habit && 0 <= c.day < n then Cycle(Status(log, k, c)) - Status(log, k, c) else 0)
  {
    if n > 0 {
      ToggleRowTotal(log, k, c, habit, n - 1);
    }
  }
}
