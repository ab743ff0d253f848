/** The (phase, week) cursor and its two transitions. */
module Navigation {

  datatype Cursor = Cursor(phase: int, week: int)

  const First: Cursor := Cursor(1, 1)
  const Last: Cursor := Cursor(3, 4)

  /** phase in 1..3 and week in 1..4 */
  predicate InBounds(c: Cursor)
  {
    1 <= c.phase <= 3 && 1 <= c.week <= 4
  }

  /** Position of an in-bounds cursor in the twelve-week programme, 0 .. 11. */
  function Index(c: Cursor): int
  {
    4 * (c.phase - 1) + (c.week - 1)
  }

  /** nextWeek: a no-op at the last week, rolls week 4 over into the next
      phase (capped at phase 3), otherwise advances the week. */
  function Next(c: Cursor): (r: Cursor)
    ensures InBounds(c) ==> InBounds(r)
    ensures c == Last ==> r == c
    ensures InBounds(c) && c != Last ==> Index(r) == Index(c) + 1
  {
    if c.phase == 3 && c.week == 4 then c
    else if c.week == 4 then Cursor(if c.phase + 1 < 3 then c.phase + 1 else 3, 1)
    else Cursor(c.phase, c.week + 1)
  }

  /** prevWeek: a no-op at the first week, rolls week 1 back into week 4 of
      the previous phase (floored at phase 1), otherwise steps the week back. */
  function Prev(c: Cursor): (r: Cursor)
    ensures InBounds(c) ==> InBounds(r)
    ensures c == First ==> r == c
    ensures InBounds(c) && c != First ==> Index(r) == Index(c) - 1
  {
    if c.phase == 1 && c.week == 1 then c
    else if c.week == 1 then Cursor(if c.phase - 1 > 1 then c.phase - 1 else 1, 4)
    else Cursor(c.phase, c.week - 1)
  }

  /** In bounds, a cursor is determined by its index. */
  lemma IndexInjective(a: Cursor, b: Cursor)
    requires InBounds(a) && InBounds(b) && Index(a) == Index(b)
    ensures a == b
  {
  }

  /** In bounds, the index ranges over 0 .. 11 with First at 0 and Last at 11. */
  lemma IndexRange(c: Cursor)
    requires InBounds(c)
    ensures 0 <= Index(c) <= 11
    ensures Index(c) == 0 <==> c == First
    ensures Index(c) == 11 <==> c == Last
  {
  }

  /** Going back undoes going forward everywhere except at the last week. */
  lemma PrevAfterNext(c: Cursor)
    requires InBounds(c) && c != Last
    ensures Prev(Next(c)) == c
  {
  }

  /** Going forward undoes going back everywhere except at the first week. */
  lemma NextAfterPrev(c: Cursor)
    requires InBounds(c) && c != First
    ensures Next(Prev(c)) == c
  {
  }
}
