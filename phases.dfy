/** The static phase table of the tracker: three phases, each with an ordered
    list of habit ids and a weekly point goal. Read-only configuration. */
module Phases {

  /** The two fields of a phase entry that take part in any computation. */
  datatype PhaseConfig = PhaseConfig(habits: seq<string>, weeklyGoal: int)

  /** Number of day columns in the grid (Lun .. Dom). */
  const DaysPerWeek: int := 7

  /** Phases are numbered 1, 2, 3. */
  predicate IsPhase(p: int) { 1 <= p <= 3 }

  /** Ids of a habit list are pairwise distinct (they key the grid rows). */
  predicate DistinctIds(ids: seq<string>)
  {
    forall i, j :: 0 <= i < j < |ids| ==> ids[i] != ids[j]
  }

  /** The phase table, looked up by phase number. */
  function Phase(p: int): (c: PhaseConfig)
    requires IsPhase(p)
    ensures c.weeklyGoal > 0
    ensures |c.habits| > 0 && DistinctIds(c.habits)
  {
    if p == 1 then
      PhaseConfig(["physical", "mental", "discipline", "observation"], 20)
    else if p == 2 then
      PhaseConfig(["physical", "mental", "strategic", "social", "observation"], 30)
    else
      PhaseConfig(["morning", "afternoon", "evening"], 15)
  }
}
