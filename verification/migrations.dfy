/** The records of dbump.go: Migration, Step, the migrator modes and Migration.toStep. */
module Migrations {

  /** `MigrationDelimiter`: separates the apply and revert halves of a migration file. */
  const MigrationDelimiter: string := "--- apply above / revert below ---"

  /** One migration: `ID` is expected to be 1..n, `Name` is used in error messages. */
  datatype Migration = Migration(id: int, name: string, apply: string, revert: string)

  /** What the migrator is asked to do: run `query`, then record `version`. */
  datatype Step = Step(version: int, query: string, disableTx: bool)

  /** `MigratorMode` is a Go `int`, so any integer can reach `Run`. */
  type Mode = int

  const ModeNotSet: Mode := 0
  const ModeApplyAll: Mode := 1
  const ModeApplyN: Mode := 2
  const ModeRevertN: Mode := 3
  const ModeRevertAll: Mode := 4
  const ModeRedo: Mode := 5
  const ModeDrop: Mode := 6
  const ModeMaxPossible: Mode := 7

  /** Migration.toStep: the apply step lands on `id`, the revert step on `id - 1`. */
  function ToStep(m: Migration, up: bool, disableTx: bool): Step
  {
    if up then Step(m.id, m.apply, disableTx)
    else Step(m.id - 1, m.revert, disableTx)
  }

  /** The ids are exactly 1..|ms| in order: what a successful load returns. */
  ghost predicate Sequential(ms: seq<Migration>)
  {
    forall i :: 0 <= i < |ms| ==> ms[i].id == i + 1
  }
}
