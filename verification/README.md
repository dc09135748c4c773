# dbump, modelled in Dafny

dbump is a Go library that runs database schema migrations. A `Loader` supplies
numbered migrations, each with an apply query and a revert query. `Run` checks
the `Config` and loads and validates the migrations. It then takes a database
lock and asks a `Migrator` for the current version. It plans the steps that
lead to the target version of the chosen mode and runs them one by one between
two optional callbacks. In `ModeDrop` it drops the dbump tables at the end, and
a deferred call releases the lock.

This project models that engine and proves properties of it:

- `migrations.dfy`: the records `Migration` and `Step`, the modes, and
  `Migration.toStep`.
- `validator.dfy`: `mig.load`. The in-place stable sort is an insertion sort
  over an `array`, proved equal to a sort function, `SortById`. The check loop
  over positions is proved against `CheckFrom`. The sort is proved stable and a
  permutation, and the load is characterised exactly.
- `planner.dfy`: `getCurrAndTargetVersions`, after its `Version()` read, as
  `Target`. `prepareSteps` as a loop proved against `Plan`, with the shape of
  every plan proved.
- `loaders.dfy`:
  - `parseMigration`.
  - The `^(\d+)_.+\.sql$` filter, as a hand-written predicate proved equal to
    the regular language.
  - The id parse, and the `loadMigrationsFromFS` loop over a directory listing
    given as input.
  - The path trimming of `NewDiskLoader`/`NewFileSysLoader`.
  - `SliceLoader`, as a class whose `migrations` field `AddMigration` extends.
- `mocks.dfy`: `MockMigrator` of tests/mocks.go, a class with an append-only
  `log` field and six optional hooks. Each method writes its tag before it
  answers.
- `driver.dfy`:
  - `Run`, `runMigrations`, `lockDB`, `unlockDB`, `runMigrationsLocked` and
    the step loop. Each is written as a method that drives a `MockMigrator`,
    and each is proved equal to a specification function (`RunSpec`,
    `LockPhase`, `StepLoop`, ...).
  - Every specification function threads an `St`: the mock's log, plus the
    list of calls made so far.
- `run_properties.dfy`: what those functions promise about whole runs. This
  covers:
  - the order of the config checks and of the lock protocol;
  - the error-precedence rule of the deferred unlock;
  - the step and callback order;
  - the behaviour of Drop;
  - the log a run leaves in the mock.
- `scenarios.dfy`: the expected logs of the source's own tests, proved for any
  five sequential migrations, the five test migrations of dbump_test.go among
  them. Every run test of dbump_test.go has its lemma, and each suite test of
  tests/tests.go is covered by the lemma of the dbump_test.go test it matches.
  The load tests `Test_loadMigrations` and `TestSliceLoader` have theirs too.
  dbump_test.go still uses the old mode names: `ModeUp` is `ModeApplyAll`,
  `ModeDown` is `ModeRevertAll`, and `ModeUpOne`/`ModeDownOne` are
  `ModeApplyN`/`ModeRevertN` with `Num` 1. Its `AsLocklessMigrator` is
  `NoDatabaseLock`. The `MockMigrator` of mock_test.go is an older mock
  without `DoStep` or `Drop`; it shares only the "lockdb", "unlockdb",
  "init" and "getversion" tags. The scenarios use the logging of
  tests/mocks.go, whose "dostep" and "drop" lines dbump_test.go's expected
  logs contain.
- `text.dfy`: the parts of Go's `strings`, `strconv` and `fmt` the core uses:
  `TrimSpace`, `SplitN(…, 2)` and `%d`.

Notes on the model:

- A Go panic is a result value, `Panicked`. A panic happens:
  - when the mode switch hits its `default`, that is, for a negative mode;
  - when `prepareSteps` indexes outside the migrations.

  Because Go runs deferred calls during a panic, the deferred unlock still
  happens after it.
- In `ModeDrop` the result of `Drop` replaces any stepping error
  (dbump.go:209-211). The model keeps this, and `RunProperties.DropDecides`
  states it.
- `Config.Mode` is a Go `int`, so a negative mode passes every check of `Run`
  and reaches the `panic("unreachable")` of the mode switch.
- `MockMigrator`'s hooks are Go closures that may keep state of their own. In
  the model a hook is a function of the log written so far. That is the state
  the tests' closures look at: in TestUseForce, for example, the lock is held
  until an "unlockdb" has been logged.
- The step callbacks are functions from a step to the lines they append to the
  mock's log. That is the only effect the tests give them.

## Model

| member | source | states |
|---|---|---|
| Driver.ConfigError | dbump.go:126-138 | each config error holds exactly when its condition holds and no earlier check fails, in source order; with no error, migrator and loader are set and the mode is known or negative |
| Driver.Run | dbump.go:126-166 | a nil migrator fails with MigratorNil; otherwise result and final log equal RunSpec; hooks are unchanged; a SliceLoader is left holding its migrations stably sorted exactly when the config check passed |
| RunProperties.RunStopsEarly | dbump.go:161-166 | a config error or a failed load is returned (the config error first) with no migrator call and the log untouched |
| Driver.LoadSorted | dbump.go:169-190 | the result is Validate of what the loader returns; a SliceLoader's slice is sorted in place |
| Validator.SortStable | dbump.go:175-177 | the array afterwards is SortById of the array before |
| Validator.InsertAt | dbump.go:175-177 | one insertion round leaves the prefix equal to InsertById of the old prefix and the rest unchanged |
| Validator.SortByIdCorrect | dbump.go:175-177 | SortById keeps the length, is ordered by id, is a permutation, and keeps input order among equal ids (stability) |
| Validator.SortByIdSorted | dbump.go:175-177 | an already sorted sequence is left unchanged |
| Validator.CheckPositions | dbump.go:179-189 | the loop returns CheckFrom(a[..], 0) |
| Validator.CheckFromFirstMismatch | dbump.go:179-189 | the check passes exactly when the ids are 1..n, then returning the input; otherwise it reports the first mismatch, as duplicate (lower id) or missing (higher id) |
| Validator.ValidateAccepts | dbump.go:169-190 | a load is accepted exactly when the ids form the multiset {1..n}, and then returns the stably sorted sequence, which is 1..n in order |
| Validator.ValidateIdempotent | dbump.go:169-190 | a sequential set loads unchanged; validating a validated result gives it back |
| Validator.SortedDuplicate | dbump.go:181-182 | on sorted input a reported duplicate id is not positive or occurs at least twice |
| Validator.SortedMissing | dbump.go:183-184 | on sorted input a reported missing number is in 1..n and is no loaded id |
| Validator.DuplicateMeansRepeated | dbump.go:181-182 | a duplicate reported by the load is not positive or occurs at least twice among the loaded ids |
| Validator.MissingMeansAbsent | dbump.go:183-184 | a missing number reported by the load is in 1..n and is the id of no loaded migration |
| Validator.SortedPermutation | dbump.go:175-177 | sorting keeps length and id multiset and yields an ordered sequence |
| Validator.SortedOneTo | dbump.go:179-189 | a sorted sequence whose ids are the multiset {1..n} is 1, 2, ..., n |
| Driver.RunMigrations | dbump.go:192-213 | the method's result and log are those of RunMigrationsSpec |
| RunProperties.SessionUnlock | dbump.go:197-201 | with the lock in use, UnlockDB is the one extra last call; an earlier error or panic wins; after a clean run the unlock's error is returned, wrapped |
| RunProperties.DropDecides | dbump.go:209-211 | in ModeDrop after a successful Init, Drop is the last call before the unlock and its outcome alone decides the result, replacing a version, bounds or step error |
| RunProperties.BeforeUnlockCalls | dbump.go:203-212 | between lock and unlock, Init comes first, there is no lock call, and Drop can only be last and only in ModeDrop without a panic; an Init error ends the phase at once |
| RunProperties.RunUnlocksLast | dbump.go:192-213 | once the lock is won, Init comes next, UnlockDB is the very last call and there is no other lock call in between |
| Driver.LockDB | dbump.go:215-232 | the method's error and log are those of LockPhase |
| Driver.UnlockDB | dbump.go:234-239 | the method's error and log are those of UnlockPhase |
| RunProperties.RunLockRefused | dbump.go:220-231 | a refused lock without UseForce fails with the trace [lockdb]; with UseForce a failing unlock or relock fails with [lockdb, unlockdb] or [lockdb, unlockdb, lockdb] |
| RunProperties.RunLockHeld | dbump.go:220-231 | a won lock is followed by Init: after [lockdb], or after [lockdb, unlockdb, lockdb] when forced |
| RunProperties.RunWithoutLock | dbump.go:215-239 | with NoDatabaseLock no LockDB or UnlockDB call is ever made |
| RunProperties.ForcedRun | dbump.go:220-231 | a forced lock followed by a clean run is Done with trace [lockdb, unlockdb] + the clean trace |
| Driver.RunMigrationsLocked | dbump.go:241-257 | the method's result and log are those of LockedPhase |
| Driver.RunStep | dbump.go:247-255 | one round: before-callback, DoStep, and the after-callback only if DoStep succeeded (StepRound) |
| Driver.RunSteps | dbump.go:247-256 | the loop's result and log are those of StepLoop |
| RunProperties.StepLoopPassTrace | dbump.go:247-256 | a successful loop makes before, DoStep, after for every step in plan order |
| RunProperties.StepLoopFailTrace | dbump.go:250-252 | a failing loop stops at the first failing DoStep: the earlier steps complete, then that step's before and DoStep, with no after-callback and no later step |
| RunProperties.StepsDonePass | dbump.go:247-256 | the loop passes exactly when every step's DoStep succeeds |
| RunProperties.LockedPhaseCalls | dbump.go:241-245 | Version is called once, first; only step calls follow, and none unless the phase ends Done or in a DoStep error; a Version error is returned before any step |
| RunProperties.LockedPhaseSteps | dbump.go:241-257 | with a defined plan, the phase is Done exactly when every step succeeds, with the full step trace; otherwise the first failing step's error is returned with the trace cut there |
| Planner.Target | dbump.go:268-312 | per mode the target and the exact condition for a bounds error: ApplyAll n, ApplyN curr+Num, RevertN curr-Num, RevertAll 0, Redo curr, Drop 0 without a check |
| Planner.PanicCases | dbump.go:314-339 | after the bounds check passes, prepareSteps indexes out of range exactly for RevertN past 0, Redo at 0, and Drop above n |
| Planner.PrepareSteps | dbump.go:314-347 | the loop returns Plan |
| Planner.PlanUp | dbump.go:333-345 | going up: one step per id curr+1..target, in order, with that version and its apply query |
| Planner.PlanDown | dbump.go:333-345 | going down: one step per id curr..target+1, with version id-1 and its revert query |
| Planner.PlanZigZag | dbump.go:340-344 | ZigZag triples the plan: each step is followed by the opposite step of the same migration and then itself |
| Planner.PlanRedo | dbump.go:315-320 | Redo is exactly [revert of ms[curr-1], apply of ms[curr-1]] |
| Planner.PlanEndsAtTarget | dbump.go:322-347 | the plan is empty exactly when curr = target, and otherwise its last step records target |
| Planner.PlanDisableTx | dbump.go:339-343 | every step carries the run's DisableTx |
| Planner.WalkShape | dbump.go:333-345 | the walk has one unit per version between curr and target (three steps under ZigZag), unit k using migration curr+k up or curr-k-1 down |
| Planner.ApplyRevertMirror | dbump.go:349-362 | ApplyAll from 0 and RevertAll from n mirror each other: the k-th revert undoes the apply step n-1-k and records the version before it |
| Loaders.ParseMigrationSpec | load.go:125-139 | without the delimiter apply is the trimmed body and revert is empty; otherwise the body is cut at the first occurrence only, both halves trimmed |
| Loaders.ParseMigrationFile | load.go:125-139 | parsing a file written as apply, delimiter line, revert gives both queries back |
| Loaders.IsMigrationNameIsRegex | load.go:79 | the filter holds exactly for the names in the language of `^(\d+)_.+\.sql$` |
| Loaders.ParseId | load.go:109-112 | the id parse succeeds exactly when the digit run's value fits in a signed 32-bit integer, and then returns that value |
| Loaders.LoadEntrySpec | load.go:108-123 | an entry loads exactly when its id fits and its body reads, and carries that id, its file name and the parsed queries |
| Loaders.LoadMigrationsFromFS | load.go:81-106 | a ReadDir error is returned as it is; otherwise the loop returns LoadEntries of the listing |
| Loaders.KeptEntriesMembers | load.go:87-96 | the kept entries are exactly the listed non-directory entries whose name matches |
| Loaders.LoadEntriesOk | load.go:81-106 | the listing loads exactly when every kept entry loads |
| Loaders.LoadEntriesValues | load.go:87-105 | a loaded listing has one migration per kept entry, in listing order |
| Loaders.LoadEntriesFirstError | load.go:98-101 | a failed listing fails with the error of the first kept entry that does not load, with no partial result |
| Loaders.TrimPathSpec | load.go:24-28 | only trailing separators are removed, all of them, and trimming is idempotent |
| Loaders.SliceLoader.constructor | load.go:60-64 | the loader holds the given migrations |
| Loaders.SliceLoader.Load | load.go:67-69 | Load returns exactly the stored sequence and never fails |
| Loaders.SliceLoader.AddMigration | load.go:72-77 | the migration is appended at the end and nothing else changes |
| Loaders.Load | load.go:30-52 | Load returns what the loader of each kind gives (Loaded) |
| Mocks.MockMigrator.constructor | tests/mocks.go:25-37 | the log starts empty; with nil all hooks are nil, otherwise each delegates to the wrapped migrator's method |
| Mocks.MockMigrator.Log | tests/mocks.go:39 | returns the accumulated log |
| Mocks.MockMigrator.LogAdd | tests/mocks.go:40 | appends the lines, in order |
| Mocks.MockMigrator.LockDB | tests/mocks.go:42-48 | logs "lockdb" first, then answers by the hook (nil: success) |
| Mocks.MockMigrator.UnlockDB | tests/mocks.go:50-56 | logs "unlockdb" first, then answers by the hook (nil: success) |
| Mocks.MockMigrator.Init | tests/mocks.go:58-64 | logs "init" first, then answers by the hook (nil: success) |
| Mocks.MockMigrator.Drop | tests/mocks.go:66-72 | logs "drop" first, then answers by the hook (nil: success) |
| Mocks.MockMigrator.Version | tests/mocks.go:74-80 | logs "getversion" first, then answers by the hook (nil: version 0) |
| Mocks.MockMigrator.DoStep | tests/mocks.go:82-88 | logs "dostep" and the formatted step, then answers by the hook (nil: success) |
| Mocks.FormatStepInjective | tests/mocks.go:10 | two steps that log the same line are the same step |
| Text.TrimSpaceSpec | load.go:128 | TrimSpace gives the slice of its input left after cutting spaces from both ends |
| Text.TrimSpaceIdempotent | load.go:128 | trimming twice is trimming once |
| Text.SplitFirstJoin | load.go:127 | SplitN with n = 2 cuts at the first occurrence, and joining the parts with the separator gives the input back |
| Text.DecimalRoundTrip | tests/mocks.go:10 | the decimal parse of `%d` of a natural number gives that number back |
| Text.IntToDecimalInjective | tests/mocks.go:10 | `%d` prints different integers differently |
| RunProperties.RunRenders | tests/mocks.go:39-88 | the log after a run is the log before it, followed by exactly the lines of the calls made, in order |
| RunProperties.ReliableRun | dbump.go:192-257 | when no call fails and the plan is defined, the run is Done with the trace lock, init, version, each step between its callbacks, drop in ModeDrop, unlock |
| RunProperties.ReliableRunLog | tests/tests.go:30-47 | with no callbacks the log of such a run is "lockdb", "init", "getversion", two lines per step, "drop" in ModeDrop, "unlockdb" |
| RunProperties.ForcedRunLog | dbump_test.go:319-355 | a forced lock in an otherwise clean run logs "lockdb", "unlockdb", then the log of a clean run |
| RunProperties.NoHooksReliable | tests/mocks.go:25-37 | a mock made without a migrator never fails and reports version 0 |
| Scenarios.TestDataSequential | dbump_test.go:560-592 | the five test migrations are 1..5 in order |
| Scenarios.CleanRunLog | tests/tests.go:30-47 | a clean locked run over sequential migrations is Done with the log the tests expect around the plan's lines |
| Scenarios.MigrateUp | dbump_test.go:49-70 | TestMigrateUp (with DisableTx) and ApplyAll of tests/tests.go (without): from version 0, lock, init, version, steps 1..5 with their apply queries, unlock |
| Scenarios.FailOnLockDB | dbump_test.go:412-427 | TestFailOnLockDB: a refused lock fails with the log [lockdb] |
| Scenarios.FailOnInitError | dbump_test.go:395-410 | TestFailOnInitError: the Init error is returned and the log is [lockdb, init, unlockdb] |
| Scenarios.FailOnGetVersionError | dbump_test.go:454-471 | TestFailOnGetVersionError: the Version error is returned and the log is [lockdb, init, getversion, unlockdb] |
| Scenarios.UseForce | dbump_test.go:319-355 | TestUseForce's exact log: lock, unlock, lock, init, version, steps 4 and 5, unlock |
| Scenarios.DropAll | tests/tests.go:159-177 | Drop from version 5: every migration reverted, newest first, then drop, then unlock |
| Scenarios.MigrateDown | dbump_test.go:115-140 | TestMigrateDown (and RevertAll of tests/tests.go without DisableTx): from version 5 the reverts of migrations 5..1, each recording the version before it, between the lock lines |
| Scenarios.MigrateUpWhenFull | dbump_test.go:72-90 | TestMigrateUpWhenFull (and ApplyAllWhenFull of tests/tests.go): at version 5 the log is [lockdb, init, getversion, unlockdb] |
| Scenarios.MigrateDownWhenEmpty | dbump_test.go:142-160 | TestMigrateDownWhenEmpty (and RevertAllWhenEmpty of tests/tests.go): at version 0 the log is [lockdb, init, getversion, unlockdb] |
| Scenarios.MigrateUpOne | dbump_test.go:92-113 | TestMigrateUpOne (and ApplyOne of tests/tests.go): from version 3 only migration 4 is applied |
| Scenarios.MigrateDownOne | dbump_test.go:162-183 | TestMigrateDownOne (and RevertOne of tests/tests.go): from version 3 only migration 3 is reverted, recording version 2 |
| Scenarios.MigrateRedo | dbump_test.go:185-207 | TestMigrateRedo (and Redo of tests/tests.go): from version 3 migration 3 is reverted, then applied again |
| Scenarios.MigrateDrop | dbump_test.go:209-233 | TestMigrateDrop: from version 3 migrations 3, 2, 1 are reverted, then drop, then unlock |
| Scenarios.Lockless | dbump_test.go:297-317 | TestLockless: with NoDatabaseLock the log is init, getversion and the five apply steps, with no lockdb or unlockdb |
| Scenarios.ZigZag | dbump_test.go:357-393 | TestZigZag: from version 0 every migration is applied, reverted and applied again before the next one |
| Scenarios.BeforeAfterStep | dbump_test.go:235-267 | TestBeforeAfterStep: from version 3 migrations 4 and 5 are applied, each between its before- and after-callback lines |
| Scenarios.FailOnUnlockDB | dbump_test.go:429-452 | TestFailOnUnlockDB: from version 4 migration 5 is applied, the unlock is logged and fails, and its error is the run's result |
| Scenarios.FailOnDoStepError | dbump_test.go:473-492 | TestFailOnDoStepError, and TestTimeout (dbump_test.go:269-295) whose DoStep fails with the deadline's error: the first step's error is returned after the unlock, and no later step runs |
| Scenarios.RunCheck | dbump_test.go:12-47 | TestRunCheck: no migrator, no loader, ModeNotSet or a mode past ModeMaxPossible each fail with their own error before any call |
| Scenarios.FailOnLoad | dbump_test.go:494-505 | TestFailOnLoad: the loader's error fails the run, wrapped, with nothing logged |
| Scenarios.LoadMigrations | dbump_test.go:507-558 | Test_loadMigrations: [2, 1] loads as [1, 2]; [3, 1] misses number 2; two migrations numbered 2 are a duplicate that names the second one, "mig2fix" (the test expects a message naming "mig2" but compares only whether an error came back) |
| Scenarios.SliceLoaderTestAsWritten | load_test.go:92-111 | TestSliceLoader as written: the loader holds three migrations and the test compares them with all five, so its check fails |
| Scenarios.SliceLoaderTest | load_test.go:92-111 | TestSliceLoader with want cut to three: Load returns the first three test migrations in order and the check passes |
| Scenarios.ForcedCleanRunLog | dbump.go:220-231 | a refused first lock won by the forced unlock and relock, then a clean run, logs lockdb, unlockdb, lockdb, init, getversion, the steps, drop in ModeDrop, unlockdb |
| RunProperties.UnlockDecidesCleanRun | dbump.go:197-201 | when everything but the unlock succeeds, the trace is the clean trace and the run is Done exactly when the unlock passes, otherwise it fails with the unlock's error |
| RunProperties.ReliableRunLogWith | dbump.go:247-255 | with callbacks configured, a clean run logs lockdb, init, getversion, for each step the before-callback's lines, dostep and the step, the after-callback's lines, then drop in ModeDrop and unlockdb |
| RunProperties.RenderRounds | dbump.go:247-255 | the lines of the calls of successful rounds are each round's before lines, DoStep's two lines and after lines, in plan order |
| RunProperties.RenderCleanTraceWith | tests/mocks.go:39-88 | a clean trace writes the lock tag, init, getversion, the rounds' lines, drop in ModeDrop and the unlock tag |
| RunProperties.CleanTraceLog | tests/mocks.go:39-88 | without callbacks, a run whose trace is the clean trace leaves the clean log after the old one |

## Left out

- `Config.Timeout` and `mig.step`'s context deadline (dbump.go:259-266) are not modelled. A timeout reaches the run as a DoStep error, and a failing `doStep` hook models that: `Scenarios.FailOnDoStepError` covers TestTimeout, with the deadline's error as the message.
- The `context.Context` arguments are not modelled: nothing in the core reads them except the timeout above.
- The database backends (PostgreSQL, pgx, MySQL, SQLite, ClickHouse) are not modelled. The Migrator is the recording `MockMigrator`, whose hooks stand for any backend's answers.
- File system access is not modelled: `osFS`, `ReadDir`, `ReadFile` and `embed.FS` (load.go:141-156). A `FileSys` is a function from a path to a directory listing, and each entry carries what `ReadFile` would return for it.
- Path joining with `filepath.Join` is not modelled, because each entry already carries its body.
- The `[]byte` to `string` conversion of a file body is not modelled: bodies are strings.
- The regular-expression engine is not modelled. `IsMigrationName` is a hand-written predicate, and `Loaders.IsMigrationNameIsRegex` proves it equal to the language of `^(\d+)_.+\.sql$`. The regex's `.` does not match a newline, and the predicate follows that.
- Error text is not modelled. Errors are constructors that carry the wrapped cause and the values `fmt.Errorf` would print, not formatted strings.
- Go closures with private state (the tests' hooks) are not modelled as such: a hook is a function of the mock's log so far.
- The step callbacks are functions from a step to the log lines they append.
- Planner.Target: uses unbounded integers, so the Go `int` overflow of `curr + Num` for huge `Num` is not modelled.
- `PathSeparator` is fixed to '/' (a Unix build).
- Loaders.SliceLoader.AddMigration: does not model the panic on a nil migration, because migrations are values and cannot be nil.
- `MockMigrator`'s wrapped migrator is a value of six functions (`Backend`), not an arbitrary Go object.
- `Mocks.MockMigrator.Log` returns the log itself: Go returns the slice, which shares storage with the log, but no caller writes through it.
- Loaders.TrimPathSpec: on a path made only of separators, such as "/", the trimmed path is empty, exactly as `strings.TrimRight` gives. No further meaning is claimed.
- The scenarios hold for any five sequential migrations, and `Scenarios.TestDataSequential` shows the five test migrations are such a set. The queries in the expected logs are those migrations' queries.
- The loader tests that read real files (load_disk_test.go, load_embed_test.go, and the disk and embed cases of load_test.go) are not modelled as scenarios, because file access is not modelled. Their properties are the loader lemmas above.
- Loaders.SliceLoader: holds its own sequence, not the caller's slice. In Go, `NewSliceLoader` keeps the slice it is given (load.go:60-64), so the in-place sort of `mig.load` (dbump.go:175-177) reorders the caller's slice too, and an `AddMigration` append that fits in the slice's capacity (load.go:76) writes into the caller's backing array. The model captures the sort of the loader's own field only, and no aliasing.

## Findings

| source | as written | input that shows it | evidently intended | confidence | as-written member | corrected member |
|---|---|---|---|---|---|---|
| load_test.go:92-111 | TestSliceLoader loads the first two test migrations plus the third, then compares with `want := testdataMigrations`, all five, so the length check fails; load_slice_test.go:8-27 repeats the test | the five migrations of `testdataMigrations`: `len(migs)` is 3, `len(want)` is 5 | `want := testdataMigrations[:3]` | not executed | Scenarios.SliceLoaderTestAsWritten | Scenarios.SliceLoaderTest |
