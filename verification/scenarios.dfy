/**
 * Runs from the source's own tests (dbump_test.go), over its five test
 * migrations and a MockMigrator, with the log each test expects.
 */
module Scenarios {
  import opened Wrappers
  import opened Migrations
  import opened Validator
  import opened Planner
  import opened Loaders
  import opened Mocks
  import opened Driver
  import opened RunProperties

  /** `testdataMigrations`. */
  const TestData: seq<Migration> := [
    Migration(1, "0001_init.sql", "SELECT 1;", "SELECT 10;"),
    Migration(2, "0002_another.sql", "SELECT 2;", "SELECT 20;"),
    Migration(3, "0003_even-better.sql", "SELECT 3;", "SELECT 30;"),
    Migration(4, "0004_but_fix.sql", "SELECT 4;", "SELECT 40;"),
    Migration(5, "0005_final.sql", "SELECT 5;", "SELECT 50;")]

  /** A config as the tests write it: a migrator, a loader, a mode, nothing else set. */
  function TestConfig(mm: MockMigrator, l: Loader, mode: Mode): Config
  {
    Config(Some(mm), Some(l), mode, 0, false, false, false, false, None, None)
  }

  /** The test migrations are 1..5 in order, so every scenario below applies to them. */
  lemma TestDataSequential()
    ensures |TestData| == 5 && Sequential(TestData)
  {
  }

  /** The step a test expects, written with the mock's own format, as tests/tests.go writes it. */
  function Logged(v: int, query: string, notx: bool): seq<string>
  {
    [StepTag, FormatStep(Step(v, query, notx))]
  }

  /**
   * A run of migrations 1..n with the lock in use, no callbacks and a
   * migrator that never fails: the log the tests expect, around the plan's lines.
   */
  lemma CleanRunLog(c: Config, h: Hooks, ms: seq<Migration>, v: int, target: int)
    requires ConfigError(c).None? && Sequential(ms) && Reliable(h, v)
    requires KnownMode(c.mode) && Target(c.mode, c.num, v, |ms|) == Ok(target)
    requires StepsDefined(c.mode, v, target, |ms|)
    requires !c.noDatabaseLock && c.beforeStep.None? && c.afterStep.None?
    ensures var plan := Plan(c.mode, v, target, ms, c.zigZag, c.disableTx);
      && RunSpec(c, h, Ok(ms), []).0 == Done
      && RunSpec(c, h, Ok(ms), []).1.log ==
        ["lockdb", "init", "getversion"] + StepLines(plan)
        + (if c.mode == ModeDrop then ["drop"] else []) + ["unlockdb"]
  {
    ValidateIdempotent(ms);
    ReliableRunLog(c, h, Ok(ms), [], v, target);
    var plan := Plan(c.mode, v, target, ms, c.zigZag, c.disableTx);
    assert [LockTag] + [InitTag, VersionTag] == ["lockdb", "init", "getversion"];
  }

  /**
   * TestMigrateUp (with DisableTx) and the ApplyAll test of tests/tests.go
   * (without): everything applied from version 0, in order.
   */
  lemma MigrateUp(mm: MockMigrator, l: Loader, ms: seq<Migration>, notx: bool)
    requires |ms| == 5 && Sequential(ms)
    ensures var c := TestConfig(mm, l, ModeApplyAll).(disableTx := notx);
      && RunSpec(c, NoHooks, Ok(ms), []).0 == Done
      && RunSpec(c, NoHooks, Ok(ms), []).1.log ==
        ["lockdb", "init", "getversion"]
        + Logged(1, ms[0].apply, notx) + Logged(2, ms[1].apply, notx) + Logged(3, ms[2].apply, notx)
        + Logged(4, ms[3].apply, notx) + Logged(5, ms[4].apply, notx)
        + ["unlockdb"]
  {
    var c := TestConfig(mm, l, ModeApplyAll).(disableTx := notx);
    NoHooksReliable();
    CleanRunLog(c, NoHooks, ms, 0, 5);
    UpFromZero(ms, notx, Plan(ModeApplyAll, 0, 5, ms, false, notx), ["lockdb", "init", "getversion"], ["unlockdb"]);
  }

  lemma UpFromZero(ms: seq<Migration>, notx: bool, plan: seq<Step>, pre: seq<string>, post: seq<string>)
    requires |ms| == 5 && Sequential(ms)
    requires plan == Plan(ModeApplyAll, 0, 5, ms, false, notx)
    ensures pre + StepLines(plan) + [] + post ==
      pre + Logged(1, ms[0].apply, notx) + Logged(2, ms[1].apply, notx) + Logged(3, ms[2].apply, notx)
      + Logged(4, ms[3].apply, notx) + Logged(5, ms[4].apply, notx) + post
  {
    PlanUp(ModeApplyAll, 0, 5, ms, notx);
    assert pre + StepLines(plan) + [] == pre + StepLines(plan);
    FiveLines(pre, plan, post);
    assert plan[0] == Step(1, ms[0].apply, notx) && plan[1] == Step(2, ms[1].apply, notx);
    assert plan[2] == Step(3, ms[2].apply, notx) && plan[3] == Step(4, ms[3].apply, notx);
    assert plan[4] == Step(5, ms[4].apply, notx);
  }

  /** The lines of five successful steps, one step after the other. */
  lemma FiveLines(pre: seq<string>, plan: seq<Step>, post: seq<string>)
    requires |plan| == 5
    ensures pre + StepLines(plan) + post ==
      pre + [StepTag, FormatStep(plan[0])] + [StepTag, FormatStep(plan[1])] + [StepTag, FormatStep(plan[2])]
      + [StepTag, FormatStep(plan[3])] + [StepTag, FormatStep(plan[4])] + post
  {
    var a, b := plan[..2], plan[2..];
    assert plan == a + b;
    StepLinesConcat(a, b);
    assert pre + StepLines(plan) + post == pre + StepLines(a) + StepLines(b) + post;
    TwoLines(pre, a, []);
    ThreeLines(pre + [StepTag, FormatStep(plan[0])] + [StepTag, FormatStep(plan[1])], b, post);
    assert b[0] == plan[2] && b[1] == plan[3] && b[2] == plan[4];
  }

  /** The lines of two successful steps. */
  lemma TwoLines(pre: seq<string>, plan: seq<Step>, post: seq<string>)
    requires |plan| == 2
    ensures pre + StepLines(plan) + post == pre + [StepTag, FormatStep(plan[0])] + [StepTag, FormatStep(plan[1])] + post
    ensures pre + StepLines(plan) == pre + [StepTag, FormatStep(plan[0])] + [StepTag, FormatStep(plan[1])]
  {
    LinesSnoc(pre, plan, 1);
    LinesSnoc(pre, plan, 0);
    assert plan[..2] == plan;
    assert StepLines(plan[..0]) == [];
    assert pre + StepLines(plan[..0]) == pre;
  }

  lemma LinesSnoc(pre: seq<string>, plan: seq<Step>, k: nat)
    requires k < |plan|
    ensures pre + StepLines(plan[..k + 1]) == pre + StepLines(plan[..k]) + [StepTag, FormatStep(plan[k])]
  {
    assert plan[..k + 1] == plan[..k] + [plan[k]];
    StepLinesConcat(plan[..k], [plan[k]]);
    assert [plan[k]][1..] == [];
  }

  /** A hook that always fails with "no access", as the failure tests write it. */
  const NoAccess: ErrHook := (log: seq<string>) => Fail("no access")

  /** TestUseForce's lock: held by someone else until the first UnlockDB. */
  const HeldLock: ErrHook := (log: seq<string>) => if UnlockTag in log then Pass else Fail("cannot get lock")

  /** A VersionFn that reports version `v`. */
  function AtVersion(v: int): VersionHook
  {
    (log: seq<string>) => Ok(v)
  }

  /** A migrator whose only hook reports version `v` never fails. */
  lemma AtVersionReliable(v: int)
    ensures Reliable(NoHooks.(version := Some(AtVersion(v))), v)
  {
  }

  /** TestFailOnLockDB: a refused lock ends the run after [lockdb]. */
  lemma FailOnLockDB(mm: MockMigrator, l: Loader, ms: seq<Migration>)
    requires Sequential(ms)
    ensures var h := NoHooks.(lockDB := Some(NoAccess));
      RunSpec(TestConfig(mm, l, ModeApplyAll), h, Ok(ms), []) ==
        (Failed(LockFailed("no access")), St(["lockdb"], [LockCall]))
  {
    var h := NoHooks.(lockDB := Some(NoAccess));
    ValidateIdempotent(ms);
    assert [] + [LockTag] == ["lockdb"];
    assert Fire(h.lockDB, ["lockdb"]) == Fail("no access");
    RunLockRefused(TestConfig(mm, l, ModeApplyAll), h, Ok(ms), []);
  }

  /** TestFailOnInitError: an Init error still unlocks, and is what the run returns. */
  lemma FailOnInitError(mm: MockMigrator, l: Loader, ms: seq<Migration>)
    requires Sequential(ms)
    ensures var h := NoHooks.(init := Some(NoAccess));
      && RunSpec(TestConfig(mm, l, ModeApplyAll), h, Ok(ms), []).0 == Failed(InitFailed("no access"))
      && RunSpec(TestConfig(mm, l, ModeApplyAll), h, Ok(ms), []).1.log == ["lockdb", "init", "unlockdb"]
  {
    var c := TestConfig(mm, l, ModeApplyAll);
    var h := NoHooks.(init := Some(NoAccess));
    ValidateIdempotent(ms);
    var s1 := St(["lockdb"], [LockCall]);
    assert [] + [LockTag] == ["lockdb"] && [] + [LockCall] == [LockCall];
    assert Emit(c, St([], []), LockCall) == s1;
    assert Fire(h.lockDB, ["lockdb"]) == Pass;
    assert LockPhase(c, h, St([], [])) == (None, s1);
    assert Emit(c, s1, InitCall) == St(["lockdb", "init"], [LockCall, InitCall]);
    assert Fire(h.init, ["lockdb", "init"]) == Fail("no access");
    assert BeforeUnlock(c, h, ms, s1) == (Failed(InitFailed("no access")), St(["lockdb", "init"], [LockCall, InitCall]));
  }

  /** TestFailOnGetVersionError: a Version error is returned before any step, after unlocking. */
  lemma FailOnGetVersionError(mm: MockMigrator, l: Loader, ms: seq<Migration>)
    requires Sequential(ms)
    ensures var h := NoHooks.(version := Some((log: seq<string>) => Err("no access")));
      && RunSpec(TestConfig(mm, l, ModeApplyAll), h, Ok(ms), []).0 == Failed(VersionFailed("no access"))
      && RunSpec(TestConfig(mm, l, ModeApplyAll), h, Ok(ms), []).1.log == ["lockdb", "init", "getversion", "unlockdb"]
  {
    var c := TestConfig(mm, l, ModeApplyAll);
    var h := NoHooks.(version := Some((log: seq<string>) => Err("no access")));
    ValidateIdempotent(ms);
    var s1 := St(["lockdb"], [LockCall]);
    assert [] + [LockTag] == ["lockdb"] && [] + [LockCall] == [LockCall];
    assert Emit(c, St([], []), LockCall) == s1;
    assert Fire(h.lockDB, ["lockdb"]) == Pass;
    assert LockPhase(c, h, St([], [])) == (None, s1);
    var s2 := St(["lockdb", "init"], [LockCall, InitCall]);
    assert Emit(c, s1, InitCall) == s2;
    assert Emit(c, s2, VersionCall) == St(["lockdb", "init", "getversion"], [LockCall, InitCall, VersionCall]);
    assert FireVersion(h.version, ["lockdb", "init", "getversion"]) == Err("no access");
    LockedPhaseCalls(c, h, ms, s2);
    assert LockedPhase(c, h, ms, s2) ==
      (Failed(VersionFailed("no access")), St(["lockdb", "init", "getversion"], [LockCall, InitCall, VersionCall]));
  }

  /**
   * TestUseForce: the lock is held until someone unlocks, so the first
   * LockDB fails, the forced UnlockDB frees it and the second LockDB wins;
   * from version 3 the run then applies migrations 4 and 5.
   */
  lemma UseForce(mm: MockMigrator, l: Loader, ms: seq<Migration>)
    requires |ms| == 5 && Sequential(ms)
    ensures var c := TestConfig(mm, l, ModeApplyAll).(useForce := true, disableTx := true);
      var h := NoHooks.(
        lockDB := Some(HeldLock),
        version := Some(AtVersion(3)));
      && RunSpec(c, h, Ok(ms), []).0 == Done
      && RunSpec(c, h, Ok(ms), []).1.log ==
        ["lockdb", "unlockdb", "lockdb", "init", "getversion"]
        + Logged(4, ms[3].apply, true) + Logged(5, ms[4].apply, true)
        + ["unlockdb"]
  {
    var c := TestConfig(mm, l, ModeApplyAll).(useForce := true, disableTx := true);
    var h := NoHooks.(
      lockDB := Some(HeldLock),
      version := Some(AtVersion(3)));
    assert Fire(h.lockDB, ["lockdb"]) == Fail("cannot get lock");
    assert [] + [LockTag, UnlockTag, LockTag] == ["lockdb", "unlockdb", "lockdb"];
    assert UnlockTag in ["lockdb", "unlockdb", "lockdb"];
    ForcedCleanRunLog(c, h, ms, 3, 5);
    UpFromThree(ms, Plan(ModeApplyAll, 3, 5, ms, false, true), ["lockdb", "unlockdb", "lockdb", "init", "getversion"], ["unlockdb"]);
  }

  /** As CleanRunLog, after a refused first lock that the forced unlock and relock win. */
  lemma ForcedCleanRunLog(c: Config, h: Hooks, ms: seq<Migration>, v: int, target: int)
    requires ConfigError(c).None? && Sequential(ms) && ReliableOnceLocked(h, v)
    requires KnownMode(c.mode) && Target(c.mode, c.num, v, |ms|) == Ok(target)
    requires StepsDefined(c.mode, v, target, |ms|)
    requires !c.noDatabaseLock && c.useForce && c.beforeStep.None? && c.afterStep.None?
    requires Fire(h.lockDB, [LockTag]).Fail? && Fire(h.lockDB, [LockTag, UnlockTag, LockTag]).Pass?
    ensures var plan := Plan(c.mode, v, target, ms, c.zigZag, c.disableTx);
      && RunSpec(c, h, Ok(ms), []).0 == Done
      && RunSpec(c, h, Ok(ms), []).1.log ==
        ["lockdb", "unlockdb", "lockdb", "init", "getversion"] + StepLines(plan)
        + (if c.mode == ModeDrop then ["drop"] else []) + ["unlockdb"]
  {
    ValidateIdempotent(ms);
    assert [] + [LockTag] == [LockTag] && [] + [LockTag, UnlockTag, LockTag] == [LockTag, UnlockTag, LockTag];
    ForcedRunLog(c, h, Ok(ms), [], v, target);
    ForcedLines(c, Plan(c.mode, v, target, ms, c.zigZag, c.disableTx));
  }

  /** A forced clean run's lines: the refused lock and the forced unlock, then a clean run's. */
  lemma ForcedLines(c: Config, plan: seq<Step>)
    requires !c.noDatabaseLock
    ensures [] + [LockTag, UnlockTag] + CleanLines(c, plan) ==
      ["lockdb", "unlockdb", "lockdb", "init", "getversion"] + StepLines(plan)
      + (if c.mode == ModeDrop then ["drop"] else []) + ["unlockdb"]
  {
    CleanLinesLocked(c, plan, [] + [LockTag, UnlockTag]);
    assert [] + [LockTag, UnlockTag] + [LockTag, InitTag, VersionTag] == ["lockdb", "unlockdb", "lockdb", "init", "getversion"];
  }

  /** With the lock in use, a clean run's lines after `pre`: the lock tag, "init", "getversion", the steps, Drop's tag in ModeDrop, the unlock tag. */
  lemma CleanLinesLocked(c: Config, plan: seq<Step>, pre: seq<string>)
    requires !c.noDatabaseLock
    ensures pre + CleanLines(c, plan) ==
      pre + [LockTag, InitTag, VersionTag] + StepLines(plan) + (if c.mode == ModeDrop then ["drop"] else []) + [UnlockTag]
  {
    var drop := if c.mode == ModeDrop then ["drop"] else [];
    assert [LockTag] + [InitTag, VersionTag] == [LockTag, InitTag, VersionTag];
    assert CleanLines(c, plan) == [LockTag, InitTag, VersionTag] + StepLines(plan) + drop + [UnlockTag];
    Regroup(pre, [LockTag, InitTag, VersionTag], StepLines(plan), drop, [UnlockTag]);
  }

  /** Lines appended as one block are the same lines appended piece by piece. */
  lemma Regroup(pre: seq<string>, a: seq<string>, b: seq<string>, d: seq<string>, e: seq<string>)
    ensures pre + (a + b + d + e) == pre + a + b + d + e
  {
  }

  lemma UpFromThree(ms: seq<Migration>, plan: seq<Step>, pre: seq<string>, post: seq<string>)
    requires |ms| == 5 && Sequential(ms)
    requires plan == Plan(ModeApplyAll, 3, 5, ms, false, true)
    ensures pre + StepLines(plan) + [] + post == pre + Logged(4, ms[3].apply, true) + Logged(5, ms[4].apply, true) + post
  {
    PlanUp(ModeApplyAll, 3, 5, ms, true);
    assert pre + StepLines(plan) + [] == pre + StepLines(plan);
    TwoLines(pre, plan, post);
  }

  /**
   * The Drop test of tests/tests.go: from version 5 every migration is
   * reverted, newest first, then Drop runs, then the unlock.
   */
  lemma DropAll(mm: MockMigrator, l: Loader, ms: seq<Migration>)
    requires |ms| == 5 && Sequential(ms)
    ensures var h := NoHooks.(version := Some(AtVersion(5)));
      && RunSpec(TestConfig(mm, l, ModeDrop), h, Ok(ms), []).0 == Done
      && RunSpec(TestConfig(mm, l, ModeDrop), h, Ok(ms), []).1.log ==
        ["lockdb", "init", "getversion"]
        + Logged(4, ms[4].revert, false) + Logged(3, ms[3].revert, false) + Logged(2, ms[2].revert, false)
        + Logged(1, ms[1].revert, false) + Logged(0, ms[0].revert, false)
        + ["drop", "unlockdb"]
  {
    var c := TestConfig(mm, l, ModeDrop);
    var h := NoHooks.(version := Some(AtVersion(5)));
    CleanRunLog(c, h, ms, 5, 0);
    var lines := ["lockdb", "init", "getversion"] + StepLines(Plan(ModeDrop, 5, 0, ms, false, false));
    assert lines + ["drop"] + ["unlockdb"] == lines + ["drop", "unlockdb"];
    DownFromFive(ms, ModeDrop, false, Plan(ModeDrop, 5, 0, ms, false, false), ["lockdb", "init", "getversion"], ["drop", "unlockdb"]);
  }

  lemma DownFromFive(ms: seq<Migration>, mode: Mode, notx: bool, plan: seq<Step>, pre: seq<string>, post: seq<string>)
    requires |ms| == 5 && Sequential(ms) && mode != ModeRedo
    requires plan == Plan(mode, 5, 0, ms, false, notx)
    ensures pre + StepLines(plan) + post ==
      pre + Logged(4, ms[4].revert, notx) + Logged(3, ms[3].revert, notx) + Logged(2, ms[2].revert, notx)
      + Logged(1, ms[1].revert, notx) + Logged(0, ms[0].revert, notx) + post
  {
    PlanDown(mode, 5, 0, ms, notx);
    FiveLines(pre, plan, post);
    assert plan[0] == Step(4, ms[4].revert, notx) && plan[1] == Step(3, ms[3].revert, notx);
    assert plan[2] == Step(2, ms[2].revert, notx) && plan[3] == Step(1, ms[1].revert, notx);
    assert plan[4] == Step(0, ms[0].revert, notx);
  }

  /**
   * TestMigrateDown (with DisableTx) and the RevertAll test of tests/tests.go
   * (without): from version 5 every migration is reverted, newest first.
   */
  lemma MigrateDown(mm: MockMigrator, l: Loader, ms: seq<Migration>, notx: bool)
    requires |ms| == 5 && Sequential(ms)
    ensures var c := TestConfig(mm, l, ModeRevertAll).(disableTx := notx);
      var h := NoHooks.(version := Some(AtVersion(5)));
      && RunSpec(c, h, Ok(ms), []).0 == Done
      && RunSpec(c, h, Ok(ms), []).1.log ==
        ["lockdb", "init", "getversion"]
        + Logged(4, ms[4].revert, notx) + Logged(3, ms[3].revert, notx) + Logged(2, ms[2].revert, notx)
        + Logged(1, ms[1].revert, notx) + Logged(0, ms[0].revert, notx)
        + ["unlockdb"]
  {
    var c := TestConfig(mm, l, ModeRevertAll).(disableTx := notx);
    var h := NoHooks.(version := Some(AtVersion(5)));
    CleanRunLog(c, h, ms, 5, 0);
    var plan := Plan(ModeRevertAll, 5, 0, ms, false, notx);
    assert ["lockdb", "init", "getversion"] + StepLines(plan) + [] == ["lockdb", "init", "getversion"] + StepLines(plan);
    DownFromFive(ms, ModeRevertAll, notx, plan, ["lockdb", "init", "getversion"], ["unlockdb"]);
  }

  /**
   * TestMigrateUpWhenFull and the ApplyAllWhenFull test of tests/tests.go:
   * at version 5 there is nothing to apply.
   */
  lemma MigrateUpWhenFull(mm: MockMigrator, l: Loader, ms: seq<Migration>)
    requires |ms| == 5 && Sequential(ms)
    ensures var h := NoHooks.(version := Some(AtVersion(5)));
      && RunSpec(TestConfig(mm, l, ModeApplyAll), h, Ok(ms), []).0 == Done
      && RunSpec(TestConfig(mm, l, ModeApplyAll), h, Ok(ms), []).1.log == ["lockdb", "init", "getversion", "unlockdb"]
  {
    var h := NoHooks.(version := Some(AtVersion(5)));
    CleanRunLog(TestConfig(mm, l, ModeApplyAll), h, ms, 5, 5);
    PlanEndsAtTarget(ModeApplyAll, 5, 5, ms, false, false);
  }

  /**
   * TestMigrateDownWhenEmpty and the RevertAllWhenEmpty test of
   * tests/tests.go: at version 0 there is nothing to revert.
   */
  lemma MigrateDownWhenEmpty(mm: MockMigrator, l: Loader, ms: seq<Migration>)
    requires |ms| == 5 && Sequential(ms)
    ensures var h := NoHooks.(version := Some(AtVersion(0)));
      && RunSpec(TestConfig(mm, l, ModeRevertAll), h, Ok(ms), []).0 == Done
      && RunSpec(TestConfig(mm, l, ModeRevertAll), h, Ok(ms), []).1.log == ["lockdb", "init", "getversion", "unlockdb"]
  {
    var h := NoHooks.(version := Some(AtVersion(0)));
    CleanRunLog(TestConfig(mm, l, ModeRevertAll), h, ms, 0, 0);
    PlanEndsAtTarget(ModeRevertAll, 0, 0, ms, false, false);
  }

  /**
   * TestMigrateUpOne and the ApplyOne test of tests/tests.go: ApplyN with
   * Num 1 from version 3 applies migration 4 only.
   */
  lemma MigrateUpOne(mm: MockMigrator, l: Loader, ms: seq<Migration>)
    requires |ms| == 5 && Sequential(ms)
    ensures var c := TestConfig(mm, l, ModeApplyN).(num := 1);
      var h := NoHooks.(version := Some(AtVersion(3)));
      && RunSpec(c, h, Ok(ms), []).0 == Done
      && RunSpec(c, h, Ok(ms), []).1.log == ["lockdb", "init", "getversion"] + Logged(4, ms[3].apply, false) + ["unlockdb"]
  {
    var c := TestConfig(mm, l, ModeApplyN).(num := 1);
    var h := NoHooks.(version := Some(AtVersion(3)));
    CleanRunLog(c, h, ms, 3, 4);
    var plan := Plan(ModeApplyN, 3, 4, ms, false, false);
    PlanUp(ModeApplyN, 3, 4, ms, false);
    OneLine(["lockdb", "init", "getversion"], plan, [] + ["unlockdb"]);
  }

  /**
   * TestMigrateDownOne and the RevertOne test of tests/tests.go: RevertN
   * with Num 1 from version 3 reverts migration 3 only.
   */
  lemma MigrateDownOne(mm: MockMigrator, l: Loader, ms: seq<Migration>)
    requires |ms| == 5 && Sequential(ms)
    ensures var c := TestConfig(mm, l, ModeRevertN).(num := 1);
      var h := NoHooks.(version := Some(AtVersion(3)));
      && RunSpec(c, h, Ok(ms), []).0 == Done
      && RunSpec(c, h, Ok(ms), []).1.log == ["lockdb", "init", "getversion"] + Logged(2, ms[2].revert, false) + ["unlockdb"]
  {
    var c := TestConfig(mm, l, ModeRevertN).(num := 1);
    var h := NoHooks.(version := Some(AtVersion(3)));
    CleanRunLog(c, h, ms, 3, 2);
    var plan := Plan(ModeRevertN, 3, 2, ms, false, false);
    PlanDown(ModeRevertN, 3, 2, ms, false);
    OneLine(["lockdb", "init", "getversion"], plan, [] + ["unlockdb"]);
  }

  /**
   * TestMigrateRedo and the Redo test of tests/tests.go: from version 3,
   * migration 3 is reverted and applied again.
   */
  lemma MigrateRedo(mm: MockMigrator, l: Loader, ms: seq<Migration>)
    requires |ms| == 5 && Sequential(ms)
    ensures var h := NoHooks.(version := Some(AtVersion(3)));
      && RunSpec(TestConfig(mm, l, ModeRedo), h, Ok(ms), []).0 == Done
      && RunSpec(TestConfig(mm, l, ModeRedo), h, Ok(ms), []).1.log ==
        ["lockdb", "init", "getversion"] + Logged(2, ms[2].revert, false) + Logged(3, ms[2].apply, false) + ["unlockdb"]
  {
    var h := NoHooks.(version := Some(AtVersion(3)));
    CleanRunLog(TestConfig(mm, l, ModeRedo), h, ms, 3, 3);
    var plan := Plan(ModeRedo, 3, 3, ms, false, false);
    PlanRedo(3, 3, ms, false, false);
    TwoLines(["lockdb", "init", "getversion"], plan, [] + ["unlockdb"]);
  }

  /**
   * TestMigrateDrop: from version 3 the three applied migrations are
   * reverted, newest first, then Drop runs, then the unlock.
   */
  lemma MigrateDrop(mm: MockMigrator, l: Loader, ms: seq<Migration>)
    requires |ms| == 5 && Sequential(ms)
    ensures var h := NoHooks.(version := Some(AtVersion(3)));
      && RunSpec(TestConfig(mm, l, ModeDrop), h, Ok(ms), []).0 == Done
      && RunSpec(TestConfig(mm, l, ModeDrop), h, Ok(ms), []).1.log ==
        ["lockdb", "init", "getversion"]
        + Logged(2, ms[2].revert, false) + Logged(1, ms[1].revert, false) + Logged(0, ms[0].revert, false)
        + ["drop", "unlockdb"]
  {
    var h := NoHooks.(version := Some(AtVersion(3)));
    CleanRunLog(TestConfig(mm, l, ModeDrop), h, ms, 3, 0);
    var plan := Plan(ModeDrop, 3, 0, ms, false, false);
    PlanDown(ModeDrop, 3, 0, ms, false);
    ThreeLines(["lockdb", "init", "getversion"], plan, ["drop"] + ["unlockdb"]);
    assert ["drop"] + ["unlockdb"] == ["drop", "unlockdb"];
  }

  /** The lines of one successful step. */
  lemma OneLine(pre: seq<string>, plan: seq<Step>, post: seq<string>)
    requires |plan| == 1
    ensures pre + StepLines(plan) + post == pre + [StepTag, FormatStep(plan[0])] + post
  {
    var line := [StepTag, FormatStep(plan[0])];
    assert plan[1..] == [];
    assert StepLines(plan) == line + StepLines(plan[1..]);
    assert StepLines(plan) == line;
  }

  /** The lines of three successful steps. */
  lemma ThreeLines(pre: seq<string>, plan: seq<Step>, post: seq<string>)
    requires |plan| == 3
    ensures pre + StepLines(plan) + post ==
      pre + [StepTag, FormatStep(plan[0])] + [StepTag, FormatStep(plan[1])] + [StepTag, FormatStep(plan[2])] + post
  {
    assert plan[..3] == plan;
    LinesSnoc(pre, plan, 2);
    TwoLines(pre, plan[..2], []);
  }

  /**
   * TestLockless: with NoDatabaseLock the log holds no "lockdb" or
   * "unlockdb", only Init, Version and the steps.
   */
  lemma Lockless(mm: MockMigrator, l: Loader, ms: seq<Migration>)
    requires |ms| == 5 && Sequential(ms)
    ensures var c := TestConfig(mm, l, ModeApplyAll).(noDatabaseLock := true);
      && RunSpec(c, NoHooks, Ok(ms), []).0 == Done
      && RunSpec(c, NoHooks, Ok(ms), []).1.log ==
        ["init", "getversion"]
        + Logged(1, ms[0].apply, false) + Logged(2, ms[1].apply, false) + Logged(3, ms[2].apply, false)
        + Logged(4, ms[3].apply, false) + Logged(5, ms[4].apply, false)
  {
    var c := TestConfig(mm, l, ModeApplyAll).(noDatabaseLock := true);
    var plan := Plan(ModeApplyAll, 0, 5, ms, false, false);
    NoHooksReliable();
    ValidateIdempotent(ms);
    ReliableRunLog(c, NoHooks, Ok(ms), [], 0, 5);
    LocklessLines(c, plan);
    UpFromZero(ms, false, plan, ["init", "getversion"], []);
  }

  /** Without the lock and outside ModeDrop, a clean run's lines are "init", "getversion" and the steps. */
  lemma LocklessLines(c: Config, plan: seq<Step>)
    requires c.noDatabaseLock && c.mode != ModeDrop
    ensures [] + CleanLines(c, plan) == ["init", "getversion"] + StepLines(plan) + [] + []
  {
    assert [] + [InitTag, VersionTag] == ["init", "getversion"];
  }

  /** TestZigZag's lines for migration `m` reached at version `v`: apply, revert, apply again. */
  function ZigZagUp(v: int, m: Migration, notx: bool): seq<string>
  {
    Logged(v, m.apply, notx) + Logged(v - 1, m.revert, notx) + Logged(v, m.apply, notx)
  }

  /** Under ZigZag, the walk up from version `k` writes migration k+1's three lines, then the rest of the walk. */
  lemma ZigZagHead(ms: seq<Migration>, k: nat, notx: bool, pre: seq<string>, post: seq<string>)
    requires Sequential(ms) && k < |ms|
    ensures pre + StepLines(Walk(ms, k, |ms|, true, notx)) + post ==
      pre + ZigZagUp(k + 1, ms[k], notx) + StepLines(Walk(ms, k + 1, |ms|, true, notx)) + post
  {
    var u := WalkUnit(ms, k, true, true, notx);
    var rest := Walk(ms, k + 1, |ms|, true, notx);
    assert Walk(ms, k, |ms|, true, notx) == u + rest;
    StepLinesConcat(u, rest);
    assert ms[k].id == k + 1;
    assert u == [Step(k + 1, ms[k].apply, notx), Step(k, ms[k].revert, notx), Step(k + 1, ms[k].apply, notx)];
    ThreeLines([], u, []);
    assert [] + StepLines(u) + [] == StepLines(u);
    assert StepLines(u) == ZigZagUp(k + 1, ms[k], notx);
    assert pre + (StepLines(u) + StepLines(rest)) + post == pre + StepLines(u) + StepLines(rest) + post;
  }

  /** The ZigZag walk from version 0 over five migrations, migration by migration. */
  lemma ZigZagLines(ms: seq<Migration>, notx: bool, pre: seq<string>, post: seq<string>)
    requires |ms| == 5 && Sequential(ms)
    ensures pre + StepLines(Walk(ms, 0, 5, true, notx)) + post ==
      pre + ZigZagUp(1, ms[0], notx) + ZigZagUp(2, ms[1], notx) + ZigZagUp(3, ms[2], notx)
      + ZigZagUp(4, ms[3], notx) + ZigZagUp(5, ms[4], notx) + post
  {
    var p1 := pre + ZigZagUp(1, ms[0], notx);
    var p2 := p1 + ZigZagUp(2, ms[1], notx);
    var p3 := p2 + ZigZagUp(3, ms[2], notx);
    var p4 := p3 + ZigZagUp(4, ms[3], notx);
    var p5 := p4 + ZigZagUp(5, ms[4], notx);
    calc {
      pre + StepLines(Walk(ms, 0, 5, true, notx)) + post;
      { ZigZagHead(ms, 0, notx, pre, post); }
      p1 + StepLines(Walk(ms, 1, 5, true, notx)) + post;
      { ZigZagHead(ms, 1, notx, p1, post); }
      p2 + StepLines(Walk(ms, 2, 5, true, notx)) + post;
      { ZigZagHead(ms, 2, notx, p2, post); }
      p3 + StepLines(Walk(ms, 3, 5, true, notx)) + post;
      { ZigZagHead(ms, 3, notx, p3, post); }
      p4 + StepLines(Walk(ms, 4, 5, true, notx)) + post;
      { ZigZagHead(ms, 4, notx, p4, post); }
      p5 + StepLines(Walk(ms, 5, 5, true, notx)) + post;
      { assert Walk(ms, 5, 5, true, notx) == []; assert p5 + [] == p5; }
      p5 + post;
    }
  }

  /**
   * TestZigZag: from version 0, every migration is applied, reverted and
   * applied again before the next one.
   */
  lemma ZigZag(mm: MockMigrator, l: Loader, ms: seq<Migration>)
    requires |ms| == 5 && Sequential(ms)
    ensures var c := TestConfig(mm, l, ModeApplyAll).(disableTx := true, zigZag := true);
      && RunSpec(c, NoHooks, Ok(ms), []).0 == Done
      && RunSpec(c, NoHooks, Ok(ms), []).1.log ==
        ["lockdb", "init", "getversion"]
        + ZigZagUp(1, ms[0], true) + ZigZagUp(2, ms[1], true) + ZigZagUp(3, ms[2], true)
        + ZigZagUp(4, ms[3], true) + ZigZagUp(5, ms[4], true)
        + ["unlockdb"]
  {
    var c := TestConfig(mm, l, ModeApplyAll).(disableTx := true, zigZag := true);
    NoHooksReliable();
    CleanRunLog(c, NoHooks, ms, 0, 5);
    var pre := ["lockdb", "init", "getversion"];
    assert pre + StepLines(Walk(ms, 0, 5, true, true)) + [] == pre + StepLines(Walk(ms, 0, 5, true, true));
    ZigZagLines(ms, true, pre, ["unlockdb"]);
  }

  /** TestBeforeAfterStep's callbacks: each appends its tag and the formatted step. */
  function Tagged(tag: string): StepCallback
  {
    (s: Step) => [tag, FormatStep(s)]
  }

  /** TestBeforeAfterStep's lines for one step: the before-callback's, DoStep's, the after-callback's. */
  function Around(v: int, query: string, notx: bool): seq<string>
  {
    ["before", FormatStep(Step(v, query, notx))] + Logged(v, query, notx) + ["after", FormatStep(Step(v, query, notx))]
  }

  /** With TestBeforeAfterStep's callbacks a step writes Around's lines. */
  lemma AroundStep(c: Config, s: Step)
    requires c.beforeStep == Some(Tagged("before")) && c.afterStep == Some(Tagged("after"))
    ensures Callback(c.beforeStep)(s) + [StepTag, FormatStep(s)] + Callback(c.afterStep)(s)
      == Around(s.version, s.query, s.disableTx)
  {
    assert Callback(c.beforeStep)(s) == ["before", FormatStep(s)];
    assert Callback(c.afterStep)(s) == ["after", FormatStep(s)];
  }

  /**
   * TestBeforeAfterStep: from version 3, migrations 4 and 5 are applied,
   * each between the lines of the before- and the after-callback.
   */
  lemma BeforeAfterStep(mm: MockMigrator, l: Loader, ms: seq<Migration>)
    requires |ms| == 5 && Sequential(ms)
    ensures var c := TestConfig(mm, l, ModeApplyAll).(beforeStep := Some(Tagged("before")), afterStep := Some(Tagged("after")));
      var h := NoHooks.(version := Some(AtVersion(3)));
      && RunSpec(c, h, Ok(ms), []).0 == Done
      && RunSpec(c, h, Ok(ms), []).1.log ==
        ["lockdb", "init", "getversion"] + Around(4, ms[3].apply, false) + Around(5, ms[4].apply, false) + ["unlockdb"]
  {
    var c := TestConfig(mm, l, ModeApplyAll).(beforeStep := Some(Tagged("before")), afterStep := Some(Tagged("after")));
    var h := NoHooks.(version := Some(AtVersion(3)));
    var plan := Plan(ModeApplyAll, 3, 5, ms, false, false);
    ValidateIdempotent(ms);
    AtVersionReliable(3);
    ReliableRunLogWith(c, h, Ok(ms), [], 3, 5);
    AroundFromThree(c, ms, plan);
    var r := RoundLines(c, plan);
    assert [] + ([LockTag] + [InitTag, VersionTag] + r + [] + [UnlockTag]) == ["lockdb", "init", "getversion"] + r + ["unlockdb"];
  }

  /** TestBeforeAfterStep's steps from version 3: migrations 4 and 5, each between its callbacks' lines. */
  lemma AroundFromThree(c: Config, ms: seq<Migration>, plan: seq<Step>)
    requires |ms| == 5 && Sequential(ms)
    requires c.beforeStep == Some(Tagged("before")) && c.afterStep == Some(Tagged("after"))
    requires plan == Plan(ModeApplyAll, 3, 5, ms, false, false)
    ensures RoundLines(c, plan) == Around(4, ms[3].apply, false) + Around(5, ms[4].apply, false)
  {
    PlanUp(ModeApplyAll, 3, 5, ms, false);
    AroundStep(c, plan[0]);
    AroundStep(c, plan[1]);
    assert plan[1..][1..] == [];
    assert RoundLines(c, plan[1..]) == Around(5, ms[4].apply, false) + [];
  }

  /**
   * TestFailOnUnlockDB: from version 4 migration 5 is applied, then the
   * unlock fails, and its error is what the run returns.
   */
  lemma FailOnUnlockDB(mm: MockMigrator, l: Loader, ms: seq<Migration>)
    requires |ms| == 5 && Sequential(ms)
    ensures var h := NoHooks.(unlockDB := Some(NoAccess), version := Some(AtVersion(4)));
      && RunSpec(TestConfig(mm, l, ModeApplyAll), h, Ok(ms), []).0 == Failed(UnlockFailed("no access"))
      && RunSpec(TestConfig(mm, l, ModeApplyAll), h, Ok(ms), []).1.log ==
        ["lockdb", "init", "getversion"] + Logged(5, ms[4].apply, false) + ["unlockdb"]
  {
    var c := TestConfig(mm, l, ModeApplyAll);
    var h := NoHooks.(unlockDB := Some(NoAccess), version := Some(AtVersion(4)));
    var plan := Plan(ModeApplyAll, 4, 5, ms, false, false);
    ValidateIdempotent(ms);
    UnlockDecidesCleanRun(c, h, Ok(ms), [], 4, 5);
    CleanTraceLog(c, h, Ok(ms), [], plan);
    LastStepLines(c, ms, plan);
  }

  /** The lines of a clean run from version 4: the lock lines around migration 5's step. */
  lemma LastStepLines(c: Config, ms: seq<Migration>, plan: seq<Step>)
    requires |ms| == 5 && Sequential(ms)
    requires !c.noDatabaseLock && c.mode == ModeApplyAll
    requires plan == Plan(ModeApplyAll, 4, 5, ms, false, false)
    ensures [] + CleanLines(c, plan) == ["lockdb", "init", "getversion"] + Logged(5, ms[4].apply, false) + ["unlockdb"]
  {
    CleanLinesLocked(c, plan, []);
    PlanUp(ModeApplyAll, 4, 5, ms, false);
    OneLine([] + [LockTag, InitTag, VersionTag], plan, [] + [UnlockTag]);
    assert [] + [LockTag, InitTag, VersionTag] == ["lockdb", "init", "getversion"];
  }

  /** A DoStepFn that always fails with `msg`. */
  function Refuse(msg: string): StepHook
  {
    (log: seq<string>, s: Step) => Fail(msg)
  }

  /**
   * TestFailOnDoStepError, and TestTimeout, whose DoStep fails with the
   * deadline's error: the first step's error is returned after unlocking,
   * and no later step runs.
   */
  lemma FailOnDoStepError(mm: MockMigrator, l: Loader, ms: seq<Migration>, msg: string)
    requires |ms| == 5 && Sequential(ms)
    ensures var h := NoHooks.(doStep := Some(Refuse(msg)));
      && RunSpec(TestConfig(mm, l, ModeApplyAll), h, Ok(ms), []).0 == Failed(MigratorFailed(msg))
      && RunSpec(TestConfig(mm, l, ModeApplyAll), h, Ok(ms), []).1.log ==
        ["lockdb", "init", "getversion"] + Logged(1, ms[0].apply, false) + ["unlockdb"]
  {
    var c := TestConfig(mm, l, ModeApplyAll);
    var h := NoHooks.(doStep := Some(Refuse(msg)));
    ValidateIdempotent(ms);
    var s1 := St(["lockdb"], [LockCall]);
    assert [] + [LockTag] == ["lockdb"] && [] + [LockCall] == [LockCall];
    assert Emit(c, St([], []), LockCall) == s1;
    assert LockPhase(c, h, St([], [])) == (None, s1);
    var s2 := Emit(c, s1, InitCall);
    FirstStepRefused(mm, l, ms, msg, s2);
    var s4 := LockedPhase(c, h, ms, s2).1;
    assert BeforeUnlock(c, h, ms, s1) == (Failed(MigratorFailed(msg)), s4);
  }

  /** A refused first step ends the locked phase with that step's error and its lines. */
  lemma FirstStepRefused(mm: MockMigrator, l: Loader, ms: seq<Migration>, msg: string, s2: St)
    requires |ms| == 5 && Sequential(ms)
    requires s2.log == ["lockdb", "init"]
    ensures var (r, s4) := LockedPhase(TestConfig(mm, l, ModeApplyAll), NoHooks.(doStep := Some(Refuse(msg))), ms, s2);
      r == Failed(MigratorFailed(msg)) && s4.log == ["lockdb", "init", "getversion"] + Logged(1, ms[0].apply, false)
  {
    var c := TestConfig(mm, l, ModeApplyAll);
    var h := NoHooks.(doStep := Some(Refuse(msg)));
    var s3 := Emit(c, s2, VersionCall);
    assert s3.log == ["lockdb", "init", "getversion"];
    var plan := Plan(ModeApplyAll, 0, 5, ms, false, false);
    PlanUp(ModeApplyAll, 0, 5, ms, false);
    var p0 := plan[0];
    var sb := Emit(c, s3, BeforeCall(p0));
    assert sb.log == s3.log;
    var s4 := Emit(c, sb, StepCall(p0));
    assert s4.log == ["lockdb", "init", "getversion"] + Logged(1, ms[0].apply, false);
    assert StepRound(c, h, p0, s3) == (Fail(msg), s4);
    assert StepLoop(c, h, plan, s3) == (Fail(msg), s4);
  }

  /**
   * TestRunCheck: no migrator, no loader, no mode, or a mode past the last
   * one, and Run fails before it calls anything.
   */
  lemma RunCheck(mm: MockMigrator, l: Loader, h: Hooks, loaded: Result<seq<Migration>, string>)
    ensures RunSpec(Config(None, None, ModeNotSet, 0, false, false, false, false, None, None), h, loaded, [])
      == (Failed(MigratorNil), St([], []))
    ensures RunSpec(Config(Some(mm), None, ModeNotSet, 0, false, false, false, false, None, None), h, loaded, [])
      == (Failed(LoaderNil), St([], []))
    ensures RunSpec(TestConfig(mm, l, ModeNotSet), h, loaded, []) == (Failed(ModeNotSetError), St([], []))
    ensures RunSpec(TestConfig(mm, l, ModeMaxPossible + 1), h, loaded, [])
      == (Failed(IncorrectMode(ModeMaxPossible + 1)), St([], []))
  {
  }

  /** TestFailOnLoad: the loader's error fails the run before any migrator call. */
  lemma FailOnLoad(mm: MockMigrator, l: Loader, h: Hooks)
    ensures RunSpec(TestConfig(mm, l, ModeApplyAll), h, Err("forgot to commit"), [])
      == (Failed(LoadFailed(LoaderFailed("forgot to commit"))), St([], []))
  {
  }

  /** A migration of Test_loadMigrations: an id and a name, no queries. */
  function Bare(id: int, name: string): Migration
  {
    Migration(id, name, "", "")
  }

  /**
   * Test_loadMigrations: [2, 1] loads sorted as [1, 2]; [3, 1] misses
   * number 2; two migrations numbered 2 are a duplicate. The stable sort
   * keeps "mig2" before "mig2fix", so the check stops at "mig2fix", the
   * second one, and names it. The test's expected message names "mig2"
   * (dbump_test.go:545), but the test compares only whether an error
   * came back (dbump_test.go:555), so the two agree.
   */
  lemma LoadMigrations()
    ensures Validate(Ok([Bare(2, ""), Bare(1, "")])) == Ok([Bare(1, ""), Bare(2, "")])
    ensures Validate(Ok([Bare(3, ""), Bare(1, "")])) == Err(Missing(2, 3))
    ensures Validate(Ok([Bare(2, "mig2"), Bare(2, "mig2fix"), Bare(1, "")])) == Err(Duplicate(2, "mig2fix"))
  {
    var ok := [Bare(1, ""), Bare(2, "")];
    assert SortById([Bare(2, ""), Bare(1, "")]) == ok;
    assert SortById([Bare(3, ""), Bare(1, "")]) == [Bare(1, ""), Bare(3, "")];
    var a, b, one := Bare(2, "mig2"), Bare(2, "mig2fix"), Bare(1, "");
    assert [a, b, one][..2] == [a, b] && [a, b][..1] == [a];
    assert SortById([a, b]) == [a, b] by {
      assert SortById([a]) == [a] by { assert [a][..0] == []; }
      assert InsertPos([a], b.id) == 1;
    }
    assert InsertPos([a, b], 1) == 0 by {
      assert [a, b][..1] == [a] && [a][..0] == [];
    }
    assert SortById([a, b, one]) == [one, a, b];
  }

  /** TestSliceLoader's comparison: as many migrations as `want`, equal one by one. */
  predicate SliceLoaderCheck(migs: seq<Migration>, want: seq<Migration>)
  {
    |migs| == |want| && forall i :: 0 <= i < |migs| ==> migs[i] == want[i]
  }

  /**
   * TestSliceLoader as written: the loader holds the first two test
   * migrations plus the third, and the test compares that with all five,
   * so its check fails.
   */
  method SliceLoaderTestAsWritten() returns (passes: bool)
    ensures !passes
  {
    var loader := new SliceLoader(TestData[..2]);
    loader.AddMigration(TestData[2]);
    var migs := loader.Load();
    passes := migs.Ok? && SliceLoaderCheck(migs.value, TestData);
  }

  /**
   * TestSliceLoader with the expectation it evidently intends: Load gives
   * back the three migrations, in order, and the check passes.
   */
  method SliceLoaderTest() returns (migs: Result<seq<Migration>, string>, passes: bool)
    ensures migs == Ok(TestData[..3])
    ensures passes
  {
    var loader := new SliceLoader(TestData[..2]);
    loader.AddMigration(TestData[2]);
    migs := loader.Load();
    assert TestData[..2] + [TestData[2]] == TestData[..3];
    passes := migs.Ok? && SliceLoaderCheck(migs.value, TestData[..3]);
  }
}
