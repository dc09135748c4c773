/**
 * `Run` and the `mig` methods of dbump.go that drive a Migrator: the config
 * check, the load, the lock protocol, init, the version read and the plan,
 * the step loop with its callbacks, Drop, and the deferred unlock.
 *
 * The Migrator is the recording MockMigrator of tests/mocks.go. Every spec
 * function threads an `St`: the mock's log, and (as a record for the proofs)
 * the calls made so far.
 */
module Driver {
  import opened Wrappers
  import opened Migrations
  import opened Text
  import opened Validator
  import opened Planner
  import opened Loaders
  import opened Mocks

  /** Config.BeforeStep / Config.AfterStep: what the callback writes into the mock's log. */
  type StepCallback = Step -> seq<string>

  /** `Config`, without Timeout. */
  datatype Config = Config(
    migrator: Option<MockMigrator>,
    loader: Option<Loader>,
    mode: Mode,
    num: int,
    noDatabaseLock: bool,
    disableTx: bool,
    useForce: bool,
    zigZag: bool,
    beforeStep: Option<StepCallback>,
    afterStep: Option<StepCallback>)

  /** The errors Run returns. */
  datatype RunError =
    | MigratorNil                        // "migrator cannot be nil"
    | LoaderNil                          // "loader cannot be nil"
    | ModeNotSetError                    // "mode not set"
    | IncorrectMode(mode: int)           // "incorrect mode provided: %d"
    | NumNotPositive(num: int)           // "num must be greater than 0: %d"
    | LoadFailed(cause: LoadError)       // "load: %w"
    | LockFailed(msg: string)            // "lock db: %w"
    | ForceUnlockFailed(msg: string)     // "force unlock db: %w"
    | ForceLockFailed(msg: string)       // "force lock db: %w"
    | InitFailed(msg: string)            // "init: %w"
    | VersionFailed(msg: string)         // "get version: %w"
    | OutOfBounds(bounds: BoundsError)
    | MigratorFailed(msg: string)        // a DoStep or Drop error, returned as it is
    | UnlockFailed(msg: string)          // "unlock db: %w"

  /** The two panics a run can raise. */
  datatype Panic =
    | Unreachable          // the default of the mode switch
    | IndexOutOfRange      // prepareSteps indexing outside the migrations

  /** How Run ends: nil, an error, or a panic (which still runs the deferred unlock). */
  datatype RunResult = Done | Failed(error: RunError) | Panicked(panic: Panic)

  /** A call the run makes: to the migrator, or to one of the step callbacks. */
  datatype Call =
    | LockCall | UnlockCall | InitCall | DropCall | VersionCall
    | StepCall(step: Step) | BeforeCall(step: Step) | AfterCall(step: Step)

  /** Run's defaulting of a nil callback to a no-op. */
  function Callback(cb: Option<StepCallback>): StepCallback
  {
    if cb.Some? then cb.value else (s: Step) => []
  }

  /** The lines a call writes into the mock's log. */
  function Lines(c: Config, call: Call): seq<string>
  {
    match call
    case LockCall => [LockTag]
    case UnlockCall => [UnlockTag]
    case InitCall => [InitTag]
    case DropCall => [DropTag]
    case VersionCall => [VersionTag]
    case StepCall(s) => [StepTag, FormatStep(s)]
    case BeforeCall(s) => Callback(c.beforeStep)(s)
    case AfterCall(s) => Callback(c.afterStep)(s)
  }

  /** The log a sequence of calls writes. */
  function Render(c: Config, trace: seq<Call>): seq<string>
  {
    if trace == [] then [] else Render(c, trace[..|trace| - 1]) + Lines(c, trace[|trace| - 1])
  }

  /** The state a run threads through the migrator: its log and the calls made. */
  datatype St = St(log: seq<string>, trace: seq<Call>)

  function Emit(c: Config, st: St, call: Call): St
  {
    St(st.log + Lines(c, call), st.trace + [call])
  }

  // ---------------------------------------------------------------------------
  // The migrator's answers (tests/mocks.go) on the threaded state

  function CallLockDB(c: Config, h: Hooks, st: St): (Outcome<string>, St)
  {
    var s := Emit(c, st, LockCall);
    (Fire(h.lockDB, s.log), s)
  }

  function CallUnlockDB(c: Config, h: Hooks, st: St): (Outcome<string>, St)
  {
    var s := Emit(c, st, UnlockCall);
    (Fire(h.unlockDB, s.log), s)
  }

  function CallInit(c: Config, h: Hooks, st: St): (Outcome<string>, St)
  {
    var s := Emit(c, st, InitCall);
    (Fire(h.init, s.log), s)
  }

  function CallDrop(c: Config, h: Hooks, st: St): (Outcome<string>, St)
  {
    var s := Emit(c, st, DropCall);
    (Fire(h.drop, s.log), s)
  }

  function CallVersion(c: Config, h: Hooks, st: St): (Result<int, string>, St)
  {
    var s := Emit(c, st, VersionCall);
    (FireVersion(h.version, s.log), s)
  }

  function CallDoStep(c: Config, h: Hooks, st: St, step: Step): (Outcome<string>, St)
  {
    var s := Emit(c, st, StepCall(step));
    (FireStep(h.doStep, s.log, step), s)
  }

  // ---------------------------------------------------------------------------
  // The run, as functions

  /**
   * The `switch` at the top of Run: the first failing check, in source order.
   * A negative mode passes every check.
   */
  function ConfigError(c: Config): (r: Option<RunError>)
    ensures r == Some(MigratorNil) <==> c.migrator.None?
    ensures r == Some(LoaderNil) <==> c.migrator.Some? && c.loader.None?
    ensures r == Some(ModeNotSetError) <==> c.migrator.Some? && c.loader.Some? && c.mode == ModeNotSet
    ensures r.Some? && r.value.IncorrectMode? <==>
      c.migrator.Some? && c.loader.Some? && c.mode >= ModeMaxPossible
    ensures r.Some? && r.value.NumNotPositive? <==>
      (c.migrator.Some? && c.loader.Some? && c.mode != ModeNotSet && c.mode < ModeMaxPossible
       && c.num <= 0 && (c.mode == ModeApplyN || c.mode == ModeRevertN))
    ensures r.None? ==> c.migrator.Some? && c.loader.Some? && (KnownMode(c.mode) || c.mode < 0)
  {
    if c.migrator.None? then Some(MigratorNil)
    else if c.loader.None? then Some(LoaderNil)
    else if c.mode == ModeNotSet then Some(ModeNotSetError)
    else if c.mode >= ModeMaxPossible then Some(IncorrectMode(c.mode))
    else if c.num <= 0 && (c.mode == ModeApplyN || c.mode == ModeRevertN) then Some(NumNotPositive(c.num))
    else None
  }

  /** `mig.lockDB`: lock, or with UseForce unlock and lock again. */
  function LockPhase(c: Config, h: Hooks, st: St): (Option<RunError>, St)
  {
    if c.noDatabaseLock then (None, st)
    else
      var (e1, s1) := CallLockDB(c, h, st);
      if e1.Pass? then (None, s1)
      else if !c.useForce then (Some(LockFailed(e1.error)), s1)
      else
        var (e2, s2) := CallUnlockDB(c, h, s1);
        if e2.Fail? then (Some(ForceUnlockFailed(e2.error)), s2)
        else
          var (e3, s3) := CallLockDB(c, h, s2);
          if e3.Fail? then (Some(ForceLockFailed(e3.error)), s3) else (None, s3)
  }

  /** `mig.unlockDB`. */
  function UnlockPhase(c: Config, h: Hooks, st: St): (Outcome<string>, St)
  {
    if c.noDatabaseLock then (Pass, st) else CallUnlockDB(c, h, st)
  }

  /** The step loop of runMigrationsLocked: before-callback, DoStep, after-callback. */
  function StepLoop(c: Config, h: Hooks, steps: seq<Step>, st: St): (Outcome<string>, St)
  {
    if steps == [] then (Pass, st)
    else
      var (e, s) := StepRound(c, h, steps[0], st);
      if e.Fail? then (e, s) else StepLoop(c, h, steps[1..], s)
  }

  /** One round of the step loop: before-callback, DoStep, and after a success the after-callback. */
  function StepRound(c: Config, h: Hooks, step: Step, st: St): (Outcome<string>, St)
  {
    var s1 := Emit(c, st, BeforeCall(step));
    var (e, s2) := CallDoStep(c, h, s1, step);
    if e.Fail? then (e, s2) else (e, Emit(c, s2, AfterCall(step)))
  }

  /** `runMigrationsLocked`, with the panics of getCurrAndTargetVersions and prepareSteps. */
  function LockedPhase(c: Config, h: Hooks, ms: seq<Migration>, st: St): (RunResult, St)
  {
    var (v, s1) := CallVersion(c, h, st);
    if v.Err? then (Failed(VersionFailed(v.error)), s1)
    else if !KnownMode(c.mode) then (Panicked(Unreachable), s1)
    else
      match Target(c.mode, c.num, v.value, |ms|)
      case Err(b) => (Failed(OutOfBounds(b)), s1)
      case Ok(target) =>
        if !StepsDefined(c.mode, v.value, target, |ms|) then (Panicked(IndexOutOfRange), s1)
        else
          var (e, s2) := StepLoop(c, h, Plan(c.mode, v.value, target, ms, c.zigZag, c.disableTx), s1);
          (if e.Fail? then Failed(MigratorFailed(e.error)) else Done, s2)
  }

  /** In ModeDrop, `err = m.Drop(ctx)` replaces whatever runMigrationsLocked returned. */
  function DropPhase(c: Config, h: Hooks, r: RunResult, st: St): (RunResult, St)
  {
    if r.Panicked? || c.mode != ModeDrop then (r, st)
    else
      var (e, s) := CallDrop(c, h, st);
      (if e.Fail? then Failed(MigratorFailed(e.error)) else Done, s)
  }

  /** The deferred unlock: its error is returned only when nothing failed before. */
  function DeferredUnlock(c: Config, h: Hooks, r: RunResult, st: St): (RunResult, St)
  {
    var (e, s) := UnlockPhase(c, h, st);
    (if r.Done? && e.Fail? then Failed(UnlockFailed(e.error)) else r, s)
  }

  /** `runMigrations` after a successful lockDB, up to the deferred unlock. */
  function BeforeUnlock(c: Config, h: Hooks, ms: seq<Migration>, st: St): (RunResult, St)
  {
    var (ei, s1) := CallInit(c, h, st);
    if ei.Fail? then (Failed(InitFailed(ei.error)), s1)
    else
      var (r, s2) := LockedPhase(c, h, ms, s1);
      DropPhase(c, h, r, s2)
  }

  /** `runMigrations` after a successful lockDB. */
  function Session(c: Config, h: Hooks, ms: seq<Migration>, st: St): (RunResult, St)
  {
    var (r, s) := BeforeUnlock(c, h, ms, st);
    DeferredUnlock(c, h, r, s)
  }

  /** `runMigrations`. */
  function RunMigrationsSpec(c: Config, h: Hooks, ms: seq<Migration>, st: St): (RunResult, St)
  {
    var (le, s1) := LockPhase(c, h, st);
    if le.Some? then (Failed(le.value), s1) else Session(c, h, ms, s1)
  }

  /** `Run`, for the hooks of the migrator, what the loader returns and the log so far. */
  function RunSpec(c: Config, h: Hooks, loaded: Result<seq<Migration>, string>, log0: seq<string>): (RunResult, St)
  {
    match ConfigError(c)
    case Some(e) => (Failed(e), St(log0, []))
    case None =>
      match Validate(loaded)
      case Err(le) => (Failed(LoadFailed(le)), St(log0, []))
      case Ok(ms) => RunMigrationsSpec(c, h, ms, St(log0, []))
  }

  // ---------------------------------------------------------------------------
  // The run, as the source performs it

  function MigratorFrame(c: Config): set<object>
  {
    if c.migrator.Some? then {c.migrator.value} else {}
  }

  function LoaderFrame(c: Config): set<object>
  {
    if c.loader.Some? && c.loader.value.Slice? then {c.loader.value.sl} else {}
  }

  /** What the configured loader returns (nothing when there is none). */
  function LoadedBy(l: Option<Loader>): Result<seq<Migration>, string>
    reads if l.Some? && l.value.Slice? then {l.value.sl} else {}
  {
    if l.Some? then Loaded(l.value) else Ok([])
  }

  /**
   * `mig.load`. The stable sort works in place on the slice the loader
   * returned, so a SliceLoader is left holding its migrations sorted.
   */
  method LoadSorted(l: Loader) returns (r: Result<seq<Migration>, LoadError>)
    modifies if l.Slice? then {l.sl} else {}
    ensures r == Validate(old(Loaded(l)))
    ensures l.Slice? ==> l.sl.migrations == SortById(old(l.sl.migrations))
  {
    var ms := Load(l);
    if ms.Err? {
      return Err(LoaderFailed(ms.error));
    }
    var s := ms.value;
    var a := new Migration[|s|](i requires 0 <= i < |s| => s[i]);
    assert a[..] == s;
    SortStable(a);
    if l.Slice? {
      l.sl.migrations := a[..];
    }
    r := CheckPositions(a);
  }

  /** `mig.lockDB`. */
  method LockDB(c: Config, mm: MockMigrator, ghost st: St) returns (err: Option<RunError>, ghost st': St)
    requires st.log == mm.log
    modifies mm`log
    ensures st'.log == mm.log
    ensures (err, st') == LockPhase(c, mm.Current(), st)
  {
    st' := st;
    if c.noDatabaseLock {
      return None, st';
    }
    var e := mm.LockDB();
    st' := Emit(c, st', LockCall);
    if e.Fail? {
      if !c.useForce {
        return Some(LockFailed(e.error)), st';
      }
      e := mm.UnlockDB();
      st' := Emit(c, st', UnlockCall);
      if e.Fail? {
        return Some(ForceUnlockFailed(e.error)), st';
      }
      e := mm.LockDB();
      st' := Emit(c, st', LockCall);
      if e.Fail? {
        return Some(ForceLockFailed(e.error)), st';
      }
    }
    return None, st';
  }

  /** `mig.unlockDB`. */
  method UnlockDB(c: Config, mm: MockMigrator, ghost st: St) returns (err: Outcome<string>, ghost st': St)
    requires st.log == mm.log
    modifies mm`log
    ensures st'.log == mm.log
    ensures (err, st') == UnlockPhase(c, mm.Current(), st)
  {
    st' := st;
    if c.noDatabaseLock {
      return Pass, st';
    }
    err := mm.UnlockDB();
    st' := Emit(c, st', UnlockCall);
  }

  /** `mig.runMigrationsLocked`, with the version read and target of getCurrAndTargetVersions. */
  method RunMigrationsLocked(c: Config, mm: MockMigrator, ms: seq<Migration>, ghost st: St)
    returns (r: RunResult, ghost st': St)
    requires st.log == mm.log
    modifies mm`log
    ensures st'.log == mm.log
    ensures (r, st') == LockedPhase(c, mm.Current(), ms, st)
  {
    var v := mm.Version();
    st' := Emit(c, st, VersionCall);
    if v.Err? {
      return Failed(VersionFailed(v.error)), st';
    }
    if !KnownMode(c.mode) {
      return Panicked(Unreachable), st';
    }
    var curr := v.value;
    var target := Target(c.mode, c.num, curr, |ms|);
    if target.Err? {
      return Failed(OutOfBounds(target.error)), st';
    }
    if !StepsDefined(c.mode, curr, target.value, |ms|) {
      return Panicked(IndexOutOfRange), st';
    }
    var steps := PrepareSteps(c.mode, curr, target.value, ms, c.zigZag, c.disableTx);
    var e;
    e, st' := RunSteps(c, mm, steps, st');
    r := if e.Fail? then Failed(MigratorFailed(e.error)) else Done;
  }

  /** The body of the step loop, for one step. */
  method RunStep(c: Config, mm: MockMigrator, step: Step, ghost st: St)
    returns (err: Outcome<string>, ghost st': St)
    requires st.log == mm.log
    modifies mm`log
    ensures st'.log == mm.log
    ensures mm.Current() == old(mm.Current())
    ensures (err, st') == StepRound(c, old(mm.Current()), step, st)
  {
    mm.LogAdd(Callback(c.beforeStep)(step));
    st' := Emit(c, st, BeforeCall(step));
    err := mm.DoStep(step);
    st' := Emit(c, st', StepCall(step));
    if err.Fail? {
      return err, st';
    }
    mm.LogAdd(Callback(c.afterStep)(step));
    st' := Emit(c, st', AfterCall(step));
  }

  /** The `for _, step := range ...` loop of runMigrationsLocked. */
  method RunSteps(c: Config, mm: MockMigrator, steps: seq<Step>, ghost st: St)
    returns (err: Outcome<string>, ghost st': St)
    requires st.log == mm.log
    modifies mm`log
    ensures st'.log == mm.log
    ensures (err, st') == StepLoop(c, mm.Current(), steps, st)
  {
    ghost var h := mm.Current();
    st' := st;
    var i := 0;
    assert steps[i..] == steps;
    while i < |steps|
      invariant 0 <= i <= |steps|
      invariant st'.log == mm.log
      invariant mm.Current() == h
      invariant StepLoop(c, h, steps, st) == StepLoop(c, h, steps[i..], st')
    {
      assert steps[i..][0] == steps[i] && steps[i..][1..] == steps[i + 1..];
      err, st' := RunStep(c, mm, steps[i], st');
      if err.Fail? {
        return err, st';
      }
      i := i + 1;
    }
    return Pass, st';
  }

  /** `mig.runMigrations`: lock, defer the unlock, init, run, drop. */
  method RunMigrations(c: Config, mm: MockMigrator, ms: seq<Migration>, ghost st: St)
    returns (r: RunResult, ghost st': St)
    requires st.log == mm.log
    modifies mm`log
    ensures st'.log == mm.log
    ensures (r, st') == RunMigrationsSpec(c, mm.Current(), ms, st)
  {
    var lockErr;
    lockErr, st' := LockDB(c, mm, st);
    if lockErr.Some? {
      return Failed(lockErr.value), st';
    }
    var e := mm.Init();
    st' := Emit(c, st', InitCall);
    if e.Fail? {
      r := Failed(InitFailed(e.error));
    } else {
      r, st' := RunMigrationsLocked(c, mm, ms, st');
      if !r.Panicked? && c.mode == ModeDrop {
        e := mm.Drop();
        st' := Emit(c, st', DropCall);
        r := if e.Fail? then Failed(MigratorFailed(e.error)) else Done;
      }
    }
    // the deferred unlock
    var unlockErr;
    unlockErr, st' := UnlockDB(c, mm, st');
    if r.Done? && unlockErr.Fail? {
      r := Failed(UnlockFailed(unlockErr.error));
    }
  }

  /** `Run`. */
  method Run(c: Config) returns (r: RunResult)
    modifies MigratorFrame(c), LoaderFrame(c)
    ensures c.migrator.None? ==> r == Failed(MigratorNil)
    ensures c.migrator.Some? ==>
      var mm := c.migrator.value;
      var spec := RunSpec(c, old(mm.Current()), old(LoadedBy(c.loader)), old(mm.log));
      r == spec.0 && mm.log == spec.1.log && mm.Current() == old(mm.Current())
    ensures c.loader.Some? && c.loader.value.Slice? ==>
      c.loader.value.sl.migrations ==
        if ConfigError(c).None? then SortById(old(c.loader.value.sl.migrations))
        else old(c.loader.value.sl.migrations)
  {
    var ce := ConfigError(c);
    if ce.Some? {
      return Failed(ce.value);
    }
    var mm := c.migrator.value;
    var loaded := LoadSorted(c.loader.value);
    if loaded.Err? {
      return Failed(LoadFailed(loaded.error));
    }
    ghost var st;
    r, st := RunMigrations(c, mm, loaded.value, St(mm.log, []));
  }
}
