/**
 * tests/mocks.go: MockMigrator, the Migrator that writes every call it gets
 * into an append-only log and answers through optional hooks.
 */
module Mocks {
  import opened Wrappers
  import opened Migrations
  import opened Text

  /**
   * A hook of the mock. In Go it is a closure that may keep state of its own;
   * here it sees the log the mock has written so far, which is the state the
   * closures of the tests consult.
   */
  type ErrHook = seq<string> -> Outcome<string>
  type VersionHook = seq<string> -> Result<int, string>
  type StepHook = (seq<string>, Step) -> Outcome<string>

  /** The methods of a Migrator the mock can wrap. */
  datatype Backend = Backend(
    lockDB: ErrHook, unlockDB: ErrHook, init: ErrHook, drop: ErrHook,
    version: VersionHook, doStep: StepHook)

  /** The six hook fields of a MockMigrator, as one value. */
  datatype Hooks = Hooks(
    lockDB: Option<ErrHook>, unlockDB: Option<ErrHook>, init: Option<ErrHook>,
    drop: Option<ErrHook>, version: Option<VersionHook>, doStep: Option<StepHook>)

  /** The hooks of a mock created without a migrator to wrap. */
  const NoHooks: Hooks := Hooks(None, None, None, None, None, None)

  // The tags the mock logs.
  const LockTag: string := "lockdb"
  const UnlockTag: string := "unlockdb"
  const InitTag: string := "init"
  const DropTag: string := "drop"
  const VersionTag: string := "getversion"
  const StepTag: string := "dostep"

  /** A nil hook succeeds; a set hook answers for the method. */
  function Fire(h: Option<ErrHook>, log: seq<string>): Outcome<string>
  {
    match h
    case None => Pass
    case Some(f) => f(log)
  }

  /** A nil Version hook reports version 0. */
  function FireVersion(h: Option<VersionHook>, log: seq<string>): Result<int, string>
  {
    match h
    case None => Ok(0)
    case Some(f) => f(log)
  }

  function FireStep(h: Option<StepHook>, log: seq<string>, step: Step): Outcome<string>
  {
    match h
    case None => Pass
    case Some(f) => f(log, step)
  }

  function BoolText(b: bool): string
  {
    if b then "true" else "false"
  }

  /** `mockDoStepFmt`, `{v:%d q:'%s' notx:%v}`, applied to a step. */
  function FormatStep(s: Step): string
  {
    "{v:" + IntToDecimal(s.version) + " q:'" + s.query + "' notx:" + BoolText(s.disableTx) + "}"
  }

  /** `%d` never prints a space. */
  lemma DecimalHasNoSpace(v: int)
    ensures forall k :: 0 <= k < |IntToDecimal(v)| ==> IntToDecimal(v)[k] != ' '
  {
    if v < 0 {
      var d := NatToDecimal(-v);
      assert forall k :: 1 <= k < |IntToDecimal(v)| ==> IntToDecimal(v)[k] == d[k - 1];
    }
  }

  /** The formatted step, cut where the query ends. */
  lemma FormatStepParts(s: Step)
    ensures var f, tail := FormatStep(s), "' notx:" + BoolText(s.disableTx) + "}";
      && |f| >= |tail| + 3
      && f[|f| - |tail|..] == tail
      && f[|f| - 5] == (if s.disableTx then 't' else 'a')
      && f[3..|f| - |tail|] == IntToDecimal(s.version) + " q:'" + s.query
  {
    var mid := IntToDecimal(s.version) + " q:'" + s.query;
    var tail := "' notx:" + BoolText(s.disableTx) + "}";
    var f := FormatStep(s);
    assert f == "{v:" + mid + tail;
    assert f[|f| - |tail|..] == tail;
    assert f[3..|f| - |tail|] == mid;
    assert f[|f| - 5] == tail[|tail| - 5];
  }

  /** A space-free head is recovered from head + " q:'" + rest. */
  lemma SplitAtSpace(da: string, qa: string, db: string, qb: string)
    requires forall k :: 0 <= k < |da| ==> da[k] != ' '
    requires forall k :: 0 <= k < |db| ==> db[k] != ' '
    requires da + " q:'" + qa == db + " q:'" + qb
    ensures da == db && qa == qb
  {
    var y := da + " q:'" + qa;
    assert y[|da|] == ' ';
    assert y[|db|] == ' ';
    assert forall k :: 0 <= k < |da| ==> y[k] == da[k];
    assert forall k :: 0 <= k < |db| ==> y[k] == db[k];
    assert |da| == |db|;
    assert da == y[..|da|] == db;
    assert qa == y[|da| + 4..] == qb;
  }

  /**
   * Two different steps never log alike: the logged line gives back the
   * version, the query and the transaction flag.
   */
  lemma FormatStepInjective(a: Step, b: Step)
    requires FormatStep(a) == FormatStep(b)
    ensures a == b
  {
    FormatStepParts(a);
    FormatStepParts(b);
    assert a.disableTx == b.disableTx;
    var f := FormatStep(a);
    var tail := "' notx:" + BoolText(a.disableTx) + "}";
    var da, db := IntToDecimal(a.version), IntToDecimal(b.version);
    assert da + " q:'" + a.query == f[3..|f| - |tail|] == db + " q:'" + b.query;
    DecimalHasNoSpace(a.version);
    DecimalHasNoSpace(b.version);
    SplitAtSpace(da, a.query, db, b.query);
    IntToDecimalInjective(a.version, b.version);
  }

  /** The recording mock. */
  class MockMigrator {
    var log: seq<string>

    var lockDBFn: Option<ErrHook>
    var unlockDBFn: Option<ErrHook>
    var initFn: Option<ErrHook>
    var dropFn: Option<ErrHook>
    var versionFn: Option<VersionHook>
    var doStepFn: Option<StepHook>

    /** `NewMockMigrator`: no hooks for nil, else every hook delegates to `m`. */
    constructor (m: Option<Backend>)
      ensures log == []
      ensures m.None? ==> Current() == NoHooks
      ensures m.Some? ==> Current() == Hooks(Some(m.value.lockDB), Some(m.value.unlockDB), Some(m.value.init),
                                             Some(m.value.drop), Some(m.value.version), Some(m.value.doStep))
    {
      log := [];
      if m.None? {
        lockDBFn, unlockDBFn, initFn, dropFn, versionFn, doStepFn := None, None, None, None, None, None;
      } else {
        var b := m.value;
        lockDBFn, unlockDBFn, initFn, dropFn := Some(b.lockDB), Some(b.unlockDB), Some(b.init), Some(b.drop);
        versionFn, doStepFn := Some(b.version), Some(b.doStep);
      }
    }

    /** The hook fields as they are now. */
    function Current(): Hooks
      reads this
    {
      Hooks(lockDBFn, unlockDBFn, initFn, dropFn, versionFn, doStepFn)
    }

    /** `Log`: everything written so far. */
    method Log() returns (r: seq<string>)
      ensures r == log
    {
      return log;
    }

    /** `LogAdd`: append the lines in order. */
    method LogAdd(s: seq<string>)
      modifies this`log
      ensures log == old(log) + s
    {
      log := log + s;
    }

    method LockDB() returns (err: Outcome<string>)
      modifies this`log
      ensures log == old(log) + [LockTag]
      ensures err == Fire(lockDBFn, log)
    {
      log := log + [LockTag];
      if lockDBFn.None? {
        return Pass;
      }
      err := lockDBFn.value(log);
    }

    method UnlockDB() returns (err: Outcome<string>)
      modifies this`log
      ensures log == old(log) + [UnlockTag]
      ensures err == Fire(unlockDBFn, log)
    {
      log := log + [UnlockTag];
      if unlockDBFn.None? {
        return Pass;
      }
      err := unlockDBFn.value(log);
    }

    method Init() returns (err: Outcome<string>)
      modifies this`log
      ensures log == old(log) + [InitTag]
      ensures err == Fire(initFn, log)
    {
      log := log + [InitTag];
      if initFn.None? {
        return Pass;
      }
      err := initFn.value(log);
    }

    method Drop() returns (err: Outcome<string>)
      modifies this`log
      ensures log == old(log) + [DropTag]
      ensures err == Fire(dropFn, log)
    {
      log := log + [DropTag];
      if dropFn.None? {
        return Pass;
      }
      err := dropFn.value(log);
    }

    method Version() returns (r: Result<int, string>)
      modifies this`log
      ensures log == old(log) + [VersionTag]
      ensures r == FireVersion(versionFn, log)
    {
      log := log + [VersionTag];
      if versionFn.None? {
        return Ok(0);
      }
      r := versionFn.value(log);
    }

    /** `DoStep` writes two lines: the tag, then the formatted step. */
    method DoStep(step: Step) returns (err: Outcome<string>)
      modifies this`log
      ensures log == old(log) + [StepTag, FormatStep(step)]
      ensures err == FireStep(doStepFn, log, step)
    {
      log := log + [StepTag, FormatStep(step)];
      if doStepFn.None? {
        return Pass;
      }
      err := doStepFn.value(log, step);
    }
  }
}
