/**
 * What a run of the driver does, call by call: the log is the calls it makes,
 * the lock protocol, the step order, Drop, and the deferred unlock.
 */
module RunProperties {
  import opened Wrappers
  import opened Migrations
  import opened Validator
  import opened Planner
  import opened Mocks
  import opened Driver

  // ---------------------------------------------------------------------------
  // The log is the calls, rendered

  /** `st.log` is `log0` followed by what the calls in `st.trace` wrote. */
  ghost predicate Renders(c: Config, log0: seq<string>, st: St)
  {
    st.log == log0 + Render(c, st.trace)
  }

  lemma EmitRenders(c: Config, log0: seq<string>, st: St, call: Call)
    requires Renders(c, log0, st)
    ensures Renders(c, log0, Emit(c, st, call))
  {
    RenderSnoc(c, st.trace, call);
    assert st.log + Lines(c, call) == log0 + (Render(c, st.trace) + Lines(c, call));
  }

  lemma RenderSnoc(c: Config, t: seq<Call>, call: Call)
    ensures Render(c, t + [call]) == Render(c, t) + Lines(c, call)
  {
    var t' := t + [call];
    assert t'[..|t'| - 1] == t;
  }

  lemma StepRoundRenders(c: Config, h: Hooks, step: Step, st: St, log0: seq<string>)
    requires Renders(c, log0, st)
    ensures Renders(c, log0, StepRound(c, h, step, st).1)
  {
    var s1 := Emit(c, st, BeforeCall(step));
    EmitRenders(c, log0, st, BeforeCall(step));
    var s2 := Emit(c, s1, StepCall(step));
    EmitRenders(c, log0, s1, StepCall(step));
    EmitRenders(c, log0, s2, AfterCall(step));
  }

  lemma {:induction false} StepLoopRenders(c: Config, h: Hooks, steps: seq<Step>, st: St, log0: seq<string>)
    requires Renders(c, log0, st)
    ensures Renders(c, log0, StepLoop(c, h, steps, st).1)
  {
    if steps != [] {
      StepRoundRenders(c, h, steps[0], st, log0);
      var (e, s) := StepRound(c, h, steps[0], st);
      if e.Pass? {
        StepLoopRenders(c, h, steps[1..], s, log0);
      }
    }
  }

  lemma LockPhaseRenders(c: Config, h: Hooks, st: St, log0: seq<string>)
    requires Renders(c, log0, st)
    ensures Renders(c, log0, LockPhase(c, h, st).1)
  {
    var s1 := Emit(c, st, LockCall);
    EmitRenders(c, log0, st, LockCall);
    var s2 := Emit(c, s1, UnlockCall);
    EmitRenders(c, log0, s1, UnlockCall);
    EmitRenders(c, log0, s2, LockCall);
  }

  lemma SessionRenders(c: Config, h: Hooks, ms: seq<Migration>, st: St, log0: seq<string>)
    requires Renders(c, log0, st)
    ensures Renders(c, log0, BeforeUnlock(c, h, ms, st).1)
    ensures Renders(c, log0, Session(c, h, ms, st).1)
  {
    var s1 := Emit(c, st, InitCall);
    EmitRenders(c, log0, st, InitCall);
    LockedPhaseRenders(c, h, ms, s1, log0);
    var s0 := LockedPhase(c, h, ms, s1).1;
    EmitRenders(c, log0, s0, DropCall);
    var s3 := BeforeUnlock(c, h, ms, st).1;
    EmitRenders(c, log0, s3, UnlockCall);
  }

  lemma LockedPhaseRenders(c: Config, h: Hooks, ms: seq<Migration>, s1: St, log0: seq<string>)
    requires Renders(c, log0, s1)
    ensures Renders(c, log0, LockedPhase(c, h, ms, s1).1)
  {
    var s2 := Emit(c, s1, VersionCall);
    EmitRenders(c, log0, s1, VersionCall);
    var v := FireVersion(h.version, s2.log);
    if v.Ok? && KnownMode(c.mode) && Target(c.mode, c.num, v.value, |ms|).Ok? {
      var target := Target(c.mode, c.num, v.value, |ms|).value;
      if StepsDefined(c.mode, v.value, target, |ms|) {
        StepLoopRenders(c, h, Plan(c.mode, v.value, target, ms, c.zigZag, c.disableTx), s2, log0);
      }
    }
  }

  /**
   * The mock's log after a run is the log before it followed by exactly the
   * lines of the calls the run made, in order: it only grows.
   */
  lemma RunRenders(c: Config, h: Hooks, loaded: Result<seq<Migration>, string>, log0: seq<string>)
    ensures var st := RunSpec(c, h, loaded, log0).1;
      st.log == log0 + Render(c, st.trace)
  {
    var st := St(log0, []);
    assert Renders(c, log0, st);
    if ConfigError(c).None? && Validate(loaded).Ok? {
      var ms := Validate(loaded).value;
      LockPhaseRenders(c, h, st, log0);
      SessionRenders(c, h, ms, LockPhase(c, h, st).1, log0);
    }
  }

  // ---------------------------------------------------------------------------
  // The calls, phase by phase

  predicate IsLockCall(call: Call)
  {
    call == LockCall || call == UnlockCall
  }

  predicate IsStepPhaseCall(call: Call)
  {
    call.BeforeCall? || call.StepCall? || call.AfterCall?
  }

  /**
   * The calls of a step loop in which every DoStep succeeds: each step's
   * before-callback, DoStep and after-callback, back to back, in plan order.
   */
  function StepCalls(steps: seq<Step>): (t: seq<Call>)
  {
    if steps == [] then []
    else [BeforeCall(steps[0]), StepCall(steps[0]), AfterCall(steps[0])] + StepCalls(steps[1..])
  }

  lemma {:induction false} StepCallsConcat(a: seq<Step>, b: seq<Step>)
    ensures StepCalls(a + b) == StepCalls(a) + StepCalls(b)
  {
    if a != [] {
      assert (a + b)[1..] == a[1..] + b;
      StepCallsConcat(a[1..], b);
    } else {
      assert a + b == b;
    }
  }

  /** Step i's three calls sit together, after those of the steps before it. */
  lemma {:induction false} StepCallsAt(steps: seq<Step>, i: nat)
    requires i < |steps|
    ensures StepCalls(steps) ==
      StepCalls(steps[..i]) + [BeforeCall(steps[i]), StepCall(steps[i]), AfterCall(steps[i])] + StepCalls(steps[i + 1..])
  {
    var a, x, b := steps[..i], [steps[i]], steps[i + 1..];
    assert steps == a + x + b;
    StepCallsConcat(a + x, b);
    StepCallsConcat(a, x);
    assert x[1..] == [];
    assert StepCalls(x) == [BeforeCall(steps[i]), StepCall(steps[i]), AfterCall(steps[i])] + StepCalls([]);
  }

  /** How many steps of the loop get through DoStep: the index of the first failing one, or all. */
  function StepsDone(c: Config, h: Hooks, steps: seq<Step>, st: St): (k: nat)
    ensures k <= |steps|
  {
    if steps == [] then 0
    else
      var (e, s) := StepRound(c, h, steps[0], st);
      if e.Fail? then 0 else 1 + StepsDone(c, h, steps[1..], s)
  }

  /**
   * One round calls the before-callback and DoStep, and the after-callback
   * only when DoStep succeeds; DoStep's outcome is the round's.
   */
  lemma StepRoundTrace(c: Config, h: Hooks, step: Step, st: St)
    ensures var (e, s) := StepRound(c, h, step, st);
      && e == FireStep(h.doStep, st.log + Lines(c, BeforeCall(step)) + [StepTag, FormatStep(step)], step)
      && (e.Fail? ==> s.trace == st.trace + [BeforeCall(step), StepCall(step)])
      && (e.Pass? ==> s.trace == st.trace + [BeforeCall(step), StepCall(step), AfterCall(step)])
  {
  }

  /** The loop gets through every step exactly when no DoStep fails. */
  lemma {:induction false} StepsDonePass(c: Config, h: Hooks, steps: seq<Step>, st: St)
    ensures StepLoop(c, h, steps, st).0.Pass? <==> StepsDone(c, h, steps, st) == |steps|
  {
    if steps != [] {
      var (e, s) := StepRound(c, h, steps[0], st);
      if e.Pass? {
        StepsDonePass(c, h, steps[1..], s);
      }
    }
  }

  /**
   * The step loop runs the steps in plan order, each one's before-callback
   * right before its DoStep and its after-callback right after.
   */
  lemma {:induction false} StepLoopPassTrace(c: Config, h: Hooks, steps: seq<Step>, st: St)
    requires StepLoop(c, h, steps, st).0.Pass?
    ensures StepLoop(c, h, steps, st).1.trace == st.trace + StepCalls(steps)
  {
    if steps != [] {
      StepRoundTrace(c, h, steps[0], st);
      var (e, s) := StepRound(c, h, steps[0], st);
      StepLoopPassTrace(c, h, steps[1..], s);
      assert StepCalls(steps) == [BeforeCall(steps[0]), StepCall(steps[0]), AfterCall(steps[0])] + StepCalls(steps[1..]);
    }
  }

  /**
   * The first DoStep that fails ends the loop, with no after-callback for it
   * and no later step.
   */
  lemma {:induction false} StepLoopFailTrace(c: Config, h: Hooks, steps: seq<Step>, st: St)
    requires StepLoop(c, h, steps, st).0.Fail?
    ensures StepsDone(c, h, steps, st) < |steps|
    ensures var k := StepsDone(c, h, steps, st);
      StepLoop(c, h, steps, st).1.trace == st.trace + StepCalls(steps[..k]) + [BeforeCall(steps[k]), StepCall(steps[k])]
  {
    var (e, s) := StepRound(c, h, steps[0], st);
    if e.Fail? {
      FailFirstRound(c, h, steps, st);
    } else {
      StepLoopFailTrace(c, h, steps[1..], s);
      PassFirstRound(c, h, steps, st);
      var j := StepsDone(c, h, steps[1..], s);
      FailTraceStep(st.trace, steps, j);
      assert steps[1..][j] == steps[j + 1];
    }
  }

  /** A failing first round ends the loop with that round's two calls. */
  lemma FailFirstRound(c: Config, h: Hooks, steps: seq<Step>, st: St)
    requires steps != [] && StepRound(c, h, steps[0], st).0.Fail?
    ensures StepsDone(c, h, steps, st) == 0
    ensures StepLoop(c, h, steps, st).1.trace == st.trace + StepCalls(steps[..0]) + [BeforeCall(steps[0]), StepCall(steps[0])]
  {
    StepRoundTrace(c, h, steps[0], st);
    assert StepCalls(steps[..0]) == [];
  }

  /** After a successful first round the loop goes on from that round's state. */
  lemma PassFirstRound(c: Config, h: Hooks, steps: seq<Step>, st: St)
    requires steps != [] && StepRound(c, h, steps[0], st).0.Pass?
    ensures var s := StepRound(c, h, steps[0], st).1;
      && StepsDone(c, h, steps, st) == StepsDone(c, h, steps[1..], s) + 1
      && StepLoop(c, h, steps, st) == StepLoop(c, h, steps[1..], s)
      && s.trace == st.trace + [BeforeCall(steps[0]), StepCall(steps[0]), AfterCall(steps[0])]
  {
    StepRoundTrace(c, h, steps[0], st);
  }

  /** After `pre`, the calls of the first `j + 1` steps, then step `j + 1`'s failing DoStep, split after step 0. */
  lemma FailTraceStep(pre: seq<Call>, steps: seq<Step>, j: nat)
    requires j + 1 < |steps|
    ensures pre + [BeforeCall(steps[0]), StepCall(steps[0]), AfterCall(steps[0])]
        + StepCalls(steps[1..][..j]) + [BeforeCall(steps[j + 1]), StepCall(steps[j + 1])]
      == pre + StepCalls(steps[..j + 1]) + [BeforeCall(steps[j + 1]), StepCall(steps[j + 1])]
  {
    var p := steps[..j + 1];
    var head := [BeforeCall(steps[0]), StepCall(steps[0]), AfterCall(steps[0])];
    var mid := StepCalls(steps[1..][..j]);
    assert p[0] == steps[0] && p[1..] == steps[1..][..j];
    assert StepCalls(p) == head + mid;
    assert pre + head + mid == pre + (head + mid);
  }

  /** Every call in `t` belongs to the step phase. */
  ghost predicate StepPhase(t: seq<Call>)
  {
    forall k :: 0 <= k < |t| ==> IsStepPhaseCall(t[k])
  }

  lemma StepPhaseConcat(a: seq<Call>, b: seq<Call>)
    requires StepPhase(a) && StepPhase(b)
    ensures StepPhase(a + b)
  {
    forall k | 0 <= k < |a + b| ensures IsStepPhaseCall((a + b)[k]) {
      if k >= |a| {
        assert (a + b)[k] == b[k - |a|];
      }
    }
  }

  lemma {:induction false} StepCallsPhase(steps: seq<Step>)
    ensures StepPhase(StepCalls(steps))
  {
    if steps != [] {
      StepCallsPhase(steps[1..]);
      StepPhaseConcat([BeforeCall(steps[0]), StepCall(steps[0]), AfterCall(steps[0])], StepCalls(steps[1..]));
    }
  }

  /** Whatever happens, the step loop makes step-phase calls only. */
  lemma {:induction false} StepLoopPhase(c: Config, h: Hooks, steps: seq<Step>, st: St)
    ensures var t := StepLoop(c, h, steps, st).1.trace;
      |st.trace| <= |t| && t[..|st.trace|] == st.trace && StepPhase(t[|st.trace|..])
  {
    var t := StepLoop(c, h, steps, st).1.trace;
    if StepLoop(c, h, steps, st).0.Pass? {
      StepLoopPassTrace(c, h, steps, st);
      StepCallsPhase(steps);
      PhaseSuffix(t, st.trace, StepCalls(steps));
    } else {
      StepLoopFailTrace(c, h, steps, st);
      var k := StepsDone(c, h, steps, st);
      StepCallsPhase(steps[..k]);
      var u := StepCalls(steps[..k]) + [BeforeCall(steps[k]), StepCall(steps[k])];
      StepPhaseConcat(StepCalls(steps[..k]), [BeforeCall(steps[k]), StepCall(steps[k])]);
      assert t == st.trace + u;
      PhaseSuffix(t, st.trace, u);
    }
  }

  lemma PhaseSuffix(t: seq<Call>, pre: seq<Call>, u: seq<Call>)
    requires t == pre + u && StepPhase(u)
    ensures |pre| <= |t| && t[..|pre|] == pre && StepPhase(t[|pre|..])
  {
    assert t[|pre|..] == u;
  }

  /**
   * runMigrationsLocked calls Version once, first, and then makes step-phase
   * calls only; unless it ends in Done or in a DoStep error it makes no step
   * at all, and a Version error is returned before any step.
   */
  lemma {:induction false} LockedPhaseCalls(c: Config, h: Hooks, ms: seq<Migration>, st: St)
    ensures var t := LockedPhase(c, h, ms, st).1.trace;
      && |st.trace| < |t| && t[..|st.trace| + 1] == st.trace + [VersionCall]
      && StepPhase(t[|st.trace| + 1..])
    ensures var r := LockedPhase(c, h, ms, st).0;
      !r.Done? && !(r.Failed? && r.error.MigratorFailed?) ==>
        LockedPhase(c, h, ms, st).1.trace == st.trace + [VersionCall]
    ensures FireVersion(h.version, st.log + [VersionTag]).Err? ==>
      LockedPhase(c, h, ms, st) ==
        (Failed(VersionFailed(FireVersion(h.version, st.log + [VersionTag]).error)), Emit(c, st, VersionCall))
  {
    var s1 := Emit(c, st, VersionCall);
    var t := LockedPhase(c, h, ms, st).1.trace;
    var v := FireVersion(h.version, s1.log);
    if v.Ok? && KnownMode(c.mode) && Target(c.mode, c.num, v.value, |ms|).Ok? {
      var target := Target(c.mode, c.num, v.value, |ms|).value;
      if StepsDefined(c.mode, v.value, target, |ms|) {
        var plan := Plan(c.mode, v.value, target, ms, c.zigZag, c.disableTx);
        StepLoopPhase(c, h, plan, s1);
        assert t == StepLoop(c, h, plan, s1).1.trace;
        assert t[|st.trace| + 1..] == t[|s1.trace|..];
        assert t[..|st.trace| + 1] == t[..|s1.trace|];
        return;
      }
    }
    assert t[|st.trace| + 1..] == [];
  }

  /**
   * Once the plan is made, the steps run in plan order, each one between its
   * callbacks. The run is Done exactly when every DoStep succeeds; otherwise
   * the first failing DoStep's error ends it, with no after-callback for that
   * step and no later step.
   */
  lemma {:induction false} LockedPhaseSteps(c: Config, h: Hooks, ms: seq<Migration>, st: St, v: int, target: int)
    requires FireVersion(h.version, st.log + [VersionTag]) == Ok(v)
    requires KnownMode(c.mode) && Target(c.mode, c.num, v, |ms|) == Ok(target)
    requires StepsDefined(c.mode, v, target, |ms|)
    ensures var plan := Plan(c.mode, v, target, ms, c.zigZag, c.disableTx);
      var s1 := Emit(c, st, VersionCall);
      var (r, s) := LockedPhase(c, h, ms, st);
      && (r.Done? <==> StepsDone(c, h, plan, s1) == |plan|)
      && (r.Done? ==> s.trace == st.trace + [VersionCall] + StepCalls(plan))
      && (!r.Done? ==> r.Failed? && r.error.MigratorFailed? && StepsDone(c, h, plan, s1) < |plan|)
      && (!r.Done? ==>
            var k := StepsDone(c, h, plan, s1);
            s.trace == st.trace + [VersionCall] + StepCalls(plan[..k]) + [BeforeCall(plan[k]), StepCall(plan[k])])
  {
    var plan := Plan(c.mode, v, target, ms, c.zigZag, c.disableTx);
    var s1 := Emit(c, st, VersionCall);
    StepsDonePass(c, h, plan, s1);
    if StepLoop(c, h, plan, s1).0.Pass? {
      StepLoopPassTrace(c, h, plan, s1);
    } else {
      StepLoopFailTrace(c, h, plan, s1);
    }
  }

  /**
   * Between lock and unlock: Init first, no lock or unlock call, and a Drop
   * call only in ModeDrop, only as the last call, and only when the run did
   * not panic. An Init error ends the phase at once.
   */
  lemma {:induction false} BeforeUnlockCalls(c: Config, h: Hooks, ms: seq<Migration>, st: St)
    ensures var t := BeforeUnlock(c, h, ms, st).1.trace;
      && |st.trace| < |t| && t[..|st.trace| + 1] == st.trace + [InitCall]
      && (forall k :: |st.trace| <= k < |t| ==> !IsLockCall(t[k]))
      && (forall k :: |st.trace| <= k < |t| - 1 ==> t[k] != DropCall)
    ensures var (r, s) := BeforeUnlock(c, h, ms, st);
      (c.mode != ModeDrop || r.Panicked?) ==> s.trace[|s.trace| - 1] != DropCall
    ensures Fire(h.init, st.log + [InitTag]).Fail? ==>
      BeforeUnlock(c, h, ms, st) ==
        (Failed(InitFailed(Fire(h.init, st.log + [InitTag]).error)), Emit(c, st, InitCall))
  {
    var s1 := Emit(c, st, InitCall);
    var n := |st.trace|;
    if Fire(h.init, s1.log).Pass? {
      LockedPhaseCalls(c, h, ms, s1);
      var (r0, s0) := LockedPhase(c, h, ms, s1);
      assert s0.trace[..n + 2] == st.trace + [InitCall, VersionCall];
      assert BeforeUnlock(c, h, ms, st) == DropPhase(c, h, r0, s0);
      DropPhaseCalls(c, h, r0, s0, st.trace);
    }
  }

  /** The Drop phase on top of a locked phase that started right after Init. */
  lemma DropPhaseCalls(c: Config, h: Hooks, r0: RunResult, s0: St, pre: seq<Call>)
    requires |pre| + 2 <= |s0.trace| && s0.trace[..|pre| + 2] == pre + [InitCall, VersionCall]
    requires StepPhase(s0.trace[|pre| + 2..])
    ensures var t := DropPhase(c, h, r0, s0).1.trace;
      var n := |pre|;
      && n < |t| && t[..n + 1] == pre + [InitCall]
      && (forall k :: n <= k < |t| ==> !IsLockCall(t[k]))
      && (forall k :: n <= k < |t| - 1 ==> t[k] != DropCall)
    ensures var (r, s) := DropPhase(c, h, r0, s0);
      (c.mode != ModeDrop || r.Panicked?) ==> s.trace[|s.trace| - 1] != DropCall
  {
    var n := |pre|;
    assert s0.trace[..n + 1] == pre + [InitCall] by {
      assert s0.trace[..n + 1] == s0.trace[..n + 2][..n + 1];
    }
    assert s0.trace[n] == s0.trace[..n + 2][n];
    assert s0.trace[n + 1] == s0.trace[..n + 2][n + 1];
    SessionCallsShape(s0.trace, n);
    var t := DropPhase(c, h, r0, s0).1.trace;
    if c.mode == ModeDrop && !r0.Panicked? {
      assert t == s0.trace + [DropCall];
      AppendDropShape(s0.trace, n);
      assert t[..n + 1] == s0.trace[..n + 1];
    } else {
      assert t == s0.trace;
    }
  }

  /** After the prefix: Init, Version, then step-phase calls; so no lock, unlock or Drop call. */
  lemma SessionCallsShape(t: seq<Call>, n: nat)
    requires n + 2 <= |t| && t[n] == InitCall && t[n + 1] == VersionCall && StepPhase(t[n + 2..])
    ensures forall k :: n <= k < |t| ==> !IsLockCall(t[k]) && t[k] != DropCall
  {
    forall k | n + 2 <= k < |t| ensures IsStepPhaseCall(t[k]) {
      assert t[k] == t[n + 2..][k - n - 2];
    }
  }

  /** Adding Drop at the end keeps the calls before it free of lock calls and of Drop. */
  lemma AppendDropShape(t: seq<Call>, n: nat)
    requires n <= |t| && forall k :: n <= k < |t| ==> !IsLockCall(t[k]) && t[k] != DropCall
    ensures var t' := t + [DropCall];
      && (forall k :: n <= k < |t'| ==> !IsLockCall(t'[k]))
      && (forall k :: n <= k < |t'| - 1 ==> t'[k] != DropCall)
  {
    var t' := t + [DropCall];
    forall k | n <= k < |t'| ensures !IsLockCall(t'[k]) && (k < |t'| - 1 ==> t'[k] != DropCall) {
      if k < |t| {
        assert t'[k] == t[k];
      }
    }
  }

  /**
   * In ModeDrop, once Init has succeeded and nothing panicked, Drop is called
   * last, and its outcome alone decides the result: an error from the version
   * read, the bounds check or a step is dropped when Drop succeeds.
   */
  lemma {:induction false} DropDecides(c: Config, h: Hooks, ms: seq<Migration>, st: St)
    requires c.mode == ModeDrop
    requires Fire(h.init, st.log + [InitTag]).Pass?
    requires !LockedPhase(c, h, ms, Emit(c, st, InitCall)).0.Panicked?
    ensures var (r, s) := BeforeUnlock(c, h, ms, st);
      && s.trace == LockedPhase(c, h, ms, Emit(c, st, InitCall)).1.trace + [DropCall]
      && (Fire(h.drop, s.log).Pass? ==> r == Done)
      && (Fire(h.drop, s.log).Fail? ==> r == Failed(MigratorFailed(Fire(h.drop, s.log).error)))
  {
  }

  /**
   * The deferred unlock: called once, as the last call when the lock is in
   * use; an error the run already has wins over the unlock's own error,
   * which is returned only after a clean run.
   */
  lemma {:induction false} SessionUnlock(c: Config, h: Hooks, ms: seq<Migration>, st: St)
    ensures var (r0, s0) := BeforeUnlock(c, h, ms, st);
      var (r, s) := Session(c, h, ms, st);
      && (c.noDatabaseLock ==> (r, s) == (r0, s0))
      && (!c.noDatabaseLock ==> s.trace == s0.trace + [UnlockCall])
      && (!r0.Done? ==> r == r0)
      && (r0.Done? && !c.noDatabaseLock ==>
            (r.Done? <==> Fire(h.unlockDB, s.log).Pass?)
            && (r.Failed? ==> r.error == UnlockFailed(Fire(h.unlockDB, s.log).error)))
  {
  }

  // ---------------------------------------------------------------------------
  // Whole runs

  /** A bad config or a failed load returns before any call to the migrator. */
  lemma RunStopsEarly(c: Config, h: Hooks, loaded: Result<seq<Migration>, string>, log0: seq<string>)
    requires ConfigError(c).Some? || Validate(loaded).Err?
    ensures RunSpec(c, h, loaded, log0).0.Failed?
    ensures RunSpec(c, h, loaded, log0).1 == St(log0, [])
    ensures ConfigError(c).Some? ==> RunSpec(c, h, loaded, log0).0.error == ConfigError(c).value
    ensures ConfigError(c).None? ==> RunSpec(c, h, loaded, log0).0.error == LoadFailed(Validate(loaded).error)
  {
  }

  /**
   * The lock protocol. A refused lock without UseForce ends the run with
   * the trace [lockdb]; with UseForce the run unlocks and locks again, and
   * either of those failing ends the run there.
   */
  lemma {:induction false} RunLockRefused(c: Config, h: Hooks, loaded: Result<seq<Migration>, string>, log0: seq<string>)
    requires ConfigError(c).None? && Validate(loaded).Ok? && !c.noDatabaseLock
    requires Fire(h.lockDB, log0 + [LockTag]).Fail?
    ensures var l1 := log0 + [LockTag];
      var l2 := l1 + [UnlockTag];
      var l3 := l2 + [LockTag];
      var (r, st) := RunSpec(c, h, loaded, log0);
      && (!c.useForce ==>
            (r, st) == (Failed(LockFailed(Fire(h.lockDB, l1).error)), St(l1, [LockCall])))
      && (c.useForce && Fire(h.unlockDB, l2).Fail? ==>
            (r, st) == (Failed(ForceUnlockFailed(Fire(h.unlockDB, l2).error)), St(l2, [LockCall, UnlockCall])))
      && (c.useForce && Fire(h.unlockDB, l2).Pass? && Fire(h.lockDB, l3).Fail? ==>
            (r, st) == (Failed(ForceLockFailed(Fire(h.lockDB, l3).error)), St(l3, [LockCall, UnlockCall, LockCall])))
  {
    var ms := Validate(loaded).value;
    var st0 := St(log0, []);
    var (le, s1) := LockPhase(c, h, st0);
    assert RunSpec(c, h, loaded, log0) == RunMigrationsSpec(c, h, ms, st0);
    var l1 := log0 + [LockTag];
    var l2 := l1 + [UnlockTag];
    var e1 := Emit(c, st0, LockCall);
    assert e1.log == l1;
    assert e1.trace == [LockCall];
    assert CallLockDB(c, h, st0) == (Fire(h.lockDB, l1), e1);
    if !c.useForce {
      assert (le, s1) == (Some(LockFailed(Fire(h.lockDB, l1).error)), St(l1, [LockCall]));
    } else if Fire(h.unlockDB, l2).Fail? {
      assert [LockCall] + [UnlockCall] == [LockCall, UnlockCall];
      assert (le, s1) == (Some(ForceUnlockFailed(Fire(h.unlockDB, l2).error)), St(l2, [LockCall, UnlockCall]));
    } else if Fire(h.lockDB, l2 + [LockTag]).Fail? {
      assert [LockCall] + [UnlockCall] + [LockCall] == [LockCall, UnlockCall, LockCall];
      assert (le, s1) ==
        (Some(ForceLockFailed(Fire(h.lockDB, l2 + [LockTag]).error)), St(l2 + [LockTag], [LockCall, UnlockCall, LockCall]));
    }
  }

  /**
   * When the lock is won, Init is the next call: after [lockdb], or after
   * [lockdb, unlockdb, lockdb] when the first attempt was refused and forced.
   */
  lemma {:induction false} RunLockHeld(c: Config, h: Hooks, loaded: Result<seq<Migration>, string>, log0: seq<string>)
    requires ConfigError(c).None? && Validate(loaded).Ok? && !c.noDatabaseLock
    requires LockPhase(c, h, St(log0, [])).0.None?
    ensures var l1 := log0 + [LockTag];
      var t := RunSpec(c, h, loaded, log0).1.trace;
      && (Fire(h.lockDB, l1).Pass? ==> |t| >= 2 && t[..2] == [LockCall, InitCall])
      && (Fire(h.lockDB, l1).Fail? ==>
            c.useForce && |t| >= 4 && t[..4] == [LockCall, UnlockCall, LockCall, InitCall])
  {
    var ms := Validate(loaded).value;
    var s1 := LockPhase(c, h, St(log0, [])).1;
    RunAfterLock(c, h, loaded, log0);
    BeforeUnlockCalls(c, h, ms, s1);
    var t0 := BeforeUnlock(c, h, ms, s1).1.trace;
    var t := RunSpec(c, h, loaded, log0).1.trace;
    assert t == t0 + [UnlockCall];
    var p := |s1.trace|;
    assert t[..p + 1] == s1.trace + [InitCall] by {
      assert t[..p + 1] == t0[..p + 1];
    }
    LockedTrace(c, h, log0);
    if Fire(h.lockDB, log0 + [LockTag]).Pass? {
      assert [LockCall] + [InitCall] == [LockCall, InitCall];
    } else {
      assert [LockCall, UnlockCall, LockCall] + [InitCall] == [LockCall, UnlockCall, LockCall, InitCall];
    }
  }

  /** A run whose config and load pass and whose lock is won goes on with the session. */
  lemma RunAfterLock(c: Config, h: Hooks, loaded: Result<seq<Migration>, string>, log0: seq<string>)
    requires ConfigError(c).None? && Validate(loaded).Ok? && LockPhase(c, h, St(log0, [])).0.None?
    ensures RunSpec(c, h, loaded, log0) == Session(c, h, Validate(loaded).value, LockPhase(c, h, St(log0, [])).1)
  {
  }

  /** The calls of a lock protocol that won the lock. */
  lemma LockedTrace(c: Config, h: Hooks, log0: seq<string>)
    requires !c.noDatabaseLock && LockPhase(c, h, St(log0, [])).0.None?
    ensures var s1 := LockPhase(c, h, St(log0, [])).1;
      && (Fire(h.lockDB, log0 + [LockTag]).Pass? ==> s1.trace == [LockCall])
      && (Fire(h.lockDB, log0 + [LockTag]).Fail? ==> c.useForce && s1.trace == [LockCall, UnlockCall, LockCall])
  {
    assert [LockCall] + [UnlockCall] + [LockCall] == [LockCall, UnlockCall, LockCall];
  }

  /** With NoDatabaseLock the run never calls LockDB or UnlockDB. */
  lemma {:induction false} RunWithoutLock(c: Config, h: Hooks, loaded: Result<seq<Migration>, string>, log0: seq<string>)
    requires c.noDatabaseLock
    ensures var t := RunSpec(c, h, loaded, log0).1.trace;
      forall k :: 0 <= k < |t| ==> !IsLockCall(t[k])
  {
    if ConfigError(c).None? && Validate(loaded).Ok? {
      BeforeUnlockCalls(c, h, Validate(loaded).value, St(log0, []));
    }
  }

  /**
   * Once the lock is held, UnlockDB is called exactly once more, as the very
   * last call, whatever fails in between; Init is the first call after the lock.
   */
  lemma {:induction false} RunUnlocksLast(c: Config, h: Hooks, loaded: Result<seq<Migration>, string>, log0: seq<string>)
    requires ConfigError(c).None? && Validate(loaded).Ok? && !c.noDatabaseLock
    requires LockPhase(c, h, St(log0, [])).0.None?
    ensures var p := |LockPhase(c, h, St(log0, [])).1.trace|;
      var t := RunSpec(c, h, loaded, log0).1.trace;
      && p + 1 < |t| && t[p] == InitCall && t[|t| - 1] == UnlockCall
      && (forall k :: p <= k < |t| - 1 ==> !IsLockCall(t[k]))
  {
    var ms := Validate(loaded).value;
    var s1 := LockPhase(c, h, St(log0, [])).1;
    BeforeUnlockCalls(c, h, ms, s1);
    var t0 := BeforeUnlock(c, h, ms, s1).1.trace;
    var t := RunSpec(c, h, loaded, log0).1.trace;
    assert t == t0 + [UnlockCall];
    assert t[|s1.trace|] == t0[..|s1.trace| + 1][|s1.trace|];
  }

  // ---------------------------------------------------------------------------
  // A run in which nothing fails

  /** Hooks under which every migrator call succeeds and Version reports `v`. */
  ghost predicate Reliable(h: Hooks, v: int)
  {
    (forall log :: Fire(h.lockDB, log).Pass?) && ReliableOnceLocked(h, v)
  }

  /** Hooks under which every call after the lock succeeds and Version reports `v`. */
  ghost predicate ReliableOnceLocked(h: Hooks, v: int)
  {
    (forall log :: Fire(h.unlockDB, log).Pass?) && Steady(h, v)
  }

  /** Hooks under which Init, Drop and every DoStep succeed and Version reports `v`; UnlockDB may fail. */
  ghost predicate Steady(h: Hooks, v: int)
  {
    && (forall log :: Fire(h.init, log).Pass?)
    && (forall log :: Fire(h.drop, log).Pass?)
    && (forall log :: FireVersion(h.version, log) == Ok(v))
    && (forall log, s :: FireStep(h.doStep, log, s).Pass?)
  }

  /** `NewMockMigrator(nil)` never fails, and its Version is 0. */
  lemma NoHooksReliable()
    ensures Reliable(NoHooks, 0)
  {
  }

  lemma {:induction false} StepLoopReliable(c: Config, h: Hooks, steps: seq<Step>, st: St)
    requires forall log, s :: FireStep(h.doStep, log, s).Pass?
    ensures StepLoop(c, h, steps, st).0.Pass?
  {
    if steps != [] {
      StepLoopReliable(c, h, steps[1..], StepRound(c, h, steps[0], st).1);
    }
  }

  /** The calls of a run in which nothing fails. */
  function CleanTrace(c: Config, plan: seq<Step>): seq<Call>
  {
    var lock := if c.noDatabaseLock then [] else [LockCall];
    var unlock := if c.noDatabaseLock then [] else [UnlockCall];
    var drop := if c.mode == ModeDrop then [DropCall] else [];
    lock + [InitCall, VersionCall] + StepCalls(plan) + drop + unlock
  }

  lemma {:induction false} ReliableLocked(c: Config, h: Hooks, ms: seq<Migration>, st: St, v: int, target: int)
    requires Steady(h, v)
    requires KnownMode(c.mode) && Target(c.mode, c.num, v, |ms|) == Ok(target)
    requires StepsDefined(c.mode, v, target, |ms|)
    ensures var plan := Plan(c.mode, v, target, ms, c.zigZag, c.disableTx);
      && LockedPhase(c, h, ms, st).0 == Done
      && LockedPhase(c, h, ms, st).1.trace == st.trace + [VersionCall] + StepCalls(plan)
  {
    var plan := Plan(c.mode, v, target, ms, c.zigZag, c.disableTx);
    var sv := Emit(c, st, VersionCall);
    assert FireVersion(h.version, sv.log) == Ok(v);
    StepLoopReliable(c, h, plan, sv);
    StepsDonePass(c, h, plan, sv);
    LockedPhaseSteps(c, h, ms, st, v, target);
  }

  lemma ReliableSession(c: Config, h: Hooks, ms: seq<Migration>, st: St, v: int, target: int)
    requires ReliableOnceLocked(h, v)
    requires KnownMode(c.mode) && Target(c.mode, c.num, v, |ms|) == Ok(target)
    requires StepsDefined(c.mode, v, target, |ms|)
    ensures var plan := Plan(c.mode, v, target, ms, c.zigZag, c.disableTx);
      var unlock := if c.noDatabaseLock then [] else [UnlockCall];
      var drop := if c.mode == ModeDrop then [DropCall] else [];
      && Session(c, h, ms, st).0 == Done
      && Session(c, h, ms, st).1.trace == st.trace + [InitCall, VersionCall] + StepCalls(plan) + drop + unlock
  {
    SteadyBeforeUnlock(c, h, ms, st, v, target);
    var s3 := BeforeUnlock(c, h, ms, st).1;
    assert Fire(h.unlockDB, s3.log + [UnlockTag]).Pass?;
  }

  /**
   * When no call fails and the plan is defined, the run is Done after: the
   * lock, Init, Version, each planned step between its callbacks, Drop in
   * ModeDrop, and the unlock.
   */
  lemma {:induction false} ReliableRun(c: Config, h: Hooks, loaded: Result<seq<Migration>, string>, log0: seq<string>, v: int, target: int)
    requires ConfigError(c).None? && Validate(loaded).Ok? && Reliable(h, v)
    requires KnownMode(c.mode) && Target(c.mode, c.num, v, |Validate(loaded).value|) == Ok(target)
    requires StepsDefined(c.mode, v, target, |Validate(loaded).value|)
    ensures var plan := Plan(c.mode, v, target, Validate(loaded).value, c.zigZag, c.disableTx);
      RunSpec(c, h, loaded, log0).0 == Done && RunSpec(c, h, loaded, log0).1.trace == CleanTrace(c, plan)
  {
    var ms := Validate(loaded).value;
    var st0 := St(log0, []);
    var (le, s1) := LockPhase(c, h, st0);
    assert !c.noDatabaseLock ==> Fire(h.lockDB, log0 + [LockTag]).Pass?;
    assert le.None?;
    assert s1.trace == if c.noDatabaseLock then [] else [LockCall];
    ReliableSession(c, h, ms, s1, v, target);
    assert RunSpec(c, h, loaded, log0) == Session(c, h, ms, s1);
  }

  /**
   * TestFailOnUnlockDB: when every call but the unlock succeeds, the run
   * makes a clean run's calls, and the unlock's error is what it returns.
   */
  lemma {:induction false} UnlockDecidesCleanRun(c: Config, h: Hooks, loaded: Result<seq<Migration>, string>, log0: seq<string>, v: int, target: int)
    requires ConfigError(c).None? && Validate(loaded).Ok? && !c.noDatabaseLock
    requires (forall log :: Fire(h.lockDB, log).Pass?) && Steady(h, v)
    requires KnownMode(c.mode) && Target(c.mode, c.num, v, |Validate(loaded).value|) == Ok(target)
    requires StepsDefined(c.mode, v, target, |Validate(loaded).value|)
    ensures var plan := Plan(c.mode, v, target, Validate(loaded).value, c.zigZag, c.disableTx);
      var st := RunSpec(c, h, loaded, log0).1;
      && st.trace == CleanTrace(c, plan)
      && RunSpec(c, h, loaded, log0).0 ==
        (if Fire(h.unlockDB, st.log).Pass? then Done else Failed(UnlockFailed(Fire(h.unlockDB, st.log).error)))
  {
    var ms := Validate(loaded).value;
    var s1 := St(log0 + [LockTag], [LockCall]);
    assert [] + [LockCall] == [LockCall];
    assert Emit(c, St(log0, []), LockCall) == s1;
    assert Fire(h.lockDB, s1.log).Pass?;
    assert LockPhase(c, h, St(log0, [])) == (None, s1);
    SteadyBeforeUnlock(c, h, ms, s1, v, target);
    SessionUnlock(c, h, ms, s1);
    assert RunSpec(c, h, loaded, log0) == Session(c, h, ms, s1);
  }

  /** With steady hooks, everything between the lock and the unlock succeeds and makes a clean run's calls. */
  lemma SteadyBeforeUnlock(c: Config, h: Hooks, ms: seq<Migration>, st: St, v: int, target: int)
    requires Steady(h, v)
    requires KnownMode(c.mode) && Target(c.mode, c.num, v, |ms|) == Ok(target)
    requires StepsDefined(c.mode, v, target, |ms|)
    ensures var plan := Plan(c.mode, v, target, ms, c.zigZag, c.disableTx);
      && BeforeUnlock(c, h, ms, st).0 == Done
      && BeforeUnlock(c, h, ms, st).1.trace ==
        st.trace + [InitCall, VersionCall] + StepCalls(plan) + (if c.mode == ModeDrop then [DropCall] else [])
  {
    var plan := Plan(c.mode, v, target, ms, c.zigZag, c.disableTx);
    var si := Emit(c, st, InitCall);
    InitPasses(c, h, ms, st);
    ReliableLocked(c, h, ms, si, v, target);
    var s2 := LockedPhase(c, h, ms, si).1;
    assert s2.trace == st.trace + [InitCall, VersionCall] + StepCalls(plan) by {
      assert si.trace == st.trace + [InitCall];
    }
    SteadyDrop(c, h, s2);
  }

  /** After an Init that succeeds come the locked phase and the Drop phase. */
  lemma InitPasses(c: Config, h: Hooks, ms: seq<Migration>, st: St)
    requires forall log :: Fire(h.init, log).Pass?
    ensures var si := Emit(c, st, InitCall);
      BeforeUnlock(c, h, ms, st) == DropPhase(c, h, LockedPhase(c, h, ms, si).0, LockedPhase(c, h, ms, si).1)
  {
    var si := Emit(c, st, InitCall);
    assert CallInit(c, h, st) == (Fire(h.init, si.log), si);
  }

  /** In ModeDrop a Drop that succeeds adds its call and keeps the run Done. */
  lemma SteadyDrop(c: Config, h: Hooks, s2: St)
    requires forall log :: Fire(h.drop, log).Pass?
    ensures DropPhase(c, h, Done, s2) == (Done, if c.mode == ModeDrop then Emit(c, s2, DropCall) else s2)
  {
    assert Fire(h.drop, Emit(c, s2, DropCall).log).Pass?;
  }

  // ---------------------------------------------------------------------------
  // From calls to log lines

  lemma {:induction false} RenderConcat(c: Config, a: seq<Call>, b: seq<Call>)
    ensures Render(c, a + b) == Render(c, a) + Render(c, b)
  {
    if b != [] {
      var b' := b[..|b| - 1];
      assert (a + b)[..|a + b| - 1] == a + b';
      RenderConcat(c, a, b');
    } else {
      assert a + b == a;
    }
  }

  /** What the mock logs for steps that all succeed: "dostep" and the formatted step, per step. */
  function StepLines(steps: seq<Step>): (lines: seq<string>)
    ensures |lines| == 2 * |steps|
  {
    if steps == [] then [] else [StepTag, FormatStep(steps[0])] + StepLines(steps[1..])
  }

  lemma {:induction false} StepLinesConcat(a: seq<Step>, b: seq<Step>)
    ensures StepLines(a + b) == StepLines(a) + StepLines(b)
  {
    if a != [] {
      assert (a + b)[1..] == a[1..] + b;
      StepLinesConcat(a[1..], b);
    } else {
      assert a + b == b;
    }
  }

  /**
   * What the step loop writes when every DoStep succeeds: per step, the
   * before-callback's lines, DoStep's two lines, the after-callback's lines.
   */
  function RoundLines(c: Config, steps: seq<Step>): (lines: seq<string>)
    ensures c.beforeStep.None? && c.afterStep.None? ==> lines == StepLines(steps)
  {
    if steps == [] then []
    else
      Callback(c.beforeStep)(steps[0]) + [StepTag, FormatStep(steps[0])] + Callback(c.afterStep)(steps[0])
      + RoundLines(c, steps[1..])
  }

  /** One round's calls write the before-callback's lines, DoStep's and the after-callback's. */
  lemma RenderRound(c: Config, s: Step)
    ensures Render(c, [BeforeCall(s), StepCall(s), AfterCall(s)])
      == Callback(c.beforeStep)(s) + [StepTag, FormatStep(s)] + Callback(c.afterStep)(s)
  {
    var head := [BeforeCall(s), StepCall(s), AfterCall(s)];
    assert head[..2] == [BeforeCall(s), StepCall(s)];
    assert head[..2][..1] == [BeforeCall(s)];
    RenderOne(c, BeforeCall(s));
  }

  lemma {:induction false} RenderRounds(c: Config, steps: seq<Step>)
    ensures Render(c, StepCalls(steps)) == RoundLines(c, steps)
  {
    if steps != [] {
      var head := [BeforeCall(steps[0]), StepCall(steps[0]), AfterCall(steps[0])];
      RenderConcat(c, head, StepCalls(steps[1..]));
      RenderRounds(c, steps[1..]);
      RenderRound(c, steps[0]);
    }
  }

  /**
   * TestBeforeAfterStep: the lines a clean run's calls write with callbacks
   * configured, each step between its callbacks' lines.
   */
  lemma {:induction false} RenderCleanTraceWith(c: Config, plan: seq<Step>)
    ensures Render(c, CleanTrace(c, plan)) ==
      (if c.noDatabaseLock then [] else [LockTag]) + [InitTag, VersionTag] + RoundLines(c, plan)
      + (if c.mode == ModeDrop then [DropTag] else []) + (if c.noDatabaseLock then [] else [UnlockTag])
  {
    var lock := if c.noDatabaseLock then [] else [LockCall];
    var unlock := if c.noDatabaseLock then [] else [UnlockCall];
    var drop := if c.mode == ModeDrop then [DropCall] else [];
    var pre := lock + [InitCall, VersionCall];
    var head := (if c.noDatabaseLock then [] else [LockTag]) + [InitTag, VersionTag];
    RenderPre(c);
    RenderConcat(c, pre, StepCalls(plan));
    RenderRounds(c, plan);
    RenderMaybe(c, c.mode == ModeDrop, DropCall);
    RenderMaybe(c, !c.noDatabaseLock, UnlockCall);
    RenderJoin(c, pre + StepCalls(plan), drop, unlock, head + RoundLines(c, plan),
      if c.mode == ModeDrop then [DropTag] else [], if c.noDatabaseLock then [] else [UnlockTag]);
  }

  /** The lines of three runs of calls, one after the other. */
  lemma RenderJoin(c: Config, a: seq<Call>, b: seq<Call>, d: seq<Call>, la: seq<string>, lb: seq<string>, ld: seq<string>)
    requires Render(c, a) == la && Render(c, b) == lb && Render(c, d) == ld
    ensures Render(c, a + b + d) == la + lb + ld
  {
    RenderConcat(c, a, b);
    RenderConcat(c, a + b, d);
  }

  function CleanLines(c: Config, plan: seq<Step>): seq<string>
  {
    var lock := if c.noDatabaseLock then [] else [LockTag];
    var unlock := if c.noDatabaseLock then [] else [UnlockTag];
    var drop := if c.mode == ModeDrop then [DropTag] else [];
    lock + [InitTag, VersionTag] + StepLines(plan) + drop + unlock
  }

  lemma RenderOne(c: Config, call: Call)
    ensures Render(c, [call]) == Lines(c, call)
  {
    assert [call][..0] == [];
  }

  lemma RenderCleanTrace(c: Config, plan: seq<Step>)
    requires c.beforeStep.None? && c.afterStep.None?
    ensures Render(c, CleanTrace(c, plan)) == CleanLines(c, plan)
  {
    RenderCleanTraceWith(c, plan);
  }

  /** The calls before the first step write the lock tag (when locking), "init" and "getversion". */
  lemma RenderPre(c: Config)
    ensures Render(c, (if c.noDatabaseLock then [] else [LockCall]) + [InitCall, VersionCall])
      == (if c.noDatabaseLock then [] else [LockTag]) + [InitTag, VersionTag]
  {
    RenderConcat(c, [InitCall], [VersionCall]);
    RenderOne(c, InitCall);
    RenderOne(c, VersionCall);
    assert [InitCall] + [VersionCall] == [InitCall, VersionCall];
    if c.noDatabaseLock {
      assert [] + [InitCall, VersionCall] == [InitCall, VersionCall];
    } else {
      RenderConcat(c, [LockCall], [InitCall, VersionCall]);
      RenderOne(c, LockCall);
    }
  }

  /** A call made only when `b` holds writes its lines only then. */
  lemma RenderMaybe(c: Config, b: bool, call: Call)
    ensures Render(c, if b then [call] else []) == if b then Lines(c, call) else []
  {
    if b {
      RenderOne(c, call);
    }
  }

  /**
   * The expected logs of the source's own tests: with no callbacks and a
   * migrator that never fails, the log reads "lockdb", "init", "getversion",
   * then "dostep" and the formatted step for each planned step, "drop" in
   * ModeDrop, and "unlockdb" (no "lockdb"/"unlockdb" with NoDatabaseLock).
   */
  lemma {:induction false} ReliableRunLog(c: Config, h: Hooks, loaded: Result<seq<Migration>, string>, log0: seq<string>, v: int, target: int)
    requires ConfigError(c).None? && Validate(loaded).Ok? && Reliable(h, v)
    requires KnownMode(c.mode) && Target(c.mode, c.num, v, |Validate(loaded).value|) == Ok(target)
    requires StepsDefined(c.mode, v, target, |Validate(loaded).value|)
    requires c.beforeStep.None? && c.afterStep.None?
    ensures var plan := Plan(c.mode, v, target, Validate(loaded).value, c.zigZag, c.disableTx);
      RunSpec(c, h, loaded, log0).0 == Done && RunSpec(c, h, loaded, log0).1.log == log0 + CleanLines(c, plan)
  {
    var plan := Plan(c.mode, v, target, Validate(loaded).value, c.zigZag, c.disableTx);
    ReliableRun(c, h, loaded, log0, v, target);
    CleanTraceLog(c, h, loaded, log0, plan);
  }

  /**
   * TestBeforeAfterStep: with callbacks configured and a migrator that never
   * fails, each planned step's lines sit between its callbacks' lines.
   */
  lemma ReliableRunLogWith(c: Config, h: Hooks, loaded: Result<seq<Migration>, string>, log0: seq<string>, v: int, target: int)
    requires ConfigError(c).None? && Validate(loaded).Ok? && Reliable(h, v)
    requires KnownMode(c.mode) && Target(c.mode, c.num, v, |Validate(loaded).value|) == Ok(target)
    requires StepsDefined(c.mode, v, target, |Validate(loaded).value|)
    ensures var plan := Plan(c.mode, v, target, Validate(loaded).value, c.zigZag, c.disableTx);
      && RunSpec(c, h, loaded, log0).0 == Done
      && RunSpec(c, h, loaded, log0).1.log == log0 +
        ((if c.noDatabaseLock then [] else [LockTag]) + [InitTag, VersionTag] + RoundLines(c, plan)
         + (if c.mode == ModeDrop then [DropTag] else []) + (if c.noDatabaseLock then [] else [UnlockTag]))
  {
    var plan := Plan(c.mode, v, target, Validate(loaded).value, c.zigZag, c.disableTx);
    ReliableRun(c, h, loaded, log0, v, target);
    RunRenders(c, h, loaded, log0);
    RenderCleanTraceWith(c, plan);
  }

  /** A run that made a clean run's calls, with no callbacks, leaves a clean run's lines. */
  lemma CleanTraceLog(c: Config, h: Hooks, loaded: Result<seq<Migration>, string>, log0: seq<string>, plan: seq<Step>)
    requires c.beforeStep.None? && c.afterStep.None?
    requires RunSpec(c, h, loaded, log0).1.trace == CleanTrace(c, plan)
    ensures RunSpec(c, h, loaded, log0).1.log == log0 + CleanLines(c, plan)
  {
    RunRenders(c, h, loaded, log0);
    RenderCleanTrace(c, plan);
  }

  /** A refused lock, forced: the lock protocol ends after [lockdb, unlockdb, lockdb]. */
  lemma ForcedLockPhase(c: Config, h: Hooks, log0: seq<string>)
    requires !c.noDatabaseLock && c.useForce
    requires Fire(h.lockDB, log0 + [LockTag]).Fail? && Fire(h.unlockDB, log0 + [LockTag, UnlockTag]).Pass?
    requires Fire(h.lockDB, log0 + [LockTag, UnlockTag, LockTag]).Pass?
    ensures LockPhase(c, h, St(log0, [])) ==
      (None, St(log0 + [LockTag, UnlockTag, LockTag], [LockCall, UnlockCall, LockCall]))
  {
    var s1 := St(log0 + [LockTag, UnlockTag, LockTag], [LockCall, UnlockCall, LockCall]);
    var e1 := Emit(c, St(log0, []), LockCall);
    assert e1 == St(log0 + [LockTag], [LockCall]);
    var e2 := Emit(c, e1, UnlockCall);
    assert e2 == St(log0 + [LockTag] + [UnlockTag], [LockCall, UnlockCall]);
    assert e2.log == log0 + [LockTag, UnlockTag];
    assert log0 + [LockTag] + [UnlockTag] + [LockTag] == s1.log;
    assert Emit(c, e2, LockCall) == s1;
  }

  /**
   * A forced lock in an otherwise clean run: the first LockDB is refused,
   * the forced UnlockDB and the second LockDB succeed, and the run goes on
   * as a clean one.
   */
  lemma {:induction false} ForcedRun(c: Config, h: Hooks, loaded: Result<seq<Migration>, string>, log0: seq<string>, v: int, target: int)
    requires ConfigError(c).None? && Validate(loaded).Ok? && ReliableOnceLocked(h, v)
    requires KnownMode(c.mode) && Target(c.mode, c.num, v, |Validate(loaded).value|) == Ok(target)
    requires StepsDefined(c.mode, v, target, |Validate(loaded).value|)
    requires !c.noDatabaseLock && c.useForce
    requires Fire(h.lockDB, log0 + [LockTag]).Fail? && Fire(h.lockDB, log0 + [LockTag, UnlockTag, LockTag]).Pass?
    ensures var plan := Plan(c.mode, v, target, Validate(loaded).value, c.zigZag, c.disableTx);
      && RunSpec(c, h, loaded, log0).0 == Done
      && RunSpec(c, h, loaded, log0).1.trace == [LockCall, UnlockCall] + CleanTrace(c, plan)
  {
    var ms := Validate(loaded).value;
    var plan := Plan(c.mode, v, target, ms, c.zigZag, c.disableTx);
    var s1 := St(log0 + [LockTag, UnlockTag, LockTag], [LockCall, UnlockCall, LockCall]);
    assert Fire(h.unlockDB, log0 + [LockTag, UnlockTag]).Pass?;
    ForcedLockPhase(c, h, log0);
    assert RunSpec(c, h, loaded, log0) == Session(c, h, ms, s1);
    ReliableSession(c, h, ms, s1, v, target);
    ForcedTrace(c, plan);
  }

  /** The forced lock's three calls, then a clean session, are [lockdb, unlockdb] and a clean run. */
  lemma ForcedTrace(c: Config, plan: seq<Step>)
    requires !c.noDatabaseLock
    ensures [LockCall, UnlockCall, LockCall] + [InitCall, VersionCall] + StepCalls(plan)
        + (if c.mode == ModeDrop then [DropCall] else []) + [UnlockCall]
      == [LockCall, UnlockCall] + CleanTrace(c, plan)
  {
    var drop := if c.mode == ModeDrop then [DropCall] else [];
    var rest := [InitCall, VersionCall] + StepCalls(plan) + drop + [UnlockCall];
    assert CleanTrace(c, plan) == [LockCall] + [InitCall, VersionCall] + StepCalls(plan) + drop + [UnlockCall];
    assert [LockCall] + [InitCall, VersionCall] + StepCalls(plan) + drop + [UnlockCall] == [LockCall] + rest;
    assert [LockCall, UnlockCall, LockCall] + [InitCall, VersionCall] + StepCalls(plan) + drop + [UnlockCall]
      == [LockCall, UnlockCall, LockCall] + rest;
    assert [LockCall, UnlockCall, LockCall] + rest == [LockCall, UnlockCall] + ([LockCall] + rest);
  }

  lemma RenderForced(c: Config, plan: seq<Step>)
    requires c.beforeStep.None? && c.afterStep.None?
    ensures Render(c, [LockCall, UnlockCall] + CleanTrace(c, plan)) == [LockTag, UnlockTag] + CleanLines(c, plan)
  {
    RenderConcat(c, [LockCall, UnlockCall], CleanTrace(c, plan));
    RenderCleanTrace(c, plan);
    RenderConcat(c, [LockCall], [UnlockCall]);
    RenderOne(c, LockCall);
    RenderOne(c, UnlockCall);
  }

  /** TestUseForce's log: "lockdb", "unlockdb", then the log of a clean run. */
  lemma {:induction false} ForcedRunLog(c: Config, h: Hooks, loaded: Result<seq<Migration>, string>, log0: seq<string>, v: int, target: int)
    requires ConfigError(c).None? && Validate(loaded).Ok? && ReliableOnceLocked(h, v)
    requires KnownMode(c.mode) && Target(c.mode, c.num, v, |Validate(loaded).value|) == Ok(target)
    requires StepsDefined(c.mode, v, target, |Validate(loaded).value|)
    requires !c.noDatabaseLock && c.useForce
    requires Fire(h.lockDB, log0 + [LockTag]).Fail? && Fire(h.lockDB, log0 + [LockTag, UnlockTag, LockTag]).Pass?
    requires c.beforeStep.None? && c.afterStep.None?
    ensures var plan := Plan(c.mode, v, target, Validate(loaded).value, c.zigZag, c.disableTx);
      && RunSpec(c, h, loaded, log0).0 == Done
      && RunSpec(c, h, loaded, log0).1.log == log0 + [LockTag, UnlockTag] + CleanLines(c, plan)
  {
    var plan := Plan(c.mode, v, target, Validate(loaded).value, c.zigZag, c.disableTx);
    ForcedRun(c, h, loaded, log0, v, target);
    RunRenders(c, h, loaded, log0);
    RenderForced(c, plan);
    assert log0 + ([LockTag, UnlockTag] + CleanLines(c, plan)) == log0 + [LockTag, UnlockTag] + CleanLines(c, plan);
  }
}
