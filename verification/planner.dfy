/**
 * `getCurrAndTargetVersions` (apart from its Version() read) and `prepareSteps`
 * of dbump.go: where a run should end and the steps that get it there.
 */
module Planner {
  import opened Wrappers
  import opened Migrations

  /** The errors getCurrAndTargetVersions returns after a successful Version() read. */
  datatype BoundsError =
    | CurrentGreaterThanTarget      // "current is greater than target"
    | TargetGreaterThanCount        // "target is greater than migrations count"
    | CurrentGreaterThanCount       // "current is greater than migrations count"

  /** The modes the switch of getCurrAndTargetVersions handles; any other panics "unreachable". */
  predicate KnownMode(mode: Mode)
  {
    ModeApplyAll <= mode <= ModeDrop
  }

  /** The target version for `mode`, given the current version and the number of migrations. */
  function Target(mode: Mode, num: int, curr: int, count: nat): (r: Result<int, BoundsError>)
    requires KnownMode(mode)
    ensures mode == ModeApplyAll ==> (r.Ok? <==> curr <= count) && (r.Ok? ==> r.value == count)
    ensures mode == ModeApplyN ==> (r.Ok? <==> curr + num <= count) && (r.Ok? ==> r.value == curr + num)
    ensures mode == ModeRevertN ==> (r.Ok? <==> curr <= count) && (r.Ok? ==> r.value == curr - num)
    ensures mode == ModeRevertAll ==> (r.Ok? <==> curr <= count) && (r.Ok? ==> r.value == 0)
    ensures mode == ModeRedo ==> (r.Ok? <==> curr <= count) && (r.Ok? ==> r.value == curr)
    ensures mode == ModeDrop ==> r == Ok(0)
  {
    if mode == ModeApplyAll then
      if curr > count then Err(CurrentGreaterThanTarget) else Ok(count)
    else if mode == ModeApplyN then
      if curr + num > count then Err(TargetGreaterThanCount) else Ok(curr + num)
    else if mode == ModeRevertN then
      if curr > count then Err(CurrentGreaterThanCount) else Ok(curr - num)
    else if mode == ModeRevertAll then
      if curr > count then Err(CurrentGreaterThanCount) else Ok(0)
    else if mode == ModeRedo then
      if curr > count then Err(CurrentGreaterThanCount) else Ok(curr)
    else
      Ok(0)
  }

  /**
   * prepareSteps indexes `ms` without a bounds check: it runs without a panic
   * exactly when every index it touches is in range.
   */
  predicate StepsDefined(mode: Mode, curr: int, target: int, count: nat)
  {
    if mode == ModeRedo then 1 <= curr <= count
    else curr == target || (0 <= curr <= count && 0 <= target <= count)
  }

  /** The version after `curr` on the way to `target`. */
  function Toward(curr: int, target: int): int
  {
    if curr < target then curr + 1 else curr - 1
  }

  /** The steps of the walk from `curr` to `target`, one migration at a time. */
  function Walk(ms: seq<Migration>, curr: int, target: int, zigZag: bool, disableTx: bool): seq<Step>
    requires curr == target || (0 <= curr <= |ms| && 0 <= target <= |ms|)
    decreases Dist(curr, target)
  {
    if curr == target then []
    else
      WalkUnit(ms, WalkIndex(curr, target, 0), curr < target, zigZag, disableTx)
      + Walk(ms, Toward(curr, target), target, zigZag, disableTx)
  }

  /** One unit of the walk: the step through migration `idx`, and under ZigZag its undo and redo. */
  function WalkUnit(ms: seq<Migration>, idx: int, up: bool, zigZag: bool, disableTx: bool): seq<Step>
    requires 0 <= idx < |ms|
  {
    var s := ToStep(ms[idx], up, disableTx);
    if zigZag then [s, ToStep(ms[idx], !up, disableTx), s] else [s]
  }

  /** What prepareSteps returns. */
  function Plan(mode: Mode, curr: int, target: int, ms: seq<Migration>, zigZag: bool, disableTx: bool): seq<Step>
    requires StepsDefined(mode, curr, target, |ms|)
  {
    if mode == ModeRedo then
      [ToStep(ms[curr - 1], false, disableTx), ToStep(ms[curr - 1], true, disableTx)]
    else Walk(ms, curr, target, zigZag, disableTx)
  }

  /** Walking up one version further appends that migration's unit to the walk. */
  lemma {:induction false} WalkSnocUp(ms: seq<Migration>, lo: int, hi: int, zigZag: bool, disableTx: bool)
    requires 0 <= lo <= hi < |ms|
    ensures Walk(ms, lo, hi + 1, zigZag, disableTx)
      == Walk(ms, lo, hi, zigZag, disableTx) + WalkUnit(ms, hi, true, zigZag, disableTx)
    decreases hi - lo
  {
    var unit := WalkUnit(ms, hi, true, zigZag, disableTx);
    if lo == hi {
      assert Walk(ms, lo, hi + 1, zigZag, disableTx) == unit + Walk(ms, hi + 1, hi + 1, zigZag, disableTx);
    } else {
      var head := WalkUnit(ms, lo, true, zigZag, disableTx);
      WalkSnocUp(ms, lo + 1, hi, zigZag, disableTx);
      var mid := Walk(ms, lo + 1, hi, zigZag, disableTx);
      assert Walk(ms, lo, hi + 1, zigZag, disableTx) == head + (mid + unit);
      assert Walk(ms, lo, hi, zigZag, disableTx) == head + mid;
      assert head + (mid + unit) == (head + mid) + unit;
    }
  }

  /** Walking down one version further appends that migration's unit to the walk. */
  lemma {:induction false} WalkSnocDown(ms: seq<Migration>, lo: int, hi: int, zigZag: bool, disableTx: bool)
    requires 0 < hi <= lo <= |ms|
    ensures Walk(ms, lo, hi - 1, zigZag, disableTx)
      == Walk(ms, lo, hi, zigZag, disableTx) + WalkUnit(ms, hi - 1, false, zigZag, disableTx)
    decreases lo - hi
  {
    var unit := WalkUnit(ms, hi - 1, false, zigZag, disableTx);
    if lo == hi {
      assert Walk(ms, lo, hi - 1, zigZag, disableTx) == unit + Walk(ms, hi - 1, hi - 1, zigZag, disableTx);
    } else {
      var head := WalkUnit(ms, lo - 1, false, zigZag, disableTx);
      WalkSnocDown(ms, lo - 1, hi, zigZag, disableTx);
      var mid := Walk(ms, lo - 1, hi, zigZag, disableTx);
      assert Walk(ms, lo, hi - 1, zigZag, disableTx) == head + (mid + unit);
      assert Walk(ms, lo, hi, zigZag, disableTx) == head + mid;
      assert head + (mid + unit) == (head + mid) + unit;
    }
  }

  /** The loop of prepareSteps: mutate `curr`, append to `steps`. */
  method PrepareSteps(mode: Mode, curr0: int, target: int, ms: seq<Migration>, zigZag: bool, disableTx: bool)
    returns (steps: seq<Step>)
    requires StepsDefined(mode, curr0, target, |ms|)
    ensures steps == Plan(mode, curr0, target, ms, zigZag, disableTx)
  {
    if mode == ModeRedo {
      return [ToStep(ms[curr0 - 1], false, disableTx), ToStep(ms[curr0 - 1], true, disableTx)];
    }
    if curr0 == target {
      return [];
    }
    steps := [];
    var direction := 1;
    if curr0 > target {
      direction := -1;
    }
    var isUp := direction == 1;
    var curr := curr0;
    while curr != target
      invariant isUp <==> curr0 < target
      invariant isUp ==> curr0 <= curr <= target
      invariant !isUp ==> target <= curr <= curr0
      invariant steps == Walk(ms, curr0, curr, zigZag, disableTx)
      decreases if isUp then target - curr else curr - target
    {
      var idx := curr;
      if !isUp {
        idx := idx - 1;
      }
      if isUp {
        WalkSnocUp(ms, curr0, curr, zigZag, disableTx);
      } else {
        WalkSnocDown(ms, curr0, curr, zigZag, disableTx);
      }
      steps := steps + [ToStep(ms[idx], isUp, disableTx)];
      if zigZag {
        steps := steps + [ToStep(ms[idx], !isUp, disableTx), ToStep(ms[idx], isUp, disableTx)];
      }
      curr := curr + direction;
    }
  }

  // ---------------------------------------------------------------------------
  // What the plan looks like

  function Dist(curr: int, target: int): nat
  {
    if curr <= target then target - curr else curr - target
  }

  /** The migration the k-th unit of the walk from `curr` to `target` goes through. */
  function WalkIndex(curr: int, target: int, k: int): int
  {
    if curr < target then curr + k else curr - k - 1
  }

  /** The k-th unit of the walk: one primary step, or primary-opposite-primary under ZigZag. */
  ghost predicate UnitAt(w: seq<Step>, ms: seq<Migration>, curr: int, target: int, zigZag: bool, disableTx: bool, k: int)
    requires 0 <= k && 0 <= WalkIndex(curr, target, k) < |ms|
  {
    var up := curr < target;
    var m := ms[WalkIndex(curr, target, k)];
    if zigZag then
      3 * k + 2 < |w| && w[3 * k] == ToStep(m, up, disableTx)
      && w[3 * k + 1] == ToStep(m, !up, disableTx) && w[3 * k + 2] == ToStep(m, up, disableTx)
    else
      k < |w| && w[k] == ToStep(m, up, disableTx)
  }

  lemma {:induction false} WalkLength(ms: seq<Migration>, curr: int, target: int, zigZag: bool, disableTx: bool)
    requires curr == target || (0 <= curr <= |ms| && 0 <= target <= |ms|)
    ensures |Walk(ms, curr, target, zigZag, disableTx)| == (if zigZag then 3 else 1) * Dist(curr, target)
    decreases Dist(curr, target)
  {
    if curr != target {
      WalkLength(ms, Toward(curr, target), target, zigZag, disableTx);
    }
  }

  lemma {:induction false} WalkAt(ms: seq<Migration>, curr: int, target: int, zigZag: bool, disableTx: bool, k: int)
    requires curr == target || (0 <= curr <= |ms| && 0 <= target <= |ms|)
    requires 0 <= k < Dist(curr, target)
    ensures 0 <= WalkIndex(curr, target, k) < |ms|
    ensures UnitAt(Walk(ms, curr, target, zigZag, disableTx), ms, curr, target, zigZag, disableTx, k)
    decreases k
  {
    var w := Walk(ms, curr, target, zigZag, disableTx);
    var next := Toward(curr, target);
    var rest := Walk(ms, next, target, zigZag, disableTx);
    var unit := WalkUnit(ms, WalkIndex(curr, target, 0), curr < target, zigZag, disableTx);
    assert w == unit + rest;
    if k > 0 {
      WalkAt(ms, next, target, zigZag, disableTx, k - 1);
      assert WalkIndex(curr, target, k) == WalkIndex(next, target, k - 1);
      assert (next < target) == (curr < target);
      if zigZag {
        assert w[3 * k] == rest[3 * (k - 1)];
        assert w[3 * k + 1] == rest[3 * (k - 1) + 1];
        assert w[3 * k + 2] == rest[3 * (k - 1) + 2];
      } else {
        assert w[k] == rest[k - 1];
      }
    }
  }

  /**
   * The walk has one unit per version between `curr` and `target` (three steps
   * each under ZigZag), and unit k uses migration curr + k going up and
   * curr - k - 1 going down.
   */
  lemma WalkShape(ms: seq<Migration>, curr: int, target: int, zigZag: bool, disableTx: bool)
    requires curr == target || (0 <= curr <= |ms| && 0 <= target <= |ms|)
    ensures |Walk(ms, curr, target, zigZag, disableTx)| == (if zigZag then 3 else 1) * Dist(curr, target)
    ensures forall k :: 0 <= k < Dist(curr, target) ==>
      0 <= WalkIndex(curr, target, k) < |ms| && UnitAt(Walk(ms, curr, target, zigZag, disableTx), ms, curr, target, zigZag, disableTx, k)
  {
    WalkLength(ms, curr, target, zigZag, disableTx);
    forall k | 0 <= k < Dist(curr, target)
      ensures 0 <= WalkIndex(curr, target, k) < |ms| && UnitAt(Walk(ms, curr, target, zigZag, disableTx), ms, curr, target, zigZag, disableTx, k)
    {
      WalkAt(ms, curr, target, zigZag, disableTx, k);
    }
  }

  lemma {:induction false} WalkDisableTx(ms: seq<Migration>, curr: int, target: int, zigZag: bool, disableTx: bool)
    requires curr == target || (0 <= curr <= |ms| && 0 <= target <= |ms|)
    ensures forall s :: s in Walk(ms, curr, target, zigZag, disableTx) ==> s.disableTx == disableTx
    decreases Dist(curr, target)
  {
    if curr != target {
      WalkDisableTx(ms, Toward(curr, target), target, zigZag, disableTx);
    }
  }

  /** Every planned step carries the run's DisableTx flag. */
  lemma PlanDisableTx(mode: Mode, curr: int, target: int, ms: seq<Migration>, zigZag: bool, disableTx: bool)
    requires StepsDefined(mode, curr, target, |ms|)
    ensures forall s :: s in Plan(mode, curr, target, ms, zigZag, disableTx) ==> s.disableTx == disableTx
  {
    if mode != ModeRedo {
      WalkDisableTx(ms, curr, target, zigZag, disableTx);
    }
  }

  /**
   * Going up over sequential migrations: one step per id curr+1..target, in
   * order, recording that id and running its apply query.
   */
  lemma PlanUp(mode: Mode, curr: int, target: int, ms: seq<Migration>, disableTx: bool)
    requires mode != ModeRedo && Sequential(ms)
    requires 0 <= curr <= target <= |ms|
    ensures |Plan(mode, curr, target, ms, false, disableTx)| == target - curr
    ensures forall k :: 0 <= k < target - curr ==>
      Plan(mode, curr, target, ms, false, disableTx)[k] == Step(curr + k + 1, ms[curr + k].apply, disableTx)
  {
    WalkShape(ms, curr, target, false, disableTx);
    var w := Plan(mode, curr, target, ms, false, disableTx);
    forall k | 0 <= k < target - curr ensures w[k] == Step(curr + k + 1, ms[curr + k].apply, disableTx) {
      assert UnitAt(w, ms, curr, target, false, disableTx, k);
    }
  }

  /**
   * Going down over sequential migrations: one step per id curr, curr-1, ...,
   * target+1, recording id - 1 and running that migration's revert query.
   */
  lemma PlanDown(mode: Mode, curr: int, target: int, ms: seq<Migration>, disableTx: bool)
    requires mode != ModeRedo && Sequential(ms)
    requires 0 <= target <= curr <= |ms|
    ensures |Plan(mode, curr, target, ms, false, disableTx)| == curr - target
    ensures forall k :: 0 <= k < curr - target ==>
      Plan(mode, curr, target, ms, false, disableTx)[k] == Step(curr - k - 1, ms[curr - k - 1].revert, disableTx)
  {
    WalkShape(ms, curr, target, false, disableTx);
    var w := Plan(mode, curr, target, ms, false, disableTx);
    forall k | 0 <= k < curr - target ensures w[k] == Step(curr - k - 1, ms[curr - k - 1].revert, disableTx) {
      assert UnitAt(w, ms, curr, target, false, disableTx, k);
    }
  }

  /**
   * ZigZag triples the plan: each step of the plain plan is followed by the
   * opposite step of the same migration and then by itself again.
   */
  lemma PlanZigZag(mode: Mode, curr: int, target: int, ms: seq<Migration>, disableTx: bool)
    requires mode != ModeRedo && StepsDefined(mode, curr, target, |ms|)
    ensures var plain := Plan(mode, curr, target, ms, false, disableTx);
      var zz := Plan(mode, curr, target, ms, true, disableTx);
      |zz| == 3 * |plain|
      && forall k :: 0 <= k < |plain| ==>
        zz[3 * k] == plain[k] && zz[3 * k + 2] == plain[k]
        && 0 <= WalkIndex(curr, target, k) < |ms|
        && zz[3 * k + 1] == ToStep(ms[WalkIndex(curr, target, k)], !(curr < target), disableTx)
  {
    WalkShape(ms, curr, target, false, disableTx);
    WalkShape(ms, curr, target, true, disableTx);
    var plain := Plan(mode, curr, target, ms, false, disableTx);
    var zz := Plan(mode, curr, target, ms, true, disableTx);
    forall k | 0 <= k < |plain|
      ensures zz[3 * k] == plain[k] && zz[3 * k + 2] == plain[k]
        && 0 <= WalkIndex(curr, target, k) < |ms|
        && zz[3 * k + 1] == ToStep(ms[WalkIndex(curr, target, k)], !(curr < target), disableTx)
    {
      assert UnitAt(plain, ms, curr, target, false, disableTx, k);
      assert UnitAt(zz, ms, curr, target, true, disableTx, k);
    }
  }

  /** A non-empty plan over sequential migrations ends by recording the target version. */
  lemma PlanEndsAtTarget(mode: Mode, curr: int, target: int, ms: seq<Migration>, zigZag: bool, disableTx: bool)
    requires mode != ModeRedo && Sequential(ms)
    requires StepsDefined(mode, curr, target, |ms|)
    ensures Plan(mode, curr, target, ms, zigZag, disableTx) == [] <==> curr == target
    ensures curr != target ==>
      var p := Plan(mode, curr, target, ms, zigZag, disableTx);
      p[|p| - 1].version == target
  {
    WalkShape(ms, curr, target, zigZag, disableTx);
    if curr != target {
      var p := Plan(mode, curr, target, ms, zigZag, disableTx);
      assert UnitAt(p, ms, curr, target, zigZag, disableTx, Dist(curr, target) - 1);
    }
  }

  /** Redo reverts the current migration and applies it again, ending where it started. */
  lemma PlanRedo(curr: int, target: int, ms: seq<Migration>, zigZag: bool, disableTx: bool)
    requires Sequential(ms) && 1 <= curr <= |ms|
    ensures Plan(ModeRedo, curr, target, ms, zigZag, disableTx)
      == [Step(curr - 1, ms[curr - 1].revert, disableTx), Step(curr, ms[curr - 1].apply, disableTx)]
  {
  }

  /**
   * Applying everything from 0 and reverting everything from |ms| mirror each
   * other: the k-th revert step undoes migration |ms| - k, the one the
   * (|ms| - 1 - k)-th apply step ran, and records the version before it.
   */
  lemma ApplyRevertMirror(ms: seq<Migration>, disableTx: bool)
    requires Sequential(ms)
    ensures var up := Plan(ModeApplyAll, 0, |ms|, ms, false, disableTx);
      var down := Plan(ModeRevertAll, |ms|, 0, ms, false, disableTx);
      |up| == |down| == |ms|
      && forall k :: 0 <= k < |ms| ==>
        down[k] == ToStep(ms[|ms| - 1 - k], false, disableTx)
        && up[|ms| - 1 - k] == ToStep(ms[|ms| - 1 - k], true, disableTx)
        && down[k].version == up[|ms| - 1 - k].version - 1
  {
    PlanUp(ModeApplyAll, 0, |ms|, ms, disableTx);
    PlanDown(ModeRevertAll, |ms|, 0, ms, disableTx);
  }

  /**
   * Where prepareSteps indexes out of range although the bounds check has
   * passed, for a non-negative version and a positive `Num`: RevertN past
   * version 0, Redo at version 0, and Drop from a version above the number
   * of migrations (Drop has no bounds check).
   */
  lemma PanicCases(mode: Mode, num: int, curr: int, count: nat)
    requires KnownMode(mode) && Target(mode, num, curr, count).Ok? && 0 <= curr
    requires (mode == ModeApplyN || mode == ModeRevertN) ==> num > 0
    ensures !StepsDefined(mode, curr, Target(mode, num, curr, count).value, count) <==>
      (mode == ModeRevertN && num > curr) || (mode == ModeRedo && curr == 0) || (mode == ModeDrop && curr > count)
  {
  }
}
