/**
 * `mig.load` (dbump.go): stable-sort the loaded migrations by id, in place, then
 * compare every id with its 1-based position.
 */
module Validator {
  import opened Wrappers
  import opened Migrations

  /** Why a load fails: the loader's own error, or a broken id sequence. */
  datatype LoadError =
    | LoaderFailed(msg: string)
    | Duplicate(id: int, name: string)   // "duplicate migration number: %d (%s)"
    | Missing(want: int, have: int)      // "missing migration number: %d (have %d)"

  // ---------------------------------------------------------------------------
  // The stable sort, as a function

  /**
   * Where insertion puts an element with id `key` into `t`: just after the last
   * element, scanning from the back, whose id is not greater than `key`.
   */
  function InsertPos(t: seq<Migration>, key: int): (p: nat)
    ensures p <= |t|
  {
    if |t| == 0 || t[|t| - 1].id <= key then |t| else InsertPos(t[..|t| - 1], key)
  }

  function InsertById(t: seq<Migration>, x: Migration): seq<Migration>
  {
    var p := InsertPos(t, x.id);
    t[..p] + [x] + t[p..]
  }

  /** `sort.SliceStable` by id. Every stable sort gives this same sequence. */
  function SortById(s: seq<Migration>): seq<Migration>
  {
    if s == [] then [] else InsertById(SortById(s[..|s| - 1]), s[|s| - 1])
  }

  ghost predicate SortedById(t: seq<Migration>)
  {
    forall i, j :: 0 <= i < j < |t| ==> t[i].id <= t[j].id
  }

  /** The elements of `s` with id `k`, in their order in `s`. */
  function WithId(s: seq<Migration>, k: int): seq<Migration>
  {
    if s == [] then []
    else WithId(s[..|s| - 1], k) + (if s[|s| - 1].id == k then [s[|s| - 1]] else [])
  }

  /** The multiset of the ids of `s`. */
  function IdBag(s: seq<Migration>): multiset<int>
  {
    if s == [] then multiset{} else IdBag(s[..|s| - 1]) + multiset{s[|s| - 1].id}
  }

  /** The multiset {1, 2, ..., n}. */
  function OneTo(n: nat): multiset<int>
  {
    if n == 0 then multiset{} else OneTo(n - 1) + multiset{n}
  }

  lemma {:induction false} WithIdAppend(a: seq<Migration>, b: seq<Migration>, k: int)
    ensures WithId(a + b, k) == WithId(a, k) + WithId(b, k)
    decreases |b|
  {
    if b == [] {
      assert a + b == a;
    } else {
      assert (a + b)[..|a + b| - 1] == a + b[..|b| - 1];
      WithIdAppend(a, b[..|b| - 1], k);
    }
  }

  lemma WithIdNone(s: seq<Migration>, k: int)
    requires forall i :: 0 <= i < |s| ==> s[i].id != k
    ensures WithId(s, k) == []
  {
    if s != [] {
      WithIdNone(s[..|s| - 1], k);
    }
  }

  /** In a sorted sequence, everything from the insert position on is greater. */
  lemma {:induction false} InsertPosSorted(t: seq<Migration>, key: int)
    requires SortedById(t)
    ensures forall i :: 0 <= i < InsertPos(t, key) ==> t[i].id <= key
    ensures forall i :: InsertPos(t, key) <= i < |t| ==> t[i].id > key
    decreases |t|
  {
    if |t| > 0 && t[|t| - 1].id > key {
      InsertPosSorted(t[..|t| - 1], key);
    }
  }

  lemma InsertSorted(t: seq<Migration>, x: Migration)
    requires SortedById(t)
    ensures SortedById(InsertById(t, x))
  {
    var p := InsertPos(t, x.id);
    InsertPosSorted(t, x.id);
    var r := InsertById(t, x);
    assert |r| == |t| + 1;
    assert forall i :: 0 <= i < p ==> r[i] == t[i];
    assert r[p] == x;
    assert forall i :: p < i < |r| ==> r[i] == t[i - 1];
    forall i, j | 0 <= i < j < |r| ensures r[i].id <= r[j].id {
      if j < p {
        assert r[i].id == t[i].id && r[j].id == t[j].id;
      } else if j == p {
        assert r[i].id == t[i].id;
      } else if i < p {
        assert r[i].id == t[i].id && r[j].id == t[j - 1].id;
      } else if i == p {
        assert r[j].id == t[j - 1].id;
      } else {
        assert r[i].id == t[i - 1].id && r[j].id == t[j - 1].id;
      }
    }
  }

  lemma InsertMultiset(t: seq<Migration>, x: Migration)
    ensures multiset(InsertById(t, x)) == multiset(t) + multiset{x}
  {
    var p := InsertPos(t, x.id);
    assert t == t[..p] + t[p..];
    assert multiset(t) == multiset(t[..p]) + multiset(t[p..]);
    assert multiset(t[..p] + [x] + t[p..]) == multiset(t[..p]) + multiset([x]) + multiset(t[p..]);
  }

  /** Nothing after the insert position of `key` has id `key`. */
  lemma InsertPosTail(t: seq<Migration>, key: int)
    requires SortedById(t)
    ensures WithId(t[InsertPos(t, key)..], key) == []
  {
    var p := InsertPos(t, key);
    InsertPosSorted(t, key);
    var back := t[p..];
    forall i | 0 <= i < |back| ensures back[i].id != key {
      assert back[i] == t[p + i];
    }
    WithIdNone(back, key);
  }

  lemma InsertWithId(t: seq<Migration>, x: Migration, k: int)
    requires SortedById(t)
    ensures WithId(InsertById(t, x), k) == WithId(t, k) + WithId([x], k)
  {
    var p := InsertPos(t, x.id);
    var front, back := t[..p], t[p..];
    assert t == front + back;
    assert InsertById(t, x) == front + [x] + back;
    WithIdAppend(front + [x], back, k);
    WithIdAppend(front, [x], k);
    WithIdAppend(front, back, k);
    assert [x][..0] == [];
    if x.id == k {
      InsertPosTail(t, k);
      assert WithId(back, k) == [];
    } else {
      assert WithId([x], k) == [];
    }
  }

  lemma {:induction false} InsertByIdProps(t: seq<Migration>, x: Migration)
    requires SortedById(t)
    ensures SortedById(InsertById(t, x))
    ensures multiset(InsertById(t, x)) == multiset(t) + multiset{x}
    ensures forall k :: WithId(InsertById(t, x), k) == WithId(t, k) + WithId([x], k)
  {
    InsertSorted(t, x);
    InsertMultiset(t, x);
    forall k ensures WithId(InsertById(t, x), k) == WithId(t, k) + WithId([x], k) {
      InsertWithId(t, x, k);
    }
  }

  /**
   * SortById is a stable sort: the result is ordered by id, is a permutation of
   * the input, and keeps the input order among migrations that share an id.
   */
  lemma {:induction false} SortByIdCorrect(s: seq<Migration>)
    ensures |SortById(s)| == |s|
    ensures SortedById(SortById(s))
    ensures multiset(SortById(s)) == multiset(s)
    ensures forall k :: WithId(SortById(s), k) == WithId(s, k)
  {
    if s != [] {
      var init, x := s[..|s| - 1], s[|s| - 1];
      var t := SortById(init);
      assert SortById(s) == InsertById(t, x);
      SortByIdCorrect(init);
      InsertByIdProps(t, x);
      assert s == init + [x];
      assert multiset(s) == multiset(init) + multiset{x};
      WithIdStep(init, x, t);
    }
  }

  /** Inserting the last element keeps, for every id, the order of the input so far. */
  lemma WithIdStep(init: seq<Migration>, x: Migration, t: seq<Migration>)
    requires SortedById(t)
    requires forall k :: WithId(t, k) == WithId(init, k)
    ensures forall k :: WithId(InsertById(t, x), k) == WithId(init + [x], k)
  {
    InsertByIdProps(t, x);
    forall k ensures WithId(InsertById(t, x), k) == WithId(init + [x], k) {
      WithIdAppend(init, [x], k);
    }
  }

  // ---------------------------------------------------------------------------
  // The position check, as a function

  /** The check of the loop in `mig.load`, from position `i` on. */
  function CheckFrom(ms: seq<Migration>, i: nat): Result<seq<Migration>, LoadError>
    requires i <= |ms|
    decreases |ms| - i
  {
    if i == |ms| then Ok(ms)
    else if ms[i].id < i + 1 then Err(Duplicate(ms[i].id, ms[i].name))
    else if ms[i].id > i + 1 then Err(Missing(i + 1, ms[i].id))
    else CheckFrom(ms, i + 1)
  }

  /** What `mig.load` returns for what the loader gave it. */
  function Validate(loaded: Result<seq<Migration>, string>): Result<seq<Migration>, LoadError>
  {
    match loaded
    case Err(e) => Err(LoaderFailed(e))
    case Ok(ms) => CheckFrom(SortById(ms), 0)
  }

  /** The check passes exactly when every id equals its position, and otherwise names the first mismatch. */
  lemma {:induction false} CheckFromFirstMismatch(ms: seq<Migration>, i: nat)
    requires i <= |ms|
    requires forall j :: 0 <= j < i ==> ms[j].id == j + 1
    ensures CheckFrom(ms, i).Ok? <==> Sequential(ms)
    ensures CheckFrom(ms, i).Ok? ==> CheckFrom(ms, i).value == ms
    ensures CheckFrom(ms, i).Err? ==>
      exists f :: FirstMismatch(ms, f) && CheckFrom(ms, i).error == MismatchError(ms, f)
    decreases |ms| - i
  {
    if i < |ms| {
      if ms[i].id != i + 1 {
        assert FirstMismatch(ms, i);
      } else {
        CheckFromFirstMismatch(ms, i + 1);
      }
    }
  }

  /** Position `f` is the first whose id differs from `f + 1`. */
  ghost predicate FirstMismatch(ms: seq<Migration>, f: int)
  {
    0 <= f < |ms| && ms[f].id != f + 1 && forall j :: 0 <= j < f ==> ms[j].id == j + 1
  }

  /** A lower id reads as a duplicate, a higher one as a missing number. */
  function MismatchError(ms: seq<Migration>, f: int): LoadError
    requires 0 <= f < |ms|
  {
    if ms[f].id < f + 1 then Duplicate(ms[f].id, ms[f].name) else Missing(f + 1, ms[f].id)
  }

  lemma {:induction false} IdBagAppend(a: seq<Migration>, b: seq<Migration>)
    ensures IdBag(a + b) == IdBag(a) + IdBag(b)
    decreases |b|
  {
    if b == [] {
      assert a + b == a;
    } else {
      assert (a + b)[..|a + b| - 1] == a + b[..|b| - 1];
      IdBagAppend(a, b[..|b| - 1]);
    }
  }

  /** The multiplicity of `k` in IdBag(s) is the number of migrations with id `k`. */
  lemma {:induction false} IdBagCount(s: seq<Migration>, k: int)
    ensures IdBag(s)[k] == |WithId(s, k)|
  {
    if s != [] {
      IdBagCount(s[..|s| - 1], k);
    }
  }

  lemma {:induction false} IdBagHas(s: seq<Migration>, k: int)
    requires k in IdBag(s)
    ensures exists j :: 0 <= j < |s| && s[j].id == k
  {
    var init := s[..|s| - 1];
    if s[|s| - 1].id != k {
      IdBagHas(init, k);
      var j :| 0 <= j < |init| && init[j].id == k;
      assert s[j].id == k;
    }
  }

  lemma {:induction false} IdBagMember(s: seq<Migration>, i: nat)
    requires i < |s|
    ensures s[i].id in IdBag(s)
  {
    if i < |s| - 1 {
      IdBagMember(s[..|s| - 1], i);
    }
  }

  lemma {:induction false} IdBagTwice(s: seq<Migration>, i: nat, j: nat)
    requires i < j < |s| && s[i].id == s[j].id
    ensures IdBag(s)[s[i].id] >= 2
  {
    var init := s[..|s| - 1];
    if j == |s| - 1 {
      IdBagMember(init, i);
    } else {
      IdBagTwice(init, i, j);
    }
  }

  lemma {:induction false} OneToHas(n: nat, k: int)
    ensures k in OneTo(n) <==> 1 <= k <= n
  {
    if n > 0 {
      OneToHas(n - 1, k);
    }
  }

  lemma {:induction false} SequentialBag(t: seq<Migration>)
    requires Sequential(t)
    ensures IdBag(t) == OneTo(|t|)
  {
    if t != [] {
      SequentialBag(t[..|t| - 1]);
    }
  }

  lemma BagCancel(a: multiset<int>, b: multiset<int>, x: int)
    requires a + multiset{x} == b + multiset{x}
    ensures a == b
  {
    assert a == (a + multiset{x}) - multiset{x};
    assert b == (b + multiset{x}) - multiset{x};
  }

  lemma SortedInit(t: seq<Migration>)
    requires SortedById(t) && t != []
    ensures SortedById(t[..|t| - 1])
  {
    var init := t[..|t| - 1];
    forall i, j | 0 <= i < j < |init| ensures init[i].id <= init[j].id {
      assert init[i] == t[i] && init[j] == t[j];
    }
  }

  /** The last element of a sorted sequence whose ids are {1..n} has id n. */
  lemma SortedOneToLast(t: seq<Migration>)
    requires SortedById(t) && t != []
    requires IdBag(t) == OneTo(|t|)
    ensures t[|t| - 1].id == |t|
  {
    var n := |t|;
    OneToHas(n, n);
    IdBagHas(t, n);
    var j :| 0 <= j < n && t[j].id == n;
    assert t[j].id <= t[n - 1].id;
    IdBagMember(t, n - 1);
    OneToHas(n, t[n - 1].id);
  }

  /** A sorted sequence whose ids are {1..n} as a multiset is 1, 2, ..., n. */
  lemma {:induction false} SortedOneTo(t: seq<Migration>)
    requires SortedById(t)
    requires IdBag(t) == OneTo(|t|)
    ensures Sequential(t)
    decreases |t|
  {
    var n := |t|;
    if n > 0 {
      var init := t[..n - 1];
      SortedOneToLast(t);
      assert IdBag(t) == IdBag(init) + multiset{n};
      assert OneTo(n) == OneTo(n - 1) + multiset{n};
      BagCancel(IdBag(init), OneTo(n - 1), n);
      SortedInit(t);
      SortedOneTo(init);
      assert forall i :: 0 <= i < n - 1 ==> t[i] == init[i];
    }
  }

  /** The part of SortByIdCorrect the id checks need. */
  lemma SortedPermutation(ms: seq<Migration>)
    ensures |SortById(ms)| == |ms| && SortedById(SortById(ms))
    ensures IdBag(SortById(ms)) == IdBag(ms)
  {
    SortByIdCorrect(ms);
    forall k ensures IdBag(SortById(ms))[k] == IdBag(ms)[k] {
      IdBagCount(ms, k);
      IdBagCount(SortById(ms), k);
    }
  }

  /**
   * `mig.load` accepts a loaded set exactly when its ids are 1..n, each once,
   * and then returns the stably sorted sequence.
   */
  lemma ValidateAccepts(ms: seq<Migration>)
    ensures Validate(Ok(ms)).Ok? <==> IdBag(ms) == OneTo(|ms|)
    ensures Validate(Ok(ms)).Ok? ==> Validate(Ok(ms)).value == SortById(ms) && Sequential(SortById(ms))
  {
    var t := SortById(ms);
    SortedPermutation(ms);
    CheckFromFirstMismatch(t, 0);
    if Sequential(t) {
      SequentialBag(t);
    }
    if IdBag(ms) == OneTo(|ms|) {
      SortedOneTo(t);
    }
  }

  /** A stable sort leaves an already sorted sequence as it is. */
  lemma {:induction false} SortByIdSorted(s: seq<Migration>)
    requires SortedById(s)
    ensures SortById(s) == s
  {
    if s != [] {
      var init := s[..|s| - 1];
      SortByIdSorted(init);
      assert InsertPos(init, s[|s| - 1].id) == |init|;
      assert init + [s[|s| - 1]] == s;
    }
  }

  /**
   * A set that is already 1..n in order loads unchanged, so loading what a
   * load returned gives it back again.
   */
  lemma ValidateIdempotent(ms: seq<Migration>)
    ensures Sequential(ms) ==> Validate(Ok(ms)) == Ok(ms)
    ensures Validate(Ok(ms)).Ok? ==> Validate(Ok(Validate(Ok(ms)).value)) == Validate(Ok(ms))
  {
    if Sequential(ms) {
      SortByIdSorted(ms);
      CheckFromFirstMismatch(ms, 0);
    }
    if Validate(Ok(ms)).Ok? {
      var t := Validate(Ok(ms)).value;
      ValidateAccepts(ms);
      SortByIdSorted(t);
      CheckFromFirstMismatch(t, 0);
    }
  }

  lemma SortedDuplicate(t: seq<Migration>)
    requires SortedById(t)
    requires CheckFrom(t, 0).Err? && CheckFrom(t, 0).error.Duplicate?
    ensures var id := CheckFrom(t, 0).error.id;
      id < 1 || IdBag(t)[id] >= 2
  {
    CheckFromFirstMismatch(t, 0);
    var f :| FirstMismatch(t, f) && CheckFrom(t, 0).error == MismatchError(t, f);
    assert t[f].id < f + 1;
    if f > 0 {
      assert t[f - 1].id == f;
      assert t[f - 1].id <= t[f].id;
      IdBagTwice(t, f - 1, f);
    }
  }

  lemma SortedMissing(t: seq<Migration>)
    requires SortedById(t)
    requires CheckFrom(t, 0).Err? && CheckFrom(t, 0).error.Missing?
    ensures var want := CheckFrom(t, 0).error.want;
      1 <= want <= |t| && want !in IdBag(t)
  {
    CheckFromFirstMismatch(t, 0);
    var f :| FirstMismatch(t, f) && CheckFrom(t, 0).error == MismatchError(t, f);
    assert t[f].id > f + 1;
    if f + 1 in IdBag(t) {
      IdBagHas(t, f + 1);
    }
  }

  /** A reported duplicate id really occurs twice in the loaded set, or is not positive. */
  lemma DuplicateMeansRepeated(ms: seq<Migration>)
    requires Validate(Ok(ms)).Err? && Validate(Ok(ms)).error.Duplicate?
    ensures var id := Validate(Ok(ms)).error.id;
      id < 1 || IdBag(ms)[id] >= 2
  {
    SortedPermutation(ms);
    SortedDuplicate(SortById(ms));
  }

  /** A reported missing number lies in 1..n and is the id of no loaded migration. */
  lemma MissingMeansAbsent(ms: seq<Migration>)
    requires Validate(Ok(ms)).Err? && Validate(Ok(ms)).error.Missing?
    ensures var want := Validate(Ok(ms)).error.want;
      1 <= want <= |ms| && want !in IdBag(ms)
  {
    SortedPermutation(ms);
    SortedMissing(SortById(ms));
  }

  // ---------------------------------------------------------------------------
  // The code of `mig.load`, step by step

  /** The insert position is just after the last id not greater than `key`. */
  lemma {:induction false} InsertPosAt(t: seq<Migration>, j: nat, key: int)
    requires j <= |t| && (j == 0 || t[j - 1].id <= key)
    requires forall k :: j <= k < |t| ==> t[k].id > key
    ensures InsertPos(t, key) == j
    decreases |t|
  {
    if |t| > j {
      var init := t[..|t| - 1];
      assert forall k :: j <= k < |init| ==> init[k].id > key by {
        assert forall k :: 0 <= k < |init| ==> init[k] == t[k];
      }
      InsertPosAt(init, j, key);
    }
  }

  lemma SortByIdSnoc(s: seq<Migration>, i: nat)
    requires i < |s|
    ensures SortById(s[..i + 1]) == InsertById(SortById(s[..i]), s[i])
  {
    assert s[..i + 1][..i] == s[..i];
  }

  /** After the inner loop of SortStable, the prefix holds `t` with `key` put at `j`. */
  lemma ShiftedIsInsert(s: seq<Migration>, t: seq<Migration>, j: nat, key: Migration)
    requires j <= |t| < |s|
    requires forall k {:trigger s[k]} :: 0 <= k < j ==> s[k] == t[k]
    requires s[j] == key
    requires forall k {:trigger s[k]} :: j < k <= |t| ==> s[k] == t[k - 1]
    ensures s[..|t| + 1] == t[..j] + [key] + t[j..]
  {
    var front := s[..j];
    var back := s[j + 1..|t| + 1];
    forall k | 0 <= k < j ensures front[k] == t[..j][k] {
      assert front[k] == s[k];
    }
    forall k | 0 <= k < |t| - j ensures back[k] == t[j..][k] {
      assert back[k] == s[j + 1 + k];
    }
    assert s[..|t| + 1] == front + [key] + back;
  }

  /** One round of the insertion sort: move `a[i]` back into the sorted prefix `a[..i]`. */
  method InsertAt(a: array<Migration>, i: nat)
    requires i < a.Length
    modifies a
    ensures a[..i + 1] == InsertById(old(a[..i]), old(a[i]))
    ensures forall k :: i < k < a.Length ==> a[k] == old(a[k])
  {
    var key := a[i];
    ghost var t := a[..i];
    var j := i;
    while j > 0 && a[j - 1].id > key.id
      invariant 0 <= j <= i
      invariant forall k {:trigger a[k]} :: 0 <= k < j ==> a[k] == t[k]
      invariant forall k {:trigger a[k]} :: j < k <= i ==> a[k] == t[k - 1]
      invariant forall k :: i < k < a.Length ==> a[k] == old(a[k])
      invariant forall k :: j <= k < i ==> t[k].id > key.id
    {
      a[j] := a[j - 1];
      j := j - 1;
    }
    InsertPosAt(t, j, key.id);
    a[j] := key;
    ShiftedIsInsert(a[..], t, j, key);
    assert InsertById(t, key) == t[..j] + [key] + t[j..];
  }

  /** The in-place `sort.SliceStable(ms, ...)`, written as an insertion sort. */
  method SortStable(a: array<Migration>)
    modifies a
    ensures a[..] == SortById(old(a[..]))
  {
    ghost var orig := a[..];
    var i := 0;
    while i < a.Length
      invariant 0 <= i <= a.Length
      invariant a[..i] == SortById(orig[..i])
      invariant forall k :: i <= k < a.Length ==> a[k] == orig[k]
    {
      InsertAt(a, i);
      SortByIdSnoc(orig, i);
      i := i + 1;
    }
    assert orig[..a.Length] == orig;
    assert a[..] == a[..a.Length];
  }

  /** The `for i, m := range ms` loop of `mig.load` over the sorted slice. */
  method CheckPositions(a: array<Migration>) returns (r: Result<seq<Migration>, LoadError>)
    ensures r == CheckFrom(a[..], 0)
  {
    var i := 0;
    while i < a.Length
      invariant 0 <= i <= a.Length
      invariant CheckFrom(a[..], i) == CheckFrom(a[..], 0)
    {
      var want := i + 1;
      if a[i].id < want {
        return Err(Duplicate(a[i].id, a[i].name));
      } else if a[i].id > want {
        return Err(Missing(want, a[i].id));
      }
      i := i + 1;
    }
    return Ok(a[..]);
  }
}
