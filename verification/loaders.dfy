/**
 * load.go: reading migrations from a directory listing (`loadMigrationsFromFS`,
 * `loadMigrationFromFS`, `parseMigration`) and from a slice (`SliceLoader`).
 */
module Loaders {
  import opened Wrappers
  import opened Migrations
  import opened Text

  // ---------------------------------------------------------------------------
  // parseMigration

  /** `parseMigration`: apply above the first delimiter, revert below it, both trimmed. */
  function ParseMigration(body: string): Migration
  {
    var parts := SplitFirst(body, MigrationDelimiter);
    Migration(0, "", TrimSpace(parts[0]), if |parts| == 2 then TrimSpace(parts[1]) else "")
  }

  /**
   * Without the delimiter the whole body is the apply query and the revert
   * query is empty; with it, the body is cut at its first occurrence only.
   */
  lemma ParseMigrationSpec(body: string)
    ensures var m := ParseMigration(body);
      && m.id == 0 && m.name == ""
      && ((forall k :: 0 <= k ==> !OccursAt(body, MigrationDelimiter, k)) ==>
            m.apply == TrimSpace(body) && m.revert == "")
      && (forall i ::
            (OccursAt(body, MigrationDelimiter, i)
             && forall k :: 0 <= k < i ==> !OccursAt(body, MigrationDelimiter, k)) ==>
            m.apply == TrimSpace(body[..i]) && m.revert == TrimSpace(body[i + |MigrationDelimiter|..]))
  {
    var parts := SplitFirst(body, MigrationDelimiter);
    SplitFirstJoin(body, MigrationDelimiter);
    forall i | OccursAt(body, MigrationDelimiter, i) && forall k :: 0 <= k < i ==> !OccursAt(body, MigrationDelimiter, k)
      ensures parts == [body[..i], body[i + |MigrationDelimiter|..]]
    {
      FirstOccurrence(body, MigrationDelimiter, i);
    }
  }

  /** The first occurrence of `sep` is where SplitFirst cuts. */
  lemma FirstOccurrence(s: string, sep: string, i: int)
    requires |sep| > 0 && OccursAt(s, sep, i)
    requires forall k :: 0 <= k < i ==> !OccursAt(s, sep, k)
    ensures SplitFirst(s, sep) == [s[..i], s[i + |sep|..]]
  {
    var r := IndexFrom(s, sep, 0);
    assert r.Some?;
    assert r.value == i;
  }

  /** A migration file written as apply, delimiter line, revert. */
  function MigrationFile(apply: string, revert: string): string
  {
    apply + "\n" + MigrationDelimiter + "\n" + revert
  }

  /** A string TrimSpace leaves alone has nothing to cut on either side. */
  lemma TrimSpaceFixed(s: string)
    requires TrimSpace(s) == s
    ensures TrimLeft(s, Spaces) == s && TrimRight(s, Spaces) == s
  {
    var l := TrimLeft(s, Spaces);
    assert TrimRight(l, Spaces) == s;
    assert |l| == |s|;
    assert l == s;
  }

  lemma TrimLeftStop(s: string)
    requires s != [] && s[0] !in Spaces
    ensures TrimLeft(s, Spaces) == s
  {
  }

  lemma TrimRightSpace(a: string, c: char)
    requires c in Spaces
    ensures TrimRight(a + [c], Spaces) == TrimRight(a, Spaces)
  {
    assert (a + [c])[..|a|] == a;
  }

  lemma TrimSpaceNewlineAfter(a: string)
    requires TrimSpace(a) == a
    ensures TrimSpace(a + "\n") == a
  {
    TrimSpaceFixed(a);
    TrimRightSpace(a, '\n');
    if a == [] {
      assert TrimLeft("\n", Spaces) == [];
    } else {
      assert a[0] !in Spaces;
      TrimLeftStop(a + "\n");
    }
  }

  lemma TrimSpaceNewlineBefore(r: string)
    requires TrimSpace(r) == r
    ensures TrimSpace("\n" + r) == r
  {
    TrimSpaceFixed(r);
    assert |TrimLeft(r, Spaces)| == |r| - LeftCut(r, Spaces);
    NewlineCut(r);
  }

  /** A newline in front of a text that starts with no space is all TrimLeft cuts. */
  lemma NewlineCut(r: string)
    requires LeftCut(r, Spaces) == 0
    ensures TrimLeft("\n" + r, Spaces) == r
  {
    var s := "\n" + r;
    assert s[1..] == r;
    assert LeftCut(s, Spaces) == 1;
  }

  /** The delimiter is a single line: it holds no newline. */
  lemma DelimiterIsOneLine()
    ensures '\n' !in MigrationDelimiter
  {
  }

  /**
   * Between two newlines after a text free of `sep`, the first occurrence of a
   * one-line `sep` is the one just after the first newline.
   */
  lemma SeparatorAt(apply: string, sep: string, revert: string)
    requires |sep| > 0 && '\n' !in sep
    requires forall k :: 0 <= k ==> !OccursAt(apply, sep, k)
    ensures SplitFirst(apply + "\n" + sep + "\n" + revert, sep) == [apply + "\n", "\n" + revert]
  {
    var body := apply + "\n" + sep + "\n" + revert;
    var i := |apply| + 1;
    assert body[i..i + |sep|] == sep;
    forall k | 0 <= k < i ensures !OccursAt(body, sep, k) {
      if k + |sep| <= |apply| {
        assert apply[k..k + |sep|] == body[k..k + |sep|];
        assert !OccursAt(apply, sep, k);
      } else if k + |sep| <= |body| {
        assert body[k..k + |sep|][|apply| - k] == '\n';
        assert sep[|apply| - k] in sep;
      }
    }
    assert OccursAt(body, sep, i);
    assert IndexFrom(body, sep, 0) == Some(i);
    assert body[..i] == apply + "\n";
    assert body[i + |sep|..] == "\n" + revert;
  }

  /**
   * parseMigration recovers both queries of a file written by MigrationFile,
   * as long as they carry no surrounding space and the apply query does not
   * itself contain the delimiter.
   */
  lemma ParseMigrationFile(apply: string, revert: string)
    requires TrimSpace(apply) == apply && TrimSpace(revert) == revert
    requires forall k :: 0 <= k ==> !OccursAt(apply, MigrationDelimiter, k)
    ensures ParseMigration(MigrationFile(apply, revert)) == Migration(0, "", apply, revert)
  {
    DelimiterIsOneLine();
    SeparatorAt(apply, MigrationDelimiter, revert);
    TrimSpaceNewlineAfter(apply);
    TrimSpaceNewlineBefore(revert);
  }

  // ---------------------------------------------------------------------------
  // The file-name filter `^(\d+)_.+\.sql$` and the id parse

  /** The length of the run of ASCII digits that starts `s`. */
  function LeadingDigits(s: string): (n: nat)
    ensures n <= |s| && AllDigits(s[..n]) && (n < |s| ==> !IsDigit(s[n]))
  {
    if s != [] && '0' <= s[0] <= '9' then
      var n := LeadingDigits(s[1..]) + 1;
      assert s[..n] == [s[0]] + s[1..][..n - 1];
      n
    else 0
  }

  /** `migrationRE.FindStringSubmatch(name)` finds a match: the regex, read off directly. */
  predicate IsMigrationName(name: string)
  {
    var d := LeadingDigits(name);
    && d > 0
    && d + 6 <= |name|
    && name[d] == '_'
    && name[|name| - 4..] == ".sql"
    && (forall k :: d < k < |name| ==> name[k] != '\n')
  }

  /** The language of `^(\d+)_.+\.sql$`: digits, `_`, at least one non-newline character, `.sql`. */
  ghost predicate InRegexLanguage(name: string)
  {
    exists digits: string, mid: string ::
      name == digits + "_" + mid + ".sql" && |digits| > 0 && AllDigits(digits)
      && |mid| > 0 && (forall k :: 0 <= k < |mid| ==> mid[k] != '\n')
  }

  lemma RegexFromFilter(name: string)
    requires IsMigrationName(name)
    ensures InRegexLanguage(name)
  {
    var d := LeadingDigits(name);
    var digits, mid := name[..d], name[d + 1..|name| - 4];
    assert name == digits + "_" + mid + ".sql";
    forall k | 0 <= k < |mid| ensures mid[k] != '\n' {
      assert mid[k] == name[d + 1 + k];
    }
  }

  lemma FilterFromRegex(name: string, digits: string, mid: string)
    requires name == digits + "_" + mid + ".sql" && |digits| > 0 && AllDigits(digits)
    requires |mid| > 0 && (forall k :: 0 <= k < |mid| ==> mid[k] != '\n')
    ensures IsMigrationName(name)
  {
    var d := LeadingDigits(name);
    assert name[..|digits|] == digits;
    assert name[|digits|] == '_';
    assert d == |digits|;
    assert name[|name| - 4..] == ".sql";
    forall k | d < k < |name| ensures name[k] != '\n' {
      if k < d + 1 + |mid| {
        assert name[k] == mid[k - d - 1];
      } else {
        assert name[k] == ".sql"[k - d - 1 - |mid|];
      }
    }
  }

  /** The filter keeps exactly the names the regular expression matches. */
  lemma IsMigrationNameIsRegex(name: string)
    ensures IsMigrationName(name) <==> InRegexLanguage(name)
  {
    if IsMigrationName(name) {
      RegexFromFilter(name);
    }
    if InRegexLanguage(name) {
      var digits: string, mid: string :|
        name == digits + "_" + mid + ".sql" && |digits| > 0 && AllDigits(digits)
        && |mid| > 0 && (forall k :: 0 <= k < |mid| ==> mid[k] != '\n');
      FilterFromRegex(name, digits, mid);
    }
  }

  const MaxInt32: int := 0x7FFF_FFFF

  /** `strconv.ParseInt(id, 10, 32)` on the captured run of digits. */
  function ParseId(digits: string): (r: Result<int, string>)
    requires AllDigits(digits)
    ensures r.Ok? <==> DecimalValue(digits) <= MaxInt32
    ensures r.Ok? ==> r.value == DecimalValue(digits)
  {
    var v := DecimalValue(digits);
    if v > MaxInt32 then Err("strconv.ParseInt: parsing \"" + digits + "\": value out of range")
    else Ok(v)
  }

  // ---------------------------------------------------------------------------
  // Loading a directory listing

  /** One entry of `fsys.ReadDir(path)`; `body` is what ReadFile gives for it. */
  datatype DirEntry = DirEntry(name: string, isDir: bool, body: Result<string, string>)

  /** A read-only file system: the result of ReadDir for every path. */
  type FileSys = string -> Result<seq<DirEntry>, string>

  /** The entries loadMigrationsFromFS turns into migrations. */
  predicate Kept(e: DirEntry)
  {
    !e.isDir && IsMigrationName(e.name)
  }

  /** The id a migration file name carries: its leading run of digits. */
  function IdDigits(name: string): (d: string)
    ensures AllDigits(d)
  {
    name[..LeadingDigits(name)]
  }

  /** `loadMigrationFromFS`: parse the id, read the body, parse it, stamp id and name. */
  function LoadEntry(e: DirEntry): Result<Migration, string>
  {
    match ParseId(IdDigits(e.name))
    case Err(msg) => Err(msg)
    case Ok(id) =>
      match e.body
      case Err(msg) => Err(msg)
      case Ok(text) => Ok(ParseMigration(text).(id := id, name := e.name))
  }

  /**
   * An entry loads exactly when its id fits in 32 bits and its body can be
   * read; it then carries that id, its file name and the two parsed queries.
   */
  lemma LoadEntrySpec(e: DirEntry)
    ensures LoadEntry(e).Ok? <==> DecimalValue(IdDigits(e.name)) <= MaxInt32 && e.body.Ok?
    ensures LoadEntry(e).Ok? ==>
      var m := LoadEntry(e).value;
      && m.id == DecimalValue(IdDigits(e.name)) && m.name == e.name
      && m.apply == ParseMigration(e.body.value).apply
      && m.revert == ParseMigration(e.body.value).revert
  {
  }

  /**
   * What the loop of loadMigrationsFromFS returns for a directory listing,
   * given how one entry loads (LoadEntry): the kept entries in listing order,
   * stopping at the first one that fails.
   */
  function LoadEntries(entries: seq<DirEntry>, load: DirEntry -> Result<Migration, string>)
    : Result<seq<Migration>, string>
  {
    if entries == [] then Ok([])
    else if !Kept(entries[0]) then LoadEntries(entries[1..], load)
    else
      match load(entries[0])
      case Err(msg) => Err(msg)
      case Ok(m) => Prepend([m], LoadEntries(entries[1..], load))
  }

  function Prepend(ms: seq<Migration>, r: Result<seq<Migration>, string>): Result<seq<Migration>, string>
  {
    match r
    case Err(msg) => Err(msg)
    case Ok(rest) => Ok(ms + rest)
  }

  /** Prepending nothing changes nothing; an `Ok` appended to nothing is itself. */
  lemma PrependNil(r: Result<seq<Migration>, string>)
    ensures Prepend([], r) == r
    ensures r.Ok? ==> Prepend(r.value, Ok([])) == r
  {
    if r.Ok? {
      assert [] + r.value == r.value + [] == r.value;
    }
  }

  /** Two prepends are one prepend of both. */
  lemma PrependTwice(a: seq<Migration>, b: seq<Migration>, r: Result<seq<Migration>, string>)
    ensures Prepend(a, Prepend(b, r)) == Prepend(a + b, r)
  {
    if r.Ok? {
      assert a + (b + r.value) == a + b + r.value;
    }
  }

  /** The kept entries, in listing order. */
  function KeptEntries(entries: seq<DirEntry>): seq<DirEntry>
  {
    if entries == [] then []
    else (if Kept(entries[0]) then [entries[0]] else []) + KeptEntries(entries[1..])
  }

  lemma {:induction false} KeptEntriesMembers(entries: seq<DirEntry>)
    ensures forall e :: e in KeptEntries(entries) <==> e in entries && Kept(e)
  {
    if entries != [] {
      KeptEntriesMembers(entries[1..]);
      assert entries == [entries[0]] + entries[1..];
    }
  }

  /** Every entry of `kept` loads. */
  ghost predicate AllLoad(kept: seq<DirEntry>, load: DirEntry -> Result<Migration, string>)
  {
    forall k :: 0 <= k < |kept| ==> load(kept[k]).Ok?
  }

  /** The listing loads exactly when every kept entry loads. */
  lemma {:induction false} LoadEntriesOk(entries: seq<DirEntry>, load: DirEntry -> Result<Migration, string>)
    ensures LoadEntries(entries, load).Ok? <==> AllLoad(KeptEntries(entries), load)
  {
    if entries != [] {
      LoadEntriesOk(entries[1..], load);
      var kept, keptRest := KeptEntries(entries), KeptEntries(entries[1..]);
      if Kept(entries[0]) {
        assert kept == [entries[0]] + keptRest;
        assert kept[0] == entries[0];
        assert AllLoad(kept, load) ==> load(entries[0]).Ok?;
        assert AllLoad(kept, load) <==> load(entries[0]).Ok? && AllLoad(keptRest, load) by {
          if AllLoad(kept, load) {
            forall k | 0 <= k < |keptRest| ensures load(keptRest[k]).Ok? {
              assert keptRest[k] == kept[k + 1];
            }
          }
          if load(entries[0]).Ok? && AllLoad(keptRest, load) {
            forall k | 0 <= k < |kept| ensures load(kept[k]).Ok? {
              if k > 0 {
                assert kept[k] == keptRest[k - 1];
              }
            }
          }
        }
      } else {
        assert kept == keptRest;
      }
    }
  }

  /** A loaded listing has one migration per kept entry, in listing order. */
  lemma {:induction false} LoadEntriesValues(entries: seq<DirEntry>, load: DirEntry -> Result<Migration, string>)
    requires LoadEntries(entries, load).Ok?
    ensures var kept, ms := KeptEntries(entries), LoadEntries(entries, load).value;
      && |ms| == |kept|
      && forall k :: 0 <= k < |kept| ==> load(kept[k]) == Ok(ms[k])
  {
    if entries != [] {
      LoadEntriesValues(entries[1..], load);
      var kept, keptRest := KeptEntries(entries), KeptEntries(entries[1..]);
      if Kept(entries[0]) {
        assert kept == [entries[0]] + keptRest;
      } else {
        assert kept == keptRest;
      }
    }
  }

  /** The position of the first entry of `kept` that does not load (`|kept|` when all do). */
  function FirstFailure(kept: seq<DirEntry>, load: DirEntry -> Result<Migration, string>): (k: nat)
    ensures k <= |kept|
    ensures forall j :: 0 <= j < k ==> load(kept[j]).Ok?
    ensures k < |kept| ==> load(kept[k]).Err?
  {
    if kept == [] || load(kept[0]).Err? then 0 else 1 + FirstFailure(kept[1..], load)
  }

  /** A failed listing fails with the error of its first kept entry that does not load. */
  lemma {:induction false} LoadEntriesFirstError(entries: seq<DirEntry>, load: DirEntry -> Result<Migration, string>)
    requires LoadEntries(entries, load).Err?
    ensures var kept := KeptEntries(entries);
      var k := FirstFailure(kept, load);
      k < |kept| && load(kept[k]) == Err(LoadEntries(entries, load).error)
  {
    assert entries != [];
    var kept, keptRest := KeptEntries(entries), KeptEntries(entries[1..]);
    if !Kept(entries[0]) {
      assert kept == keptRest;
      LoadEntriesFirstError(entries[1..], load);
    } else if load(entries[0]).Err? {
      assert kept[0] == entries[0];
    } else {
      assert kept == [entries[0]] + keptRest;
      assert kept[1..] == keptRest;
      LoadEntriesFirstError(entries[1..], load);
    }
  }

  /** The loop of `loadMigrationsFromFS`: skip, load or fail, entry by entry. */
  method LoadMigrationsFromFS(fsys: FileSys, path: string) returns (r: Result<seq<Migration>, string>)
    ensures fsys(path).Err? ==> r == Err(fsys(path).error)
    ensures fsys(path).Ok? ==> r == LoadEntries(fsys(path).value, LoadEntry)
  {
    var files := fsys(path);
    if files.Err? {
      return Err(files.error);
    }
    var entries := files.value;
    var migs: seq<Migration> := [];
    var i := 0;
    assert entries[i..] == entries;
    PrependNil(LoadEntries(entries, LoadEntry));
    while i < |entries|
      invariant 0 <= i <= |entries|
      invariant LoadEntries(entries, LoadEntry) == Prepend(migs, LoadEntries(entries[i..], LoadEntry))
    {
      var fi := entries[i];
      assert entries[i..][1..] == entries[i + 1..];
      if fi.isDir || !IsMigrationName(fi.name) {
        i := i + 1;
        continue;
      }
      var m := LoadEntry(fi);
      if m.Err? {
        return Err(m.error);
      }
      PrependTwice(migs, [m.value], LoadEntries(entries[i + 1..], LoadEntry));
      migs := migs + [m.value];
      i := i + 1;
    }
    PrependNil(Ok(migs));
    return Ok(migs);
  }

  // ---------------------------------------------------------------------------
  // The loaders

  /** `os.PathSeparator` (a Unix build). */
  const PathSeparator: char := '/'

  /** The path as NewDiskLoader and NewFileSysLoader store it. */
  function TrimPath(path: string): string
  {
    TrimRight(path, {PathSeparator})
  }

  /** Only the trailing separators go, all of them, and trimming again changes nothing. */
  lemma TrimPathSpec(path: string)
    ensures var p := TrimPath(path);
      p == path[..|p|] && (p != [] ==> p[|p| - 1] != PathSeparator)
      && (forall k :: |p| <= k < |path| ==> path[k] == PathSeparator)
      && TrimPath(p) == p
  {
  }

  /** DiskLoader: loads from the operating system's file system. */
  datatype DiskLoader = DiskLoader(path: string)

  function NewDiskLoader(path: string): DiskLoader
  {
    DiskLoader(TrimPath(path))
  }

  /** FileSysLoader: loads from the given file system (an `embed.FS`, say). */
  datatype FileSysLoader = FileSysLoader(fsys: FileSys, path: string)

  function NewFileSysLoader(fsys: FileSys, path: string): FileSysLoader
  {
    FileSysLoader(fsys, TrimPath(path))
  }

  /** SliceLoader: hands back the migrations it was given, in that order. */
  class SliceLoader {
    var migrations: seq<Migration>

    /** `NewSliceLoader`. */
    constructor (migrations: seq<Migration>)
      ensures this.migrations == migrations
    {
      this.migrations := migrations;
    }

    /** `Load`: the stored slice itself, never an error. */
    method Load() returns (r: Result<seq<Migration>, string>)
      ensures r == Ok(migrations)
    {
      return Ok(migrations);
    }

    /** `AddMigration`: append at the end. */
    method AddMigration(m: Migration)
      modifies this
      ensures migrations == old(migrations) + [m]
    {
      migrations := migrations + [m];
    }
  }

  /** The Loader a run is configured with. */
  datatype Loader =
    | Slice(sl: SliceLoader)
    | Disk(dl: DiskLoader, osFS: FileSys)
    | FileSystem(fl: FileSysLoader)
    | Scripted(result: Result<seq<Migration>, string>)   // the tests' MockLoader

  /** What `Load()` returns for each kind of loader. */
  function Loaded(l: Loader): Result<seq<Migration>, string>
    reads if l.Slice? then {l.sl} else {}
  {
    match l
    case Slice(sl) => Ok(sl.migrations)
    case Disk(dl, osFS) => FsLoaded(osFS, dl.path)
    case FileSystem(fl) => FsLoaded(fl.fsys, fl.path)
    case Scripted(result) => result
  }

  function FsLoaded(fsys: FileSys, path: string): Result<seq<Migration>, string>
  {
    match fsys(path)
    case Err(msg) => Err(msg)
    case Ok(entries) => LoadEntries(entries, LoadEntry)
  }

  /** `Loader.Load()`, dispatched on the kind of loader. */
  method Load(l: Loader) returns (r: Result<seq<Migration>, string>)
    ensures r == Loaded(l)
  {
    match l {
      case Slice(sl) => r := sl.Load();
      case Disk(dl, osFS) => r := LoadMigrationsFromFS(osFS, dl.path);
      case FileSystem(fl) => r := LoadMigrationsFromFS(fl.fsys, fl.path);
      case Scripted(result) => r := result;
    }
  }
}
