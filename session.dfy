/** Session naming and loading, as `go/ai/config/session.go` does it: the
    session directory, fresh names, the `/last` session, and the metadata
    `prepare` fills in. */
module Session {
  import opened Wrappers
  import opened Str
  import Utils

  //////////////////////////////////////////////////////////////////////
  // Paths

  /** `filepath.Join(a, b)` for a clean, non-empty name `b`: empty
      components are skipped and a leading `.` directory is cleaned away. */
  function PathJoin(a: string, b: string): string
  {
    if b == "" then a
    else if a == "" || a == "." then b
    else a + "/" + b
  }

  /** `sessionDir`: `.jenai/session` under the trimmed output of
      `git rev-parse --show-toplevel`, or under `.` when git fails. */
  function SessionDir(gitTopLevel: Result<string>): (r: string)
    ensures gitTopLevel.Err? ==> r == ".jenai/session"
  {
    var root := if gitTopLevel.Ok? then TrimSpace(gitTopLevel.value) else ".";
    PathJoin(PathJoin(root, ".jenai"), "session")
  }

  //////////////////////////////////////////////////////////////////////
  // Fresh names

  /** The `k`-th name `uniqueFilePrefix` tries: `prefix`, then `prefix.1`,
      `prefix.2`, … */
  function Candidate(prefix: string, k: nat): string
  {
    if k == 0 then prefix else prefix + "." + NatToString(k)
  }

  /** The path probed for the `k`-th name. */
  function Probe(dir: string, prefix: string, suffix: string, k: nat): string
  {
    PathJoin(dir, Candidate(prefix, k) + suffix)
  }

  /** Every name after the first holds a dot and at least one digit. */
  lemma CandidateLength(prefix: string, k: nat)
    ensures k > 0 ==> |Candidate(prefix, k)| >= |prefix| + 2
  {
  }

  /** Distinct counters give distinct names. */
  lemma CandidateInjective(prefix: string, j: nat, k: nat)
    requires Candidate(prefix, j) == Candidate(prefix, k)
    ensures j == k
  {
    CandidateLength(prefix, j);
    CandidateLength(prefix, k);
    if j > 0 && k > 0 {
      var cj, ck := Candidate(prefix, j), Candidate(prefix, k);
      assert cj[|prefix| + 1..] == NatToString(j);
      assert ck[|prefix| + 1..] == NatToString(k);
      NatToStringInjective(j, k);
    }
  }

  /** Joining onto the same directory keeps names apart, unless one of them
      is empty and the other a single character. */
  lemma PathJoinInjective(d: string, x: string, y: string)
    requires PathJoin(d, x) == PathJoin(d, y)
    requires x == "" ==> |y| >= 2 || y == ""
    requires y == "" ==> |x| >= 2 || x == ""
    ensures x == y
  {
    if x != "" && y != "" && d != "" && d != "." {
      assert (d + "/" + x)[|d| + 1..] == x;
      assert (d + "/" + y)[|d| + 1..] == y;
    }
  }

  /** Distinct counters probe distinct paths. */
  lemma ProbeInjective(dir: string, prefix: string, suffix: string, j: nat, k: nat)
    requires Probe(dir, prefix, suffix, j) == Probe(dir, prefix, suffix, k)
    ensures j == k
  {
    var x, y := Candidate(prefix, j) + suffix, Candidate(prefix, k) + suffix;
    CandidateLength(prefix, j);
    CandidateLength(prefix, k);
    PathJoinInjective(dir, x, y);
    assert Candidate(prefix, j) == x[..|x| - |suffix|];
    assert Candidate(prefix, k) == y[..|y| - |suffix|];
    CandidateInjective(prefix, j, k);
  }

  /** The paths probed by the first `n` tries. */
  function ProbeSet(dir: string, prefix: string, suffix: string, n: nat): set<string>
  {
    if n == 0 then {} else ProbeSet(dir, prefix, suffix, n - 1) + {Probe(dir, prefix, suffix, n - 1)}
  }

  lemma {:induction false} ProbeSetIndex(dir: string, prefix: string, suffix: string, n: nat, p: string) returns (j: nat)
    requires p in ProbeSet(dir, prefix, suffix, n)
    ensures j < n && p == Probe(dir, prefix, suffix, j)
  {
    if p == Probe(dir, prefix, suffix, n - 1) {
      j := n - 1;
    } else {
      j := ProbeSetIndex(dir, prefix, suffix, n - 1, p);
    }
  }

  /** The first `n` tries probe `n` different paths. */
  lemma {:induction false} ProbeSetSize(dir: string, prefix: string, suffix: string, n: nat)
    ensures |ProbeSet(dir, prefix, suffix, n)| == n
  {
    if n > 0 {
      ProbeSetSize(dir, prefix, suffix, n - 1);
      var last := Probe(dir, prefix, suffix, n - 1);
      if last in ProbeSet(dir, prefix, suffix, n - 1) {
        var j := ProbeSetIndex(dir, prefix, suffix, n - 1, last);
        ProbeInjective(dir, prefix, suffix, j, n - 1);
      }
    }
  }

  /** The name `uniqueFilePrefix` settles on when tries `0 .. k - 1` all hit
      existing files. */
  function FreeName(dir: string, prefix: string, suffix: string, existing: set<string>, k: nat): string
    requires ProbeSet(dir, prefix, suffix, k) <= existing
    decreases |existing| - k
  {
    ProbeSetSize(dir, prefix, suffix, k);
    assert k <= |existing| by {
      SubsetSize(ProbeSet(dir, prefix, suffix, k), existing);
    }
    if Probe(dir, prefix, suffix, k) !in existing then Candidate(prefix, k)
    else
      ProbeSetSize(dir, prefix, suffix, k + 1);
      SubsetSize(ProbeSet(dir, prefix, suffix, k + 1), existing);
      FreeName(dir, prefix, suffix, existing, k + 1)
  }

  lemma SubsetSize<T>(a: set<T>, b: set<T>)
    requires a <= b
    ensures |a| <= |b|
  {
    assert b == a + (b - a);
  }

  /** The free name is the first try whose file does not exist. */
  lemma {:induction false} FreeNameIsFirstFree(dir: string, prefix: string, suffix: string, existing: set<string>, k: nat)
    returns (m: nat)
    requires ProbeSet(dir, prefix, suffix, k) <= existing
    ensures k <= m
    ensures FreeName(dir, prefix, suffix, existing, k) == Candidate(prefix, m)
    ensures Probe(dir, prefix, suffix, m) !in existing
    ensures forall j :: k <= j < m ==> Probe(dir, prefix, suffix, j) in existing
    decreases |existing| - k
  {
    ProbeSetSize(dir, prefix, suffix, k);
    SubsetSize(ProbeSet(dir, prefix, suffix, k), existing);
    if Probe(dir, prefix, suffix, k) !in existing {
      m := k;
    } else {
      ProbeSetSize(dir, prefix, suffix, k + 1);
      SubsetSize(ProbeSet(dir, prefix, suffix, k + 1), existing);
      m := FreeNameIsFirstFree(dir, prefix, suffix, existing, k + 1);
      assert FreeName(dir, prefix, suffix, existing, k) == FreeName(dir, prefix, suffix, existing, k + 1);
      forall j | k <= j < m
        ensures Probe(dir, prefix, suffix, j) in existing
      {
        if j > k {
          assert k + 1 <= j < m;
        }
      }
    }
  }

  /** `uniqueFilePrefix`: try `prefix`, `prefix.1`, … until `<dir>/<name><suffix>`
      is missing. `existing` holds the paths `os.Stat` does not report as
      missing. That the set is finite is what makes the model's loop end; Go's
      loop does not end when every probe fails with another error. */
  method UniqueFilePrefix(dir: string, prefix: string, suffix: string, existing: set<string>) returns (unique: string)
    ensures PathJoin(dir, unique + suffix) !in existing
    ensures unique == FreeName(dir, prefix, suffix, existing, 0)
  {
    unique := prefix;
    var counter: nat := 1;
    while PathJoin(dir, unique + suffix) in existing
      invariant counter >= 1
      invariant unique == Candidate(prefix, counter - 1)
      invariant ProbeSet(dir, prefix, suffix, counter - 1) <= existing
      invariant FreeName(dir, prefix, suffix, existing, counter - 1) == FreeName(dir, prefix, suffix, existing, 0)
      decreases |existing| - (counter - 1)
    {
      ProbeSetSize(dir, prefix, suffix, counter);
      SubsetSize(ProbeSet(dir, prefix, suffix, counter), existing);
      unique := prefix + "." + NatToString(counter);
      counter := counter + 1;
    }
  }

  //////////////////////////////////////////////////////////////////////
  // The `/last` session

  /** A directory entry as `os.ReadDir` lists it; `info` is what
      `entry.Info()` gives: the modification time, or an error. */
  datatype DirEntry = DirEntry(name: string, isDir: bool, info: Result<int>)

  /** The part of an `fs.FileInfo` that is used: name and modification time. */
  datatype FileInfo = FileInfo(name: string, modTime: int)

  /** Only regular `.yaml` entries are sessions. */
  predicate IsSessionFile(e: DirEntry)
  {
    !e.isDir && HasSuffix(e.name, ".yaml")
  }

  /** `mostRecent(ref, entry)`: the entry's info when it is the first one or
      strictly older than `ref`, otherwise `ref`. */
  function MostRecent(ref: Option<FileInfo>, e: DirEntry): (r: Result<FileInfo>)
    ensures e.info.Err? ==> r == Err(e.info.error)
    ensures r.Ok? ==> r.value == FileInfo(e.name, e.info.value) || Some(r.value) == ref
    ensures r.Ok? && ref.Some? ==> r.value.modTime <= ref.value.modTime && r.value.modTime <= e.info.value
    ensures r.Ok? && ref.Some? && r.value != ref.value ==> r.value.modTime < ref.value.modTime
  {
    if e.info.Err? || ref.None? then
      (if e.info.Err? then Err(e.info.error) else Ok(FileInfo(e.name, e.info.value)))
    else
      var candid := FileInfo(e.name, e.info.value);
      if candid.modTime < ref.value.modTime then Ok(candid) else Ok(ref.value)
  }

  /** The loop of `mostRecentSession` from `ref` over `entries`. */
  function Fold(ref: Option<FileInfo>, entries: seq<DirEntry>): (r: Result<Option<FileInfo>>)
    ensures r.Ok? && ref.Some? ==> r.value.Some?
    decreases entries
  {
    if entries == [] then Ok(ref)
    else if !IsSessionFile(entries[0]) then Fold(ref, entries[1..])
    else
      var m := MostRecent(ref, entries[0]);
      if m.Err? then Err(m.error) else Fold(Some(m.value), entries[1..])
  }


  /** What `mostRecentSession` returns for a directory listing. */
  function MostRecentSessionSpec(listing: Result<seq<DirEntry>>): (r: Result<string>)
    ensures listing.Err? ==> r == Err(listing.error)
  {
    if listing.Err? then Err(listing.error)
    else
      var f := Fold(None, listing.value);
      if f.Err? then Err(f.error)
      else if f.value.None? then Err(NilDereference)
      else Ok(TrimSuffix(f.value.value.name, ".yaml"))
  }

  /** `mostRecentSession`. */
  method MostRecentSession(readDir: string -> Result<seq<DirEntry>>, dir: string) returns (r: Result<string>)
    ensures r == MostRecentSessionSpec(readDir(dir))
  {
    var listing := readDir(dir);
    if listing.Err? {
      return Err(listing.error);
    }
    var entries := listing.value;
    var res: Option<FileInfo> := None;
    for i := 0 to |entries|
      invariant Fold(res, entries[i..]) == Fold(None, entries)
    {
      var entry := entries[i];
      assert entries[i..][1..] == entries[i + 1..];
      if entry.isDir || !HasSuffix(entry.name, ".yaml") {
        continue;
      }
      var m := MostRecent(res, entry);
      if m.Err? {
        return Err(m.error);
      }
      res := Some(m.value);
    }
    assert entries[|entries|..] == [];
    if res.None? {
      return Err(NilDereference);
    }
    return Ok(TrimSuffix(res.value.name, ".yaml"));
  }

  /** The fold succeeds exactly when every session entry's info is available. */
  lemma {:induction false} FoldOkIff(ref: Option<FileInfo>, entries: seq<DirEntry>)
    ensures Fold(ref, entries).Ok? <==>
      forall j :: 0 <= j < |entries| && IsSessionFile(entries[j]) ==> entries[j].info.Ok?
    decreases entries
  {
    if entries != [] {
      FoldOkIff(ref, entries[1..]);
      if IsSessionFile(entries[0]) && entries[0].info.Ok? {
        FoldOkIff(Some(MostRecent(ref, entries[0]).value), entries[1..]);
      }
      assert forall j :: 1 <= j < |entries| ==> entries[j] == entries[1..][j - 1];
    }
  }

  /** From nothing, the fold finds nothing exactly when there is no session entry. */
  lemma {:induction false} FoldEmptyIff(entries: seq<DirEntry>)
    ensures Fold(None, entries) == Ok(None) <==> forall j :: 0 <= j < |entries| ==> !IsSessionFile(entries[j])
  {
    if entries != [] {
      if IsSessionFile(entries[0]) {
        var m := MostRecent(None, entries[0]);
        assert m.Ok? ==> Fold(Some(m.value), entries[1..]) != Ok(None);
      } else {
        FoldEmptyIff(entries[1..]);
        assert Fold(None, entries) == Fold(None, entries[1..]);
        assert forall j :: 1 <= j < |entries| ==> entries[j] == entries[1..][j - 1];
      }
    }
  }

  /** The fold keeps the oldest session entry, the first one among equally
      old entries; index `-1` means the starting `ref` was kept. */
  lemma {:induction false} FoldOldest(ref: Option<FileInfo>, entries: seq<DirEntry>, m: FileInfo) returns (i: int)
    requires Fold(ref, entries) == Ok(Some(m))
    ensures -1 <= i < |entries|
    ensures i == -1 ==> ref == Some(m)
    ensures i >= 0 ==> IsSessionFile(entries[i]) && entries[i].info == Ok(m.modTime) && entries[i].name == m.name
    ensures i >= 0 && ref.Some? ==> m.modTime < ref.value.modTime
    ensures forall j :: 0 <= j < |entries| && IsSessionFile(entries[j]) ==> entries[j].info.Ok? && m.modTime <= entries[j].info.value
    ensures forall j :: 0 <= j < i && IsSessionFile(entries[j]) ==> m.modTime < entries[j].info.value
    decreases entries
  {
    if entries == [] {
      return -1;
    }
    var e := entries[0];
    var rest := entries[1..];
    assert forall j :: 1 <= j < |entries| ==> entries[j] == rest[j - 1];
    if !IsSessionFile(e) {
      var i' := FoldOldest(ref, rest, m);
      i := if i' == -1 then -1 else i' + 1;
    } else {
      var m0 := MostRecent(ref, e).value;
      var i' := FoldOldest(Some(m0), rest, m);
      if i' >= 0 {
        i := i' + 1;
      } else if ref.Some? && m0 == ref.value {
        i := -1;
      } else {
        i := 0;
      }
    }
  }

  /** `mostRecentSession` names the oldest `.yaml` entry (the first among
      equally old ones), without its extension. */
  lemma MostRecentIsOldest(entries: seq<DirEntry>, name: string) returns (i: nat)
    requires MostRecentSessionSpec(Ok(entries)) == Ok(name)
    ensures i < |entries| && IsSessionFile(entries[i]) && entries[i].info.Ok? && entries[i].name == name + ".yaml"
    ensures forall j :: 0 <= j < |entries| && IsSessionFile(entries[j]) ==>
      entries[j].info.Ok? && entries[i].info.value <= entries[j].info.value
    ensures forall j :: 0 <= j < i && IsSessionFile(entries[j]) ==> entries[i].info.value < entries[j].info.value
  {
    var m := Fold(None, entries).value.value;
    var k := FoldOldest(None, entries, m);
    i := k;
  }

  /** Without any `.yaml` entry the call dereferences nil. */
  lemma NoSessionDereferencesNil(entries: seq<DirEntry>)
    requires forall j :: 0 <= j < |entries| ==> !IsSessionFile(entries[j])
    ensures MostRecentSessionSpec(Ok(entries)) == Err(NilDereference)
  {
    FoldEmptyIff(entries);
  }

  /** Two sessions and a directory: the older `a.yaml` is chosen. */
  lemma LastSessionExample()
    ensures MostRecentSessionSpec(Ok([
      DirEntry("b.yaml", false, Ok(20)),
      DirEntry("old.yaml", true, Ok(1)),
      DirEntry("a.yaml", false, Ok(10))])) == Ok("a")
  {
    var es := [DirEntry("b.yaml", false, Ok(20)), DirEntry("old.yaml", true, Ok(1)), DirEntry("a.yaml", false, Ok(10))];
    assert HasSuffix("b.yaml", ".yaml") && HasSuffix("a.yaml", ".yaml");
    assert es[1..] == [es[1], es[2]] && es[1..][1..] == [es[2]] && es[1..][1..][1..] == [];
    assert Fold(Some(FileInfo("a.yaml", 10)), []) == Ok(Some(FileInfo("a.yaml", 10)));
    assert Fold(Some(FileInfo("b.yaml", 20)), [es[2]]) == Ok(Some(FileInfo("a.yaml", 10)));
    assert Fold(None, es) == Ok(Some(FileInfo("a.yaml", 10)));
    assert "a" + ".yaml" == "a.yaml";
  }

  //////////////////////////////////////////////////////////////////////
  // Metadata

  /** The values of a `SessionMetadata`. */
  datatype Metadata = Metadata(dir: string, name: string, requested: bool)

  /** The outside world `prepare` consults: git's answer, the current time
      formatted as `2006-01-02_15h04m`, the paths that exist, `os.ReadDir`
      and `os.MkdirAll`. */
  datatype Env = Env(
    gitTopLevel: Result<string>,
    now: string,
    existing: set<string>,
    readDir: string -> Result<seq<DirEntry>>,
    mkdirAll: string -> Option<Error>)

  /** The error of the final `os.MkdirAll(sessionDir())`. */
  function MkdirResult(env: Env): Option<Error>
  {
    var e := env.mkdirAll(SessionDir(env.gitTopLevel));
    if e.Some? then Some(Wrap("failed to create session directory", e.value)) else None
  }

  /** What `prepare` leaves in the metadata, and the error it returns. */
  function PrepareSpec(m: Metadata, env: Env): (r: (Metadata, Option<Error>))
    ensures r.0.dir == SessionDir(env.gitTopLevel)
    ensures m.name == "" ==> !r.0.requested && r.1 == MkdirResult(env)
    ensures m.name != "" ==> r.0.requested
    ensures m.name != "" && m.name != "/last" ==> r.0.name == m.name && r.1 == MkdirResult(env)
    ensures m.name == "/last" && MostRecentSessionSpec(env.readDir(SessionDir(env.gitTopLevel))).Ok? ==>
      r.0.name == MostRecentSessionSpec(env.readDir(SessionDir(env.gitTopLevel))).value && r.1 == MkdirResult(env)
  {
    var dir := SessionDir(env.gitTopLevel);
    if m.name == "" then
      (Metadata(dir, FreeName(dir, env.now, ".yaml", env.existing, 0), false), MkdirResult(env))
    else if m.name == "/last" then
      var last := MostRecentSessionSpec(env.readDir(dir));
      if last.Err? then (Metadata(dir, "", true), Some(last.error))
      else (Metadata(dir, last.value, true), MkdirResult(env))
    else (Metadata(dir, m.name, true), MkdirResult(env))
  }

  /** A minted name never names an existing session file. */
  lemma PrepareMintsFreeName(m: Metadata, env: Env)
    requires m.name == ""
    ensures var r := PrepareSpec(m, env).0;
      PathJoin(r.dir, r.name + ".yaml") !in env.existing
  {
    var dir := SessionDir(env.gitTopLevel);
    var k := FreeNameIsFirstFree(dir, env.now, ".yaml", env.existing, 0);
  }

  /** A `/last` resolution error is returned as is, before any directory is
      created, and leaves the name empty with the directory already set. */
  lemma PrepareLastErrorSkipsMkdir(m: Metadata, env: Env, mkdirAll: string -> Option<Error>)
    requires m.name == "/last"
    requires MostRecentSessionSpec(env.readDir(SessionDir(env.gitTopLevel))).Err?
    ensures PrepareSpec(m, env) == PrepareSpec(m, env.(mkdirAll := mkdirAll))
    ensures PrepareSpec(m, env).1 == Some(MostRecentSessionSpec(env.readDir(SessionDir(env.gitTopLevel))).error)
    ensures PrepareSpec(m, env).0 == Metadata(SessionDir(env.gitTopLevel), "", true)
  {
  }

  datatype Message = Message(role: string, content: string)
  datatype Conversation = Conversation(model: string, messages: seq<Message>)
  const NoConversation: Conversation := Conversation("", [])

  /** `SessionMetadata`: where the session lives and whether it was asked for. */
  class SessionMetadata {
    var dir: string
    var name: string
    var requested: bool

    /** The metadata the `--session` flag fills in. */
    constructor (name: string)
      ensures dir == "" && this.name == name && !requested
    {
      dir := "";
      this.name := name;
      requested := false;
    }

    function Snapshot(): Metadata
      reads this
    {
      Metadata(dir, name, requested)
    }

    /** `Path`: `<Dir>/<Name>.yaml`. */
    function Path(): (r: string)
      reads this
      ensures dir != "" && dir != "." ==> r == dir + "/" + name + ".yaml"
    {
      PathJoin(dir, name + ".yaml")
    }

    /** `prepare`: sets the directory, then the name by mode, then creates the
        directory. */
    method Prepare(env: Env) returns (err: Option<Error>)
      modifies this
      ensures (Snapshot(), err) == PrepareSpec(old(Snapshot()), env)
    {
      dir := SessionDir(env.gitTopLevel);
      requested := true;
      if name == "" {
        name := UniqueFilePrefix(dir, env.now, ".yaml", env.existing);
        requested := false;
      } else if name == "/last" {
        var last := MostRecentSession(env.readDir, dir);
        if last.Err? {
          name := "";
          return Some(last.error);
        }
        name := last.value;
      }
      var e := env.mkdirAll(SessionDir(env.gitTopLevel));
      if e.Some? {
        return Some(Wrap("failed to create session directory", e.value));
      }
      return None;
    }

    /** `Load`: a read error is returned unwrapped; a decode error is wrapped
        with the session path. */
    function Load(readFile: string -> Result<Utils.Bytes>, decode: Utils.Bytes -> Utils.Decoded<Conversation>): (r: (Conversation, Option<Error>))
      reads this
      ensures readFile(Path()).Err? ==> r == (NoConversation, Some(readFile(Path()).error))
      ensures readFile(Path()).Ok? && decode(readFile(Path()).value).err.Some? ==>
        r.0 == NoConversation &&
        r.1 == Some(Wrap("failed to load session " + Path() + " from YAML", decode(readFile(Path()).value).err.value))
      ensures readFile(Path()).Ok? && decode(readFile(Path()).value).err.None? ==>
        r == (decode(readFile(Path()).value).partial, None)
    {
      var data := readFile(Path());
      if data.Err? then (NoConversation, Some(data.error))
      else
        var res := Utils.FromYAML(data.value, decode, NoConversation);
        Utils.Wrapf(res.0, res.1, "failed to load session " + Path() + " from YAML")
    }
  }
}
