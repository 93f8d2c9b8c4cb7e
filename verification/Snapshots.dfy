/** Snapshots of an instance's directory and the HEAD pointer that says which snapshot the directory
    equals (internal/backup/manager.go), with the file operations that must reset it
    (internal/filemanager/manager.go). Every operation is a function on values here; the managers
    in SnapshotStore.dfy are proved to compute these functions. */
module Snapshots {
  import opened Options
  import opened Paths
  import opened Archive

  type Id = string

  datatype Kind = Manual | PreRestore
  datatype Snapshot = Snapshot(service: Id, kind: Kind, archive: seq<Entry>)
  /** HEAD is `current_snapshot_id` with `current_snapshot_applied_at`. Times are in nanoseconds. */
  datatype Service = Service(stopped: bool, current: Option<Id>, appliedAt: Option<int>)

  datatype State = State(services: map<Id, Service>, snapshots: map<Id, Snapshot>, files: map<Id, Option<Dir>>)

  /** A database file younger than HEAD by no more than this counts as unmodified. */
  const GRACE := 2_000_000_000

  const DATABASE: Path := ["pb_data", "data.db"]

  // ---------------------------------------------------------------- paths of the file manager

  predicate Allowed(dir: string) {
    dir == "pb_hooks" || dir == "pb_public" || dir == "pb_migrations" || dir == "pb_data"
  }

  /** `filepath.Clean` of a relative name; `None` when it climbs above its start. */
  function CleanRel(done: Path, rest: Path): Option<Path>
    decreases |rest|
  {
    if rest == [] then Some(done)
    else if rest[0] == "" || rest[0] == "." then CleanRel(done, rest[1..])
    else if rest[0] == ".." then if done == [] then None else CleanRel(done[..|done| - 1], rest[1..])
    else CleanRel(done + [rest[0]], rest[1..])
  }

  /** `validateFilePath` of a trimmed name. */
  function ValidateFilePath(raw: string): Option<Path> {
    if raw == "" || raw[0] == '/' then None
    else
      var clean := CleanRel([], Split(raw));
      if clean == None || clean.value == [] || !Allowed(clean.value[0]) then None else clean
  }

  lemma {:induction false} SplitNoSlash(s: string)
    ensures forall i | 0 <= i < |Split(s)| :: NoSlash(Split(s)[i])
  {
    if s != "" {
      SplitNoSlash(s[1..]);
    }
  }

  lemma {:induction false} CleanRelIsClean(base: Path, done: Path, rest: Path)
    requires Clean(done) && forall i | 0 <= i < |rest| :: NoSlash(rest[i])
    requires CleanRel(done, rest).Some?
    ensures Clean(CleanRel(done, rest).value)
    ensures Resolve(base + done, rest) == base + CleanRel(done, rest).value
    decreases |rest|
  {
    if rest != [] {
      if rest[0] == "" || rest[0] == "." {
        CleanRelIsClean(base, done, rest[1..]);
      } else if rest[0] == ".." {
        assert (base + done)[..|base + done| - 1] == base + done[..|done| - 1];
        CleanRelIsClean(base, done[..|done| - 1], rest[1..]);
      } else {
        assert base + done + [rest[0]] == base + (done + [rest[0]]);
        CleanRelIsClean(base, done + [rest[0]], rest[1..]);
      }
    }
  }

  /** An accepted name is a clean path, and it leads to that path below any directory. */
  lemma AcceptedPath(raw: string, base: Path)
    requires ValidateFilePath(raw).Some?
    ensures var p := ValidateFilePath(raw).value;
            && p != [] && Clean(p) && Allowed(p[0])
            && Resolve(base, Split(raw)) == base + p && Rel(base, Resolve(base, Split(raw))) == p
  {
    SplitNoSlash(raw);
    CleanRelIsClean(base, [], Split(raw));
    assert base + [] == base;
    RelInside(base, ValidateFilePath(raw).value);
  }

  lemma {:induction false} CleanRelOfClean(done: Path, rest: Path)
    requires Clean(rest)
    ensures CleanRel(done, rest) == Some(done + rest)
    decreases |rest|
  {
    if rest == [] {
      assert done + rest == done;
    } else {
      CleanRelOfClean(done + [rest[0]], rest[1..]);
      assert done + [rest[0]] + rest[1..] == done + rest;
    }
  }

  /** Every clean path in an allowed directory has an accepted name. */
  lemma PathAccepted(p: Path)
    requires p != [] && Clean(p) && Allowed(p[0])
    ensures ValidateFilePath(Join(p)) == Some(p)
  {
    SplitJoin(p);
    CleanRelOfClean([], p);
    assert [] + p == p;
    JoinEnd(p);
    assert Join(p)[0] == p[0][0];
  }

  // ---------------------------------------------------------------- HEAD

  function SetHead(st: State, s: Id, head: Option<Id>, now: int): (r: State)
    requires s in st.services
  {
    var head' := st.services[s].(current := head, appliedAt := if head == None then None else Some(now));
    st.(services := st.services[s := head'])
  }

  /** `ClearCurrentSnapshot` leaves the time alone. */
  function ClearHead(st: State, s: Id): State
    requires s in st.services
  {
    st.(services := st.services[s := st.services[s].(current := None)])
  }

  function SetFiles(st: State, s: Id, d: Option<Dir>): State {
    st.(files := st.files[s := d])
  }

  ghost predicate Valid(st: State) {
    && st.services.Keys <= st.files.Keys
    && (forall s | s in st.files :: st.files[s].Some? ==> WellFormed(st.files[s].value))
    && (forall k | k in st.snapshots :: exists d :: IsArchive(st.snapshots[k].archive, d))
    && (forall s | s in st.services :: Linked(st, s))
  }

  /** HEAD names a stored snapshot of the service. */
  ghost predicate Linked(st: State, s: Id)
    requires s in st.services
  {
    var head := st.services[s].current;
    head.Some? ==> head.value in st.snapshots && st.snapshots[head.value].service == s
  }

  /** HEAD names a snapshot of what is in the directory. */
  ghost predicate Coherent(st: State, s: Id)
    requires s in st.services && s in st.files
  {
    var head := st.services[s].current;
    head.Some? ==>
      head.value in st.snapshots && st.files[s].Some? && IsArchive(st.snapshots[head.value].archive, st.files[s].value)
  }

  /** Some snapshot of the service holds these files. */
  ghost predicate Stored(st: State, s: Id, d: Dir) {
    exists k :: k in st.snapshots && st.snapshots[k].service == s && IsArchive(st.snapshots[k].archive, d)
  }

  // ---------------------------------------------------------------- the operations

  /** What a new snapshot takes from outside: its id, its manifest, the order of the walk, the clock,
      and whether writing the archive and its record works. */
  datatype Making = Making(id: Id, manifest: Bytes, walk: seq<Path>, now: int, written: bool)

  /** `createSnapshotWithType` */
  ghost function Made(st: State, s: Id, kind: Kind, m: Making): (State, bool)
    requires s in st.services && s in st.files
  {
    if st.files[s].None? then (st, false)
    else
      var d := st.files[s].value;
      if !m.written || m.id in st.snapshots || !NoDots(d) || !Walks(m.walk, d) then (st, false)
      else
        var archive := Entries(SnapshotLayout(m.manifest), d, m.walk);
        (SetHead(st.(snapshots := st.snapshots[m.id := Snapshot(s, kind, archive)]), s, Some(m.id), m.now), true)
  }

  /** `CreateSnapshot`, given the trimmed name. */
  ghost function Created(st: State, s: Id, name: string, m: Making): (State, bool)
    requires Valid(st)
  {
    if name == "" || s !in st.services || !st.services[s].stopped then (st, false) else Made(st, s, Manual, m)
  }

  /** `DeleteSnapshot`; `removed` says whether the record can be deleted. */
  function Deleted(st: State, s: Id, k: Id, removed: bool): (State, bool) {
    if k !in st.snapshots || st.snapshots[k].service != s || !removed then (st, false)
    else
      var rest := st.(snapshots := st.snapshots - {k});
      if s in st.services && st.services[s].current == Some(k) then (SetHead(rest, s, None, 0), true) else (rest, true)
  }

  /** How a file write ends. */
  datatype Write = Complete | NotOpened | BrokenOff(part: Bytes)
  /** How `compressToGzip` ends. */
  datatype Gzip = NotCompressible | Broken | Compressed(data: Bytes)

  function Beside(p: Path, suffix: string): Path
    requires p != []
  {
    p[..|p| - 1] + [p[|p| - 1] + suffix]
  }

  predicate IsDirectory(d: Dir, p: Path) {
    exists q | q in d :: p < q
  }

  /** Nothing can be written there: a directory is at the path, or a file is above it. */
  predicate Blocked(d: Dir, p: Path) {
    IsDirectory(d, p) || exists q | q in d :: q < p
  }

  /** `compressToGzip` writes a temporary file, then renames it. */
  function Gzipped(d: Dir, p: Path, gz: Gzip): Dir
    requires p != []
  {
    var temporary, target := Beside(p, ".gz.tmp"), Beside(p, ".gz");
    if gz == NotCompressible || IsDirectory(d, temporary) then d
    else if gz == Broken || IsDirectory(d, target) then d - {temporary}
    else (d - {temporary})[target := gz.data]
  }

  /** The directory after a write; `None` if nothing is written. */
  function Written(d: Dir, p: Path, data: Bytes, write: Write, gz: Gzip): Option<Dir>
    requires p != []
  {
    if Blocked(d, p) || write == NotOpened then None
    else if write.BrokenOff? then Some(d[p := write.part])
    else if p[0] == "pb_public" then Some(Gzipped(d[p := data], p, gz))
    else Some(d[p := data])
  }

  function DirOf(st: State, s: Id): Dir
    requires s in st.files
  {
    if st.files[s].Some? then st.files[s].value else map[]
  }

  /** `SaveFileBytes` and `SaveFileStream`: a write that breaks off leaves HEAD as it was. */
  function Saved(st: State, s: Id, raw: string, data: Bytes, write: Write, gz: Gzip): (State, bool)
    requires s in st.services ==> s in st.files
  {
    var path := ValidateFilePath(raw);
    if s !in st.services || !st.services[s].stopped || path == None then (st, false)
    else
      var written := Written(DirOf(st, s), path.value, data, write, gz);
      if written == None then (st, false)
      else if write.BrokenOff? then (SetFiles(st, s, written), false)
      else (ClearHead(SetFiles(st, s, written), s), true)
  }

  function Below(d: Dir, p: Path): set<Path> {
    set q | q in d && p <= q
  }

  /** `DeleteFile`. `emptyDir`: an empty directory is at the path. `stuck`: the files that could not
      be removed, when removing failed. */
  function FileDeleted(st: State, s: Id, raw: string, emptyDir: bool, stuck: Option<set<Path>>): (State, bool)
    requires s in st.services ==> s in st.files
  {
    var path := ValidateFilePath(raw);
    if s !in st.services || !st.services[s].stopped || path == None then (st, false)
    else
      var p := path.value;
      var d := DirOf(st, s);
      if Below(d, p) == {} && (st.files[s] == None || !emptyDir) then (st, !exists q | q in d :: q < p)
      else if stuck.Some? then (SetFiles(st, s, Some(d - (Below(d, p) - stuck.value))), false)
      else (ClearHead(SetFiles(st, s, Some(d - Below(d, p) - {Beside(p, ".gz")})), s), true)
  }

  /** The directory counts as modified since HEAD was set. */
  predicate Dirty(st: State, s: Id, target: Id, modified: int)
    requires s in st.services && s in st.files && target in st.snapshots
  {
    && st.snapshots[target].kind != PreRestore
    && var v := st.services[s];
    || v.current == None || v.appliedAt == None
    || st.files[s] == None || DATABASE !in st.files[s].value
    || modified > v.appliedAt.value + GRACE
  }

  /** What goes wrong in a restore. */
  datatype Trouble =
    | NoTrouble
    | BeforeReplacing                  // fetching, extracting, reading the manifest
    | Removing(left: set<Path>)        // these files could not be removed
    | Copying(copied: set<Path>)       // only these files were copied

  function Only(d: Dir, keep: set<Path>): Dir {
    map p | p in d && p in keep :: d[p]
  }

  /** The data directory of an archive after extraction below `base`; `None` if it does not extract,
      has no manifest, or has no data. */
  function DataOf(base: Path, archive: seq<Entry>): (bool, Option<Dir>) {
    var (ok, t) := ExtractAll(base, archive);
    if !ok || ["manifest.json"] !in t.files then (false, None) else (true, SubDir(t, "data"))
  }

  /** `os.RemoveAll` of the instance's directory, `copyDir` into it, and HEAD. */
  ghost function Replaced(st: State, s: Id, target: Id, data: Option<Dir>, trouble: Trouble, now: int): (State, bool)
    requires s in st.services && s in st.files
  {
    if trouble.Removing? then
      (SetFiles(st, s, if st.files[s].Some? then Some(Only(st.files[s].value, trouble.left)) else None), false)
    else if data == None then (SetFiles(st, s, None), false)
    else if trouble.Copying? then (SetFiles(st, s, Some(Only(data.value, trouble.copied))), false)
    else (SetHead(SetFiles(st, s, data), s, Some(target), now), true)
  }

  /** From fetching the archive on. */
  ghost function Unpacked(st: State, s: Id, target: Id, archive: seq<Entry>, base: Path, trouble: Trouble,
      now: int): (State, bool)
    requires s in st.services && s in st.files
  {
    if trouble == BeforeReplacing then (st, false)
    else
      var (good, data) := DataOf(base, archive);
      if !good then (st, false) else Replaced(st, s, target, data, trouble, now)
  }

  datatype Restore = Restore(target: Id, modified: int, backup: Making, base: Path, trouble: Trouble, now: int)

  ghost predicate Restorable(st: State, s: Id, r: Restore) {
    && s in st.services && st.services[s].stopped
    && r.target in st.snapshots && st.snapshots[r.target].service == s
  }

  /** The state once a backup is made, if one is due. */
  ghost function BackedUp(st: State, s: Id, r: Restore): (State, bool)
    requires Valid(st) && Restorable(st, s, r)
  {
    if Dirty(st, s, r.target, r.modified) then Made(st, s, PreRestore, r.backup) else (st, true)
  }

  /** `RestoreSnapshotInPlace` */
  ghost function Restored(st: State, s: Id, r: Restore): (State, bool)
    requires Valid(st)
  {
    if !Restorable(st, s, r) then (st, false)
    else
      var (st1, ok) := BackedUp(st, s, r);
      if !ok then (st1, false)
      else Unpacked(st1, s, r.target, st.snapshots[r.target].archive, r.base, r.trouble, r.now)
  }

  datatype Op =
    | CreateSnapshot(name: string, making: Making)
    | DeleteSnapshot(id: Id, removed: bool)
    | SaveFile(raw: string, data: Bytes, write: Write, gz: Gzip)
    | DeleteFile(raw: string, emptyDir: bool, stuck: Option<set<Path>>)
    | RestoreSnapshot(restore: Restore)

  /** One operation on the service `s`, and whether it reports success. */
  ghost function Apply(st: State, s: Id, op: Op): (State, bool)
    requires Valid(st)
  {
    match op
    case CreateSnapshot(name, m) => Created(st, s, name, m)
    case DeleteSnapshot(k, removed) => Deleted(st, s, k, removed)
    case SaveFile(raw, data, write, gz) => Saved(st, s, raw, data, write, gz)
    case DeleteFile(raw, emptyDir, stuck) => FileDeleted(st, s, raw, emptyDir, stuck)
    case RestoreSnapshot(r) => Restored(st, s, r)
  }

  // ---------------------------------------------------------------- Valid is kept

  /** An archive made by a snapshot gives back its directory, unless that had no files. */
  lemma DataOfArchive(base: Path, archive: seq<Entry>, d: Dir)
    requires IsArchive(archive, d)
    ensures DataOf(base, archive) == (true, if d == map[] then None else Some(d))
  {
    var walk, manifest :| Walks(walk, d) && archive == Entries(SnapshotLayout(manifest), d, walk);
    RoundTrip(base, SnapshotLayout(manifest), d, walk);
  }

  /** A new snapshot is one of the directory, HEAD names it, and nothing else changes. */
  lemma MadeIsArchive(st: State, s: Id, kind: Kind, m: Making)
    requires Valid(st) && s in st.services
    requires Made(st, s, kind, m).1
    ensures var st' := Made(st, s, kind, m).0;
            && Valid(st') && Coherent(st', s) && st'.files == st.files
            && st.files[s].Some? && m.id !in st.snapshots && m.id in st'.snapshots
            && st'.services[s].current == Some(m.id)
            && st'.snapshots[m.id].service == s && IsArchive(st'.snapshots[m.id].archive, st.files[s].value)
  {
    var d := st.files[s].value;
    var st' := Made(st, s, kind, m).0;
    assert IsArchive(st'.snapshots[m.id].archive, d);
    forall k | k in st'.snapshots ensures exists e :: IsArchive(st'.snapshots[k].archive, e) {
      if k != m.id {
        assert k in st.snapshots;
      }
    }
    forall t | t in st'.services ensures Linked(st', t) {
      assert t in st.services && Linked(st, t);
    }
  }

  /** What an operation on `s` may change: the directory of `s`, the service `s`, its snapshots. */
  ghost predicate Local(st: State, st': State, s: Id) {
    && st'.services.Keys == st.services.Keys && st'.files.Keys == st.files.Keys + (if s in st.services then {s} else {})
    && (forall t | t in st.services && t != s :: st'.services[t] == st.services[t])
    && (forall t | t in st.files && t != s :: st'.files[t] == st.files[t])
    && (forall k | k in st.snapshots && st.snapshots[k].service != s ::
          k in st'.snapshots && st'.snapshots[k] == st.snapshots[k])
  }

  ghost predicate Kept(st: State, st': State, s: Id) {
    Local(st, st', s) && Valid(st')
  }

  /** An operation that stores no snapshot keeps the state valid when it leaves a file system behind
      and a HEAD that is absent or linked. */
  lemma LocalKept(st: State, st': State, s: Id)
    requires Valid(st) && Local(st, st', s)
    requires forall k | k in st'.snapshots :: k in st.snapshots && st'.snapshots[k] == st.snapshots[k]
    requires s in st'.files && st'.files[s].Some? ==> WellFormed(st'.files[s].value)
    requires s in st'.services ==> Linked(st', s)
    ensures Kept(st, st', s)
  {
    forall t | t in st'.services ensures Linked(st', t) {
      assert t != s ==> Linked(st, t);
    }
  }

  /** Other services keep their coherence, whether they have it or not. */
  lemma OthersKeepCoherence(st: State, st': State, s: Id, t: Id)
    requires Valid(st) && Local(st, st', s) && t in st.services && t != s
    ensures Coherent(st', t) <==> Coherent(st, t)
  {
    assert Linked(st, t);
  }

  lemma WriteKeepsWellFormed(d: Dir, p: Path, data: Bytes)
    requires WellFormed(d) && !Blocked(d, p) && p != [] && Clean(p)
    ensures WellFormed(d[p := data])
  {
  }

  lemma FewerKeepsWellFormed(d: Dir, e: Dir)
    requires WellFormed(d) && e.Keys <= d.Keys
    ensures WellFormed(e)
  {
  }

  lemma GzippedKeepsWellFormed(d: Dir, p: Path, gz: Gzip)
    requires WellFormed(d) && p in d
    ensures WellFormed(Gzipped(d, p, gz))
  {
    var temporary, target := Beside(p, ".gz.tmp"), Beside(p, ".gz");
    var rest := d - {temporary};
    FewerKeepsWellFormed(d, rest);
    if gz.Compressed? && !IsDirectory(d, target) {
      assert Clean(target) by {
        assert Segment(p[|p| - 1] + ".gz") by {
          assert (p[|p| - 1] + ".gz")[|p[|p| - 1]|] == '.';
        }
      }
      var above := p[..|p| - 1];
      forall q | q in rest ensures !(q < target) {
        assert q < target ==> q <= above;
        assert q <= above ==> q <= p;
      }
      WriteKeepsWellFormed(rest, target, gz.data);
    }
  }

  // ---------------------------------------------------------------- every operation

  /** Writing a directory, and clearing HEAD or not. */
  lemma WrittenKept(st: State, s: Id, d: Option<Dir>)
    requires Valid(st) && s in st.services && (d.Some? ==> WellFormed(d.value))
    ensures Kept(st, SetFiles(st, s, d), s) && Kept(st, ClearHead(SetFiles(st, s, d), s), s)
  {
    assert Linked(st, s);
    LocalKept(st, SetFiles(st, s, d), s);
    LocalKept(st, ClearHead(SetFiles(st, s, d), s), s);
  }

  lemma WrittenIsWellFormed(d: Dir, p: Path, data: Bytes, write: Write, gz: Gzip)
    requires WellFormed(d) && p != [] && Clean(p) && Written(d, p, data, write, gz).Some?
    ensures WellFormed(Written(d, p, data, write, gz).value)
  {
    if write.BrokenOff? {
      WriteKeepsWellFormed(d, p, write.part);
    } else {
      WriteKeepsWellFormed(d, p, data);
      GzippedKeepsWellFormed(d[p := data], p, gz);
    }
  }

  lemma UnchangedKept(st: State, s: Id)
    requires Valid(st)
    ensures Kept(st, st, s)
  {
  }

  lemma SavedKept(st: State, s: Id, raw: string, data: Bytes, write: Write, gz: Gzip)
    requires Valid(st)
    ensures var st' := Saved(st, s, raw, data, write, gz).0;
            Kept(st, st', s)
  {
    hide ValidateFilePath, Written, Kept;
    var path := ValidateFilePath(raw);
    if s in st.services && st.services[s].stopped && path.Some? {
      AcceptedPath(raw, []);
      var written := Written(DirOf(st, s), path.value, data, write, gz);
      if written.Some? {
        WrittenIsWellFormed(DirOf(st, s), path.value, data, write, gz);
        WrittenKept(st, s, written);
      } else {
        UnchangedKept(st, s);
      }
    } else {
      UnchangedKept(st, s);
    }
  }

  lemma FileDeletedKept(st: State, s: Id, raw: string, emptyDir: bool, stuck: Option<set<Path>>)
    requires Valid(st)
    ensures var st' := FileDeleted(st, s, raw, emptyDir, stuck).0;
            Kept(st, st', s)
  {
    var st' := FileDeleted(st, s, raw, emptyDir, stuck).0;
    if st' != st {
      FewerKeepsWellFormed(st.files[s].value, st'.files[s].value);
      WrittenKept(st, s, st'.files[s]);
    }
  }

  lemma DeletedKept(st: State, s: Id, k: Id, removed: bool)
    requires Valid(st)
    ensures var st' := Deleted(st, s, k, removed).0;
            Kept(st, st', s)
  {
    hide IsArchive, Coherent;
    var st' := Deleted(st, s, k, removed).0;
    if st' != st && s in st.services {
      assert Linked(st, s);
    }
    LocalKept(st, st', s);
  }

  lemma MadeKept(st: State, s: Id, kind: Kind, m: Making)
    requires Valid(st) && s in st.services
    ensures var st' := Made(st, s, kind, m).0;
            Kept(st, st', s)
  {
    if Made(st, s, kind, m).1 {
      MadeIsArchive(st, s, kind, m);
    }
  }

  /** What is extracted for a restore is a directory that was archived, or nothing. */
  lemma DataIsWellFormed(st: State, k: Id, base: Path)
    requires Valid(st) && k in st.snapshots
    ensures var (good, data) := DataOf(base, st.snapshots[k].archive);
            good && (data.Some? ==>
              data.value != map[] && WellFormed(data.value) && IsArchive(st.snapshots[k].archive, data.value))
  {
    var d :| IsArchive(st.snapshots[k].archive, d);
    DataOfArchive(base, st.snapshots[k].archive, d);
  }

  lemma InstalledKept(st: State, s: Id, target: Id, d: Dir, now: int)
    requires Valid(st) && s in st.services && target in st.snapshots && st.snapshots[target].service == s
    requires IsArchive(st.snapshots[target].archive, d)
    ensures var st' := SetHead(SetFiles(st, s, Some(d)), s, Some(target), now);
            Kept(st, st', s) && Coherent(st', s)
  {
    LocalKept(st, SetHead(SetFiles(st, s, Some(d)), s, Some(target), now), s);
  }

  lemma ReplacedKept(st: State, s: Id, target: Id, base: Path, trouble: Trouble, now: int)
    requires Valid(st) && s in st.services && target in st.snapshots && st.snapshots[target].service == s
    ensures var data := DataOf(base, st.snapshots[target].archive).1;
            var (st', ok) := Replaced(st, s, target, data, trouble, now);
            && Kept(st, st', s) && st'.snapshots == st.snapshots
            && (ok ==> Coherent(st', s)) && (!ok ==> st'.services == st.services)
  {
    hide DataOf, IsArchive, Kept, Coherent;
    var data := DataOf(base, st.snapshots[target].archive).1;
    DataIsWellFormed(st, target, base);
    var (st', ok) := Replaced(st, s, target, data, trouble, now);
    if ok {
      InstalledKept(st, s, target, data.value, now);
    } else {
      if st'.files[s].Some? {
        var from := if trouble.Removing? then st.files[s].value else data.value;
        FewerKeepsWellFormed(from, st'.files[s].value);
      }
      WrittenKept(st, s, st'.files[s]);
    }
  }

  lemma KeptChain(a: State, b: State, c: State, s: Id)
    requires Kept(a, b, s) && Kept(b, c, s)
    ensures Kept(a, c, s)
  {
  }

  /** The automatic backup does not replace the snapshot to be restored. */
  lemma BackedUpKept(st: State, s: Id, r: Restore)
    requires Valid(st) && Restorable(st, s, r)
    ensures var st1 := BackedUp(st, s, r).0;
            && Kept(st, st1, s) && Valid(st1) && s in st1.services && st1.files == st.files
            && r.target in st1.snapshots && st1.snapshots[r.target] == st.snapshots[r.target]
  {
    if Dirty(st, s, r.target, r.modified) {
      MadeKept(st, s, PreRestore, r.backup);
    } else {
      UnchangedKept(st, s);
    }
  }

  lemma UnpackedKept(st: State, s: Id, target: Id, base: Path, trouble: Trouble, now: int)
    requires Valid(st) && s in st.services && target in st.snapshots && st.snapshots[target].service == s
    ensures var (st', ok) := Unpacked(st, s, target, st.snapshots[target].archive, base, trouble, now);
            && Kept(st, st', s) && st'.snapshots == st.snapshots
            && (ok ==> s in st'.services && s in st'.files && Coherent(st', s))
            && (!ok ==> st'.services == st.services)
  {
    ReplacedKept(st, s, target, base, trouble, now);
    UnchangedKept(st, s);
  }

  lemma RestoredKept(st: State, s: Id, r: Restore)
    requires Valid(st)
    ensures var st' := Restored(st, s, r).0;
            Kept(st, st', s)
  {
    hide BackedUp, Unpacked, Kept, Linked;
    UnchangedKept(st, s);
    if Restorable(st, s, r) {
      BackedUpKept(st, s, r);
      var (st1, ok) := BackedUp(st, s, r);
      UnpackedKept(st1, s, r.target, r.base, r.trouble, r.now);
      KeptChain(st, st1, Unpacked(st1, s, r.target, st.snapshots[r.target].archive, r.base, r.trouble, r.now).0, s);
    }
  }

  /** Every operation, whether it succeeds or fails anywhere, keeps the state valid and touches
      nothing of another service. */
  lemma ApplyKept(st: State, s: Id, op: Op)
    requires Valid(st)
    ensures var st' := Apply(st, s, op).0;
            Kept(st, st', s)
  {
    match op
    case CreateSnapshot(name, m) => if s in st.services { MadeKept(st, s, Manual, m); }
    case DeleteSnapshot(k, removed) => DeletedKept(st, s, k, removed);
    case SaveFile(raw, data, write, gz) => SavedKept(st, s, raw, data, write, gz);
    case DeleteFile(raw, emptyDir, stuck) => FileDeletedKept(st, s, raw, emptyDir, stuck);
    case RestoreSnapshot(r) => RestoredKept(st, s, r);
  }

  /** A save that succeeds stores exactly these bytes, and touches no other file but the compressed
      companion and its temporary form. */
  lemma SaveStores(st: State, s: Id, raw: string, data: Bytes, gz: Gzip)
    requires Valid(st) && Saved(st, s, raw, data, Complete, gz).1
    ensures var p, st' := ValidateFilePath(raw), Saved(st, s, raw, data, Complete, gz).0;
            && p.Some? && p.value != [] && s in st'.files && s in st'.services && st'.services[s].current == None
            && var before, after := DirOf(st, s), DirOf(st', s);
            && p.value in after && after[p.value] == data
            && forall q | q != p.value && q != Beside(p.value, ".gz") && q != Beside(p.value, ".gz.tmp") ::
                 (q in after <==> q in before) && (q in before ==> after[q] == before[q])
  {
    hide ValidateFilePath, Beside;
    AcceptedPath(raw, []);
    BesideIsOther(ValidateFilePath(raw).value, ".gz");
    BesideIsOther(ValidateFilePath(raw).value, ".gz.tmp");
  }

  lemma BesideIsOther(p: Path, suffix: string)
    requires p != [] && suffix != ""
    ensures Beside(p, suffix) != p
  {
    assert Beside(p, suffix)[|p| - 1] == p[|p| - 1] + suffix;
  }

  /** A deletion that succeeds leaves nothing at or below the path, and touches no other file but the
      compressed companion. */
  lemma DeleteRemoves(st: State, s: Id, raw: string, emptyDir: bool, stuck: Option<set<Path>>)
    requires Valid(st) && FileDeleted(st, s, raw, emptyDir, stuck).1
    ensures var p, st' := ValidateFilePath(raw), FileDeleted(st, s, raw, emptyDir, stuck).0;
            && p.Some? && p.value != [] && s in st'.files
            && var before, after := DirOf(st, s), DirOf(st', s);
            && Below(after, p.value) == {}
            && forall q | !(p.value <= q) && q != Beside(p.value, ".gz") ::
                 (q in after <==> q in before) && (q in before ==> after[q] == before[q])
  {
    hide ValidateFilePath, Beside;
    AcceptedPath(raw, []);
    var p, d := ValidateFilePath(raw).value, DirOf(st, s);
    if Below(d, p) != {} || (st.files[s].Some? && emptyDir) {
      var after := d - Below(d, p) - {Beside(p, ".gz")};
      forall q | q in after ensures !(p <= q) {
        assert q in Below(d, p) <==> p <= q;
      }
    }
  }

  /** With the same HEAD, coherence is a matter of the directory alone: an archive is the archive of
      one directory only. */
  lemma SameHead(st: State, st': State, s: Id)
    requires s in st.services && s in st.files && s in st'.services && s in st'.files
    requires Coherent(st, s) && st'.services[s].current == st.services[s].current && st'.snapshots == st.snapshots
    ensures Coherent(st', s) <==> st'.services[s].current == None || st'.files[s] == st.files[s]
  {
    var head := st.services[s].current;
    if head.Some? && st'.files[s].Some? && IsArchive(st.snapshots[head.value].archive, st'.files[s].value) {
      ArchiveDetermines(st.snapshots[head.value].archive, st.files[s].value, st'.files[s].value);
    }
  }

  // ---------------------------------------------------------------- the theorems

  /** From a coherent HEAD to a coherent one, exactly when the operation succeeded, or failed
      without touching the directory, or left no HEAD. */
  ghost predicate Exactly(st: State, st': State, s: Id, ok: bool)
    requires s in st.services && s in st.files
  {
    && s in st'.services && s in st'.files
    && (Coherent(st', s) <==> ok || st'.services[s].current == None || st'.files[s] == st.files[s])
  }

  lemma SavedCoherence(st: State, s: Id, raw: string, data: Bytes, write: Write, gz: Gzip)
    requires Valid(st) && s in st.services && Coherent(st, s)
    ensures var (st', ok) := Saved(st, s, raw, data, write, gz); Exactly(st, st', s, ok)
  {
    var (st', ok) := Saved(st, s, raw, data, write, gz);
    if !ok {
      SameHead(st, st', s);
    }
  }

  lemma FileDeletedCoherence(st: State, s: Id, raw: string, emptyDir: bool, stuck: Option<set<Path>>)
    requires Valid(st) && s in st.services && Coherent(st, s)
    ensures var (st', ok) := FileDeleted(st, s, raw, emptyDir, stuck); Exactly(st, st', s, ok)
  {
    hide ValidateFilePath, IsArchive;
    var (st', ok) := FileDeleted(st, s, raw, emptyDir, stuck);
    if st'.services == st.services {
      SameHead(st, st', s);
    }
  }

  lemma DeletedCoherence(st: State, s: Id, k: Id, removed: bool)
    requires Valid(st) && s in st.services && Coherent(st, s)
    ensures var (st', ok) := Deleted(st, s, k, removed); Exactly(st, st', s, ok)
  {
    assert Linked(st, s);
  }

  lemma CreatedCoherence(st: State, s: Id, name: string, m: Making)
    requires Valid(st) && s in st.services && Coherent(st, s)
    ensures var (st', ok) := Created(st, s, name, m); Exactly(st, st', s, ok)
  {
    if Created(st, s, name, m).1 {
      MadeIsArchive(st, s, Manual, m);
    }
  }

  lemma BackedUpCoherence(st: State, s: Id, r: Restore)
    requires Valid(st) && Restorable(st, s, r) && Coherent(st, s)
    ensures var st1 := BackedUp(st, s, r).0;
            s in st1.services && s in st1.files && Coherent(st1, s)
  {
    if Made(st, s, PreRestore, r.backup).1 {
      MadeIsArchive(st, s, PreRestore, r.backup);
    }
  }

  lemma UnpackedCoherence(st: State, s: Id, target: Id, base: Path, trouble: Trouble, now: int)
    requires Valid(st) && s in st.services && target in st.snapshots && st.snapshots[target].service == s
    requires Coherent(st, s)
    ensures var (st', ok) := Unpacked(st, s, target, st.snapshots[target].archive, base, trouble, now);
            Exactly(st, st', s, ok)
  {
    hide Replaced, DataOf;
    var (st', ok) := Unpacked(st, s, target, st.snapshots[target].archive, base, trouble, now);
    UnpackedKept(st, s, target, base, trouble, now);
    if !ok {
      SameHead(st, st', s);
    }
  }

  lemma RestoredCoherence(st: State, s: Id, r: Restore)
    requires Valid(st) && s in st.services && Coherent(st, s)
    ensures var (st', ok) := Restored(st, s, r); Exactly(st, st', s, ok)
  {
    hide BackedUp, Unpacked, Linked;
    if Restorable(st, s, r) {
      BackedUpKept(st, s, r);
      BackedUpCoherence(st, s, r);
      UnpackedCoherence(BackedUp(st, s, r).0, s, r.target, r.base, r.trouble, r.now);
    }
  }

  /** HEAD coherence of one operation, by what came of it. */
  lemma OutcomeCoherence(st: State, s: Id, op: Op)
    requires Valid(st) && s in st.services && Coherent(st, s)
    ensures var (st', ok) := Apply(st, s, op); Exactly(st, st', s, ok)
  {
    match op
    case CreateSnapshot(name, m) => CreatedCoherence(st, s, name, m);
    case DeleteSnapshot(k, removed) => DeletedCoherence(st, s, k, removed);
    case SaveFile(raw, data, write, gz) => SavedCoherence(st, s, raw, data, write, gz);
    case DeleteFile(raw, emptyDir, stuck) => FileDeletedCoherence(st, s, raw, emptyDir, stuck);
    case RestoreSnapshot(r) => RestoredCoherence(st, s, r);
  }

  /** A snapshot taken, a file saved or a snapshot restored makes HEAD coherent again, whatever
      happened before. */
  lemma SuccessRepairs(st: State, s: Id, op: Op)
    requires Valid(st) && s in st.services
    requires op.CreateSnapshot? || op.SaveFile? || op.RestoreSnapshot?
    ensures var (st', ok) := Apply(st, s, op);
            ok ==> s in st'.services && s in st'.files && Coherent(st', s)
  {
    hide Local, IsArchive, DataOf, Entries, ValidateFilePath, Written;
    match op
    case CreateSnapshot(name, m) => if Created(st, s, name, m).1 { MadeIsArchive(st, s, Manual, m); }
    case SaveFile(raw, data, write, gz) =>
    case RestoreSnapshot(r) =>
      if Restorable(st, s, r) {
        BackedUpKept(st, s, r);
        UnpackedKept(BackedUp(st, s, r).0, s, r.target, r.base, r.trouble, r.now);
      }
  }

  /** What a restore does to the files that were there, exactly: unless it left them alone, some
      snapshot holds them afterwards if and only if the directory counted as modified or some
      snapshot held them before. */
  lemma PriorFiles(st: State, s: Id, r: Restore)
    requires Valid(st) && Restorable(st, s, r) && st.files[s].Some?
    ensures var prior := st.files[s].value;
            var st' := Restored(st, s, r).0;
            && s in st'.files
            && (st'.files[s] == st.files[s]
                || (Stored(st', s, prior) <==> Dirty(st, s, r.target, r.modified) || Stored(st, s, prior)))
  {
    hide IsArchive, DataOf, Entries, Local;
    var prior := st.files[s].value;
    var (st1, ok) := BackedUp(st, s, r);
    var st' := Restored(st, s, r).0;
    BackedUpKept(st, s, r);
    if ok {
      UnpackedKept(st1, s, r.target, r.base, r.trouble, r.now);
      assert st'.snapshots == st1.snapshots;
      if Dirty(st, s, r.target, r.modified) {
        MadeIsArchive(st, s, PreRestore, r.backup);
        assert r.backup.id in st'.snapshots;
      } else if Stored(st, s, prior) {
        var k :| k in st.snapshots && st.snapshots[k].service == s && IsArchive(st.snapshots[k].archive, prior);
        assert k in st'.snapshots;
      }
    }
  }

  /** Restoring a snapshot that is not a pre-restore one never loses the prior files when HEAD is
      coherent, however the restore ends: they are still there, or some snapshot holds them. */
  lemma NothingIsLost(st: State, s: Id, r: Restore)
    requires Valid(st) && Restorable(st, s, r) && Coherent(st, s) && st.files[s].Some?
    requires st.snapshots[r.target].kind != PreRestore
    ensures var st' := Restored(st, s, r).0;
            s in st'.files && (st'.files[s] == st.files[s] || Stored(st', s, st.files[s].value))
  {
    PriorFiles(st, s, r);
    if !Dirty(st, s, r.target, r.modified) {
      assert Linked(st, s);
    }
  }

  /** A restore without trouble installs the archived files and moves HEAD, unless the snapshot is of
      a directory without files: then the restore fails and the instance's directory is gone. */
  lemma RestoreInstalls(st: State, s: Id, r: Restore, d: Dir)
    requires Valid(st) && Restorable(st, s, r) && IsArchive(st.snapshots[r.target].archive, d)
    requires BackedUp(st, s, r).1 && r.trouble == NoTrouble
    ensures var (st', ok) := Restored(st, s, r);
            && s in st'.services && s in st'.files
            && (ok <==> d != map[])
            && st'.files[s] == (if d == map[] then None else Some(d))
            && st'.services[s].current == (if ok then Some(r.target) else BackedUp(st, s, r).0.services[s].current)
  {
    hide DataOf, IsArchive, Made, BackedUp, Kept, Linked;
    BackedUpKept(st, s, r);
    DataOfArchive(r.base, st.snapshots[r.target].archive, d);
  }

  /** The restore made a backup and succeeded; restoring that backup brings the files back and
      makes no further snapshot. */
  ghost predicate Undoes(st: State, s: Id, r: Restore, undo: Restore)
    requires Valid(st)
  {
    var (st1, ok) := Restored(st, s, r);
    ok ==> Valid(st1)
           && var (st2, undone) := Restored(st1, s, undo);
           undone && s in st.files && s in st2.files && st2.files[s] == st.files[s] && st2.snapshots == st1.snapshots
  }

  /** Restoring the automatic backup undoes a restore that succeeded. */
  lemma RestoreUndone(st: State, s: Id, r: Restore, undo: Restore)
    requires Valid(st) && Restorable(st, s, r) && Dirty(st, s, r.target, r.modified)
    requires st.files[s].Some? && st.files[s].value != map[]
    requires undo.target == r.backup.id && undo.trouble == NoTrouble
    ensures Undoes(st, s, r, undo)
  {
    hide Local, IsArchive, DataOf, Entries;
    var st1 := Restored(st, s, r).0;
    RestoredKept(st, s, r);
    BackedUpKept(st, s, r);
    if Restored(st, s, r).1 {
      MadeIsArchive(st, s, PreRestore, r.backup);
      UnpackedKept(BackedUp(st, s, r).0, s, r.target, r.base, r.trouble, r.now);
      assert st1.snapshots[undo.target].kind == PreRestore;
      RestoreInstalls(st1, s, undo, st.files[s].value);
    }
  }
}
