/** The rules of the backup manager and the file manager, one operation at a time: when a call is
    refused, when an automatic backup is made, and what a call leaves behind. */
module SnapshotRules {
  import opened Options
  import opened Paths
  import opened Archive
  import opened Snapshots
  import opened SnapshotRuns

  // ---------------------------------------------------------------- snapshots

  /** What one call on `s` leaves of everything that is not `s`. */
  ghost predicate OthersAsBefore(st: State, st': State, s: Id) {
    && st'.services.Keys == st.services.Keys
    && (forall t | t in st.services && t != s :: st'.services[t] == st.services[t])
    && (forall t | t in st.files && t != s :: t in st'.files && st'.files[t] == st.files[t])
  }

  /** A snapshot is made if and only if it has a name, the service is known and stopped and its directory
      can be archived; it is a manual one, and HEAD names it as of now. */
  lemma SnapshotIsManual(st: State, s: Id, name: string, m: Making)
    requires Valid(st)
    ensures var (st', ok) := Created(st, s, name, m);
            && (ok <==> name != "" && s in st.services && st.services[s].stopped && CanBackUp(st, s, m))
            && (!ok ==> st' == st)
            && (ok ==>
                  && st'.snapshots.Keys == st.snapshots.Keys + {m.id}
                  && st'.snapshots[m.id].kind == Manual && st'.snapshots[m.id].service == s
                  && IsArchive(st'.snapshots[m.id].archive, st.files[s].value)
                  && (forall k | k in st.snapshots :: st'.snapshots[k] == st.snapshots[k])
                  && st'.files == st.files && OthersAsBefore(st, st', s)
                  && st'.services[s] == Service(true, Some(m.id), Some(m.now)))
  {
    hide Walks, NoDots, IsArchive, Linked, Coherent;
    if Created(st, s, name, m).1 {
      MadeIsArchive(st, s, Manual, m);
    }
  }

  /** A deletion is carried out if and only if the snapshot is one of the service and its record can be
      removed. Then it is gone and every other snapshot stays; if HEAD named it, HEAD and its time are
      gone, and otherwise HEAD is as it was. */
  lemma SnapshotIsGone(st: State, s: Id, k: Id, removed: bool)
    requires Valid(st) && s in st.services
    ensures var (st', ok) := Deleted(st, s, k, removed);
            && (ok <==> k in st.snapshots && st.snapshots[k].service == s && removed)
            && (!ok ==> st' == st)
            && (ok ==>
                  && k !in st'.snapshots && (forall j | j in st.snapshots && j != k :: j in st'.snapshots)
                  && (forall j | j in st'.snapshots :: j in st.snapshots && st'.snapshots[j] == st.snapshots[j])
                  && st'.files == st.files && OthersAsBefore(st, st', s)
                  && st'.services[s].stopped == st.services[s].stopped
                  && (st.services[s].current == Some(k) ==>
                        st'.services[s].current == None && st'.services[s].appliedAt == None)
                  && (st.services[s].current != Some(k) ==> st'.services[s] == st.services[s]))
  {}

  // ---------------------------------------------------------------- the automatic backup

  /** HEAD and its time are set, the database is there, and it was last written no later than two
      seconds after that time. */
  predicate Unmodified(st: State, s: Id, modified: int)
    requires s in st.services && s in st.files
  {
    var v, files := st.services[s], st.files[s];
    && v.current.Some? && v.appliedAt.Some? && files.Some? && ["pb_data", "data.db"] in files.value
    && modified - v.appliedAt.value <= 2_000_000_000
  }

  /** A restore makes a backup of the directory if and only if the snapshot to be restored is a manual
      one and the directory is not known to be unmodified. A backup that is due and cannot be made
      stops the restore; one that is made is a pre-restore snapshot of the prior files. */
  lemma BackupIffModified(st: State, s: Id, r: Restore)
    requires Valid(st) && Restorable(st, s, r)
    ensures var (st', ok) := Restored(st, s, r);
            var due := st.snapshots[r.target].kind == Manual && !Unmodified(st, s, r.modified);
            && (!due ==> st'.snapshots == st.snapshots)
            && (due && !CanBackUp(st, s, r.backup) ==> st' == st && !ok)
            && (due && CanBackUp(st, s, r.backup) ==>
                  && st'.snapshots.Keys == st.snapshots.Keys + {r.backup.id} && r.backup.id !in st.snapshots
                  && var b := st'.snapshots[r.backup.id];
                     b.service == s && b.kind == PreRestore && IsArchive(b.archive, st.files[s].value))
  {
    hide Walks, NoDots, IsArchive, DataOf, Kept;
    var (st1, ok) := BackedUp(st, s, r);
    BackedUpKept(st, s, r);
    assert BackedUp(st, s, r).1 && Dirty(st, s, r.target, r.modified) ==> Made(st, s, PreRestore, r.backup).1;
    if ok {
      UnpackedKept(st1, s, r.target, r.base, r.trouble, r.now);
      if Dirty(st, s, r.target, r.modified) {
        MadeIsArchive(st, s, PreRestore, r.backup);
      }
    }
    hide Unpacked, Valid, Linked;
  }

  /** A database written more than two seconds after HEAD was set: a restore that succeeds keeps the
      prior files in a snapshot. */
  lemma ModifiedIsKept(st: State, s: Id, r: Restore)
    requires Valid(st) && Restorable(st, s, r) && st.snapshots[r.target].kind != PreRestore
    requires st.services[s].appliedAt.Some? && st.files[s].Some?
    requires r.modified > st.services[s].appliedAt.value + 2_000_000_000
    ensures Restored(st, s, r).1 ==> Stored(Restored(st, s, r).0, s, st.files[s].value)
  {
    hide Restored, Valid, Restorable, IsArchive, Walks;
    BackupIffModified(st, s, r);
    if Restored(st, s, r).1 {
      assert r.backup.id in Restored(st, s, r).0.snapshots;
    }
  }

  /** A database written no later than that: no backup is made, however the restore ends. */
  lemma UnmodifiedIsNotBackedUp(st: State, s: Id, r: Restore)
    requires Valid(st) && Restorable(st, s, r) && st.services[s].current.Some? && st.services[s].appliedAt.Some?
    requires st.files[s].Some? && ["pb_data", "data.db"] in st.files[s].value
    requires r.modified <= st.services[s].appliedAt.value + 2_000_000_000
    ensures Restored(st, s, r).0.snapshots == st.snapshots
  {
    hide Restored, Valid, Restorable, IsArchive, Walks;
    BackupIffModified(st, s, r);
  }

  /** A restore of a service that is unknown or not stopped, or of a snapshot that is unknown or another
      service's, is refused without a change. */
  lemma RestoreRefused(st: State, s: Id, r: Restore)
    requires Valid(st)
    requires || s !in st.services || !st.services[s].stopped
             || r.target !in st.snapshots || st.snapshots[r.target].service != s
    ensures Restored(st, s, r) == (st, false)
  {}

  /** A restore that succeeds sets HEAD to the snapshot as of now and changes nothing else of the service
      but its directory. */
  lemma RestoreSetsHead(st: State, s: Id, r: Restore)
    requires Valid(st)
    ensures var (st', ok) := Restored(st, s, r);
            ok ==>
              && s in st'.services && st'.services[s] == Service(true, Some(r.target), Some(r.now))
              && OthersAsBefore(st, st', s)
  {
    hide Walks, NoDots, IsArchive, DataOf, Linked;
    RestoredKept(st, s, r);
    if Restorable(st, s, r) {
      var st1 := BackedUp(st, s, r).0;
      BackedUpKept(st, s, r);
      assert st1.services[s].stopped;
    }
  }

  // ---------------------------------------------------------------- saving a file

  /** No directory is at the path and no file above it. */
  ghost predicate NothingInTheWay(d: Dir, p: Path) {
    forall q | q in d :: !(p < q) && !(q < p)
  }

  /** A save succeeds if and only if the service is known and stopped, the name is accepted, nothing is in
      the way and the write completes. Success clears HEAD and leaves its time; a write that breaks
      off leaves its part and HEAD; everything else is refused without a change. */
  lemma SaveAccepted(st: State, s: Id, raw: string, data: Bytes, write: Write, gz: Gzip)
    requires st.services.Keys <= st.files.Keys
    ensures var (st', ok) := Saved(st, s, raw, data, write, gz);
            var path := ValidateFilePath(raw);
            var carried := && s in st.services && st.services[s].stopped && path.Some?
                           && NothingInTheWay(DirOf(st, s), path.value) && write != NotOpened;
            && (ok <==> carried && write == Complete)
            && st'.snapshots == st.snapshots
            && (!carried ==> st' == st)
            && (carried ==> OthersAsBefore(st, st', s) && s in st'.files && st'.files[s].Some?)
            && (ok ==> st'.services[s] == st.services[s].(current := None))
            && (carried && !ok ==> st'.services == st.services)
            && (carried && write.BrokenOff? ==> st'.files[s].value == DirOf(st, s)[path.value := write.part])
  {
    if s in st.services && st.services[s].stopped && ValidateFilePath(raw).Some? {
      AcceptedPath(raw, []);
      hide ValidateFilePath;
      var written := Written(DirOf(st, s), ValidateFilePath(raw).value, data, write, gz);
      WriteAccepted(DirOf(st, s), ValidateFilePath(raw).value, data, write, gz);
      hide Written, NothingInTheWay;
      Rewritten(st, s, written);
      hide SetFiles, ClearHead;
    }
  }

  lemma WriteAccepted(d: Dir, p: Path, data: Bytes, write: Write, gz: Gzip)
    requires p != []
    ensures var r := Written(d, p, data, write, gz);
            && (r.Some? <==> NothingInTheWay(d, p) && write != NotOpened)
            && (r.Some? && write.BrokenOff? ==> r.value == d[p := write.part])
  {
    hide Gzipped;
    assert Blocked(d, p) <==> !NothingInTheWay(d, p);
  }

  /** The compressed companion of a saved file: written for files below pb_public that compress, if no
      directory is in its place or in that of its temporary form; gone only if it was the temporary
      form. Elsewhere nothing but the file itself changes. */
  lemma CompanionIsWritten(st: State, s: Id, raw: string, data: Bytes, gz: Gzip)
    requires Valid(st) && Saved(st, s, raw, data, Complete, gz).1
    ensures var p, st' := ValidateFilePath(raw).value, Saved(st, s, raw, data, Complete, gz).0;
            && p != [] && s in st'.files && s in st.files
            && var before, after := DirOf(st, s), DirOf(st', s);
               var last := p[|p| - 1];
               var companion, temporary := p[..|p| - 1] + [last + ".gz"], p[..|p| - 1] + [last + ".gz.tmp"];
               var free := forall q | q in before :: !(temporary < q);
               && (p[0] != "pb_public" ==> after == before[p := data])
               && (p[0] == "pb_public" && free && gz.Compressed? && (forall q | q in before :: !(companion < q)) ==>
                     after == before[p := data][companion := gz.data] - {temporary})
               && (p[0] == "pb_public" && free && gz == Broken ==> after == before[p := data] - {temporary})
               && (p[0] == "pb_public" && (!free || gz == NotCompressible) ==> after == before[p := data])
  {
    hide ValidateFilePath;
    assert s in st.files;
    hide Valid;
    AcceptedPath(raw, []);
    var p, before := ValidateFilePath(raw).value, DirOf(st, s);
    CompanionOf(before, p, data, gz);
    hide Gzipped;
    var after := if p[0] == "pb_public" then Gzipped(before[p := data], p, gz) else before[p := data];
    assert Written(before, p, data, Complete, gz) == Some(after);
    hide Written;
    assert Saved(st, s, raw, data, Complete, gz).0 == ClearHead(SetFiles(st, s, Some(after)), s);
    hide Saved;
    assert DirOf(ClearHead(SetFiles(st, s, Some(after)), s), s) == after;
    hide ClearHead, SetFiles;
  }

  lemma CompanionOf(before: Dir, p: Path, data: Bytes, gz: Gzip)
    requires p != []
    ensures var last := p[|p| - 1];
            var companion, temporary := p[..|p| - 1] + [last + ".gz"], p[..|p| - 1] + [last + ".gz.tmp"];
            var free := forall q | q in before :: !(temporary < q);
            var after := Gzipped(before[p := data], p, gz);
            && (free && gz.Compressed? && (forall q | q in before :: !(companion < q)) ==>
                  after == before[p := data][companion := gz.data] - {temporary})
            && (free && gz == Broken ==> after == before[p := data] - {temporary})
            && (!free || gz == NotCompressible ==> after == before[p := data])
  {
    var last := p[|p| - 1];
    var companion, temporary := p[..|p| - 1] + [last + ".gz"], p[..|p| - 1] + [last + ".gz.tmp"];
    var d := before[p := data];
    assert companion == Beside(p, ".gz") && temporary == Beside(p, ".gz.tmp");
    NotBelowItsSibling(p, ".gz");
    NotBelowItsSibling(p, ".gz.tmp");
    DirectoryIsOfOthers(before, p, data, temporary);
    DirectoryIsOfOthers(before, p, data, companion);
    assert companion[|p| - 1] == last + ".gz" && temporary[|p| - 1] == last + ".gz.tmp";
    assert |last + ".gz"| < |last + ".gz.tmp"|;
    if gz.Compressed? {
      assert d[companion := gz.data] - {temporary} == (d - {temporary})[companion := gz.data];
    }
  }

  lemma DirectoryIsOfOthers(before: Dir, p: Path, data: Bytes, x: Path)
    requires !(x < p)
    ensures IsDirectory(before[p := data], x) <==> exists q | q in before :: x < q
  {
    if q :| q in before && x < q {
      assert q in before[p := data];
    }
  }

  lemma NotBelowItsSibling(p: Path, suffix: string)
    requires p != []
    ensures !(Beside(p, suffix) < p)
  {}

  // ---------------------------------------------------------------- deleting a file

  /** A deletion of a service that is unknown or not stopped, or of a name that is not accepted, is
      refused without a change. */
  lemma DeletionRefused(st: State, s: Id, raw: string, emptyDir: bool, stuck: Option<set<Path>>)
    requires Valid(st)
    requires s !in st.services || !st.services[s].stopped || ValidateFilePath(raw) == None
    ensures FileDeleted(st, s, raw, emptyDir, stuck) == (st, false)
  {}

  /** The deletion may be carried out, and something is at or below the path: files, or an empty
      directory. */
  ghost predicate SomethingThere(st: State, s: Id, p: Path, emptyDir: bool)
    requires s in st.files
  {
    (exists q | q in DirOf(st, s) :: p <= q) || (st.files[s].Some? && emptyDir)
  }

  /** With nothing there, nothing changes, and the deletion succeeds unless a file is above the path. */
  lemma NothingToDelete(st: State, s: Id, raw: string, emptyDir: bool, stuck: Option<set<Path>>)
    requires Valid(st) && s in st.services && st.services[s].stopped && ValidateFilePath(raw).Some?
    requires !SomethingThere(st, s, ValidateFilePath(raw).value, emptyDir)
    ensures FileDeleted(st, s, raw, emptyDir, stuck)
         == (st, forall q | q in DirOf(st, s) :: !(q < ValidateFilePath(raw).value))
  {
    Removal(DirOf(st, s), ValidateFilePath(raw).value, {}, []);
    hide ValidateFilePath, Below, Valid;
  }

  /** With something there, a removal that works takes exactly that and the compressed companion, and
      clears HEAD but not its time. */
  lemma DeletionCompletes(st: State, s: Id, raw: string, emptyDir: bool)
    requires Valid(st) && s in st.services && st.services[s].stopped && ValidateFilePath(raw).Some?
    requires SomethingThere(st, s, ValidateFilePath(raw).value, emptyDir)
    ensures var p := ValidateFilePath(raw).value;
            var (st', ok) := FileDeleted(st, s, raw, emptyDir, None);
            && ok && p != [] && st'.snapshots == st.snapshots && OthersAsBefore(st, st', s)
            && st'.services[s] == st.services[s].(current := None)
            && var before, after := DirOf(st, s), DirOf(st', s);
               var companion := p[..|p| - 1] + [p[|p| - 1] + ".gz"];
               && (forall q :: q in after <==> q in before && !(p <= q) && q != companion)
               && (forall q | q in after :: after[q] == before[q])
  {
    assert s in st.files;
    hide Valid;
    AcceptedPath(raw, []);
    var p, d := ValidateFilePath(raw).value, DirOf(st, s);
    hide ValidateFilePath;
    Removal(d, p, {}, Beside(p, ".gz"));
    hide Below;
    var after := d - Below(d, p) - {Beside(p, ".gz")};
    assert FileDeleted(st, s, raw, emptyDir, None) == (ClearHead(SetFiles(st, s, Some(after)), s), true);
    Rewritten(st, s, Some(after));
    hide FileDeleted, ClearHead, SetFiles;
  }

  lemma Rewritten(st: State, s: Id, d: Option<Dir>)
    requires s in st.services && st.services.Keys <= st.files.Keys
    ensures var st' := ClearHead(SetFiles(st, s, d), s);
            && st'.snapshots == st.snapshots && OthersAsBefore(st, st', s) && st'.files[s] == d
            && st'.services[s] == st.services[s].(current := None)
    ensures var st' := SetFiles(st, s, d);
            && st'.snapshots == st.snapshots && OthersAsBefore(st, st', s) && st'.files[s] == d
            && st'.services == st.services
  {}

  /** With something there, a removal that fails takes what it can and leaves HEAD. */
  lemma DeletionBreaksOff(st: State, s: Id, raw: string, emptyDir: bool, stuck: set<Path>)
    requires Valid(st) && s in st.services && st.services[s].stopped && ValidateFilePath(raw).Some?
    requires SomethingThere(st, s, ValidateFilePath(raw).value, emptyDir)
    ensures var p := ValidateFilePath(raw).value;
            var (st', ok) := FileDeleted(st, s, raw, emptyDir, Some(stuck));
            && !ok && st'.snapshots == st.snapshots && st'.services == st.services && OthersAsBefore(st, st', s)
            && var before, after := DirOf(st, s), DirOf(st', s);
               && (forall q :: q in after <==> q in before && !(p <= q && q !in stuck))
               && (forall q | q in after :: after[q] == before[q])
  {
    assert s in st.files;
    hide Valid;
    AcceptedPath(raw, []);
    var p, d := ValidateFilePath(raw).value, DirOf(st, s);
    hide ValidateFilePath;
    Removal(d, p, stuck, []);
    hide Below;
    var after := d - (Below(d, p) - stuck);
    assert FileDeleted(st, s, raw, emptyDir, Some(stuck)) == (SetFiles(st, s, Some(after)), false);
    Rewritten(st, s, Some(after));
    hide FileDeleted, SetFiles;
  }

  lemma Removal(d: Dir, p: Path, stuck: set<Path>, companion: Path)
    ensures Below(d, p) != {} <==> exists q | q in d :: p <= q
    ensures forall q :: q in d - (Below(d, p) - stuck) <==> q in d && !(p <= q && q !in stuck)
    ensures forall q :: q in d - Below(d, p) - {companion} <==> q in d && !(p <= q) && q != companion
  {
    if q :| q in d && p <= q {
      assert q in Below(d, p);
    }
  }

  // ---------------------------------------------------------------- names

  /** The names that are accepted are relative, not empty, and their clean form lies in one of four
      directories; and every clean path in those has an accepted name. */
  lemma AcceptedNames(raw: string)
    ensures ValidateFilePath(raw).Some? ==>
              && raw != "" && raw[0] != '/'
              && var p := ValidateFilePath(raw).value;
                 p != [] && Clean(p) && p[0] in {"pb_hooks", "pb_public", "pb_migrations", "pb_data"}
  {
    if ValidateFilePath(raw).Some? {
      AcceptedPath(raw, []);
    }
  }

  lemma NamesAccepted(p: Path)
    requires p != [] && Clean(p) && p[0] in {"pb_hooks", "pb_public", "pb_migrations", "pb_data"}
    ensures ValidateFilePath(Join(p)) == Some(p)
  {
    PathAccepted(p);
  }

  /** How far down the segments of a name lead; every ".." leads up again. */
  function Depth(segments: Path): int {
    if segments == [] then 0
    else
      var first := segments[0];
      (if first == "" || first == "." then 0 else if first == ".." then -1 else 1) + Depth(segments[1..])
  }

  lemma {:induction false} NeverClimbs(done: Path, rest: Path)
    ensures CleanRel(done, rest).Some? <==> forall n | 0 <= n <= |rest| :: |done| + Depth(rest[..n]) >= 0
    decreases |rest|
  {
    if rest != [] {
      var d := Depth(rest[..1]);
      assert rest[..1][1..] == [] && Depth([]) == 0;
      forall n | 1 <= n <= |rest| ensures Depth(rest[..n]) == d + Depth(rest[1..][..n - 1]) {
        assert rest[..n][1..] == rest[1..][..n - 1];
      }
      if |done| + d >= 0 {
        var next := if d == 0 then done else if d < 0 then done[..|done| - 1] else done + [rest[0]];
        NeverClimbs(next, rest[1..]);
        ShiftedAlike(rest, |done|, d);
      }
    }
  }

  lemma ShiftedAlike(rest: Path, start: nat, d: int)
    requires rest != [] && start + d >= 0
    requires forall n | 1 <= n <= |rest| :: Depth(rest[..n]) == d + Depth(rest[1..][..n - 1])
    ensures (forall n | 0 <= n <= |rest| :: start + Depth(rest[..n]) >= 0)
            <==> forall n | 0 <= n <= |rest[1..]| :: start + d + Depth(rest[1..][..n]) >= 0
  {
    hide Depth;
    assert Depth(rest[..0]) == 0 by { DepthOfNothing(rest); }
    if forall n | 0 <= n <= |rest| :: start + Depth(rest[..n]) >= 0 {
      forall n | 0 <= n <= |rest[1..]| ensures start + d + Depth(rest[1..][..n]) >= 0 {
        assert Depth(rest[..n + 1]) == d + Depth(rest[1..][..n]);
      }
    }
    if forall n | 0 <= n <= |rest[1..]| :: start + d + Depth(rest[1..][..n]) >= 0 {
      forall n | 0 <= n <= |rest| ensures start + Depth(rest[..n]) >= 0 {
        if n > 0 {
          assert start + d + Depth(rest[1..][..n - 1]) >= 0;
        }
      }
    }
  }

  lemma DepthOfNothing(rest: Path)
    ensures Depth(rest[..0]) == 0
  {
    assert rest[..0] == [];
  }

  /** A name is accepted if and only if it is relative, never climbs above its start, and leads to a path
      in one of the four directories. */
  lemma AcceptedIff(raw: string)
    ensures ValidateFilePath(raw).Some? <==>
              && raw != "" && raw[0] != '/'
              && (forall n | 0 <= n <= |Split(raw)| :: Depth(Split(raw)[..n]) >= 0)
              && var p := Resolve([], Split(raw));
                 p != [] && p[0] in {"pb_hooks", "pb_public", "pb_migrations", "pb_data"}
  {
    var segments := Split(raw);
    SplitNoSlash(raw);
    NeverClimbs([], segments);
    if CleanRel([], segments).Some? {
      var start: Path := [];
      assert start + start == start && start + CleanRel([], segments).value == CleanRel([], segments).value;
      CleanRelIsClean(start, start, segments);
    }
    hide Split, CleanRel, Resolve, Depth;
  }

  /** Only an archive with an entry that leads to the manifest can be restored. */
  lemma ManifestIsNeeded(base: Path, archive: seq<Entry>)
    ensures DataOf(base, archive).0 ==>
              && ExtractAll(base, archive).0
              && exists i :: 0 <= i < |archive| && Rel(base, Resolve(base, Split(archive[i].name))) == ["manifest.json"]
  {
    if DataOf(base, archive).0 {
      FilesFromEntries(base, archive, ["manifest.json"]);
    }
  }
}
