/** The backup manager and the file manager, working on one database and one disk. What the file
    system and the storage do, and the clock, come in as arguments. */
module SnapshotStore {
  import opened Options
  import opened Paths
  import opened Archive
  import opened Snapshots

  class Managers {
    var services: map<Id, Service>
    var snapshots: map<Id, Snapshot>
    var files: map<Id, Option<Dir>>

    ghost function Now(): State
      reads this
    {
      State(services, snapshots, files)
    }

    /** `setCurrentSnapshotID` */
    method SetCurrentSnapshotID(s: Id, head: Option<Id>, now: int)
      requires s in services
      modifies this`services
      ensures Now() == SetHead(old(Now()), s, head, now)
    {
      var record := services[s];
      record := record.(current := head);
      if head == None {
        record := record.(appliedAt := None);
      } else {
        record := record.(appliedAt := Some(now));
      }
      services := services[s := record];
    }

    /** `createSnapshotWithType` */
    method CreateSnapshotWithType(s: Id, kind: Kind, id: Id, manifest: Bytes, now: int, written: bool)
      returns (ok: bool, ghost walk: seq<Path>)
      requires Valid(Now()) && s in services
      modifies this`services, this`snapshots
      ensures (Now(), ok) == Made(old(Now()), s, kind, Making(id, manifest, walk, now, written))
    {
      if files[s].None? {
        return false, [];
      }
      var zipped, entries, visited := CreateFromDir(SnapshotLayout(manifest), files[s].value);
      walk := visited;
      if !zipped || !written || id in snapshots {
        return false, walk;
      }
      snapshots := snapshots[id := Snapshot(s, kind, entries)];
      SetCurrentSnapshotID(s, Some(id), now);
      ok := true;
    }

    method CreateSnapshot(s: Id, name: string, id: Id, manifest: Bytes, now: int, written: bool)
      returns (ok: bool, ghost walk: seq<Path>)
      requires Valid(Now())
      modifies this`services, this`snapshots
      ensures (Now(), ok) == Created(old(Now()), s, name, Making(id, manifest, walk, now, written))
    {
      if name == "" || s !in services || !services[s].stopped {
        return false, [];
      }
      ok, walk := CreateSnapshotWithType(s, Manual, id, manifest, now, written);
    }

    method DeleteSnapshot(s: Id, k: Id, removed: bool) returns (ok: bool)
      modifies this`services, this`snapshots
      ensures (Now(), ok) == Deleted(old(Now()), s, k, removed)
    {
      if k !in snapshots || snapshots[k].service != s || !removed {
        return false;
      }
      snapshots := snapshots - {k};
      if s in services && services[s].current == Some(k) {
        SetCurrentSnapshotID(s, None, 0);
      }
      ok := true;
    }

    /** `ClearCurrentSnapshot` */
    method ClearCurrentSnapshot(s: Id)
      requires s in services
      modifies this`services
      ensures Now() == ClearHead(old(Now()), s)
    {
      services := services[s := services[s].(current := None)];
    }

    /** `compressToGzip`, by way of a temporary file. */
    method CompressToGzip(d: Dir, p: Path, gz: Gzip) returns (r: Dir)
      requires p != []
      ensures r == Gzipped(d, p, gz)
    {
      r := d;
      if gz == NotCompressible || IsDirectory(d, Beside(p, ".gz.tmp")) {
        return;
      }
      if gz.Compressed? {
        r := r[Beside(p, ".gz.tmp") := gz.data];
        if !IsDirectory(d, Beside(p, ".gz")) {
          r := r[Beside(p, ".gz") := r[Beside(p, ".gz.tmp")]];
        }
      }
      DifferentSuffix(p);
      r := r - {Beside(p, ".gz.tmp")};
      assert r == Gzipped(d, p, gz);
    }

    /** `SaveFileBytes` and `SaveFileStream` */
    method SaveFile(s: Id, raw: string, data: Bytes, write: Write, gz: Gzip) returns (ok: bool)
      requires Valid(Now())
      modifies this`services, this`files
      ensures (Now(), ok) == Saved(old(Now()), s, raw, data, write, gz)
    {
      hide Gzipped;
      if s !in services || !services[s].stopped {
        return false;
      }
      var path := ValidateFilePath(raw);
      if path == None {
        return false;
      }
      var p := path.value;
      var d := if files[s].Some? then files[s].value else map[];
      if Blocked(d, p) || write == NotOpened {
        return false;
      }
      if write.BrokenOff? {
        files := files[s := Some(d[p := write.part])];
        return false;
      }
      d := d[p := data];
      if p[0] == "pb_public" {
        d := CompressToGzip(d, p, gz);
      }
      files := files[s := Some(d)];
      ClearCurrentSnapshot(s);
      ok := true;
    }

    /** `DeleteFile`; `stuck` are the files that `os.RemoveAll` could not remove, when it failed. */
    method DeleteFile(s: Id, raw: string, emptyDir: bool, stuck: Option<set<Path>>) returns (ok: bool)
      requires Valid(Now())
      modifies this`services, this`files
      ensures (Now(), ok) == FileDeleted(old(Now()), s, raw, emptyDir, stuck)
    {
      if s !in services || !services[s].stopped {
        return false;
      }
      var path := ValidateFilePath(raw);
      if path == None {
        return false;
      }
      var p := path.value;
      var d := if files[s].Some? then files[s].value else map[];
      if Below(d, p) == {} && (files[s] == None || !emptyDir) {
        return !exists q | q in d :: q < p;
      }
      if stuck.Some? {
        files := files[s := Some(d - (Below(d, p) - stuck.value))];
        return false;
      }
      d := d - Below(d, p);
      d := d - {Beside(p, ".gz")};
      files := files[s := Some(d)];
      ClearCurrentSnapshot(s);
      ok := true;
    }

    /** The part of `RestoreSnapshotInPlace` from `os.RemoveAll` on. */
    method Replace(s: Id, target: Id, data: Option<Dir>, trouble: Trouble, now: int) returns (ok: bool)
      requires Valid(Now()) && s in services
      requires data.Some? ==> NoDots(data.value)
      modifies this`services, this`files
      ensures (Now(), ok) == Replaced(old(Now()), s, target, data, trouble, now)
    {
      if trouble.Removing? {
        files := files[s := if files[s].Some? then Some(Only(files[s].value, trouble.left)) else None];
        return false;
      }
      files := files[s := None];
      var copied, copy := CopyDir(data);
      var part := if trouble.Copying? && copied then Some(Only(copy.value, trouble.copied)) else copy;
      assert files[s := copy] == old(files)[s := copy] && files[s := part] == old(files)[s := part];
      if !copied {
        files := files[s := copy];
        return false;
      }
      if trouble.Copying? {
        files := files[s := part];
        return false;
      }
      files := files[s := copy];
      SetCurrentSnapshotID(s, Some(target), now);
      ok := true;
    }

    /** The automatic backup of `RestoreSnapshotInPlace`. */
    method BackUp(s: Id, r: Restore) returns (ok: bool, ghost walk: seq<Path>)
      requires Valid(Now()) && Restorable(Now(), s, r)
      modifies this`services, this`snapshots
      ensures (Now(), ok) == BackedUp(old(Now()), s, r.(backup := r.backup.(walk := walk)))
    {
      var dirty := false;
      if snapshots[r.target].kind != PreRestore {
        var service := services[s];
        if service.current == None || service.appliedAt == None {
          dirty := true;
        } else if files[s].Some? && DATABASE in files[s].value {
          if r.modified > service.appliedAt.value + GRACE {
            dirty := true;
          }
        } else {
          dirty := true;
        }
      }
      assert dirty == Dirty(Now(), s, r.target, r.modified);
      walk := r.backup.walk;
      ok := true;
      if dirty {
        var b := r.backup;
        ok, walk := CreateSnapshotWithType(s, PreRestore, b.id, b.manifest, b.now, b.written);
      }
    }

    /** The rest: fetch the archive, extract it, read its manifest, replace the files. */
    method Unpack(s: Id, target: Id, base: Path, trouble: Trouble, now: int) returns (ok: bool)
      requires Valid(Now()) && s in services && target in snapshots
      modifies this`services, this`files
      ensures (Now(), ok) == Unpacked(old(Now()), s, target, old(snapshots)[target].archive, base, trouble, now)
    {
      DataIsWellFormed(Now(), target, base);
      if trouble == BeforeReplacing {
        return false;
      }
      var extracted, tree := Extract(base, snapshots[target].archive);
      if !extracted || ["manifest.json"] !in tree.files {
        return false;
      }
      ok := Replace(s, target, SubDir(tree, "data"), trouble, now);
    }

    /** The order in which a backup is walked is not chosen by the caller: `backup.walk` is ignored,
        and `walk` is the one taken. */
    method RestoreSnapshotInPlace(s: Id, r: Restore) returns (ok: bool, ghost walk: seq<Path>)
      requires Valid(Now())
      modifies this
      ensures (Now(), ok) == Restored(old(Now()), s, r.(backup := r.backup.(walk := walk)))
    {
      hide BackedUp, Unpacked, Valid;
      walk := [];
      if s !in services || !services[s].stopped || r.target !in snapshots || snapshots[r.target].service != s {
        return false, walk;
      }
      ok, walk := BackUp(s, r);
      if ok {
        BackedUpKept(old(Now()), s, r.(backup := r.backup.(walk := walk)));
        ok := Unpack(s, r.target, r.base, r.trouble, r.now);
      }
    }
  }

  lemma DifferentSuffix(p: Path)
    requires p != []
    ensures Beside(p, ".gz") != Beside(p, ".gz.tmp")
  {
    var last := p[|p| - 1];
    assert |last + ".gz"| < |last + ".gz.tmp"|;
    assert Beside(p, ".gz")[|p| - 1] == last + ".gz" && Beside(p, ".gz.tmp")[|p| - 1] == last + ".gz.tmp";
  }
}
