/** Which calls leave HEAD right: a condition on the state and the arguments of a call, for one call
    and for whole runs. */
module SnapshotRuns {
  import opened Options
  import opened Paths
  import opened Archive
  import opened Snapshots

  // ---------------------------------------------------------------- calls that do harm

  /** A save is carried out, breaks off, and what it leaves is not what was there. */
  predicate SaveBreaks(st: State, s: Id, raw: string, write: Write)
    requires s in st.services && s in st.files
  {
    var path, d := ValidateFilePath(raw), DirOf(st, s);
    && st.services[s].stopped && path.Some? && !Blocked(d, path.value) && write.BrokenOff?
    && (path.value !in d || d[path.value] != write.part)
  }

  /** A deletion is carried out and breaks off after removing some file. */
  predicate DeleteBreaks(st: State, s: Id, raw: string, stuck: Option<set<Path>>)
    requires s in st.services && s in st.files
  {
    var path := ValidateFilePath(raw);
    && st.services[s].stopped && path.Some? && st.files[s].Some? && stuck.Some?
    && exists q | q in st.files[s].value && path.value <= q :: q !in stuck.value
  }

  /** A backup of the directory can be made. */
  ghost predicate CanBackUp(st: State, s: Id, m: Making)
    requires s in st.services && s in st.files
  {
    && st.files[s].Some? && m.written && m.id !in st.snapshots
    && NoDots(st.files[s].value) && Walks(m.walk, st.files[s].value)
  }

  /** Replacing the directory breaks off and leaves something else than was there. Data that is absent,
      because the snapshot is of a directory without files, breaks it off, too. */
  predicate ReplaceBreaks(files: Option<Dir>, data: Option<Dir>, trouble: Trouble) {
    match trouble
    case BeforeReplacing => false
    case Removing(left) => files.Some? && exists p | p in files.value :: p !in left
    case Copying(copied) => files != if data.Some? then Some(Only(data.value, copied)) else None
    case NoTrouble => data == None && files.Some?
  }

  /** A restore gets as far as the directory, breaks off there, and leaves HEAD behind: the one there
      was, or the one of the backup. */
  ghost predicate RestoreBreaks(st: State, s: Id, r: Restore)
    requires s in st.services && s in st.files
  {
    && Restorable(st, s, r)
    && (if Dirty(st, s, r.target, r.modified) then CanBackUp(st, s, r.backup) else st.services[s].current.Some?)
    && ReplaceBreaks(st.files[s], DataOf(r.base, st.snapshots[r.target].archive).1, r.trouble)
  }

  /** The call does no harm to HEAD. */
  ghost predicate Harmless(st: State, s: Id, op: Op)
    requires s in st.services && s in st.files
  {
    match op
    case CreateSnapshot(_, _) => true
    case DeleteSnapshot(_, _) => true
    case SaveFile(raw, _, write, _) => st.services[s].current.Some? ==> !SaveBreaks(st, s, raw, write)
    case DeleteFile(raw, _, stuck) => st.services[s].current.Some? ==> !DeleteBreaks(st, s, raw, stuck)
    case RestoreSnapshot(r) => !RestoreBreaks(st, s, r)
  }

  // ---------------------------------------------------------------- one call

  /** What `Exactly` asks of the outcome. */
  ghost predicate Spared(st: State, st': State, s: Id, ok: bool)
    requires s in st.files && s in st'.services && s in st'.files
  {
    ok || st'.services[s].current == None || st'.files[s] == st.files[s]
  }

  lemma SaveSpares(st: State, s: Id, raw: string, data: Bytes, write: Write, gz: Gzip)
    requires Valid(st) && s in st.services
    ensures var (st', ok) := Saved(st, s, raw, data, write, gz);
            && s in st'.services && s in st'.files
            && (Spared(st, st', s, ok) <==> (st.services[s].current.Some? ==> !SaveBreaks(st, s, raw, write)))
  {
    hide ValidateFilePath, Blocked;
    var path, d := ValidateFilePath(raw), DirOf(st, s);
    if path.Some? && write.BrokenOff? {
      var p, part := path.value, write.part;
      if p in d && d[p] == part {
        assert d[p := part] == d;
      } else {
        assert p in d[p := part] && d[p := part][p] == part;
      }
    }
  }

  lemma DeleteSpares(st: State, s: Id, raw: string, emptyDir: bool, stuck: Option<set<Path>>)
    requires Valid(st) && s in st.services
    ensures var (st', ok) := FileDeleted(st, s, raw, emptyDir, stuck);
            && s in st'.services && s in st'.files
            && (Spared(st, st', s, ok) <==> (st.services[s].current.Some? ==> !DeleteBreaks(st, s, raw, stuck)))
  {
    hide ValidateFilePath;
    var path := ValidateFilePath(raw);
    if DeleteBreaks(st, s, raw, stuck) {
      var q :| q in st.files[s].value && path.value <= q && q !in stuck.value;
      assert q in Below(st.files[s].value, path.value);
    } else if path.Some? && st.files[s].Some? && stuck.Some? && st.services[s].stopped {
      var d := st.files[s].value;
      assert d - (Below(d, path.value) - stuck.value) == d;
    }
  }

  lemma ReplaceSpares(st: State, s: Id, target: Id, data: Option<Dir>, trouble: Trouble, now: int)
    requires s in st.services && s in st.files && trouble != BeforeReplacing
    ensures var (st', ok) := Replaced(st, s, target, data, trouble, now);
            && s in st'.services && s in st'.files
            && (ok || st'.files[s] == st.files[s] <==> !ReplaceBreaks(st.files[s], data, trouble))
            && (!ok ==> st'.services == st.services)
  {
    if trouble.Removing? && st.files[s].Some? {
      var d, left := st.files[s].value, trouble.left;
      if ReplaceBreaks(st.files[s], data, trouble) {
        var p :| p in d && p !in left;
        assert p !in Only(d, left);
      } else {
        assert Only(d, left) == d;
      }
    }
  }

  lemma RestoreSpares(st: State, s: Id, r: Restore)
    requires Valid(st) && s in st.services
    ensures var (st', ok) := Restored(st, s, r);
            && s in st'.services && s in st'.files && (Spared(st, st', s, ok) <==> !RestoreBreaks(st, s, r))
  {
    hide DataOf, Walks, NoDots, Replaced, Entries, IsArchive;
    if Restorable(st, s, r) {
      BackedUpKept(st, s, r);
      var (st1, backed) := BackedUp(st, s, r);
      assert backed && Dirty(st, s, r.target, r.modified) ==> st1.services[s].current.Some?;
      if backed && r.trouble != BeforeReplacing {
        DataIsWellFormed(st, r.target, r.base);
        ReplaceSpares(st1, s, r.target, DataOf(r.base, st.snapshots[r.target].archive).1, r.trouble, r.now);
      }
    }
  }

  /** HEAD coherence of one call, exactly: a coherent HEAD stays coherent if and only if the call is
      harmless. */
  lemma HeadCoherence(st: State, s: Id, op: Op)
    requires Valid(st) && s in st.services && Coherent(st, s)
    ensures var st' := Apply(st, s, op).0;
            s in st'.services && s in st'.files && (Coherent(st', s) <==> Harmless(st, s, op))
  {
    OutcomeCoherence(st, s, op);
    hide Coherent, SaveBreaks, DeleteBreaks, RestoreBreaks;
    match op
    case CreateSnapshot(name, m) =>
    case DeleteSnapshot(k, removed) =>
    case SaveFile(raw, data, write, gz) => SaveSpares(st, s, raw, data, write, gz);
    case DeleteFile(raw, emptyDir, stuck) => DeleteSpares(st, s, raw, emptyDir, stuck);
    case RestoreSnapshot(r) => RestoreSpares(st, s, r);
  }

  // ---------------------------------------------------------------- runs

  datatype Call = Call(service: Id, op: Op)

  /** The state after a run of calls, on any services, with any failures. */
  ghost function After(st: State, run: seq<Call>): (r: State)
    requires Valid(st)
    ensures Valid(r) && r.services.Keys == st.services.Keys
  {
    if run == [] then st
    else
      var before, c := After(st, run[..|run| - 1]), run[|run| - 1];
      ApplyKept(before, c.service, c.op);
      Apply(before, c.service, c.op).0
  }

  /** The call at index `i` is on another service, or harmless where it comes. */
  ghost predicate HarmlessAt(st: State, run: seq<Call>, s: Id, i: nat)
    requires Valid(st) && s in st.services && i < |run|
  {
    run[i].service == s ==> Harmless(After(st, run[..i]), s, run[i].op)
  }

  ghost predicate CoherentAfter(st: State, run: seq<Call>, s: Id, n: nat)
    requires Valid(st) && s in st.services && n <= |run|
  {
    Coherent(After(st, run[..n]), s)
  }

  lemma CoherentNext(st: State, run: seq<Call>, s: Id, i: nat)
    requires Valid(st) && s in st.services && i < |run| && CoherentAfter(st, run, s, i)
    ensures CoherentAfter(st, run, s, i + 1) <==> HarmlessAt(st, run, s, i)
  {
    hide Apply, Valid, Coherent, Local, Harmless;
    var before, c := After(st, run[..i]), run[i];
    assert run[..i + 1][..i] == run[..i];
    ApplyKept(before, c.service, c.op);
    if c.service == s {
      HeadCoherence(before, s, c.op);
    } else {
      OthersKeepCoherence(before, Apply(before, c.service, c.op).0, c.service, s);
    }
  }

  lemma {:induction false} CoherentUpTo(st: State, run: seq<Call>, s: Id, n: nat)
    requires Valid(st) && s in st.services && n <= |run| && Coherent(st, s)
    requires forall i: nat | i < n :: HarmlessAt(st, run, s, i)
    ensures CoherentAfter(st, run, s, n)
  {
    hide Coherent, HarmlessAt;
    if n == 0 {
      assert run[..0] == [];
    } else {
      CoherentUpTo(st, run, s, n - 1);
      CoherentNext(st, run, s, n - 1);
    }
  }

  /** HEAD coherence of whole runs, exactly: HEAD is coherent all along a run of any calls on any
      services, with any failures, if and only if every call on its service is harmless where it comes. */
  lemma RunCoherence(st: State, run: seq<Call>, s: Id)
    requires Valid(st) && s in st.services && Coherent(st, s)
    ensures (forall n: nat | n <= |run| :: CoherentAfter(st, run, s, n))
            <==> (forall i: nat | i < |run| :: HarmlessAt(st, run, s, i))
  {
    hide Coherent, HarmlessAt, CoherentAfter;
    if forall i: nat | i < |run| :: HarmlessAt(st, run, s, i) {
      forall n: nat | n <= |run| ensures CoherentAfter(st, run, s, n) {
        CoherentUpTo(st, run, s, n);
      }
    }
    if forall n: nat | n <= |run| :: CoherentAfter(st, run, s, n) {
      forall i: nat | i < |run| ensures HarmlessAt(st, run, s, i) {
        CoherentNext(st, run, s, i);
      }
    }
  }

  // ---------------------------------------------------------------- after a restore of nothing

  /** A snapshot of a directory without files cannot be restored: the attempt removes the directory,
      and from then on every restore of a snapshot that is not a pre-restore one fails without a
      change, because the backup that is due cannot be made. */
  lemma RestoreOfNothing(st: State, s: Id, r: Restore, later: Restore)
    requires Valid(st) && Restorable(st, s, r) && IsArchive(st.snapshots[r.target].archive, map[])
    requires BackedUp(st, s, r).1 && r.trouble == NoTrouble
    ensures var (st', ok) := Restored(st, s, r);
            && !ok && Valid(st') && s in st'.files && st'.files[s] == None
            && (Restorable(st', s, later) && st'.snapshots[later.target].kind != PreRestore ==>
                  Restored(st', s, later) == (st', false))
  {
    hide IsArchive, DataOf, Made, BackedUp;
    RestoreInstalls(st, s, r, map[]);
    RestoredKept(st, s, r);
    var st' := Restored(st, s, r).0;
    if Restorable(st', s, later) && st'.snapshots[later.target].kind != PreRestore {
      NoBackupOfNothing(st', s, later);
    }
  }

  lemma NoBackupOfNothing(st: State, s: Id, r: Restore)
    requires Valid(st) && Restorable(st, s, r) && st.files[s] == None && st.snapshots[r.target].kind != PreRestore
    ensures BackedUp(st, s, r) == (st, false)
  {}
}
