/** Snapshot archives: `CreateFromDir` (helpers/zip), `Extract` (helpers/unzip) and `copyDir`
    (internal/backup). A directory is a map from the path of each file to its bytes; empty
    directories are not part of it. */
module Archive {
  import opened Options
  import opened Paths

  newtype Byte = x: int | 0 <= x < 256
  type Bytes = seq<Byte>
  type Dir = map<Path, Bytes>
  datatype Entry = Entry(name: string, data: Bytes)

  /** Where an archive puts its parts: the directory below `prefix`, one extra file at the top. */
  datatype Layout = Layout(prefix: string, extra: Entry)

  predicate LayoutOk(l: Layout) {
    && Segment(l.prefix) && Segment(l.extra.name) && l.prefix != l.extra.name
    && !StartsDotDot([l.prefix]) && !StartsDotDot([l.extra.name])
  }

  /** The layout of a snapshot. */
  function SnapshotLayout(manifest: Bytes): (l: Layout)
    ensures LayoutOk(l)
  {
    assert "data"[..2][0] == 'd' && "manifest.json"[..2][0] == 'm';
    Layout("data", Entry("manifest.json", manifest))
  }

  /** What a file system can hold: clean paths, and no file below another file. */
  ghost predicate WellFormed(d: Dir) {
    && (forall p | p in d :: p != [] && Clean(p))
    && (forall p, q | p in d && q in d && p <= q :: p == q)
  }

  /** `walk` visits every file of `d` once. */
  ghost predicate Walks(walk: seq<Path>, d: Dir) {
    && (forall i | 0 <= i < |walk| :: walk[i] in d)
    && (forall p | p in d :: p in walk)
    && (forall i, j | 0 <= i < j < |walk| :: walk[i] != walk[j])
  }

  /** No name directly in the directory begins with two dots. */
  ghost predicate NoDots(d: Dir) {
    forall p | p in d :: !StartsDotDot(p)
  }

  function EntryName(l: Layout, p: Path): string {
    l.prefix + "/" + Join(p)
  }

  /** The archive of the files visited by `walk`, after the extra file. */
  function Entries(l: Layout, d: Dir, walk: seq<Path>): seq<Entry>
    requires forall i | 0 <= i < |walk| :: walk[i] in d
  {
    if walk == [] then [l.extra]
    else
      var last := walk[|walk| - 1];
      Entries(l, d, walk[..|walk| - 1]) + [Entry(EntryName(l, last), d[last])]
  }

  /** `filepath.WalkDir`, reduced to the files it visits, in whatever order. */
  method WalkDir(d: Dir) returns (walk: seq<Path>)
    ensures Walks(walk, d)
  {
    walk := [];
    var rest := d.Keys;
    while rest != {}
      invariant rest <= d.Keys
      invariant forall i | 0 <= i < |walk| :: walk[i] in d && walk[i] !in rest
      invariant forall p | p in d :: p in rest || p in walk
      invariant forall i, j | 0 <= i < j < |walk| :: walk[i] != walk[j]
      decreases rest
    {
      var p :| p in rest;
      rest := rest - {p};
      walk := walk + [p];
    }
  }

  /** `CreateFromDir` */
  method CreateFromDir(l: Layout, d: Dir) returns (ok: bool, entries: seq<Entry>, ghost walk: seq<Path>)
    ensures Walks(walk, d)
    ensures ok <==> NoDots(d)
    ensures ok ==> entries == Entries(l, d, walk)
  {
    var visit := WalkDir(d);
    walk := visit;
    ok, entries := true, [l.extra];
    for i := 0 to |visit|
      invariant ok && forall k | 0 <= k < i :: !StartsDotDot(visit[k])
      invariant entries == Entries(l, d, visit[..i])
    {
      if StartsDotDot(visit[i]) {
        return false, [], visit;
      }
      assert visit[..i + 1][..i] == visit[..i];
      entries := entries + [Entry(EntryName(l, visit[i]), d[visit[i]])];
    }
    assert visit[..|visit|] == visit;
  }

  // ---------------------------------------------------------------- extraction

  /** The extraction directory: its files and its directories, by path. */
  datatype Tree = Tree(files: Dir, dirs: set<Path>)

  const EMPTY := Tree(map[], {})

  /** A path and the directories above it. */
  function Prefixes(p: Path): (r: set<Path>)
    ensures forall q :: q in r <==> q != [] && q <= p
  {
    if p == [] then {}
    else
      var r := Prefixes(p[..|p| - 1]) + {p};
      assert forall q {:trigger q in r} :: q <= p ==> q == p || q <= p[..|p| - 1];
      r
  }

  /** `os.MkdirAll`: fails when a file is in the way. */
  function MkdirAll(t: Tree, p: Path): (bool, Tree) {
    if Prefixes(p) !! t.files.Keys then (true, t.(dirs := t.dirs + Prefixes(p))) else (false, t)
  }

  /** One entry of `Extract`, whose name leads to `rel` below the extraction directory. */
  function WriteEntry(t: Tree, rel: Path, asDirectory: bool, data: Bytes): (bool, Tree) {
    if StartsDotDot(rel) then (false, t)
    else if asDirectory then MkdirAll(t, rel)
    else if rel == [] then (false, t)
    else
      var (ok, u) := MkdirAll(t, rel[..|rel| - 1]);
      if !ok || rel in u.dirs then (false, u) else (true, u.(files := u.files[rel := data]))
  }

  predicate IsDirName(name: string) {
    name != "" && name[|name| - 1] == '/'
  }

  /** `extractAndWriteFile` into the absolute directory `base`. */
  function ExtractOne(base: Path, t: Tree, e: Entry): (bool, Tree) {
    WriteEntry(t, Rel(base, Resolve(base, Split(e.name))), IsDirName(e.name), e.data)
  }

  function ExtractAll(base: Path, entries: seq<Entry>): (bool, Tree) {
    if entries == [] then (true, EMPTY)
    else
      var (ok, t) := ExtractAll(base, entries[..|entries| - 1]);
      if !ok then (false, t) else ExtractOne(base, t, entries[|entries| - 1])
  }

  /** `Extract` stops at the first entry that fails. */
  method Extract(base: Path, entries: seq<Entry>) returns (ok: bool, t: Tree)
    ensures (ok, t) == ExtractAll(base, entries)
  {
    ok, t := true, EMPTY;
    for i := 0 to |entries|
      invariant ok && (ok, t) == ExtractAll(base, entries[..i])
    {
      assert entries[..i + 1][..i] == entries[..i];
      var (good, u) := ExtractOne(base, t, entries[i]);
      if !good {
        FailurePersists(base, entries, i + 1);
        return false, u;
      }
      t := u;
    }
    assert entries[..|entries|] == entries;
  }

  lemma {:induction false} FailurePersists(base: Path, entries: seq<Entry>, n: nat)
    requires n <= |entries| && !ExtractAll(base, entries[..n]).0
    ensures ExtractAll(base, entries) == ExtractAll(base, entries[..n])
  {
    if n == |entries| {
      assert entries[..n] == entries;
    } else {
      var front := entries[..|entries| - 1];
      assert front[..n] == entries[..n];
      FailurePersists(base, front, n);
    }
  }

  // ---------------------------------------------------------------- one entry at a time

  lemma {:induction false} JoinEnd(p: Path)
    requires p != [] && Clean(p)
    ensures Join(p) != "" && Join(p)[|Join(p)| - 1] != '/'
  {
    if |p| == 1 {
      assert Segment(p[0]);
    } else {
      JoinEnd(p[1..]);
    }
  }

  /** The name of a clean path leads back to it, wherever the archive is extracted. */
  lemma NameResolves(base: Path, p: Path)
    requires p != [] && Clean(p)
    ensures Rel(base, Resolve(base, Split(Join(p)))) == p && !IsDirName(Join(p))
  {
    SplitJoin(p);
    ResolveClean(base, p);
    RelInside(base, p);
    JoinEnd(p);
  }

  lemma FileNameResolves(l: Layout, base: Path, p: Path)
    requires LayoutOk(l) && p != [] && Clean(p)
    ensures Rel(base, Resolve(base, Split(EntryName(l, p)))) == [l.prefix] + p && !IsDirName(EntryName(l, p))
  {
    var q := [l.prefix] + p;
    assert q[1..] == p;
    assert Join(q) == EntryName(l, p);
    NameResolves(base, q);
  }

  lemma {:induction false} SplitDirectory(p: Path)
    requires p != [] && Clean(p)
    ensures Split(Join(p) + "/") == p + [""]
  {
    if |p| == 1 {
      assert p[0] + "/" + "" == Join(p) + "/";
      SplitAtSlash(p[0], "");
    } else {
      SplitDirectory(p[1..]);
      assert p[0] + "/" + (Join(p[1..]) + "/") == Join(p) + "/";
      SplitAtSlash(p[0], Join(p[1..]) + "/");
      assert [p[0]] + (p[1..] + [""]) == p + [""];
    }
  }

  lemma {:induction false} ResolveTrailing(base: Path, p: Path)
    requires Clean(p)
    ensures Resolve(base, p + [""]) == base + p
    decreases |p|
  {
    if p != [] {
      assert (p + [""])[1..] == p[1..] + [""];
      ResolveTrailing(base + [p[0]], p[1..]);
      assert base + [p[0]] + p[1..] == base + p;
    }
  }

  /** An entry for a directory makes it and those above it, unless a file is in the way. */
  lemma DirectoryIsMade(base: Path, t: Tree, p: Path, data: Bytes)
    requires p != [] && Clean(p) && !StartsDotDot(p)
    ensures var (ok, u) := ExtractOne(base, t, Entry(Join(p) + "/", data));
            && (ok <==> forall q | q in t.files && q != [] :: !(q <= p))
            && u.files == t.files
            && (ok ==> forall q :: q in u.dirs <==> q in t.dirs || (q != [] && q <= p))
  {
    SplitDirectory(p);
    ResolveTrailing(base, p);
    RelInside(base, p);
    hide Split, Join, Resolve, Rel;
    assert IsDirName(Join(p) + "/");
  }

  /** An entry for a file makes the directories above it and writes it, also over a file that is there,
      unless a file is in the way above it or a directory at its place. */
  lemma FileIsWritten(base: Path, t: Tree, p: Path, data: Bytes)
    requires p != [] && Clean(p) && !StartsDotDot(p)
    ensures var (ok, u) := ExtractOne(base, t, Entry(Join(p), data));
            && (ok <==> p !in t.dirs && forall q | q in t.files && q != [] :: !(q < p))
            && (ok ==> u.files == t.files[p := data] && forall q :: q in u.dirs <==> q in t.dirs || (q != [] && q < p))
  {
    NameResolves(base, p);
    JoinEnd(p);
    hide Split, Join, Resolve, Rel;
  }

  /** After the first files of a walk: these files below the prefix, the extra file, nothing else. */
  ghost predicate FilesOut(files: Dir, l: Layout, d: Dir, walk: seq<Path>) {
    && (forall p :: p in files <==> p == [l.extra.name] || (p != [] && p[0] == l.prefix && p[1..] in walk))
    && [l.extra.name] in files && files[[l.extra.name]] == l.extra.data
    && (forall i | 0 <= i < |walk| :: walk[i] in d && [l.prefix] + walk[i] in files
                                      && files[[l.prefix] + walk[i]] == d[walk[i]])
  }

  /** Only directories above these files. */
  ghost predicate DirsOut(dirs: set<Path>, l: Layout, walk: seq<Path>) {
    && (forall q | q in dirs :: exists i :: 0 <= i < |walk| && q < [l.prefix] + walk[i])
    && (walk != [] <==> [l.prefix] in dirs)
  }

  ghost predicate Extracted(t: Tree, l: Layout, d: Dir, walk: seq<Path>) {
    FilesOut(t.files, l, d, walk) && DirsOut(t.dirs, l, walk)
  }

  lemma ExtraExtracted(base: Path, l: Layout, d: Dir)
    requires LayoutOk(l)
    ensures var (ok, t) := ExtractOne(base, EMPTY, l.extra);
            ok && Extracted(t, l, d, [])
  {
    var rel := [l.extra.name];
    assert Clean(rel);
    NameResolves(base, rel);
    assert Join(rel) == l.extra.name;
    assert rel[..0] == [];
    var t := Tree(map[rel := l.extra.data], {});
    assert EMPTY.files[rel := l.extra.data] == t.files;
    assert EMPTY.dirs + Prefixes([]) == {};
    assert t == EMPTY.(files := EMPTY.files[rel := l.extra.data]);
    assert Extracted(t, l, d, []);
  }

  /** Nothing extracted so far is in the way of one more file. */
  lemma NothingInTheWay(t: Tree, l: Layout, d: Dir, walk: seq<Path>, p: Path)
    requires LayoutOk(l) && WellFormed(d) && p in d && p !in walk
    requires Extracted(t, l, d, walk)
    ensures forall q | q in t.files :: !(q <= [l.prefix] + p)
    ensures [l.prefix] + p !in t.dirs
  {
    var rel := [l.prefix] + p;
    assert rel[1..] == p;
    forall q | q in t.files ensures !(q <= rel) {
      var below := if q == [] then [] else q[1..];
      assert q <= rel ==> below <= p;
    }
    forall i | 0 <= i < |walk| ensures !(rel < [l.prefix] + walk[i]) {
      var file := walk[i];
      var below := [l.prefix] + file;
      assert below[1..] == file;
      assert rel <= below ==> p <= file;
    }
  }

  lemma FileWritten(t: Tree, l: Layout, p: Path, data: Bytes)
    requires LayoutOk(l) && p != []
    requires forall q | q in t.files :: !(q <= [l.prefix] + p)
    requires [l.prefix] + p !in t.dirs
    ensures var rel := [l.prefix] + p;
            WriteEntry(t, rel, false, data) == (true, Tree(t.files[rel := data], t.dirs + Prefixes(rel[..|p|])))
  {
    var rel := [l.prefix] + p;
    assert forall q | q in Prefixes(rel[..|p|]) :: q <= rel;
  }

  lemma StillFilesOut(files: Dir, l: Layout, d: Dir, walk: seq<Path>)
    requires LayoutOk(l) && walk != []
    requires var p := walk[|walk| - 1]; p in d && p != [] && p !in walk[..|walk| - 1]
    requires FilesOut(files, l, d, walk[..|walk| - 1])
    ensures var p := walk[|walk| - 1];
            FilesOut(files[[l.prefix] + p := d[p]], l, d, walk)
  {
    var front, p := walk[..|walk| - 1], walk[|walk| - 1];
    var rel := [l.prefix] + p;
    var out := files[rel := d[p]];
    assert rel[1..] == p;
    forall q ensures q in out <==> q == [l.extra.name] || (q != [] && q[0] == l.prefix && q[1..] in walk) {
      assert q != [] && q[0] == l.prefix && q[1..] == p ==> q == rel;
    }
    forall i | 0 <= i < |front| ensures [l.prefix] + walk[i] != rel && walk[i] == front[i] {
      assert ([l.prefix] + walk[i])[1..] == front[i];
    }
  }

  lemma StillDirsOut(dirs: set<Path>, l: Layout, walk: seq<Path>)
    requires walk != [] && walk[|walk| - 1] != []
    requires DirsOut(dirs, l, walk[..|walk| - 1])
    ensures var p := walk[|walk| - 1];
            DirsOut(dirs + Prefixes(([l.prefix] + p)[..|p|]), l, walk)
  {
    var front, p := walk[..|walk| - 1], walk[|walk| - 1];
    var above := Prefixes(([l.prefix] + p)[..|p|]);
    assert [l.prefix] <= ([l.prefix] + p)[..|p|];
    forall q | q in dirs + above ensures exists i :: 0 <= i < |walk| && q < [l.prefix] + walk[i] {
      if q in dirs {
        var i :| 0 <= i < |front| && q < [l.prefix] + front[i];
        assert q < [l.prefix] + walk[i];
      } else {
        assert q < [l.prefix] + walk[|walk| - 1];
      }
    }
  }

  lemma NextExtracted(base: Path, t: Tree, l: Layout, d: Dir, walk: seq<Path>)
    requires LayoutOk(l) && WellFormed(d) && walk != []
    requires var p := walk[|walk| - 1]; p in d && p !in walk[..|walk| - 1]
    requires Extracted(t, l, d, walk[..|walk| - 1])
    ensures var p := walk[|walk| - 1];
            var (ok, u) := ExtractOne(base, t, Entry(EntryName(l, p), d[p]));
            ok && Extracted(u, l, d, walk)
  {
    var p := walk[|walk| - 1];
    FileNameResolves(l, base, p);
    NothingInTheWay(t, l, d, walk[..|walk| - 1], p);
    FileWritten(t, l, p, d[p]);
    StillFilesOut(t.files, l, d, walk);
    StillDirsOut(t.dirs, l, walk);
  }

  /** Extracting the archive of a walk succeeds and yields exactly its files. */
  lemma {:induction false} WalkExtracted(base: Path, l: Layout, d: Dir, walk: seq<Path>)
    requires LayoutOk(l) && WellFormed(d)
    requires forall i | 0 <= i < |walk| :: walk[i] in d
    requires forall i, j | 0 <= i < j < |walk| :: walk[i] != walk[j]
    ensures var (ok, t) := ExtractAll(base, Entries(l, d, walk));
            ok && Extracted(t, l, d, walk)
  {
    var entries := Entries(l, d, walk);
    if walk == [] {
      assert entries[..0] == [];
      ExtraExtracted(base, l, d);
    } else {
      var front := walk[..|walk| - 1];
      WalkExtracted(base, l, d, front);
      assert entries[..|entries| - 1] == Entries(l, d, front);
      NextExtracted(base, ExtractAll(base, Entries(l, d, front)).1, l, d, walk);
    }
  }

  // ---------------------------------------------------------------- nothing leaves the directory

  lemma {:induction false} RelClimbs(base: Path, target: Path)
    ensures base <= target || StartsDotDot(Rel(base, target))
  {
    if base != [] && target != [] && base[0] == target[0] {
      RelClimbs(base[1..], target[1..]);
    } else if base != [] {
      assert Rel(base, target)[0] == "..";
    }
  }

  /** Whatever the entries of an archive are called: if it extracts, every one of them leads to a place
      in the extraction directory. An entry that leads outside makes the extraction fail. */
  lemma {:induction false} ExtractInside(base: Path, entries: seq<Entry>)
    requires ExtractAll(base, entries).0
    ensures forall i | 0 <= i < |entries| :: base <= Resolve(base, Split(entries[i].name))
  {
    if entries != [] {
      ExtractInside(base, entries[..|entries| - 1]);
      RelClimbs(base, Resolve(base, Split(entries[|entries| - 1].name)));
    }
  }

  /** Every file extracted comes from an entry that leads to it. */
  lemma {:induction false} FilesFromEntries(base: Path, entries: seq<Entry>, p: Path)
    requires p in ExtractAll(base, entries).1.files
    ensures exists i :: 0 <= i < |entries| && Rel(base, Resolve(base, Split(entries[i].name))) == p
  {
    if entries != [] {
      var front, last := entries[..|entries| - 1], entries[|entries| - 1];
      if p in ExtractAll(base, front).1.files {
        FilesFromEntries(base, front, p);
        var i :| 0 <= i < |front| && Rel(base, Resolve(base, Split(front[i].name))) == p;
        assert entries[i] == front[i];
      } else {
        OneFile(base, ExtractAll(base, front).1, last, p);
        assert entries[|entries| - 1] == last;
      }
    }
  }

  lemma OneFile(base: Path, t: Tree, e: Entry, p: Path)
    requires p in ExtractOne(base, t, e).1.files
    ensures p in t.files || Rel(base, Resolve(base, Split(e.name))) == p
  {
    hide Split, Resolve, Rel, Prefixes;
  }

  // ---------------------------------------------------------------- the round trip

  /** The directory at `[name]` of an extracted tree, if there is one. */
  function SubDir(t: Tree, name: string): Option<Dir> {
    if [name] !in t.dirs then None
    else
      var inside := set p | p in t.files && p != [] && p[0] == name :: p[1..];
      Some(map q | q in inside && [name] + q in t.files :: t.files[[name] + q])
  }

  /** `copyDir` onto a destination that was just removed. A failure leaves a part of the copy. */
  method CopyDir(source: Option<Dir>) returns (ok: bool, destination: Option<Dir>)
    ensures ok <==> source.Some? && NoDots(source.value)
    ensures ok ==> destination == source
    ensures source.None? ==> destination == None
    ensures source.Some? ==> destination.Some? && destination.value.Keys <= source.value.Keys
  {
    if source.None? {
      return false, None;
    }
    var walk := WalkDir(source.value);
    var copy: Dir := map[];
    for i := 0 to |walk|
      invariant forall k | 0 <= k < i :: !StartsDotDot(walk[k]) && walk[k] in copy
      invariant forall p | p in copy :: p in source.value && copy[p] == source.value[p]
    {
      if StartsDotDot(walk[i]) {
        return false, Some(copy);
      }
      copy := copy[walk[i] := source.value[walk[i]]];
    }
    assert copy == source.value;
    return true, Some(copy);
  }

  /** Some walk of the directory produced these entries. */
  ghost predicate IsArchive(entries: seq<Entry>, d: Dir) {
    && WellFormed(d) && NoDots(d)
    && exists walk, manifest :: Walks(walk, d) && entries == Entries(SnapshotLayout(manifest), d, walk)
  }

  /** The entries of a snapshot, by name: the manifest, then the files below data. */
  lemma {:induction false} SnapshotEntries(manifest: Bytes, d: Dir, walk: seq<Path>)
    requires forall i | 0 <= i < |walk| :: walk[i] in d
    ensures var entries := Entries(SnapshotLayout(manifest), d, walk);
            && |entries| == |walk| + 1 && entries[0] == Entry("manifest.json", manifest)
            && forall i | 0 <= i < |walk| :: entries[i + 1] == Entry("data" + "/" + Join(walk[i]), d[walk[i]])
  {
    if walk != [] {
      SnapshotEntries(manifest, d, walk[..|walk| - 1]);
    }
  }

  /** The archive of a directory with files extracts, anywhere, to the manifest and the directory.
      The archive of a directory without files extracts to the manifest alone. */
  lemma RoundTrip(base: Path, l: Layout, d: Dir, walk: seq<Path>)
    requires LayoutOk(l) && WellFormed(d) && Walks(walk, d)
    ensures ExtractAll(base, Entries(l, d, walk)).0
    ensures var t := ExtractAll(base, Entries(l, d, walk)).1;
            [l.extra.name] in t.files && t.files[[l.extra.name]] == l.extra.data
    ensures SubDir(ExtractAll(base, Entries(l, d, walk)).1, l.prefix) == if d == map[] then None else Some(d)
  {
    WalkExtracted(base, l, d, walk);
    SubDirExtracted(ExtractAll(base, Entries(l, d, walk)).1, l, d, walk);
  }

  lemma SubDirExtracted(t: Tree, l: Layout, d: Dir, walk: seq<Path>)
    requires Extracted(t, l, d, walk) && Walks(walk, d)
    requires WellFormed(d) && LayoutOk(l)
    ensures SubDir(t, l.prefix) == if d == map[] then None else Some(d)
  {
    if walk == [] {
      assert d == map[];
    } else {
      assert walk[0] in d;
      var r := SubDir(t, l.prefix).value;
      forall q ensures q in r <==> q in walk {
        assert ([l.prefix] + q)[1..] == q;
      }
      forall q | q in walk ensures q in d && r[q] == d[q] {
      }
      assert r == d;
    }
  }

  /** An archive is the archive of one directory only. */
  lemma ArchiveDetermines(entries: seq<Entry>, d: Dir, e: Dir)
    requires IsArchive(entries, d) && IsArchive(entries, e)
    ensures d == e
  {
    var walk, manifest :| Walks(walk, d) && entries == Entries(SnapshotLayout(manifest), d, walk);
    var walk', manifest' :| Walks(walk', e) && entries == Entries(SnapshotLayout(manifest'), e, walk');
    var l, l' := SnapshotLayout(manifest), SnapshotLayout(manifest');
    assert l.prefix == l'.prefix;
    RoundTrip([], l, d, walk);
    RoundTrip([], l', e, walk');
  }
}
