/** The root of imported hook files (internal/hookmanager/manager.go): the directories of all
    `.pb.js` files of an extracted archive are folded into one common directory, and the files are
    staged under their paths relative to it. */
module HookRoot {
  import opened Options
  import opened Paths
  import opened Archive

  // ---------------------------------------------------------------- absolute names

  /** The absolute name of a clean path. */
  function Abs(p: Path): string {
    "/" + Join(p)
  }

  function NonEmpty(p: Path): Path {
    if p == [] then [] else if p[0] == "" then NonEmpty(p[1..]) else [p[0]] + NonEmpty(p[1..])
  }

  /** The path that an absolute clean name stands for. */
  function Segments(s: string): Path {
    NonEmpty(Split(s))
  }

  lemma {:induction false} NonEmptyClean(p: Path)
    requires Clean(p)
    ensures NonEmpty(p) == p
  {
    if p != [] {
      NonEmptyClean(p[1..]);
    }
  }

  lemma SplitAbs(p: Path)
    requires Clean(p)
    ensures Split(Abs(p)) == [""] + if p == [] then [""] else p
    ensures Segments(Abs(p)) == p
  {
    assert Abs(p)[1..] == Join(p);
    var rest := if p == [] then [""] else p;
    if p != [] {
      SplitJoin(p);
      NonEmptyClean(p);
    }
    assert NonEmpty(rest) == p;
    assert ([""] + rest)[1..] == rest;
  }

  // ---------------------------------------------------------------- the common directory

  function Common(a: Path, b: Path): (c: Path)
    ensures c <= a && c <= b
    ensures |c| < |a| && |c| < |b| ==> a[|c|] != b[|c|]
  {
    if a == [] || b == [] || a[0] != b[0] then [] else [a[0]] + Common(a[1..], b[1..])
  }

  /** The common prefix is the longest one: it extends every other. */
  lemma {:induction false} CommonIsGreatest(a: Path, b: Path, r: Path)
    requires r <= a && r <= b
    ensures r <= Common(a, b)
  {
    if r != [] {
      CommonIsGreatest(a[1..], b[1..], r[1..]);
    }
  }

  lemma CommonUnique(a: Path, b: Path, c: Path)
    requires c <= a && c <= b && (|c| < |a| && |c| < |b| ==> a[|c|] != b[|c|])
    ensures c == Common(a, b)
  {
    CommonIsGreatest(a, b, c);
  }

  /** `filepath.Join` of clean elements. */
  function JoinElements(parts: Path): string {
    Join(NonEmpty(parts))
  }

  /** `commonDir` on absolute clean names: the name of the longest common directory. */
  method CommonDir(a: string, b: string) returns (r: string)
    requires Clean(Segments(a)) && a == Abs(Segments(a))
    requires Clean(Segments(b)) && b == Abs(Segments(b))
    ensures r == Abs(Common(Segments(a), Segments(b)))
  {
    var aParts, bParts := Split(a), Split(b);
    var limit := if |aParts| < |bParts| then |aParts| else |bParts|;
    var common: seq<string> := [];
    var i := 0;
    while i < limit && aParts[i] == bParts[i]
      invariant 0 <= i <= limit && common == aParts[..i] == bParts[..i]
    {
      common := common + [aParts[i]];
      i := i + 1;
    }
    CommonUnique(aParts, bParts, common);
    CommonOfParts(Segments(a), Segments(b));
    if |common| == 0 {
      return "/";
    }
    if common[0] == "" {
      return "/" + JoinElements(common[1..]);
    }
    r := JoinElements(common);
  }

  lemma CommonOfParts(p: Path, q: Path)
    requires Clean(p) && Clean(q)
    ensures var common := Common(Split(Abs(p)), Split(Abs(q)));
            common != [] && common[0] == "" && NonEmpty(common[1..]) == Common(p, q)
  {
    SplitAbs(p);
    SplitAbs(q);
    var u, v := Split(Abs(p)), Split(Abs(q));
    assert u[1..] == (if p == [] then [""] else p) && v[1..] == (if q == [] then [""] else q);
    assert Common(u, v)[1..] == Common(u[1..], v[1..]);
    if p != [] && q != [] {
      assert Clean(Common(p, q)) by { assert forall i | 0 <= i < |Common(p, q)| :: Common(p, q)[i] == p[i]; }
      NonEmptyClean(Common(p, q));
    } else if p == [] && q == [] {
      assert Common([""], [""]) == [""];
    }
  }

  // ---------------------------------------------------------------- the fold

  function Parent(p: Path): Path
    requires p != []
  {
    p[..|p| - 1]
  }

  ghost predicate Above(root: Path, dirs: set<Path>) {
    forall d | d in dirs :: root <= d
  }

  /** The longest common ancestor: an ancestor of every directory that extends every other one. */
  ghost predicate IsCommonRoot(root: Path, dirs: set<Path>) {
    Above(root, dirs) && forall r: Path :: Above(r, dirs) ==> r <= root
  }

  /** The root depends on the set of directories only, not on the order in which they are met. */
  lemma OneCommonRoot(a: Path, b: Path, dirs: set<Path>)
    requires IsCommonRoot(a, dirs) && IsCommonRoot(b, dirs)
    ensures a == b
  {
    assert a <= b && b <= a;
  }

  lemma CommonRootOfMore(root: Path, dirs: set<Path>, d: Path)
    requires IsCommonRoot(root, dirs)
    ensures IsCommonRoot(Common(root, d), dirs + {d})
  {
    var c := Common(root, d);
    forall e | e in dirs ensures c <= e {
      assert root <= e;
    }
    forall r: Path | Above(r, dirs + {d}) ensures r <= c {
      assert Above(r, dirs);
      assert d in dirs + {d};
      CommonIsGreatest(root, d, r);
    }
  }

  /** `strings.HasSuffix(name, ".pb.js")` */
  predicate IsHook(p: Path) {
    p != [] && var name := p[|p| - 1]; |name| >= 6 && name[|name| - 6..] == ".pb.js"
  }

  /** A hook file is one whose name is something followed by ".pb.js". */
  lemma HookNames(p: Path)
    ensures IsHook(p) <==> p != [] && exists stem: string :: p[|p| - 1] == stem + ".pb.js"
  {
    if p != [] {
      var name := p[|p| - 1];
      if IsHook(p) {
        assert name == name[..|name| - 6] + ".pb.js";
      }
      if stem: string :| name == stem + ".pb.js" {
        assert name[|stem|..] == ".pb.js";
      }
    }
  }

  /** The directories of these files below `base`. */
  ghost function DirsOf(base: Path, hooks: seq<Path>): set<Path>
    requires forall i | 0 <= i < |hooks| :: hooks[i] != []
  {
    set i | 0 <= i < |hooks| :: base + Parent(hooks[i])
  }

  /** `detectHookRoot` of the files extracted into `base`. */
  method DetectHookRoot(base: Path, files: Dir) returns (found: bool, root: string, hooks: seq<Path>)
    requires Clean(base) && WellFormed(files)
    ensures forall p :: p in hooks <==> p in files && IsHook(p)
    ensures forall i, j | 0 <= i < j < |hooks| :: hooks[i] != hooks[j]
    ensures found <==> hooks != []
    ensures found ==>
              && Clean(Segments(root)) && root == Abs(Segments(root))
              && (forall i | 0 <= i < |hooks| :: hooks[i] != []) && IsCommonRoot(Segments(root), DirsOf(base, hooks))
  {
    var walk := WalkDir(files);
    hooks := [];
    for i := 0 to |walk|
      invariant forall p :: p in hooks <==> p in walk[..i] && IsHook(p)
      invariant forall j, k | 0 <= j < k < |hooks| :: hooks[j] != hooks[k]
    {
      if IsHook(walk[i]) {
        hooks := hooks + [walk[i]];
      }
    }
    found, root := hooks != [], "";
    if !found {
      return;
    }
    forall i | 0 <= i < |hooks| ensures hooks[i] in files {
      assert hooks[i] in hooks;
    }
    root := FoldDirs(base, hooks);
  }

  /** The second loop of `detectHookRoot`. */
  method FoldDirs(base: Path, hooks: seq<Path>) returns (root: string)
    requires Clean(base) && hooks != [] && forall i | 0 <= i < |hooks| :: hooks[i] != [] && Clean(hooks[i])
    ensures Clean(Segments(root)) && root == Abs(Segments(root)) && IsCommonRoot(Segments(root), DirsOf(base, hooks))
  {
    ghost var top := base + Parent(hooks[0]);
    root := Abs(base + Parent(hooks[0]));
    SplitAbs(top);
    assert DirsOf(base, hooks[..1]) == {top};
    OneDirectory(top);
    for i := 1 to |hooks|
      invariant Clean(top) && Segments(root) == top && root == Abs(top)
      invariant IsCommonRoot(top, DirsOf(base, hooks[..i]))
    {
      var dir := base + Parent(hooks[i]);
      SplitAbs(dir);
      root := CommonDir(root, Abs(dir));
      CommonRootOfMore(top, DirsOf(base, hooks[..i]), dir);
      MoreDirs(base, hooks, i);
      top := CommonClean(top, dir);
      SplitAbs(top);
    }
    assert hooks[..|hooks|] == hooks;
  }

  ghost function CommonClean(a: Path, b: Path): (c: Path)
    requires Clean(a)
    ensures c == Common(a, b) && Clean(c)
  {
    assert forall i | 0 <= i < |Common(a, b)| :: Common(a, b)[i] == a[i];
    Common(a, b)
  }

  lemma OneDirectory(top: Path)
    ensures IsCommonRoot(top, {top})
  {
    assert top in {top};
  }

  lemma MoreDirs(base: Path, hooks: seq<Path>, i: nat)
    requires i < |hooks| && forall i | 0 <= i < |hooks| :: hooks[i] != []
    ensures DirsOf(base, hooks[..i + 1]) == DirsOf(base, hooks[..i]) + {base + Parent(hooks[i])}
  {
    var longer, shorter := hooks[..i + 1], hooks[..i];
    forall d ensures d in DirsOf(base, longer) <==> d in DirsOf(base, shorter) || d == base + Parent(hooks[i]) {
      if d in DirsOf(base, longer) {
        var k :| 0 <= k <= i && d == base + Parent(longer[k]);
        assert k < i ==> shorter[k] == longer[k];
      }
      if d in DirsOf(base, shorter) {
        var k :| 0 <= k < i && d == base + Parent(shorter[k]);
        assert longer[k] == shorter[k];
      }
      assert longer[i] == hooks[i];
    }
  }

  // ---------------------------------------------------------------- the import

  /** The path of a file below the root. */
  function Below(root: Path, base: Path, f: Path): Path
    requires root <= base + f
  {
    (base + f)[|root|..]
  }

  /** `safeRel` never fails on a hook file, and gives its path below the root. */
  lemma RelativeToRoot(base: Path, root: Path, f: Path)
    requires Clean(base) && f != [] && Clean(f) && root <= base + Parent(f)
    ensures root <= base + f && Below(root, base, f) != [] && Clean(Below(root, base, f))
    ensures Rel(root, base + f) == Below(root, base, f) && Rel(root, base + f)[0] != ".."
  {
    assert base + f == base + Parent(f) + [f[|f| - 1]];
    assert root + Below(root, base, f) == base + f;
    RelInside(root, Below(root, base, f));
    assert Segment(Below(root, base, f)[0]);
  }

  /** Different files have different paths below the root. */
  lemma BelowIsInjective(root: Path, base: Path, f: Path, g: Path)
    requires root <= base + f && root <= base + g && Below(root, base, f) == Below(root, base, g)
    ensures f == g
  {
    assert base + f == root + Below(root, base, f) == root + Below(root, base, g) == base + g;
    assert (base + f)[|base|..] == f && (base + g)[|base|..] == g;
  }

  /** `validateOnlyPBJS`: no other file below the root. */
  ghost predicate OnlyHooks(base: Path, files: Dir, root: Path) {
    forall f | f in files && root <= base + f :: IsHook(f)
  }

  method ValidateOnlyPBJS(base: Path, files: Dir, root: Path) returns (ok: bool)
    ensures ok <==> OnlyHooks(base, files, root)
  {
    var walk := WalkDir(files);
    for i := 0 to |walk|
      invariant forall k | 0 <= k < i && root <= base + walk[k] :: IsHook(walk[k])
    {
      if root <= base + walk[i] && !IsHook(walk[i]) {
        return false;
      }
    }
    ok := true;
  }

  /** The staged files are exactly the first `n` hook files, under their paths below the root. */
  ghost predicate Staged(target: Dir, base: Path, files: Dir, root: Path, hooks: seq<Path>, n: nat)
    requires n <= |hooks|
  {
    && (forall i | 0 <= i < n ::
          && hooks[i] in files && root <= base + hooks[i] && Below(root, base, hooks[i]) in target
          && target[Below(root, base, hooks[i])] == files[hooks[i]])
    && (forall p | p in target :: exists i :: 0 <= i < n && root <= base + hooks[i] && p == Below(root, base, hooks[i]))
  }

  /** One more file is staged without writing over another. */
  lemma StageNext(target: Dir, base: Path, files: Dir, root: Path, hooks: seq<Path>, n: nat)
    requires n < |hooks| && Staged(target, base, files, root, hooks, n)
    requires hooks[n] in files && root <= base + hooks[n]
    requires forall i | 0 <= i < n :: hooks[i] != hooks[n]
    ensures Below(root, base, hooks[n]) !in target
    ensures Staged(target[Below(root, base, hooks[n]) := files[hooks[n]]], base, files, root, hooks, n + 1)
  {
    var rel := Below(root, base, hooks[n]);
    forall i | 0 <= i < n ensures Below(root, base, hooks[i]) != rel {
      if Below(root, base, hooks[i]) == rel {
        BelowIsInjective(root, base, hooks[i], hooks[n]);
        assert false;
      }
    }
    var more := target[rel := files[hooks[n]]];
    forall p | p in more
      ensures exists i :: 0 <= i < n + 1 && root <= base + hooks[i] && p == Below(root, base, hooks[i])
    {
      if p in target {
        var i :| 0 <= i < n && root <= base + hooks[i] && p == Below(root, base, hooks[i]);
      }
    }
  }

  /** One round of the staging loop. */
  method StageFile(base: Path, files: Dir, top: Path, ghost hooks: seq<Path>, ghost n: nat, f: Path, staged: Dir)
    returns (rel: Path, more: Dir)
    requires Clean(base) && WellFormed(files) && n < |hooks| && hooks[n] == f && f in files && IsHook(f)
    requires top <= base + Parent(f) && Staged(staged, base, files, top, hooks, n) && CleanNames(staged)
    requires forall i | 0 <= i < n :: hooks[i] != f
    ensures rel !in staged && more == staged[rel := files[f]]
    ensures Staged(more, base, files, top, hooks, n + 1) && CleanNames(more)
  {
    RelativeToRoot(base, top, f);
    rel := Rel(top, base + f);
    if rel != [] && rel[0] == ".." {
      assert false;
    }
    StageNext(staged, base, files, top, hooks, n);
    more := staged[rel := files[f]];
  }

  predicate CleanNames(d: Dir) {
    forall p | p in d :: p != [] && Clean(p)
  }

  /** `copyDir` of the staging directory onto a target that was just removed. */
  method CopyDir(source: Path, staged: Dir) returns (target: Dir)
    requires CleanNames(staged)
    ensures target == staged
  {
    var walk := WalkDir(staged);
    target := map[];
    for i := 0 to |walk|
      invariant forall p :: p in target <==> p in walk[..i]
      invariant forall p | p in target :: p in staged && target[p] == staged[p]
    {
      RelInside(source, walk[i]);
      var rel := Rel(source, source + walk[i]);
      if rel != [] && rel[0] == ".." {
        assert false;
      }
      target := target[rel := staged[walk[i]]];
    }
    assert walk[..|walk|] == walk;
  }

  /** The staging loop. */
  method Stage(base: Path, files: Dir, top: Path, hooks: seq<Path>) returns (staged: Dir, imported: seq<Path>)
    requires Clean(base) && WellFormed(files)
    requires forall i | 0 <= i < |hooks| :: hooks[i] in files && IsHook(hooks[i]) && top <= base + Parent(hooks[i])
    requires forall i, j | 0 <= i < j < |hooks| :: hooks[i] != hooks[j]
    ensures Staged(staged, base, files, top, hooks, |hooks|) && CleanNames(staged)
    ensures |imported| == |hooks| && forall i, j | 0 <= i < j < |imported| :: imported[i] != imported[j]
    ensures forall p :: p in imported <==> p in staged
  {
    staged, imported := map[], [];
    for i := 0 to |hooks|
      invariant Staged(staged, base, files, top, hooks, i) && CleanNames(staged)
      invariant |imported| == i && forall p :: p in imported <==> p in staged
      invariant forall j, k | 0 <= j < k < i :: imported[j] != imported[k]
    {
      var rel, more := StageFile(base, files, top, hooks, i, hooks[i], staged);
      staged := more;
      imported := imported + [rel];
    }
  }

  /** `Import`, from the extracted archive in `base` to the hooks directory, which was `current`. It is
      refused exactly when the service is not stopped, there is no hook file, or anything but hook files
      is below their common root; then the hooks directory is as before. Otherwise it holds exactly the
      hook files, each under its path below that root. */
  method Import(stopped: bool, base: Path, files: Dir, stage: Path, current: Dir)
    returns (ok: bool, target: Dir, imported: seq<Path>, ghost root: Path, ghost hooks: seq<Path>)
    requires Clean(base) && WellFormed(files)
    ensures stopped ==> forall p :: p in hooks <==> p in files && IsHook(p)
    ensures forall i, j | 0 <= i < j < |hooks| :: hooks[i] != hooks[j]
    ensures hooks != [] ==> (forall i | 0 <= i < |hooks| :: hooks[i] != []) && IsCommonRoot(root, DirsOf(base, hooks))
    ensures ok <==> stopped && hooks != [] && OnlyHooks(base, files, root)
    ensures !ok ==> target == current
    ensures ok ==> Staged(target, base, files, root, hooks, |hooks|) && |imported| == |hooks|
    ensures ok ==> forall i, j | 0 <= i < j < |imported| :: imported[i] != imported[j]
  {
    target, imported, root, hooks := current, [], [], [];
    if !stopped {
      return false, target, imported, root, hooks;
    }
    var found, name, hookFiles := DetectHookRoot(base, files);
    hooks := hookFiles;
    if !found {
      return false, target, imported, root, hooks;
    }
    var top := Segments(name);
    root := top;
    ok := ValidateOnlyPBJS(base, files, top);
    if !ok {
      return;
    }
    forall i | 0 <= i < |hookFiles|
      ensures hookFiles[i] in files && IsHook(hookFiles[i]) && top <= base + Parent(hookFiles[i])
    {
      assert hookFiles[i] in hookFiles && base + Parent(hookFiles[i]) in DirsOf(base, hooks);
    }
    var staged;
    staged, imported := Stage(base, files, top, hookFiles);
    target := CopyDir(stage, staged);
  }
}
