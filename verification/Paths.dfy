/** Slash-separated names and the path segments they stand for. */
module Paths {

  type Path = seq<string>

  predicate NoSlash(s: string) {
    forall i | 0 <= i < |s| :: s[i] != '/'
  }

  /** A name that a directory entry can have. */
  predicate Segment(s: string) {
    s != "" && s != "." && s != ".." && NoSlash(s)
  }

  predicate Clean(p: Path) {
    forall i | 0 <= i < |p| :: Segment(p[i])
  }

  /** `strings.Join(p, "/")` */
  function Join(p: Path): string {
    if p == [] then "" else if |p| == 1 then p[0] else p[0] + "/" + Join(p[1..])
  }

  /** `strings.Split(s, "/")` */
  function Split(s: string): (p: Path)
    ensures p != []
  {
    if s == "" then [""]
    else if s[0] == '/' then [""] + Split(s[1..])
    else var r := Split(s[1..]); [[s[0]] + r[0]] + r[1..]
  }

  lemma {:induction false} SplitSegment(s: string)
    requires NoSlash(s)
    ensures Split(s) == [s]
  {
    if s != "" {
      SplitSegment(s[1..]);
      assert [s[0]] + s[1..] == s;
    }
  }

  lemma {:induction false} SplitAtSlash(s: string, rest: string)
    requires NoSlash(s)
    ensures Split(s + "/" + rest) == [s] + Split(rest)
  {
    if s == "" {
      assert s + "/" + rest == "/" + rest;
    } else {
      var t := s + "/" + rest;
      assert t[1..] == s[1..] + "/" + rest;
      SplitAtSlash(s[1..], rest);
      assert [s[0]] + s[1..] == s;
    }
  }

  /** Splitting undoes joining. */
  lemma {:induction false} SplitJoin(p: Path)
    requires p != [] && forall i | 0 <= i < |p| :: NoSlash(p[i])
    ensures Split(Join(p)) == p
  {
    if |p| == 1 {
      SplitSegment(p[0]);
    } else {
      SplitJoin(p[1..]);
      SplitAtSlash(p[0], Join(p[1..]));
    }
  }

  /** Walks along `rest` from the absolute directory `base`, as `filepath.Clean` does. */
  function Resolve(base: Path, rest: Path): Path
    decreases |rest|
  {
    if rest == [] then base
    else if rest[0] == "" || rest[0] == "." then Resolve(base, rest[1..])
    else if rest[0] == ".." then Resolve(if base == [] then [] else base[..|base| - 1], rest[1..])
    else Resolve(base + [rest[0]], rest[1..])
  }

  lemma {:induction false} ResolveClean(base: Path, rest: Path)
    requires Clean(rest)
    ensures Resolve(base, rest) == base + rest
    decreases |rest|
  {
    if rest != [] {
      ResolveClean(base + [rest[0]], rest[1..]);
      assert base + [rest[0]] + rest[1..] == base + rest;
    }
  }

  /** `strings.HasPrefix(rel, "..")` for the relative path with these segments. */
  predicate StartsDotDot(rel: Path) {
    rel != [] && |rel[0]| >= 2 && rel[0][..2] == ".."
  }

  /** `filepath.Rel` of two absolute clean paths: climb out of the base, then down. */
  function Rel(base: Path, target: Path): Path {
    if base != [] && target != [] && base[0] == target[0] then Rel(base[1..], target[1..])
    else seq(|base|, _ => "..") + target
  }

  lemma {:induction false} RelInside(base: Path, rest: Path)
    ensures Rel(base, base + rest) == rest
  {
    if base != [] {
      assert (base + rest)[1..] == base[1..] + rest;
      RelInside(base[1..], rest);
    }
  }
}
