/** Stored certificates (internal/certificates/certstore): one folder per store, named by the local
    time in whole seconds, looked up by the greatest name, behind a cache that may drop any entry
    at any moment. */
module CertStore {
  import opened Options

  type Bytes = seq<int>
  type Domain = string

  datatype Certificate = Certificate(cert: Bytes, key: Bytes)

  // ---------------------------------------------------------------- folder names

  /** How Go compares strings. */
  predicate Less(a: string, b: string) {
    b != "" && (a == "" || a[0] < b[0] || (a[0] == b[0] && Less(a[1..], b[1..])))
  }

  lemma {:induction false} LessTotal(a: string, b: string)
    ensures Less(a, b) || Less(b, a) || a == b
    ensures !(Less(a, b) && Less(b, a)) && !Less(a, a)
  {
    if a != "" && b != "" && a[0] == b[0] {
      LessTotal(a[1..], b[1..]);
      assert a == [a[0]] + a[1..] && b == [b[0]] + b[1..];
    }
    if a != "" {
      LessTotal(a[1..], a[1..]);
    }
  }

  lemma {:induction false} LessTransitive(a: string, b: string, c: string)
    requires Less(a, b) && Less(b, c)
    ensures Less(a, c)
  {
    if a != "" && a[0] == b[0] == c[0] {
      LessTransitive(a[1..], b[1..], c[1..]);
    }
  }

  /** Heads of the same length decide, or pass the decision on. */
  lemma {:induction false} LessConcat(a: string, b: string, x: string, y: string)
    requires |a| == |b|
    ensures Less(a + x, b + y) <==> Less(a, b) || (a == b && Less(x, y))
  {
    if a == "" {
      assert a + x == x && b + y == y;
    } else {
      assert (a + x)[1..] == a[1..] + x && (b + y)[1..] == b[1..] + y;
      LessConcat(a[1..], b[1..], x, y);
      assert a == [a[0]] + a[1..] && b == [b[0]] + b[1..];
    }
  }

  function Power(w: nat): nat {
    if w == 0 then 1 else 10 * Power(w - 1)
  }

  /** `n` in `w` decimal digits, with leading zeros. */
  function Digits(n: nat, w: nat): (s: string)
    ensures |s| == w
  {
    if w == 0 then "" else Digits(n / 10, w - 1) + ['0' + (n % 10) as char]
  }

  lemma {:induction false} DigitsOrder(m: nat, n: nat, w: nat)
    requires m < Power(w) && n < Power(w)
    ensures (Less(Digits(m, w), Digits(n, w)) <==> m < n) && (Digits(m, w) == Digits(n, w) <==> m == n)
  {
    if w > 0 {
      DigitsOrder(m / 10, n / 10, w - 1);
      var x, y := ['0' + (m % 10) as char], ['0' + (n % 10) as char];
      LessConcat(Digits(m / 10, w - 1), Digits(n / 10, w - 1), x, y);
      assert Less(x, y) <==> m % 10 < n % 10;
      assert Digits(m, w)[..w - 1] == Digits(m / 10, w - 1) && Digits(n, w)[..w - 1] == Digits(n / 10, w - 1);
      assert Digits(m, w)[w - 1] == x[0] && Digits(n, w)[w - 1] == y[0];
    }
  }

  /** A field of the layout: its width and what follows it. */
  datatype Field = Field(width: nat, after: string)

  /** The layout "2006-01-02_15-04-05". */
  const LAYOUT := [Field(4, "-"), Field(2, "-"), Field(2, "_"), Field(2, "-"), Field(2, "-"), Field(2, "")]

  predicate Fits(t: seq<nat>, layout: seq<Field>) {
    |t| == |layout| && forall i | 0 <= i < |t| :: t[i] < Power(layout[i].width)
  }

  function Render(t: seq<nat>, layout: seq<Field>): string
    requires Fits(t, layout)
  {
    if t == [] then "" else Digits(t[0], layout[0].width) + layout[0].after + Render(t[1..], layout[1..])
  }

  /** The order of calendar readings: the first field that differs decides. */
  predicate Earlier(t: seq<nat>, u: seq<nat>)
    requires |t| == |u|
  {
    t != [] && (t[0] < u[0] || (t[0] == u[0] && Earlier(t[1..], u[1..])))
  }

  lemma {:induction false} RenderOrder(t: seq<nat>, u: seq<nat>, layout: seq<Field>)
    requires Fits(t, layout) && Fits(u, layout)
    ensures (Less(Render(t, layout), Render(u, layout)) <==> Earlier(t, u))
        && (Render(t, layout) == Render(u, layout) <==> t == u)
  {
    if t != [] {
      var f := layout[0];
      var x, y := Render(t[1..], layout[1..]), Render(u[1..], layout[1..]);
      RenderOrder(t[1..], u[1..], layout[1..]);
      DigitsOrder(t[0], u[0], f.width);
      SameSeparator(Digits(t[0], f.width), Digits(u[0], f.width), f.after, x, y);
      assert t == [t[0]] + t[1..] && u == [u[0]] + u[1..];
    }
  }

  lemma SameSeparator(a: string, b: string, sep: string, x: string, y: string)
    requires |a| == |b|
    ensures Less(a + sep + x, b + sep + y) <==> Less(a, b) || (a == b && Less(x, y))
    ensures a + sep + x == b + sep + y <==> a == b && x == y
  {
    LessConcat(a + sep, b + sep, x, y);
    LessConcat(a, b, sep, sep);
    LessTotal(sep, sep);
    var l, r := a + sep + x, b + sep + y;
    assert a == l[..|a|] && b == r[..|b|];
    assert x == l[|a + sep|..] && y == r[|b + sep|..];
    assert a + sep == l[..|a + sep|] && b + sep == r[..|b + sep|];
  }

  /** A reading of the local clock: year, month, day, hour, minute, second. */
  predicate Reading(t: seq<nat>) {
    Fits(t, LAYOUT)
  }

  function FolderName(t: seq<nat>): string
    requires Reading(t)
  {
    Render(t, LAYOUT)
  }

  /** The name of a folder, written out. */
  lemma FolderNameIs(year: nat, month: nat, day: nat, hour: nat, minute: nat, second: nat)
    requires year < 10_000 && month < 100 && day < 100 && hour < 100 && minute < 100 && second < 100
    ensures var t := [year, month, day, hour, minute, second];
            && Reading(t)
            && FolderName(t)
            == Digits(year, 4) + "-" + (Digits(month, 2) + "-" + (Digits(day, 2) + "_"
               + (Digits(hour, 2) + "-" + Digits(minute, 2) + "-" + Digits(second, 2))))
  {
    assert Power(1) == 10 && Power(2) == 100 && Power(3) == 1000 && Power(4) == 10_000;
    var late, rest := [day, hour, minute, second], [Field(2, "_"), Field(2, "-"), Field(2, "-"), Field(2, "")];
    hide Digits, Power, Render, Fits;
    DayIs(day, hour, minute, second);
    RenderCons(month, late, Field(2, "-"), rest);
    RenderCons(year, [month] + late, Field(4, "-"), [Field(2, "-")] + rest);
    assert [year] + ([month] + late) == [year, month, day, hour, minute, second];
    assert [Field(4, "-")] + ([Field(2, "-")] + rest) == LAYOUT;
  }

  lemma DayIs(day: nat, hour: nat, minute: nat, second: nat)
    requires day < Power(2) && hour < Power(2) && minute < Power(2) && second < Power(2)
    ensures var late, layout := [day, hour, minute, second],
                                [Field(2, "_"), Field(2, "-"), Field(2, "-"), Field(2, "")];
            && Fits(late, layout)
            && Render(late, layout)
            == Digits(day, 2) + "_" + (Digits(hour, 2) + "-" + Digits(minute, 2) + "-" + Digits(second, 2))
  {
    hide Digits, Power, Render, Fits;
    var time, rest := [hour, minute, second], [Field(2, "-"), Field(2, "-"), Field(2, "")];
    TimeIs(hour, minute, second);
    RenderCons(day, time, Field(2, "_"), rest);
    assert [day] + time == [day, hour, minute, second];
    assert [Field(2, "_")] + rest == [Field(2, "_"), Field(2, "-"), Field(2, "-"), Field(2, "")];
  }

  lemma TimeIs(hour: nat, minute: nat, second: nat)
    requires hour < Power(2) && minute < Power(2) && second < Power(2)
    ensures var time, layout := [hour, minute, second], [Field(2, "-"), Field(2, "-"), Field(2, "")];
            && Fits(time, layout)
            && Render(time, layout) == Digits(hour, 2) + "-" + Digits(minute, 2) + "-" + Digits(second, 2)
  {
    assert Fits([], []) && Render([], []) == "";
    hide Digits, Power, Render, Fits;
    RenderCons(second, [], Field(2, ""), []);
    RenderCons(minute, [second], Field(2, "-"), [Field(2, "")]);
    RenderCons(hour, [minute, second], Field(2, "-"), [Field(2, "-"), Field(2, "")]);
    assert [second] + [] == [second] && [minute] + [second] == [minute, second];
    assert [hour] + [minute, second] == [hour, minute, second];
    assert [Field(2, "")] + [] == [Field(2, "")] && [Field(2, "-")] + [Field(2, "")] == [Field(2, "-"), Field(2, "")];
    assert [Field(2, "-")] + [Field(2, "-"), Field(2, "")] == [Field(2, "-"), Field(2, "-"), Field(2, "")];
  }

  lemma RenderCons(n: nat, t: seq<nat>, f: Field, layout: seq<Field>)
    requires Fits(t, layout) && n < Power(f.width)
    ensures Fits([n] + t, [f] + layout)
    ensures Render([n] + t, [f] + layout) == Digits(n, f.width) + f.after + Render(t, layout)
  {
    assert ([n] + t)[1..] == t && ([f] + layout)[1..] == layout;
  }

  /** The number that decimal digits stand for. */
  function Value(s: string): int {
    if s == "" then 0 else 10 * Value(s[..|s| - 1]) + (s[|s| - 1] as int - '0' as int)
  }

  /** The digits of a number are decimal digits, and stand for it. */
  lemma {:induction false} DigitsAreDecimal(n: nat, w: nat)
    requires n < Power(w)
    ensures |Digits(n, w)| == w && Value(Digits(n, w)) == n
    ensures forall i | 0 <= i < w :: '0' <= Digits(n, w)[i] <= '9'
  {
    if w > 0 {
      DigitsAreDecimal(n / 10, w - 1);
      assert Digits(n, w)[..w - 1] == Digits(n / 10, w - 1);
    }
  }

  /** The names of two folders are ordered as the times at which they were made, and two names
      differ unless they were made in the same second. */
  lemma NamesAreChronological(t: seq<nat>, u: seq<nat>)
    requires Reading(t) && Reading(u)
    ensures (Less(FolderName(t), FolderName(u)) <==> Earlier(t, u)) && (FolderName(t) == FolderName(u) <==> t == u)
  {
    RenderOrder(t, u, LAYOUT);
  }

  // ---------------------------------------------------------------- the disk

  /** What is in the directory of a domain: plain files, and folders with the two PEM files. */
  datatype Node = Plain | Folder(cert: Option<Bytes>, key: Option<Bytes>)

  type Directory = map<string, Node>

  /** Where a store stops. A broken write leaves part of its file, or nothing. */
  datatype Fault = NoFault | NoFolder | AtCert(part: Option<Bytes>) | AtKey(part: Option<Bytes>)

  /** `TlsStorer.Store` into the folder `name`; an existing folder is written over. */
  function Stored(dir: Directory, name: string, c: Certificate, fault: Fault): Directory {
    var before := if name in dir && dir[name].Folder? then dir[name] else Folder(None, None);
    match fault
    case NoFolder => dir
    case NoFault => dir[name := Folder(Some(c.cert), Some(c.key))]
    case AtCert(part) => dir[name := before.(cert := if part.Some? then part else before.cert)]
    case AtKey(part) => dir[name := Folder(Some(c.cert), if part.Some? then part else before.key)]
  }

  predicate IsFolder(dir: Directory, name: string) {
    name in dir && dir[name].Folder?
  }

  /** The folder with the greatest name. */
  predicate IsLatest(dir: Directory, name: string) {
    IsFolder(dir, name) && forall n | n in dir && dir[n].Folder? :: !Less(name, n)
  }

  lemma OneLatest(dir: Directory, m: string, n: string)
    requires IsLatest(dir, m) && IsLatest(dir, n)
    ensures m == n
  {
    LessTotal(m, n);
  }

  datatype Outcome = NotFound | Unreadable | Unfit(c: Certificate) | Usable(c: Certificate)

  /** Reading the two files of a folder and checking the certificate. The check looks at the certificate
      file only. */
  function Read(node: Node, valid: Bytes -> bool): Outcome {
    if node.Plain? || node.cert.None? || node.key.None? then Unreadable
    else
      var c := Certificate(node.cert.value, node.key.value);
      if valid(c.cert) then Usable(c) else Unfit(c)
  }

  /** What a lookup answers: the latest folder, whatever is in it. */
  ghost predicate Answers(dir: Directory, valid: Bytes -> bool, r: Outcome) {
    if exists n :: IsFolder(dir, n) then exists n :: IsLatest(dir, n) && r == Read(dir[n], valid) else r == NotFound
  }

  lemma AnswerOfLatest(dir: Directory, valid: Bytes -> bool, r: Outcome, name: string)
    requires Answers(dir, valid, r) && IsLatest(dir, name)
    ensures r == Read(dir[name], valid)
  {
    var n :| IsLatest(dir, n) && r == Read(dir[n], valid);
    OneLatest(dir, n, name);
  }

  /** `name` is greater than the name of every folder. */
  ghost predicate IsNewest(dir: Directory, name: string) {
    name !in dir && forall n | IsFolder(dir, n) :: Less(n, name)
  }

  /** What is answered after a store that fails, in a folder newer than all others: with the folder not
      made, what was answered before; with the second file not begun, nothing, however good the older
      certificates are; with the second file cut short, the new certificate with that part as its key. */
  lemma BrokenStoreAnswers(dir: Directory, name: string, c: Certificate, fault: Fault, valid: Bytes -> bool, r: Outcome)
    requires IsNewest(dir, name) && fault != NoFault
    requires Answers(Stored(dir, name, c, fault), valid, r)
    ensures fault == NoFolder ==> Answers(dir, valid, r)
    ensures fault.AtCert? || fault == AtKey(None) ==> r == Unreadable
    ensures fault.AtKey? && fault.part.Some? ==>
              var torn := Certificate(c.cert, fault.part.value);
              r == if valid(c.cert) then Usable(torn) else Unfit(torn)
  {
    if fault != NoFolder {
      var after := Stored(dir, name, c, fault);
      forall n | n in after && after[n].Folder? ensures !Less(name, n) {
        LessTotal(name, n);
      }
      AnswerOfLatest(after, valid, r, name);
    }
  }

  lemma OneAnswer(dir: Directory, valid: Bytes -> bool, q: Outcome, r: Outcome)
    requires Answers(dir, valid, q) && Answers(dir, valid, r)
    ensures q == r
  {
    if exists n :: IsFolder(dir, n) {
      var n :| IsLatest(dir, n) && q == Read(dir[n], valid);
      AnswerOfLatest(dir, valid, r, n);
    }
  }

  /** A store that fails leaves a usable certificate in use if and only if it fails before making its
      folder. */
  lemma BrokenStoreKeepsAnswer(dir: Directory, name: string, c: Certificate, fault: Fault, valid: Bytes -> bool,
                               prior: Certificate, r: Outcome)
    requires IsNewest(dir, name) && fault != NoFault
    requires Answers(dir, valid, Usable(prior)) && prior.cert != c.cert
    requires Answers(Stored(dir, name, c, fault), valid, r)
    ensures r == Usable(prior) <==> fault == NoFolder
  {
    BrokenStoreAnswers(dir, name, c, fault, valid, r);
    if fault == NoFolder {
      OneAnswer(dir, valid, Usable(prior), r);
    }
  }

  /** A store that stops inside the second file has its certificate served with a key that is not its
      own, because only the certificate is checked. */
  lemma TornKeyIsServed(dir: Directory, name: string, c: Certificate, part: Bytes, valid: Bytes -> bool, r: Outcome)
    requires IsNewest(dir, name) && valid(c.cert) && part != c.key
    requires Answers(Stored(dir, name, c, AtKey(Some(part))), valid, r)
    ensures r.Usable? && r.c.cert == c.cert && r.c.key != c.key
  {
    BrokenStoreAnswers(dir, name, c, AtKey(Some(part)), valid, r);
  }

  /** A store that breaks off in the same second as a complete one writes over its folder: what is served
      is the certificate of one with the key of the other, unless it breaks off before the first byte. */
  lemma SameSecondMixes(dir: Directory, name: string, prior: Certificate, c: Certificate, fault: Fault,
                        valid: Bytes -> bool, r: Outcome)
    requires IsLatest(dir, name) && dir[name] == Folder(Some(prior.cert), Some(prior.key))
    requires Answers(Stored(dir, name, c, fault), valid, r)
    ensures fault == NoFolder || fault == AtCert(None) ==>
              r == if valid(prior.cert) then Usable(prior) else Unfit(prior)
    ensures fault.AtCert? && fault.part.Some? ==>
              var torn := Certificate(fault.part.value, prior.key);
              r == if valid(torn.cert) then Usable(torn) else Unfit(torn)
    ensures fault == AtKey(None) ==>
              var mixed := Certificate(c.cert, prior.key);
              r == if valid(c.cert) then Usable(mixed) else Unfit(mixed)
    ensures fault.AtKey? && fault.part.Some? ==>
              var torn := Certificate(c.cert, fault.part.value);
              r == if valid(c.cert) then Usable(torn) else Unfit(torn)
    ensures fault == NoFault ==> r == if valid(c.cert) then Usable(c) else Unfit(c)
  {
    var after := Stored(dir, name, c, fault);
    forall n | n in after && after[n].Folder? ensures !Less(name, n) {
      LessTotal(name, n);
    }
    AnswerOfLatest(after, valid, r, name);
  }

  class TlsStorer {
    var disk: map<Domain, Directory>

    constructor ()
      ensures disk == map[]
    {
      disk := map[];
    }

    function DirectoryOf(domain: Domain): Directory
      reads this
    {
      if domain in disk then disk[domain] else map[]
    }

    method Store(domain: Domain, c: Certificate, now: seq<nat>, fault: Fault) returns (ok: bool)
      requires Reading(now)
      modifies this
      ensures ok <==> fault == NoFault
      ensures fault == NoFolder ==> disk == old(disk)
      ensures fault != NoFolder ==>
                disk == old(disk)[domain := Stored(old(DirectoryOf(domain)), FolderName(now), c, fault)]
    {
      var name, dir := FolderName(now), DirectoryOf(domain);
      if fault == NoFolder {
        return false;
      }
      var folder := if name in dir && dir[name].Folder? then dir[name] else Folder(None, None);
      if fault.AtCert? {
        if fault.part.Some? {
          folder := folder.(cert := fault.part);
        }
        disk := disk[domain := dir[name := folder]];
        return false;
      }
      folder := folder.(cert := Some(c.cert));
      if fault.AtKey? {
        if fault.part.Some? {
          folder := folder.(key := fault.part);
        }
        disk := disk[domain := dir[name := folder]];
        return false;
      }
      folder := folder.(key := Some(c.key));
      disk := disk[domain := dir[name := folder]];
      ok := true;
    }

    /** The loop over the entries of the directory, in whatever order they are listed. */
    method LatestDir(dir: Directory, listing: seq<string>) returns (latest: string)
      requires forall n :: n in listing <==> n in dir
      requires "" !in dir
      ensures latest == "" <==> forall n | n in dir :: !IsFolder(dir, n)
      ensures latest != "" ==> IsLatest(dir, latest)
    {
      latest := "";
      for i := 0 to |listing|
        invariant latest == "" <==> forall k | 0 <= k < i :: !IsFolder(dir, listing[k])
        invariant latest != "" ==>
                    && IsFolder(dir, latest)
                    && forall k | 0 <= k < i && IsFolder(dir, listing[k]) :: !Less(latest, listing[k])
      {
        var name := listing[i];
        if dir[name].Folder? {
          if latest == "" || Less(latest, name) {
            NewLatest(dir, listing, i, latest);
            latest := name;
          }
        }
      }
    }

    lemma NewLatest(dir: Directory, listing: seq<string>, i: nat, latest: string)
      requires i < |listing|
      requires latest == "" <==> forall k | 0 <= k < i :: !IsFolder(dir, listing[k])
      requires latest != "" ==> forall k | 0 <= k < i && IsFolder(dir, listing[k]) :: !Less(latest, listing[k])
      requires latest == "" || Less(latest, listing[i])
      ensures forall k | 0 <= k <= i && IsFolder(dir, listing[k]) :: !Less(listing[i], listing[k])
    {
      forall k | 0 <= k <= i && IsFolder(dir, listing[k]) ensures !Less(listing[i], listing[k]) {
        LessTotal(listing[i], listing[k]);
        if k < i && Less(listing[i], listing[k]) {
          LessTransitive(latest, listing[i], listing[k]);
        }
      }
    }

    method Resolve(domain: Domain, listing: seq<string>, valid: Bytes -> bool) returns (r: Outcome)
      requires "" !in DirectoryOf(domain) && forall n :: n in listing <==> n in DirectoryOf(domain)
      ensures Answers(DirectoryOf(domain), valid, r)
    {
      if domain !in disk {
        return NotFound;
      }
      var latest := LatestDir(disk[domain], listing);
      if latest == "" {
        return NotFound;
      }
      var node := disk[domain][latest];
      if node.cert.None? || node.key.None? {
        return Unreadable;
      }
      var c := Certificate(node.cert.value, node.key.value);
      if !valid(c.cert) {
        return Unfit(c);
      }
      r := Usable(c);
    }
  }
}
