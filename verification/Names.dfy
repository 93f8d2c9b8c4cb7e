/** Service names and hosts (utils/domainutil, internal/proxy): the slug of a name, the friendly
    domain made of it, and the way from a host back to a service. */
module Names {
  import opened Options

  // ---------------------------------------------------------------- slugs

  predicate Alnum(c: char) {
    'a' <= c <= 'z' || '0' <= c <= '9'
  }

  /** What a mapping of letters to lower case must do to the letters, digits and hyphens of ASCII;
      on every other character it may do anything. */
  predicate LowerCases(lower: char -> char) {
    && (forall c :: Alnum(c) || c == '-' ==> lower(c) == c)
    && (forall c :: 'A' <= c <= 'Z' ==> lower(c) == c + 32 as char)
  }

  /** `strings.ToLower` */
  function ToLower(name: string, lower: char -> char): (r: string)
    ensures |r| == |name| && forall i | 0 <= i < |r| :: r[i] == lower(name[i])
  {
    seq(|name|, i requires 0 <= i < |name| => lower(name[i]))
  }

  /** Skips the characters that a slug cannot hold. */
  function SkipOthers(s: string): (r: string)
    ensures |r| <= |s| && (r != "" ==> Alnum(r[0]))
    ensures s != "" && !Alnum(s[0]) ==> |r| < |s|
  {
    if s == "" || Alnum(s[0]) then s else SkipOthers(s[1..])
  }

  /** Every run of other characters becomes one hyphen. */
  function ReplaceRuns(s: string): string
    decreases |s|
  {
    if s == "" then ""
    else if Alnum(s[0]) then [s[0]] + ReplaceRuns(s[1..])
    else "-" + ReplaceRuns(SkipOthers(s))
  }

  function TrimLeft(s: string): string {
    if s != "" && s[0] == '-' then TrimLeft(s[1..]) else s
  }

  function TrimRight(s: string): string {
    if s != "" && s[|s| - 1] == '-' then TrimRight(s[..|s| - 1]) else s
  }

  /** `SanitizeToSlug` */
  function SanitizeToSlug(name: string, lower: char -> char): string {
    TrimRight(TrimLeft(ReplaceRuns(ToLower(name, lower))))
  }

  /** Only letters, digits and single hyphens. */
  predicate Separated(s: string) {
    && (forall i | 0 <= i < |s| :: Alnum(s[i]) || s[i] == '-')
    && (forall i | 0 <= i < |s| - 1 :: s[i] != '-' || s[i + 1] != '-')
  }

  /** Small letters, digits and single hyphens, with a letter or digit at either end. */
  predicate IsSlug(s: string) {
    && (forall i | 0 <= i < |s| :: 'a' <= s[i] <= 'z' || '0' <= s[i] <= '9' || s[i] == '-')
    && (forall i | 0 <= i < |s| - 1 :: s[i] != '-' || s[i + 1] != '-')
    && (s != "" ==> s[0] != '-' && s[|s| - 1] != '-')
  }

  lemma {:induction false} RunsAreSeparated(s: string)
    ensures Separated(ReplaceRuns(s))
    ensures s != "" && Alnum(s[0]) ==> ReplaceRuns(s)[0] == s[0]
    decreases |s|
  {
    if s != "" {
      if Alnum(s[0]) {
        RunsAreSeparated(s[1..]);
      } else {
        RunsAreSeparated(SkipOthers(s));
      }
    }
  }

  lemma {:induction false} TrimmedLeft(s: string)
    requires Separated(s)
    ensures Separated(TrimLeft(s)) && (TrimLeft(s) != "" ==> TrimLeft(s)[0] != '-')
  {
    if s != "" && s[0] == '-' {
      TrimmedLeft(s[1..]);
    }
  }

  lemma {:induction false} TrimmedRight(s: string)
    requires Separated(s) && (s != "" ==> s[0] != '-')
    ensures IsSlug(TrimRight(s))
  {
    if s != "" && s[|s| - 1] == '-' {
      TrimmedRight(s[..|s| - 1]);
    }
  }

  /** Whatever the name, its slug is one. */
  lemma SlugIsSlug(name: string, lower: char -> char)
    ensures IsSlug(SanitizeToSlug(name, lower))
  {
    var runs := ReplaceRuns(ToLower(name, lower));
    RunsAreSeparated(ToLower(name, lower));
    TrimmedLeft(runs);
    TrimmedRight(TrimLeft(runs));
  }

  lemma {:induction false} SeparatedIsFixed(s: string)
    requires Separated(s) && (s != "" ==> s[|s| - 1] != '-')
    ensures ReplaceRuns(s) == s
    decreases |s|
  {
    if s != "" {
      SeparatedIsFixed(s[1..]);
      assert s == [s[0]] + s[1..];
      if s[0] == '-' {
        assert SkipOthers(s) == s[1..];
      }
    }
  }

  /** A name is its own slug exactly when it has the form of one; so making slugs is idempotent. */
  lemma OwnSlug(name: string, lower: char -> char)
    requires LowerCases(lower)
    ensures SanitizeToSlug(name, lower) == name <==> IsSlug(name)
    ensures SanitizeToSlug(SanitizeToSlug(name, lower), lower) == SanitizeToSlug(name, lower)
  {
    SlugIsSlug(name, lower);
    SlugIsFixed(SanitizeToSlug(name, lower), lower);
    if IsSlug(name) {
      SlugIsFixed(name, lower);
    }
  }

  lemma SlugIsFixed(s: string, lower: char -> char)
    requires LowerCases(lower) && IsSlug(s)
    ensures SanitizeToSlug(s, lower) == s
  {
    assert ToLower(s, lower) == s;
    SeparatedIsFixed(s);
  }

  /** The maximal run of letters and digits at the beginning. */
  function FirstWord(s: string): (w: string)
    ensures w <= s && (s != "" && Alnum(s[0]) ==> w != "") && (|w| < |s| ==> !Alnum(s[|w|]))
    ensures forall i | 0 <= i < |w| :: Alnum(w[i])
  {
    if s == "" || !Alnum(s[0]) then "" else [s[0]] + FirstWord(s[1..])
  }

  /** All maximal runs of letters and digits, in order. */
  function Words(s: string): seq<string>
    decreases |s|
  {
    if s == "" then []
    else if !Alnum(s[0]) then Words(s[1..])
    else [FirstWord(s)] + Words(s[|FirstWord(s)|..])
  }

  function Hyphenated(words: seq<string>): string {
    if words == [] then "" else if |words| == 1 then words[0] else words[0] + "-" + Hyphenated(words[1..])
  }

  lemma {:induction false} RunsOfWord(s: string)
    ensures ReplaceRuns(s) == FirstWord(s) + ReplaceRuns(s[|FirstWord(s)|..])
    decreases |s|
  {
    if s != "" && Alnum(s[0]) {
      RunsOfWord(s[1..]);
      assert s[1..][|FirstWord(s[1..])|..] == s[|FirstWord(s)|..];
    } else {
      assert s[0..] == s;
    }
  }

  lemma {:induction false} WordsAfterSkip(s: string)
    ensures Words(SkipOthers(s)) == Words(s)
    ensures s != "" && SkipOthers(s) != "" ==> SkipOthers(s)[|SkipOthers(s)| - 1] == s[|s| - 1]
    ensures s != "" && SkipOthers(s) == "" ==> !Alnum(s[|s| - 1])
  {
    if s != "" && !Alnum(s[0]) {
      WordsAfterSkip(s[1..]);
    }
  }

  /** A hyphen at the end stands for other characters at the end of the name. */
  function Trail(s: string): string {
    if s != "" && !Alnum(s[|s| - 1]) then "-" else ""
  }

  lemma {:induction false} RunsJoinWords(s: string)
    requires s != "" && Alnum(s[0])
    ensures Words(s) != [] && ReplaceRuns(s) == Hyphenated(Words(s)) + Trail(s)
    decreases |s|
  {
    hide FirstWord, SkipOthers;
    var w := FirstWord(s);
    var rest := s[|w|..];
    RunsOfWord(s);
    if rest == "" {
      assert s == w;
      assert Words(rest) == [];
    } else {
      var next := SkipOthers(rest);
      WordsAfterSkip(rest);
      assert rest[|rest| - 1] == s[|s| - 1];
      if next != "" {
        RunsJoinWords(next);
        assert w + ("-" + (Hyphenated(Words(next)) + Trail(next))) == w + "-" + Hyphenated(Words(next)) + Trail(next);
      }
    }
  }

  lemma {:induction false} HyphenatedEnds(words: seq<string>)
    requires words != []
    requires forall i | 0 <= i < |words| :: var w := words[i]; w != "" && Alnum(w[0]) && Alnum(w[|w| - 1])
    ensures var h := Hyphenated(words); h != "" && Alnum(h[0]) && Alnum(h[|h| - 1])
  {
    if |words| > 1 {
      HyphenatedEnds(words[1..]);
    }
  }

  lemma {:induction false} WordsAreWords(s: string)
    ensures forall i | 0 <= i < |Words(s)| :: var w := Words(s)[i]; w != "" && Alnum(w[0]) && Alnum(w[|w| - 1])
    decreases |s|
  {
    if s != "" {
      WordsAreWords(if Alnum(s[0]) then s[|FirstWord(s)|..] else s[1..]);
    }
  }

  /** Trimming leaves the words joined by hyphens. */
  lemma TrimmedWords(h: string, lead: string, trail: string)
    requires h != "" && h[0] != '-' && h[|h| - 1] != '-'
    requires (lead == "" || lead == "-") && (trail == "" || trail == "-")
    ensures TrimRight(TrimLeft(lead + (h + trail))) == h
  {
    var runs := h + trail;
    assert lead == "-" ==> (lead + runs)[1..] == runs;
    assert lead == "" ==> lead + runs == runs;
    assert TrimLeft(lead + runs) == runs;
    assert trail == "-" ==> runs[..|runs| - 1] == h;
    assert trail == "" ==> runs == h;
    assert TrimRight(h) == h;
  }

  /** A name with at least one word. */
  lemma SlugOfWords(s: string)
    requires SkipOthers(s) != ""
    ensures TrimRight(TrimLeft(ReplaceRuns(s))) == Hyphenated(Words(s))
  {
    var start := SkipOthers(s);
    var h := Hyphenated(Words(start));
    WordsAfterSkip(s);
    RunsJoinWords(start);
    RunsAfterSkip(s);
    hide ReplaceRuns, SkipOthers, TrimLeft, TrimRight;
    WordsAreWords(start);
    hide Words;
    HyphenatedEnds(Words(start));
    hide Hyphenated;
    TrimmedWords(h, if Alnum(s[0]) then "" else "-", Trail(start));
  }

  lemma RunsAfterSkip(s: string)
    requires s != ""
    ensures ReplaceRuns(s) == (if Alnum(s[0]) then "" else "-") + ReplaceRuns(SkipOthers(s))
  {
    if Alnum(s[0]) {
      assert SkipOthers(s) == s;
      assert "" + ReplaceRuns(s) == ReplaceRuns(s);
    }
  }

  /** The slug of a name: its words in lower case, in order, with one hyphen between them. */
  lemma SlugJoinsWords(name: string, lower: char -> char)
    ensures SanitizeToSlug(name, lower) == Hyphenated(Words(ToLower(name, lower)))
  {
    hide ToLower;
    var s := ToLower(name, lower);
    WordsAfterSkip(s);
    if SkipOthers(s) == "" {
      assert Words(s) == [];
      assert ReplaceRuns(s) == if s == "" then "" else "-";
      assert TrimLeft("-") == "";
    } else {
      SlugOfWords(s);
    }
  }

  // ---------------------------------------------------------------- domains

  /** `strings.Split(s, ".")` */
  function Labels(s: string): (p: seq<string>)
    ensures p != []
  {
    if s == "" then [""]
    else if s[0] == '.' then [""] + Labels(s[1..])
    else var r := Labels(s[1..]); [[s[0]] + r[0]] + r[1..]
  }

  /** `strings.Join(p, ".")` */
  function Dotted(p: seq<string>): string {
    if p == [] then "" else if |p| == 1 then p[0] else p[0] + "." + Dotted(p[1..])
  }

  lemma {:induction false} DottedLabels(s: string)
    ensures Dotted(Labels(s)) == s
  {
    if s != "" {
      DottedLabels(s[1..]);
      var r := Labels(s[1..]);
      assert s == [s[0]] + s[1..];
      if s[0] == '.' {
        assert ([""] + r)[1..] == r;
        assert "" + "." + Dotted(r) == ['.'] + s[1..];
      } else if |r| > 1 {
        assert ([[s[0]] + r[0]] + r[1..])[1..] == r[1..];
        assert [s[0]] + r[0] + "." + Dotted(r[1..]) == [s[0]] + (r[0] + "." + Dotted(r[1..]));
      }
    }
  }

  lemma {:induction false} LabelsHaveNoDot(s: string)
    ensures forall c | c in Labels(s)[0] :: c != '.'
  {
    if s != "" && s[0] != '.' {
      LabelsHaveNoDot(s[1..]);
    }
  }

  /** `RootDomain`: without its first label, if it has more than two. */
  function RootDomain(base: string): string {
    if |Labels(base)| > 2 then Dotted(Labels(base)[1..]) else base
  }

  function Dots(s: string): nat {
    if s == "" then 0 else (if s[0] == '.' then 1 else 0) + Dots(s[1..])
  }

  lemma {:induction false} LabelsCountDots(s: string)
    ensures |Labels(s)| == 1 + Dots(s)
  {
    if s != "" {
      LabelsCountDots(s[1..]);
    }
  }

  /** A base with fewer than two dots is its own root; of any other the root is what follows the first
      dot. */
  lemma RootOfBase(base: string)
    ensures Dots(base) < 2 ==> RootDomain(base) == base
    ensures Dots(base) >= 2 ==>
              exists first: string :: base == first + "." + RootDomain(base) && forall c | c in first :: c != '.'
  {
    LabelsCountDots(base);
    DottedLabels(base);
    LabelsHaveNoDot(base);
    if Dots(base) >= 2 {
      assert base == Labels(base)[0] + "." + RootDomain(base);
    }
  }

  /** `GenerateFriendlyDomain`; `None` for a name without letters and digits. */
  function GenerateFriendlyDomain(name: string, base: string, lower: char -> char): Option<string> {
    var slug := SanitizeToSlug(name, lower);
    if slug == "" then None else Some(slug + "." + RootDomain(base))
  }

  /** Two names have the same friendly domain exactly when they have the same slug. */
  lemma FriendlyDomainsEqual(m: string, n: string, base: string, lower: char -> char)
    ensures GenerateFriendlyDomain(m, base, lower) == GenerateFriendlyDomain(n, base, lower)
            <==> SanitizeToSlug(m, lower) == SanitizeToSlug(n, lower)
  {
    var s, t, root := SanitizeToSlug(m, lower), SanitizeToSlug(n, lower), RootDomain(base);
    if s + "." + root == t + "." + root {
      var x, y := s + "." + root, t + "." + root;
      assert |s| == |t|;
      assert s == x[..|s|] && t == y[..|t|];
    }
  }

  /** The friendly domain is the host of the API itself exactly when that host has more than two
      labels and the slug is the first of them. */
  lemma FriendlyIsApi(name: string, api: string, lower: char -> char)
    ensures GenerateFriendlyDomain(name, api, lower) == Some(api)
            <==> |Labels(api)| > 2 && Labels(api)[0] == SanitizeToSlug(name, lower) != ""
  {
    DottedLabels(api);
    hide SanitizeToSlug;
    var slug, labels := SanitizeToSlug(name, lower), Labels(api);
    var short := if |labels| > 2 then Dotted(labels[1..]) else api;
    assert |labels| > 2 ==> api == labels[0] + "." + short;
    assert RootDomain(api) == short;
    hide Labels, Dotted, RootDomain;
    if |labels| > 2 {
      if slug + "." + short == api {
        assert |slug| == |labels[0]|;
        assert slug == api[..|slug|] && labels[0] == api[..|slug|];
      }
    } else {
      assert |slug + "." + short| > |api|;
    }
  }

  // ---------------------------------------------------------------- from the host to the service

  /** What a host can be: the API itself, malformed, no subdomain of ours, a subdomain. */
  datatype Extracted = IsApi | EmptyPrefix | Nested | Foreign | Subdomain(id: string)

  predicate HasSuffix(s: string, suffix: string) {
    |s| >= |suffix| && s[|s| - |suffix|..] == suffix
  }

  /** `extractID` */
  function ExtractID(host: string, api: string): Extracted {
    var suffix := "." + RootDomain(api);
    if host == api then IsApi
    else if !HasSuffix(host, suffix) then Foreign
    else
      var id := host[..|host| - |suffix|];
      if id == "" then EmptyPrefix else if '.' in id then Nested else Subdomain(id)
  }

  /** From a friendly domain the slug is recovered, unless that domain is the host of the API. */
  lemma ExtractFriendly(name: string, api: string, lower: char -> char)
    requires GenerateFriendlyDomain(name, api, lower).Some?
    ensures var host := GenerateFriendlyDomain(name, api, lower).value;
            ExtractID(host, api) == if host == api then IsApi else Subdomain(SanitizeToSlug(name, lower))
  {
    var slug, suffix := SanitizeToSlug(name, lower), "." + RootDomain(api);
    var host := GenerateFriendlyDomain(name, api, lower).value;
    assert host == slug + suffix;
    SlugIsSlug(name, lower);
    assert host[|slug|..] == suffix && host[..|slug|] == slug;
  }

  /** What a host is, in all five cases: a subdomain exactly if it is a label before the root domain. */
  lemma HostIs(host: string, api: string)
    ensures var r, suffix := ExtractID(host, api), "." + RootDomain(api);
            && (r == IsApi <==> host == api)
            && (r == EmptyPrefix <==> host != api && host == suffix)
            && (forall id :: host == id + suffix ==> (r == Nested <==> host != api && id != "" && '.' in id))
            && (forall id :: r == Subdomain(id) <==> host != api && host == id + suffix && id != "" && '.' !in id)
            && (r == Foreign <==> host != api && forall id :: host != id + suffix)
  {
    var suffix := "." + RootDomain(api);
    hide RootDomain;
    forall id: string | host == id + suffix ensures HasSuffix(host, suffix) && host[..|host| - |suffix|] == id {
      assert host[|id|..] == suffix;
    }
    if HasSuffix(host, suffix) {
      assert host == host[..|host| - |suffix|] + suffix;
    }
  }

  /** And the other way round: a subdomain is extracted from one host only, the one made of it. */
  lemma ExtractedFrom(host: string, api: string)
    requires ExtractID(host, api).Subdomain?
    ensures host == ExtractID(host, api).id + "." + RootDomain(api)
  {
    var suffix := "." + RootDomain(api);
    var id := ExtractID(host, api).id;
    assert host == id + suffix;
  }

  datatype Service = Service(id: string, name: string)

  /** `FindServiceByIDOrName`: the first record of the table with this id or name. */
  function FindByIdOrName(table: seq<Service>, key: string): Option<Service> {
    if table == [] then None
    else if table[0].id == key || table[0].name == key then Some(table[0])
    else FindByIdOrName(table[1..], key)
  }

  /** The API routes of `ResolveTarget` on a subdomain: the record found must have that name. */
  function ResolveSubdomain(table: seq<Service>, host: string, api: string): Option<Service> {
    match ExtractID(host, api)
    case Subdomain(id) =>
      var found := FindByIdOrName(table, id);
      if found.Some? && found.value.name == id then found else None
    case _ => None
  }

  predicate UniqueTable(table: seq<Service>) {
    forall i, j | 0 <= i < j < |table| :: table[i].id != table[j].id && table[i].name != table[j].name
  }

  /** The first match stands before all others. */
  lemma {:induction false} FindFirst(table: seq<Service>, key: string, k: nat)
    requires k < |table| && (table[k].id == key || table[k].name == key)
    requires forall i | 0 <= i < k :: table[i].id != key && table[i].name != key
    ensures FindByIdOrName(table, key) == Some(table[k])
  {
    if k > 0 {
      FindFirst(table[1..], key, k - 1);
    }
  }

  /** The API routes of a service's friendly domain reach the service exactly when that domain is
      not the host of the API, the name is its own slug, and no earlier record has it as its id. */
  lemma ReachesService(table: seq<Service>, k: nat, api: string, lower: char -> char)
    requires UniqueTable(table) && k < |table| && LowerCases(lower)
    requires GenerateFriendlyDomain(table[k].name, api, lower).Some?
    ensures var host := GenerateFriendlyDomain(table[k].name, api, lower).value;
            ResolveSubdomain(table, host, api) == Some(table[k])
            <==> && host != api && IsSlug(table[k].name)
                 && forall i | 0 <= i < k :: table[i].id != table[k].name
  {
    var name := table[k].name;
    var slug := SanitizeToSlug(name, lower);
    ExtractFriendly(name, api, lower);
    OwnSlug(name, lower);
    if slug == name {
      if exists i :: 0 <= i < k && table[i].id == name {
        var i := First(table, name, k);
        FindFirst(table, name, i);
        assert table[i] != table[k];
      } else {
        FindFirst(table, name, k);
      }
    }
  }

  /** The first record whose id is `key`, before `k`. */
  lemma First(table: seq<Service>, key: string, k: nat) returns (i: nat)
    requires UniqueTable(table) && k < |table| && table[k].name == key
    requires exists j :: 0 <= j < k && table[j].id == key
    ensures i < k && table[i].id == key && forall j | 0 <= j < i :: table[j].id != key && table[j].name != key
  {
    var j :| 0 <= j < k && table[j].id == key;
    i := j;
  }

  /** Nobody is reached under a name that is not theirs. */
  lemma ReachedByName(table: seq<Service>, host: string, api: string)
    requires ResolveSubdomain(table, host, api).Some?
    ensures host == ResolveSubdomain(table, host, api).value.name + "." + RootDomain(api)
  {
    ExtractedFrom(host, api);
  }
}
