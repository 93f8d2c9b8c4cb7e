/** Certificate requests (internal/certmanager): the planner that decides whether a domain gets a
    request, the executor that makes the requests that are due, and the record they share.
    Repository writes succeed; the certificate authority and the certificate store answer as they
    like. Times are in milliseconds. */
module CertRetry {

  datatype Status = Unset | Pending | Approved | Failed
  datatype Record = Record(status: Status, attempt: int, notBefore: int)

  /** What the certificate store says: an unexpected error; nothing usable; a certificate. */
  datatype Lookup = Broken | Unusable | Found(ttl: int)

  datatype Settings = Settings(maxAttempts: int, minTtl: int)

  const MINUTE := 60_000

  /** `CreatePending` */
  function Planned(r: Record, attempt: int, now: int): Record {
    var a := if attempt < 1 then 1 else attempt;
    r.(status := Pending, notBefore := now + a * a * MINUTE, attempt := a)
  }

  /** `PostSSLDomainRequest` for a domain that has a record. */
  function Posted(r: Record, s: Settings, check: bool, cert: Lookup, now: int): Record {
    var failed := check && r.status == Failed;
    if r.status == Pending || (failed && r.attempt >= s.maxAttempts) || cert == Broken
       || (cert.Found? && cert.ttl > s.minTtl) then r
    else Planned(r, if failed then r.attempt + 1 else 1, now)
  }

  predicate Due(r: Record, now: int) {
    r.status == Pending && r.notBefore <= now
  }

  /** `processRequest`: one request for a record that is due. */
  function Executed(r: Record, ok: bool): Record {
    r.(status := if ok then Approved else Failed)
  }

  // ---------------------------------------------------------------- when a request is planned

  /** A request is called for: the domain is not pending, not a checked failure that has used up its
      attempts, and its certificate is unusable or about to run out. */
  predicate CalledFor(r: Record, s: Settings, check: bool, cert: Lookup) {
    && r.status != Pending && !(check && r.status == Failed && r.attempt >= s.maxAttempts)
    && (cert == Unusable || (cert.Found? && cert.ttl <= s.minTtl))
  }

  /** Which attempt it is: the next one of a checked failure, and otherwise the first. */
  function NextAttempt(r: Record, check: bool): int {
    if check && r.status == Failed && r.attempt >= 0 then r.attempt + 1 else 1
  }

  /** A post plans attempt a for the time a*a minutes from now if and only if a request is called for, and
      otherwise leaves the record as it is. */
  lemma PlannedIff(r: Record, s: Settings, check: bool, cert: Lookup, now: int)
    ensures var v, a := Posted(r, s, check, cert, now), NextAttempt(r, check);
            && (v.status == Pending && r.status != Pending <==> CalledFor(r, s, check, cert))
            && (CalledFor(r, s, check, cert) ==> v == Record(Pending, a, now + a * a * 60_000))
            && (!CalledFor(r, s, check, cert) ==> v == r)
  {}

  // ---------------------------------------------------------------- runs for one domain

  /** `requests` is history: how many requests the certificate authority has received. */
  datatype World = World(record: Record, clock: int, requests: nat)

  datatype Action = Post(check: bool, cert: Lookup) | Execute(ok: bool) | Tick(d: nat)

  function Step(w: World, s: Settings, a: Action): World {
    match a
    case Post(check, cert) => w.(record := Posted(w.record, s, check, cert, w.clock))
    case Execute(ok) =>
      if Due(w.record, w.clock) then w.(record := Executed(w.record, ok), requests := w.requests + 1) else w
    case Tick(d) => w.(clock := w.clock + d)
  }

  function After(w: World, s: Settings, run: seq<Action>): World {
    if run == [] then w else Step(After(w, s, run[..|run| - 1]), s, run[|run| - 1])
  }

  lemma {:induction false} AfterConcat(w: World, s: Settings, first: seq<Action>, second: seq<Action>)
    ensures After(w, s, first + second) == After(After(w, s, first), s, second)
  {
    if second == [] {
      assert first + second == first;
    } else {
      assert (first + second)[..|first + second| - 1] == first + second[..|second| - 1];
      AfterConcat(w, s, first, second[..|second| - 1]);
    }
  }

  /** A pending request is made exactly when it is due, and settles the record. */
  lemma DueIsRequested(w: World, s: Settings, ok: bool)
    ensures var v, r := Step(w, s, Execute(ok)), w.record;
            if r.status == Pending && r.notBefore <= w.clock
            then v == World(Record(if ok then Approved else Failed, r.attempt, r.notBefore), w.clock, w.requests + 1)
            else v == w
  {}

  /** A certificate that is called for is requested, and renewed, a*a minutes after the post: the periodic
      check of an approved domain whose certificate runs out leads to a new one. */
  lemma RenewalRun(w: World, s: Settings, check: bool, cert: Lookup)
    requires CalledFor(w.record, s, check, cert)
    ensures var a := NextAttempt(w.record, check);
            a > 0 &&
            var d: nat := a * a * 60_000;
            var planned := Step(w, s, Post(check, cert));
            && planned.requests == w.requests
            && Step(Step(planned, s, Tick(d - 1)), s, Execute(true)).requests == w.requests
            && Step(Step(planned, s, Tick(d)), s, Execute(true))
            == World(Record(Approved, a, w.clock + d), w.clock + d, w.requests + 1)
  {
    PlannedIff(w.record, s, check, cert, w.clock);
    hide Posted;
    assert NextAttempt(w.record, check) * NextAttempt(w.record, check) > 0;
  }

  /** No post without the check of the attempts, and no success. */
  predicate Checked(a: Action) {
    (a.Post? ==> a.check) && (a.Execute? ==> !a.ok)
  }

  // ---------------------------------------------------------------- the retry bound

  /** How many more requests the attempts allow. A pending request is always made. */
  function Budget(r: Record, s: Settings): (b: nat) {
    var max := s.maxAttempts;
    match r.status
    case Pending => if max - r.attempt + 1 > 1 then max - r.attempt + 1 else 1
    case Failed => if max - r.attempt > 0 then max - r.attempt else 0
    case _ => if max > 1 then max else 1
  }

  predicate Sane(r: Record) {
    r.status == Pending || r.status == Failed ==> r.attempt >= 0
  }

  /** The budget of a fresh series. */
  function FullBudget(s: Settings): (b: nat) {
    if s.maxAttempts > 1 then s.maxAttempts else 1
  }

  /** A post without the check that plans a request, and a request that succeeds, begin a new series. */
  predicate Resets(w: World, s: Settings, a: Action) {
    || (a.Post? && !a.check && Posted(w.record, s, a.check, a.cert, w.clock) != w.record)
    || (a.Execute? && a.ok && Due(w.record, w.clock))
  }

  /** What an action adds to the budget: a reset fills up what is left, after the request if there is one. */
  function Grant(w: World, s: Settings, a: Action): int {
    if Resets(w, s, a) then FullBudget(s) - Budget(w.record, s) + (if a.Execute? then 1 else 0) else 0
  }

  function Granted(w: World, s: Settings, run: seq<Action>): int {
    if run == [] then 0
    else
      var front, last := run[..|run| - 1], run[|run| - 1];
      Granted(w, s, front) + Grant(After(w, s, front), s, last)
  }

  /** How often a run begins a new series. */
  function ResetCount(w: World, s: Settings, run: seq<Action>): nat {
    if run == [] then 0
    else
      var front, last := run[..|run| - 1], run[|run| - 1];
      ResetCount(w, s, front) + (if Resets(After(w, s, front), s, last) then 1 else 0)
  }

  lemma StepBalances(w: World, s: Settings, a: Action)
    requires Sane(w.record)
    ensures var v := Step(w, s, a);
            && Sane(v.record) && v.requests + Budget(v.record, s) == w.requests + Budget(w.record, s) + Grant(w, s, a)
            && Grant(w, s, a) <= if Resets(w, s, a) then FullBudget(s) else 0
  {}

  /** In every run, with posts and successes of any kind: what has been requested and what may still be
      requested add up to what was there at the beginning and what the resets have granted, each of
      them at most one full budget. */
  lemma {:induction false} RequestsAndBudget(w: World, s: Settings, run: seq<Action>)
    requires Sane(w.record)
    ensures var v := After(w, s, run);
            && Sane(v.record)
            && v.requests + Budget(v.record, s) == w.requests + Budget(w.record, s) + Granted(w, s, run)
            && Granted(w, s, run) <= ResetCount(w, s, run) * FullBudget(s)
  {
    hide Step, Resets, Grant, Budget, Sane;
    if run != [] {
      var front := run[..|run| - 1];
      RequestsAndBudget(w, s, front);
      StepBalances(After(w, s, front), s, run[|run| - 1]);
      assert (ResetCount(w, s, front) + 1) * FullBudget(s) == ResetCount(w, s, front) * FullBudget(s) + FullBudget(s);
    }
  }

  /** Without unchecked posts and without success nothing is granted. */
  lemma {:induction false} NothingGranted(w: World, s: Settings, run: seq<Action>)
    requires forall i | 0 <= i < |run| :: Checked(run[i])
    ensures Granted(w, s, run) == 0
  {
    if run != [] {
      NothingGranted(w, s, run[..|run| - 1]);
      assert Checked(run[|run| - 1]);
    }
  }

  /** A domain that is pending at attempt `a` is requested at most max(1, maxAttempts - a + 1) times. */
  lemma RetryBound(w: World, s: Settings, run: seq<Action>)
    requires w.record.status == Pending && w.record.attempt >= 0 && forall i | 0 <= i < |run| :: Checked(run[i])
    ensures var v := After(w, s, run);
            var left := s.maxAttempts - w.record.attempt + 1;
            v.requests - w.requests <= if left > 1 then left else 1
  {
    RequestsAndBudget(w, s, run);
    NothingGranted(w, s, run);
  }

  /** Post, wait until the request is due, and let it fail. */
  function Round(attempt: nat): seq<Action> {
    [Post(true, Unusable), Tick(attempt * attempt * MINUTE), Execute(false)]
  }

  function Rounds(attempt: nat, n: nat): seq<Action>
    decreases n
  {
    if n == 0 then [] else Round(attempt) + Rounds(attempt + 1, n - 1)
  }

  lemma RoundRequests(w: World, s: Settings)
    requires w.record.status == Failed && 0 <= w.record.attempt < s.maxAttempts
    ensures var v := After(w, s, Round(w.record.attempt + 1));
            v.requests == w.requests + 1 && v.record.status == Failed && v.record.attempt == w.record.attempt + 1
  {
    var a := w.record.attempt + 1;
    var r := Round(a);
    assert r[..2] == [r[0], r[1]] && r[..2][..1] == [r[0]] && [r[0]][..0] == [];
    var w1 := Step(w, s, r[0]);
    assert After(w, s, [r[0]]) == w1;
    assert w1.record.notBefore == w.clock + a * a * MINUTE;
    assert After(w, s, r[..2]) == Step(w1, s, r[1]);
  }

  /** The bound is reached: a failed domain can be requested exactly as often as its budget says. */
  lemma {:induction false} RetryBoundIsTight(w: World, s: Settings)
    requires w.record.status == Failed && w.record.attempt >= 0
    ensures var run := Rounds(w.record.attempt + 1, Budget(w.record, s));
            && (forall i | 0 <= i < |run| :: Checked(run[i]))
            && After(w, s, run).requests == w.requests + Budget(w.record, s)
    decreases Budget(w.record, s)
  {
    if w.record.attempt < s.maxAttempts {
      var a := w.record.attempt + 1;
      RoundRequests(w, s);
      var v := After(w, s, Round(a));
      RetryBoundIsTight(v, s);
      AfterConcat(w, s, Round(a), Rounds(a + 1, Budget(v.record, s)));
    }
  }

  // ---------------------------------------------------------------- the back-off

  function SumOfSquares(k: nat): nat {
    if k == 0 then 0 else SumOfSquares(k - 1) + k * k
  }

  lemma {:induction false} SumOfSquaresClosed(k: nat)
    ensures 6 * SumOfSquares(k) == k * (k + 1) * (2 * k + 1)
  {
    if k > 0 {
      SumOfSquaresClosed(k - 1);
      Expanded(k);
      Expanded(k - 1);
      assert (k - 1) * (k - 1) == k * k - 2 * k + 1;
      assert (k - 1) * (k - 1) * (k - 1) == (k * k - 2 * k + 1) * (k - 1) == k * k * k - 3 * (k * k) + 3 * k - 1;
    }
  }

  lemma Expanded(k: int)
    ensures k * (k + 1) * (2 * k + 1) == 2 * (k * k * k) + 3 * (k * k) + k
  {
    assert k * (k + 1) == k * k + k;
  }

  /** Attempt `a` of a series planned first at `start` is not due before the squares up to `a`
      have passed, in minutes; after it has failed they have passed. */
  predicate Spaced(w: World, start: int, before: nat) {
    && 1 <= w.record.attempt
    && match w.record.status
       case Pending =>
         w.record.notBefore >= start + SumOfSquares(w.record.attempt) * MINUTE
           && w.requests == before + w.record.attempt - 1
       case Failed =>
         w.clock >= start + SumOfSquares(w.record.attempt) * MINUTE && w.requests == before + w.record.attempt
       case _ => false
  }

  lemma SpacedStep(w: World, s: Settings, a: Action, start: int, before: nat)
    requires Spaced(w, start, before) && Checked(a)
    ensures Spaced(Step(w, s, a), start, before)
  {
    if a.Post? && Step(w, s, a) != w {
      var k := w.record.attempt + 1;
      assert SumOfSquares(k) == SumOfSquares(k - 1) + k * k;
      assert SumOfSquares(k) * MINUTE == SumOfSquares(k - 1) * MINUTE + k * k * MINUTE;
    }
  }

  /** From its first planning on, a series of failing attempts 1 to `k` takes at least
      1 + 4 + ... + k*k minutes, and makes exactly `k` requests, in every run without unchecked
      posts. */
  lemma {:induction false} BackOff(w: World, s: Settings, run: seq<Action>)
    requires w.record == Planned(w.record, 1, w.clock) && forall i | 0 <= i < |run| :: Checked(run[i])
    ensures Spaced(After(w, s, run), w.clock, w.requests)
    ensures var v := After(w, s, run); var k := v.record.attempt;
            v.record.status == Failed ==>
              && v.requests == w.requests + k
              && v.clock - w.clock >= SumOfSquares(k) * MINUTE
              && 6 * SumOfSquares(k) == k * (k + 1) * (2 * k + 1)
  {
    if run != [] {
      BackOff(w, s, run[..|run| - 1]);
      SpacedStep(After(w, s, run[..|run| - 1]), s, run[|run| - 1], w.clock, w.requests);
    } else {
      assert SumOfSquares(1) == 1;
    }
    SumOfSquaresClosed(After(w, s, run).record.attempt);
  }

  // ---------------------------------------------------------------- the unchecked post

  /** A request fails; saving its failure runs the update hook, which posts without the check. */
  function HookedFailure(): seq<Action> {
    [Tick(MINUTE), Execute(false), Post(false, Unusable)]
  }

  function HookedFailures(n: nat): seq<Action> {
    if n == 0 then [] else HookedFailures(n - 1) + HookedFailure()
  }

  /** With the hook in place neither the cap nor the back-off has any effect: a domain without a
      certificate is requested once a minute, at attempt 1, for as long as one likes. */
  lemma {:induction false} HookDefeatsCap(w: World, s: Settings, n: nat)
    requires w.record == Planned(w.record, 1, w.clock)
    ensures var v := After(w, s, HookedFailures(n));
            && v.requests == w.requests + n && v.clock == w.clock + n * MINUTE
            && v.record == Planned(v.record, 1, v.clock)
  {
    if n > 0 {
      HookDefeatsCap(w, s, n - 1);
      AfterConcat(w, s, HookedFailures(n - 1), HookedFailure());
      HookedOnce(After(w, s, HookedFailures(n - 1)), s);
    }
  }

  lemma HookedOnce(w: World, s: Settings)
    requires w.record == Planned(w.record, 1, w.clock)
    ensures var v := After(w, s, HookedFailure());
            v.requests == w.requests + 1 && v.clock == w.clock + MINUTE && v.record == Planned(v.record, 1, v.clock)
  {
    var r := HookedFailure();
    assert r[..2] == [r[0], r[1]] && r[..2][..1] == [r[0]] && [r[0]][..0] == [];
    var w1 := Step(w, s, r[0]);
    assert After(w, s, [r[0]]) == w1;
    assert After(w, s, r[..2]) == Step(w1, s, r[1]);
  }

  // ---------------------------------------------------------------- the objects

  type Domain = string

  class CertManager {
    var records: map<Domain, Record>
    const settings: Settings
    ghost var requested: seq<Domain>   // history: every request made

    constructor (records: map<Domain, Record>, settings: Settings)
      ensures this.records == records && this.settings == settings && requested == []
    {
      this.records, this.settings, requested := records, settings, [];
    }

    method CreatePending(domain: Domain, attempt: int, now: int) returns (failed: bool)
      modifies this`records
      ensures failed <==> domain !in old(records)
      ensures records == if failed then old(records)
          else old(records)[domain := Planned(old(records)[domain], attempt, now)]
    {
      if domain !in records {
        return true;
      }
      var a := attempt;
      if a < 1 {
        a := 1;
      }
      var record := records[domain];
      record := record.(status := Pending);
      record := record.(notBefore := now + a * a * MINUTE);
      record := record.(attempt := a);
      records := records[domain := record];
      failed := false;
    }

    /** Fails when a request is called for and the store is broken or the domain has no record. */
    method PostSSLDomainRequest(domain: Domain, check: bool, cert: Lookup, now: int) returns (failed: bool)
      modifies this`records
      ensures domain in old(records) ==>
                records == old(records)[domain := Posted(old(records)[domain], settings, check, cert, now)]
      ensures domain !in old(records) ==>
                records == old(records) && (failed <==> !(cert.Found? && cert.ttl > settings.minTtl))
      ensures domain in old(records) ==>
                var r := old(records)[domain];
                failed <==> cert == Broken && Posted(r, settings, check, Unusable, now) != r
      ensures domain in old(records) ==>
                var r := old(records)[domain];
                var a := NextAttempt(r, check);
                && records.Keys == old(records).Keys
                && records[domain] == (if CalledFor(r, settings, check, cert)
                                       then Record(Pending, a, now + a * a * 60_000) else r)
                && (failed <==> cert == Broken && CalledFor(r, settings, check, Unusable))
    {
      if domain in records && records[domain].status == Pending {
        assert records == records[domain := records[domain]];
        return false;
      }
      var attempt := 1;
      if check {
        if domain in records && records[domain].status == Failed {
          if records[domain].attempt >= settings.maxAttempts {
            assert records == records[domain := records[domain]];
            return false;
          }
          attempt := records[domain].attempt + 1;
        }
      }
      if cert == Broken {
        assert domain in records ==> records == records[domain := records[domain]];
        return true;
      }
      if cert.Found? && cert.ttl > settings.minTtl {
        assert domain in records ==> records == records[domain := records[domain]];
        return false;
      }
      failed := CreatePending(domain, attempt, now);
    }

    /** `pendingToExecute`, over the pending records in whatever order the database gives them. */
    method PendingToExecute(order: seq<Domain>, now: int) returns (due: seq<Domain>)
      requires forall d :: d in order <==> d in records && records[d].status == Pending
      requires forall i, j | 0 <= i < j < |order| :: order[i] != order[j]
      ensures forall d :: d in due <==> d in records && Due(records[d], now)
      ensures forall i, j | 0 <= i < j < |due| :: due[i] != due[j]
    {
      due := [];
      for i := 0 to |order|
        invariant forall d :: d in due <==> d in order[..i] && Due(records[d], now)
        invariant forall j, k | 0 <= j < k < |due| :: due[j] != due[k]
      {
        if records[order[i]].notBefore <= now {
          due := due + [order[i]];
        }
      }
    }

    /** `processRequest`; `ok` says whether the certificate was issued and stored. */
    method ProcessRequest(domain: Domain, ok: bool)
      requires domain in records
      modifies this
      ensures records == old(records)[domain := Executed(old(records)[domain], ok)]
      ensures requested == old(requested) + [domain]
    {
      requested := requested + [domain];
      if !ok {
        records := records[domain := records[domain].(status := Failed)];
        return;
      }
      records := records[domain := records[domain].(status := Approved)];
    }

    /** One pass: every request that is due is made exactly once, and nothing else changes. */
    method ExecutePlan(order: seq<Domain>, outcome: Domain -> bool, now: int) returns (due: seq<Domain>)
      requires forall d :: d in order <==> d in records && records[d].status == Pending
      requires forall i, j | 0 <= i < j < |order| :: order[i] != order[j]
      modifies this
      ensures requested == old(requested) + due
      ensures forall d :: d in due <==> d in old(records) && Due(old(records)[d], now)
      ensures forall i, j | 0 <= i < j < |due| :: due[i] != due[j]
      ensures records.Keys == old(records).Keys
      ensures forall d | d in records ::
                var r := old(records)[d];
                records[d] == if Due(r, now) then Executed(r, outcome(d)) else r
    {
      due := PendingToExecute(order, now);
      for i := 0 to |due|
        invariant requested == old(requested) + due[..i]
        invariant records.Keys == old(records).Keys
        invariant forall d | d in records ::
                    records[d] == if d in due[..i] then Executed(old(records)[d], outcome(d)) else old(records)[d]
      {
        ProcessRequest(due[i], outcome(due[i]));
        assert due[..i + 1] == due[..i] + [due[i]];
      }
      assert due[..|due|] == due;
    }
  }
}
