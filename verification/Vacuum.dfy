/** The nightly vacuum (internal/hooks/sqlite_vacuum.go): a sweep visits the instances, oldest
    vacuum first, skips those that run and may be cut short after any visit. */
module Vacuum {

  type Id = string
  datatype Stamp = Never | At(time: int)
  datatype Record = Record(id: Id, last: Stamp)

  /** The test of the insertion sort: `a` must not stand before `b`. */
  predicate Later(a: Record, b: Record) {
    (a.last.At? && b.last.Never?) || (a.last.At? && b.last.At? && a.last.time > b.last.time)
  }

  predicate Sorted(rs: seq<Record>) {
    forall i, j | 0 <= i < j < |rs| :: !Later(rs[i], rs[j])
  }

  /** The first `n` records are sorted, except that the one at `hole` may belong further left. */
  predicate SortedBut(rs: seq<Record>, n: nat, hole: nat)
    requires hole < n <= |rs|
  {
    forall i, j | 0 <= i < j < n && j != hole :: !Later(rs[i], rs[j])
  }

  /** Two neighbours, the right one at `j`, change places. */
  function Swapped(rs: seq<Record>, j: nat): seq<Record>
    requires 0 < j < |rs|
  {
    rs[j - 1 := rs[j]][j := rs[j - 1]]
  }

  lemma SwapKeeps(rs: seq<Record>, j: nat)
    requires 0 < j < |rs|
    ensures multiset(Swapped(rs, j)) == multiset(rs)
  {
    var front, back := rs[..j - 1], rs[j + 1..];
    assert rs == front + ([rs[j - 1]] + [rs[j]] + back);
    assert Swapped(rs, j) == front + ([rs[j]] + [rs[j - 1]] + back);
  }

  lemma SwapSorts(rs: seq<Record>, n: nat, j: nat)
    requires 0 < j < n <= |rs| && SortedBut(rs, n, j) && Later(rs[j - 1], rs[j])
    ensures SortedBut(Swapped(rs, j), n, j - 1)
  {}

  /** The inner loop of `sortByLastVacuum`: the record at `i` moves left to its place. */
  method InsertRecord(a: array<Record>, i: nat)
    requires i < a.Length && SortedBut(a[..], i + 1, i)
    modifies a
    ensures multiset(a[..]) == multiset(old(a[..]))
    ensures forall p, q | 0 <= p < q < i + 1 :: !Later(a[..][p], a[..][q])
  {
    var j := i;
    while j > 0 && Later(a[j - 1], a[j])
      invariant 0 <= j <= i
      invariant SortedBut(a[..], i + 1, j)
      invariant multiset(a[..]) == multiset(old(a[..]))
    {
      hide SortedBut, Later;
      ghost var before := a[..];
      a[j - 1], a[j] := a[j], a[j - 1];
      assert a[..] == Swapped(before, j);
      SwapKeeps(before, j);
      SwapSorts(before, i + 1, j);
      j := j - 1;
    }
    PlaceFound(a[..], i + 1, j);
  }

  /** Where the record is not later than its left neighbour, everything is in order. */
  lemma PlaceFound(rs: seq<Record>, n: nat, j: nat)
    requires j < n <= |rs| && SortedBut(rs, n, j) && (j > 0 ==> !Later(rs[j - 1], rs[j]))
    ensures forall p, q | 0 <= p < q < n :: !Later(rs[p], rs[q])
  {}

  /** `sortByLastVacuum`, in place. */
  method SortByLastVacuum(a: array<Record>)
    modifies a
    ensures Sorted(a[..]) && multiset(a[..]) == multiset(old(a[..]))
  {
    if a.Length == 0 {
      return;
    }
    for i := 1 to a.Length
      invariant forall p, q | 0 <= p < q < i :: !Later(a[..][p], a[..][q])
      invariant multiset(a[..]) == multiset(old(a[..]))
    {
      hide Later;
      InsertRecord(a, i);
    }
  }

  // ---------------------------------------------------------------- the history of all sweeps

  /** What a sweep did at one visit. `Failed` stands for a vacuum or a time stamp that failed. */
  datatype Event = Vacuumed(id: Id, time: int) | Skipped(id: Id) | Failed(id: Id)

  function Stamped(last: map<Id, Stamp>, e: Event): map<Id, Stamp> {
    if e.Vacuumed? then last[e.id := At(e.time)] else last
  }

  /** The time stamps after the events of `log`. */
  function Replay(init: map<Id, Stamp>, log: seq<Event>): map<Id, Stamp> {
    if log == [] then init else Stamped(Replay(init, log[..|log| - 1]), log[|log| - 1])
  }

  /** `rs` lists every instance once, in the order of the sort. */
  ghost predicate Ranking(last: map<Id, Stamp>, rs: seq<Record>) {
    && Sorted(rs)
    && (forall k | 0 <= k < |rs| :: rs[k].id in last && rs[k].last == last[rs[k].id])
    && (forall k, l | 0 <= k < l < |rs| :: rs[k].id != rs[l].id)
    && (forall id | id in last :: exists k :: 0 <= k < |rs| && rs[k].id == id)
  }

  /** All sweeps so far: the stamps before the first one, all events, and for each sweep the
      index of its first event and the ranking it followed. */
  datatype History = History(init: map<Id, Stamp>, start: int, log: seq<Event>, starts: seq<nat>,
    rankings: seq<seq<Record>>)

  function End(h: History, k: nat): nat
    requires k < |h.starts|
  {
    if k + 1 < |h.starts| then h.starts[k + 1] else |h.log|
  }

  /** Sweep `k` visited a prefix of its ranking, in order. */
  ghost predicate SweepOk(h: History, k: nat)
    requires k < |h.starts| == |h.rankings|
  {
    && h.starts[k] <= End(h, k) <= |h.log|
    && Ranking(Replay(h.init, h.log[..h.starts[k]]), h.rankings[k])
    && End(h, k) - h.starts[k] <= |h.rankings[k]|
    && forall x: nat | h.starts[k] <= x < End(h, k) :: h.log[x].id == h.rankings[k][x - h.starts[k]].id
  }

  /** The clock moves on between vacuums, and past the initial stamps. */
  predicate ClockOk(h: History) {
    && (forall id | id in h.init && h.init[id].At? :: h.init[id].time <= h.start)
    && (forall x | 0 <= x < |h.log| && h.log[x].Vacuumed? :: h.log[x].time > h.start)
    && (forall x, y | 0 <= x < y < |h.log| && h.log[x].Vacuumed? && h.log[y].Vacuumed? :: h.log[x].time < h.log[y].time)
  }

  ghost predicate IsHistory(h: History) {
    && |h.starts| == |h.rankings|
    && (h.starts == [] ==> h.log == []) && (h.starts != [] ==> h.starts[0] == 0)
    && ClockOk(h)
    && forall k: nat {:trigger SweepOk(h, k)} | k < |h.starts| :: SweepOk(h, k)
  }

  // ---------------------------------------------------------------- fairness

  /** The event `b` belongs to some sweep. */
  lemma {:induction false} Locate(h: History, b: nat, k: nat) returns (s: nat)
    requires IsHistory(h) && k < |h.starts| && b < End(h, k)
    ensures s <= k && h.starts[s] <= b < End(h, s)
  {
    assert SweepOk(h, k);
    if b >= h.starts[k] || k == 0 {
      s := k;
    } else {
      s := Locate(h, b, k - 1);
    }
  }

  /** After a vacuum of `i` at time `t`, its stamp is `t` or later. */
  lemma {:induction false} StampKept(h: History, a: nat, n: nat)
    requires ClockOk(h) && a < n <= |h.log| && h.log[a].Vacuumed?
    ensures var m := Replay(h.init, h.log[..n]); var i := h.log[a].id;
            i in m && m[i].At? && m[i].time >= h.log[a].time
  {
    assert h.log[..n][..n - 1] == h.log[..n - 1];
    if a < n - 1 { StampKept(h, a, n - 1); }
  }

  /** Before event `n` no stamp is as late as a vacuum at `n` or after would be. */
  lemma {:induction false} StampEarlier(h: History, n: nat, t: int, j: Id)
    requires ClockOk(h) && n <= |h.log| && t > h.start && j in h.init
    requires forall x | 0 <= x < n && h.log[x].Vacuumed? :: h.log[x].time < t
    ensures var m := Replay(h.init, h.log[..n]); j in m && (m[j].At? ==> m[j].time < t)
  {
    if n > 0 {
      assert h.log[..n][..n - 1] == h.log[..n - 1];
      StampEarlier(h, n - 1, t, j);
    } else {
      assert h.log[..0] == [];
    }
  }

  /** Without a vacuum of `j` in between, its stamp stays. */
  lemma {:induction false} StampUnchanged(h: History, a: nat, n: nat, j: Id)
    requires a <= n <= |h.log|
    requires forall x | a <= x < n :: !(h.log[x].Vacuumed? && h.log[x].id == j)
    ensures var m, m' := Replay(h.init, h.log[..a]), Replay(h.init, h.log[..n]);
            (j in m <==> j in m') && (j in m ==> m[j] == m'[j])
  {
    if a < n {
      assert h.log[..n][..n - 1] == h.log[..n - 1];
      StampUnchanged(h, a, n - 1, j);
    }
  }

  /** Between two vacuums of instance `i`, every instance that was neither found running nor
      failed in between was vacuumed, however many sweeps there were and wherever they were
      cut. */
  lemma VacuumIsFair(h: History, a: nat, b: nat, j: Id)
    requires IsHistory(h) && a < b < |h.log|
    requires h.log[a].Vacuumed? && h.log[b].Vacuumed? && h.log[a].id == h.log[b].id
    requires j in h.init && j != h.log[a].id
    requires forall x | a < x < b && h.log[x].id == j :: h.log[x].Vacuumed?
    ensures exists c :: a < c < b && h.log[c].Vacuumed? && h.log[c].id == j
  {
    var k := Locate(h, b, |h.starts| - 1);
    assert SweepOk(h, k);
    var s, rs, i := h.starts[k], h.rankings[k], h.log[a].id;
    assert a < s;
    if forall x | a <= x < s :: !(h.log[x].Vacuumed? && h.log[x].id == j) {
      var m := Replay(h.init, h.log[..s]);
      StampKept(h, a, s);
      StampEarlier(h, a, h.log[a].time, j);
      StampUnchanged(h, a, s, j);
      var p :| 0 <= p < |rs| && rs[p].id == j;
      assert Later(rs[b - s], rs[p]);
      assert p < b - s;
      assert h.log[s + p].id == j;
    }
  }

  // ---------------------------------------------------------------- the sweep

  /** A new sweep begins. */
  lemma BeginSweep(h: History, rs: seq<Record>)
    requires IsHistory(h) && Ranking(Replay(h.init, h.log), rs)
    ensures IsHistory(h.(starts := h.starts + [|h.log|], rankings := h.rankings + [rs]))
  {
    hide Ranking, Replay;
    var g := h.(starts := h.starts + [|h.log|], rankings := h.rankings + [rs]);
    assert h.log[..|h.log|] == h.log;
    forall k: nat {:trigger SweepOk(g, k)} | k < |g.starts| ensures SweepOk(g, k) {
      if k < |h.starts| { assert SweepOk(h, k) && End(g, k) == End(h, k); }
    }
  }

  /** The running sweep makes its next visit. */
  lemma VisitNext(h: History, e: Event)
    requires IsHistory(h) && h.starts != []
    requires var k := |h.starts| - 1; var n := |h.log| - h.starts[k];
             0 <= n < |h.rankings[k]| && e.id == h.rankings[k][n].id
    requires e.Vacuumed? ==> e.time > h.start && forall x | 0 <= x < |h.log|
        && h.log[x].Vacuumed? :: h.log[x].time < e.time
    ensures IsHistory(h.(log := h.log + [e]))
  {
    hide Ranking, Replay;
    var g := h.(log := h.log + [e]);
    forall k: nat {:trigger SweepOk(g, k)} | k < |g.starts| ensures SweepOk(g, k) {
      assert SweepOk(h, k);
      assert g.log[..h.starts[k]] == h.log[..h.starts[k]];
    }
  }

  lemma {:induction false} OccursOnce(rs: seq<Record>, r: Record)
    requires forall k, l | 0 <= k < l < |rs| :: rs[k] != rs[l]
    ensures multiset(rs)[r] <= 1
  {
    if rs != [] {
      assert rs == rs[..|rs| - 1] + [rs[|rs| - 1]];
      OccursOnce(rs[..|rs| - 1], r);
    }
  }

  lemma TwiceCounted(rs: seq<Record>, k: nat, l: nat)
    requires k < l < |rs| && rs[k] == rs[l]
    ensures multiset(rs)[rs[k]] >= 2
  {
    assert rs == rs[..l] + rs[l..];
    assert rs[k] in rs[..l] && rs[k] in rs[l..];
  }

  /** `services` lists every instance once. */
  ghost predicate Lists(last: map<Id, Stamp>, services: seq<Id>) {
    && (forall k | 0 <= k < |services| :: services[k] in last)
    && (forall k, l | 0 <= k < l < |services| :: services[k] != services[l])
    && (forall id | id in last :: id in services)
  }

  /** A sorted permutation of the records of all instances is a ranking. */
  lemma SortedIsRanking(last: map<Id, Stamp>, services: seq<Id>, table: seq<Record>, rs: seq<Record>)
    requires Lists(last, services) && Sorted(rs) && multiset(rs) == multiset(table)
    requires |table| == |services| && forall k | 0 <= k < |table| :: table[k] == Record(services[k], last[services[k]])
    ensures Ranking(last, rs)
  {
    forall k | 0 <= k < |rs| ensures rs[k].id in last && rs[k].last == last[rs[k].id] {
      assert rs[k] in multiset(rs);
    }
    forall k, l | 0 <= k < l < |rs| ensures rs[k].id != rs[l].id {
      if rs[k] == rs[l] {
        TwiceCounted(rs, k, l);
        OccursOnce(table, rs[k]);
      }
    }
    forall id | id in last ensures exists k :: 0 <= k < |rs| && rs[k].id == id {
      var k :| 0 <= k < |services| && services[k] == id;
      assert table[k] in multiset(rs);
    }
  }

  /** Running instances are skipped; the others are vacuumed unless that fails. */
  predicate Judged(e: Event, running: Id -> bool, failing: Id -> bool) {
    (e.Skipped? <==> running(e.id)) && (e.Vacuumed? <==> !running(e.id) && !failing(e.id))
  }

  /** What a sweep that has visited the first `n` of `rs` has done to the time stamps: the instances visited
      that neither ran nor failed are stamped after `clock`, and nothing else is. */
  ghost predicate Swept(before: map<Id, Stamp>, after: map<Id, Stamp>, clock: int, rs: seq<Record>, n: nat,
                        running: Id -> bool, failing: Id -> bool)
    requires n <= |rs|
  {
    && after.Keys == before.Keys
    && (forall k | 0 <= k < n :: rs[k].id in after)
    && (forall k | 0 <= k < n && (running(rs[k].id) || failing(rs[k].id)) :: after[rs[k].id] == before[rs[k].id])
    && (forall k | 0 <= k < n && !running(rs[k].id) && !failing(rs[k].id) ::
          after[rs[k].id].At? && after[rs[k].id].time > clock)
    && (forall id | id in before && (forall k | 0 <= k < n :: rs[k].id != id) :: after[id] == before[id])
  }

  lemma NothingSwept(last: map<Id, Stamp>, clock: int, rs: seq<Record>, running: Id -> bool, failing: Id -> bool)
    ensures Swept(last, last, clock, rs, 0, running, failing)
  {}

  lemma SweptNext(before: map<Id, Stamp>, mid: map<Id, Stamp>, after: map<Id, Stamp>, clock: int, rs: seq<Record>,
                  n: nat, running: Id -> bool, failing: Id -> bool, now: int)
    requires n < |rs| && Swept(before, mid, clock, rs, n, running, failing) && rs[n].id in mid && now > clock
    requires forall k | 0 <= k < n :: rs[k].id != rs[n].id
    requires after == if running(rs[n].id) || failing(rs[n].id) then mid else mid[rs[n].id := At(now)]
    ensures Swept(before, after, clock, rs, n + 1, running, failing)
  {}

  class VacuumScheduler {
    var lastVacuum: map<Id, Stamp>
    var clock: int
    ghost var history: History

    ghost predicate Valid()
      reads this
    {
      && IsHistory(history) && lastVacuum == Replay(history.init, history.log) && lastVacuum.Keys == history.init.Keys
      && history.start <= clock
      && forall x | 0 <= x < |history.log| && history.log[x].Vacuumed? :: history.log[x].time <= clock
    }

    constructor (lastVacuum: map<Id, Stamp>, clock: int)
      requires forall id | id in lastVacuum && lastVacuum[id].At? :: lastVacuum[id].time <= clock
      ensures Valid() && this.lastVacuum == lastVacuum && history.init == lastVacuum && history.log == []
    {
      this.lastVacuum, this.clock := lastVacuum, clock;
      history := History(lastVacuum, clock, [], [], []);
    }

    /** One visit, with its outcome already decided. */
    method Visit(e: Event)
      requires Valid() && e.id in lastVacuum && history.starts != []
      requires var k := |history.starts| - 1; var n := |history.log| - history.starts[k];
               0 <= n < |history.rankings[k]| && e.id == history.rankings[k][n].id
      requires e.Vacuumed? ==> e.time > clock
      modifies this
      ensures Valid() && history == old(history).(log := old(history.log) + [e])
      ensures lastVacuum == Stamped(old(lastVacuum), e) && clock == if e.Vacuumed? then e.time else old(clock)
    {
      VisitNext(history, e);
      history := history.(log := history.log + [e]);
      assert history.log[..|history.log| - 1] == old(history.log);
      if e.Vacuumed? {
        lastVacuum, clock := lastVacuum[e.id := At(e.time)], e.time;
      }
    }

    /** The state of the sweep after `n` visits: the events since `log` follow the ranking. */
    ghost predicate Sweeping(h: History, rs: seq<Record>, n: nat)
      reads this
    {
      && history.init == h.init && history.start == h.start
      && history.starts == h.starts + [|h.log|] && history.rankings == h.rankings + [rs]
      && |history.log| == |h.log| + n && n <= |rs| && history.log[..|h.log|] == h.log
    }

    /** Reads and sorts the services. */
    method LoadSorted(services: seq<Id>) returns (a: array<Record>)
      requires Lists(lastVacuum, services)
      ensures fresh(a) && Ranking(lastVacuum, a[..])
      ensures forall i, j | 0 <= i < j < a.Length :: a[i].id != a[j].id
    {
      var last := lastVacuum;
      a := new Record[|services|](k requires 0 <= k < |services| =>
        Record(services[k], if services[k] in last then last[services[k]] else Never));
      ghost var table := a[..];
      SortByLastVacuum(a);
      SortedIsRanking(last, services, table, a[..]);
    }

    /** The visit of one instance, and what it does to the time stamps. */
    method VisitInstance(id: Id, running: Id -> bool, failing: Id -> bool, ghost h: History, ghost rs: seq<Record>,
        ghost k: nat)
      requires Valid() && Sweeping(h, rs, k) && k < |rs| && id == rs[k].id
      requires forall x | |h.log| <= x < |history.log| :: Judged(history.log[x], running, failing)
      modifies this
      ensures Valid() && Sweeping(h, rs, k + 1)
      ensures forall x | |h.log| <= x < |history.log| :: Judged(history.log[x], running, failing)
      ensures id in old(lastVacuum)
      ensures running(id) || failing(id) ==> lastVacuum == old(lastVacuum) && clock == old(clock)
      ensures !running(id) && !failing(id) ==> lastVacuum == old(lastVacuum)[id := At(clock)] && clock > old(clock)
    {
      RankedIsKnown(rs, k);
      hide IsHistory, Ranking, Replay;
      if running(id) {
        Visit(Skipped(id));
      } else if failing(id) {
        Visit(Failed(id));
      } else {
        var now: int :| now > clock;
        Visit(Vacuumed(id, now));
      }
    }

    /** The k-th visit of the sweep that began after history `h`, with stamps `before`, at `since`. */
    method VisitRanked(id: Id, running: Id -> bool, failing: Id -> bool, ghost h: History, ghost rs: seq<Record>,
        ghost k: nat, ghost before: map<Id, Stamp>, ghost since: int)
      requires Valid() && Sweeping(h, rs, k) && k < |rs| && id == rs[k].id
      requires forall x | |h.log| <= x < |history.log| :: Judged(history.log[x], running, failing)
      requires Swept(before, lastVacuum, since, rs, k, running, failing) && since <= clock
      requires forall i | 0 <= i < k :: rs[i].id != id
      modifies this
      ensures Valid() && Sweeping(h, rs, k + 1)
      ensures forall x | |h.log| <= x < |history.log| :: Judged(history.log[x], running, failing)
      ensures Swept(before, lastVacuum, since, rs, k + 1, running, failing) && since <= clock
    {
      hide IsHistory, Ranking, Replay, Swept, Judged, Sweeping;
      ghost var mid := lastVacuum;
      VisitInstance(id, running, failing, h, rs, k);
      SweptNext(before, mid, lastVacuum, since, rs, k, running, failing, if clock > since then clock else since + 1);
    }

    ghost method StartSweep(rs: seq<Record>)
      requires Valid() && Ranking(lastVacuum, rs)
      modifies this`history
      ensures Valid() && Sweeping(old(history), rs, 0)
    {
      BeginSweep(history, rs);
      history := history.(starts := history.starts + [|history.log|], rankings := history.rankings + [rs]);
    }

    /** `runVacuumSweep` over the services in whatever order the database returns them. The window
        may close before any visit, an instance may be running when it is visited, and its vacuum
        or time stamp may fail. The sweep visits the ranking from its beginning until the window is
        closed, skips what runs, and vacuums the rest. */
    method RunVacuumSweep(services: seq<Id>, windowOpen: nat -> bool, running: Id -> bool, failing: Id -> bool)
      returns (visits: nat, ghost rs: seq<Record>)
      requires Valid() && Lists(lastVacuum, services)
      modifies this
      ensures Valid() && Ranking(old(lastVacuum), rs) && Sweeping(old(history), rs, visits)
      ensures (visits == |rs| || !windowOpen(visits)) && forall k | 0 <= k < visits :: windowOpen(k)
      ensures forall x | |old(history.log)| <= x < |history.log| :: Judged(history.log[x], running, failing)
      ensures visits <= |rs| && Swept(old(lastVacuum), lastVacuum, old(clock), rs, visits, running, failing)
    {
      hide IsHistory, Ranking, Replay, Judged, Swept, Sweeping;
      ghost var last, since := lastVacuum, clock;
      var a := LoadSorted(services);
      ghost var h := history;
      rs := a[..];
      StartSweep(rs);
      visits := 0;
      NothingSwept(lastVacuum, clock, rs, running, failing);
      while visits < a.Length
        invariant 0 <= visits <= a.Length && a[..] == rs
        invariant Valid() && Sweeping(h, rs, visits)
        invariant forall k | 0 <= k < visits :: windowOpen(k)
        invariant Swept(last, lastVacuum, since, rs, visits, running, failing) && since <= clock
        invariant forall x | |h.log| <= x < |history.log| :: Judged(history.log[x], running, failing)
      {
        if !windowOpen(visits) {
          break;
        }
        VisitRanked(a[visits].id, running, failing, h, rs, visits, last, since);
        visits := visits + 1;
      }
    }

    lemma RankedIsKnown(rs: seq<Record>, k: nat)
      requires Valid() && history.starts != [] && k < |rs| && rs == history.rankings[|history.starts| - 1]
      ensures rs[k].id in lastVacuum
    {
      var last := |history.starts| - 1;
      assert SweepOk(history, last);
      ReplayKeys(history.init, history.log, history.starts[last]);
    }
  }

  /** Events never add or remove instances that the ranking knows. */
  lemma {:induction false} ReplayKeys(init: map<Id, Stamp>, log: seq<Event>, n: nat)
    requires n <= |log|
    ensures Replay(init, log[..n]).Keys <= Replay(init, log).Keys
  {
    if n == |log| {
      assert log[..n] == log;
    } else {
      assert log[..|log| - 1][..n] == log[..n];
      ReplayKeys(init, log[..|log| - 1], n);
    }
  }
}
