/** Uptime, computed twice: by the SQL view (one row per service, clipped intervals between
    consecutive logs) and by the TypeScript of the dashboard (a fold over sorted logs). Both
    are related to one independent definition, the number of instants at which the service
    counted as active. Times are whole ticks of one unit. */
module Uptime {

  datatype Op = OpStart | OpWakeup | OpRestart | OpStop | OpSleep | OpOther
  datatype Log = Log(service: string, op: Op, success: bool, created: int)

  function Min(a: int, b: int): int { if a <= b then a else b }
  function Max(a: int, b: int): int { if a >= b then a else b }

  predicate Sorted(ls: seq<Log>) {
    forall i, j | 0 <= i < j < |ls| :: ls[i].created <= ls[j].created
  }

  // ---------------------------------------------------------------- counting instants

  /** How many instants of [a, b) satisfy `f`. */
  ghost function Count(f: int -> bool, a: int, b: int): nat
    decreases b - a
  {
    if a >= b then 0 else Count(f, a, b - 1) + (if f(b - 1) then 1 else 0)
  }

  lemma {:induction false} CountSplit(f: int -> bool, a: int, m: int, b: int)
    requires a <= m <= b
    ensures Count(f, a, b) == Count(f, a, m) + Count(f, m, b)
    decreases b - m
  {
    if m < b { CountSplit(f, a, m, b - 1); }
  }

  lemma {:induction false} CountSame(f: int -> bool, g: int -> bool, a: int, b: int)
    requires forall t | a <= t < b :: f(t) == g(t)
    ensures Count(f, a, b) == Count(g, a, b)
    decreases b - a
  {
    if a < b { CountSame(f, g, a, b - 1); }
  }

  lemma {:induction false} CountConstant(f: int -> bool, a: int, b: int, v: bool)
    requires a <= b && forall t | a <= t < b :: f(t) == v
    ensures Count(f, a, b) == if v then b - a else 0
    decreases b - a
  {
    if a < b { CountConstant(f, a, b - 1, v); }
  }

  lemma {:induction false} CountBound(f: int -> bool, a: int, b: int)
    requires a <= b
    ensures Count(f, a, b) <= b - a
    decreases b - a
  {
    if a < b { CountBound(f, a, b - 1); }
  }

  // ---------------------------------------------------------------- the SQL view

  predicate SqlActive(op: Op) {
    op == OpStart || op == OpWakeup || op == OpRestart
  }

  /** start_24h and start_7d: the window never begins before the service was created. */
  function WindowStart(created: int, now: int, window: nat): int {
    if now - window < created then created else now - window
  }

  /** The window: what is not older than it, nor than the service, and not in the future. */
  lemma WindowIs(created: int, now: int, window: nat, t: int)
    ensures WindowStart(created, now, window) <= t < now <==> created <= t && t + window >= now && t < now
  {}

  /** The contribution of one active interval to the sum of the view. */
  function Clipped(from: int, next: int, start: int, now: int): int {
    if next > start then Max(0, Min(next, now) - Max(from, start)) else 0
  }

  /** The sum over the active intervals, each ending where the next log begins and the last one
      at `end`. */
  function SumIntervals(ls: seq<Log>, end: int, start: int, now: int): int {
    if ls == [] then 0
    else
      var last := ls[|ls| - 1];
      SumIntervals(ls[..|ls| - 1], last.created, start, now) + (if SqlActive(last.op)
        then Clipped(last.created, end, start, now) else 0)
  }

  /** active_sec of the view: LEAD is COALESCEd to now on the last log. */
  function ActiveSec(ls: seq<Log>, start: int, now: int): int {
    SumIntervals(ls, now, start, now)
  }

  /** The last log at or before `t` is a start, a wake-up or a restart. */
  predicate SqlActiveAt(ls: seq<Log>, t: int) {
    if ls == [] then false
    else if ls[|ls| - 1].created <= t then SqlActive(ls[|ls| - 1].op)
    else SqlActiveAt(ls[..|ls| - 1], t)
  }

  lemma CountInterval(f: int -> bool, lo: int, hi: int, start: int, now: int)
    requires forall t :: f(t) == (lo <= t < hi)
    ensures Count(f, start, now) == Clipped(lo, hi, start, now)
  {
    var a, b := Max(lo, start), Min(hi, now);
    if a < b {
      CountSplit(f, start, a, now);
      CountSplit(f, a, b, now);
      CountConstant(f, start, a, false);
      CountConstant(f, a, b, true);
      CountConstant(f, b, now, false);
    } else if start < now {
      CountConstant(f, start, now, false);
    }
  }

  lemma {:induction false} CountDisjoint(f: int -> bool, g: int -> bool, h: int -> bool, a: int, b: int)
    requires forall t | a <= t < b :: !(g(t) && h(t)) && f(t) == (g(t) || h(t))
    ensures Count(f, a, b) == Count(g, a, b) + Count(h, a, b)
    decreases b - a
  {
    if a < b { CountDisjoint(f, g, h, a, b - 1); }
  }

  lemma {:induction false} SumCounts(ls: seq<Log>, end: int, start: int, now: int)
    requires Sorted(ls)
    requires ls != [] ==> end >= ls[|ls| - 1].created || end >= now
    ensures SumIntervals(ls, end, start, now) == Count(t => t < end && SqlActiveAt(ls, t), start, now)
  {
    var f := t => t < end && SqlActiveAt(ls, t);
    if ls == [] {
      if start < now { CountConstant(f, start, now, false); }
    } else {
      var front, last := ls[..|ls| - 1], ls[|ls| - 1];
      var g := t => t < last.created && SqlActiveAt(front, t);
      SumCounts(front, last.created, start, now);
      if SqlActive(last.op) {
        var h := t => last.created <= t < end;
        CountInterval(h, last.created, end, start, now);
        CountDisjoint(f, g, h, start, now);
      } else {
        CountSame(f, g, start, now);
      }
    }
  }

  /** active_sec is the number of seconds of the window whose last log, at or before them, is
      a start, a wake-up or a restart. */
  lemma ActiveSecCounts(ls: seq<Log>, start: int, now: int)
    requires Sorted(ls)
    ensures ActiveSec(ls, start, now) == Count(t => SqlActiveAt(ls, t), start, now)
  {
    SumCounts(ls, now, start, now);
    CountSame(t => t < now && SqlActiveAt(ls, t), t => SqlActiveAt(ls, t), start, now);
  }

  /** For a service created in the past, the active time lies within the window; so the
      percentage is at most 100 before the view caps it, and the inactive time is not
      negative. */
  lemma CapNeverBinds(ls: seq<Log>, created: int, now: int, window: nat)
    requires Sorted(ls) && created <= now
    ensures var start := WindowStart(created, now, window);
            var active := ActiveSec(ls, start, now);
            && 0 <= active <= now - start
            && (active as real) * 100.0 / (Max(1, now - start) as real) <= 100.0
  {
    var start := WindowStart(created, now, window);
    var active := ActiveSec(ls, start, now);
    ActiveSecCounts(ls, start, now);
    CountBound(t => SqlActiveAt(ls, t), start, now);
    RatioBound((active as real) * 100.0, Max(1, now - start) as real);
  }

  lemma RatioBound(x: real, y: real)
    requires y > 0.0 && x <= 100.0 * y
    ensures x / y <= 100.0
  {
    assert x / y * y == x;
  }

  /** A service created in the future gets no active time at all. */
  lemma CreatedInTheFuture(ls: seq<Log>, created: int, now: int, window: nat)
    requires Sorted(ls) && now < created
    ensures ActiveSec(ls, WindowStart(created, now, window), now) == 0
  {
    ActiveSecCounts(ls, WindowStart(created, now, window), now);
  }

  /** The difference between the two windows of a row is the active time between their starts. */
  lemma SqlWindowsSplit(ls: seq<Log>, created: int, now: int, short: nat, long: nat)
    requires Sorted(ls) && created <= now && short <= long
    ensures var s, l := WindowStart(created, now, short), WindowStart(created, now, long);
            && l <= s <= now
            && ActiveSec(ls, l, now) - ActiveSec(ls, s, now) == Count(t => SqlActiveAt(ls, t), l, s) <= s - l
  {
    var s, l := WindowStart(created, now, short), WindowStart(created, now, long);
    ActiveSecCounts(ls, s, now);
    ActiveSecCounts(ls, l, now);
    CountSplit(t => SqlActiveAt(ls, t), l, s, now);
    CountBound(t => SqlActiveAt(ls, t), l, s);
  }

  // ---------------------------------------------------------------- the TypeScript fold

  predicate TurnsOn(op: Op) { op == OpStart || op == OpWakeup }

  predicate TurnsOff(op: Op) { op == OpStop || op == OpSleep }

  function Next(active: bool, op: Op): bool {
    if TurnsOn(op) then true else if TurnsOff(op) then false else active
  }

  /** The logs before `start`; the rest of a sorted sequence is the window. */
  function Before(ls: seq<Log>, start: int): (n: nat)
    ensures n <= |ls|
    ensures forall i | 0 <= i < n :: ls[i].created < start
    ensures n < |ls| ==> ls[n].created >= start
  {
    if ls == [] || ls[0].created >= start then 0 else 1 + Before(ls[1..], start)
  }

  /** The inferred state at the beginning of the window. */
  function InitialState(ls: seq<Log>, start: int): bool {
    var n := Before(ls, start);
    if n > 0 then TurnsOn(ls[n - 1].op)
    else n < |ls| && TurnsOff(ls[n].op)
  }

  /** The state at instant `t`, after the logs of the window up to `t`. */
  predicate StateAt(initial: bool, window: seq<Log>, t: int) {
    if window == [] then initial
    else
      var front, last := window[..|window| - 1], window[|window| - 1];
      if last.created <= t then Next(StateAt(initial, front, t), last.op) else StateAt(initial, front, t)
  }

  predicate TsActiveAt(ls: seq<Log>, start: int, t: int) {
    StateAt(InitialState(ls, start), ls[Before(ls, start)..], t)
  }

  /** The state after all logs of the window. */
  function FinalState(initial: bool, window: seq<Log>): bool {
    if window == [] then initial else Next(FinalState(initial, window[..|window| - 1]), window[|window| - 1].op)
  }

  /** Instants from `from` on see every log, if none is later. */
  lemma {:induction false} StateIsFinal(initial: bool, window: seq<Log>, t: int)
    requires forall i | 0 <= i < |window| :: window[i].created <= t
    ensures StateAt(initial, window, t) == FinalState(initial, window)
  {
    if window != [] { StateIsFinal(initial, window[..|window| - 1], t); }
  }

  datatype UptimeStat = UptimeStat(percent: real, activeMs: int, inactiveMs: int)

  const MS_PER_DAY := 24 * 60 * 60 * 1000

  /** Between two consecutive logs the state is the one after the first `k` logs. */
  lemma {:induction false} StateBetween(initial: bool, window: seq<Log>, k: nat, t: int)
    requires Sorted(window) && k <= |window|
    requires k > 0 ==> window[k - 1].created <= t
    requires k < |window| ==> t < window[k].created
    ensures StateAt(initial, window, t) == FinalState(initial, window[..k])
  {
    if k == |window| {
      assert window[..k] == window;
      StateIsFinal(initial, window, t);
    } else {
      var front := window[..|window| - 1];
      assert front[..k] == window[..k];
      StateBetween(initial, front, k, t);
    }
  }

  /** The instants of [a, b) at which the dashboard takes the service to be active. */
  ghost function TsCount(logs: seq<Log>, start: int, a: int, b: int): nat {
    Count(t => TsActiveAt(logs, start, t), a, b)
  }

  predicate ExactShare(percent: real, active: int, span: int) {
    percent * (span as real) == 100.0 * (active as real)
  }

  /** The percentage that `active` is of `span`, clamped at both ends. */
  predicate ShareOf(percent: real, active: int, span: int) {
    && (0 <= active <= span ==> ExactShare(percent, active, span))
    && (active < 0 ==> percent == 0.0)
    && (active > span ==> percent == 100.0)
  }

  /** The share of the window; the clamp is idle when the active time lies within it. */
  method Percent(active: int, span: int) returns (percent: real)
    requires span > 0
    ensures 0.0 <= percent <= 100.0
    ensures ShareOf(percent, active, span)
  {
    var x, y := active as real, span as real;
    var ratio := x / y * 100.0;
    assert x / y * y == x;
    if active > span {
      assert x / y > 1.0;
    }
    percent := if ratio < 0.0 then 0.0 else if ratio > 100.0 then 100.0 else ratio;
  }

  /** Between two moments with a constant state the count grows by their distance, or not at all. */
  lemma CountWhile(logs: seq<Log>, start: int, from: int, to: int, active: bool)
    requires start <= from <= to
    requires forall t | from <= t < to :: TsActiveAt(logs, start, t) == active
    ensures TsCount(logs, start, start, to) == TsCount(logs, start, start, from) + (if active then to - from else 0)
  {
    hide TsActiveAt, Count;
    var f := t => TsActiveAt(logs, start, t);
    CountSplit(f, start, from, to);
    CountConstant(f, from, to, active);
  }

  lemma FinalNext(initial: bool, window: seq<Log>, k: nat)
    requires k < |window|
    ensures FinalState(initial, window[..k + 1]) == Next(FinalState(initial, window[..k]), window[k].op)
  {
    assert window[..k + 1][..k] == window[..k];
  }

  /** The state after the logs before index `i`. */
  function Folded(logs: seq<Log>, start: int, i: nat): bool
    requires Before(logs, start) <= i <= |logs|
  {
    FinalState(InitialState(logs, start), logs[Before(logs, start)..][..i - Before(logs, start)])
  }

  lemma FoldEnds(logs: seq<Log>, start: int)
    ensures Folded(logs, start, Before(logs, start)) == InitialState(logs, start)
    ensures Folded(logs, start, |logs|) == FinalState(InitialState(logs, start), logs[Before(logs, start)..])
    ensures TsCount(logs, start, start, start) == 0
  {
    var window := logs[Before(logs, start)..];
    assert window[..0] == [] && window[..|window|] == window;
  }

  /** One iteration of the fold: the time since the last log counts if the state was active. */
  lemma FoldStep(logs: seq<Log>, start: int, i: nat, lastTime: int)
    requires Sorted(logs) && Before(logs, start) <= i < |logs|
    requires lastTime == if i == Before(logs, start) then start else logs[i - 1].created
    ensures start <= lastTime <= logs[i].created
    ensures Folded(logs, start, i + 1) == Next(Folded(logs, start, i), logs[i].op)
    ensures TsCount(logs, start, start, logs[i].created)
         == TsCount(logs, start, start, lastTime) + (if Folded(logs, start, i) then logs[i].created - lastTime else 0)
  {
    hide FinalState, StateAt, InitialState, TsCount, Before;
    var n, initial := Before(logs, start), InitialState(logs, start);
    var window, k := logs[n..], i - n;
    FinalNext(initial, window, k);
    forall t | lastTime <= t < logs[i].created ensures TsActiveAt(logs, start, t) == FinalState(initial, window[..k]) {
      StateBetween(initial, window, k, t);
    }
    CountWhile(logs, start, lastTime, logs[i].created, FinalState(initial, window[..k]));
  }

  /** `calculateForDays`, given the successful logs in time order. An absent creation time is
      any time before the window. */
  method CalculateForDays(logs: seq<Log>, days: nat, now: int, created: int) returns (stat: UptimeStat)
    requires Sorted(logs)
    ensures var start := WindowStart(created, now, days * MS_PER_DAY);
            if start >= now then stat == UptimeStat(100.0, 0, 0)
            else
              && stat.activeMs == TsActiveMs(logs, start, now) && stat.inactiveMs == (now - start) - stat.activeMs
              && ShareOf(stat.percent, stat.activeMs, now - start)
    ensures 0.0 <= stat.percent <= 100.0
  {
    var start := now - days * MS_PER_DAY;
    if created > start {
      start := created;
    }
    var msInPeriod := now - start;
    if msInPeriod <= 0 {
      return UptimeStat(100.0, 0, 0);
    }
    var total := ActiveTime(logs, start, now);
    var percent := Percent(total, msInPeriod);
    hide ShareOf, TsActiveMs;
    stat := UptimeStat(percent, total, msInPeriod - total);
  }

  /** The loop over the logs of the window, and the time after the last of them. */
  method ActiveTime(logs: seq<Log>, start: int, now: int) returns (total: int)
    requires Sorted(logs)
    ensures total == TsActiveMs(logs, start, now)
  {
    FoldEnds(logs, start);
    hide TsCount, StateAt, Before, InitialState, FinalState, Folded;
    var n := Before(logs, start);
    var active := InitialState(logs, start);
    var lastTime := start;
    total := 0;
    for i := n to |logs|
      invariant active == Folded(logs, start, i)
      invariant lastTime == if i == n then start else logs[i - 1].created
      invariant total == TsCount(logs, start, start, lastTime)
    {
      FoldStep(logs, start, i, lastTime);
      var logTime := logs[i].created;
      if active {
        total := total + (logTime - lastTime);
      }
      if TurnsOn(logs[i].op) {
        active := true;
      } else if TurnsOff(logs[i].op) {
        active := false;
      }
      lastTime := logTime;
    }
    if active {
      total := total + (now - lastTime);
    }
  }

  predicate NoneLater(ls: seq<Log>, now: int) {
    forall i | 0 <= i < |ls| :: ls[i].created <= now
  }

  /** The time of the last log of the window, or its start. */
  function LastTime(logs: seq<Log>, start: int): int {
    if Before(logs, start) == |logs| then start else logs[|logs| - 1].created
  }

  /** What the fold adds up to for any logs: the active instants up to the last log of the
      window, and the signed time from there to now if the last state is active. */
  ghost function TsActiveMs(logs: seq<Log>, start: int, now: int): int {
    var last := LastTime(logs, start);
    TsCount(logs, start, start, last) + (if FinalState(InitialState(logs, start), logs[Before(logs, start)..])
      then now - last else 0)
  }

  // ---------------------------------------------------------------- the two against each other

  /** Only starts, wake-ups, stops and sleeps, none of them in the future. */
  predicate Plain(ls: seq<Log>, now: int) {
    && Sorted(ls)
    && forall i | 0 <= i < |ls| ::
         && ls[i].created <= now
         && (ls[i].op == OpStart || ls[i].op == OpWakeup || ls[i].op == OpStop || ls[i].op == OpSleep)
  }

  /** With no log in the future, the fold counts the active instants of the window, whatever
      the operations are. */
  lemma TsActiveCounts(ls: seq<Log>, start: int, now: int)
    requires Sorted(ls) && start <= now && NoneLater(ls, now)
    ensures TsActiveMs(ls, start, now) == TsCount(ls, start, start, now)
    ensures 0 <= TsActiveMs(ls, start, now) <= now - start
  {
    var f := t => TsActiveAt(ls, start, t);
    var n, last := Before(ls, start), LastTime(ls, start);
    forall t | last <= t < now ensures f(t) == FinalState(InitialState(ls, start), ls[n..]) {
      StateIsFinal(InitialState(ls, start), ls[n..], t);
    }
    CountSplit(f, start, last, now);
    CountConstant(f, last, now, FinalState(InitialState(ls, start), ls[n..]));
    CountBound(f, start, now);
  }

  /** The state of a plain log at any instant, whatever the window: the last log decides, and
      before the first log the opposite of what it does. */
  predicate PlainActiveAt(ls: seq<Log>, t: int) {
    ls != [] && if ls[0].created <= t then SqlActiveAt(ls, t) else TurnsOff(ls[0].op)
  }

  lemma {:induction false} LaterLogsDoNotMatter(ls: seq<Log>, m: nat, t: int)
    requires m <= |ls| && forall i | m <= i < |ls| :: ls[i].created > t
    ensures SqlActiveAt(ls, t) == SqlActiveAt(ls[..m], t)
  {
    if m == |ls| {
      assert ls[..m] == ls;
    } else {
      var front := ls[..|ls| - 1];
      assert front[..m] == ls[..m];
      LaterLogsDoNotMatter(front, m, t);
    }
  }

  lemma {:induction false} WindowState(ls: seq<Log>, n: nat, m: nat, initial: bool, t: int, now: int)
    requires Plain(ls, now) && n <= m <= |ls|
    ensures StateAt(initial, ls[n..m], t) == if n < m && ls[n].created <= t then SqlActiveAt(ls[..m], t) else initial
  {
    if n < m {
      assert ls[n..m][..m - 1 - n] == ls[n..m - 1] && ls[..m][..m - 1] == ls[..m - 1];
      WindowState(ls, n, m - 1, initial, t, now);
    }
  }

  /** The inferred initial state agrees with what a longer window would have computed. */
  lemma TsStateIsPlain(ls: seq<Log>, start: int, t: int, now: int)
    requires Plain(ls, now) && start <= t
    ensures TsActiveAt(ls, start, t) == PlainActiveAt(ls, t)
  {
    var n := Before(ls, start);
    assert ls[n..|ls|] == ls[n..] && ls[..|ls|] == ls;
    WindowState(ls, n, |ls|, InitialState(ls, start), t, now);
    if n > 0 && !(n < |ls| && ls[n].created <= t) {
      LaterLogsDoNotMatter(ls, n, t);
      assert ls[..n][|ls[..n]| - 1] == ls[n - 1];
    }
  }

  /** What the dashboard adds to the view: the time before the first log of all, when that log
      lies in the window and is a stop or a sleep. */
  function Inferred(ls: seq<Log>, start: int): int {
    if ls != [] && ls[0].created >= start && (ls[0].op == OpStop || ls[0].op == OpSleep)
    then ls[0].created - start else 0
  }

  /** On plain logs the dashboard's active time is the view's, plus the inferred time. */
  lemma DashboardAgainstView(ls: seq<Log>, start: int, now: int)
    requires Plain(ls, now) && start <= now
    ensures TsActiveMs(ls, start, now) == ActiveSec(ls, start, now) + Inferred(ls, start)
  {
    var f, g := t => TsActiveAt(ls, start, t), t => SqlActiveAt(ls, t);
    TsActiveCounts(ls, start, now);
    ActiveSecCounts(ls, start, now);
    forall t | start <= t < now ensures f(t) == PlainActiveAt(ls, t) { TsStateIsPlain(ls, start, t, now); }
    if ls != [] && ls[0].created >= start {
      var c := ls[0].created;
      CountSplit(f, start, c, now);
      CountSplit(g, start, c, now);
      CountSame(f, g, c, now);
      CountConstant(f, start, c, TurnsOff(ls[0].op));
      forall t | start <= t < c ensures !g(t) { LaterLogsDoNotMatter(ls, 0, t); }
      CountConstant(g, start, c, false);
    } else {
      forall t | start <= t < now ensures f(t) == g(t) { if ls == [] { assert !PlainActiveAt(ls, t); } }
      CountSame(f, g, start, now);
    }
  }

  /** The dashboard's windows split like the view's. */
  lemma DashboardWindowsSplit(ls: seq<Log>, long: int, short: int, now: int)
    requires Plain(ls, now) && long <= short <= now
    ensures TsActiveMs(ls, long, now) - TsActiveMs(ls, short, now) == Count(t => PlainActiveAt(ls, t), long,
        short) <= short - long
  {
    var h := t => PlainActiveAt(ls, t);
    forall start | start == long || start == short ensures TsActiveMs(ls, start, now) == Count(h, start, now) {
      TsActiveCounts(ls, start, now);
      forall t | start <= t < now ensures TsActiveAt(ls, start, t) == h(t) { TsStateIsPlain(ls, start, t, now); }
      CountSame(t => TsActiveAt(ls, start, t), h, start, now);
    }
    CountSplit(h, long, short, now);
    CountBound(h, long, short);
  }

  // ---------------------------------------------------------------- the difference, for all logs

  /** On any logs, none of them in the future, the two differ by the instants at which only one of
      them takes the service to be active. */
  lemma DifferenceCounts(ls: seq<Log>, start: int, now: int)
    requires Sorted(ls) && start <= now && NoneLater(ls, now)
    ensures TsActiveMs(ls, start, now) - ActiveSec(ls, start, now)
         == Count(t => TsActiveAt(ls, start, t) && !SqlActiveAt(ls, t), start, now)
            - Count(t => SqlActiveAt(ls, t) && !TsActiveAt(ls, start, t), start, now)
  {
    TsActiveCounts(ls, start, now);
    ActiveSecCounts(ls, start, now);
    hide TsActiveAt, SqlActiveAt, TsActiveMs, ActiveSec;
    var f, g := t => TsActiveAt(ls, start, t), t => SqlActiveAt(ls, t);
    var both := t => TsActiveAt(ls, start, t) && SqlActiveAt(ls, t);
    CountDisjoint(f, t => TsActiveAt(ls, start, t) && !SqlActiveAt(ls, t), both, start, now);
    CountDisjoint(g, t => SqlActiveAt(ls, t) && !TsActiveAt(ls, start, t), both, start, now);
  }

  /** When log `i` stops being the last one. */
  function NextTime(ls: seq<Log>, i: nat, now: int): int
    requires i < |ls|
  {
    if i + 1 < |ls| then ls[i + 1].created else now
  }

  /** The time after log `i` of the window counts for the dashboard and not for the view, or the
      other way round. */
  function Weight(ls: seq<Log>, start: int, i: nat, now: int): int
    requires Before(ls, start) <= i < |ls|
  {
    var on, length := Folded(ls, start, i + 1), NextTime(ls, i, now) - ls[i].created;
    if on && !SqlActive(ls[i].op) then length else if !on && SqlActive(ls[i].op) then -length else 0
  }

  /** The weights of the logs of the window before index `n`. */
  function Weights(ls: seq<Log>, start: int, n: nat, now: int): int
    requires Before(ls, start) <= n <= |ls|
    decreases n
  {
    if n == Before(ls, start) then 0 else Weights(ls, start, n - 1, now) + Weight(ls, start, n - 1, now)
  }

  /** The time of the window before its first log. */
  function Opening(ls: seq<Log>, start: int, now: int): int {
    (if Before(ls, start) < |ls| then ls[Before(ls, start)].created else now) - start
  }

  /** The same for the time before the first log of the window: the dashboard may infer that the
      service was active, and takes no notice of a restart. */
  function OpeningWeight(ls: seq<Log>, start: int, now: int): int {
    var n := Before(ls, start);
    var sql := n > 0 && SqlActive(ls[n - 1].op);
    if InitialState(ls, start) && !sql then Opening(ls, start, now)
    else if !InitialState(ls, start) && sql then -Opening(ls, start, now)
    else 0
  }

  /** Until the next log the view goes by the last one. */
  lemma SqlBetween(ls: seq<Log>, k: nat, t: int)
    requires Sorted(ls) && k <= |ls|
    requires k > 0 ==> ls[k - 1].created <= t
    requires k < |ls| ==> t < ls[k].created
    ensures SqlActiveAt(ls, t) == (k > 0 && SqlActive(ls[k - 1].op))
  {
    LaterLogsDoNotMatter(ls, k, t);
  }

  /** The instants of [a, b) at which the view takes the service to be active. */
  ghost function SqlCount(ls: seq<Log>, a: int, b: int): nat {
    Count(t => SqlActiveAt(ls, t), a, b)
  }

  lemma SqlCountWhile(ls: seq<Log>, start: int, from: int, to: int, active: bool)
    requires start <= from <= to
    requires forall t | from <= t < to :: SqlActiveAt(ls, t) == active
    ensures SqlCount(ls, start, to) == SqlCount(ls, start, from) + (if active then to - from else 0)
  {
    hide SqlActiveAt, Count;
    var f := t => SqlActiveAt(ls, t);
    CountSplit(f, start, from, to);
    CountConstant(f, from, to, active);
  }

  /** The time at which the part of the window with `n` logs ends. */
  function EndTime(ls: seq<Log>, n: nat, now: int): int
    requires n <= |ls|
  {
    if n < |ls| then ls[n].created else now
  }

  /** One stretch without a log, in both accounts. */
  lemma Stretch(ls: seq<Log>, start: int, n: nat, from: int, now: int)
    requires Sorted(ls) && Before(ls, start) <= n <= |ls|
    requires from == if n == Before(ls, start) then start else ls[n - 1].created
    requires start <= from <= EndTime(ls, n, now)
    ensures var to := EndTime(ls, n, now);
            && TsCount(ls, start, start, to)
               == TsCount(ls, start, start, from) + (if Folded(ls, start, n) then to - from else 0)
            && SqlCount(ls, start, to)
               == SqlCount(ls, start, from) + (if n > 0 && SqlActive(ls[n - 1].op) then to - from else 0)
  {
    hide TsCount, SqlCount, FinalState, StateAt, InitialState, SqlActiveAt;
    var b, to := Before(ls, start), EndTime(ls, n, now);
    forall t | from <= t < to ensures TsActiveAt(ls, start, t) == Folded(ls, start, n) {
      StateBetween(InitialState(ls, start), ls[b..], n - b, t);
    }
    CountWhile(ls, start, from, to, Folded(ls, start, n));
    forall t | from <= t < to ensures SqlActiveAt(ls, t) == (n > 0 && SqlActive(ls[n - 1].op)) {
      SqlBetween(ls, n, t);
    }
    SqlCountWhile(ls, start, from, to, n > 0 && SqlActive(ls[n - 1].op));
  }

  lemma FromInWindow(ls: seq<Log>, start: int, n: nat, now: int)
    requires Sorted(ls) && Before(ls, start) < n <= |ls| && NoneLater(ls, now)
    ensures start <= ls[n - 1].created <= EndTime(ls, n, now)
  {}

  lemma WeightIsDifference(ls: seq<Log>, start: int, i: nat, now: int)
    requires Before(ls, start) <= i < |ls|
    ensures var length := EndTime(ls, i + 1, now) - ls[i].created;
            Weight(ls, start, i, now)
            == (if Folded(ls, start, i + 1) then length else 0) - (if SqlActive(ls[i].op) then length else 0)
  {
    hide Folded, Before;
  }

  lemma DifferenceOfOpening(ls: seq<Log>, start: int, now: int)
    requires Sorted(ls) && start <= now && NoneLater(ls, now)
    ensures var to := EndTime(ls, Before(ls, start), now);
            TsCount(ls, start, start, to) - SqlCount(ls, start, to) == OpeningWeight(ls, start, now)
  {
    FoldEnds(ls, start);
    assert SqlCount(ls, start, start) == 0;
    hide TsCount, SqlCount, InitialState, Folded, Before;
    Stretch(ls, start, Before(ls, start), start, now);
  }

  lemma {:induction false} DifferenceUpTo(ls: seq<Log>, start: int, n: nat, now: int)
    requires Sorted(ls) && start <= now && Before(ls, start) <= n <= |ls|
    requires NoneLater(ls, now)
    ensures var to := EndTime(ls, n, now);
            TsCount(ls, start, start, to) - SqlCount(ls, start, to)
            == OpeningWeight(ls, start, now) + Weights(ls, start, n, now)
    decreases n
  {
    hide TsCount, SqlCount, InitialState, Folded, Weight, OpeningWeight, Before, NextTime, Sorted;
    if n == Before(ls, start) {
      DifferenceOfOpening(ls, start, now);
    } else {
      DifferenceUpTo(ls, start, n - 1, now);
      FromInWindow(ls, start, n, now);
      Stretch(ls, start, n, ls[n - 1].created, now);
      WeightIsDifference(ls, start, n - 1, now);
    }
  }

  /** The difference of the two, exactly, for any logs none of which is in the future: what each log of
      the window makes one of them count and not the other, and the time before the first of them. */
  lemma DifferenceByLog(ls: seq<Log>, start: int, now: int)
    requires Sorted(ls) && start <= now && NoneLater(ls, now)
    ensures TsActiveMs(ls, start, now) - ActiveSec(ls, start, now)
         == OpeningWeight(ls, start, now) + Weights(ls, start, |ls|, now)
  {
    TsActiveCounts(ls, start, now);
    ActiveSecCounts(ls, start, now);
    DifferenceUpTo(ls, start, |ls|, now);
  }

  predicate NoOther(ls: seq<Log>) {
    forall i | 0 <= i < |ls| :: ls[i].op != OpOther
  }

  predicate NoRestart(ls: seq<Log>) {
    forall i | 0 <= i < |ls| :: ls[i].op != OpRestart
  }

  /** Some operation other than the four is logged while the fold is on, with time after it. */
  predicate OtherWhileOn(ls: seq<Log>, start: int, i: nat, now: int)
    requires Before(ls, start) <= i < |ls|
  {
    ls[i].op == OpOther && Folded(ls, start, i) && ls[i].created < NextTime(ls, i, now)
  }

  /** A restart is logged while the fold is off, with time after it. */
  predicate RestartWhileOff(ls: seq<Log>, start: int, i: nat, now: int)
    requires Before(ls, start) <= i < |ls|
  {
    ls[i].op == OpRestart && !Folded(ls, start, i) && ls[i].created < NextTime(ls, i, now)
  }

  /** What one log does to the fold. */
  lemma FoldedNext(ls: seq<Log>, start: int, i: nat)
    requires Before(ls, start) <= i < |ls|
    ensures Folded(ls, start, i + 1) == Next(Folded(ls, start, i), ls[i].op)
  {
    hide FinalState, InitialState;
    FinalNext(InitialState(ls, start), ls[Before(ls, start)..], i - Before(ls, start));
  }

  /** Which way a log of the window tips the balance. */
  lemma WeightSign(ls: seq<Log>, start: int, i: nat, now: int)
    requires Sorted(ls) && Before(ls, start) <= i < |ls| && NoneLater(ls, now)
    ensures Weight(ls, start, i, now) > 0 <==> OtherWhileOn(ls, start, i, now)
    ensures Weight(ls, start, i, now) < 0 <==> RestartWhileOff(ls, start, i, now)
  {
    hide Folded, Before;
    FoldedNext(ls, start, i);
  }

  lemma {:induction false} WeightsWithoutRestart(ls: seq<Log>, start: int, n: nat, now: int)
    requires Sorted(ls) && Before(ls, start) <= n <= |ls| && NoneLater(ls, now) && NoRestart(ls)
    ensures Weights(ls, start, n, now) >= 0
    ensures Weights(ls, start, n, now) == 0 <==>
              forall i | Before(ls, start) <= i < n :: !OtherWhileOn(ls, start, i, now)
    decreases n
  {
    hide Weight, OtherWhileOn, RestartWhileOff, Before, Sorted, NoneLater;
    if n > Before(ls, start) {
      WeightsWithoutRestart(ls, start, n - 1, now);
      WeightSign(ls, start, n - 1, now);
      assert !RestartWhileOff(ls, start, n - 1, now) by { NotRestart(ls, start, n - 1, now); }
    }
  }

  lemma NotRestart(ls: seq<Log>, start: int, i: nat, now: int)
    requires Before(ls, start) <= i < |ls| && ls[i].op != OpRestart
    ensures !RestartWhileOff(ls, start, i, now)
  {}

  lemma NotOther(ls: seq<Log>, start: int, i: nat, now: int)
    requires Before(ls, start) <= i < |ls| && ls[i].op != OpOther
    ensures !OtherWhileOn(ls, start, i, now)
  {}

  lemma {:induction false} WeightsWithoutOther(ls: seq<Log>, start: int, n: nat, now: int)
    requires Sorted(ls) && Before(ls, start) <= n <= |ls| && NoneLater(ls, now) && NoOther(ls)
    ensures Weights(ls, start, n, now) <= 0
    ensures Weights(ls, start, n, now) == 0 <==>
              forall i | Before(ls, start) <= i < n :: !RestartWhileOff(ls, start, i, now)
    decreases n
  {
    hide Weight, OtherWhileOn, RestartWhileOff, Before, Sorted, NoneLater;
    if n > Before(ls, start) {
      WeightsWithoutOther(ls, start, n - 1, now);
      WeightSign(ls, start, n - 1, now);
      assert !OtherWhileOn(ls, start, n - 1, now) by { NotOther(ls, start, n - 1, now); }
    }
  }

  /** Without restarts the dashboard never shows less than the view. The two agree if and only if
      nothing is inferred before the first log and no other operation is logged while the fold is on,
      with time after it. */
  lemma AgreeWithoutRestart(ls: seq<Log>, start: int, now: int)
    requires Sorted(ls) && start <= now && NoRestart(ls) && NoneLater(ls, now)
    ensures TsActiveMs(ls, start, now) >= ActiveSec(ls, start, now)
    ensures TsActiveMs(ls, start, now) == ActiveSec(ls, start, now) <==>
              && Inferred(ls, start) == 0
              && forall i | Before(ls, start) <= i < |ls| :: !OtherWhileOn(ls, start, i, now)
  {
    assert OpeningWeight(ls, start, now) == Inferred(ls, start) >= 0;
    hide TsActiveMs, ActiveSec, OpeningWeight, Weights, OtherWhileOn, Sorted, NoRestart, Inferred;
    DifferenceByLog(ls, start, now);
    WeightsWithoutRestart(ls, start, |ls|, now);
  }

  lemma OpeningWithRestart(ls: seq<Log>, start: int, now: int)
    requires start <= now && NoneLater(ls, now) && NoOther(ls) && Inferred(ls, start) == 0
    ensures var n := Before(ls, start);
            && OpeningWeight(ls, start, now) <= 0
            && (OpeningWeight(ls, start, now) == 0 <==>
                  (n > 0 && ls[n - 1].op == OpRestart ==> Opening(ls, start, now) == 0))
  {}

  /** With restarts and without any further operation it never shows more, once nothing is inferred.
      The two agree if and only if no restart is logged while the fold is off, with time after it, and
      the last log before the window is not a restart, unless the window begins with a log. */
  lemma AgreeWithRestart(ls: seq<Log>, start: int, now: int)
    requires Sorted(ls) && start <= now && NoneLater(ls, now) && NoOther(ls) && Inferred(ls, start) == 0
    ensures TsActiveMs(ls, start, now) <= ActiveSec(ls, start, now)
    ensures TsActiveMs(ls, start, now) == ActiveSec(ls, start, now) <==>
              && (var n := Before(ls, start); n > 0 && ls[n - 1].op == OpRestart ==> Opening(ls, start, now) == 0)
              && forall i | Before(ls, start) <= i < |ls| :: !RestartWhileOff(ls, start, i, now)
  {
    OpeningWithRestart(ls, start, now);
    hide TsActiveMs, ActiveSec, OpeningWeight, Weights, RestartWhileOff, Sorted, NoOther, Inferred, Opening, Before;
    DifferenceByLog(ls, start, now);
    WeightsWithoutOther(ls, start, |ls|, now);
  }

  /** With logs in the future as well, the fold counts the active instants of the window, and is off by
      what the state does between now and the last log: too little by the inactive instants if the
      last state is on, too much by the active ones if it is off. */
  lemma FutureLogs(ls: seq<Log>, start: int, now: int)
    requires Sorted(ls) && start <= now
    ensures var last, final := LastTime(ls, start), FinalState(InitialState(ls, start), ls[Before(ls, start)..]);
            TsActiveMs(ls, start, now)
            == TsCount(ls, start, start, now)
               + (if last <= now then 0
                  else if final then 0 - Count(t => !TsActiveAt(ls, start, t), now, last)
                  else TsCount(ls, start, now, last))
  {
    var last := LastTime(ls, start);
    if last <= now {
      TsActiveCounts(ls, start, now);
    } else {
      hide TsActiveAt, Before, FinalState, InitialState;
      var f, g := t => TsActiveAt(ls, start, t), t => !TsActiveAt(ls, start, t);
      CountSplit(f, start, now, last);
      CountDisjoint(_ => true, f, g, now, last);
      CountConstant(_ => true, now, last, true);
    }
  }

  // ---------------------------------------------------------------- which logs, in which order

  /** The successful logs of one service, in table order. */
  function Select(table: seq<Log>, service: string): seq<Log> {
    if table == [] then []
    else (if table[0].success && table[0].service == service then [table[0]] else []) + Select(table[1..], service)
  }

  /** Exactly the successful logs of the service are selected, each as often as the table has it. */
  lemma {:induction false} SelectIsFilter(table: seq<Log>, service: string, l: Log)
    ensures multiset(Select(table, service))[l]
         == if l.success && l.service == service then multiset(table)[l] else 0
  {
    if table != [] {
      assert table == [table[0]] + table[1..];
      SelectIsFilter(table[1..], service, l);
    }
  }

  /** The view may read the rows of a partition in any order that is sorted by time. */
  ghost predicate RowOrder(table: seq<Log>, service: string, ls: seq<Log>) {
    Sorted(ls) && multiset(ls) == multiset(Select(table, service))
  }

  /** The stable sort of the dashboard, one insertion. */
  function Insert(ls: seq<Log>, l: Log): (r: seq<Log>) {
    if ls == [] || ls[|ls| - 1].created <= l.created then ls + [l]
    else Insert(ls[..|ls| - 1], l) + [ls[|ls| - 1]]
  }

  function SortByTime(ls: seq<Log>): (r: seq<Log>) {
    if ls == [] then [] else Insert(SortByTime(ls[..|ls| - 1]), ls[|ls| - 1])
  }

  lemma SortedSnoc(r: seq<Log>, l: Log)
    requires Sorted(r) && (r != [] ==> r[|r| - 1].created <= l.created)
    ensures Sorted(r + [l])
  {
    forall i, j | 0 <= i < j < |r + [l]| ensures (r + [l])[i].created <= (r + [l])[j].created {
      if i < |r| { assert r[i].created <= r[|r| - 1].created; }
    }
  }

  lemma {:induction false} InsertSorts(ls: seq<Log>, l: Log)
    requires Sorted(ls)
    ensures var r := Insert(ls, l);
            Sorted(r) && r != [] && r[|r| - 1].created == (if ls == [] then l.created
              else Max(ls[|ls| - 1].created, l.created))
  {
    if ls == [] || ls[|ls| - 1].created <= l.created {
      SortedSnoc(ls, l);
    } else {
      InsertSorts(ls[..|ls| - 1], l);
      SortedSnoc(Insert(ls[..|ls| - 1], l), ls[|ls| - 1]);
    }
  }

  lemma {:induction false} InsertKeeps(ls: seq<Log>, l: Log)
    ensures multiset(Insert(ls, l)) == multiset(ls) + multiset{l}
  {
    if ls != [] && ls[|ls| - 1].created > l.created {
      assert ls == ls[..|ls| - 1] + [ls[|ls| - 1]];
      InsertKeeps(ls[..|ls| - 1], l);
    }
  }

  lemma {:induction false} SortSorts(ls: seq<Log>)
    ensures Sorted(SortByTime(ls)) && multiset(SortByTime(ls)) == multiset(ls)
  {
    if ls != [] {
      assert ls == ls[..|ls| - 1] + [ls[|ls| - 1]];
      SortSorts(ls[..|ls| - 1]);
      InsertSorts(SortByTime(ls[..|ls| - 1]), ls[|ls| - 1]);
      InsertKeeps(SortByTime(ls[..|ls| - 1]), ls[|ls| - 1]);
    }
  }

  /** The logs of one moment, in their order. */
  function AtTime(ls: seq<Log>, t: int): seq<Log> {
    if ls == [] then []
    else AtTime(ls[..|ls| - 1], t) + if ls[|ls| - 1].created == t then [ls[|ls| - 1]] else []
  }

  lemma AtTimeSnoc(ls: seq<Log>, l: Log, t: int)
    ensures AtTime(ls + [l], t) == AtTime(ls, t) + if l.created == t then [l] else []
  {
    assert (ls + [l])[..|ls|] == ls;
  }

  lemma {:induction false} InsertStable(ls: seq<Log>, l: Log, t: int)
    requires Sorted(ls)
    ensures AtTime(Insert(ls, l), t) == AtTime(ls, t) + if l.created == t then [l] else []
  {
    if ls == [] || ls[|ls| - 1].created <= l.created {
      AtTimeSnoc(ls, l, t);
    } else {
      var front, last := ls[..|ls| - 1], ls[|ls| - 1];
      assert ls == front + [last];
      InsertStable(front, l, t);
      hide AtTime, Sorted;
      AtTimeSnoc(Insert(front, l), last, t);
      AtTimeSnoc(front, last, t);
    }
  }

  /** The sort is stable: logs of the same moment stay in the order of the table. */
  lemma {:induction false} SortIsStable(ls: seq<Log>, t: int)
    ensures AtTime(SortByTime(ls), t) == AtTime(ls, t)
  {
    if ls != [] {
      SortIsStable(ls[..|ls| - 1], t);
      SortSorts(ls[..|ls| - 1]);
      InsertStable(SortByTime(ls[..|ls| - 1]), ls[|ls| - 1], t);
    }
  }

  /** `calculateForDays`, on plain logs of a service created in the past: the view's active
      time plus the inferred time. */
  method CalculatePlain(logs: seq<Log>, days: nat, now: int, created: int) returns (stat: UptimeStat)
    requires Sorted(logs)
    ensures Plain(logs, now) && created < now && days > 0 ==>
              ShowsViewPlusInferred(stat, logs, created, now, days * 86_400_000)
  {
    hide TsActiveMs, Plain, ShowsViewPlusInferred, ShareOf, WindowStart, Sorted;
    stat := CalculateForDays(logs, days, now, created);
    if Plain(logs, now) && created < now && days > 0 {
      PlainIsShown(stat, logs, created, now, days * MS_PER_DAY);
    }
  }

  lemma PlainIsShown(stat: UptimeStat, logs: seq<Log>, created: int, now: int, window: nat)
    requires Plain(logs, now) && created < now && window > 0
    requires var start := WindowStart(created, now, window);
             start < now ==>
               && stat.activeMs == TsActiveMs(logs, start, now) && stat.inactiveMs == (now - start) - stat.activeMs
               && ShareOf(stat.percent, stat.activeMs, now - start)
    ensures ShowsViewPlusInferred(stat, logs, created, now, window)
  {
    var start := WindowStart(created, now, window);
    DashboardAgainstView(logs, start, now);
    TsActiveCounts(logs, start, now);
    hide TsActiveMs, ActiveSec, Inferred, Plain, ExactShare;
  }

  /** `calculateUptimeForLogs` for one service: the statistics of 1, 7 and 30 days. The order
      it chooses is one that the view may have chosen too. */
  method CalculateUptimeForLogs(table: seq<Log>, service: string, now: int, created: int)
    returns (day: UptimeStat, week: UptimeStat, month: UptimeStat)
    ensures var order := SortByTime(Select(table, service));
            && RowOrder(table, service, order)
            && (Plain(order, now) && created < now ==>
                  && ShowsViewPlusInferred(day, order, created, now, 86_400_000)
                  && ShowsViewPlusInferred(week, order, created, now, 604_800_000)
                  && ShowsViewPlusInferred(month, order, created, now, 2_592_000_000))
  {
    var logs := SortByTime(Select(table, service));
    SortSorts(Select(table, service));
    day := CalculatePlain(logs, 1, now, created);
    week := CalculatePlain(logs, 7, now, created);
    month := CalculatePlain(logs, 30, now, created);
  }

  function ViewPlusInferred(ls: seq<Log>, created: int, now: int, window: nat): int {
    var start := WindowStart(created, now, window);
    ActiveSec(ls, start, now) + Inferred(ls, start)
  }

  /** The statistic shows the view's active time plus the inferred time, the rest of the window, and the
      exact percentage that this is. */
  predicate ShowsViewPlusInferred(stat: UptimeStat, ls: seq<Log>, created: int, now: int, window: nat) {
    var active := ViewPlusInferred(ls, created, now, window);
    var span := if created > now - window then now - created else window;
    && stat.activeMs == active && stat.inactiveMs == span - active
    && ExactShare(stat.percent, active, span)
  }
}
