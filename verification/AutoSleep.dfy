/** When a service falls asleep by itself: what the activity entries mean, which services a scan
    lists, and whether a listed service is still idle when its suspension begins. */
module AutoSleep {
  import P = ServiceProcess
  import opened Lifecycle
  import opened LifecycleSafety
  import opened LifecycleTheorems

  // ---------------------------------------------------------------- activity

  /** Action `a` in state `w` records activity of `svc` or completes its start. */
  predicate RecordsActivity(w: World, a: Action, svc: ServiceId) {
    || (a == ByAnyone(Touch(svc)) && w.holder == Free)
    || (a == InStartSection(InsideStart(P.FinishStart)) && w.holder.InStart? && w.holder.svc == svc
        && w.holder.p < |w.reg.procs| && w.reg.procs[w.holder.p].proc.caller == P.Launched)
  }

  /** `touched` moves to the current time on activity and start, and never otherwise. */
  lemma TouchedStep(w: World, a: Action, svc: ServiceId)
    ensures var t := Step(w, a).reg.touched;
            && (svc in t <==> svc in w.reg.touched || RecordsActivity(w, a, svc))
            && (svc in t ==> t[svc] == if RecordsActivity(w, a, svc) then w.clock else w.reg.touched[svc])
  {
    match a
    case InStartSection(b) =>
      if b.InsideStart? && w.holder.InStart? {
        TouchedInStart(w, b.a, svc);
      }
    case ByAnyone(b) =>
    case _ =>
      hide RecordsActivity;
      NotTouched(w, a);
      assert !RecordsActivity(w, a, svc) by { NoActivity(w, a, svc); }
  }

  lemma NoActivity(w: World, a: Action, svc: ServiceId)
    requires !a.ByAnyone? && !a.InStartSection?
    ensures !RecordsActivity(w, a, svc)
  {}

  lemma NotTouched(w: World, a: Action)
    requires !a.ByAnyone? && !a.InStartSection?
    ensures Step(w, a).reg.touched == w.reg.touched
  {
    hide P.Step, P.Enabled;
  }

  lemma TouchedInStart(w: World, a: P.Action, svc: ServiceId)
    requires w.holder.InStart?
    ensures var b := InStartSection(InsideStart(a));
            var t := Step(w, b).reg.touched;
            && (svc in t <==> svc in w.reg.touched || RecordsActivity(w, b, svc))
            && (svc in t ==> t[svc] == if RecordsActivity(w, b, svc) then w.clock else w.reg.touched[svc])
  {
    hide P.Step;
  }

  /** The clock never goes back, and the settings stay. */
  lemma ClockStep(w: World, a: Action)
    ensures Step(w, a).clock >= w.clock && Step(w, a).settings == w.settings
  {}

  lemma {:induction false} ClockRuns(r: Run, m: nat, n: nat)
    requires IsRun(r) && m <= n < |r.worlds|
    ensures r.worlds[m].clock <= r.worlds[n].clock && r.worlds[m].settings == r.worlds[n].settings
  {
    if m < n {
      ClockRuns(r, m, n - 1);
      assert Moves(r, n - 1);
      ClockStep(r.worlds[n - 1], r.actions[n - 1]);
    }
  }

  /** `touched` is at least the time of every start and every recorded activity so far. */
  lemma {:induction false} TouchedIsLatest(r: Run, i: nat, n: nat, svc: ServiceId)
    requires IsRun(r) && i < n < |r.worlds| && RecordsActivity(r.worlds[i], r.actions[i], svc)
    ensures svc in r.worlds[n].reg.touched && r.worlds[n].reg.touched[svc] >= r.worlds[i].clock
  {
    hide RecordsActivity, Step;
    assert Moves(r, n - 1);
    TouchedStep(r.worlds[n - 1], r.actions[n - 1], svc);
    ClockRuns(r, i, n - 1);
    if i < n - 1 {
      TouchedIsLatest(r, i, n - 1, svc);
    }
  }

  /** And it is the time of one of them. */
  lemma {:induction false} TouchedIsGenuine(r: Run, n: nat, svc: ServiceId) returns (i: nat)
    requires IsRun(r) && Init(r.worlds[0]) && n < |r.worlds| && svc in r.worlds[n].reg.touched
    ensures i < n && RecordsActivity(r.worlds[i], r.actions[i], svc)
    ensures r.worlds[n].reg.touched[svc] == r.worlds[i].clock
  {
    hide RecordsActivity, Step;
    assert n > 0;
    assert Moves(r, n - 1);
    TouchedStep(r.worlds[n - 1], r.actions[n - 1], svc);
    if RecordsActivity(r.worlds[n - 1], r.actions[n - 1], svc) {
      i := n - 1;
    } else {
      i := TouchedIsGenuine(r, n - 1, svc);
    }
  }

  /** `t` is the time of the latest start or activity of `svc` in the first `n` steps. */
  ghost predicate IsLatestActivity(r: Run, n: nat, svc: ServiceId, t: int)
    requires IsRun(r) && n < |r.worlds|
  {
    && (exists i: nat :: i < n && RecordsActivity(r.worlds[i], r.actions[i], svc) && r.worlds[i].clock == t)
    && (forall i: nat | i < n && RecordsActivity(r.worlds[i], r.actions[i], svc) :: r.worlds[i].clock <= t)
  }

  /** Every registered service has an activity entry, and it is the time of the latest start or
      activity of that service in the whole run: not an earlier one and not any other time. */
  lemma ActivityIsLatest(r: Run, n: nat, svc: ServiceId)
    requires IsRun(r) && Init(r.worlds[0]) && n < |r.worlds| && svc in r.worlds[n].reg.list
    ensures svc in r.worlds[n].reg.activity && IsLatestActivity(r, n, svc, r.worlds[n].reg.activity[svc])
  {
    SafeAt(r, n);
    assert ListOk(r.worlds[n].reg, r.worlds[n].holder, svc);
    hide RecordsActivity, Step, Safe, Init;
    var _ := TouchedIsGenuine(r, n, svc);
    forall i: nat | i < n && RecordsActivity(r.worlds[i], r.actions[i], svc)
      ensures r.worlds[n].reg.touched[svc] >= r.worlds[i].clock
    {
      TouchedIsLatest(r, i, n, svc);
    }
  }

  // ---------------------------------------------------------------- the scan

  /** No start and no activity of `svc` in the first `n` steps is younger than the timeout at `now`. */
  ghost predicate IdleAt(r: Run, n: nat, svc: ServiceId, now: int)
    requires IsRun(r) && n < |r.worlds|
  {
    forall i: nat | i < n && RecordsActivity(r.worlds[i], r.actions[i], svc) ::
      now - r.worlds[i].clock >= r.worlds[n].settings.idleTimeout
  }

  /** A scan that reaches a registered service lists it if and only if its process reads Running and
      no start or activity of it in the whole run so far is younger than the idle timeout; the
      branch for a missing entry is never taken. */
  lemma ListedIffIdle(r: Run, n: nat, svc: ServiceId)
    requires IsRun(r) && Init(r.worlds[0]) && n < |r.worlds|
    requires r.worlds[n].holder.Scanning? && svc in r.worlds[n].holder.todo
    ensures var v := r.worlds[n]; var h := SleepStep(v, ScanNext(svc)).holder;
            && svc in v.reg.activity && h.Scanning?
            && h.listed == v.holder.listed
                           + (if IsRunning(v, svc) && IdleAt(r, n, svc, v.holder.now) then [svc] else [])
  {
    SafeAt(r, n);
    var v := r.worlds[n];
    assert svc in v.reg.list;
    ActivityIsLatest(r, n, svc);
    hide RecordsActivity, IsRun, Init, Safe;
    var t := v.reg.activity[svc];
    assert IdleAt(r, n, svc, v.holder.now) <==> v.holder.now - t >= v.settings.idleTimeout;
  }

  // ---------------------------------------------------------------- the gap between scan and suspension

  /** `svc` has been listed and its suspension has not begun. */
  predicate Listed(w: World, svc: ServiceId) {
    (w.holder.Scanning? && svc in w.holder.listed) || svc in w.agents.scanner
  }

  /** Action `a` in state `w` lists `svc`. */
  predicate Lists(w: World, a: Action, svc: ServiceId) {
    && a == BySleeper(ScanNext(svc)) && w.holder.Scanning? && svc in w.holder.todo && IsRunning(w, svc)
    && svc in w.reg.activity && w.holder.now - w.reg.activity[svc] >= w.settings.idleTimeout
  }

  lemma ListedStep(w: World, a: Action, svc: ServiceId)
    requires Listed(Step(w, a), svc) && !Listed(w, svc)
    ensures Lists(w, a, svc)
  {
    match a
    case Async(p, b) =>
    case ByHandler(b) =>
    case ByTheRunner(b) =>
    case ByWake(b) =>
    case BySleeper(b) =>
    case ByAnyone(b) =>
    case InStartSection(b) =>
    case InStopSection(b) =>
  }

  /** The time that a scan works with is not in the future. */
  predicate ScanTimeOk(w: World) {
    w.holder.Scanning? ==> w.holder.now <= w.clock
  }

  lemma ScanTimeStep(w: World, a: Action)
    requires ScanTimeOk(w)
    ensures ScanTimeOk(Step(w, a))
  {
    match a
    case Async(p, b) =>
    case ByHandler(b) =>
    case ByTheRunner(b) =>
    case ByWake(b) =>
    case BySleeper(b) =>
    case ByAnyone(b) =>
    case InStartSection(b) =>
    case InStopSection(b) =>
  }

  lemma {:induction false} ScanTimeAt(r: Run, n: nat)
    requires IsRun(r) && Init(r.worlds[0]) && n < |r.worlds|
    ensures ScanTimeOk(r.worlds[n])
  {
    if n > 0 {
      ScanTimeAt(r, n - 1);
      assert Moves(r, n - 1);
      ScanTimeStep(r.worlds[n - 1], r.actions[n - 1]);
    }
  }

  /** `svc` was listed at step `m` and has been waiting for its suspension ever since. */
  ghost predicate ListedSince(r: Run, m: nat, n: nat, svc: ServiceId)
    requires IsRun(r) && m < n < |r.worlds|
  {
    && Lists(r.worlds[m], r.actions[m], svc)
    && forall k: nat | m < k <= n :: Listed(r.worlds[k], svc)
  }

  lemma {:induction false} WasListed(r: Run, n: nat, svc: ServiceId) returns (m: nat)
    requires IsRun(r) && Init(r.worlds[0]) && n < |r.worlds| && Listed(r.worlds[n], svc)
    ensures m < n && ListedSince(r, m, n, svc)
  {
    assert n > 0;
    hide Lists, Listed, Init, Moves;
    ListedBefore(r, n, svc);
    if Listed(r.worlds[n - 1], svc) {
      m := WasListed(r, n - 1, svc);
    } else {
      m := n - 1;
    }
  }

  lemma ListedBefore(r: Run, n: nat, svc: ServiceId)
    requires IsRun(r) && 0 < n < |r.worlds| && Listed(r.worlds[n], svc)
    ensures Listed(r.worlds[n - 1], svc) || Lists(r.worlds[n - 1], r.actions[n - 1], svc)
  {
    assert Moves(r, n - 1);
    hide Lists, Listed, Step;
    if !Listed(r.worlds[n - 1], svc) {
      ListedStep(r.worlds[n - 1], r.actions[n - 1], svc);
    }
  }

  /** The suspension of `svc` is the next thing the auto-sleep goroutine does. */
  predicate EntersSuspension(w: World, svc: ServiceId) {
    w.holder == Free && w.agents.scanner != [] && w.agents.scanner[0] == svc
  }

  /** A service that enters suspension was listed by a scan, and has been idle for the timeout if and
      only if every start and activity since then is that old; when the suspension comes within the
      timeout after the scan, if and only if there was none. */
  lemma SuspendedIffQuietSinceScan(r: Run, n: nat, svc: ServiceId) returns (m: nat)
    requires IsRun(r) && Init(r.worlds[0]) && n < |r.worlds| && EntersSuspension(r.worlds[n], svc)
    ensures m < n && ListedSince(r, m, n, svc) && r.worlds[m].holder.Scanning?
    ensures var now, timeout := r.worlds[n].clock, r.worlds[n].settings.idleTimeout;
            && (IdleAt(r, n, svc, now) <==>
                  forall i: nat | m <= i < n && RecordsActivity(r.worlds[i], r.actions[i], svc) ::
                    now - r.worlds[i].clock >= timeout)
            && (now - r.worlds[m].holder.now < timeout ==>
                  (IdleAt(r, n, svc, now) <==>
                     forall i: nat | m <= i < n :: !RecordsActivity(r.worlds[i], r.actions[i], svc)))
  {
    assert Listed(r.worlds[n], svc);
    m := WasListed(r, n, svc);
    BeforeTheScan(r, m, n, svc);
    ScanTimeAt(r, m);
    hide RecordsActivity, IsRun, Init, IsRunning;
    forall i: nat | m <= i < n ensures r.worlds[i].clock >= r.worlds[m].holder.now {
      ClockRuns(r, m, i);
    }
  }

  /** Whatever a listed service did before its scan is as old as the timeout. */
  lemma BeforeTheScan(r: Run, m: nat, n: nat, svc: ServiceId)
    requires IsRun(r) && Init(r.worlds[0]) && m < n < |r.worlds| && Lists(r.worlds[m], r.actions[m], svc)
    ensures forall i: nat | i < m && RecordsActivity(r.worlds[i], r.actions[i], svc) ::
              r.worlds[n].clock - r.worlds[i].clock >= r.worlds[n].settings.idleTimeout
  {
    ActivityIsLatest(r, m, svc);
    ScanTimeAt(r, m);
    ClockRuns(r, m, n);
  }
}
