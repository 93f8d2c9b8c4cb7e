/** The main results about whole runs of the lifecycle protocol. */
module LifecycleTheorems {
  import P = ServiceProcess
  import opened Lifecycle
  import opened LifecycleSafety

  lemma SafeAt(r: Run, n: nat)
    requires IsRun(r) && Init(r.worlds[0]) && n < |r.worlds|
    ensures Safe(r.worlds[n])
  {
    SafeInit(r.worlds[0]);
    SafeAlong(r, 0, n);
  }

  lemma {:induction false} SafeAlong(r: Run, m: nat, n: nat)
    requires IsRun(r) && m <= n < |r.worlds| && Safe(r.worlds[m])
    ensures Safe(r.worlds[n])
  {
    hide Safe, Step;
    if m < n {
      SafeAlong(r, m, n - 1);
      assert Moves(r, n - 1);
      SafeStep(r.worlds[n - 1], r.actions[n - 1]);
    }
  }

  /** In every reachable state in which the lock is free: a live process is the one that
      processList names for its service, its status reads Running, it is the only live
      process of that service, and the service is not persisted as stopped or sleeping. */
  lemma OneLiveProcess(r: Run, n: nat, p: nat)
    requires IsRun(r) && Init(r.worlds[0]) && n < |r.worlds|
    requires r.worlds[n].holder == Free && p < |r.worlds[n].reg.procs| && Live(r.worlds[n].reg.procs[p])
    ensures var g := r.worlds[n].reg; var svc := g.procs[p].svc;
            && svc in g.list && g.list[svc] == p
            && g.procs[p].proc.status == P.Running
            && Status(r.worlds[n], svc) != DbStopped && Status(r.worlds[n], svc) != Sleeping
            && forall q: nat | q < |g.procs| && g.procs[q].svc == svc && Live(g.procs[q]) :: q == p
  {
    SafeAt(r, n);
    var g := r.worlds[n].reg;
    assert EntryOk(g, Free, p);
    LiveIsRunning(g, Free, p);
    forall q: nat | q < |g.procs| && g.procs[q].svc == g.procs[p].svc && Live(g.procs[q]) ensures q == p {
      assert EntryOk(g, Free, q);
    }
  }

  // ---------------------------------------------------------------- a quiet stop is stable

  predicate Finished(q: P.Proc) {
    q.caller == P.Idle && forall k | 0 <= k < |q.spawns| :: P.Cleared(q.spawns[k]) && !q.spawns[k].alive
  }

  predicate HolderQuiet(h: Holder, svc: ServiceId) {
    match h
    case Free => true
    case StopEntry(s, mode) => s == svc ==> mode != MarkSleeping
    case Halted(s, mode) => s == svc ==> mode != MarkSleeping
    case Forgotten(s, mode) => s == svc ==> mode != MarkSleeping
    case Scanning(_, _, listed) => svc !in listed
    case StartEntry(s) => s != svc
    case InStart(s, _) => s != svc
    case Registered(s) => s != svc
    case StartFailed(s) => s != svc
    case InStop(s, _, _) => s != svc
  }

  /** Nobody is on the way to start `svc` or to overwrite its status. */
  predicate AgentsQuiet(a: Agents, svc: ServiceId) {
    && svc !in a.errs && a.handler != HGot(svc) && svc !in a.scanner
    && (forall wake | wake in a.wakes && wake.svc == svc :: wake.status == DbStopped)
    && a.runner != RAwaitStart(svc) && a.runner != RAwaitStop(svc, true) && a.runner != RStopping(svc, true)
  }

  predicate RegistryQuiet(g: Registry, svc: ServiceId) {
    && svc in g.db && g.db[svc] == DbStopped
    && (forall p: nat | p < |g.procs| && g.procs[p].svc == svc :: Finished(g.procs[p].proc))
    && (svc in g.list && g.list[svc] < |g.procs| ==> g.procs[g.list[svc]].proc.status != P.Running)
  }

  /** `svc` is stopped and has no unread failure message, no unfinished waiter, no wake-up
      that has read another status, no pending suspension and no command in execution. */
  predicate Quiet(w: World, svc: ServiceId) {
    && RegistryQuiet(w.reg, svc) && HolderQuiet(w.holder, svc) && AgentsQuiet(w.agents, svc)
    && (w.owner.ByRecovery? ==> svc !in w.owner.rest)
  }

  /** The runner begins to execute a start, restart or upgrade of `svc`. */
  predicate Executes(w: World, a: Action, svc: ServiceId) {
    a.ByTheRunner? && a.runner.Dispatch? && w.agents.runner.RReady? && w.agents.runner.cmd.svc == svc
      && w.agents.runner.cmd.kind != StopIt
  }

  /** Another service's process object changes. */
  lemma QuietProc(g: Registry, svc: ServiceId, p: nat, q: P.Proc)
    requires RegistryQuiet(g, svc) && p < |g.procs| && g.procs[p].svc != svc
    requires svc in g.list && g.list[svc] < |g.procs| ==> g.procs[g.list[svc]].svc == svc
    ensures RegistryQuiet(g.(procs := g.procs[p := g.procs[p].(proc := q)]), svc)
  {}

  lemma QuietOwnProc(g: Registry, svc: ServiceId, p: nat, q: P.Proc)
    requires RegistryQuiet(g, svc) && p < |g.procs| && g.procs[p].svc == svc && Finished(q)
        && q.status == g.procs[p].proc.status
    ensures RegistryQuiet(g.(procs := g.procs[p := g.procs[p].(proc := q)]), svc)
  {}

  lemma QuietAsync(w: World, p: nat, a: P.Action, svc: ServiceId)
    requires Safe(w) && Quiet(w, svc)
    ensures Quiet(AsyncStep(w, p, a), svc)
  {
    if p < |w.reg.procs| && P.Asynchronous(a) {
      if svc in w.reg.list { assert ListOk(w.reg, w.holder, svc); }
      assert w.reg.procs[p].svc == svc ==> Finished(w.reg.procs[p].proc);
      hide P.Step, P.Apply, P.Enabled, Safe, RegistryQuiet, HolderQuiet;
      if w.reg.procs[p].svc != svc {
        QuietProc(w.reg, svc, p, P.Step(w.reg.procs[p].proc, a));
      } else {
        FinishedStep(w.reg.procs[p].proc, a);
        QuietOwnProc(w.reg, svc, p, P.Step(w.reg.procs[p].proc, a));
      }
    }
  }

  lemma FinishedStep(q: P.Proc, a: P.Action)
    requires Finished(q) && P.Asynchronous(a)
    ensures Finished(P.Step(q, a)) && P.Step(q, a).status == q.status
    ensures a.Report? ==> !P.Enabled(q, a)
  {}

  lemma QuietHandler(w: World, a: HandlerAction, svc: ServiceId)
    requires Quiet(w, svc)
    ensures Quiet(HandlerStep(w, a), svc)
  {}

  lemma QuietRunner(w: World, a: RunnerAction, svc: ServiceId)
    requires Quiet(w, svc) && !Executes(w, ByTheRunner(a), svc)
    ensures Quiet(RunnerStep(w, a), svc)
  {}

  lemma QuietWake(w: World, a: WakeAction, svc: ServiceId)
    requires Quiet(w, svc)
    ensures Quiet(WakeStep(w, a), svc)
  {}

  lemma QuietSleep(w: World, a: SleepAction, svc: ServiceId)
    requires Quiet(w, svc)
    ensures Quiet(SleepStep(w, a), svc)
  {}

  lemma QuietOther(w: World, a: OtherAction, svc: ServiceId)
    requires Quiet(w, svc)
    ensures Quiet(OtherStep(w, a), svc)
  {}

  lemma QuietRelease(w: World, ok: bool, svc: ServiceId)
    requires RegistryQuiet(w.reg, svc) && AgentsQuiet(w.agents, svc) && (w.owner.ByRecovery? ==> svc !in w.owner.rest)
    ensures Quiet(Release(w, ok), svc)
  {}

  lemma QuietStart(w: World, a: StartAction, svc: ServiceId)
    requires Safe(w) && Quiet(w, svc)
    ensures Quiet(StartStep(w, a), svc)
  {
    match a
    case InsideStart(b) => if w.holder.InStart? { QuietInsideStart(w, b, svc); }
    case FinishRunning =>
      if w.holder.Registered? {
        QuietRelease(w.(reg := w.reg.(db := w.reg.db[w.holder.svc := DbRunning])), true, svc);
      }
    case FinishFailed =>
      if w.holder.StartFailed? {
        QuietRelease(w.(reg := w.reg.(db := w.reg.db[w.holder.svc := Failure])), false, svc);
      }
    case CreateProcess =>
    case _ => QuietRelease(w, false, svc);
  }

  lemma QuietInsideStart(w: World, a: P.Action, svc: ServiceId)
    requires Safe(w) && Quiet(w, svc) && w.holder.InStart?
    ensures Quiet(InsideStartStep(w, w.holder.svc, w.holder.p, a), svc)
  {
    if svc in w.reg.list { assert ListOk(w.reg, w.holder, svc); }
    QuietProc(w.reg, svc, w.holder.p, P.Step(w.reg.procs[w.holder.p].proc, a));
  }

  lemma QuietStop(w: World, a: StopAction, svc: ServiceId)
    requires Safe(w) && Quiet(w, svc)
    ensures Quiet(StopStep(w, a), svc)
  {
    match a
    case InsideStop(b) => if w.holder.InStop? { QuietInsideStop(w, b, svc); }
    case FinishStop =>
      if w.holder.Forgotten? { QuietRelease(w.(reg := w.reg.(db := Marked(w.reg.db, w.holder.svc, w.holder.mode))),
        true, svc); }
    case _ =>
  }

  lemma QuietInsideStop(w: World, a: P.Action, svc: ServiceId)
    requires Safe(w) && Quiet(w, svc) && w.holder.InStop?
    ensures Quiet(InsideStopStep(w, w.holder.svc, w.holder.p, w.holder.mode, a), svc)
  {
    assert ListOk(w.reg, w.holder, w.holder.svc);
    if svc in w.reg.list { assert ListOk(w.reg, w.holder, svc); }
    hide P.Step, P.Apply, P.Enabled, Safe, Release, RegistryQuiet, AgentsQuiet;
    var p := w.holder.p;
    var q := P.Step(w.reg.procs[p].proc, a);
    if OfStop(a) && P.Enabled(w.reg.procs[p].proc, a) {
      QuietProc(w.reg, svc, p, q);
      if a == P.Revert {
        QuietRelease(SetProc(w, p, q), false, svc);
      }
    }
  }

  lemma QuietStep(w: World, a: Action, svc: ServiceId)
    requires Safe(w) && Quiet(w, svc) && !Executes(w, a, svc)
    ensures Quiet(Step(w, a), svc)
  {
    match a
    case Async(p, b) => QuietAsync(w, p, b, svc);
    case InStartSection(b) => QuietStart(w, b, svc);
    case InStopSection(b) => QuietStop(w, b, svc);
    case ByHandler(b) => QuietHandler(w, b, svc);
    case ByTheRunner(b) => QuietRunner(w, b, svc);
    case ByWake(b) => QuietWake(w, b, svc);
    case BySleeper(b) => QuietSleep(w, b, svc);
    case ByAnyone(b) => QuietOther(w, b, svc);
  }

  lemma {:induction false} QuietAlong(r: Run, m: nat, n: nat, svc: ServiceId)
    requires IsRun(r) && m <= n < |r.worlds| && Safe(r.worlds[m]) && Quiet(r.worlds[m], svc)
    requires forall i: nat | m <= i < n :: !Executes(r.worlds[i], r.actions[i], svc)
    ensures Quiet(r.worlds[n], svc)
  {
    hide Safe, Quiet, Step, Executes;
    if m < n {
      QuietAlong(r, m, n - 1, svc);
      SafeAlong(r, m, n - 1);
      assert Moves(r, n - 1);
      QuietStep(r.worlds[n - 1], r.actions[n - 1], svc);
    }
  }

  /** Whatever happens next, a quiet stop lasts: the service stays persisted as stopped and
      has no live process until a start, restart or upgrade of it begins to execute. */
  lemma QuietStopLasts(r: Run, m: nat, n: nat, svc: ServiceId)
    requires IsRun(r) && Init(r.worlds[0]) && m <= n < |r.worlds| && Quiet(r.worlds[m], svc)
    requires forall i: nat | m <= i < n :: !Executes(r.worlds[i], r.actions[i], svc)
    ensures Quiet(r.worlds[n], svc) && Status(r.worlds[n], svc) == DbStopped
    ensures forall p: nat | p < |r.worlds[n].reg.procs|
        && r.worlds[n].reg.procs[p].svc == svc :: !Live(r.worlds[n].reg.procs[p])
  {
    SafeAt(r, m);
    QuietAlong(r, m, n, svc);
  }

  // ---------------------------------------------------------------- the phantom service

  /** The registered process object of `svc` is a phantom. */
  predicate Stuck(w: World, svc: ServiceId) {
    && svc in w.reg.list && w.reg.list[svc] < |w.reg.procs|
    && P.Phantom(w.reg.procs[w.reg.list[svc]].proc)
    && !((w.holder.InStart? || w.holder.Halted?) && w.holder.svc == svc)
  }

  predicate SameEntry(w: World, w': World, svc: ServiceId)
    requires svc in w.reg.list
  {
    svc in w'.reg.list && w'.reg.list[svc] == w.reg.list[svc]
  }

  /** A phantom that nobody is calling reads Running. */
  lemma PhantomRuns(w: World, svc: ServiceId)
    requires Safe(w) && Stuck(w, svc) && !(w.holder.InStop? && w.holder.svc == svc)
    ensures IsRunning(w, svc)
  {
    assert ListOk(w.reg, w.holder, svc);
    assert EntryOk(w.reg, w.holder, w.reg.list[svc]);
    if w.holder.InStop? { assert ListOk(w.reg, w.holder, w.holder.svc); }
  }

  lemma StuckAsync(w: World, p: nat, a: P.Action, svc: ServiceId)
    requires Stuck(w, svc)
    ensures Stuck(AsyncStep(w, p, a), svc) && SameEntry(w, AsyncStep(w, p, a), svc)
  {
    P.PhantomStep(w.reg.procs[w.reg.list[svc]].proc, a);
  }

  lemma StuckStart(w: World, a: StartAction, svc: ServiceId)
    requires Safe(w) && Stuck(w, svc)
    ensures Stuck(StartStep(w, a), svc) && SameEntry(w, StartStep(w, a), svc)
  {
    if !w.holder.InStop? { PhantomRuns(w, svc); }
    if a.InsideStart? && w.holder.InStart? { assert ListOk(w.reg, w.holder, svc); }
  }

  lemma StuckStop(w: World, a: StopAction, svc: ServiceId)
    requires Safe(w) && Stuck(w, svc)
    ensures Stuck(StopStep(w, a), svc) && SameEntry(w, StopStep(w, a), svc)
  {
    if a.InsideStop? {
      if w.holder.InStop? { StuckInsideStop(w, a.a, svc); }
    } else if w.holder.InStop? {
      assert ListOk(w.reg, w.holder, w.holder.svc);
    } else {
      PhantomRuns(w, svc);
    }
  }

  lemma StuckInsideStop(w: World, a: P.Action, svc: ServiceId)
    requires Safe(w) && Stuck(w, svc) && w.holder.InStop?
    ensures var w' := InsideStopStep(w, w.holder.svc, w.holder.p, w.holder.mode, a);
            Stuck(w', svc) && SameEntry(w, w', svc)
  {
    assert ListOk(w.reg, w.holder, svc);
    assert w.holder.p != w.reg.list[svc] ==> w.holder.svc != svc;
    hide Safe, Stuck, InsideStopStep, SameEntry, ListOk;
    if w.holder.p == w.reg.list[svc] {
      StuckInOwnStop(w, a, svc);
    } else {
      StuckInOtherStop(w, a, svc);
    }
  }

  /** Inside Stop of the phantom itself: it can only be reverted. */
  lemma StuckInOwnStop(w: World, a: P.Action, svc: ServiceId)
    requires Stuck(w, svc) && w.holder.InStop? && w.holder.p == w.reg.list[svc]
    ensures var w' := InsideStopStep(w, w.holder.svc, w.holder.p, w.holder.mode, a);
            Stuck(w', svc) && SameEntry(w, w', svc)
  {
    hide Release, P.Step, P.Enabled, P.Phantom;
    var p := w.holder.p;
    var q := w.reg.procs[p].proc;
    P.PhantomStep(q, a);
    if P.Enabled(q, a) {
      PhantomGoesOn(q, a);
      StuckProc(w, p, P.Step(q, a), svc);
    }
  }

  /** No Stop of a phantom ends otherwise than with an error. */
  lemma PhantomGoesOn(q: P.Proc, a: P.Action)
    requires P.Phantom(q) && P.Enabled(q, a)
    ensures a != P.ChanClosed && a != P.TimeoutKill
  {
  }

  /** Inside Stop of another object. */
  lemma StuckInOtherStop(w: World, a: P.Action, svc: ServiceId)
    requires Stuck(w, svc) && w.holder.InStop? && w.holder.p != w.reg.list[svc] && w.holder.svc != svc
    ensures var w' := InsideStopStep(w, w.holder.svc, w.holder.p, w.holder.mode, a);
            Stuck(w', svc) && SameEntry(w, w', svc)
  {
    hide Release, P.Step, P.Enabled, P.Phantom;
    if w.holder.p < |w.reg.procs| && P.Enabled(w.reg.procs[w.holder.p].proc, a) {
      StuckProc(w, w.holder.p, P.Step(w.reg.procs[w.holder.p].proc, a), svc);
    }
  }

  /** A process object changes, and a phantom stays one. */
  lemma StuckProc(w: World, p: nat, q: P.Proc, svc: ServiceId)
    requires Stuck(w, svc) && p < |w.reg.procs| && (p == w.reg.list[svc] ==> P.Phantom(q))
    ensures Stuck(SetProc(w, p, q), svc) && Stuck(Release(SetProc(w, p, q), false), svc)
  {}

  lemma StuckOutside(w: World, a: Action, svc: ServiceId)
    requires Stuck(w, svc) && !a.Async? && !a.InStartSection? && !a.InStopSection?
    ensures Stuck(Step(w, a), svc) && SameEntry(w, Step(w, a), svc)
  {
    match a
    case ByHandler(b) =>
    case ByTheRunner(b) =>
    case ByWake(b) =>
    case BySleeper(b) =>
    case ByAnyone(b) =>
  }

  lemma StuckStep(w: World, a: Action, svc: ServiceId)
    requires Safe(w) && Stuck(w, svc)
    ensures Stuck(Step(w, a), svc) && SameEntry(w, Step(w, a), svc)
  {
    match a
    case Async(p, b) => StuckAsync(w, p, b, svc);
    case InStartSection(b) => StuckStart(w, b, svc);
    case InStopSection(b) => StuckStop(w, b, svc);
    case _ => StuckOutside(w, a, svc);
  }

  /** The start section of `svc` is inside Start of process object `p`, which is `q`. */
  predicate Inside(w: World, svc: ServiceId, p: nat, q: P.Proc) {
    w.holder == InStart(svc, p) && p < |w.reg.procs| && w.reg.procs[p].proc == q
  }

  lemma InsideStep(w: World, svc: ServiceId, p: nat, q: P.Proc, a: P.Action)
    requires Inside(w, svc, p, q) && (a == P.MarkStarting || a == P.SpawnOk) && P.Enabled(q, a)
    ensures Inside(StartStep(w, InsideStart(a)), svc, p, P.Step(q, a))
  {}

  lemma InsideAsync(w: World, svc: ServiceId, p: nat, q: P.Proc, a: P.Action)
    requires Inside(w, svc, p, q) && P.Asynchronous(a) && !a.Report? && P.Enabled(q, a)
    ensures Inside(AsyncStep(w, p, a), svc, p, P.Step(q, a))
  {}

  /** The start section up to and including the spawn of the process. */
  function Launch(w: World): World {
    StartStep(StartStep(StartStep(w, CreateProcess), InsideStart(P.MarkStarting)), InsideStart(P.SpawnOk))
  }

  /** The process exits and is reaped; then its waiter writes Stopped. */
  function Die(w: World, p: nat): World {
    AsyncStep(AsyncStep(w, p, P.Exit(0, false)), p, P.Reap(0))
  }

  function Notice(w: World, p: nat): World {
    AsyncStep(AsyncStep(w, p, P.Decide(0)), p, P.Clear(0))
  }

  lemma LaunchInside(w: World, svc: ServiceId)
    requires w.holder == StartEntry(svc) && !IsRunning(w, svc)
    ensures Inside(Launch(w), svc, |w.reg.procs|, P.MidLaunch(true, P.Waiting))
  {
    var p, w1 := |w.reg.procs|, StartStep(w, CreateProcess);
    InsideStep(w1, svc, p, P.NEW_PROC.(caller := P.Opening), P.MarkStarting);
    InsideStep(StartStep(w1, InsideStart(P.MarkStarting)), svc, p, P.Proc(P.Starting, [], P.Launching), P.SpawnOk);
  }

  lemma DieInside(w: World, svc: ServiceId, p: nat)
    requires Inside(w, svc, p, P.MidLaunch(true, P.Waiting))
    ensures Inside(Die(w, p), svc, p, P.MidLaunch(false, P.Reaped))
  {
    InsideAsync(w, svc, p, P.MidLaunch(true, P.Waiting), P.Exit(0, false));
    InsideAsync(AsyncStep(w, p, P.Exit(0, false)), svc, p, P.MidLaunch(false, P.Waiting), P.Reap(0));
  }

  lemma NoticeInside(w: World, svc: ServiceId, p: nat)
    requires Inside(w, svc, p, P.MidLaunch(false, P.Reaped))
    ensures Inside(Notice(w, p), svc, p, P.MidLaunch(false, P.Closing))
  {
    InsideAsync(w, svc, p, P.MidLaunch(false, P.Reaped), P.Decide(0));
    InsideAsync(AsyncStep(w, p, P.Decide(0)), svc, p, P.MidLaunch(false, P.Clearing), P.Clear(0));
  }

  lemma FinishStuck(w: World, svc: ServiceId, p: nat)
    requires Inside(w, svc, p, P.MidLaunch(false, P.Closing))
    ensures Stuck(StartStep(w, InsideStart(P.FinishStart)), svc)
  {}

  /** A process that exits between its spawn and the last write of its start leaves the
      service with a phantom. */
  lemma CrashLeavesPhantom(w: World, svc: ServiceId)
    requires w.holder == StartEntry(svc) && !IsRunning(w, svc)
    ensures var p := |w.reg.procs|;
            Stuck(StartStep(Notice(Die(Launch(w), p), p), InsideStart(P.FinishStart)), svc)
  {
    var p := |w.reg.procs|;
    LaunchInside(w, svc);
    DieInside(Launch(w), svc, p);
    NoticeInside(Die(Launch(w), p), svc, p);
    FinishStuck(Notice(Die(Launch(w), p), p), svc, p);
  }

  /** Once the registered object of a service is a phantom, no command, request, scan, hook or
      recovery ever gets rid of it: it stays registered for ever and the service never has a
      live process again. */
  lemma {:induction false} StuckForever(r: Run, m: nat, n: nat, svc: ServiceId)
    requires IsRun(r) && Init(r.worlds[0]) && m <= n < |r.worlds| && Stuck(r.worlds[m], svc)
    ensures Stuck(r.worlds[n], svc) && SameEntry(r.worlds[m], r.worlds[n], svc)
    ensures forall p: nat | p < |r.worlds[n].reg.procs|
        && r.worlds[n].reg.procs[p].svc == svc :: !Live(r.worlds[n].reg.procs[p])
  {
    hide Safe, Init, Step;
    if m < n {
      StuckForever(r, m, n - 1, svc);
      SafeAt(r, n - 1);
      assert Moves(r, n - 1);
      StuckStep(r.worlds[n - 1], r.actions[n - 1], svc);
    }
    SafeAt(r, n);
    StuckNotLive(r.worlds[n], svc);
  }

  lemma StuckNotLive(w: World, svc: ServiceId)
    requires Safe(w) && Stuck(w, svc)
    ensures forall p: nat | p < |w.reg.procs| && w.reg.procs[p].svc == svc :: !Live(w.reg.procs[p])
  {
    forall p: nat | p < |w.reg.procs| && w.reg.procs[p].svc == svc ensures !Live(w.reg.procs[p]) {
      assert EntryOk(w.reg, w.holder, p);
    }
  }
}
