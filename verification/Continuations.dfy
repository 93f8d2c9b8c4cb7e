/** When a stop lasts, exactly: a stopped service that nobody is on the way to start stays stopped
    until it is started on purpose, and any other one can be brought back without that. The runs
    that show it are built step by step from reachable states. */
module Continuations {
  import P = ServiceProcess
  import opened Lifecycle
  import opened LifecycleSafety
  import opened LifecycleTheorems
  import AutoSleep

  // ---------------------------------------------------------------- continuations

  /** No start, restart or upgrade of `svc` begins to execute. */
  ghost predicate NoCommand(r: Run, svc: ServiceId)
    requires IsRun(r)
  {
    forall i: nat | i < |r.actions| :: !Executes(r.worlds[i], r.actions[i], svc)
  }

  ghost predicate RunsFrom(r: Run, w: World, v: World, svc: ServiceId) {
    IsRun(r) && r.worlds[0] == w && r.worlds[|r.actions|] == v && NoCommand(r, svc)
  }

  /** Some run leads from `w` to `v` in which no start, restart or upgrade of `svc` executes. */
  ghost predicate Leads(w: World, v: World, svc: ServiceId) {
    exists r: Run :: RunsFrom(r, w, v, svc)
  }

  lemma LeadsNowhere(w: World, svc: ServiceId)
    ensures Leads(w, w, svc)
  {
    assert RunsFrom(Run([w], []), w, w, svc);
  }

  /** A run, one step longer. */
  lemma Extend(r: Run, w: World, v: World, a: Action, svc: ServiceId) returns (longer: Run)
    requires RunsFrom(r, w, v, svc) && !Executes(v, a, svc)
    ensures RunsFrom(longer, w, Step(v, a), svc)
    ensures longer.actions == r.actions + [a] && longer.worlds == r.worlds + [Step(v, a)]
  {
    hide Step, Executes;
    longer := Run(r.worlds + [Step(v, a)], r.actions + [a]);
    forall i: nat {:trigger Moves(longer, i)} | i < |longer.actions| ensures Moves(longer, i) {
      if i < |r.actions| { assert Moves(r, i); }
    }
    forall i: nat | i < |longer.actions| ensures !Executes(longer.worlds[i], longer.actions[i], svc) {
      if i < |r.actions| { assert !Executes(r.worlds[i], r.actions[i], svc); }
    }
  }

  lemma LeadsOn(w: World, v: World, a: Action, svc: ServiceId)
    requires Leads(w, v, svc) && !Executes(v, a, svc)
    ensures Leads(w, Step(v, a), svc)
  {
    hide Step, Executes, RunsFrom;
    var r: Run :| RunsFrom(r, w, v, svc);
    var longer := Extend(r, w, v, a, svc);
  }

  /** An action that is not the dispatch of a command. */
  lemma LeadsOnBy(w: World, v: World, a: Action, u: World, svc: ServiceId)
    requires Leads(w, v, svc) && !(a.ByTheRunner? && a.runner.Dispatch?) && u == Step(v, a)
    ensures Leads(w, u, svc)
  {
    hide Step, Leads;
    LeadsOn(w, v, a, svc);
  }

  /** The service is not persisted as stopped any more, or it has a live process. */
  ghost predicate StopEnded(w: World, svc: ServiceId) {
    || Status(w, svc) != DbStopped
    || exists p: nat :: p < |w.reg.procs| && w.reg.procs[p].svc == svc && Live(w.reg.procs[p])
  }

  // ---------------------------------------------------------------- ways to bring a service back

  lemma LaunchLeads(w: World, v: World, svc: ServiceId)
    requires Leads(w, v, svc)
    ensures Leads(w, Launch(v), svc)
  {
    hide Leads, StartStep;
    var v1 := StartStep(v, CreateProcess);
    var v2 := StartStep(v1, InsideStart(P.MarkStarting));
    LeadsOnBy(w, v, InStartSection(CreateProcess), v1, svc);
    LeadsOnBy(w, v1, InStartSection(InsideStart(P.MarkStarting)), v2, svc);
    LeadsOnBy(w, v2, InStartSection(InsideStart(P.SpawnOk)), Launch(v), svc);
  }

  /** A start section of a service that is not running reaches a live process. */
  lemma StartBrings(w: World, v: World, svc: ServiceId) returns (u: World)
    requires Leads(w, v, svc) && v.holder == StartEntry(svc) && !IsRunning(v, svc)
    ensures Leads(w, u, svc) && StopEnded(u, svc)
  {
    hide Leads, StopEnded;
    u := Launch(v);
    LaunchLeads(w, v, svc);
    LaunchedIsLive(v, svc);
  }

  lemma LaunchedIsLive(v: World, svc: ServiceId)
    requires v.holder == StartEntry(svc) && !IsRunning(v, svc)
    ensures StopEnded(Launch(v), svc)
  {
    LaunchInside(v, svc);
    var p, u := |v.reg.procs|, Launch(v);
    LaunchedBelongs(v, svc);
    assert u.reg.procs[p].svc == svc && Live(u.reg.procs[p]);
  }

  lemma LaunchedBelongs(v: World, svc: ServiceId)
    requires v.holder == StartEntry(svc) && !IsRunning(v, svc)
    ensures var p, u := |v.reg.procs|, Launch(v); p < |u.reg.procs| && u.reg.procs[p].svc == svc
  {}

  /** A wake-up that has read any status but stopped. */
  lemma WakeBrings(w: World, v: World, svc: ServiceId, wake: Wake) returns (u: World)
    requires Leads(w, v, svc) && v.holder == Free && !IsRunning(v, svc)
    requires wake in v.agents.wakes && wake.svc == svc && wake.status != DbStopped
    ensures Leads(w, u, svc) && StopEnded(u, svc)
  {
    hide Leads, StopEnded;
    var v1 := WakeStep(v, WakeLock(wake));
    LeadsOnBy(w, v, ByWake(WakeLock(wake)), v1, svc);
    u := StartBrings(w, v1, svc);
  }

  /** A command of the runner that has executed and waits for its start section. */
  lemma PendingStartBrings(w: World, v: World, svc: ServiceId) returns (u: World)
    requires Leads(w, v, svc) && v.holder == Free && !IsRunning(v, svc) && v.agents.runner == RAwaitStart(svc)
    ensures Leads(w, u, svc) && StopEnded(u, svc)
  {
    hide Leads, StopEnded;
    var v1 := RunnerStep(v, LockForStart);
    LeadsOnBy(w, v, ByTheRunner(LockForStart), v1, svc);
    u := StartBrings(w, v1, svc);
  }

  /** The failure handler marks every service that it reads a message for. */
  lemma {:induction false} MessageBrings(w: World, v: World, svc: ServiceId) returns (u: World)
    requires Leads(w, v, svc) && (svc in v.agents.errs || v.agents.handler == HGot(svc))
    ensures Leads(w, u, svc) && StopEnded(u, svc)
    decreases |v.agents.errs|, match v.agents.handler { case HGot(_) => 2 case HMarked(_) => 1 case HIdle => 0 }
  {
    hide Leads;
    match v.agents.handler
    case HGot(x) =>
      var v1 := HandlerStep(v, MarkFailed);
      LeadsOnBy(w, v, ByHandler(MarkFailed), v1, svc);
      if x == svc {
        u := v1;
      } else {
        u := MessageBrings(w, v1, svc);
      }
    case HMarked(x) =>
      var v1 := HandlerStep(v, Republish);
      LeadsOnBy(w, v, ByHandler(Republish), v1, svc);
      u := MessageBrings(w, v1, svc);
    case HIdle =>
      var v1 := HandlerStep(v, TakeMessage);
      LeadsOnBy(w, v, ByHandler(TakeMessage), v1, svc);
      u := MessageBrings(w, v1, svc);
  }

  // ---------------------------------------------------------------- stop sections on the way

  /** The stop section of a service that is not running, carried through. */
  function StopIdle(v: World, svc: ServiceId): World {
    var v1 := StopStep(v, StopLookup);
    StopStep(if svc in v.reg.list then StopStep(v1, Forget) else v1, FinishStop)
  }

  lemma StopIdleEffect(v: World, svc: ServiceId, mode: StopMode)
    requires v.holder == StopEntry(svc, mode) && !IsRunning(v, svc)
    ensures var u := StopIdle(v, svc);
            && u.reg.procs == v.reg.procs && u.reg.list == v.reg.list - {svc} && u.reg.db == Marked(v.reg.db, svc, mode)
            && u.agents == v.agents.(runner := u.agents.runner)
            && (v.owner == ByOther ==> u.holder == Free && u.agents.runner == v.agents.runner)
            && (v.owner == ByRunner && v.agents.runner == RStopping(svc, true) ==>
                  u.holder == Free && u.agents.runner == RAwaitStart(svc))
  {
    if svc !in v.reg.list {
      assert v.reg.list - {svc} == v.reg.list;
    }
  }

  lemma StopIdleLeads(w: World, v: World, svc: ServiceId, x: ServiceId, mode: StopMode)
    requires Leads(w, v, svc) && v.holder == StopEntry(x, mode) && !IsRunning(v, x)
    ensures Leads(w, StopIdle(v, x), svc)
  {
    hide Leads, Release;
    var v1 := StopStep(v, StopLookup);
    LeadsOnBy(w, v, InStopSection(StopLookup), v1, svc);
    var v2 := if x in v.reg.list then StopStep(v1, Forget) else v1;
    if x in v.reg.list {
      LeadsOnBy(w, v1, InStopSection(Forget), v2, svc);
    }
    LeadsOnBy(w, v2, InStopSection(FinishStop), StopStep(v2, FinishStop), svc);
  }

  /** The runner's restart has read that the service is running, and stops it before it starts it. */
  lemma PendingRestartBrings(w: World, v: World, svc: ServiceId) returns (u: World)
    requires Leads(w, v, svc) && v.holder == Free && !IsRunning(v, svc) && v.agents.runner == RAwaitStop(svc, true)
    ensures Leads(w, u, svc) && StopEnded(u, svc)
  {
    hide Leads, StopEnded, StopIdle;
    var v1 := RunnerStep(v, LockForStop);
    LeadsOnBy(w, v, ByTheRunner(LockForStop), v1, svc);
    StopIdleLeads(w, v1, svc, svc, MarkStopped);
    StopIdleEffect(v1, svc, MarkStopped);
    u := PendingStartBrings(w, StopIdle(v1, svc), svc);
  }

  /** The stop section of a running service whose signal fails, from the lookup to the end. */
  function FailedStop(v: World): World {
    var v1 := StopStep(v, StopLookup);
    var v2 := StopStep(v1, InsideStop(P.BeginStop));
    var v3 := StopStep(v2, InsideStop(P.MarkStopping));
    var v4 := StopStep(v3, InsideStop(P.SignalFail));
    StopStep(v4, InsideStop(P.Revert))
  }

  /** It changes nothing but the lock. */
  lemma FailedStopEffect(v: World, x: ServiceId)
    requires v.holder.StopEntry? && v.holder.svc == x && v.owner == ByOther && IsRunning(v, x)
    requires v.reg.procs[v.reg.list[x]].proc.caller == P.Idle
    ensures FailedStop(v) == v.(holder := Free)
  {
    var p, q, mode := v.reg.list[x], v.reg.procs[v.reg.list[x]].proc, v.holder.mode;
    var v1 := v.(holder := InStop(x, p, mode));
    assert v1 == StopStep(v, StopLookup);
    var v2 := SetProc(v1, p, q.(caller := P.Armed));
    var v3 := SetProc(v1, p, q.(status := P.Stopping, caller := P.Signalling));
    var v4 := SetProc(v1, p, q.(status := P.Stopping, caller := P.Reverting));
    StopCallStep(v1, x, p, mode, P.BeginStop);
    StopCallStep(v2, x, p, mode, P.MarkStopping);
    StopCallStep(v3, x, p, mode, P.SignalFail);
    RevertStep(v4, x, p, mode);
    hide StopStep, InsideStopStep, IsRunning;
    assert v2 == StopStep(v1, InsideStop(P.BeginStop));
    assert v3 == StopStep(v2, InsideStop(P.MarkStopping));
    assert v4 == StopStep(v3, InsideStop(P.SignalFail));
    assert SetProc(v1, p, q) == v1;
  }

  lemma FailedStopLeads(w: World, v: World, svc: ServiceId)
    requires Leads(w, v, svc)
    ensures Leads(w, FailedStop(v), svc)
  {
    hide Leads, StopStep;
    var v1 := StopStep(v, StopLookup);
    var v2 := StopStep(v1, InsideStop(P.BeginStop));
    var v3 := StopStep(v2, InsideStop(P.MarkStopping));
    var v4 := StopStep(v3, InsideStop(P.SignalFail));
    LeadsOnBy(w, v, InStopSection(StopLookup), v1, svc);
    LeadsOnBy(w, v1, InStopSection(InsideStop(P.BeginStop)), v2, svc);
    LeadsOnBy(w, v2, InStopSection(InsideStop(P.MarkStopping)), v3, svc);
    LeadsOnBy(w, v3, InStopSection(InsideStop(P.SignalFail)), v4, svc);
    LeadsOnBy(w, v4, InStopSection(InsideStop(P.Revert)), FailedStop(v), svc);
  }

  // ---------------------------------------------------------------- suspensions that are due

  lemma LeadsSafe(w: World, v: World, svc: ServiceId)
    requires Safe(w) && Leads(w, v, svc)
    ensures Safe(v)
  {
    hide Safe;
    var r: Run :| RunsFrom(r, w, v, svc);
    SafeAlong(r, 0, |r.actions|);
  }

  /** The first listed service is suspended, or is running and the attempt to stop it fails. */
  function SuspendOne(v: World): World
    requires v.agents.scanner != []
  {
    var x, v1 := v.agents.scanner[0], SleepStep(v, SuspendLock);
    if IsRunning(v, x) then FailedStop(v1) else StopIdle(v1, x)
  }

  lemma SuspendOneLeads(w: World, v: World, svc: ServiceId)
    requires Leads(w, v, svc) && v.holder == Free && v.agents.scanner != []
    ensures Leads(w, SuspendOne(v), svc)
  {
    hide Leads, FailedStop, StopIdle;
    var v1 := SleepStep(v, SuspendLock);
    LeadsOnBy(w, v, BySleeper(SuspendLock), v1, svc);
    if IsRunning(v, v.agents.scanner[0]) {
      FailedStopLeads(w, v1, svc);
    } else {
      StopIdleLeads(w, v1, svc, v.agents.scanner[0], MarkSleeping);
    }
  }

  /** `svc` is persisted as stopped and not running. */
  predicate Down(v: World, svc: ServiceId) {
    Status(v, svc) == DbStopped && !IsRunning(v, svc)
  }

  /** Suspending another service leaves `svc` alone; suspending `svc` makes it sleep. */
  lemma SuspendOneEffect(v: World, svc: ServiceId)
    requires Safe(v) && v.holder == Free && v.agents.scanner != [] && Down(v, svc)
    ensures var u := SuspendOne(v);
            && (v.agents.scanner[0] == svc ==> Status(u, svc) == Sleeping)
            && (v.agents.scanner[0] != svc ==>
                  Down(u, svc) && u.holder == Free && u.agents.scanner == v.agents.scanner[1..])
  {
    var x, v1 := v.agents.scanner[0], SleepStep(v, SuspendLock);
    assert v1 == v.(holder := StopEntry(x, MarkSleeping), owner := ByOther,
                    agents := v.agents.(scanner := v.agents.scanner[1..]));
    if IsRunning(v, x) {
      assert EntryOk(v.reg, v.holder, v.reg.list[x]);
      hide FailedStop, StopIdle, Safe;
      FailedStopEffect(v1, x);
    } else {
      hide FailedStop, StopIdle, Safe;
      StopIdleEffect(v1, x, MarkSleeping);
    }
  }

  /** A service that is listed for suspension is put to sleep although it is stopped. */
  lemma {:induction false} SuspensionBrings(w: World, v: World, svc: ServiceId) returns (u: World)
    requires Safe(w) && Leads(w, v, svc) && v.holder == Free && svc in v.agents.scanner && Down(v, svc)
    ensures Leads(w, u, svc) && StopEnded(u, svc)
    decreases |v.agents.scanner|
  {
    hide Leads, Safe, SuspendOne;
    LeadsSafe(w, v, svc);
    SuspendOneLeads(w, v, svc);
    SuspendOneEffect(v, svc);
    u := SuspendOne(v);
    if v.agents.scanner[0] != svc {
      u := SuspensionBrings(w, u, svc);
    }
  }

  // ---------------------------------------------------------------- who owns the lock

  /** The runner is inside a section, and a recovery is under way, only while the lock is held. */
  predicate OwnerOk(w: World) {
    && (w.owner != ByOther ==> w.holder != Free && !w.holder.Scanning?)
    && (w.agents.runner.RStopping? || w.agents.runner.RStarting? <==> w.owner == ByRunner)
  }

  lemma OwnerReleased(w: World, ok: bool)
    requires OwnerOk(w)
    ensures OwnerOk(Release(w, ok))
  {}

  lemma OwnerStep(w: World, a: Action)
    requires OwnerOk(w)
    ensures OwnerOk(Step(w, a))
  {
    match a
    case Async(p, b) =>
    case ByHandler(b) =>
    case ByTheRunner(b) =>
    case ByWake(b) =>
    case BySleeper(b) =>
    case ByAnyone(b) =>
    case InStartSection(b) => OwnerStart(w, b);
    case InStopSection(b) => OwnerStop(w, b);
  }

  lemma OwnerStart(w: World, a: StartAction)
    requires OwnerOk(w)
    ensures OwnerOk(StartStep(w, a))
  {
    hide P.Step, P.Enabled, IsRunning, Release;
    OwnerReleased(w, false);
    if w.holder.Registered? {
      OwnerReleased(w.(reg := w.reg.(db := w.reg.db[w.holder.svc := DbRunning])), true);
    }
    if w.holder.StartFailed? {
      OwnerReleased(w.(reg := w.reg.(db := w.reg.db[w.holder.svc := Failure])), false);
    }
  }

  lemma OwnerStop(w: World, a: StopAction)
    requires OwnerOk(w)
    ensures OwnerOk(StopStep(w, a))
  {
    hide P.Step, P.Enabled, IsRunning, Release;
    if a.InsideStop? && w.holder.InStop? && w.holder.p < |w.reg.procs| {
      OwnerReleased(SetProc(w, w.holder.p, P.Step(w.reg.procs[w.holder.p].proc, a.a)), false);
    }
    if w.holder.Forgotten? {
      OwnerReleased(w.(reg := w.reg.(db := Marked(w.reg.db, w.holder.svc, w.holder.mode))), true);
    }
  }

  lemma {:induction false} OwnerAt(r: Run, n: nat)
    requires IsRun(r) && Init(r.worlds[0]) && n < |r.worlds|
    ensures OwnerOk(r.worlds[n])
  {
    if n > 0 {
      OwnerAt(r, n - 1);
      assert Moves(r, n - 1);
      hide OwnerOk, Step;
      OwnerStep(r.worlds[n - 1], r.actions[n - 1]);
    }
  }

  // ---------------------------------------------------------------- the stop lasts, exactly

  /** Reachable, with the lock free, and `svc` stopped with nothing left of its processes. */
  ghost predicate StoppedState(r: Run, n: nat, svc: ServiceId) {
    IsRun(r) && Init(r.worlds[0]) && n < |r.worlds| && r.worlds[n].holder == Free && RegistryQuiet(r.worlds[n].reg, svc)
  }

  /** If anybody is on the way to start the service or to overwrite its status, some continuation in
      which no start, restart or upgrade of it executes ends the stop. */
  lemma UnquietStopEnds(r: Run, n: nat, svc: ServiceId) returns (u: World)
    requires StoppedState(r, n, svc) && !AgentsQuiet(r.worlds[n].agents, svc)
    ensures Leads(r.worlds[n], u, svc) && StopEnded(u, svc)
  {
    var w := r.worlds[n];
    SafeAt(r, n);
    OwnerAt(r, n);
    LeadsNowhere(w, svc);
    assert Down(w, svc);
    var a := w.agents;
    hide Safe, Leads, StopEnded, RegistryQuiet, IsRun, Init;
    if svc in a.errs || a.handler == HGot(svc) {
      u := MessageBrings(w, w, svc);
    } else if svc in a.scanner {
      u := SuspensionBrings(w, w, svc);
    } else if a.runner == RAwaitStart(svc) {
      u := PendingStartBrings(w, w, svc);
    } else if a.runner == RAwaitStop(svc, true) {
      u := PendingRestartBrings(w, w, svc);
    } else {
      var wake :| wake in a.wakes && wake.svc == svc && wake.status != DbStopped;
      u := WakeBrings(w, w, svc, wake);
    }
  }

  /** From a quiet stop no continuation without a start, restart or upgrade of it ends the stop. */
  lemma QuietStopStays(w: World, u: World, svc: ServiceId)
    requires Safe(w) && Quiet(w, svc) && Leads(w, u, svc)
    ensures !StopEnded(u, svc)
  {
    hide Safe;
    var r: Run :| RunsFrom(r, w, u, svc);
    QuietAlong(r, 0, |r.actions|, svc);
  }

  /** In every reachable state with the lock free, a stopped service with nothing left of its
      processes stays stopped under every continuation in which no start, restart or upgrade of it
      executes, if and only if nobody is on the way to start it or to overwrite its status: no
      unread message, no wake-up that has read another status, no suspension that is due, no start
      section that the runner still has to enter. */
  lemma StopLastsIffQuiet(r: Run, n: nat, svc: ServiceId)
    requires StoppedState(r, n, svc)
    ensures AgentsQuiet(r.worlds[n].agents, svc) <==> forall u :: Leads(r.worlds[n], u, svc) ==> !StopEnded(u, svc)
  {
    var w := r.worlds[n];
    if AgentsQuiet(w.agents, svc) {
      SafeAt(r, n);
      OwnerAt(r, n);
      assert Quiet(w, svc);
      hide Safe, Quiet, Leads, StopEnded;
      forall u | Leads(w, u, svc) ensures !StopEnded(u, svc) {
        QuietStopStays(w, u, svc);
      }
    } else {
      hide Leads, StopEnded, AgentsQuiet;
      var u := UnquietStopEnds(r, n, svc);
      assert Leads(w, u, svc) && StopEnded(u, svc);
    }
  }

  // ---------------------------------------------------------------- both failures are reachable

  /** A launcher that has just been constructed and knows one service. */
  function Fresh(svc: ServiceId, status: DbStatus, settings: Settings, clock: int): World {
    World(Registry([], map[], map[], map[], map[svc := status]), Free, ByOther,
          Agents([], HIdle, [], RIdle, false, [], multiset{}), clock, settings)
  }

  /** The runner is told to stop the service and has taken the command. */
  function Told(w: World, svc: ServiceId): World {
    w.(agents := w.agents.(recovered := true, runner := RAwaitStop(svc, false)))
  }

  lemma StopIsTold(w0: World, w: World, svc: ServiceId)
    requires Leads(w0, w, svc) && w.holder == Free && w.owner == ByOther && !w.agents.recovered
    requires w.agents.runner == RIdle && w.agents.pending == []
    requires svc in w.reg.db && IsRunningOrder(w, [])
    ensures Leads(w0, Told(w, svc), svc)
  {
    hide Leads;
    var cmd := Command(svc, StopIt);
    var w1 := w.(agents := w.agents.(recovered := true));
    var w2 := w1.(agents := w1.agents.(pending := [cmd]));
    var w3 := w1.(agents := w1.agents.(runner := RReady(cmd, Status(w, svc))));
    assert w1.agents.pending + [cmd] == [cmd] && [cmd][1..] == [];
    LeadsOnBy(w0, w, ByAnyone(RecoverLock([])), w1, svc);
    LeadsOnBy(w0, w1, ByAnyone(Publish(cmd)), w2, svc);
    LeadsOnBy(w0, w2, ByTheRunner(Fetch), w3, svc);
    assert Told(w, svc) == Step(w3, ByTheRunner(Dispatch(false)));
    LeadsOn(w0, w3, ByTheRunner(Dispatch(false)), svc);
  }

  /** A request reads the record, then a user stops the service: the stop takes effect. */
  lemma StopAfterRead(svc: ServiceId, status: DbStatus, settings: Settings, clock: int) returns (r: Run)
    requires status != DbRunning
    ensures NoCommandRun(r, svc) && StoppedState(r, |r.actions|, svc)
    ensures Wake(svc, status) in r.worlds[|r.actions|].agents.wakes
  {
    var w0 := Fresh(svc, status, settings, clock);
    var w1 := w0.(agents := w0.agents.(wakes := multiset{Wake(svc, status)}));
    LeadsNowhere(w0, svc);
    assert w0.agents.wakes + multiset{Wake(svc, status)} == multiset{Wake(svc, status)};
    LeadsOnBy(w0, w0, ByWake(WakeRead(svc)), w1, svc);
    StopIsTold(w0, w1, svc);
    var w2 := Told(w1, svc);
    var w3 := RunnerStep(w2, LockForStop);
    LeadsOnBy(w0, w2, ByTheRunner(LockForStop), w3, svc);
    StopIdleLeads(w0, w3, svc, svc, MarkStopped);
    var w4 := StopIdle(w3, svc);
    assert w4.holder == Free && RegistryQuiet(w4.reg, svc) && Wake(svc, status) in w4.agents.wakes;
    r :| RunsFrom(r, w0, w4, svc);
  }

  ghost predicate NoCommandRun(r: Run, svc: ServiceId) {
    IsRun(r) && NoCommand(r, svc)
  }

  /** A user's stop is undone by a request that read the record before it, although no start, restart
      or upgrade of the service ever executes. */
  lemma StaleWakeUndoesStop(svc: ServiceId, status: DbStatus, settings: Settings, clock: int)
    returns (r: Run, u: World)
    requires status != DbRunning && status != DbStopped
    ensures NoCommandRun(r, svc) && StoppedState(r, |r.actions|, svc)
    ensures Leads(r.worlds[|r.actions|], u, svc) && StopEnded(u, svc)
  {
    hide Leads, StopEnded;
    r := StopAfterRead(svc, status, settings, clock);
    var w := r.worlds[|r.actions|];
    LeadsNowhere(w, svc);
    u := WakeBrings(w, w, svc, Wake(svc, status));
  }

  /** The service is up, the lock is free, and its only activity is its start at `start`. */
  predicate UpSince(w: World, svc: ServiceId, start: int) {
    && w.holder == Free && w.owner == ByOther && w.agents.scanner == [] && w.reg.list.Keys == {svc} && IsRunning(w, svc)
    && w.reg.activity == map[svc := start]
  }

  /** A service is started by a request. */
  lemma StartedByRequest(svc: ServiceId, settings: Settings, clock: int) returns (w0: World, w: World)
    ensures Init(w0) && Leads(w0, w, svc) && UpSince(w, svc, clock) && w.clock == clock && w.settings == settings
  {
    hide Leads;
    w0 := Fresh(svc, NeverStarted, settings, clock);
    var wake := Wake(svc, NeverStarted);
    var w1 := w0.(agents := w0.agents.(wakes := multiset{wake}));
    assert w0.agents.wakes + multiset{wake} == multiset{wake};
    LeadsNowhere(w0, svc);
    LeadsOnBy(w0, w0, ByWake(WakeRead(svc)), w1, svc);
    var w2 := WakeStep(w1, WakeLock(wake));
    LeadsOnBy(w0, w1, ByWake(WakeLock(wake)), w2, svc);
    w := StartedFully(w0, w2, svc);
  }

  /** The start section up to the spawn adds one process object. */
  lemma LaunchEffect(v: World, svc: ServiceId)
    requires v.holder == StartEntry(svc) && !IsRunning(v, svc)
    ensures Launch(v) == v.(holder := InStart(svc, |v.reg.procs|),
                            reg := v.reg.(procs := v.reg.procs + [Entry(svc, P.MidLaunch(true, P.Waiting))]))
  {
    var n := |v.reg.procs|;
    var opening, launching := P.NEW_PROC.(caller := P.Opening), P.Proc(P.Starting, [], P.Launching);
    var v1 := v.(holder := InStart(svc, n), reg := v.reg.(procs := v.reg.procs + [Entry(svc, opening)]));
    assert v1 == StartStep(v, CreateProcess);
    var v2 := SetProc(v1, n, launching);
    StartOfNew();
    StartCallStep(v1, svc, n, P.MarkStarting);
    StartCallStep(v2, svc, n, P.SpawnOk);
    hide StartStep, P.Step;
    assert v2 == StartStep(v1, InsideStart(P.MarkStarting));
    assert Launch(v) == SetProc(v2, n, P.MidLaunch(true, P.Waiting));
  }

  lemma StartOfNew()
    ensures P.Step(P.NEW_PROC.(caller := P.Opening), P.MarkStarting) == P.Proc(P.Starting, [], P.Launching)
    ensures P.Step(P.Proc(P.Starting, [], P.Launching), P.SpawnOk) == P.MidLaunch(true, P.Waiting)
  {
    var one := P.Spawn(true, false, P.Waiting, false, 0, 0);
    assert [] + [one] == [one];
  }

  /** The rest of a first start section. */
  function FinishStart(v: World): World {
    StartStep(StartStep(v, InsideStart(P.FinishStart)), FinishRunning)
  }

  lemma FirstStarted(v: World, svc: ServiceId)
    requires v.holder == InStart(svc, 0) && v.owner == ByOther
    requires v.reg.procs == [Entry(svc, P.MidLaunch(true, P.Waiting))]
    requires v.reg.list == map[] && v.reg.activity == map[] && v.agents.scanner == []
    ensures var w := FinishStart(v);
            UpSince(w, svc, v.clock) && w.clock == v.clock && w.settings == v.settings
  {
    FinishStartStep(v, svc, 0);
    hide InsideStartStep;
    var v4 := StartStep(v, InsideStart(P.FinishStart));
    assert v4 == Step(v, InStartSection(InsideStart(P.FinishStart)));
    assert v4.holder == Registered(svc) && v4.owner == ByOther;
  }

  /** A first start section, carried through. */
  lemma StartedFully(w0: World, v: World, svc: ServiceId) returns (w: World)
    requires Leads(w0, v, svc) && v.holder == StartEntry(svc) && v.owner == ByOther
    requires v.reg.procs == [] && v.reg.list == map[] && v.reg.activity == map[] && v.agents.scanner == []
    ensures Leads(w0, w, svc) && UpSince(w, svc, v.clock) && w.clock == v.clock && w.settings == v.settings
  {
    hide Leads, Launch, StartStep, UpSince;
    LaunchLeads(w0, v, svc);
    LaunchEffect(v, svc);
    var v3 := Launch(v);
    FirstStarted(v3, svc);
    w := FinishStart(v3);
    var v4 := StartStep(v3, InsideStart(P.FinishStart));
    LeadsOnBy(w0, v3, InStartSection(InsideStart(P.FinishStart)), v4, svc);
    LeadsOnBy(w0, v4, InStartSection(FinishRunning), w, svc);
  }

  /** A scan finds the only service idle and lists it. */
  lemma ScannedIdle(w0: World, v: World, svc: ServiceId, start: int) returns (w: World)
    requires Leads(w0, v, svc) && UpSince(v, svc, start) && v.clock - start >= v.settings.idleTimeout
    ensures Leads(w0, w, svc) && w == v.(agents := v.agents.(scanner := [svc]))
  {
    hide Leads;
    var v1 := v.(holder := Scanning({svc}, v.clock, []));
    LeadsOnBy(w0, v, BySleeper(ScanLock), v1, svc);
    var v2 := v.(holder := Scanning({}, v.clock, [svc]));
    assert {svc} - {svc} == {} && [] + [svc] == [svc];
    LeadsOnBy(w0, v1, BySleeper(ScanNext(svc)), v2, svc);
    w := v.(agents := v.agents.(scanner := [svc]));
    LeadsOnBy(w0, v2, BySleeper(ScanEnd), w, svc);
  }

  /** A service enters suspension at the very moment at which a request is recorded for it. */
  lemma ActivityInTheGap(svc: ServiceId, settings: Settings, clock: int) returns (r: Run)
    ensures NoCommandRun(r, svc) && Init(r.worlds[0]) && |r.actions| > 0
    ensures var n := |r.actions|;
            && AutoSleep.EntersSuspension(r.worlds[n], svc)
            && AutoSleep.RecordsActivity(r.worlds[n - 1], r.actions[n - 1], svc)
            && r.worlds[n - 1].clock == r.worlds[n].clock && r.worlds[n].settings == settings
  {
    var w0, w := StartedByRequest(svc, settings, clock);
    var d: nat := if settings.idleTimeout >= 0 then settings.idleTimeout else 0;
    var w1 := w.(clock := clock + d);
    LeadsOnBy(w0, w, ByAnyone(Tick(d)), w1, svc);
    var w2 := ScannedIdle(w0, w1, svc, clock);
    var before: Run :| RunsFrom(before, w0, w2, svc);
    r := Extend(before, w0, w2, ByAnyone(Touch(svc)), svc);
  }
}
