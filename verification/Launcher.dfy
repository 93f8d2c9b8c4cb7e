/** The locked sections of `LauncherManager`, statement by statement, over its two maps, the
    process objects and the repository. Between any two accesses to shared state the exit
    waiters, the failure handler and everybody else who does not need the lock may run. `run`
    is the history and `Valid` says that it is a run of the lifecycle protocol ending in the
    current fields, so every theorem about runs holds of the object. */
module Launcher {
  import P = ServiceProcess
  import opened Lifecycle
  import opened LifecycleSafety
  import opened LifecycleTheorems

  /** Actions that can happen while somebody else holds the lock. */
  predicate Concurrent(a: Action) {
    || a.Async? || a.ByHandler?
    || (a.ByTheRunner? && (a.runner.Fetch? || a.runner.Dispatch?))
    || (a.ByWake? && a.wakeUp.WakeRead?)
    || (a.ByAnyone? && (a.other.Publish? || a.other.Tick?))
  }

  /** The process objects change only in what waiters and the operating system may change. */
  predicate SameCallers(before: seq<Entry>, after: seq<Entry>) {
    && |before| == |after|
    && forall p | 0 <= p < |before| ::
         && before[p].svc == after[p].svc && before[p].proc.caller == after[p].proc.caller
         && (after[p].proc.status == P.Running ==> before[p].proc.status == P.Running)
  }

  lemma ConcurrentKeepsLock(w: World, a: Action)
    requires Concurrent(a)
    ensures var w' := Step(w, a);
            && w'.holder == w.holder && w'.owner == w.owner && w'.settings == w.settings
            && w'.reg == w.reg.(procs := w'.reg.procs, db := w'.reg.db)
            && SameCallers(w.reg.procs, w'.reg.procs)
  {
    if a.Async? && a.p < |w.reg.procs| && P.Asynchronous(a.a) {
      AsyncKeepsCaller(w.reg.procs[a.p].proc, a.a);
    }
  }

  lemma AsyncKeepsCaller(q: P.Proc, a: P.Action)
    requires P.Asynchronous(a)
    ensures P.Step(q, a).caller == q.caller && (P.Step(q, a).status == P.Running ==> q.status == P.Running)
  {}

  /** Nobody who runs without the lock looks at the times of the last activities. */
  lemma ConcurrentIgnoresTouched(w: World, touched: map<ServiceId, int>, a: Action)
    requires Concurrent(a)
    ensures var v := w.(reg := w.reg.(touched := touched));
            Step(v, a) == Step(w, a).(reg := Step(w, a).reg.(touched := touched))
  {
    hide P.Step, P.Enabled, IsRunning, DispatchCommand;
    match a
    case Async(p, b) =>
    case ByHandler(b) =>
    case ByTheRunner(b) => if b.Dispatch? { DispatchIgnoresTouched(w, touched, b.passes); }
    case ByWake(b) =>
    case ByAnyone(b) =>
  }

  lemma DispatchIgnoresTouched(w: World, touched: map<ServiceId, int>, passes: bool)
    ensures var v, b := w.(reg := w.reg.(touched := touched)), ByTheRunner(Dispatch(passes));
            Step(v, b) == Step(w, b).(reg := Step(w, b).reg.(touched := touched))
  {}

  class LauncherManager {
    var processList: map<ServiceId, nat>
    var activityMap: map<ServiceId, int>
    var procs: seq<Entry>
    var repository: map<ServiceId, DbStatus>
    var lock: Holder
    var owner: Owner
    var agents: Agents
    var clock: int
    const settings: Settings
    ghost var touched: map<ServiceId, int>   // the last start or activity of a service
    ghost var run: Run

    ghost function View(): World
      reads this
    {
      World(Registry(procs, processList, activityMap, touched, repository), lock, owner, agents, clock, settings)
    }

    /** The same without the history. */
    function Visible(): World
      reads this
    {
      World(Registry(procs, processList, activityMap, map[], repository), lock, owner, agents, clock, settings)
    }

    ghost predicate Valid()
      reads this
    {
      IsRun(run) && Init(run.worlds[0]) && run.worlds[|run.actions|] == View()
    }

    constructor (repository: map<ServiceId, DbStatus>, settings: Settings, clock: int)
      ensures Valid() && this.repository == repository && this.settings == settings && lock == Free
    {
      processList, activityMap, procs, this.repository := map[], map[], [], repository;
      lock, owner, this.clock, this.settings := Free, ByOther, clock, settings;
      agents := Agents([], HIdle, [], RIdle, false, [], multiset{});
      touched := map[];
      run := Run([World(Registry([], map[], map[], map[], repository), Free, ByOther, Agents([], HIdle, [], RIdle,
        false, [], multiset{}), clock, settings)], []);
    }

    /** Records an access that the code has just performed. */
    ghost method Record(a: Action, before: World)
      requires IsRun(run) && Init(run.worlds[0]) && run.worlds[|run.actions|] == before && View() == Step(before, a)
      modifies this`run
      ensures Valid()
    {
      var longer := Run(run.worlds + [View()], run.actions + [a]);
      forall i: nat {:trigger Moves(longer, i)} | i < |longer.actions| ensures Moves(longer, i) {
        if i < |run.actions| { assert Moves(run, i); }
      }
      run := longer;
    }

    method RunConcurrent(a: Action)
      requires Valid() && Concurrent(a)
      modifies this
      ensures Valid()
      ensures SameSection(old(lock), old(owner), old(procs), old(processList), old(activityMap), old(touched))
    {
      ghost var before := View();
      ConcurrentKeepsLock(before, a);
      ConcurrentIgnoresTouched(Visible(), touched, a);
      var next := Step(Visible(), a);
      procs, repository, agents, clock := next.reg.procs, next.reg.db, next.agents, next.clock;
      Record(a, before);
    }

    /** What a locked section can rely on while others run. */
    ghost predicate SameSection(lock: Holder, owner: Owner, procs: seq<Entry>, list: map<ServiceId, nat>,
      activity: map<ServiceId, int>, touched: map<ServiceId, int>)
      reads this
    {
      && this.lock == lock && this.owner == owner && SameCallers(procs, this.procs)
      && processList == list && activityMap == activity && this.touched == touched
    }

    /** Waiters, the failure handler and everybody else who does not need the lock run for a while. */
    method Interleave()
      requires Valid()
      modifies this
      ensures Valid()
      ensures SameSection(old(lock), old(owner), old(procs), old(processList), old(activityMap), old(touched))
    {
      var steps: nat :| 0 <= steps;
      for _ := 0 to steps
        invariant Valid() && SameSection(old(lock), old(owner), old(procs), old(processList), old(activityMap),
            old(touched))
      {
        var a: Action := *;
        if Concurrent(a) {
          RunConcurrent(a);
        }
      }
    }

    predicate IsUp(svc: ServiceId)
      reads this
    {
      svc in processList && processList[svc] < |procs| && procs[processList[svc]].proc.status == P.Running
    }

    /** The lock is given back, or handed to the next start of the recovery. */
    predicate Released(owner: Owner)
      reads this
    {
      if owner.ByRecovery? && owner.rest != [] then lock == StartEntry(owner.rest[0])
        && this.owner == ByRecovery(owner.rest[1..])
      else lock == Free && this.owner == ByOther
    }

    /** A section ends without touching the registry any more. */
    method Unlock(a: Action, status: map<ServiceId, DbStatus>, ok: bool)
      requires Valid()
      requires Step(View(), a) == Release(View().(reg := View().reg.(db := status)), ok)
      modifies this
      ensures Valid() && Released(old(owner)) && repository == status
      ensures procs == old(procs) && processList == old(processList) && activityMap == old(activityMap)
          && touched == old(touched)
    {
      ghost var before := View();
      var next := Release(Visible(), ok);
      repository := status;
      lock, owner, agents := next.holder, next.owner, next.agents;
      Record(a, before);
    }

    // ------------------------------------------------------------ starting

    /** A new process object, whose Start has read its status. */
    method CreateProcess(svc: ServiceId) returns (p: nat)
      requires Valid() && lock == StartEntry(svc) && !IsUp(svc)
      modifies this
      ensures Valid() && owner == old(owner) && lock == InStart(svc, p) && p == |old(procs)|
      ensures |procs| == p + 1 && procs[p].svc == svc && procs[p].proc.caller == P.Opening
      ensures processList == old(processList) && activityMap == old(activityMap)
    {
      ghost var before := View();
      p := |procs|;
      procs := procs + [Entry(svc, P.Proc(P.Stopped, [], P.Opening))];
      lock := InStart(svc, p);
      Record(InStartSection(StartAction.CreateProcess), before);
    }

    /** One access inside the call of Start or Stop on process object `p`. */
    method CallProcess(p: nat, a: P.Action, ghost outer: Action, next: Holder)
      requires Valid() && p < |procs| && Calling(lock, p) && P.Enabled(procs[p].proc, a)
      requires Step(View(), outer) == SetProc(View(), p, P.Step(procs[p].proc, a)).(holder := next)
      modifies this
      ensures Valid() && owner == old(owner) && lock == next
      ensures processList == old(processList) && activityMap == old(activityMap) && repository == old(repository)
      ensures |procs| == |old(procs)| && procs[p] == old(procs)[p].(proc := P.Step(old(procs)[p].proc, a))
    {
      ghost var before := View();
      procs := procs[p := procs[p].(proc := P.Step(procs[p].proc, a))];
      lock := next;
      Record(outer, before);
    }

    /** One access of Start. */
    method CallStart(svc: ServiceId, p: nat, a: P.Action)
      requires Valid() && lock == InStart(svc, p) && p < |procs| && P.Enabled(procs[p].proc, a)
      requires OfStart(a) && a != P.FinishStart
      modifies this
      ensures Valid() && owner == old(owner) && lock == if a == P.SpawnFail then StartFailed(svc) else old(lock)
      ensures processList == old(processList) && activityMap == old(activityMap) && repository == old(repository)
      ensures |procs| == |old(procs)| && procs[p] == old(procs)[p].(proc := P.Step(old(procs)[p].proc, a))
    {
      hide IsRun, Init, Step, P.Step, P.Enabled;
      StartCallStep(View(), svc, p, a);
      CallProcess(p, a, InStartSection(InsideStart(a)), if a == P.SpawnFail then StartFailed(svc) else lock);
    }

    /** One access of Stop that does not end its section. */
    method CallStop(svc: ServiceId, p: nat, mode: StopMode, a: P.Action)
      requires Valid() && lock == InStop(svc, p, mode) && p < |procs| && P.Enabled(procs[p].proc, a)
      requires OfStop(a) && a != P.Revert
      modifies this
      ensures Valid() && owner == old(owner)
      ensures lock == if a == P.ChanClosed || a == P.TimeoutKill then Halted(svc, mode) else old(lock)
      ensures processList == old(processList) && activityMap == old(activityMap) && repository == old(repository)
      ensures |procs| == |old(procs)| && procs[p] == old(procs)[p].(proc := P.Step(old(procs)[p].proc, a))
    {
      hide IsRun, Init, Step, P.Step, P.Enabled;
      StopCallStep(View(), svc, p, mode, a);
      var done := a == P.ChanClosed || a == P.TimeoutKill;
      CallProcess(p, a, InStopSection(InsideStop(a)), if done then Halted(svc, mode) else lock);
    }

    /** `newProcess.Start()` and, when it succeeds, the registration of the new process. */
    method StartProcess(svc: ServiceId, p: nat, launches: bool) returns (failed: bool)
      requires Valid() && lock == InStart(svc, p) && p < |procs| && procs[p].svc == svc
          && procs[p].proc.caller == P.Opening
      modifies this
      ensures Valid() && owner == old(owner) && |procs| == |old(procs)| && failed == !launches
      ensures failed ==> lock == StartFailed(svc) && processList == old(processList) && activityMap == old(activityMap)
      ensures !failed ==>
          && lock == Registered(svc)
          && processList == old(processList)[svc := p]
          && svc in activityMap
          && activityMap[svc] == clock
    {
      hide AsyncStep, IsRun, Init, Release;
      Interleave();
      CallStart(svc, p, P.MarkStarting);
      Interleave();
      failed := !launches;
      if failed {
        CallStart(svc, p, P.SpawnFail);
        return;
      }
      CallStart(svc, p, P.SpawnOk);
      Interleave();
      RegisterProcess(svc, p);
    }

    /** The last write of Start, and the new entries of the two maps. */
    method RegisterProcess(svc: ServiceId, p: nat)
      requires Valid() && lock == InStart(svc, p) && p < |procs| && procs[p].proc.caller == P.Launched
      modifies this
      ensures Valid() && owner == old(owner) && lock == Registered(svc) && |procs| == |old(procs)|
      ensures processList == old(processList)[svc := p] && activityMap == old(activityMap)[svc := clock]
    {
      hide Step, IsRun, Init;
      ghost var before := View();
      FinishStartStep(before, svc, p);
      procs := procs[p := procs[p].(proc := procs[p].proc.(status := P.Running, caller := P.Idle))];
      processList := processList[svc := p];
      activityMap, touched := activityMap[svc := clock], touched[svc := clock];
      lock := Registered(svc);
      Record(InStartSection(InsideStart(P.FinishStart)), before);
    }

    /** `startServiceLocked`; `prepared` says whether a binary and a port are found, `launches`
        whether the process can be launched. */
    method StartServiceLocked(svc: ServiceId, prepared: bool, launches: bool) returns (failed: bool)
      requires Valid() && lock == StartEntry(svc)
      modifies this
      ensures Valid() && Released(old(owner))
      ensures failed <==> old(IsUp(svc)) || !prepared || !launches
      ensures failed && !old(IsUp(svc)) && prepared ==> svc in repository && repository[svc] == Failure
      ensures !failed ==> |procs| == |old(procs)| + 1 && processList == old(processList)[svc := |old(procs)|]
      ensures !failed ==> svc in activityMap && svc in repository && repository[svc] == DbRunning
      ensures failed ==> processList == old(processList) && activityMap == old(activityMap)
    {
      hide P.Step, InsideStartStep, InsideStopStep, AsyncStep, IsRun, Init;
      if IsUp(svc) {
        Unlock(InStartSection(StartRefused), repository, false);
        return true;
      }
      if !prepared {
        Unlock(InStartSection(StartUnprepared), repository, false);
        return true;
      }
      var p := CreateProcess(svc);
      failed := StartProcess(svc, p, launches);
      Interleave();
      if failed {
        Unlock(InStartSection(FinishFailed), repository[svc := Failure], false);
        return;
      }
      Unlock(InStartSection(FinishRunning), repository[svc := DbRunning], true);
    }

    /** `RunningServices`: the records of the table that read running, in its order. */
    method RunningServices(table: seq<ServiceId>) returns (results: seq<ServiceId>)
      requires forall svc :: svc in table <==> svc in repository
      requires forall i, j | 0 <= i < j < |table| :: table[i] != table[j]
      ensures forall svc :: svc in results <==> svc in repository && repository[svc] == DbRunning
      ensures IsRunningOrder(View(), results)
    {
      results := [];
      for i := 0 to |table|
        invariant forall svc :: svc in results <==> svc in table[..i] && repository[svc] == DbRunning
        invariant forall j, k | 0 <= j < k < |results| :: results[j] != results[k]
      {
        if repository[table[i]] == DbRunning {
          results := results + [table[i]];
        }
      }
    }

    method LockForRecovery(running: seq<ServiceId>)
      requires Valid() && lock == Free && !agents.recovered && IsRunningOrder(View(), running)
      modifies this
      ensures Valid() && (running == [] ==> lock == Free) && processList == old(processList)
      ensures running != [] ==> lock == StartEntry(running[0]) && owner == ByRecovery(running[1..])
    {
      ghost var before := View();
      agents := agents.(recovered := true);
      if running != [] {
        lock, owner := StartEntry(running[0]), ByRecovery(running[1..]);
      }
      Record(ByAnyone(RecoverLock(running)), before);
    }

    /** `RecoveryLastState`: under one lock, every service that was running is started; one that
        cannot be started does not keep the others from it. */
    method RecoverLastState(running: seq<ServiceId>, prepared: ServiceId -> bool, launches: ServiceId -> bool)
      requires Valid() && lock == Free && !agents.recovered && IsRunningOrder(View(), running)
      modifies this
      ensures Valid() && lock == Free
      ensures forall svc | svc in running && prepared(svc) && launches(svc) :: svc in processList
      ensures forall svc | svc in processList :: svc in old(processList) || svc in running
    {
      hide AsyncStep, IsRun, Init, Release;
      LockForRecovery(running);
      for i := 0 to |running|
        invariant Valid()
        invariant forall k | 0 <= k < i && prepared(running[k]) && launches(running[k]) :: running[k] in processList
        invariant forall svc | svc in processList :: svc in old(processList) || svc in running
        invariant i < |running| ==> lock == StartEntry(running[i]) && owner == ByRecovery(running[i + 1..])
        invariant i == |running| ==> lock == Free
      {
        var _ := StartServiceLocked(running[i], prepared(running[i]), launches(running[i]));
      }
    }

    // ------------------------------------------------------------ stopping

    /** Sends the termination signal from inside Stop. */
    method SignalProcess(svc: ServiceId, p: nat, mode: StopMode) returns (delivered: bool)
      requires Valid() && lock == InStop(svc, p, mode) && p < |procs| && procs[p].proc.caller == P.Signalling
      modifies this
      ensures Valid() && owner == old(owner) && lock == old(lock) && |procs| == |old(procs)|
      ensures processList == old(processList) && activityMap == old(activityMap)
      ensures procs[p].proc.caller == if delivered then P.Awaiting else P.Reverting
    {
      delivered := *;
      if delivered && procs[p].proc.spawns != [] && P.Last(procs[p].proc).waiter == P.Waiting {
        CallStop(svc, p, mode, P.SignalOk);
      } else {
        delivered := false;
        CallStop(svc, p, mode, P.SignalFail);
      }
    }

    /** `existingProcess.Stop()`: on failure the section ends, otherwise the process is gone. */
    method StopProcess(svc: ServiceId, p: nat, mode: StopMode) returns (failed: bool)
      requires Valid() && lock == InStop(svc, p, mode) && p < |procs| && procs[p].proc.caller == P.Idle
      modifies this
      ensures Valid() && processList == old(processList) && activityMap == old(activityMap)
      ensures failed ==> Released(old(owner))
      ensures !failed ==> lock == Halted(svc, mode) && owner == old(owner)
    {
      hide AsyncStep, IsRun, Init, Release;
      Interleave();
      failed := false;
      if procs[p].proc.status != P.Running {
        SetLock(InStopSection(StopSkipped), Halted(svc, mode));
        return;
      }
      CallStop(svc, p, mode, P.BeginStop);
      Interleave();
      CallStop(svc, p, mode, P.MarkStopping);
      Interleave();
      var delivered := SignalProcess(svc, p, mode);
      Interleave();
      if delivered {
        AwaitExit(svc, p, mode);
      } else {
        failed := true;
        RevertStatus(svc, p, mode);
      }
    }

    /** An access that only moves the section on. */
    method SetLock(a: Action, next: Holder)
      requires Valid() && Step(View(), a) == View().(holder := next)
      modifies this
      ensures Valid() && lock == next && owner == old(owner) && procs == old(procs) && repository == old(repository)
      ensures processList == old(processList) && activityMap == old(activityMap)
    {
      ghost var before := View();
      lock := next;
      Record(a, before);
    }

    /** The done channel is closed, or the wait takes too long and the process is killed. */
    method AwaitExit(svc: ServiceId, p: nat, mode: StopMode)
      requires Valid() && lock == InStop(svc, p, mode) && p < |procs| && procs[p].proc.caller == P.Awaiting
      modifies this
      ensures Valid() && lock == Halted(svc, mode) && owner == old(owner)
      ensures processList == old(processList) && activityMap == old(activityMap)
    {
      AwaitingHasSpawn(p);
      var timeout: bool := *;
      if !timeout && P.Last(procs[p].proc).waiter == P.Done {
        CallStop(svc, p, mode, P.ChanClosed);
      } else {
        CallStop(svc, p, mode, P.TimeoutKill);
      }
    }

    lemma AwaitingHasSpawn(p: nat)
      requires Valid() && p < |procs| && procs[p].proc.caller == P.Awaiting
      ensures procs[p].proc.spawns != []
    {
      SafeAt(run, |run.actions|);
    }

    /** The signal failed: the status is set back and the section ends with an error. */
    method RevertStatus(svc: ServiceId, p: nat, mode: StopMode)
      requires Valid() && lock == InStop(svc, p, mode) && p < |procs| && procs[p].proc.caller == P.Reverting
      modifies this
      ensures Valid() && Released(old(owner))
      ensures processList == old(processList) && activityMap == old(activityMap)
    {
      hide Step, IsRun, Init;
      ghost var before := View();
      RevertStep(before, svc, p, mode);
      procs := procs[p := procs[p].(proc := procs[p].proc.(status := P.Running, caller := P.Idle))];
      var next := Release(Visible(), false);
      lock, owner, agents := next.holder, next.owner, next.agents;
      Record(InStopSection(InsideStop(P.Revert)), before);
    }

    /** `stopProcessOnlyLocked` followed by the status write of its caller: `stopServiceLocked`,
        `suspendServiceLocked` or, writing nothing, `StopServiceIfRunning`. */
    method StopLocked(svc: ServiceId, mode: StopMode) returns (failed: bool)
      requires Valid() && lock == StopEntry(svc, mode)
      modifies this
      ensures Valid() && Released(old(owner))
      ensures failed ==> processList == old(processList) && activityMap == old(activityMap)
      ensures !failed ==> processList == old(processList) - {svc}
      ensures !failed ==>
                activityMap == if svc in old(processList) then old(activityMap) - {svc} else old(activityMap)
      ensures !failed && mode == MarkStopped ==> svc in repository && repository[svc] == DbStopped
      ensures !failed && mode == MarkSleeping ==> svc in repository && repository[svc] == Sleeping
      ensures !failed ==> forall p | 0 <= p < |procs| && procs[p].svc == svc :: !Live(procs[p])
    {
      hide AsyncStep, IsRun, Init, Release, InsideStopStep;
      failed := false;
      if IsUp(svc) {
        var p := processList[svc];
        NobodyCalls(p);
        SetLock(InStopSection(StopLookup), InStop(svc, p, mode));
        failed := StopProcess(svc, p, mode);
        if failed {
          return;
        }
      } else if svc in processList {
        SetLock(InStopSection(StopLookup), Halted(svc, mode));
      } else {
        SetLock(InStopSection(StopLookup), Forgotten(svc, mode));
        MarkStatus(svc, mode);
        return;
      }
      Interleave();
      ForgetProcess(svc, mode);
      MarkStatus(svc, mode);
    }

    /** The service is registered no more: its status is written. */
    method MarkStatus(svc: ServiceId, mode: StopMode)
      requires Valid() && lock == Forgotten(svc, mode)
      modifies this
      ensures Valid() && Released(old(owner))
      ensures processList == old(processList) && activityMap == old(activityMap)
      ensures mode == MarkStopped ==> svc in repository && repository[svc] == DbStopped
      ensures mode == MarkSleeping ==> svc in repository && repository[svc] == Sleeping
      ensures forall p | 0 <= p < |procs| && procs[p].svc == svc :: !Live(procs[p])
    {
      Interleave();
      ForgottenNotLive(svc);
      Unlock(InStopSection(FinishStop), Marked(repository, svc, mode), true);
    }

    /** Nobody is calling a process object outside the sections that do. */
    lemma NobodyCalls(p: nat)
      requires Valid() && p < |procs| && !Calling(lock, p)
      ensures procs[p].proc.caller == P.Idle
    {
      SafeAt(run, |run.actions|);
      assert EntryOk(View().reg, lock, p);
    }

    lemma ForgottenNotLive(svc: ServiceId)
      requires Valid() && lock.Forgotten? && lock.svc == svc
      ensures forall p | 0 <= p < |procs| && procs[p].svc == svc :: !Live(procs[p])
    {
      SafeAt(run, |run.actions|);
      forall p | 0 <= p < |procs| && procs[p].svc == svc ensures !Live(procs[p]) {
        assert EntryOk(View().reg, lock, p);
      }
    }

    /** Deletes the two map entries. */
    method ForgetProcess(svc: ServiceId, mode: StopMode)
      requires Valid() && lock == Halted(svc, mode)
      modifies this
      ensures Valid() && lock == Forgotten(svc, mode) && owner == old(owner)
      ensures processList == old(processList) - {svc} && activityMap == old(activityMap) - {svc}
    {
      ghost var before := View();
      processList, activityMap := processList - {svc}, activityMap - {svc};
      lock := Forgotten(svc, mode);
      Record(InStopSection(Forget), before);
    }

    // ------------------------------------------------------------ auto-sleep, activity, wake-up

    /** `RecordActivity` */
    method RecordActivity(svc: ServiceId)
      requires Valid() && lock == Free
      modifies this
      ensures Valid() && lock == Free && activityMap == old(activityMap)[svc := clock]
      ensures processList == old(processList) && procs == old(procs) && repository == old(repository)
    {
      ghost var before := View();
      activityMap, touched := activityMap[svc := clock], touched[svc := clock];
      Record(ByAnyone(Touch(svc)), before);
    }

    predicate IsIdle(svc: ServiceId, now: int)
      reads this
    {
      svc in activityMap && now - activityMap[svc] >= settings.idleTimeout
    }

    /** Of the entries that are done, exactly the idle ones that are up are listed. */
    ghost predicate Scanned(todo: set<ServiceId>, now: int, listed: seq<ServiceId>)
      reads this
    {
      && (forall svc | svc in listed :: svc in processList && IsIdle(svc, now))
      && (forall svc | svc !in todo && IsUp(svc) && IsIdle(svc, now) :: svc in listed)
    }

    /** One entry of the scan. */
    method ScanEntry(svc: ServiceId, todo: set<ServiceId>, now: int, listed: seq<ServiceId>)
      returns (more: seq<ServiceId>)
      requires Valid() && lock == Scanning(todo, now, listed) && Scanned(todo, now, listed)
      requires svc in todo && todo <= processList.Keys
      modifies this
      ensures Valid() && lock == Scanning(todo - {svc}, now, more) && Scanned(todo - {svc}, now, more)
      ensures processList == old(processList) && activityMap == old(activityMap)
    {
      hide AsyncStep, IsRun, Init, Release;
      Interleave();
      RegisteredIsActive(svc);
      more := listed;
      if IsUp(svc) && now - activityMap[svc] >= settings.idleTimeout {
        more := listed + [svc];
      }
      SetLock(BySleeper(ScanNext(svc)), Scanning(todo - {svc}, now, more));
    }

    /** The locked half of `checkAndSuspendInactiveServices`: collects the idle ids, and misses none
        that is still up at the end. */
    method ScanForIdle() returns (toSuspend: seq<ServiceId>)
      requires Valid() && lock == Free && owner == ByOther && agents.scanner == []
      modifies this
      ensures Valid() && lock == Free && agents.scanner == toSuspend
      ensures processList == old(processList) && activityMap == old(activityMap)
      ensures forall svc | svc in toSuspend :: svc in processList && IsIdle(svc, old(clock))
      ensures forall svc | IsUp(svc) && IsIdle(svc, old(clock)) :: svc in toSuspend
    {
      hide AsyncStep, IsRun, Init, Release;
      var now, todo := clock, processList.Keys;
      toSuspend := [];
      SetLock(BySleeper(ScanLock), Scanning(todo, now, []));
      while todo != {}
        invariant Valid() && lock == Scanning(todo, now, toSuspend) && todo <= processList.Keys
        invariant processList == old(processList) && activityMap == old(activityMap)
        invariant Scanned(todo, now, toSuspend)
        decreases todo
      {
        var svc :| svc in todo;
        toSuspend := ScanEntry(svc, todo, now, toSuspend);
        todo := todo - {svc};
      }
      ghost var before := View();
      lock, agents := Free, agents.(scanner := toSuspend);
      Record(BySleeper(ScanEnd), before);
    }

    /** Every registered id has an activity entry. */
    lemma RegisteredIsActive(svc: ServiceId)
      requires Valid() && svc in processList
      ensures svc in activityMap
    {
      SafeAt(run, |run.actions|);
      assert ListOk(View().reg, lock, svc);
    }

    /** The locked section of `WakeupService`, with the record read before it. */
    method WakeLocked(wake: Wake, prepared: bool, launches: bool) returns (failed: bool)
      requires Valid() && lock == Free && owner == ByOther && wake in agents.wakes
      modifies this
      ensures Valid() && lock == Free
      ensures failed <==> !old(IsUp(wake.svc)) && (wake.status == DbStopped || !prepared || !launches)
      ensures !old(IsUp(wake.svc)) && wake.status == DbStopped ==>
          && failed
          && processList == old(processList)
          && repository == old(repository)
      ensures !failed && !old(IsUp(wake.svc)) ==>
          && wake.svc in repository
          && repository[wake.svc] == DbRunning
          && wake.svc in processList
    {
      ghost var before := View();
      agents := agents.(wakes := agents.wakes - multiset{wake});
      if IsUp(wake.svc) || wake.status == DbStopped {
        Record(ByWake(WakeLock(wake)), before);
        failed := !IsUp(wake.svc);
        return;
      }
      lock := StartEntry(wake.svc);
      Record(ByWake(WakeLock(wake)), before);
      failed := StartServiceLocked(wake.svc, prepared, launches);
    }
  }
}
