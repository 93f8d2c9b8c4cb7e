/** The instance lifecycle protocol (internal/launcher).

    Everything that can touch a service interleaves here: the command runner, requests that
    wake a service, the auto-sleep scan, the deletion hook, recovery at start-up, the exit
    waiters of the processes and the handler of failure messages. The launcher lock is a
    field, `holder`, that says who is inside a locked section and where; each action is one
    access to shared state, inside or outside the lock. Repository writes are atomic and
    succeed; launching, finding a binary and delivering a signal may fail. */
module Lifecycle {
  import opened ServiceProcess

  type ServiceId = string

  datatype DbStatus = NeverStarted | DbRunning | DbStopped | Failure | Restoring | Sleeping

  /** What a stop section does once the process is gone. */
  datatype StopMode = MarkStopped | MarkSleeping | LeaveRecord

  /** Where the holder of the launcher lock is. */
  datatype Holder =
    | Free
    | StartEntry(svc: ServiceId)                          // at the top of startServiceLocked
    | InStart(svc: ServiceId, p: nat)                     // inside Start of the new process p
    | Registered(svc: ServiceId)                          // about to mark the service running
    | StartFailed(svc: ServiceId)                         // about to mark the service failed
    | StopEntry(svc: ServiceId, mode: StopMode)           // at the top of stopProcessOnlyLocked
    | InStop(svc: ServiceId, p: nat, mode: StopMode)      // inside Stop of process p
    | Halted(svc: ServiceId, mode: StopMode)              // the process is gone, about to forget it
    | Forgotten(svc: ServiceId, mode: StopMode)           // about to write the status
    | Scanning(todo: set<ServiceId>, now: int, listed: seq<ServiceId>)

  datatype Owner = ByRunner | ByOther | ByRecovery(rest: seq<ServiceId>)

  datatype CommandKind = StartIt | StopIt | RestartIt | UpgradeIt
  datatype Command = Command(svc: ServiceId, kind: CommandKind)

  datatype Runner =
    | RIdle
    | RReady(cmd: Command, status: DbStatus)     // the service record has been read
    | RAwaitStop(svc: ServiceId, thenStart: bool)
    | RStopping(svc: ServiceId, thenStart: bool)
    | RAwaitStart(svc: ServiceId)
    | RStarting

  datatype Handler = HIdle | HGot(svc: ServiceId) | HMarked(svc: ServiceId)

  /** A wake-up that has read the service record and does not hold the lock yet. */
  datatype Wake = Wake(svc: ServiceId, status: DbStatus)

  datatype Entry = Entry(svc: ServiceId, proc: Proc)

  /** The process objects, the two maps of the launcher and the persisted statuses. */
  datatype Registry = Registry(
    procs: seq<Entry>,                  // every process object ever created
    list: map<ServiceId, nat>,          // processList
    activity: map<ServiceId, int>,      // activityMap
    touched: map<ServiceId, int>,       // history: time of the last start or recorded activity
    db: map<ServiceId, DbStatus>        // persisted status
  )

  /** Everybody who is not inside a locked section. */
  datatype Agents = Agents(
    errs: seq<ServiceId>,               // errChan
    handler: Handler,
    pending: seq<Command>,
    runner: Runner,
    recovered: bool,
    scanner: seq<ServiceId>,              // toSuspend of the auto-sleep goroutine
    wakes: multiset<Wake>
  )

  /** Services whose restart policy is on-failure, and the auto-sleep limit. */
  datatype Settings = Settings(onFailure: set<ServiceId>, idleTimeout: int)

  datatype World = World(reg: Registry, holder: Holder, owner: Owner, agents: Agents, clock: int, settings: Settings)

  const ERR_CAPACITY := 10

  datatype HandlerAction = TakeMessage | MarkFailed | Republish
  datatype RunnerAction = Fetch | Dispatch(passes: bool) | LockForStop | LockForStart
  datatype WakeAction = WakeRead(svc: ServiceId) | WakeLock(wake: Wake)
  datatype SleepAction = ScanLock | ScanNext(svc: ServiceId) | ScanEnd | SuspendLock
  datatype OtherAction =
    | Publish(cmd: Command)                    // a user, or the handler, asks for a command
    | DeleteLock(svc: ServiceId)               // the deletion hook stops a service
    | Touch(svc: ServiceId)                    // RecordActivity
    | RecoverLock(order: seq<ServiceId>)       // RecoveryLastState
    | Tick(d: nat)
  datatype StartAction =
    | StartRefused | StartUnprepared | CreateProcess | InsideStart(a: ServiceProcess.Action)
    | FinishRunning | FinishFailed
  datatype StopAction = StopLookup | StopSkipped | InsideStop(a: ServiceProcess.Action) | Forget | FinishStop

  /** One access to shared state, by actor. */
  datatype Action =
    | Async(p: nat, a: ServiceProcess.Action)  // exit waiter or operating system of process object p
    | ByHandler(handler: HandlerAction)
    | ByTheRunner(runner: RunnerAction)
    | ByWake(wakeUp: WakeAction)
    | BySleeper(sleeper: SleepAction)
    | ByAnyone(other: OtherAction)
    | InStartSection(start: StartAction)
    | InStopSection(stop: StopAction)

  function Status(w: World, svc: ServiceId): DbStatus {
    if svc in w.reg.db then w.reg.db[svc] else NeverStarted
  }

  predicate IsRunning(w: World, svc: ServiceId) {
    svc in w.reg.list && w.reg.list[svc] < |w.reg.procs| && w.reg.procs[w.reg.list[svc]].proc.status == Running
  }

  /** The accesses that Start and Stop of a process object make themselves. */
  predicate OfStart(a: ServiceProcess.Action) {
    a == MarkStarting || a == SpawnOk || a == SpawnFail || a == FinishStart
  }

  predicate OfStop(a: ServiceProcess.Action) {
    a == BeginStop || a == MarkStopping || a == SignalOk || a == SignalFail || a == Revert || a == ChanClosed
      || a == TimeoutKill
  }

  /** `order` lists each service that is persisted as running, once. */
  predicate IsRunningOrder(w: World, order: seq<ServiceId>) {
    && (forall svc | svc in order :: svc in w.reg.db && w.reg.db[svc] == DbRunning)
    && (forall svc | svc in w.reg.db && w.reg.db[svc] == DbRunning :: svc in order)
    && (forall i, j | 0 <= i < j < |order| :: order[i] != order[j])
  }

  function SetProc(w: World, p: nat, q: Proc): World
    requires p < |w.reg.procs|
  {
    w.(reg := w.reg.(procs := w.reg.procs[p := w.reg.procs[p].(proc := q)]))
  }

  /** The end of a locked section; `ok` tells its caller whether it succeeded. */
  function Release(w: World, ok: bool): (r: World)
    ensures r.reg == w.reg && r.settings == w.settings && r.clock == w.clock
    ensures r.holder.Free? || r.holder.StartEntry?
    ensures r.agents == w.agents.(runner := r.agents.runner)
  {
    match w.owner
    case ByRecovery(rest) =>
      if rest == [] then w.(holder := Free, owner := ByOther)
      else w.(holder := StartEntry(rest[0]), owner := ByRecovery(rest[1..]))
    case ByRunner =>
      var next := if ok && w.agents.runner.RStopping? && w.agents.runner.thenStart
        then RAwaitStart(w.agents.runner.svc) else RIdle;
      w.(holder := Free, owner := ByOther, agents := w.agents.(runner := next))
    case ByOther => w.(holder := Free)
  }

  /** An action of an exit waiter; a report needs room in the error channel. */
  function AsyncStep(w: World, p: nat, a: ServiceProcess.Action): World {
    if p < |w.reg.procs| && Asynchronous(a) && Enabled(w.reg.procs[p].proc, a) && (a.Report?
      ==> |w.agents.errs| < ERR_CAPACITY) then
      var w' := SetProc(w, p, ServiceProcess.Step(w.reg.procs[p].proc, a));
      if a.Report? then w'.(agents := w'.agents.(errs := w.agents.errs + [w.reg.procs[p].svc])) else w'
    else w
  }

  /** `handleServiceErrors` */
  function HandlerStep(w: World, a: HandlerAction): World {
    match a
    case TakeMessage =>
      if w.agents.handler == HIdle && w.agents.errs != []
        then w.(agents := w.agents.(handler := HGot(w.agents.errs[0]), errs := w.agents.errs[1..])) else w
    case MarkFailed =>
      if w.agents.handler.HGot? then
        w.(reg := w.reg.(db := w.reg.db[w.agents.handler.svc := Failure]),
           agents := w.agents.(handler := HMarked(w.agents.handler.svc)))
      else w
    case Republish =>
      if !w.agents.handler.HMarked? then w
      else if w.agents.handler.svc in w.settings.onFailure
        then w.(agents := w.agents.(handler := HIdle,
          pending := w.agents.pending + [Command(w.agents.handler.svc, StartIt)]))
      else w.(agents := w.agents.(handler := HIdle))
  }

  /** `evaluateCommand`, up to the first locked section. */
  function DispatchCommand(w: World, cmd: Command, status: DbStatus, passes: bool): World {
    match cmd.kind
    case StartIt => w.(agents := w.agents.(runner := RAwaitStart(cmd.svc)))
    case StopIt => w.(agents := w.agents.(runner := RAwaitStop(cmd.svc, false)))
    // The running test of a restart is made without the lock.
    case RestartIt =>
      var next := if IsRunning(w, cmd.svc) then RAwaitStop(cmd.svc, true) else RAwaitStart(cmd.svc);
      w.(agents := w.agents.(runner := next))
    case UpgradeIt =>
      w.(agents := w.agents.(runner := if status == DbStopped && passes then RAwaitStart(cmd.svc) else RIdle))
  }

  function RunnerStep(w: World, a: RunnerAction): World {
    match a
    case Fetch =>
      if w.agents.recovered && w.agents.runner == RIdle && w.agents.pending != [] then
        w.(agents := w.agents.(runner := RReady(w.agents.pending[0], Status(w, w.agents.pending[0].svc)),
          pending := w.agents.pending[1..]))
      else w
    case Dispatch(passes) =>
      if w.agents.runner.RReady? then DispatchCommand(w, w.agents.runner.cmd, w.agents.runner.status, passes) else w
    case LockForStop =>
      if w.holder == Free && w.agents.runner.RAwaitStop? then
        w.(holder := StopEntry(w.agents.runner.svc, MarkStopped), owner := ByRunner,
          agents := w.agents.(runner := RStopping(w.agents.runner.svc, w.agents.runner.thenStart)))
      else w
    case LockForStart =>
      if w.holder == Free && w.agents.runner.RAwaitStart? then
        w.(holder := StartEntry(w.agents.runner.svc), owner := ByRunner, agents := w.agents.(runner := RStarting))
      else w
  }

  /** `WakeupService`: the record is read first, the lock is taken later. */
  function WakeStep(w: World, a: WakeAction): World {
    match a
    case WakeRead(svc) =>
      if svc in w.reg.db
        then w.(agents := w.agents.(wakes := w.agents.wakes + multiset{Wake(svc, Status(w, svc))})) else w
    case WakeLock(wake) =>
      if w.holder != Free || wake !in w.agents.wakes then w
      else
        var w' := w.(agents := w.agents.(wakes := w.agents.wakes - multiset{wake}));
        if IsRunning(w, wake.svc) || wake.status == DbStopped then w'
        else w'.(holder := StartEntry(wake.svc), owner := ByOther)
  }

  /** The scan looks at one entry of processList. */
  function ScanOne(w: World, todo: set<ServiceId>, now: int, listed: seq<ServiceId>, svc: ServiceId): World {
    var rest := Scanning(todo - {svc}, now, listed);
    if !IsRunning(w, svc) then w.(holder := rest)
    else if svc !in w.reg.activity then w.(holder := rest, reg := w.reg.(activity := w.reg.activity[svc := now]))
    else if now - w.reg.activity[svc] >= w.settings.idleTimeout then
      w.(holder := rest.(listed := listed + [svc]))
    else w.(holder := rest)
  }

  /** `checkAndSuspendInactiveServices` */
  function SleepStep(w: World, a: SleepAction): World {
    match a
    case ScanLock =>
      if w.holder == Free && w.agents.scanner == []
        then w.(holder := Scanning(w.reg.list.Keys, w.clock, []), owner := ByOther) else w
    case ScanNext(svc) =>
      if w.holder.Scanning? && svc in w.holder.todo
        then ScanOne(w, w.holder.todo, w.holder.now, w.holder.listed, svc) else w
    case ScanEnd =>
      if w.holder.Scanning? && w.holder.todo == {}
        then w.(holder := Free, agents := w.agents.(scanner := w.holder.listed)) else w
    case SuspendLock =>
      if w.holder == Free && w.agents.scanner != [] then
        w.(holder := StopEntry(w.agents.scanner[0], MarkSleeping), owner := ByOther,
          agents := w.agents.(scanner := w.agents.scanner[1..]))
      else w
  }

  function OtherStep(w: World, a: OtherAction): World {
    match a
    case Publish(cmd) => if cmd.svc in w.reg.db then w.(agents := w.agents.(pending := w.agents.pending + [cmd])) else w
    case DeleteLock(svc) => if w.holder == Free then w.(holder := StopEntry(svc, LeaveRecord), owner := ByOther) else w
    case Touch(svc) =>
      if w.holder == Free then
        w.(reg := w.reg.(activity := w.reg.activity[svc := w.clock], touched := w.reg.touched[svc := w.clock]))
      else w
    case RecoverLock(order) =>
      if w.holder != Free || w.agents.recovered || !IsRunningOrder(w, order) then w
      else if order == [] then w.(agents := w.agents.(recovered := true))
      else w.(holder := StartEntry(order[0]), owner := ByRecovery(order[1..]), agents := w.agents.(recovered := true))
    case Tick(d) => w.(clock := w.clock + d)
  }

  /** Inside `Start` of the new process object; when it returns, the object is registered. */
  function InsideStartStep(w: World, svc: ServiceId, p: nat, a: ServiceProcess.Action): World {
    if p < |w.reg.procs| && OfStart(a) && Enabled(w.reg.procs[p].proc, a) then
      var w' := SetProc(w, p, ServiceProcess.Step(w.reg.procs[p].proc, a));
      if a == SpawnFail then w'.(holder := StartFailed(svc))
      else if a == FinishStart then
        w'.(holder := Registered(svc), reg := w'.reg.(list := w.reg.list[svc := p],
          activity := w.reg.activity[svc := w.clock], touched := w.reg.touched[svc := w.clock]))
      else w'
    else w
  }

  /** `startServiceLocked` */
  function StartStep(w: World, a: StartAction): World {
    match a
    case StartRefused => if w.holder.StartEntry? && IsRunning(w, w.holder.svc) then Release(w, false) else w
    case StartUnprepared => if w.holder.StartEntry? && !IsRunning(w, w.holder.svc) then Release(w, false) else w
    case CreateProcess =>
      if w.holder.StartEntry? && !IsRunning(w, w.holder.svc) then
        var entry := Entry(w.holder.svc, ServiceProcess.Step(NEW_PROC, BeginStart));
        w.(holder := InStart(w.holder.svc, |w.reg.procs|), reg := w.reg.(procs := w.reg.procs + [entry]))
      else w
    case InsideStart(b) => if w.holder.InStart? then InsideStartStep(w, w.holder.svc, w.holder.p, b) else w
    case FinishRunning =>
      if w.holder.Registered?
        then Release(w.(reg := w.reg.(db := w.reg.db[w.holder.svc := DbRunning])), true) else w
    case FinishFailed =>
      if w.holder.StartFailed?
        then Release(w.(reg := w.reg.(db := w.reg.db[w.holder.svc := Failure])), false) else w
  }

  /** Inside `Stop` of a registered process object. */
  function InsideStopStep(w: World, svc: ServiceId, p: nat, mode: StopMode, a: ServiceProcess.Action): World {
    if p < |w.reg.procs| && OfStop(a) && Enabled(w.reg.procs[p].proc, a) then
      var w' := SetProc(w, p, ServiceProcess.Step(w.reg.procs[p].proc, a));
      if a == Revert then Release(w', false)
      else if a == ChanClosed || a == TimeoutKill then w'.(holder := Halted(svc, mode))
      else w'
    else w
  }

  /** The status that a stop section leaves. */
  function Marked(db: map<ServiceId, DbStatus>, svc: ServiceId, mode: StopMode): map<ServiceId, DbStatus> {
    match mode
    case MarkStopped => db[svc := DbStopped]
    case MarkSleeping => db[svc := Sleeping]
    case LeaveRecord => db
  }

  /** `stopProcessOnlyLocked` and the status writes of its three callers */
  function StopStep(w: World, a: StopAction): World {
    match a
    case StopLookup =>
      if !w.holder.StopEntry? then w
      else if IsRunning(w, w.holder.svc) then
        w.(holder := InStop(w.holder.svc, w.reg.list[w.holder.svc], w.holder.mode))
      else if w.holder.svc in w.reg.list then w.(holder := Halted(w.holder.svc, w.holder.mode))
      else w.(holder := Forgotten(w.holder.svc, w.holder.mode))
    case StopSkipped =>
      if w.holder.InStop? && w.holder.p < |w.reg.procs| && w.reg.procs[w.holder.p].proc.caller == Idle
        && w.reg.procs[w.holder.p].proc.status != Running then
        w.(holder := Halted(w.holder.svc, w.holder.mode))
      else w
    case InsideStop(b) => if w.holder.InStop? then InsideStopStep(w, w.holder.svc, w.holder.p, w.holder.mode, b) else w
    case Forget =>
      if w.holder.Halted? then
        var svc := w.holder.svc;
        w.(holder := Forgotten(svc, w.holder.mode), reg := w.reg.(list := w.reg.list - {svc},
          activity := w.reg.activity - {svc}))
      else w
    case FinishStop =>
      if w.holder.Forgotten? then Release(w.(reg := w.reg.(db := Marked(w.reg.db, w.holder.svc, w.holder.mode))),
        true) else w
  }

  /** An action whose guard is false does nothing, so every sequence of actions is a run. */
  function Step(w: World, a: Action): World {
    match a
    case Async(p, b) => AsyncStep(w, p, b)
    case ByHandler(b) => HandlerStep(w, b)
    case ByTheRunner(b) => RunnerStep(w, b)
    case ByWake(b) => WakeStep(w, b)
    case BySleeper(b) => SleepStep(w, b)
    case ByAnyone(b) => OtherStep(w, b)
    case InStartSection(b) => StartStep(w, b)
    case InStopSection(b) => StopStep(w, b)
  }

  /** A run: the worlds passed through and the action between each two of them. */
  datatype Run = Run(worlds: seq<World>, actions: seq<Action>)

  ghost predicate Moves(r: Run, i: nat)
    requires |r.worlds| == |r.actions| + 1 && i < |r.actions|
  {
    r.worlds[i + 1] == Step(r.worlds[i], r.actions[i])
  }

  ghost predicate IsRun(r: Run) {
    && |r.worlds| == |r.actions| + 1
    && forall i: nat {:trigger Moves(r, i)} | i < |r.actions| :: Moves(r, i)
  }

  /** The launcher has just been constructed: no process objects and nobody is doing anything. */
  predicate Init(w: World) {
    && w.reg.procs == [] && w.reg.list == map[] && w.reg.activity == map[] && w.reg.touched == map[]
    && w.holder == Free && w.owner == ByOther && w.agents.errs == [] && w.agents.handler == HIdle
    && w.agents.runner == RIdle && !w.agents.recovered && w.agents.scanner == [] && w.agents.wakes == multiset{}
  }
}
