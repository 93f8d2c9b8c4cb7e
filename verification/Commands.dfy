/** What a command comes to: which section the runner enters for it, how that section ends in every
    run, and that commands and failure messages are taken in order, each once. */
module Commands {
  import P = ServiceProcess
  import opened Lifecycle
  import opened LifecycleSafety
  import opened LifecycleTheorems
  import opened Continuations

  // ---------------------------------------------------------------- which section a command enters

  /** The lock is free and the runner is about to execute a command of `svc`. */
  predicate About(w: World, svc: ServiceId, kind: CommandKind, status: DbStatus) {
    w.holder == Free && w.agents.runner == RReady(Command(svc, kind), status)
  }

  function Executed(w: World, passes: bool): World {
    Step(w, ByTheRunner(Dispatch(passes)))
  }

  /** The runner tries to take the lock. */
  function ThenStarts(w: World): World {
    Step(w, ByTheRunner(LockForStart))
  }

  function ThenStops(w: World): World {
    Step(w, ByTheRunner(LockForStop))
  }

  /** The runner is at the top of startServiceLocked for `svc`. */
  function EnteredStart(w: World, svc: ServiceId): World {
    w.(holder := StartEntry(svc), owner := ByRunner, agents := w.agents.(runner := RStarting))
  }

  /** The runner is at the top of a stop of `svc` that persists Stopped. */
  function EnteredStop(w: World, svc: ServiceId, thenStart: bool): World {
    w.(holder := StopEntry(svc, MarkStopped), owner := ByRunner,
       agents := w.agents.(runner := RStopping(svc, thenStart)))
  }

  /** The command leads to this section, and to no other. */
  predicate LeadsToStart(w: World, v: World, svc: ServiceId) {
    v.reg == w.reg && ThenStarts(v) == EnteredStart(w, svc) && ThenStops(v) == v
  }

  predicate LeadsToStop(w: World, v: World, svc: ServiceId, thenStart: bool) {
    v.reg == w.reg && ThenStops(v) == EnteredStop(w, svc, thenStart) && ThenStarts(v) == v
  }

  lemma StartStarts(w: World, svc: ServiceId, status: DbStatus, passes: bool)
    requires About(w, svc, StartIt, status)
    ensures LeadsToStart(w, Executed(w, passes), svc)
  {}

  lemma StopStops(w: World, svc: ServiceId, status: DbStatus, passes: bool)
    requires About(w, svc, StopIt, status)
    ensures LeadsToStop(w, Executed(w, passes), svc, false)
  {}

  /** A restart stops first if and only if the service is running. */
  lemma RestartStopsIffRunning(w: World, svc: ServiceId, status: DbStatus, passes: bool)
    requires About(w, svc, RestartIt, status)
    ensures LeadsToStop(w, Executed(w, passes), svc, true) <==> IsRunning(w, svc)
    ensures LeadsToStart(w, Executed(w, passes), svc) <==> !IsRunning(w, svc)
  {}

  /** An upgrade starts if and only if its record read stopped and its checks pass; otherwise nothing
      happens and the runner goes on. */
  lemma UpgradeStartsIffStopped(w: World, svc: ServiceId, status: DbStatus, passes: bool)
    requires About(w, svc, UpgradeIt, status)
    ensures LeadsToStart(w, Executed(w, passes), svc) <==> status == DbStopped && passes
    ensures Executed(w, passes) == w.(agents := w.agents.(runner := RIdle)) <==> !(status == DbStopped && passes)
  {}

  // ---------------------------------------------------------------- what the others leave alone

  /** The section, its owner and everything in the registry that only a section changes. */
  ghost predicate SameSection(w: World, v: World) {
    && v.holder == w.holder && v.owner == w.owner && v.reg.list == w.reg.list && |v.reg.procs| == |w.reg.procs|
    && forall p: nat | p < |w.reg.procs| :: SameCall(w.reg.procs[p], v.reg.procs[p])
  }

  predicate SameCall(e: Entry, f: Entry) {
    f.svc == e.svc && |f.proc.spawns| == |e.proc.spawns| && f.proc.caller == e.proc.caller
  }

  predicate InSection(w: World) {
    w.holder != Free && !w.holder.Scanning?
  }

  lemma AsyncSameCall(q: P.Proc, a: P.Action)
    requires P.Asynchronous(a)
    ensures |P.Step(q, a).spawns| == |q.spawns| && P.Step(q, a).caller == q.caller
  {}

  lemma AsyncSameSection(w: World, p: nat, a: P.Action)
    ensures SameSection(w, AsyncStep(w, p, a)) && AsyncStep(w, p, a).agents.runner == w.agents.runner
  {
    if p < |w.reg.procs| && P.Asynchronous(a) { AsyncSameCall(w.reg.procs[p].proc, a); }
    hide P.Step, P.Enabled;
  }

  /** While a section is held, everybody outside leaves it alone, and the runner if it is inside. */
  lemma OthersKeepSection(w: World, a: Action)
    requires InSection(w) && !a.InStartSection? && !a.InStopSection?
    ensures SameSection(w, Step(w, a))
    ensures w.agents.runner.RStarting? || w.agents.runner.RStopping? ==> Step(w, a).agents.runner == w.agents.runner
  {
    hide IsRunning, IsRunningOrder;
    match a
    case Async(p, b) => AsyncSameSection(w, p, b);
    case ByHandler(b) =>
    case ByTheRunner(b) => hide DispatchCommand;
    case ByWake(b) =>
    case BySleeper(b) =>
    case ByAnyone(b) =>
  }

  /** The section ends: what becomes of the lock and of the runner. */
  predicate Ended(w: World, v: World, ok: bool) {
    && (w.owner == ByOther ==> v.holder == Free && v.owner == ByOther && v.agents == w.agents)
    && (w.owner == ByRunner ==>
          && v.holder == Free && v.owner == ByOther
          && v.agents.runner == (match w.agents.runner
                                 case RStopping(svc, thenStart) =>
                                   if ok && thenStart then RAwaitStart(svc) else RIdle
                                 case _ => RIdle))
    && (w.owner.ByRecovery? ==>
          && v.agents.runner == w.agents.runner
          && (w.owner.rest == [] ==> v.holder == Free && v.owner == ByOther)
          && (w.owner.rest != [] ==>
                v.holder == StartEntry(w.owner.rest[0]) && v.owner == ByRecovery(w.owner.rest[1..])))
  }

  lemma ReleaseEnds(w: World, u: World, ok: bool)
    requires u.owner == w.owner && u.agents == w.agents
    ensures Ended(w, Release(u, ok), ok)
  {}

  // ---------------------------------------------------------------- a start section

  /** The object that a start section makes has its process from the launch on. */
  predicate NewObject(g0: Registry, g: Registry, svc: ServiceId, launched: bool) {
    && |g.procs| == |g0.procs| + 1 && g.procs[|g0.procs|].svc == svc
    && |g.procs[|g0.procs|].proc.spawns| == (if launched then 1 else 0)
  }

  /** A start section of `svc` that began with registry `g0` is at `w`. */
  predicate StartingUp(g0: Registry, w: World, svc: ServiceId) {
    match w.holder
    case StartEntry(s) => s == svc && w.reg.list == g0.list && |w.reg.procs| == |g0.procs|
    case InStart(s, p) =>
      && s == svc && w.reg.list == g0.list && p == |g0.procs| && p < |w.reg.procs|
      && NewObject(g0, w.reg, svc, w.reg.procs[p].proc.caller == P.Launched)
    case Registered(s) =>
      s == svc && w.reg.list == g0.list[svc := |g0.procs|] && NewObject(g0, w.reg, svc, true)
    case StartFailed(s) => s == svc && w.reg.list == g0.list
    case _ => false
  }

  lemma StartingUpKept(g0: Registry, w: World, v: World, svc: ServiceId)
    requires StartingUp(g0, w, svc) && SameSection(w, v)
    ensures StartingUp(g0, v, svc)
  {
    if |w.reg.procs| > |g0.procs| { assert SameCall(w.reg.procs[|g0.procs|], v.reg.procs[|g0.procs|]); }
  }

  lemma StartCallShape(q: P.Proc, a: P.Action)
    requires OfStart(a) && P.Enabled(q, a) && |q.spawns| == (if q.caller == P.Launched then 1 else 0)
    ensures var r := P.Step(q, a);
            && (a == P.FinishStart ==> |r.spawns| == 1)
            && (a == P.MarkStarting || a == P.SpawnOk ==> |r.spawns| == (if r.caller == P.Launched then 1 else 0))
  {}

  /** How a start section ends, with its last step from `u` to `v`. */
  predicate StartOutcome(g0: Registry, u: World, v: World, a: Action, svc: ServiceId) {
    // started: the new object is registered and the service is persisted as running
    || (a == InStartSection(FinishRunning) && v.reg.list == g0.list[svc := |g0.procs|]
        && NewObject(g0, v.reg, svc, true) && v.reg.db == u.reg.db[svc := DbRunning] && Ended(u, v, true))
    // the launch failed: persisted as failure
    || (a == InStartSection(FinishFailed) && v.reg.list == g0.list && v.reg.db == u.reg.db[svc := Failure]
        && Ended(u, v, false))
    // refused because the service is running
    || (a == InStartSection(StartRefused) && v.reg == u.reg && v.reg.list == g0.list && IsRunning(u, svc)
        && Ended(u, v, false))
    // the service cannot be prepared
    || (a == InStartSection(StartUnprepared) && v.reg == u.reg && v.reg.list == g0.list && !IsRunning(u, svc)
        && Ended(u, v, false))
  }

  lemma StartMove(g0: Registry, w: World, a: StartAction, svc: ServiceId)
    requires StartingUp(g0, w, svc)
    ensures var v := StartStep(w, a);
            || (StartingUp(g0, v, svc) && v.owner == w.owner && v.agents == w.agents)
            || StartOutcome(g0, w, v, InStartSection(a), svc)
  {
    match a
    case StartRefused => hide IsRunning; ReleaseEnds(w, w, false); hide Ended, Release;
    case StartUnprepared => hide IsRunning; ReleaseEnds(w, w, false); hide Ended, Release;
    case CreateProcess => hide IsRunning;
    case InsideStart(b) => if w.holder.InStart? { InsideStartMove(g0, w, b, svc); }
    case FinishRunning =>
      if w.holder.Registered? {
        var u := w.(reg := w.reg.(db := w.reg.db[svc := DbRunning]));
        ReleaseEnds(w, u, true);
        hide Ended, Release;
      }
    case FinishFailed =>
      if w.holder.StartFailed? {
        var u := w.(reg := w.reg.(db := w.reg.db[svc := Failure]));
        ReleaseEnds(w, u, false);
        hide Ended, Release;
      }
  }

  lemma InsideStartMove(g0: Registry, w: World, a: P.Action, svc: ServiceId)
    requires StartingUp(g0, w, svc) && w.holder.InStart?
    ensures var v := InsideStartStep(w, w.holder.svc, w.holder.p, a);
            StartingUp(g0, v, svc) && v.owner == w.owner && v.agents == w.agents
  {
    var q := w.reg.procs[w.holder.p].proc;
    if OfStart(a) && P.Enabled(q, a) {
      StartCallShape(q, a);
    }
    hide P.Step, P.Enabled;
  }

  /** What the runner does inside a section does not change while the section goes on. */
  predicate SameOwner(w: World, v: World) {
    v.owner == w.owner && (w.owner == ByRunner ==> v.agents.runner == w.agents.runner)
  }

  /** The start section of `svc` that began in world `m` goes on in world `n`. */
  ghost predicate StartGoesOn(r: Run, m: nat, n: nat, svc: ServiceId)
    requires IsRun(r) && m < |r.worlds| && n < |r.worlds|
  {
    StartingUp(r.worlds[m].reg, r.worlds[n], svc) && SameOwner(r.worlds[m], r.worlds[n])
  }

  /** It ends with step `e`. */
  ghost predicate StartEnds(r: Run, m: nat, e: nat, svc: ServiceId)
    requires IsRun(r) && m < |r.worlds| && e < |r.actions|
  {
    && StartGoesOn(r, m, e, svc)
    && StartOutcome(r.worlds[m].reg, r.worlds[e], r.worlds[e + 1], r.actions[e], svc)
  }

  /** In every run: from the lock on, a start section goes on until one of its four ends, whoever began
      it and whatever happens meanwhile. */
  lemma {:induction false} StartSectionEnds(r: Run, m: nat, n: nat, svc: ServiceId)
    requires IsRun(r) && m <= n < |r.worlds| && r.worlds[m].holder == StartEntry(svc) && OwnerOk(r.worlds[m])
    ensures StartGoesOn(r, m, n, svc) || exists e: nat :: m <= e < n && StartEnds(r, m, e, svc)
  {
    if m < n {
      StartSectionEnds(r, m, n - 1, svc);
      if StartGoesOn(r, m, n - 1, svc) {
        assert Moves(r, n - 1);
        hide Step, StartingUp, StartOutcome;
        StartSectionMove(r.worlds[m], r.worlds[n - 1], r.actions[n - 1], svc);
        if !StartGoesOn(r, m, n, svc) {
          assert StartEnds(r, m, n - 1, svc);
        }
      }
    }
  }

  lemma StartSectionMove(w0: World, w: World, a: Action, svc: ServiceId)
    requires OwnerOk(w0) && StartingUp(w0.reg, w, svc) && SameOwner(w0, w)
    ensures var v := Step(w, a);
            (StartingUp(w0.reg, v, svc) && SameOwner(w0, v)) || StartOutcome(w0.reg, w, v, a, svc)
  {
    if a.InStartSection? {
      StartMove(w0.reg, w, a.start, svc);
      hide StartStep, StartingUp, StartOutcome;
    } else if a.InStopSection? {
    } else {
      OthersKeepSection(w, a);
      StartingUpKept(w0.reg, w, Step(w, a), svc);
      hide Step, StartingUp;
    }
  }

  // ---------------------------------------------------------------- a stop section

  /** A stop section of `svc` that began with registry `g0` is at `w`. */
  predicate StoppingDown(g0: Registry, w: World, svc: ServiceId, mode: StopMode) {
    match w.holder
    case StopEntry(s, d) => s == svc && d == mode && w.reg.list == g0.list
    case InStop(s, p, d) => s == svc && d == mode && w.reg.list == g0.list && svc in g0.list && p == g0.list[svc]
    case Halted(s, d) => s == svc && d == mode && w.reg.list == g0.list
    case Forgotten(s, d) => s == svc && d == mode && w.reg.list == g0.list - {svc}
    case _ => false
  }

  /** How a stop section ends, with its last step from `u` to `v`. */
  predicate StopOutcome(g0: Registry, u: World, v: World, a: Action, svc: ServiceId, mode: StopMode) {
    // the service is not registered and its record says what the caller asked for
    || (a == InStopSection(FinishStop) && v.reg.list == g0.list - {svc} && Ended(u, v, true)
        && (mode == MarkStopped ==> v.reg.db == u.reg.db[svc := DbStopped])
        && (mode == MarkSleeping ==> v.reg.db == u.reg.db[svc := Sleeping])
        && (mode == LeaveRecord ==> v.reg.db == u.reg.db))
    // Stop has failed: registered and running, and its record is as it was
    || (a == InStopSection(InsideStop(P.Revert)) && v.reg.list == g0.list && v.reg.db == u.reg.db && Ended(u, v, false)
        && IsRunning(v, svc))
  }

  lemma StopMove(g0: Registry, w: World, a: StopAction, svc: ServiceId, mode: StopMode)
    requires StoppingDown(g0, w, svc, mode)
    ensures var v := StopStep(w, a);
            || (StoppingDown(g0, v, svc, mode) && v.owner == w.owner && v.agents == w.agents)
            || StopOutcome(g0, w, v, InStopSection(a), svc, mode)
  {
    match a
    case StopLookup =>
      if w.holder.StopEntry? && svc !in w.reg.list { assert w.reg.list - {svc} == w.reg.list; }
    case StopSkipped =>
    case InsideStop(b) => if w.holder.InStop? { InsideStopMove(g0, w, b, svc, mode); }
    case Forget =>
    case FinishStop =>
      if w.holder.Forgotten? {
        ReleaseEnds(w, w.(reg := w.reg.(db := Marked(w.reg.db, svc, mode))), true);
        hide Ended, Release;
      }
  }

  lemma InsideStopMove(g0: Registry, w: World, a: P.Action, svc: ServiceId, mode: StopMode)
    requires StoppingDown(g0, w, svc, mode) && w.holder.InStop?
    ensures var v := InsideStopStep(w, svc, w.holder.p, mode, a);
            || (StoppingDown(g0, v, svc, mode) && v.owner == w.owner && v.agents == w.agents)
            || StopOutcome(g0, w, v, InStopSection(InsideStop(a)), svc, mode)
  {
    var p := w.holder.p;
    if p < |w.reg.procs| && OfStop(a) && P.Enabled(w.reg.procs[p].proc, a) {
      var q := w.reg.procs[p].proc;
      assert a == P.Revert ==> P.Step(q, a).status == P.Running;
      hide P.Step, P.Enabled, Ended, Release;
      if a == P.Revert {
        RevertedStop(g0, w, SetProc(w, p, P.Step(q, a)), svc, mode);
      }
    }
    hide P.Step, P.Enabled, Ended, Release, StopOutcome;
  }

  lemma RevertedStop(g0: Registry, w: World, u: World, svc: ServiceId, mode: StopMode)
    requires u.owner == w.owner && u.agents == w.agents && u.reg.list == g0.list && u.reg.db == w.reg.db
    requires IsRunning(u, svc)
    ensures StopOutcome(g0, w, Release(u, false), InStopSection(InsideStop(P.Revert)), svc, mode)
  {
    ReleaseEnds(w, u, false);
    hide Ended;
  }

  lemma StoppingDownKept(g0: Registry, w: World, v: World, svc: ServiceId, mode: StopMode)
    requires StoppingDown(g0, w, svc, mode) && SameSection(w, v)
    ensures StoppingDown(g0, v, svc, mode)
  {}

  lemma StopSectionMove(w0: World, w: World, a: Action, svc: ServiceId, mode: StopMode)
    requires OwnerOk(w0) && StoppingDown(w0.reg, w, svc, mode) && SameOwner(w0, w)
    ensures var v := Step(w, a);
            (StoppingDown(w0.reg, v, svc, mode) && SameOwner(w0, v)) || StopOutcome(w0.reg, w, v, a, svc, mode)
  {
    if a.InStopSection? {
      StopMove(w0.reg, w, a.stop, svc, mode);
      hide StopStep, StoppingDown, StopOutcome;
    } else if a.InStartSection? {
    } else {
      OthersKeepSection(w, a);
      StoppingDownKept(w0.reg, w, Step(w, a), svc, mode);
      hide Step, StoppingDown;
    }
  }

  ghost predicate StopGoesOn(r: Run, m: nat, n: nat, svc: ServiceId, mode: StopMode)
    requires IsRun(r) && m < |r.worlds| && n < |r.worlds|
  {
    StoppingDown(r.worlds[m].reg, r.worlds[n], svc, mode) && SameOwner(r.worlds[m], r.worlds[n])
  }

  ghost predicate StopEnds(r: Run, m: nat, e: nat, svc: ServiceId, mode: StopMode)
    requires IsRun(r) && m < |r.worlds| && e < |r.actions|
  {
    && StopGoesOn(r, m, e, svc, mode)
    && StopOutcome(r.worlds[m].reg, r.worlds[e], r.worlds[e + 1], r.actions[e], svc, mode)
  }

  ghost predicate StopTakesItsCourse(r: Run, m: nat, n: nat, svc: ServiceId, mode: StopMode)
    requires IsRun(r) && m <= n < |r.worlds|
  {
    StopGoesOn(r, m, n, svc, mode) || exists e: nat :: m <= e < n && StopEnds(r, m, e, svc, mode)
  }

  /** In every run: from the lock on, a stop section goes on until one of its two ends. */
  lemma {:induction false} StopSectionEnds(r: Run, m: nat, n: nat, svc: ServiceId, mode: StopMode)
    requires IsRun(r) && m <= n < |r.worlds| && r.worlds[m].holder == StopEntry(svc, mode) && OwnerOk(r.worlds[m])
    ensures StopTakesItsCourse(r, m, n, svc, mode)
  {
    if m < n {
      StopSectionEnds(r, m, n - 1, svc, mode);
      if StopGoesOn(r, m, n - 1, svc, mode) {
        assert Moves(r, n - 1);
        hide Step, StoppingDown, StopOutcome;
        StopSectionMove(r.worlds[m], r.worlds[n - 1], r.actions[n - 1], svc, mode);
        if !StopGoesOn(r, m, n, svc, mode) {
          assert StopEnds(r, m, n - 1, svc, mode);
        }
      }
    }
  }

  // ---------------------------------------------------------------- what a command comes to

  /** From world `m` on the runner waits for the lock, then is in a start section of `svc`, then that
      section has ended: world `n` is at one of these. */
  ghost predicate StartComes(r: Run, m: nat, n: nat, svc: ServiceId)
    requires IsRun(r) && m <= n < |r.worlds|
  {
    || r.worlds[n].agents.runner == RAwaitStart(svc)
    || exists l: nat :: m < l <= n && StartCame(r, l, n, svc)
  }

  /** The runner has entered the start section in world `l`. */
  ghost predicate StartCame(r: Run, l: nat, n: nat, svc: ServiceId)
    requires IsRun(r) && 0 < l <= n < |r.worlds|
  {
    && r.worlds[l - 1].holder == Free && r.worlds[l] == EnteredStart(r.worlds[l - 1], svc)
    && (StartGoesOn(r, l, n, svc) || exists e: nat :: l <= e < n && StartEnds(r, l, e, svc))
  }

  ghost predicate StopComes(r: Run, m: nat, n: nat, svc: ServiceId, thenStart: bool)
    requires IsRun(r) && m <= n < |r.worlds|
  {
    || r.worlds[n].agents.runner == RAwaitStop(svc, thenStart)
    || exists l: nat :: m < l <= n && StopCame(r, l, n, svc, thenStart)
  }

  ghost predicate StopCame(r: Run, l: nat, n: nat, svc: ServiceId, thenStart: bool)
    requires IsRun(r) && 0 < l <= n < |r.worlds|
  {
    && r.worlds[l - 1].holder == Free && r.worlds[l] == EnteredStop(r.worlds[l - 1], svc, thenStart)
    && (StopGoesOn(r, l, n, svc, MarkStopped) ||
        exists e: nat :: l <= e < n && StopThenStart(r, l, e, n, svc, thenStart))
  }

  /** The stop section of a restart has ended with step `e`; if it succeeded, the start comes. */
  ghost predicate StopThenStart(r: Run, l: nat, e: nat, n: nat, svc: ServiceId, thenStart: bool)
    requires IsRun(r) && l <= e < n < |r.worlds|
  {
    && StopEnds(r, l, e, svc, MarkStopped)
    && (thenStart && r.actions[e] == InStopSection(FinishStop) ==> StartComes(r, e + 1, n, svc))
  }

  lemma WaitingForStart(w: World, a: Action, svc: ServiceId)
    requires OwnerOk(w) && w.agents.runner == RAwaitStart(svc)
    ensures var v := Step(w, a);
            v.agents.runner == RAwaitStart(svc) || (w.holder == Free && v == EnteredStart(w, svc))
  {
    if !a.ByTheRunner? { WaitingOwner(w, a); }
  }

  lemma WaitingForStop(w: World, a: Action, svc: ServiceId, thenStart: bool)
    requires OwnerOk(w) && w.agents.runner == RAwaitStop(svc, thenStart)
    ensures var v := Step(w, a);
            v.agents.runner == RAwaitStop(svc, thenStart) || (w.holder == Free && v == EnteredStop(w, svc, thenStart))
  {
    if !a.ByTheRunner? { WaitingOwner(w, a); }
  }

  /** Only its own steps move a runner that is not inside a section. */
  lemma WaitingOwner(w: World, a: Action)
    requires w.owner != ByRunner && !a.ByTheRunner?
    ensures Step(w, a).agents.runner == w.agents.runner
  {
    hide IsRunning, IsRunningOrder, P.Step, P.Enabled;
  }

  lemma {:induction false} StartIsAwaited(r: Run, m: nat, n: nat, svc: ServiceId)
    requires IsRun(r) && Init(r.worlds[0]) && m <= n < |r.worlds| && r.worlds[m].agents.runner == RAwaitStart(svc)
    ensures StartComes(r, m, n, svc)
  {
    hide Init, OwnerOk, Step, StartGoesOn, StartEnds;
    if m < n {
      StartIsAwaited(r, m, n - 1, svc);
      OwnerAt(r, n - 1);
      OwnerAt(r, n);
      if r.worlds[n - 1].agents.runner == RAwaitStart(svc) {
        assert Moves(r, n - 1);
        WaitingForStart(r.worlds[n - 1], r.actions[n - 1], svc);
        if r.worlds[n].agents.runner != RAwaitStart(svc) {
          StartSectionEnds(r, n, n, svc);
          assert StartCame(r, n, n, svc);
        }
      } else {
        var l: nat :| m < l <= n - 1 && StartCame(r, l, n - 1, svc);
        OwnerAt(r, l);
        StartSectionEnds(r, l, n, svc);
        assert StartCame(r, l, n, svc);
      }
    }
  }

  lemma {:induction false} StopIsAwaited(r: Run, m: nat, n: nat, svc: ServiceId, thenStart: bool)
    requires IsRun(r) && Init(r.worlds[0]) && m <= n < |r.worlds|
    requires r.worlds[m].agents.runner == RAwaitStop(svc, thenStart)
    ensures StopComes(r, m, n, svc, thenStart)
  {
    hide Init, OwnerOk, Step, StopGoesOn, StopEnds, StartComes;
    if m < n {
      StopIsAwaited(r, m, n - 1, svc, thenStart);
      OwnerAt(r, n - 1);
      if r.worlds[n - 1].agents.runner == RAwaitStop(svc, thenStart) {
        assert Moves(r, n - 1);
        WaitingForStop(r.worlds[n - 1], r.actions[n - 1], svc, thenStart);
        if r.worlds[n].agents.runner != RAwaitStop(svc, thenStart) {
          StopCameSince(r, n, n, svc, thenStart);
        }
      } else {
        var l: nat :| m < l <= n - 1 && StopCame(r, l, n - 1, svc, thenStart);
        StopCameSince(r, l, n, svc, thenStart);
      }
    }
  }

  lemma StopCameSince(r: Run, l: nat, n: nat, svc: ServiceId, thenStart: bool)
    requires IsRun(r) && Init(r.worlds[0]) && 0 < l <= n < |r.worlds|
    requires r.worlds[l - 1].holder == Free && r.worlds[l] == EnteredStop(r.worlds[l - 1], svc, thenStart)
    ensures StopCame(r, l, n, svc, thenStart)
  {
    hide Init, OwnerOk, Step, StartComes;
    OwnerAt(r, l);
    StopSectionEnds(r, l, n, svc, MarkStopped);
    if !StopGoesOn(r, l, n, svc, MarkStopped) {
      var e: nat :| l <= e < n && StopEnds(r, l, e, svc, MarkStopped);
      if thenStart && r.actions[e] == InStopSection(FinishStop) {
        assert r.worlds[e + 1].agents.runner == RAwaitStart(svc);
        StartIsAwaited(r, e + 1, n, svc);
      }
      assert StopThenStart(r, l, e, n, svc, thenStart);
    }
  }

  /** In every run of the launcher, what a command comes to from the step on in which the runner begins
      to execute it: a start or an accepted upgrade to a start section, a stop to a stop section that
      persists Stopped, a restart of a running service to that and then, if the stop succeeds, to a start
      section, a restart of any other to a start section alone, and a refused upgrade to nothing. */
  lemma CommandComesTo(r: Run, m: nat, n: nat, cmd: Command, status: DbStatus, passes: bool)
    requires IsRun(r) && Init(r.worlds[0]) && m < n < |r.worlds|
    requires r.worlds[m].agents.runner == RReady(cmd, status) && r.actions[m] == ByTheRunner(Dispatch(passes))
    ensures cmd.kind == StartIt ==> StartComes(r, m + 1, n, cmd.svc)
    ensures cmd.kind == StopIt ==> StopComes(r, m + 1, n, cmd.svc, false)
    ensures cmd.kind == RestartIt && IsRunning(r.worlds[m], cmd.svc) ==> StopComes(r, m + 1, n, cmd.svc, true)
    ensures cmd.kind == RestartIt && !IsRunning(r.worlds[m], cmd.svc) ==> StartComes(r, m + 1, n, cmd.svc)
    ensures cmd.kind == UpgradeIt && status == DbStopped && passes ==> StartComes(r, m + 1, n, cmd.svc)
    ensures cmd.kind == UpgradeIt && !(status == DbStopped && passes) ==>
              r.worlds[m + 1] == r.worlds[m].(agents := r.worlds[m].agents.(runner := RIdle))
  {
    assert Moves(r, m);
    var w, v := r.worlds[m], r.worlds[m + 1];
    assert v == RunnerStep(w, Dispatch(passes));
    hide Init, IsRunning, StartComes, StopComes;
    if v.agents.runner.RAwaitStart? {
      StartIsAwaited(r, m + 1, n, cmd.svc);
    } else if v.agents.runner.RAwaitStop? {
      StopIsAwaited(r, m + 1, n, cmd.svc, v.agents.runner.thenStart);
    }
  }

  /** When a stop section has succeeded, nothing of the service is left. */
  lemma StoppedIsGone(r: Run, l: nat, e: nat, svc: ServiceId, mode: StopMode)
    requires IsRun(r) && Init(r.worlds[0]) && l <= e < |r.actions|
    requires StopEnds(r, l, e, svc, mode) && r.actions[e] == InStopSection(FinishStop)
    ensures var v := r.worlds[e + 1];
            && svc !in v.reg.list && (mode == MarkStopped ==> Status(v, svc) == DbStopped)
            && forall p: nat | p < |v.reg.procs| && v.reg.procs[p].svc == svc :: !Live(v.reg.procs[p])
  {
    SafeAt(r, e);
    assert Moves(r, e);
    var w, v := r.worlds[e], r.worlds[e + 1];
    FinishKeepsObjects(w);
    hide Step, Ended, IsRun, Init, SameOwner;
    if w.holder.Forgotten? {
      forall p: nat | p < |v.reg.procs| && v.reg.procs[p].svc == svc ensures !Live(v.reg.procs[p]) {
        assert EntryOk(w.reg, w.holder, p);
      }
    }
  }

  lemma FinishKeepsObjects(w: World)
    ensures var v := Step(w, InStopSection(FinishStop)); v.reg.procs == w.reg.procs && (w.holder.Forgotten? || v == w)
  {}

  // ---------------------------------------------------------------- and that it can succeed

  /** A start of a service that is not running, with every step granted. */
  function StartRun(w: World, passes: bool): World {
    FinishStart(Launch(ThenStarts(Executed(w, passes))))
  }

  /** It leaves a live, running, registered process and the service persisted as running. */
  lemma StartCanSucceed(w: World, svc: ServiceId, status: DbStatus, passes: bool)
    requires About(w, svc, StartIt, status) && !IsRunning(w, svc)
    ensures var v, p := StartRun(w, passes), |w.reg.procs|;
            && v.holder == Free && v.agents.runner == RIdle
            && v.reg.list == w.reg.list[svc := p] && |v.reg.procs| == p + 1 && v.reg.procs[p].svc == svc
            && Live(v.reg.procs[p]) && IsRunning(v, svc)
            && v.reg.db == w.reg.db[svc := DbRunning]
  {
    StartStarts(w, svc, status, passes);
    var v1, p := EnteredStart(w, svc), |w.reg.procs|;
    LaunchEffect(v1, svc);
    LaunchedFinishes(Launch(v1), svc, p);
  }

  lemma LaunchedFinishes(v: World, svc: ServiceId, p: nat)
    requires v.holder == InStart(svc, p) && v.owner == ByRunner && v.agents.runner == RStarting
    requires |v.reg.procs| == p + 1 && v.reg.procs[p] == Entry(svc, P.MidLaunch(true, P.Waiting))
    ensures var u := FinishStart(v);
            && u.holder == Free && u.agents.runner == RIdle
            && u.reg.list == v.reg.list[svc := p] && |u.reg.procs| == p + 1 && u.reg.procs[p].svc == svc
            && Live(u.reg.procs[p]) && IsRunning(u, svc)
            && u.reg.db == v.reg.db[svc := DbRunning]
  {
    FinishStartStep(v, svc, p);
    hide InsideStartStep;
    var v1 := StartStep(v, InsideStart(P.FinishStart));
    assert v1 == Step(v, InStartSection(InsideStart(P.FinishStart)));
    hide Step;
  }

  /** A stop of a running service whose signal is delivered and whose process has to be killed. */
  function StopRun(w: World, passes: bool): World {
    StopStep(StopStep(StopCalls(StopStep(ThenStops(Executed(w, passes)), StopLookup)), Forget), FinishStop)
  }

  function StopCalls(v1: World): World {
    var v2 := StopStep(v1, InsideStop(P.BeginStop));
    var v3 := StopStep(v2, InsideStop(P.MarkStopping));
    var v4 := StopStep(v3, InsideStop(P.SignalOk));
    StopStep(v4, InsideStop(P.TimeoutKill))
  }

  lemma StopCanSucceed(w: World, svc: ServiceId, status: DbStatus, passes: bool)
    requires About(w, svc, StopIt, status) && IsRunning(w, svc)
    requires var e := w.reg.procs[w.reg.list[svc]]; Live(e) && P.Inv(e.proc) && e.proc.caller == P.Idle
    ensures var v := StopRun(w, passes);
            && v.holder == Free && v.agents.runner == RIdle && |v.reg.procs| == |w.reg.procs|
            && !Live(v.reg.procs[w.reg.list[svc]]) && v.reg.list == w.reg.list - {svc}
            && v.reg.db == w.reg.db[svc := DbStopped]
  {
    StopStops(w, svc, status, passes);
    var p := w.reg.list[svc];
    assert P.SpawnOkay(P.Last(w.reg.procs[p].proc));
    var v0 := EnteredStop(w, svc, false);
    var v1 := v0.(holder := InStop(svc, p, MarkStopped));
    assert v1 == StopStep(v0, StopLookup);
    StopCallsKill(v1, svc, p);
    hide StopCalls, StopStep, P.Inv, IsRunning;
    StopFinishes(StopCalls(v1), svc, w.agents.runner);
  }

  lemma StopCallsKill(v1: World, svc: ServiceId, p: nat)
    requires v1.holder == InStop(svc, p, MarkStopped) && p < |v1.reg.procs| && Live(v1.reg.procs[p])
    requires var q := v1.reg.procs[p].proc; q.status == P.Running && q.caller == P.Idle && P.Last(q).waiter == P.Waiting
    ensures var v5 := StopCalls(v1);
            && |v5.reg.procs| == |v1.reg.procs| && !Live(v5.reg.procs[p])
            && v5 == v1.(holder := Halted(svc, MarkStopped), reg := v1.reg.(procs := v5.reg.procs))
  {
    var q := v1.reg.procs[p].proc;
    StopOfLive(q);
    hide P.Enabled;
    var q2, q3 := q.(caller := P.Armed), q.(status := P.Stopping, caller := P.Signalling);
    var q4 := P.Step(q3, P.SignalOk);
    hide P.Step;
    StopCallStep(v1, svc, p, MarkStopped, P.BeginStop);
    var v2 := SetProc(v1, p, q2);
    StopCallStep(v2, svc, p, MarkStopped, P.MarkStopping);
    var v3 := SetProc(v1, p, q3);
    StopCallStep(v3, svc, p, MarkStopped, P.SignalOk);
    var v4 := SetProc(v1, p, q4);
    StopCallStep(v4, svc, p, MarkStopped, P.TimeoutKill);
    hide StopStep;
    assert v2 == StopStep(v1, InsideStop(P.BeginStop));
    assert v3 == StopStep(v2, InsideStop(P.MarkStopping));
    assert v4 == StopStep(v3, InsideStop(P.SignalOk));
  }

  lemma StopFinishes(v: World, svc: ServiceId, before: Runner)
    requires v.holder == Halted(svc, MarkStopped) && v.owner == ByRunner && v.agents.runner == RStopping(svc, false)
    ensures var u := StopStep(StopStep(v, Forget), FinishStop);
            && u.holder == Free && u.agents.runner == RIdle && u.reg.procs == v.reg.procs
            && u.reg.list == v.reg.list - {svc} && u.reg.db == v.reg.db[svc := DbStopped]
  {}

  /** The calls of Stop on a live process. */
  lemma StopOfLive(q: P.Proc)
    requires q.spawns != [] && P.Last(q).alive && P.Last(q).waiter == P.Waiting
    requires q.status == P.Running && q.caller == P.Idle
    ensures P.Step(q, P.BeginStop) == q.(caller := P.Armed)
    ensures P.Step(q.(caller := P.Armed), P.MarkStopping) == q.(status := P.Stopping, caller := P.Signalling)
    ensures var q4 := P.Step(q.(status := P.Stopping, caller := P.Signalling), P.SignalOk);
            var q5 := P.Step(q4, P.TimeoutKill);
            && P.Enabled(q, P.BeginStop) && P.Enabled(q.(caller := P.Armed), P.MarkStopping)
            && P.Enabled(q.(status := P.Stopping, caller := P.Signalling), P.SignalOk) && P.Enabled(q4, P.TimeoutKill)
            && P.Last(q4).signalled && !Live(Entry("", q5))
  {}

  // ---------------------------------------------------------------- in order, each once

  /** The commands asked for in the first `n` steps: by users, for services that exist, and by the
      failure handler. */
  ghost function Asked(r: Run, n: nat): seq<Command>
    requires IsRun(r) && n < |r.worlds|
  {
    if n == 0 then [] else Asked(r, n - 1) + AskedBy(r.worlds[n - 1], r.actions[n - 1])
  }

  function AskedBy(w: World, a: Action): seq<Command> {
    match a
    case ByAnyone(Publish(cmd)) => if cmd.svc in w.reg.db then [cmd] else []
    case ByHandler(Republish) =>
      if w.agents.handler.HMarked? && w.agents.handler.svc in w.settings.onFailure
      then [Command(w.agents.handler.svc, StartIt)] else []
    case _ => []
  }

  /** The commands that the runner has taken in the first `n` steps, as it shows them. */
  ghost function Taken(r: Run, n: nat): seq<Command>
    requires IsRun(r) && n < |r.worlds|
  {
    if n == 0 then [] else Taken(r, n - 1) + TakenBetween(r.worlds[n - 1].agents.runner, r.worlds[n].agents.runner)
  }

  function TakenBetween(before: Runner, after: Runner): seq<Command> {
    if !before.RReady? && after.RReady? then [after.cmd] else []
  }

  /** A queue passes on what comes in, in order. */
  lemma PassedOn<T>(first: seq<T>, come: seq<T>, more: seq<T>, gone: seq<T>, next: seq<T>, queue: seq<T>, rest: seq<T>)
    requires first + come == gone + queue && queue + more == next + rest
    ensures first + (come + more) == (gone + next) + rest
  {
    calc {
      first + (come + more);
      (first + come) + more;
      gone + (queue + more);
      (gone + next) + rest;
    }
  }

  /** Commands are taken in the order in which they were asked for, each once, and none is lost. */
  lemma {:induction false} CommandsInOrder(r: Run, n: nat)
    requires IsRun(r) && Init(r.worlds[0]) && n < |r.worlds|
    ensures r.worlds[0].agents.pending + Asked(r, n) == Taken(r, n) + r.worlds[n].agents.pending
  {
    hide Init, Step;
    if n > 0 {
      CommandsInOrder(r, n - 1);
      OwnerAt(r, n - 1);
      assert Moves(r, n - 1);
      CommandsStep(r.worlds[n - 1], r.actions[n - 1]);
      hide AskedBy, TakenBetween, OwnerOk, IsRun;
      var w, v := r.worlds[n - 1], r.worlds[n];
      PassedOn(r.worlds[0].agents.pending, Asked(r, n - 1), AskedBy(w, r.actions[n - 1]), Taken(r, n - 1),
               TakenBetween(w.agents.runner, v.agents.runner), w.agents.pending, v.agents.pending);
    }
  }

  lemma CommandsStep(w: World, a: Action)
    requires OwnerOk(w)
    ensures var v := Step(w, a);
            w.agents.pending + AskedBy(w, a)
            == TakenBetween(w.agents.runner, v.agents.runner) + v.agents.pending
  {
    hide IsRunning, IsRunningOrder, P.Step, P.Enabled;
    match a
    case Async(_, _) =>
    case ByHandler(_) =>
    case ByTheRunner(_) =>
    case ByWake(_) =>
    case BySleeper(_) =>
    case ByAnyone(_) =>
    case InStartSection(_) =>
    case InStopSection(_) =>
  }

  /** The runner takes a command only when the recovery has run, and reads its record then. */
  lemma TakenWithItsStatus(w: World, a: Action)
    requires OwnerOk(w) && !w.agents.runner.RReady? && Step(w, a).agents.runner.RReady?
    ensures var runner := Step(w, a).agents.runner;
            w.agents.recovered && w.agents.runner == RIdle && runner.status == Status(w, runner.cmd.svc)
  {
    hide IsRunning, IsRunningOrder, P.Step, P.Enabled;
  }

  /** An idle runner with a command waiting takes it. */
  lemma NextIsTaken(w: World, cmd: Command, rest: seq<Command>)
    requires w.agents.recovered && w.agents.runner == RIdle && w.agents.pending == [cmd] + rest
    ensures Step(w, ByTheRunner(Fetch))
         == w.(agents := w.agents.(runner := RReady(cmd, Status(w, cmd.svc)), pending := rest))
  {
    assert ([cmd] + rest)[1..] == rest;
  }

  /** The failure messages sent, and those that the handler has taken, in the first `n` steps. */
  ghost function Sent(r: Run, n: nat): seq<ServiceId>
    requires IsRun(r) && n < |r.worlds|
  {
    if n == 0 then [] else Sent(r, n - 1) + SentBy(r.worlds[n - 1], r.actions[n - 1])
  }

  function SentBy(w: World, a: Action): seq<ServiceId> {
    match a
    case Async(p, Report(k)) =>
      if p < |w.reg.procs| && k < |w.reg.procs[p].proc.spawns| && w.reg.procs[p].proc.spawns[k].waiter == P.Sending
        && |w.agents.errs| < 10
      then [w.reg.procs[p].svc] else []
    case _ => []
  }

  ghost function Heard(r: Run, n: nat): seq<ServiceId>
    requires IsRun(r) && n < |r.worlds|
  {
    if n == 0 then [] else Heard(r, n - 1) + HeardBetween(r.worlds[n - 1].agents.handler, r.worlds[n].agents.handler)
  }

  function HeardBetween(before: Handler, after: Handler): seq<ServiceId> {
    if !before.HGot? && after.HGot? then [after.svc] else []
  }

  /** Failure messages are handled in the order in which they were sent, each once, and none is lost. */
  lemma {:induction false} MessagesInOrder(r: Run, n: nat)
    requires IsRun(r) && Init(r.worlds[0]) && n < |r.worlds|
    ensures Sent(r, n) == Heard(r, n) + r.worlds[n].agents.errs
  {
    hide Step;
    if n > 0 {
      MessagesInOrder(r, n - 1);
      assert Moves(r, n - 1);
      MessagesStep(r.worlds[n - 1], r.actions[n - 1]);
      hide SentBy, HeardBetween, IsRun, Init;
      var w, v := r.worlds[n - 1], r.worlds[n];
      PassedOn([], Sent(r, n - 1), SentBy(w, r.actions[n - 1]), Heard(r, n - 1),
               HeardBetween(w.agents.handler, v.agents.handler), w.agents.errs, v.agents.errs);
    }
  }

  lemma MessagesStep(w: World, a: Action)
    ensures var v := Step(w, a);
            w.agents.errs + SentBy(w, a) == HeardBetween(w.agents.handler, v.agents.handler) + v.agents.errs
  {
    hide IsRunning, IsRunningOrder, P.Apply, Release;
    match a
    case Async(p, b) =>
    case ByHandler(b) =>
    case ByTheRunner(b) => hide DispatchCommand; DispatchKeepsMessages(w, b);
    case ByWake(b) =>
    case BySleeper(b) =>
    case ByAnyone(b) =>
    case InStartSection(b) =>
    case InStopSection(b) =>
  }

  lemma DispatchKeepsMessages(w: World, a: RunnerAction)
    ensures var v := RunnerStep(w, a); v.agents.errs == w.agents.errs && v.agents.handler == w.agents.handler
  {
    hide IsRunning;
  }

  /** The handling of the oldest message of an idle handler, step by step: the service is persisted as
      failed, and asked to be started exactly if its restart policy says so. */
  lemma MessageIsHandled(w: World, svc: ServiceId, rest: seq<ServiceId>)
    requires w.agents.handler == HIdle && w.agents.errs == [svc] + rest
    ensures var w1 := Step(w, ByHandler(TakeMessage));
            var w2 := Step(w1, ByHandler(MarkFailed));
            var w3 := Step(w2, ByHandler(Republish));
            && w1.reg == w.reg && w1.agents.errs == rest
            && w2.reg == w.reg.(db := w.reg.db[svc := Failure])
            && w3.reg == w2.reg && w3.holder == w.holder && w3.owner == w.owner
            && w3.agents == w.agents.(errs := rest, pending := w3.agents.pending)
            && w3.agents.pending
            == w.agents.pending + if svc in w.settings.onFailure then [Command(svc, StartIt)] else []
  {
    assert ([svc] + rest)[1..] == rest;
    assert w.agents.pending + [] == w.agents.pending;
  }

  /** A deletion stops its service and leaves the record alone. */
  lemma DeletionStops(r: Run, m: nat, n: nat, svc: ServiceId)
    requires IsRun(r) && Init(r.worlds[0]) && m < n < |r.worlds|
    requires r.actions[m] == ByAnyone(DeleteLock(svc)) && r.worlds[m].holder == Free
    ensures StopTakesItsCourse(r, m + 1, n, svc, LeaveRecord)
  {
    assert Moves(r, m);
    OwnerAt(r, m + 1);
    assert r.worlds[m + 1].holder == StopEntry(svc, LeaveRecord);
    hide Init, OwnerOk;
    StopSectionEnds(r, m + 1, n, svc, LeaveRecord);
  }

  /** A recovery takes the services that are persisted as running, each once, begins with the first
      of them, and runs once only. */
  lemma RecoveryTakesTheRunning(w: World, order: seq<ServiceId>)
    requires w.holder == Free && w.owner == ByOther
    ensures var v := Step(w, ByAnyone(RecoverLock(order)));
            && (v != w <==> && !w.agents.recovered
                            && (forall svc :: svc in order <==> svc in w.reg.db && w.reg.db[svc] == DbRunning)
                            && (forall i, j | 0 <= i < j < |order| :: order[i] != order[j]))
            && (v != w ==> v.agents.recovered && v.reg == w.reg)
            && (v != w && order != [] ==> v.holder == StartEntry(order[0]) && v.owner == ByRecovery(order[1..]))
            && (v != w && order == [] ==> v.holder == Free && v.owner == w.owner)
  {}
}
