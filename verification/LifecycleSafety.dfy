/** What every interleaving of the lifecycle protocol keeps. */
module LifecycleSafety {
  import P = ServiceProcess
  import opened Lifecycle

  predicate Live(e: Entry) {
    e.proc.spawns != [] && P.Last(e.proc).alive
  }

  predicate Dormant(g: Registry, svc: ServiceId) {
    svc in g.db && (g.db[svc] == DbStopped || g.db[svc] == Sleeping)
  }

  /** The holder is inside a call on process object `p`. */
  predicate Calling(h: Holder, p: nat) {
    (h.InStart? || h.InStop?) && h.p == p
  }

  predicate StartingService(h: Holder, svc: ServiceId) {
    (h.InStart? || h.Registered?) && h.svc == svc
  }

  predicate Starting(q: P.Proc) {
    q.caller == P.Opening || q.caller == P.Launching || q.caller == P.Launched
  }

  /** A live process is registered under its service, or is just being started. */
  predicate EntryOk(g: Registry, h: Holder, p: nat)
    requires p < |g.procs|
  {
    var e := g.procs[p];
    && (Calling(h, p) || e.proc.caller == P.Idle)
    && (Live(e) ==>
          && ((e.svc in g.list && g.list[e.svc] == p) || (h.InStart? && h.p == p))
          && (Dormant(g, e.svc) ==> StartingService(h, e.svc))
          && !((h.Halted? || h.Forgotten?) && h.svc == e.svc))
  }

  /** A registered id names a process object of that service and has an activity entry. */
  predicate ListOk(g: Registry, h: Holder, svc: ServiceId)
    requires svc in g.list
  {
    && g.list[svc] < |g.procs| && g.procs[g.list[svc]].svc == svc
    && !(h.InStart? && h.p == g.list[svc])
    && svc in g.activity && svc in g.touched && g.activity[svc] == g.touched[svc]
  }

  predicate HolderOk(g: Registry, h: Holder) {
    match h
    case InStart(svc, p) =>
      && p < |g.procs| && g.procs[p].svc == svc && Starting(g.procs[p].proc)
      && (svc in g.list && g.list[svc] < |g.procs| ==> !Live(g.procs[g.list[svc]]))
    case InStop(svc, p, _) =>
      svc in g.list && g.list[svc] == p && p < |g.procs| && !Starting(g.procs[p].proc)
    case Scanning(todo, _, _) => todo <= g.list.Keys
    case _ => true
  }

  predicate Ownership(g: Registry, h: Holder) {
    && (forall p: nat | p < |g.procs| :: EntryOk(g, h, p))
    && (forall svc | svc in g.list :: ListOk(g, h, svc))
    && HolderOk(g, h)
  }

  predicate ProcsOk(g: Registry) {
    forall p: nat | p < |g.procs| :: P.Inv(g.procs[p].proc)
  }

  predicate Safe(w: World) {
    ProcsOk(w.reg) && Ownership(w.reg, w.holder)
  }

  lemma SafeInit(w: World)
    requires Init(w)
    ensures Safe(w)
  {}

  // ---------------------------------------------------------------- ownership, piece by piece

  /** Only a spawn makes a process live. */
  lemma LiveStep(q: P.Proc, a: P.Action)
    requires a != P.SpawnOk && Live(Entry("", P.Step(q, a)))
    ensures Live(Entry("", q))
  {}

  /** A section that is not inside a call on a process object; entering or leaving one never
      changes who owns what. */
  predicate Outside(h: Holder) {
    h.Free? || h.StartEntry? || h.StartFailed? || h.StopEntry?
  }

  lemma HolderMoves(g: Registry, h: Holder, db: map<ServiceId, DbStatus>, h': Holder)
    requires Ownership(g, h)
    requires Outside(h) || h.Scanning? || h' == h
    requires Outside(h') || h' == h
    requires forall svc | Dormant(g.(db := db), svc) :: Dormant(g, svc)
    ensures Ownership(g.(db := db), h')
  {
    var g' := g.(db := db);
    forall r: nat | r < |g'.procs| ensures EntryOk(g', h', r) { assert EntryOk(g, h, r); }
    forall svc | svc in g'.list ensures ListOk(g', h', svc) { assert ListOk(g, h, svc); }
  }

  lemma ReplaceEntry(g: Registry, h: Holder, p: nat, q: P.Proc, r: nat)
    requires p < |g.procs| && r < |g.procs| && EntryOk(g, h, r)
    requires Calling(h, p) || q.caller == P.Idle
    requires Live(g.procs[p].(proc := q)) ==> Live(g.procs[p]) || (h.InStart? && h.p == p)
    requires HolderOk(g, h)
    ensures EntryOk(g.(procs := g.procs[p := g.procs[p].(proc := q)]), h, r)
  {}

  /** Replacing a process object by one that is live only if it was. */
  lemma ReplaceProc(g: Registry, h: Holder, p: nat, q: P.Proc)
    requires Ownership(g, h) && p < |g.procs|
    requires Calling(h, p) || q.caller == P.Idle
    requires Starting(q) == Starting(g.procs[p].proc)
    requires Live(g.procs[p].(proc := q)) ==> Live(g.procs[p]) || (h.InStart? && h.p == p)
    ensures Ownership(g.(procs := g.procs[p := g.procs[p].(proc := q)]), h)
  {
    hide EntryOk;
    var g' := g.(procs := g.procs[p := g.procs[p].(proc := q)]);
    forall r: nat | r < |g'.procs| ensures EntryOk(g', h, r) { ReplaceEntry(g, h, p, q, r); }
    forall svc | svc in g'.list ensures ListOk(g', h, svc) { assert ListOk(g, h, svc); }
  }

  /** With no call in progress on it, a live process object answers that it is running. */
  lemma LiveIsRunning(g: Registry, h: Holder, p: nat)
    requires ProcsOk(g) && Ownership(g, h) && p < |g.procs| && Live(g.procs[p])
    requires g.procs[p].proc.caller == P.Idle && !h.InStart?
    ensures g.procs[p].proc.status == P.Running
    ensures g.procs[p].svc in g.list && g.list[g.procs[p].svc] == p
  {
    assert EntryOk(g, h, p);
    P.LiveMeansRunning(g.procs[p].proc, |g.procs[p].proc.spawns| - 1);
  }

  lemma CreateOwned(g: Registry, svc: ServiceId, q: P.Proc)
    requires ProcsOk(g) && Ownership(g, StartEntry(svc))
    requires svc in g.list ==> g.list[svc] < |g.procs| && g.procs[g.list[svc]].proc.status != P.Running
    requires q.caller == P.Opening && q.spawns == []
    ensures Ownership(g.(procs := g.procs + [Entry(svc, q)]), InStart(svc, |g.procs|))
  {
    var h, g', h' := StartEntry(svc), g.(procs := g.procs + [Entry(svc, q)]), InStart(svc, |g.procs|);
    if svc in g.list && Live(g.procs[g.list[svc]]) {
      assert EntryOk(g, h, g.list[svc]);
      LiveIsRunning(g, h, g.list[svc]);
    }
    forall r: nat | r < |g'.procs| ensures EntryOk(g', h', r) { if r < |g.procs| { assert EntryOk(g, h, r); } }
    forall s | s in g'.list ensures ListOk(g', h', s) { assert ListOk(g, h, s); }
  }

  /** `Start` has returned: the object is no longer being called. */
  lemma LeaveStart(g: Registry, svc: ServiceId, p: nat, q: P.Proc, list: map<ServiceId, nat>, now: int, h': Holder)
    requires Ownership(g, InStart(svc, p)) && q.caller == P.Idle
    requires Live(g.procs[p].(proc := q)) ==> h' == Registered(svc)
    requires (h' == Registered(svc) && list == g.list[svc := p]) || (h' == StartFailed(svc) && list == g.list)
    ensures var t := h' == Registered(svc);
            Ownership(g.(procs := g.procs[p := g.procs[p].(proc := q)], list := list,
                         activity := if t then g.activity[svc := now] else g.activity,
                         touched := if t then g.touched[svc := now] else g.touched), h')
  {
    var h, t := InStart(svc, p), h' == Registered(svc);
    var g' := g.(procs := g.procs[p := g.procs[p].(proc := q)], list := list,
                 activity := if t then g.activity[svc := now] else g.activity,
                 touched := if t then g.touched[svc := now] else g.touched);
    forall r: nat | r < |g'.procs| ensures EntryOk(g', h', r) { assert EntryOk(g, h, r); }
    forall s | s in g'.list ensures ListOk(g', h', s) { if s in g.list { assert ListOk(g, h, s); } }
  }

  /** The new process is persisted as running before the lock is given up. */
  lemma RunningMarked(g: Registry, svc: ServiceId, h': Holder)
    requires Ownership(g, Registered(svc)) && Outside(h')
    ensures Ownership(g.(db := g.db[svc := DbRunning]), h')
  {
    var g' := g.(db := g.db[svc := DbRunning]);
    forall r: nat | r < |g'.procs| ensures EntryOk(g', h', r) { assert EntryOk(g, Registered(svc), r); }
    forall s | s in g'.list ensures ListOk(g', h', s) { assert ListOk(g, Registered(svc), s); }
  }

  /** The lookup of a stop section, or the early return of `Stop`: nothing of the service is
      live, or the section goes on to stop the registered object. */
  lemma StopDecided(g: Registry, h: Holder, svc: ServiceId, mode: StopMode)
    requires ProcsOk(g) && Ownership(g, h)
    requires h == StopEntry(svc, mode) || (h.InStop? && h.svc == svc && h.p < |g.procs|
        && g.procs[h.p].proc.caller == P.Idle)
    requires svc in g.list ==> g.list[svc] < |g.procs|
    ensures svc in g.list && g.procs[g.list[svc]].proc.status == P.Running
        ==> Ownership(g, InStop(svc, g.list[svc], mode))
    ensures !(svc in g.list && g.procs[g.list[svc]].proc.status == P.Running) ==>
              Ownership(g, Halted(svc, mode)) && Ownership(g, Forgotten(svc, mode))
  {
    var running := svc in g.list && g.procs[g.list[svc]].proc.status == P.Running;
    var h' := if running then InStop(svc, g.list[svc], mode) else Halted(svc, mode);
    forall r: nat | r < |g.procs| ensures EntryOk(g, h', r) {
      assert EntryOk(g, h, r);
      if Live(g.procs[r]) { LiveIsRunning(g, h, r); }
    }
    forall s | s in g.list ensures ListOk(g, h', s) { assert ListOk(g, h, s); }
    if running {
      assert EntryOk(g, h, g.list[svc]);
    } else {
      HaltedForgotten(g, svc, mode);
    }
  }

  /** A service that nothing is live of may as well be forgotten already. */
  lemma HaltedForgotten(g: Registry, svc: ServiceId, mode: StopMode)
    requires Ownership(g, Halted(svc, mode))
    ensures Ownership(g, Forgotten(svc, mode))
  {
    forall r: nat | r < |g.procs| ensures EntryOk(g, Forgotten(svc, mode), r) {
      assert EntryOk(g, Halted(svc, mode), r);
    }
    forall s | s in g.list ensures ListOk(g, Forgotten(svc, mode), s) {
      assert ListOk(g, Halted(svc, mode), s);
    }
  }

  /** `Stop` has returned, with an error or with the process dead. */
  lemma LeaveStop(g: Registry, svc: ServiceId, p: nat, mode: StopMode, q: P.Proc, h': Holder)
    requires Ownership(g, InStop(svc, p, mode)) && q.caller == P.Idle
    requires Live(g.procs[p].(proc := q)) ==> Live(g.procs[p])
    requires Outside(h') || (h' == Halted(svc, mode) && !Live(g.procs[p].(proc := q)))
    ensures Ownership(g.(procs := g.procs[p := g.procs[p].(proc := q)]), h')
  {
    var h, g' := InStop(svc, p, mode), g.(procs := g.procs[p := g.procs[p].(proc := q)]);
    assert ListOk(g, h, svc);
    forall r: nat | r < |g'.procs| ensures EntryOk(g', h', r) { assert EntryOk(g, h, r); }
    forall s | s in g'.list ensures ListOk(g', h', s) { assert ListOk(g, h, s); }
  }

  /** A service with nothing live may be forgotten. */
  lemma ForgetOwned(g: Registry, svc: ServiceId, mode: StopMode)
    requires Ownership(g, Halted(svc, mode))
    ensures Ownership(g.(list := g.list - {svc}, activity := g.activity - {svc}), Forgotten(svc, mode))
  {
    var h, g' := Halted(svc, mode), g.(list := g.list - {svc}, activity := g.activity - {svc});
    forall r: nat | r < |g'.procs| ensures EntryOk(g', Forgotten(svc, mode), r) { assert EntryOk(g, h, r); }
    forall s | s in g'.list ensures ListOk(g', Forgotten(svc, mode), s) { assert ListOk(g, h, s); }
  }

  /** A service with nothing live may be given any status. */
  lemma StopMarked(g: Registry, svc: ServiceId, mode: StopMode, h': Holder)
    requires Ownership(g, Forgotten(svc, mode)) && Outside(h')
    ensures Ownership(g.(db := Marked(g.db, svc, mode)), h')
  {
    var h, g' := Forgotten(svc, mode), g.(db := Marked(g.db, svc, mode));
    forall r: nat | r < |g'.procs| ensures EntryOk(g', h', r) { assert EntryOk(g, h, r); }
    forall s | s in g'.list ensures ListOk(g', h', s) { assert ListOk(g, h, s); }
  }

  // ---------------------------------------------------------------- one step of each actor

  lemma ProcsStepped(g: Registry, p: nat, a: P.Action)
    requires ProcsOk(g) && p < |g.procs|
    ensures ProcsOk(g.(procs := g.procs[p := g.procs[p].(proc := P.Step(g.procs[p].proc, a))]))
  {
    P.InvStep(g.procs[p].proc, a);
  }

  lemma AsyncShape(q: P.Proc, a: P.Action)
    requires P.Asynchronous(a)
    ensures P.Step(q, a).caller == q.caller && (Live(Entry("", P.Step(q, a))) ==> Live(Entry("", q)))
  {}

  lemma AsyncSafe(w: World, p: nat, a: P.Action)
    requires Safe(w)
    ensures Safe(AsyncStep(w, p, a))
  {
    if p < |w.reg.procs| && P.Asynchronous(a) && P.Enabled(w.reg.procs[p].proc, a) {
      AsyncShape(w.reg.procs[p].proc, a);
      assert EntryOk(w.reg, w.holder, p);
      hide P.Step, P.Enabled, P.Inv, Ownership;
      var q := P.Step(w.reg.procs[p].proc, a);
      ReplaceProc(w.reg, w.holder, p, q);
      ProcsStepped(w.reg, p, a);
    }
  }

  lemma HandlerSafe(w: World, a: HandlerAction)
    requires Safe(w)
    ensures Safe(HandlerStep(w, a))
  {
    HolderMoves(w.reg, w.holder, HandlerStep(w, a).reg.db, w.holder);
  }

  lemma RunnerSafe(w: World, a: RunnerAction)
    requires Safe(w)
    ensures Safe(RunnerStep(w, a))
  {
    HolderMoves(w.reg, w.holder, w.reg.db, RunnerStep(w, a).holder);
  }

  lemma WakeSafe(w: World, a: WakeAction)
    requires Safe(w)
    ensures Safe(WakeStep(w, a))
  {
    HolderMoves(w.reg, w.holder, w.reg.db, WakeStep(w, a).holder);
  }

  lemma SleepSafe(w: World, a: SleepAction)
    requires Safe(w)
    ensures Safe(SleepStep(w, a))
  {
    var h' := SleepStep(w, a).holder;
    if w.holder.Scanning? && a.ScanNext? && a.svc in w.holder.todo {
      assert ListOk(w.reg, w.holder, a.svc);
    }
    if Outside(h') || h' == w.holder {
      HolderMoves(w.reg, w.holder, w.reg.db, h');
    } else {
      ScanSafe(w.reg, w.holder, h');
    }
  }

  lemma ScanSafe(g: Registry, h: Holder, h': Holder)
    requires Ownership(g, h) && (h.Free? || h.Scanning?)
    requires h'.Scanning? && h'.todo <= g.list.Keys
    ensures Ownership(g, h')
  {
    forall r: nat | r < |g.procs| ensures EntryOk(g, h', r) { assert EntryOk(g, h, r); }
    forall s | s in g.list ensures ListOk(g, h', s) { assert ListOk(g, h, s); }
  }

  lemma OtherSafe(w: World, a: OtherAction)
    requires Safe(w)
    ensures Safe(OtherStep(w, a))
  {
    var w' := OtherStep(w, a);
    if a.Touch? && w.holder == Free {
      forall r: nat | r < |w.reg.procs| ensures EntryOk(w'.reg, Free, r) { assert EntryOk(w.reg, Free, r); }
      forall s | s in w.reg.list ensures ListOk(w'.reg, Free, s) { assert ListOk(w.reg, Free, s); }
    } else {
      HolderMoves(w.reg, w.holder, w.reg.db, w'.holder);
    }
  }

  lemma CreateSafe(w: World)
    requires Safe(w) && w.holder.StartEntry? && !IsRunning(w, w.holder.svc)
    ensures Safe(StartStep(w, CreateProcess))
  {
    var h := w.holder;
    if h.svc in w.reg.list { assert ListOk(w.reg, h, h.svc); }
    assert P.Step(P.NEW_PROC, P.BeginStart) == P.NEW_PROC.(caller := P.Opening);
    hide P.Step, P.Inv, Ownership;
    CreateOwned(w.reg, h.svc, P.Step(P.NEW_PROC, P.BeginStart));
    P.InvStep(P.NEW_PROC, P.BeginStart);
  }

  lemma StartSafe(w: World, a: StartAction)
    requires Safe(w)
    ensures Safe(StartStep(w, a))
  {
    hide P.Step, P.Apply, P.Inv, EntryOk, ListOk;
    var h, w' := w.holder, StartStep(w, a);
    if a.CreateProcess? {
      if w' != w { CreateSafe(w); }
    } else if a.InsideStart? {
      if h.InStart? { InsideStartSafe(w, a.a); }
    } else if a.FinishRunning? && h.Registered? {
      RunningMarked(w.reg, h.svc, w'.holder);
    } else if w' != w {
      HolderMoves(w.reg, h, w'.reg.db, w'.holder);
    }
  }

  lemma StartShape(q: P.Proc, a: P.Action)
    requires P.Inv(q) && OfStart(a) && P.Enabled(q, a)
    ensures var r := P.Step(q, a);
            && (a == P.SpawnFail ==> r.caller == P.Idle && !Live(Entry("", r)))
            && (a == P.FinishStart ==> r.caller == P.Idle)
            && (a != P.SpawnFail && a != P.FinishStart ==> Starting(q) && Starting(r))
  {}

  lemma InsideStartSafe(w: World, a: P.Action)
    requires Safe(w) && w.holder.InStart?
    ensures Safe(InsideStartStep(w, w.holder.svc, w.holder.p, a))
  {
    var svc, p := w.holder.svc, w.holder.p;
    var q0 := w.reg.procs[p].proc;
    if OfStart(a) && P.Enabled(q0, a) {
      StartShape(q0, a);
      hide P.Step, P.Enabled, P.Inv, Ownership;
      var q := P.Step(q0, a);
      ProcsStepped(w.reg, p, a);
      if a == P.SpawnFail {
        LeaveStart(w.reg, svc, p, q, w.reg.list, w.clock, StartFailed(svc));
      } else if a == P.FinishStart {
        LeaveStart(w.reg, svc, p, q, w.reg.list[svc := p], w.clock, Registered(svc));
      } else {
        ReplaceProc(w.reg, w.holder, p, q);
      }
    }
  }

  lemma StopSafe(w: World, a: StopAction)
    requires Safe(w)
    ensures Safe(StopStep(w, a))
  {
    var h, w' := w.holder, StopStep(w, a);
    if a.InsideStop? {
      if h.InStop? { InsideStopSafe(w, a.a); }
    } else if a.Forget? {
      if h.Halted? { ForgetOwned(w.reg, h.svc, h.mode); }
    } else if a.FinishStop? {
      if h.Forgotten? { StopMarked(w.reg, h.svc, h.mode, w'.holder); }
    } else if w' != w {
      if h.svc in w.reg.list { assert ListOk(w.reg, h, h.svc); }
      StopDecided(w.reg, h, h.svc, h.mode);
    }
  }

  lemma StopShape(q: P.Proc, a: P.Action)
    requires OfStop(a) && P.Enabled(q, a)
    ensures var r := P.Step(q, a);
            && !Starting(q) && !Starting(r)
            && (a == P.Revert || a == P.ChanClosed || a == P.TimeoutKill ==> r.caller == P.Idle)
            && (a == P.TimeoutKill ==> !Live(Entry("", r)))
  {}

  lemma ClosedIsDead(q: P.Proc)
    requires P.Inv(q) && P.Enabled(q, P.ChanClosed)
    ensures !Live(Entry("", P.Step(q, P.ChanClosed)))
  {}

  lemma InsideStopSafe(w: World, a: P.Action)
    requires Safe(w) && w.holder.InStop?
    ensures Safe(InsideStopStep(w, w.holder.svc, w.holder.p, w.holder.mode, a))
  {
    var svc, p, mode := w.holder.svc, w.holder.p, w.holder.mode;
    var q0 := w.reg.procs[p].proc;
    if OfStop(a) && P.Enabled(q0, a) {
      StopShape(q0, a);
      if a == P.ChanClosed { ClosedIsDead(q0); }
      hide P.Step, P.Enabled, P.Inv, Ownership;
      var q := P.Step(q0, a);
      var w' := InsideStopStep(w, svc, p, mode, a);
      ProcsStepped(w.reg, p, a);
      if Live(w.reg.procs[p].(proc := q)) { LiveStep(q0, a); }
      if a == P.Revert || a == P.ChanClosed || a == P.TimeoutKill {
        LeaveStop(w.reg, svc, p, mode, q, w'.holder);
      } else {
        ReplaceProc(w.reg, w.holder, p, q);
      }
    }
  }

  lemma SafeStep(w: World, a: Action)
    requires Safe(w)
    ensures Safe(Step(w, a))
  {
    match a
    case Async(p, b) => AsyncSafe(w, p, b);
    case ByHandler(b) => HandlerSafe(w, b);
    case ByTheRunner(b) => RunnerSafe(w, b);
    case ByWake(b) => WakeSafe(w, b);
    case BySleeper(b) => SleepSafe(w, b);
    case ByAnyone(b) => OtherSafe(w, b);
    case InStartSection(b) => StartSafe(w, b);
    case InStopSection(b) => StopSafe(w, b);
  }

  // ---------------------------------------------------------------- the steps inside Start and Stop

  /** The step by which a failed Stop ends its section. */
  lemma RevertStep(w: World, svc: ServiceId, p: nat, mode: StopMode)
    requires w.holder == InStop(svc, p, mode) && p < |w.reg.procs| && w.reg.procs[p].proc.caller == P.Reverting
    ensures Step(w, InStopSection(InsideStop(P.Revert)))
         == Release(SetProc(w, p, w.reg.procs[p].proc.(status := P.Running, caller := P.Idle)), false)
  {}

  /** The last step of Start, which registers the new process. */
  lemma FinishStartStep(w: World, svc: ServiceId, p: nat)
    requires w.holder == InStart(svc, p) && p < |w.reg.procs| && w.reg.procs[p].proc.caller == P.Launched
    ensures var v := SetProc(w, p, w.reg.procs[p].proc.(status := P.Running, caller := P.Idle));
            Step(w, InStartSection(InsideStart(P.FinishStart)))
            == v.(holder := Registered(svc),
                  reg := v.reg.(list := w.reg.list[svc := p], activity := w.reg.activity[svc := w.clock],
                                touched := w.reg.touched[svc := w.clock]))
  {}

  lemma StopCallStep(w: World, svc: ServiceId, p: nat, mode: StopMode, a: P.Action)
    requires w.holder == InStop(svc, p, mode) && p < |w.reg.procs| && P.Enabled(w.reg.procs[p].proc, a)
    requires OfStop(a) && a != P.Revert
    ensures var done := a == P.ChanClosed || a == P.TimeoutKill;
            Step(w, InStopSection(InsideStop(a)))
            == SetProc(w, p, P.Step(w.reg.procs[p].proc, a)).(holder := if done then Halted(svc, mode) else w.holder)
  {}

  lemma StartCallStep(w: World, svc: ServiceId, p: nat, a: P.Action)
    requires w.holder == InStart(svc, p) && p < |w.reg.procs| && P.Enabled(w.reg.procs[p].proc, a)
    requires OfStart(a) && a != P.FinishStart
    ensures var next := if a == P.SpawnFail then StartFailed(svc) else w.holder;
            Step(w, InStartSection(InsideStart(a))) == SetProc(w, p, P.Step(w.reg.procs[p].proc, a)).(holder := next)
  {}
}
