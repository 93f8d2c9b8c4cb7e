/** One supervised service process (helpers/process).

    A process object has one caller at a time, which runs `Start` or `Stop`, and one exit
    waiter (`waitForExit`) for each process it ever spawned. Caller and waiters share the
    status cell; every action below is one access to state they share, so a sequence of
    actions is one interleaving of the Go code.
*/
module ServiceProcess {

  datatype ProcessState = Stopped | Starting | Running | Stopping

  /** Program counter of one exit waiter. */
  datatype Waiter =
    | Waiting   // blocked until the process ends; the process is not reaped yet
    | Reaped    // the wait has returned, the status is about to be read
    | Sending   // about to report the exit on the error channel
    | Clearing  // about to write status Stopped
    | Closing   // about to close the done channel
    | Done

  /** One spawned operating-system process and its waiter. `bad` says that its exit is an
      error other than "signal: terminated"; the last three fields are history. */
  datatype Spawn = Spawn(alive: bool, bad: bool, waiter: Waiter, signalled: bool, reports: nat, closes: nat)

  /** Program counter of the caller. */
  datatype Caller =
    | Idle
    | Opening     // Start has read Stopped
    | Launching   // Start has written Starting
    | Launched    // Start has spawned the process and its waiter
    | Armed       // Stop has read Running
    | Signalling  // Stop has written Stopping
    | Reverting   // the signal failed
    | Awaiting    // the signal was delivered

  datatype Proc = Proc(status: ProcessState, spawns: seq<Spawn>, caller: Caller)

  const NEW_PROC := Proc(Stopped, [], Idle)

  datatype Action =
    | BeginStart | MarkStarting | SpawnOk | SpawnFail | FinishStart
    | BeginStop | MarkStopping | SignalOk | SignalFail | Revert | ChanClosed | TimeoutKill
    | Exit(k: nat, failed: bool) | Reap(k: nat) | Decide(k: nat) | Report(k: nat) | Clear(k: nat) | Close(k: nat)

  /** The actions of the exit waiters and of the operating system. */
  predicate Asynchronous(a: Action) {
    a.Exit? || a.Reap? || a.Decide? || a.Report? || a.Clear? || a.Close?
  }

  function Last(p: Proc): Spawn
    requires p.spawns != []
  {
    p.spawns[|p.spawns| - 1]
  }

  predicate Enabled(p: Proc, a: Action) {
    match a
    case BeginStart => p.caller == Idle && p.status == Stopped
    case MarkStarting => p.caller == Opening
    case SpawnOk => p.caller == Launching
    case SpawnFail => p.caller == Launching
    case FinishStart => p.caller == Launched
    case BeginStop => p.caller == Idle && p.status == Running
    case MarkStopping => p.caller == Armed
    // A signal reaches a process until it is reaped; after that it reports an error.
    case SignalOk => p.caller == Signalling && p.spawns != [] && Last(p).waiter == Waiting
    case SignalFail => p.caller == Signalling
    case Revert => p.caller == Reverting
    case ChanClosed => p.caller == Awaiting && p.spawns != [] && Last(p).waiter == Done
    case TimeoutKill => p.caller == Awaiting && p.spawns != []
    case Exit(k, _) => k < |p.spawns| && p.spawns[k].alive
    case Reap(k) => k < |p.spawns| && p.spawns[k].waiter == Waiting && !p.spawns[k].alive
    case Decide(k) => k < |p.spawns| && p.spawns[k].waiter == Reaped
    case Report(k) => k < |p.spawns| && p.spawns[k].waiter == Sending
    case Clear(k) => k < |p.spawns| && p.spawns[k].waiter == Clearing
    case Close(k) => k < |p.spawns| && p.spawns[k].waiter == Closing
  }

  function SetSpawn(p: Proc, k: nat, s: Spawn): Proc
    requires k < |p.spawns|
  {
    p.(spawns := p.spawns[k := s])
  }

  function Apply(p: Proc, a: Action): Proc
    requires Enabled(p, a)
  {
    match a
    case BeginStart => p.(caller := Opening)
    case MarkStarting => p.(status := Starting, caller := Launching)
    case SpawnOk => p.(spawns := p.spawns + [Spawn(true, false, Waiting, false, 0, 0)], caller := Launched)
    case SpawnFail => p.(status := Stopped, caller := Idle)
    case FinishStart => p.(status := Running, caller := Idle)
    case BeginStop => p.(caller := Armed)
    case MarkStopping => p.(status := Stopping, caller := Signalling)
    case SignalOk => SetSpawn(p, |p.spawns| - 1, Last(p).(signalled := true)).(caller := Awaiting)
    case SignalFail => p.(caller := Reverting)
    case Revert => p.(status := Running, caller := Idle)
    case ChanClosed => p.(caller := Idle)
    case TimeoutKill =>
      SetSpawn(p, |p.spawns| - 1, Last(p).(alive := false, bad := Last(p).bad || Last(p).alive)).(caller := Idle)
    case Exit(k, failed) => SetSpawn(p, k, p.spawns[k].(alive := false, bad := failed))
    case Reap(k) => SetSpawn(p, k, p.spawns[k].(waiter := Reaped))
    case Decide(k) =>
      var report := p.spawns[k].bad && p.status != Stopping && p.status != Stopped;
      SetSpawn(p, k, p.spawns[k].(waiter := if report then Sending else Clearing))
    case Report(k) => SetSpawn(p, k, p.spawns[k].(waiter := Clearing, reports := p.spawns[k].reports + 1))
    case Clear(k) => SetSpawn(p, k, p.spawns[k].(waiter := Closing)).(status := Stopped)
    case Close(k) => SetSpawn(p, k, p.spawns[k].(waiter := Done, closes := p.spawns[k].closes + 1))
  }

  /** An action that is not enabled does nothing, so every sequence of actions is a run. */
  function Step(p: Proc, a: Action): Proc {
    if Enabled(p, a) then Apply(p, a) else p
  }

  function Exec(p: Proc, run: seq<Action>): Proc {
    if run == [] then p else Step(Exec(p, run[..|run| - 1]), run[|run| - 1])
  }

  lemma {:induction false} ExecConcat(p: Proc, first: seq<Action>, second: seq<Action>)
    ensures Exec(p, first + second) == Exec(Exec(p, first), second)
  {
    if second == [] {
      assert first + second == first;
    } else {
      var front := second[..|second| - 1];
      assert (first + second)[..|first + second| - 1] == first + front;
      ExecConcat(p, first, front);
    }
  }

  // ---------------------------------------------------------------- invariant

  /** The waiter has already written Stopped. */
  predicate Cleared(s: Spawn) {
    s.waiter == Closing || s.waiter == Done
  }

  predicate SpawnOkay(s: Spawn) {
    && (s.alive ==> s.waiter == Waiting)
    && s.closes == (if s.waiter == Done then 1 else 0)
    && s.reports <= (if s.waiter == Clearing || Cleared(s) then 1 else 0)
    && (s.signalled ==> s.waiter != Sending && s.reports == 0)
  }

  /** The status the caller has written and nobody has overwritten yet. */
  predicate CallerOwns(p: Proc) {
    match p.caller
    case Idle => p.status == Running || p.status == Stopping
    case Opening => false
    case Launching => false
    case Launched => p.status == Starting
    case Armed => p.status == Running
    case Signalling => p.status == Stopping
    case Reverting => p.status == Stopping
    case Awaiting => p.status == Stopping
  }

  /** The caller is at a place it can only reach after a spawn. */
  predicate BeyondSpawn(c: Caller) {
    c == Launched || c == Armed || c == Signalling || c == Reverting || c == Awaiting
  }

  predicate Inv(p: Proc) {
    && (forall k | 0 <= k < |p.spawns| :: SpawnOkay(p.spawns[k]))
    && (forall k | 0 <= k < |p.spawns| - 1 :: Cleared(p.spawns[k]))
    && (p.caller == Opening ==> p.status == Stopped)
    && (p.caller == Launching ==> p.status == Starting)
    && (BeyondSpawn(p.caller) || p.status == Running ==> p.spawns != [])
    && (p.spawns != [] && !Cleared(Last(p)) ==> CallerOwns(p))
    && ((p.spawns == [] || Cleared(Last(p))) && p.caller == Idle ==> p.status == Stopped || p.status == Running)
    && (p.spawns != [] && Last(p).signalled && !Cleared(Last(p)) ==>
          p.status == Stopping && (p.caller == Idle || p.caller == Awaiting))
    && (p.caller == Awaiting ==> Last(p).signalled && (Cleared(Last(p)) ==> p.status == Stopped))
    && (p.caller == Idle && p.status == Stopping ==> p.spawns != [] && !Last(p).alive)
  }

  lemma InvClearStep(p: Proc, k: nat)
    requires Inv(p)
    ensures Inv(Step(p, Clear(k)))
  {}

  lemma InvExitStep(p: Proc, k: nat, failed: bool)
    requires Inv(p)
    ensures Inv(Step(p, Exit(k, failed)))
  {}

  lemma InvDecideStep(p: Proc, k: nat)
    requires Inv(p)
    ensures Inv(Step(p, Decide(k)))
  {}

  lemma InvWaiterStep(p: Proc, a: Action)
    requires Inv(p) && (a.Reap? || a.Report? || a.Close?)
    ensures Inv(Step(p, a))
  {}

  lemma InvAsyncStep(p: Proc, a: Action)
    requires Inv(p) && Asynchronous(a)
    ensures Inv(Step(p, a))
  {
    hide Inv, Step;
    match a
    case Clear(k) => InvClearStep(p, k);
    case Exit(k, failed) => InvExitStep(p, k, failed);
    case Decide(k) => InvDecideStep(p, k);
    case _ => InvWaiterStep(p, a);
  }

  lemma InvCallerStep(p: Proc, a: Action)
    requires Inv(p) && !Asynchronous(a)
    ensures Inv(Step(p, a))
  {}

  lemma InvStep(p: Proc, a: Action)
    requires Inv(p)
    ensures Inv(Step(p, a))
  {
    hide Step, Inv;
    if Asynchronous(a) {
      InvAsyncStep(p, a);
    } else {
      InvCallerStep(p, a);
    }
  }

  lemma {:induction false} InvExec(p: Proc, run: seq<Action>)
    requires Inv(p)
    ensures Inv(Exec(p, run))
  {
    if run != [] {
      InvExec(p, run[..|run| - 1]);
      InvStep(Exec(p, run[..|run| - 1]), run[|run| - 1]);
    }
  }

  // ---------------------------------------------------------------- what every interleaving keeps

  /** A live process is the latest one spawned, its waiter still waits, and no status read
      can return Stopped while it lives. */
  lemma LiveNeverStopped(run: seq<Action>, k: nat)
    requires k < |Exec(NEW_PROC, run).spawns| && Exec(NEW_PROC, run).spawns[k].alive
    ensures Exec(NEW_PROC, run).status != Stopped
    ensures k == |Exec(NEW_PROC, run).spawns| - 1
  {
    InvExec(NEW_PROC, run);
  }

  /** Between calls a live process has status Running. */
  lemma LiveMeansRunning(p: Proc, k: nat)
    requires Inv(p) && p.caller == Idle
    requires k < |p.spawns| && p.spawns[k].alive
    ensures p.status == Running && k == |p.spawns| - 1
  {}

  /** No done channel is ever closed twice, and no exit is reported twice. */
  lemma ChannelClosedAtMostOnce(run: seq<Action>, k: nat)
    requires k < |Exec(NEW_PROC, run).spawns|
    ensures Exec(NEW_PROC, run).spawns[k].closes <= 1 && Exec(NEW_PROC, run).spawns[k].reports <= 1
  {
    InvExec(NEW_PROC, run);
  }

  /** A Stop that returns because the done channel was closed leaves a dead process and
      status Stopped; one that gives up and kills leaves a dead process too. */
  lemma StopReturns(run: seq<Action>, a: Action)
    requires a == ChanClosed || a == TimeoutKill
    requires Enabled(Exec(NEW_PROC, run), a)
    ensures var q := Exec(NEW_PROC, run + [a]);
            !Last(q).alive && (a == ChanClosed ==> q.status == Stopped)
  {
    InvExec(NEW_PROC, run);
    assert (run + [a])[..|run + [a]| - 1] == run;
  }

  /** The exit of a process that a Stop has signalled is never reported on the error
      channel, whatever happens before or after. */
  lemma StoppedExitNeverReported(run: seq<Action>, k: nat)
    requires k < |Exec(NEW_PROC, run).spawns| && Exec(NEW_PROC, run).spawns[k].signalled
    ensures Exec(NEW_PROC, run).spawns[k].reports == 0
  {
    InvExec(NEW_PROC, run);
  }

  // ---------------------------------------------------------------- the phantom

  /** Every waiter is past its write of Stopped, yet the status says Running between calls. */
  predicate Phantom(p: Proc) {
    && p.spawns != []
    && (forall k | 0 <= k < |p.spawns| :: Cleared(p.spawns[k]) && !p.spawns[k].alive)
    && match p.caller
       case Idle => p.status == Running
       case Armed => p.status == Running
       case Signalling => p.status == Stopping
       case Reverting => p.status == Stopping
       case _ => false
  }

  lemma PhantomStep(p: Proc, a: Action)
    requires Phantom(p)
    ensures Phantom(Step(p, a)) && |Step(p, a).spawns| == |p.spawns|
  {}

  /** A phantom stays one for ever: no later Start spawns anything and every Stop fails. */
  lemma {:induction false} PhantomForever(p: Proc, run: seq<Action>)
    requires Phantom(p)
    ensures Phantom(Exec(p, run)) && |Exec(p, run).spawns| == |p.spawns|
    ensures Exec(p, run).caller == Idle ==> Exec(p, run).status == Running
  {
    if run != [] {
      PhantomForever(p, run[..|run| - 1]);
      PhantomStep(Exec(p, run[..|run| - 1]), run[|run| - 1]);
    }
  }

  /** Exactly three actions create a phantom, each by overwriting the Stopped that the exit
      waiter has already written: the last write of a Start, the first write of a Stop, and
      the write that undoes a failed Stop. */
  lemma PhantomBirth(p: Proc, a: Action)
    requires Inv(p) && !Phantom(p)
    ensures Phantom(Step(p, a)) <==>
              Enabled(p, a) && (a == FinishStart || a == MarkStopping || a == Revert) && Cleared(Last(p))
  {
    hide Inv, Phantom, Step, Apply;
    if Phantom(Step(p, a)) {
      BirthByOverwriting(p, a);
    }
    if Enabled(p, a) && (a == FinishStart || a == MarkStopping || a == Revert) {
      OverwritingWaiterStarted(p, a);
    }
  }

  lemma BirthByOverwriting(p: Proc, a: Action)
    requires Inv(p) && !Phantom(p) && Phantom(Step(p, a))
    ensures Enabled(p, a) && (a == FinishStart || a == MarkStopping || a == Revert) && Cleared(Last(p))
  {
    var q := Step(p, a);
    assert Cleared(Last(q)) && !Last(q).alive;
    if p.spawns != [] && Cleared(Last(p)) {
      forall k | 0 <= k < |p.spawns| ensures Cleared(p.spawns[k]) && !p.spawns[k].alive {}
    }
  }

  lemma OverwritingWaiterStarted(p: Proc, a: Action)
    requires Inv(p) && Enabled(p, a) && (a == FinishStart || a == MarkStopping || a == Revert)
    ensures p.spawns != [] && (Cleared(Last(p)) ==> Phantom(Step(p, a)))
  {
    if Cleared(Last(p)) {
      forall k | 0 <= k < |p.spawns| ensures Cleared(p.spawns[k]) && !p.spawns[k].alive {}
    }
  }

  ghost predicate Reachable(p: Proc) {
    exists run :: Exec(NEW_PROC, run) == p
  }

  lemma ReachableStep(p: Proc, a: Action, q: Proc)
    requires Reachable(p) && Step(p, a) == q
    ensures Reachable(q)
  {
    var run :| Exec(NEW_PROC, run) == p;
    assert (run + [a])[..|run + [a]| - 1] == run;
    assert Exec(NEW_PROC, run + [a]) == q;
  }

  /** Start has spawned process 0 and not yet written Running. */
  function MidLaunch(alive: bool, waiter: Waiter): Proc {
    Proc(if waiter == Closing then Stopped else Starting, [Spawn(alive, false, waiter, false, 0, 0)], Launched)
  }

  lemma LaunchReachable()
    ensures Reachable(MidLaunch(true, Waiting))
  {
    assert Exec(NEW_PROC, []) == NEW_PROC;
    ReachableStep(NEW_PROC, BeginStart, Proc(Stopped, [], Opening));
    ReachableStep(Proc(Stopped, [], Opening), MarkStarting, Proc(Starting, [], Launching));
    ReachableStep(Proc(Starting, [], Launching), SpawnOk, MidLaunch(true, Waiting));
  }

  /** A process that dies between its spawn and the write of Running becomes a phantom. */
  lemma PhantomIsReachable()
    ensures exists p :: Reachable(p) && Phantom(p)
  {
    LaunchReachable();
    ReachableStep(MidLaunch(true, Waiting), Exit(0, false), MidLaunch(false, Waiting));
    ReachableStep(MidLaunch(false, Waiting), Reap(0), MidLaunch(false, Reaped));
    ReachableStep(MidLaunch(false, Reaped), Decide(0), MidLaunch(false, Clearing));
    ReachableStep(MidLaunch(false, Clearing), Clear(0), MidLaunch(false, Closing));
    var phantom := MidLaunch(false, Closing).(status := Running, caller := Idle);
    ReachableStep(MidLaunch(false, Closing), FinishStart, phantom);
  }
}
