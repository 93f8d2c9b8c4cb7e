/** When the exit of a process is reported: what an exit waiter decides when it reads the status, and
    that the message it then owes reaches the error channel of the launcher. */
module CrashReports {
  import P = ServiceProcess
  import opened Lifecycle
  import opened LifecycleSafety
  import opened LifecycleTheorems

  // ---------------------------------------------------------------- one process object

  /** The waiter of spawn `k` is past the point at which it reports. */
  predicate PastReport(q: P.Proc, k: nat) {
    && k < |q.spawns|
    && (q.spawns[k].waiter == P.Clearing || q.spawns[k].waiter == P.Closing || q.spawns[k].waiter == P.Done)
  }

  predicate Sending(q: P.Proc, k: nat) {
    k < |q.spawns| && q.spawns[k].waiter == P.Sending
  }

  /** The waiter owes a report, or has made it. */
  predicate Owes(q: P.Proc, k: nat) {
    (Sending(q, k) && q.spawns[k].reports == 0) || (PastReport(q, k) && q.spawns[k].reports == 1)
  }

  predicate Silent(q: P.Proc, k: nat) {
    PastReport(q, k) && q.spawns[k].reports == 0
  }

  /** The process has ended with an error other than a termination signal, its waiter knows, and
      nobody has begun to stop it or noticed that it is gone. */
  predicate Crashed(q: P.Proc, k: nat) {
    && k < |q.spawns| && q.spawns[k].waiter == P.Reaped && q.spawns[k].bad
    && q.status != P.Stopping && q.status != P.Stopped
  }

  lemma OwesStep(q: P.Proc, a: P.Action, k: nat)
    requires Owes(q, k)
    ensures Owes(P.Step(q, a), k)
  {}

  lemma SilentStep(q: P.Proc, a: P.Action, k: nat)
    requires Silent(q, k)
    ensures Silent(P.Step(q, a), k)
  {}

  /** The waiter reads the status once, and that decides. */
  lemma DecideSplits(q: P.Proc, k: nat)
    requires P.Inv(q) && k < |q.spawns| && q.spawns[k].waiter == P.Reaped
    ensures Owes(P.Step(q, P.Decide(k)), k) <==> Crashed(q, k)
    ensures Silent(P.Step(q, P.Decide(k)), k) <==> !Crashed(q, k)
  {
    assert P.SpawnOkay(q.spawns[k]);
  }

  lemma {:induction false} OwesAlong(q: P.Proc, more: seq<P.Action>, k: nat)
    requires Owes(q, k)
    ensures Owes(P.Exec(q, more), k)
  {
    hide Owes;
    if more != [] {
      OwesAlong(q, more[..|more| - 1], k);
      OwesStep(P.Exec(q, more[..|more| - 1]), more[|more| - 1], k);
    }
  }

  lemma {:induction false} SilentAlong(q: P.Proc, more: seq<P.Action>, k: nat)
    requires Silent(q, k)
    ensures Silent(P.Exec(q, more), k)
  {
    hide Silent;
    if more != [] {
      SilentAlong(q, more[..|more| - 1], k);
      SilentStep(P.Exec(q, more[..|more| - 1]), more[|more| - 1], k);
    }
  }

  /** An exit is reported, exactly once, if and only if it is an error other than a termination signal
      and the status reads neither Stopping nor Stopped when the waiter looks; in every continuation. */
  lemma ReportedIffCrashed(run: seq<P.Action>, k: nat, more: seq<P.Action>)
    requires var q := P.Exec(P.NEW_PROC, run); k < |q.spawns| && q.spawns[k].waiter == P.Reaped
    requires PastReport(P.Exec(P.Exec(P.NEW_PROC, run + [P.Decide(k)]), more), k)
    ensures var q, v := P.Exec(P.NEW_PROC, run), P.Exec(P.Exec(P.NEW_PROC, run + [P.Decide(k)]), more);
            v.spawns[k].reports
            == if q.spawns[k].bad && q.status != P.Stopping && q.status != P.Stopped then 1 else 0
  {
    var q := P.Exec(P.NEW_PROC, run);
    P.InvExec(P.NEW_PROC, run);
    assert (run + [P.Decide(k)])[..|run + [P.Decide(k)]| - 1] == run;
    var d := P.Step(q, P.Decide(k));
    assert P.Exec(P.NEW_PROC, run + [P.Decide(k)]) == d;
    DecideSplits(q, k);
    hide P.Step, P.Exec, P.Inv;
    if Crashed(q, k) {
      OwesAlong(d, more, k);
    } else {
      SilentAlong(d, more, k);
    }
  }

  lemma CrashedStep(q: P.Proc, a: P.Action, k: nat)
    requires P.Inv(q) && (Crashed(q, k) || Owes(q, k)) && a != P.MarkStopping
    ensures Crashed(P.Step(q, a), k) || Owes(P.Step(q, a), k)
  {
    if Owes(q, k) {
      OwesStep(q, a, k);
    } else if a == P.Decide(k) {
      DecideSplits(q, k);
    } else {
      assert k == |q.spawns| - 1;
    }
  }

  /** A crash is reported in every continuation in which nobody begins to stop the object. */
  lemma {:induction false} CrashIsReported(q: P.Proc, more: seq<P.Action>, k: nat)
    requires P.Inv(q) && Crashed(q, k) && forall i | 0 <= i < |more| :: more[i] != P.MarkStopping
    ensures var v := P.Exec(q, more);
            && (Crashed(v, k) || Owes(v, k))
            && (PastReport(v, k) ==> v.spawns[k].reports == 1)
  {
    hide P.Step, P.Inv;
    if more != [] {
      var front := more[..|more| - 1];
      CrashIsReported(q, front, k);
      P.InvExec(q, front);
      CrashedStep(P.Exec(q, front), more[|more| - 1], k);
    }
  }

  /** An exit that is no error is never reported. */
  lemma {:induction false} CleanExitNeverReported(q: P.Proc, more: seq<P.Action>, k: nat)
    requires NotBad(q, k)
    ensures NotBad(P.Exec(q, more), k)
  {
    hide NotBad;
    if more != [] {
      CleanExitNeverReported(q, more[..|more| - 1], k);
      NotBadStep(P.Exec(q, more[..|more| - 1]), more[|more| - 1], k);
    }
  }

  predicate NotBad(q: P.Proc, k: nat) {
    && k < |q.spawns| && !q.spawns[k].alive && !q.spawns[k].bad
    && q.spawns[k].waiter != P.Sending && q.spawns[k].reports == 0
  }

  lemma NotBadStep(q: P.Proc, a: P.Action, k: nat)
    requires NotBad(q, k)
    ensures NotBad(P.Step(q, a), k)
  {}

  /** An exit sets what the waiter will find; it ends the process and nothing else. */
  lemma ExitIsRecorded(q: P.Proc, k: nat, failed: bool)
    requires k < |q.spawns| && q.spawns[k].alive
    ensures var v := P.Step(q, P.Exit(k, failed));
            && |v.spawns| == |q.spawns| && !v.spawns[k].alive && v.spawns[k].bad == failed
            && v.spawns[k].waiter == q.spawns[k].waiter && v.status == q.status && v.caller == q.caller
  {}

  /** From an idle object with a live process: the process dies with an error, and the waiter reports. */
  lemma CrashRun(q: P.Proc)
    requires P.Inv(q) && q.caller == P.Idle && q.spawns != [] && P.Last(q).alive
    ensures var k := |q.spawns| - 1;
            var v := P.Step(P.Step(P.Step(P.Step(q, P.Exit(k, true)), P.Reap(k)), P.Decide(k)), P.Report(k));
            && PastReport(v, k) && v.spawns[k].reports == 1
            && Sending(P.Step(P.Step(P.Step(q, P.Exit(k, true)), P.Reap(k)), P.Decide(k)), k)
  {
    var k := |q.spawns| - 1;
    P.LiveMeansRunning(q, k);
    assert P.SpawnOkay(q.spawns[k]);
    hide P.Inv, P.Step;
    var v1 := P.SetSpawn(q, k, q.spawns[k].(alive := false, bad := true));
    ExitActs(q, k);
    var v2 := P.SetSpawn(v1, k, v1.spawns[k].(waiter := P.Reaped));
    ReapActs(v1, k);
    var v3 := P.SetSpawn(v2, k, v2.spawns[k].(waiter := P.Sending));
    DecideActs(v2, k);
    ReportActs(v3, k);
  }

  lemma ExitActs(q: P.Proc, k: nat)
    requires k < |q.spawns| && q.spawns[k].alive
    ensures P.Step(q, P.Exit(k, true)) == P.SetSpawn(q, k, q.spawns[k].(alive := false, bad := true))
  {}

  lemma ReapActs(q: P.Proc, k: nat)
    requires k < |q.spawns| && !q.spawns[k].alive && q.spawns[k].waiter == P.Waiting
    ensures P.Step(q, P.Reap(k)) == P.SetSpawn(q, k, q.spawns[k].(waiter := P.Reaped))
  {}

  lemma DecideActs(q: P.Proc, k: nat)
    requires Crashed(q, k)
    ensures P.Step(q, P.Decide(k)) == P.SetSpawn(q, k, q.spawns[k].(waiter := P.Sending))
  {}

  lemma ReportActs(q: P.Proc, k: nat)
    requires Sending(q, k)
    ensures var v := P.Step(q, P.Report(k)); PastReport(v, k) && v.spawns[k].reports == q.spawns[k].reports + 1
  {}

  // ---------------------------------------------------------------- the launcher

  /** Whatever happens, a process object stays or makes one of its own steps; a report is always the
      step of its waiter. */
  lemma ObjectMoves(w: World, a: Action, p: nat) returns (b: P.Action)
    requires p < |w.reg.procs|
    ensures var g := Step(w, a).reg;
            && p < |g.procs| && g.procs[p].svc == w.reg.procs[p].svc
            && (g.procs[p].proc == w.reg.procs[p].proc || g.procs[p].proc == P.Step(w.reg.procs[p].proc, b))
    ensures b.Report? ==> a == Async(p, b)
  {
    hide P.Step, P.Enabled, IsRunning;
    b := P.Revert;
    match a
    case Async(o, c) => if o == p { b := c; }
    case InStartSection(c) => b := StartMoves(w, c, p);
    case InStopSection(c) => b := StopMoves(w, c, p);
    case ByHandler(_) =>
    case ByTheRunner(_) =>
    case ByWake(_) =>
    case BySleeper(_) =>
    case ByAnyone(_) =>
  }

  lemma StartMoves(w: World, a: StartAction, p: nat) returns (b: P.Action)
    requires p < |w.reg.procs|
    ensures var g := StartStep(w, a).reg;
            && p < |g.procs| && g.procs[p].svc == w.reg.procs[p].svc
            && (g.procs[p].proc == w.reg.procs[p].proc || g.procs[p].proc == P.Step(w.reg.procs[p].proc, b))
    ensures !b.Report?
  {
    hide P.Step, P.Enabled, IsRunning, Release;
    b := if a.InsideStart? && OfStart(a.a) then a.a else P.Revert;
  }

  lemma StopMoves(w: World, a: StopAction, p: nat) returns (b: P.Action)
    requires p < |w.reg.procs|
    ensures var g := StopStep(w, a).reg;
            && p < |g.procs| && g.procs[p].svc == w.reg.procs[p].svc
            && (g.procs[p].proc == w.reg.procs[p].proc || g.procs[p].proc == P.Step(w.reg.procs[p].proc, b))
    ensures !b.Report?
  {
    hide P.Step, P.Enabled, IsRunning, Release;
    b := if a.InsideStop? && OfStop(a.a) then a.a else P.Revert;
  }

  /** Step `j` is the report of spawn `k` of object `p`: its service is appended to the messages. */
  ghost predicate Sends(r: Run, j: nat, p: nat, k: nat)
    requires IsRun(r) && j < |r.actions|
  {
    var w, v := r.worlds[j], r.worlds[j + 1];
    && p < |w.reg.procs| && r.actions[j] == Async(p, P.Report(k)) && Sending(w.reg.procs[p].proc, k)
    && v.agents.errs == w.agents.errs + [w.reg.procs[p].svc]
  }

  /** A waiter that owes a report can send it exactly while fewer than ten messages are unread. */
  lemma ReportNeedsRoom(w: World, p: nat, k: nat)
    requires p < |w.reg.procs| && Sending(w.reg.procs[p].proc, k)
    ensures var v := Step(w, Async(p, P.Report(k)));
            if |w.agents.errs| < 10
            then
              && v.agents.errs == w.agents.errs + [w.reg.procs[p].svc] && PastReport(v.reg.procs[p].proc, k)
              && v.reg.list == w.reg.list && v.reg.db == w.reg.db
            else v == w
  {}

  lemma StaysSending(q: P.Proc, a: P.Action, k: nat)
    requires Sending(q, k) && a != P.Report(k)
    ensures Sending(P.Step(q, a), k)
  {}

  /** A waiter that is past its report never sends. */
  lemma {:induction false} SilentNeverSends(r: Run, m: nat, n: nat, p: nat, k: nat)
    requires IsRun(r) && m <= n < |r.worlds| && p < |r.worlds[m].reg.procs| && Silent(r.worlds[m].reg.procs[p].proc, k)
    ensures p < |r.worlds[n].reg.procs| && Silent(r.worlds[n].reg.procs[p].proc, k)
    ensures forall j: nat | m <= j < n :: !Sends(r, j, p, k)
  {
    hide Step, Owes;
    if m < n {
      SilentNeverSends(r, m, n - 1, p, k);
      assert Moves(r, n - 1);
      var b := ObjectMoves(r.worlds[n - 1], r.actions[n - 1], p);
      SilentStep(r.worlds[n - 1].reg.procs[p].proc, b, k);
      hide IsRun;
    }
  }

  /** A waiter that owes a report has sent it once it is past the report. */
  lemma {:induction false} OwedIsSent(r: Run, m: nat, n: nat, p: nat, k: nat)
    requires IsRun(r) && m <= n < |r.worlds| && p < |r.worlds[m].reg.procs| && Sending(r.worlds[m].reg.procs[p].proc, k)
    ensures p < |r.worlds[n].reg.procs|
    ensures Sending(r.worlds[n].reg.procs[p].proc, k) || exists j: nat :: m <= j < n && Sends(r, j, p, k)
  {
    hide Step, P.Step, PastReport;
    if m < n {
      OwedIsSent(r, m, n - 1, p, k);
      assert Moves(r, n - 1);
      var w, a := r.worlds[n - 1], r.actions[n - 1];
      var b := ObjectMoves(w, a, p);
      if Sending(w.reg.procs[p].proc, k) {
        if b == P.Report(k) {
          ReportNeedsRoom(w, p, k);
        } else {
          StaysSending(w.reg.procs[p].proc, b, k);
        }
        if !Sending(r.worlds[n].reg.procs[p].proc, k) {
          assert Sends(r, n - 1, p, k);
        }
      }
    }
  }

  /** The exit waiter of spawn `k` of object `p` looks at the status in step `m`. */
  ghost predicate Looks(r: Run, m: nat, p: nat, k: nat) {
    && IsRun(r) && m < |r.actions| && r.actions[m] == Async(p, P.Decide(k))
    && p < |r.worlds[m].reg.procs| && k < |r.worlds[m].reg.procs[p].proc.spawns|
    && r.worlds[m].reg.procs[p].proc.spawns[k].waiter == P.Reaped
  }

  /** In every run of the launcher: by the time the waiter is past its report the service has been
      appended to the unread messages, if and only if the process ended with an error other than a
      termination signal and the status read neither Stopping nor Stopped when the waiter looked. */
  lemma MessageIffCrashed(r: Run, m: nat, n: nat, p: nat, k: nat)
    requires Looks(r, m, p, k) && Init(r.worlds[0]) && m < n < |r.worlds|
    requires p < |r.worlds[n].reg.procs| && PastReport(r.worlds[n].reg.procs[p].proc, k)
    ensures var q := r.worlds[m].reg.procs[p].proc;
            (q.spawns[k].bad && q.status != P.Stopping && q.status != P.Stopped)
            <==> exists j: nat :: m < j < n && Sends(r, j, p, k)
  {
    var w, v := r.worlds[m], r.worlds[m + 1];
    var q := w.reg.procs[p].proc;
    SafeAt(r, m);
    assert Moves(r, m);
    LookedAt(w, p, k);
    DecideSplits(q, k);
    hide Step, Safe, Init, P.Step, P.Inv, Silent;
    if Crashed(q, k) {
      OwedIsSent(r, m + 1, n, p, k);
      var j: nat :| m + 1 <= j < n && Sends(r, j, p, k);
    } else {
      SilentNeverSends(r, m + 1, n, p, k);
    }
  }

  lemma LookedAt(w: World, p: nat, k: nat)
    requires Safe(w) && p < |w.reg.procs| && k < |w.reg.procs[p].proc.spawns|
    requires w.reg.procs[p].proc.spawns[k].waiter == P.Reaped
    ensures var v, q := Step(w, Async(p, P.Decide(k))), w.reg.procs[p].proc;
            && P.Inv(q) && |v.reg.procs| == |w.reg.procs| && v.reg.procs[p].proc == P.Step(q, P.Decide(k))
            && (Crashed(q, k) ==> Sending(v.reg.procs[p].proc, k))
  {
    hide P.Inv;
  }

  /** The process ends with an error, its waiter reads that, looks at the status, and reports. */
  function CrashSteps(w: World, p: nat, k: nat): World {
    Step(Step(Step(Step(w, Async(p, P.Exit(k, true))), Async(p, P.Reap(k))), Async(p, P.Decide(k))),
         Async(p, P.Report(k)))
  }

  /** In every reachable state with the lock free and room for a message: when the live process of a
      service has taken these steps, the service is the last of the unread messages. */
  lemma CrashIsHeard(r: Run, n: nat, p: nat)
    requires IsRun(r) && Init(r.worlds[0]) && n < |r.worlds| && r.worlds[n].holder == Free
    requires p < |r.worlds[n].reg.procs| && Live(r.worlds[n].reg.procs[p]) && |r.worlds[n].agents.errs| < 10
    ensures var w := r.worlds[n];
            var u := CrashSteps(w, p, |w.reg.procs[p].proc.spawns| - 1);
            && u.agents.errs == w.agents.errs + [w.reg.procs[p].svc]
            && u.reg.list == w.reg.list && u.reg.db == w.reg.db
  {
    hide CrashSteps, Step, P.Step, IsRun, Init;
    SafeAt(r, n);
    var w := r.worlds[n];
    var q := w.reg.procs[p].proc;
    assert EntryOk(w.reg, Free, p);
    hide Safe, EntryOk;
    CrashRun(q);
    CrashIsHeardFrom(w, p, q, |q.spawns| - 1);
  }

  lemma CrashIsHeardFrom(w: World, p: nat, q: P.Proc, k: nat)
    requires p < |w.reg.procs| && q == w.reg.procs[p].proc && |w.agents.errs| < 10
    requires Sending(P.Step(P.Step(P.Step(q, P.Exit(k, true)), P.Reap(k)), P.Decide(k)), k)
    ensures var u := CrashSteps(w, p, k);
            && u.agents.errs == w.agents.errs + [w.reg.procs[p].svc]
            && u.reg.list == w.reg.list && u.reg.db == w.reg.db
  {
    hide P.Step, Step, Sending;
    var q1 := P.Step(q, P.Exit(k, true));
    var q2 := P.Step(q1, P.Reap(k));
    var q3 := P.Step(q2, P.Decide(k));
    ObjectActs(w, p, P.Exit(k, true));
    var w1 := SetProc(w, p, q1);
    ObjectActs(w1, p, P.Reap(k));
    var w2 := SetProc(w1, p, q2);
    ObjectActs(w2, p, P.Decide(k));
    var w3 := SetProc(w2, p, q3);
    ReportNeedsRoom(w3, p, k);
  }

  lemma ObjectActs(w: World, p: nat, a: P.Action)
    requires p < |w.reg.procs| && P.Asynchronous(a) && !a.Report?
    ensures Step(w, Async(p, a)) == SetProc(w, p, P.Step(w.reg.procs[p].proc, a))
  {
    hide P.Apply;
    assert w.reg.procs[p := w.reg.procs[p]] == w.reg.procs;
  }
}
