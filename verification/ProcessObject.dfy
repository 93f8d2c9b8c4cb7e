/** The `Process` object itself: the Go methods, statement by statement, over the shared status
    cell. `history` records the accesses made so far and `Valid` says that the fields are what
    that history leads to, so every lemma about `Exec(NEW_PROC, run)` holds of the object. */
module ProcessObject {
  import opened ServiceProcess

  datatype Access = Access(before: Proc, action: Action, after: Proc)

  ghost predicate Legal(x: Access) {
    x.after == Step(x.before, x.action)
  }

  ghost predicate Follows(h: seq<Access>, i: nat)
    requires 0 < i < |h|
  {
    h[i].before == h[i - 1].after
  }

  /** The accesses `h` lead from a new process to `p`. */
  ghost predicate Chain(h: seq<Access>, p: Proc) {
    && (h == [] ==> p == NEW_PROC)
    && (h != [] ==> h[0].before == NEW_PROC && h[|h| - 1].after == p)
    && (forall i {:trigger Legal(h[i])} | 0 <= i < |h| :: Legal(h[i]))
    && (forall i {:trigger Follows(h, i)} | 0 < i < |h| :: Follows(h, i))
  }

  ghost function Actions(h: seq<Access>): (run: seq<Action>)
    ensures |run| == |h|
  {
    seq(|h|, i requires 0 <= i < |h| => h[i].action)
  }

  /** What an object has become is what the interleaving in its history leads to. */
  lemma {:induction false} ChainIsExec(h: seq<Access>, p: Proc)
    requires Chain(h, p)
    ensures Exec(NEW_PROC, Actions(h)) == p
  {
    if h != [] {
      var n := |h| - 1;
      assert Actions(h)[..n] == Actions(h[..n]);
      assert Legal(h[n]);
      if n > 0 { assert Follows(h, n); }
      forall i {:trigger Legal(h[..n][i])} | 0 <= i < n ensures Legal(h[..n][i]) { assert Legal(h[i]); }
      forall i {:trigger Follows(h[..n], i)} | 0 < i < n ensures Follows(h[..n], i) { assert Follows(h, i); }
      ChainIsExec(h[..n], h[n].before);
    }
  }

  lemma ChainInv(h: seq<Access>, p: Proc)
    requires Chain(h, p)
    ensures Inv(p)
  {
    ChainIsExec(h, p);
    InvExec(NEW_PROC, Actions(h));
  }

  /** Waiters and processes neither look at nor move the caller. */
  lemma AsynchronousIgnoresCaller(p: Proc, c: Caller, a: Action)
    requires Asynchronous(a)
    ensures Step(p.(caller := c), a) == Step(p, a).(caller := c)
    ensures Step(p, a).caller == p.caller && |Step(p, a).spawns| == |p.spawns|
  {}

  lemma ChainGrows(h: seq<Access>, p: Proc, a: Action)
    requires Chain(h, p)
    ensures Chain(h + [Access(p, a, Step(p, a))], Step(p, a))
  {
    var g := h + [Access(p, a, Step(p, a))];
    forall i {:trigger Legal(g[i])} | 0 <= i < |g| ensures Legal(g[i]) { if i < |h| { assert Legal(h[i]); } }
    forall i {:trigger Follows(g, i)} | 0 < i < |g| ensures Follows(g, i) { if i < |h| { assert Follows(h, i); } }
  }

  /** The caller's status writes: where it is, the action, the value, where it goes. */
  const CALLER_WRITES: set<(Caller, Action, ProcessState, Caller)> := {
    (Opening, MarkStarting, Starting, Launching), (Launching, SpawnFail, Stopped, Idle), (Launched, FinishStart,
      Running, Idle),
    (Armed, MarkStopping, Stopping, Signalling), (Reverting, Revert, Running, Idle)
  }

  class Process {
    var status: ProcessState
    var spawns: seq<Spawn>   // operating-system processes with their waiters and done channels
    ghost var caller: Caller
    ghost var history: seq<Access>

    ghost function View(): Proc
      reads this
    {
      Proc(status, spawns, caller)
    }

    ghost predicate Valid()
      reads this
    {
      Chain(history, View())
    }

    constructor ()
      ensures Valid() && View() == NEW_PROC && history == []
    {
      status, spawns, caller, history := Stopped, [], Idle, [];
    }

    /** Records an access that the code has just performed. */
    ghost method Record(a: Action, before: Proc)
      requires Chain(history, before) && View() == Step(before, a)
      modifies this`history
      ensures Valid() && history == old(history) + [Access(before, a, View())]
    {
      history := history + [Access(before, a, View())];
      ChainGrows(old(history), before, a);
    }

    /** One access by an exit waiter or by the operating system. */
    method RunWaiter(a: Action)
      requires Valid() && Asynchronous(a)
      modifies this
      ensures Valid() && caller == old(caller) && |spawns| == |old(spawns)|
      ensures history == old(history) + [Access(old(View()), a, View())]
    {
      ghost var before := View();
      var next := Step(Proc(status, spawns, Idle), a);
      AsynchronousIgnoresCaller(Proc(status, spawns, Idle), caller, a);
      status, spawns := next.status, next.spawns;
      Record(a, before);
    }

    /** The exit waiters and the operating system run for a while. */
    method Interleave()
      requires Valid()
      modifies this
      ensures Valid() && caller == old(caller) && |spawns| == |old(spawns)|
    {
      var steps: nat :| 0 <= steps;
      for _ := 0 to steps
        invariant Valid() && caller == old(caller) && |spawns| == |old(spawns)|
      {
        var a: Action := *;
        if Asynchronous(a) {
          RunWaiter(a);
        }
      }
    }

    /** A read of the status cell that begins a call. */
    ghost method Begin(a: Action)
      requires Valid() && caller == Idle
      requires (a == BeginStart && status == Stopped) || (a == BeginStop && status == Running)
      modifies this`caller, this`history
      ensures Valid() && caller == if a == BeginStart then Opening else Armed
    {
      var before := View();
      caller := if a == BeginStart then Opening else Armed;
      Record(a, before);
    }

    /** `updateStatus`: a write of the status cell by the caller. */
    method UpdateStatus(s: ProcessState, ghost a: Action, ghost next: Caller)
      requires Valid() && (caller, a, s, next) in CALLER_WRITES
      modifies this
      ensures Valid() && status == s && caller == next && spawns == old(spawns)
    {
      ghost var before := View();
      status, caller := s, next;
      Record(a, before);
    }

    /** `cmd.Start`, followed by the start of the exit waiter. */
    method Launch()
      requires Valid() && caller == Launching
      modifies this
      ensures Valid() && caller == Launched && |spawns| == |old(spawns)| + 1
    {
      ghost var before := View();
      spawns, caller := spawns + [Spawn(true, false, Waiting, false, 0, 0)], Launched;
      Record(SpawnOk, before);
    }

    /** `Start`; `launches` says whether the operating system can launch the process. */
    method Start(launches: bool) returns (failed: bool)
      requires Valid() && caller == Idle
      modifies this
      ensures Valid() && caller == Idle
      ensures failed <==> old(status) == Stopped && !launches
      ensures old(status) != Stopped ==> View() == old(View())
      ensures old(status) == Stopped && !failed ==> status == Running && |spawns| == |old(spawns)| + 1
      ensures failed ==> status == Stopped && |spawns| == |old(spawns)|
    {
      failed := false;
      if status != Stopped {
        return;
      }
      Begin(BeginStart);
      Interleave();
      UpdateStatus(Starting, MarkStarting, Launching);
      Interleave();
      if !launches {
        UpdateStatus(Stopped, SpawnFail, Idle);
        return true;
      }
      Launch();
      Interleave();
      UpdateStatus(Running, FinishStart, Idle);
    }

    /** Sends the termination signal; it can only reach a process that is not reaped yet. */
    method Signal() returns (delivered: bool)
      requires Valid() && caller == Signalling
      modifies this
      ensures Valid() && |spawns| == |old(spawns)|
      ensures caller == if delivered then Awaiting else Reverting
    {
      ChainInv(history, View());
      ghost var before := View();
      var last := |spawns| - 1;
      delivered := *;
      if delivered && spawns[last].waiter == Waiting {
        spawns, caller := spawns[last := spawns[last].(signalled := true)], Awaiting;
        Record(SignalOk, before);
      } else {
        delivered := false;
        caller := Reverting;
        Record(SignalFail, before);
      }
    }

    /** Waits for the done channel and kills the process when that takes too long. */
    method AwaitExit()
      requires Valid() && caller == Awaiting
      modifies this
      ensures Valid() && caller == Idle && |spawns| == |old(spawns)|
      ensures status == Stopped || status == Stopping
      ensures forall k | 0 <= k < |spawns| :: !spawns[k].alive
    {
      Interleave();
      ghost var before := View();
      ChainInv(history, before);
      var last := |spawns| - 1;
      var timeout: bool := *;
      if !timeout && spawns[last].waiter == Done {
        caller := Idle;
        Record(ChanClosed, before);
      } else {
        var s := spawns[last];
        spawns, caller := spawns[last := s.(alive := false, bad := s.bad || s.alive)], Idle;
        Record(TimeoutKill, before);
      }
    }

    /** `Stop` on the signal path. */
    method Stop() returns (failed: bool)
      requires Valid() && caller == Idle
      modifies this
      ensures Valid() && caller == Idle && |spawns| == |old(spawns)|
      ensures old(status) != Running ==> !failed && View() == old(View())
      ensures failed ==> status == Running
      ensures !failed ==> status != Running && (forall k | 0 <= k < |spawns| :: !spawns[k].alive)
    {
      failed := false;
      if status != Running {
        ChainInv(history, View());
        return;
      }
      Begin(BeginStop);
      Interleave();
      UpdateStatus(Stopping, MarkStopping, Signalling);
      Interleave();
      var delivered := Signal();
      if delivered {
        AwaitExit();
        return;
      }
      Interleave();
      UpdateStatus(Running, Revert, Idle);
      failed := true;
    }
  }
}
