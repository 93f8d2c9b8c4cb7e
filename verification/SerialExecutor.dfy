/** The serial executor (helpers/serialexecutor): one worker, a first-in first-out channel with
    room for every task, and a timer per executed task that puts it back. Modelled between
    `Start` and the first `Stop`. */
module SerialExecutor {
  import opened Options

  /** A task by name; the action it runs plays no role. */
  datatype Task = Task(name: string, interval: int, priority: int)

  // ---------------------------------------------------------------- the comparator

  const TWO_TO_63: int := 0x8000_0000_0000_0000

  predicate IsInt64(x: int) { -TWO_TO_63 <= x < TWO_TO_63 }

  /** The result of a 64-bit subtraction. */
  function Wrap(x: int): (r: int)
    requires -2 * TWO_TO_63 <= x < 2 * TWO_TO_63
    ensures IsInt64(r)
  {
    if x >= TWO_TO_63 then x - 2 * TWO_TO_63 else if x < -TWO_TO_63 then x + 2 * TWO_TO_63 else x
  }

  /** The comparison that Start sorts by. */
  function Compare(a: Task, b: Task): int
    requires IsInt64(a.priority) && IsInt64(b.priority)
  {
    Wrap(b.priority - a.priority)
  }

  /** The comparison orders two tasks by falling priority exactly when the difference of their
      priorities fits in 64 bits, which it does for priorities that are not negative. */
  lemma CompareIsExact(a: Task, b: Task)
    requires IsInt64(a.priority) && IsInt64(b.priority)
    ensures ((Compare(a, b) < 0 <==> a.priority > b.priority) && (Compare(a, b) == 0 <==> a.priority == b.priority))
            <==> IsInt64(b.priority - a.priority)
    ensures a.priority >= 0 && b.priority >= 0 ==> IsInt64(b.priority - a.priority)
  {}

  /** With negative priorities allowed the comparison is not even transitive. */
  lemma CompareCanCycle(name: string)
    ensures var low, mid, high := Task(name, 1, -TWO_TO_63), Task(name, 1, 0), Task(name, 1, TWO_TO_63 - 1);
            Compare(high, mid) < 0 && Compare(mid, low) < 0 && Compare(low, high) < 0
  {}

  predicate ByPriority(ts: seq<Task>) {
    forall i, j | 0 <= i < j < |ts| :: ts[i].priority >= ts[j].priority
  }

  // ---------------------------------------------------------------- the machine

  /** `executed` is history: the tasks in the order in which their execution began. */
  datatype World = World(queue: seq<Task>, executing: Option<Task>, timers: multiset<Task>, capacity: nat,
    executed: seq<Task>)

  datatype Action =
    | Take            // the worker receives from the channel and runs the task
    | Finish          // the task's action returns and its timer is armed
    | Fire(t: Task)   // a timer expires and sends the task to the channel

  predicate Blocked(w: World, a: Action) {
    a.Fire? && a.t in w.timers && |w.queue| >= w.capacity
  }

  function Step(w: World, a: Action): World {
    match a
    case Take =>
      if w.executing == None && w.queue != [] then
        w.(queue := w.queue[1..], executing := Some(w.queue[0]), executed := w.executed + [w.queue[0]])
      else w
    case Finish =>
      if w.executing.Some? then w.(executing := None, timers := w.timers + multiset{w.executing.value}) else w
    case Fire(t) =>
      if t in w.timers && |w.queue| < w.capacity then
        w.(queue := w.queue + [t], timers := w.timers - multiset{t})
      else w
  }

  function Exec(w: World, run: seq<Action>): World {
    if run == [] then w else Step(Exec(w, run[..|run| - 1]), run[|run| - 1])
  }

  /** Start has sorted the tasks and filled the channel. */
  function Started(tasks: seq<Task>): World {
    World(tasks, None, multiset{}, |tasks|, [])
  }

  /** Everything a task can be in. */
  function Everywhere(w: World): multiset<Task> {
    multiset(w.queue) + (if w.executing.Some? then multiset{w.executing.value} else multiset{}) + w.timers
  }

  lemma StepConserves(w: World, a: Action)
    ensures Everywhere(Step(w, a)) == Everywhere(w) && Step(w, a).capacity == w.capacity
  {
    match a
    case Take => if w.queue != [] { assert w.queue == [w.queue[0]] + w.queue[1..]; }
    case Finish =>
    case Fire(t) =>
  }

  /** What has been executed, followed by what is in the channel, only grows at the end. */
  function Line(w: World): seq<Task> {
    w.executed + w.queue
  }

  lemma StepAppends(w: World, a: Action)
    ensures Line(w) <= Line(Step(w, a)) && |w.executed| <= |Step(w, a).executed|
  {
    match a
    case Take => if w.queue != [] { assert w.executed + w.queue == w.executed + [w.queue[0]] + w.queue[1..]; }
    case Finish =>
    case Fire(t) => assert w.executed + (w.queue + [t]) == Line(w) + [t];
  }

  lemma {:induction false} ExecConserves(w: World, run: seq<Action>)
    ensures Everywhere(Exec(w, run)) == Everywhere(w) && Exec(w, run).capacity == w.capacity
  {
    if run != [] {
      ExecConserves(w, run[..|run| - 1]);
      StepConserves(Exec(w, run[..|run| - 1]), run[|run| - 1]);
    }
  }

  lemma {:induction false} ExecAppends(w: World, run: seq<Action>)
    ensures Line(w) <= Line(Exec(w, run)) && |w.executed| <= |Exec(w, run).executed|
  {
    if run != [] {
      ExecAppends(w, run[..|run| - 1]);
      StepAppends(Exec(w, run[..|run| - 1]), run[|run| - 1]);
    }
  }

  /** In every state after Start each added task is in the channel, executing or on its timer,
      as often as it was added; so one that was added once is in exactly one of the three. */
  lemma EveryTaskSomewhere(tasks: seq<Task>, run: seq<Action>, t: Task)
    ensures Everywhere(Exec(Started(tasks), run))[t] == multiset(tasks)[t]
  {
    ExecConserves(Started(tasks), run);
  }

  lemma RoomInChannel(w: World, tasks: seq<Task>)
    requires Everywhere(w) == multiset(tasks)
    ensures |w.queue| <= |tasks| && (w.timers != multiset{} ==> |w.queue| < |tasks|)
  {
    assert |Everywhere(w)| == |w.queue| + (if w.executing.Some? then 1 else 0) + |w.timers|;
  }

  lemma ReachableRoom(tasks: seq<Task>, run: seq<Action>)
    ensures var w := Exec(Started(tasks), run);
            |w.queue| <= |tasks| && (w.timers != multiset{} ==> |w.queue| < |tasks|)
  {
    hide Exec;
    ExecConserves(Started(tasks), run);
    RoomInChannel(Exec(Started(tasks), run), tasks);
  }

  /** A timer that expires always finds room in the channel. */
  lemma TimerNeverBlocks(tasks: seq<Task>, run: seq<Action>, a: Action)
    ensures !Blocked(Exec(Started(tasks), run), a)
  {
    hide Exec, Everywhere;
    ExecConserves(Started(tasks), run);
    ReachableRoom(tasks, run);
  }

  /** The first executions are the sorted tasks, in order. */
  lemma FirstRoundByPriority(tasks: seq<Task>, run: seq<Action>, i: nat, j: nat)
    requires ByPriority(tasks)
    requires i < j < |Exec(Started(tasks), run).executed| && j < |tasks|
    ensures var done := Exec(Started(tasks), run).executed;
            done[i] == tasks[i] && done[j] == tasks[j] && done[i].priority >= done[j].priority
  {
    hide Exec;
    ExecAppends(Started(tasks), run);
    PrefixAt(Started(tasks), Exec(Started(tasks), run), i);
    PrefixAt(Started(tasks), Exec(Started(tasks), run), j);
  }

  /** A place in line that has come to execution executed the task that stood there. */
  lemma PrefixAt(w: World, v: World, i: nat)
    requires Line(w) <= Line(v) && |w.executed| <= i < |v.executed| && i < |Line(w)|
    ensures v.executed[i] == w.queue[i - |w.executed|]
  {
    assert Line(v)[i] == Line(w)[i];
  }

  /** From any state: the task at position `k` of the channel is executed after exactly `k`
      further executions. */
  lemma ExecutedInTurn(w: World, more: seq<Action>, k: nat)
    requires k < |w.queue| && |Exec(w, more).executed| > |w.executed| + k
    ensures Exec(w, more).executed[|w.executed| + k] == w.queue[k]
  {
    hide Exec;
    ExecAppends(w, more);
    PrefixAt(w, Exec(w, more), |w.executed| + k);
  }

  /** Nobody is overtaken: once in the channel a task is executed after fewer other executions
      than there are tasks, in every continuation of every run. */
  lemma BoundedWaiting(tasks: seq<Task>, run: seq<Action>, k: nat, more: seq<Action>)
    requires k < |Exec(Started(tasks), run).queue|
    ensures k <= |tasks| - 1
    ensures var w := Exec(Started(tasks), run); var v := Exec(w, more);
            |v.executed| > |w.executed| + k ==> v.executed[|w.executed| + k] == w.queue[k]
  {
    hide Exec, Started;
    ReachableRoom(tasks, run);
    var w := Exec(Started(tasks), run);
    if |Exec(w, more).executed| > |w.executed| + k {
      ExecutedInTurn(w, more, k);
    }
  }

  // ---------------------------------------------------------------- the object

  datatype AddError = MissingTask | MissingAction | BadInterval | AlreadyRunning

  predicate Wide(ts: seq<Task>) {
    forall t | t in ts :: IsInt64(t.priority)
  }

  predicate NonNegative(ts: seq<Task>) {
    forall t | t in ts :: t.priority >= 0
  }

  /** What the sort promises: without negative priorities the order is by falling priority. */
  predicate InOrder(ts: seq<Task>) {
    NonNegative(ts) ==> ByPriority(ts)
  }

  lemma SameMembers(a: seq<Task>, b: seq<Task>)
    requires multiset(a) == multiset(b)
    ensures forall t :: t in a <==> t in b
  {
    forall t ensures t in a <==> t in b {
      assert t in a <==> t in multiset(a);
      assert t in b <==> t in multiset(b);
    }
  }

  /** One insertion of the sort, from the right. */
  method InsertTask(sorted: seq<Task>, t: Task) returns (r: seq<Task>)
    requires Wide(sorted) && IsInt64(t.priority)
    ensures multiset(r) == multiset(sorted) + multiset{t} && Wide(r)
    ensures NonNegative(sorted) && ByPriority(sorted) && t.priority >= 0 ==> NonNegative(r) && ByPriority(r)
  {
    var p := |sorted|;
    while p > 0 && Compare(sorted[p - 1], t) > 0
      invariant 0 <= p <= |sorted|
      invariant t.priority >= 0 && NonNegative(sorted) && p < |sorted| ==> sorted[p].priority < t.priority
    {
      p := p - 1;
    }
    r := sorted[..p] + [t] + sorted[p..];
    InsertedKeeps(sorted, p, t);
    if t.priority >= 0 && NonNegative(sorted) && ByPriority(sorted) {
      InsertedInOrder(sorted, p, t);
    }
  }

  lemma InsertedKeeps(sorted: seq<Task>, p: nat, t: Task)
    requires p <= |sorted|
    ensures multiset(sorted[..p] + [t] + sorted[p..]) == multiset(sorted) + multiset{t}
  {
    assert sorted == sorted[..p] + sorted[p..];
  }

  lemma InsertedInOrder(sorted: seq<Task>, p: nat, t: Task)
    requires p <= |sorted| && ByPriority(sorted)
    requires p > 0 ==> sorted[p - 1].priority >= t.priority
    requires p < |sorted| ==> sorted[p].priority < t.priority
    ensures ByPriority(sorted[..p] + [t] + sorted[p..])
  {}

  class SequentialExecutor {
    var running: bool
    var tasks: seq<Task>
    var queue: seq<Task>            // the channel, of capacity |tasks|
    var executing: Option<Task>
    var timers: multiset<Task>
    ghost var executed: seq<Task>
    ghost var run: seq<Action>

    ghost function View(): World
      reads this
    {
      World(queue, executing, timers, |tasks|, executed)
    }

    ghost predicate Valid()
      reads this
    {
      && Wide(tasks) && (forall t | t in tasks :: t.interval > 0)
      && (running ==> View() == Exec(Started(tasks), run) && InOrder(tasks))
    }

    constructor ()
      ensures Valid() && !running && tasks == []
    {
      running, tasks, queue, executing, timers := false, [], [], None, multiset{};
      executed, run := [], [];
    }

    /** `Add`; `hasAction` says whether the task carries an action. */
    method Add(task: Option<Task>, hasAction: bool) returns (error: Option<AddError>)
      requires Valid() && (task.Some? ==> IsInt64(task.value.priority))
      modifies this
      ensures Valid() && running == old(running)
      ensures error == if task == None then Some(MissingTask)
                       else if !hasAction then Some(MissingAction)
                       else if task.value.interval <= 0 then Some(BadInterval)
                       else if running then Some(AlreadyRunning)
                       else None
      ensures tasks == if error == None then old(tasks) + [task.value] else old(tasks)
    {
      if task == None {
        return Some(MissingTask);
      }
      if !hasAction {
        return Some(MissingAction);
      }
      if task.value.interval <= 0 {
        return Some(BadInterval);
      }
      if running {
        return Some(AlreadyRunning);
      }
      tasks := tasks + [task.value];
      return None;
    }

    /** `Start`: sorts, fills the channel, and lets the worker begin. */
    method Start()
      requires Valid()
      modifies this
      ensures Valid() && running
      ensures old(running) ==> View() == old(View()) && tasks == old(tasks)
      ensures !old(running) ==> multiset(tasks) == multiset(old(tasks)) && View() == Started(tasks)
    {
      if running {
        return;
      }
      SortTasks();
      ghost var sorted := tasks;
      queue := [];
      for i := 0 to |tasks|
        invariant tasks == sorted && queue == tasks[..i] && !running
      {
        queue := queue + [tasks[i]];
      }
      executing, timers, running := None, multiset{}, true;
      executed, run := [], [];
    }

    /** `slices.SortFunc` with the comparison of the source, here an insertion sort. */
    method SortTasks()
      requires Valid() && !running
      modifies this`tasks
      ensures Valid() && InOrder(tasks) && multiset(tasks) == multiset(old(tasks))
    {
      var sorted: seq<Task> := [];
      for i := 0 to |tasks|
        invariant tasks == old(tasks) && multiset(sorted) == multiset(tasks[..i]) && Wide(sorted)
        invariant NonNegative(tasks) ==> NonNegative(sorted) && ByPriority(sorted)
      {
        assert tasks[..i + 1] == tasks[..i] + [tasks[i]];
        sorted := InsertTask(sorted, tasks[i]);
      }
      assert tasks[..|tasks|] == tasks;
      SameMembers(sorted, tasks);
      tasks := sorted;
    }

    ghost method Record(a: Action, before: World)
      requires before == Exec(Started(tasks), run) && View() == Step(before, a)
      modifies this`run
      ensures View() == Exec(Started(tasks), run)
    {
      run := run + [a];
      assert run[..|run| - 1] == old(run);
    }

    /** The worker receives a task and begins to run it. */
    method Take() returns (taken: Option<Task>)
      requires Valid() && running
      modifies this
      ensures Valid() && running && tasks == old(tasks) && timers == old(timers)
      ensures old(executing) == None && old(queue) != [] ==>
                taken == Some(old(queue)[0]) && executing == taken && queue == old(queue)[1..]
                  && executed == old(executed) + [old(queue)[0]]
      ensures !(old(executing) == None && old(queue) != []) ==> taken == None && View() == old(View())
    {
      taken := None;
      if executing == None && queue != [] {
        ghost var before := View();
        taken := Some(queue[0]);
        executed := executed + [queue[0]];
        executing, queue := taken, queue[1..];
        Record(Action.Take, before);
      }
    }

    /** The end of `Task.Exec`: the timer of the task is armed. */
    method FinishTask()
      requires Valid() && running && executing.Some?
      modifies this
      ensures Valid() && running && tasks == old(tasks) && queue == old(queue) && executed == old(executed)
      ensures executing == None && timers == old(timers) + multiset{old(executing).value}
    {
      ghost var before := View();
      timers, executing := timers + multiset{executing.value}, None;
      Record(Finish, before);
    }

    /** A timer expires; the send on the channel finds room and does not wait. */
    method FireTimer(t: Task)
      requires Valid() && running && t in timers
      modifies this
      ensures Valid() && running && tasks == old(tasks) && executing == old(executing) && executed == old(executed)
      ensures |old(queue)| < |tasks| && queue == old(queue) + [t] && timers == old(timers) - multiset{t}
    {
      hide Exec, Started, InOrder, Wide;
      ghost var before := View();
      TimerNeverBlocks(tasks, run, Fire(t));
      assert !Blocked(before, Fire(t));
      queue, timers := queue + [t], timers - multiset{t};
      Record(Fire(t), before);
    }
  }
}
