/** The executor that runs at most a given number of asynchronous tasks at a time. */
module Executors {
  /** A task; `throwsAtOnce` marks a supplier that throws instead of returning a promise. */
  datatype Task = Task(id: int, throwsAtOnce: bool)

  /** `running`, `started` and `finished` record what the promises do; the other fields are the source's. */
  datatype Executor = Executor(
    maxConcurrencyLevel: int,
    tasks: seq<Task>,
    parked: seq<Task>,
    semaphore: int,
    running: multiset<Task>,
    started: seq<Task>,
    finished: seq<Task>)

  function NewExecutor(level: int): Executor {
    Executor(level, [], [], level, multiset{}, [], [])
  }

  /** Whether `_run` takes a task. */
  predicate Takes(x: Executor) {
    x.tasks != [] && x.semaphore != 0
  }

  /** Whether what it takes throws. */
  predicate Throws(x: Executor) {
    Takes(x) && x.tasks[0].throwsAtOnce
  }

  function Ran(x: Executor): Executor {
    if !Takes(x) then x
    else
      var t, y := x.tasks[0], x.(tasks := x.tasks[1..], semaphore := x.semaphore - 1);
      if t.throwsAtOnce then y else y.(running := y.running + multiset{t}, started := y.started + [t])
  }

  /** The semaphore is raised, cut off at its maximum. */
  function Raised(x: Executor): Executor {
    x.(semaphore := if x.maxConcurrencyLevel < x.semaphore + 1 then x.maxConcurrencyLevel else x.semaphore + 1)
  }

  function PostProcessed(x: Executor): Executor { Ran(Raised(x)) }

  datatype Event =
    | Execute(task: Task, park: bool)
    | Flush
    | Finish(task: Task)

  function Enqueued(x: Executor, t: Task, park: bool): Executor {
    if park then x.(parked := x.parked + [t]) else x.(tasks := x.tasks + [t])
  }

  function Flushed(x: Executor): Executor {
    Ran(x.(tasks := x.tasks + x.parked, parked := []))
  }

  function Ended(x: Executor, t: Task): Executor {
    x.(running := x.running - multiset{t}, finished := x.finished + [t])
  }

  /** When the continuation of a finished task throws, because the next task does, it runs a second time. */
  function Settled(x: Executor, t: Task): Executor {
    var y := Ended(x, t);
    if Throws(Raised(y)) then PostProcessed(PostProcessed(y)) else PostProcessed(y)
  }

  function Next(x: Executor, e: Event): Executor {
    match e
    case Execute(t, park) => Ran(Enqueued(x, t, park))
    case Flush => Flushed(x)
    case Finish(t) => if t in x.running then Settled(x, t) else x
  }

  class ConcurrentExecutor {
    const maxConcurrencyLevel: int
    var tasks: seq<Task>
    var parked: seq<Task>
    var semaphore: int
    var running: multiset<Task>
    var started: seq<Task>
    var finished: seq<Task>

    ghost function Value(): Executor
      reads this
    {
      Executor(maxConcurrencyLevel, tasks, parked, semaphore, running, started, finished)
    }

    constructor (maxConcurrencyLevel: int)
      requires 1 <= maxConcurrencyLevel
      ensures Value() == NewExecutor(maxConcurrencyLevel)
    {
      this.maxConcurrencyLevel, semaphore := maxConcurrencyLevel, maxConcurrencyLevel;
      tasks, parked, running, started, finished := [], [], multiset{}, [], [];
    }

    /** `threw` stands for the exception of a task that throws at once. */
    method Run() returns (threw: bool)
      modifies this
      ensures Value() == Ran(old(Value())) && threw == Throws(old(Value()))
    {
      if |tasks| == 0 || semaphore == 0 {
        return false;
      }
      var task := tasks[0];
      tasks := tasks[1..];
      semaphore := semaphore - 1;
      if task.throwsAtOnce {
        return true;
      }
      running := running + multiset{task};
      started := started + [task];
      return false;
    }

    method Execute(task: Task, park: bool)
      modifies this
      ensures Value() == Next(old(Value()), Event.Execute(task, park))
    {
      if park {
        parked := parked + [task];
      } else {
        tasks := tasks + [task];
      }
      var threw := Run();
    }

    method FlushParkedActions()
      modifies this
      ensures Value() == Next(old(Value()), Flush)
    {
      tasks := tasks + parked;
      parked := [];
      var threw := Run();
    }

    method PostProcess() returns (threw: bool)
      modifies this
      ensures Value() == PostProcessed(old(Value())) && threw == Throws(Raised(old(Value())))
    {
      semaphore := semaphore + 1;
      if maxConcurrencyLevel < semaphore {
        semaphore := maxConcurrencyLevel;
      }
      threw := Run();
    }

    /** A running task's promise settles. */
    method OnFinished(task: Task)
      requires task in running
      modifies this
      ensures Value() == Next(old(Value()), Finish(task))
    {
      running := running - multiset{task};
      finished := finished + [task];
      var threw := PostProcess();
      if threw {
        threw := PostProcess();
      }
    }
  }

  // ---------- runs ----------

  function RunOf(level: int, es: seq<Event>): Executor {
    if es == [] then NewExecutor(level) else Next(RunOf(level, es[..|es| - 1]), es[|es| - 1])
  }

  /** Tasks in the order in which they entered the queue of waiting ones. */
  function Order(level: int, es: seq<Event>): seq<Task> {
    if es == [] then []
    else Queued(RunOf(level, es[..|es| - 1]), es[|es| - 1], Order(level, es[..|es| - 1]))
  }

  /** What an event appends to that order. */
  function Queued(x: Executor, e: Event, before: seq<Task>): seq<Task> {
    match e
    case Execute(t, park) => if park then before else before + [t]
    case Flush => before + x.parked
    case Finish(_) => before
  }

  ghost predicate NobodyThrows(es: seq<Event>) {
    forall i :: 0 <= i < |es| && es[i].Execute? ==> !es[i].task.throwsAtOnce
  }

  ghost predicate NothingParked(es: seq<Event>) {
    forall i :: 0 <= i < |es| && es[i].Execute? ==> !es[i].park
  }

  ghost predicate AllStart(ts: seq<Task>) {
    forall i :: 0 <= i < |ts| ==> !ts[i].throwsAtOnce
  }

  /** Every permit is either free or with a running task, and tasks start in the order they queued. */
  ghost predicate Balanced(x: Executor, order: seq<Task>) {
    && |x.running| + x.semaphore == x.maxConcurrencyLevel && 0 <= x.semaphore
    && x.started + x.tasks == order
    && AllStart(x.tasks) && AllStart(x.parked)
  }

  /** No task waits while a permit is free. */
  predicate NoIdlePermit(x: Executor) {
    x.tasks != [] ==> x.semaphore == 0
  }

  lemma RanBalanced(x: Executor, order: seq<Task>)
    requires Balanced(x, order)
    ensures Balanced(Ran(x), order)
    ensures (x.semaphore <= 1 || |x.tasks| <= 1) <==> NoIdlePermit(Ran(x))
  {
    if Takes(x) {
      var t := x.tasks[0];
      assert x.started + [t] + x.tasks[1..] == x.started + x.tasks;
      forall i | 0 <= i < |x.tasks[1..]|
        ensures !x.tasks[1..][i].throwsAtOnce
      {
        assert x.tasks[1..][i] == x.tasks[i + 1];
      }
    }
  }

  /** A finishing task gives its permit back; the semaphore never has to be cut off. */
  lemma RaisedBalanced(x: Executor, t: Task, order: seq<Task>)
    requires Balanced(x, order) && t in x.running
    ensures Balanced(Raised(Ended(x, t)), order)
    ensures Raised(Ended(x, t)).semaphore == x.semaphore + 1
    ensures !Throws(Raised(Ended(x, t)))
  {
    assert x.running == x.running - multiset{t} + multiset{t};
  }

  lemma EnqueuedBalanced(x: Executor, t: Task, park: bool, order: seq<Task>)
    requires Balanced(x, order) && !t.throwsAtOnce
    ensures Balanced(Enqueued(x, t, park), if park then order else order + [t])
  {
    assert x.started + (x.tasks + [t]) == x.started + x.tasks + [t];
  }

  lemma FlushBalanced(x: Executor, order: seq<Task>)
    requires Balanced(x, order)
    ensures Balanced(x.(tasks := x.tasks + x.parked, parked := []), order + x.parked)
  {
    assert x.started + (x.tasks + x.parked) == x.started + x.tasks + x.parked;
  }

  /** With suppliers that return promises, in any run, parked tasks included: running tasks and free permits
      add up to the level, tasks start in the order in which they queued, and whichever task finishes next
      raises the semaphore by one, without the cut-off. */
  lemma PermitsAddUp(level: int, es: seq<Event>)
    requires 1 <= level && NobodyThrows(es)
    ensures Balanced(RunOf(level, es), Order(level, es)) && RunOf(level, es).maxConcurrencyLevel == level
    ensures forall t :: t in RunOf(level, es).running ==>
              Raised(Ended(RunOf(level, es), t)).semaphore == RunOf(level, es).semaphore + 1
  {
    PermitsBalance(level, es);
    var x := RunOf(level, es);
    forall t | t in x.running
      ensures Raised(Ended(x, t)).semaphore == x.semaphore + 1
    {
      RaisedBalanced(x, t, Order(level, es));
    }
  }

  lemma {:induction false} PermitsBalance(level: int, es: seq<Event>)
    requires 1 <= level && NobodyThrows(es)
    ensures Balanced(RunOf(level, es), Order(level, es)) && RunOf(level, es).maxConcurrencyLevel == level
  {
    if es != [] {
      var before, e := es[..|es| - 1], es[|es| - 1];
      PermitsBalance(level, before);
      var x, order := RunOf(level, before), Order(level, before);
      match e
      case Execute(t, park) =>
        assert es[|es| - 1].Execute?;
        EnqueuedBalanced(x, t, park, order);
        RanBalanced(Enqueued(x, t, park), Order(level, es));
      case Flush =>
        FlushBalanced(x, order);
        RanBalanced(x.(tasks := x.tasks + x.parked, parked := []), Order(level, es));
      case Finish(t) =>
        if t in x.running {
          RaisedBalanced(x, t, order);
          RanBalanced(Raised(Ended(x, t)), order);
        }
    }
  }

  /** Without parked tasks no task ever waits while a permit is free. */
  lemma {:induction false} WaitingMeansBusy(level: int, es: seq<Event>)
    requires 1 <= level && NobodyThrows(es) && NothingParked(es)
    ensures NoIdlePermit(RunOf(level, es)) && RunOf(level, es).parked == []
  {
    if es != [] {
      var before, e := es[..|es| - 1], es[|es| - 1];
      WaitingMeansBusy(level, before);
      PermitsBalance(level, before);
      var x, order := RunOf(level, before), Order(level, before);
      match e
      case Execute(t, park) =>
        assert es[|es| - 1].Execute? && !park;
        EnqueuedBalanced(x, t, park, order);
        RanBalanced(Enqueued(x, t, park), order + [t]);
      case Flush =>
        assert x.tasks + x.parked == x.tasks;
      case Finish(t) =>
        if t in x.running {
          RaisedBalanced(x, t, order);
          RanBalanced(Raised(Ended(x, t)), order);
        }
    }
  }

  /** Flushing starts one task only: the parked tasks leave a permit idle exactly if there is more than one
      of them and more than one permit is free. */
  lemma FlushLeavesIdleExactly(x: Executor, order: seq<Task>)
    requires Balanced(x, order) && NoIdlePermit(x)
    ensures NoIdlePermit(Flushed(x)) <==> |x.parked| <= 1 || x.semaphore <= 1
  {
    FlushBalanced(x, order);
    RanBalanced(x.(tasks := x.tasks + x.parked, parked := []), order + x.parked);
  }

  /** One task at a time: all started have finished, or all but the one that runs. */
  ghost predicate Sequential(x: Executor) {
    if x.semaphore == 1 then x.started == x.finished
    else |x.started| == |x.finished| + 1 && x.started[..|x.finished|] == x.finished
         && x.running == multiset{x.started[|x.finished|]}
  }

  lemma RanSequential(x: Executor, order: seq<Task>)
    requires Balanced(x, order) && x.maxConcurrencyLevel == 1 && Sequential(x)
    ensures Sequential(Ran(x))
  {
    if Takes(x) {
      assert |x.running| == 0;
      assert x.running == multiset{};
      var r := Ran(x);
      assert r.started[..|r.finished|] == x.started;
    }
  }

  /** At level 1, the level at which the remote map runs its commits, tasks also finish in the order in
      which they queued. */
  lemma {:induction false} LevelOneKeepsOrder(es: seq<Event>)
    requires NobodyThrows(es)
    ensures var x := RunOf(1, es); Sequential(x) && x.finished <= x.started <= Order(1, es)
  {
    PermitsBalance(1, es);
    LevelOneSequential(es);
  }

  lemma {:induction false} LevelOneSequential(es: seq<Event>)
    requires NobodyThrows(es)
    ensures Sequential(RunOf(1, es))
  {
    if es != [] {
      var before, e := es[..|es| - 1], es[|es| - 1];
      LevelOneSequential(before);
      PermitsBalance(1, before);
      var x, order := RunOf(1, before), Order(1, before);
      match e
      case Execute(t, park) =>
        assert es[|es| - 1].Execute?;
        EnqueuedBalanced(x, t, park, order);
        RanSequential(Enqueued(x, t, park), Order(1, es));
      case Flush =>
        FlushBalanced(x, order);
        RanSequential(x.(tasks := x.tasks + x.parked, parked := []), Order(1, es));
      case Finish(t) =>
        if t in x.running {
          RaisedBalanced(x, t, order);
          EndedSequential(x, t, order);
          RanSequential(Raised(Ended(x, t)), order);
        }
    }
  }

  lemma EndedSequential(x: Executor, t: Task, order: seq<Task>)
    requires Balanced(x, order) && x.maxConcurrencyLevel == 1 && Sequential(x) && t in x.running
    ensures Sequential(Raised(Ended(x, t)))
  {
    assert x.running == x.running - multiset{t} + multiset{t};
    assert x.semaphore == 0;
    assert x.started == x.finished + [t];
  }

  // ---------- suppliers that throw ----------

  /** The permits an event loses for good: its last `_run` takes a supplier that throws.  A finishing task runs
      its continuation again after one throw, so it takes two. */
  function LostIn(x: Executor, e: Event): nat {
    match e
    case Execute(t, park) => if Throws(Enqueued(x, t, park)) then 1 else 0
    case Flush => if Throws(x.(tasks := x.tasks + x.parked, parked := [])) then 1 else 0
    case Finish(t) =>
      var y := Ended(x, t);
      if t in x.running && Throws(Raised(y)) && Throws(Raised(PostProcessed(y))) then 1 else 0
  }

  function Lost(level: int, es: seq<Event>): nat {
    if es == [] then 0
    else Lost(level, es[..|es| - 1]) + LostIn(RunOf(level, es[..|es| - 1]), es[|es| - 1])
  }

  /** The tasks whose suppliers return promises. */
  function Calm(ts: seq<Task>): seq<Task> {
    if ts == [] then [] else Calm(ts[..|ts| - 1]) + (if ts[|ts| - 1].throwsAtOnce then [] else [ts[|ts| - 1]])
  }

  lemma {:induction false} CalmJoins(a: seq<Task>, b: seq<Task>)
    ensures Calm(a + b) == Calm(a) + Calm(b)
  {
    if b == [] {
      assert a + b == a;
    } else {
      CalmJoins(a, b[..|b| - 1]);
      assert (a + b)[..|a + b| - 1] == a + b[..|b| - 1];
    }
  }

  /** All permits are free, with a running task, or lost; calm tasks start in the order in which they queued. */
  ghost predicate Accounted(x: Executor, lost: nat, order: seq<Task>) {
    && |x.running| + x.semaphore + lost == x.maxConcurrencyLevel && 0 <= x.semaphore
    && x.started + Calm(x.tasks) == Calm(order)
  }

  lemma RanAccounted(x: Executor, lost: nat, order: seq<Task>)
    requires Accounted(x, lost, order)
    ensures Accounted(Ran(x), lost + if Throws(x) then 1 else 0, order)
  {
    if Takes(x) {
      assert x.tasks == [x.tasks[0]] + x.tasks[1..];
      CalmJoins([x.tasks[0]], x.tasks[1..]);
      assert Calm([x.tasks[0]]) == if x.tasks[0].throwsAtOnce then [] else [x.tasks[0]];
    }
  }

  lemma QueuedAccounted(x: Executor, ts: seq<Task>, parked: seq<Task>, lost: nat, order: seq<Task>)
    requires Accounted(x, lost, order)
    ensures Accounted(x.(tasks := x.tasks + ts, parked := parked), lost, order + ts)
  {
    hide Calm;
    CalmJoins(x.tasks, ts);
    CalmJoins(order, ts);
    assert x.started + (Calm(x.tasks) + Calm(ts)) == x.started + Calm(x.tasks) + Calm(ts);
  }

  /** While a permit is with a task that ends, raising the semaphore is never cut off. */
  lemma SettledAccounted(x: Executor, t: Task, lost: nat, order: seq<Task>)
    requires Accounted(x, lost, order) && t in x.running
    ensures Accounted(Settled(x, t), lost + LostIn(x, Finish(t)), order)
    ensures Raised(Ended(x, t)).semaphore == x.semaphore + 1
  {
    var y := Ended(x, t);
    assert x.running == y.running + multiset{t};
    RanAccounted(Raised(y), lost, order);
    if Throws(Raised(y)) {
      RanAccounted(Raised(PostProcessed(y)), lost, order);
    }
  }

  lemma NextAccounted(x: Executor, e: Event, lost: nat, order: seq<Task>)
    requires Accounted(x, lost, order)
    ensures Accounted(Next(x, e), lost + LostIn(x, e), Queued(x, e, order))
    ensures Next(x, e).maxConcurrencyLevel == x.maxConcurrencyLevel
  {
    hide Calm, Accounted;
    match e
    case Execute(t, park) =>
      if park {
        QueuedAccounted(x, [], x.parked + [t], lost, order);
        assert x.tasks + [] == x.tasks && order + [] == order;
      } else {
        QueuedAccounted(x, [t], x.parked, lost, order);
      }
      RanAccounted(Enqueued(x, t, park), lost, Queued(x, e, order));
    case Flush =>
      QueuedAccounted(x, x.parked, [], lost, order);
      RanAccounted(x.(tasks := x.tasks + x.parked, parked := []), lost, order + x.parked);
    case Finish(t) =>
      if t in x.running {
        SettledAccounted(x, t, lost, order);
      }
  }

  lemma {:induction false} PermitsAccounted(level: int, es: seq<Event>)
    requires 1 <= level
    ensures Accounted(RunOf(level, es), Lost(level, es), Order(level, es))
    ensures RunOf(level, es).maxConcurrencyLevel == level
  {
    if es != [] {
      hide Accounted, Next, LostIn, Queued;
      var before := es[..|es| - 1];
      PermitsAccounted(level, before);
      NextAccounted(RunOf(level, before), es[|es| - 1], Lost(level, before), Order(level, before));
    } else {
      assert Accounted(NewExecutor(level), 0, []);
    }
  }

  /** In every run, whatever suppliers throw: running tasks, free permits and lost permits add up to the level, so
      running and free ones alone do exactly if no `_run` that nothing repeats took a supplier that throws; the
      suppliers that return promises start in the order in which they queued, and none is skipped. */
  lemma PermitsLostExactly(level: int, es: seq<Event>)
    requires 1 <= level
    ensures var x, lost := RunOf(level, es), Lost(level, es);
      && |x.running| + x.semaphore + lost == level && 0 <= x.semaphore <= level
      && (|x.running| + x.semaphore == level <==> lost == 0)
      && x.started + Calm(x.tasks) == Calm(Order(level, es))
  {
    PermitsAccounted(level, es);
  }

  /** The executor has stopped for good, with no task running and no permit free, exactly if as many permits are
      lost as there were. */
  lemma StoppedExactly(level: int, es: seq<Event>, after: seq<Event>)
    requires 1 <= level
    ensures var x := RunOf(level, es);
      && (x.semaphore == 0 && x.running == multiset{} <==> Lost(level, es) == level)
      && (Lost(level, es) == level ==> Continued(x, after).started == x.started)
  {
    PermitsAccounted(level, es);
    var x := RunOf(level, es);
    if Lost(level, es) == level {
      assert |x.running| == 0;
      StuckForGood(x, after);
    }
  }

  /** Without a permit and without a running task nothing will ever start again. */
  lemma {:induction false} StuckForGood(x: Executor, es: seq<Event>)
    requires x.semaphore == 0 && x.running == multiset{}
    ensures var y := Continued(x, es); y.semaphore == 0 && y.running == multiset{} && y.started == x.started
  {
    if es != [] {
      StuckForGood(x, es[..|es| - 1]);
    }
  }

  function Continued(x: Executor, es: seq<Event>): Executor {
    if es == [] then x else Next(Continued(x, es[..|es| - 1]), es[|es| - 1])
  }

  /** A supplier that throws when it is submitted keeps its permit: as many of them as there are permits
      stop the executor for good. */
  lemma {:induction false} ThrowingSuppliersBlock(level: nat, bad: Task, after: seq<Event>)
    requires 1 <= level && bad.throwsAtOnce
    ensures var x := Continued(NewExecutor(level), seq(level, i => Execute(bad, false)));
      x.semaphore == 0 && Continued(x, after).started == []
  {
    ThrowingSuppliersTake(level, level, bad);
    StuckForGood(Continued(NewExecutor(level), seq(level, i => Execute(bad, false))), after);
  }

  lemma {:induction false} ThrowingSuppliersTake(level: nat, n: nat, bad: Task)
    requires n <= level && bad.throwsAtOnce
    ensures Continued(NewExecutor(level), seq(n, i => Execute(bad, false))) ==
            NewExecutor(level).(semaphore := level - n)
  {
    var es := seq(n, i => Execute(bad, false));
    if n != 0 {
      ThrowingSuppliersTake(level, n - 1, bad);
      assert es[..n - 1] == seq(n - 1, i => Execute(bad, false));
    }
  }
}
