/** `TaskScheduler`: a task table keyed by id in insertion order, a FIFO
    queue of submitted ids, a bounded history of cleared tasks and four
    counters. Worker threads are modelled as atomic steps: taking the head
    of the queue and starting it, then finishing it with the outcome the
    task's function produced (an oracle). Task ids come from `uuid4` and
    are taken as fresh. */
module Scheduler {
  import opened Wrappers
  import opened Sequences
  import opened PySemantics

  datatype TaskStatus = Pending | Running | Completed | Failed | Cancelled
  {
    function Value(): string
    {
      match this
      case Pending => "pending"
      case Running => "running"
      case Completed => "completed"
      case Failed => "failed"
      case Cancelled => "cancelled"
    }
  }

  datatype TaskPriority = Low | Normal | High | Urgent
  {
    function Value(): nat
    {
      match this
      case Low => 1
      case Normal => 2
      case High => 3
      case Urgent => 4
    }
  }

  /** What calling the task's function did: returned a value (an opaque
      handle) or raised with a message. */
  datatype Outcome = Returned(value: nat) | Raised(message: string)

  /** A task; its function and arguments are left to the outcome oracle. */
  datatype Task = Task(id: string, name: string, priority: TaskPriority, status: TaskStatus,
                       createdTime: real, startTime: Option<real>, endTime: Option<real>,
                       result: Option<nat>, error: Option<string>)

  datatype SchedulerStats = SchedulerStats(totalTasks: nat, completedTasks: nat, failedTasks: nat,
                                           cancelledTasks: nat, runningTasks: nat)

  datatype TaskScheduler = TaskScheduler(isRunning: bool, queue: seq<string>, tasks: seq<Task>,
                                         history: seq<Task>, stats: SchedulerStats)

  const HistoryLimit: nat := 100

  /** `Task.__lt__`: a task comes first when its priority value is higher.
      The queue is a plain FIFO `Queue`, so nothing consults this order. */
  predicate Precedes(a: Task, b: Task)
  {
    a.priority.Value() > b.priority.Value()
  }

  /** Precedence is a strict order. */
  lemma PrecedesStrict(a: Task, b: Task, c: Task)
    ensures !Precedes(a, a)
    ensures Precedes(a, b) ==> !Precedes(b, a)
    ensures Precedes(a, b) && Precedes(b, c) ==> Precedes(a, c)
  {
  }

  /** A fresh scheduler: not running, nothing queued, all counters zero. */
  function NewScheduler(): (s: TaskScheduler)
    ensures !s.isRunning && s.queue == [] && s.tasks == [] && s.history == []
    ensures s.stats == SchedulerStats(0, 0, 0, 0, 0)
  {
    TaskScheduler(false, [], [], [], SchedulerStats(0, 0, 0, 0, 0))
  }

  // ------------------------------------------------------------ the task table

  function IdsOf(tasks: seq<Task>): (r: seq<string>)
    ensures |r| == |tasks| && forall i | 0 <= i < |tasks| :: r[i] == tasks[i].id
  {
    seq(|tasks|, i requires 0 <= i < |tasks| => tasks[i].id)
  }

  /** Where the task with this id sits in the table, |tasks| if absent. */
  function Find(tasks: seq<Task>, id: string): (k: nat)
    ensures k <= |tasks|
    ensures k < |tasks| ==> tasks[k].id == id
    ensures k == |tasks| <==> forall i | 0 <= i < |tasks| :: tasks[i].id != id
  {
    IndexOf(IdsOf(tasks), id)
  }

  function HasStatus(st: TaskStatus): Task -> bool
  {
    (t: Task) => t.status == st
  }

  /** Not yet finished: the tasks `clear_completed_tasks` keeps. */
  function Active(): Task -> bool
  {
    (t: Task) => t.status == Pending || t.status == Running
  }

  function CountStatus(tasks: seq<Task>, st: TaskStatus): nat
  {
    |Filter(tasks, HasStatus(st))|
  }

  /** No two tasks share an id. */
  predicate UniqueIds(tasks: seq<Task>)
  {
    forall i, j | 0 <= i < j < |tasks| :: tasks[i].id != tasks[j].id
  }

  /** What every operation keeps: ids are unique in the table and in the
      queue; a queued task that is still in the table is pending or
      cancelled (the worker pops a task before running it); and every
      submitted task is counted exactly once, as finished, cancelled, or
      still pending or running. */
  predicate Valid(s: TaskScheduler)
  {
    && UniqueIds(s.tasks)
    && Distinct(s.queue)
    && (forall i | 0 <= i < |s.tasks| && s.tasks[i].id in s.queue ::
          s.tasks[i].status == Pending || s.tasks[i].status == Cancelled)
    && s.stats.totalTasks == s.stats.completedTasks + s.stats.failedTasks + s.stats.cancelledTasks
                             + CountStatus(s.tasks, Pending) + CountStatus(s.tasks, Running)
  }

  lemma NewSchedulerValid()
    ensures Valid(NewScheduler())
  {
  }

  /** One task's status changes: every status count moves by what the old
      and the new status contribute. */
  lemma CountAfterUpdate(tasks: seq<Task>, k: nat, t: Task, st: TaskStatus)
    requires k < |tasks|
    ensures CountStatus(tasks[k := t], st) + (if tasks[k].status == st then 1 else 0)
            == CountStatus(tasks, st) + (if t.status == st then 1 else 0)
  {
    FilterCountUpdate(tasks, k, t, HasStatus(st));
  }

  // ------------------------------------------------------------ start and stop

  /** `start`: the scheduler runs; starting a running one is a no-op that
      also answers true. Worker threads are not modelled. */
  function Start(s: TaskScheduler): (r: (TaskScheduler, bool))
    ensures r.1 && r.0 == s.(isRunning := true)
  {
    (s.(isRunning := true), true)
  }

  /** `_cancel_pending_tasks`: every pending task becomes cancelled and the
      cancelled counter grows by their number. */
  function CancelPending(s: TaskScheduler): (r: TaskScheduler)
    ensures |r.tasks| == |s.tasks|
    ensures forall i | 0 <= i < |s.tasks| ::
              r.tasks[i] == if s.tasks[i].status == Pending then s.tasks[i].(status := Cancelled) else s.tasks[i]
    ensures r.stats == s.stats.(cancelledTasks := s.stats.cancelledTasks + CountStatus(s.tasks, Pending))
    ensures CountStatus(r.tasks, Pending) == 0
    ensures r.queue == s.queue && r.history == s.history && r.isRunning == s.isRunning
  {
    var tasks := seq(|s.tasks|, i requires 0 <= i < |s.tasks| =>
                       if s.tasks[i].status == Pending then s.tasks[i].(status := Cancelled) else s.tasks[i]);
    var r := s.(tasks := tasks,
                stats := s.stats.(cancelledTasks := s.stats.cancelledTasks + CountStatus(s.tasks, Pending)));
    FilterNone(tasks, HasStatus(Pending));
    r
  }

  lemma CancelPendingValid(s: TaskScheduler)
    requires Valid(s)
    ensures Valid(CancelPending(s))
  {
    var r := CancelPending(s);
    FilterSameCount(s.tasks, r.tasks, HasStatus(Running));
  }

  /** `stop`: a running scheduler stops and cancels what is pending; a
      stopped one is left alone. Joining the workers is not modelled. */
  function Stop(s: TaskScheduler): (r: TaskScheduler)
    ensures !s.isRunning ==> r == s
    ensures s.isRunning ==> r == CancelPending(s).(isRunning := false)
    ensures s.isRunning ==> !r.isRunning && CountStatus(r.tasks, Pending) == 0
  {
    if !s.isRunning then s else CancelPending(s.(isRunning := false))
  }

  // ------------------------------------------------------------ submit and cancel

  /** `submit_task`: refused (the `RuntimeError`) unless running; otherwise
      a pending task goes at the end of the table and of the queue, and the
      total grows by one. `id` stands for the fresh `uuid4` and `now` for
      the creation time. */
  function SubmitTask(s: TaskScheduler, id: string, name: string, priority: TaskPriority, now: real)
    : (r: Result<(TaskScheduler, string)>)
    requires id !in IdsOf(s.tasks) && id !in s.queue
    ensures r.Failure? <==> !s.isRunning
    ensures r.Success? ==>
              var (t, tid) := r.value;
              && tid == id
              && t.tasks == s.tasks + [Task(id, name, priority, Pending, now, None, None, None, None)]
              && t.queue == s.queue + [id]
              && t.stats == s.stats.(totalTasks := s.stats.totalTasks + 1)
              && t.history == s.history && t.isRunning
  {
    if !s.isRunning then Failure("task scheduler is not running")
    else
      var t := Task(id, name, priority, Pending, now, None, None, None, None);
      Success((s.(tasks := s.tasks + [t], queue := s.queue + [id],
                  stats := s.stats.(totalTasks := s.stats.totalTasks + 1)), id))
  }

  lemma SubmitTaskValid(s: TaskScheduler, id: string, name: string, priority: TaskPriority, now: real)
    requires Valid(s) && id !in IdsOf(s.tasks) && id !in s.queue
    ensures var r := SubmitTask(s, id, name, priority, now);
            r.Success? ==> Valid(r.value.0)
  {
    var r := SubmitTask(s, id, name, priority, now);
    if r.Success? {
      var t := Task(id, name, priority, Pending, now, None, None, None, None);
      FilterAppend(s.tasks, t, HasStatus(Pending));
      FilterAppend(s.tasks, t, HasStatus(Running));
      var tasks := s.tasks + [t];
      assert forall i | 0 <= i < |s.tasks| :: tasks[i] == s.tasks[i];
      assert tasks[|s.tasks|] == t;
    }
  }

  /** `cancel_task`: only a pending task can be cancelled; it becomes
      cancelled and the cancelled counter grows by one. An unknown id, a
      running task or a finished one answer false and change nothing. */
  function CancelTask(s: TaskScheduler, id: string): (r: (TaskScheduler, bool))
    ensures var k := Find(s.tasks, id);
            r.1 <==> k < |s.tasks| && s.tasks[k].status == Pending
    ensures !r.1 ==> r.0 == s
    ensures r.1 ==> var k := Find(s.tasks, id);
                    && r.0.tasks == s.tasks[k := s.tasks[k].(status := Cancelled)]
                    && r.0.stats == s.stats.(cancelledTasks := s.stats.cancelledTasks + 1)
                    && r.0.queue == s.queue && r.0.history == s.history && r.0.isRunning == s.isRunning
  {
    var k := Find(s.tasks, id);
    if k == |s.tasks| then (s, false)
    else if s.tasks[k].status == Pending then
      (s.(tasks := s.tasks[k := s.tasks[k].(status := Cancelled)],
          stats := s.stats.(cancelledTasks := s.stats.cancelledTasks + 1)), true)
    else (s, false)
  }

  lemma CancelTaskValid(s: TaskScheduler, id: string)
    requires Valid(s)
    ensures Valid(CancelTask(s, id).0)
  {
    var k := Find(s.tasks, id);
    if k < |s.tasks| && s.tasks[k].status == Pending {
      var t := s.tasks[k].(status := Cancelled);
      CountAfterUpdate(s.tasks, k, t, Pending);
      CountAfterUpdate(s.tasks, k, t, Running);
    }
  }

  // ------------------------------------------------------------ the worker

  /** The first half of a worker turn: pop the oldest queued id, in queue
      order whatever the priorities. A task no longer in the table or
      cancelled is skipped; otherwise it becomes running with its start
      time. The id of the started task is returned. */
  function TakeNext(s: TaskScheduler, now: real): (r: (TaskScheduler, Option<string>))
    ensures s.queue == [] ==> r == (s, None)
    ensures s.queue != [] ==> r.0.queue == s.queue[1..]
    ensures s.queue != [] ==>
              var k := Find(s.tasks, s.queue[0]);
              if k == |s.tasks| || s.tasks[k].status == Cancelled then
                r == (s.(queue := s.queue[1..]), None)
              else
                && r.1 == Some(s.queue[0])
                && r.0.tasks == s.tasks[k := s.tasks[k].(status := Running, startTime := Some(now))]
                && r.0.stats == s.stats && r.0.history == s.history
  {
    if s.queue == [] then (s, None)
    else
      var id := s.queue[0];
      var k := Find(s.tasks, id);
      var s0 := s.(queue := s.queue[1..]);
      if k == |s.tasks| || s.tasks[k].status == Cancelled then (s0, None)
      else (s0.(tasks := s.tasks[k := s.tasks[k].(status := Running, startTime := Some(now))]), Some(id))
  }

  /** A started task was pending: the queue only ever holds pending or
      cancelled tasks. */
  lemma TakeNextStartsPending(s: TaskScheduler, now: real)
    requires Valid(s) && s.queue != []
    ensures var k := Find(s.tasks, s.queue[0]);
            TakeNext(s, now).1.Some? ==> k < |s.tasks| && s.tasks[k].status == Pending
  {
  }

  lemma TakeNextValid(s: TaskScheduler, now: real)
    requires Valid(s)
    ensures Valid(TakeNext(s, now).0)
  {
    if s.queue != [] {
      var r := TakeNext(s, now).0;
      var id := s.queue[0];
      DistinctTail(s.queue);
      var k := Find(s.tasks, id);
      if k < |s.tasks| && s.tasks[k].status != Cancelled {
        var t := s.tasks[k].(status := Running, startTime := Some(now));
        CountAfterUpdate(s.tasks, k, t, Pending);
        CountAfterUpdate(s.tasks, k, t, Running);
      }
    }
  }

  /** `_execute_task` after the call returns: a running task completes
      with its result or fails with the message, with its end time, and
      the matching counter grows by one. */
  function Finish(s: TaskScheduler, id: string, outcome: Outcome, now: real): (r: TaskScheduler)
    requires Find(s.tasks, id) < |s.tasks| && s.tasks[Find(s.tasks, id)].status == Running
    ensures var k := Find(s.tasks, id);
            && |r.tasks| == |s.tasks|
            && (forall i | 0 <= i < |s.tasks| && i != k :: r.tasks[i] == s.tasks[i])
            && r.tasks[k].endTime == Some(now)
            && r.queue == s.queue && r.history == s.history && r.isRunning == s.isRunning
    ensures var k := Find(s.tasks, id); r.tasks == s.tasks[k := r.tasks[k]]
    ensures outcome.Returned? ==>
              var k := Find(s.tasks, id);
              && r.tasks[k] == s.tasks[k].(status := Completed, endTime := Some(now), result := Some(outcome.value))
              && r.stats == s.stats.(completedTasks := s.stats.completedTasks + 1)
    ensures outcome.Raised? ==>
              var k := Find(s.tasks, id);
              && r.tasks[k] == s.tasks[k].(status := Failed, endTime := Some(now), error := Some(outcome.message))
              && r.stats == s.stats.(failedTasks := s.stats.failedTasks + 1)
  {
    var k := Find(s.tasks, id);
    match outcome
    case Returned(v) =>
      s.(tasks := s.tasks[k := s.tasks[k].(status := Completed, endTime := Some(now), result := Some(v))],
         stats := s.stats.(completedTasks := s.stats.completedTasks + 1))
    case Raised(m) =>
      s.(tasks := s.tasks[k := s.tasks[k].(status := Failed, endTime := Some(now), error := Some(m))],
         stats := s.stats.(failedTasks := s.stats.failedTasks + 1))
  }

  lemma FinishValid(s: TaskScheduler, id: string, outcome: Outcome, now: real)
    requires Valid(s)
    requires Find(s.tasks, id) < |s.tasks| && s.tasks[Find(s.tasks, id)].status == Running
    ensures Valid(Finish(s, id, outcome, now))
  {
    var k := Find(s.tasks, id);
    var r := Finish(s, id, outcome, now);
    CountAfterUpdate(s.tasks, k, r.tasks[k], Pending);
    CountAfterUpdate(s.tasks, k, r.tasks[k], Running);
  }

  /** A whole worker turn: whatever task it starts it also finishes, so
      a turn never leaves more tasks running than before. */
  function WorkerTurn(s: TaskScheduler, outcome: Outcome, start: real, finish: real): (r: TaskScheduler)
    requires Valid(s)
    ensures Valid(r)
    ensures s.queue != [] ==> r.queue == s.queue[1..]
    ensures s.queue == [] ==> r == s
    ensures CountStatus(r.tasks, Running) == CountStatus(s.tasks, Running)
    ensures r.stats.completedTasks + r.stats.failedTasks <= s.stats.completedTasks + s.stats.failedTasks + 1
  {
    TakeNextValid(s, start);
    var (s1, started) := TakeNext(s, start);
    match started
    case None => s1
    case Some(id) =>
      StartedThenFinished(s, outcome, start, finish);
      Finish(s1, id, outcome, finish)
  }

  /** The task a turn starts is running when it finishes, and finishing it
      takes it out of the running count again. */
  lemma StartedThenFinished(s: TaskScheduler, outcome: Outcome, start: real, finish: real)
    requires Valid(s) && TakeNext(s, start).1.Some?
    ensures var (s1, started) := TakeNext(s, start);
            var k := Find(s1.tasks, started.value);
            && k < |s1.tasks| && s1.tasks[k].status == Running
            && var r := Finish(s1, started.value, outcome, finish);
               && Valid(r)
               && CountStatus(r.tasks, Running) == CountStatus(s.tasks, Running)
  {
    TakeNextValid(s, start);
    var (s1, started) := TakeNext(s, start);
    var id := started.value;
    var k := Find(s.tasks, id);
    assert Find(s1.tasks, id) == k by {
      assert IdsOf(s1.tasks) == IdsOf(s.tasks);
    }
    FinishValid(s1, id, outcome, finish);
    var r := Finish(s1, id, outcome, finish);
    UpdateTwice(s.tasks, k, s1.tasks[k], r.tasks[k]);
    TakeNextStartsPending(s, start);
    CountAfterUpdate(s.tasks, k, r.tasks[k], Running);
  }

  // ------------------------------------------------------------ queries

  /** The dictionary `get_task_status` returns. */
  datatype TaskView = TaskView(id: string, name: string, status: string, priority: nat,
                               createdTime: real, startTime: Option<real>, endTime: Option<real>,
                               result: Option<nat>, error: Option<string>, duration: Option<real>)

  /** `end_time - start_time if end_time and start_time else None`: a
      time of exactly 0.0 is falsy and gives no duration. */
  function Duration(start: Option<real>, end: Option<real>): (d: Option<real>)
    ensures d.Some? <==> start.Some? && end.Some? && start.value != 0.0 && end.value != 0.0
    ensures d.Some? ==> d.value + start.value == end.value
  {
    if end.Some? && end.value != 0.0 && start.Some? && start.value != 0.0
    then Some(end.value - start.value) else None
  }

  function View(t: Task): (v: TaskView)
    ensures v.id == t.id && v.name == t.name && v.status == t.status.Value()
    ensures v.priority == t.priority.Value() && v.result == t.result && v.error == t.error
    ensures v.duration == Duration(t.startTime, t.endTime)
  {
    TaskView(t.id, t.name, t.status.Value(), t.priority.Value(), t.createdTime, t.startTime,
             t.endTime, t.result, t.error, Duration(t.startTime, t.endTime))
  }

  /** `get_task_status`: None for an unknown id. */
  function GetTaskStatus(s: TaskScheduler, id: string): (r: Option<TaskView>)
    ensures r.None? <==> forall i | 0 <= i < |s.tasks| :: s.tasks[i].id != id
    ensures r.Some? ==> r.value == View(s.tasks[Find(s.tasks, id)])
  {
    var k := Find(s.tasks, id);
    if k == |s.tasks| then None else Some(View(s.tasks[k]))
  }

  function Views(tasks: seq<Task>): (r: seq<TaskView>)
    ensures |r| == |tasks| && forall i | 0 <= i < |tasks| :: r[i] == View(tasks[i])
  {
    seq(|tasks|, i requires 0 <= i < |tasks| => View(tasks[i]))
  }

  /** Viewing keeps a subsequence a subsequence. */
  lemma {:induction false} ViewsSubsequence(a: seq<Task>, b: seq<Task>)
    requires Subsequence(a, b)
    ensures Subsequence(Views(a), Views(b))
    decreases |b|
  {
    if a != [] {
      assert Views(b)[1..] == Views(b[1..]);
      if a[0] == b[0] {
        assert Views(a)[1..] == Views(a[1..]);
        ViewsSubsequence(a[1..], b[1..]);
      } else {
        ViewsSubsequence(a, b[1..]);
        if Views(a)[0] == Views(b)[0] {
          SubsequenceTail(Views(a), Views(b)[1..]);
        }
      }
    }
  }

  /** `v` is the view of some task of the table in status `st`. */
  predicate ViewOfStatus(tasks: seq<Task>, st: TaskStatus, v: TaskView)
  {
    exists t | t in tasks :: t.status == st && v == View(t)
  }

  /** Each view of a filtered table is the view of a task in that status. */
  lemma StatusViewsSound(tasks: seq<Task>, st: TaskStatus)
    ensures forall v | v in Views(Filter(tasks, HasStatus(st))) :: ViewOfStatus(tasks, st, v)
  {
    var f := Filter(tasks, HasStatus(st));
    var r := Views(f);
    forall v | v in r
      ensures ViewOfStatus(tasks, st, v)
    {
      var i :| 0 <= i < |r| && r[i] == v;
      var t := f[i];
      assert t in tasks && HasStatus(st)(t);
      assert t.status == st && v == View(t);
    }
  }

  /** Every task in the status has its view in the filtered views. */
  lemma StatusViewsComplete(tasks: seq<Task>, st: TaskStatus)
    ensures forall t | t in tasks && t.status == st :: View(t) in Views(Filter(tasks, HasStatus(st)))
  {
    var f := Filter(tasks, HasStatus(st));
    forall t | t in tasks && t.status == st
      ensures View(t) in Views(f)
    {
      var j :| 0 <= j < |tasks| && tasks[j] == t;
      assert HasStatus(st)(tasks[j]);
      var k :| 0 <= k < |f| && f[k] == t;
      assert Views(f)[k] == View(t);
    }
  }

  /** The filtered views keep table order. */
  lemma StatusViewsOrdered(tasks: seq<Task>, st: TaskStatus)
    ensures Subsequence(Views(Filter(tasks, HasStatus(st))), Views(tasks))
  {
    FilterSubsequence(tasks, HasStatus(st));
    ViewsSubsequence(Filter(tasks, HasStatus(st)), tasks);
  }

  /** `get_all_tasks`: every task's view in table order. */
  function GetAllTasks(s: TaskScheduler): (r: seq<TaskView>)
    ensures |r| == |s.tasks|
    ensures forall i | 0 <= i < |r| :: r[i] == View(s.tasks[i])
  {
    Views(s.tasks)
  }

  /** `get_running_tasks`: the running tasks' views, in table order. */
  function GetRunningTasks(s: TaskScheduler): (r: seq<TaskView>)
    ensures |r| == CountStatus(s.tasks, Running)
    ensures forall i | 0 <= i < |r| :: r[i].status == "running"
    ensures forall v | v in r :: ViewOfStatus(s.tasks, Running, v)
    ensures forall t | t in s.tasks && t.status == Running :: View(t) in r
    ensures Subsequence(r, GetAllTasks(s))
  {
    StatusViewsSound(s.tasks, Running);
    StatusViewsComplete(s.tasks, Running);
    StatusViewsOrdered(s.tasks, Running);
    Views(Filter(s.tasks, HasStatus(Running)))
  }

  /** `get_pending_tasks`: the pending tasks' views, in table order. */
  function GetPendingTasks(s: TaskScheduler): (r: seq<TaskView>)
    ensures |r| == CountStatus(s.tasks, Pending)
    ensures forall i | 0 <= i < |r| :: r[i].status == "pending"
    ensures forall v | v in r :: ViewOfStatus(s.tasks, Pending, v)
    ensures forall t | t in s.tasks && t.status == Pending :: View(t) in r
    ensures Subsequence(r, GetAllTasks(s))
  {
    StatusViewsSound(s.tasks, Pending);
    StatusViewsComplete(s.tasks, Pending);
    StatusViewsOrdered(s.tasks, Pending);
    Views(Filter(s.tasks, HasStatus(Pending)))
  }

  /** `get_statistics`: the running counter is recounted from the table
      and stored; the other counters are reported as kept. */
  function GetStatistics(s: TaskScheduler): (r: (TaskScheduler, SchedulerStats))
    ensures r.1.runningTasks == CountStatus(s.tasks, Running)
    ensures r.1 == s.stats.(runningTasks := r.1.runningTasks)
    ensures r.0 == s.(stats := r.1)
  {
    var st := s.stats.(runningTasks := CountStatus(s.tasks, Running));
    (s.(stats := st), st)
  }

  /** Every task submitted so far is accounted for by the counters and the
      unfinished tasks in the table. */
  lemma StatisticsAccount(s: TaskScheduler)
    requires Valid(s)
    ensures var st := GetStatistics(s).1;
            st.totalTasks == st.completedTasks + st.failedTasks + st.cancelledTasks
                             + |GetPendingTasks(s)| + st.runningTasks
  {
  }

  // ------------------------------------------------------------ clearing

  function Finished(): Task -> bool
  {
    (t: Task) => t.status == Completed || t.status == Failed || t.status == Cancelled
  }

  /** `clear_completed_tasks`: completed, failed and cancelled tasks move,
      in table order, from the table to the history, which keeps only its
      100 most recent entries. Pending and running tasks stay in place. */
  function ClearCompletedTasks(s: TaskScheduler): (r: TaskScheduler)
    ensures r.tasks == Filter(s.tasks, Active())
    ensures forall i | 0 <= i < |r.tasks| :: r.tasks[i].status == Pending || r.tasks[i].status == Running
    ensures forall i | 0 <= i < |s.tasks| && Active()(s.tasks[i]) :: s.tasks[i] in r.tasks
    ensures r.history == KeepLast(s.history + Filter(s.tasks, Finished()), HistoryLimit)
    ensures |r.history| <= HistoryLimit
    ensures r.stats == s.stats && r.queue == s.queue && r.isRunning == s.isRunning
  {
    var removed := Filter(s.tasks, Finished());
    s.(tasks := Filter(s.tasks, Active()), history := KeepLast(s.history + removed, HistoryLimit))
  }

  lemma ClearCompletedTasksValid(s: TaskScheduler)
    requires Valid(s)
    ensures Valid(ClearCompletedTasks(s))
  {
    FilterNarrow(s.tasks, HasStatus(Pending), Active());
    FilterNarrow(s.tasks, HasStatus(Running), Active());
    FilterPairwise(s.tasks, Active(), DifferentIds());
  }

  function DifferentIds(): (Task, Task) -> bool
  {
    (a: Task, b: Task) => a.id != b.id
  }

  /** Clearing twice clears nothing more from the table. */
  lemma ClearCompletedTasksTable(s: TaskScheduler)
    ensures ClearCompletedTasks(ClearCompletedTasks(s)).tasks == ClearCompletedTasks(s).tasks
  {
    FilterIdempotent(s.tasks, Active());
  }
}
