/** Concrete runs of the v1 master in which a task is lost, taken away or done twice, or the queue gets stuck. */
module SchedulerWitness {
  import opened Common
  import opened TaskStore
  import opened WorkerStore
  import opened Scheduler
  import opened SchedulerProofs
  import opened SchedulerRuns
  import opened Owed

  const W: Uuid := "w"
  const V: Uuid := "v"

  lemma OneIdle<C>(ws: Workers<C>, w: Uuid)
    requires ws.workers.Keys == {w} && ws.workers[w].online && ws.workers[w].running < Limit(ws.workers[w])
    ensures Idle(ws) == {w}
  {
  }

  /** A worker with room is given the only waiting task. */
  lemma ReachWork(s: State, id: TaskId, load: nat, maxTasks: Option<int>) returns (t: State)
    requires Reachable(s, 1) && s.ticks == map[] && s.tasks.pendingQ == [id] && CanAssign(s.tasks, id)
    requires s.ws == Workers(map[W := Worker(true, load, maxTasks)], map[W := 0])
    requires load < Limit(Worker(true, load, maxTasks))
    ensures Reachable(t, 1) && t.ticks == map[] && t.handlers == s.handlers && t.closed == s.closed
    ensures t.tasks == Assign(s.tasks, id, W)
    ensures t.ws == Workers(map[W := Worker(true, load + 1, maxTasks)], map[W := 0])
  {
    OneIdle(s.ws, W);
    t := ReachDispatched(s, W, id, 1);
  }

  /** A worker is given its first task. */
  lemma ReachOneTask(maxTasks: Option<int>) returns (t: State)
    ensures Reachable(t, 1) && t.ticks == map[] && t.handlers == map[W := Serving(0)] && t.closed == {}
    ensures t.tasks == Tasks(map[1 := Task(Assigned, W, 1, 0)], [])
    ensures t.ws == Workers(map[W := Worker(true, 1, maxTasks)], map[W := 0])
  {
    var s0 := ReachStart(1);
    var s1 := ReachServing(s0, W, 0, maxTasks, 1);
    var s2 := Reach(s1, CreateTask(1), 1);
    t := ReachWork(s2, 1, 0, maxTasks);
  }

  /** A worker that can take two tasks is given two. */
  lemma ReachTwoTasks() returns (t: State)
    ensures Reachable(t, 1) && t.ticks == map[] && t.handlers == map[W := Serving(0)]
    ensures t.ws == Workers(map[W := Worker(true, 2, Some(2))], map[W := 0])
    ensures t.tasks.tasks == map[1 := Task(Assigned, W, 1, 0), 2 := Task(Assigned, W, 1, 0)]
  {
    var s1 := ReachOneTask(Some(2));
    var s2 := Reach(s1, CreateTask(2), 1);
    assert s2.tasks.pendingQ == [2];
    t := ReachWork(s2, 2, 1, Some(2));
  }

  lemma ReachReported() returns (s: State)
    ensures Reachable(s, 1) && s.ticks == map[] && s.handlers == map[W := Reported(0, 1)] && W !in s.ws.conns
    ensures 2 in s.tasks.tasks && s.tasks.tasks[2] == Task(Assigned, W, 1, 0)
  {
    var s0 := ReachTwoTasks();
    var s1 := Reach(s0, Silent(W), 1);
    s := Reach(s1, Handler(W, Report(1, true, 0)), 1);
  }

  /**
   The worker falls silent and loses its connection in the store; then its result for the first task
   arrives, the handler panics over the reply, and the second task stays with the worker.
   */
  lemma LostHandlerStrandsATask() returns (s: State)
    ensures Reachable(s, 1) && s.ticks == map[] && s.handlers == map[W := Lost(0)]
    ensures Stranded(s, 2, W)
  {
    var s0 := ReachReported();
    var s1 := Reach(s0, Handler(W, CountDown), 1);
    s := Reach(s1, Handler(W, ReplyStep), 1);
    assert s.handlers == map[W := Lost(0)];
    assert ActiveOn(s, 2, W);
  }

  /** A worker that registers with neither id nor name is given a task and leaves. */
  lemma UnnamedWorkerStrandsATask() returns (s: State)
    ensures Reachable(s, 1) && s.ticks == map[] && s.handlers == map[]
    ensures Stranded(s, 1, NOBODY)
  {
    var s0 := ReachStart(1);
    var s1 := ReachServing(s0, NOBODY, 0, None, 1);
    var s2 := Reach(s1, CreateTask(1), 1);
    OneIdle(s2.ws, NOBODY);
    var s3 := ReachDispatched(s2, NOBODY, 1, 1);
    s := Reach(s3, Handler(NOBODY, CloseStep), 1);
    assert ActiveOn(s, 1, NOBODY);
  }

  /** A worker with one task leaves and the task is given back. */
  lemma ReachGivenBack() returns (t: State)
    ensures Reachable(t, 1) && t.ticks == map[] && t.handlers == map[] && t.closed == {0}
    ensures t.tasks == Tasks(map[1 := Task(Pending, NOBODY, 1, 0)], [1])
  {
    var s3 := ReachOneTask(None);
    var s4 := Reach(s3, Handler(W, DisconnectStep), 1);
    var s5 := ReachReassigned(s4, 1);
    t := ReachClosed(s5, 1);
  }

  /** The end of a disconnect. */
  lemma ReachClosed(s: State, p: nat) returns (t: State)
    requires Reachable(s, p) && s.handlers == map[W := GivenBack(0)] && s.closed == {0}
    ensures Reachable(t, p) && t.handlers == map[] && t.closed == {0} && t.ticks == s.ticks && t.tasks == s.tasks
    ensures t.ws == SetRunning(s.ws, W, 0)
  {
    var s1 := Reach(s, Handler(W, ResetStep), p);
    t := Reach(s1, Handler(W, CloseStep), p);
  }

  /** The worker comes back and delivers its result late: the ended task now heads the queue. */
  lemma LateResultStopsTheQueue() returns (s: State)
    ensures Reachable(s, 1) && StuckOn(s.tasks, 1)
  {
    var s0 := ReachGivenBack();
    var s1 := ReachServing(s0, W, 1, None, 1);
    s := Reach(s1, Handler(W, Report(1, true, 0)), 1);
  }

  /** A pass has assigned a task and not yet looked up the connection; the worker leaves, the task is given back. */
  lemma ReachLeftBehind(p: nat) returns (s: State)
    requires p > 0
    ensures Reachable(s, p) && s.handlers == map[] && s.closed == {0} && s.ticks == map[0 := AtGetConn(1, W, [])]
    ensures s.tasks == Tasks(map[1 := Task(Pending, NOBODY, 1, 0)], [1])
    ensures s.ws == Workers(map[W := Worker(false, 0, None)], map[])
  {
    var s0 := ReachStart(p);
    var s1 := ReachServing(s0, W, 0, None, p);
    var s2 := Reach(s1, CreateTask(1), p);
    OneIdle(s2.ws, W);
    var s3 := ReachBegin(s2, 0, W, p);
    var s4 := ReachAssigned(s3, 0, W, 1, p);
    assert s4.ticks == map[0 := AtGetConn(1, W, [])] && s4.tasks == Tasks(map[1 := Task(Assigned, W, 1, 0)], []);
    s := ReachTaskGivenBack(s4, p);
  }

  lemma ReachTaskGivenBack(s: State, p: nat) returns (t: State)
    requires Reachable(s, p) && s.handlers == map[W := Serving(0)] && s.closed == {}
    requires s.tasks == Tasks(map[1 := Task(Assigned, W, 1, 0)], [])
    requires s.ws == Workers(map[W := Worker(true, 0, None)], map[W := 0])
    ensures Reachable(t, p) && t.handlers == map[] && t.closed == {0} && t.ticks == s.ticks
    ensures t.tasks == Tasks(map[1 := Task(Pending, NOBODY, 1, 0)], [1])
    ensures t.ws == Workers(map[W := Worker(false, 0, None)], map[])
  {
    var s1 := Reach(s, Handler(W, DisconnectStep), p);
    assert s1.ws == Workers(map[W := Worker(false, 0, None)], map[]);
    var s2 := ReachReassigned(s1, p);
    t := ReachClosed(s2, p);
  }

  lemma ReachReassigned(s: State, p: nat) returns (t: State)
    requires Reachable(s, p) && s.handlers == map[W := Disconnected(0)]
    requires s.tasks == Tasks(map[1 := Task(Assigned, W, 1, 0)], [])
    ensures Reachable(t, p) && t.handlers == map[W := GivenBack(0)]
    ensures t.closed == s.closed && t.ticks == s.ticks && t.ws == s.ws
    ensures t.tasks == Tasks(map[1 := Task(Pending, NOBODY, 1, 0)], [1])
  {
    assert Leaving(s.tasks, W, {}) == {1} && IsOrderOf([1], {1});
    t := Reach(s, Handler(W, ReassignStep([1], {})), p);
    assert t.tasks == Tasks(map[1 := Task(Pending, NOBODY, 1, 0)], [1]);
  }

  /** A second pass has sent the task to another worker. */
  lemma ReachSentToAnother() returns (s: State)
    ensures Reachable(s, 2) && W !in s.ws.conns && 1 in Sent(s, V)
    ensures 0 in s.ticks && s.ticks[0] == AtGetConn(1, W, [])
    ensures s.tasks == Tasks(map[1 := Task(Assigned, V, 2, 0)], [])
  {
    var s2 := ReachSecondPass();
    s := ReachOffered(s2, 1, V, 1, 2);
    assert s.tasks == Tasks(map[1 := Task(Assigned, V, 2, 0)], []);
  }

  lemma ReachSecondPass() returns (s: State)
    ensures Reachable(s, 2) && s.handlers == map[V := Serving(1)] && s.ws.conns == map[V := 1]
    ensures s.ticks == map[0 := AtGetConn(1, W, []), 1 := AtTop([V])]
    ensures s.tasks == Tasks(map[1 := Task(Pending, NOBODY, 1, 0)], [1])
  {
    var s0 := ReachLeftBehind(2);
    var s1 := ReachServing(s0, V, 1, None, 2);
    assert Idle(s1.ws) == {V};
    s := ReachBegin(s1, 1, V, 2);
  }

  /** The first pass finds no connection and takes the task back from the worker that was sent it. */
  lemma TaskTakenFromItsWorker() returns (s: State)
    ensures Reachable(s, 2) && 1 in Sent(s, V)
    ensures s.tasks == Tasks(map[1 := Task(Pending, NOBODY, 2, 0)], [1])
    ensures !OwedByOwner(s)
  {
    var s0 := ReachSentToAnother();
    var s1 := Reach(s0, Tick(0, GetConn), 2);
    assert s1.ticks[0] == AtReassign(1, W, []);
    s := Reach(s1, Tick(0, TakeBack), 2);
    assert s.tasks == Tasks(map[1 := Task(Pending, NOBODY, 2, 0)], [1]);
    assert !IsSettled(s, 1, V);
  }

  /**
   Passes do not overlap here: the worker comes back before the pass goes on, and the pass sends the task
   to the new connection, so that the worker works on a task that waits in the queue for another one.
   */
  lemma ReturningWorkerIsSentAQueuedTask() returns (s: State)
    ensures Reachable(s, 1) && 1 in Sent(s, W)
    ensures s.tasks == Tasks(map[1 := Task(Pending, NOBODY, 1, 0)], [1])
    ensures !OwedByOwner(s)
  {
    var s0 := ReachLeftBehind(1);
    var s1 := ReachServing(s0, W, 1, None, 1);
    s := ReachSent(s1, 0, W, 1, 1);
    assert !IsSettled(s, 1, W);
  }
}
