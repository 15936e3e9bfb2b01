/** What the fields of a task of the v1 master say about its past, in any run. */
module TaskHistory {
  import opened Common
  import opened TaskStore
  import opened WorkerStore
  import opened Scheduler

  // ---- How a task ended ----

  /** The action leaves the task the way `task` says it ended. */
  predicate Ends(a: Action, id: TaskId, task: Task) {
    match a
    case Handler(w, Report(j, completed, hits)) =>
      j == id && if completed then task.status == Completed && task.hits == hits else task.status == Failed
    case CancelTask(j) => j == id && task.status == Cancelled
    case _ => false
  }

  ghost predicate EndTraced(s: State, a: Action, t: Tasks, id: TaskId) {
    id in t.tasks && Terminal(t.tasks[id]) ==>
      (id in s.tasks.tasks && s.tasks.tasks[id] == t.tasks[id]) || Ends(a, id, t.tasks[id])
  }

  lemma StepEnds(s: State, a: Action, id: TaskId)
    requires Enabled(s, a)
    ensures EndTraced(s, a, Apply(s, a).tasks, id)
  {
    match a
    case Tick(t, ta) => assert EndTraced(s, a, ApplyTick(s, t, ta).tasks, id);
    case Handler(w, ha) => assert EndTraced(s, a, ApplyHandler(s, w, ha).tasks, id);
    case _ =>
  }

  /**
   A task that has ended carries its last word: it is completed with the hits of a result that reported
   it as completed, or failed by a result that did not, or cancelled by a cancel.
   */
  lemma {:induction false} EndSource(ss: seq<State>, acts: seq<Action>, i: nat, id: TaskId) returns (m: nat)
    requires IsRun(ss, acts) && i < |ss| && id in ss[i].tasks.tasks && Terminal(ss[i].tasks.tasks[id])
    ensures m < i && Ends(acts[m], id, ss[i].tasks.tasks[id])
  {
    assert i > 0 && StepAt(ss, acts, i - 1);
    StepEnds(ss[i - 1], acts[i - 1], id);
    if Ends(acts[i - 1], id, ss[i].tasks.tasks[id]) {
      m := i - 1;
    } else {
      m := EndSource(ss, acts, i - 1, id);
    }
  }

  // ---- How often it was assigned ----

  /** A pass assigns the task, which is pending. */
  ghost predicate Assigns(s: State, a: Action, id: TaskId) {
    && a.Tick? && a.ta == AssignStep && a.t in s.ticks && s.ticks[a.t].AtAssign? && s.ticks[a.t].id == id
    && id in s.tasks.tasks && s.tasks.tasks[id].status == Pending
  }

  ghost function Assignments(ss: seq<State>, acts: seq<Action>, id: TaskId, j: nat): nat
    requires j < |ss| && |ss| == |acts| + 1
  {
    if j == 0 then 0 else Assignments(ss, acts, id, j - 1) + (if Assigns(ss[j - 1], acts[j - 1], id) then 1 else 0)
  }

  function Attempts(t: Tasks, id: TaskId): nat {
    if id in t.tasks then t.tasks[id].attempts else 0
  }

  lemma StepAttempts(s: State, a: Action, id: TaskId)
    requires Enabled(s, a)
    ensures Attempts(Apply(s, a).tasks, id) == Attempts(s.tasks, id) + (if Assigns(s, a, id) then 1 else 0)
  {
    match a
    case Tick(t, ta) => TickAttempts(s, t, ta, id);
    case Handler(w, ha) => HandlerAttempts(s, w, ha, id);
    case _ =>
  }

  lemma TickAttempts(s: State, t: TickId, a: TickAction, id: TaskId)
    requires TickEnabled(s, t, a)
    ensures Attempts(ApplyTick(s, t, a).tasks, id) ==
              Attempts(s.tasks, id) + (if Assigns(s, Tick(t, a), id) then 1 else 0)
  {
  }

  lemma HandlerAttempts(s: State, w: Uuid, a: HandlerAction, id: TaskId)
    requires HandlerEnabled(s, w, a)
    ensures Attempts(ApplyHandler(s, w, a).tasks, id) == Attempts(s.tasks, id)
  {
  }

  /** The attempts of a task are its assignments, also those that were taken back. */
  lemma {:induction false} AttemptsAreAssignments(ss: seq<State>, acts: seq<Action>, j: nat, id: TaskId)
    requires IsRun(ss, acts) && j < |ss|
    ensures Attempts(ss[j].tasks, id) == Assignments(ss, acts, id, j)
  {
    if j > 0 {
      AttemptsAreAssignments(ss, acts, j - 1, id);
      assert StepAt(ss, acts, j - 1);
      StepAttempts(ss[j - 1], acts[j - 1], id);
    }
  }
}
