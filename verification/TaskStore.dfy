/** The tasks of the v1 master and the queue of those that wait for a worker. */
module TaskStore {
  import opened Common

  type TaskId = nat
  type Uuid = string

  const NOBODY: Uuid := ""

  datatype Status = Pending | Assigned | Running | Completed | Failed | Cancelled

  datatype Task = Task(status: Status, assignedTo: Uuid, attempts: nat, hits: int)

  const NEW_TASK := Task(Pending, NOBODY, 0, 0)

  datatype Tasks = Tasks(tasks: map<TaskId, Task>, pendingQ: seq<TaskId>)

  predicate Active(t: Task) {
    t.status == Assigned || t.status == Running
  }

  predicate Terminal(t: Task) {
    t.status == Completed || t.status == Failed || t.status == Cancelled
  }

  /** A sequence without the first occurrence of an element. */
  function RemoveFirst(q: seq<TaskId>, id: TaskId): (r: seq<TaskId>)
    ensures id !in q ==> r == q
    ensures forall x :: x in r ==> x in q
  {
    if q == [] then [] else if q[0] == id then q[1..] else [q[0]] + RemoveFirst(q[1..], id)
  }

  lemma {:induction false} RemoveFirstAt(q: seq<TaskId>, i: nat, id: TaskId)
    requires i < |q| && q[i] == id && id !in q[..i]
    ensures RemoveFirst(q, id) == q[..i] + q[i + 1..]
  {
    if i > 0 {
      assert q[0] in q[..i];
      assert q[1..][..i - 1] == q[1..i];
      assert forall x :: x in q[1..i] ==> x in q[..i];
      RemoveFirstAt(q[1..], i - 1, id);
      assert q[..i] + q[i + 1..] == [q[0]] + (q[1..][..i - 1] + q[1..][i..]);
    }
  }

  // ---- One function per store method; each runs under the store's mutex ----

  function Create(s: Tasks, id: TaskId): Tasks {
    Tasks(s.tasks[id := NEW_TASK], s.pendingQ + [id])
  }

  predicate CanAssign(s: Tasks, id: TaskId) {
    id in s.tasks && s.tasks[id].status == Pending
  }

  function Assign(s: Tasks, id: TaskId, w: Uuid): Tasks {
    if !CanAssign(s, id) then s
    else
      var t := s.tasks[id];
      Tasks(s.tasks[id := t.(status := Assigned, assignedTo := w, attempts := t.attempts + 1)],
            RemoveFirst(s.pendingQ, id))
  }

  /** Whatever the status was, and without looking at the queue. */
  function Complete(s: Tasks, id: TaskId, hits: int): Tasks {
    if id !in s.tasks then s else s.(tasks := s.tasks[id := s.tasks[id].(status := Completed, hits := hits)])
  }

  function Fail(s: Tasks, id: TaskId): Tasks {
    if id !in s.tasks then s else s.(tasks := s.tasks[id := s.tasks[id].(status := Failed)])
  }

  function Cancel(s: Tasks, id: TaskId): Tasks {
    if id !in s.tasks || Terminal(s.tasks[id]) then s
    else
      Tasks(s.tasks[id := s.tasks[id].(status := Cancelled)],
            if s.tasks[id].status == Pending then RemoveFirst(s.pendingQ, id) else s.pendingQ)
  }

  function Reassign(s: Tasks, id: TaskId): Tasks {
    if id !in s.tasks || !Active(s.tasks[id]) then s
    else Tasks(s.tasks[id := s.tasks[id].(status := Pending, assignedTo := NOBODY)], s.pendingQ + [id])
  }

  /** The tasks that a disconnect of `w` gives back: running ones that started within the last 180 seconds stay. */
  function Leaving(s: Tasks, w: Uuid, recent: set<TaskId>): set<TaskId> {
    set id | id in s.tasks && s.tasks[id].assignedTo == w && Active(s.tasks[id])
             && !(s.tasks[id].status == Running && id in recent)
  }

  /** The tasks of `order` go back, in that order; a Go map is walked in no particular order. */
  function GiveBack(s: Tasks, order: seq<TaskId>): Tasks {
    Tasks(map id | id in s.tasks ::
            if id in order then s.tasks[id].(status := Pending, assignedTo := NOBODY) else s.tasks[id],
          s.pendingQ + order)
  }

  /** The first queued task, if the queue is not empty and the task is known. */
  function GetPending(s: Tasks): Option<TaskId> {
    if s.pendingQ == [] || s.pendingQ[0] !in s.tasks then None else Some(s.pendingQ[0])
  }

  /**
   The tasks of the worker that are assigned, or running and not recent, are pending without an owner and
   queued behind the others; nothing else has changed.
   */
  ghost predicate GivenBack(s: Tasks, t: Tasks, w: Uuid, recent: set<TaskId>, order: seq<TaskId>) {
    && t.tasks.Keys == s.tasks.Keys && t.pendingQ == s.pendingQ + order && NoDuplicates(order)
    && (forall id | id in order :: id in s.tasks)
    && forall id | id in s.tasks ::
         var held := s.tasks[id];
         if held.assignedTo == w && (held.status == Assigned || (held.status == Running && id !in recent))
         then id in order && t.tasks[id] == held.(status := Pending, assignedTo := "")
         else id !in order && t.tasks[id] == held
  }

  lemma GiveBackGives(s: Tasks, w: Uuid, recent: set<TaskId>, order: seq<TaskId>)
    requires IsOrderOf(order, Leaving(s, w, recent))
    ensures GivenBack(s, GiveBack(s, order), w, recent, order)
  {
    forall id | id in s.tasks
      ensures var held := s.tasks[id];
        id in order <==>
          held.assignedTo == w && (held.status == Assigned || (held.status == Running && id !in recent))
    {
      assert id in order <==> id in Leaving(s, w, recent);
    }
  }

  // ---- The object ----

  class TaskStore {
    var tasks: map<TaskId, Task>
    var pendingQ: seq<TaskId>
    var nextId: nat

    function State(): Tasks
      reads this
    {
      Tasks(tasks, pendingQ)
    }

    /** The counter is ahead of every id handed out. */
    ghost predicate Valid()
      reads this
    {
      forall id | id in tasks :: id <= nextId
    }

    constructor ()
      ensures State() == Tasks(map[], []) && Valid()
    {
      tasks, pendingQ, nextId := map[], [], 0;
    }

    method CreateTask() returns (id: TaskId)
      requires Valid()
      modifies this
      ensures Valid() && id !in old(tasks)
      ensures State() == Create(old(State()), id)
      ensures tasks == old(tasks)[id := Task(Pending, NOBODY, 0, 0)] && pendingQ == old(pendingQ) + [id]
    {
      nextId := nextId + 1;
      id := nextId;
      tasks := tasks[id := NEW_TASK];
      pendingQ := pendingQ + [id];
    }

    /** Finds the id in the queue and closes the gap. */
    method Dequeue(id: TaskId)
      modifies `pendingQ
      ensures pendingQ == RemoveFirst(old(pendingQ), id)
    {
      for i := 0 to |pendingQ|
        invariant pendingQ == old(pendingQ) && id !in pendingQ[..i]
      {
        if pendingQ[i] == id {
          RemoveFirstAt(pendingQ, i, id);
          pendingQ := pendingQ[..i] + pendingQ[i + 1..];
          return;
        }
        assert pendingQ[..i + 1] == pendingQ[..i] + [pendingQ[i]];
      }
      assert pendingQ[..|pendingQ|] == pendingQ;
    }

    method AssignTask(id: TaskId, w: Uuid) returns (ok: bool)
      modifies `tasks, `pendingQ
      ensures ok == CanAssign(old(State()), id)
      ensures State() == Assign(old(State()), id, w)
      ensures tasks.Keys == old(tasks.Keys)
      ensures ok == (id in old(tasks) && old(tasks[id]).status == Pending)
      ensures ok ==>
                tasks == old(tasks)[id := Task(Assigned, w, old(tasks[id]).attempts + 1, old(tasks[id]).hits)]
      ensures !ok ==> unchanged(this)
    {
      if id !in tasks || tasks[id].status != Pending {
        return false;
      }
      tasks := tasks[id := tasks[id].(status := Assigned, assignedTo := w, attempts := tasks[id].attempts + 1)];
      Dequeue(id);
      ok := true;
    }

    method CompleteTask(id: TaskId, hits: int)
      modifies `tasks
      ensures State() == Complete(old(State()), id, hits)
      ensures tasks.Keys == old(tasks.Keys) && forall j | j in tasks ::
                tasks[j] == if j == id then old(tasks[j]).(status := Completed, hits := hits) else old(tasks[j])
    {
      if id in tasks {
        tasks := tasks[id := tasks[id].(status := Completed, hits := hits)];
      }
    }

    method FailTask(id: TaskId)
      modifies `tasks
      ensures State() == Fail(old(State()), id)
      ensures tasks.Keys == old(tasks.Keys) && forall j | j in tasks ::
                tasks[j] == if j == id then old(tasks[j]).(status := Failed) else old(tasks[j])
    {
      if id in tasks {
        tasks := tasks[id := tasks[id].(status := Failed)];
      }
    }

    method CancelTask(id: TaskId) returns (ok: bool)
      modifies `tasks, `pendingQ
      ensures ok == (id in old(tasks) && !Terminal(old(tasks)[id]))
      ensures State() == Cancel(old(State()), id)
      ensures ok ==> tasks == old(tasks)[id := old(tasks[id]).(status := Cancelled)]
      ensures !ok ==> unchanged(this)
    {
      if id !in tasks || Terminal(tasks[id]) {
        return false;
      }
      var wasPending := tasks[id].status == Pending;
      tasks := tasks[id := tasks[id].(status := Cancelled)];
      if wasPending {
        Dequeue(id);
      }
      ok := true;
    }

    method ReassignTask(id: TaskId)
      modifies `tasks, `pendingQ
      ensures State() == Reassign(old(State()), id)
      ensures tasks.Keys == old(tasks.Keys)
      ensures id in old(tasks) && Active(old(tasks[id])) ==>
                && tasks == old(tasks)[id := old(tasks[id]).(status := Pending, assignedTo := NOBODY)]
                && pendingQ == old(pendingQ) + [id]
      ensures !(id in old(tasks) && Active(old(tasks[id]))) ==> unchanged(this)
    {
      if id !in tasks || !Active(tasks[id]) {
        return;
      }
      tasks := tasks[id := tasks[id].(status := Pending, assignedTo := NOBODY)];
      pendingQ := pendingQ + [id];
    }

    method ReassignWorkerTasks(w: Uuid, recent: set<TaskId>) returns (count: nat, ghost order: seq<TaskId>)
      modifies `tasks, `pendingQ
      ensures IsOrderOf(order, Leaving(old(State()), w, recent))
      ensures State() == GiveBack(old(State()), order)
      ensures count == |order| && GivenBack(old(State()), State(), w, recent, order)
    {
      var ids := tasks.Keys;
      count, order := 0, [];
      while ids != {}
        invariant ids <= old(tasks).Keys
        invariant NoDuplicates(order) && count == |order|
        invariant forall id :: id in order <==> id in Leaving(old(State()), w, recent) && id !in ids
        invariant State() == GiveBack(old(State()), order)
        decreases |ids|
      {
        var id :| id in ids;
        ids := ids - {id};
        if tasks[id].assignedTo == w && Active(tasks[id]) && !(tasks[id].status == Running && id in recent) {
          tasks := tasks[id := tasks[id].(status := Pending, assignedTo := NOBODY)];
          pendingQ := pendingQ + [id];
          count, order := count + 1, order + [id];
        }
      }
      GiveBackGives(old(State()), w, recent, order);
    }
  }

  // ---- The queue and the tasks agree ----

  /**
   Every pending task is queued, nobody owns it, no id is queued twice, and no assigned or running
   task is queued. A task that ended while it was queued may still be there.
   */
  ghost predicate QueueInv(s: Tasks) {
    && NoDuplicates(s.pendingQ)
    && (forall id | id in s.tasks ::
          s.tasks[id].status == Pending ==> id in s.pendingQ && s.tasks[id].assignedTo == NOBODY)
    && (forall id | id in s.pendingQ :: id in s.tasks && !Active(s.tasks[id]))
  }

  /** Every queued task can be assigned. */
  predicate AllPending(s: Tasks) {
    forall id | id in s.pendingQ :: CanAssign(s, id)
  }

  /** Known tasks stay known, and a task that has ended stays ended. */
  ghost predicate EndedStaysEnded(s: Tasks, t: Tasks) {
    forall id | id in s.tasks :: id in t.tasks && (Terminal(s.tasks[id]) ==> Terminal(t.tasks[id]))
  }

  lemma {:induction false} RemoveFirstExact(q: seq<TaskId>, id: TaskId)
    requires NoDuplicates(q)
    ensures NoDuplicates(RemoveFirst(q, id))
    ensures forall x :: x in RemoveFirst(q, id) <==> x in q && x != id
  {
    if q != [] && q[0] != id {
      RemoveFirstExact(q[1..], id);
      var r := RemoveFirst(q[1..], id);
      assert forall i | 0 <= i < |r| :: r[i] in q[1..] && r[i] != q[0];
      assert forall x :: x in q <==> x == q[0] || x in q[1..];
    } else if q != [] {
      assert forall x :: x in q <==> x == q[0] || x in q[1..];
    }
  }

  lemma CreateKeeps(s: Tasks, id: TaskId)
    requires QueueInv(s) && id !in s.tasks
    ensures QueueInv(Create(s, id)) && EndedStaysEnded(s, Create(s, id))
  {
    assert id !in s.pendingQ;
  }

  lemma AssignKeeps(s: Tasks, id: TaskId, w: Uuid)
    requires QueueInv(s)
    ensures QueueInv(Assign(s, id, w)) && EndedStaysEnded(s, Assign(s, id, w))
  {
    RemoveFirstExact(s.pendingQ, id);
  }

  lemma EndKeeps(s: Tasks, id: TaskId, hits: int)
    requires QueueInv(s)
    ensures QueueInv(Complete(s, id, hits)) && EndedStaysEnded(s, Complete(s, id, hits))
    ensures QueueInv(Fail(s, id)) && EndedStaysEnded(s, Fail(s, id))
    ensures QueueInv(Cancel(s, id)) && EndedStaysEnded(s, Cancel(s, id))
  {
    RemoveFirstExact(s.pendingQ, id);
  }

  lemma ReassignKeeps(s: Tasks, id: TaskId)
    requires QueueInv(s)
    ensures QueueInv(Reassign(s, id)) && EndedStaysEnded(s, Reassign(s, id))
  {
  }

  lemma GiveBackKeeps(s: Tasks, w: Uuid, recent: set<TaskId>, order: seq<TaskId>)
    requires QueueInv(s) && IsOrderOf(order, Leaving(s, w, recent))
    ensures QueueInv(GiveBack(s, order)) && EndedStaysEnded(s, GiveBack(s, order))
  {
    assert forall id | id in order :: id in s.tasks && Active(s.tasks[id]);
    ConcatNoDuplicates(s.pendingQ, order);
  }
}
