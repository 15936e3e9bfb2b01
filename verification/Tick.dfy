/** One scheduling pass that nothing interrupts: which tasks go to which workers. */
module Tick {
  import opened Common
  import opened TaskStore
  import opened WorkerStore

  /** The tasks after a pass, and what was dispatched, in order. */
  datatype PassResult = PassResult(tasks: Tasks, sent: seq<(TaskId, Uuid)>)

  /** The pass as a function; `sendable` are the workers to which a send succeeds. */
  function Pass(s: Tasks, idle: seq<Uuid>, sendable: set<Uuid>): PassResult
    decreases |idle|
  {
    if GetPending(s).None? || idle == [] then PassResult(s, [])
    else
      var id := GetPending(s).value;
      var w := idle[0];
      if !CanAssign(s, id) then Pass(s, idle[1..], sendable)
      else if w !in sendable then Pass(Reassign(Assign(s, id, w), id), idle[1..], sendable)
      else
        var r := Pass(Assign(s, id, w), idle[1..], sendable);
        PassResult(r.tasks, [(id, w)] + r.sent)
  }

  lemma PassDispatch(s: Tasks, idle: seq<Uuid>, sendable: set<Uuid>, sent: seq<(TaskId, Uuid)>)
    requires GetPending(s).Some? && idle != [] && CanAssign(s, GetPending(s).value) && idle[0] in sendable
    ensures var p := Pass(s, idle, sendable);
      var id := GetPending(s).value;
      var r := Pass(Assign(s, id, idle[0]), idle[1..], sendable);
      PassResult(p.tasks, sent + p.sent) == PassResult(r.tasks, (sent + [(id, idle[0])]) + r.sent)
  {
  }

  /** The load counters after a sequence of dispatches. */
  function Bumped<C>(s: Workers<C>, sent: seq<(TaskId, Uuid)>): Workers<C> {
    if sent == [] then s else Increment(Bumped(s, sent[..|sent| - 1]), sent[|sent| - 1].1)
  }

  class TaskScheduler {
    const store: WorkerStore
    const tasks: TaskStore

    constructor (store: WorkerStore, tasks: TaskStore)
      ensures this.store == store && this.tasks == tasks
    {
      this.store, this.tasks := store, tasks;
    }

    /** A snapshot of the idle workers; the store's map is walked in no particular order. */
    method GetIdleWorkers() returns (idle: seq<Uuid>)
      ensures IsOrderOf(idle, Idle(store.State()))
      ensures forall w :: w in idle <==>
                w in store.workers && var info := store.workers[w];
                info.online && (match info.maxTasks
                  case Some(limit) => info.running < if limit > 0 then limit else 1
                  case None => info.running < 1)
    {
      idle := [];
      var rest := store.workers.Keys;
      while rest != {}
        invariant rest <= store.workers.Keys
        invariant NoDuplicates(idle)
        invariant forall w :: w in idle <==> w in Idle(store.State()) && w !in rest
        decreases |rest|
      {
        var w :| w in rest;
        rest := rest - {w};
        var info := store.workers[w];
        if !info.online {
          continue;
        }
        var maxTasks := if info.maxTasks.Some? && info.maxTasks.value > 0 then info.maxTasks.value else 1;
        if info.running < maxTasks {
          idle := idle + [w];
        }
      }
    }

    /** The workers to which a send reports success: those with a closed connection, or one that accepts. */
    ghost function Sendable(accepting: set<Uuid>): set<Uuid>
      reads store, store.conns.Values
    {
      set w | w in store.conns && (store.conns[w].closed || w in accepting)
    }

    /** Assigns the task, sends it, and takes it back when the send fails. */
    method Offer(id: TaskId, w: Uuid, accepting: set<Uuid>) returns (taken: bool, sent: bool)
      modifies store`workers, tasks`tasks, tasks`pendingQ, store.conns.Values`delivered
      ensures taken == CanAssign(old(tasks.State()), id)
      ensures sent == (taken && w in old(Sendable(accepting)))
      ensures tasks.State() == if sent || !taken then Assign(old(tasks.State()), id, w)
                               else Reassign(Assign(old(tasks.State()), id, w), id)
      ensures store.State() == if sent then Increment(old(store.State()), w) else old(store.State())
      ensures tasks.tasks.Keys == old(tasks.tasks.Keys)
      ensures sent ==> w in store.conns
      ensures forall c | c in store.conns.Values ::
                c.delivered == old(c.delivered) + if sent && store.conns[w] == c && !c.closed then [id] else []
    {
      sent := false;
      taken := tasks.AssignTask(id, w);
      if taken {
        if w in store.conns {
          assert store.conns[w] in store.conns.Values;
          sent := store.conns[w].Write(id, w in accepting);
        }
        if sent {
          store.IncrementRunningTasks(w);
        } else {
          tasks.ReassignTask(id);
        }
      }
    }

    /** `accepting` are the workers whose sockets take a message. */
    method Tick(accepting: set<Uuid>) returns (ghost idle: seq<Uuid>, ghost dispatched: seq<(TaskId, Uuid)>)
      modifies store`workers, tasks`tasks, tasks`pendingQ, store.conns.Values`delivered
      ensures IsOrderOf(idle, Idle(old(store.State())))
      ensures PassResult(tasks.State(), dispatched) == Pass(old(tasks.State()), idle, old(Sendable(accepting)))
      ensures store.State() == Bumped(old(store.State()), dispatched)
    {
      var idleWorkers := GetIdleWorkers();
      idle, dispatched := idleWorkers, [];
      ghost var sendable := Sendable(accepting);
      if |idleWorkers| == 0 {
        return;
      }
      while true
        invariant store.conns == old(store.conns) && Sendable(accepting) == sendable
        invariant store.State() == Bumped(old(store.State()), dispatched)
        invariant var r := Pass(tasks.State(), idleWorkers, sendable);
          Pass(old(tasks.State()), idle, sendable) == PassResult(r.tasks, dispatched + r.sent)
        decreases |idleWorkers|
      {
        if |tasks.pendingQ| == 0 || tasks.pendingQ[0] !in tasks.tasks {
          return;
        }
        var id := tasks.pendingQ[0];
        if |idleWorkers| == 0 {
          return;
        }
        ghost var before := tasks.State();
        var w := idleWorkers[0];
        var taken, sent := Offer(id, w, accepting);
        if sent {
          PassDispatch(before, idleWorkers, sendable, dispatched);
          assert (dispatched + [(id, w)])[..|dispatched|] == dispatched;
          dispatched := dispatched + [(id, w)];
        }
        idleWorkers := idleWorkers[1..];
      }
    }
  }
}
