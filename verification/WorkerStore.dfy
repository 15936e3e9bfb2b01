/** The workers the v1 master knows, their load, and their connections. */
module WorkerStore {
  import opened Common
  import opened TaskStore

  /** `maxTasks` is what the worker reported, if it reported anything. */
  datatype Worker = Worker(online: bool, running: nat, maxTasks: Option<int>)

  function Limit(w: Worker): (r: nat)
    ensures r >= 1
  {
    if w.maxTasks.Some? && w.maxTasks.value > 0 then w.maxTasks.value else 1
  }

  datatype Workers<C> = Workers(workers: map<Uuid, Worker>, conns: map<Uuid, C>)

  /** The workers that may be given another task. */
  function Idle<C>(s: Workers<C>): set<Uuid> {
    set w | w in s.workers && s.workers[w].online && s.workers[w].running < Limit(s.workers[w])
  }

  // ---- One function per store method; each runs under the store's mutex ----

  function Register<C>(s: Workers<C>, w: Uuid, maxTasks: Option<int>): Workers<C> {
    s.(workers := s.workers[w := Worker(true, 0, maxTasks)])
  }

  function SetConn<C>(s: Workers<C>, w: Uuid, c: C): Workers<C> {
    s.(conns := s.conns[w := c])
  }

  function MarkOffline<C>(s: Workers<C>, w: Uuid): Workers<C> {
    Workers(if w in s.workers then s.workers[w := s.workers[w].(online := false)] else s.workers, s.conns - {w})
  }

  function SetRunning<C>(s: Workers<C>, w: Uuid, running: nat): Workers<C> {
    if w in s.workers then s.(workers := s.workers[w := s.workers[w].(running := running)]) else s
  }

  function Increment<C>(s: Workers<C>, w: Uuid): Workers<C> {
    if w in s.workers then SetRunning(s, w, s.workers[w].running + 1) else s
  }

  function Decrement<C>(s: Workers<C>, w: Uuid): Workers<C> {
    if w in s.workers && s.workers[w].running > 0 then SetRunning(s, w, s.workers[w].running - 1) else s
  }

  // ---- The objects ----

  /** A connection that may be written to by several goroutines; writing to a closed one reports success. */
  class SafeConn {
    var closed: bool
    var delivered: seq<TaskId>

    constructor ()
      ensures !closed && delivered == []
    {
      closed, delivered := false, [];
    }

    /** `accepts` says whether the socket takes the message. */
    method Write(id: TaskId, accepts: bool) returns (ok: bool)
      modifies `delivered
      ensures ok == (closed || accepts)
      ensures delivered == if !closed && accepts then old(delivered) + [id] else old(delivered)
    {
      if closed {
        return true;
      }
      if accepts {
        delivered := delivered + [id];
      }
      ok := accepts;
    }

    method Close()
      modifies `closed
      ensures closed
    {
      closed := true;
    }
  }

  class WorkerStore {
    var workers: map<Uuid, Worker>
    var conns: map<Uuid, SafeConn>

    function State(): Workers<SafeConn>
      reads this
    {
      Workers(workers, conns)
    }

    constructor ()
      ensures State() == Workers(map[], map[])
    {
      workers, conns := map[], map[];
    }

    method RegisterWorker(w: Uuid, maxTasks: Option<int>)
      modifies `workers
      ensures State() == Register(old(State()), w, maxTasks)
      ensures workers == old(workers)[w := Worker(true, 0, maxTasks)]
    {
      workers := workers[w := Worker(true, 0, maxTasks)];
    }

    method SetConnection(w: Uuid, c: SafeConn)
      modifies `conns
      ensures State() == SetConn(old(State()), w, c)
      ensures conns == old(conns)[w := c]
    {
      conns := conns[w := c];
    }

    method Disconnect(w: Uuid)
      modifies this, if w in conns then {conns[w]} else {}
      ensures State() == MarkOffline(old(State()), w)
      ensures conns == old(conns) - {w}
      ensures workers.Keys == old(workers.Keys) && forall v | v in workers ::
                workers[v] == if v == w then old(workers[v]).(online := false) else old(workers[v])
      ensures w in old(conns) ==> old(conns)[w].closed && old(conns)[w].delivered == old(conns[w].delivered)
    {
      if w in workers {
        workers := workers[w := workers[w].(online := false)];
      }
      if w in conns {
        conns[w].Close();
      }
      conns := conns - {w};
    }

    /** What the offline detector does to a worker without a heartbeat; the connection is not closed. */
    method DropSilent(w: Uuid)
      requires w in workers && workers[w].online
      modifies this
      ensures State() == MarkOffline(old(State()), w)
      ensures conns == old(conns) - {w}
      ensures workers.Keys == old(workers.Keys) && forall v | v in workers ::
                workers[v] == if v == w then old(workers[v]).(online := false) else old(workers[v])
    {
      workers := workers[w := workers[w].(online := false)];
      conns := conns - {w};
    }

    method IncrementRunningTasks(w: Uuid)
      modifies `workers
      ensures State() == Increment(old(State()), w)
      ensures workers.Keys == old(workers.Keys) && forall v | v in workers ::
                workers[v] == if v == w then old(workers[v]).(running := old(workers[v]).running + 1)
                              else old(workers[v])
    {
      if w in workers {
        workers := workers[w := workers[w].(running := workers[w].running + 1)];
      }
    }

    method DecrementRunningTasks(w: Uuid)
      modifies `workers
      ensures State() == Decrement(old(State()), w)
      ensures workers.Keys == old(workers.Keys) && forall v | v in workers ::
                if v == w && old(workers[v]).running > 0
                then workers[v] == old(workers[v]).(running := old(workers[v]).running - 1)
                else workers[v] == old(workers[v])
    {
      if w in workers && workers[w].running > 0 {
        workers := workers[w := workers[w].(running := workers[w].running - 1)];
      }
    }

    method ResetRunningTasks(w: Uuid)
      modifies `workers
      ensures State() == SetRunning(old(State()), w, 0)
      ensures workers.Keys == old(workers.Keys) && forall v | v in workers ::
                workers[v] == if v == w then old(workers[v]).(running := 0) else old(workers[v])
    {
      if w in workers {
        workers := workers[w := workers[w].(running := 0)];
      }
    }
  }
}
