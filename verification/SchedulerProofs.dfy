/** The main results about runs of the v1 master. */
module SchedulerProofs {
  import opened Common
  import opened TaskStore
  import opened WorkerStore
  import opened Scheduler

  // ---- The queue, in every interleaving ----

  /** `StartTask` has no caller, so no task is ever marked as running. */
  ghost predicate TasksInv(s: State) {
    QueueInv(s.tasks) && forall id | id in s.tasks.tasks :: s.tasks.tasks[id].status != Running
  }

  lemma StepTasks(s: State, a: Action)
    requires TasksInv(s) && Enabled(s, a)
    ensures TasksInv(Apply(s, a)) && EndedStaysEnded(s.tasks, Apply(s, a).tasks)
  {
    match a
    case Tick(t, ta) =>
      match ta {
        case AssignStep => AssignKeeps(s.tasks, s.ticks[t].id, s.ticks[t].w);
        case TakeBack => ReassignKeeps(s.tasks, s.ticks[t].id);
        case _ => assert Apply(s, a).tasks == s.tasks;
      }
    case Handler(w, ha) =>
      match ha {
        case Report(id, completed, hits) => EndKeeps(s.tasks, id, hits);
        case ReassignStep(order, recent) => GiveBackKeeps(s.tasks, w, recent, order);
        case _ => assert Apply(s, a).tasks == s.tasks;
      }
    case CreateTask(id) => CreateKeeps(s.tasks, id);
    case CancelTask(id) => EndKeeps(s.tasks, id, 0);
    case Silent(w) => assert Apply(s, a).tasks == s.tasks;
  }

  // ---- No task is stranded on a worker that is gone ----

  /** The disconnect of the worker has at least given its tasks back, or the worker never came. */
  predicate Gone(s: State, w: Uuid) {
    w !in s.handlers || s.handlers[w].GivenBack? || s.handlers[w].Closing?
  }

  predicate TakesBack(pc: TickPc, id: TaskId, w: Uuid) {
    (pc.AtGetConn? || pc.AtReassign?) && pc.id == id && pc.w == w
  }

  predicate ActiveOn(s: State, id: TaskId, w: Uuid) {
    id in s.tasks.tasks && Active(s.tasks.tasks[id]) && s.tasks.tasks[id].assignedTo == w
  }

  /** The store has no connection to a worker that is gone, leaving, or lost. */
  predicate Unconnected(s: State, w: Uuid) {
    w != NOBODY && (Gone(s, w) || s.handlers[w].Disconnected? || s.handlers[w].Lost?)
  }

  /** A task still assigned to a worker that is gone is in the hands of a pass that will take it back. */
  ghost predicate StrandInv(s: State) {
    && (forall w :: Unconnected(s, w) ==> w !in s.ws.conns)
    && (forall w, id :: w != NOBODY && Gone(s, w) && ActiveOn(s, id, w) ==>
          exists t :: t in s.ticks && TakesBack(s.ticks[t], id, w))
  }

  lemma TickStrand(s: State, t: TickId, a: TickAction)
    requires TasksInv(s) && StrandInv(s) && TickEnabled(s, t, a)
    ensures StrandInv(ApplyTick(s, t, a))
  {
    var u := ApplyTick(s, t, a);
    forall w, id | w != NOBODY && Gone(u, w) && ActiveOn(u, id, w)
      ensures exists r :: r in u.ticks && TakesBack(u.ticks[r], id, w)
    {
      if ActiveOn(s, id, w) {
        var r :| r in s.ticks && TakesBack(s.ticks[r], id, w);
        assert r in u.ticks && TakesBack(u.ticks[r], id, w);
      } else {
        assert t in u.ticks && TakesBack(u.ticks[t], id, w);
      }
    }
  }

  /** A handler never assigns a task, and it gives back what its worker had before it is gone. */
  lemma HandlerActive(s: State, v: Uuid, a: HandlerAction, id: TaskId, w: Uuid)
    requires TasksInv(s) && HandlerEnabled(s, v, a) && ActiveOn(ApplyHandler(s, v, a), id, w)
    ensures ActiveOn(s, id, w) && !(a.ReassignStep? && w == v)
  {
  }

  lemma HandlerGone(s: State, v: Uuid, a: HandlerAction, w: Uuid)
    requires HandlerEnabled(s, v, a) && w != NOBODY && !(a.ReassignStep? && w == v)
    ensures Gone(ApplyHandler(s, v, a), w) ==> Gone(s, w)
  {
  }

  lemma OtherConns(s: State, v: Uuid, a: HandlerAction, w: Uuid)
    requires HandlerEnabled(s, v, a) && w != v
    ensures var u := ApplyHandler(s, v, a);
      && (w in u.ws.conns ==> w in s.ws.conns)
      && (w in u.handlers <==> w in s.handlers) && (w in s.handlers ==> u.handlers[w] == s.handlers[w])
  {
  }

  lemma OwnConn(s: State, w: Uuid, a: HandlerAction)
    requires StrandInv(s) && HandlerEnabled(s, w, a) && Unconnected(ApplyHandler(s, w, a), w)
    ensures w !in ApplyHandler(s, w, a).ws.conns
  {
    match a
    case SetConnStep =>
    case ReplyStep =>
    case DisconnectStep =>
    case _ =>
  }

  lemma HandlerConns(s: State, v: Uuid, a: HandlerAction, w: Uuid)
    requires StrandInv(s) && HandlerEnabled(s, v, a) && Unconnected(ApplyHandler(s, v, a), w)
    ensures w !in ApplyHandler(s, v, a).ws.conns
  {
    if w == v {
      OwnConn(s, w, a);
    } else {
      OtherConns(s, v, a, w);
      assert Unconnected(s, w);
    }
  }

  lemma HandlerStrand(s: State, v: Uuid, a: HandlerAction)
    requires TasksInv(s) && StrandInv(s) && HandlerEnabled(s, v, a)
    ensures StrandInv(ApplyHandler(s, v, a))
  {
    var u := ApplyHandler(s, v, a);
    assert u.ticks == s.ticks;
    forall w | Unconnected(u, w) ensures w !in u.ws.conns {
      HandlerConns(s, v, a, w);
    }
    forall w, id | w != NOBODY && Gone(u, w) && ActiveOn(u, id, w)
      ensures exists r :: r in u.ticks && TakesBack(u.ticks[r], id, w)
    {
      HandlerActive(s, v, a, id, w);
      HandlerGone(s, v, a, w);
    }
  }

  lemma StepStrand(s: State, a: Action)
    requires TasksInv(s) && StrandInv(s) && Enabled(s, a)
    ensures StrandInv(Apply(s, a))
  {
    match a
    case Tick(t, ta) => TickStrand(s, t, ta);
    case Handler(w, ha) => HandlerStrand(s, w, ha);
    case CreateTask(id) => assert forall j, w :: ActiveOn(Apply(s, a), j, w) ==> ActiveOn(s, j, w);
    case CancelTask(id) => assert forall j, w :: ActiveOn(Apply(s, a), j, w) ==> ActiveOn(s, j, w);
    case Silent(w) => assert forall j, v :: ActiveOn(Apply(s, a), j, v) ==> ActiveOn(s, j, v);
  }

  lemma {:induction false} RunInv(ss: seq<State>, acts: seq<Action>, i: nat)
    requires IsRun(ss, acts) && i < |ss|
    ensures TasksInv(ss[i]) && StrandInv(ss[i])
  {
    if i > 0 {
      RunInv(ss, acts, i - 1);
      assert StepAt(ss, acts, i - 1);
      StepTasks(ss[i - 1], acts[i - 1]);
      StepStrand(ss[i - 1], acts[i - 1]);
    }
  }

  /**
   In every interleaving of any number of passes with the disconnects: once the disconnect of a named
   worker has given its tasks back and no pass is under way, no task is assigned to that worker.
   */
  lemma NoTaskStranded(ss: seq<State>, acts: seq<Action>, i: nat, w: Uuid, id: TaskId)
    requires IsRun(ss, acts) && i < |ss| && w != NOBODY && Gone(ss[i], w) && ss[i].ticks == map[]
    ensures !ActiveOn(ss[i], id, w)
  {
    RunInv(ss, acts, i);
  }

  /** While passes are under way, such a task is about to be taken back by the pass that assigned it. */
  lemma StrandedOnlyInAPass(ss: seq<State>, acts: seq<Action>, i: nat, w: Uuid, id: TaskId) returns (t: TickId)
    requires IsRun(ss, acts) && i < |ss| && w != NOBODY && Gone(ss[i], w) && ActiveOn(ss[i], id, w)
    ensures t in ss[i].ticks && TakesBack(ss[i].ticks[t], id, w)
    ensures w !in ss[i].ws.conns
  {
    RunInv(ss, acts, i);
    t :| t in ss[i].ticks && TakesBack(ss[i].ticks[t], id, w);
  }

  // ---- Which handlers reach the end of their disconnect ----

  /** A handler gets past its reply exactly when the store still has a connection to its worker. */
  lemma ReplySurvivesIff(s: State, w: Uuid)
    requires HandlerEnabled(s, w, ReplyStep)
    ensures var u := ApplyHandler(s, w, ReplyStep);
      && (u.handlers[w].Serving? <==> w in s.ws.conns)
      && (u.handlers[w].Lost? <==> w !in s.ws.conns)
      && u.tasks == s.tasks
  {
  }

  /** The reply at step `m` found no connection, and the worker has not registered since. */
  ghost predicate LostAt(ss: seq<State>, acts: seq<Action>, w: Uuid, m: nat, i: nat)
    requires |ss| == |acts| + 1 && i <= |acts|
  {
    && m < i && acts[m] == Handler(w, ReplyStep) && w !in ss[m].ws.conns
    && forall k | m < k < i :: !(acts[k].Handler? && acts[k].w == w && acts[k].ha.RegisterStep?)
  }

  lemma LostStays(s: State, a: Action, w: Uuid)
    requires Enabled(s, a) && w in s.handlers && s.handlers[w].Lost?
    requires !(a.Handler? && a.w == w && a.ha.RegisterStep?)
    ensures w in Apply(s, a).handlers && Apply(s, a).handlers[w] == s.handlers[w]
  {
    match a
    case Handler(v, ha) =>
    case Tick(t, ta) => HandlersUntouched(s, t, ta);
    case _ =>
  }

  lemma LostEnds(s: State, w: Uuid, a: HandlerAction)
    requires HandlerEnabled(s, w, a) && a.RegisterStep?
    ensures !ApplyHandler(s, w, a).handlers[w].Lost?
  {
  }

  /** The handler of a worker is lost exactly when, since its last registration, a reply found no connection. */
  lemma {:induction false} HandlerLostIff(ss: seq<State>, acts: seq<Action>, w: Uuid, i: nat)
    requires IsRun(ss, acts) && i < |ss|
    ensures (w in ss[i].handlers && ss[i].handlers[w].Lost?) <==> exists m: nat :: LostAt(ss, acts, w, m, i)
  {
    if i > 0 {
      var s, a := ss[i - 1], acts[i - 1];
      HandlerLostIff(ss, acts, w, i - 1);
      assert StepAt(ss, acts, i - 1);
      if w in s.handlers && s.handlers[w].Lost? {
        var m: nat :| LostAt(ss, acts, w, m, i - 1);
        if a.Handler? && a.w == w && a.ha.RegisterStep? {
          LostEnds(s, w, a.ha);
        } else {
          LostStays(s, a, w);
          assert LostAt(ss, acts, w, m, i);
        }
      } else {
        if w in ss[i].handlers && ss[i].handlers[w].Lost? {
          LostByReply(s, a, w);
          assert LostAt(ss, acts, w, i - 1, i);
        }
        if m: nat :| LostAt(ss, acts, w, m, i) {
          assert m < i - 1 ==> LostAt(ss, acts, w, m, i - 1);
          ReplySurvivesIff(s, w);
        }
      }
    }
  }

  lemma LostByReply(s: State, a: Action, w: Uuid)
    requires Enabled(s, a) && (w in s.handlers ==> !s.handlers[w].Lost?)
    requires w in Apply(s, a).handlers && Apply(s, a).handlers[w].Lost?
    ensures a == Handler(w, ReplyStep) && w !in s.ws.conns
  {
    match a
    case Handler(v, ha) =>
      if v == w {
        match ha {
          case ReplyStep =>
          case _ =>
        }
      }
    case Tick(t, ta) => HandlersUntouched(s, t, ta);
    case _ =>
  }

  lemma HandlersUntouched(s: State, t: TickId, a: TickAction)
    requires TickEnabled(s, t, a)
    ensures ApplyTick(s, t, a).handlers == s.handlers
  {
    match a
    case Begin(idle) =>
    case Look =>
    case _ =>
  }

  /** The handler of the worker will never give tasks back: the worker has no name, or the handler is lost. */
  predicate Abandoned(s: State, w: Uuid) {
    w == NOBODY || (w in s.handlers && s.handlers[w].Lost?)
  }

  /** The pass can still change what it did with the task. */
  predicate Holds(pc: TickPc, id: TaskId) {
    (pc.AtGetConn? || pc.AtWrite? || pc.AtReassign?) && pc.id == id
  }

  /** A task of an abandoned worker that no pass will take back. */
  ghost predicate Stranded(s: State, id: TaskId, w: Uuid) {
    Abandoned(s, w) && ActiveOn(s, id, w) && forall t | t in s.ticks :: !Holds(s.ticks[t], id)
  }

  /** What can still free the task: a named worker coming back, a cancel, or a result for the task. */
  predicate Frees(a: Action, id: TaskId, w: Uuid) {
    || a == CancelTask(id)
    || (a.Handler? && a.ha.Report? && a.ha.id == id)
    || (w != NOBODY && a.Handler? && a.w == w && a.ha.RegisterStep?)
  }

  lemma StrandedTick(s: State, t: TickId, a: TickAction, id: TaskId, w: Uuid)
    requires TickEnabled(s, t, a) && Stranded(s, id, w)
    ensures Stranded(ApplyTick(s, t, a), id, w)
  {
    var u := ApplyTick(s, t, a);
    HandlersUntouched(s, t, a);
    forall r | r in u.ticks ensures !Holds(u.ticks[r], id) {
      if r in s.ticks {
        assert !Holds(s.ticks[r], id);
      }
    }
  }

  lemma StrandedHandler(s: State, v: Uuid, a: HandlerAction, id: TaskId, w: Uuid)
    requires HandlerEnabled(s, v, a) && Stranded(s, id, w) && !Frees(Handler(v, a), id, w)
    ensures Stranded(ApplyHandler(s, v, a), id, w)
  {
    match a
    case ReassignStep(order, recent) =>
      assert v != w;
      assert id !in order;
    case _ =>
  }

  lemma StrandedStep(s: State, a: Action, id: TaskId, w: Uuid)
    requires Enabled(s, a) && Stranded(s, id, w) && !Frees(a, id, w)
    ensures Stranded(Apply(s, a), id, w)
  {
    match a
    case Tick(t, ta) => StrandedTick(s, t, ta, id, w);
    case Handler(v, ha) => StrandedHandler(s, v, ha, id, w);
    case _ =>
  }

  /**
   The other half: a task that an abandoned worker holds stays assigned to it, out of the queue, until
   a cancel or a result ends it or, if the worker has a name, the worker registers again.
   */
  lemma {:induction false} StrandedForEver(ss: seq<State>, acts: seq<Action>, i: nat, j: nat, id: TaskId, w: Uuid)
    requires IsRun(ss, acts) && i <= j < |ss| && Stranded(ss[i], id, w)
    requires forall k | i <= k < j :: !Frees(acts[k], id, w)
    ensures Stranded(ss[j], id, w) && id !in ss[j].tasks.pendingQ
    decreases j
  {
    if i < j {
      StrandedForEver(ss, acts, i, j - 1, id, w);
      assert StepAt(ss, acts, j - 1);
      StrandedStep(ss[j - 1], acts[j - 1], id, w);
    }
    RunInv(ss, acts, j);
  }

  // ---- A quiet master ----

  /** Only workers that have registered are chosen or hold a task. */
  ghost predicate KnownInv(s: State) {
    && (forall t | t in s.ticks ::
          && (forall w | w in s.ticks[t].idle :: w in s.ws.workers)
          && (!s.ticks[t].AtTop? ==> s.ticks[t].w in s.ws.workers))
    && (forall id, w :: ActiveOn(s, id, w) ==> w in s.ws.workers)
  }

  lemma TickKnown(s: State, t: TickId, a: TickAction)
    requires KnownInv(s) && TickEnabled(s, t, a)
    ensures KnownInv(ApplyTick(s, t, a))
  {
    var u := ApplyTick(s, t, a);
    assert u.ws.workers.Keys == s.ws.workers.Keys;
    forall r | r in u.ticks
      ensures forall w | w in u.ticks[r].idle :: w in u.ws.workers
      ensures !u.ticks[r].AtTop? ==> u.ticks[r].w in u.ws.workers
    {
      if r == t {
        match a
        case Begin(idle) => assert forall w | w in idle :: w in Idle(s.ws);
        case Look =>
          var idle := s.ticks[t].idle;
          assert idle[0] in idle && forall w | w in idle[1..] :: w in idle;
        case _ =>
      }
    }
    forall id, w | ActiveOn(u, id, w) ensures w in u.ws.workers {
      if !ActiveOn(s, id, w) {
        assert a == AssignStep && s.ticks[t].w == w;
      }
    }
  }

  lemma HandlerKnown(s: State, v: Uuid, a: HandlerAction)
    requires TasksInv(s) && KnownInv(s) && HandlerEnabled(s, v, a)
    ensures KnownInv(ApplyHandler(s, v, a))
  {
    var u := ApplyHandler(s, v, a);
    assert s.ws.workers.Keys <= u.ws.workers.Keys && u.ticks == s.ticks;
    forall id, w | ActiveOn(u, id, w) ensures w in u.ws.workers {
      HandlerActive(s, v, a, id, w);
    }
  }

  lemma {:induction false} RunKnown(ss: seq<State>, acts: seq<Action>, i: nat)
    requires IsRun(ss, acts) && i < |ss|
    ensures KnownInv(ss[i])
  {
    if i > 0 {
      RunKnown(ss, acts, i - 1);
      RunInv(ss, acts, i - 1);
      assert StepAt(ss, acts, i - 1);
      var s, u := ss[i - 1], ss[i];
      match acts[i - 1]
      case Tick(t, ta) => TickKnown(s, t, ta);
      case Handler(w, ha) => HandlerKnown(s, w, ha);
      case CreateTask(j) => assert forall id, w :: ActiveOn(u, id, w) ==> ActiveOn(s, id, w);
      case CancelTask(j) => assert forall id, w :: ActiveOn(u, id, w) ==> ActiveOn(s, id, w);
      case Silent(v) => assert forall id, w :: ActiveOn(u, id, w) ==> ActiveOn(s, id, w);
    }
  }

  /**
   With every named worker gone and no pass under way, each task has ended or waits in the queue, once,
   or it is held by a worker without a name, which is possible only once such a worker has registered.
   */
  lemma QuietMasterLosesNoTask(ss: seq<State>, acts: seq<Action>, i: nat, id: TaskId)
    requires IsRun(ss, acts) && i < |ss| && ss[i].ticks == map[] && (forall w | w != NOBODY :: Gone(ss[i], w))
    requires id in ss[i].tasks.tasks
    ensures var t := ss[i].tasks.tasks[id];
      || Terminal(t)
      || (id in ss[i].tasks.pendingQ && t.status == Pending)
      || (Stranded(ss[i], id, NOBODY) && NOBODY in ss[i].ws.workers)
    ensures NoDuplicates(ss[i].tasks.pendingQ)
  {
    RunInv(ss, acts, i);
    RunKnown(ss, acts, i);
    var w := ss[i].tasks.tasks[id].assignedTo;
    if w != NOBODY {
      NoTaskStranded(ss, acts, i, w, id);
    } else if Active(ss[i].tasks.tasks[id]) {
      assert ActiveOn(ss[i], id, NOBODY);
    }
  }

  /** The queue invariant in every interleaving, and a task that has ended never leaves that state. */
  lemma {:induction false} QueueAgreesWithTasks(ss: seq<State>, acts: seq<Action>, i: nat, j: nat)
    requires IsRun(ss, acts) && i <= j < |ss|
    ensures QueueInv(ss[j].tasks) && EndedStaysEnded(ss[i].tasks, ss[j].tasks)
    decreases j
  {
    RunInv(ss, acts, j);
    if i < j {
      QueueAgreesWithTasks(ss, acts, i, j - 1);
      RunInv(ss, acts, j - 1);
      assert StepAt(ss, acts, j - 1);
      StepTasks(ss[j - 1], acts[j - 1]);
    }
  }

  // ---- A stale head blocks the queue for good ----

  predicate StuckOn(t: Tasks, id: TaskId) {
    t.pendingQ != [] && t.pendingQ[0] == id && id in t.tasks && Terminal(t.tasks[id])
  }

  lemma StuckStep(s: State, a: Action, id: TaskId)
    requires TasksInv(s) && Enabled(s, a) && StuckOn(s.tasks, id)
    ensures StuckOn(Apply(s, a).tasks, id)
  {
    StepTasks(s, a);
    match a
    case Tick(t, ta) =>
    case Handler(w, ha) =>
    case CreateTask(j) =>
    case CancelTask(j) =>
    case Silent(w) =>
  }

  /**
   Once a task that has ended stands at the head of the queue, every later look at the queue returns
   that task, which cannot be assigned: no pass that starts from then on dispatches anything.
   */
  lemma {:induction false} StaleHeadBlocksForEver(ss: seq<State>, acts: seq<Action>, id: TaskId, i: nat, j: nat)
    requires IsRun(ss, acts) && i <= j < |ss| && StuckOn(ss[i].tasks, id)
    ensures StuckOn(ss[j].tasks, id)
    ensures GetPending(ss[j].tasks) == Some(id) && !CanAssign(ss[j].tasks, id)
    decreases j
  {
    if i < j {
      StaleHeadBlocksForEver(ss, acts, id, i, j - 1);
      RunInv(ss, acts, j - 1);
      assert StepAt(ss, acts, j - 1);
      StuckStep(ss[j - 1], acts[j - 1], id);
    }
  }

  // ---- When the queue holds nothing but pending tasks ----

  /** A result for a task that is pending, the one case that the handler does not look for. */
  predicate Late(s: State, a: Action) {
    a.Handler? && a.ha.Report? && CanAssign(s.tasks, a.ha.id)
  }

  /** A task that has ended and is queued all the same. */
  predicate Stale(t: Tasks, id: TaskId) {
    id in t.pendingQ && id in t.tasks && Terminal(t.tasks[id])
  }

  lemma AssignAllPending(t: Tasks, id: TaskId, w: Uuid)
    requires QueueInv(t) && AllPending(t)
    ensures AllPending(Assign(t, id, w))
  {
    RemoveFirstExact(t.pendingQ, id);
  }

  lemma CancelAllPending(t: Tasks, id: TaskId)
    requires QueueInv(t) && AllPending(t)
    ensures AllPending(Cancel(t, id))
  {
    RemoveFirstExact(t.pendingQ, id);
  }

  lemma StepAllPending(s: State, a: Action)
    requires TasksInv(s) && Enabled(s, a) && AllPending(s.tasks) && !Late(s, a)
    ensures AllPending(Apply(s, a).tasks)
  {
    match a
    case Tick(t, ta) =>
      match ta {
        case AssignStep => AssignAllPending(s.tasks, s.ticks[t].id, s.ticks[t].w);
        case TakeBack =>
        case _ => assert Apply(s, a).tasks == s.tasks;
      }
    case Handler(w, ha) =>
      match ha {
        case Report(id, completed, hits) =>
        case ReassignStep(order, recent) =>
        case _ => assert Apply(s, a).tasks == s.tasks;
      }
    case CreateTask(id) =>
    case CancelTask(id) => CancelAllPending(s.tasks, id);
    case Silent(w) =>
  }

  /** A late result leaves an ended task queued. */
  lemma LateLeavesStale(s: State, a: Action)
    requires TasksInv(s) && Enabled(s, a) && Late(s, a)
    ensures Stale(Apply(s, a).tasks, a.ha.id)
  {
  }

  lemma StaleStep(s: State, a: Action, id: TaskId)
    requires TasksInv(s) && Enabled(s, a) && Stale(s.tasks, id)
    ensures Stale(Apply(s, a).tasks, id)
  {
    StepTasks(s, a);
    match a
    case Tick(t, ta) =>
      match ta {
        case AssignStep => RemoveFirstExact(s.tasks.pendingQ, s.ticks[t].id);
        case TakeBack =>
        case _ => assert Apply(s, a).tasks == s.tasks;
      }
    case Handler(w, ha) =>
      match ha {
        case Report(j, completed, hits) =>
        case ReassignStep(order, recent) =>
        case _ => assert Apply(s, a).tasks == s.tasks;
      }
    case CreateTask(j) =>
    case CancelTask(j) => RemoveFirstExact(s.tasks.pendingQ, j);
    case Silent(w) =>
  }

  /** An ended task that is queued never leaves the queue. */
  lemma {:induction false} StaleForEver(ss: seq<State>, acts: seq<Action>, id: TaskId, i: nat, j: nat)
    requires IsRun(ss, acts) && i <= j < |ss| && Stale(ss[i].tasks, id)
    ensures Stale(ss[j].tasks, id)
    decreases j
  {
    if i < j {
      StaleForEver(ss, acts, id, i, j - 1);
      RunInv(ss, acts, j - 1);
      assert StepAt(ss, acts, j - 1);
      StaleStep(ss[j - 1], acts[j - 1], id);
    }
  }

  lemma {:induction false} NoLateNoStale(ss: seq<State>, acts: seq<Action>, j: nat)
    requires IsRun(ss, acts) && j < |ss| && forall m | 0 <= m < j :: !Late(ss[m], acts[m])
    ensures AllPending(ss[j].tasks)
  {
    if j > 0 {
      NoLateNoStale(ss, acts, j - 1);
      RunInv(ss, acts, j - 1);
      assert StepAt(ss, acts, j - 1);
      StepAllPending(ss[j - 1], acts[j - 1]);
    }
  }

  /**
   The queue holds nothing but tasks that can be assigned exactly when no result has ever come for a
   task that was pending.
   */
  lemma QueueIsCleanIff(ss: seq<State>, acts: seq<Action>, j: nat)
    requires IsRun(ss, acts) && j < |ss|
    ensures AllPending(ss[j].tasks) <==> forall m | 0 <= m < j :: !Late(ss[m], acts[m])
  {
    if m :| 0 <= m < j && Late(ss[m], acts[m]) {
      RunInv(ss, acts, m);
      assert StepAt(ss, acts, m);
      LateLeavesStale(ss[m], acts[m]);
      StaleForEver(ss, acts, acts[m].ha.id, m + 1, j);
      assert !CanAssign(ss[j].tasks, acts[m].ha.id);
    } else {
      NoLateNoStale(ss, acts, j);
    }
  }
}
