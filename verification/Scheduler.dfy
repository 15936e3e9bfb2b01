/**
 The v1 master with everything that runs at once: any number of scheduling passes, one handler
 goroutine per connected worker, task creation and cancelling, and the offline detector. Each store
 method runs under its store's mutex and is one action; nothing is held across a pass.
 */
module Scheduler {
  import opened Common
  import opened TaskStore
  import opened WorkerStore

  type ConnId = nat
  type TickId = nat

  /** Where a pass is; `idle` is what is left of its snapshot of idle workers. */
  datatype TickPc =
    | AtTop(idle: seq<Uuid>)
    | AtAssign(id: TaskId, w: Uuid, idle: seq<Uuid>)
    | AtGetConn(id: TaskId, w: Uuid, idle: seq<Uuid>)
    | AtWrite(id: TaskId, w: Uuid, c: ConnId, idle: seq<Uuid>)
    | AtReassign(id: TaskId, w: Uuid, idle: seq<Uuid>)
    | AtIncrement(id: TaskId, w: Uuid, idle: seq<Uuid>)

  /**
   Where the handler goroutine of a worker is, from its registration to the end of its disconnect.
   A handler is lost when it panics over a reply for which it finds no connection.
   */
  datatype HandlerPc =
    | Registered(c: ConnId)
    | Serving(c: ConnId)
    | Reported(c: ConnId, id: TaskId)
    | Replying(c: ConnId)
    | Lost(c: ConnId)
    | Disconnected(c: ConnId)
    | GivenBack(c: ConnId)
    | Closing(c: ConnId)

  datatype State = State(
    tasks: Tasks,
    ws: Workers<ConnId>,
    closed: set<ConnId>,
    ticks: map<TickId, TickPc>,
    handlers: map<Uuid, HandlerPc>,
    sent: map<Uuid, multiset<TaskId>>)  // what was sent to a worker and has not been answered

  datatype TickAction =
    | Begin(idle: seq<Uuid>)
    | Look
    | AssignStep
    | GetConn
    | Write(accepted: bool)
    | TakeBack
    | Count

  datatype HandlerAction =
    | RegisterStep(c: ConnId, maxTasks: Option<int>)
    | SetConnStep
    | Report(id: TaskId, completed: bool, hits: int)
    | CountDown
    | ReplyStep
    | DisconnectStep
    | ReassignStep(order: seq<TaskId>, recent: set<TaskId>)
    | ResetStep
    | CloseStep

  datatype Action =
    | Tick(t: TickId, ta: TickAction)
    | Handler(w: Uuid, ha: HandlerAction)
    | CreateTask(id: TaskId)
    | CancelTask(cid: TaskId)
    | Silent(sw: Uuid)

  ghost predicate Init(s: State) {
    s == State(Tasks(map[], []), Workers(map[], map[]), {}, map[], map[], map[])
  }

  function Sent(s: State, w: Uuid): multiset<TaskId> {
    if w in s.sent then s.sent[w] else multiset{}
  }

  // ---- Passes ----

  ghost predicate TickEnabled(s: State, t: TickId, a: TickAction) {
    if a.Begin? then t !in s.ticks && IsOrderOf(a.idle, Idle(s.ws))
    else
      t in s.ticks &&
      match a
      case Look => s.ticks[t].AtTop?
      case AssignStep => s.ticks[t].AtAssign?
      case GetConn => s.ticks[t].AtGetConn?
      case Write(_) => s.ticks[t].AtWrite?
      case TakeBack => s.ticks[t].AtReassign?
      case Count => s.ticks[t].AtIncrement?
  }

  function AtTick(s: State, t: TickId, pc: TickPc): State {
    s.(ticks := s.ticks[t := pc])
  }

  /** A dispatch counts as owed to a worker only while its handler can still give the task back. */
  predicate CanAnswer(s: State, w: Uuid) {
    w != NOBODY && w in s.handlers && !s.handlers[w].GivenBack? && !s.handlers[w].Closing? && !s.handlers[w].Lost?
  }

  ghost function ApplyTick(s: State, t: TickId, a: TickAction): State
    requires TickEnabled(s, t, a)
  {
    match a
    case Begin(idle) => if idle == [] then s else AtTick(s, t, AtTop(idle))
    case Look =>
      var idle := s.ticks[t].idle;
      if GetPending(s.tasks).None? || idle == [] then s.(ticks := s.ticks - {t})
      else AtTick(s, t, AtAssign(GetPending(s.tasks).value, idle[0], idle[1..]))
    case AssignStep =>
      var AtAssign(id, w, idle) := s.ticks[t];
      AtTick(s.(tasks := Assign(s.tasks, id, w)), t,
             if CanAssign(s.tasks, id) then AtGetConn(id, w, idle) else AtTop(idle))
    case GetConn =>
      var AtGetConn(id, w, idle) := s.ticks[t];
      AtTick(s, t, if w in s.ws.conns then AtWrite(id, w, s.ws.conns[w], idle) else AtReassign(id, w, idle))
    case Write(accepted) =>
      var AtWrite(id, w, c, idle) := s.ticks[t];
      if c in s.closed || accepted
      then AtTick(s.(sent := if CanAnswer(s, w) then s.sent[w := Sent(s, w) + multiset{id}] else s.sent),
                  t, AtIncrement(id, w, idle))
      else AtTick(s, t, AtReassign(id, w, idle))
    case TakeBack =>
      var AtReassign(id, w, idle) := s.ticks[t];
      AtTick(s.(tasks := Reassign(s.tasks, id)), t, AtTop(idle))
    case Count =>
      var AtIncrement(id, w, idle) := s.ticks[t];
      AtTick(s.(ws := Increment(s.ws, w)), t, AtTop(idle))
  }

  // ---- Handlers ----

  /**
   The handler of a worker that registered without a name takes no part in the rest: it drops every
   result and skips the whole disconnect, up to the closing of its connection.
   */
  predicate UnnamedMay(a: HandlerAction) {
    a.RegisterStep? || a.SetConnStep? || a.CloseStep?
  }

  ghost predicate HandlerEnabled(s: State, w: Uuid, a: HandlerAction) {
    (w == NOBODY ==> UnnamedMay(a)) &&
    if a.RegisterStep? then
      && (w in s.handlers ==> s.handlers[w].Lost?)
      && a.c !in s.closed && forall v | v in s.handlers :: s.handlers[v].c != a.c
    else
      w in s.handlers &&
      match a
      case SetConnStep => s.handlers[w].Registered?
      case Report(_, _, _) => s.handlers[w].Serving?
      case CountDown => s.handlers[w].Reported?
      case ReplyStep => s.handlers[w].Replying?
      case DisconnectStep => s.handlers[w].Serving?
      case ReassignStep(order, recent) => s.handlers[w].Disconnected? && IsOrderOf(order, Leaving(s.tasks, w, recent))
      case ResetStep => s.handlers[w].GivenBack?
      case CloseStep => s.handlers[w].Closing? || (w == NOBODY && s.handlers[w].Serving?)
  }

  function AtHandler(s: State, w: Uuid, pc: HandlerPc): State {
    s.(handlers := s.handlers[w := pc])
  }

  ghost function ApplyHandler(s: State, w: Uuid, a: HandlerAction): State
    requires HandlerEnabled(s, w, a)
  {
    match a
    case RegisterStep(c, maxTasks) => AtHandler(s.(ws := Register(s.ws, w, maxTasks)), w, Registered(c))
    case SetConnStep => AtHandler(s.(ws := SetConn(s.ws, w, s.handlers[w].c)), w, Serving(s.handlers[w].c))
    case Report(id, completed, hits) =>
      AtHandler(s.(tasks := if completed then Complete(s.tasks, id, hits) else Fail(s.tasks, id)),
                w, Reported(s.handlers[w].c, id))
    case CountDown =>
      AtHandler(s.(ws := Decrement(s.ws, w), sent := s.sent[w := Sent(s, w) - multiset{s.handlers[w].id}]),
                w, Replying(s.handlers[w].c))
    case ReplyStep =>
      if w in s.ws.conns then AtHandler(s, w, Serving(s.handlers[w].c))
      else AtHandler(s.(sent := s.sent[w := multiset{}]), w, Lost(s.handlers[w].c))
    case DisconnectStep =>
      AtHandler(s.(ws := MarkOffline(s.ws, w),
                   closed := if w in s.ws.conns then s.closed + {s.ws.conns[w]} else s.closed),
                w, Disconnected(s.handlers[w].c))
    case ReassignStep(order, _) =>
      AtHandler(s.(tasks := GiveBack(s.tasks, order), sent := s.sent[w := multiset{}]), w, GivenBack(s.handlers[w].c))
    case ResetStep =>
      AtHandler(s.(ws := SetRunning(s.ws, w, 0)), w, Closing(s.handlers[w].c))
    case CloseStep => s.(closed := s.closed + {s.handlers[w].c}, handlers := s.handlers - {w})
  }

  // ---- Steps and runs ----

  ghost predicate Enabled(s: State, a: Action) {
    match a
    case Tick(t, ta) => TickEnabled(s, t, ta)
    case Handler(w, ha) => HandlerEnabled(s, w, ha)
    case CreateTask(id) => id !in s.tasks.tasks
    case CancelTask(id) => true
    case Silent(w) => w in s.ws.workers && s.ws.workers[w].online
  }

  ghost function Apply(s: State, a: Action): State
    requires Enabled(s, a)
  {
    match a
    case Tick(t, ta) => ApplyTick(s, t, ta)
    case Handler(w, ha) => ApplyHandler(s, w, ha)
    case CreateTask(id) => s.(tasks := Create(s.tasks, id))
    case CancelTask(id) => s.(tasks := Cancel(s.tasks, id))
    case Silent(w) => s.(ws := MarkOffline(s.ws, w))
  }

  ghost predicate StepAt(ss: seq<State>, acts: seq<Action>, i: nat)
    requires |ss| == |acts| + 1 && i < |acts|
  {
    Enabled(ss[i], acts[i]) && ss[i + 1] == Apply(ss[i], acts[i])
  }

  ghost predicate IsRun(ss: seq<State>, acts: seq<Action>) {
    && |ss| == |acts| + 1
    && Init(ss[0])
    && forall i | 0 <= i < |acts| :: StepAt(ss, acts, i)
  }
}
