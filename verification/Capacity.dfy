/** No worker of the v1 master is given more tasks than it can hold, when passes do not overlap. */
module Capacity {
  import opened Common
  import opened TaskStore
  import opened WorkerStore
  import opened Scheduler
  import opened SchedulerProofs

  /**
   What the claim asks of a run: a pass starts only when no other is under way, a worker reports a task
   only if it was sent that task since it registered and has not yet answered for it, and a worker
   registers again only after its disconnect has ended.
   */
  ghost predicate Orderly(ss: seq<State>, acts: seq<Action>)
    requires |ss| == |acts| + 1
  {
    forall i | 0 <= i < |acts| :: OrderlyStep(ss[i], acts[i])
  }

  predicate OrderlyStep(s: State, a: Action) {
    && (a.Tick? && a.ta.Begin? ==> s.ticks == map[])
    && (a.Handler? ==> HandlerOrderly(s, a.w, a.ha))
  }

  predicate HandlerOrderly(s: State, w: Uuid, a: HandlerAction) {
    && (a.Report? ==> a.id in Sent(s, w))
    && (a.RegisterStep? ==> w !in s.handlers)
  }

  // ---- What a pass holds on to ----

  /** The pass has assigned a task to the worker and not yet sent it or taken it back. */
  predicate Unsent(pc: TickPc, w: Uuid) {
    (pc.AtGetConn? || pc.AtWrite? || pc.AtReassign?) && pc.w == w
  }

  predicate Room(s: State, w: Uuid) {
    w in s.ws.workers && s.ws.workers[w].running + 1 <= Limit(s.ws.workers[w])
  }

  /** Every worker left in the snapshot, and the one being dealt with, can take one more task. */
  ghost predicate PassInv(s: State, pc: TickPc) {
    && NoDuplicates(pc.idle)
    && (forall w | w in pc.idle :: Room(s, w))
    && (!pc.AtTop? ==> pc.w !in pc.idle && Room(s, pc.w) && pc.id in s.tasks.tasks)
  }

  ghost predicate Counting(s: State, w: Uuid) {
    exists t :: t in s.ticks && s.ticks[t].AtIncrement? && s.ticks[t].w == w
  }

  ghost predicate Sending(s: State, w: Uuid, id: TaskId) {
    exists t :: t in s.ticks && Unsent(s.ticks[t], w) && s.ticks[t].id == id
  }

  ghost predicate LoadInv(s: State) {
    && (forall t, r :: t in s.ticks && r in s.ticks ==> t == r)
    && (forall t | t in s.ticks :: PassInv(s, s.ticks[t]))
    && (forall w | w in s.ws.workers :: s.ws.workers[w].running <= Limit(s.ws.workers[w]))
  }

  /** What is known of one worker: what it owes is counted, and a reported task has ended. */
  ghost predicate Books(s: State, w: Uuid) {
    && (w in s.handlers ==> w in s.ws.workers)
    && (!CanAnswer(s, w) ==> Sent(s, w) == multiset{})
    && (forall id | id in Sent(s, w) :: id in s.tasks.tasks)
    && (w in s.handlers && s.handlers[w].Reported? ==>
          s.handlers[w].id in Sent(s, w) && Terminal(s.tasks.tasks[s.handlers[w].id]))
    && (w in s.ws.workers ==>
          |Sent(s, w)| <= s.ws.workers[w].running + (if Counting(s, w) then 1 else 0))
  }

  ghost predicate SentInv(s: State) {
    forall w :: Books(s, w)
  }

  /** A task assigned to a worker that can still answer was sent to it, or is just being sent. */
  ghost predicate OwnedInv(s: State) {
    forall w, id :: CanAnswer(s, w) && ActiveOn(s, id, w) ==> id in Sent(s, w) || Sending(s, w, id)
  }

  ghost predicate CapacityInv(s: State) {
    TasksInv(s) && StrandInv(s) && LoadInv(s) && SentInv(s) && OwnedInv(s)
  }

  // ---- Loads ----

  /** What one step of a pass leaves alone. */
  lemma TickEffect(s: State, t: TickId, a: TickAction)
    requires TickEnabled(s, t, a)
    ensures var u := ApplyTick(s, t, a);
      && u.handlers == s.handlers
      && u.ticks - {t} == s.ticks - {t}
      && (!a.Begin? ==> t in s.ticks)
      && (!a.Write? ==> u.sent == s.sent)
      && (!a.Count? ==> u.ws == s.ws)
      && (!a.AssignStep? && !a.TakeBack? ==> u.tasks == s.tasks)
      && u.tasks.tasks.Keys == s.tasks.tasks.Keys
  {
    match a
    case Begin(idle) =>
    case Look =>
    case _ =>
  }

  lemma OtherTicks(s: State, t: TickId, a: TickAction, r: TickId)
    requires TickEnabled(s, t, a) && r != t
    ensures r in ApplyTick(s, t, a).ticks <==> r in s.ticks
    ensures r in s.ticks ==> ApplyTick(s, t, a).ticks[r] == s.ticks[r]
  {
    match a
    case Begin(idle) =>
    case Look =>
    case _ =>
  }

  /** The pass that takes the step keeps its own invariant. */
  lemma OwnPass(s: State, t: TickId, a: TickAction)
    requires LoadInv(s) && TickEnabled(s, t, a)
    ensures var u := ApplyTick(s, t, a); t in u.ticks ==> PassInv(u, u.ticks[t])
  {
    if t in s.ticks {
      assert PassInv(s, s.ticks[t]);
    }
    match a
    case Begin(idle) =>
      forall w | w in idle ensures Room(s, w) {
        assert w in Idle(s.ws);
      }
    case Look =>
      var idle := s.ticks[t].idle;
      if idle != [] {
        assert idle[0] in idle && idle[0] !in idle[1..];
        assert forall w | w in idle[1..] :: w in idle;
      }
    case Count =>
      forall w | w in s.ticks[t].idle ensures Room(ApplyTick(s, t, a), w) {
        assert Room(s, w) && w != s.ticks[t].w;
      }
    case _ =>
  }

  lemma TickLoad(s: State, t: TickId, a: TickAction)
    requires LoadInv(s) && TickEnabled(s, t, a) && (a.Begin? ==> s.ticks == map[])
    ensures LoadInv(ApplyTick(s, t, a))
  {
    var u := ApplyTick(s, t, a);
    OwnPass(s, t, a);
    forall r | r in u.ticks ensures r == t {
      if r != t {
        OtherTicks(s, t, a, r);
        TickEffect(s, t, a);
      }
    }
    if a == Count {
      assert PassInv(s, s.ticks[t]);
    } else {
      TickEffect(s, t, a);
    }
  }

  lemma RoomKept(s: State, v: Uuid, a: HandlerAction, w: Uuid)
    requires HandlerEnabled(s, v, a) && Room(s, w)
    ensures Room(ApplyHandler(s, v, a), w)
  {
    match a
    case RegisterStep(c, maxTasks) =>
    case CountDown =>
    case DisconnectStep =>
    case ResetStep =>
    case _ =>
  }

  lemma LimitKept(s: State, v: Uuid, a: HandlerAction, w: Uuid)
    requires HandlerEnabled(s, v, a) && w in ApplyHandler(s, v, a).ws.workers
    requires w in s.ws.workers ==> s.ws.workers[w].running <= Limit(s.ws.workers[w])
    ensures var u := ApplyHandler(s, v, a).ws.workers[w]; u.running <= Limit(u)
  {
    if w == v {
      match a
      case RegisterStep(c, maxTasks) =>
      case CountDown =>
      case _ =>
    }
  }

  lemma HandlerLoad(s: State, v: Uuid, a: HandlerAction)
    requires LoadInv(s) && HandlerEnabled(s, v, a)
    ensures LoadInv(ApplyHandler(s, v, a))
  {
    var u := ApplyHandler(s, v, a);
    assert u.ticks == s.ticks;
    forall t | t in u.ticks ensures PassInv(u, u.ticks[t]) {
      var pc := s.ticks[t];
      assert PassInv(s, pc);
      forall w | w in pc.idle ensures Room(u, w) {
        RoomKept(s, v, a, w);
      }
      if !pc.AtTop? {
        RoomKept(s, v, a, pc.w);
      }
    }
    forall w | w in u.ws.workers ensures u.ws.workers[w].running <= Limit(u.ws.workers[w]) {
      LimitKept(s, v, a, w);
    }
  }

  // ---- What was sent and not answered ----

  lemma TickCounting(s: State, t: TickId, a: TickAction, x: Uuid)
    requires LoadInv(s) && TickEnabled(s, t, a) && (a.Begin? ==> s.ticks == map[])
    ensures Counting(s, x) <==> a.Count? && s.ticks[t].w == x
    ensures Counting(ApplyTick(s, t, a), x) <==>
              a.Write? && ApplyTick(s, t, a).ticks[t].AtIncrement? && s.ticks[t].w == x
  {
    var u := ApplyTick(s, t, a);
    TickLoad(s, t, a);
    TickEffect(s, t, a);
    if r :| r in s.ticks && s.ticks[r].AtIncrement? && s.ticks[r].w == x {
      assert r == t;
    }
    if r :| r in u.ticks && u.ticks[r].AtIncrement? && u.ticks[r].w == x {
      if r != t {
        OtherTicks(s, t, a, r);
      }
      assert r == t;
      assert a.Write?;
    }
    if a.Write? && u.ticks[t].AtIncrement? && s.ticks[t].w == x {
      assert t in u.ticks && u.ticks[t].w == x;
    }
  }

  /** Known tasks stay known, ended tasks stay ended, and no task appears. */
  ghost predicate SameTasks(s: State, u: State) {
    EndedStaysEnded(s.tasks, u.tasks) && u.tasks.tasks.Keys == s.tasks.tasks.Keys
  }

  lemma TickBooks(s: State, t: TickId, a: TickAction, w: Uuid)
    requires LoadInv(s) && Books(s, w) && TickEnabled(s, t, a) && (a.Begin? ==> s.ticks == map[])
    requires SameTasks(s, ApplyTick(s, t, a))
    ensures Books(ApplyTick(s, t, a), w)
  {
    var u := ApplyTick(s, t, a);
    TickEffect(s, t, a);
    TickCounting(s, t, a, w);
    SentGrows(s, t, a, w);
    if t in s.ticks {
      assert PassInv(s, s.ticks[t]);
    }
    assert CanAnswer(u, w) == CanAnswer(s, w);
    if a == Count {
      assert u.ws == Increment(s.ws, s.ticks[t].w);
    }
  }

  lemma SentGrows(s: State, t: TickId, a: TickAction, w: Uuid)
    requires TickEnabled(s, t, a)
    ensures var u := ApplyTick(s, t, a);
      Sent(u, w) == Sent(s, w) +
        (if a.Write? && w == s.ticks[t].w && u.ticks[t].AtIncrement? && CanAnswer(s, w)
         then multiset{s.ticks[t].id} else multiset{})
  {
    match a
    case Write(accepted) =>
    case Begin(idle) =>
    case Look =>
    case _ =>
  }

  lemma OtherHandlers(s: State, v: Uuid, a: HandlerAction, w: Uuid)
    requires HandlerEnabled(s, v, a) && w != v
    ensures var u := ApplyHandler(s, v, a);
      (w in u.handlers <==> w in s.handlers) && (w in s.handlers ==> u.handlers[w] == s.handlers[w])
  {
  }

  lemma OtherSentSets(s: State, v: Uuid, a: HandlerAction, w: Uuid)
    requires HandlerEnabled(s, v, a) && w != v
    ensures Sent(ApplyHandler(s, v, a), w) == Sent(s, w)
  {
  }

  lemma HandlerSentFrame(s: State, v: Uuid, a: HandlerAction, w: Uuid)
    requires HandlerEnabled(s, v, a) && w != v
    ensures var u := ApplyHandler(s, v, a);
      && Sent(u, w) == Sent(s, w) && CanAnswer(u, w) == CanAnswer(s, w)
      && (w in u.handlers <==> w in s.handlers) && (w in s.handlers ==> u.handlers[w] == s.handlers[w])
  {
    OtherHandlers(s, v, a, w);
    OtherSentSets(s, v, a, w);
  }

  lemma HandlerWorkerFrame(s: State, v: Uuid, a: HandlerAction, w: Uuid)
    requires HandlerEnabled(s, v, a) && w != v
    ensures var u := ApplyHandler(s, v, a);
      (w in u.ws.workers <==> w in s.ws.workers) && (w in s.ws.workers ==> u.ws.workers[w] == s.ws.workers[w])
  {
  }

  lemma HandlerBooksOther(s: State, v: Uuid, a: HandlerAction, w: Uuid)
    requires Books(s, w) && HandlerEnabled(s, v, a) && w != v
    requires SameTasks(s, ApplyHandler(s, v, a))
    ensures Books(ApplyHandler(s, v, a), w)
  {
    var u := ApplyHandler(s, v, a);
    HandlerSentFrame(s, v, a, w);
    HandlerWorkerFrame(s, v, a, w);
    assert u.ticks == s.ticks;
    assert Counting(u, w) == Counting(s, w);
  }

  /** Counting down answers for one task. */
  lemma CountDownBooks(s: State, v: Uuid)
    requires Books(s, v) && HandlerEnabled(s, v, CountDown)
    ensures Books(ApplyHandler(s, v, CountDown), v)
  {
    var u := ApplyHandler(s, v, CountDown);
    assert u.ticks == s.ticks && Counting(u, v) == Counting(s, v);
    assert |Sent(u, v)| == |Sent(s, v)| - 1;
  }

  /** The books of the worker whose handler takes the step. */
  lemma HandlerBooksOwn(s: State, v: Uuid, a: HandlerAction)
    requires Books(s, v) && HandlerEnabled(s, v, a) && HandlerOrderly(s, v, a) && a != CountDown
    ensures Books(ApplyHandler(s, v, a), v)
  {
    var u := ApplyHandler(s, v, a);
    assert u.ticks == s.ticks && Counting(u, v) == Counting(s, v);
    match a
    case RegisterStep(c, maxTasks) =>
    case Report(id, completed, hits) =>
    case ReplyStep =>
    case ReassignStep(order, recent) =>
    case _ =>
  }

  lemma TickSent(s: State, t: TickId, a: TickAction)
    requires LoadInv(s) && SentInv(s) && TickEnabled(s, t, a) && (a.Begin? ==> s.ticks == map[])
    requires EndedStaysEnded(s.tasks, ApplyTick(s, t, a).tasks)
    ensures SentInv(ApplyTick(s, t, a))
  {
    forall w ensures Books(ApplyTick(s, t, a), w) {
      TickBooks(s, t, a, w);
    }
  }

  lemma HandlerSent(s: State, v: Uuid, a: HandlerAction)
    requires SentInv(s) && HandlerEnabled(s, v, a) && HandlerOrderly(s, v, a)
    requires EndedStaysEnded(s.tasks, ApplyHandler(s, v, a).tasks)
    ensures SentInv(ApplyHandler(s, v, a))
  {
    assert ApplyHandler(s, v, a).tasks.tasks.Keys == s.tasks.tasks.Keys;
    forall w ensures Books(ApplyHandler(s, v, a), w) {
      assert Books(s, w);
      if w != v {
        HandlerBooksOther(s, v, a, w);
      } else if a == CountDown {
        CountDownBooks(s, v);
      } else {
        HandlerBooksOwn(s, v, a);
      }
    }
  }

  // ---- Active tasks are accounted for ----

  /** A pass holds on to the task it assigned until the task is sent or taken back. */
  lemma SendingStays(s: State, t: TickId, a: TickAction, w: Uuid, id: TaskId)
    requires TickEnabled(s, t, a) && Sending(s, w, id)
    requires CanAnswer(s, w) && ActiveOn(ApplyTick(s, t, a), id, w)
    ensures id in Sent(ApplyTick(s, t, a), w) || Sending(ApplyTick(s, t, a), w, id)
  {
    var u := ApplyTick(s, t, a);
    var r :| r in s.ticks && Unsent(s.ticks[r], w) && s.ticks[r].id == id;
    if r != t {
      OtherTicks(s, t, a, r);
    } else {
      SentGrows(s, t, a, w);
      match a
      case GetConn => assert t in u.ticks && Unsent(u.ticks[t], w) && u.ticks[t].id == id;
      case Write(accepted) =>
        if !u.ticks[t].AtIncrement? {
          assert t in u.ticks && Unsent(u.ticks[t], w) && u.ticks[t].id == id;
        }
      case TakeBack =>
      case _ =>
    }
  }

  lemma TickOwned(s: State, t: TickId, a: TickAction)
    requires OwnedInv(s) && TickEnabled(s, t, a)
    ensures OwnedInv(ApplyTick(s, t, a))
  {
    var u := ApplyTick(s, t, a);
    TickEffect(s, t, a);
    forall w, id | CanAnswer(u, w) && ActiveOn(u, id, w)
      ensures id in Sent(u, w) || Sending(u, w, id)
    {
      assert CanAnswer(s, w);
      SentGrows(s, t, a, w);
      if !ActiveOn(s, id, w) {
        NewlyActive(s, t, a, w, id);
      } else if id !in Sent(s, w) {
        SendingStays(s, t, a, w, id);
      }
    }
  }

  lemma NewlyActive(s: State, t: TickId, a: TickAction, w: Uuid, id: TaskId)
    requires TickEnabled(s, t, a) && !ActiveOn(s, id, w) && ActiveOn(ApplyTick(s, t, a), id, w)
    ensures Sending(ApplyTick(s, t, a), w, id)
  {
    var u := ApplyTick(s, t, a);
    TickEffect(s, t, a);
    match a
    case AssignStep => assert t in u.ticks && Unsent(u.ticks[t], w) && u.ticks[t].id == id;
    case TakeBack =>
    case _ =>
  }

  lemma HandlerOwned(s: State, v: Uuid, a: HandlerAction)
    requires TasksInv(s) && StrandInv(s) && OwnedInv(s) && HandlerEnabled(s, v, a) && HandlerOrderly(s, v, a)
    requires Books(s, v)
    ensures OwnedInv(ApplyHandler(s, v, a))
  {
    var u := ApplyHandler(s, v, a);
    assert u.ticks == s.ticks;
    forall w, id | CanAnswer(u, w) && ActiveOn(u, id, w)
      ensures id in Sent(u, w) || Sending(u, w, id)
    {
      HandlerActive(s, v, a, id, w);
      if !CanAnswer(s, w) {
        assert Gone(s, w);
        var r :| r in s.ticks && TakesBack(s.ticks[r], id, w);
        assert r in u.ticks && Unsent(u.ticks[r], w) && u.ticks[r].id == id;
      } else if id in Sent(s, w) {
        StillSent(s, v, a, w, id);
      } else {
        assert Sending(s, w, id);
      }
    }
  }

  lemma StillSent(s: State, v: Uuid, a: HandlerAction, w: Uuid, id: TaskId)
    requires HandlerEnabled(s, v, a) && id in Sent(s, w) && ActiveOn(s, id, w) && CanAnswer(ApplyHandler(s, v, a), w)
    requires Books(s, v)
    ensures id in Sent(ApplyHandler(s, v, a), w)
  {
    if w != v {
      HandlerSentFrame(s, v, a, w);
    } else {
      match a
      case CountDown => assert id != s.handlers[v].id;
      case RegisterStep(c, maxTasks) =>
      case _ =>
    }
  }

  /** Creating and cancelling tasks, and the offline detector. */
  lemma OtherLoad(s: State, a: Action)
    requires LoadInv(s) && Enabled(s, a) && !a.Tick? && !a.Handler?
    ensures LoadInv(Apply(s, a))
  {
    var u := Apply(s, a);
    assert forall w | Room(s, w) :: Room(u, w);
    forall t | t in u.ticks ensures PassInv(u, u.ticks[t]) {
      assert PassInv(s, s.ticks[t]);
    }
  }

  lemma OtherSent(s: State, a: Action)
    requires SentInv(s) && Enabled(s, a) && !a.Tick? && !a.Handler?
    requires EndedStaysEnded(s.tasks, Apply(s, a).tasks)
    ensures SentInv(Apply(s, a))
  {
    var u := Apply(s, a);
    forall w ensures Books(u, w) {
      assert Books(s, w) && Counting(u, w) == Counting(s, w) && CanAnswer(u, w) == CanAnswer(s, w);
      assert w in u.ws.workers ==> w in s.ws.workers && u.ws.workers[w].running == s.ws.workers[w].running;
    }
  }

  lemma OtherOwned(s: State, a: Action)
    requires OwnedInv(s) && Enabled(s, a) && !a.Tick? && !a.Handler?
    ensures OwnedInv(Apply(s, a))
  {
    var u := Apply(s, a);
    forall w, id | CanAnswer(u, w) && ActiveOn(u, id, w)
      ensures id in Sent(u, w) || Sending(u, w, id)
    {
      assert CanAnswer(s, w) && ActiveOn(s, id, w);
      assert Sending(s, w, id) ==> Sending(u, w, id);
    }
  }

  lemma StepCapacity(s: State, a: Action)
    requires CapacityInv(s) && Enabled(s, a) && OrderlyStep(s, a)
    ensures CapacityInv(Apply(s, a))
  {
    StepTasks(s, a);
    StepStrand(s, a);
    if a.Tick? {
      TickStep(s, a.t, a.ta);
    } else if a.Handler? {
      HandlerStep(s, a.w, a.ha);
    } else {
      OtherLoad(s, a);
      OtherSent(s, a);
      OtherOwned(s, a);
    }
  }

  lemma TickStep(s: State, t: TickId, a: TickAction)
    requires CapacityInv(s) && TickEnabled(s, t, a) && (a.Begin? ==> s.ticks == map[])
    ensures var u := ApplyTick(s, t, a); LoadInv(u) && SentInv(u) && OwnedInv(u)
  {
    StepTasks(s, Tick(t, a));
    TickLoad(s, t, a);
    TickSent(s, t, a);
    TickOwned(s, t, a);
  }

  lemma HandlerStep(s: State, v: Uuid, a: HandlerAction)
    requires CapacityInv(s) && HandlerEnabled(s, v, a) && HandlerOrderly(s, v, a)
    ensures var u := ApplyHandler(s, v, a); LoadInv(u) && SentInv(u) && OwnedInv(u)
  {
    StepTasks(s, Handler(v, a));
    assert Books(s, v);
    HandlerLoad(s, v, a);
    HandlerSent(s, v, a);
    HandlerOwned(s, v, a);
  }

  lemma {:induction false} RunCapacity(ss: seq<State>, acts: seq<Action>, i: nat)
    requires IsRun(ss, acts) && Orderly(ss, acts) && i < |ss|
    ensures CapacityInv(ss[i])
  {
    if i > 0 {
      RunCapacity(ss, acts, i - 1);
      assert StepAt(ss, acts, i - 1) && OrderlyStep(ss[i - 1], acts[i - 1]);
      StepCapacity(ss[i - 1], acts[i - 1]);
    }
  }

  // ---- Counting ----

  function ActiveTasks(s: State, w: Uuid): set<TaskId> {
    set id | id in s.tasks.tasks && ActiveOn(s, id, w)
  }

  lemma {:induction false} SetInMultiset(a: set<TaskId>, m: multiset<TaskId>)
    requires forall x | x in a :: x in m
    ensures |a| <= |m|
    decreases |a|
  {
    if a != {} {
      var x :| x in a;
      SetInMultiset(a - {x}, m - multiset{x});
    }
  }

  /** A pass is between picking the worker's task and counting it. */
  ghost predicate InFlight(s: State, w: Uuid) {
    exists t :: t in s.ticks && (Unsent(s.ticks[t], w) || (s.ticks[t].AtIncrement? && s.ticks[t].w == w))
  }

  /** While a pass holds a task for the worker, the worker owes at least all its other active tasks. */
  lemma ActiveWhileSending(s: State, w: Uuid, t: TickId)
    requires CapacityInv(s) && CanAnswer(s, w) && t in s.ticks && Unsent(s.ticks[t], w)
    ensures w in s.ws.workers && InFlight(s, w)
    ensures |ActiveTasks(s, w)| <= s.ws.workers[w].running + 1 <= Limit(s.ws.workers[w])
  {
    var active := ActiveTasks(s, w);
    var id := s.ticks[t].id;
    assert Books(s, w) && PassInv(s, s.ticks[t]) && !Counting(s, w);
    forall x | x in active - {id} ensures x in Sent(s, w) {
      assert ActiveOn(s, x, w);
    }
    SetInMultiset(active - {id}, Sent(s, w));
    SubsetNotLarger(active, (active - {id}) + {id});
  }

  lemma ActiveOtherwise(s: State, w: Uuid)
    requires CapacityInv(s) && CanAnswer(s, w) && forall t | t in s.ticks :: !Unsent(s.ticks[t], w)
    ensures w in s.ws.workers
    ensures var load := s.ws.workers[w].running + (if InFlight(s, w) then 1 else 0);
      |ActiveTasks(s, w)| <= load <= Limit(s.ws.workers[w])
  {
    assert Books(s, w);
    forall x | x in ActiveTasks(s, w) ensures x in Sent(s, w) {
      assert ActiveOn(s, x, w);
    }
    SetInMultiset(ActiveTasks(s, w), Sent(s, w));
    if t :| t in s.ticks && s.ticks[t].AtIncrement? && s.ticks[t].w == w {
      assert PassInv(s, s.ticks[t]);
    } else {
      assert !InFlight(s, w) && !Counting(s, w);
    }
  }

  /**
   For a worker that has not given its tasks back: its active tasks, its counter, and its limit, in
   that order; a pass in the middle of a dispatch to the worker counts for one.
   */
  lemma CapacityHolds(ss: seq<State>, acts: seq<Action>, i: nat, w: Uuid)
    requires IsRun(ss, acts) && Orderly(ss, acts) && i < |ss|
    requires CanAnswer(ss[i], w)
    ensures w in ss[i].ws.workers
    ensures var load := ss[i].ws.workers[w].running + (if InFlight(ss[i], w) then 1 else 0);
      |ActiveTasks(ss[i], w)| <= load <= Limit(ss[i].ws.workers[w])
  {
    RunCapacity(ss, acts, i);
    if t :| t in ss[i].ticks && Unsent(ss[i].ticks[t], w) {
      ActiveWhileSending(ss[i], w, t);
    } else {
      ActiveOtherwise(ss[i], w);
    }
  }
}
