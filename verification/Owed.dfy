/** Who holds a task of the v1 master: when a worker still works on a task that is no longer its own. */
module Owed {
  import opened Common
  import opened TaskStore
  import opened WorkerStore
  import opened Scheduler
  import opened SchedulerProofs
  import opened SchedulerRuns

  /** What a worker was sent and has not answered is assigned to it, or has ended. */
  predicate IsSettled(s: State, id: TaskId, v: Uuid) {
    id in s.tasks.tasks && (Terminal(s.tasks.tasks[id]) || ActiveOn(s, id, v))
  }

  ghost predicate OwedByOwner(s: State) {
    forall v, id :: id in Sent(s, v) ==> IsSettled(s, id, v)
  }

  /** A send to a worker that the task is no longer assigned to; the pass does not look again before it sends. */
  predicate StaleWrite(s: State, a: Action) {
    && a.Tick? && a.ta.Write? && a.t in s.ticks && s.ticks[a.t].AtWrite?
    && (s.ticks[a.t].c in s.closed || a.ta.accepted)
    && CanAnswer(s, s.ticks[a.t].w)
    && !IsSettled(s, s.ticks[a.t].id, s.ticks[a.t].w)
  }

  /** A pass takes a task back that its present owner was sent; `ReassignTask` does not look at the owner. */
  predicate TakesSent(s: State, a: Action) {
    && a.Tick? && a.ta.TakeBack? && a.t in s.ticks && s.ticks[a.t].AtReassign?
    && var id := s.ticks[a.t].id;
    && id in s.tasks.tasks && Active(s.tasks.tasks[id]) && id in Sent(s, s.tasks.tasks[id].assignedTo)
  }

  /** What one step of a pass does to a task that some worker was sent. */
  lemma TickKeepsSettled(s: State, t: TickId, a: TickAction, id: TaskId, v: Uuid)
    requires TickEnabled(s, t, a) && IsSettled(s, id, v) && id in Sent(s, v) && !TakesSent(s, Tick(t, a))
    ensures IsSettled(ApplyTick(s, t, a), id, v)
  {
    match a
    case Begin(idle) =>
    case Look =>
    case AssignStep =>
    case TakeBack =>
    case _ =>
  }

  lemma TickSends(s: State, t: TickId, a: TickAction, id: TaskId, v: Uuid)
    requires TickEnabled(s, t, a) && id in Sent(ApplyTick(s, t, a), v) && id !in Sent(s, v)
    ensures a.Write? && s.ticks[t].AtWrite? && s.ticks[t].id == id && s.ticks[t].w == v
    ensures CanAnswer(s, v) && (s.ticks[t].c in s.closed || a.accepted)
    ensures ApplyTick(s, t, a).tasks == s.tasks
  {
    match a
    case Begin(idle) =>
    case Look =>
    case _ =>
  }

  lemma TickOwed(s: State, t: TickId, a: TickAction)
    requires OwedByOwner(s) && TickEnabled(s, t, a)
    requires !StaleWrite(s, Tick(t, a)) && !TakesSent(s, Tick(t, a))
    ensures OwedByOwner(ApplyTick(s, t, a))
  {
    var u := ApplyTick(s, t, a);
    forall v, id | id in Sent(u, v) ensures IsSettled(u, id, v) {
      if id in Sent(s, v) {
        TickKeepsSettled(s, t, a, id, v);
      } else {
        TickSends(s, t, a, id, v);
      }
    }
  }

  /** A handler only ever shortens what a worker owes, and gives back no task of another worker. */
  lemma HandlerSentShrinks(s: State, v: Uuid, a: HandlerAction, w: Uuid, id: TaskId)
    requires HandlerEnabled(s, v, a) && id in Sent(ApplyHandler(s, v, a), w)
    ensures id in Sent(s, w) && !(a.ReassignStep? && w == v)
  {
  }

  lemma HandlerKeepsSettled(s: State, v: Uuid, a: HandlerAction, w: Uuid, id: TaskId)
    requires HandlerEnabled(s, v, a) && IsSettled(s, id, w) && !(a.ReassignStep? && w == v)
    ensures IsSettled(ApplyHandler(s, v, a), id, w)
  {
    match a
    case Report(j, completed, hits) =>
    case ReassignStep(order, recent) => assert id !in order;
    case _ =>
  }

  lemma HandlerOwed(s: State, v: Uuid, a: HandlerAction)
    requires OwedByOwner(s) && HandlerEnabled(s, v, a)
    ensures OwedByOwner(ApplyHandler(s, v, a))
  {
    var u := ApplyHandler(s, v, a);
    forall w, id | id in Sent(u, w) ensures IsSettled(u, id, w) {
      HandlerSentShrinks(s, v, a, w, id);
      HandlerKeepsSettled(s, v, a, w, id);
    }
  }

  lemma StepOwed(s: State, a: Action)
    requires OwedByOwner(s) && Enabled(s, a) && !StaleWrite(s, a) && !TakesSent(s, a)
    ensures OwedByOwner(Apply(s, a))
  {
    match a
    case Tick(t, ta) => TickOwed(s, t, ta);
    case Handler(v, ha) => HandlerOwed(s, v, ha);
    case _ =>
      var u := Apply(s, a);
      forall v, id | id in Sent(u, v) ensures IsSettled(u, id, v) {
        assert id in Sent(s, v) && IsSettled(s, id, v);
      }
  }

  lemma StepBreaks(s: State, a: Action)
    requires Enabled(s, a) && (StaleWrite(s, a) || TakesSent(s, a))
    ensures !OwedByOwner(Apply(s, a))
  {
    var u := Apply(s, a);
    var id := s.ticks[a.t].id;
    if StaleWrite(s, a) {
      assert id in Sent(u, s.ticks[a.t].w) && !IsSettled(u, id, s.ticks[a.t].w);
    } else {
      var v := s.tasks.tasks[id].assignedTo;
      assert id in Sent(u, v) && !IsSettled(u, id, v);
    }
  }

  lemma {:induction false} NoBreakOwed(ss: seq<State>, acts: seq<Action>, j: nat)
    requires IsRun(ss, acts) && j < |ss|
    requires forall m | 0 <= m < j :: !StaleWrite(ss[m], acts[m]) && !TakesSent(ss[m], acts[m])
    ensures OwedByOwner(ss[j])
  {
    if j > 0 {
      NoBreakOwed(ss, acts, j - 1);
      assert StepAt(ss, acts, j - 1);
      StepOwed(ss[j - 1], acts[j - 1]);
    }
  }

  /**
   All along a run a worker works only on tasks that are its own or have ended, exactly when no pass
   sends a task that is no longer assigned to the receiver, and none takes back a task that its owner
   was sent.
   */
  lemma OwedByOwnerIff(ss: seq<State>, acts: seq<Action>, j: nat)
    requires IsRun(ss, acts) && j < |ss|
    ensures (forall k | 0 <= k <= j :: OwedByOwner(ss[k])) <==>
            (forall m | 0 <= m < j :: !StaleWrite(ss[m], acts[m]) && !TakesSent(ss[m], acts[m]))
  {
    if m :| 0 <= m < j && (StaleWrite(ss[m], acts[m]) || TakesSent(ss[m], acts[m])) {
      assert StepAt(ss, acts, m);
      StepBreaks(ss[m], acts[m]);
      assert !OwedByOwner(ss[m + 1]);
    } else {
      forall k | 0 <= k <= j ensures OwedByOwner(ss[k]) {
        NoBreakOwed(ss, acts, k);
      }
    }
  }

  /** In particular a task that is under way is owed by its owner and by nobody else. */
  lemma OneWorkerPerTask(s: State, id: TaskId, v: Uuid, w: Uuid)
    requires OwedByOwner(s) && ActiveOn(s, id, w) && id in Sent(s, v)
    ensures v == w
  {
    assert IsSettled(s, id, v);
  }

  // ---- Passes that do not overlap ----

  /** The pass has assigned a task and not yet sent it or taken it back. */
  predicate InHand(pc: TickPc) {
    pc.AtGetConn? || pc.AtWrite? || pc.AtReassign?
  }

  /** Nobody was sent the task that the only pass has in hand. */
  ghost predicate InHandInv(s: State) {
    && (forall t, r :: t in s.ticks && r in s.ticks ==> t == r)
    && (forall t, v :: t in s.ticks && InHand(s.ticks[t]) ==> s.ticks[t].id !in Sent(s, v))
  }

  lemma OneTick(ticks: map<TickId, TickPc>)
    requires |ticks| <= 1
    ensures forall t, r :: t in ticks && r in ticks ==> t == r
  {
    forall t, r | t in ticks && r in ticks ensures t == r {
      SubsetNotLarger({t, r}, ticks.Keys);
    }
  }

  /** The pass that takes the step. */
  lemma OwnInHand(s: State, t: TickId, a: TickAction, v: Uuid)
    requires InHandInv(s) && OwedByOwner(s) && TickEnabled(s, t, a)
    requires t in ApplyTick(s, t, a).ticks && InHand(ApplyTick(s, t, a).ticks[t])
    ensures ApplyTick(s, t, a).ticks[t].id !in Sent(ApplyTick(s, t, a), v)
  {
    var id := ApplyTick(s, t, a).ticks[t].id;
    if id in Sent(ApplyTick(s, t, a), v) && id !in Sent(s, v) {
      TickSends(s, t, a, id, v);
    }
  }

  lemma TickInHand(s: State, t: TickId, a: TickAction)
    requires InHandInv(s) && OwedByOwner(s) && TickEnabled(s, t, a) && |ApplyTick(s, t, a).ticks| <= 1
    ensures InHandInv(ApplyTick(s, t, a))
  {
    var u := ApplyTick(s, t, a);
    OneTick(u.ticks);
    forall r, v | r in u.ticks && InHand(u.ticks[r]) ensures u.ticks[r].id !in Sent(u, v) {
      if t in u.ticks {
        OwnInHand(s, t, a, v);
      }
    }
  }

  lemma HandlerInHand(s: State, w: Uuid, a: HandlerAction)
    requires InHandInv(s) && HandlerEnabled(s, w, a)
    ensures InHandInv(ApplyHandler(s, w, a))
  {
    var u := ApplyHandler(s, w, a);
    assert u.ticks == s.ticks;
    forall t, v | t in u.ticks && InHand(u.ticks[t]) ensures u.ticks[t].id !in Sent(u, v) {
      if u.ticks[t].id in Sent(u, v) {
        HandlerSentShrinks(s, w, a, v, u.ticks[t].id);
      }
    }
  }

  lemma StepInHand(s: State, a: Action)
    requires InHandInv(s) && OwedByOwner(s) && Enabled(s, a) && |Apply(s, a).ticks| <= 1
    ensures InHandInv(Apply(s, a))
  {
    var u := Apply(s, a);
    match a
    case Tick(t, ta) => TickInHand(s, t, ta);
    case Handler(w, ha) => HandlerInHand(s, w, ha);
    case _ => assert u.ticks == s.ticks && forall v :: Sent(u, v) == Sent(s, v);
  }

  lemma {:induction false} SerialInHand(ss: seq<State>, acts: seq<Action>, j: nat)
    requires IsRun(ss, acts) && AtMostPasses(ss, 1) && j < |ss|
    requires forall m | 0 <= m < j :: !StaleWrite(ss[m], acts[m])
    ensures OwedByOwner(ss[j]) && InHandInv(ss[j])
  {
    if j > 0 {
      SerialInHand(ss, acts, j - 1);
      assert StepAt(ss, acts, j - 1);
      StepOwed(ss[j - 1], acts[j - 1]);
      StepInHand(ss[j - 1], acts[j - 1]);
    }
  }

  /** When passes do not overlap only the missing second look before a send can break it. */
  lemma SerialOwedIff(ss: seq<State>, acts: seq<Action>, j: nat)
    requires IsRun(ss, acts) && AtMostPasses(ss, 1) && j < |ss|
    ensures (forall k | 0 <= k <= j :: OwedByOwner(ss[k])) <==>
            (forall m | 0 <= m < j :: !StaleWrite(ss[m], acts[m]))
  {
    if m :| 0 <= m < j && StaleWrite(ss[m], acts[m]) {
      OwedByOwnerIff(ss, acts, j);
    } else {
      forall k | 0 <= k <= j ensures OwedByOwner(ss[k]) {
        SerialInHand(ss, acts, k);
      }
    }
  }
}
