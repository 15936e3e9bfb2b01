/** How far the load of a worker of the v1 master can pass its limit when passes overlap. */
module Overlap {
  import opened Common
  import opened TaskStore
  import opened WorkerStore
  import opened Scheduler
  import opened SchedulerRuns

  /** The passes that may still raise the load of the worker: it is in their snapshot or in hand. */
  function Adders(s: State, w: Uuid): set<TickId> {
    set t | t in s.ticks && (w in s.ticks[t].idle || (!s.ticks[t].AtTop? && s.ticks[t].w == w))
  }

  /** A pass has each worker of its snapshot once, and not the one in hand. */
  ghost predicate IsSnapshot(pc: TickPc) {
    NoDuplicates(pc.idle) && (!pc.AtTop? ==> pc.w !in pc.idle)
  }

  ghost predicate SnapshotInv(s: State) {
    forall t | t in s.ticks :: IsSnapshot(s.ticks[t])
  }

  predicate Bounded(s: State, w: Uuid, p: nat) {
    w in s.ws.workers ==> s.ws.workers[w].running + |Adders(s, w)| <= Limit(s.ws.workers[w]) - 1 + p
  }

  ghost predicate OverlapInv(s: State, p: nat) {
    SnapshotInv(s) && forall w :: Bounded(s, w, p)
  }

  lemma AddersAreTicks(s: State, w: Uuid)
    ensures |Adders(s, w)| <= |s.ticks|
  {
    SubsetNotLarger(Adders(s, w), s.ticks.Keys);
  }

  lemma TickSnapshot(s: State, t: TickId, a: TickAction)
    requires SnapshotInv(s) && TickEnabled(s, t, a)
    ensures SnapshotInv(ApplyTick(s, t, a))
  {
    var u := ApplyTick(s, t, a);
    forall r | r in u.ticks ensures IsSnapshot(u.ticks[r]) {
      if r != t {
        assert r in s.ticks && u.ticks[r] == s.ticks[r];
      } else if t in s.ticks {
        assert IsSnapshot(s.ticks[t]);
      }
    }
  }

  /** What one step of a pass does to the passes that may raise the load of `w`. */
  lemma TickAdders(s: State, t: TickId, a: TickAction, w: Uuid)
    requires SnapshotInv(s) && TickEnabled(s, t, a)
    ensures var before, after := Adders(s, w), Adders(ApplyTick(s, t, a), w);
      && after <= before + (if a.Begin? && w in a.idle then {t} else {})
      && (a == Count && s.ticks[t].w == w ==> t in before && after <= before - {t})
  {
    if t in s.ticks {
      assert IsSnapshot(s.ticks[t]);
    }
    match a
    case Begin(idle) =>
    case Look =>
      var idle := s.ticks[t].idle;
      if idle != [] {
        assert idle[0] in idle && forall v | v in idle[1..] :: v in idle;
      }
    case _ =>
  }

  lemma TickBounded(s: State, t: TickId, a: TickAction, w: Uuid, p: nat)
    requires SnapshotInv(s) && Bounded(s, w, p) && TickEnabled(s, t, a) && |ApplyTick(s, t, a).ticks| <= p
    ensures Bounded(ApplyTick(s, t, a), w, p)
  {
    var u := ApplyTick(s, t, a);
    var before, after := Adders(s, w), Adders(u, w);
    TickAdders(s, t, a, w);
    if a.Begin? && w in a.idle {
      assert w in Idle(s.ws);
      AddersAreTicks(u, w);
      assert u.ws == s.ws;
    } else if a == Count && s.ticks[t].w == w {
      SubsetNotLarger(after, before - {t});
      assert |before - {t}| == |before| - 1;
    } else {
      SubsetNotLarger(after, before);
      OtherLoads(s, t, a, w);
    }
  }

  lemma OtherLoads(s: State, t: TickId, a: TickAction, w: Uuid)
    requires TickEnabled(s, t, a) && !(a == Count && s.ticks[t].w == w)
    ensures var u := ApplyTick(s, t, a);
      (w in u.ws.workers <==> w in s.ws.workers) && (w in s.ws.workers ==> u.ws.workers[w] == s.ws.workers[w])
  {
    match a
    case Begin(idle) =>
    case Look =>
    case _ =>
  }

  /** A handler never raises a load, and it changes a limit only together with a load of zero. */
  lemma HandlerLoads(s: State, v: Uuid, a: HandlerAction, w: Uuid)
    requires HandlerEnabled(s, v, a) && w in ApplyHandler(s, v, a).ws.workers
    ensures var after := ApplyHandler(s, v, a).ws.workers[w];
      || after.running == 0
      || (w in s.ws.workers && after.running <= s.ws.workers[w].running && Limit(after) == Limit(s.ws.workers[w]))
  {
    if w == v {
      match a
      case RegisterStep(c, maxTasks) =>
      case CountDown =>
      case DisconnectStep =>
      case ResetStep =>
      case _ =>
    }
  }

  lemma HandlerBounded(s: State, v: Uuid, a: HandlerAction, w: Uuid, p: nat)
    requires Bounded(s, w, p) && HandlerEnabled(s, v, a) && |s.ticks| <= p
    ensures Bounded(ApplyHandler(s, v, a), w, p)
  {
    var u := ApplyHandler(s, v, a);
    assert u.ticks == s.ticks && Adders(u, w) == Adders(s, w);
    AddersAreTicks(s, w);
    if w in u.ws.workers {
      HandlerLoads(s, v, a, w);
    }
  }

  lemma StepOverlap(s: State, a: Action, p: nat)
    requires OverlapInv(s, p) && Enabled(s, a) && |s.ticks| <= p && |Apply(s, a).ticks| <= p
    ensures OverlapInv(Apply(s, a), p)
  {
    var u := Apply(s, a);
    match a
    case Tick(t, ta) =>
      TickSnapshot(s, t, ta);
      forall w ensures Bounded(u, w, p) {
        TickBounded(s, t, ta, w, p);
      }
    case Handler(v, ha) =>
      assert u.ticks == s.ticks;
      forall w ensures Bounded(u, w, p) {
        HandlerBounded(s, v, ha, w, p);
      }
    case _ =>
      assert u.ticks == s.ticks;
      forall w ensures Bounded(u, w, p) {
        assert Bounded(s, w, p) && Adders(u, w) == Adders(s, w);
      }
  }

  lemma {:induction false} RunOverlap(ss: seq<State>, acts: seq<Action>, p: nat, i: nat)
    requires IsRun(ss, acts) && AtMostPasses(ss, p) && i < |ss|
    ensures OverlapInv(ss[i], p)
  {
    if i > 0 {
      RunOverlap(ss, acts, p, i - 1);
      assert StepAt(ss, acts, i - 1);
      StepOverlap(ss[i - 1], acts[i - 1], p);
    }
  }

  /**
   With at most `p` passes under way at any time, whatever workers report and whenever they register,
   the load of a worker passes its limit by at most `p - 1`.
   */
  lemma OverlapBound(ss: seq<State>, acts: seq<Action>, p: nat, i: nat, w: Uuid)
    requires IsRun(ss, acts) && AtMostPasses(ss, p) && p > 0 && i < |ss| && w in ss[i].ws.workers
    ensures ss[i].ws.workers[w].running <= Limit(ss[i].ws.workers[w]) + p - 1
  {
    RunOverlap(ss, acts, p, i);
    assert Bounded(ss[i], w, p);
  }

  // ---- The bound is met ----

  const W: Uuid := "w"

  /** The tasks under way that are assigned to the worker. */
  function HeldBy(t: Tasks, w: Uuid): set<TaskId> {
    set id | id in t.tasks && Active(t.tasks[id]) && t.tasks[id].assignedTo == w
  }

  /** One worker that can hold `limit` tasks, with `load` of them assigned and counted. */
  ghost predicate OneWorker(s: State, limit: nat, load: nat) {
    && limit > 0 && |HeldBy(s.tasks, W)| == load
    && s.ws == Workers(map[W := Worker(true, load, Some(limit))], map[W := 0])
  }

  ghost predicate Queued(s: State, n: nat) {
    |s.tasks.pendingQ| == n && QueueInv(s.tasks) && AllPending(s.tasks)
  }

  /** The passes 0 to `n - 1` have begun with the worker in their snapshot, and the first `done` have used it. */
  ghost predicate PassesAt(ticks: map<TickId, TickPc>, n: nat, done: nat) {
    && |ticks| == n
    && (forall t: nat :: t in ticks <==> t < n)
    && forall t: nat | t in ticks :: ticks[t] == AtTop(if t < done then [] else [W])
  }

  lemma OneMoreBegun(ticks: map<TickId, TickPc>, n: nat)
    requires PassesAt(ticks, n, 0)
    ensures PassesAt(ticks[n := AtTop([W])], n + 1, 0)
  {
    assert ticks[n := AtTop([W])].Keys == ticks.Keys + {n};
  }

  lemma OneMoreDone(ticks: map<TickId, TickPc>, n: nat, done: nat)
    requires PassesAt(ticks, n, done) && done < n
    ensures PassesAt(ticks[done := AtTop([])], n, done + 1)
  {
    SameCount(ticks, done, AtTop([]));
  }

  lemma ReachWorker(limit: nat, p: nat) returns (s: State)
    requires limit > 0
    ensures Reachable(s, p) && OneWorker(s, limit, 0) && s.ticks == map[] && s.tasks == Tasks(map[], [])
  {
    var s0 := ReachStart(p);
    s := ReachServing(s0, W, 0, Some(limit), p);
  }

  /** Any number of tasks can wait. */
  lemma {:induction false} ReachQueue(limit: nat, p: nat, n: nat) returns (s: State)
    requires limit > 0
    ensures Reachable(s, p) && OneWorker(s, limit, 0) && s.ticks == map[] && Queued(s, n)
    ensures forall id | id in s.tasks.tasks :: id < n
  {
    if n == 0 {
      s := ReachWorker(limit, p);
    } else {
      var s1 := ReachQueue(limit, p, n - 1);
      CreateKeeps(s1.tasks, n - 1);
      s := Reach(s1, CreateTask(n - 1), p);
      assert HeldBy(s.tasks, W) == HeldBy(s1.tasks, W);
    }
  }

  /** Assigning the head of a clean queue leaves a clean queue that is one shorter. */
  lemma HeadAssigned(s: Tasks, w: Uuid)
    requires QueueInv(s) && AllPending(s) && s.pendingQ != []
    ensures var id := s.pendingQ[0]; var t := Assign(s, id, w);
      && GetPending(s) == Some(id) && CanAssign(s, id)
      && |t.pendingQ| == |s.pendingQ| - 1 && QueueInv(t) && AllPending(t)
      && |HeldBy(t, w)| == |HeldBy(s, w)| + 1
  {
    var id := s.pendingQ[0];
    assert HeldBy(Assign(s, id, w), w) == HeldBy(s, w) + {id} && id !in HeldBy(s, w);
    assert s.pendingQ[0] in s.pendingQ;
    AssignKeeps(s, s.pendingQ[0], w);
    RemoveFirstExact(s.pendingQ, s.pendingQ[0]);
  }

  /** A pass gives the worker of its snapshot the task at the head of the queue. */
  lemma ReachLoad(s: State, t: TickId, limit: nat, load: nat, n: nat, p: nat) returns (u: State)
    requires Reachable(s, p) && OneWorker(s, limit, load) && Queued(s, n) && n > 0
    requires t in s.ticks && s.ticks[t] == AtTop([W])
    ensures Reachable(u, p) && OneWorker(u, limit, load + 1) && Queued(u, n - 1)
    ensures u.ticks == s.ticks[t := AtTop([])]
  {
    HeadAssigned(s.tasks, W);
    u := ReachOffered(s, t, W, s.tasks.pendingQ[0], p);
  }

  lemma OnlyIdle(s: State, limit: nat, load: nat)
    requires OneWorker(s, limit, load) && load < limit
    ensures Idle(s.ws) == {W}
  {
  }

  /** One pass after the other loads the worker up to its limit. */
  lemma {:induction false} ReachLoaded(limit: nat, load: nat, n: nat, p: nat) returns (s: State)
    requires load <= limit && limit > 0 && p > 0
    ensures Reachable(s, p) && OneWorker(s, limit, load) && s.ticks == map[] && Queued(s, n)
    decreases load
  {
    if load == 0 {
      s := ReachQueue(limit, p, n);
    } else {
      var s1 := ReachLoaded(limit, load - 1, n + 1, p);
      OnlyIdle(s1, limit, load - 1);
      HeadAssigned(s1.tasks, W);
      s := ReachDispatched(s1, W, s1.tasks.pendingQ[0], p);
    }
  }

  /** `n` passes take their snapshots while the worker still has room for one task. */
  lemma {:induction false} ReachBegun(limit: nat, n: nat, p: nat) returns (s: State)
    requires limit > 0 && n <= p && p > 0
    ensures Reachable(s, p) && OneWorker(s, limit, limit - 1) && PassesAt(s.ticks, n, 0) && Queued(s, p)
    decreases n
  {
    if n == 0 {
      s := ReachLoaded(limit, limit - 1, p, p);
    } else {
      var s1 := ReachBegun(limit, n - 1, p);
      OnlyIdle(s1, limit, limit - 1);
      OneMoreBegun(s1.ticks, n - 1);
      s := ReachBegin(s1, n - 1, W, p);
    }
  }

  /** Of `p` overlapping passes `done` have added a task to a worker that was one short of its limit. */
  ghost predicate Stage(s: State, limit: nat, p: nat, done: nat) {
    && limit > 0 && done <= p && Reachable(s, p)
    && OneWorker(s, limit, limit - 1 + done)
    && PassesAt(s.ticks, p, done) && Queued(s, p - done)
  }

  lemma ReachNoneDone(limit: nat, p: nat) returns (s: State)
    requires limit > 0 && p > 0
    ensures Stage(s, limit, p, 0)
  {
    s := ReachBegun(limit, p, p);
  }

  lemma ReachOneMore(s: State, limit: nat, done: nat, p: nat) returns (u: State)
    requires Stage(s, limit, p, done) && done < p
    ensures Stage(u, limit, p, done + 1)
  {
    OneMoreDone(s.ticks, p, done);
    u := ReachLoad(s, done, limit, limit - 1 + done, p - done, p);
  }

  lemma {:induction false} ReachDone(limit: nat, done: nat, p: nat) returns (s: State)
    requires limit > 0 && done <= p && p > 0
    ensures Stage(s, limit, p, done)
    decreases done
  {
    if done == 0 {
      s := ReachNoneDone(limit, p);
    } else {
      var before: nat :| before + 1 == done;
      var s1 := ReachDone(limit, before, p);
      s := ReachOneMore(s1, limit, before, p);
    }
  }

  /** For every limit and every number of overlapping passes there is a run that meets the bound. */
  lemma OverlapBoundIsMet(limit: nat, p: nat) returns (s: State)
    requires limit > 0 && p > 0
    ensures Reachable(s, p) && W in s.ws.workers
    ensures Limit(s.ws.workers[W]) == limit && s.ws.workers[W].running == |HeldBy(s.tasks, W)| == limit + p - 1
  {
    s := ReachDone(limit, p, p);
  }
}
