/** Reaching states of the v1 master step by step, with a bound on the passes that are under way at once. */
module SchedulerRuns {
  import opened Common
  import opened TaskStore
  import opened WorkerStore
  import opened Scheduler

  /** At no time are more than `p` passes under way. */
  ghost predicate AtMostPasses(ss: seq<State>, p: nat) {
    forall k | 0 <= k < |ss| :: |ss[k].ticks| <= p
  }

  /** The last state of a run with at most `p` passes under way at any time. */
  ghost predicate Reachable(s: State, p: nat) {
    |s.ticks| <= p
    && exists ss: seq<State>, acts: seq<Action> :: IsRun(ss, acts) && AtMostPasses(ss, p) && ss[|ss| - 1] == s
  }

  lemma ReachStart(p: nat) returns (s: State)
    ensures Reachable(s, p) && Init(s)
  {
    s := State(Tasks(map[], []), Workers(map[], map[]), {}, map[], map[], map[]);
    assert IsRun([s], []) && AtMostPasses([s], p);
  }

  lemma Reach(s: State, a: Action, p: nat) returns (t: State)
    requires Reachable(s, p) && Enabled(s, a) && |Apply(s, a).ticks| <= p
    ensures Reachable(t, p) && t == Apply(s, a)
  {
    t := Apply(s, a);
    var ss: seq<State>, acts: seq<Action> :| IsRun(ss, acts) && AtMostPasses(ss, p) && ss[|ss| - 1] == s;
    var ss', acts' := ss + [t], acts + [a];
    forall i: nat | i < |acts'| ensures StepAt(ss', acts', i) {
      if i < |acts| {
        assert StepAt(ss, acts, i);
      }
    }
    assert IsRun(ss', acts') && AtMostPasses(ss', p);
  }

  /** A worker connects and registers. */
  lemma ReachServing(s: State, w: Uuid, c: ConnId, maxTasks: Option<int>, p: nat) returns (t: State)
    requires Reachable(s, p) && s.handlers == map[] && c !in s.closed
    ensures Reachable(t, p)
    ensures t == s.(ws := SetConn(Register(s.ws, w, maxTasks), w, c), handlers := map[w := Serving(c)])
  {
    var s1 := Reach(s, Handler(w, RegisterStep(c, maxTasks)), p);
    assert s1.handlers == map[w := Registered(c)];
    t := Reach(s1, Handler(w, SetConnStep), p);
    assert t.handlers == map[w := Serving(c)];
  }

  lemma SameCount(ticks: map<TickId, TickPc>, t: TickId, pc: TickPc)
    requires t in ticks
    ensures |ticks[t := pc]| == |ticks|
  {
    assert ticks[t := pc].Keys == ticks.Keys;
  }

  /** A pass begins while only `w` is idle. */
  lemma ReachBegin(s: State, t: TickId, w: Uuid, p: nat) returns (u: State)
    requires Reachable(s, p) && Idle(s.ws) == {w} && t !in s.ticks && |s.ticks| < p
    ensures Reachable(u, p) && u == s.(ticks := s.ticks[t := AtTop([w])])
  {
    assert IsOrderOf([w], Idle(s.ws));
    assert s.ticks[t := AtTop([w])].Keys == s.ticks.Keys + {t};
    u := Reach(s, Tick(t, Begin([w])), p);
  }

  /** It assigns the task at the head of the queue to that worker. */
  lemma ReachAssigned(s: State, t: TickId, w: Uuid, id: TaskId, p: nat) returns (u: State)
    requires Reachable(s, p) && t in s.ticks && s.ticks[t] == AtTop([w])
    requires GetPending(s.tasks) == Some(id) && CanAssign(s.tasks, id)
    ensures Reachable(u, p)
    ensures u == s.(tasks := Assign(s.tasks, id, w), ticks := s.ticks[t := AtGetConn(id, w, [])])
  {
    assert [w][1..] == [];
    SameCount(s.ticks, t, AtAssign(id, w, []));
    var s1 := Reach(s, Tick(t, Look), p);
    SameCount(s1.ticks, t, AtGetConn(id, w, []));
    u := Reach(s1, Tick(t, AssignStep), p);
    assert u.ticks == s.ticks[t := AtGetConn(id, w, [])];
  }

  /** It sends the task, and the send succeeds. */
  lemma ReachSent(s: State, t: TickId, w: Uuid, id: TaskId, p: nat) returns (u: State)
    requires Reachable(s, p) && t in s.ticks && s.ticks[t] == AtGetConn(id, w, []) && w in s.ws.conns
    ensures Reachable(u, p)
    ensures u == s.(ws := Increment(s.ws, w), ticks := s.ticks[t := AtTop([])],
                    sent := if CanAnswer(s, w) then s.sent[w := Sent(s, w) + multiset{id}] else s.sent)
  {
    SameCount(s.ticks, t, AtWrite(id, w, s.ws.conns[w], []));
    var s1 := Reach(s, Tick(t, GetConn), p);
    SameCount(s1.ticks, t, AtIncrement(id, w, []));
    var s2 := Reach(s1, Tick(t, Write(true)), p);
    SameCount(s2.ticks, t, AtTop([]));
    u := Reach(s2, Tick(t, Count), p);
    assert u.ticks == s.ticks[t := AtTop([])];
  }

  lemma ReachOffered(s: State, t: TickId, w: Uuid, id: TaskId, p: nat) returns (u: State)
    requires Reachable(s, p) && t in s.ticks && s.ticks[t] == AtTop([w]) && w in s.ws.conns
    requires GetPending(s.tasks) == Some(id) && CanAssign(s.tasks, id)
    ensures Reachable(u, p)
    ensures u == s.(tasks := Assign(s.tasks, id, w), ws := Increment(s.ws, w), ticks := s.ticks[t := AtTop([])],
                    sent := if CanAnswer(s, w) then s.sent[w := Sent(s, w) + multiset{id}] else s.sent)
  {
    var s1 := ReachAssigned(s, t, w, id, p);
    u := ReachSent(s1, t, w, id, p);
    assert u.ticks == s.ticks[t := AtTop([])];
  }

  /** A whole pass in which the task at the head of the queue goes to the only idle worker. */
  lemma ReachDispatched(s: State, w: Uuid, id: TaskId, p: nat) returns (t: State)
    requires Reachable(s, p) && p > 0 && s.ticks == map[] && Idle(s.ws) == {w} && w in s.ws.conns
    requires GetPending(s.tasks) == Some(id) && CanAssign(s.tasks, id)
    ensures Reachable(t, p)
    ensures t == s.(tasks := Assign(s.tasks, id, w), ws := Increment(s.ws, w),
                    sent := if CanAnswer(s, w) then s.sent[w := Sent(s, w) + multiset{id}] else s.sent)
  {
    var s1 := ReachBegin(s, 0, w, p);
    assert s1.ticks == map[0 := AtTop([w])];
    var s2 := ReachOffered(s1, 0, w, id, p);
    assert s2.ticks == map[0 := AtTop([])];
    t := Reach(s2, Tick(0, Look), p);
    assert t.ticks == map[];
  }
}
