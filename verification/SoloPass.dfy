/** A pass of the concurrent v1 master that nothing interrupts does what the sequential pass does. */
module SoloPass {
  import opened Common
  import opened TaskStore
  import opened WorkerStore
  import opened Scheduler
  import Sequential = Tick

  /** The one action that a pass can take next; `accepting` are the workers whose sockets take a message. */
  function Next(pc: TickPc, accepting: set<Uuid>): TickAction {
    match pc
    case AtTop(_) => Look
    case AtAssign(_, _, _) => AssignStep
    case AtGetConn(_, _, _) => GetConn
    case AtWrite(_, w, _, _) => Write(w in accepting)
    case AtReassign(_, _, _) => TakeBack
    case AtIncrement(_, _, _) => Count
  }

  /** How far a pass is from its end. */
  function Left(pc: TickPc): nat {
    5 * |pc.idle| +
    match pc
    case AtTop(_) => 1
    case AtAssign(_, _, _) => 5
    case AtGetConn(_, _, _) => 4
    case AtWrite(_, _, _, _) => 3
    case _ => 2
  }

  /** The pass goes on alone to its end. */
  ghost function Alone(s: State, t: TickId, accepting: set<Uuid>): State
    decreases if t in s.ticks then Left(s.ticks[t]) else 0
  {
    if t !in s.ticks then s else Alone(ApplyTick(s, t, Next(s.ticks[t], accepting)), t, accepting)
  }

  /** The workers to which a send reports success. */
  function Sendable(s: State, accepting: set<Uuid>): set<Uuid> {
    set w | w in s.ws.conns && (s.ws.conns[w] in s.closed || w in accepting)
  }

  lemma {:induction false} BumpedFirst(ws: Workers<ConnId>, first: (TaskId, Uuid), rest: seq<(TaskId, Uuid)>)
    ensures Sequential.Bumped(ws, [first] + rest) == Sequential.Bumped(Increment(ws, first.1), rest)
    decreases |rest|
  {
    var sent := [first] + rest;
    if rest == [] {
      assert sent[..0] == [];
    } else {
      assert sent[..|sent| - 1] == [first] + rest[..|rest| - 1];
      BumpedFirst(ws, first, rest[..|rest| - 1]);
    }
  }

  /** The pass at its top with a task to offer and a worker left. */
  ghost predicate Offering(s: State, t: TickId) {
    t in s.ticks && s.ticks[t].AtTop? && GetPending(s.tasks).Some? && s.ticks[t].idle != []
  }

  /** The state after one round, up to what was sent to workers. */
  ghost predicate AfterRound(s: State, u: State, t: TickId, tasks: Tasks, ws: Workers<ConnId>)
    requires Offering(s, t)
  {
    && u.tasks == tasks && u.ws == ws && u.closed == s.closed && u.handlers == s.handlers
    && u.ticks == s.ticks[t := AtTop(s.ticks[t].idle[1..])]
  }

  /** A task that cannot be assigned costs the pass a worker. */
  lemma SkipRound(s: State, t: TickId, accepting: set<Uuid>) returns (u: State)
    requires Offering(s, t) && !CanAssign(s.tasks, GetPending(s.tasks).value)
    ensures AfterRound(s, u, t, s.tasks, s.ws) && Alone(s, t, accepting) == Alone(u, t, accepting)
  {
    var s1 := ApplyTick(s, t, Look);
    u := ApplyTick(s1, t, AssignStep);
    assert Alone(s, t, accepting) == Alone(s1, t, accepting) == Alone(u, t, accepting);
  }

  lemma AssignHalf(s: State, t: TickId, accepting: set<Uuid>) returns (u: State)
    requires Offering(s, t) && CanAssign(s.tasks, GetPending(s.tasks).value)
    ensures var id, idle := GetPending(s.tasks).value, s.ticks[t].idle;
      u == s.(tasks := Assign(s.tasks, id, idle[0]), ticks := s.ticks[t := AtGetConn(id, idle[0], idle[1..])])
    ensures Alone(s, t, accepting) == Alone(u, t, accepting)
  {
    var s1 := ApplyTick(s, t, Look);
    u := ApplyTick(s1, t, AssignStep);
    assert Alone(s, t, accepting) == Alone(s1, t, accepting) == Alone(u, t, accepting);
  }

  lemma SendHalf(s: State, t: TickId, accepting: set<Uuid>) returns (u: State)
    requires t in s.ticks && s.ticks[t].AtGetConn? && s.ticks[t].w in Sendable(s, accepting)
    ensures Alone(s, t, accepting) == Alone(u, t, accepting)
    ensures u == s.(ws := Increment(s.ws, s.ticks[t].w), ticks := s.ticks[t := AtTop(s.ticks[t].idle)], sent := u.sent)
  {
    var s1 := ApplyTick(s, t, GetConn);
    var s2 := ApplyTick(s1, t, Next(s1.ticks[t], accepting));
    u := ApplyTick(s2, t, Count);
    assert Alone(s, t, accepting) == Alone(s1, t, accepting) == Alone(s2, t, accepting) == Alone(u, t, accepting);
  }

  lemma FailHalf(s: State, t: TickId, accepting: set<Uuid>) returns (u: State)
    requires t in s.ticks && s.ticks[t].AtGetConn? && s.ticks[t].w !in Sendable(s, accepting)
    ensures Alone(s, t, accepting) == Alone(u, t, accepting)
    ensures u == s.(tasks := Reassign(s.tasks, s.ticks[t].id), ticks := s.ticks[t := AtTop(s.ticks[t].idle)])
  {
    var s1 := ApplyTick(s, t, GetConn);
    var s2 := s1;
    if s.ticks[t].w in s.ws.conns {
      s2 := ApplyTick(s1, t, Next(s1.ticks[t], accepting));
    }
    u := ApplyTick(s2, t, TakeBack);
    assert Alone(s, t, accepting) == Alone(s1, t, accepting) == Alone(s2, t, accepting) == Alone(u, t, accepting);
  }

  /** So a pass that is not interrupted assigns, sends and counts as the sequential pass does. */
  lemma {:induction false} AloneIsPass(s: State, t: TickId, accepting: set<Uuid>)
    requires t in s.ticks && s.ticks[t].AtTop?
    ensures var u := Alone(s, t, accepting);
      var r := Sequential.Pass(s.tasks, s.ticks[t].idle, Sendable(s, accepting));
      && u.tasks == r.tasks && u.ws == Sequential.Bumped(s.ws, r.sent)
      && u.ticks == s.ticks - {t} && u.closed == s.closed && u.handlers == s.handlers
    decreases |s.ticks[t].idle|
  {
    var idle := s.ticks[t].idle;
    if !Offering(s, t) {
      assert ApplyTick(s, t, Look).ticks == s.ticks - {t};
    } else if !CanAssign(s.tasks, GetPending(s.tasks).value) {
      var u := SkipRound(s, t, accepting);
      AloneIsPass(u, t, accepting);
      assert Sendable(u, accepting) == Sendable(s, accepting) && u.ticks - {t} == s.ticks - {t};
    } else {
      var u := AssignHalf(s, t, accepting);
      if idle[0] in Sendable(u, accepting) {
        var v := SendHalf(u, t, accepting);
        AloneIsPass(v, t, accepting);
        assert Sendable(v, accepting) == Sendable(s, accepting) && v.ticks - {t} == s.ticks - {t};
        BumpedFirst(s.ws, (GetPending(s.tasks).value, idle[0]),
                    Sequential.Pass(v.tasks, idle[1..], Sendable(s, accepting)).sent);
      } else {
        var v := FailHalf(u, t, accepting);
        AloneIsPass(v, t, accepting);
        assert Sendable(v, accepting) == Sendable(s, accepting) && v.ticks - {t} == s.ticks - {t};
      }
    }
  }
}
