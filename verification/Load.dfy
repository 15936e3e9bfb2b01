/** The load counter of a worker of the v1 master, in any run: what is counted up is counted down. */
module Load {
  import opened Common
  import opened TaskStore
  import opened WorkerStore
  import opened Scheduler

  /** A pass counts a task that it has sent to the worker. */
  ghost predicate CountsUp(s: State, a: Action, w: Uuid) {
    a.Tick? && a.ta == Count && a.t in s.ticks && s.ticks[a.t].AtIncrement? && s.ticks[a.t].w == w
  }

  /** The handler of the worker counts a result, and there is something to count down. */
  ghost predicate CountsDown(s: State, a: Action, w: Uuid) {
    a == Handler(w, CountDown) && w in s.ws.workers && s.ws.workers[w].running > 0
  }

  /** The worker registers, or its disconnect sets the counter to zero. */
  predicate Resets(a: Action, w: Uuid) {
    a.Handler? && a.w == w && (a.ha.RegisterStep? || a.ha.ResetStep?)
  }

  ghost function Ups(ss: seq<State>, acts: seq<Action>, w: Uuid, i: nat, j: nat): nat
    requires i <= j < |ss| && |ss| == |acts| + 1
    decreases j
  {
    if i == j then 0 else Ups(ss, acts, w, i, j - 1) + (if CountsUp(ss[j - 1], acts[j - 1], w) then 1 else 0)
  }

  ghost function Downs(ss: seq<State>, acts: seq<Action>, w: Uuid, i: nat, j: nat): nat
    requires i <= j < |ss| && |ss| == |acts| + 1
    decreases j
  {
    if i == j then 0 else Downs(ss, acts, w, i, j - 1) + (if CountsDown(ss[j - 1], acts[j - 1], w) then 1 else 0)
  }

  lemma TickLoad(s: State, t: TickId, a: TickAction, w: Uuid)
    requires TickEnabled(s, t, a) && w in s.ws.workers
    ensures var u := ApplyTick(s, t, a);
      && w in u.ws.workers
      && u.ws.workers[w] == s.ws.workers[w].(running :=
           s.ws.workers[w].running + (if CountsUp(s, Tick(t, a), w) then 1 else 0))
  {
    match a
    case Begin(idle) =>
    case Look =>
    case _ =>
  }

  lemma HandlerLoad(s: State, v: Uuid, a: HandlerAction, w: Uuid)
    requires HandlerEnabled(s, v, a) && w in s.ws.workers && !Resets(Handler(v, a), w)
    ensures var u := ApplyHandler(s, v, a);
      && w in u.ws.workers && u.ws.workers[w].maxTasks == s.ws.workers[w].maxTasks
      && u.ws.workers[w].running == s.ws.workers[w].running - (if CountsDown(s, Handler(v, a), w) then 1 else 0)
  {
    match a
    case RegisterStep(c, maxTasks) =>
    case CountDown =>
    case DisconnectStep =>
    case ResetStep =>
    case _ =>
  }

  lemma StepLoad(s: State, a: Action, w: Uuid)
    requires Enabled(s, a) && w in s.ws.workers && !Resets(a, w)
    ensures var u := Apply(s, a);
      && w in u.ws.workers
      && u.ws.workers[w].running + (if CountsDown(s, a, w) then 1 else 0) ==
           s.ws.workers[w].running + (if CountsUp(s, a, w) then 1 else 0)
      && Limit(u.ws.workers[w]) == Limit(s.ws.workers[w])
  {
    match a
    case Tick(t, ta) => TickLoad(s, t, ta, w);
    case Handler(v, ha) => HandlerLoad(s, v, ha, w);
    case _ =>
  }

  /**
   Between two moments in which the worker neither registers nor is reset, its load has gone up by the
   tasks that were counted for it and down by the results that were counted, whatever else happened;
   its limit stays the same.
   */
  lemma {:induction false} LoadIsConserved(ss: seq<State>, acts: seq<Action>, w: Uuid, i: nat, j: nat)
    requires IsRun(ss, acts) && i <= j < |ss| && w in ss[i].ws.workers
    requires forall m | i <= m < j :: !Resets(acts[m], w)
    ensures w in ss[j].ws.workers && Limit(ss[j].ws.workers[w]) == Limit(ss[i].ws.workers[w])
    ensures ss[j].ws.workers[w].running + Downs(ss, acts, w, i, j) ==
              ss[i].ws.workers[w].running + Ups(ss, acts, w, i, j)
    decreases j
  {
    if i < j {
      LoadIsConserved(ss, acts, w, i, j - 1);
      assert StepAt(ss, acts, j - 1);
      StepLoad(ss[j - 1], acts[j - 1], w);
    }
  }

  /**
   A worker that was idle and has since had as many results counted as tasks is idle again, if it is
   online: no finished task keeps blocking it.
   */
  lemma FreeAgain(ss: seq<State>, acts: seq<Action>, w: Uuid, i: nat, j: nat)
    requires IsRun(ss, acts) && i <= j < |ss| && w in Idle(ss[i].ws)
    requires forall m | i <= m < j :: !Resets(acts[m], w)
    requires Downs(ss, acts, w, i, j) >= Ups(ss, acts, w, i, j)
    ensures w in ss[j].ws.workers && (ss[j].ws.workers[w].online ==> w in Idle(ss[j].ws))
  {
    LoadIsConserved(ss, acts, w, i, j);
  }

  /** A registration and a reset start from zero. */
  lemma ResetIsZero(ss: seq<State>, acts: seq<Action>, w: Uuid, i: nat)
    requires IsRun(ss, acts) && i < |acts| && Resets(acts[i], w)
    ensures w in ss[i + 1].ws.workers ==> ss[i + 1].ws.workers[w].running == 0
  {
    assert StepAt(ss, acts, i);
  }
}
