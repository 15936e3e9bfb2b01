/** What a scheduling pass dispatches, and when it can dispatch nothing. */
module TickProofs {
  import opened Common
  import opened TaskStore
  import opened WorkerStore
  import opened Tick

  function Min(a: nat, b: nat): nat {
    if a < b then a else b
  }

  /** How many tasks at the front of the queue are pending. */
  function PendingPrefix(s: Tasks, q: seq<TaskId>): (r: nat)
    ensures r <= |q|
    ensures forall i | 0 <= i < r :: CanAssign(s, q[i])
    ensures r < |q| ==> !CanAssign(s, q[r])
  {
    if q == [] || !CanAssign(s, q[0]) then 0 else 1 + PendingPrefix(s, q[1..])
  }

  function Zip(q: seq<TaskId>, ws: seq<Uuid>, k: nat): seq<(TaskId, Uuid)>
    requires k <= |q| && k <= |ws|
  {
    if k == 0 then [] else [(q[0], ws[0])] + Zip(q[1..], ws[1..], k - 1)
  }

  lemma PrefixAfterAssign(s: Tasks, id: TaskId, w: Uuid, q: seq<TaskId>)
    requires id !in q
    ensures PendingPrefix(Assign(s, id, w), q) == PendingPrefix(s, q)
  {
    if q != [] {
      assert q[0] in q;
      PrefixAfterAssign(s, id, w, q[1..]);
    }
  }

  /**
   When every send succeeds a pass dispatches exactly the pending tasks at the front of the queue,
   one to each idle worker, in queue order; nothing else changes. With a queue of pending tasks only
   that is the first min(pending, idle) tasks.
   */
  lemma {:induction false} PassIsFifo(s: Tasks, idle: seq<Uuid>, sendable: set<Uuid>)
    requires NoDuplicates(s.pendingQ) && forall w | w in idle :: w in sendable
    ensures var k := Min(|idle|, PendingPrefix(s, s.pendingQ));
      var r := Pass(s, idle, sendable);
      && r.sent == Zip(s.pendingQ, idle, k)
      && r.tasks.pendingQ == s.pendingQ[k..]
    decreases |idle|
  {
    var q := s.pendingQ;
    if idle != [] && PendingPrefix(s, q) > 0 {
      FifoStep(s, idle[0]);
      assert idle[0] in idle;
      assert forall w | w in idle[1..] :: w in idle;
      PassIsFifo(Assign(s, q[0], idle[0]), idle[1..], sendable);
      var k := Min(|idle|, PendingPrefix(s, q));
      assert q[1..][k - 1..] == q[k..];
    } else if q != [] && idle != [] {
      PassStuck(s, idle, sendable);
    }
  }

  /** Assigning the head leaves the rest of the queue as it was. */
  lemma FifoStep(s: Tasks, w: Uuid)
    requires NoDuplicates(s.pendingQ) && PendingPrefix(s, s.pendingQ) > 0
    ensures var t := Assign(s, s.pendingQ[0], w);
      && t.pendingQ == s.pendingQ[1..] && NoDuplicates(t.pendingQ)
      && s.pendingQ[0] !in t.pendingQ
      && PendingPrefix(t, t.pendingQ) == PendingPrefix(s, s.pendingQ) - 1
  {
    var q := s.pendingQ;
    assert q[0] !in q[1..];
    PrefixAfterAssign(s, q[0], w, q[1..]);
  }

  /** How many tasks a pass over willing workers dispatches. */
  function Depth(s: Tasks, idle: seq<Uuid>): (r: nat)
    ensures r <= |idle| && r <= |s.pendingQ|
  {
    Min(|idle|, PendingPrefix(s, s.pendingQ))
  }

  /** No other task changes. */
  lemma {:induction false} FifoUntouched(s: Tasks, idle: seq<Uuid>, sendable: set<Uuid>, id: TaskId)
    requires NoDuplicates(s.pendingQ) && (forall w | w in idle :: w in sendable)
    requires id in s.tasks && id !in s.pendingQ[..Depth(s, idle)]
    ensures id in Pass(s, idle, sendable).tasks.tasks && Pass(s, idle, sendable).tasks.tasks[id] == s.tasks[id]
    decreases |idle|
  {
    var q := s.pendingQ;
    if idle != [] && PendingPrefix(s, q) > 0 {
      FifoStep(s, idle[0]);
      assert idle[0] in idle;
      assert forall w | w in idle[1..] :: w in idle;
      var t := Assign(s, q[0], idle[0]);
      assert Depth(t, idle[1..]) == Depth(s, idle) - 1;
      assert q[..Depth(s, idle)] == [q[0]] + t.pendingQ[..Depth(s, idle) - 1];
      FifoUntouched(t, idle[1..], sendable, id);
    } else if q != [] && idle != [] {
      PassStuck(s, idle, sendable);
    }
  }

  /** Every dispatched task is assigned to the worker it was sent to. */
  lemma {:induction false} FifoAssigned(s: Tasks, idle: seq<Uuid>, sendable: set<Uuid>, i: nat)
    requires NoDuplicates(s.pendingQ) && (forall w | w in idle :: w in sendable) && i < Depth(s, idle)
    ensures var r := Pass(s, idle, sendable).tasks; var id := s.pendingQ[i];
      id in r.tasks && r.tasks[id].status == Assigned && r.tasks[id].assignedTo == idle[i]
    decreases |idle|
  {
    var q := s.pendingQ;
    FifoStep(s, idle[0]);
    assert idle[0] in idle;
    assert forall w | w in idle[1..] :: w in idle;
    var t := Assign(s, q[0], idle[0]);
    if i == 0 {
      FifoUntouched(t, idle[1..], sendable, q[0]);
    } else {
      FifoAssigned(t, idle[1..], sendable, i - 1);
    }
  }

  /** A task at the head of the queue that is not pending uses up every idle worker of a pass and stays. */
  lemma {:induction false} PassStuck(s: Tasks, idle: seq<Uuid>, sendable: set<Uuid>)
    requires s.pendingQ != [] && !CanAssign(s, s.pendingQ[0])
    ensures Pass(s, idle, sendable) == PassResult(s, [])
    decreases |idle|
  {
    if GetPending(s).Some? && idle != [] {
      PassStuck(s, idle[1..], sendable);
    }
  }

  /** So a pass over willing workers dispatches something exactly when the head of the queue is pending. */
  lemma PassMovesIff(s: Tasks, idle: seq<Uuid>, sendable: set<Uuid>)
    requires QueueInv(s) && idle != [] && forall w | w in idle :: w in sendable
    ensures Pass(s, idle, sendable).sent != [] <==> s.pendingQ != [] && s.tasks[s.pendingQ[0]].status == Pending
  {
    PassIsFifo(s, idle, sendable);
    if s.pendingQ != [] {
      assert s.pendingQ[0] in s.pendingQ;
    }
  }

  /**
   A result that arrives for a task waiting at the head of the queue, as after a disconnect that gave
   the task back, leaves the ended task queued: from then on a pass does nothing.
   */
  lemma LateResultBlocksQueue(s: Tasks, id: TaskId, hits: int, idle: seq<Uuid>, sendable: set<Uuid>)
    requires s.pendingQ != [] && s.pendingQ[0] == id && id in s.tasks
    ensures Pass(Complete(s, id, hits), idle, sendable) == PassResult(Complete(s, id, hits), [])
    ensures Pass(Fail(s, id), idle, sendable) == PassResult(Fail(s, id), [])
  {
    PassStuck(Complete(s, id, hits), idle, sendable);
    PassStuck(Fail(s, id), idle, sendable);
  }

  lemma {:induction false} PrefixToEnded(s: Tasks, t: Tasks, q: seq<TaskId>, i: nat)
    requires NoDuplicates(q) && i < |q| && (forall x | x in q :: CanAssign(s, x)) && !CanAssign(t, q[i])
    requires forall x | x in q && x != q[i] :: x in s.tasks && x in t.tasks && t.tasks[x] == s.tasks[x]
    ensures PendingPrefix(t, q) == i
  {
    assert q[0] in q && q[i] in q;
    if i > 0 {
      assert q[0] != q[i] && q[1..][i - 1] == q[i];
      PrefixToEnded(s, t, q[1..], i - 1);
    }
  }

  /** What a pass over willing workers does when only the task at position `i` of the queue is not pending. */
  lemma PassUpToEnded(s: Tasks, t: Tasks, i: nat, idle: seq<Uuid>, sendable: set<Uuid>)
    requires NoDuplicates(s.pendingQ) && AllPending(s) && i < |s.pendingQ| && t.pendingQ == s.pendingQ
    requires s.pendingQ[i] in t.tasks && !CanAssign(t, s.pendingQ[i])
    requires forall x | x in s.pendingQ && x != s.pendingQ[i] :: x in t.tasks && t.tasks[x] == s.tasks[x]
    requires forall w | w in idle :: w in sendable
    ensures var r := Pass(t, idle, sendable); var k := Min(|idle|, i);
      && r.sent == Zip(s.pendingQ, idle, k) && r.tasks.pendingQ == s.pendingQ[k..]
      && !CanAssign(r.tasks, s.pendingQ[i])
      && (|idle| >= i ==> GetPending(r.tasks) == Some(s.pendingQ[i]))
  {
    PrefixToEnded(s, t, s.pendingQ, i);
    PassIsFifo(t, idle, sendable);
    assert s.pendingQ[i] !in s.pendingQ[..Depth(t, idle)];
    FifoUntouched(t, idle, sendable, s.pendingQ[i]);
  }

  /**
   A result for the pending task at position `i` of the queue lets a pass dispatch the tasks before it,
   and no other: once they are gone the ended task is at the head, and no pass gets past it.
   */
  lemma LateResultStopsAt(s: Tasks, i: nat, hits: int, idle: seq<Uuid>, sendable: set<Uuid>)
    requires QueueInv(s) && AllPending(s) && i < |s.pendingQ| && forall w | w in idle :: w in sendable
    ensures forall t | t == Complete(s, s.pendingQ[i], hits) || t == Fail(s, s.pendingQ[i]) ::
      var r := Pass(t, idle, sendable); var k := Min(|idle|, i);
      && r.sent == Zip(s.pendingQ, idle, k) && r.tasks.pendingQ == s.pendingQ[k..]
      && !CanAssign(r.tasks, s.pendingQ[i])
      && (|idle| >= i ==> GetPending(r.tasks) == Some(s.pendingQ[i]))
  {
    assert s.pendingQ[i] in s.pendingQ;
    PassUpToEnded(s, Complete(s, s.pendingQ[i], hits), i, idle, sendable);
    PassUpToEnded(s, Fail(s, s.pendingQ[i]), i, idle, sendable);
  }

  /**
   So the very next pass dispatches nothing exactly when the result was for the task at the head. For
   any other queued task it takes until the tasks before it are dispatched.
   */
  lemma LateResultBlocksIff(s: Tasks, id: TaskId, hits: int, idle: seq<Uuid>, sendable: set<Uuid>)
    requires QueueInv(s) && AllPending(s) && s.pendingQ != [] && id in s.tasks
    requires idle != [] && forall w | w in idle :: w in sendable
    ensures Pass(Complete(s, id, hits), idle, sendable).sent == [] <==> s.pendingQ[0] == id
    ensures Pass(Fail(s, id), idle, sendable).sent == [] <==> s.pendingQ[0] == id
  {
    EndKeeps(s, id, hits);
    PassMovesIff(Complete(s, id, hits), idle, sendable);
    PassMovesIff(Fail(s, id), idle, sendable);
    assert s.pendingQ[0] in s.pendingQ;
  }

  // ---- Failed sends ----

  function Willing(idle: seq<Uuid>, sendable: set<Uuid>): nat {
    if idle == [] then 0 else (if idle[0] in sendable then 1 else 0) + Willing(idle[1..], sendable)
  }

  /** The pairs that get through, and the tasks that come back, when `q[i]` is offered to `ws[i]`. */
  function Through(q: seq<TaskId>, ws: seq<Uuid>, sendable: set<Uuid>): seq<(TaskId, Uuid)>
    requires |ws| <= |q|
  {
    if ws == [] then []
    else (if ws[0] in sendable then [(q[0], ws[0])] else []) + Through(q[1..], ws[1..], sendable)
  }

  function Back(q: seq<TaskId>, ws: seq<Uuid>, sendable: set<Uuid>): seq<TaskId>
    requires |ws| <= |q|
  {
    if ws == [] then [] else (if ws[0] in sendable then [] else [q[0]]) + Back(q[1..], ws[1..], sendable)
  }

  lemma OfferAccepted(s: Tasks, w: Uuid)
    requires NoDuplicates(s.pendingQ) && AllPending(s) && s.pendingQ != []
    ensures var t := Assign(s, s.pendingQ[0], w);
      t.pendingQ == s.pendingQ[1..] && NoDuplicates(t.pendingQ) && AllPending(t)
  {
    var q := s.pendingQ;
    assert q[0] in q && q[0] !in q[1..];
  }

  lemma OfferRefused(s: Tasks, w: Uuid)
    requires NoDuplicates(s.pendingQ) && AllPending(s) && s.pendingQ != []
    ensures var t := Reassign(Assign(s, s.pendingQ[0], w), s.pendingQ[0]);
      t.pendingQ == s.pendingQ[1..] + [s.pendingQ[0]] && NoDuplicates(t.pendingQ) && AllPending(t)
  {
    var q := s.pendingQ;
    assert q[0] in q && q[0] !in q[1..];
    ConcatNoDuplicates(q[1..], [q[0]]);
  }

  lemma {:induction false} ThroughPrefix(q: seq<TaskId>, p: seq<TaskId>, ws: seq<Uuid>, sendable: set<Uuid>)
    requires |ws| <= |q| && |ws| <= |p| && q[..|ws|] == p[..|ws|]
    ensures Through(q, ws, sendable) == Through(p, ws, sendable) && Back(q, ws, sendable) == Back(p, ws, sendable)
    decreases |ws|
  {
    if ws != [] {
      assert q[0] == q[..|ws|][0] == p[..|ws|][0] == p[0];
      assert q[1..][..|ws| - 1] == q[..|ws|][1..] == p[..|ws|][1..] == p[1..][..|ws| - 1];
      ThroughPrefix(q[1..], p[1..], ws[1..], sendable);
    }
  }

  /**
   With failing sends too, while there are as many tasks as workers: the `i`th task is offered to the
   `i`th worker and to no other, and the tasks whose send failed end up at the tail, in order.
   */
  lemma {:induction false} FailedTasksGoToTheTail(s: Tasks, idle: seq<Uuid>, sendable: set<Uuid>)
    requires NoDuplicates(s.pendingQ) && AllPending(s) && |idle| <= |s.pendingQ|
    ensures var q, r := s.pendingQ, Pass(s, idle, sendable);
      && r.sent == Through(q, idle, sendable)
      && r.tasks.pendingQ == q[|idle|..] + Back(q, idle, sendable)
    decreases |idle|
  {
    if idle != [] {
      var q := s.pendingQ;
      assert q[0] in q;
      if idle[0] in sendable {
        OfferAccepted(s, idle[0]);
        var t := Assign(s, q[0], idle[0]);
        FailedTasksGoToTheTail(t, idle[1..], sendable);
        assert q[1..][|idle| - 1..] == q[|idle|..];
        assert Pass(s, idle, sendable).tasks == Pass(t, idle[1..], sendable).tasks;
      } else {
        OfferRefused(s, idle[0]);
        var t := Reassign(Assign(s, q[0], idle[0]), q[0]);
        FailedTasksGoToTheTail(t, idle[1..], sendable);
        Rotated(q, idle, sendable);
        assert Pass(s, idle, sendable) == Pass(t, idle[1..], sendable);
      }
    }
  }

  lemma Rotated(q: seq<TaskId>, idle: seq<Uuid>, sendable: set<Uuid>)
    requires idle != [] && |idle| <= |q| && idle[0] !in sendable
    ensures var p := q[1..] + [q[0]];
      && Through(p, idle[1..], sendable) == Through(q, idle, sendable)
      && p[|idle| - 1..] + Back(p, idle[1..], sendable) == q[|idle|..] + Back(q, idle, sendable)
  {
    var p := q[1..] + [q[0]];
    assert p[..|idle| - 1] == q[1..][..|idle| - 1];
    ThroughPrefix(p, q[1..], idle[1..], sendable);
    RotatedTail(q, |idle|, Back(q[1..], idle[1..], sendable));
  }

  lemma RotatedTail(q: seq<TaskId>, n: nat, back: seq<TaskId>)
    requires 0 < n <= |q|
    ensures (q[1..] + [q[0]])[n - 1..] + back == q[n..] + ([q[0]] + back)
  {
    assert (q[1..] + [q[0]])[n - 1..] == q[n..] + [q[0]];
  }

  function Ids(sent: seq<(TaskId, Uuid)>): seq<TaskId> {
    if sent == [] then [] else [sent[0].0] + Ids(sent[1..])
  }

  /**
   Whatever fails, and however often a task is offered again in the same pass: what was sent and what
   is still queued are together the queue, and every queued task is pending and nobody owns it.
   */
  lemma {:induction false} PassConservesQueue(s: Tasks, idle: seq<Uuid>, sendable: set<Uuid>)
    requires QueueInv(s) && AllPending(s)
    ensures var r := Pass(s, idle, sendable);
      && multiset(Ids(r.sent)) + multiset(r.tasks.pendingQ) == multiset(s.pendingQ)
      && QueueInv(r.tasks) && AllPending(r.tasks)
    decreases |idle|
  {
    var q := s.pendingQ;
    if q != [] && idle != [] {
      assert q[0] in q;
      AssignKeeps(s, q[0], idle[0]);
      var t := Assign(s, q[0], idle[0]);
      if idle[0] in sendable {
        OfferAccepted(s, idle[0]);
        PassConservesQueue(t, idle[1..], sendable);
        var r := Pass(t, idle[1..], sendable);
        SentFirst(q[0], idle[0], r.sent);
        HeadMoves(q, Ids(r.sent), r.tasks.pendingQ);
      } else {
        OfferRefused(s, idle[0]);
        ReassignKeeps(t, q[0]);
        PassConservesQueue(Reassign(t, q[0]), idle[1..], sendable);
        PopFront(q);
      }
    }
  }

  lemma HeadMoves(q: seq<TaskId>, sent: seq<TaskId>, rest: seq<TaskId>)
    requires q != [] && multiset(sent) + multiset(rest) == multiset(q[1..])
    ensures multiset([q[0]] + sent) + multiset(rest) == multiset(q)
  {
    PopFront(q);
  }

  lemma SentFirst(id: TaskId, w: Uuid, sent: seq<(TaskId, Uuid)>)
    ensures Ids([(id, w)] + sent) == [id] + Ids(sent)
  {
    assert ([(id, w)] + sent)[1..] == sent;
  }

  lemma {:induction false} UnqueuedUntouched(s: Tasks, idle: seq<Uuid>, sendable: set<Uuid>, id: TaskId)
    requires NoDuplicates(s.pendingQ) && AllPending(s) && id in s.tasks && id !in s.pendingQ
    ensures var r := Pass(s, idle, sendable).tasks; id in r.tasks && r.tasks[id] == s.tasks[id]
    decreases |idle|
  {
    var q := s.pendingQ;
    if q != [] && idle != [] {
      assert q[0] in q && q[0] != id;
      if idle[0] in sendable {
        OfferAccepted(s, idle[0]);
        UnqueuedUntouched(Assign(s, q[0], idle[0]), idle[1..], sendable, id);
      } else {
        OfferRefused(s, idle[0]);
        UnqueuedUntouched(Reassign(Assign(s, q[0], idle[0]), q[0]), idle[1..], sendable, id);
      }
    }
  }

  /** Whatever fails, a task that was sent is assigned to the worker it was sent to. */
  lemma {:induction false} SentIsAssigned(s: Tasks, idle: seq<Uuid>, sendable: set<Uuid>, id: TaskId, w: Uuid)
    requires NoDuplicates(s.pendingQ) && AllPending(s) && (id, w) in Pass(s, idle, sendable).sent
    ensures var r := Pass(s, idle, sendable).tasks;
      id in r.tasks && r.tasks[id].status == Assigned && r.tasks[id].assignedTo == w
    decreases |idle|
  {
    var q := s.pendingQ;
    assert q[0] in q && q[0] !in q[1..];
    if idle[0] in sendable {
      OfferAccepted(s, idle[0]);
      var t := Assign(s, q[0], idle[0]);
      if (id, w) == (q[0], idle[0]) {
        UnqueuedUntouched(t, idle[1..], sendable, id);
      } else {
        SentIsAssigned(t, idle[1..], sendable, id, w);
      }
    } else {
      OfferRefused(s, idle[0]);
      SentIsAssigned(Reassign(Assign(s, q[0], idle[0]), q[0]), idle[1..], sendable, id, w);
    }
  }

  /** Whatever fails, a pass dispatches as much as it can: to every willing worker, or until the queue is empty. */
  lemma {:induction false} PassDispatchesAllItCan(s: Tasks, idle: seq<Uuid>, sendable: set<Uuid>)
    requires NoDuplicates(s.pendingQ) && AllPending(s)
    ensures |Pass(s, idle, sendable).sent| == Min(|s.pendingQ|, Willing(idle, sendable))
    decreases |idle|
  {
    if idle != [] && s.pendingQ != [] {
      var q := s.pendingQ;
      assert q[0] in q;
      if idle[0] in sendable {
        OfferAccepted(s, idle[0]);
        PassDispatchesAllItCan(Assign(s, q[0], idle[0]), idle[1..], sendable);
      } else {
        OfferRefused(s, idle[0]);
        PassDispatchesAllItCan(Reassign(Assign(s, q[0], idle[0]), q[0]), idle[1..], sendable);
      }
    }
  }

  function Receivers(sent: seq<(TaskId, Uuid)>): seq<Uuid> {
    if sent == [] then [] else [sent[0].1] + Receivers(sent[1..])
  }

  /** Every task of a pass goes to an idle worker that takes it, and no worker gets two. */
  lemma {:induction false} PassUsesWorkersOnce(s: Tasks, idle: seq<Uuid>, sendable: set<Uuid>)
    requires NoDuplicates(idle)
    ensures var ws := Receivers(Pass(s, idle, sendable).sent);
      NoDuplicates(ws) && forall w | w in ws :: w in idle && w in sendable
    decreases |idle|
  {
    if GetPending(s).Some? && idle != [] {
      var id := GetPending(s).value;
      var t := if !CanAssign(s, id) then s
               else if idle[0] in sendable then Assign(s, id, idle[0])
               else Reassign(Assign(s, id, idle[0]), id);
      PassUsesWorkersOnce(t, idle[1..], sendable);
      var rest := Pass(t, idle[1..], sendable).sent;
      assert idle[0] !in idle[1..] && forall w | w in idle[1..] :: w in idle;
      if CanAssign(s, id) && idle[0] in sendable {
        assert ([(id, idle[0])] + rest)[1..] == rest;
        ConcatNoDuplicates([idle[0]], Receivers(rest));
      }
    }
  }

  // ---- Load counters ----

  /** How many of the pairs go to the worker. */
  function SentTo(sent: seq<(TaskId, Uuid)>, w: Uuid): nat {
    if sent == [] then 0 else SentTo(sent[..|sent| - 1], w) + if sent[|sent| - 1].1 == w then 1 else 0
  }

  /** A pass adds to the load of each worker what it sends there, and changes nothing else about it. */
  lemma {:induction false} LoadsGoUp<C>(s: Workers<C>, sent: seq<(TaskId, Uuid)>, w: Uuid)
    ensures Bumped(s, sent).conns == s.conns && Bumped(s, sent).workers.Keys == s.workers.Keys
    ensures w in s.workers ==>
              Bumped(s, sent).workers[w] == s.workers[w].(running := s.workers[w].running + SentTo(sent, w))
    decreases |sent|
  {
    if sent != [] {
      LoadsGoUp(s, sent[..|sent| - 1], w);
    }
  }
}
