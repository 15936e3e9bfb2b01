/** What a scan that panics does to a job, and when a claimed row is done. */
module PipelinePanic {
  import opened Common
  import opened Db
  import opened Pipeline
  import opened PipelineBase
  import opened PipelineSafe
  import opened PipelineCommit
  import opened PipelineTheorems

  /** The process may still do something about the row. */
  predicate Involved(pc: MainPc, k: Key) {
    match pc
    case ScanBatch(items, buf) => k in buf || (k in items && items[k] != Panicked) || Underway(items, k)
    case EndFlush(batch) => k in batch
    case VerifyBatch(hits) => k in hits
    case _ => false
  }

  /** The row is claimed by a running worker, and nobody is going to do anything about it. */
  predicate Abandoned(s: State, w: WorkerId, k: Key) {
    && ClaimedBy(s.db, k, w) && w in s.procs && w in s.db.online
    && forall v | v in s.procs :: !Involved(s.procs[v].pc, k)
  }

  // ---- How it comes to that ----

  lemma NobodyElse(s: State, w: WorkerId, k: Key, v: WorkerId)
    requires Base(s) && Safe(s) && AtItem(s, w, k) && s.procs[w].pc.items[k] == Scanning && v in s.procs && v != w
    ensures !Involved(s.procs[v].pc, k)
  {
    assert ProcSafe(s, w) && ProcSafe(s, v) && ProcInv(s, v);
    assert ItemSafe(s, w, s.procs[w].pc.items, k);
    var pc := s.procs[v].pc;
    if pc.ScanBatch? {
      forall j | j in pc.items
        ensures Held(s.db, j, v) && (pc.items[j].Flushing? ==> pc.items[j].batch <= pc.items.Keys)
      {
        assert ItemSafe(s, v, pc.items, j);
      }
    }
  }

  lemma PanicAbandons(s: State, w: WorkerId, k: Key)
    requires Base(s) && Safe(s) && ItemEnabled(s, w, k, ScanPanic)
    ensures Abandoned(ApplyItem(s, w, k, ScanPanic), w, k)
  {
    var t := ApplyItem(s, w, k, ScanPanic);
    var items := s.procs[w].pc.items;
    assert ProcSafe(s, w);
    assert ItemSafe(s, w, items, k);
    forall j | j in items && items[j].Flushing? ensures k !in items[j].batch {
      assert ItemSafe(s, w, items, j);
    }
    forall v | v in t.procs && v != w ensures !Involved(t.procs[v].pc, k) {
      NobodyElse(s, w, k, v);
    }
  }

  // ---- It stays like that ----

  lemma MasterAbandons(s: State, a: Action, w: WorkerId, k: Key)
    requires Base(s) && Abandoned(s, w, k) && Enabled(s, a) && a != Control(CancelRelease)
    requires a.Create? || a.Watch1? || a.Watch2? || a.Control? || a.Chunk?
    ensures Abandoned(Apply(s, a), w, k)
  {
    match a
    case Create(ca) => assert Abandoned(ApplyCreate(s, ca), w, k);
    case Watch1(wa) => assert Abandoned(ApplyWatch1(s, wa), w, k);
    case Watch2(wa) => assert Abandoned(ApplyWatch2(s, wa), w, k);
    case Control(ca) => assert Abandoned(ApplyControl(s, ca), w, k);
    case Chunk(v, ca) =>
  }

  lemma ProcAbandons(s: State, v: WorkerId, a: ProcAction, w: WorkerId, k: Key)
    requires Abandoned(s, w, k) && ProcEnabled(s, v, a) && !(v == w && a == StopProcess)
    ensures Abandoned(ApplyProc(s, v, a), w, k)
  {
  }

  lemma LoopAbandons(s: State, v: WorkerId, a: LoopAction, w: WorkerId, k: Key)
    requires Abandoned(s, w, k) && LoopEnabled(s, v, a)
    ensures Abandoned(ApplyLoop(s, v, a), w, k)
  {
    assert !Involved(s.procs[v].pc, k);
  }

  lemma ItemAbandons(s: State, v: WorkerId, j: Key, a: ItemAction, w: WorkerId, k: Key)
    requires Abandoned(s, w, k) && ItemEnabled(s, v, j, a)
    ensures Abandoned(ApplyItem(s, v, j, a), w, k)
  {
    assert !Involved(s.procs[v].pc, k);
    var t := ApplyItem(s, v, j, a);
    var items, after := s.procs[v].pc.items, t.procs[v].pc.items;
    assert j != k;
    forall i | i in after && after[i].Flushing? ensures k !in after[i].batch {
      assert i != j ==> after[i] == items[i];
    }
  }

  /** Nobody verifies while a row is being processed. */
  lemma NoVerifierYet(s: State, v: WorkerId, w: WorkerId, k: Key)
    requires Base(s) && Abandoned(s, w, k) && v in s.procs
    ensures !PastScan(s.procs[v].pc)
  {
    assert ProcInv(s, v);
  }

  lemma StepAbandons(s: State, a: Action, w: WorkerId, k: Key)
    requires Base(s) && Abandoned(s, w, k) && Enabled(s, a) && a != Control(CancelRelease) && a != Proc(w, StopProcess)
    ensures Abandoned(Apply(s, a), w, k)
  {
    match a
    case Proc(v, pa) => ProcAbandons(s, v, pa, w, k);
    case Loop(v, la) => LoopAbandons(s, v, la, w, k);
    case Item(v, j, ia) => ItemAbandons(s, v, j, ia, w, k);
    case Pass(v, va) => NoVerifierYet(s, v, w, k);
    case Hit(v, j, ha) => NoVerifierYet(s, v, w, k);
    case _ => MasterAbandons(s, a, w, k);
  }

  /** Releasing the row would be taking it away. */
  lemma NotStolen(s: State, a: Action, w: WorkerId, k: Key)
    requires Abandoned(s, w, k) && !Steals(s, a)
    ensures a != Control(CancelRelease)
  {
  }

  lemma NotDone(s: State, w: WorkerId, k: Key)
    requires Base(s) && Abandoned(s, w, k)
    ensures Rank(s.db.job.phase) <= Rank(Phase2)
  {
    assert !AllDone(s.db);
  }

  lemma PanicStep(ss: seq<State>, acts: seq<Action>, w: WorkerId, k: Key, i: nat)
    requires IsRun(ss, acts) && i < |acts| && acts[i] == Item(w, k, ScanPanic) && !ss[i + 1].hist.stole
    ensures Abandoned(ss[i + 1], w, k) && Rank(ss[i + 1].db.job.phase) <= Rank(Phase2)
  {
    StoleStep(ss, acts, i);
    RunGood(ss, acts, i);
    assert StepAt(ss, acts, i);
    PanicAbandons(ss[i], w, k);
    RunBase(ss, acts, i + 1);
    NotDone(ss[i + 1], w, k);
  }

  lemma StaysAbandoned(ss: seq<State>, acts: seq<Action>, w: WorkerId, k: Key, i: nat)
    requires IsRun(ss, acts) && i < |acts| && Abandoned(ss[i], w, k)
    requires acts[i] != Proc(w, StopProcess) && !ss[i + 1].hist.stole
    ensures Abandoned(ss[i + 1], w, k) && Rank(ss[i + 1].db.job.phase) <= Rank(Phase2)
  {
    StoleStep(ss, acts, i);
    NotStolen(ss[i], acts[i], w, k);
    RunBase(ss, acts, i);
    assert StepAt(ss, acts, i);
    StepAbandons(ss[i], acts[i], w, k);
    RunBase(ss, acts, i + 1);
    NotDone(ss[i + 1], w, k);
  }

  /**
   A row whose scan panicked stays claimed by its worker, and keeps the job from ever being done, as long
   as the worker runs and no cancel takes the row away: crash recovery looks at workers that are offline.
   */
  lemma {:induction false} PanickedRowBlocks(ss: seq<State>, acts: seq<Action>, w: WorkerId, k: Key, i: nat, j: nat)
    requires IsRun(ss, acts) && i < j < |ss| && acts[i] == Item(w, k, ScanPanic) && !ss[j].hist.stole
    requires forall m | i < m < j :: acts[m] != Proc(w, StopProcess)
    ensures Abandoned(ss[j], w, k) && Rank(ss[j].db.job.phase) <= Rank(Phase2)
    decreases j
  {
    if i + 1 == j {
      PanicStep(ss, acts, w, k, i);
    } else {
      StoleStep(ss, acts, j - 1);
      PanickedRowBlocks(ss, acts, w, k, i, j - 1);
      StaysAbandoned(ss, acts, w, k, j - 1);
    }
  }

  /** So, once its worker has gone on from the batch, a claimed row is done exactly if its scan did not panic. */
  lemma CommittedIffNoPanic(ss: seq<State>, acts: seq<Action>, w: WorkerId, batch: set<Key>, k: Key, i: nat, j: nat)
    requires IsRun(ss, acts) && i < j < |ss| && acts[i] == Loop(w, Claim(batch)) && k in batch && !ss[j].hist.stole
    requires forall m | i < m < j :: acts[m] != Proc(w, StopProcess)
    requires w in ss[j].procs && !ss[j].procs[w].pc.ScanBatch? && !ss[j].procs[w].pc.EndFlush?
    ensures IsDone(ss[j].db, k) <==> forall m | i < m < j :: acts[m] != Item(w, k, ScanPanic)
  {
    if m :| i < m < j && acts[m] == Item(w, k, ScanPanic) {
      PanickedRowBlocks(ss, acts, w, k, m, j);
    } else {
      ClaimedRowsAreCommitted(ss, acts, w, batch, k, i, j);
    }
  }
}
