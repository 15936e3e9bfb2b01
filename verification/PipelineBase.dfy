/** What holds in every run of the pipeline, cancelled or not. */
module PipelineBase {
  import opened Common
  import opened Db
  import opened Pipeline

  predicate AllMarked(s: State) {
    s.chunks != map[] && forall w | w in s.chunks :: s.chunks[w] == Marked
  }

  /** Phase 1 is over and every row it inserted has a work row. */
  predicate Filled(s: State) {
    AllMarked(s) && s.db.work.Keys == s.db.masscan
  }

  predicate PhaseOneInv(s: State) {
    && (s.creator.Resolving? || s.creator.Chosen? ==> s.chunks == map[])
    && (s.creator.Chosen? ==> s.creator.ids != {})
    && s.db.job.doneWorkers == |MarkedChunks(s)|
    && (s.chunks == map[] ==> s.db.masscan == {} && s.db.job.phase == Phase1)
    && (s.chunks != map[] ==> s.db.job.totalWorkers == |s.chunks.Keys|)
  }

  predicate BarrierInv(s: State) {
    && (s.w1.W1Populate? || s.w1.W1Count? || s.w1.W1SetPhase? ==> s.db.job.phase == Phase1 && AllMarked(s))
    && (s.w1.W1Count? || s.w1.W1SetPhase? || s.w1.W1Notify? || s.notified ==> Filled(s))
    && (s.db.job.phase != Phase1 || s.db.work != map[] ==> Filled(s))
    && s.db.results.Keys <= s.db.work.Keys
  }

  predicate ReadNothingUndone(pc: Watch2Pc) {
    match pc
    case W2ReadUnverified(undone) => undone == 0
    case W2ReadVerified(undone, _) => undone == 0
    case W2SetVerifying(_) => true
    case W2CountItems => true
    case W2SetDone(_) => true
    case _ => false
  }

  predicate WatcherInv(s: State) {
    && (s.w2.W2SetStatus? || s.w2.W2Delete? ==> s.db.job.phase == PhaseDone)
    && (!s.w2.W2Idle? && !s.w2.W2SetStatus? && !s.w2.W2Delete? ==>
          s.db.job.phase == Phase2 || s.db.job.phase == Phase2b)
    && (ReadNothingUndone(s.w2) || s.db.job.phase == Phase2b || s.db.job.phase == PhaseDone || s.hist.cleaned
        ==> AllDone(s.db))
    && (s.hist.cleaned ==> s.db.job.phase == PhaseDone)
  }

  /** Past the count of unfinished rows, a worker knows that every row is done. */
  predicate PastScan(pc: MainPc) {
    pc.CountUnverified? || pc.VerifyTop? || pc.FetchHits? || pc.VerifyBatch?
    || (pc.Ended? && pc.reason != ByCancel)
  }

  predicate ProcInv(s: State, w: WorkerId)
    requires w in s.procs
  {
    var p := s.procs[w];
    && p.scanConc > 0 && p.verifyConc > 0
    && (p.pc != NotStarted ==> Filled(s))
    && (PastScan(p.pc) ==> AllDone(s.db))
    && (p.pc.ScanBatch? ==> p.pc.items.Keys <= s.db.work.Keys && |p.pc.items.Keys| <= p.scanConc)
    && (p.pc.VerifyBatch? ==> p.pc.hits.Keys <= s.db.work.Keys)
  }

  predicate Base(s: State) {
    && PhaseOneInv(s)
    && BarrierInv(s)
    && WatcherInv(s)
    && forall w | w in s.procs :: ProcInv(s, w)
  }

  // ---- What single steps keep ----

  function Rank(p: Phase): nat {
    match p
    case Phase1 => 0
    case Phase2 => 1
    case Phase2b => 2
    case PhaseDone => 3
  }

  /** Rows that are done stay done, and once the queue is filled it neither grows nor shrinks. */
  ghost predicate Onward(s: State, t: State) {
    && (forall k | k in s.db.work :: k in t.db.work && (s.db.work[k].status == Done ==> t.db.work[k].status == Done))
    && (Filled(s) ==> Filled(t) && t.db.work.Keys == s.db.work.Keys)
    && (AllMarked(s) ==> AllMarked(t))
    && Rank(s.db.job.phase) <= Rank(t.db.job.phase)
    && (s.hist.cleaned ==> t.hist.cleaned)
  }

  lemma CreateOnward(s: State, a: CreateAction)
    requires Base(s) && CreateEnabled(s, a)
    ensures Onward(s, ApplyCreate(s, a))
  {
  }

  lemma Watch1Onward(s: State, a: Watch1Action)
    requires Base(s) && Watch1Enabled(s, a)
    ensures Onward(s, ApplyWatch1(s, a))
  {
  }

  lemma Watch2Onward(s: State, a: Watch2Action)
    requires Base(s) && Watch2Enabled(s, a)
    ensures Onward(s, ApplyWatch2(s, a))
  {
  }

  lemma ControlOnward(s: State, a: ControlAction)
    requires Base(s) && ControlEnabled(s, a)
    ensures Onward(s, ApplyControl(s, a))
  {
  }

  lemma ChunkOnward(s: State, w: WorkerId, a: ChunkAction)
    requires Base(s) && ChunkEnabled(s, w, a)
    ensures Onward(s, ApplyChunk(s, w, a))
  {
  }

  lemma ProcOnward(s: State, w: WorkerId, a: ProcAction)
    requires Base(s) && ProcEnabled(s, w, a)
    ensures Onward(s, ApplyProc(s, w, a))
  {
  }

  lemma LoopOnward(s: State, w: WorkerId, a: LoopAction)
    requires Base(s) && LoopEnabled(s, w, a)
    ensures Onward(s, ApplyLoop(s, w, a))
  {
  }

  lemma ItemOnward(s: State, w: WorkerId, k: Key, a: ItemAction)
    requires Base(s) && ItemEnabled(s, w, k, a)
    ensures Onward(s, ApplyItem(s, w, k, a))
  {
  }

  lemma PassOnward(s: State, w: WorkerId, a: PassAction)
    requires Base(s) && PassEnabled(s, w, a)
    ensures Onward(s, ApplyPass(s, w, a))
  {
  }

  lemma HitOnward(s: State, w: WorkerId, k: Key, a: HitAction)
    requires Base(s) && HitEnabled(s, w, k, a)
    ensures Onward(s, ApplyHit(s, w, k, a))
  {
  }

  lemma StepOnward(s: State, a: Action)
    requires Base(s) && Enabled(s, a)
    ensures Onward(s, Apply(s, a))
  {
    match a
    case Create(ca) => CreateOnward(s, ca);
    case Watch1(wa) => Watch1Onward(s, wa);
    case Watch2(wa) => Watch2Onward(s, wa);
    case Control(ca) => ControlOnward(s, ca);
    case Chunk(w, ca) => ChunkOnward(s, w, ca);
    case Proc(w, pa) => ProcOnward(s, w, pa);
    case Loop(w, la) => LoopOnward(s, w, la);
    case Item(w, k, ia) => ItemOnward(s, w, k, ia);
    case Pass(w, va) => PassOnward(s, w, va);
    case Hit(w, k, ha) => HitOnward(s, w, k, ha);
  }

  /** Worker processes leave the job row and the master's goroutines alone. */
  predicate SameJob(s: State, t: State) {
    t.db.job == s.db.job && t.w1 == s.w1 && t.w2 == s.w2 && t.creator == s.creator
  }

  lemma ProcJob(s: State, w: WorkerId, a: ProcAction)
    requires ProcEnabled(s, w, a)
    ensures SameJob(s, ApplyProc(s, w, a))
  {
  }

  lemma LoopJob(s: State, w: WorkerId, a: LoopAction)
    requires LoopEnabled(s, w, a)
    ensures SameJob(s, ApplyLoop(s, w, a))
  {
  }

  lemma ItemJob(s: State, w: WorkerId, k: Key, a: ItemAction)
    requires ItemEnabled(s, w, k, a)
    ensures SameJob(s, ApplyItem(s, w, k, a))
  {
  }

  lemma PassJob(s: State, w: WorkerId, a: PassAction)
    requires PassEnabled(s, w, a)
    ensures SameJob(s, ApplyPass(s, w, a))
  {
  }

  lemma HitJob(s: State, w: WorkerId, k: Key, a: HitAction)
    requires HitEnabled(s, w, k, a)
    ensures SameJob(s, ApplyHit(s, w, k, a))
  {
  }

  // ---- Base is an invariant ----

  lemma InitBase(s: State)
    requires Init(s)
    ensures Base(s)
  {
    assert MarkedChunks(s) == {};
  }

  lemma AllMarkedFromCount(s: State)
    requires PhaseOneInv(s) && s.db.job.doneWorkers > 0 && s.db.job.doneWorkers >= s.db.job.totalWorkers
    ensures AllMarked(s)
  {
    var marked := MarkedChunks(s);
    assert marked <= s.chunks.Keys;
    if marked != s.chunks.Keys {
      SubsetSmaller(marked, s.chunks.Keys);
    }
    assert forall w | w in s.chunks :: w in marked;
  }

  lemma NothingUndone(t: Tables)
    ensures UndoneRows(t) == {} <==> AllDone(t)
    ensures |UndoneRows(t)| == 0 <==> AllDone(t)
  {
    if AllDone(t) {
      assert UndoneRows(t) == {};
    } else {
      var k :| k in t.work && t.work[k].status != Done;
      assert k in UndoneRows(t);
    }
  }

  /** A process that takes no part in a step keeps its invariant. */
  lemma OthersKeep(s: State, t: State, w: WorkerId)
    requires w in s.procs && w in t.procs && t.procs[w] == s.procs[w]
    requires ProcInv(s, w) && Onward(s, t)
    ensures ProcInv(t, w)
  {
  }

  lemma CreateBase(s: State, a: CreateAction)
    requires Base(s) && CreateEnabled(s, a)
    ensures Base(ApplyCreate(s, a))
  {
    var t := ApplyCreate(s, a);
    CreateOnward(s, a);
    match a
    case StartRunning =>
      assert MarkedChunks(t) == {} == MarkedChunks(s);
      assert t.chunks.Keys == s.creator.ids;
    case Publish(to) =>
      assert MarkedChunks(t) == MarkedChunks(s);
      assert t.chunks.Keys == s.chunks.Keys;
    case _ =>
  }

  lemma Watch1Base(s: State, a: Watch1Action)
    requires Base(s) && Watch1Enabled(s, a)
    ensures Base(ApplyWatch1(s, a))
  {
    var t := ApplyWatch1(s, a);
    Watch1Onward(s, a);
    assert MarkedChunks(t) == MarkedChunks(s);
    if a == SeePhase1Done {
      AllMarkedFromCount(s);
    }
    forall w | w in t.procs ensures ProcInv(t, w) {
      OthersKeep(s, t, w);
    }
  }

  lemma Watch2Watcher(s: State, a: Watch2Action)
    requires Base(s) && Watch2Enabled(s, a)
    ensures WatcherInv(ApplyWatch2(s, a))
  {
    match a
    case ReadUndone => NothingUndone(s.db);
    case RecoverRows =>
    case _ =>
  }

  lemma Watch2Base(s: State, a: Watch2Action)
    requires Base(s) && Watch2Enabled(s, a)
    ensures Base(ApplyWatch2(s, a))
  {
    var t := ApplyWatch2(s, a);
    Watch2Onward(s, a);
    Watch2Watcher(s, a);
    assert t.procs == s.procs && t.chunks == s.chunks;
    assert MarkedChunks(t) == MarkedChunks(s);
    forall w | w in t.procs ensures ProcInv(t, w) {
      OthersKeep(s, t, w);
    }
  }

  lemma ControlBase(s: State, a: ControlAction)
    requires Base(s) && ControlEnabled(s, a)
    ensures Base(ApplyControl(s, a))
  {
    var t := ApplyControl(s, a);
    ControlOnward(s, a);
    assert MarkedChunks(t) == MarkedChunks(s);
    forall w | w in t.procs ensures ProcInv(t, w) {
      OthersKeep(s, t, w);
    }
  }

  lemma ChunkBase(s: State, w: WorkerId, a: ChunkAction)
    requires Base(s) && ChunkEnabled(s, w, a)
    ensures Base(ApplyChunk(s, w, a))
  {
    var t := ApplyChunk(s, w, a);
    ChunkOnward(s, w, a);
    match a
    case InsertBatch(keys) =>
      assert MarkedChunks(t) == MarkedChunks(s);
    case MarkChunk =>
      assert MarkedChunks(t) == MarkedChunks(s) + {w};
      assert t.chunks.Keys == s.chunks.Keys;
  }

  lemma ProcBase(s: State, w: WorkerId, a: ProcAction)
    requires Base(s) && ProcEnabled(s, w, a)
    ensures Base(ApplyProc(s, w, a))
  {
    var t := ApplyProc(s, w, a);
    ProcOnward(s, w, a);
    assert MarkedChunks(t) == MarkedChunks(s);
    if a == StartPhase2 {
      StartedAfterFill(s, w);
    }
    forall v | v in t.procs ensures ProcInv(t, v) {
      if v != w {
        OthersKeep(s, t, v);
      }
    }
  }

  /** Whatever wakes a worker for phase 2, the queue is complete by then. */
  lemma StartedAfterFill(s: State, w: WorkerId)
    requires Base(s) && ProcEnabled(s, w, StartPhase2)
    ensures Filled(s)
  {
    if PendingRows(s.db) != {} {
      var k :| k in PendingRows(s.db);
      assert k in s.db.work;
    } else if UnverifiedRows(s.db) != {} {
      var k :| k in UnverifiedRows(s.db);
      assert k in s.db.work.Keys;
    }
  }

  lemma ClaimSelf(s: State, w: WorkerId, batch: set<Key>)
    requires Base(s) && LoopEnabled(s, w, Claim(batch))
    requires Onward(s, ApplyLoop(s, w, Claim(batch)))
    ensures ProcInv(ApplyLoop(s, w, Claim(batch)), w)
  {
    assert ProcInv(s, w);
    if batch != {} {
      assert ApplyLoop(s, w, Claim(batch)).procs[w].pc.items.Keys == batch;
    }
  }

  lemma LoopSelf(s: State, w: WorkerId, a: LoopAction)
    requires Base(s) && LoopEnabled(s, w, a)
    requires Onward(s, ApplyLoop(s, w, a))
    ensures ProcInv(ApplyLoop(s, w, a), w)
  {
    match a
    case Claim(batch) => ClaimSelf(s, w, batch);
    case SeeUndone => NothingUndone(s.db);
    case _ => assert ProcInv(s, w);
  }

  lemma LoopBase(s: State, w: WorkerId, a: LoopAction)
    requires Base(s) && LoopEnabled(s, w, a)
    ensures Base(ApplyLoop(s, w, a))
  {
    var t := ApplyLoop(s, w, a);
    LoopOnward(s, w, a);
    LoopSelf(s, w, a);
    assert t == s.(db := t.db, procs := t.procs) && t.db == s.db.(work := t.db.work);
    assert MarkedChunks(t) == MarkedChunks(s);
    forall v | v in t.procs ensures ProcInv(t, v) {
      if v != w {
        OthersKeep(s, t, v);
      }
    }
  }

  lemma ItemBase(s: State, w: WorkerId, k: Key, a: ItemAction)
    requires Base(s) && ItemEnabled(s, w, k, a)
    ensures Base(ApplyItem(s, w, k, a))
  {
    var t := ApplyItem(s, w, k, a);
    ItemOnward(s, w, k, a);
    assert MarkedChunks(t) == MarkedChunks(s);
    assert t.procs[w].pc.items.Keys == s.procs[w].pc.items.Keys;
    forall v | v in t.procs ensures ProcInv(t, v) {
      if v != w {
        OthersKeep(s, t, v);
      }
    }
  }

  lemma PassBase(s: State, w: WorkerId, a: PassAction)
    requires Base(s) && PassEnabled(s, w, a)
    ensures Base(ApplyPass(s, w, a))
  {
    var t := ApplyPass(s, w, a);
    PassOnward(s, w, a);
    assert MarkedChunks(t) == MarkedChunks(s);
    forall v | v in t.procs ensures ProcInv(t, v) {
      if v != w {
        OthersKeep(s, t, v);
      }
    }
  }

  lemma HitBase(s: State, w: WorkerId, k: Key, a: HitAction)
    requires Base(s) && HitEnabled(s, w, k, a)
    ensures Base(ApplyHit(s, w, k, a))
  {
    var t := ApplyHit(s, w, k, a);
    HitOnward(s, w, k, a);
    assert MarkedChunks(t) == MarkedChunks(s);
    assert t.procs[w].pc.hits.Keys == s.procs[w].pc.hits.Keys;
    forall v | v in t.procs ensures ProcInv(t, v) {
      if v != w {
        OthersKeep(s, t, v);
      }
    }
  }

  lemma StepBase(s: State, a: Action)
    requires Base(s) && Enabled(s, a)
    ensures Base(Apply(s, a))
  {
    match a
    case Create(ca) => CreateBase(s, ca);
    case Watch1(wa) => Watch1Base(s, wa);
    case Watch2(wa) => Watch2Base(s, wa);
    case Control(ca) => ControlBase(s, ca);
    case Chunk(w, ca) => ChunkBase(s, w, ca);
    case Proc(w, pa) => ProcBase(s, w, pa);
    case Loop(w, la) => LoopBase(s, w, la);
    case Item(w, k, ia) => ItemBase(s, w, k, ia);
    case Pass(w, va) => PassBase(s, w, va);
    case Hit(w, k, ha) => HitBase(s, w, k, ha);
  }

  lemma {:induction false} RunBase(ss: seq<State>, acts: seq<Action>, i: nat)
    requires IsRun(ss, acts) && i < |ss|
    ensures Base(ss[i])
  {
    if i == 0 {
      InitBase(ss[0]);
    } else {
      RunBase(ss, acts, i - 1);
      assert StepAt(ss, acts, i - 1);
      StepBase(ss[i - 1], acts[i - 1]);
    }
  }
}
