/** In every run, cancelled or not, a row that a worker has scanned is marked as done. */
module PipelineCommit {
  import opened Common
  import opened Db
  import opened Pipeline
  import opened PipelineBase

  predicate IsDone(t: Tables, k: Key) {
    k in t.work && t.work[k].status == Done
  }

  /** Some goroutine is on its way to commit the row. */
  predicate Underway(items: map<Key, ScanPc>, k: Key) {
    exists j | j in items && items[j].Flushing? :: k in items[j].batch
  }

  /** Where a row of a batch is kept once its goroutine is through. */
  predicate ItemKept(t: Tables, items: map<Key, ScanPc>, buf: set<Key>, k: Key)
    requires k in items
  {
    match items[k]
    case Flushing(batch) => k in batch && batch <= items.Keys && |batch| == 250
    case Finished => IsDone(t, k) || k in buf || Underway(items, k)
    case _ => true
  }

  predicate RowsKept(t: Tables, pc: MainPc) {
    match pc
    case ScanBatch(items, buf) =>
      buf <= items.Keys && |buf| < 250 && forall k | k in items :: ItemKept(t, items, buf, k)
    case EndFlush(batch) => batch <= t.work.Keys
    case _ => true
  }

  predicate AllKept(s: State) {
    forall w | w in s.procs :: RowsKept(s.db, s.procs[w].pc)
  }

  lemma RowsStayKept(s: State, t: State, pc: MainPc)
    requires Onward(s, t) && RowsKept(s.db, pc)
    ensures RowsKept(t.db, pc)
  {
    if pc.ScanBatch? {
      forall k | k in pc.items ensures ItemKept(t.db, pc.items, pc.buf, k) {
        assert ItemKept(s.db, pc.items, pc.buf, k);
      }
    }
  }

  // ---- One step ----

  lemma ItemKeepsSibling(s: State, w: WorkerId, k: Key, a: ItemAction, j: Key)
    requires Base(s) && AllKept(s) && ItemEnabled(s, w, k, a) && AtItem(s, w, j) && j != k
    requires s.procs[w].pc.items[j] == Finished
    ensures var t := ApplyItem(s, w, k, a); var pc := t.procs[w].pc;
      IsDone(t.db, j) || j in pc.buf || Underway(pc.items, j)
  {
    var p, t := s.procs[w].pc, ApplyItem(s, w, k, a);
    assert RowsKept(s.db, p) && ProcInv(s, w);
    assert ItemKept(s.db, p.items, p.buf, j);
    ItemOnward(s, w, k, a);
    if Underway(p.items, j) {
      var i :| i in p.items && p.items[i].Flushing? && j in p.items[i].batch;
      if i != k {
        assert t.procs[w].pc.items[i] == p.items[i];
      } else {
        assert ItemKept(s.db, p.items, p.buf, k);
      }
    } else if j in p.buf && j !in t.procs[w].pc.buf {
      assert t.procs[w].pc.items[k] == Flushing(p.buf + {k});
    }
  }

  lemma ItemKeepsOwn(s: State, w: WorkerId, k: Key, a: ItemAction)
    requires Base(s) && AllKept(s) && ItemEnabled(s, w, k, a)
    ensures var t := ApplyItem(s, w, k, a); var pc := t.procs[w].pc;
      ItemKept(t.db, pc.items, pc.buf, k) && pc.buf <= pc.items.Keys && |pc.buf| < 250
  {
    var p := s.procs[w].pc;
    assert RowsKept(s.db, p) && ProcInv(s, w);
    assert ItemKept(s.db, p.items, p.buf, k);
    if a == AppendItem {
      assert |p.buf + {k}| <= |p.buf| + 1;
    }
  }

  lemma ItemKeeps(s: State, w: WorkerId, k: Key, a: ItemAction)
    requires Base(s) && AllKept(s) && ItemEnabled(s, w, k, a)
    ensures RowsKept(ApplyItem(s, w, k, a).db, ApplyItem(s, w, k, a).procs[w].pc)
  {
    var p, t := s.procs[w].pc, ApplyItem(s, w, k, a);
    assert RowsKept(s.db, p);
    ItemKeepsOwn(s, w, k, a);
    var pc := t.procs[w].pc;
    assert pc.items.Keys == p.items.Keys;
    forall j | j in pc.items && j != k ensures ItemKept(t.db, pc.items, pc.buf, j) {
      assert pc.items[j] == p.items[j] && ItemKept(s.db, p.items, p.buf, j);
      if p.items[j] == Finished {
        ItemKeepsSibling(s, w, k, a, j);
      }
    }
  }

  lemma LoopKeeps(s: State, w: WorkerId, a: LoopAction)
    requires Base(s) && AllKept(s) && LoopEnabled(s, w, a)
    ensures RowsKept(ApplyLoop(s, w, a).db, ApplyLoop(s, w, a).procs[w].pc)
  {
    assert RowsKept(s.db, s.procs[w].pc) && ProcInv(s, w);
  }

  /** A step in which at most the process of `w` goes on. */
  lemma KeptBy(s: State, t: State, w: WorkerId)
    requires AllKept(s) && Onward(s, t)
    requires forall v | v in t.procs && v != w :: v in s.procs && t.procs[v] == s.procs[v]
    requires w in t.procs ==> RowsKept(t.db, t.procs[w].pc)
    ensures AllKept(t)
  {
    forall v | v in t.procs && v != w ensures RowsKept(t.db, t.procs[v].pc) {
      RowsStayKept(s, t, s.procs[v].pc);
    }
  }

  lemma MasterKeeps(s: State, t: State)
    requires AllKept(s) && Onward(s, t) && t.procs == s.procs
    ensures AllKept(t)
  {
    forall v | v in t.procs ensures RowsKept(t.db, t.procs[v].pc) {
      RowsStayKept(s, t, s.procs[v].pc);
    }
  }

  lemma CreateStepKeeps(s: State, a: CreateAction)
    requires Base(s) && AllKept(s) && CreateEnabled(s, a)
    ensures AllKept(ApplyCreate(s, a))
  {
    CreateOnward(s, a);
    MasterKeeps(s, ApplyCreate(s, a));
  }

  lemma Watch1StepKeeps(s: State, a: Watch1Action)
    requires Base(s) && AllKept(s) && Watch1Enabled(s, a)
    ensures AllKept(ApplyWatch1(s, a))
  {
    Watch1Onward(s, a);
    MasterKeeps(s, ApplyWatch1(s, a));
  }

  lemma Watch2StepKeeps(s: State, a: Watch2Action)
    requires Base(s) && AllKept(s) && Watch2Enabled(s, a)
    ensures AllKept(ApplyWatch2(s, a))
  {
    Watch2Onward(s, a);
    MasterKeeps(s, ApplyWatch2(s, a));
  }

  lemma ControlStepKeeps(s: State, a: ControlAction)
    requires Base(s) && AllKept(s) && ControlEnabled(s, a)
    ensures AllKept(ApplyControl(s, a))
  {
    ControlOnward(s, a);
    MasterKeeps(s, ApplyControl(s, a));
  }

  lemma ChunkStepKeeps(s: State, w: WorkerId, a: ChunkAction)
    requires Base(s) && AllKept(s) && ChunkEnabled(s, w, a)
    ensures AllKept(ApplyChunk(s, w, a))
  {
    ChunkOnward(s, w, a);
    MasterKeeps(s, ApplyChunk(s, w, a));
  }

  lemma ProcStepKeeps(s: State, w: WorkerId, a: ProcAction)
    requires Base(s) && AllKept(s) && ProcEnabled(s, w, a)
    ensures AllKept(ApplyProc(s, w, a))
  {
    ProcOnward(s, w, a);
    KeptBy(s, ApplyProc(s, w, a), w);
  }

  lemma LoopStepKeeps(s: State, w: WorkerId, a: LoopAction)
    requires Base(s) && AllKept(s) && LoopEnabled(s, w, a)
    ensures AllKept(ApplyLoop(s, w, a))
  {
    LoopOnward(s, w, a);
    LoopKeeps(s, w, a);
    KeptBy(s, ApplyLoop(s, w, a), w);
  }

  lemma ItemStepKeeps(s: State, w: WorkerId, k: Key, a: ItemAction)
    requires Base(s) && AllKept(s) && ItemEnabled(s, w, k, a)
    ensures AllKept(ApplyItem(s, w, k, a))
  {
    ItemOnward(s, w, k, a);
    ItemKeeps(s, w, k, a);
    KeptBy(s, ApplyItem(s, w, k, a), w);
  }

  lemma PassStepKeeps(s: State, w: WorkerId, a: PassAction)
    requires Base(s) && AllKept(s) && PassEnabled(s, w, a)
    ensures AllKept(ApplyPass(s, w, a))
  {
    PassOnward(s, w, a);
    KeptBy(s, ApplyPass(s, w, a), w);
  }

  lemma HitStepKeeps(s: State, w: WorkerId, k: Key, a: HitAction)
    requires Base(s) && AllKept(s) && HitEnabled(s, w, k, a)
    ensures AllKept(ApplyHit(s, w, k, a))
  {
    HitOnward(s, w, k, a);
    KeptBy(s, ApplyHit(s, w, k, a), w);
  }

  lemma StepKeeps(s: State, a: Action)
    requires Base(s) && AllKept(s) && Enabled(s, a)
    ensures AllKept(Apply(s, a))
  {
    match a
    case Create(ca) => CreateStepKeeps(s, ca);
    case Watch1(wa) => Watch1StepKeeps(s, wa);
    case Watch2(wa) => Watch2StepKeeps(s, wa);
    case Control(ca) => ControlStepKeeps(s, ca);
    case Chunk(w, ca) => ChunkStepKeeps(s, w, ca);
    case Proc(w, pa) => ProcStepKeeps(s, w, pa);
    case Loop(w, la) => LoopStepKeeps(s, w, la);
    case Item(w, k, ia) => ItemStepKeeps(s, w, k, ia);
    case Pass(w, va) => PassStepKeeps(s, w, va);
    case Hit(w, k, ha) => HitStepKeeps(s, w, k, ha);
  }

  /**
   In every reachable state a row whose goroutine is through is done, or it waits in the buffer of its
   worker, or it is in a batch that is being committed; a buffer holds fewer than 250 rows and a batch
   that a goroutine commits exactly 250.
   */
  lemma {:induction false} RunKept(ss: seq<State>, acts: seq<Action>, i: nat)
    requires IsRun(ss, acts) && i < |ss|
    ensures AllKept(ss[i])
  {
    if i > 0 {
      RunKept(ss, acts, i - 1);
      RunBase(ss, acts, i - 1);
      assert StepAt(ss, acts, i - 1);
      StepKeeps(ss[i - 1], acts[i - 1]);
    }
  }

  // ---- From the claim to the commit ----

  /** The worker still has the row in hand: its goroutine, or what the loop flushes at the end of a batch. */
  predicate InHand(s: State, w: WorkerId, k: Key) {
    && w in s.procs
    && match s.procs[w].pc
       case ScanBatch(items, _) => k in items && items[k] != Panicked
       case EndFlush(batch) => k in batch
       case _ => false
  }

  /** The loop hands every finished row on, or has seen it become done. */
  lemma OwnLoopHolds(s: State, w: WorkerId, a: LoopAction, k: Key)
    requires Base(s) && AllKept(s) && LoopEnabled(s, w, a) && InHand(s, w, k)
    ensures InHand(ApplyLoop(s, w, a), w, k) || IsDone(ApplyLoop(s, w, a).db, k)
  {
    var pc := s.procs[w].pc;
    assert RowsKept(s.db, pc);
    if a == WaitAll {
      assert ItemKept(s.db, pc.items, pc.buf, k);
    }
  }

  lemma LoopHolds(s: State, v: WorkerId, a: LoopAction, w: WorkerId, k: Key)
    requires Base(s) && AllKept(s) && LoopEnabled(s, v, a) && InHand(s, w, k)
    ensures InHand(ApplyLoop(s, v, a), w, k) || IsDone(ApplyLoop(s, v, a).db, k)
  {
    if v == w {
      OwnLoopHolds(s, w, a, k);
    } else {
      assert ApplyLoop(s, v, a).procs[w] == s.procs[w];
    }
  }

  lemma ItemHolds(s: State, v: WorkerId, j: Key, a: ItemAction, w: WorkerId, k: Key)
    requires ItemEnabled(s, v, j, a) && InHand(s, w, k) && !(v == w && j == k && a == ScanPanic)
    ensures InHand(ApplyItem(s, v, j, a), w, k)
  {
  }

  lemma ProcHolds(s: State, v: WorkerId, a: ProcAction, w: WorkerId, k: Key)
    requires ProcEnabled(s, v, a) && InHand(s, w, k) && !(v == w && a == StopProcess)
    ensures InHand(ApplyProc(s, v, a), w, k)
  {
  }

  lemma PassHolds(s: State, v: WorkerId, a: PassAction, w: WorkerId, k: Key)
    requires PassEnabled(s, v, a) && InHand(s, w, k)
    ensures InHand(ApplyPass(s, v, a), w, k)
  {
  }

  lemma HitHolds(s: State, v: WorkerId, j: Key, a: HitAction, w: WorkerId, k: Key)
    requires HitEnabled(s, v, j, a) && InHand(s, w, k)
    ensures InHand(ApplyHit(s, v, j, a), w, k)
  {
  }

  lemma MasterHolds(s: State, a: Action, w: WorkerId, k: Key)
    requires Enabled(s, a) && (a.Create? || a.Watch1? || a.Watch2? || a.Control? || a.Chunk?) && InHand(s, w, k)
    ensures InHand(Apply(s, a), w, k)
  {
    assert Apply(s, a).procs == s.procs;
  }

  lemma StepHolds(s: State, a: Action, w: WorkerId, k: Key)
    requires Base(s) && AllKept(s) && Enabled(s, a) && InHand(s, w, k)
    requires a != Proc(w, StopProcess) && a != Item(w, k, ScanPanic)
    ensures InHand(Apply(s, a), w, k) || IsDone(Apply(s, a).db, k)
  {
    match a
    case Proc(v, pa) => ProcHolds(s, v, pa, w, k);
    case Loop(v, la) => LoopHolds(s, v, la, w, k);
    case Item(v, j, ia) => ItemHolds(s, v, j, ia, w, k);
    case Pass(v, va) => PassHolds(s, v, va, w, k);
    case Hit(v, j, ha) => HitHolds(s, v, j, ha, w, k);
    case _ => MasterHolds(s, a, w, k);
  }

  /**
   A claimed row is not lost: as long as its worker runs and the goroutine of the row does not panic, it
   is in hand until it is done. So when the worker has gone on from the batch, the row is done.
   */
  lemma {:induction false} ClaimedRowsAreCommitted(ss: seq<State>, acts: seq<Action>, w: WorkerId, batch: set<Key>,
                                                   k: Key, i: nat, j: nat)
    requires IsRun(ss, acts) && i < j < |ss| && acts[i] == Loop(w, Claim(batch)) && k in batch
    requires forall m | i < m < j :: acts[m] != Proc(w, StopProcess) && acts[m] != Item(w, k, ScanPanic)
    ensures InHand(ss[j], w, k) || IsDone(ss[j].db, k)
    ensures w in ss[j].procs && !ss[j].procs[w].pc.ScanBatch? && !ss[j].procs[w].pc.EndFlush? ==> IsDone(ss[j].db, k)
    decreases j
  {
    assert StepAt(ss, acts, j - 1);
    if i + 1 < j {
      ClaimedRowsAreCommitted(ss, acts, w, batch, k, i, j - 1);
      RunBase(ss, acts, j - 1);
      RunKept(ss, acts, j - 1);
      if InHand(ss[j - 1], w, k) {
        StepHolds(ss[j - 1], acts[j - 1], w, k);
      } else {
        StepOnward(ss[j - 1], acts[j - 1]);
      }
    }
  }
}
