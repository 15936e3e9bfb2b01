/** In every run, cancelled or not, a row is done only after it was scanned. */
module PipelineScanned {
  import opened Common
  import opened Db
  import opened Pipeline
  import opened PipelineBase

  /** The goroutine has an outcome for its row. */
  predicate HasOutcome(p: ScanPc) {
    !p.Scanning? && !p.Panicked?
  }

  /** Every row that a process may still mark as done was scanned. */
  predicate ProcScanned(pc: MainPc, scanned: set<Key>) {
    match pc
    case ScanBatch(items, buf) =>
      && buf <= scanned
      && forall k | k in items ::
           (HasOutcome(items[k]) ==> k in scanned) && (items[k].Flushing? ==> items[k].batch <= scanned)
    case EndFlush(batch) => batch <= scanned
    case VerifyBatch(hits) => hits.Keys <= scanned
    case _ => true
  }

  predicate ScannedInv(s: State) {
    && (forall k | k in s.db.work :: s.db.work[k].status == Done ==> k in s.hist.lastScan)
    && s.db.results.Keys <= s.hist.lastScan.Keys
    && forall w | w in s.procs :: ProcScanned(s.procs[w].pc, s.hist.lastScan.Keys)
  }

  /** A step that marks no row as done, stores no result and leaves the processes as they are, or stops one. */
  lemma QuietStep(s: State, t: State)
    requires ScannedInv(s) && t.hist.lastScan == s.hist.lastScan
    requires t.db.results.Keys <= s.db.results.Keys
    requires forall k | k in t.db.work && t.db.work[k].status == Done :: k in s.db.work && s.db.work[k].status == Done
    requires forall w | w in t.procs :: w in s.procs && t.procs[w].pc == s.procs[w].pc
    ensures ScannedInv(t)
  {
  }

  lemma CreateScanned(s: State, a: CreateAction)
    requires ScannedInv(s) && CreateEnabled(s, a)
    ensures ScannedInv(ApplyCreate(s, a))
  {
    QuietStep(s, ApplyCreate(s, a));
  }

  lemma Watch1Scanned(s: State, a: Watch1Action)
    requires ScannedInv(s) && Watch1Enabled(s, a)
    ensures ScannedInv(ApplyWatch1(s, a))
  {
    QuietStep(s, ApplyWatch1(s, a));
  }

  lemma Watch2Scanned(s: State, a: Watch2Action)
    requires ScannedInv(s) && Watch2Enabled(s, a)
    ensures ScannedInv(ApplyWatch2(s, a))
  {
    QuietStep(s, ApplyWatch2(s, a));
  }

  lemma ControlScanned(s: State, a: ControlAction)
    requires ScannedInv(s) && ControlEnabled(s, a)
    ensures ScannedInv(ApplyControl(s, a))
  {
    QuietStep(s, ApplyControl(s, a));
  }

  lemma ChunkScanned(s: State, w: WorkerId, a: ChunkAction)
    requires ScannedInv(s) && ChunkEnabled(s, w, a)
    ensures ScannedInv(ApplyChunk(s, w, a))
  {
    QuietStep(s, ApplyChunk(s, w, a));
  }

  lemma ProcStepScanned(s: State, w: WorkerId, a: ProcAction)
    requires ScannedInv(s) && ProcEnabled(s, w, a)
    ensures ScannedInv(ApplyProc(s, w, a))
  {
  }

  lemma LoopScanned(s: State, w: WorkerId, a: LoopAction)
    requires ScannedInv(s) && LoopEnabled(s, w, a)
    ensures ScannedInv(ApplyLoop(s, w, a))
  {
    assert ProcScanned(s.procs[w].pc, s.hist.lastScan.Keys);
    match a
    case Claim(batch) =>
    case CommitEnd =>
    case _ => assert ApplyLoop(s, w, a).db == s.db;
  }

  /** What a goroutine of phase 2a leaves behind. */
  lemma ItemPcScanned(s: State, w: WorkerId, k: Key, a: ItemAction)
    requires ScannedInv(s) && ItemEnabled(s, w, k, a)
    ensures var t := ApplyItem(s, w, k, a);
      && s.hist.lastScan.Keys <= t.hist.lastScan.Keys
      && ProcScanned(t.procs[w].pc, t.hist.lastScan.Keys)
  {
    assert ProcScanned(s.procs[w].pc, s.hist.lastScan.Keys);
  }

  lemma ItemDbScanned(s: State, w: WorkerId, k: Key, a: ItemAction)
    requires ScannedInv(s) && ItemEnabled(s, w, k, a)
    ensures var t := ApplyItem(s, w, k, a);
      && (forall j | j in t.db.work :: t.db.work[j].status == Done ==> j in t.hist.lastScan)
      && t.db.results.Keys <= t.hist.lastScan.Keys
  {
    assert ProcScanned(s.procs[w].pc, s.hist.lastScan.Keys);
  }

  lemma ItemScanned(s: State, w: WorkerId, k: Key, a: ItemAction)
    requires ScannedInv(s) && ItemEnabled(s, w, k, a)
    ensures ScannedInv(ApplyItem(s, w, k, a))
  {
    var t := ApplyItem(s, w, k, a);
    ItemPcScanned(s, w, k, a);
    ItemDbScanned(s, w, k, a);
    forall v | v in t.procs ensures ProcScanned(t.procs[v].pc, t.hist.lastScan.Keys) {
      if v != w {
        assert t.procs[v] == s.procs[v] && ProcScanned(s.procs[v].pc, s.hist.lastScan.Keys);
      }
    }
  }

  lemma PassScanned(s: State, w: WorkerId, a: PassAction)
    requires ScannedInv(s) && PassEnabled(s, w, a)
    ensures ScannedInv(ApplyPass(s, w, a))
  {
    if a.ReadHits? && a.batch != {} {
      assert a.batch <= s.db.results.Keys;
      assert ApplyPass(s, w, a).procs[w].pc.hits.Keys == a.batch;
    }
  }

  lemma HitScanned(s: State, w: WorkerId, k: Key, a: HitAction)
    requires ScannedInv(s) && HitEnabled(s, w, k, a)
    ensures ScannedInv(ApplyHit(s, w, k, a))
  {
    assert ProcScanned(s.procs[w].pc, s.hist.lastScan.Keys) && k in s.procs[w].pc.hits.Keys;
    var t := ApplyHit(s, w, k, a);
    assert t.procs[w].pc.hits.Keys == s.procs[w].pc.hits.Keys;
    assert t.db.results.Keys <= s.db.results.Keys + {k};
    forall j | j in t.db.work && t.db.work[j].status == Done ensures j in t.hist.lastScan {
      assert j == k || t.db.work[j] == s.db.work[j];
    }
  }

  lemma StepScanned(s: State, a: Action)
    requires ScannedInv(s) && Enabled(s, a)
    ensures ScannedInv(Apply(s, a))
  {
    match a
    case Create(ca) => CreateScanned(s, ca);
    case Watch1(wa) => Watch1Scanned(s, wa);
    case Watch2(wa) => Watch2Scanned(s, wa);
    case Control(ca) => ControlScanned(s, ca);
    case Chunk(w, ca) => ChunkScanned(s, w, ca);
    case Proc(w, pa) => ProcStepScanned(s, w, pa);
    case Loop(w, la) => LoopScanned(s, w, la);
    case Item(w, k, ia) => ItemScanned(s, w, k, ia);
    case Pass(w, va) => PassScanned(s, w, va);
    case Hit(w, k, ha) => HitScanned(s, w, k, ha);
  }

  lemma {:induction false} RunScanned(ss: seq<State>, acts: seq<Action>, i: nat)
    requires IsRun(ss, acts) && i < |ss|
    ensures ScannedInv(ss[i])
  {
    if i > 0 {
      RunScanned(ss, acts, i - 1);
      assert StepAt(ss, acts, i - 1);
      StepScanned(ss[i - 1], acts[i - 1]);
    }
  }

  /** A row is marked as done, and a result is stored, only for a row that was scanned. */
  lemma DoneRowsWereScanned(ss: seq<State>, acts: seq<Action>, i: nat, k: Key)
    requires IsRun(ss, acts) && i < |ss|
    ensures k in ss[i].db.work && ss[i].db.work[k].status == Done ==> k in ss[i].hist.lastScan
    ensures k in ss[i].db.results ==> k in ss[i].hist.lastScan
  {
    RunScanned(ss, acts, i);
  }
}
