/** In every run: where a stored result comes from, who holds a row, and what the job counts. */
module PipelineRows {
  import opened Common
  import opened Db
  import opened Pipeline
  import opened PipelineBase

  // ---- Results ----

  /** The action stores `row` for the key: the delay of a hit, or the row that the service's answer made. */
  ghost predicate Stores(s: State, a: Action, k: Key, row: ResultRow) {
    match a
    case Item(w, j, StoreHit) =>
      j == k && AtItem(s, w, k) && s.procs[w].pc.items[k] == HitUpsert(row.delay)
      && row == ResultRow(TlsOk, "", "", "", row.delay)
    case Hit(w, j, StoreAccept) => j == k && AtHit(s, w, k) && s.procs[w].pc.hits[k] == Accepting(row)
    case _ => false
  }

  /** A refusal writes the colo of a `tls-ok` row and nothing else. */
  predicate SameButColo(from: ResultRow, to: ResultRow) {
    to == from || (from.status == TlsOk && to == from.(colo := to.colo))
  }

  /** What one step does to one result. */
  ghost predicate Traced(s: State, a: Action, t: State, k: Key) {
    k in t.db.results ==>
      || (k in s.db.results && SameButColo(s.db.results[k], t.db.results[k]))
      || Stores(s, a, k, t.db.results[k])
  }

  lemma ItemTraced(s: State, w: WorkerId, j: Key, a: ItemAction, k: Key)
    requires ItemEnabled(s, w, j, a)
    ensures Traced(s, Item(w, j, a), ApplyItem(s, w, j, a), k)
  {
  }

  lemma HitTraced(s: State, w: WorkerId, j: Key, a: HitAction, k: Key)
    requires HitEnabled(s, w, j, a)
    ensures Traced(s, Hit(w, j, a), ApplyHit(s, w, j, a), k)
  {
  }

  lemma Watch2Traced(s: State, a: Watch2Action, k: Key)
    requires Watch2Enabled(s, a)
    ensures Traced(s, Watch2(a), ApplyWatch2(s, a), k)
  {
  }

  lemma LoopTraced(s: State, w: WorkerId, a: LoopAction, k: Key)
    requires LoopEnabled(s, w, a)
    ensures Traced(s, Loop(w, a), ApplyLoop(s, w, a), k)
  {
  }

  lemma StepTraced(s: State, a: Action, k: Key)
    requires Enabled(s, a)
    ensures Traced(s, a, Apply(s, a), k)
  {
    match a
    case Item(w, j, ia) => ItemTraced(s, w, j, ia, k);
    case Hit(w, j, ha) => HitTraced(s, w, j, ha, k);
    case Watch2(wa) => Watch2Traced(s, wa, k);
    case Loop(w, la) => LoopTraced(s, w, la, k);
    case _ => assert Apply(s, a).db.results == s.db.results;
  }

  /**
   Behind every stored result there is an action that stored it: for a `tls-ok` row, up to the colo that
   a refusal wrote, the hit of a scan with that delay; for a verified row exactly the accepted answer.
   */
  lemma {:induction false} ResultSource(ss: seq<State>, acts: seq<Action>, i: nat, k: Key)
    returns (m: nat, row: ResultRow)
    requires IsRun(ss, acts) && i < |ss| && k in ss[i].db.results
    ensures m < i && Stores(ss[m], acts[m], k, row) && SameButColo(row, ss[i].db.results[k])
  {
    assert i > 0 && StepAt(ss, acts, i - 1);
    StepTraced(ss[i - 1], acts[i - 1], k);
    if Stores(ss[i - 1], acts[i - 1], k, ss[i].db.results[k]) {
      m, row := i - 1, ss[i].db.results[k];
    } else {
      m, row := ResultSource(ss, acts, i - 1, k);
    }
  }

  // ---- Rows being processed ----

  /** A row that is being processed names its worker. */
  predicate RowsHaveWorkers(t: Tables) {
    forall k | k in t.work :: t.work[k].status == Processing ==> t.work[k].worker.Some?
  }

  lemma ItemHasWorkers(s: State, w: WorkerId, k: Key, a: ItemAction)
    requires RowsHaveWorkers(s.db) && ItemEnabled(s, w, k, a)
    ensures RowsHaveWorkers(ApplyItem(s, w, k, a).db)
  {
  }

  lemma LoopHasWorkers(s: State, w: WorkerId, a: LoopAction)
    requires RowsHaveWorkers(s.db) && LoopEnabled(s, w, a)
    ensures RowsHaveWorkers(ApplyLoop(s, w, a).db)
  {
  }

  lemma HitHasWorkers(s: State, w: WorkerId, k: Key, a: HitAction)
    requires RowsHaveWorkers(s.db) && HitEnabled(s, w, k, a)
    ensures RowsHaveWorkers(ApplyHit(s, w, k, a).db)
  {
  }

  lemma WatchersHaveWorkers(s: State, a: Action)
    requires RowsHaveWorkers(s.db) && Enabled(s, a) && (a.Watch1? || a.Watch2? || a.Control?)
    ensures RowsHaveWorkers(Apply(s, a).db)
  {
    match a
    case Watch1(wa) => assert RowsHaveWorkers(ApplyWatch1(s, wa).db);
    case Watch2(wa) => assert RowsHaveWorkers(ApplyWatch2(s, wa).db);
    case Control(ca) => assert RowsHaveWorkers(ApplyControl(s, ca).db);
  }

  lemma OthersHaveWorkers(s: State, a: Action)
    requires Enabled(s, a) && (a.Create? || a.Chunk? || a.Proc? || a.Pass?)
    ensures Apply(s, a).db.work == s.db.work
  {
    match a
    case Create(ca) => assert ApplyCreate(s, ca).db.work == s.db.work;
    case Chunk(w, ca) => assert ApplyChunk(s, w, ca).db.work == s.db.work;
    case Proc(w, pa) => assert ApplyProc(s, w, pa).db.work == s.db.work;
    case Pass(w, va) => assert ApplyPass(s, w, va).db.work == s.db.work;
  }

  lemma {:induction false} RunHasWorkers(ss: seq<State>, acts: seq<Action>, i: nat)
    requires IsRun(ss, acts) && i < |ss|
    ensures RowsHaveWorkers(ss[i].db)
  {
    if i > 0 {
      RunHasWorkers(ss, acts, i - 1);
      assert StepAt(ss, acts, i - 1);
      match acts[i - 1]
      case Item(w, k, ia) => ItemHasWorkers(ss[i - 1], w, k, ia);
      case Loop(w, la) => LoopHasWorkers(ss[i - 1], w, la);
      case Hit(w, k, ha) => HitHasWorkers(ss[i - 1], w, k, ha);
      case Watch1(_) => WatchersHaveWorkers(ss[i - 1], acts[i - 1]);
      case Watch2(_) => WatchersHaveWorkers(ss[i - 1], acts[i - 1]);
      case Control(_) => WatchersHaveWorkers(ss[i - 1], acts[i - 1]);
      case _ => OthersHaveWorkers(ss[i - 1], acts[i - 1]);
    }
  }

  /**
   Crash recovery makes exactly the rows pending that a worker who is not online was processing, and
   each of them can be claimed again; afterwards every row being processed is held by an online worker.
   */
  lemma CrashRecovery(ss: seq<State>, acts: seq<Action>, i: nat, k: Key)
    requires IsRun(ss, acts) && i < |acts| && acts[i] == Watch2(RecoverRows) && k in ss[i].db.work
    ensures k in ss[i + 1].db.work && ss[i + 1].db == ss[i].db.(work := ss[i + 1].db.work)
    ensures var row, row' := ss[i].db.work[k], ss[i + 1].db.work[k];
      && (row.status == Processing ==> row.worker.Some?)
      && row' == if row.status == Processing && row.worker.value !in ss[i].db.online
                 then WorkRow(Pending, None) else row
  {
    RunHasWorkers(ss, acts, i);
    assert StepAt(ss, acts, i);
    assert ss[i + 1] == ApplyWatch2(ss[i], RecoverRows);
  }

  // ---- What the job row counts ----

  predicate CountsQueue(s: State) {
    && (s.db.job.phase == Phase2 || s.db.job.phase == PhaseDone ==> s.db.job.totalItems == |s.db.work|)
    && (s.w1.W1SetPhase? ==> s.w1.items == |s.db.work|)
    && (s.w2.W2SetDone? ==> s.w2.items == |s.db.work|)
  }

  lemma SameSize(s: State, t: State)
    requires Base(s) && Onward(s, t) && Filled(s)
    ensures |t.db.work| == |s.db.work|
  {
    assert |t.db.work| == |t.db.work.Keys| && |s.db.work| == |s.db.work.Keys|;
  }

  lemma Watch1Counts(s: State, a: Watch1Action)
    requires Base(s) && CountsQueue(s) && Watch1Enabled(s, a)
    ensures CountsQueue(ApplyWatch1(s, a))
  {
    Watch1Onward(s, a);
    if Filled(s) {
      SameSize(s, ApplyWatch1(s, a));
    }
  }

  lemma Watch2Counts(s: State, a: Watch2Action)
    requires Base(s) && CountsQueue(s) && Watch2Enabled(s, a)
    ensures CountsQueue(ApplyWatch2(s, a))
  {
    Watch2Onward(s, a);
    if Filled(s) {
      SameSize(s, ApplyWatch2(s, a));
    }
  }

  /** The other steps leave alone what the watchers count and write. */
  ghost predicate SameCounts(s: State, t: State) {
    && t.db.job.phase == s.db.job.phase && t.db.job.totalItems == s.db.job.totalItems
    && (t.w1 == s.w1 || t.w1 == W1Idle) && (t.w2 == s.w2 || t.w2 == W2Idle)
  }

  lemma OthersCount(s: State, a: Action)
    requires Enabled(s, a) && !a.Watch1? && !a.Watch2?
    ensures SameCounts(s, Apply(s, a))
  {
    match a
    case Create(ca) => assert SameCounts(s, ApplyCreate(s, ca));
    case Control(ca) => assert SameCounts(s, ApplyControl(s, ca));
    case Chunk(w, ca) => assert SameCounts(s, ApplyChunk(s, w, ca));
    case Proc(w, pa) => ProcJob(s, w, pa);
    case Loop(w, la) => LoopJob(s, w, la);
    case Item(w, k, ia) => ItemJob(s, w, k, ia);
    case Pass(w, va) => PassJob(s, w, va);
    case Hit(w, k, ha) => HitJob(s, w, k, ha);
  }

  lemma OtherStepCounts(s: State, a: Action)
    requires Base(s) && CountsQueue(s) && Enabled(s, a) && !a.Watch1? && !a.Watch2?
    ensures CountsQueue(Apply(s, a))
  {
    OthersCount(s, a);
    StepOnward(s, a);
    if Filled(s) {
      SameSize(s, Apply(s, a));
    }
  }

  lemma {:induction false} RunCounts(ss: seq<State>, acts: seq<Action>, i: nat)
    requires IsRun(ss, acts) && i < |ss|
    ensures CountsQueue(ss[i])
  {
    if i > 0 {
      RunCounts(ss, acts, i - 1);
      RunBase(ss, acts, i - 1);
      assert StepAt(ss, acts, i - 1);
      match acts[i - 1]
      case Watch1(wa) => Watch1Counts(ss[i - 1], wa);
      case Watch2(wa) => Watch2Counts(ss[i - 1], wa);
      case _ => OtherStepCounts(ss[i - 1], acts[i - 1]);
    }
  }

  /** In phase 2 and once the job is done its number of items is the number of rows phase 1 inserted. */
  lemma ItemsAreInsertedRows(ss: seq<State>, acts: seq<Action>, i: nat)
    requires IsRun(ss, acts) && i < |ss|
    requires ss[i].db.job.phase == Phase2 || ss[i].db.job.phase == PhaseDone
    ensures ss[i].db.job.totalItems == |ss[i].db.masscan|
  {
    RunCounts(ss, acts, i);
    RunBase(ss, acts, i);
    assert |ss[i].db.work| == |ss[i].db.work.Keys|;
  }
}
