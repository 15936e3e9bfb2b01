/** What the history of a run records, and which delay a stored result carries, in terms of the actions taken. */
module PipelineHistory {
  import opened Common
  import opened Db
  import opened Pipeline

  // ---- The history ----

  predicate ScansRow(a: Action, k: Key) {
    a.Item? && a.ik == k && a.ia.Outcome?
  }

  /** The outcome of the last scan of the row among the first `n` actions. */
  function LastOutcome(acts: seq<Action>, n: nat, k: Key): Option<bool>
    requires n <= |acts|
  {
    if n == 0 then None
    else if ScansRow(acts[n - 1], k) then Some(acts[n - 1].ia.hit)
    else LastOutcome(acts, n - 1, k)
  }

  function Recorded(s: State, k: Key): Option<bool> {
    if k in s.hist.lastScan then Some(s.hist.lastScan[k]) else None
  }

  predicate StoresVerdict(a: Action, k: Key, accepted: bool) {
    a.Hit? && a.hk == k && a.ha == if accepted then StoreAccept else StoreReject
  }

  /** What one step adds to the history. */
  ghost predicate HistoryStep(s: State, a: Action, t: State) {
    && (forall k :: Recorded(t, k) == if ScansRow(a, k) then Some(a.ia.hit) else Recorded(s, k))
    && (forall k :: k in t.hist.accepted <==> k in s.hist.accepted || StoresVerdict(a, k, true))
    && (forall k :: k in t.hist.rejected <==> k in s.hist.rejected || StoresVerdict(a, k, false))
    && (t.hist.cleaned <==> s.hist.cleaned || a == Watch2(CleanUp))
  }

  lemma ItemHistoryStep(s: State, w: WorkerId, k: Key, a: ItemAction)
    requires ItemEnabled(s, w, k, a)
    ensures HistoryStep(s, Item(w, k, a), ApplyItem(s, w, k, a))
  {
  }

  lemma HitHistoryStep(s: State, w: WorkerId, k: Key, a: HitAction)
    requires HitEnabled(s, w, k, a)
    ensures HistoryStep(s, Hit(w, k, a), ApplyHit(s, w, k, a))
  {
  }

  lemma Watch2HistoryStep(s: State, a: Watch2Action)
    requires Watch2Enabled(s, a)
    ensures HistoryStep(s, Watch2(a), ApplyWatch2(s, a))
  {
  }

  lemma SameHistory(s: State, a: Action)
    requires Enabled(s, a) && !a.Item? && !a.Hit? && !a.Watch2?
    ensures Apply(s, a).hist == s.hist.(stole := Apply(s, a).hist.stole)
  {
    match a
    case Create(ca) => assert ApplyCreate(s, ca).hist == s.hist;
    case Watch1(wa) => assert ApplyWatch1(s, wa).hist == s.hist;
    case Control(ca) => assert ApplyControl(s, ca).hist == s.hist.(stole := ApplyControl(s, ca).hist.stole);
    case Chunk(w, ca) => assert ApplyChunk(s, w, ca).hist == s.hist;
    case Proc(w, pa) => assert ApplyProc(s, w, pa).hist == s.hist;
    case Loop(w, la) => assert ApplyLoop(s, w, la).hist == s.hist;
    case Pass(w, va) => assert ApplyPass(s, w, va).hist == s.hist;
  }

  lemma StepHistory(s: State, a: Action)
    requires Enabled(s, a)
    ensures HistoryStep(s, a, Apply(s, a))
  {
    match a
    case Item(w, k, ia) => ItemHistoryStep(s, w, k, ia);
    case Hit(w, k, ha) => HitHistoryStep(s, w, k, ha);
    case Watch2(wa) => Watch2HistoryStep(s, wa);
    case _ => SameHistory(s, a);
  }

  /**
   The history records the actions: the last outcome of every row that was scanned, which rows were
   accepted and refused, and whether the clean-up has run.
   */
  lemma {:induction false} HistoryIsTheActions(ss: seq<State>, acts: seq<Action>, n: nat, k: Key)
    requires IsRun(ss, acts) && n < |ss|
    ensures Recorded(ss[n], k) == LastOutcome(acts, n, k)
    ensures k in ss[n].hist.accepted <==> exists m | 0 <= m < n :: StoresVerdict(acts[m], k, true)
    ensures k in ss[n].hist.rejected <==> exists m | 0 <= m < n :: StoresVerdict(acts[m], k, false)
    ensures ss[n].hist.cleaned <==> exists m | 0 <= m < n :: acts[m] == Watch2(CleanUp)
  {
    if n > 0 {
      HistoryIsTheActions(ss, acts, n - 1, k);
      assert StepAt(ss, acts, n - 1);
      StepHistory(ss[n - 1], acts[n - 1]);
    }
  }

  // ---- Delays ----

  /** The delays that scans among the first `n` actions have measured for hits. */
  function Measured(acts: seq<Action>, n: nat): set<(Key, int)>
    requires n <= |acts|
  {
    if n == 0 then {} else Measured(acts, n - 1) + Measures(acts[n - 1])
  }

  function Measures(a: Action): set<(Key, int)> {
    if a.Item? && a.ia.Outcome? && a.ia.hit then {(a.ik, a.ia.delay)} else {}
  }

  predicate PcMeasured(pc: MainPc, ms: set<(Key, int)>) {
    match pc
    case ScanBatch(items, _) => forall k | k in items :: items[k].HitUpsert? ==> (k, items[k].delay) in ms
    case VerifyBatch(hits) =>
      forall k | k in hits ::
        (hits[k].Checking? ==> (k, hits[k].delay) in ms) && (hits[k].Accepting? ==> (k, hits[k].row.delay) in ms)
    case _ => true
  }

  predicate AllMeasured(s: State, ms: set<(Key, int)>) {
    && (forall k | k in s.db.results :: (k, s.db.results[k].delay) in ms)
    && forall w | w in s.procs :: PcMeasured(s.procs[w].pc, ms)
  }

  /** A step that stores no result and gives no process anything to store. */
  lemma QuietMeasured(s: State, t: State, ms: set<(Key, int)>)
    requires AllMeasured(s, ms)
    requires forall k | k in t.db.results :: k in s.db.results && t.db.results[k] == s.db.results[k]
    requires forall w | w in t.procs :: w in s.procs && t.procs[w].pc == s.procs[w].pc
    ensures AllMeasured(t, ms)
  {
  }

  lemma MasterMeasured(s: State, a: Action, ms: set<(Key, int)>)
    requires AllMeasured(s, ms) && Enabled(s, a)
    requires a.Create? || a.Watch1? || a.Watch2? || a.Control? || a.Chunk?
    ensures AllMeasured(Apply(s, a), ms)
  {
    match a
    case Create(ca) => QuietMeasured(s, ApplyCreate(s, ca), ms);
    case Watch1(wa) => QuietMeasured(s, ApplyWatch1(s, wa), ms);
    case Watch2(wa) => QuietMeasured(s, ApplyWatch2(s, wa), ms);
    case Control(ca) => QuietMeasured(s, ApplyControl(s, ca), ms);
    case Chunk(w, ca) => QuietMeasured(s, ApplyChunk(s, w, ca), ms);
  }

  lemma ProcMeasured(s: State, w: WorkerId, a: ProcAction, ms: set<(Key, int)>)
    requires AllMeasured(s, ms) && ProcEnabled(s, w, a)
    ensures AllMeasured(ApplyProc(s, w, a), ms)
  {
  }

  lemma LoopMeasured(s: State, w: WorkerId, a: LoopAction, ms: set<(Key, int)>)
    requires AllMeasured(s, ms) && LoopEnabled(s, w, a)
    ensures AllMeasured(ApplyLoop(s, w, a), ms)
  {
    assert ApplyLoop(s, w, a).db.results == s.db.results;
  }

  lemma ItemMeasured(s: State, w: WorkerId, k: Key, a: ItemAction, ms: set<(Key, int)>)
    requires AllMeasured(s, ms) && ItemEnabled(s, w, k, a)
    ensures AllMeasured(ApplyItem(s, w, k, a), ms + Measures(Item(w, k, a)))
  {
    assert PcMeasured(s.procs[w].pc, ms);
  }

  lemma PassMeasured(s: State, w: WorkerId, a: PassAction, ms: set<(Key, int)>)
    requires AllMeasured(s, ms) && PassEnabled(s, w, a)
    ensures AllMeasured(ApplyPass(s, w, a), ms)
  {
  }

  lemma HitMeasured(s: State, w: WorkerId, k: Key, a: HitAction, ms: set<(Key, int)>)
    requires AllMeasured(s, ms) && HitEnabled(s, w, k, a)
    ensures AllMeasured(ApplyHit(s, w, k, a), ms)
  {
    assert PcMeasured(s.procs[w].pc, ms);
  }

  lemma StepMeasured(s: State, a: Action, ms: set<(Key, int)>)
    requires AllMeasured(s, ms) && Enabled(s, a)
    ensures AllMeasured(Apply(s, a), ms + Measures(a))
  {
    match a
    case Proc(w, pa) => ProcMeasured(s, w, pa, ms);
    case Loop(w, la) => LoopMeasured(s, w, la, ms);
    case Item(w, k, ia) => ItemMeasured(s, w, k, ia, ms);
    case Pass(w, va) => PassMeasured(s, w, va, ms);
    case Hit(w, k, ha) => HitMeasured(s, w, k, ha, ms);
    case _ => MasterMeasured(s, a, ms);
  }

  /** The delay of a result, also of a verified one, is one that a scan of this row measured. */
  lemma {:induction false} DelaysAreMeasured(ss: seq<State>, acts: seq<Action>, n: nat)
    requires IsRun(ss, acts) && n < |ss|
    ensures AllMeasured(ss[n], Measured(acts, n))
    ensures forall k | k in ss[n].db.results :: (k, ss[n].db.results[k].delay) in Measured(acts, n)
  {
    if n > 0 {
      DelaysAreMeasured(ss, acts, n - 1);
      assert StepAt(ss, acts, n - 1);
      StepMeasured(ss[n - 1], acts[n - 1], Measured(acts, n - 1));
    }
  }
}
