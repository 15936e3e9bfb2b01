/**
 The v2 job pipeline for one job as a state machine.

 Every goroutine that touches the job's rows has a program counter: the goroutine that starts the
 job, the two watchers of the master, the phase-1 goroutine of each chunk, and in each worker
 process the main loop of phase 2 plus one goroutine per claimed row or per hit being verified.
 An action is one SQL statement (or one purely local decision), and any enabled action may come
 next, so a run is any interleaving. Processes may stop and start again between any two actions.
 */
module Pipeline {
  import opened Common
  import opened Db

  /** A buffer of scanned items is flushed when it reaches this many. */
  const FLUSH_AT := 250

  // ---- Program counters ----

  datatype CreatorPc =
    | Resolving
    | Chosen(ids: set<WorkerId>)
    | Publishing(unsent: set<WorkerId>)
    | CreatorEnded

  datatype ChunkPc = Unsent | Inserting | Marked

  datatype Watch1Pc = W1Idle | W1Populate | W1Count | W1SetPhase(items: nat) | W1Notify

  datatype Watch2Pc =
    | W2Idle
    | W2ReadUndone
    | W2ReadUnverified(undone: nat)
    | W2ReadVerified(undone: nat, unverified: nat)
    | W2SetVerifying(items: nat)
    | W2CountItems
    | W2SetDone(items: nat)
    | W2SetStatus
    | W2Delete

  /** One goroutine scanning one claimed row. */
  datatype ScanPc =
    | Scanning
    | HitUpsert(delay: int)
    | HitMark
    | Append
    | Flushing(batch: set<Key>)
    | Finished
    | Panicked

  /** One goroutine verifying one hit. */
  datatype VerifyPc =
    | Checking(delay: int)
    | Rejecting(colo: string)
    | Accepting(row: ResultRow)
    | AcceptMark
    | VFinished
    | VPanicked

  datatype EndReason = ByCancel | NothingToVerify | Drained

  /** The goroutine of `processPhase2` in one worker process; at most one per process. */
  datatype MainPc =
    | NotStarted
    | ScanTop
    | Fetching
    | ScanBatch(items: map<Key, ScanPc>, buf: set<Key>)
    | EndFlush(batch: set<Key>)
    | CountUndone
    | CountUnverified
    | VerifyTop
    | FetchHits
    | VerifyBatch(hits: map<Key, VerifyPc>)
    | Ended(reason: EndReason)

  datatype Process = Process(pc: MainPc, cfHits: set<Key>, scanConc: nat, verifyConc: nat)

  /** Facts about the past that no row records. */
  datatype History = History(
    lastScan: map<Key, bool>,  // outcome of the latest scan of a row: was it a hit?
    accepted: set<Key>,        // rows whose verification once succeeded
    rejected: set<Key>,        // rows whose verification once failed
    cleaned: bool,             // the clean-up delete has run
    stole: bool)               // a cancel has released a row that was being processed

  datatype State = State(
    db: Tables,
    creator: CreatorPc,
    chunks: map<WorkerId, ChunkPc>,
    w1: Watch1Pc,
    w2: Watch2Pc,
    cancels: nat,
    notified: bool,
    procs: map<WorkerId, Process>,
    hist: History)

  // ---- Actions ----

  /** The goroutine of `handleCreateJob`. */
  datatype CreateAction = ChooseWorkers | FailResolve | StartRunning | Publish(to: WorkerId)

  /** `watchPhase1To2`. */
  datatype Watch1Action = SeePhase1Done | Populate | CountQueue | EnterPhase2 | Notify

  /** `watchPhase2ToDone`. */
  datatype Watch2Action =
    | RecoverRows | SelectJob | ReadUndone | ReadUnverified | ReadVerified | EnterPhase2b
    | CountItems | EnterDone | StatusDone | CleanUp

  /** Cancel requests, and the master process stopping and starting again. */
  datatype ControlAction = CancelStatus | CancelRelease | MasterRestart

  datatype ChunkAction = InsertBatch(keys: set<Key>) | MarkChunk

  datatype ProcAction = StartProcess(scanConc: nat, verifyConc: nat) | StopProcess | GoOffline | StartPhase2

  /** The main loop of `processPhase2`. */
  datatype LoopAction = CheckCancelled | Claim(batch: set<Key>) | WaitAll | CommitEnd | SeeUndone | SeeUnverified

  /** The goroutine of one claimed row. */
  datatype ItemAction = Outcome(hit: bool, delay: int) | ScanPanic | StoreHit | MarkHit | AppendItem | CommitItem

  /** The main loop of `runPhase2b`. */
  datatype PassAction = PassCheckCancelled | ReadHits(batch: set<Key>) | EndPass

  /** The goroutine of one hit. */
  datatype HitAction = Verdict(next: VerifyPc) | VerifyPanic | StoreReject | StoreAccept | MarkAccept

  datatype Action =
    | Create(cra: CreateAction)
    | Watch1(w1a: Watch1Action)
    | Watch2(w2a: Watch2Action)
    | Control(coa: ControlAction)
    | Chunk(cw: WorkerId, cha: ChunkAction)
    | Proc(pw: WorkerId, pa: ProcAction)
    | Loop(lw: WorkerId, la: LoopAction)
    | Item(iw: WorkerId, ik: Key, ia: ItemAction)
    | Pass(vw: WorkerId, va: PassAction)
    | Hit(hw: WorkerId, hk: Key, ha: HitAction)

  // ---- Initial state: the job row has just been inserted ----

  ghost predicate Init(s: State) {
    && s.db.job == NEW_JOB
    && s.db.masscan == {} && s.db.work == map[] && s.db.results == map[]
    && s.creator == Resolving && s.chunks == map[]
    && s.w1 == W1Idle && s.w2 == W2Idle
    && s.cancels == 0 && !s.notified
    && s.procs == map[]
    && s.hist == History(map[], {}, {}, false, false)
  }

  function MarkedChunks(s: State): set<WorkerId> {
    set w | w in s.chunks && s.chunks[w] == Marked
  }

  // ---- Master ----

  predicate CreateEnabled(s: State, a: CreateAction) {
    match a
    case ChooseWorkers => s.creator == Resolving && s.db.online != {}
    case FailResolve => s.creator == Resolving
    case StartRunning => s.creator.Chosen?
    case Publish(to) => s.creator.Publishing? && to in s.creator.unsent
  }

  function ApplyCreate(s: State, a: CreateAction): State
    requires CreateEnabled(s, a)
  {
    match a
    case ChooseWorkers => s.(creator := Chosen(s.db.online))
    case FailResolve => s.(creator := CreatorEnded, db := SetStatus(s.db, JobFailed))
    case StartRunning =>
      s.(creator := Publishing(s.creator.ids), db := StartJob(s.db, |s.creator.ids|),
         chunks := map w | w in s.creator.ids :: Unsent)
    case Publish(to) =>
      s.(creator := Publishing(s.creator.unsent - {to}),
         chunks := if to in s.chunks && s.chunks[to] == Unsent then s.chunks[to := Inserting] else s.chunks)
  }

  predicate Watch1Enabled(s: State, a: Watch1Action) {
    match a
    case SeePhase1Done => s.w1 == W1Idle && s.db.job.status == JobRunning && s.db.job.phase == Phase1
                          && s.db.job.doneWorkers > 0 && s.db.job.doneWorkers >= s.db.job.totalWorkers
    case Populate => s.w1 == W1Populate
    case CountQueue => s.w1 == W1Count
    case EnterPhase2 => s.w1.W1SetPhase?
    case Notify => s.w1 == W1Notify
  }

  function ApplyWatch1(s: State, a: Watch1Action): State
    requires Watch1Enabled(s, a)
  {
    match a
    case SeePhase1Done => s.(w1 := W1Populate)
    case Populate => s.(w1 := W1Count, db := PopulateWorkQueue(s.db))
    case CountQueue => s.(w1 := W1SetPhase(|s.db.work|))
    case EnterPhase2 => s.(w1 := W1Notify, db := SetPhase(s.db, Phase2, s.w1.items))
    case Notify => s.(w1 := W1Idle, notified := true)
  }

  predicate Watch2Enabled(s: State, a: Watch2Action) {
    match a
    case RecoverRows => s.w2 == W2Idle
    case SelectJob =>
      s.w2 == W2Idle && s.db.job.status == JobRunning && (s.db.job.phase == Phase2 || s.db.job.phase == Phase2b)
    case ReadUndone => s.w2 == W2ReadUndone
    case ReadUnverified => s.w2.W2ReadUnverified?
    case ReadVerified => s.w2.W2ReadVerified?
    case EnterPhase2b => s.w2.W2SetVerifying?
    case CountItems => s.w2 == W2CountItems
    case EnterDone => s.w2.W2SetDone?
    case StatusDone => s.w2 == W2SetStatus
    case CleanUp => s.w2 == W2Delete
  }

  function ApplyWatch2(s: State, a: Watch2Action): State
    requires Watch2Enabled(s, a)
  {
    match a
    case RecoverRows => s.(db := ReleaseOffline(s.db))
    case SelectJob => s.(w2 := W2ReadUndone)
    case ReadUndone => s.(w2 := W2ReadUnverified(|UndoneRows(s.db)|))
    case ReadUnverified => s.(w2 := W2ReadVerified(s.w2.undone, |UnverifiedRows(s.db)|))
    case ReadVerified =>
      var verified := |VerifiedRows(s.db)|;
      if s.w2.undone == 0 && s.w2.unverified > 0 then s.(w2 := W2SetVerifying(s.w2.unverified + verified))
      else if s.w2.undone > 0 then s.(w2 := W2Idle)
      else s.(w2 := W2CountItems)
    case EnterPhase2b => s.(w2 := W2Idle, db := SetPhase(s.db, Phase2b, s.w2.items))
    case CountItems => s.(w2 := W2SetDone(|s.db.work|))
    case EnterDone => s.(w2 := W2SetStatus, db := SetPhase(s.db, PhaseDone, s.w2.items))
    case StatusDone => s.(w2 := W2Delete, db := SetStatus(s.db, JobDone))
    case CleanUp => s.(w2 := W2Idle, db := DeleteTlsOk(s.db), hist := s.hist.(cleaned := true))
  }

  predicate ControlEnabled(s: State, a: ControlAction) {
    a == CancelRelease ==> s.cancels > 0
  }

  function ApplyControl(s: State, a: ControlAction): State
    requires ControlEnabled(s, a)
  {
    match a
    case CancelStatus => s.(cancels := s.cancels + 1, db := SetStatus(s.db, JobCancelled))
    case CancelRelease =>
      s.(cancels := s.cancels - 1, db := ReleaseProcessing(s.db),
         hist := s.hist.(stole := s.hist.stole || (exists k :: k in s.db.work && s.db.work[k].status == Processing)))
    case MasterRestart => s.(creator := CreatorEnded, w1 := W1Idle, w2 := W2Idle, cancels := 0)
  }

  // ---- Phase 1 in a worker ----

  predicate ChunkEnabled(s: State, w: WorkerId, a: ChunkAction) {
    w in s.chunks && s.chunks[w] == Inserting
  }

  /** A panic, a failed start and the normal end all come to `MarkChunk`, once. */
  function ApplyChunk(s: State, w: WorkerId, a: ChunkAction): State
    requires ChunkEnabled(s, w, a)
  {
    match a
    case InsertBatch(keys) => s.(db := InsertMasscan(s.db, keys))
    case MarkChunk => s.(db := CountChunk(s.db), chunks := s.chunks[w := Marked])
  }

  // ---- Worker processes ----

  predicate ProcEnabled(s: State, w: WorkerId, a: ProcAction) {
    match a
    case StartProcess(sc, vc) => w !in s.procs && sc > 0 && vc > 0
    case StopProcess => w in s.procs
    case GoOffline => w !in s.procs
    case StartPhase2 =>
      && w in s.procs && s.procs[w].pc == NotStarted
      && (|| s.notified
          || PendingRows(s.db) != {}
          || (UnverifiedRows(s.db) != {} && s.db.job.status == JobRunning
              && (s.db.job.phase == Phase2 || s.db.job.phase == Phase2b)))
  }

  function ApplyProc(s: State, w: WorkerId, a: ProcAction): State
    requires ProcEnabled(s, w, a)
  {
    match a
    case StartProcess(sc, vc) =>
      s.(procs := s.procs[w := Process(NotStarted, {}, sc, vc)], db := s.db.(online := s.db.online + {w}))
    case StopProcess => s.(procs := s.procs - {w})
    case GoOffline => s.(db := s.db.(online := s.db.online - {w}))
    case StartPhase2 => WithPc(s, w, ScanTop)
  }

  function WithPc(s: State, w: WorkerId, pc: MainPc): State
    requires w in s.procs
  {
    s.(procs := s.procs[w := s.procs[w].(pc := pc)])
  }

  // ---- Phase 2a ----

  predicate LoopEnabled(s: State, w: WorkerId, a: LoopAction) {
    w in s.procs &&
    var pc := s.procs[w].pc;
    match a
    case CheckCancelled => pc == ScanTop
    case Claim(batch) => pc == Fetching && batch <= PendingRows(s.db) && |batch| <= s.procs[w].scanConc
    case WaitAll => pc.ScanBatch? && forall k | k in pc.items :: pc.items[k] == Finished || pc.items[k] == Panicked
    case CommitEnd => pc.EndFlush?
    case SeeUndone => pc == CountUndone
    case SeeUnverified => pc == CountUnverified
  }

  /** The buffer is empty whenever the loop is at its top, so the flush before a cancelled return does nothing. */
  function ApplyLoop(s: State, w: WorkerId, a: LoopAction): State
    requires LoopEnabled(s, w, a)
  {
    var p := s.procs[w];
    match a
    case CheckCancelled => WithPc(s, w, if s.db.job.status == JobCancelled then Ended(ByCancel) else Fetching)
    case Claim(batch) =>
      if batch == {} then WithPc(s, w, CountUndone)
      else WithPc(s.(db := ClaimRows(s.db, w, batch)), w, ScanBatch(map k | k in batch :: Scanning, {}))
    case WaitAll => WithPc(s, w, if p.pc.buf == {} then ScanTop else EndFlush(p.pc.buf))
    case CommitEnd => WithPc(s.(db := MarkScanned(s.db, p.pc.batch)), w, ScanTop)
    case SeeUndone =>
      WithPc(s, w, if UndoneRows(s.db) != {} then ScanTop else if p.cfHits == {} then CountUnverified else VerifyTop)
    case SeeUnverified => WithPc(s, w, if UnverifiedRows(s.db) == {} then Ended(NothingToVerify) else VerifyTop)
  }

  predicate AtItem(s: State, w: WorkerId, k: Key) {
    w in s.procs && s.procs[w].pc.ScanBatch? && k in s.procs[w].pc.items
  }

  predicate ItemEnabled(s: State, w: WorkerId, k: Key, a: ItemAction) {
    AtItem(s, w, k) &&
    var at := s.procs[w].pc.items[k];
    match a
    case Outcome(_, _) => at == Scanning
    case ScanPanic => at == Scanning
    case StoreHit => at.HitUpsert?
    case MarkHit => at == HitMark
    case AppendItem => at == Append
    case CommitItem => at.Flushing?
  }

  /** Where a goroutine of phase 2a goes next, and the buffer it leaves behind. */
  function NextItem(pc: MainPc, k: Key, a: ItemAction): (ScanPc, set<Key>)
    requires pc.ScanBatch? && k in pc.items
  {
    match a
    case Outcome(hit, delay) => (if hit then HitUpsert(delay) else Append, pc.buf)
    case ScanPanic => (Panicked, pc.buf)
    case StoreHit => (HitMark, pc.buf)
    case MarkHit => (Append, pc.buf)
    case AppendItem => if |pc.buf + {k}| >= FLUSH_AT then (Flushing(pc.buf + {k}), {}) else (Finished, pc.buf + {k})
    case CommitItem => (Finished, pc.buf)
  }

  /** The statement a goroutine of phase 2a runs. */
  function ItemDb(t: Tables, at: ScanPc, k: Key, a: ItemAction): Tables {
    if a == StoreHit && at.HitUpsert? then UpsertResult(t, k, ResultRow(TlsOk, "", "", "", at.delay))
    else if a == MarkHit then MarkScanned(t, {k})
    else if a == CommitItem && at.Flushing? then MarkScanned(t, at.batch)
    else t
  }

  function ApplyItem(s: State, w: WorkerId, k: Key, a: ItemAction): State
    requires ItemEnabled(s, w, k, a)
  {
    var p := s.procs[w];
    var (next, buf) := NextItem(p.pc, k, a);
    s.(db := ItemDb(s.db, p.pc.items[k], k, a),
       procs := s.procs[w := p.(pc := ScanBatch(p.pc.items[k := next], buf),
                                cfHits := if a.Outcome? && a.hit then p.cfHits + {k} else p.cfHits)],
       hist := if a.Outcome? then s.hist.(lastScan := s.hist.lastScan[k := a.hit]) else s.hist)
  }

  // ---- Phase 2b ----

  predicate PassEnabled(s: State, w: WorkerId, a: PassAction) {
    w in s.procs &&
    var pc := s.procs[w].pc;
    match a
    case PassCheckCancelled => pc == VerifyTop
    case ReadHits(batch) =>
      && pc == FetchHits && batch <= UnverifiedRows(s.db)
      && (|batch| == 2 * s.procs[w].verifyConc
          || (|batch| < 2 * s.procs[w].verifyConc && batch == UnverifiedRows(s.db)))
    case EndPass => pc.VerifyBatch? && forall k | k in pc.hits :: pc.hits[k] == VFinished || pc.hits[k] == VPanicked
  }

  function ApplyPass(s: State, w: WorkerId, a: PassAction): State
    requires PassEnabled(s, w, a)
  {
    match a
    case PassCheckCancelled => WithPc(s, w, if s.db.job.status == JobCancelled then Ended(ByCancel) else FetchHits)
    case ReadHits(batch) =>
      WithPc(s, w, if batch == {} then Ended(Drained)
                   else VerifyBatch(map k | k in batch :: Checking(s.db.results[k].delay)))
    case EndPass => WithPc(s, w, VerifyTop)
  }

  predicate AtHit(s: State, w: WorkerId, k: Key) {
    w in s.procs && s.procs[w].pc.VerifyBatch? && k in s.procs[w].pc.hits
  }

  /** What a check can lead to: an error, a refusal, or a row to store as verified. */
  predicate IsVerdict(delay: int, p: VerifyPc) {
    || (p.Rejecting? && (p.colo == "error" || p.colo == "fail"))
    || (p.Accepting? && p.row.status == Verified && p.row.delay == delay)
  }

  predicate HitEnabled(s: State, w: WorkerId, k: Key, a: HitAction) {
    AtHit(s, w, k) &&
    var at := s.procs[w].pc.hits[k];
    match a
    case Verdict(next) => at.Checking? && IsVerdict(at.delay, next)
    case VerifyPanic => at.Checking?
    case StoreReject => at.Rejecting?
    case StoreAccept => at.Accepting?
    case MarkAccept => at == AcceptMark
  }

  function NextHit(a: HitAction): VerifyPc {
    match a
    case Verdict(next) => next
    case VerifyPanic => VPanicked
    case StoreReject => VFinished
    case StoreAccept => AcceptMark
    case MarkAccept => VFinished
  }

  /** The statement a goroutine of phase 2b runs. */
  function HitDb(t: Tables, at: VerifyPc, k: Key, a: HitAction): Tables {
    if a == StoreReject && at.Rejecting? then RejectResult(t, k, at.colo)
    else if a == StoreAccept && at.Accepting? then UpsertResult(t, k, at.row)
    else if a == MarkAccept then MarkScanned(t, {k})
    else t
  }

  function ApplyHit(s: State, w: WorkerId, k: Key, a: HitAction): State
    requires HitEnabled(s, w, k, a)
  {
    var p := s.procs[w];
    s.(db := HitDb(s.db, p.pc.hits[k], k, a),
       procs := s.procs[w := p.(pc := VerifyBatch(p.pc.hits[k := NextHit(a)]))],
       hist := s.hist.(rejected := if a == StoreReject then s.hist.rejected + {k} else s.hist.rejected,
                       accepted := if a == StoreAccept then s.hist.accepted + {k} else s.hist.accepted))
  }

  // ---- Steps and runs ----

  predicate Enabled(s: State, a: Action) {
    match a
    case Create(ca) => CreateEnabled(s, ca)
    case Watch1(wa) => Watch1Enabled(s, wa)
    case Watch2(wa) => Watch2Enabled(s, wa)
    case Control(ca) => ControlEnabled(s, ca)
    case Chunk(w, ca) => ChunkEnabled(s, w, ca)
    case Proc(w, pa) => ProcEnabled(s, w, pa)
    case Loop(w, la) => LoopEnabled(s, w, la)
    case Item(w, k, ia) => ItemEnabled(s, w, k, ia)
    case Pass(w, va) => PassEnabled(s, w, va)
    case Hit(w, k, ha) => HitEnabled(s, w, k, ha)
  }

  function Apply(s: State, a: Action): State
    requires Enabled(s, a)
  {
    match a
    case Create(ca) => ApplyCreate(s, ca)
    case Watch1(wa) => ApplyWatch1(s, wa)
    case Watch2(wa) => ApplyWatch2(s, wa)
    case Control(ca) => ApplyControl(s, ca)
    case Chunk(w, ca) => ApplyChunk(s, w, ca)
    case Proc(w, pa) => ApplyProc(s, w, pa)
    case Loop(w, la) => ApplyLoop(s, w, la)
    case Item(w, k, ia) => ApplyItem(s, w, k, ia)
    case Pass(w, va) => ApplyPass(s, w, va)
    case Hit(w, k, ha) => ApplyHit(s, w, k, ha)
  }

  /** The `i`th step of a run. */
  ghost predicate StepAt(ss: seq<State>, acts: seq<Action>, i: nat)
    requires |ss| == |acts| + 1 && i < |acts|
  {
    Enabled(ss[i], acts[i]) && ss[i + 1] == Apply(ss[i], acts[i])
  }

  /** A run: states joined by actions, from a freshly created job. */
  ghost predicate IsRun(ss: seq<State>, acts: seq<Action>) {
    && |ss| == |acts| + 1
    && Init(ss[0])
    && forall i | 0 <= i < |acts| :: StepAt(ss, acts, i)
  }
}
