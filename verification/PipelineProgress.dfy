/** The two watchers of the master get a job through its phases, and what stopping the master can undo. */
module PipelineProgress {
  import opened Common
  import opened Db
  import opened Pipeline
  import opened PipelineBase
  import opened PipelineSafe
  import opened PipelineTheorems

  predicate IsWatch1(a: Action) {
    a.Watch1?
  }

  /** A step of the second watcher that belongs to the job; crash recovery serves all jobs. */
  predicate IsWatch2(a: Action) {
    a.Watch2? && a.w2a != RecoverRows
  }

  function Steps1(acts: seq<Action>, i: nat, j: nat): nat
    requires i <= j <= |acts|
    decreases j
  {
    if i == j then 0 else Steps1(acts, i, j - 1) + (if IsWatch1(acts[j - 1]) then 1 else 0)
  }

  function Steps2(acts: seq<Action>, i: nat, j: nat): nat
    requires i <= j <= |acts|
    decreases j
  {
    if i == j then 0 else Steps2(acts, i, j - 1) + (if IsWatch2(acts[j - 1]) then 1 else 0)
  }

  ghost predicate NoRestart(acts: seq<Action>, i: nat, j: nat)
    requires i <= j <= |acts|
  {
    forall m | i <= m < j :: acts[m] != Control(MasterRestart)
  }

  /** Apart from a restart only its own steps move a watcher. */
  lemma OthersLeaveWatchers(s: State, a: Action)
    requires Enabled(s, a) && a != Control(MasterRestart)
    ensures !IsWatch1(a) ==> Apply(s, a).w1 == s.w1
    ensures !IsWatch2(a) ==> Apply(s, a).w2 == s.w2
    ensures !IsWatch1(a) && !IsWatch2(a) ==> Apply(s, a).db.job.phase == s.db.job.phase
  {
    match a
    case Create(ca) => assert ApplyCreate(s, ca).db.job.phase == s.db.job.phase;
    case Watch1(wa) => assert ApplyWatch1(s, wa).w2 == s.w2;
    case Watch2(wa) => assert ApplyWatch2(s, wa).w1 == s.w1;
    case Control(ca) => assert ApplyControl(s, ca).db.job.phase == s.db.job.phase;
    case Chunk(w, ca) => assert ApplyChunk(s, w, ca).db.job.phase == s.db.job.phase;
    case Proc(w, pa) => ProcJob(s, w, pa);
    case Loop(w, la) => LoopJob(s, w, la);
    case Item(w, k, ia) => ItemJob(s, w, k, ia);
    case Pass(w, va) => PassJob(s, w, va);
    case Hit(w, k, ha) => HitJob(s, w, k, ha);
  }

  // ---- From phase 1 to phase 2 ----

  /** How many steps of the first watcher there are to phase 2 when every chunk is counted. */
  function Left1(s: State): (r: nat)
    ensures r <= 5 && (r == 0 <==> s.db.job.phase != Phase1)
  {
    if s.db.job.phase != Phase1 then 0
    else
      match s.w1
      case W1Idle => 4
      case W1Populate => 3
      case W1Count => 2
      case W1SetPhase(_) => 1
      case W1Notify => 5
  }

  /** While phase 1 lasts and the job is running, the watcher is never stuck once every chunk is counted. */
  lemma Watch1GoesOn(s: State) returns (a: Watch1Action)
    requires Base(s) && AllMarked(s) && s.db.job.status == JobRunning && s.db.job.phase == Phase1
    ensures Watch1Enabled(s, a)
  {
    match s.w1
    case W1Idle =>
      assert MarkedChunks(s) == s.chunks.Keys && s.chunks.Keys != {};
      a := SeePhase1Done;
    case W1Populate => a := Populate;
    case W1Count => a := CountQueue;
    case W1SetPhase(_) => a := EnterPhase2;
    case W1Notify => a := Notify;
  }

  lemma Step1(s: State, a: Action)
    requires Base(s) && Enabled(s, a) && a != Control(MasterRestart)
    ensures Apply(s, a).db.job.phase == Phase1 ==> (if IsWatch1(a) then 1 else 0) + Left1(Apply(s, a)) <= Left1(s)
  {
    StepOnward(s, a);
    OthersLeaveWatchers(s, a);
  }

  /** Once every chunk is counted, five steps of the watcher take the job to phase 2, whatever else goes on. */
  lemma {:induction false} Phase1Ends(ss: seq<State>, acts: seq<Action>, i: nat, j: nat)
    requires IsRun(ss, acts) && i <= j < |ss| && NoRestart(acts, i, j)
    ensures ss[j].db.job.phase == Phase1 ==> Steps1(acts, i, j) + Left1(ss[j]) <= Left1(ss[i]) <= 5
    decreases j
  {
    if i < j {
      Phase1Ends(ss, acts, i, j - 1);
      RunBase(ss, acts, j - 1);
      assert StepAt(ss, acts, j - 1);
      Step1(ss[j - 1], acts[j - 1]);
      StepOnward(ss[j - 1], acts[j - 1]);
    }
  }

  // ---- From the last row to done ----

  /** How many steps of the second watcher there are to `done` when nothing is left to scan or verify. */
  function Left2(s: State): (r: nat)
    ensures r <= 8 && (r == 0 <==> s.db.job.phase == PhaseDone)
  {
    if s.db.job.phase == PhaseDone then 0
    else
      match s.w2
      case W2Idle => 6
      case W2ReadUndone => 5
      case W2ReadUnverified(undone) => if undone == 0 then 4 else 8
      case W2ReadVerified(undone, unverified) => if undone > 0 then 7 else if unverified > 0 then 8 else 3
      case W2SetVerifying(_) => 7
      case W2CountItems => 2
      case W2SetDone(_) => 1
      case W2SetStatus => 8
      case W2Delete => 8
  }

  /** While the job is running past phase 1 and not done, the watcher is never stuck. */
  lemma Watch2GoesOn(s: State) returns (a: Watch2Action)
    requires s.db.job.status == JobRunning && (s.db.job.phase == Phase2 || s.db.job.phase == Phase2b)
    ensures Watch2Enabled(s, a) && a != RecoverRows
  {
    match s.w2
    case W2Idle => a := SelectJob;
    case W2ReadUndone => a := ReadUndone;
    case W2ReadUnverified(_) => a := ReadUnverified;
    case W2ReadVerified(_, _) => a := ReadVerified;
    case W2SetVerifying(_) => a := EnterPhase2b;
    case W2CountItems => a := CountItems;
    case W2SetDone(_) => a := EnterDone;
    case W2SetStatus => a := StatusDone;
    case W2Delete => a := CleanUp;
  }

  lemma Watch2Left(s: State, a: Watch2Action)
    requires Base(s) && Watch2Enabled(s, a) && a != RecoverRows
    requires AllDone(s.db) && UnverifiedRows(s.db) == {}
    ensures ApplyWatch2(s, a).db.job.phase != PhaseDone ==> Left2(ApplyWatch2(s, a)) < Left2(s)
  {
    NothingUndone(s.db);
  }

  lemma Step2(s: State, a: Action)
    requires Base(s) && Enabled(s, a) && a != Control(MasterRestart)
    requires AllDone(s.db) && UnverifiedRows(s.db) == {}
    ensures Apply(s, a).db.job.phase != PhaseDone ==> (if IsWatch2(a) then 1 else 0) + Left2(Apply(s, a)) <= Left2(s)
  {
    StepOnward(s, a);
    if IsWatch2(a) {
      Watch2Left(s, a.w2a);
    } else {
      OthersLeaveWatchers(s, a);
    }
  }

  /**
   Once every row is scanned and verified, eight steps of the watcher set the job to done, wherever in
   its round the watcher is and whatever else goes on.
   */
  lemma {:induction false} JobEnds(ss: seq<State>, acts: seq<Action>, i: nat, j: nat)
    requires IsRun(ss, acts) && i <= j < |ss| && NoRestart(acts, i, j)
    requires Filled(ss[i]) && AllDone(ss[i].db) && UnverifiedRows(ss[i].db) == {} && !ss[i].hist.stole
    ensures ss[j].db.job.phase != PhaseDone ==> Steps2(acts, i, j) + Left2(ss[j]) <= Left2(ss[i]) <= 8
    decreases j
  {
    if i < j {
      JobEnds(ss, acts, i, j - 1);
      RunBase(ss, acts, j - 1);
      NothingLeft(ss, acts, i, j - 1);
      assert StepAt(ss, acts, j - 1);
      Step2(ss[j - 1], acts[j - 1]);
      StepOnward(ss[j - 1], acts[j - 1]);
    }
  }

  lemma NothingLeft(ss: seq<State>, acts: seq<Action>, i: nat, j: nat)
    requires IsRun(ss, acts) && i <= j < |ss|
    requires Filled(ss[i]) && AllDone(ss[i].db) && UnverifiedRows(ss[i].db) == {} && !ss[i].hist.stole
    ensures AllDone(ss[j].db) && UnverifiedRows(ss[j].db) == {}
    decreases j
  {
    DoneCannotBeStolen(ss, acts, i, j);
    if i < j {
      NothingLeft(ss, acts, i, j - 1);
      DoneCannotBeStolen(ss, acts, i, j - 1);
      RunGood(ss, acts, j - 1);
      assert StepAt(ss, acts, j - 1);
      UnverifiedStep(ss[j - 1], acts[j - 1]);
    }
  }

  lemma MasterKeepsResults(s: State, a: Action)
    requires Enabled(s, a) && (a.Create? || a.Watch1? || a.Control? || a.Chunk?)
    ensures Apply(s, a).db.results == s.db.results
  {
    match a
    case Create(ca) => assert ApplyCreate(s, ca).db.results == s.db.results;
    case Watch1(wa) => assert ApplyWatch1(s, wa).db.results == s.db.results;
    case Control(ca) => assert ApplyControl(s, ca).db.results == s.db.results;
    case Chunk(w, ca) => assert ApplyChunk(s, w, ca).db.results == s.db.results;
  }

  /** Once every row is done, scanners store nothing any more. */
  lemma ItemKeepsResults(s: State, w: WorkerId, k: Key, a: ItemAction)
    requires Safe(s) && AllDone(s.db) && ItemEnabled(s, w, k, a)
    ensures ApplyItem(s, w, k, a).db.results == s.db.results
  {
    NoScannerLeft(s, w, k);
  }

  lemma ScannersKeepResults(s: State, a: Action)
    requires Base(s) && Safe(s) && AllDone(s.db) && Enabled(s, a) && (a.Proc? || a.Loop? || a.Item? || a.Pass?)
    ensures Apply(s, a).db.results == s.db.results
  {
    match a
    case Proc(w, pa) => assert ApplyProc(s, w, pa).db.results == s.db.results;
    case Loop(w, la) => LoopKeepsResults(s, w, la);
    case Item(w, k, ia) => ItemKeepsResults(s, w, k, ia);
    case Pass(w, va) => assert ApplyPass(s, w, va).db.results == s.db.results;
  }

  lemma UnverifiedStep(s: State, a: Action)
    requires Base(s) && Safe(s) && AllDone(s.db) && Enabled(s, a)
    ensures UnverifiedRows(Apply(s, a).db) <= UnverifiedRows(s.db)
  {
    match a
    case Watch2(wa) => Watch2Unverified(s, wa);
    case Hit(w, k, ha) => HitDbShrinks(s, w, k, ha);
    case Create(_) => MasterKeepsResults(s, a);
    case Watch1(_) => MasterKeepsResults(s, a);
    case Control(_) => MasterKeepsResults(s, a);
    case Chunk(_, _) => MasterKeepsResults(s, a);
    case _ => ScannersKeepResults(s, a);
  }

  lemma Watch2Unverified(s: State, a: Watch2Action)
    requires Watch2Enabled(s, a)
    ensures UnverifiedRows(ApplyWatch2(s, a).db) <= UnverifiedRows(s.db)
  {
  }

  // ---- When the master stops in between ----

  /** The job is done and the watcher has given it up. */
  predicate Dropped(s: State) {
    s.db.job.phase == PhaseDone && s.w2 == W2Idle && s.creator == CreatorEnded
  }

  ghost predicate StaysDropped(s: State, t: State) {
    && t.w2 == s.w2 && t.creator == s.creator && t.hist.cleaned == s.hist.cleaned
    && (t.db.job.status == s.db.job.status || t.db.job.status == JobCancelled)
  }

  lemma MasterDropped(s: State, a: Action)
    requires Dropped(s) && Enabled(s, a) && (a.Create? || a.Watch1? || a.Watch2? || a.Control?)
    ensures StaysDropped(s, Apply(s, a))
  {
    match a
    case Create(ca) =>
    case Watch1(wa) => assert StaysDropped(s, ApplyWatch1(s, wa));
    case Watch2(wa) => assert StaysDropped(s, ApplyWatch2(s, wa));
    case Control(ca) => assert StaysDropped(s, ApplyControl(s, ca));
  }

  lemma DroppedStep(s: State, a: Action)
    requires Base(s) && Dropped(s) && Enabled(s, a)
    ensures Dropped(Apply(s, a)) && StaysDropped(s, Apply(s, a))
  {
    StepOnward(s, a);
    match a
    case Chunk(w, ca) =>
    case Proc(w, pa) => ProcJob(s, w, pa);
    case Loop(w, la) => LoopJob(s, w, la);
    case Item(w, k, ia) => ItemJob(s, w, k, ia);
    case Pass(w, va) => PassJob(s, w, va);
    case Hit(w, k, ha) => HitJob(s, w, k, ha);
    case _ => MasterDropped(s, a);
  }

  /**
   A master that stops after the phase was set to done never looks at the job again: what the watcher
   had not yet done by then, the status or the clean-up, is never done.
   */
  lemma {:induction false} RestartDropsJob(ss: seq<State>, acts: seq<Action>, m: nat, j: nat)
    requires IsRun(ss, acts) && m < j < |ss| && acts[m] == Control(MasterRestart) && ss[m].db.job.phase == PhaseDone
    ensures Dropped(ss[j]) && ss[j].hist.cleaned == ss[m].hist.cleaned
    ensures ss[j].db.job.status == JobDone ==> ss[m].db.job.status == JobDone
    decreases j
  {
    assert StepAt(ss, acts, j - 1);
    if m + 1 < j {
      RestartDropsJob(ss, acts, m, j - 1);
      RunBase(ss, acts, j - 1);
      DroppedStep(ss[j - 1], acts[j - 1]);
    }
  }
}
