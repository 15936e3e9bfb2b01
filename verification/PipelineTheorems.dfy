/** The main results about runs of the v2 pipeline. */
module PipelineTheorems {
  import opened Common
  import opened Db
  import opened Pipeline
  import opened PipelineBase
  import opened PipelineSafe
  import opened PipelineScanned

  // ---- Every run: cancelled or not, with any number of crashes and restarts ----

  lemma {:induction false} RunOnward(ss: seq<State>, acts: seq<Action>, i: nat, j: nat)
    requires IsRun(ss, acts) && i <= j < |ss|
    ensures Onward(ss[i], ss[j])
    decreases j
  {
    if i < j {
      RunOnward(ss, acts, i, j - 1);
      RunStep(ss, acts, j - 1);
    }
  }

  /** Phases only move forward, and a work row that is done stays done. */
  lemma PhasesAndDoneRowsOnlyAdvance(ss: seq<State>, acts: seq<Action>, i: nat, j: nat, k: Key)
    requires IsRun(ss, acts) && i <= j < |ss|
    ensures Rank(ss[i].db.job.phase) <= Rank(ss[j].db.job.phase)
    ensures k in ss[i].db.work ==> k in ss[j].db.work
    ensures k in ss[i].db.work && ss[i].db.work[k].status == Done ==> ss[j].db.work[k].status == Done
  {
    RunOnward(ss, acts, i, j);
  }

  // ---- The barrier at the end of phase 1 ----

  /** How often the first `n` actions mark the chunk of `w` as done. */
  ghost function Marks(acts: seq<Action>, w: WorkerId, n: nat): nat
    requires n <= |acts|
  {
    if n == 0 then 0 else Marks(acts, w, n - 1) + (if acts[n - 1] == Chunk(w, MarkChunk) then 1 else 0)
  }

  /** A chunk is counted at most once. */
  lemma {:induction false} ChunkCountedOnce(ss: seq<State>, acts: seq<Action>, w: WorkerId, n: nat)
    requires IsRun(ss, acts) && n < |ss|
    ensures Marks(acts, w, n) == if IsMarked(ss[n], w) then 1 else 0
  {
    if n > 0 {
      ChunkCountedOnce(ss, acts, w, n - 1);
      RunStep(ss, acts, n - 1);
    }
  }

  /** Once it is counted, it never inserts again. */
  lemma NoInsertAfterMark(ss: seq<State>, acts: seq<Action>, w: WorkerId, n: nat)
    requires IsRun(ss, acts) && n < |acts| && Marks(acts, w, n) > 0
    ensures !(acts[n].Chunk? && acts[n].cw == w)
  {
    ChunkCountedOnce(ss, acts, w, n);
    RunStep(ss, acts, n);
  }

  /** One of the first `n` actions inserts the row, whatever chunk it belongs to. */
  ghost predicate Inserted(acts: seq<Action>, n: nat, k: Key)
    requires n <= |acts|
  {
    exists m | 0 <= m < n :: Inserts(acts[m], k)
  }

  predicate Inserts(a: Action, k: Key) {
    a.Chunk? && a.cha.InsertBatch? && k in a.cha.keys
  }

  /** No insert overwrites another: the table holds what was ever inserted, and nothing else. */
  lemma {:induction false} InsertedIff(ss: seq<State>, acts: seq<Action>, n: nat, k: Key)
    requires IsRun(ss, acts) && n < |ss|
    ensures k in ss[n].db.masscan <==> Inserted(acts, n, k)
  {
    if n > 0 {
      InsertedIff(ss, acts, n - 1, k);
      RunStep(ss, acts, n - 1);
      assert StepAt(ss, acts, n - 1);
      if acts[n - 1].Chunk? {
        ChunkInserts(ss[n - 1], acts[n - 1], k);
      }
      assert Inserted(acts, n, k) <==> Inserted(acts, n - 1, k) || Inserts(acts[n - 1], k);
    }
  }

  lemma ChunkInserts(s: State, a: Action, k: Key)
    requires Enabled(s, a) && a.Chunk?
    ensures k in Apply(s, a).db.masscan <==> k in s.db.masscan || Inserts(a, k)
  {
    assert Apply(s, a) == ApplyChunk(s, a.cw, a.cha);
  }

  /**
   The queue is filled only when every chunk is in; from then on its rows are exactly the rows that
   phase 1 inserted, and filling it again changes nothing.
   */
  lemma Phase1Barrier(ss: seq<State>, acts: seq<Action>, i: nat, j: nat)
    requires IsRun(ss, acts) && i < j < |ss| && acts[i] == Watch1(Populate)
    ensures forall w | w in ss[i].chunks :: Marks(acts, w, i) == 1
    ensures |ss[i].chunks| == ss[i].db.job.totalWorkers == ss[i].db.job.doneWorkers
    ensures forall k :: k in ss[j].db.work <==> Inserted(acts, i, k)
    ensures ss[j].db.work.Keys == ss[j].db.masscan == ss[i].db.masscan
    ensures PopulateWorkQueue(ss[j].db) == ss[j].db
  {
    RunGood(ss, acts, i);
    assert StepAt(ss, acts, i);
    AtTheBarrier(ss[i]);
    forall w | w in ss[i].chunks ensures Marks(acts, w, i) == 1 {
      ChunkCountedOnce(ss, acts, w, i);
    }
    PopulateKeepsRows(ss[i].db);
    assert Filled(ss[i + 1]);
    RunOnward(ss, acts, i + 1, j);
    MasscanFrozen(ss, acts, i, j);
    PopulateKeepsRows(ss[j].db);
    assert PopulateWorkQueue(ss[j].db).work == ss[j].db.work;
    forall k ensures k in ss[j].db.work <==> Inserted(acts, i, k) {
      InsertedIff(ss, acts, i, k);
      assert k in ss[j].db.work <==> k in ss[j].db.work.Keys;
    }
  }

  lemma AtTheBarrier(s: State)
    requires Good(s) && Watch1Enabled(s, Populate)
    ensures AllMarked(s) && |s.chunks| == s.db.job.totalWorkers == s.db.job.doneWorkers
    ensures forall w | w in s.chunks :: IsMarked(s, w)
  {
    assert MarkedChunks(s) == s.chunks.Keys;
  }

  /** Rows are inserted only while some chunk is not yet counted. */
  lemma {:induction false} MasscanFrozen(ss: seq<State>, acts: seq<Action>, i: nat, j: nat)
    requires IsRun(ss, acts) && i <= j < |ss| && AllMarked(ss[i])
    ensures ss[j].db.masscan == ss[i].db.masscan
    decreases j
  {
    if i < j {
      MasscanFrozen(ss, acts, i, j - 1);
      RunOnward(ss, acts, i, j - 1);
      RunStep(ss, acts, j - 1);
    }
  }

  /** No process ever scans or verifies before the queue is complete. */
  lemma NoWorkBeforeTheBarrier(ss: seq<State>, acts: seq<Action>, i: nat, w: WorkerId)
    requires IsRun(ss, acts) && i < |ss| && w in ss[i].procs && ss[i].procs[w].pc != NotStarted
    ensures AllMarked(ss[i]) && ss[i].db.work.Keys == ss[i].db.masscan
  {
    RunGood(ss, acts, i);
    assert ProcInv(ss[i], w);
  }

  // ---- Runs in which no cancel takes a row away from its scanner ----

  lemma {:induction false} StoleOnward(ss: seq<State>, acts: seq<Action>, i: nat, j: nat)
    requires IsRun(ss, acts) && i <= j < |ss| && ss[i].hist.stole
    ensures ss[j].hist.stole
    decreases j
  {
    if i < j {
      StoleOnward(ss, acts, i, j - 1);
      RunStep(ss, acts, j - 1);
    }
  }

  /** A job that is never cancelled is such a run; so is one cancelled while no row is being processed. */
  lemma {:induction false} NeverCancelled(ss: seq<State>, acts: seq<Action>, i: nat)
    requires IsRun(ss, acts) && i < |ss|
    requires forall m | 0 <= m < i :: acts[m] == Control(CancelRelease) ==>
               forall k | k in ss[m].db.work :: ss[m].db.work[k].status != Processing
    ensures !ss[i].hist.stole
  {
    if i > 0 {
      NeverCancelled(ss, acts, i - 1);
      RunStep(ss, acts, i - 1);
    }
  }

  /** Once every row is done there is nothing left that a cancel could take away. */
  lemma {:induction false} DoneCannotBeStolen(ss: seq<State>, acts: seq<Action>, i: nat, j: nat)
    requires IsRun(ss, acts) && i <= j < |ss|
    requires Filled(ss[i]) && AllDone(ss[i].db) && !ss[i].hist.stole
    ensures Filled(ss[j]) && AllDone(ss[j].db) && !ss[j].hist.stole
    decreases j
  {
    RunOnward(ss, acts, i, j);
    if i < j {
      DoneCannotBeStolen(ss, acts, i, j - 1);
      RunStep(ss, acts, j - 1);
    }
  }

  // ---- Which cancels can harm a job that ends done ----

  /** The release of a cancel takes a row away from its scanner. */
  ghost predicate Steals(s: State, a: Action) {
    a == Control(CancelRelease) && exists k :: k in s.db.work && s.db.work[k].status == Processing
  }

  /**
   It does so when the watcher has picked up the job and not yet counted the rows that are not done, or
   when the job is no longer marked as cancelled.
   */
  ghost predicate Races(s: State, a: Action) {
    Steals(s, a) && (s.w2 == W2ReadUndone || s.db.job.status != JobCancelled)
  }

  /** The watcher is idle, or it has counted rows that are not done and will go back to idle. */
  predicate GivesUp(pc: Watch2Pc) {
    match pc
    case W2Idle => true
    case W2ReadUnverified(undone) => undone > 0
    case W2ReadVerified(undone, _) => undone > 0
    case _ => false
  }

  ghost predicate NoRace(ss: seq<State>, acts: seq<Action>, n: nat)
    requires |ss| == |acts| + 1 && n <= |acts|
  {
    forall m | 0 <= m < n :: !Races(ss[m], acts[m])
  }

  /** A cancelled job that the watcher will not pick up again. */
  predicate Halted(s: State) {
    && s.db.job.status == JobCancelled && s.db.job.phase != PhaseDone
    && GivesUp(s.w2) && !s.creator.Resolving? && !s.creator.Chosen?
  }

  lemma Watch2Halted(s: State, a: Watch2Action)
    requires Halted(s) && Watch2Enabled(s, a)
    ensures Halted(ApplyWatch2(s, a))
  {
  }

  lemma StepHalted(s: State, a: Action)
    requires Halted(s) && Enabled(s, a)
    ensures Halted(Apply(s, a))
  {
    match a
    case Create(ca) =>
    case Watch1(wa) =>
    case Watch2(wa) => Watch2Halted(s, wa);
    case Control(ca) =>
    case Chunk(w, ca) =>
    case Proc(w, pa) => ProcJob(s, w, pa);
    case Loop(w, la) => LoopJob(s, w, la);
    case Item(w, k, ia) => ItemJob(s, w, k, ia);
    case Pass(w, va) => PassJob(s, w, va);
    case Hit(w, k, ha) => HitJob(s, w, k, ha);
  }

  lemma StealHalts(s: State, a: Action)
    requires Base(s) && Enabled(s, a) && Steals(s, a) && !Races(s, a)
    ensures Halted(Apply(s, a))
  {
    var k :| k in s.db.work && s.db.work[k].status == Processing;
    assert s.db.work != map[] && !AllDone(s.db);
  }

  /** Without such a race a job from which a cancel has taken a row stays cancelled. */
  lemma {:induction false} StolenIsHalted(ss: seq<State>, acts: seq<Action>, i: nat)
    requires IsRun(ss, acts) && i < |ss| && NoRace(ss, acts, i) && ss[i].hist.stole
    ensures Halted(ss[i])
  {
    if i > 0 {
      assert StepAt(ss, acts, i - 1);
      if ss[i - 1].hist.stole {
        StolenIsHalted(ss, acts, i - 1);
        StepHalted(ss[i - 1], acts[i - 1]);
      } else {
        FirstSteal(ss, acts, i - 1);
      }
    }
  }

  lemma FirstSteal(ss: seq<State>, acts: seq<Action>, i: nat)
    requires IsRun(ss, acts) && i < |acts| && !ss[i].hist.stole && ss[i + 1].hist.stole && !Races(ss[i], acts[i])
    ensures Halted(ss[i + 1])
  {
    RunGood(ss, acts, i);
    RunStep(ss, acts, i);
    assert StepAt(ss, acts, i);
    StealHalts(ss[i], acts[i]);
  }

  lemma StoleStep(ss: seq<State>, acts: seq<Action>, i: nat)
    requires IsRun(ss, acts) && i < |acts|
    ensures ss[i + 1].hist.stole <==> ss[i].hist.stole || Steals(ss[i], acts[i])
  {
    RunStep(ss, acts, i);
    if Steals(ss[i], acts[i]) {
      assert StepAt(ss, acts, i);
      assert ss[i + 1] == ApplyControl(ss[i], CancelRelease);
    }
  }

  /** The flag says exactly whether a cancel has ever taken a row away from its scanner. */
  lemma {:induction false} StoleIff(ss: seq<State>, acts: seq<Action>, i: nat)
    requires IsRun(ss, acts) && i < |ss|
    ensures ss[i].hist.stole <==> exists m | 0 <= m < i :: Steals(ss[m], acts[m])
  {
    if i > 0 {
      StoleIff(ss, acts, i - 1);
      StoleStep(ss, acts, i - 1);
    }
  }

  /** A run in which no cancel takes a row away has no race. */
  lemma NotStolenNoRace(ss: seq<State>, acts: seq<Action>, i: nat)
    requires IsRun(ss, acts) && i < |ss| && !ss[i].hist.stole
    ensures NoRace(ss, acts, i)
  {
    StoleIff(ss, acts, i);
  }

  /**
   The job is set to done only when every inserted row has been scanned and its row is done, although
   the watcher reads its counts one by one and whatever was cancelled; and it stays so for ever.
   */
  lemma DoneMeansComplete(ss: seq<State>, acts: seq<Action>, i: nat, j: nat)
    requires IsRun(ss, acts) && i <= j < |ss| && ss[i].db.job.phase == PhaseDone
    ensures forall k :: k in ss[j].db.work <==> Inserted(acts, j, k)
    ensures forall k :: Inserted(acts, j, k) ==> ss[j].db.work[k].status == Done && k in ss[j].hist.lastScan
    ensures ss[j].db.work.Keys == ss[j].db.masscan && AllDone(ss[j].db)
    ensures ss[j].db.job.phase == PhaseDone
  {
    RunOnward(ss, acts, i, j);
    RunGood(ss, acts, j);
    RunScanned(ss, acts, j);
    forall k ensures k in ss[j].db.work <==> Inserted(acts, j, k) {
      InsertedIff(ss, acts, j, k);
      assert k in ss[j].db.work <==> k in ss[j].db.work.Keys;
    }
  }

  /** Nor is a result waiting for verification then or later, unless a cancel raced with the watcher. */
  lemma DoneMeansVerified(ss: seq<State>, acts: seq<Action>, i: nat, j: nat)
    requires IsRun(ss, acts) && i <= j < |ss| && ss[i].db.job.phase == PhaseDone && NoRace(ss, acts, i)
    ensures UnverifiedRows(ss[j].db) == {} && !ss[j].hist.stole
  {
    if ss[i].hist.stole {
      StolenIsHalted(ss, acts, i);
    }
    RunGood(ss, acts, i);
    RunOnward(ss, acts, i, j);
    DoneCannotBeStolen(ss, acts, i, j);
    RunGood(ss, acts, j);
  }

  /** So that race is the only harmful one: an unverified row in a job that was set to done has one behind it. */
  lemma UnverifiedNeedsARace(ss: seq<State>, acts: seq<Action>, i: nat, j: nat) returns (m: nat)
    requires IsRun(ss, acts) && i <= j < |ss| && ss[i].db.job.phase == PhaseDone
    requires UnverifiedRows(ss[j].db) != {}
    ensures m < i && Races(ss[m], acts[m])
  {
    if NoRace(ss, acts, i) {
      DoneMeansVerified(ss, acts, i, j);
    }
    m :| 0 <= m < i && Races(ss[m], acts[m]);
  }

  /**
   The books at the end of a job. Once the clean-up has run, from then on: the results are exactly
   the rows whose verification succeeded; every inserted row was scanned, and if its last scan was a
   hit it has been verified or refused; and what the page lists is verified rows only, each of them
   that has a colo.
   */
  lemma CleanedResults(ss: seq<State>, acts: seq<Action>, i: nat, j: nat)
    requires IsRun(ss, acts) && i <= j < |ss| && ss[i].hist.cleaned && NoRace(ss, acts, i)
    ensures ss[j].db.results.Keys == ss[j].hist.accepted
    ensures forall k | k in ss[j].db.results :: ss[j].db.results[k].status == Verified
    ensures forall k :: Inserted(acts, j, k) ==>
              k in ss[j].hist.lastScan
              && (ss[j].hist.lastScan[k] ==> k in ss[j].hist.accepted || k in ss[j].hist.rejected)
    ensures GetResults(ss[j].db).Keys == set k | k in ss[j].hist.accepted && ss[j].db.results[k].colo != ""
    ensures forall k | k in GetResults(ss[j].db) :: GetResults(ss[j].db)[k] == ss[j].db.results[k]
  {
    RunGood(ss, acts, i);
    DoneMeansComplete(ss, acts, i, j);
    DoneMeansVerified(ss, acts, i, j);
    RunOnward(ss, acts, i, j);
    RunGood(ss, acts, j);
    CleanedBooks(ss[j]);
    forall k | Inserted(acts, j, k) ensures k in ss[j].db.masscan {
      InsertedIff(ss, acts, j, k);
    }
  }

  lemma CleanedBooks(s: State)
    requires RowsSafe(s) && s.hist.cleaned && AllDone(s.db) && s.db.work.Keys == s.db.masscan
    ensures s.db.results.Keys == s.hist.accepted
    ensures forall k | k in s.db.results :: s.db.results[k].status == Verified
    ensures forall k | k in s.db.masscan && k in s.hist.lastScan ::
              s.hist.lastScan[k] ==> k in s.hist.accepted || k in s.hist.rejected
    ensures GetResults(s.db).Keys == set k | k in s.hist.accepted && s.db.results[k].colo != ""
  {
    assert s.hist.accepted == VerifiedRows(s.db);
    forall k | k in s.db.masscan && k in s.hist.lastScan && s.hist.lastScan[k]
      ensures k in s.hist.accepted || k in s.hist.rejected
    {
      assert k in s.db.work && HitSafe(s, k);
    }
  }

  lemma {:induction false} ScannedRowsAreQueued(ss: seq<State>, acts: seq<Action>, i: nat, k: Key)
    requires IsRun(ss, acts) && i < |ss| && k in ss[i].hist.lastScan
    ensures k in ss[i].db.work
  {
    if i > 0 {
      RunStep(ss, acts, i - 1);
      if k in ss[i - 1].hist.lastScan {
        ScannedRowsAreQueued(ss, acts, i - 1, k);
      }
    }
  }

  /** A row that is done was scanned, and if its last scan was a hit the result is stored, up to the clean-up. */
  lemma HitsAreStoredBeforeDone(ss: seq<State>, acts: seq<Action>, i: nat, k: Key)
    requires IsRun(ss, acts) && i < |ss| && !ss[i].hist.stole
    requires k in ss[i].db.work && ss[i].db.work[k].status == Done
    ensures k in ss[i].hist.lastScan
    ensures ss[i].hist.lastScan[k] ==> k in ss[i].db.results || (ss[i].hist.cleaned && k in ss[i].hist.rejected)
  {
    RunGood(ss, acts, i);
    RunScanned(ss, acts, i);
    assert HitSafe(ss[i], k);
  }

  lemma {:induction false} AcceptedOnward(ss: seq<State>, acts: seq<Action>, i: nat, j: nat)
    requires IsRun(ss, acts) && i <= j < |ss|
    ensures ss[i].hist.accepted <= ss[j].hist.accepted
    decreases j
  {
    if i < j {
      AcceptedOnward(ss, acts, i, j - 1);
      RunStep(ss, acts, j - 1);
    }
  }

  /** No scanner, verifier or clean-up ever takes a verified row back. */
  lemma VerifiedStaysVerified(ss: seq<State>, acts: seq<Action>, i: nat, j: nat, k: Key)
    requires IsRun(ss, acts) && i <= j < |ss| && !ss[j].hist.stole
    requires k in ss[i].db.results && ss[i].db.results[k].status == Verified
    ensures k in ss[j].db.results && ss[j].db.results[k].status == Verified
  {
    if ss[i].hist.stole {
      StoleOnward(ss, acts, i, j);
    }
    RunGood(ss, acts, i);
    RunGood(ss, acts, j);
    AcceptedOnward(ss, acts, i, j);
    assert k in VerifiedRows(ss[i].db);
    assert k in VerifiedRows(ss[j].db);
  }

  /** A claimed row has one scanner. */
  lemma OneScanner(ss: seq<State>, acts: seq<Action>, i: nat, v: WorkerId, w: WorkerId, k: Key)
    requires IsRun(ss, acts) && i < |ss| && !ss[i].hist.stole && v != w
    requires AtItem(ss[i], v, k) && ss[i].procs[v].pc.items[k] == Scanning
    requires AtItem(ss[i], w, k)
    ensures ss[i].procs[w].pc.items[k] != Scanning && !ss[i].procs[w].pc.items[k].HitUpsert?
    ensures ss[i].procs[w].pc.items[k] != HitMark
  {
    RunGood(ss, acts, i);
    assert ProcSafe(ss[i], v) && ProcSafe(ss[i], w);
    assert ItemSafe(ss[i], v, ss[i].procs[v].pc.items, k);
    assert ItemSafe(ss[i], w, ss[i].procs[w].pc.items, k);
  }

  // ---- Phase 2b drains ----

  /** The rows still to be verified, together with those of the pass that `w` is in the middle of. */
  function Open(s: State, w: WorkerId): set<Key> {
    UnverifiedRows(s.db) +
    if w in s.procs && s.procs[w].pc.VerifyBatch?
    then set k | k in s.procs[w].pc.hits && s.procs[w].pc.hits[k] != VPanicked
    else {}
  }

  /** A pass of `w` ends in which at least one check did not panic. */
  ghost predicate EndsPass(s: State, a: Action, w: WorkerId) {
    a == Pass(w, EndPass) && w in s.procs && s.procs[w].pc.VerifyBatch?
    && exists k :: k in s.procs[w].pc.hits && s.procs[w].pc.hits[k] != VPanicked
  }

  ghost function PassEnds(ss: seq<State>, acts: seq<Action>, w: WorkerId): (r: seq<bool>)
    requires |ss| == |acts| + 1
    ensures |r| == |acts|
  {
    seq(|acts|, k requires 0 <= k < |acts| => EndsPass(ss[k], acts[k], w))
  }

  function Count(marks: seq<bool>, i: nat, j: nat): nat
    requires i <= j <= |marks|
    decreases j
  {
    if i == j then 0 else Count(marks, i, j - 1) + (if marks[j - 1] then 1 else 0)
  }

  /** How many passes `w` ends between the `i`th and the `j`th state. */
  ghost function Passes(ss: seq<State>, acts: seq<Action>, w: WorkerId, i: nat, j: nat): nat
    requires i <= j < |ss| && |ss| == |acts| + 1
  {
    Count(PassEnds(ss, acts, w), i, j)
  }

  lemma HitOpen(s: State, v: WorkerId, k: Key, a: HitAction, w: WorkerId)
    requires Base(s) && Safe(s) && HitEnabled(s, v, k, a)
    ensures Open(ApplyHit(s, v, k, a), w) <= Open(s, w)
  {
    var t := ApplyHit(s, v, k, a);
    HitDbShrinks(s, v, k, a);
    if v == w {
      HitStaysOpen(s.procs[w].pc.hits, k, NextHit(a));
      assert t.procs[w].pc.hits == s.procs[w].pc.hits[k := NextHit(a)];
    } else if w in s.procs {
      assert t.procs[w] == s.procs[w];
    }
  }

  lemma HitStaysOpen(hits: map<Key, VerifyPc>, k: Key, next: VerifyPc)
    requires k in hits && hits[k] != VPanicked
    ensures var after := hits[k := next];
      (set j | j in after && after[j] != VPanicked) <= (set j | j in hits && hits[j] != VPanicked)
  {
  }

  lemma PassOpen(s: State, v: WorkerId, a: PassAction, w: WorkerId)
    requires Base(s) && Safe(s) && PassEnabled(s, v, a)
    ensures Open(ApplyPass(s, v, a), w) <= Open(s, w)
    ensures EndsPass(s, Pass(v, a), w) ==> Open(ApplyPass(s, v, a), w) < Open(s, w)
  {
    var t := ApplyPass(s, v, a);
    assert t.db == s.db;
    if v != w {
      assert w in s.procs ==> t.procs[w] == s.procs[w];
    } else if a == EndPass {
      EndPassOpen(s, w);
    }
  }

  lemma EndPassOpen(s: State, w: WorkerId)
    requires Safe(s) && PassEnabled(s, w, EndPass)
    ensures Open(ApplyPass(s, w, EndPass), w) <= Open(s, w)
    ensures EndsPass(s, Pass(w, EndPass), w) <==> Open(ApplyPass(s, w, EndPass), w) < Open(s, w)
  {
    if EndsPass(s, Pass(w, EndPass), w) {
      var k :| k in s.procs[w].pc.hits && s.procs[w].pc.hits[k] != VPanicked;
      assert ProcSafe(s, w);
      assert HitGood(s, k, s.procs[w].pc.hits[k]);
      assert k in Open(s, w) && k !in UnverifiedRows(s.db);
    } else {
      assert Open(s, w) == UnverifiedRows(s.db);
      assert Open(ApplyPass(s, w, EndPass), w) == UnverifiedRows(s.db);
    }
  }

  /** A pass of a worker's verification loop makes progress exactly when some check in it did not panic. */
  lemma PassProgressesIff(ss: seq<State>, acts: seq<Action>, w: WorkerId, i: nat)
    requires IsRun(ss, acts) && i < |acts| && acts[i] == Pass(w, EndPass) && !ss[i].hist.stole
    ensures w in ss[i].procs && ss[i].procs[w].pc.VerifyBatch?
    ensures Open(ss[i + 1], w) < Open(ss[i], w) <==>
            exists k :: k in ss[i].procs[w].pc.hits && ss[i].procs[w].pc.hits[k] != VPanicked
  {
    RunGood(ss, acts, i);
    assert StepAt(ss, acts, i);
    EndPassOpen(ss[i], w);
  }

  lemma CreateOpen(s: State, a: CreateAction, w: WorkerId)
    requires Base(s) && Safe(s) && AllDone(s.db) && CreateEnabled(s, a)
    ensures Open(ApplyCreate(s, a), w) <= Open(s, w)
  {
    var t := ApplyCreate(s, a);
    assert t.procs == s.procs && t.db.results == s.db.results;
  }

  lemma Watch1Open(s: State, a: Watch1Action, w: WorkerId)
    requires Base(s) && Safe(s) && AllDone(s.db) && Watch1Enabled(s, a)
    ensures Open(ApplyWatch1(s, a), w) <= Open(s, w)
  {
    var t := ApplyWatch1(s, a);
    assert t.procs == s.procs && t.db.results == s.db.results;
  }

  lemma Watch2Open(s: State, a: Watch2Action, w: WorkerId)
    requires Base(s) && Safe(s) && AllDone(s.db) && Watch2Enabled(s, a)
    ensures Open(ApplyWatch2(s, a), w) <= Open(s, w)
  {
    var t := ApplyWatch2(s, a);
    assert t.procs == s.procs && UnverifiedRows(t.db) <= UnverifiedRows(s.db);
  }

  lemma ControlOpen(s: State, a: ControlAction, w: WorkerId)
    requires Base(s) && Safe(s) && AllDone(s.db) && ControlEnabled(s, a)
    ensures Open(ApplyControl(s, a), w) <= Open(s, w)
  {
    var t := ApplyControl(s, a);
    assert t.procs == s.procs && t.db.results == s.db.results;
  }

  lemma ChunkOpen(s: State, v: WorkerId, a: ChunkAction, w: WorkerId)
    requires Base(s) && Safe(s) && AllDone(s.db) && ChunkEnabled(s, v, a)
    ensures Open(ApplyChunk(s, v, a), w) <= Open(s, w)
  {
    var t := ApplyChunk(s, v, a);
    assert t.procs == s.procs && t.db.results == s.db.results;
  }

  lemma ProcOpen(s: State, v: WorkerId, a: ProcAction, w: WorkerId)
    requires Base(s) && Safe(s) && AllDone(s.db) && ProcEnabled(s, v, a)
    ensures Open(ApplyProc(s, v, a), w) <= Open(s, w)
  {
    var t := ApplyProc(s, v, a);
    assert t.db.results == s.db.results;
  }

  /** The scan loop leaves the results alone and never starts a pass of verification. */
  lemma LoopKeepsResults(s: State, v: WorkerId, a: LoopAction)
    requires LoopEnabled(s, v, a)
    ensures var t := ApplyLoop(s, v, a);
      && t.db.results == s.db.results
      && v in t.procs && t.procs == s.procs[v := t.procs[v]]
      && !s.procs[v].pc.VerifyBatch? && !t.procs[v].pc.VerifyBatch?
  {
  }

  lemma LoopOpen(s: State, v: WorkerId, a: LoopAction, w: WorkerId)
    requires Base(s) && Safe(s) && AllDone(s.db) && LoopEnabled(s, v, a)
    ensures Open(ApplyLoop(s, v, a), w) <= Open(s, w)
  {
    LoopKeepsResults(s, v, a);
    assert UnverifiedRows(ApplyLoop(s, v, a).db) == UnverifiedRows(s.db);
  }

  lemma ItemOpen(s: State, v: WorkerId, k: Key, a: ItemAction, w: WorkerId)
    requires Base(s) && Safe(s) && AllDone(s.db) && ItemEnabled(s, v, k, a)
    ensures Open(ApplyItem(s, v, k, a), w) <= Open(s, w)
  {
    var t := ApplyItem(s, v, k, a);
    NoScannerLeft(s, v, k);
    assert t.db.results == s.db.results;
  }

  lemma StepOpen(s: State, a: Action, w: WorkerId)
    requires Base(s) && Safe(s) && AllDone(s.db) && Enabled(s, a)
    ensures Open(Apply(s, a), w) <= Open(s, w)
    ensures EndsPass(s, a, w) ==> Open(Apply(s, a), w) < Open(s, w)
  {
    match a
    case Create(ca) => CreateOpen(s, ca, w);
    case Watch1(wa) => Watch1Open(s, wa, w);
    case Watch2(wa) => Watch2Open(s, wa, w);
    case Control(ca) => ControlOpen(s, ca, w);
    case Chunk(v, ca) => ChunkOpen(s, v, ca, w);
    case Proc(v, pa) => ProcOpen(s, v, pa, w);
    case Loop(v, la) => LoopOpen(s, v, la, w);
    case Item(v, k, ia) => ItemOpen(s, v, k, ia, w);
    case Pass(v, va) => PassOpen(s, v, va, w);
    case Hit(v, k, ha) => HitOpen(s, v, k, ha, w);
  }

  /** Sets that never grow lose an element at every mark. */
  lemma {:induction false} MarksAreCounted(sets: seq<set<Key>>, marks: seq<bool>, i: nat, j: nat)
    requires |sets| == |marks| + 1 && i <= j < |sets|
    requires forall k: nat | i <= k < j :: sets[k + 1] <= sets[k] && (marks[k] ==> sets[k + 1] < sets[k])
    ensures sets[j] <= sets[i] && Count(marks, i, j) + |sets[j]| <= |sets[i]|
    decreases j
  {
    if i < j {
      var k := j - 1;
      MarksAreCounted(sets, marks, i, k);
      assert sets[k + 1] <= sets[k];
      SubsetNotLarger(sets[j], sets[k]);
      if marks[k] {
        SubsetSmaller(sets[j], sets[k]);
      }
    }
  }

  /**
   With any number of workers verifying the same rows at once, the rows open to a worker never get
   more once every row has been scanned, and every pass of its loop leaves strictly fewer.
   */
  lemma Phase2bDrains(ss: seq<State>, acts: seq<Action>, w: WorkerId, i: nat, j: nat)
    requires IsRun(ss, acts) && i <= j < |ss|
    requires Filled(ss[i]) && AllDone(ss[i].db) && !ss[i].hist.stole
    ensures Open(ss[j], w) <= Open(ss[i], w)
    ensures Passes(ss, acts, w, i, j) + |Open(ss[j], w)| <= |Open(ss[i], w)|
  {
    var sets := seq(|ss|, k requires 0 <= k < |ss| => Open(ss[k], w));
    var marks := PassEnds(ss, acts, w);
    forall k: nat | i <= k < j ensures sets[k + 1] <= sets[k] && (marks[k] ==> sets[k + 1] < sets[k]) {
      DoneCannotBeStolen(ss, acts, i, k);
      RunOpen(ss, acts, k, w);
    }
    MarksAreCounted(sets, marks, i, j);
  }

  lemma RunOpen(ss: seq<State>, acts: seq<Action>, i: nat, w: WorkerId)
    requires IsRun(ss, acts) && i < |acts| && AllDone(ss[i].db) && !ss[i].hist.stole
    ensures Open(ss[i + 1], w) <= Open(ss[i], w)
    ensures EndsPass(ss[i], acts[i], w) ==> Open(ss[i + 1], w) < Open(ss[i], w)
  {
    RunGood(ss, acts, i);
    assert StepAt(ss, acts, i);
    StepOpen(ss[i], acts[i], w);
  }

  /** So a worker makes at most as many passes as there are rows. */
  lemma AtMostOnePassPerRow(ss: seq<State>, acts: seq<Action>, w: WorkerId, i: nat, j: nat)
    requires IsRun(ss, acts) && i <= j < |ss|
    requires Filled(ss[i]) && AllDone(ss[i].db) && !ss[i].hist.stole
    ensures Passes(ss, acts, w, i, j) <= |ss[i].db.work|
  {
    Phase2bDrains(ss, acts, w, i, j);
    RunGood(ss, acts, i);
    if w in ss[i].procs {
      assert ProcInv(ss[i], w);
    }
    assert Open(ss[i], w) <= ss[i].db.work.Keys;
    SubsetNotLarger(Open(ss[i], w), ss[i].db.work.Keys);
  }

  /** When a worker's loop ends and not by a cancel, nothing is left to verify, then and ever after. */
  lemma LoopEndMeansDrained(ss: seq<State>, acts: seq<Action>, w: WorkerId, i: nat, j: nat)
    requires IsRun(ss, acts) && i <= j < |ss| && !ss[i].hist.stole
    requires w in ss[i].procs && ss[i].procs[w].pc.Ended? && ss[i].procs[w].pc.reason != ByCancel
    ensures UnverifiedRows(ss[i].db) == {} && UnverifiedRows(ss[j].db) == {}
  {
    RunGood(ss, acts, i);
    EndedIsDrained(ss[i], w);
    Phase2bDrains(ss, acts, w, i, j);
  }

  lemma EndedIsDrained(s: State, w: WorkerId)
    requires Good(s) && !s.hist.stole && w in s.procs && s.procs[w].pc.Ended? && s.procs[w].pc.reason != ByCancel
    ensures Filled(s) && AllDone(s.db) && UnverifiedRows(s.db) == {} && Open(s, w) == {}
  {
    assert ProcInv(s, w) && ProcSafe(s, w);
  }

  // ---- Claims ----

  ghost predicate ClaimsRow(a: Action, k: Key) {
    a.Loop? && a.la.Claim? && k in a.la.batch
  }

  lemma {:induction false} ReleasedInBetween(ss: seq<State>, acts: seq<Action>, k: Key, i: nat, j: nat) returns (m: nat)
    requires IsRun(ss, acts) && i <= j < |ss|
    requires k in ss[i].db.work && ss[i].db.work[k].status != Pending
    requires k in ss[j].db.work && ss[j].db.work[k].status == Pending
    ensures i <= m < j && Releases(ss[m], acts[m], ss[m + 1], k)
    decreases j
  {
    RunStep(ss, acts, j - 1);
    RunOnward(ss, acts, i, j - 1);
    if ss[j - 1].db.work[k].status == Pending {
      m := ReleasedInBetween(ss, acts, k, i, j - 1);
    } else {
      m := j - 1;
    }
  }

  /** Between two claims of one row it is released, by crash recovery or by a cancel. */
  lemma ClaimedTwiceOnlyAfterRelease(ss: seq<State>, acts: seq<Action>, k: Key, i: nat, j: nat)
    requires IsRun(ss, acts) && i < j < |acts| && ClaimsRow(acts[i], k) && ClaimsRow(acts[j], k)
    ensures exists m :: i < m < j && Releases(ss[m], acts[m], ss[m + 1], k)
  {
    assert StepAt(ss, acts, i) && StepAt(ss, acts, j);
    assert k in PendingRows(ss[i].db) && k in PendingRows(ss[j].db);
    var m := ReleasedInBetween(ss, acts, k, i + 1, j);
  }

  /** A cancelled job past phase 1, or one with nothing left to scan. */
  predicate Quiet(s: State) {
    s.db.job.phase != Phase1 && (s.db.job.status == JobCancelled || AllDone(s.db))
  }

  /** How many claims `w` can still make in a quiet state: one if it is already past its check. */
  function Budget(s: State, w: WorkerId): nat {
    if w in s.procs && s.procs[w].pc == Fetching && !AllDone(s.db) then 1 else 0
  }

  predicate IsClaim(a: Action, w: WorkerId) {
    a.Loop? && a.lw == w && a.la.Claim? && a.la.batch != {}
  }

  ghost function Claims(acts: seq<Action>, w: WorkerId, i: nat, j: nat): nat
    requires i <= j <= |acts|
    decreases j
  {
    if i == j then 0 else Claims(acts, w, i, j - 1) + (if IsClaim(acts[j - 1], w) then 1 else 0)
  }

  ghost predicate StaysQuiet(s: State, a: Action, t: State, w: WorkerId) {
    Quiet(t) && (if IsClaim(a, w) then 1 else 0) + Budget(t, w) <= Budget(s, w)
  }

  lemma Watch2Quiet(s: State, a: Watch2Action, w: WorkerId)
    requires Base(s) && Watch2Enabled(s, a) && Quiet(s)
    ensures StaysQuiet(s, Watch2(a), ApplyWatch2(s, a), w)
  {
    Watch2Onward(s, a);
  }

  lemma LoopQuiet(s: State, v: WorkerId, a: LoopAction, w: WorkerId)
    requires Base(s) && LoopEnabled(s, v, a) && Quiet(s)
    ensures StaysQuiet(s, Loop(v, a), ApplyLoop(s, v, a), w)
  {
    LoopOnward(s, v, a);
    if a.Claim? && AllDone(s.db) {
      assert PendingRows(s.db) == {};
    }
  }

  lemma ItemQuiet(s: State, v: WorkerId, k: Key, a: ItemAction, w: WorkerId)
    requires Base(s) && ItemEnabled(s, v, k, a) && Quiet(s)
    ensures StaysQuiet(s, Item(v, k, a), ApplyItem(s, v, k, a), w)
  {
    ItemOnward(s, v, k, a);
  }

  lemma HitQuiet(s: State, v: WorkerId, k: Key, a: HitAction, w: WorkerId)
    requires Base(s) && HitEnabled(s, v, k, a) && Quiet(s)
    ensures StaysQuiet(s, Hit(v, k, a), ApplyHit(s, v, k, a), w)
  {
    HitOnward(s, v, k, a);
  }

  lemma StepQuiet(s: State, a: Action, w: WorkerId)
    requires Base(s) && Enabled(s, a) && Quiet(s)
    ensures StaysQuiet(s, a, Apply(s, a), w)
  {
    StepOnward(s, a);
    match a
    case Watch2(wa) => Watch2Quiet(s, wa, w);
    case Chunk(v, ca) => assert false;
    case Loop(v, la) => LoopQuiet(s, v, la, w);
    case Item(v, k, ia) => ItemQuiet(s, v, k, ia, w);
    case Hit(v, k, ha) => HitQuiet(s, v, k, ha, w);
    case _ =>
  }

  /**
   After a job past phase 1 is cancelled a worker claims at most one more batch, and none unless it
   had already passed its check; a batch holds at most `scanConc` rows.
   */
  lemma {:induction false} CancelStopsClaims(ss: seq<State>, acts: seq<Action>, w: WorkerId, i: nat, j: nat)
    requires IsRun(ss, acts) && i <= j < |ss| && Quiet(ss[i])
    ensures Quiet(ss[j])
    ensures Claims(acts, w, i, j) + Budget(ss[j], w) <= Budget(ss[i], w) <= 1
    decreases j
  {
    if i < j {
      CancelStopsClaims(ss, acts, w, i, j - 1);
      RunGood(ss, acts, j - 1);
      assert StepAt(ss, acts, j - 1);
      StepQuiet(ss[j - 1], acts[j - 1], w);
    }
  }
}
