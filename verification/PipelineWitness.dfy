/**
 Why the results about finished jobs speak of cancels: a concrete run in which a cancel releases a
 row while it is being scanned, another worker scans it again, the watcher sets the job to done and
 cleans up, and only then the first scanner stores its hit. And a run in which the master stops between
 the two statements that set a job to done.
 */
module PipelineWitness {
  import opened Common
  import opened Db
  import opened Pipeline

  const W: WorkerId := "w"
  const V: WorkerId := "v"
  const K := Key("192.0.2.1", 443)

  ghost predicate Reachable(s: State) {
    exists ss: seq<State>, acts: seq<Action> :: IsRun(ss, acts) && ss[|ss| - 1] == s
  }

  lemma Reach(s: State, a: Action, t: State)
    requires Reachable(s) && Enabled(s, a) && t == Apply(s, a)
    ensures Reachable(t)
  {
    var ss: seq<State>, acts: seq<Action> :| IsRun(ss, acts) && ss[|ss| - 1] == s;
    var ss', acts' := ss + [t], acts + [a];
    forall i: nat | i < |acts'| ensures StepAt(ss', acts', i) {
      if i < |acts| {
        assert StepAt(ss, acts, i);
      }
    }
    assert IsRun(ss', acts');
  }

  // ---- The states on the way ----

  const IDLE := Process(NotStarted, {}, 1, 1)

  function JobAt(status: JobStatus, phase: Phase, done: nat, items: nat): JobRow {
    JobRow(status, phase, 1, done, items)
  }

  const START := State(Tables(NEW_JOB, {}, map[], map[], {}), Resolving, map[], W1Idle, W2Idle, 0, false, map[],
                       History(map[], {}, {}, false, false))

  const PUBLISHED := START.(
    db := Tables(JobAt(JobRunning, Phase1, 0, 0), {}, map[], map[], {W}),
    creator := Publishing({}), chunks := map[W := Inserting], procs := map[W := IDLE])

  const FILLED := PUBLISHED.(
    db := Tables(JobAt(JobRunning, Phase1, 1, 0), {K}, map[K := WorkRow(Pending, None)], map[], {W}),
    chunks := map[W := Marked], w1 := W1SetPhase(1))

  const STARTED := FILLED.(
    db := Tables(JobAt(JobRunning, Phase2, 1, 1), {K}, map[K := WorkRow(Pending, None)], map[], {W, V}),
    w1 := W1Idle, notified := true, procs := map[W := IDLE.(pc := ScanTop), V := IDLE.(pc := ScanTop)])

  const SCAN := ScanBatch(map[K := Scanning], {})

  const CLAIMED := STARTED.(
    db := STARTED.db.(work := map[K := WorkRow(Processing, Some(W))]),
    w2 := W2ReadUndone, procs := map[W := IDLE.(pc := SCAN), V := IDLE.(pc := Fetching)])

  const STOLEN := CLAIMED.(
    db := Tables(JobAt(JobCancelled, Phase2, 1, 1), {K}, map[K := WorkRow(Processing, Some(V))], map[], {W, V}),
    procs := map[W := IDLE.(pc := SCAN), V := IDLE.(pc := SCAN)],
    hist := History(map[], {}, {}, false, true))

  const SCANNED := STOLEN.(
    db := STOLEN.db.(work := map[K := WorkRow(Done, Some(V))]),
    procs := map[W := IDLE.(pc := SCAN), V := IDLE.(pc := ScanTop)],
    hist := History(map[K := false], {}, {}, false, true))

  const FINISHED := SCANNED.(
    db := SCANNED.db.(job := JobAt(JobDone, PhaseDone, 1, 1)),
    w2 := W2Idle, hist := History(map[K := false], {}, {}, true, true))

  const LATE := FINISHED.(
    db := FINISHED.db.(results := map[K := ResultRow(TlsOk, "", "", "", 5)]),
    procs := map[W := Process(ScanBatch(map[K := HitMark], {}), {K}, 1, 1), V := IDLE.(pc := ScanTop)],
    hist := History(map[K := true], {}, {}, true, true))

  lemma ReachStart()
    ensures Reachable(START)
  {
    assert IsRun([START], []);
  }

  lemma ReachPublished()
    requires Reachable(START)
    ensures Reachable(PUBLISHED)
  {
    var s1 := START.(procs := map[W := IDLE], db := START.db.(online := {W}));
    Reach(START, Proc(W, StartProcess(1, 1)), s1);
    var s2 := s1.(creator := Chosen({W}));
    Reach(s1, Create(ChooseWorkers), s2);
    var s3 := s2.(creator := Publishing({W}), db := PUBLISHED.db, chunks := map[W := Unsent]);
    assert ApplyCreate(s2, StartRunning).chunks == s3.chunks;
    Reach(s2, Create(StartRunning), s3);
    assert {W} - {W} == {} && s3.chunks[W := Inserting] == PUBLISHED.chunks;
    Reach(s3, Create(Publish(W)), PUBLISHED);
  }

  lemma ReachFilled()
    requires Reachable(PUBLISHED)
    ensures Reachable(FILLED)
  {
    var s1 := PUBLISHED.(db := PUBLISHED.db.(masscan := {K}));
    assert {} + {K} == {K};
    Reach(PUBLISHED, Chunk(W, InsertBatch({K})), s1);
    var s2 := s1.(db := s1.db.(job := FILLED.db.job), chunks := map[W := Marked]);
    assert s1.chunks[W := Marked] == s2.chunks;
    Reach(s1, Chunk(W, MarkChunk), s2);
    var s3 := s2.(w1 := W1Populate);
    Reach(s2, Watch1(SeePhase1Done), s3);
    var s4 := s3.(w1 := W1Count, db := FILLED.db);
    assert PopulateWorkQueue(s3.db).work == s4.db.work;
    Reach(s3, Watch1(Populate), s4);
    assert |s4.db.work| == 1;
    Reach(s4, Watch1(CountQueue), FILLED);
  }

  lemma ReachStarted()
    requires Reachable(FILLED)
    ensures Reachable(STARTED)
  {
    var s1 := FILLED.(w1 := W1Notify, db := FILLED.db.(job := STARTED.db.job));
    Reach(FILLED, Watch1(EnterPhase2), s1);
    var s2 := s1.(w1 := W1Idle, notified := true);
    Reach(s1, Watch1(Notify), s2);
    var s3 := s2.(procs := map[W := IDLE.(pc := ScanTop)]);
    assert s2.procs[W := s2.procs[W].(pc := ScanTop)] == s3.procs;
    Reach(s2, Proc(W, StartPhase2), s3);
    var s4 := s3.(procs := s3.procs[V := IDLE], db := STARTED.db);
    assert s3.db.online + {V} == {W, V};
    Reach(s3, Proc(V, StartProcess(1, 1)), s4);
    assert s4.procs[V := s4.procs[V].(pc := ScanTop)] == STARTED.procs;
    Reach(s4, Proc(V, StartPhase2), STARTED);
  }

  lemma ReachClaim(s: State, w: WorkerId, t: State)
    requires Reachable(s) && w in s.procs && s.procs[w] == IDLE.(pc := Fetching)
    requires s.db.work == map[K := WorkRow(Pending, None)]
    requires t == s.(db := s.db.(work := map[K := WorkRow(Processing, Some(w))]),
                     procs := s.procs[w := IDLE.(pc := SCAN)])
    ensures Reachable(t)
  {
    var a := Claim({K});
    assert PendingRows(s.db) == {K};
    assert ClaimRows(s.db, w, {K}).work == t.db.work;
    assert ApplyLoop(s, w, a).procs[w].pc.items == map[K := Scanning];
    assert ApplyLoop(s, w, a).procs == t.procs;
    Reach(s, Loop(w, a), t);
  }

  lemma ReachClaimed()
    requires Reachable(STARTED)
    ensures Reachable(CLAIMED)
  {
    var s1 := STARTED.(procs := STARTED.procs[W := IDLE.(pc := Fetching)]);
    Reach(STARTED, Loop(W, CheckCancelled), s1);
    var s2 := s1.(db := CLAIMED.db, procs := s1.procs[W := IDLE.(pc := SCAN)]);
    ReachClaim(s1, W, s2);
    var s3 := s2.(procs := CLAIMED.procs);
    assert s2.procs[V := IDLE.(pc := Fetching)] == s3.procs;
    Reach(s2, Loop(V, CheckCancelled), s3);
    Reach(s3, Watch2(SelectJob), CLAIMED);
  }

  const RELEASED := CLAIMED.(
    db := STOLEN.db.(work := map[K := WorkRow(Pending, None)]), hist := STOLEN.hist)

  lemma ReachReleased()
    requires Reachable(CLAIMED)
    ensures Reachable(RELEASED)
  {
    var s1 := CLAIMED.(cancels := 1, db := CLAIMED.db.(job := STOLEN.db.job));
    Reach(CLAIMED, Control(CancelStatus), s1);
    assert ReleaseProcessing(s1.db).work == RELEASED.db.work;
    assert K in s1.db.work && s1.db.work[K].status == Processing;
    Reach(s1, Control(CancelRelease), RELEASED);
  }

  lemma ReachStolen()
    requires Reachable(RELEASED)
    ensures Reachable(STOLEN)
  {
    assert RELEASED.procs[V := IDLE.(pc := SCAN)] == STOLEN.procs;
    ReachClaim(RELEASED, V, STOLEN);
  }

  const BUFFERED := STOLEN.(
    procs := map[W := IDLE.(pc := SCAN), V := IDLE.(pc := ScanBatch(map[K := Finished], {K}))],
    hist := SCANNED.hist)

  const APPENDING := BUFFERED.(
    procs := map[W := IDLE.(pc := SCAN), V := IDLE.(pc := ScanBatch(map[K := Append], {}))])

  /** One step of the goroutine of the only row of a batch. */
  lemma ReachItem(s: State, w: WorkerId, a: ItemAction, at: ScanPc, next: ScanPc, buf: set<Key>, t: State)
    requires Reachable(s) && w in s.procs && s.procs[w].pc == ScanBatch(map[K := at], {}) && ItemEnabled(s, w, K, a)
    requires NextItem(s.procs[w].pc, K, a) == (next, buf)
    requires t.procs == s.procs[w := Process(ScanBatch(map[K := next], buf),
                                             if a.Outcome? && a.hit then s.procs[w].cfHits + {K} else s.procs[w].cfHits,
                                             s.procs[w].scanConc, s.procs[w].verifyConc)]
    requires t.hist == if a.Outcome? then s.hist.(lastScan := s.hist.lastScan[K := a.hit]) else s.hist
    requires t == s.(db := ItemDb(s.db, at, K, a), procs := t.procs, hist := t.hist)
    ensures Reachable(t)
  {
    assert map[K := at][K := next] == map[K := next];
    Reach(s, Item(w, K, a), t);
  }

  lemma ReachAppending()
    requires Reachable(STOLEN)
    ensures Reachable(APPENDING)
  {
    assert (map[])[K := false] == map[K := false];
    assert STOLEN.procs[V := IDLE.(pc := ScanBatch(map[K := Append], {}))] == APPENDING.procs;
    ReachItem(STOLEN, V, Outcome(false, 0), Scanning, Append, {}, APPENDING);
  }

  lemma ReachBuffered()
    requires Reachable(APPENDING)
    ensures Reachable(BUFFERED)
  {
    assert {} + {K} == {K} && |{K}| == 1;
    assert APPENDING.procs[V := IDLE.(pc := ScanBatch(map[K := Finished], {K}))] == BUFFERED.procs;
    ReachItem(APPENDING, V, AppendItem, Append, Finished, {K}, BUFFERED);
  }

  const FLUSHING := BUFFERED.(
    procs := map[W := IDLE.(pc := SCAN), V := IDLE.(pc := EndFlush({K}))])

  lemma ReachFlushing()
    requires Reachable(BUFFERED)
    ensures Reachable(FLUSHING)
  {
    assert BUFFERED.procs[V := IDLE.(pc := EndFlush({K}))] == FLUSHING.procs;
    Reach(BUFFERED, Loop(V, WaitAll), FLUSHING);
  }

  lemma ReachScanned()
    requires Reachable(FLUSHING)
    ensures Reachable(SCANNED)
  {
    assert MarkScanned(FLUSHING.db, {K}).work == SCANNED.db.work;
    assert FLUSHING.procs[V := IDLE.(pc := ScanTop)] == SCANNED.procs;
    Reach(FLUSHING, Loop(V, CommitEnd), SCANNED);
  }

  lemma ReachFinished()
    requires Reachable(SCANNED)
    ensures Reachable(FINISHED)
  {
    assert UndoneRows(SCANNED.db) == {} && UnverifiedRows(SCANNED.db) == {} && VerifiedRows(SCANNED.db) == {};
    var s1 := SCANNED.(w2 := W2ReadUnverified(0));
    Reach(SCANNED, Watch2(ReadUndone), s1);
    var s2 := s1.(w2 := W2ReadVerified(0, 0));
    Reach(s1, Watch2(ReadUnverified), s2);
    var s3 := s2.(w2 := W2CountItems);
    Reach(s2, Watch2(ReadVerified), s3);
    var s4 := s3.(w2 := W2SetDone(1));
    assert |s3.db.work| == 1;
    Reach(s3, Watch2(CountItems), s4);
    var s5 := s4.(w2 := W2SetStatus, db := s4.db.(job := JobAt(JobCancelled, PhaseDone, 1, 1)));
    Reach(s4, Watch2(EnterDone), s5);
    var s6 := s5.(w2 := W2Delete, db := FINISHED.db);
    Reach(s5, Watch2(StatusDone), s6);
    assert DeleteTlsOk(s6.db).results == map[];
    Reach(s6, Watch2(CleanUp), FINISHED);
  }

  const STORING := FINISHED.(
    procs := map[W := Process(ScanBatch(map[K := HitUpsert(5)], {}), {K}, 1, 1), V := IDLE.(pc := ScanTop)],
    hist := LATE.hist)

  lemma ReachStoring()
    requires Reachable(FINISHED)
    ensures Reachable(STORING)
  {
    assert map[K := false][K := true] == map[K := true] && {} + {K} == {K};
    assert FINISHED.procs[W := STORING.procs[W]] == STORING.procs;
    ReachItem(FINISHED, W, Outcome(true, 5), Scanning, HitUpsert(5), {}, STORING);
  }

  lemma ReachLate()
    requires Reachable(STORING)
    ensures Reachable(LATE)
  {
    assert STORING.procs[W := LATE.procs[W]] == LATE.procs;
    ReachItem(STORING, W, StoreHit, HitUpsert(5), HitMark, {}, LATE);
  }

  /** A job that is done and cleaned up, with a hit that nobody has verified. */
  lemma CancelledJobCanEndUnverified()
    ensures Reachable(LATE)
    ensures LATE.db.job.status == JobDone && LATE.db.job.phase == PhaseDone && LATE.hist.cleaned
    ensures UnverifiedRows(LATE.db) == {K}
  {
    ReachStart();
    ReachPublished();
    ReachFilled();
    ReachStarted();
    ReachClaimed();
    ReachReleased();
    ReachStolen();
    ReachAppending();
    ReachBuffered();
    ReachFlushing();
    ReachScanned();
    ReachFinished();
    ReachStoring();
    ReachLate();
  }

  // ---- The master stops between the two statements that set a job to done ----

  const COUNTED := PUBLISHED.(
    db := PUBLISHED.db.(job := JobAt(JobRunning, Phase1, 1, 0)), chunks := map[W := Marked], w1 := W1SetPhase(0))

  const CHECKED := COUNTED.(
    db := PUBLISHED.db.(job := JobAt(JobRunning, Phase2, 1, 0)), w1 := W1Notify, w2 := W2SetDone(0))

  const STRANDED := CHECKED.(
    db := PUBLISHED.db.(job := JobAt(JobRunning, PhaseDone, 1, 0)), creator := CreatorEnded, w1 := W1Idle, w2 := W2Idle)

  lemma ReachCounted()
    requires Reachable(PUBLISHED)
    ensures Reachable(COUNTED)
  {
    var s1 := PUBLISHED.(db := COUNTED.db, chunks := map[W := Marked]);
    assert PUBLISHED.chunks[W := Marked] == s1.chunks;
    Reach(PUBLISHED, Chunk(W, MarkChunk), s1);
    var s2 := s1.(w1 := W1Populate);
    Reach(s1, Watch1(SeePhase1Done), s2);
    var s3 := s2.(w1 := W1Count);
    assert PopulateWorkQueue(s2.db).work == map[];
    Reach(s2, Watch1(Populate), s3);
    Reach(s3, Watch1(CountQueue), COUNTED);
  }

  lemma ReachChecked()
    requires Reachable(COUNTED)
    ensures Reachable(CHECKED)
  {
    var s1 := CHECKED.(w2 := W2Idle);
    Reach(COUNTED, Watch1(EnterPhase2), s1);
    var s2 := s1.(w2 := W2ReadUndone);
    Reach(s1, Watch2(SelectJob), s2);
    assert UndoneRows(s2.db) == {} && UnverifiedRows(s2.db) == {} && VerifiedRows(s2.db) == {};
    var s3 := s1.(w2 := W2ReadUnverified(0));
    Reach(s2, Watch2(ReadUndone), s3);
    var s4 := s1.(w2 := W2ReadVerified(0, 0));
    Reach(s3, Watch2(ReadUnverified), s4);
    var s5 := s1.(w2 := W2CountItems);
    Reach(s4, Watch2(ReadVerified), s5);
    Reach(s5, Watch2(CountItems), CHECKED);
  }

  /**
   A reachable state in which the job is in phase `done`, still has the status `running`, and no longer
   interests any watcher; by `PipelineProgress.RestartDropsJob` it never becomes done.
   */
  lemma RestartStrandsJob()
    ensures Reachable(STRANDED)
    ensures STRANDED.db.job.phase == PhaseDone && STRANDED.db.job.status == JobRunning && !STRANDED.hist.cleaned
  {
    ReachStart();
    ReachPublished();
    ReachCounted();
    ReachChecked();
    var s1 := CHECKED.(db := STRANDED.db, w2 := W2SetStatus);
    Reach(CHECKED, Watch2(EnterDone), s1);
    Reach(s1, Control(MasterRestart), STRANDED);
  }
}
