/**
 What holds as long as no cancel has released a row that was being processed: a claimed row has
 one scanner, a hit is stored before its row is done, and no row goes back to unverified.
 */
module PipelineSafe {
  import opened Common
  import opened Db
  import opened Pipeline
  import opened PipelineBase

  /** The row is claimed by `w` and by nobody else. */
  predicate ClaimedBy(t: Tables, k: Key, w: WorkerId) {
    k in t.work && t.work[k] == WorkRow(Processing, Some(w))
  }

  predicate Held(t: Tables, k: Key, w: WorkerId) {
    k in t.work && (t.work[k].status == Done || t.work[k] == WorkRow(Processing, Some(w)))
  }

  /** If the latest scan of the row was a hit, the hit is stored, or it was checked, refused and cleaned up. */
  predicate HitSafe(s: State, k: Key) {
    k in s.hist.lastScan && s.hist.lastScan[k] ==>
      k in s.db.results || (s.hist.cleaned && k in s.hist.rejected)
  }

  predicate Settled(p: ScanPc) {
    p.Finished? || p.Flushing?
  }

  predicate ItemSafe(s: State, w: WorkerId, items: map<Key, ScanPc>, k: Key)
    requires k in items
  {
    match items[k]
    case Scanning => ClaimedBy(s.db, k, w)
    case HitUpsert(_) => ClaimedBy(s.db, k, w)
    case HitMark => ClaimedBy(s.db, k, w) && k in s.db.results
    case Append => Held(s.db, k, w) && HitSafe(s, k)
    case Flushing(batch) =>
      Held(s.db, k, w) && forall j | j in batch :: j in items && Settled(items[j]) && HitSafe(s, j)
    case _ => Held(s.db, k, w)
  }

  predicate HitGood(s: State, k: Key, p: VerifyPc) {
    match p
    case Checking(_) => true
    case Rejecting(colo) => colo != ""
    case Accepting(row) => row.status == Verified
    case AcceptMark => k !in UnverifiedRows(s.db)
    case VFinished => k !in UnverifiedRows(s.db)
    case VPanicked => true
  }

  predicate ProcSafe(s: State, w: WorkerId)
    requires w in s.procs
  {
    && w in s.db.online
    && match s.procs[w].pc
       case ScanBatch(items, buf) =>
         && (forall k | k in items :: ItemSafe(s, w, items, k))
         && (forall k | k in buf :: k in items && Settled(items[k]) && HitSafe(s, k))
       case EndFlush(batch) => forall k | k in batch :: Held(s.db, k, w) && HitSafe(s, k)
       case VerifyBatch(hits) => forall k | k in hits :: HitGood(s, k, hits[k])
       case Ended(reason) => reason != ByCancel ==> UnverifiedRows(s.db) == {}
       case _ => true
  }

  predicate ReadNothingLeft(pc: Watch2Pc) {
    match pc
    case W2ReadVerified(undone, unverified) => undone == 0 && unverified == 0
    case W2CountItems => true
    case W2SetDone(_) => true
    case _ => false
  }

  predicate RowsSafe(s: State) {
    && (forall k | k in s.db.work :: s.db.work[k].status == Done ==> HitSafe(s, k))
    && s.hist.accepted == VerifiedRows(s.db)
    && (s.hist.accepted + s.hist.rejected != {} ==> AllDone(s.db) && Filled(s))
    && (forall k | k in s.db.results ::
          s.db.results[k].status == TlsOk && s.db.results[k].colo != "" ==> k in s.hist.rejected)
    && (s.hist.cleaned ==> forall k | k in s.db.results :: s.db.results[k].status == Verified)
    && (ReadNothingLeft(s.w2) || s.db.job.phase == PhaseDone ==> UnverifiedRows(s.db) == {})
  }

  predicate Safe(s: State) {
    RowsSafe(s) && forall w | w in s.procs :: ProcSafe(s, w)
  }

  lemma InitSafe(s: State)
    requires Init(s)
    ensures Safe(s)
  {
    assert VerifiedRows(s.db) == {};
  }

  /** Once every row is done no scanner is about to store a hit. */
  lemma NoScannerLeft(s: State, w: WorkerId, k: Key)
    requires Safe(s) && AllDone(s.db) && AtItem(s, w, k)
    ensures var at := s.procs[w].pc.items[k]; !at.HitUpsert? && at != Scanning && at != HitMark
  {
    assert ProcSafe(s, w);
    assert ItemSafe(s, w, s.procs[w].pc.items, k);
  }

  /**
   What a process `v` may rely on while others act: its claims stand, hits stay stored until they are
   cleaned up, and after the last row is done the unverified rows only get fewer.
   */
  ghost predicate Respects(s: State, t: State, v: WorkerId) {
    && (forall k :: ClaimedBy(s.db, k, v) ==> ClaimedBy(t.db, k, v))
    && (forall k :: Held(s.db, k, v) ==> Held(t.db, k, v))
    && (forall k :: Held(s.db, k, v) && HitSafe(s, k) ==> HitSafe(t, k))
    && (!AllDone(s.db) ==> s.db.results.Keys <= t.db.results.Keys)
    && (AllDone(s.db) ==> UnverifiedRows(t.db) <= UnverifiedRows(s.db))
    && (v in s.db.online ==> v in t.db.online)
  }

  lemma OthersSafe(s: State, t: State, v: WorkerId)
    requires Base(s) && Safe(s) && Respects(s, t, v)
    requires v in s.procs && v in t.procs && t.procs[v] == s.procs[v]
    ensures ProcSafe(t, v)
  {
    assert ProcSafe(s, v) && ProcInv(s, v);
    match s.procs[v].pc
    case ScanBatch(items, buf) =>
      forall k | k in items ensures ItemSafe(t, v, items, k) {
        assert ItemSafe(s, v, items, k);
        if items[k].Flushing? {
          forall j | j in items[k].batch ensures HitSafe(t, j) {
            assert ItemSafe(s, v, items, j);
          }
        }
      }
      forall k | k in buf ensures HitSafe(t, k) {
        assert ItemSafe(s, v, items, k);
      }
    case VerifyBatch(hits) =>
      forall k | k in hits ensures HitGood(t, k, hits[k]) {
        assert HitGood(s, k, hits[k]);
      }
    case _ =>
  }

  // ---- Steps of the master and of phase 1 ----

  lemma CreateSafe(s: State, a: CreateAction)
    requires Base(s) && Safe(s) && CreateEnabled(s, a)
    ensures Safe(ApplyCreate(s, a))
  {
    var t := ApplyCreate(s, a);
    forall v | v in t.procs ensures ProcSafe(t, v) {
      OthersSafe(s, t, v);
    }
  }

  lemma Watch1Safe(s: State, a: Watch1Action)
    requires Base(s) && Safe(s) && Watch1Enabled(s, a)
    ensures Safe(ApplyWatch1(s, a))
  {
    var t := ApplyWatch1(s, a);
    if a == Populate && s.db.work != map[] {
      assert t.db.work == s.db.work;
    }
    forall v | v in t.procs ensures ProcSafe(t, v) {
      OthersSafe(s, t, v);
    }
  }

  /** The rows that the clean-up deletes were all checked and refused. */
  lemma CleanUpKeepsHits(s: State, k: Key)
    requires Base(s) && Safe(s) && Watch2Enabled(s, CleanUp) && HitSafe(s, k)
    ensures HitSafe(ApplyWatch2(s, CleanUp), k)
  {
    if k in s.db.results && s.db.results[k].status == TlsOk {
      assert k !in UnverifiedRows(s.db);
      assert k in s.hist.rejected;
    }
  }

  lemma Watch2Respects(s: State, a: Watch2Action, v: WorkerId)
    requires Base(s) && Safe(s) && Watch2Enabled(s, a) && v in s.procs
    ensures Respects(s, ApplyWatch2(s, a), v)
  {
    var t := ApplyWatch2(s, a);
    assert ProcSafe(s, v);
    match a
    case CleanUp =>
      forall k | HitSafe(s, k) ensures HitSafe(t, k) {
        CleanUpKeepsHits(s, k);
      }
    case RecoverRows =>
    case _ =>
  }

  lemma CleanUpRows(s: State)
    requires Base(s) && Safe(s) && Watch2Enabled(s, CleanUp)
    ensures RowsSafe(ApplyWatch2(s, CleanUp))
  {
    var t := ApplyWatch2(s, CleanUp);
    forall k | k in t.db.work && t.db.work[k].status == Done ensures HitSafe(t, k) {
      CleanUpKeepsHits(s, k);
    }
    assert VerifiedRows(t.db) == VerifiedRows(s.db);
  }

  lemma RecoverRowsSafe(s: State)
    requires Base(s) && Safe(s)
    requires Watch2Enabled(s, RecoverRows)
    ensures RowsSafe(ApplyWatch2(s, RecoverRows))
  {
    var t := ApplyWatch2(s, RecoverRows);
    assert AllDone(s.db) ==> t.db.work == s.db.work;
  }

  lemma Watch2Rows(s: State, a: Watch2Action)
    requires Base(s) && Safe(s) && Watch2Enabled(s, a) && a != CleanUp && a != RecoverRows
    ensures RowsSafe(ApplyWatch2(s, a))
  {
    var t := ApplyWatch2(s, a);
    assert t == s.(w2 := t.w2, db := s.db.(job := t.db.job));
    assert VerifiedRows(t.db) == VerifiedRows(s.db) && UnverifiedRows(t.db) == UnverifiedRows(s.db);
  }

  lemma Watch2Safe(s: State, a: Watch2Action)
    requires Base(s) && Safe(s) && Watch2Enabled(s, a)
    ensures Safe(ApplyWatch2(s, a))
  {
    var t := ApplyWatch2(s, a);
    if a == CleanUp {
      CleanUpRows(s);
    } else if a == RecoverRows {
      RecoverRowsSafe(s);
    } else {
      Watch2Rows(s, a);
    }
    forall v | v in t.procs ensures ProcSafe(t, v) {
      Watch2Respects(s, a, v);
      OthersSafe(s, t, v);
    }
  }

  lemma ControlSafe(s: State, a: ControlAction)
    requires Base(s) && Safe(s) && ControlEnabled(s, a)
    requires !ApplyControl(s, a).hist.stole
    ensures Safe(ApplyControl(s, a))
  {
    var t := ApplyControl(s, a);
    assert t.db.work == s.db.work;
    forall v | v in t.procs ensures ProcSafe(t, v) {
      OthersSafe(s, t, v);
    }
  }

  lemma ChunkSafe(s: State, w: WorkerId, a: ChunkAction)
    requires Base(s) && Safe(s) && ChunkEnabled(s, w, a)
    ensures Safe(ApplyChunk(s, w, a))
  {
    var t := ApplyChunk(s, w, a);
    forall v | v in t.procs ensures ProcSafe(t, v) {
      OthersSafe(s, t, v);
    }
  }

  lemma ProcStepSafe(s: State, w: WorkerId, a: ProcAction)
    requires Base(s) && Safe(s) && ProcEnabled(s, w, a)
    ensures Safe(ApplyProc(s, w, a))
  {
    var t := ApplyProc(s, w, a);
    forall v | v in t.procs ensures ProcSafe(t, v) {
      if v != w {
        OthersSafe(s, t, v);
      }
    }
  }

  // ---- Steps of the scan loop ----

  lemma ClaimRespects(s: State, w: WorkerId, batch: set<Key>, v: WorkerId)
    requires Base(s) && Safe(s) && LoopEnabled(s, w, Claim(batch)) && v != w
    ensures Respects(s, ApplyLoop(s, w, Claim(batch)), v)
  {
  }

  lemma CommitRespects(s: State, w: WorkerId, v: WorkerId)
    requires Base(s) && Safe(s) && LoopEnabled(s, w, CommitEnd) && v != w
    ensures Respects(s, ApplyLoop(s, w, CommitEnd), v)
  {
    assert ProcSafe(s, w);
  }

  lemma LoopRespects(s: State, w: WorkerId, a: LoopAction, v: WorkerId)
    requires Base(s) && Safe(s) && LoopEnabled(s, w, a) && v != w
    ensures Respects(s, ApplyLoop(s, w, a), v)
  {
    match a
    case Claim(batch) => ClaimRespects(s, w, batch, v);
    case CommitEnd => CommitRespects(s, w, v);
    case _ =>
      var t := ApplyLoop(s, w, a);
      assert t.db == s.db && t.hist == s.hist;
  }

  lemma WaitAllSafe(s: State, w: WorkerId)
    requires Base(s) && Safe(s) && LoopEnabled(s, w, WaitAll)
    ensures ProcSafe(ApplyLoop(s, w, WaitAll), w)
  {
    assert ProcSafe(s, w);
    forall k | k in s.procs[w].pc.buf ensures Held(s.db, k, w) {
      assert ItemSafe(s, w, s.procs[w].pc.items, k);
    }
  }

  lemma ClaimSafe(s: State, w: WorkerId, batch: set<Key>)
    requires Base(s) && Safe(s) && LoopEnabled(s, w, Claim(batch))
    ensures ProcSafe(ApplyLoop(s, w, Claim(batch)), w)
  {
    assert ProcSafe(s, w);
  }

  lemma LoopSelfSafe(s: State, w: WorkerId, a: LoopAction)
    requires Base(s) && Safe(s) && LoopEnabled(s, w, a)
    ensures ProcSafe(ApplyLoop(s, w, a), w)
  {
    match a
    case Claim(batch) => ClaimSafe(s, w, batch);
    case WaitAll => WaitAllSafe(s, w);
    case _ => assert ProcSafe(s, w);
  }

  lemma LoopSafe(s: State, w: WorkerId, a: LoopAction)
    requires Base(s) && Safe(s) && LoopEnabled(s, w, a)
    ensures Safe(ApplyLoop(s, w, a))
  {
    var t := ApplyLoop(s, w, a);
    assert ProcSafe(s, w);
    LoopSelfSafe(s, w, a);
    forall v | v in t.procs ensures ProcSafe(t, v) {
      if v != w {
        LoopRespects(s, w, a, v);
        OthersSafe(s, t, v);
      }
    }
  }

  // ---- Steps of one claimed row ----

  /** A batch on its way to the database holds only rows of its own worker whose hits are stored. */
  lemma FlushedRows(s: State, w: WorkerId, k: Key, j: Key)
    requires Safe(s) && AtItem(s, w, k) && s.procs[w].pc.items[k].Flushing? && j in s.procs[w].pc.items[k].batch
    ensures Held(s.db, j, w) && HitSafe(s, j)
  {
    assert ProcSafe(s, w);
    assert ItemSafe(s, w, s.procs[w].pc.items, k);
    assert ItemSafe(s, w, s.procs[w].pc.items, j);
  }

  /** The rows that a step of one goroutine changes: a result of a claimed row, or claimed rows becoming done. */
  lemma ItemDbEffect(s: State, w: WorkerId, k: Key, a: ItemAction)
    requires Base(s) && Safe(s) && ItemEnabled(s, w, k, a)
    ensures var t := ApplyItem(s, w, k, a);
      && t.db == s.db.(work := t.db.work, results := t.db.results)
      && t.db.work.Keys == s.db.work.Keys
      && (forall j | j in s.db.work ::
            t.db.work[j] == s.db.work[j]
            || (Held(s.db, j, w) && HitSafe(s, j) && t.db.work[j] == s.db.work[j].(status := Done)))
      && (t.db.results == s.db.results
          || (a == StoreHit && ClaimedBy(s.db, k, w) && k in t.db.results
              && t.db.results == s.db.results[k := t.db.results[k]]
              && t.db.results[k].status == TlsOk && t.db.results[k].colo == ""))
      && (a.Outcome? ==> ClaimedBy(s.db, k, w) && t.db == s.db)
  {
    assert ProcSafe(s, w);
    assert ItemSafe(s, w, s.procs[w].pc.items, k);
    match a
    case CommitItem =>
      forall j | j in s.procs[w].pc.items[k].batch ensures Held(s.db, j, w) && HitSafe(s, j) {
        FlushedRows(s, w, k, j);
      }
    case MarkHit =>
    case StoreHit =>
    case _ =>
  }

  lemma ItemRespects(s: State, w: WorkerId, k: Key, a: ItemAction, v: WorkerId)
    requires Base(s) && Safe(s) && ItemEnabled(s, w, k, a) && v != w
    ensures Respects(s, ApplyItem(s, w, k, a), v)
  {
    var t := ApplyItem(s, w, k, a);
    ItemDbEffect(s, w, k, a);
    assert t.hist == s.hist.(lastScan := t.hist.lastScan);
  }

  /** The other rows of the same batch. */
  lemma SiblingSafe(s: State, w: WorkerId, k: Key, a: ItemAction, j: Key)
    requires Base(s) && Safe(s) && ItemEnabled(s, w, k, a) && AtItem(s, w, j) && j != k
    ensures ItemSafe(ApplyItem(s, w, k, a), w, ApplyItem(s, w, k, a).procs[w].pc.items, j)
  {
    var items := s.procs[w].pc.items;
    var t := ApplyItem(s, w, k, a);
    assert ProcSafe(s, w);
    assert ItemSafe(s, w, items, j);
    ItemDbEffect(s, w, k, a);
    SettledRowsStay(s, w, k, a, j);
    if items[j].Flushing? {
      SiblingFlushing(s, w, k, a, j);
    }
  }

  lemma SiblingFlushing(s: State, w: WorkerId, k: Key, a: ItemAction, j: Key)
    requires Base(s) && Safe(s) && ItemEnabled(s, w, k, a) && AtItem(s, w, j) && j != k
    requires s.procs[w].pc.items[j].Flushing?
    ensures var t := ApplyItem(s, w, k, a);
      forall i | i in s.procs[w].pc.items[j].batch ::
        i in t.procs[w].pc.items && Settled(t.procs[w].pc.items[i]) && HitSafe(t, i)
  {
    var items := s.procs[w].pc.items;
    var t := ApplyItem(s, w, k, a);
    assert ProcSafe(s, w);
    assert ItemSafe(s, w, items, j);
    forall i | i in items[j].batch
      ensures i in t.procs[w].pc.items && Settled(t.procs[w].pc.items[i]) && HitSafe(t, i)
    {
      if i != k {
        SettledRowsStay(s, w, k, a, i);
      }
    }
  }

  /** A row waiting in a buffer is not touched by the goroutines that are still at work. */
  lemma SettledRowsStay(s: State, w: WorkerId, k: Key, a: ItemAction, j: Key)
    requires Base(s) && Safe(s) && ItemEnabled(s, w, k, a) && AtItem(s, w, j) && j != k
    ensures var t := ApplyItem(s, w, k, a);
      && (ClaimedBy(s.db, j, w) && !Settled(s.procs[w].pc.items[j]) && s.procs[w].pc.items[j] != Append ==>
            ClaimedBy(t.db, j, w))
      && (HitSafe(s, j) ==> HitSafe(t, j))
  {
    var items := s.procs[w].pc.items;
    assert ProcSafe(s, w);
    assert ItemSafe(s, w, items, k);
    match a
    case CommitItem =>
    case _ =>
  }

  /** The row being appended and the rows that wait with it. */
  lemma AppendedRows(s: State, w: WorkerId, k: Key, j: Key)
    requires Safe(s) && ItemEnabled(s, w, k, AppendItem) && j in s.procs[w].pc.buf + {k}
    ensures AtItem(s, w, j) && HitSafe(s, j) && Held(s.db, j, w) && (j == k || Settled(s.procs[w].pc.items[j]))
  {
    assert ProcSafe(s, w);
    assert ItemSafe(s, w, s.procs[w].pc.items, k);
    if j != k {
      assert ItemSafe(s, w, s.procs[w].pc.items, j);
    }
  }

  lemma ItemOwnSafe(s: State, w: WorkerId, k: Key, a: ItemAction)
    requires Base(s) && Safe(s) && ItemEnabled(s, w, k, a) && a != AppendItem
    ensures ItemSafe(ApplyItem(s, w, k, a), w, ApplyItem(s, w, k, a).procs[w].pc.items, k)
  {
    var t := ApplyItem(s, w, k, a);
    assert t.procs[w].pc.items[k] == NextItem(s.procs[w].pc, k, a).0;
    assert ProcSafe(s, w);
    assert ItemSafe(s, w, s.procs[w].pc.items, k);
    ItemDbEffect(s, w, k, a);
  }

  lemma AppendOwnSafe(s: State, w: WorkerId, k: Key)
    requires Safe(s) && ItemEnabled(s, w, k, AppendItem)
    ensures ItemSafe(ApplyItem(s, w, k, AppendItem), w, ApplyItem(s, w, k, AppendItem).procs[w].pc.items, k)
  {
    var t := ApplyItem(s, w, k, AppendItem);
    assert t.db == s.db && t.hist == s.hist;
    forall j | j in s.procs[w].pc.buf + {k}
      ensures Held(t.db, j, w) && HitSafe(t, j) && j in t.procs[w].pc.items && Settled(t.procs[w].pc.items[j])
    {
      AppendedRows(s, w, k, j);
    }
  }

  lemma ItemBufSafe(s: State, w: WorkerId, k: Key, a: ItemAction, j: Key)
    requires Base(s) && Safe(s) && ItemEnabled(s, w, k, a) && j in ApplyItem(s, w, k, a).procs[w].pc.buf
    ensures var t := ApplyItem(s, w, k, a);
      j in t.procs[w].pc.items && Settled(t.procs[w].pc.items[j]) && HitSafe(t, j)
  {
    assert ProcSafe(s, w);
    if a == AppendItem {
      AppendedRows(s, w, k, j);
      assert ApplyItem(s, w, k, a).hist == s.hist;
    } else {
      if j != k {
        SettledRowsStay(s, w, k, a, j);
      } else {
        assert ApplyItem(s, w, k, a).db.results == s.db.results;
      }
    }
  }

  lemma ItemRows(s: State, w: WorkerId, k: Key, a: ItemAction)
    requires Base(s) && Safe(s) && ItemEnabled(s, w, k, a)
    ensures RowsSafe(ApplyItem(s, w, k, a))
  {
    var t := ApplyItem(s, w, k, a);
    assert ProcSafe(s, w);
    assert ItemSafe(s, w, s.procs[w].pc.items, k);
    match a
    case StoreHit =>
      assert !AllDone(s.db);
      assert VerifiedRows(t.db) == VerifiedRows(s.db);
    case CommitItem =>
      forall j | j in t.db.work && t.db.work[j].status == Done ensures HitSafe(t, j) {
        if j in s.procs[w].pc.items[k].batch {
          FlushedRows(s, w, k, j);
        }
      }
      assert VerifiedRows(t.db) == VerifiedRows(s.db);
    case _ =>
      assert VerifiedRows(t.db) == VerifiedRows(s.db);
  }

  lemma ItemSelfSafe(s: State, w: WorkerId, k: Key, a: ItemAction)
    requires Base(s) && Safe(s) && ItemEnabled(s, w, k, a)
    ensures ProcSafe(ApplyItem(s, w, k, a), w)
  {
    var t := ApplyItem(s, w, k, a);
    assert ProcSafe(s, w);
    forall j | j in t.procs[w].pc.items ensures ItemSafe(t, w, t.procs[w].pc.items, j) {
      if j == k && a == AppendItem {
        AppendOwnSafe(s, w, k);
      } else if j == k {
        ItemOwnSafe(s, w, k, a);
      } else {
        SiblingSafe(s, w, k, a, j);
      }
    }
    forall j | j in t.procs[w].pc.buf
      ensures j in t.procs[w].pc.items && Settled(t.procs[w].pc.items[j]) && HitSafe(t, j)
    {
      ItemBufSafe(s, w, k, a, j);
    }
  }

  lemma ItemStepSafe(s: State, w: WorkerId, k: Key, a: ItemAction)
    requires Base(s) && Safe(s) && ItemEnabled(s, w, k, a)
    ensures Safe(ApplyItem(s, w, k, a))
  {
    var t := ApplyItem(s, w, k, a);
    ItemRows(s, w, k, a);
    ItemSelfSafe(s, w, k, a);
    forall v | v in t.procs ensures ProcSafe(t, v) {
      if v != w {
        ItemRespects(s, w, k, a, v);
        OthersSafe(s, t, v);
      }
    }
  }

  // ---- Steps of the verify loop ----

  lemma PassSafe(s: State, w: WorkerId, a: PassAction)
    requires Base(s) && Safe(s) && PassEnabled(s, w, a)
    ensures Safe(ApplyPass(s, w, a))
  {
    var t := ApplyPass(s, w, a);
    assert ProcSafe(s, w) && ProcInv(s, w);
    forall v | v in t.procs ensures ProcSafe(t, v) {
      if v != w {
        OthersSafe(s, t, v);
      }
    }
  }

  /** Storing the first verdict on a hit closes it; nothing else changes what is unverified or verified. */
  predicate HitEffect(s: Tables, t: Tables, k: Key, a: HitAction) {
    && t.work == s.work
    && UnverifiedRows(t) == UnverifiedRows(s) - (if a == StoreReject || a == StoreAccept then {k} else {})
    && s.results.Keys <= t.results.Keys
    && VerifiedRows(t) == VerifiedRows(s) + (if a == StoreAccept then {k} else {})
  }

  lemma RejectEffect(t: Tables, k: Key, colo: string)
    requires colo != ""
    ensures HitEffect(t, RejectResult(t, k, colo), k, StoreReject)
  {
  }

  lemma AcceptEffect(t: Tables, k: Key, row: ResultRow)
    requires row.status == Verified
    ensures HitEffect(t, UpsertResult(t, k, row), k, StoreAccept)
  {
  }

  lemma MarkEffect(t: Tables, k: Key)
    requires k in t.work ==> t.work[k].status == Done
    ensures MarkScanned(t, {k}) == t
  {
    assert MarkScanned(t, {k}).work == t.work;
  }

  lemma HitDbShrinks(s: State, w: WorkerId, k: Key, a: HitAction)
    requires Base(s) && Safe(s) && HitEnabled(s, w, k, a)
    ensures HitEffect(s.db, ApplyHit(s, w, k, a).db, k, a)
  {
    assert ProcSafe(s, w) && ProcInv(s, w);
    assert HitGood(s, k, s.procs[w].pc.hits[k]);
    match a
    case MarkAccept => MarkEffect(s.db, k);
    case StoreReject => RejectEffect(s.db, k, s.procs[w].pc.hits[k].colo);
    case StoreAccept => AcceptEffect(s.db, k, s.procs[w].pc.hits[k].row);
    case _ => assert ApplyHit(s, w, k, a).db == s.db;
  }

  lemma HitRows(s: State, w: WorkerId, k: Key, a: HitAction)
    requires Base(s) && Safe(s) && HitEnabled(s, w, k, a)
    ensures RowsSafe(ApplyHit(s, w, k, a))
  {
    var t := ApplyHit(s, w, k, a);
    HitDbShrinks(s, w, k, a);
    match a
    case StoreReject => RejectRows(s, w, k);
    case StoreAccept => AcceptRows(s, w, k);
    case _ => assert t.db.results == s.db.results;
  }

  lemma RejectRows(s: State, w: WorkerId, k: Key)
    requires Base(s) && Safe(s) && HitEnabled(s, w, k, StoreReject)
    ensures RowsSafe(ApplyHit(s, w, k, StoreReject))
  {
    HitDbShrinks(s, w, k, StoreReject);
    assert ProcSafe(s, w) && ProcInv(s, w);
    assert HitGood(s, k, s.procs[w].pc.hits[k]);
  }

  lemma AcceptRows(s: State, w: WorkerId, k: Key)
    requires Base(s) && Safe(s) && HitEnabled(s, w, k, StoreAccept)
    ensures RowsSafe(ApplyHit(s, w, k, StoreAccept))
  {
    HitDbShrinks(s, w, k, StoreAccept);
    assert ProcSafe(s, w) && ProcInv(s, w);
    assert HitGood(s, k, s.procs[w].pc.hits[k]);
  }

  lemma HitStepSafe(s: State, w: WorkerId, k: Key, a: HitAction)
    requires Base(s) && Safe(s) && HitEnabled(s, w, k, a)
    ensures Safe(ApplyHit(s, w, k, a))
  {
    var t := ApplyHit(s, w, k, a);
    HitDbShrinks(s, w, k, a);
    HitRows(s, w, k, a);
    HitSelf(s, w, k, a);
    forall v | v in t.procs ensures ProcSafe(t, v) {
      if v != w {
        OthersSafe(s, t, v);
      }
    }
  }

  lemma OtherHit(s: State, w: WorkerId, k: Key, a: HitAction, j: Key)
    requires Base(s) && Safe(s) && HitEnabled(s, w, k, a) && AtHit(s, w, j) && j != k
    ensures HitGood(ApplyHit(s, w, k, a), j, s.procs[w].pc.hits[j])
  {
    assert ProcSafe(s, w);
    assert HitGood(s, j, s.procs[w].pc.hits[j]);
    HitDbShrinks(s, w, k, a);
  }

  lemma OwnHit(s: State, w: WorkerId, k: Key, a: HitAction)
    requires Base(s) && Safe(s) && HitEnabled(s, w, k, a)
    ensures HitGood(ApplyHit(s, w, k, a), k, NextHit(a))
  {
    assert ProcSafe(s, w);
    assert HitGood(s, k, s.procs[w].pc.hits[k]);
    HitDbShrinks(s, w, k, a);
  }

  lemma HitSelf(s: State, w: WorkerId, k: Key, a: HitAction)
    requires Base(s) && Safe(s) && HitEnabled(s, w, k, a)
    ensures ProcSafe(ApplyHit(s, w, k, a), w)
  {
    var t := ApplyHit(s, w, k, a);
    var hits := s.procs[w].pc.hits;
    assert ProcSafe(s, w);
    assert t.procs[w].pc == VerifyBatch(hits[k := NextHit(a)]);
    OwnHit(s, w, k, a);
    forall j | j in hits && j != k ensures HitGood(t, j, hits[j]) {
      OtherHit(s, w, k, a, j);
    }
  }

  // ---- What a step adds to the history ----

  predicate IsMarked(s: State, w: WorkerId) {
    w in s.chunks && s.chunks[w] == Marked
  }

  /** A release turns a row that was being processed back into a pending one. */
  predicate Releases(s: State, a: Action, t: State, k: Key) {
    && (a == Watch2(RecoverRows) || a == Control(CancelRelease))
    && k in s.db.work && s.db.work[k].status == Processing
    && k in t.db.work && t.db.work[k].status == Pending
  }

  ghost predicate Historic(s: State, a: Action, t: State) {
    && (forall w :: IsMarked(s, w) ==> IsMarked(t, w) && a != Chunk(w, MarkChunk))
    && (forall w :: IsMarked(t, w) && !IsMarked(s, w) ==> a == Chunk(w, MarkChunk))
    && (a.Chunk? ==> a.cw in s.chunks && !IsMarked(s, a.cw) && (a.cha == MarkChunk ==> IsMarked(t, a.cw)))
    && (t.db.masscan == s.db.masscan || a.Chunk?)
    && (forall k :: k in t.hist.lastScan ==> k in s.hist.lastScan || k in s.db.work)
    && s.hist.accepted <= t.hist.accepted
    && (s.hist.stole ==> t.hist.stole)
    && (t.hist.stole && !s.hist.stole ==>
          a == Control(CancelRelease) && exists k :: k in s.db.work && s.db.work[k].status == Processing)
    && (forall k :: k in s.db.work && s.db.work[k].status != Pending && k in t.db.work && t.db.work[k].status == Pending
          ==> Releases(s, a, t, k))
  }

  lemma CreateHistory(s: State, a: CreateAction)
    requires Base(s) && CreateEnabled(s, a)
    ensures Historic(s, Create(a), ApplyCreate(s, a))
  {
  }

  lemma Watch1History(s: State, a: Watch1Action)
    requires Base(s) && Watch1Enabled(s, a)
    ensures Historic(s, Watch1(a), ApplyWatch1(s, a))
  {
  }

  lemma Watch2History(s: State, a: Watch2Action)
    requires Base(s) && Watch2Enabled(s, a)
    ensures Historic(s, Watch2(a), ApplyWatch2(s, a))
  {
  }

  lemma ControlHistory(s: State, a: ControlAction)
    requires Base(s) && ControlEnabled(s, a)
    ensures Historic(s, Control(a), ApplyControl(s, a))
  {
  }

  lemma ChunkHistory(s: State, w: WorkerId, a: ChunkAction)
    requires Base(s) && ChunkEnabled(s, w, a)
    ensures Historic(s, Chunk(w, a), ApplyChunk(s, w, a))
  {
  }

  lemma ProcHistory(s: State, w: WorkerId, a: ProcAction)
    requires Base(s) && ProcEnabled(s, w, a)
    ensures Historic(s, Proc(w, a), ApplyProc(s, w, a))
  {
  }

  lemma LoopHistory(s: State, w: WorkerId, a: LoopAction)
    requires Base(s) && LoopEnabled(s, w, a)
    ensures Historic(s, Loop(w, a), ApplyLoop(s, w, a))
  {
  }

  lemma ItemHistory(s: State, w: WorkerId, k: Key, a: ItemAction)
    requires Base(s) && ItemEnabled(s, w, k, a)
    ensures Historic(s, Item(w, k, a), ApplyItem(s, w, k, a))
  {
    assert ProcInv(s, w) && k in s.procs[w].pc.items.Keys;
  }

  lemma PassHistory(s: State, w: WorkerId, a: PassAction)
    requires Base(s) && PassEnabled(s, w, a)
    ensures Historic(s, Pass(w, a), ApplyPass(s, w, a))
  {
  }

  lemma HitHistory(s: State, w: WorkerId, k: Key, a: HitAction)
    requires Base(s) && HitEnabled(s, w, k, a)
    ensures Historic(s, Hit(w, k, a), ApplyHit(s, w, k, a))
  {
  }

  lemma StepHistory(s: State, a: Action)
    requires Base(s) && Enabled(s, a)
    ensures Historic(s, a, Apply(s, a))
  {
    match a
    case Create(ca) => CreateHistory(s, ca);
    case Watch1(wa) => Watch1History(s, wa);
    case Watch2(wa) => Watch2History(s, wa);
    case Control(ca) => ControlHistory(s, ca);
    case Chunk(w, ca) => ChunkHistory(s, w, ca);
    case Proc(w, pa) => ProcHistory(s, w, pa);
    case Loop(w, la) => LoopHistory(s, w, la);
    case Item(w, k, ia) => ItemHistory(s, w, k, ia);
    case Pass(w, va) => PassHistory(s, w, va);
    case Hit(w, k, ha) => HitHistory(s, w, k, ha);
  }

  // ---- Safe is an invariant of every run in which no cancel takes a row away from its scanner ----

  lemma StepSafe(s: State, a: Action)
    requires Base(s) && Safe(s) && Enabled(s, a) && !Apply(s, a).hist.stole
    ensures Safe(Apply(s, a))
  {
    match a
    case Create(ca) => CreateSafe(s, ca);
    case Watch1(wa) => Watch1Safe(s, wa);
    case Watch2(wa) => Watch2Safe(s, wa);
    case Control(ca) => ControlSafe(s, ca);
    case Chunk(w, ca) => ChunkSafe(s, w, ca);
    case Proc(w, pa) => ProcStepSafe(s, w, pa);
    case Loop(w, la) => LoopSafe(s, w, la);
    case Item(w, k, ia) => ItemStepSafe(s, w, k, ia);
    case Pass(w, va) => PassSafe(s, w, va);
    case Hit(w, k, ha) => HitStepSafe(s, w, k, ha);
  }

  /** Everything that holds of a reachable state. */
  predicate Good(s: State) {
    Base(s) && (s.hist.stole || Safe(s))
  }

  lemma StepGood(s: State, a: Action)
    requires Good(s) && Enabled(s, a)
    ensures Good(Apply(s, a))
  {
    StepBase(s, a);
    StepHistory(s, a);
    if !Apply(s, a).hist.stole {
      StepSafe(s, a);
    }
  }

  lemma {:induction false} RunGood(ss: seq<State>, acts: seq<Action>, i: nat)
    requires IsRun(ss, acts) && i < |ss|
    ensures Good(ss[i])
  {
    if i == 0 {
      InitBase(ss[0]);
      InitSafe(ss[0]);
    } else {
      RunGood(ss, acts, i - 1);
      assert StepAt(ss, acts, i - 1);
      StepGood(ss[i - 1], acts[i - 1]);
    }
  }

  /** What the step from state `i` to the next one is known to keep. */
  lemma RunStep(ss: seq<State>, acts: seq<Action>, i: nat)
    requires IsRun(ss, acts) && i < |acts|
    ensures Onward(ss[i], ss[i + 1]) && Historic(ss[i], acts[i], ss[i + 1])
  {
    RunGood(ss, acts, i);
    assert StepAt(ss, acts, i);
    StepOnward(ss[i], acts[i]);
    StepHistory(ss[i], acts[i]);
  }
}
