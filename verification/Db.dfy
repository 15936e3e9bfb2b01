/**
 The rows that the v2 master and its workers share, for one job, and the SQL statements they run.

 Each function below is one autocommitted statement (or, for the batch of scanned items, one
 transaction) as a function on the rows. `Store` is the object the Go code calls: its methods
 change the rows in place and are proved equal to those functions.
 */
module Db {
  import opened Common

  type WorkerId = string

  /** The unique key of a row in `masscan_results`, `work_queue` and `results` within one job. */
  datatype Key = Key(ip: string, port: int)

  datatype JobStatus = JobPending | JobRunning | JobCancelled | JobDone | JobFailed

  datatype Phase = Phase1 | Phase2 | Phase2b | PhaseDone

  datatype JobRow = JobRow(status: JobStatus, phase: Phase, totalWorkers: nat, doneWorkers: nat, totalItems: nat)

  datatype WorkStatus = Pending | Processing | Done

  datatype WorkRow = WorkRow(status: WorkStatus, worker: Option<WorkerId>)

  datatype ResultStatus = TlsOk | Verified

  datatype ResultRow = ResultRow(status: ResultStatus, colo: string, country: string, asn: string, delay: int)

  datatype Tables = Tables(
    job: JobRow,
    masscan: set<Key>,
    work: map<Key, WorkRow>,
    results: map<Key, ResultRow>,
    online: set<WorkerId>)

  const NEW_JOB := JobRow(JobPending, Phase1, 0, 0, 0)

  // ---- What the counting queries select ----

  function PendingRows(t: Tables): set<Key> {
    set k | k in t.work && t.work[k].status == Pending
  }

  function UndoneRows(t: Tables): set<Key> {
    set k | k in t.work && t.work[k].status != Done
  }

  function UnverifiedRows(t: Tables): set<Key> {
    set k | k in t.results && t.results[k].status == TlsOk && t.results[k].colo == ""
  }

  function VerifiedRows(t: Tables): set<Key> {
    set k | k in t.results && t.results[k].status == Verified
  }

  /** What the web page and the CSV export list. */
  function GetResults(t: Tables): map<Key, ResultRow> {
    map k | k in t.results && t.results[k].colo != "" :: t.results[k]
  }

  predicate AllDone(t: Tables) {
    forall k | k in t.work :: t.work[k].status == Done
  }

  // ---- Statements ----

  function InsertMasscan(t: Tables, keys: set<Key>): Tables {
    t.(masscan := t.masscan + keys)
  }

  function CountChunk(t: Tables): Tables {
    t.(job := t.job.(doneWorkers := t.job.doneWorkers + 1))
  }

  function StartJob(t: Tables, workers: nat): Tables {
    t.(job := t.job.(totalWorkers := workers, status := JobRunning))
  }

  /** ON CONFLICT DO NOTHING: a key that already has a work row keeps it. */
  function PopulateWorkQueue(t: Tables): Tables {
    t.(work := map k | k in t.masscan + t.work.Keys :: if k in t.work then t.work[k] else WorkRow(Pending, None))
  }

  function ClaimRows(t: Tables, w: WorkerId, batch: set<Key>): Tables {
    t.(work := map k | k in t.work :: if k in batch then WorkRow(Processing, Some(w)) else t.work[k])
  }

  function MarkScanned(t: Tables, batch: set<Key>): Tables {
    t.(work := map k | k in t.work :: if k in batch then t.work[k].(status := Done) else t.work[k])
  }

  function UpsertResult(t: Tables, k: Key, row: ResultRow): Tables {
    t.(results := t.results[k := row])
  }

  /** The verifier's UPDATE for a failed check; it touches a row only while that row is tls-ok. */
  function RejectResult(t: Tables, k: Key, colo: string): Tables {
    if k in t.results && t.results[k].status == TlsOk
    then t.(results := t.results[k := t.results[k].(colo := colo)])
    else t
  }

  function SetPhase(t: Tables, phase: Phase, items: nat): Tables {
    t.(job := t.job.(phase := phase, totalItems := items))
  }

  function SetStatus(t: Tables, status: JobStatus): Tables {
    t.(job := t.job.(status := status))
  }

  /** The second statement of a cancel. */
  function ReleaseProcessing(t: Tables): Tables {
    t.(work := map k | k in t.work ::
      if t.work[k].status == Processing then WorkRow(Pending, None) else t.work[k])
  }

  /** Crash recovery: `worker NOT IN (online workers)`; a NULL worker makes the test unknown, so that row stays. */
  function ReleaseOffline(t: Tables): Tables {
    t.(work := map k | k in t.work ::
      if t.work[k].status == Processing && t.work[k].worker.Some? && t.work[k].worker.value !in t.online
      then WorkRow(Pending, None) else t.work[k])
  }

  function DeleteTlsOk(t: Tables): Tables {
    t.(results := map k | k in t.results && t.results[k].status != TlsOk :: t.results[k])
  }

  // ---- The object the Go code calls ----

  class Store {
    var job: JobRow
    var masscan: set<Key>
    var work: map<Key, WorkRow>
    var results: map<Key, ResultRow>
    var online: set<WorkerId>

    function Rows(): Tables
      reads this
    {
      Tables(job, masscan, work, results, online)
    }

    constructor ()
      ensures Rows() == Tables(NEW_JOB, {}, map[], map[], {})
    {
      job, masscan, work, results, online := NEW_JOB, {}, map[], map[], {};
    }

    /** Inserts in slices of 500 keys; together the slices insert every key. */
    method InsertMasscanResults(ips: seq<string>, port: int)
      modifies this
      ensures Rows() == InsertMasscan(old(Rows()), set ip | ip in ips :: Key(ip, port))
      ensures masscan == old(masscan) + set ip | ip in ips :: Key(ip, port)
      ensures unchanged(`job, `work, `results, `online)
    {
      var i := 0;
      while i < |ips|
        invariant 0 <= i
        invariant Rows() == old(Rows()).(masscan := masscan)
        invariant masscan == old(masscan) + set j | 0 <= j < i && j < |ips| :: Key(ips[j], port)
      {
        var end := if i + 500 > |ips| then |ips| else i + 500;
        masscan := masscan + set j | i <= j < end :: Key(ips[j], port);
        i := i + 500;
      }
      assert forall ip | ip in ips :: exists j :: 0 <= j < |ips| && ips[j] == ip;
    }

    method PopulateQueue()
      modifies this
      ensures Rows() == PopulateWorkQueue(old(Rows()))
      ensures work.Keys == old(work.Keys) + masscan
      ensures forall k | k in work :: work[k] == if k in old(work) then old(work[k]) else WorkRow(Pending, None)
      ensures unchanged(`job, `masscan, `results, `online)
    {
      var add := map k | k in masscan && k !in work :: WorkRow(Pending, None);
      work := work + add;
    }

    /**
     UPDATE .. WHERE id IN (SELECT .. LIMIT .. FOR UPDATE SKIP LOCKED) RETURNING ..: rows that another
     transaction has locked are passed over.
     */
    method FetchWorkBatch(w: WorkerId, limit: nat, locked: set<Key>) returns (claimed: set<Key>)
      modifies this
      ensures claimed <= PendingRows(old(Rows())) - locked
      ensures |claimed| == limit || (|claimed| < limit && claimed == PendingRows(old(Rows())) - locked)
      ensures Rows() == ClaimRows(old(Rows()), w, claimed)
      ensures work.Keys == old(work.Keys)
      ensures forall k | k in work :: work[k] == if k in claimed then WorkRow(Processing, Some(w)) else old(work[k])
      ensures unchanged(`job, `masscan, `results, `online)
    {
      var candidates := PendingRows(Rows()) - locked;
      claimed := {};
      while candidates != {} && |claimed| < limit
        invariant claimed !! candidates
        invariant claimed + candidates == PendingRows(old(Rows())) - locked
        invariant |claimed| <= limit
        decreases |candidates|
      {
        var k :| k in candidates;
        candidates := candidates - {k};
        claimed := claimed + {k};
      }
      work := map k | k in work :: if k in claimed then WorkRow(Processing, Some(w)) else work[k];
    }

    /** One UPDATE per item inside one transaction; an item without a row updates nothing. */
    method MarkWorkScannedBatch(items: seq<Key>)
      modifies this
      ensures Rows() == MarkScanned(old(Rows()), set k | k in items)
      ensures work.Keys == old(work.Keys)
      ensures forall k | k in work :: work[k] == if k in items then old(work[k]).(status := Done) else old(work[k])
      ensures unchanged(`job, `masscan, `results, `online)
    {
      var i := 0;
      while i < |items|
        invariant 0 <= i <= |items|
        invariant Rows() == MarkScanned(old(Rows()), set k | k in items[..i])
      {
        var k := items[i];
        if k in work {
          work := work[k := work[k].(status := Done)];
        }
        assert items[..i + 1] == items[..i] + [k];
        i := i + 1;
      }
      assert items[..|items|] == items;
    }

    method MarkPhase1Done()
      modifies this
      ensures Rows() == CountChunk(old(Rows()))
      ensures job == old(job).(doneWorkers := old(job.doneWorkers) + 1)
      ensures unchanged(`masscan, `work, `results, `online)
    {
      job := job.(doneWorkers := job.doneWorkers + 1);
    }

    /** Two statements: the upsert of the result, then the work row. */
    method InsertResult(k: Key, row: ResultRow)
      modifies this
      ensures Rows() == MarkScanned(UpsertResult(old(Rows()), k, row), {k})
      ensures results == old(results)[k := row]
      ensures work == if k in old(work) then old(work)[k := WorkRow(Done, old(work[k].worker))] else old(work)
      ensures unchanged(`job, `masscan, `online)
    {
      results := results[k := row];
      if k in work {
        work := work[k := work[k].(status := Done)];
      }
    }

    method UpdateJobPhase(phase: Phase, items: nat)
      modifies this
      ensures Rows() == if phase == PhaseDone then SetStatus(SetPhase(old(Rows()), phase, items), JobDone)
                        else SetPhase(old(Rows()), phase, items)
      ensures job.phase == phase && job.totalItems == items
      ensures job.status == if phase == PhaseDone then JobDone else old(job.status)
      ensures job.totalWorkers == old(job.totalWorkers) && job.doneWorkers == old(job.doneWorkers)
      ensures unchanged(`masscan, `work, `results, `online)
    {
      job := job.(phase := phase, totalItems := items);
      if phase == PhaseDone {
        job := job.(status := JobDone);
      }
    }

    method CancelJob()
      modifies this
      ensures Rows() == ReleaseProcessing(SetStatus(old(Rows()), JobCancelled))
      ensures job == old(job).(status := JobCancelled)
      ensures work.Keys == old(work.Keys)
      ensures forall k | k in work ::
                work[k] == if old(work[k]).status == Processing then WorkRow(Pending, None) else old(work[k])
      ensures unchanged(`masscan, `results, `online)
    {
      job := job.(status := JobCancelled);
      work := map k | k in work :: if work[k].status == Processing then WorkRow(Pending, None) else work[k];
    }
  }

  // ---- What the statements keep ----

  /** Running the populate statement again adds nothing, and it never touches a row that is there. */
  lemma PopulateKeepsRows(t: Tables)
    ensures PopulateWorkQueue(t).work.Keys == t.masscan + t.work.Keys
    ensures forall k | k in t.work :: PopulateWorkQueue(t).work[k] == t.work[k]
    ensures PopulateWorkQueue(PopulateWorkQueue(t)) == PopulateWorkQueue(t)
  {
    var once := PopulateWorkQueue(t);
    assert PopulateWorkQueue(once).work == once.work;
  }

  /** A batch of scanned items can be committed in any grouping. */
  lemma MarkScannedComposes(t: Tables, a: set<Key>, b: set<Key>)
    ensures MarkScanned(MarkScanned(t, a), b) == MarkScanned(t, a + b)
  {
    assert MarkScanned(MarkScanned(t, a), b).work == MarkScanned(t, a + b).work;
  }
}
