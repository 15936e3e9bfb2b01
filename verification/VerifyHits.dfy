/** The last phase of a task: the hits are verified in one batch and the entries are marked in place. */
module VerifyHits {
  import opened Common
  import opened Text
  import VerifyPipeline

  datatype Status = TlsOk | Verified | FailedVerify

  datatype Entry = Entry(ip: string, port: int, status: Status, colo: string, asn: string)

  predicate IsInt64(n: int) {
    -0x8000_0000_0000_0000 <= n < 0x8000_0000_0000_0000
  }

  /** `itoa` writes nothing for a negative port. */
  function Name(t: Target): string {
    t.ip + ":" + if t.port >= 0 then Decimal(t.port) else ""
  }

  function Names(hits: seq<Target>): (r: seq<string>)
    ensures |r| == |hits|
  {
    seq(|hits|, k requires 0 <= k < |hits| => Name(hits[k]))
  }

  method TargetName(ip: string, port: int) returns (s: string)
    requires IsInt64(port)
    ensures s == Name(Target(ip, port))
  {
    var digits := Itoa(port);
    s := ip + ":" + digits;
  }

  /** The last index with this name: later hits take the place of earlier ones in the map. */
  function Owner(hits: seq<Target>, name: string): Option<nat> {
    if hits == [] then None
    else if Name(hits[|hits| - 1]) == name then Some(|hits| - 1)
    else Owner(hits[..|hits| - 1], name)
  }

  function Mark(e: Entry, v: VerifyPipeline.BatchResult): Entry {
    if v.valid then e.(colo := v.info.colo, asn := v.info.asn, status := Verified) else e.(status := FailedVerify)
  }

  /** The last answer in the batch that carries this name. */
  function LastFor(batch: seq<VerifyPipeline.BatchResult>, name: string): Option<VerifyPipeline.BatchResult> {
    if batch == [] then None
    else
      var v := batch[|batch| - 1];
      if Name(Target(v.ip, v.port)) == name then Some(v) else LastFor(batch[..|batch| - 1], name)
  }

  /** What happens to entry `i`: only the owner of a name is marked, by the last answer for that name. */
  ghost predicate MarkedAs(before: Entry, after: Entry, i: nat, hits: seq<Target>,
                           batch: seq<VerifyPipeline.BatchResult>)
    requires i < |hits|
  {
    var name := Name(hits[i]);
    var v := LastFor(batch, name);
    if Owner(hits, name) == Some(i) && v.Some?
    then after.status == (if v.value.valid then Verified else FailedVerify)
         && (v.value.valid ==> after.colo == v.value.info.colo && after.asn == v.value.info.asn)
         && after.ip == before.ip && after.port == before.port
    else after == before
  }

  method BuildTargets(hits: seq<Target>) returns (targets: seq<string>, hitMap: map<string, nat>)
    requires forall h | h in hits :: IsInt64(h.port)
    ensures targets == Names(hits)
    ensures forall name :: (if name in hitMap then Some(hitMap[name]) else None) == Owner(hits, name)
  {
    targets, hitMap := [], map[];
    for i := 0 to |hits|
      invariant targets == Names(hits[..i])
      invariant forall name :: (if name in hitMap then Some(hitMap[name]) else None) == Owner(hits[..i], name)
    {
      var target := TargetName(hits[i].ip, hits[i].port);
      targets := targets + [target];
      hitMap := hitMap[target := i];
      assert hits[..i + 1][..i] == hits[..i];
    }
    assert hits[..|hits|] == hits;
  }

  lemma {:induction false} OwnerHasName(hits: seq<Target>, name: string)
    ensures Owner(hits, name).Some? ==> Owner(hits, name).value < |hits| && Name(hits[Owner(hits, name).value]) == name
  {
    if hits != [] {
      OwnerHasName(hits[..|hits| - 1], name);
    }
  }

  /**
   `hits[i]` is the hit whose entry is `entries[i]`; `verifyBatch` stands for the verification pipeline.
   */
  method Run(hits: seq<Target>, entries: array<Entry>, verifyBatch: seq<string> -> seq<VerifyPipeline.BatchResult>)
    requires entries.Length == |hits| && forall h | h in hits :: IsInt64(h.port)
    requires forall v | v in verifyBatch(Names(hits)) :: IsInt64(v.port)
    modifies entries
    ensures forall i: nat | i < |hits| :: MarkedAs(old(entries[i]), entries[i], i, hits, verifyBatch(Names(hits)))
  {
    var targets, hitMap := BuildTargets(hits);
    var batch := verifyBatch(targets);
    for k := 0 to |batch|
      invariant forall i: nat | i < |hits| :: MarkedAs(old(entries[i]), entries[i], i, hits, batch[..k])
    {
      var v := batch[k];
      var target := TargetName(v.ip, v.port);
      assert batch[..k + 1][..k] == batch[..k];
      OwnerHasName(hits, target);
      if target in hitMap {
        entries[hitMap[target]] := Mark(entries[hitMap[target]], v);
      }
    }
    assert batch[..|batch|] == batch;
  }

  // ---- Together with the verification pipeline ----

  predicate IsPort(n: int) {
    0 <= n < 0x8000_0000_0000_0000
  }

  /** A name is taken apart into its host and port exactly when the port is not negative. */
  lemma NameParses(t: Target)
    requires IsInt64(t.port)
    ensures TargetOf(Name(t)) == if t.port >= 0 then Some(t) else None
  {
    if t.port >= 0 {
      TargetRoundTrip(t.ip, t.port);
    } else {
      var s := Name(t);
      assert s[|s| - 1] == ':' && s[|s|..] == "";
    }
  }

  lemma SameName(t: Target, u: Target)
    requires IsPort(t.port) && IsPort(u.port) && Name(t) == Name(u)
    ensures t == u
  {
    NameParses(t);
    NameParses(u);
  }

  lemma NamesParse(hits: seq<Target>)
    requires forall h | h in hits :: IsInt64(h.port)
    ensures VerifyPipeline.AllParse(Names(hits)) <==> forall h | h in hits :: h.port >= 0
  {
    forall i: nat | i < |hits| ensures TargetOf(Names(hits)[i]).Some? <==> hits[i].port >= 0 {
      NameParses(hits[i]);
    }
    if VerifyPipeline.AllParse(Names(hits)) {
      forall h | h in hits ensures h.port >= 0 {
        var i: nat :| i < |hits| && hits[i] == h;
        assert Names(hits)[i] in Names(hits);
      }
    }
  }

  lemma {:induction false} ParsedNames(hits: seq<Target>)
    requires forall h | h in hits :: IsPort(h.port)
    ensures VerifyPipeline.Parsed(Names(hits)) == hits
  {
    if hits != [] {
      ParsedNames(hits[1..]);
      assert Names(hits)[1..] == Names(hits[1..]);
      NameParses(hits[0]);
    }
  }

  predicate Accepted(a: VerifyPipeline.Answer, t: Target) {
    a.job == t && a.info.Some?
  }

  lemma {:induction false} LastForMeaning(answers: seq<VerifyPipeline.Answer>, t: Target)
    requires IsPort(t.port) && forall a | a in answers :: IsPort(a.job.port)
    ensures var v := LastFor(VerifyPipeline.BatchOf(answers), Name(t));
      && (v.Some? <==> exists a :: a in answers && Accepted(a, t))
      && (v.Some? ==> v.value.valid && exists a :: a in answers && Accepted(a, t) && a.info.value == v.value.info)
  {
    if answers != [] {
      var rest, last := answers[..|answers| - 1], answers[|answers| - 1];
      LastForMeaning(rest, t);
      assert forall a :: a in answers <==> a in rest || a == last;
      if last.info.Some? {
        var batch := VerifyPipeline.BatchOf(answers);
        assert batch[..|batch| - 1] == VerifyPipeline.BatchOf(rest);
        assert Target(last.job.ip, last.job.port) == last.job;
        assert last in answers;
        if Name(last.job) == Name(t) {
          SameName(last.job, t);
        }
      } else {
        assert VerifyPipeline.BatchOf(answers) == VerifyPipeline.BatchOf(rest);
      }
    }
  }

  /** The verification of the hits returns if no port is negative, and only then. */
  lemma VerificationReturns(hits: seq<Target>, concurrency: int, steps: seq<VerifyPipeline.Step>)
    requires forall h | h in hits :: IsInt64(h.port)
    requires var end := VerifyPipeline.After(Names(hits), concurrency, steps);
      end.Some? && VerifyPipeline.AtRest(end.value, |hits|)
    ensures VerifyPipeline.Returned(VerifyPipeline.After(Names(hits), concurrency, steps).value, Names(hits))
            <==> forall h | h in hits :: h.port >= 0
  {
    VerifyPipeline.ReturnsIffAllParse(Names(hits), concurrency, steps);
    NamesParse(hits);
  }

  /** The answers that a returned pipeline has collected are answers for the hits, one for each. */
  lemma AnswersAreForHits(hits: seq<Target>, concurrency: int, steps: seq<VerifyPipeline.Step>)
    requires forall h | h in hits :: IsPort(h.port)
    requires var end := VerifyPipeline.After(Names(hits), concurrency, steps);
      end.Some? && VerifyPipeline.Returned(end.value, Names(hits))
    ensures var s := VerifyPipeline.After(Names(hits), concurrency, steps).value;
      && s.batch == VerifyPipeline.BatchOf(s.collected)
      && multiset(VerifyPipeline.Jobs(s.collected)) == multiset(hits)
      && forall a | a in s.collected :: IsPort(a.job.port)
  {
    VerifyPipeline.BatchIsComplete(Names(hits), concurrency, steps);
    ParsedNames(hits);
    var s := VerifyPipeline.After(Names(hits), concurrency, steps).value;
    var jobs := VerifyPipeline.Jobs(s.collected);
    forall a | a in s.collected ensures IsPort(a.job.port) {
      var k: nat :| k < |s.collected| && s.collected[k] == a;
      assert jobs[k] in multiset(jobs);
      assert jobs[k] in multiset(hits);
    }
  }

  /**
   An entry ends `verified` exactly when a call for its own address and port was answered and it is the
   last hit with that address and port; it then carries the answer. No entry ends `failed-verify`.
   */
  lemma VerifiedIffAnswered(hits: seq<Target>, before: seq<Entry>, after: seq<Entry>, concurrency: int,
                            steps: seq<VerifyPipeline.Step>, i: nat)
    requires |before| == |after| == |hits| && i < |hits| && before[i].status == TlsOk
    requires forall h | h in hits :: IsPort(h.port)
    requires var end := VerifyPipeline.After(Names(hits), concurrency, steps);
      && end.Some? && VerifyPipeline.Returned(end.value, Names(hits))
      && MarkedAs(before[i], after[i], i, hits, end.value.batch)
    ensures var s := VerifyPipeline.After(Names(hits), concurrency, steps).value;
      && (after[i].status == Verified <==>
          Owner(hits, Name(hits[i])) == Some(i) && exists a :: a in s.collected && Accepted(a, hits[i]))
      && (after[i].status == Verified ==>
          exists a :: a in s.collected && Accepted(a, hits[i])
                      && after[i].colo == a.info.value.colo && after[i].asn == a.info.value.asn)
      && (after[i].status != Verified ==> after[i] == before[i])
  {
    AnswersAreForHits(hits, concurrency, steps);
    LastForMeaning(VerifyPipeline.After(Names(hits), concurrency, steps).value.collected, hits[i]);
  }

  lemma {:induction false} OwnerIfDistinct(hits: seq<Target>, i: nat)
    requires i < |hits| && NoDuplicates(hits) && forall h | h in hits :: IsPort(h.port)
    ensures Owner(hits, Name(hits[i])) == Some(i)
  {
    var n := |hits| - 1;
    if i < n {
      if Name(hits[n]) == Name(hits[i]) {
        SameName(hits[n], hits[i]);
      }
      OwnerIfDistinct(hits[..n], i);
    }
  }

  /** With distinct hits there is one answer for each, and it alone decides about its entry. */
  lemma DistinctHits(hits: seq<Target>, before: seq<Entry>, after: seq<Entry>, concurrency: int,
                     steps: seq<VerifyPipeline.Step>, i: nat)
    requires |before| == |after| == |hits| && i < |hits| && before[i].status == TlsOk
    requires NoDuplicates(hits) && forall h | h in hits :: IsPort(h.port)
    requires var end := VerifyPipeline.After(Names(hits), concurrency, steps);
      && end.Some? && VerifyPipeline.Returned(end.value, Names(hits))
      && MarkedAs(before[i], after[i], i, hits, end.value.batch)
    ensures var s := VerifyPipeline.After(Names(hits), concurrency, steps).value;
      && multiset(VerifyPipeline.Jobs(s.collected))[hits[i]] == 1
      && (after[i].status == Verified <==> exists a :: a in s.collected && Accepted(a, hits[i]))
  {
    AnswersAreForHits(hits, concurrency, steps);
    VerifiedIffAnswered(hits, before, after, concurrency, steps, i);
    OwnerIfDistinct(hits, i);
    Once(hits, i);
  }
}
