/**
 The scan pipeline of a task: a producer fills the channel of jobs, a dispatcher starts one goroutine
 per job under a semaphore, the goroutines send results, and the collector counts and keeps the hits.
 One step is one channel operation or one probe; any interleaving is a run. The run is not stopped.
 */
module ScanPipeline {
  import opened Common
  import opened Text

  datatype Result = Result(job: Target, isCF: bool)

  /**
   `scanning` and `sending` are the goroutines before and after their probe, `releasing` those that have
   sent their result, `leaving` those that have given back their place; `scanned` records the probes made.
   */
  datatype State = State(
    todo: seq<Target>, jobs: seq<Target>, jobsClosed: bool,
    held: Option<Target>, sem: nat, wg: nat,
    scanning: seq<Target>, sending: seq<Result>, releasing: nat, leaving: nat,
    results: seq<Result>, resultsClosed: bool,
    collected: seq<Result>, hits: seq<Result>, entries: seq<Target>, done: bool,
    scanned: multiset<Target>)

  datatype Step =
    | Produce | CloseJobs
    | Take | Spawn | CloseResults
    | Check(i: nat, isCF: bool) | Send(i: nat) | Release | Leave
    | Collect | Finish

  /** A fiftieth of the rate, at least 50, at most the hardware limit if there is one. */
  function Concurrency(maxRate: int, limit: int): (conc: nat)
    ensures 1 <= conc && (limit > 0 ==> conc <= limit)
    ensures conc == limit || if maxRate < 2500 then conc == 50 else 50 * conc <= maxRate < 50 * (conc + 1)
    ensures conc == limit ==> conc <= 50 || 50 * conc <= maxRate
  {
    var c := if maxRate / 50 < 50 then 50 else maxRate / 50;
    if limit > 0 && c > limit then limit else c
  }

  /** The order of the producer: every port of the first address, then of the next. */
  function AllJobs(ips: seq<string>, ports: seq<int>): seq<Target> {
    if ips == [] then []
    else
      var last := |ips| - 1;
      AllJobs(ips[..last], ports) + seq(|ports|, k requires 0 <= k < |ports| => Target(ips[last], ports[k]))
  }

  function Init(all: seq<Target>): State {
    State(all, [], false, None, 0, 0, [], [], 0, 0, [], false, [], [], [], false, multiset{})
  }

  /** `room` is the capacity of the channel of jobs, `conc` that of the semaphore and of the results. */
  predicate Enabled(s: State, step: Step, room: nat, conc: nat) {
    match step
    case Produce => s.todo != [] && |s.jobs| < room
    case CloseJobs => s.todo == [] && !s.jobsClosed
    case Take => s.held.None? && s.jobs != []
    case Spawn => s.held.Some? && s.sem < conc
    case CloseResults => s.jobsClosed && s.jobs == [] && s.held.None? && s.wg == 0 && !s.resultsClosed
    case Check(i, _) => i < |s.scanning|
    case Send(i) => i < |s.sending| && |s.results| < conc
    case Release => s.releasing > 0 && s.sem > 0
    case Leave => s.leaving > 0 && s.wg > 0
    case Collect => s.results != [] && !s.done
    case Finish => s.results == [] && s.resultsClosed && !s.done
  }

  function Apply(s: State, step: Step, room: nat, conc: nat): State
    requires Enabled(s, step, room, conc)
  {
    match step
    case Produce => s.(todo := s.todo[1..], jobs := s.jobs + [s.todo[0]])
    case CloseJobs => s.(jobsClosed := true)
    case Take => s.(jobs := s.jobs[1..], held := Some(s.jobs[0]))
    case Spawn => s.(held := None, sem := s.sem + 1, wg := s.wg + 1, scanning := s.scanning + [s.held.value])
    case CloseResults => s.(resultsClosed := true)
    case Check(i, isCF) =>
      s.(scanning := Without(s.scanning, i), sending := s.sending + [Result(s.scanning[i], isCF)],
         scanned := s.scanned + multiset{s.scanning[i]})
    case Send(i) =>
      s.(sending := Without(s.sending, i), results := s.results + [s.sending[i]], releasing := s.releasing + 1)
    case Release => s.(releasing := s.releasing - 1, sem := s.sem - 1, leaving := s.leaving + 1)
    case Leave => s.(leaving := s.leaving - 1, wg := s.wg - 1)
    case Collect =>
      var r := s.results[0];
      if r.isCF then
        s.(results := s.results[1..], collected := s.collected + [r],
           hits := s.hits + [r], entries := s.entries + [r.job])
      else
        s.(results := s.results[1..], collected := s.collected + [r])
    case Finish => s.(done := true)
  }

  /** The state after the steps, if each was possible when it was taken. */
  function After(all: seq<Target>, conc: nat, steps: seq<Step>): Option<State> {
    if steps == [] then Some(Init(all))
    else
      var before := After(all, conc, steps[..|steps| - 1]);
      if before.Some? && Enabled(before.value, steps[|steps| - 1], |all|, conc)
      then Some(Apply(before.value, steps[|steps| - 1], |all|, conc))
      else None
  }

  // ---- What every step keeps ----

  function Jobs(rs: seq<Result>): (r: seq<Target>)
    ensures |r| == |rs|
  {
    seq(|rs|, k requires 0 <= k < |rs| => rs[k].job)
  }

  function Hits(rs: seq<Result>): seq<Result> {
    if rs == [] then []
    else Hits(rs[..|rs| - 1]) + if rs[|rs| - 1].isCF then [rs[|rs| - 1]] else []
  }

  function HeldJobs(held: Option<Target>): multiset<Target> {
    if held.Some? then multiset{held.value} else multiset{}
  }

  /** Every job is in exactly one place; a job is probed once, on its way from before to after. */
  predicate Conserved(s: State, all: seq<Target>) {
    && multiset(s.todo) + multiset(s.jobs) + HeldJobs(s.held) + multiset(s.scanning) + s.scanned == multiset(all)
    && s.scanned == multiset(Jobs(s.sending)) + multiset(Jobs(s.results)) + multiset(Jobs(s.collected))
  }

  predicate Counted(s: State, conc: nat) {
    && s.sem == |s.scanning| + |s.sending| + s.releasing <= conc
    && s.wg == s.sem + s.leaving
    && |s.results| <= conc
    && (s.jobsClosed ==> s.todo == [])
    && (s.resultsClosed ==> s.jobsClosed && s.jobs == [] && s.held.None? && s.wg == 0)
    && (s.done ==> s.resultsClosed && s.results == [])
  }

  predicate Kept(s: State) {
    s.hits == Hits(s.collected) && s.entries == Jobs(s.hits)
  }

  ghost predicate Inv(s: State, all: seq<Target>, conc: nat) {
    Conserved(s, all) && Counted(s, conc) && Kept(s)
  }

  lemma JobsAppend(rs: seq<Result>, r: Result)
    ensures Jobs(rs + [r]) == Jobs(rs) + [r.job]
  {
  }

  lemma JobsWithout(rs: seq<Result>, i: nat)
    requires i < |rs|
    ensures Jobs(Without(rs, i)) == Without(Jobs(rs), i)
  {
  }

  lemma JobsTail(rs: seq<Result>)
    requires rs != []
    ensures Jobs(rs[1..]) == Jobs(rs)[1..]
  {
  }

  lemma StepConserved(s: State, step: Step, all: seq<Target>, room: nat, conc: nat)
    requires Conserved(s, all) && Enabled(s, step, room, conc)
    ensures Conserved(Apply(s, step, room, conc), all)
  {
    match step
    case Produce => PopFront(s.todo);
    case Take => PopFront(s.jobs);
    case Check(i, isCF) => CheckConserved(s, i, isCF, all, room, conc);
    case Send(i) => SendConserved(s, i, all, room, conc);
    case Collect => CollectConserved(s, all, room, conc);
    case _ =>
  }

  lemma CheckConserved(s: State, i: nat, isCF: bool, all: seq<Target>, room: nat, conc: nat)
    requires Conserved(s, all) && Enabled(s, Check(i, isCF), room, conc)
    ensures Conserved(Apply(s, Check(i, isCF), room, conc), all)
  {
    var r := Result(s.scanning[i], isCF);
    var s' := Apply(s, Check(i, isCF), room, conc);
    JobsAppend(s.sending, r);
    assert multiset(s.scanning) == multiset{r.job} + multiset(s'.scanning);
    Moved(multiset(s.todo) + multiset(s.jobs) + HeldJobs(s.held), multiset(s.scanning), multiset(s'.scanning),
          s.scanned, s'.scanned, multiset{r.job});
    assert multiset(Jobs(s'.sending)) == multiset(Jobs(s.sending)) + multiset{r.job};
  }

  lemma SendConserved(s: State, i: nat, all: seq<Target>, room: nat, conc: nat)
    requires Conserved(s, all) && Enabled(s, Send(i), room, conc)
    ensures Conserved(Apply(s, Send(i), room, conc), all)
  {
    JobsWithout(s.sending, i);
    JobsAppend(s.results, s.sending[i]);
  }

  lemma CollectConserved(s: State, all: seq<Target>, room: nat, conc: nat)
    requires Conserved(s, all) && Enabled(s, Collect, room, conc)
    ensures Conserved(Apply(s, Collect, room, conc), all)
  {
    var r := s.results[0];
    var s' := Apply(s, Collect, room, conc);
    JobsTail(s.results);
    PopFront(Jobs(s.results));
    JobsAppend(s.collected, r);
    Moved(multiset(Jobs(s.sending)), multiset(Jobs(s.results)), multiset(Jobs(s'.results)),
          multiset(Jobs(s.collected)), multiset(Jobs(s'.collected)), multiset{r.job});
  }

  lemma StepKept(s: State, step: Step, room: nat, conc: nat)
    requires Kept(s) && Enabled(s, step, room, conc)
    ensures Kept(Apply(s, step, room, conc))
  {
    if step.Collect? {
      var r := s.results[0];
      assert (s.collected + [r])[..|s.collected|] == s.collected;
      JobsAppend(s.hits, r);
    }
  }

  lemma StepCounted(s: State, step: Step, room: nat, conc: nat)
    requires Counted(s, conc) && Enabled(s, step, room, conc)
    ensures Counted(Apply(s, step, room, conc), conc)
  {
  }

  lemma InitInv(all: seq<Target>, conc: nat)
    ensures Inv(Init(all), all, conc)
  {
    assert Jobs([]) == [];
  }

  lemma {:induction false} RunInv(all: seq<Target>, conc: nat, steps: seq<Step>)
    requires After(all, conc, steps).Some?
    ensures Inv(After(all, conc, steps).value, all, conc)
  {
    if steps == [] {
      InitInv(all, conc);
    } else {
      var rest, last := steps[..|steps| - 1], steps[|steps| - 1];
      RunInv(all, conc, rest);
      var s := After(all, conc, rest).value;
      StepConserved(s, last, all, |all|, conc);
      StepCounted(s, last, |all|, conc);
      StepKept(s, last, |all|, conc);
    }
  }

  // ---- Results ----

  /** At most `conc` probes run at once, and nothing is sent on a closed channel. */
  lemma AtMostConcurrencyInFlight(all: seq<Target>, conc: nat, steps: seq<Step>)
    requires After(all, conc, steps).Some?
    ensures var s := After(all, conc, steps).value;
      && |s.scanning| + |s.sending| <= conc
      && (s.jobsClosed ==> s.todo == [])
      && (s.resultsClosed ==> s.held.None? && s.scanning == [] && s.sending == [])
  {
    RunInv(all, conc, steps);
  }

  /** No job is ever probed more often than it was produced, and at the end each was probed and collected. */
  lemma EachJobScannedOnce(all: seq<Target>, conc: nat, steps: seq<Step>)
    requires After(all, conc, steps).Some?
    ensures var s := After(all, conc, steps).value;
      && s.scanned <= multiset(all)
      && (s.done ==> s.scanned == multiset(all) == multiset(Jobs(s.collected)))
      && s.hits == Hits(s.collected) && s.entries == Jobs(s.hits)
  {
    RunInv(all, conc, steps);
    var s := After(all, conc, steps).value;
    if s.done {
      assert s.scanned == multiset(all);
      assert Jobs(s.sending) == [] && Jobs(s.results) == [];
    }
  }

  // ---- What becomes of the outcome of a probe ----

  /** The outcomes of the probes among the steps. */
  function Outcomes(all: seq<Target>, conc: nat, steps: seq<Step>): multiset<Result>
    requires After(all, conc, steps).Some?
  {
    if steps == [] then multiset{}
    else
      var rest, last := steps[..|steps| - 1], steps[|steps| - 1];
      Outcomes(all, conc, rest) +
      if last.Check? then multiset{Result(After(all, conc, rest).value.scanning[last.i], last.isCF)} else multiset{}
  }

  function OnTheWay(s: State): multiset<Result> {
    multiset(s.sending) + multiset(s.results) + multiset(s.collected)
  }

  lemma StepOutcome(s: State, step: Step, room: nat, conc: nat)
    requires Enabled(s, step, room, conc)
    ensures OnTheWay(Apply(s, step, room, conc)) ==
              OnTheWay(s) + if step.Check? then multiset{Result(s.scanning[step.i], step.isCF)} else multiset{}
  {
    match step
    case Check(i, isCF) => CheckOutcome(s, i, isCF, room, conc);
    case Send(i) => SendOutcome(s, i, room, conc);
    case Collect => CollectOutcome(s, room, conc);
    case _ => SameOutcomes(s, step, room, conc);
  }

  lemma SameOutcomes(s: State, step: Step, room: nat, conc: nat)
    requires Enabled(s, step, room, conc) && !step.Check? && !step.Send? && !step.Collect?
    ensures OnTheWay(Apply(s, step, room, conc)) == OnTheWay(s)
  {
    var s' := Apply(s, step, room, conc);
    assert s'.sending == s.sending && s'.results == s.results && s'.collected == s.collected;
  }

  lemma CollectOutcome(s: State, room: nat, conc: nat)
    requires Enabled(s, Collect, room, conc)
    ensures OnTheWay(Apply(s, Collect, room, conc)) == OnTheWay(s)
  {
    PopFront(s.results);
  }

  lemma CheckOutcome(s: State, i: nat, isCF: bool, room: nat, conc: nat)
    requires Enabled(s, Check(i, isCF), room, conc)
    ensures OnTheWay(Apply(s, Check(i, isCF), room, conc)) == OnTheWay(s) + multiset{Result(s.scanning[i], isCF)}
  {
  }

  lemma SendOutcome(s: State, i: nat, room: nat, conc: nat)
    requires Enabled(s, Send(i), room, conc)
    ensures OnTheWay(Apply(s, Send(i), room, conc)) == OnTheWay(s)
  {
    Moved(multiset(s.collected), multiset(s.sending), multiset(Without(s.sending, i)),
          multiset(s.results), multiset(s.results + [s.sending[i]]), multiset{s.sending[i]});
  }

  lemma {:induction false} OutcomesKept(all: seq<Target>, conc: nat, steps: seq<Step>)
    requires After(all, conc, steps).Some?
    ensures OnTheWay(After(all, conc, steps).value) == Outcomes(all, conc, steps)
  {
    if steps != [] {
      var rest := steps[..|steps| - 1];
      OutcomesKept(all, conc, rest);
      StepOutcome(After(all, conc, rest).value, steps[|steps| - 1], |all|, conc);
    }
  }

  lemma {:induction false} HitCount(rs: seq<Result>, r: Result)
    ensures multiset(Hits(rs))[r] == if r.isCF then multiset(rs)[r] else 0
  {
    if rs != [] {
      var pre, last := rs[..|rs| - 1], rs[|rs| - 1];
      HitCount(pre, r);
      assert rs == pre + [last];
    }
  }

  /** At the end exactly the outcomes of the probes have been collected, and the hits are the positive ones. */
  lemma HitsAreOutcomes(all: seq<Target>, conc: nat, steps: seq<Step>, r: Result)
    requires After(all, conc, steps).Some? && After(all, conc, steps).value.done
    ensures var s, outcomes := After(all, conc, steps).value, Outcomes(all, conc, steps);
      && multiset(s.collected) == outcomes
      && multiset(s.hits)[r] == if r.isCF then outcomes[r] else 0
  {
    OutcomesKept(all, conc, steps);
    RunInv(all, conc, steps);
    HitCount(After(all, conc, steps).value.collected, r);
  }

  /** With distinct addresses and ports every pair is probed exactly once. */
  lemma EachPairScannedOnce(ips: seq<string>, ports: seq<int>, conc: nat, steps: seq<Step>, ip: string, port: int)
    requires NoDuplicates(ips) && NoDuplicates(ports) && ip in ips && port in ports
    requires var end := After(AllJobs(ips, ports), conc, steps); end.Some? && end.value.done
    ensures After(AllJobs(ips, ports), conc, steps).value.scanned[Target(ip, port)] == 1
  {
    EachJobScannedOnce(AllJobs(ips, ports), conc, steps);
    PairsOnce(ips, ports, ip, port);
  }

  lemma {:induction false} PairsNone(ips: seq<string>, ports: seq<int>, ip: string, port: int)
    requires ip !in ips
    ensures Target(ip, port) !in AllJobs(ips, ports)
  {
    if ips != [] {
      PairsNone(ips[..|ips| - 1], ports, ip, port);
    }
  }

  lemma {:induction false} PairsOnce(ips: seq<string>, ports: seq<int>, ip: string, port: int)
    requires NoDuplicates(ips) && NoDuplicates(ports) && ip in ips && port in ports
    ensures multiset(AllJobs(ips, ports))[Target(ip, port)] == 1
  {
    var n := |ips| - 1;
    var row := seq(|ports|, k requires 0 <= k < |ports| => Target(ips[n], ports[k]));
    assert multiset(AllJobs(ips, ports)) == multiset(AllJobs(ips[..n], ports)) + multiset(row);
    if ip == ips[n] {
      PairsNone(ips[..n], ports, ip, port);
      var k: nat :| k < |ports| && ports[k] == port;
      assert NoDuplicates(row);
      Once(row, k);
    } else {
      PairsOnce(ips[..n], ports, ip, port);
      assert Target(ip, port) !in row;
    }
  }

  /** Until the collector has finished, some step is possible: no channel or semaphore blocks for ever. */
  lemma NeverStuck(all: seq<Target>, conc: nat, steps: seq<Step>) returns (next: Step)
    requires conc > 0 && After(all, conc, steps).Some? && !After(all, conc, steps).value.done
    ensures Enabled(After(all, conc, steps).value, next, |all|, conc)
  {
    RunInv(all, conc, steps);
    var s := After(all, conc, steps).value;
    if s.results != [] {
      next := Collect;
    } else if s.sending != [] {
      next := Send(0);
    } else if s.scanning != [] {
      next := Check(0, false);
    } else if s.releasing > 0 {
      next := Release;
    } else if s.leaving > 0 {
      next := Leave;
    } else if s.held.Some? {
      next := Spawn;
    } else if s.jobs != [] {
      next := Take;
    } else if s.todo != [] {
      next := Produce;
      assert |multiset(s.todo)| <= |multiset(all)|;
    } else if !s.jobsClosed {
      next := CloseJobs;
    } else if !s.resultsClosed {
      next := CloseResults;
    } else {
      next := Finish;
    }
  }

  function Remaining(s: State): nat {
    8 * |s.todo| + 7 * |s.jobs| + (if s.held.Some? then 6 else 0) + 5 * |s.scanning| + 4 * |s.sending|
    + 2 * s.releasing + s.leaving + |s.results|
    + (if s.jobsClosed then 0 else 1) + (if s.resultsClosed then 0 else 1) + (if s.done then 0 else 1)
  }

  lemma StepShrinks(s: State, step: Step, room: nat, conc: nat)
    requires Enabled(s, step, room, conc)
    ensures Remaining(Apply(s, step, room, conc)) < Remaining(s)
  {
  }

  /** Every run ends: it has at most eight steps for each job and three more. */
  lemma {:induction false} RunsAreBounded(all: seq<Target>, conc: nat, steps: seq<Step>)
    requires After(all, conc, steps).Some?
    ensures |steps| + Remaining(After(all, conc, steps).value) <= 8 * |all| + 3
  {
    if steps != [] {
      var rest := steps[..|steps| - 1];
      RunsAreBounded(all, conc, rest);
      StepShrinks(After(all, conc, rest).value, steps[|steps| - 1], |all|, conc);
    }
  }
}
