/**
 The verification pipeline: a producer parses the targets into a channel, a pool of goroutines verifies
 them, and the collector waits for as many results as there are targets. One step is one channel
 operation or one call of the verification service; any interleaving is a run.
 */
module VerifyPipeline {
  import opened Common
  import opened Text

  /** What the service reports for an address that it accepts. */
  datatype Info = Info(colo: string, asn: string)

  /** The answer for one target; none when the call failed or the address was refused. */
  datatype Answer = Answer(job: Target, info: Option<Info>)

  datatype BatchResult = BatchResult(ip: string, port: int, valid: bool, info: Info)

  /** `collected` records the answers that the collector has received. */
  datatype State = State(
    todo: seq<string>, jobs: seq<Target>, jobsClosed: bool,
    idle: nat, verifying: seq<Target>, sending: seq<Answer>, ended: nat,
    results: seq<Answer>,
    collected: seq<Answer>, batch: seq<BatchResult>)

  datatype Step =
    | Parse | CloseJobs
    | Take | Verify(i: nat, info: Option<Info>) | Send(i: nat) | End
    | Collect

  function Workers(concurrency: int): (r: nat)
    ensures r >= 1
  {
    if concurrency < 1 then 16 else concurrency
  }

  function Init(targets: seq<string>, concurrency: int): State {
    State(targets, [], false, Workers(concurrency), [], [], 0, [], [], [])
  }

  /** Both channels have room for `room` elements, the number of targets. */
  predicate Enabled(s: State, step: Step, room: nat) {
    match step
    case Parse => s.todo != [] && (TargetOf(s.todo[0]).Some? ==> |s.jobs| < room)
    case CloseJobs => s.todo == [] && !s.jobsClosed
    case Take => s.idle > 0 && s.jobs != []
    case Verify(i, _) => i < |s.verifying|
    case Send(i) => i < |s.sending| && |s.results| < room
    case End => s.idle > 0 && s.jobs == [] && s.jobsClosed
    case Collect => |s.collected| < room && s.results != []
  }

  function Kept(a: Answer): seq<BatchResult> {
    if a.info.Some? then [BatchResult(a.job.ip, a.job.port, true, a.info.value)] else []
  }

  function Apply(s: State, step: Step, room: nat): State
    requires Enabled(s, step, room)
  {
    match step
    case Parse =>
      var parsed := TargetOf(s.todo[0]);
      if parsed.None? then s.(todo := s.todo[1..]) else s.(todo := s.todo[1..], jobs := s.jobs + [parsed.value])
    case CloseJobs => s.(jobsClosed := true)
    case Take => s.(idle := s.idle - 1, jobs := s.jobs[1..], verifying := s.verifying + [s.jobs[0]])
    case Verify(i, info) =>
      s.(verifying := Without(s.verifying, i), sending := s.sending + [Answer(s.verifying[i], info)])
    case Send(i) =>
      s.(sending := Without(s.sending, i), results := s.results + [s.sending[i]], idle := s.idle + 1)
    case End => s.(idle := s.idle - 1, ended := s.ended + 1)
    case Collect =>
      s.(results := s.results[1..], collected := s.collected + [s.results[0]], batch := s.batch + Kept(s.results[0]))
  }

  function After(targets: seq<string>, concurrency: int, steps: seq<Step>): Option<State> {
    if steps == [] then Some(Init(targets, concurrency))
    else
      var before := After(targets, concurrency, steps[..|steps| - 1]);
      if before.Some? && Enabled(before.value, steps[|steps| - 1], |targets|)
      then Some(Apply(before.value, steps[|steps| - 1], |targets|))
      else None
  }

  /** The collector's loop is over, so the call returns. */
  predicate Returned(s: State, targets: seq<string>) {
    |s.collected| == |targets|
  }

  // ---- What every step keeps ----

  function Parsed(targets: seq<string>): (r: seq<Target>)
    ensures |r| <= |targets|
  {
    if targets == [] then []
    else (if TargetOf(targets[0]).Some? then [TargetOf(targets[0]).value] else []) + Parsed(targets[1..])
  }

  predicate AllParse(targets: seq<string>) {
    forall t | t in targets :: TargetOf(t).Some?
  }

  function Jobs(answers: seq<Answer>): (r: seq<Target>)
    ensures |r| == |answers|
  {
    seq(|answers|, k requires 0 <= k < |answers| => answers[k].job)
  }

  function BatchOf(answers: seq<Answer>): seq<BatchResult> {
    if answers == [] then [] else BatchOf(answers[..|answers| - 1]) + Kept(answers[|answers| - 1])
  }

  function Before(s: State): multiset<Target> {
    multiset(Parsed(s.todo)) + multiset(s.jobs)
  }

  function Answered(s: State): multiset<Target> {
    multiset(Jobs(s.sending)) + multiset(Jobs(s.results)) + multiset(Jobs(s.collected))
  }

  predicate Conserved(s: State, targets: seq<string>) {
    Before(s) + multiset(s.verifying) + Answered(s) == multiset(Parsed(targets))
  }

  predicate Counted(s: State, targets: seq<string>, workers: nat) {
    && |Parsed(s.todo)| + |s.jobs| + |s.verifying| + |s.sending| + |s.results| + |s.collected| == |Parsed(targets)|
    && s.idle + |s.verifying| + |s.sending| + s.ended == workers
    && (s.jobsClosed ==> s.todo == [])
    && (s.ended > 0 ==> s.jobsClosed && s.jobs == [])
    && s.batch == BatchOf(s.collected)
  }

  lemma JobsAppend(answers: seq<Answer>, a: Answer)
    ensures multiset(Jobs(answers + [a])) == multiset(Jobs(answers)) + multiset{a.job}
  {
    assert Jobs(answers + [a]) == Jobs(answers) + [a.job];
  }

  lemma JobsWithout(answers: seq<Answer>, i: nat)
    requires i < |answers|
    ensures multiset(Jobs(answers)) == multiset{answers[i].job} + multiset(Jobs(Without(answers, i)))
  {
    assert Jobs(Without(answers, i)) == Without(Jobs(answers), i);
  }

  lemma JobsTail(answers: seq<Answer>)
    requires answers != []
    ensures multiset(Jobs(answers)) == multiset{answers[0].job} + multiset(Jobs(answers[1..]))
  {
    assert Jobs(answers[1..]) == Jobs(answers)[1..];
    PopFront(Jobs(answers));
  }

  lemma BeforeKept(s: State, room: nat)
    requires Enabled(s, Parse, room)
    ensures Before(Apply(s, Parse, room)) == Before(s)
  {
    var parsed := TargetOf(s.todo[0]);
    if parsed.Some? {
      assert multiset(Parsed(s.todo)) == multiset{parsed.value} + multiset(Parsed(s.todo[1..]));
    } else {
      assert Parsed(s.todo) == Parsed(s.todo[1..]);
    }
  }

  lemma AnsweredKept(s: State, step: Step, room: nat)
    requires Enabled(s, step, room) && (step.Send? || step.Collect?)
    ensures Answered(Apply(s, step, room)) == Answered(s)
  {
    if step.Send? {
      JobsWithout(s.sending, step.i);
      JobsAppend(s.results, s.sending[step.i]);
    } else {
      JobsTail(s.results);
      JobsAppend(s.collected, s.results[0]);
    }
  }

  lemma StepConserved(s: State, step: Step, targets: seq<string>, room: nat)
    requires Conserved(s, targets) && Enabled(s, step, room)
    ensures Conserved(Apply(s, step, room), targets)
  {
    var s' := Apply(s, step, room);
    match step
    case Parse => BeforeKept(s, room);
    case Take =>
      PopFront(s.jobs);
      Moved(multiset(Parsed(s.todo)), multiset(s.jobs), multiset(s'.jobs),
            multiset(s.verifying), multiset(s'.verifying), multiset{s.jobs[0]});
    case Verify(i, info) =>
      JobsAppend(s.sending, Answer(s.verifying[i], info));
      assert Answered(s') == Answered(s) + multiset{s.verifying[i]};
      Moved(Before(s), multiset(s.verifying), multiset(s'.verifying),
            Answered(s), Answered(s'), multiset{s.verifying[i]});
    case Send(_) => AnsweredKept(s, step, room);
    case Collect => AnsweredKept(s, step, room);
    case _ =>
  }

  lemma StepCounted(s: State, step: Step, targets: seq<string>, workers: nat, room: nat)
    requires Counted(s, targets, workers) && Enabled(s, step, room)
    ensures Counted(Apply(s, step, room), targets, workers)
  {
    if step.Collect? {
      assert (s.collected + [s.results[0]])[..|s.collected|] == s.collected;
    }
  }

  lemma {:induction false} RunInv(targets: seq<string>, concurrency: int, steps: seq<Step>)
    requires After(targets, concurrency, steps).Some?
    ensures var s := After(targets, concurrency, steps).value;
      Conserved(s, targets) && Counted(s, targets, Workers(concurrency))
  {
    if steps == [] {
      assert Jobs([]) == [];
    } else {
      var rest, last := steps[..|steps| - 1], steps[|steps| - 1];
      RunInv(targets, concurrency, rest);
      var s := After(targets, concurrency, rest).value;
      StepConserved(s, last, targets, |targets|);
      StepCounted(s, last, targets, Workers(concurrency), |targets|);
    }
  }

  lemma {:induction false} ParsedAll(targets: seq<string>)
    ensures |Parsed(targets)| == |targets| <==> AllParse(targets)
  {
    if targets != [] {
      ParsedAll(targets[1..]);
    }
  }

  // ---- Results ----

  /** No more verifications run at once than the caller asked for, or 16 if that is not a number of workers. */
  lemma AtMostConcurrencyVerify(targets: seq<string>, concurrency: int, steps: seq<Step>)
    requires After(targets, concurrency, steps).Some?
    ensures var s := After(targets, concurrency, steps).value;
      |s.verifying| + |s.sending| <= if concurrency >= 1 then concurrency else 16
  {
    RunInv(targets, concurrency, steps);
  }

  /** Until the pipeline is at rest some step is possible. */
  ghost predicate AtRest(s: State, room: nat) {
    forall step: Step :: !Enabled(s, step, room)
  }

  lemma RestMeansSpent(s: State, targets: seq<string>, workers: nat)
    requires Counted(s, targets, workers) && workers >= 1 && AtRest(s, |targets|)
    ensures s.todo == [] && s.jobs == [] && s.verifying == [] && s.sending == []
    ensures s.results == [] || Returned(s, targets)
  {
    assert !Enabled(s, Parse, |targets|) && !Enabled(s, CloseJobs, |targets|);
    assert !Enabled(s, Verify(0, None), |targets|) && !Enabled(s, Send(0), |targets|);
    assert !Enabled(s, Take, |targets|) && !Enabled(s, End, |targets|) && !Enabled(s, Collect, |targets|);
  }

  /**
   Once nothing more can happen, the caller has its batch if every target parses; otherwise the
   collector waits for ever for answers that no one will send.
   */
  lemma ReturnsIffAllParse(targets: seq<string>, concurrency: int, steps: seq<Step>)
    requires After(targets, concurrency, steps).Some?
    requires AtRest(After(targets, concurrency, steps).value, |targets|)
    ensures Returned(After(targets, concurrency, steps).value, targets) <==> AllParse(targets)
  {
    RunInv(targets, concurrency, steps);
    var s := After(targets, concurrency, steps).value;
    RestMeansSpent(s, targets, Workers(concurrency));
    ParsedAll(targets);
  }

  /** The answers that the service has given in the steps. */
  function Given(targets: seq<string>, concurrency: int, steps: seq<Step>): multiset<Answer>
    requires After(targets, concurrency, steps).Some?
  {
    if steps == [] then multiset{}
    else
      var rest, last := steps[..|steps| - 1], steps[|steps| - 1];
      Given(targets, concurrency, rest) +
      if last.Verify?
      then multiset{Answer(After(targets, concurrency, rest).value.verifying[last.i], last.info)} else multiset{}
  }

  function OnTheWay(s: State): multiset<Answer> {
    multiset(s.sending) + multiset(s.results) + multiset(s.collected)
  }

  lemma StepGiven(s: State, step: Step, room: nat)
    requires Enabled(s, step, room)
    ensures OnTheWay(Apply(s, step, room)) ==
              OnTheWay(s) + if step.Verify? then multiset{Answer(s.verifying[step.i], step.info)} else multiset{}
  {
    if step.Collect? {
      PopFront(s.results);
    }
  }

  lemma {:induction false} GivenKept(targets: seq<string>, concurrency: int, steps: seq<Step>)
    requires After(targets, concurrency, steps).Some?
    ensures OnTheWay(After(targets, concurrency, steps).value) == Given(targets, concurrency, steps)
  {
    if steps != [] {
      var rest := steps[..|steps| - 1];
      GivenKept(targets, concurrency, rest);
      StepGiven(After(targets, concurrency, rest).value, steps[|steps| - 1], |targets|);
    }
  }

  lemma {:induction false} BatchCount(answers: seq<Answer>, b: BatchResult)
    ensures multiset(BatchOf(answers))[b] ==
              if b.valid then multiset(answers)[Answer(Target(b.ip, b.port), Some(b.info))] else 0
  {
    if answers != [] {
      var pre, last := answers[..|answers| - 1], answers[|answers| - 1];
      BatchCount(pre, b);
      assert answers == pre + [last];
    }
  }

  /** The batch that is returned holds an address as often as the service accepted it, with that answer. */
  lemma BatchIsAccepted(targets: seq<string>, concurrency: int, steps: seq<Step>, b: BatchResult)
    requires After(targets, concurrency, steps).Some?
    requires Returned(After(targets, concurrency, steps).value, targets)
    ensures multiset(After(targets, concurrency, steps).value.batch)[b] ==
              if b.valid then Given(targets, concurrency, steps)[Answer(Target(b.ip, b.port), Some(b.info))] else 0
  {
    BatchIsComplete(targets, concurrency, steps);
    BatchCount(After(targets, concurrency, steps).value.collected, b);
  }

  /** When the call returns, every target has exactly one answer and the batch holds the accepted ones. */
  lemma BatchIsComplete(targets: seq<string>, concurrency: int, steps: seq<Step>)
    requires After(targets, concurrency, steps).Some?
    requires Returned(After(targets, concurrency, steps).value, targets)
    ensures var s := After(targets, concurrency, steps).value;
      && AllParse(targets)
      && multiset(Jobs(s.collected)) == multiset(Parsed(targets))
      && multiset(s.collected) == Given(targets, concurrency, steps)
      && s.batch == BatchOf(s.collected)
  {
    GivenKept(targets, concurrency, steps);
    RunInv(targets, concurrency, steps);
    ParsedAll(targets);
    var s := After(targets, concurrency, steps).value;
    assert Parsed(s.todo) == [] && s.jobs == [] && s.verifying == [] && Jobs(s.sending) == [] && Jobs(s.results) == [];
  }

  function Remaining(s: State): nat {
    6 * |s.todo| + 5 * |s.jobs| + 4 * |s.verifying| + 3 * |s.sending| + s.idle + |s.results|
    + (if s.jobsClosed then 0 else 1)
  }

  lemma StepShrinks(s: State, step: Step, room: nat)
    requires Enabled(s, step, room)
    ensures Remaining(Apply(s, step, room)) < Remaining(s)
  {
  }

  /** Every run comes to rest. */
  lemma {:induction false} RunsAreBounded(targets: seq<string>, concurrency: int, steps: seq<Step>)
    requires After(targets, concurrency, steps).Some?
    ensures |steps| + Remaining(After(targets, concurrency, steps).value) <= 6 * |targets| + Workers(concurrency) + 1
  {
    if steps != [] {
      var rest := steps[..|steps| - 1];
      RunsAreBounded(targets, concurrency, rest);
      StepShrinks(After(targets, concurrency, rest).value, steps[|steps| - 1], |targets|);
    }
  }
}
