/** What the tests expect of the DAS device. The tests fix, for some
    (status, command) pairs, the status that must follow; `Step` holds
    exactly those pairs and no others. A device is modelled by a total,
    deterministic oracle, which conforms when it agrees with every
    asserted pair. */
module DasModel {
  import opened Wrappers
  import opened Ascii
  import opened SerialIO
  import opened Protocol

  /** The asserted transitions; None where no test asserts anything. */
  function Step(s: DasStatus, c: Command): (r: Option<DasStatus>)
    ensures c == RequestStatus && r.Some? ==> r.value == s
    ensures c == Arm && r.Some? ==> r.value == Armed
    ensures c == Disarm && r.Some? ==> r.value == Off
    ensures c == Trigger && r.Some? ==> r.value == (if s == Armed then Active else s)
    ensures r.Some? <==> (s, c) in AssertedPairs
  {
    match (s, c)
    case (Off, RequestStatus) => Some(Off)
    case (Off, Arm) => Some(Armed)
    case (Off, Trigger) => Some(Off)
    case (Armed, RequestStatus) => Some(Armed)
    case (Armed, Disarm) => Some(Off)
    case (Armed, Trigger) => Some(Active)
    case (Active, Disarm) => Some(Off)
    case _ => None
  }

  /** The (status, command) pairs some test asserts the outcome of;
      `AssertedTransitions.TestsAssertExactlyStepPairs` collects them from
      the scripts. */
  const AssertedPairs: set<(DasStatus, Command)> :=
    {(Off, RequestStatus), (Off, Arm), (Off, Trigger), (Armed, RequestStatus),
     (Armed, Disarm), (Armed, Trigger), (Active, Disarm)}

  /** The status after a command sequence, as far as the asserted pairs
      determine it. */
  function Run(s: DasStatus, cs: seq<Command>): (r: Option<DasStatus>)
    decreases |cs|
  {
    if cs == [] then Some(s)
    else
      match Step(s, cs[0])
      case None => None
      case Some(t) => Run(t, cs[1..])
  }

  /** The (status, command) pairs a command sequence passes through from
      `s`, as far as the asserted pairs carry it. */
  function Visited(s: DasStatus, cs: seq<Command>): (pairs: set<(DasStatus, Command)>)
    decreases |cs|
  {
    if cs == [] then {}
    else
      {(s, cs[0])} + match Step(s, cs[0])
                     case None => {}
                     case Some(t) => Visited(t, cs[1..])
  }

  /** The pairs a script of checks passes through, each check starting
      from the status the one before asserted. */
  function VisitedChecks(s: DasStatus, checks: seq<Check>): (pairs: set<(DasStatus, Command)>)
    decreases |checks|
  {
    if checks == [] then {}
    else Visited(s, checks[0].commands) + VisitedChecks(checks[0].asserted, checks[1..])
  }

  /** A deterministic device: its next status for each status and command. */
  type Oracle = (DasStatus, Command) -> DasStatus

  ghost predicate Conforms(step: Oracle)
  {
    forall s, c :: Step(s, c).Some? ==> step(s, c) == Step(s, c).value
  }

  function RunWith(step: Oracle, s: DasStatus, cs: seq<Command>): (t: DasStatus)
    decreases |cs|
  {
    if cs == [] then s else RunWith(step, step(s, cs[0]), cs[1..])
  }

  /** Running two command sequences back to back is running the first
      and then the second from where the first ended. */
  lemma {:induction false} RunWithAppend(step: Oracle, s: DasStatus, a: seq<Command>, b: seq<Command>)
    ensures RunWith(step, s, a + b) == RunWith(step, RunWith(step, s, a), b)
    decreases |a|
  {
    if a == [] {
      assert a + b == b;
    } else {
      assert (a + b)[0] == a[0] && (a + b)[1..] == a[1..] + b;
      RunWithAppend(step, step(s, a[0]), a[1..], b);
    }
  }

  /** Where the asserted pairs determine the outcome of a sequence, every
      conforming oracle reaches that outcome. */
  lemma {:induction false} ConformingRunAgrees(step: Oracle, s: DasStatus, cs: seq<Command>)
    requires Conforms(step)
    requires Run(s, cs).Some?
    ensures RunWith(step, s, cs) == Run(s, cs).value
    decreases |cs|
  {
    if cs != [] {
      ConformingRunAgrees(step, Step(s, cs[0]).value, cs[1..]);
    }
  }

  /** The asserted pairs, completed by "stay put" elsewhere. */
  function StayPut(s: DasStatus, c: Command): (t: DasStatus)
  {
    match Step(s, c)
    case Some(t) => t
    case None => s
  }

  /** The asserted pairs are consistent: some oracle meets all of them. */
  lemma AssertedPairsConsistent()
    ensures exists step: Oracle :: Conforms(step)
  {
    assert Conforms(StayPut);
  }

  /** One step of a test: the commands sent, then the status the test
      asserts is reported. */
  datatype Check = Check(commands: seq<Command>, asserted: DasStatus)

  /** Every check of a script sees, on `step`, the status it asserts,
      starting from `s`. */
  ghost predicate Agrees(step: Oracle, s: DasStatus, checks: seq<Check>)
    decreases |checks|
  {
    checks == [] ||
    (var t := RunWith(step, s, checks[0].commands);
     t == checks[0].asserted && Agrees(step, t, checks[1..]))
  }

  /** The same, for the asserted pairs alone: each check's commands lead,
      through asserted pairs only, to the status it asserts. */
  predicate Determined(s: DasStatus, checks: seq<Check>)
    decreases |checks|
  {
    checks == [] ||
    (Run(s, checks[0].commands) == Some(checks[0].asserted) && Determined(checks[0].asserted, checks[1..]))
  }

  /** A script determined by the asserted pairs holds on every
      conforming oracle. */
  lemma {:induction false} DeterminedAgrees(step: Oracle, s: DasStatus, checks: seq<Check>)
    requires Conforms(step)
    requires Determined(s, checks)
    ensures Agrees(step, s, checks)
    decreases |checks|
  {
    if checks != [] {
      ConformingRunAgrees(step, s, checks[0].commands);
      DeterminedAgrees(step, checks[0].asserted, checks[1..]);
    }
  }

  /** What a device that behaves as `step` sends back during a script:
      one batch per check, holding the status line of the status it has
      reached. */
  function DeviceReplies(step: Oracle, s: DasStatus, checks: seq<Check>): (replies: seq<Batch>)
    ensures |replies| == |checks|
    decreases |checks|
  {
    if checks == [] then []
    else
      var t := RunWith(step, s, checks[0].commands);
      [[StatusReply(t)]] + DeviceReplies(step, t, checks[1..])
  }

  /** A unittest outcome. */
  datatype Verdict = Pass | Fail | Error(fault: Fault)

  /** Exceptions other than a failed assertion. */
  datatype Fault =
    | IndexError   // `readlines()[-1]` when no line arrived
    | DecodeError  // a received byte that is not ASCII

  /** What a test method did: its verdict, what it did on the connection,
      and the batches it left unread. */
  datatype Outcome = Outcome(verdict: Verdict, events: seq<Event>, rest: seq<Batch>)

  /** `first` followed by `second`, which ran on the batches `first` left. */
  function Then(first: Outcome, second: Outcome): (o: Outcome)
    ensures o.verdict == second.verdict && o.rest == second.rest
    ensures o.events == first.events + second.events
  {
    Outcome(second.verdict, first.events + second.events, second.rest)
  }

  /** A test method's assertion steps, run in order on the batches the
      device sends; the first step that does not pass ends the test. */
  function RunSteps<S>(run: (S, seq<Batch>) -> Outcome, steps: seq<S>, inbox: seq<Batch>): (o: Outcome)
    decreases |steps|
  {
    if steps == [] then Outcome(Pass, [], inbox)
    else
      var first := run(steps[0], inbox);
      if first.verdict != Pass then first else Then(first, RunSteps(run, steps[1..], first.rest))
  }

  /** Running steps in two parts: the second part runs, on the batches
      the first left, only if the first passed. */
  lemma {:induction false} RunStepsAppend<S>(run: (S, seq<Batch>) -> Outcome, a: seq<S>, b: seq<S>, inbox: seq<Batch>)
    ensures var first := RunSteps(run, a, inbox);
      RunSteps(run, a + b, inbox) == if first.verdict != Pass then first else Then(first, RunSteps(run, b, first.rest))
    decreases |a|
  {
    if a == [] {
      assert a + b == b;
    } else {
      assert (a + b)[0] == a[0] && (a + b)[1..] == a[1..] + b;
      var head := run(a[0], inbox);
      if head.verdict == Pass {
        RunStepsAppend(run, a[1..], b, head.rest);
        var later := RunSteps(run, a[1..], head.rest);
        if later.verdict == Pass {
          var second := RunSteps(run, b, later.rest);
          assert head.events + (later.events + second.events) == (head.events + later.events) + second.events;
        }
      }
    }
  }

  /** A single step runs as itself. */
  lemma RunOneStep<S>(run: (S, seq<Batch>) -> Outcome, step: S, inbox: seq<Batch>)
    ensures RunSteps(run, [step], inbox) == run(step, inbox)
  {
    var first := run(step, inbox);
    assert [step][1..] == [];
    if first.verdict == Pass {
      assert RunSteps(run, [], first.rest) == Outcome(Pass, [], first.rest);
      assert first.events + [] == first.events;
    }
  }

  /** Three steps, each run on what the one before left, and only if
      the one before passed. `start` is the caller's trace before the
      first step: the trace equations carry it so that they match the
      caller's `trace` postcondition as written, with no separate step
      about appending to sequences. */
  lemma RunThree<S>(run: (S, seq<Batch>) -> Outcome, a: S, b: S, c: S, inbox: seq<Batch>, start: seq<Event>)
    ensures var first := run(a, inbox);
      var second := run(b, first.rest);
      var third := run(c, second.rest);
      var o := RunSteps(run, [a, b, c], inbox);
      && (first.verdict != Pass ==> o == first && start + o.events == start + first.events)
      && (first.verdict == Pass && second.verdict != Pass ==>
            o.verdict == second.verdict && o.rest == second.rest
            && start + o.events == start + first.events + second.events)
      && (first.verdict == Pass && second.verdict == Pass ==>
            o.verdict == third.verdict && o.rest == third.rest
            && start + o.events == start + first.events + second.events + third.events)
  {
    var first := run(a, inbox);
    assert [a, b, c] == [a] + [b, c];
    RunStepsAppend(run, [a], [b, c], inbox);
    RunOneStep(run, a, inbox);
    ThenTwo(run, b, c, first.rest);
  }

  /** Two steps: the second runs, on what the first left, only if the
      first passed. */
  lemma ThenTwo<S>(run: (S, seq<Batch>) -> Outcome, a: S, b: S, inbox: seq<Batch>)
    ensures var first := run(a, inbox);
      RunSteps(run, [a, b], inbox) == if first.verdict != Pass then first else Then(first, run(b, first.rest))
  {
    assert [a, b] == [a] + [b];
    RunStepsAppend(run, [a], [b], inbox);
    RunOneStep(run, a, inbox);
    RunOneStep(run, b, run(a, inbox).rest);
  }

  /** Two steps, the second run on what the first left, and only if the
      first passed. `start` plays the same part as in `RunThree`. */
  lemma RunTwo<S>(run: (S, seq<Batch>) -> Outcome, a: S, b: S, inbox: seq<Batch>, start: seq<Event>)
    ensures var first := run(a, inbox);
      var second := run(b, first.rest);
      var o := RunSteps(run, [a, b], inbox);
      && (first.verdict != Pass ==> o == first && start + o.events == start + first.events)
      && (first.verdict == Pass ==>
            o.verdict == second.verdict && o.rest == second.rest
            && start + o.events == start + first.events + second.events)
  {
    ThenTwo(run, a, b, inbox);
  }
}
