/** Where the asserted pairs come from: the (status, command) pairs the
    two test scripts' assertions pass through are exactly those on which
    `DasModel.Step` is defined. */
module AssertedTransitions {
  import opened Wrappers
  import opened DasModel
  import opened Protocol
  import PacketTests
  import SerialTests

  /** The pairs each packet-framing test passes through, from OFF. */
  lemma PacketTestsVisit()
    ensures VisitedChecks(Off, PacketTests.StatusChecks) == {(Off, RequestStatus)}
    ensures VisitedChecks(Off, PacketTests.ArmingChecks) == {(Off, Arm), (Armed, Disarm)}
    ensures VisitedChecks(Off, PacketTests.DisarmedActivationChecks) == {(Off, Trigger)}
    ensures VisitedChecks(Off, PacketTests.ActivationChecks) == {(Off, Arm), (Armed, Trigger), (Active, Disarm)}
  {
    assert PacketTests.ArmingChecks[1..] == [Check([Disarm], Off)];
    assert PacketTests.ActivationChecks[1..] == [Check([Disarm], Off)];
    assert [Arm, Trigger][1..] == [Trigger];
    assert Visited(Off, [Arm, Trigger]) == {(Off, Arm), (Armed, Trigger)};
  }

  /** The status-request test passes through `(OFF, P)` alone. */
  lemma StatusRequestVisit()
    ensures VisitedChecks(Off, SerialTests.AsChecks(SerialTests.StatusRequestProbes)) == {(Off, RequestStatus)}
  {
    assert SerialTests.ProbeCommands(SerialTests.StatusRequestProbes[0]) == [RequestStatus];
    var checks := SerialTests.AsChecks(SerialTests.StatusRequestProbes);
    assert checks == [Check([RequestStatus], Off)];
    VisitedOne(Off, checks[0]);
    assert [RequestStatus][1..] == [];
  }

  /** The disarming test: `A`,`P` from OFF, then `D`,`P` from ARMED. */
  lemma DisarmingVisit()
    ensures VisitedChecks(Off, SerialTests.AsChecks(SerialTests.DisarmingProbes))
      == {(Off, Arm), (Armed, RequestStatus), (Armed, Disarm), (Off, RequestStatus)}
  {
    var p0, p1 := SerialTests.DisarmingProbes[0], SerialTests.DisarmingProbes[1];
    assert SerialTests.ProbeCommands(p0) == [Arm, RequestStatus];
    assert SerialTests.ProbeCommands(p1) == [Disarm, RequestStatus];
    var checks := SerialTests.AsChecks(SerialTests.DisarmingProbes);
    assert checks == [Check([Arm, RequestStatus], Armed), Check([Disarm, RequestStatus], Off)];
    VisitedTwo(Off, checks[0], checks[1]);
    PairRun(Off, Arm, Armed);
    PairRun(Armed, Disarm, Off);
  }

  /** The activation test's first assertion, `T`,`P` from OFF. */
  lemma ActivationHeadVisit()
    ensures VisitedChecks(Off, SerialTests.AsChecks(SerialTests.ActivationProbes[..1]))
      == {(Off, Trigger), (Off, RequestStatus)}
  {
    assert SerialTests.ProbeCommands(SerialTests.ActivationProbes[0]) == [Trigger, RequestStatus];
    var checks := SerialTests.AsChecks(SerialTests.ActivationProbes[..1]);
    assert checks == [Check([Trigger, RequestStatus], Off)];
    VisitedOne(Off, checks[0]);
    PairRun(Off, Trigger, Off);
  }

  /** The activation test's last assertion, `D`,`P` from ACTIVE. */
  lemma ActivationTailVisit()
    ensures VisitedChecks(Active, SerialTests.AsChecks(SerialTests.ActivationProbes[2..]))
      == {(Active, Disarm), (Off, RequestStatus)}
  {
    assert SerialTests.ProbeCommands(SerialTests.ActivationProbes[2]) == [Disarm, RequestStatus];
    var checks := SerialTests.AsChecks(SerialTests.ActivationProbes[2..]);
    assert checks == [Check([Disarm, RequestStatus], Off)];
    VisitedOne(Active, checks[0]);
    PairRun(Active, Disarm, Off);
  }

  /** A script of one check passes through that check's pairs. */
  lemma VisitedOne(s: DasStatus, check: Check)
    ensures VisitedChecks(s, [check]) == Visited(s, check.commands)
  {
    assert [check][1..] == [];
  }

  /** A script of two checks: the second starts where the first asserted. */
  lemma VisitedTwo(s: DasStatus, first: Check, second: Check)
    ensures VisitedChecks(s, [first, second])
      == Visited(s, first.commands) + Visited(first.asserted, second.commands)
  {
    assert [first, second][1..] == [second];
    VisitedOne(first.asserted, second);
  }

  /** A command then `P`, where the command leads by an asserted pair to
      `t`, passes through the command's pair and `(t, P)`. */
  lemma PairRun(s: DasStatus, c: Command, t: DasStatus)
    requires Step(s, c) == Some(t)
    ensures Visited(s, [c, RequestStatus]) == {(s, c), (t, RequestStatus)}
  {
    assert [c, RequestStatus][1..] == [RequestStatus];
    assert [RequestStatus][1..] == [];
  }

  /** The pairs the packet-framing tests pass through, together. */
  lemma PacketTestsPairs()
    ensures VisitedChecks(Off, PacketTests.StatusChecks)
      + VisitedChecks(Off, PacketTests.ArmingChecks)
      + VisitedChecks(Off, PacketTests.DisarmedActivationChecks)
      + VisitedChecks(Off, PacketTests.ActivationChecks)
      == {(Off, RequestStatus), (Off, Arm), (Armed, Disarm), (Off, Trigger), (Armed, Trigger), (Active, Disarm)}
  {
    PacketTestsVisit();
  }

  /** The pairs the raw-letter tests' determined assertions pass through,
      together. */
  lemma SerialTestsPairs()
    ensures VisitedChecks(Off, SerialTests.AsChecks(SerialTests.StatusRequestProbes))
      + VisitedChecks(Off, SerialTests.AsChecks(SerialTests.DisarmingProbes))
      + VisitedChecks(Off, SerialTests.AsChecks(SerialTests.ActivationProbes[..1]))
      + VisitedChecks(Active, SerialTests.AsChecks(SerialTests.ActivationProbes[2..]))
      == {(Off, RequestStatus), (Off, Arm), (Armed, RequestStatus), (Armed, Disarm), (Off, Trigger), (Active, Disarm)}
  {
    StatusRequestVisit();
    DisarmingVisit();
    ActivationHeadVisit();
    ActivationTailVisit();
  }

  /** Together, the tests pass through exactly the asserted pairs: `Step`
      holds no transition that no test asserts, and misses none. */
  lemma TestsAssertExactlyStepPairs()
    ensures VisitedChecks(Off, PacketTests.StatusChecks)
      + VisitedChecks(Off, PacketTests.ArmingChecks)
      + VisitedChecks(Off, PacketTests.DisarmedActivationChecks)
      + VisitedChecks(Off, PacketTests.ActivationChecks)
      + (VisitedChecks(Off, SerialTests.AsChecks(SerialTests.StatusRequestProbes))
         + VisitedChecks(Off, SerialTests.AsChecks(SerialTests.DisarmingProbes))
         + VisitedChecks(Off, SerialTests.AsChecks(SerialTests.ActivationProbes[..1]))
         + VisitedChecks(Active, SerialTests.AsChecks(SerialTests.ActivationProbes[2..])))
      == AssertedPairs
  {
    PacketTestsPairs();
    SerialTestsPairs();
  }
}
