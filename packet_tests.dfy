/** The packet-framing test script (tests.py): `send_packet`, the
    last-line status check, the four test methods and the choice of port
    when run as a script. */
module PacketTests {
  import opened Wrappers
  import opened Ascii
  import opened SerialIO
  import opened Protocol
  import opened DasModel
  import opened PortSelection

  /** The packet template; None marks where the payload goes. */
  const PacketTemplate: seq<Option<byte>> :=
    [Some(0x01), Some(0x30), None, None, Some(0x03), Some(0x0D), Some(0x0A)]

  /** Python's `bytes(n)`: `n` zero bytes, so `bytes(0x00)` is empty. */
  function PyBytes(n: nat): (zeros: seq<byte>)
    ensures |zeros| == n
    ensures forall i :: 0 <= i < n ==> zeros[i] == 0
  {
    seq(n, _ => 0)
  }

  /** `for data_byte in data: write(data_byte)`. */
  function ByteWrites(data: seq<byte>): (events: seq<Event>)
    decreases |data|
  {
    if data == [] then [] else ByteWrites(data[..|data| - 1]) + [Wrote([data[|data| - 1]])]
  }

  /** The writes `send_packet` makes for one template entry. */
  function SlotWrites(slot: Option<byte>, data: seq<byte>): (events: seq<Event>)
  {
    match slot
    case Some(b) => [Wrote([b])]
    case None =>
      if |data| == 1 then [Wrote(PyBytes(0x00)), Wrote(data)] else ByteWrites(data)
  }

  /** The writes for a run of template entries, in order. */
  function TemplateWrites(template: seq<Option<byte>>, data: seq<byte>): (events: seq<Event>)
    decreases |template|
  {
    if template == [] then []
    else TemplateWrites(template[..|template| - 1], data) + SlotWrites(template[|template| - 1], data)
  }

  /** Every write call `send_packet(_, data)` makes, in order. */
  function PacketWrites(data: seq<byte>): (events: seq<Event>)
  {
    TemplateWrites(PacketTemplate, data)
  }

  /** `send_packet`: walks the template, writing fixed bytes as they are
      and the payload at each placeholder. */
  method SendPacket(conn: Connection, data: seq<byte>)
    modifies conn
    ensures conn.trace == old(conn.trace) + PacketWrites(data)
    ensures conn.incoming == old(conn.incoming)
  {
    ghost var start := conn.trace;
    for i := 0 to |PacketTemplate|
      invariant conn.trace == start + TemplateWrites(PacketTemplate[..i], data)
      invariant conn.incoming == old(conn.incoming)
    {
      var packetByte := PacketTemplate[i];
      ghost var before := conn.trace;
      if packetByte.None? {
        if |data| == 1 {
          conn.Write(PyBytes(0x00));
          conn.Write(data);
        } else {
          for j := 0 to |data|
            invariant conn.trace == before + ByteWrites(data[..j])
            invariant conn.incoming == old(conn.incoming)
          {
            conn.Write([data[j]]);
            ByteWritesStep(before, data, j);
          }
          assert data[..|data|] == data;
        }
      } else {
        conn.Write([packetByte.value]);
      }
      TemplateWritesStep(start, PacketTemplate, i, data);
    }
    assert PacketTemplate[..|PacketTemplate|] == PacketTemplate;
  }

  /** One turn of the per-byte loop writes the next payload byte. */
  lemma ByteWritesStep(before: seq<Event>, data: seq<byte>, j: nat)
    requires j < |data|
    ensures before + ByteWrites(data[..j]) + [Wrote([data[j]])] == before + ByteWrites(data[..j + 1])
  {
    assert data[..j + 1][..j] == data[..j];
  }

  /** One turn of the template loop appends that entry's writes. */
  lemma TemplateWritesStep(start: seq<Event>, template: seq<Option<byte>>, i: nat, data: seq<byte>)
    requires i < |template|
    ensures start + TemplateWrites(template[..i], data) + SlotWrites(template[i], data)
      == start + TemplateWrites(template[..i + 1], data)
  {
    TemplateWritesSnoc(template, i, data);
  }

  /** The per-byte loop makes one write per payload byte, in payload
      order, and so sends the payload. */
  lemma ByteWritesShape(data: seq<byte>)
    ensures |ByteWrites(data)| == |data|
    ensures forall k :: 0 <= k < |data| ==> ByteWrites(data)[k] == Wrote([data[k]])
    ensures Sent(ByteWrites(data)) == data
  {
    ByteWritesCalls(data);
    ByteWritesSent(data);
  }

  /** The per-byte loop's k-th call writes byte k alone. */
  lemma {:induction false} ByteWritesCalls(data: seq<byte>)
    ensures |ByteWrites(data)| == |data|
    ensures forall k :: 0 <= k < |data| ==> ByteWrites(data)[k] == Wrote([data[k]])
    decreases |data|
  {
    if data != [] {
      var init := data[..|data| - 1];
      ByteWritesCalls(init);
      forall k | 0 <= k < |data|
        ensures ByteWrites(data)[k] == Wrote([data[k]])
      {
        if k < |init| {
          assert data[k] == init[k];
        }
      }
    }
  }

  /** The per-byte loop puts the payload on the wire. */
  lemma {:induction false} ByteWritesSent(data: seq<byte>)
    ensures Sent(ByteWrites(data)) == data
    decreases |data|
  {
    if data != [] {
      var init, last := data[..|data| - 1], data[|data| - 1];
      var w := ByteWrites(init);
      ByteWritesSent(init);
      assert ByteWrites(data) == w + [Wrote([last])];
      assert (w + [Wrote([last])])[..|w|] == w;
      assert Sent(ByteWrites(data)) == Sent(w) + [last];
      assert init + [last] == data;
    }
  }

  /** Both branches put exactly the payload on the wire at a placeholder:
      the one-byte branch's `bytes(0x00)` write is empty, so no zero byte
      is sent. */
  lemma PlaceholderSendsPayload(data: seq<byte>)
    ensures Sent(SlotWrites(None, data)) == data
    ensures |data| == 1 ==> SlotWrites(None, data) == [Wrote([]), Wrote(data)]
  {
    if |data| == 1 {
      assert PyBytes(0x00) == [];
      SentAppend([Wrote([])], [Wrote(data)]);
    } else {
      ByteWritesShape(data);
    }
  }

  /** Extending a run of template entries by one appends that entry's writes. */
  lemma TemplateWritesSnoc(template: seq<Option<byte>>, k: nat, data: seq<byte>)
    requires k < |template|
    ensures TemplateWrites(template[..k + 1], data) == TemplateWrites(template[..k], data) + SlotWrites(template[k], data)
  {
    assert template[..k + 1][..k] == template[..k];
  }

  /** The packet's writes, template entry by template entry. */
  lemma PacketWritesUnfold(data: seq<byte>)
    ensures PacketWrites(data) ==
      [Wrote([0x01]), Wrote([0x30])] + SlotWrites(None, data) + SlotWrites(None, data)
      + [Wrote([0x03]), Wrote([0x0D]), Wrote([0x0A])]
  {
    var t := PacketTemplate;
    var slot := SlotWrites(None, data);
    assert t[..0] == [];
    TemplateWritesSnoc(t, 0, data);
    TemplateWritesSnoc(t, 1, data);
    TemplateWritesSnoc(t, 2, data);
    TemplateWritesSnoc(t, 3, data);
    TemplateWritesSnoc(t, 4, data);
    TemplateWritesSnoc(t, 5, data);
    TemplateWritesSnoc(t, 6, data);
    assert TemplateWrites(t[..2], data) == [Wrote([0x01]), Wrote([0x30])];
    assert TemplateWrites(t[..4], data) == [Wrote([0x01]), Wrote([0x30])] + slot + slot;
    assert t[..7] == t;
  }

  /** The stream `send_packet` puts on the wire: `01 30`, the payload
      twice, then `03 0D 0A`, for every payload length. */
  lemma PacketStream(data: seq<byte>)
    ensures Sent(PacketWrites(data)) == [0x01, 0x30] + data + data + [0x03, 0x0D, 0x0A]
    ensures |Sent(PacketWrites(data))| == 5 + 2 * |data|
    ensures 0 in Sent(PacketWrites(data)) <==> 0 in data
  {
    var head := [Wrote([0x01]), Wrote([0x30])];
    var slot := SlotWrites(None, data);
    var tail := [Wrote([0x03]), Wrote([0x0D]), Wrote([0x0A])];
    PacketWritesUnfold(data);
    SentFramed(head, slot, tail);
    PlaceholderSendsPayload(data);
    FixedBytesSent();
    ZeroInFrame(data);
  }

  /** The bytes of writes around two copies of the same writes. */
  lemma SentFramed(head: seq<Event>, slot: seq<Event>, tail: seq<Event>)
    ensures Sent(head + slot + slot + tail) == Sent(head) + Sent(slot) + Sent(slot) + Sent(tail)
  {
    SentAppend(head + slot + slot, tail);
    SentAppend(head + slot, slot);
    SentAppend(head, slot);
  }

  /** The frame bytes hold no zero, so a zero is sent iff the payload has one. */
  lemma ZeroInFrame(data: seq<byte>)
    ensures 0 in [0x01, 0x30] + data + data + [0x03, 0x0D, 0x0A] <==> 0 in data
  {
    var stream := [0x01, 0x30] + data + data + [0x03, 0x0D, 0x0A];
    if 0 in data {
      var i :| 0 <= i < |data| && data[i] == 0;
      assert stream[2 + i] == 0;
    }
  }

  /** The fixed writes before and after the payload send `01 30` and
      `03 0D 0A`. */
  lemma FixedBytesSent()
    ensures Sent([Wrote([0x01]), Wrote([0x30])]) == [0x01, 0x30]
    ensures Sent([Wrote([0x03]), Wrote([0x0D]), Wrote([0x0A])]) == [0x03, 0x0D, 0x0A]
  {
    var head := [Wrote([0x01]), Wrote([0x30])];
    assert head[..1] == [Wrote([0x01])];
    assert head[..1][..0] == [];
    var tail := [Wrote([0x03]), Wrote([0x0D]), Wrote([0x0A])];
    assert tail[..2] == [Wrote([0x03]), Wrote([0x0D])];
    assert tail[..2][..1] == [Wrote([0x03])];
    assert tail[..2][..1][..0] == [];
  }

  /** The writes at one placeholder: two (an empty one, then the
      payload) for a one-byte payload, otherwise one single-byte write
      per payload byte, in payload order. */
  lemma PlaceholderWriteCalls(data: seq<byte>)
    ensures |SlotWrites(None, data)| == if |data| == 1 then 2 else |data|
    ensures forall k :: 0 <= k < |SlotWrites(None, data)| ==> SlotWrites(None, data)[k].Wrote?
    ensures |data| != 1 ==> forall k :: 0 <= k < |data| ==> SlotWrites(None, data)[k] == Wrote([data[k]])
  {
    if |data| != 1 {
      ByteWritesShape(data);
    }
  }

  /** The write calls of a packet: single-byte writes for the five fixed
      entries around the writes of the two placeholders. */
  lemma PacketWriteCalls(data: seq<byte>)
    ensures |PacketWrites(data)| == 5 + 2 * (if |data| == 1 then 2 else |data|)
    ensures forall k :: 0 <= k < |PacketWrites(data)| ==> PacketWrites(data)[k].Wrote?
  {
    PacketWritesUnfold(data);
    PlaceholderWriteCalls(data);
    FramedWrites(SlotWrites(None, data), PacketWrites(data));
  }

  /** For a payload of other than one byte, each placeholder writes the
      payload one byte per call, in payload order. */
  lemma PacketPayloadWrites(data: seq<byte>)
    requires |data| != 1
    ensures |PacketWrites(data)| == 5 + 2 * |data|
    ensures forall k {:trigger data[k]} :: 0 <= k < |data| ==> PacketWrites(data)[2 + k] == Wrote([data[k]])
    ensures forall k {:trigger data[k]} :: 0 <= k < |data| ==> PacketWrites(data)[2 + |data| + k] == Wrote([data[k]])
  {
    var slot, w := SlotWrites(None, data), PacketWrites(data);
    PacketWritesUnfold(data);
    assert slot == ByteWrites(data);
    ByteWritesShape(data);
    forall k | 0 <= k < |data|
      ensures w[2 + k] == Wrote([data[k]]) && w[2 + |data| + k] == Wrote([data[k]])
    {
      FramedAt(slot, w, k);
    }
  }

  /** Index arithmetic for five fixed writes around two copies of `slot`. */
  lemma FramedWrites(slot: seq<Event>, w: seq<Event>)
    requires w == [Wrote([0x01]), Wrote([0x30])] + slot + slot + [Wrote([0x03]), Wrote([0x0D]), Wrote([0x0A])]
    ensures |w| == 5 + 2 * |slot|
    ensures (forall k :: 0 <= k < |slot| ==> slot[k].Wrote?) ==> (forall k :: 0 <= k < |w| ==> w[k].Wrote?)
  {
    if forall k :: 0 <= k < |slot| ==> slot[k].Wrote? {
      forall k | 0 <= k < |w|
        ensures w[k].Wrote?
      {
        FramedWrote(slot, w, k);
      }
    }
  }

  /** Both copies of `slot` hold its k-th entry where expected. */
  lemma FramedAt(slot: seq<Event>, w: seq<Event>, k: nat)
    requires w == [Wrote([0x01]), Wrote([0x30])] + slot + slot + [Wrote([0x03]), Wrote([0x0D]), Wrote([0x0A])]
    requires k < |slot|
    ensures w[2 + k] == slot[k] && w[2 + |slot| + k] == slot[k]
  {
    var once := [Wrote([0x01]), Wrote([0x30])] + slot;
    var twice := once + slot;
    assert once[2 + k] == slot[k];
    assert twice[2 + k] == once[2 + k];
    assert twice[|once| + k] == slot[k];
    assert w[2 + k] == twice[2 + k] && w[|once| + k] == twice[|once| + k];
  }

  /** Every entry of the framed writes is a write when every entry of
      `slot` is. */
  lemma FramedWrote(slot: seq<Event>, w: seq<Event>, k: nat)
    requires w == [Wrote([0x01]), Wrote([0x30])] + slot + slot + [Wrote([0x03]), Wrote([0x0D]), Wrote([0x0A])]
    requires forall j :: 0 <= j < |slot| ==> slot[j].Wrote?
    requires k < |w|
    ensures w[k].Wrote?
  {
    var n := |slot|;
    if k < 2 {
    } else if k < 2 + n {
      FramedAt(slot, w, k - 2);
    } else if k < 2 + 2 * n {
      FramedAt(slot, w, k - 2 - n);
    } else {
      var tail := [Wrote([0x03]), Wrote([0x0D]), Wrote([0x0A])];
      assert w[k] == tail[k - 2 - 2 * n];
    }
  }

  /** `'expected' in str(lines[-1], encoding='ASCII')`, with the
      exceptions that line can raise. */
  function LastLineVerdict(lines: Batch, expected: string): (v: Verdict)
    ensures v == Error(IndexError) <==> lines == []
    ensures v == Error(DecodeError) <==> lines != [] && !IsAsciiBytes(lines[|lines| - 1])
    ensures v == Pass <==>
      lines != [] && IsAsciiBytes(lines[|lines| - 1]) && Contains(Chars(lines[|lines| - 1]), expected)
    ensures v == Fail <==>
      lines != [] && IsAsciiBytes(lines[|lines| - 1]) && !Contains(Chars(lines[|lines| - 1]), expected)
  {
    if lines == [] then Error(IndexError)
    else
      match DecodeAscii(lines[|lines| - 1])
      case Err(_) => Error(DecodeError)
      case Ok(text) => if Contains(text, expected) then Pass else Fail
  }

  /** On a read that ends with a status reply, the check passes exactly
      when the reply reports the expected status: lines read before it,
      such as unprompted reports, are ignored, and neither exception is
      raised. */
  lemma LastLineOnReply(earlier: Batch, reported: DasStatus, expected: DasStatus)
    ensures LastLineVerdict(earlier + [StatusReply(reported)], StatusLine(expected))
      == if reported == expected then Pass else Fail
  {
    var lines := earlier + [StatusReply(reported)];
    assert lines[|lines| - 1] == StatusReply(reported);
    StatusReplyText(reported);
    StatusLineIdentifies(reported, expected);
  }

  /** What one assertion step does on the connection: its command
      payload as one packet, one `readlines()`, and the check of the last
      line read. */
  function PacketOutcome(check: Check, inbox: seq<Batch>): (o: Outcome)
    ensures o.rest == Drop(inbox, 1)
    ensures o.events == PacketWrites(CommandBytes(check.commands)) + [Received(NextBatch(inbox))]
    ensures o.verdict == LastLineVerdict(NextBatch(inbox), StatusLine(check.asserted))
  {
    var lines := NextBatch(inbox);
    Outcome(LastLineVerdict(lines, StatusLine(check.asserted)),
            PacketWrites(CommandBytes(check.commands)) + [Received(lines)],
            Drop(inbox, 1))
  }

  /** One assertion step: `send_packet(conn, payload)`, then
      `readlines()`, then the last-line check. */
  method AssertPacketReply(conn: Connection, check: Check) returns (v: Verdict)
    modifies conn
    ensures var o := PacketOutcome(check, old(conn.incoming));
      v == o.verdict && conn.trace == old(conn.trace) + o.events && conn.incoming == o.rest
  {
    SendPacket(conn, CommandBytes(check.commands));
    var lines := conn.ReadLines();
    v := LastLineVerdict(lines, StatusLine(check.asserted));
  }

  /** The assertions of each test method, from a fresh device. */
  const StatusChecks: seq<Check> := [Check([RequestStatus], Off)]
  const ArmingChecks: seq<Check> := [Check([Arm], Armed), Check([Disarm], Off)]
  const DisarmedActivationChecks: seq<Check> := [Check([Trigger], Off)]
  const ActivationChecks: seq<Check> := [Check([Arm, Trigger], Active), Check([Disarm], Off)]

  /** `test_status`: `P` reports OFF. */
  method TestStatus(conn: Connection) returns (v: Verdict)
    modifies conn
    ensures var o := RunSteps(PacketOutcome, StatusChecks, old(conn.incoming));
      v == o.verdict && conn.trace == old(conn.trace) + o.events && conn.incoming == o.rest
  {
    RunOneStep(PacketOutcome, StatusChecks[0], conn.incoming);
    v := AssertPacketReply(conn, StatusChecks[0]);
  }

  /** `test_arming`: `A` reports ARMED, then `D` reports OFF. */
  method TestArming(conn: Connection) returns (v: Verdict)
    modifies conn
    ensures var o := RunSteps(PacketOutcome, ArmingChecks, old(conn.incoming));
      v == o.verdict && conn.trace == old(conn.trace) + o.events && conn.incoming == o.rest
  {
    var c0, c1 := ArmingChecks[0], ArmingChecks[1];
    assert ArmingChecks == [c0, c1];
    RunTwo(PacketOutcome, c0, c1, conn.incoming, conn.trace);
    v := AssertPacketReply(conn, c0);
    if v == Pass {
      v := AssertPacketReply(conn, c1);
    }
  }

  /** `test_disarmed_activation`: `T` on a disarmed device reports OFF. */
  method TestDisarmedActivation(conn: Connection) returns (v: Verdict)
    modifies conn
    ensures var o := RunSteps(PacketOutcome, DisarmedActivationChecks, old(conn.incoming));
      v == o.verdict && conn.trace == old(conn.trace) + o.events && conn.incoming == o.rest
  {
    RunOneStep(PacketOutcome, DisarmedActivationChecks[0], conn.incoming);
    v := AssertPacketReply(conn, DisarmedActivationChecks[0]);
  }

  /** `test_activation`: payload `AT` reports ACTIVE, then `D` reports OFF. */
  method TestActivation(conn: Connection) returns (v: Verdict)
    modifies conn
    ensures var o := RunSteps(PacketOutcome, ActivationChecks, old(conn.incoming));
      v == o.verdict && conn.trace == old(conn.trace) + o.events && conn.incoming == o.rest
  {
    var c0, c1 := ActivationChecks[0], ActivationChecks[1];
    assert ActivationChecks == [c0, c1];
    RunTwo(PacketOutcome, c0, c1, conn.incoming, conn.trace);
    v := AssertPacketReply(conn, c0);
    if v == Pass {
      v := AssertPacketReply(conn, c1);
    }
  }

  /** Against a device that behaves as `step` and answers each packet with
      its status line, a script passes exactly when every assertion agrees
      with `step`. */
  lemma {:induction false} PacketChecksPassIffAgree(step: Oracle, s: DasStatus, checks: seq<Check>)
    ensures RunSteps(PacketOutcome, checks, DeviceReplies(step, s, checks)).verdict == Pass <==> Agrees(step, s, checks)
    decreases |checks|
  {
    if checks != [] {
      var t := RunWith(step, s, checks[0].commands);
      var replies := DeviceReplies(step, s, checks);
      assert NextBatch(replies) == [StatusReply(t)];
      assert Drop(replies, 1) == DeviceReplies(step, t, checks[1..]);
      StatusReplyText(t);
      StatusLineIdentifies(t, checks[0].asserted);
      PacketChecksPassIffAgree(step, t, checks[1..]);
    }
  }

  /** Each test's assertions follow from the asserted pairs alone. */
  lemma PacketTestsDetermined()
    ensures Determined(Off, StatusChecks)
    ensures Determined(Off, ArmingChecks)
    ensures Determined(Off, DisarmedActivationChecks)
    ensures Determined(Off, ActivationChecks)
  {
    assert ArmingChecks[1..] == [Check([Disarm], Off)];
    assert ActivationChecks[1..] == [Check([Disarm], Off)];
    assert [Arm, Trigger][1..] == [Trigger];
  }

  /** Every device that meets the asserted pairs passes all four tests. */
  lemma PacketTestsPassOnConformingDevice(step: Oracle)
    requires Conforms(step)
    ensures RunSteps(PacketOutcome, StatusChecks, DeviceReplies(step, Off, StatusChecks)).verdict == Pass
    ensures RunSteps(PacketOutcome, ArmingChecks, DeviceReplies(step, Off, ArmingChecks)).verdict == Pass
    ensures RunSteps(PacketOutcome, DisarmedActivationChecks, DeviceReplies(step, Off, DisarmedActivationChecks)).verdict == Pass
    ensures RunSteps(PacketOutcome, ActivationChecks, DeviceReplies(step, Off, ActivationChecks)).verdict == Pass
  {
    PacketTestsDetermined();
    DeterminedAgrees(step, Off, StatusChecks);
    DeterminedAgrees(step, Off, ArmingChecks);
    DeterminedAgrees(step, Off, DisarmedActivationChecks);
    DeterminedAgrees(step, Off, ActivationChecks);
    PacketChecksPassIffAgree(step, Off, StatusChecks);
    PacketChecksPassIffAgree(step, Off, ArmingChecks);
    PacketChecksPassIffAgree(step, Off, DisarmedActivationChecks);
    PacketChecksPassIffAgree(step, Off, ActivationChecks);
  }

  /** The port when run as a script: `sys.argv[1]` if given, otherwise
      the first open port. */
  function ScriptPort(argv: seq<string>, comports: seq<ComPort>): (r: Result<string, OSError>)
    ensures |argv| > 1 ==> r == Ok(argv[1])
    ensures |argv| <= 1 && comports != [] ==> r == Ok(comports[0].device)
    ensures |argv| <= 1 && comports == [] ==> r == Err(NoOpenPorts)
  {
    PortOrFirst(if |argv| > 1 then Some(argv[1]) else None, comports)
  }
}
