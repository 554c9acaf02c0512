# DAS serial test harness, modelled in Dafny

The HASP 2019 repository drives a serial "DAS" device (disarm / arm /
status / trigger) from three Python scripts. Under the pyserial plumbing
they contain four pieces of logic, modelled here:

- **Packet framer** (`send_packet`, tests.py). It walks the template
  `(0x01, 0x30, None, None, 0x03, 0x0D, 0x0A)` and writes the payload at
  each `None`. The model keeps both quirks of the code. `bytes(0x00)` is
  Python's empty byte string, so the "zero" write sends nothing. The
  payload is written at both placeholders. The wire therefore carries
  `01 30 ++ data ++ data ++ 03 0D 0A` for every payload length.
- **Raw framer** (send_serial.py). Each command letter goes out as one
  single-byte write, followed by exactly one `readlines()`.
- **Port selection**. The enumeration is an input sequence. The first
  device wins; an empty enumeration raises `OSError('No open serial ports.')`.
  An explicitly given port always wins over the enumeration.
- **Expected-status oracle and test scripts**. The test methods are
  modelled step by step on a connection, together with their checks (the
  last-line substring test in tests.py, `assertIn` in serial_tests.py and
  the counter loop of `test_regular_status_updates`).

Modules:

| file | module | models |
|---|---|---|
| wrappers.dfy | `Wrappers` | `Option`, `Result` |
| ascii.dfy | `Ascii` | bytes, ASCII encode/decode, Python's substring `in` |
| serial_io.dfy | `SerialIO` | the connection as a class: a trace of write/read events plus a queue of incoming line batches |
| protocol.dfy | `Protocol` | command letters `P A D T`, status tokens, the `DAS status: <TOKEN>` line |
| das_model.dfy | `DasModel` | asserted transitions, total oracles, test verdicts, running a test's steps in order |
| ports.dfy | `PortSelection` | `open_ports` / `next_open_port` and the explicit-port fallback |
| packet_tests.dfy | `PacketTests` | tests.py |
| serial_tests.dfy | `SerialTests` | serial_tests.py |
| send_serial.dfy | `SendSerial` | send_serial.py |
| asserted_pairs.dfy | `AssertedTransitions` | the asserted pairs, collected from both test scripts |

The connection (`SerialIO.Connection`) records each `write` call as a
`Wrote` event and each read as a `Received` event, in order. `Sent` is the
byte stream the writes produce. What the device sends back is an input
queue: each read takes the next batch of lines, or nothing once the
queue is empty (a read timeout). `read()` returns the batch's bytes and
`readlines()` its lines.

The oracle follows what the tests assert, not a full transition table.
`DasModel.Step` is defined only for the seven (status, command) pairs
that some test asserts consistently. It is `None` everywhere else. A
device is a total function `Oracle`. It *conforms* when it agrees with
every asserted pair. The lemmas show four things:

- The pairs the tests' consistent assertions pass through are exactly
  the seven pairs of `Step` (`AssertedTransitions.TestsAssertExactlyStepPairs`).
- Every assertion follows from those pairs, except the second one of
  `test_activation_sequence`, and its third only when taken from ACTIVE.
- Every conforming device that answers each command with exactly its
  status line (`DasModel.DeviceReplies`) passes the four tests of
  tests.py, `test_status_request` and `test_disarming_sequence`.
- Against such a device, each of those six tests and
  `test_activation_sequence` passes exactly when its assertions agree
  with that device.

`test_regular_status_updates` sends no command, so it needs reports the
device sends unprompted. A device that only answers commands leaves all
three reads empty and fails it (`SerialTests.RepliesOnlyFailRegularUpdates`).

serial_tests.py:51-64 asserts that `T`,`P` from OFF reports OFF, and that
a second `T`,`P` reports ACTIVE with nothing sent in between. No
device whose state is one of OFF, ARMED and ACTIVE can do both. `SerialTests.ActivationSequenceConflict`
proves this. It also proves that `test_activation_sequence` fails against
every device that answers each probe with exactly its status line.
Because `assertIn` searches the whole read, a device that adds a stale
report can still pass. `SerialTests.ActivationPassesAfterStaleReport`
shows one such device: its first read holds an unprompted OFF report
before the ARMED reply. The test's first assertion, and its last one
taken from ACTIVE, are kept as determined by the asserted pairs.

The three copies of the port generator are identical: serial_tests.py:91-114,
tests.py:67-78, and send_serial.py:13-36 (named `ports`/`port` there).
They are modelled once, by `PortSelection.OpenPorts` and
`PortSelection.NextOpenPort`.

What the code does, in a few places where a reader might expect otherwise:

- The frame `send_packet` writes has no length byte and no reserved zero
  byte. Its second byte is the constant `0x30`, and the payload appears
  twice. The commented-out template at send_serial.py:44,
  `01 02 00 <command> 03 0D 0A`, is not used by any script.
- The expected statuses come only from the tests' own assertions.
  Pairs no test asserts are left undefined, for example `A` or `T` from
  ACTIVE, or `D` from OFF.
- Neither script parses a reply into a status. Both do a substring test
  on text. tests.py looks only at the last line read. serial_tests.py
  looks at the whole read, so an earlier OFF report in the same read
  satisfies an OFF assertion (`SerialTests.StaleReportAccepted`).

## Model

| member | source | states |
|---|---|---|
| `PacketTests.SendPacket` | tests.py:54-64 | the connection's trace grows by exactly the write calls of the template walk, and nothing is read |
| `PacketTests.PacketStream` | tests.py:54-64 | the bytes sent are `01 30`, then the payload twice, then `03 0D 0A`; that is `5 + 2*len(data)` bytes; a zero byte is sent iff the payload contains one |
| `PacketTests.PlaceholderSendsPayload` | tests.py:56-62 | each placeholder sends exactly the payload; for a one-byte payload the `bytes(0x00)` write is an empty write, so that branch sends the same stream as the loop |
| `PacketTests.ByteWritesShape` | tests.py:61-62 | the loop makes one write per payload byte, in payload order, and sends the payload |
| `PacketTests.PlaceholderWriteCalls` | tests.py:56-62 | a placeholder makes two writes for a one-byte payload and otherwise one single-byte write per byte, in order |
| `PacketTests.PacketWriteCalls` | tests.py:55-64 | a packet is `5 + 2*(2 or len(data))` write calls, all writes |
| `PacketTests.PacketPayloadWrites` | tests.py:60-62 | for other payload lengths, both placeholders write byte `k` of the payload as the k-th call after `01 30` and after the first copy |
| `PacketTests.PacketWritesUnfold` | tests.py:55 | the template's seven entries produce their writes in template order: `01`, `30`, payload, payload, `03`, `0D`, `0A` |
| `PacketTests.LastLineOnReply` | tests.py:22 | when the read ends with a status reply, the `readlines()[-1]` check passes iff the reply reports the expected status; earlier lines are ignored and neither `IndexError` nor a decode error is raised |
| `PacketTests.AssertPacketReply` | tests.py:28-29 | one assertion: the packet's writes, one `readlines()`, and the last-line verdict on what it returned |
| `PacketTests.TestStatus` | tests.py:17-22 | `test_status` does what `RunSteps` gives for `P` reporting OFF |
| `PacketTests.TestArming` | tests.py:24-33 | `test_arming`: `A` must report ARMED, then, only if it did, `D` must report OFF |
| `PacketTests.TestDisarmedActivation` | tests.py:35-40 | `test_disarmed_activation`: `T` must report OFF |
| `PacketTests.TestActivation` | tests.py:42-51 | `test_activation`: payload `AT` must report ACTIVE, then `D` must report OFF |
| `PacketTests.PacketTestsDetermined` | tests.py:17-51 | every assertion of the four tests follows from the asserted pairs, starting from OFF |
| `PacketTests.PacketChecksPassIffAgree` | tests.py:17-51 | against a device that answers each packet with its status line, a test passes iff its assertions agree with that device |
| `PacketTests.PacketTestsPassOnConformingDevice` | tests.py:17-51 | every device that meets the asserted pairs and answers each packet with its status line passes all four tests of tests.py |
| `PacketTests.ScriptPort` | tests.py:81-83 | `sys.argv[1]` when given, otherwise the first enumerated port, otherwise `OSError` |
| `PortSelection.OpenPorts` | serial_tests.py:91-101 | yields every enumerated device name, in enumeration order |
| `PortSelection.NextOpenPort` | serial_tests.py:104-114 | the first enumerated device name; `OSError('No open serial ports.')` iff the enumeration is empty |
| `PortSelection.PortOrFirst` | serial_tests.py:15-17 | a supplied port is kept; only when none is supplied is the first open port used, with its error when there is none |
| `SerialTests.ProbeStatus` | serial_tests.py:32-37 | one assertion step: write the command, write `P`, read once, check the text |
| `SerialTests.ProbeLayout` | serial_tests.py:32-37 | a step is its command's single-byte write, then a single-byte `P` write, then exactly one read; the bytes sent are the command letter and `P` |
| `SerialTests.ReceivedOnReply` | serial_tests.py:25-26 | on a read of one status reply, `assertIn` passes iff the reply reports the expected status |
| `SerialTests.ReportInReadAccepted` | serial_tests.py:25-26 | `assertIn` searches the whole read: it passes whenever any line of the read reports the expected status, whatever comes before or after it |
| `SerialTests.StaleReportAccepted` | serial_tests.py:25-26 | so a read holding an OFF report and then an ARMED reply passes the check for OFF |
| `SerialTests.TestStatusRequest` | serial_tests.py:19-26 | `test_status_request`: `P` alone must report OFF |
| `SerialTests.TestDisarmingSequence` | serial_tests.py:28-45 | `A`,`P` must report ARMED, then `D`,`P` must report OFF |
| `SerialTests.TestActivationSequence` | serial_tests.py:47-72 | `T`,`P` must report OFF, then `T`,`P` ACTIVE, then `D`,`P` OFF; each later step runs only if the earlier passed |
| `SerialTests.SerialTestsDetermined` | serial_tests.py:19-72 | the status-request and disarming assertions follow from the asserted pairs; so does the activation test's first assertion, and its last one from ACTIVE |
| `SerialTests.ProbesPassIffAgree` | serial_tests.py:19-72 | against a device that answers each probe with its status line, each of the three probe tests passes iff its assertions agree with that device |
| `SerialTests.SerialTestsPassOnConformingDevice` | serial_tests.py:19-45 | every device that meets the asserted pairs and answers each probe with its status line passes the status-request and disarming tests |
| `SerialTests.ActivationSequenceConflict` | serial_tests.py:51-64 | no device whose state is one of OFF, ARMED and ACTIVE (an `Oracle`) reports OFF after `T`,`P` and ACTIVE after a second `T`,`P`; `test_activation_sequence` fails against every device that answers each probe with exactly its status line |
| `SerialTests.ActivationPassesAfterStaleReport` | serial_tests.py:47-72 | with a stale OFF report before the ARMED reply in the first read, then honest replies, `test_activation_sequence` passes |
| `SerialTests.TestRegularStatusUpdates` | serial_tests.py:74-88 | three reads; the counter equals the number of reads that contain `DAS status: OFF`, never exceeds 3, and the test passes iff all three do |
| `SerialTests.RepliesOnlyFailRegularUpdates` | serial_tests.py:74-88 | a device that only answers commands gives three empty reads, so the counter stays below 3 and the test fails |
| `SerialTests.OffCountAll` | serial_tests.py:77-88 | the counter is at most the number of reads, and equals it iff every read reports OFF |
| `SerialTests.PeriodicOffReportsPass` | serial_tests.py:80-88 | a device that reports OFF at each of the three reads makes the counter reach 3 |
| `SendSerial.Transmit` | send_serial.py:54-63 | the trace grows by, for each command in order, one write of its letter and then one `readlines()` |
| `SendSerial.TransmitLayout` | send_serial.py:54-63 | the loop alternates writes and reads: event `2i` writes letter `i` alone, and event `2i+1` reads the i-th batch |
| `SendSerial.TransmitBytes` | send_serial.py:57-61 | the wire carries the command letters, one byte each, with no framing bytes |
| `SendSerial.ScriptBytes` | send_serial.py:42 | the script sends exactly `P A D T A T` |
| `SendSerial.RunScript` | send_serial.py:39-63 | `port()` first: on `OSError` nothing is sent; otherwise the transmit loop over the script's letters |
| `DasModel.Step` | tests.py:17-51 | defined exactly on the asserted pairs of tests.py:17-51 and serial_tests.py:19-72 (`(ARMED, P)` comes from serial_tests.py:32-37 alone); where defined: `P` keeps the status, `A` arms, `D` turns off, and `T` gives ACTIVE from ARMED and otherwise keeps the status |
| `AssertedTransitions.PacketTestsPairs` | tests.py:17-51 | the four tests of tests.py, from OFF, pass through exactly `(OFF,P)`, `(OFF,A)`, `(ARMED,D)`, `(OFF,T)`, `(ARMED,T)`, `(ACTIVE,D)` |
| `AssertedTransitions.SerialTestsPairs` | serial_tests.py:19-72 | the consistent assertions of serial_tests.py pass through exactly `(OFF,P)`, `(OFF,A)`, `(ARMED,P)`, `(ARMED,D)`, `(OFF,T)`, `(ACTIVE,D)` |
| `AssertedTransitions.TestsAssertExactlyStepPairs` | tests.py:17-51 | together the tests of tests.py:17-51 and the consistent assertions of serial_tests.py:19-72 pass through exactly the pairs on which `Step` is defined: it adds no transition and misses none |
| `DasModel.RunWithAppend` | serial_tests.py:47-72 | sending two command sequences back to back is sending the second from where the first left the device |
| `DasModel.ConformingRunAgrees` | tests.py:42-51 | where the asserted pairs determine a sequence's outcome, every conforming device reaches it |
| `DasModel.DeterminedAgrees` | tests.py:24-33 | a script whose assertions follow from the asserted pairs agrees with every conforming device |
| `DasModel.AssertedPairsConsistent` | serial_tests.py:19-45 | the asserted pairs are consistent: some device whose state is its status (an `Oracle`) meets all of them |
| `DasModel.RunStepsAppend` | serial_tests.py:28-45 | a test's assertions run in order; the later ones run, on the data left unread, only if the earlier passed |
| `Protocol.StatusLineIdentifies` | tests.py:22 | the substring test on a reported status line accepts exactly the status that was reported |
| `Protocol.CommandBytesRoundTrip` | tests.py:46 | a payload of command letters, such as `b'AT'`, reads back as its commands |
| `Protocol.CommandOfByte` | tests.py:46 | a letter byte names the command whose letter it is, and no other |
| `Ascii.Contains` | tests.py:22 | Python's `in`: true iff the text contains the pattern somewhere |
| `Ascii.DecodeAscii` | tests.py:22 | `str(line, encoding='ASCII')` succeeds iff every byte is below 0x80, and encoding the text gives the line back |
| `Ascii.DecodeEncode` | tests.py:22 | decoding encoded ASCII text gives that text |
| `SerialIO.SentAppend` | tests.py:54-64 | the bytes sent by two runs of writes are those of the first, then those of the second |
| `SerialIO.Connection.Write` | tests.py:58-64 | `write(data)` appends one write of exactly those bytes to the trace and reads nothing |
| `SerialIO.Connection.ReadLines` | tests.py:22 | `readlines()` returns the next batch of lines, or nothing on timeout, and records the read |
| `SerialIO.Connection.Read` | serial_tests.py:25 | `read()` returns the bytes of the next batch, or nothing on timeout, and records the read |

## Left out

- pyserial itself is left out: opening and closing the port, baud rate, parity, byte size and timeout settings. The connection is a parameter, and what it receives is an input queue.
- `read()` returning at most one byte is left out. So is the type behaviour of `write(int)` and `write(str)`, and of `str in bytes` (a `TypeError` under Python 3). `write(n)` sends the byte `n`, `write('P')` sends the letter's byte, and received bytes are read as text.
- `time.sleep` delays and the 5-second period of unprompted reports are timing only and are not modelled.
- `serial.tools.list_ports.comports()` is an input sequence.
- The `unittest` runner, `print` logging, and `sys.argv` handling beyond choosing the port are left out.
- The commented-out packet structure in send_serial.py:44,57-59 is dead code and is not modelled.
- Transitions no test asserts (`A`, `P` or `T` from ACTIVE, `A` from ARMED, `D` from OFF) are left undefined.
- How the device reads a packet whose payload appears twice is not in the source. The oracle takes tests.py's payload (`b'AT'`) as its command letters, once each.
- The device's replies appear only as the batches the scripts read. The model does not say when the device sends them, or whether a batch also holds an unprompted report.
