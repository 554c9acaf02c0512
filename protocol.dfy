/** The DAS command letters and the status line the device reports. */
module Protocol {
  import opened Wrappers
  import opened Ascii

  /** The four commands: `P` asks for the status, `A` arms, `D` disarms,
      `T` triggers. */
  datatype Command = RequestStatus | Arm | Disarm | Trigger
  {
    function Letter(): (letter: char)
    {
      match this
      case RequestStatus => 'P'
      case Arm => 'A'
      case Disarm => 'D'
      case Trigger => 'T'
    }

    /** The command's letter as one ASCII byte (`'P'.encode()`). */
    function Byte(): (b: byte)
      ensures b as int == Letter() as int
    {
      Letter() as int as byte
    }
  }

  /** The command a received letter byte names, if any. */
  function CommandOfByte(b: byte): (r: Option<Command>)
    ensures r.Some? ==> r.value.Byte() == b
    ensures forall c: Command :: c.Byte() == b ==> r == Some(c)
  {
    if b == 0x50 then Some(RequestStatus)
    else if b == 0x41 then Some(Arm)
    else if b == 0x44 then Some(Disarm)
    else if b == 0x54 then Some(Trigger)
    else None
  }

  /** A payload of command letters, one byte per command (`b'AT'`). */
  function CommandBytes(cs: seq<Command>): (bs: seq<byte>)
    ensures |bs| == |cs|
    ensures forall i :: 0 <= i < |cs| ==> bs[i] == cs[i].Byte()
  {
    seq(|cs|, i requires 0 <= i < |cs| => cs[i].Byte())
  }

  /** The commands a payload spells, or None if a byte is no command letter. */
  function CommandsOfBytes(bs: seq<byte>): (r: Option<seq<Command>>)
  {
    if bs == [] then Some([])
    else
      match (CommandOfByte(bs[0]), CommandsOfBytes(bs[1..]))
      case (Some(c), Some(cs)) => Some([c] + cs)
      case _ => None
  }

  /** Reading back a payload of command letters gives the commands. */
  lemma {:induction false} CommandBytesRoundTrip(cs: seq<Command>)
    ensures CommandsOfBytes(CommandBytes(cs)) == Some(cs)
  {
    if cs != [] {
      assert CommandBytes(cs)[1..] == CommandBytes(cs[1..]);
      CommandBytesRoundTrip(cs[1..]);
      assert [cs[0]] + cs[1..] == cs;
    }
  }

  datatype DasStatus = Off | Armed | Active
  {
    function Token(): (token: string)
    {
      match this
      case Off => "OFF"
      case Armed => "ARMED"
      case Active => "ACTIVE"
    }
  }

  const StatusPrefix: string := "DAS status: "

  /** The text the tests look for, e.g. `DAS status: ARMED`. */
  function StatusLine(s: DasStatus): (line: string)
    ensures IsAsciiText(line)
  {
    StatusPrefix + s.Token()
  }

  /** The line the device emits for a status, newline-terminated. */
  function StatusReply(s: DasStatus): (line: seq<byte>)
  {
    Encode(StatusLine(s) + "\n")
  }

  /** A status reply is ASCII and reads as its status line and a newline. */
  lemma StatusReplyText(s: DasStatus)
    ensures IsAsciiBytes(StatusReply(s)) && Chars(StatusReply(s)) == StatusLine(s) + "\n"
  {
    var line := StatusLine(s) + "\n";
    assert IsAsciiText(line) by {
      forall i | 0 <= i < |line| ensures (line[i] as int) < 128 {
        if i < |StatusLine(s)| {
          assert line[i] == StatusLine(s)[i];
        }
      }
    }
    CharsOfEncode(line);
  }

  /** The substring test on a reported status line accepts exactly the
      status that was reported: no token's line contains another's. */
  lemma StatusLineIdentifies(reported: DasStatus, expected: DasStatus)
    ensures Contains(StatusLine(reported) + "\n", StatusLine(expected)) <==> reported == expected
  {
    var line := StatusLine(reported) + "\n";
    var pattern := StatusLine(expected);
    if reported == expected {
      ContainsPrefix(pattern, "\n");
    } else {
      forall i | 0 <= i <= |line| - |pattern|
        ensures !OccursAt(line, pattern, i)
      {
        if i == 0 {
          TokenHeadsDiffer(reported, expected);
          assert line[12..14] == reported.Token()[..2];
          assert pattern[12..14] == expected.Token()[..2];
          assert line[i..i + |pattern|][12..14] != pattern[12..14];
        } else {
          assert i <= 5 && line[i] != 'D';
          assert line[i..i + |pattern|][0] != pattern[0];
        }
      }
    }
  }

  /** Distinct tokens already differ in their first two letters. */
  lemma TokenHeadsDiffer(a: DasStatus, b: DasStatus)
    requires a != b
    ensures a.Token()[..2] != b.Token()[..2]
  {
    var ha, hb := a.Token()[..2], b.Token()[..2];
    assert ha == (match a case Off => "OF" case Armed => "AR" case Active => "AC");
    assert hb == (match b case Off => "OF" case Armed => "AR" case Active => "AC");
    assert ha[0] != hb[0] || ha[1] != hb[1];
  }
}
