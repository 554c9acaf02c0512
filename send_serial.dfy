/** The transmit script (send_serial.py): pick the first port, then send
    each command letter as a single raw byte, reading once after each. */
module SendSerial {
  import opened Wrappers
  import opened Ascii
  import opened SerialIO
  import opened Protocol
  import opened PortSelection

  /** The letters the script sends, in order: `P, A, D, T, A, T`. */
  const Data: seq<Command> := [RequestStatus, Arm, Disarm, Trigger, Arm, Trigger]

  /** What the transmit loop does for the commands `cs`: for each, one
      write of its letter, then one `readlines()`. */
  function TransmitEvents(cs: seq<Command>, inbox: seq<Batch>): (events: seq<Event>)
    decreases |cs|
  {
    if cs == [] then []
    else
      var n := |cs| - 1;
      TransmitEvents(cs[..n], inbox) + [Wrote([cs[n].Byte()]), Received(NextBatch(Drop(inbox, n)))]
  }

  /** The `for character in data` loop: `write(character.encode())`,
      then `readlines()`. */
  method Transmit(conn: Connection, data: seq<Command>)
    modifies conn
    ensures conn.trace == old(conn.trace) + TransmitEvents(data, old(conn.incoming))
    ensures conn.incoming == Drop(old(conn.incoming), |data|)
  {
    ghost var start, inbox := conn.trace, conn.incoming;
    for i := 0 to |data|
      invariant conn.trace == start + TransmitEvents(data[..i], inbox)
      invariant conn.incoming == Drop(inbox, i)
    {
      var character := data[i];
      conn.Write([character.Byte()]);
      var receivedData := conn.ReadLines();
      TransmitStep(start, data, inbox, i);
    }
    assert data[..|data|] == data;
  }

  /** One turn of the transmit loop extends its trace and its reads by
      one command. */
  lemma TransmitStep(start: seq<Event>, data: seq<Command>, inbox: seq<Batch>, i: nat)
    requires i < |data|
    ensures start + TransmitEvents(data[..i], inbox) + [Wrote([data[i].Byte()])]
      + [Received(NextBatch(Drop(inbox, i)))] == start + TransmitEvents(data[..i + 1], inbox)
    ensures Drop(Drop(inbox, i), 1) == Drop(inbox, i + 1)
  {
    DropDrop(inbox, i, 1);
    assert data[..i + 1] == data[..i] + [data[i]];
    TransmitEventsSnoc(data[..i], inbox, data[i]);
  }

  /** The loop's events grow by one write and one read per command. */
  lemma TransmitEventsSnoc(cs: seq<Command>, inbox: seq<Batch>, c: Command)
    ensures TransmitEvents(cs + [c], inbox) ==
      TransmitEvents(cs, inbox) + [Wrote([c.Byte()]), Received(NextBatch(Drop(inbox, |cs|)))]
  {
    assert (cs + [c])[..|cs|] == cs;
  }

  /** The loop alternates writes and reads: the i-th write is the i-th
      letter alone, and the read after it takes the i-th batch. */
  lemma {:induction false} TransmitAt(cs: seq<Command>, inbox: seq<Batch>, i: nat)
    requires i < |cs|
    ensures |TransmitEvents(cs, inbox)| == 2 * |cs|
    ensures TransmitEvents(cs, inbox)[2 * i] == Wrote([cs[i].Byte()])
    ensures TransmitEvents(cs, inbox)[2 * i + 1] == Received(NextBatch(Drop(inbox, i)))
    decreases |cs|
  {
    var n := |cs| - 1;
    var init := cs[..n];
    assert init + [cs[n]] == cs;
    TransmitEventsSnoc(init, inbox, cs[n]);
    var prefix := TransmitEvents(init, inbox);
    if i < n {
      TransmitAt(init, inbox, i);
      assert cs[i] == init[i];
    } else if n > 0 {
      TransmitAt(init, inbox, n - 1);
    }
    assert |prefix| == 2 * n;
  }

  /** The same, for every command of the loop. */
  lemma TransmitLayout(cs: seq<Command>, inbox: seq<Batch>)
    ensures |TransmitEvents(cs, inbox)| == 2 * |cs|
    ensures forall i :: 0 <= i < |cs| ==>
      TransmitEvents(cs, inbox)[2 * i] == Wrote([cs[i].Byte()]) &&
      TransmitEvents(cs, inbox)[2 * i + 1] == Received(NextBatch(Drop(inbox, i)))
  {
    if cs != [] {
      TransmitAt(cs, inbox, 0);
      forall i | 0 <= i < |cs|
        ensures TransmitEvents(cs, inbox)[2 * i] == Wrote([cs[i].Byte()])
        ensures TransmitEvents(cs, inbox)[2 * i + 1] == Received(NextBatch(Drop(inbox, i)))
      {
        TransmitAt(cs, inbox, i);
      }
    }
  }

  /** One letter's write and the read after it send that letter alone. */
  lemma SentLetter(b: byte, lines: Batch)
    ensures Sent([Wrote([b]), Received(lines)]) == [b]
  {
    var write := [Wrote([b])];
    assert write[..0] == [];
    assert Sent(write) == [b];
    var pair := write + [Received(lines)];
    assert pair[..1] == write;
  }

  /** The wire carries the command letters, one byte each, and nothing
      else: no framing bytes. */
  lemma {:induction false} TransmitBytes(cs: seq<Command>, inbox: seq<Batch>)
    ensures Sent(TransmitEvents(cs, inbox)) == CommandBytes(cs)
    decreases |cs|
  {
    if cs != [] {
      var n := |cs| - 1;
      var init := cs[..n];
      var lines := NextBatch(Drop(inbox, n));
      assert init + [cs[n]] == cs;
      TransmitEventsSnoc(init, inbox, cs[n]);
      TransmitBytes(init, inbox);
      SentAppend(TransmitEvents(init, inbox), [Wrote([cs[n].Byte()]), Received(lines)]);
      SentLetter(cs[n].Byte(), lines);
      assert CommandBytes(cs) == CommandBytes(init) + [cs[n].Byte()];
    }
  }

  /** The script puts exactly the bytes `P A D T A T` on the wire. */
  lemma ScriptBytes(inbox: seq<Batch>)
    ensures Sent(TransmitEvents(Data, inbox)) == [0x50, 0x41, 0x44, 0x54, 0x41, 0x54]
  {
    TransmitBytes(Data, inbox);
    assert CommandBytes(Data) == [0x50, 0x41, 0x44, 0x54, 0x41, 0x54];
  }

  /** The `__main__` block: the first open port, or `OSError` before
      anything is sent; then the transmit loop over `Data` on `conn`, the
      connection opened on that port. */
  method RunScript(conn: Connection, comports: seq<ComPort>) returns (r: Result<string, OSError>)
    modifies conn
    ensures r == NextOpenPort(comports)
    ensures r.Err? ==> conn.trace == old(conn.trace) && conn.incoming == old(conn.incoming)
    ensures r.Ok? ==> conn.trace == old(conn.trace) + TransmitEvents(Data, old(conn.incoming))
    ensures r.Ok? ==> conn.incoming == Drop(old(conn.incoming), |Data|)
  {
    r := NextOpenPort(comports);
    if r.Ok? {
      Transmit(conn, Data);
    }
  }
}
