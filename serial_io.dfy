/** The serial connection as the scripts see it: every `write` call and
    every read is recorded, in order, in a trace; what the device sends
    back is an input queue of line batches, one batch per read. */
module SerialIO {
  import opened Ascii

  /** One received line, terminator included. */
  type Line = seq<byte>

  /** What one read call returns: the lines that had arrived by then. */
  type Batch = seq<Line>

  datatype Event =
    | Wrote(data: seq<byte>)   // one `serial_connection.write(...)` call
    | Received(lines: Batch)   // one `read()` or `readlines()` call

  /** The bytes of the lines, back to back. */
  function Flatten(lines: seq<seq<byte>>): (bs: seq<byte>)
  {
    if lines == [] then [] else Flatten(lines[..|lines| - 1]) + lines[|lines| - 1]
  }

  /** The byte stream the writes of a trace put on the wire, in order. */
  function Sent(trace: seq<Event>): (bs: seq<byte>)
  {
    if trace == [] then []
    else
      var last := trace[|trace| - 1];
      Sent(trace[..|trace| - 1]) + (if last.Wrote? then last.data else [])
  }

  /** The stream of a trace is the stream of its first part followed by
      that of its second part. */
  lemma {:induction false} SentAppend(a: seq<Event>, b: seq<Event>)
    ensures Sent(a + b) == Sent(a) + Sent(b)
    decreases |b|
  {
    if b == [] {
      assert a + b == a;
    } else {
      var b' := b[..|b| - 1];
      assert (a + b)[..|a + b| - 1] == a + b';
      SentAppend(a, b');
    }
  }

  /** The bytes of two runs of lines are those of the first, then those
      of the second. */
  lemma {:induction false} FlattenAppend(a: seq<seq<byte>>, b: seq<seq<byte>>)
    ensures Flatten(a + b) == Flatten(a) + Flatten(b)
    decreases |b|
  {
    if b == [] {
      assert a + b == a;
    } else {
      var b' := b[..|b| - 1];
      assert (a + b)[..|a + b| - 1] == a + b';
      FlattenAppend(a, b');
    }
  }

  /** The bytes of one batch between two others sit between their bytes. */
  lemma FlattenAround(before: seq<seq<byte>>, x: seq<byte>, after: seq<seq<byte>>)
    ensures Flatten(before + [x] + after) == Flatten(before) + x + Flatten(after)
  {
    FlattenAppend(before + [x], after);
    FlattenAppend(before, [x]);
    assert [x][..0] == [];
  }

  /** The batch the next read returns: nothing once the device has sent
      everything (the read times out). */
  function NextBatch(inbox: seq<Batch>): (batch: Batch)
  {
    if inbox == [] then [] else inbox[0]
  }

  /** The queue after `n` reads. */
  function Drop(inbox: seq<Batch>, n: nat): (rest: seq<Batch>)
    ensures n <= |inbox| ==> rest == inbox[n..]
    ensures n >= |inbox| ==> rest == []
  {
    if n <= |inbox| then inbox[n..] else []
  }

  /** Reading `n` batches and then `m` more is reading `n + m`. */
  lemma DropDrop(inbox: seq<Batch>, n: nat, m: nat)
    ensures Drop(Drop(inbox, n), m) == Drop(inbox, n + m)
  {
    if n + m <= |inbox| {
      assert inbox[n..][m..] == inbox[n + m..];
    }
  }

  /** An open `serial.Serial` handle. */
  class Connection {
    var trace: seq<Event>
    var incoming: seq<Batch>

    constructor (incoming: seq<Batch>)
      ensures trace == [] && this.incoming == incoming
    {
      trace := [];
      this.incoming := incoming;
    }

    /** `write(data)`: the bytes go out as one write call. */
    method Write(data: seq<byte>)
      modifies this
      ensures trace == old(trace) + [Wrote(data)]
      ensures incoming == old(incoming)
    {
      trace := trace + [Wrote(data)];
    }

    /** `readlines()`: the next batch of lines, or none on timeout. */
    method ReadLines() returns (lines: Batch)
      modifies this
      ensures lines == NextBatch(old(incoming))
      ensures incoming == Drop(old(incoming), 1)
      ensures trace == old(trace) + [Received(lines)]
    {
      lines := NextBatch(incoming);
      incoming := Drop(incoming, 1);
      trace := trace + [Received(lines)];
    }

    /** `read()`: the bytes of the next batch, or none on timeout. */
    method Read() returns (data: seq<byte>)
      modifies this
      ensures data == Flatten(NextBatch(old(incoming)))
      ensures incoming == Drop(old(incoming), 1)
      ensures trace == old(trace) + [Received(NextBatch(old(incoming)))]
    {
      var lines := NextBatch(incoming);
      data := Flatten(lines);
      incoming := Drop(incoming, 1);
      trace := trace + [Received(lines)];
    }
  }
}
