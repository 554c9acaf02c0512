/** Choosing the serial port: the enumeration of ports is an input, and
    the first device it lists wins. */
module PortSelection {
  import opened Wrappers

  /** One entry of the port enumeration; only its device name is used. */
  datatype ComPort = ComPort(device: string)

  /** The exception raised when nothing is enumerated. */
  datatype OSError = OSError(message: string)

  const NoOpenPorts: OSError := OSError("No open serial ports.")

  /** The device names the port generator yields, in enumeration order. */
  function OpenPorts(comports: seq<ComPort>): (names: seq<string>)
    ensures |names| == |comports|
    ensures forall i :: 0 <= i < |comports| ==> names[i] == comports[i].device
    decreases |comports|
  {
    if comports == [] then [] else [comports[0].device] + OpenPorts(comports[1..])
  }

  /** `next(open_ports())`: the first yielded name, or `OSError` when the
      generator is exhausted at once. */
  function NextOpenPort(comports: seq<ComPort>): (r: Result<string, OSError>)
    ensures r.Ok? <==> comports != []
    ensures r.Ok? ==> r.value == comports[0].device
    ensures r.Err? ==> r.error == NoOpenPorts
  {
    var names := OpenPorts(comports);
    if names == [] then Err(NoOpenPorts) else Ok(names[0])
  }

  /** A port given explicitly is kept; otherwise the first open port is
      used. */
  function PortOrFirst(given: Option<string>, comports: seq<ComPort>): (r: Result<string, OSError>)
    ensures given.Some? ==> r == Ok(given.value)
    ensures given.None? ==> (r.Ok? <==> comports != [])
    ensures given.None? && comports != [] ==> r == Ok(comports[0].device)
    ensures given.None? && comports == [] ==> r == Err(NoOpenPorts)
  {
    match given
    case Some(p) => Ok(p)
    case None => NextOpenPort(comports)
  }
}
