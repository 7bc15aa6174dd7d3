/** The fieldbus side that both gateway versions share: bulk read requests,
    write requests, the fan-out of one bulk read over the entities of a group,
    and the TCP client that executes write requests. */
module Modbus {
  import opened Py

  datatype ReadRequest =
    | ReadCoils(address: int, count: nat)
    | ReadHoldingRegisters(address: int, count: nat)

  /** What a bulk read hands back (coils as 0 and 1), or a failed read. */
  datatype ReadReply = Values(values: seq<int>) | ReadFailed

  /** The `data` argument of the write helpers: a list, or one item. */
  datatype Data<T> = Single(item: T) | Multiple(items: seq<T>)

  datatype WriteRequest =
    | WriteSingleCoil(address: int, bit: bool)
    | WriteMultipleCoils(address: int, bits: seq<bool>)
    | WriteSingleRegister(address: int, word: int)
    | WriteMultipleRegisters(address: int, words: seq<int>)

  /** What a write request stores on the device: its start address and the
      items it writes there, coils as 0 and 1. */
  function Stored(r: WriteRequest): (int, seq<int>) {
    match r
    case WriteSingleCoil(a, b) => (a, [if b then 1 else 0])
    case WriteMultipleCoils(a, bs) => (a, seq(|bs|, i requires 0 <= i < |bs| => if bs[i] then 1 else 0))
    case WriteSingleRegister(a, w) => (a, [w])
    case WriteMultipleRegisters(a, ws) => (a, ws)
  }

  function Bits(data: Data<bool>): seq<int> {
    match data
    case Single(b) => [if b then 1 else 0]
    case Multiple(bs) => seq(|bs|, i requires 0 <= i < |bs| => if bs[i] then 1 else 0)
  }

  function Words(data: Data<int>): seq<int> {
    match data
    case Single(w) => [w]
    case Multiple(ws) => ws
  }

  /** The request `modbus_write_coils` builds: a list becomes one
      multiple-coil request, anything else a single-coil request. */
  function CoilRequest(address: int, data: Data<bool>): (r: WriteRequest)
    ensures r.WriteSingleCoil? <==> data.Single?
    ensures r.WriteMultipleCoils? <==> data.Multiple?
    ensures Stored(r) == (address, Bits(data))
  {
    match data
    case Single(b) => WriteSingleCoil(address, b)
    case Multiple(bs) => WriteMultipleCoils(address, bs)
  }

  /** The request `modbus_write_registers` builds, by the same rule. */
  function RegisterRequest(address: int, data: Data<int>): (r: WriteRequest)
    ensures r.WriteSingleRegister? <==> data.Single?
    ensures r.WriteMultipleRegisters? <==> data.Multiple?
    ensures Stored(r) == (address, Words(data))
  {
    match data
    case Single(w) => WriteSingleRegister(address, w)
    case Multiple(ws) => WriteMultipleRegisters(address, ws)
  }

  /** The UDP client bulk reads go through, as the record of every read
      request sent. */
  class UdpClient {
    var requests: seq<ReadRequest>

    constructor ()
      ensures requests == []
    {
      requests := [];
    }
  }

  // ---------------------------------------------------------------------
  // Fan-out of one bulk read

  /** What the k-th entity of a group is handed: `values[k*w : (k+1)*w]`. */
  function Window(values: seq<int>, width: nat, k: nat): seq<int> {
    Slice(values, k * width, k * width + width)
  }

  function Windows(values: seq<int>, width: nat, n: nat): (r: seq<seq<int>>)
    ensures |r| == n
    ensures forall k :: 0 <= k < n ==> r[k] == Window(values, width, k)
  {
    if n == 0 then [] else Windows(values, width, n - 1) + [Window(values, width, n - 1)]
  }

  function Flatten(parts: seq<seq<int>>): seq<int> {
    if parts == [] then [] else Flatten(parts[..|parts| - 1]) + parts[|parts| - 1]
  }

  /** When the read returned enough items, every window has exactly the
      group's width: the k-th is `values[k*w .. k*w + w]`. */
  lemma WindowsFull(values: seq<int>, width: nat, n: nat, k: nat)
    requires n * width <= |values| && k < n
    ensures k * width + width <= |values|
    ensures Window(values, width, k) == values[k * width..k * width + width]
  {
    WindowEnd(k, n, width);
  }

  /** ... and the windows, in order, tile the items read. */
  lemma {:induction false} WindowsTile(values: seq<int>, width: nat, n: nat)
    requires n * width <= |values|
    ensures Flatten(Windows(values, width, n)) == values[..n * width]
  {
    if n > 0 {
      MulSucc(n - 1, width);
      WindowsTile(values, width, n - 1);
      TileStep(values, width, n - 1);
    }
  }

  /** One more window extends the tiled prefix by the group's width. */
  lemma TileStep(values: seq<int>, width: nat, p: nat)
    requires p * width + width <= |values|
    requires Flatten(Windows(values, width, p)) == values[..p * width]
    ensures Flatten(Windows(values, width, p + 1)) == values[..p * width + width]
  {
    MulNonNegative(p, width);
    var m := p * width;
    FlattenSnoc(Windows(values, width, p), Window(values, width, p));
    assert Window(values, width, p) == values[m..m + width];
    PrefixSplit(values, m, m + width);
  }

  lemma PrefixSplit(s: seq<int>, i: nat, j: nat)
    requires i <= j <= |s|
    ensures s[..j] == s[..i] + s[i..j]
  {
  }

  lemma FlattenSnoc(parts: seq<seq<int>>, last: seq<int>)
    ensures Flatten(parts + [last]) == Flatten(parts) + last
  {
    assert (parts + [last])[..|parts|] == parts;
  }

  lemma WindowEnd(k: nat, n: nat, width: nat)
    requires k < n
    ensures k * width + width <= n * width
    decreases n - k
  {
    MulSucc(k, width);
    if k + 1 < n {
      WindowEnd(k + 1, n, width);
    }
  }

  lemma MulNonNegative(a: nat, b: nat)
    ensures a * b >= 0
  {
  }

  lemma MulSucc(k: nat, width: nat)
    ensures (k + 1) * width == k * width + width
  {
  }

  /** A window comes up short, so that the entity rejects it, exactly when the
      read returned fewer items than the window's end. */
  lemma WindowShort(values: seq<int>, width: nat, k: nat)
    ensures |Window(values, width, k)| == width <==> k * width + width <= |values|
  {
  }

  // ---------------------------------------------------------------------
  // The TCP client behind the write helpers

  /** A device response: `isError()` holds of ErrorResponse. */
  datatype Response = Accepted | ErrorResponse

  class TcpClient {
    var open: bool
    var connects: nat
    /** Every request put on the wire, in order, retries included. */
    var sent: seq<WriteRequest>

    constructor ()
      ensures !open && connects == 0 && sent == []
    {
      open, connects, sent := false, 0, [];
    }

    /** `modbus_execute`: connect a closed socket, send the request, and send
        it once more when the device answers the first attempt with an
        error; `first` and `retry` are the device's answers to the two
        attempts. The last answer is returned. */
    method Execute(request: WriteRequest, first: Response, retry: Response) returns (r: Response)
      modifies this
      ensures open
      ensures connects == old(connects) + (if old(open) then 0 else 1)
      ensures sent == old(sent) + (if first.ErrorResponse? then [request, request] else [request])
      ensures r == (if first.ErrorResponse? then retry else first)
    {
      if !open {
        open := true;
        connects := connects + 1;
      }
      sent := sent + [request];
      r := first;
      if r.ErrorResponse? {
        sent := sent + [request];
        r := retry;
      }
    }

    /** A request sent straight through the client, with no retry. */
    method Send(request: WriteRequest)
      modifies this
      ensures open == old(open) && connects == old(connects)
      ensures sent == old(sent) + [request]
    {
      sent := sent + [request];
    }
  }
}
