/** The gateway of the top-level gateway.py: groups of entities polled with
    one bulk read each, by the unit (1 or 16 bits) and width of the group's
    class, and write helpers that send straight through the TCP client.

    Its entity module is not part of this model; an entity here is the
    record of the samples `on_modbus_data` was handed, in order. */
module UnitGateway {
  import opened Py
  import opened Modbus

  /** The attributes gateway.py reads of an entity's class. */
  datatype UnitClass = UnitClass(unit: int, width: nat, readOffset: int)

  /** One call of `on_modbus_data`. */
  datatype Sample = Sample(timestamp: int, data: seq<int>)

  class Sink {
    const cls: UnitClass
    const idx: nat
    var received: seq<Sample>

    /** `entity_type(gateway, modbus_class, idx)`. */
    constructor (cls: UnitClass, idx: nat)
      ensures this.cls == cls && this.idx == idx && received == []
    {
      this.cls, this.idx := cls, idx;
      received := [];
    }

    method OnModbusData(timestamp: int, data: seq<int>)
      modifies this
      ensures received == old(received) + [Sample(timestamp, data)]
    {
      received := received + [Sample(timestamp, data)];
    }
  }

  /** The bulk read for n entities of a class: unit 1 reads coils, unit 16
      holding registers, `width * n` of them from the read offset; any
      other unit raises. */
  function ReadRequestFor(cls: UnitClass, n: nat): Result<ReadRequest> {
    if cls.unit == 1 then Success(ReadCoils(cls.readOffset, cls.width * n))
    else if cls.unit == 16 then Success(ReadHoldingRegisters(cls.readOffset, cls.width * n))
    else Failure(UnsupportedUnit)
  }

  /** What one call of `__process_entities` does: the read it issues, the
      windows it hands the entities (None when it hands none), and what it
      returns or raises. */
  datatype PollResult = PollResult(read: Option<ReadRequest>, windows: Option<seq<seq<int>>>, result: Result<Option<int>>)

  predicate Due(previous: int, timeWait: int, now: int) {
    now - previous > timeWait
  }

  /** `Gateway.__process_entities` for a group whose entities stand over
      these classes; the group's class is its first entity's. */
  function Poll(classes: seq<UnitClass>, previous: Option<int>, timeWait: int, now: int, reply: ReadReply): PollResult {
    if |classes| == 0 then PollResult(None, None, Success(None))
    else if previous.None? then PollResult(None, None, Failure(TypeError))
    else if !Due(previous.value, timeWait, now) then PollResult(None, None, Success(previous))
    else
      var cls := classes[0];
      match ReadRequestFor(cls, |classes|)
      case Failure(e) => PollResult(None, None, Failure(e))
      case Success(request) =>
        if reply.ReadFailed? then PollResult(Some(request), None, Failure(TransportFailure))
        else PollResult(Some(request), Some(Windows(reply.values, cls.width, |classes|)), Success(Some(now)))
  }

  /** The poll that is not due reads nothing, hands nothing and keeps the
      timestamp. */
  lemma PollNotDue(classes: seq<UnitClass>, previous: int, timeWait: int, now: int, reply: ReadReply)
    requires |classes| > 0 && !Due(previous, timeWait, now)
    ensures Poll(classes, Some(previous), timeWait, now, reply) == PollResult(None, None, Success(Some(previous)))
  {
  }

  /** An empty group answers None without reading; a non-empty group never
      answers None, so only a group whose timestamp was never set can meet
      the TypeError of `now - None`. */
  lemma PollTimestamps(classes: seq<UnitClass>, previous: Option<int>, timeWait: int, now: int, reply: ReadReply)
    ensures |classes| == 0 ==> Poll(classes, previous, timeWait, now, reply) == PollResult(None, None, Success(None))
    ensures |classes| > 0 && previous.Some? && Poll(classes, previous, timeWait, now, reply).result.Success? ==>
      Poll(classes, previous, timeWait, now, reply).result.value.Some?
    ensures |classes| > 0 && previous.None? ==> Poll(classes, previous, timeWait, now, reply).result == Failure(TypeError)
  {
  }

  /** A due poll reads `width * n` items from the group's read offset, coils
      for unit 1 and holding registers for unit 16, and hands entity i the
      i-th window of the answer; any other unit raises before reading. */
  lemma PollDueReads(classes: seq<UnitClass>, previous: int, timeWait: int, now: int, reply: ReadReply)
    requires |classes| > 0 && Due(previous, timeWait, now)
    ensures var r := Poll(classes, Some(previous), timeWait, now, reply);
      var cls := classes[0];
      && (cls.unit == 1 ==> r.read == Some(ReadCoils(cls.readOffset, cls.width * |classes|)))
      && (cls.unit == 16 ==> r.read == Some(ReadHoldingRegisters(cls.readOffset, cls.width * |classes|)))
      && (cls.unit != 1 && cls.unit != 16 ==> r == PollResult(None, None, Failure(UnsupportedUnit)))
      && (r.read.Some? && reply.ReadFailed? ==> r.windows == None && r.result == Failure(TransportFailure))
      && (r.read.Some? && reply.Values? ==>
            r.windows == Some(Windows(reply.values, cls.width, |classes|)) && r.result == Success(Some(now)))
  {
  }

  /** What a poll hands out, when the device answered every item asked for:
      one window per entity, each exactly the class's width, and together,
      in order, the items read. */
  lemma PollWindowsTile(classes: seq<UnitClass>, previous: Option<int>, timeWait: int, now: int, reply: ReadReply)
    requires reply.Values? && |classes| > 0 && |classes| * classes[0].width <= |reply.values|
    ensures var r := Poll(classes, previous, timeWait, now, reply);
      r.windows.Some? ==>
        && |r.windows.value| == |classes|
        && (forall i :: 0 <= i < |classes| ==> |r.windows.value[i]| == classes[0].width)
        && Flatten(r.windows.value) == reply.values[..|classes| * classes[0].width]
  {
    var r := Poll(classes, previous, timeWait, now, reply);
    if r.windows.Some? {
      WindowsShape(reply.values, classes[0].width, |classes|);
    }
  }

  lemma WindowsShape(values: seq<int>, w: nat, n: nat)
    requires n * w <= |values|
    ensures Flatten(Windows(values, w, n)) == values[..n * w]
    ensures forall i :: 0 <= i < n ==> |Windows(values, w, n)[i]| == w
  {
    var ws := Windows(values, w, n);
    forall i | 0 <= i < n
      ensures |ws[i]| == w
    {
      WindowsFull(values, w, n, i);
      assert ws[i] == Window(values, w, i);
    }
    WindowsTile(values, w, n);
  }

  datatype Processor = Processor(timestamp: Option<int>, entities: seq<Sink>, timeWait: int)

  function Classes(es: seq<Sink>): (r: seq<UnitClass>)
    ensures |r| == |es| && forall i :: 0 <= i < |es| ==> r[i] == es[i].cls
  {
    seq(|es|, i requires 0 <= i < |es| => es[i].cls)
  }

  function PollOf(p: Processor, clock: int, reply: ReadReply): PollResult {
    Poll(Classes(p.entities), p.timestamp, p.timeWait, clock, reply)
  }

  /** Every group's poll; the classes are fixed, so this needs no heap. */
  function Polls(ps: seq<Processor>, clocks: seq<int>, replies: seq<ReadReply>): (rs: seq<PollResult>)
    requires |clocks| == |ps| && |replies| == |ps|
    ensures |rs| == |ps| && forall j :: 0 <= j < |ps| ==> rs[j] == PollOf(ps[j], clocks[j], replies[j])
  {
    seq(|ps|, j requires 0 <= j < |ps| => PollOf(ps[j], clocks[j], replies[j]))
  }

  /** The first group whose poll raises, or the number of groups. */
  function FirstFailure(rs: seq<PollResult>): (k: nat)
    ensures k <= |rs|
    ensures forall i :: 0 <= i < k ==> rs[i].result.Success?
    ensures k < |rs| ==> rs[k].result.Failure?
  {
    FailureFrom(rs, 0)
  }

  /** The first group at or after `from` whose poll raised, or |rs|. */
  function FailureFrom(rs: seq<PollResult>, from: nat): (k: nat)
    requires from <= |rs|
    ensures from <= k <= |rs|
    ensures forall i :: from <= i < k ==> rs[i].result.Success?
    ensures k < |rs| ==> rs[k].result.Failure?
    decreases |rs| - from
  {
    if from == |rs| || rs[from].result.Failure? then from else FailureFrom(rs, from + 1)
  }

  lemma FirstFailureAt(rs: seq<PollResult>, j: nat)
    requires j <= |rs| && forall k :: 0 <= k < j ==> rs[k].result.Success?
    requires j < |rs| ==> rs[j].result.Failure?
    ensures FirstFailure(rs) == j
  {
    var f := FirstFailure(rs);
    assert f < |rs| ==> !rs[f].result.Success?;
  }

  /** How many groups a step serves: up to and including the first that
      raises, or all of them. */
  function Served(rs: seq<PollResult>): (n: nat)
    ensures n <= |rs|
  {
    var f := FirstFailure(rs);
    if f < |rs| then f + 1 else f
  }

  function AllReads(rs: seq<PollResult>): seq<ReadRequest> {
    if rs == [] then []
    else AllReads(rs[..|rs| - 1]) + (if rs[|rs| - 1].read.Some? then [rs[|rs| - 1].read.value] else [])
  }

  /** The timestamps a step in which every poll succeeded returns. */
  function Stamps(rs: seq<PollResult>): (r: seq<Option<int>>)
    requires forall j :: 0 <= j < |rs| ==> rs[j].result.Success?
    ensures |r| == |rs| && forall j :: 0 <= j < |rs| ==> r[j] == rs[j].result.value
  {
    seq(|rs|, j requires 0 <= j < |rs| => rs[j].result.value)
  }

  /** The processors with new timestamps: each keeps its entities and wait. */
  function Retimed(ps: seq<Processor>, stamps: seq<Option<int>>): (r: seq<Processor>)
    requires |stamps| == |ps|
    ensures |r| == |ps| && forall j :: 0 <= j < |ps| ==> r[j] == ps[j].(timestamp := stamps[j])
  {
    seq(|ps|, j requires 0 <= j < |ps| => ps[j].(timestamp := stamps[j]))
  }

  predicate Distinct(es: seq<Sink>) {
    forall i, j :: 0 <= i < j < |es| ==> es[i] != es[j]
  }

  ghost function AllSinks(ps: seq<Processor>): set<Sink> {
    set j, i | 0 <= j < |ps| && 0 <= i < |ps[j].entities| :: ps[j].entities[i]
  }

  /** What the entities of one group have been handed so far. */
  ghost function Received(es: seq<Sink>): (r: seq<seq<Sample>>)
    reads set e | e in es
    ensures |r| == |es| && forall i :: 0 <= i < |es| ==> r[i] == es[i].received
  {
    seq(|es|, i reads set e | e in es requires 0 <= i < |es| => es[i].received)
  }

  /** The samples of every group's entities. */
  ghost function Logs(ps: seq<Processor>): (r: seq<seq<seq<Sample>>>)
    reads AllSinks(ps)
    ensures |r| == |ps| && forall j :: 0 <= j < |ps| ==> r[j] == Received(ps[j].entities)
  {
    seq(|ps|, j reads set e | 0 <= j < |ps| && e in ps[j].entities requires 0 <= j < |ps| => Received(ps[j].entities))
  }

  /** One group's samples after its poll: entity i gets the i-th window,
      stamped with the clock, when the poll hands windows out. */
  function Fed(log: seq<seq<Sample>>, p: PollResult, clock: int): (r: seq<seq<Sample>>)
    ensures |r| == |log|
    ensures forall i :: 0 <= i < |log| ==>
      r[i] == log[i] + (if p.windows.Some? && i < |p.windows.value| then [Sample(clock, p.windows.value[i])] else [])
  {
    seq(|log|, i requires 0 <= i < |log| =>
      log[i] + (if p.windows.Some? && i < |p.windows.value| then [Sample(clock, p.windows.value[i])] else []))
  }

  /** A poll that hands out no windows feeds nobody. */
  lemma FedIdle(log: seq<seq<Sample>>, p: PollResult, clock: int)
    requires p.windows.None?
    ensures Fed(log, p, clock) == log
  {
    var r := Fed(log, p, clock);
    forall i | 0 <= i < |log|
      ensures r[i] == log[i]
    {
      assert r[i] == log[i] + [];
    }
  }

  /** The samples after the first n groups were served: those groups fed by
      their polls, the others as they were. */
  function Extended(logs: seq<seq<seq<Sample>>>, rs: seq<PollResult>, n: nat, clocks: seq<int>): (r: seq<seq<seq<Sample>>>)
    requires |rs| == |logs| && |clocks| == |logs|
    ensures |r| == |logs| && forall j :: 0 <= j < |logs| ==> r[j] == if j < n then Fed(logs[j], rs[j], clocks[j]) else logs[j]
  {
    seq(|logs|, j requires 0 <= j < |logs| => if j < n then Fed(logs[j], rs[j], clocks[j]) else logs[j])
  }

  /** Each group was made by `register_entity_set`: its entities stand over
      one class at their positions, a non-empty group has a timestamp, and
      no entity is in two places. */
  predicate ValidGroups(ps: seq<Processor>) {
    && (forall j :: 0 <= j < |ps| ==>
          && (forall i :: 0 <= i < |ps[j].entities| ==>
                ps[j].entities[i].cls == ps[j].entities[0].cls && ps[j].entities[i].idx == i)
          && (|ps[j].entities| > 0 ==> ps[j].timestamp.Some?))
    && (forall j1, i1, j2, i2 ::
          0 <= j1 < |ps| && 0 <= i1 < |ps[j1].entities| &&
          0 <= j2 < |ps| && 0 <= i2 < |ps[j2].entities| &&
          (j1 != j2 || i1 != i2) ==>
          ps[j1].entities[i1] != ps[j2].entities[i2])
  }

  /** A new group of distinct entities over one class, at their positions,
      that belong to no other group keeps the groups valid. */
  lemma AppendGroup(ps: seq<Processor>, p: Processor)
    requires ValidGroups(ps) && Distinct(p.entities)
    requires forall i :: 0 <= i < |p.entities| ==> p.entities[i].cls == p.entities[0].cls && p.entities[i].idx == i
    requires |p.entities| > 0 ==> p.timestamp.Some?
    requires forall i :: 0 <= i < |p.entities| ==> p.entities[i] !in AllSinks(ps)
    ensures ValidGroups(ps + [p])
  {
    var qs := ps + [p];
    forall j1, i1, j2, i2 |
      0 <= j1 < |qs| && 0 <= i1 < |qs[j1].entities| &&
      0 <= j2 < |qs| && 0 <= i2 < |qs[j2].entities| && (j1 != j2 || i1 != i2)
      ensures qs[j1].entities[i1] != qs[j2].entities[i2]
    {
      if j1 == |ps| && j2 < |ps| {
        assert qs[j2].entities[i2] in AllSinks(ps);
      } else if j2 == |ps| && j1 < |ps| {
        assert qs[j1].entities[i1] in AllSinks(ps);
      } else if j1 == |ps| && j2 == |ps| {
        if i1 < i2 { assert p.entities[i1] != p.entities[i2]; }
        else { assert p.entities[i2] != p.entities[i1]; }
      }
    }
  }

  /** The entities of one valid group are distinct. */
  lemma GroupOfValid(ps: seq<Processor>, j: nat)
    requires ValidGroups(ps) && j < |ps|
    ensures Distinct(ps[j].entities)
  {
  }

  /** Two valid groups share no entity. */
  lemma GroupsApart(ps: seq<Processor>, j: nat, k: nat)
    requires ValidGroups(ps) && j < |ps| && k < |ps| && j != k
    ensures forall e :: e in ps[k].entities ==> e !in ps[j].entities
  {
    forall e | e in ps[k].entities
      ensures e !in ps[j].entities
    {
      var a :| 0 <= a < |ps[k].entities| && ps[k].entities[a] == e;
      assert forall b :: 0 <= b < |ps[j].entities| ==> ps[k].entities[a] != ps[j].entities[b];
    }
  }

  /** New timestamps keep the groups valid when every non-empty group gets one. */
  lemma RetimedValid(ps: seq<Processor>, stamps: seq<Option<int>>)
    requires ValidGroups(ps) && |stamps| == |ps|
    requires forall j :: 0 <= j < |ps| && |ps[j].entities| > 0 ==> stamps[j].Some?
    ensures ValidGroups(Retimed(ps, stamps))
  {
    var qs := Retimed(ps, stamps);
    assert forall j :: 0 <= j < |ps| ==> qs[j].entities == ps[j].entities;
  }

  /** In valid groups no poll meets the TypeError, and one that does not
      raise leaves a timestamp in a non-empty group. */
  lemma PollsStamped(ps: seq<Processor>, clocks: seq<int>, replies: seq<ReadReply>)
    requires ValidGroups(ps) && |clocks| == |ps| && |replies| == |ps|
    ensures var rs := Polls(ps, clocks, replies);
      forall j :: 0 <= j < |ps| ==>
        && rs[j].result != Failure(TypeError)
        && (|ps[j].entities| > 0 && rs[j].result.Success? ==> rs[j].result.value.Some?)
  {
    forall j | 0 <= j < |ps|
      ensures Polls(ps, clocks, replies)[j].result != Failure(TypeError)
      ensures |ps[j].entities| > 0 && Polls(ps, clocks, replies)[j].result.Success? ==>
        Polls(ps, clocks, replies)[j].result.value.Some?
    {
      PollTimestamps(Classes(ps[j].entities), ps[j].timestamp, ps[j].timeWait, clocks[j], replies[j]);
    }
  }

  /** A step that raises nowhere moves a group's timestamp to that group's
      clock reading exactly when the group was due, keeps it otherwise, and
      leaves an empty group without one. */
  lemma StepStamps(ps: seq<Processor>, clocks: seq<int>, replies: seq<ReadReply>)
    requires ValidGroups(ps) && |clocks| == |ps| && |replies| == |ps|
    requires forall j :: 0 <= j < |ps| ==> Polls(ps, clocks, replies)[j].result.Success?
    ensures forall j :: 0 <= j < |ps| ==>
      Stamps(Polls(ps, clocks, replies))[j] ==
        (if |ps[j].entities| == 0 then None
         else if Due(ps[j].timestamp.value, ps[j].timeWait, clocks[j]) then Some(clocks[j])
         else ps[j].timestamp)
  {
    var rs := Polls(ps, clocks, replies);
    forall j | 0 <= j < |ps|
      ensures Stamps(rs)[j] ==
        if |ps[j].entities| == 0 then None
        else if Due(ps[j].timestamp.value, ps[j].timeWait, clocks[j]) then Some(clocks[j])
        else ps[j].timestamp
    {
      assert rs[j] == PollOf(ps[j], clocks[j], replies[j]);
    }
  }

  /** One more group's timestamp. */
  lemma StampsSnoc(rs: seq<PollResult>, j: nat)
    requires j < |rs| && forall k :: 0 <= k <= j ==> rs[k].result.Success?
    ensures Stamps(rs[..j + 1]) == Stamps(rs[..j]) + [rs[j].result.value]
  {
  }

  /** One more group's poll on the list of everything read. */
  lemma AllSnoc(rs: seq<PollResult>, j: nat)
    requires j < |rs|
    ensures AllReads(rs[..j + 1]) == AllReads(rs[..j]) + (if rs[j].read.Some? then [rs[j].read.value] else [])
  {
    assert rs[..j + 1][..j] == rs[..j];
  }

  class Gateway {
    const udp: UdpClient
    const tcp: TcpClient
    var processors: seq<Processor>

    /** Each group was made by `register_entity_set`: see ValidGroups. */
    predicate Valid()
      reads this
    {
      ValidGroups(processors)
    }

    /** `Gateway.__init__`; the availability message goes straight to the
        MQTT client, which is not modelled here. */
    constructor ()
      ensures Valid() && processors == [] && fresh(udp) && fresh(tcp)
      ensures udp.requests == [] && tcp.sent == []
    {
      udp := new UdpClient();
      tcp := new TcpClient();
      processors := [];
    }

    /** `modbus_write_coils`: a list goes out as one multiple-coil request,
        anything else as a single-coil request. */
    method ModbusWriteCoils(address: int, data: Data<bool>)
      modifies tcp
      ensures tcp.sent == old(tcp.sent) + [CoilRequest(address, data)]
      ensures tcp.open == old(tcp.open) && tcp.connects == old(tcp.connects)
    {
      tcp.Send(CoilRequest(address, data));
    }

    /** `modbus_write_registers`, by the same rule. */
    method ModbusWriteRegisters(address: int, data: Data<int>)
      modifies tcp
      ensures tcp.sent == old(tcp.sent) + [RegisterRequest(address, data)]
      ensures tcp.open == old(tcp.open) && tcp.connects == old(tcp.connects)
    {
      tcp.Send(RegisterRequest(address, data));
    }

    /** `Gateway.__process_entities`, given the clock reading and the
        device's answer to the bulk read. */
    method ProcessEntities(entities: seq<Sink>, timeWait: int, previous: Option<int>, now: int, reply: ReadReply)
      returns (r: Result<Option<int>>)
      requires Distinct(entities)
      modifies (set e | e in entities), udp
      ensures var p := Poll(Classes(entities), previous, timeWait, now, reply);
        && r == p.result
        && udp.requests == old(udp.requests) + (if p.read.Some? then [p.read.value] else [])
        && Received(entities) == Fed(old(Received(entities)), p, now)
    {
      ghost var p := Poll(Classes(entities), previous, timeWait, now, reply);
      if |entities| == 0 || previous.None? || !(now - previous.value > timeWait) {
        FedIdle(Received(entities), p, now);
        r := if |entities| == 0 then Success(None) else if previous.None? then Failure(TypeError) else Success(previous);
        return;
      }
      var cls := entities[0].cls;
      var count := cls.width * |entities|;
      var request: ReadRequest;
      if cls.unit == 1 {
        request := ReadCoils(cls.readOffset, count);
      } else if cls.unit == 16 {
        request := ReadHoldingRegisters(cls.readOffset, count);
      } else {
        FedIdle(Received(entities), p, now);
        return Failure(UnsupportedUnit);
      }
      udp.requests := udp.requests + [request];
      if reply.ReadFailed? {
        FedIdle(Received(entities), p, now);
        return Failure(TransportFailure);
      }
      var values := reply.values;
      ghost var windows := Windows(values, cls.width, |entities|);
      // The source advances an offset by the width on each pass; pass k
      // slices out the k-th window.
      var k: nat := 0;
      while k < |entities|
        invariant k <= |entities|
        invariant udp.requests == old(udp.requests) + [request]
        invariant forall i :: 0 <= i < |entities| ==>
          entities[i].received == old(entities[i].received) + (if i < k then [Sample(now, windows[i])] else [])
      {
        entities[k].OnModbusData(now, Window(values, cls.width, k));
        k := k + 1;
      }
      return Success(Some(now));
    }

    /** `Gateway.register_entity_set`: item_count entities of the class, at
        indices 0 .. item_count - 1, in a new group with timestamp 0. */
    method RegisterEntitySet(cls: UnitClass, itemCount: nat, timeWait: int)
      requires Valid()
      modifies this
      ensures Valid()
      ensures |processors| == |old(processors)| + 1 && processors[..|old(processors)|] == old(processors)
      ensures var p := processors[|old(processors)|];
        && p.timestamp == Some(0) && p.timeWait == timeWait && |p.entities| == itemCount
        && forall i :: 0 <= i < itemCount ==>
             fresh(p.entities[i]) && p.entities[i].cls == cls && p.entities[i].idx == i && p.entities[i].received == []
    {
      var entities: seq<Sink> := [];
      while |entities| < itemCount
        invariant processors == old(processors)
        invariant |entities| <= itemCount && Distinct(entities)
        invariant forall i :: 0 <= i < |entities| ==>
          fresh(entities[i]) && entities[i].cls == cls && entities[i].idx == i && entities[i].received == []
      {
        var e := new Sink(cls, |entities|);
        entities := entities + [e];
      }
      var p := Processor(Some(0), entities, timeWait);
      forall i | 0 <= i < |entities|
        ensures entities[i] !in AllSinks(processors)
      {
        forall j, i' | 0 <= j < |processors| && 0 <= i' < |processors[j].entities|
          ensures processors[j].entities[i'] != entities[i]
        {
          assert old(allocated(processors[j].entities[i']));
        }
      }
      AppendGroup(processors, p);
      processors := processors + [p];
    }

    /** `Gateway.modbus_step`: poll every group in order and store the
        timestamps they return; a poll that raises ends the step with the
        processors as they were, after the groups before it were served. */
    method ModbusStep(clocks: seq<int>, replies: seq<ReadReply>) returns (failure: Option<Exception>)
      requires Valid() && |clocks| == |processors| && |replies| == |processors|
      modifies AllSinks(processors), this, udp
      ensures Valid()
      ensures var rs := Polls(old(processors), clocks, replies); var f := FirstFailure(rs);
        && failure == (if f < |rs| then Some(rs[f].result.error) else None)
        && processors == (if f < |rs| then old(processors) else Retimed(old(processors), Stamps(rs)))
        && udp.requests == old(udp.requests) + AllReads(rs[..Served(rs)])
        && Logs(processors) == Extended(old(Logs(processors)), rs, Served(rs), clocks)
    {
      var stamps;
      failure, stamps := PollAll(clocks, replies);
      if failure.None? {
        PollsStamped(processors, clocks, replies);
        Retime(stamps);
      }
    }

    /** The assignment that ends `modbus_step`: every group gets its new
        timestamp and keeps its entities. */
    method Retime(stamps: seq<Option<int>>)
      requires Valid() && |stamps| == |processors|
      requires forall j :: 0 <= j < |processors| && |processors[j].entities| > 0 ==> stamps[j].Some?
      modifies this
      ensures Valid() && processors == Retimed(old(processors), stamps)
      ensures Logs(processors) == old(Logs(processors))
    {
      RetimedValid(processors, stamps);
      ghost var ps := processors;
      processors := Retimed(processors, stamps);
      assert forall k :: 0 <= k < |processors| ==> processors[k].entities == ps[k].entities;
      assert Logs(processors) == Logs(ps);
    }

    /** The loop of `modbus_step`, which leaves the processors themselves
        alone: the timestamps it gathers when no poll raises. */
    method PollAll(clocks: seq<int>, replies: seq<ReadReply>) returns (failure: Option<Exception>, stamps: seq<Option<int>>)
      requires Valid() && |clocks| == |processors| && |replies| == |processors|
      modifies AllSinks(processors), udp
      ensures var rs := Polls(processors, clocks, replies); var f := FirstFailure(rs);
        && failure == (if f < |rs| then Some(rs[f].result.error) else None)
        && (f == |rs| ==> stamps == Stamps(rs))
        && udp.requests == old(udp.requests) + AllReads(rs[..Served(rs)])
        && Logs(processors) == Extended(old(Logs(processors)), rs, Served(rs), clocks)
    {
      ghost var before := Logs(processors);
      ghost var rs := Polls(processors, clocks, replies);
      stamps := [];
      var j := 0;
      while j < |processors|
        invariant j <= |processors| == |rs| && (forall k :: 0 <= k < j ==> rs[k].result.Success?)
        invariant stamps == Stamps(rs[..j])
        invariant Logs(processors) == Extended(before, rs, j, clocks)
        invariant udp.requests == old(udp.requests) + AllReads(rs[..j])
      {
        var r := PollGroup(j, clocks, replies, rs, before, old(udp.requests));
        if r.Failure? {
          FirstFailureAt(rs, j);
          return Some(r.error), stamps;
        }
        StampsSnoc(rs, j);
        stamps := stamps + [r.value];
        j := j + 1;
      }
      FirstFailureAt(rs, j);
      assert rs[..j] == rs;
      failure := None;
    }

    /** One group's turn in that step: the groups before j are served. */
    method PollGroup(j: nat, clocks: seq<int>, replies: seq<ReadReply>, ghost rs: seq<PollResult>,
                     ghost before: seq<seq<seq<Sample>>>, ghost requests: seq<ReadRequest>)
      returns (r: Result<Option<int>>)
      requires Valid() && j < |processors| && |clocks| == |processors| && |replies| == |processors|
      requires rs == Polls(processors, clocks, replies) && |before| == |processors|
      requires Logs(processors) == Extended(before, rs, j, clocks)
      requires udp.requests == requests + AllReads(rs[..j])
      modifies (set e | e in processors[j].entities), udp
      ensures r == rs[j].result
      ensures Logs(processors) == Extended(before, rs, j + 1, clocks)
      ensures udp.requests == requests + AllReads(rs[..j + 1])
    {
      var p := processors[j];
      GroupOfValid(processors, j);
      AllSnoc(rs, j);
      AppendAssoc(requests, AllReads(rs[..j]), if rs[j].read.Some? then [rs[j].read.value] else []);
      assert Received(p.entities) == before[j];
      r := ProcessEntities(p.entities, p.timeWait, p.timestamp, clocks[j], replies[j]);
      forall k | 0 <= k < |processors|
        ensures Logs(processors)[k] == Extended(before, rs, j + 1, clocks)[k]
      {
        if k != j {
          GroupsApart(processors, j, k);
          assert Received(processors[k].entities) == old(Received(processors[k].entities));
        }
      }
    }
  }
}
