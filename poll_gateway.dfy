/** The polling gateway of modbus-mqtt/gateway/gateway.py: groups of
    entities over one Modbus class, each polled by one bulk read whose items
    are handed out window by window, and the write helpers entities call. */
module PollGateway {
  import opened Py
  import opened Modbus
  import opened Entities
  import EntityProperties

  const AvailabilityTopic := "plc/availability"

  /** Set on the MQTT client before it connects: the broker publishes it,
      retained, when the gateway goes away. */
  const LastWill := Publish(AvailabilityTopic, Text("offline"), true)

  // ---------------------------------------------------------------------
  // Polling one group, on values

  /** The bulk read a group needs: `data_size * n` items from the class's
      read offset, by the class's data type. */
  function ReadRequestFor(cls: ModbusClass, n: nat): Result<ReadRequest> {
    if cls.dataType == Coil then Success(ReadCoils(cls.readOffset, cls.dataSize * n))
    else if cls.dataType == Register then Success(ReadHoldingRegisters(cls.readOffset, cls.dataSize * n))
    else Failure(UnsupportedReadType)
  }

  /** What one entity does with one sample, as `Entity.on_modbus_data`
      (Process) does it. Delivery is stated for any step that checks the
      sample's length first, so its lemmas rest on these facts alone and
      not on the entity state machines. */
  type Step = (Descriptor, EntityState, int, seq<int>) -> Outcome

  /** A step refuses a sample of the wrong length, changing nothing, and an
      accepted entity of positive data size takes a sample of its size. */
  ghost predicate Checked(step: Step) {
    && (forall d: Descriptor, s: EntityState, now: int, data: seq<int> :: |data| != d.cls.dataSize ==> step(d, s, now, data) == Outcome(s, [], Some(DataLength)))
    && (forall d: Descriptor, s: EntityState, now: int, data: seq<int> ::
          ConstructionCheck(d.cls, d.kind).None? && d.cls.dataSize > 0 && |data| == d.cls.dataSize ==>
          step(d, s, now, data).failure.None?)
  }

  datatype Delivery = Delivery(states: seq<EntityState>, published: seq<Publish>, failure: Option<Exception>)

  /** The first k entities handed their windows of one read, in order; the
      first that raises stops the rest. */
  function Deliver(step: Step, ds: seq<Descriptor>, ss: seq<EntityState>, now: int, values: seq<int>, width: nat, k: nat): (r: Delivery)
    requires |ds| == |ss| && k <= |ds|
    ensures |r.states| == |ss|
    ensures forall i :: k <= i < |ss| ==> r.states[i] == ss[i]
  {
    if k == 0 then Delivery(ss, [], None)
    else
      var r := Deliver(step, ds, ss, now, values, width, k - 1);
      if r.failure.Some? then r
      else
        var o := step(ds[k - 1], r.states[k - 1], now, Window(values, width, k - 1));
        Delivery(r.states[k - 1 := o.next], r.published + o.published, o.failure)
  }

  datatype PollResult = PollResult(
    states: seq<EntityState>,
    published: seq<Publish>,
    read: Option<ReadRequest>,
    result: Result<Option<int>>)

  /** The poll is due when more than `time_wait` ms have passed. */
  predicate Due(previous: int, timeWait: int, now: int) {
    now - previous > timeWait
  }

  /** `Gateway.__process_entities` on the group's descriptors and states:
      the timestamp it returns, what the entities become and publish, and
      the bulk read it issues. The group's class is its first entity's. */
  function Poll(ds: seq<Descriptor>, ss: seq<EntityState>, previous: Option<int>, timeWait: int, now: int, reply: ReadReply): (r: PollResult)
    requires |ds| == |ss|
    ensures |r.states| == |ss|
  {
    if |ds| == 0 then PollResult(ss, [], None, Success(None))
    else if previous.None? then PollResult(ss, [], None, Failure(TypeError))
    else if !Due(previous.value, timeWait, now) then PollResult(ss, [], None, Success(previous))
    else
      var cls := ds[0].cls;
      match ReadRequestFor(cls, |ds|)
      case Failure(e) => PollResult(ss, [], None, Failure(e))
      case Success(request) =>
        if reply.ReadFailed? then PollResult(ss, [], Some(request), Failure(TransportFailure))
        else
          var dv := Deliver(Process, ds, ss, now, reply.values, cls.dataSize, |ds|);
          PollResult(dv.states, dv.published, Some(request),
                     if dv.failure.Some? then Failure(dv.failure.value) else Success(Some(now)))
  }

  /** The poll as written: the data type is compared with `ModbusClass.COIL`,
      an attribute ModbusClass does not have, so a due poll raises before it
      reads anything. */
  function PollAsWritten(ds: seq<Descriptor>, ss: seq<EntityState>, previous: Option<int>, timeWait: int, now: int): (r: PollResult)
    requires |ds| == |ss|
  {
    if |ds| == 0 then PollResult(ss, [], None, Success(None))
    else if previous.None? then PollResult(ss, [], None, Failure(TypeError))
    else if !Due(previous.value, timeWait, now) then PollResult(ss, [], None, Success(previous))
    else PollResult(ss, [], None, Failure(AttributeError))
  }

  /** The group's entities all stand over the class of the first, at the
      positions they were created for. */
  predicate Group(ds: seq<Descriptor>) {
    forall i :: 0 <= i < |ds| ==> ds[i].cls == ds[0].cls && ds[i].idx == i
  }

  /** Every entity of the group accepts a sample of the class's width. */
  predicate AcceptsWidth(ds: seq<Descriptor>) {
    forall i :: 0 <= i < |ds| ==>
      ConstructionCheck(ds[i].cls, ds[i].kind).None? && ds[i].cls.dataSize > 0
  }

  // ---------------------------------------------------------------------
  // What a poll does

  /** The poll that is not due changes nothing and keeps the timestamp. */
  lemma PollNotDue(ds: seq<Descriptor>, ss: seq<EntityState>, previous: int, timeWait: int, now: int, reply: ReadReply)
    requires |ds| == |ss| && |ds| > 0 && !Due(previous, timeWait, now)
    ensures Poll(ds, ss, Some(previous), timeWait, now, reply) == PollResult(ss, [], None, Success(Some(previous)))
  {
  }

  /** An empty group always answers None and never reads, so the None it
      stores is harmless; a non-empty group never answers None, so the
      TypeError of `now - None` cannot arise from its own answers. */
  lemma PollTimestamps(ds: seq<Descriptor>, ss: seq<EntityState>, previous: Option<int>, timeWait: int, now: int, reply: ReadReply)
    requires |ds| == |ss|
    ensures |ds| == 0 ==> Poll(ds, ss, previous, timeWait, now, reply) == PollResult(ss, [], None, Success(None))
    ensures |ds| > 0 && previous.Some? && Poll(ds, ss, previous, timeWait, now, reply).result.Success? ==>
      Poll(ds, ss, previous, timeWait, now, reply).result.value.Some?
    ensures |ds| > 0 && previous.None? ==> Poll(ds, ss, previous, timeWait, now, reply).result == Failure(TypeError)
  {
  }

  /** A due poll reads `data_size * n` items from the read offset, with the
      function the data type calls for, and answers with the current time
      when every entity took its window. */
  lemma PollDueReads(ds: seq<Descriptor>, ss: seq<EntityState>, previous: int, timeWait: int, now: int, reply: ReadReply)
    requires |ds| == |ss| && |ds| > 0 && Due(previous, timeWait, now)
    requires SupportedType(ds[0].cls.dataType)
    ensures var r := Poll(ds, ss, Some(previous), timeWait, now, reply);
      var cls := ds[0].cls;
      && r.read == Some(if cls.dataType == Coil then ReadCoils(cls.readOffset, cls.dataSize * |ds|)
                        else ReadHoldingRegisters(cls.readOffset, cls.dataSize * |ds|))
      && (reply.ReadFailed? ==> r.result == Failure(TransportFailure) && r.states == ss && r.published == [])
      && (reply.Values? && Deliver(Process, ds, ss, now, reply.values, cls.dataSize, |ds|).failure.None? ==>
            r.result == Success(Some(now)))
  {
  }

  /** As written, a due poll of a non-empty group raises AttributeError
      and reads nothing, whatever the data type; otherwise it agrees with
      the corrected poll. */
  lemma PollAsWrittenRaises(ds: seq<Descriptor>, ss: seq<EntityState>, previous: Option<int>, timeWait: int, now: int, reply: ReadReply)
    requires |ds| == |ss|
    ensures var r := PollAsWritten(ds, ss, previous, timeWait, now);
      if |ds| > 0 && previous.Some? && Due(previous.value, timeWait, now) then
        r.result == Failure(AttributeError) && r.read == None && r.published == []
      else r == Poll(ds, ss, previous, timeWait, now, reply)
  {
  }

  /** A sample of the right length is taken by every accepted entity of
      positive data size. */
  lemma ProcessAccepts(d: Descriptor, s: EntityState, now: int, data: seq<int>)
    requires ConstructionCheck(d.cls, d.kind).None? && d.cls.dataSize > 0 && |data| == d.cls.dataSize
    ensures Process(d, s, now, data).failure.None?
  {
  }

  lemma ProcessRejectsLength(d: Descriptor, s: EntityState, now: int, data: seq<int>)
    requires |data| != d.cls.dataSize
    ensures Process(d, s, now, data) == Outcome(s, [], Some(DataLength))
  {
  }

  /** Process is such a step. */
  lemma ProcessChecked()
    ensures Checked(Process)
  {
    forall d: Descriptor, s: EntityState, now: int, data: seq<int> | |data| != d.cls.dataSize
      ensures Process(d, s, now, data) == Outcome(s, [], Some(DataLength))
    {
      ProcessRejectsLength(d, s, now, data);
    }
    forall d: Descriptor, s: EntityState, now: int, data: seq<int> | ConstructionCheck(d.cls, d.kind).None? && d.cls.dataSize > 0 && |data| == d.cls.dataSize
      ensures Process(d, s, now, data).failure.None?
    {
      ProcessAccepts(d, s, now, data);
    }
  }

  /** Enough items read: every entity is handed its own window, which is
      full (see WindowsFull), and none raises. */
  lemma {:induction false} DeliverFanOut(step: Step, ds: seq<Descriptor>, ss: seq<EntityState>, now: int, values: seq<int>, width: nat, k: nat)
    requires |ds| == |ss| && k <= |ds|
    requires Checked(step) && Group(ds) && AcceptsWidth(ds) && |ds| > 0 && ds[0].cls.dataSize == width
    requires |ds| * width <= |values|
    ensures var r := Deliver(step, ds, ss, now, values, width, k);
      && r.failure.None?
      && forall i :: 0 <= i < k ==> r.states[i] == step(ds[i], ss[i], now, Window(values, width, i)).next
  {
    if k > 0 {
      DeliverFanOut(step, ds, ss, now, values, width, k - 1);
      var r := Deliver(step, ds, ss, now, values, width, k - 1);
      assert r.failure.None? && r.states[k - 1] == ss[k - 1];
      var data := Window(values, width, k - 1);
      var o := step(ds[k - 1], ss[k - 1], now, data);
      MemberAccepts(step, ds, ss[k - 1], now, values, width, k - 1);
      DeliverUnfold(step, ds, ss, now, values, width, k);
      var next := Deliver(step, ds, ss, now, values, width, k);
      assert next == Delivery(r.states[k - 1 := o.next], r.published + o.published, None);
      forall i | 0 <= i < k
        ensures next.states[i] == step(ds[i], ss[i], now, Window(values, width, i)).next
      {
        if i < k - 1 {
          assert next.states[i] == r.states[i];
        }
      }
    }
  }

  /** Entity i of a group takes its full window without raising. */
  lemma MemberAccepts(step: Step, ds: seq<Descriptor>, s: EntityState, now: int, values: seq<int>, width: nat, i: nat)
    requires Checked(step) && Group(ds) && AcceptsWidth(ds) && i < |ds| && ds[0].cls.dataSize == width
    requires |ds| * width <= |values|
    ensures step(ds[i], s, now, Window(values, width, i)).failure.None?
  {
    WindowsFull(values, width, |ds|, i);
    assert ds[i].cls == ds[0].cls;
  }

  /** One more entity served, when none raised so far. */
  lemma DeliverUnfold(step: Step, ds: seq<Descriptor>, ss: seq<EntityState>, now: int, values: seq<int>, width: nat, k: nat)
    requires |ds| == |ss| && 0 < k <= |ds|
    requires Deliver(step, ds, ss, now, values, width, k - 1).failure.None?
    ensures var r := Deliver(step, ds, ss, now, values, width, k - 1);
      var o := step(ds[k - 1], ss[k - 1], now, Window(values, width, k - 1));
      Deliver(step, ds, ss, now, values, width, k) == Delivery(r.states[k - 1 := o.next], r.published + o.published, o.failure)
  {
    var r := Deliver(step, ds, ss, now, values, width, k - 1);
    assert r.states[k - 1] == ss[k - 1];
  }

  /** One more entity processed, from the delivery so far: d, s and data
      are the entity's descriptor, state and window. */
  lemma DeliverStep(step: Step, ds: seq<Descriptor>, ss: seq<EntityState>, now: int, values: seq<int>, width: nat, k: nat, r: Delivery,
                    d: Descriptor, s: EntityState, data: seq<int>)
    requires |ds| == |ss| && k < |ds|
    requires r == Deliver(step, ds, ss, now, values, width, k) && r.failure.None?
    requires d == ds[k] && s == r.states[k] && data == Window(values, width, k)
    ensures var o := step(d, s, now, data);
      Deliver(step, ds, ss, now, values, width, k + 1) == Delivery(r.states[k := o.next], r.published + o.published, o.failure)
  {
  }

  /** ... and they publish, in entity order, what each publishes for its
      window from its own state. */
  lemma {:induction false} DeliverPublishes(step: Step, ds: seq<Descriptor>, ss: seq<EntityState>, now: int, values: seq<int>, width: nat, k: nat)
    requires |ds| == |ss| && k <= |ds|
    requires Checked(step) && Group(ds) && AcceptsWidth(ds) && |ds| > 0 && ds[0].cls.dataSize == width
    requires |ds| * width <= |values|
    ensures Deliver(step, ds, ss, now, values, width, k).published == EachPublishes(step, ds, ss, now, values, width, k)
  {
    if k > 0 {
      DeliverPublishes(step, ds, ss, now, values, width, k - 1);
      DeliverFanOut(step, ds, ss, now, values, width, k - 1);
      DeliverUnfold(step, ds, ss, now, values, width, k);
      var r := Deliver(step, ds, ss, now, values, width, k - 1);
      var o := step(ds[k - 1], ss[k - 1], now, Window(values, width, k - 1));
      assert Deliver(step, ds, ss, now, values, width, k).published == r.published + o.published;
      assert EachPublishes(step, ds, ss, now, values, width, k) == EachPublishes(step, ds, ss, now, values, width, k - 1) + o.published;
    }
  }

  /** What each of the first k entities publishes when handed its window
      from its own state, independently of the others. */
  function EachPublishes(step: Step, ds: seq<Descriptor>, ss: seq<EntityState>, now: int, values: seq<int>, width: nat, k: nat): seq<Publish>
    requires |ds| == |ss| && k <= |ds|
  {
    if k == 0 then []
    else
      var own := step(ds[k - 1], ss[k - 1], now, Window(values, width, k - 1));
      EachPublishes(step, ds, ss, now, values, width, k - 1) + own.published
  }

  /** Too few items read: the entity whose window is cut short, number
      |values| / width, raises the length error; those before it took their
      windows and those from it on are untouched. */
  lemma DeliverShort(step: Step, ds: seq<Descriptor>, ss: seq<EntityState>, now: int, values: seq<int>, width: nat)
    requires |ds| == |ss|
    requires Checked(step) && Group(ds) && AcceptsWidth(ds) && |ds| > 0 && ds[0].cls.dataSize == width
    requires |values| < |ds| * width
    ensures var q := |values| / width;
      var r := Deliver(step, ds, ss, now, values, width, |ds|);
      && q < |ds|
      && r.failure == Some(DataLength)
      && forall i :: 0 <= i < |ds| ==>
           r.states[i] == if i < q then step(ds[i], ss[i], now, Window(values, width, i)).next else ss[i]
  {
    var q := |values| / width;
    ShortIndex(|values|, width, |ds|);
    DeliverCut(step, ds, ss, now, values, width, q, |ds|);
  }

  lemma {:induction false} DeliverCut(step: Step, ds: seq<Descriptor>, ss: seq<EntityState>, now: int, values: seq<int>, width: nat, q: nat, k: nat)
    requires |ds| == |ss| && k <= |ds| && q < |ds|
    requires Checked(step) && Group(ds) && AcceptsWidth(ds) && |ds| > 0 && ds[0].cls.dataSize == width
    requires q * width <= |values| < q * width + width
    ensures CutInvariant(step, ds, ss, now, values, width, q, k)
  {
    if k == 0 {
      CutStart(step, ds, ss, now, values, width, q);
    } else {
      DeliverCut(step, ds, ss, now, values, width, q, k - 1);
      if k - 1 < q {
        CutBefore(step, ds, ss, now, values, width, q, k);
      } else if k - 1 == q {
        CutAt(step, ds, ss, now, values, width, q, k);
      } else {
        DeliverStopped(step, ds, ss, now, values, width, k);
      }
    }
  }

  /** After k entities of a read cut short before entity q. */
  predicate CutInvariant(step: Step, ds: seq<Descriptor>, ss: seq<EntityState>, now: int, values: seq<int>, width: nat, q: nat, k: nat)
    requires |ds| == |ss| && k <= |ds|
  {
    var r := Deliver(step, ds, ss, now, values, width, k);
    && (r.failure.Some? <==> q < k)
    && (q < k ==> r.failure == Some(DataLength))
    && forall i :: 0 <= i < |ds| ==>
         r.states[i] == if i < q && i < k then step(ds[i], ss[i], now, Window(values, width, i)).next else ss[i]
  }

  lemma CutStart(step: Step, ds: seq<Descriptor>, ss: seq<EntityState>, now: int, values: seq<int>, width: nat, q: nat)
    requires |ds| == |ss|
    ensures CutInvariant(step, ds, ss, now, values, width, q, 0)
  {
    assert Deliver(step, ds, ss, now, values, width, 0) == Delivery(ss, [], None);
  }

  lemma CutBefore(step: Step, ds: seq<Descriptor>, ss: seq<EntityState>, now: int, values: seq<int>, width: nat, q: nat, k: nat)
    requires |ds| == |ss| && 0 < k <= |ds| && k - 1 < q < |ds|
    requires Checked(step) && Group(ds) && AcceptsWidth(ds) && |ds| > 0 && ds[0].cls.dataSize == width
    requires q * width <= |values|
    requires CutInvariant(step, ds, ss, now, values, width, q, k - 1)
    ensures CutInvariant(step, ds, ss, now, values, width, q, k)
  {
    var r := Deliver(step, ds, ss, now, values, width, k - 1);
    var w := Window(values, width, k - 1);
    WindowsFull(values, width, q, k - 1);
    DeliverUnfold(step, ds, ss, now, values, width, k);
    CutStates(step, ds, ss, now, values, width, q, k, r.states, r.states[k - 1 := step(ds[k - 1], ss[k - 1], now, w).next]);
  }

  lemma CutAt(step: Step, ds: seq<Descriptor>, ss: seq<EntityState>, now: int, values: seq<int>, width: nat, q: nat, k: nat)
    requires |ds| == |ss| && 0 < k <= |ds| && k - 1 == q
    requires Checked(step) && Group(ds) && ds[0].cls.dataSize == width
    requires q * width <= |values| < q * width + width
    requires CutInvariant(step, ds, ss, now, values, width, q, k - 1)
    ensures CutInvariant(step, ds, ss, now, values, width, q, k)
  {
    var r := Deliver(step, ds, ss, now, values, width, k - 1);
    var w := Window(values, width, k - 1);
    assert |w| < width;
    assert step(ds[k - 1], ss[k - 1], now, w) == Outcome(ss[k - 1], [], Some(DataLength));
    DeliverUnfold(step, ds, ss, now, values, width, k);
    assert r.states[k - 1 := ss[k - 1]] == r.states;
    CutStates(step, ds, ss, now, values, width, q, k, r.states, r.states);
  }

  /** The bookkeeping of one more entity in DeliverCut. */
  lemma CutStates(step: Step, ds: seq<Descriptor>, ss: seq<EntityState>, now: int, values: seq<int>, width: nat, q: nat, k: nat,
                  before: seq<EntityState>, after: seq<EntityState>)
    requires |ds| == |ss| == |before| == |after| && 0 < k <= |ds|
    requires forall i :: 0 <= i < |ds| ==>
      before[i] == if i < q && i < k - 1 then step(ds[i], ss[i], now, Window(values, width, i)).next else ss[i]
    requires k - 1 < q ==> after == before[k - 1 := step(ds[k - 1], ss[k - 1], now, Window(values, width, k - 1)).next]
    requires k - 1 >= q ==> after == before
    ensures forall i :: 0 <= i < |ds| ==>
      after[i] == if i < q && i < k then step(ds[i], ss[i], now, Window(values, width, i)).next else ss[i]
  {
  }

  lemma {:induction false} DeliverAfterFailure(step: Step, ds: seq<Descriptor>, ss: seq<EntityState>, now: int, values: seq<int>, width: nat, k: nat, n: nat)
    requires |ds| == |ss| && k <= n <= |ds|
    requires Deliver(step, ds, ss, now, values, width, k).failure.Some?
    ensures Deliver(step, ds, ss, now, values, width, n) == Deliver(step, ds, ss, now, values, width, k)
    decreases n
  {
    if n > k {
      DeliverAfterFailure(step, ds, ss, now, values, width, k, n - 1);
      var before := Deliver(step, ds, ss, now, values, width, n - 1);
      assert before.failure == Deliver(step, ds, ss, now, values, width, k).failure;
      DeliverStopped(step, ds, ss, now, values, width, n);
    }
  }

  /** A due poll of a group whose read the gateway can issue and the device
      answered is the delivery of the items read. */
  lemma PollDelivers(ds: seq<Descriptor>, ss: seq<EntityState>, previous: int, timeWait: int, now: int, values: seq<int>, request: ReadRequest)
    requires |ds| == |ss| && |ds| > 0 && Due(previous, timeWait, now)
    requires ReadRequestFor(ds[0].cls, |ds|) == Success(request)
    ensures var dv := Deliver(Process, ds, ss, now, values, ds[0].cls.dataSize, |ds|);
      Poll(ds, ss, Some(previous), timeWait, now, Values(values)) ==
        PollResult(dv.states, dv.published, Some(request), if dv.failure.Some? then Failure(dv.failure.value) else Success(Some(now)))
  {
  }

  /** A due poll of a group made by `register_entity_set`, answered with
      every item asked for: each entity takes its own window and publishes
      what it publishes for it, in entity order, and the poll answers with
      the current time. */
  lemma PollFull(ds: seq<Descriptor>, ss: seq<EntityState>, previous: int, timeWait: int, now: int, values: seq<int>, request: ReadRequest)
    requires |ds| == |ss| && |ds| > 0 && Due(previous, timeWait, now)
    requires Group(ds) && AcceptsWidth(ds) && ReadRequestFor(ds[0].cls, |ds|) == Success(request)
    requires |ds| * ds[0].cls.dataSize <= |values|
    ensures var r := Poll(ds, ss, Some(previous), timeWait, now, Values(values));
      var w := ds[0].cls.dataSize;
      && r.result == Success(Some(now)) && r.read == Some(request)
      && (forall i :: 0 <= i < |ds| ==> r.states[i] == Process(ds[i], ss[i], now, Window(values, w, i)).next)
      && r.published == EachPublishes(Process, ds, ss, now, values, w, |ds|)
  {
    var w := ds[0].cls.dataSize;
    ProcessChecked();
    PollDelivers(ds, ss, previous, timeWait, now, values, request);
    DeliverFanOut(Process, ds, ss, now, values, w, |ds|);
    DeliverPublishes(Process, ds, ss, now, values, w, |ds|);
  }

  /** The same poll answered with too few items raises the length error at
      the entity whose window is cut short; those before it took their
      windows and the rest are untouched. */
  lemma PollShort(ds: seq<Descriptor>, ss: seq<EntityState>, previous: int, timeWait: int, now: int, values: seq<int>, request: ReadRequest)
    requires |ds| == |ss| && |ds| > 0 && Due(previous, timeWait, now)
    requires Group(ds) && AcceptsWidth(ds) && ReadRequestFor(ds[0].cls, |ds|) == Success(request)
    requires |values| < |ds| * ds[0].cls.dataSize
    ensures var r := Poll(ds, ss, Some(previous), timeWait, now, Values(values));
      var w := ds[0].cls.dataSize;
      var q := |values| / w;
      && q < |ds| && r.result == Failure(DataLength) && r.read == Some(request)
      && forall i :: 0 <= i < |ds| ==>
           r.states[i] == if i < q then Process(ds[i], ss[i], now, Window(values, w, i)).next else ss[i]
  {
    var w := ds[0].cls.dataSize;
    ProcessChecked();
    PollDelivers(ds, ss, previous, timeWait, now, values, request);
    DeliverShort(Process, ds, ss, now, values, w);
  }

  /** The loop of `__process_entities` ends with the whole delivery: it
      stops after every entity, or at the first that raised. */
  lemma DeliveredAll(step: Step, ds: seq<Descriptor>, ss: seq<EntityState>, now: int, values: seq<int>, width: nat, k: nat, r: Delivery)
    requires |ds| == |ss| && k <= |ds| && r == Deliver(step, ds, ss, now, values, width, k)
    requires k == |ds| || r.failure.Some?
    ensures Deliver(step, ds, ss, now, values, width, |ds|) == r
  {
    if k < |ds| {
      DeliverAfterFailure(step, ds, ss, now, values, width, k, |ds|);
    }
  }

  /** Once an entity raised, the rest are not served. */
  lemma DeliverStopped(step: Step, ds: seq<Descriptor>, ss: seq<EntityState>, now: int, values: seq<int>, width: nat, k: nat)
    requires |ds| == |ss| && 0 < k <= |ds|
    requires Deliver(step, ds, ss, now, values, width, k - 1).failure.Some?
    ensures Deliver(step, ds, ss, now, values, width, k) == Deliver(step, ds, ss, now, values, width, k - 1)
  {
  }

  lemma ShortIndex(n: nat, width: nat, count: nat)
    requires n < count * width
    ensures width > 0 && n / width < count && (n / width) * width <= n
  {
  }

  lemma MulMono(a: nat, b: nat, c: nat)
    requires a <= b
    ensures a * c <= b * c
  {
  }

  /** `modbus_read_address` names where the entity's window starts only for
      the first entity or one-item classes. */
  lemma ReadAddressMatchesWindow(d: Descriptor)
    ensures ReadAddress(d) == d.cls.readOffset + d.idx * d.cls.dataSize <==> d.idx == 0 || d.cls.dataSize == 1
  {
    if d.idx != 0 && d.cls.dataSize >= 2 {
      MulMono(2, d.cls.dataSize, d.idx);
    }
  }

  // ---------------------------------------------------------------------
  // Creating a group, on values

  /** What creating the first n entities of a group publishes and
      subscribes to. */
  function GroupPublishes(cls: ModbusClass, kind: Kind, n: nat): seq<Publish> {
    if n == 0 then [] else GroupPublishes(cls, kind, n - 1) + InitPublishes(Descriptor(kind, cls, n - 1))
  }

  function GroupSubscriptions(cls: ModbusClass, kind: Kind, n: nat): seq<Subscription> {
    if n == 0 then [] else GroupSubscriptions(cls, kind, n - 1) + InitSubscriptions(Descriptor(kind, cls, n - 1))
  }

  /** A group whose class the kind refuses fails on its first entity, so it
      creates nothing unless it is empty; the blind checks fail after the
      first entity announced itself. */
  function RegisterEffects(cls: ModbusClass, kind: Kind, n: nat): (seq<Publish>, seq<Subscription>, Option<Exception>) {
    var check := ConstructionCheck(cls, kind);
    if n == 0 then ([], [], None)
    else if check.None? then (GroupPublishes(cls, kind, n), GroupSubscriptions(cls, kind, n), None)
    else (InitPublishes(Descriptor(kind, cls, 0)), InitSubscriptions(Descriptor(kind, cls, 0)), check)
  }

  /** A group of outputs subscribes once for each entity, on topics no two
      entities share. */
  lemma GroupSubscriptionsDistinct(cls: ModbusClass, kind: Kind, n: nat)
    requires kind == BitOutput || kind == LightRelay
    requires SupportedType(cls.dataType)
    ensures |GroupSubscriptions(cls, kind, n)| == n
    ensures forall i :: 0 <= i < n ==>
      GroupSubscriptions(cls, kind, n)[i] == Subscription(Topic(Descriptor(kind, cls, i), "set"), SetHandler)
    ensures forall i, j :: 0 <= i < j < n ==>
      GroupSubscriptions(cls, kind, n)[i].topic != GroupSubscriptions(cls, kind, n)[j].topic
  {
    GroupSubscriptionsShape(cls, kind, n);
    var s := GroupSubscriptions(cls, kind, n);
    forall i, j | 0 <= i < j < n
      ensures s[i].topic != s[j].topic
    {
      EntityProperties.TopicsDistinct(Descriptor(kind, cls, i), Descriptor(kind, cls, j), "set");
    }
  }

  /** Entity i of an output group subscribes to its own `set` topic. */
  lemma {:induction false} GroupSubscriptionsShape(cls: ModbusClass, kind: Kind, n: nat)
    requires kind == BitOutput || kind == LightRelay
    requires SupportedType(cls.dataType)
    ensures |GroupSubscriptions(cls, kind, n)| == n
    ensures forall i :: 0 <= i < n ==>
      GroupSubscriptions(cls, kind, n)[i] == Subscription(Topic(Descriptor(kind, cls, i), "set"), SetHandler)
  {
    if n > 0 {
      GroupSubscriptionsShape(cls, kind, n - 1);
      var d := Descriptor(kind, cls, n - 1);
      var prev, s := GroupSubscriptions(cls, kind, n - 1), GroupSubscriptions(cls, kind, n);
      assert InitSubscriptions(d) == [Subscription(Topic(d, "set"), SetHandler)];
      assert s == prev + [Subscription(Topic(d, "set"), SetHandler)];
      forall i | 0 <= i < n
        ensures s[i] == Subscription(Topic(Descriptor(kind, cls, i), "set"), SetHandler)
      {
        if i < n - 1 {
          assert s[i] == prev[i];
        }
      }
    }
  }

  /** A group the constructors refuse stops at its first entity. */
  lemma RegisterFails(cls: ModbusClass, kind: Kind, n: nat)
    requires n > 0 && ConstructionCheck(cls, kind).Some?
    ensures RegisterEffects(cls, kind, n) ==
      (GroupPublishes(cls, kind, 1), GroupSubscriptions(cls, kind, 1), ConstructionCheck(cls, kind))
  {
    var d := Descriptor(kind, cls, 0);
    assert GroupPublishes(cls, kind, 1) == GroupPublishes(cls, kind, 0) + InitPublishes(d);
    assert GroupPublishes(cls, kind, 0) + InitPublishes(d) == InitPublishes(d);
    assert GroupSubscriptions(cls, kind, 1) == GroupSubscriptions(cls, kind, 0) + InitSubscriptions(d);
    assert GroupSubscriptions(cls, kind, 0) + InitSubscriptions(d) == InitSubscriptions(d);
  }

  /** Nothing is published or subscribed for a data type no entity takes. */
  lemma RegisterUnsupported(cls: ModbusClass, kind: Kind, n: nat)
    requires !SupportedType(cls.dataType) && n > 0
    ensures RegisterEffects(cls, kind, n) == ([], [], Some(UnsupportedDataType))
  {
  }

  // ---------------------------------------------------------------------
  // Several groups in one step

  /** The first group whose poll raised, or |rs|. */
  function FirstFailure(rs: seq<PollResult>): (k: nat)
    ensures k <= |rs|
    ensures forall i :: 0 <= i < k ==> rs[i].result.Success?
    ensures k < |rs| ==> rs[k].result.Failure?
  {
    FailureFrom(rs, 0)
  }

  /** The first group at or after `from` whose poll raised, or |rs|. */
  function FailureFrom(rs: seq<PollResult>, from: nat): (k: nat)
    requires from <= |rs|
    ensures from <= k <= |rs|
    ensures forall i :: from <= i < k ==> rs[i].result.Success?
    ensures k < |rs| ==> rs[k].result.Failure?
    decreases |rs| - from
  {
    if from == |rs| || rs[from].result.Failure? then from else FailureFrom(rs, from + 1)
  }

  /** The first failure is at j when the polls before j succeeded and the
      one at j, if there is one, failed. */
  lemma FirstFailureAt(rs: seq<PollResult>, j: nat)
    requires j <= |rs| && forall k :: 0 <= k < j ==> rs[k].result.Success?
    requires j < |rs| ==> rs[j].result.Failure?
    ensures FirstFailure(rs) == j
  {
    var f := FirstFailure(rs);
    assert f < |rs| ==> !rs[f].result.Success?;
  }

  /** How many groups a step serves: up to and including the first that
      fails, or all of them. */
  function Served(rs: seq<PollResult>): (n: nat)
    ensures n <= |rs|
  {
    var f := FirstFailure(rs);
    if f < |rs| then f + 1 else f
  }

  function AllPublished(rs: seq<PollResult>): seq<Publish> {
    if rs == [] then [] else AllPublished(rs[..|rs| - 1]) + rs[|rs| - 1].published
  }

  function AllReads(rs: seq<PollResult>): seq<ReadRequest> {
    if rs == [] then [] else AllReads(rs[..|rs| - 1]) + (if rs[|rs| - 1].read.Some? then [rs[|rs| - 1].read.value] else [])
  }

  datatype Processor = Processor(timestamp: Option<int>, entities: seq<Entity>, timeWait: int)

  /** The timestamps a step in which every poll succeeded returns. */
  function Stamps(rs: seq<PollResult>): (r: seq<Option<int>>)
    requires forall j :: 0 <= j < |rs| ==> rs[j].result.Success?
    ensures |r| == |rs| && forall j :: 0 <= j < |rs| ==> r[j] == rs[j].result.value
  {
    seq(|rs|, j requires 0 <= j < |rs| => rs[j].result.value)
  }

  /** The processors with new timestamps: each keeps its entities and wait. */
  function Retimed(ps: seq<Processor>, stamps: seq<Option<int>>): (r: seq<Processor>)
    requires |stamps| == |ps|
    ensures |r| == |ps| && forall j :: 0 <= j < |ps| ==> r[j] == ps[j].(timestamp := stamps[j])
  {
    seq(|ps|, j requires 0 <= j < |ps| => ps[j].(timestamp := stamps[j]))
  }

  function Descriptors(es: seq<Entity>): (r: seq<Descriptor>)
    ensures |r| == |es| && forall i :: 0 <= i < |es| ==> r[i] == es[i].Describe()
  {
    seq(|es|, i requires 0 <= i < |es| => es[i].Describe())
  }

  ghost function Snapshots(es: seq<Entity>): (r: seq<EntityState>)
    reads set e | e in es
    ensures |r| == |es| && forall i :: 0 <= i < |es| ==> r[i] == es[i].Snapshot()
  {
    seq(|es|, i reads set e | e in es requires 0 <= i < |es| => es[i].Snapshot())
  }

  predicate Distinct(es: seq<Entity>) {
    forall i, j :: 0 <= i < j < |es| ==> es[i] != es[j]
  }

  ghost function AllEntities(ps: seq<Processor>): set<Entity> {
    set j, i | 0 <= j < |ps| && 0 <= i < |ps[j].entities| :: ps[j].entities[i]
  }

  ghost function PollOf(p: Processor, now: int, reply: ReadReply): PollResult
    reads set e | e in p.entities
  {
    Poll(Descriptors(p.entities), Snapshots(p.entities), p.timestamp, p.timeWait, now, reply)
  }

  /** The states of every group's entities. */
  ghost function States(ps: seq<Processor>): (r: seq<seq<EntityState>>)
    reads AllEntities(ps)
    ensures |r| == |ps| && forall j :: 0 <= j < |ps| ==> r[j] == Snapshots(ps[j].entities)
  {
    seq(|ps|, j reads set e | 0 <= j < |ps| && e in ps[j].entities requires 0 <= j < |ps| => Snapshots(ps[j].entities))
  }

  /** The states after the first n groups were served: their polls' states,
      and those the other groups had before. */
  function Mix(rs: seq<PollResult>, n: nat, before: seq<seq<EntityState>>): (r: seq<seq<EntityState>>)
    requires |rs| == |before|
    ensures |r| == |rs| && forall j :: 0 <= j < |rs| ==> r[j] == if j < n then rs[j].states else before[j]
  {
    seq(|rs|, j requires 0 <= j < |rs| => if j < n then rs[j].states else before[j])
  }

  /** Every group's poll from the given states. */
  function PollsFrom(ps: seq<Processor>, states: seq<seq<EntityState>>, clocks: seq<int>, replies: seq<ReadReply>): (rs: seq<PollResult>)
    requires |states| == |ps| && |clocks| == |ps| && |replies| == |ps|
    requires forall j :: 0 <= j < |ps| ==> |states[j]| == |ps[j].entities|
    ensures |rs| == |ps|
    ensures forall j :: 0 <= j < |ps| ==>
      rs[j] == Poll(Descriptors(ps[j].entities), states[j], ps[j].timestamp, ps[j].timeWait, clocks[j], replies[j])
  {
    seq(|ps|, j requires 0 <= j < |ps| =>
      Poll(Descriptors(ps[j].entities), states[j], ps[j].timestamp, ps[j].timeWait, clocks[j], replies[j]))
  }

  /** Each group was made by `register_entity_set`: its entities talk to
      the gateway's bus, were accepted by their constructors, and stand over
      one class at their positions; no entity is in two places. */
  predicate ValidGroups(ps: seq<Processor>, bus: GatewayInterface) {
    && (forall j :: 0 <= j < |ps| ==>
          && Group(Descriptors(ps[j].entities))
          && (forall i :: 0 <= i < |ps[j].entities| ==>
                ps[j].entities[i].gateway == bus && ps[j].entities[i].WellFormed())
          && (|ps[j].entities| > 0 ==> ps[j].timestamp.Some?))
    && (forall j1, i1, j2, i2 ::
          0 <= j1 < |ps| && 0 <= i1 < |ps[j1].entities| &&
          0 <= j2 < |ps| && 0 <= i2 < |ps[j2].entities| &&
          (j1 != j2 || i1 != i2) ==>
          ps[j1].entities[i1] != ps[j2].entities[i2])
  }

  /** The first entities of a group over cls of the given kind, as made by
      its constructors. */
  predicate Built(es: seq<Entity>, bus: GatewayInterface, cls: ModbusClass, kind: Kind) {
    && Distinct(es)
    && forall i :: 0 <= i < |es| ==>
         es[i].gateway == bus && es[i].WellFormed() && es[i].Describe() == Descriptor(kind, cls, i)
  }

  /** A fresh entity described as the next one of the group extends a built
      group, and the initial states with it. */
  lemma BuiltSnoc(es: seq<Entity>, e: Entity, bus: GatewayInterface, cls: ModbusClass, kind: Kind)
    requires Built(es, bus, cls, kind) && forall i :: 0 <= i < |es| ==> es[i] != e
    requires e.gateway == bus && e.WellFormed() && e.Describe() == Descriptor(kind, cls, |es|)
    requires (forall i :: 0 <= i < |es| ==> es[i].Snapshot() == Initial) && e.Snapshot() == Initial
    ensures var more := es + [e];
      && more[..|es|] == es && (forall i :: 0 <= i < |es| ==> more[i] == es[i])
      && Built(more, bus, cls, kind) && forall i :: 0 <= i < |more| ==> more[i].Snapshot() == Initial
  {
    assert (es + [e])[..|es|] == es;
  }

  /** A new group of distinct entities that belong to no other group keeps
      the groups valid. */
  lemma AppendGroup(ps: seq<Processor>, p: Processor, bus: GatewayInterface)
    requires ValidGroups(ps, bus)
    requires Group(Descriptors(p.entities)) && Distinct(p.entities)
    requires forall i :: 0 <= i < |p.entities| ==> p.entities[i].gateway == bus && p.entities[i].WellFormed()
    requires |p.entities| > 0 ==> p.timestamp.Some?
    requires forall i :: 0 <= i < |p.entities| ==> p.entities[i] !in AllEntities(ps)
    ensures ValidGroups(ps + [p], bus)
  {
    var qs := ps + [p];
    forall j1, i1, j2, i2 |
      0 <= j1 < |qs| && 0 <= i1 < |qs[j1].entities| &&
      0 <= j2 < |qs| && 0 <= i2 < |qs[j2].entities| && (j1 != j2 || i1 != i2)
      ensures qs[j1].entities[i1] != qs[j2].entities[i2]
    {
      if j1 == |ps| && j2 < |ps| {
        assert qs[j2].entities[i2] in AllEntities(ps);
      } else if j2 == |ps| && j1 < |ps| {
        assert qs[j1].entities[i1] in AllEntities(ps);
      } else if j1 == |ps| && j2 == |ps| {
        if i1 < i2 { assert p.entities[i1] != p.entities[i2]; }
        else { assert p.entities[i2] != p.entities[i1]; }
      }
    }
  }

  /** The entities of one valid group are distinct and talk to the bus. */
  lemma GroupOfValid(ps: seq<Processor>, bus: GatewayInterface, j: nat)
    requires ValidGroups(ps, bus) && j < |ps|
    ensures Distinct(ps[j].entities)
    ensures forall i :: 0 <= i < |ps[j].entities| ==> ps[j].entities[i].gateway == bus
  {
  }

  /** Two valid groups share no entity. */
  lemma GroupsApart(ps: seq<Processor>, bus: GatewayInterface, j: nat, k: nat)
    requires ValidGroups(ps, bus) && j < |ps| && k < |ps| && j != k
    ensures forall e :: e in ps[k].entities ==> e !in ps[j].entities
  {
    forall e | e in ps[k].entities
      ensures e !in ps[j].entities
    {
      var a :| 0 <= a < |ps[k].entities| && ps[k].entities[a] == e;
      assert forall b :: 0 <= b < |ps[j].entities| ==> ps[k].entities[a] != ps[j].entities[b];
    }
  }

  /** New timestamps keep the groups valid when every non-empty group gets one. */
  lemma RetimedValid(ps: seq<Processor>, stamps: seq<Option<int>>, bus: GatewayInterface)
    requires ValidGroups(ps, bus) && |stamps| == |ps|
    requires forall j :: 0 <= j < |ps| && |ps[j].entities| > 0 ==> stamps[j].Some?
    ensures ValidGroups(Retimed(ps, stamps), bus)
  {
    var qs := Retimed(ps, stamps);
    assert forall j :: 0 <= j < |ps| ==> qs[j].entities == ps[j].entities;
  }

  /** A poll that does not raise leaves a timestamp in a non-empty group. */
  lemma PollsStamped(ps: seq<Processor>, states: seq<seq<EntityState>>, clocks: seq<int>, replies: seq<ReadReply>)
    requires |states| == |ps| && |clocks| == |ps| && |replies| == |ps|
    requires forall j :: 0 <= j < |ps| ==> |states[j]| == |ps[j].entities|
    ensures var rs := PollsFrom(ps, states, clocks, replies);
      forall j :: 0 <= j < |ps| && |ps[j].entities| > 0 && rs[j].result.Success? ==> rs[j].result.value.Some?
  {
    forall j | 0 <= j < |ps| && |ps[j].entities| > 0
      ensures PollsFrom(ps, states, clocks, replies)[j].result.Success? ==> PollsFrom(ps, states, clocks, replies)[j].result.value.Some?
    {
      PollTimestamps(Descriptors(ps[j].entities), states[j], ps[j].timestamp, ps[j].timeWait, clocks[j], replies[j]);
    }
  }

  /** One more group's timestamp. */
  lemma StampsSnoc(rs: seq<PollResult>, j: nat)
    requires j < |rs| && forall k :: 0 <= k <= j ==> rs[k].result.Success?
    ensures Stamps(rs[..j + 1]) == Stamps(rs[..j]) + [rs[j].result.value]
  {
  }

  /** One more group's poll on the lists of everything published and read. */
  lemma AllSnoc(rs: seq<PollResult>, j: nat)
    requires j < |rs|
    ensures AllPublished(rs[..j + 1]) == AllPublished(rs[..j]) + rs[j].published
    ensures AllReads(rs[..j + 1]) == AllReads(rs[..j]) + (if rs[j].read.Some? then [rs[j].read.value] else [])
  {
    assert rs[..j + 1][..j] == rs[..j];
  }

  /** The request the gateway's write helpers build for an entity's write:
      it stores the entity's bits or words at the entity's address. */
  function WriteRequestFor(w: Write): (r: WriteRequest)
    ensures Stored(r) == (w.address, if w.WriteCoils? then Bits(w.bits) else Words(w.words))
    ensures w.WriteCoils? <==> (r.WriteSingleCoil? || r.WriteMultipleCoils?)
  {
    match w
    case WriteCoils(a, d) => CoilRequest(a, d)
    case WriteRegisters(a, d) => RegisterRequest(a, d)
  }

  class Gateway {
    /** The MQTT side and the entities' write calls, as recorded. */
    const bus: GatewayInterface
    const udp: UdpClient
    const tcp: TcpClient
    var processors: seq<Processor>

    /** Each group was made by `register_entity_set`: see ValidGroups. */
    ghost predicate Valid()
      reads this
    {
      ValidGroups(processors, bus)
    }

    /** `Gateway.__init__`: no groups, and the availability message. */
    constructor ()
      ensures Valid() && processors == []
      ensures fresh(bus) && fresh(udp) && fresh(tcp)
      ensures bus.published == [Publish(AvailabilityTopic, Text("online"), false)]
      ensures bus.subscriptions == [] && bus.writes == [] && udp.requests == [] && tcp.sent == []
    {
      var b := new GatewayInterface();
      b.published := [Publish(AvailabilityTopic, Text("online"), false)];
      bus := b;
      udp := new UdpClient();
      tcp := new TcpClient();
      processors := [];
    }

    /** `Gateway.modbus_write_coils`, which forwards to the module-level
        helper: the request goes through `modbus_execute`, which opens the
        socket if need be and retries once after an error answer; `first`
        and `retry` are the device's answers. The helper drops the answer
        `modbus_execute` returns, so nothing is returned here either. */
    method ModbusWriteCoils(address: int, data: Data<bool>, first: Response, retry: Response)
      modifies tcp
      ensures tcp.open && tcp.connects == old(tcp.connects) + (if old(tcp.open) then 0 else 1)
      ensures tcp.sent == old(tcp.sent) + (if first.ErrorResponse? then [CoilRequest(address, data), CoilRequest(address, data)] else [CoilRequest(address, data)])
    {
      var request := CoilRequest(address, data);
      var _ := tcp.Execute(request, first, retry);
    }

    /** `Gateway.modbus_write_registers`, by the same rule. */
    method ModbusWriteRegisters(address: int, data: Data<int>, first: Response, retry: Response)
      modifies tcp
      ensures tcp.open && tcp.connects == old(tcp.connects) + (if old(tcp.open) then 0 else 1)
      ensures tcp.sent == old(tcp.sent) + (if first.ErrorResponse? then [RegisterRequest(address, data), RegisterRequest(address, data)] else [RegisterRequest(address, data)])
    {
      var request := RegisterRequest(address, data);
      var _ := tcp.Execute(request, first, retry);
    }

    /** An entity's write call reaching the gateway: the request it sends
        stores the entity's data at the entity's address. */
    method Forward(w: Write, first: Response, retry: Response)
      modifies tcp
      ensures tcp.open
      ensures tcp.sent == old(tcp.sent) + (if first.ErrorResponse? then [WriteRequestFor(w), WriteRequestFor(w)] else [WriteRequestFor(w)])
    {
      match w
      case WriteCoils(a, d) => ModbusWriteCoils(a, d, first, retry);
      case WriteRegisters(a, d) => ModbusWriteRegisters(a, d, first, retry);
    }

    /** The poll of every group from the current states; the groups' entities
        are disjoint, so each group's poll depends on that group alone. */
    ghost function Polls(clocks: seq<int>, replies: seq<ReadReply>): (rs: seq<PollResult>)
      reads this, AllEntities(processors)
      requires |clocks| == |processors| && |replies| == |processors|
      ensures |rs| == |processors|
      ensures forall j :: 0 <= j < |processors| ==> rs[j] == PollOf(processors[j], clocks[j], replies[j])
    {
      PollsFrom(processors, States(processors), clocks, replies)
    }

    /** `Gateway.__process_entities`: one group's poll, given the clock
        reading and the device's answer to the bulk read. */
    method ProcessEntities(entities: seq<Entity>, timeWait: int, previous: Option<int>, now: int, reply: ReadReply)
      returns (r: Result<Option<int>>)
      requires Distinct(entities) && forall i :: 0 <= i < |entities| ==> entities[i].gateway == bus
      modifies (set e | e in entities), bus, udp
      ensures var p := Poll(Descriptors(entities), old(Snapshots(entities)), previous, timeWait, now, reply);
        && r == p.result
        && (forall i :: 0 <= i < |entities| ==> entities[i].Snapshot() == p.states[i])
        && bus.published == old(bus.published) + p.published
        && udp.requests == old(udp.requests) + (if p.read.Some? then [p.read.value] else [])
      ensures bus.subscriptions == old(bus.subscriptions) && bus.writes == old(bus.writes)
    {
      ghost var ds, ss := Descriptors(entities), Snapshots(entities);
      if |entities| == 0 {
        return Success(None);
      }
      if previous.None? {
        return Failure(TypeError);
      }
      if !(now - previous.value > timeWait) {
        return Success(previous);
      }
      var cls := entities[0].modbusClass;
      var count := cls.dataSize * |entities|;
      var request: ReadRequest;
      if cls.dataType == Coil {
        request := ReadCoils(cls.readOffset, count);
      } else if cls.dataType == Register {
        request := ReadHoldingRegisters(cls.readOffset, count);
      } else {
        return Failure(UnsupportedReadType);
      }
      udp.requests := udp.requests + [request];
      if reply.ReadFailed? {
        return Failure(TransportFailure);
      }
      PollDelivers(ds, ss, previous.value, timeWait, now, reply.values, request);
      var failure := DeliverValues(entities, now, reply.values, cls.dataSize);
      if failure.Some? {
        return Failure(failure.value);
      }
      return Success(Some(now));
    }

    /** The loop of `__process_entities`: entity after entity takes the next
        `data_size` items, until one raises. */
    method DeliverValues(entities: seq<Entity>, now: int, values: seq<int>, width: nat) returns (failure: Option<Exception>)
      requires Distinct(entities) && forall i :: 0 <= i < |entities| ==> entities[i].gateway == bus
      modifies (set e | e in entities), bus
      ensures var dv := Deliver(Process, Descriptors(entities), old(Snapshots(entities)), now, values, width, |entities|);
        && failure == dv.failure
        && (forall i :: 0 <= i < |entities| ==> entities[i].Snapshot() == dv.states[i])
        && bus.published == old(bus.published) + dv.published
      ensures bus.subscriptions == old(bus.subscriptions) && bus.writes == old(bus.writes)
    {
      ghost var ds, ss := Descriptors(entities), old(Snapshots(entities));
      ghost var r := Deliver(Process, ds, ss, now, values, width, 0);
      var k: nat := 0;
      failure := None;
      // The source advances an offset by `width` each pass; entity k's slice
      // of the items read is the k-th window.
      while k < |entities| && failure.None?
        invariant k <= |entities| == |ds| == |ss|
        invariant r == Deliver(Process, ds, ss, now, values, width, k) && failure == r.failure
        invariant forall i :: 0 <= i < |entities| ==> entities[i].Snapshot() == r.states[i]
        invariant bus.published == old(bus.published) + r.published
        invariant bus.subscriptions == old(bus.subscriptions) && bus.writes == old(bus.writes)
        invariant (k == |ds| || failure.Some?) ==> r == Deliver(Process, ds, ss, now, values, width, |ds|)
      {
        failure, r := Feed(entities, k, now, values, width, Window(values, width, k), ds, ss, old(bus.published), r);
        k := k + 1;
      }
    }

    /** One pass of that loop: the k-th entity takes its window. */
    method Feed(entities: seq<Entity>, k: nat, now: int, values: seq<int>, width: nat, data: seq<int>,
                ghost ds: seq<Descriptor>, ghost ss: seq<EntityState>, ghost published: seq<Publish>, ghost r: Delivery)
      returns (failure: Option<Exception>, ghost r': Delivery)
      requires Distinct(entities) && forall i :: 0 <= i < |entities| ==> entities[i].gateway == bus
      requires k < |entities| == |ds| == |ss| && ds == Descriptors(entities) && data == Window(values, width, k)
      requires r == Deliver(Process, ds, ss, now, values, width, k) && r.failure.None?
      requires forall i :: 0 <= i < |entities| ==> entities[i].Snapshot() == r.states[i]
      requires bus.published == published + r.published
      modifies entities[k], bus
      ensures r' == Deliver(Process, ds, ss, now, values, width, k + 1) && failure == r'.failure
      ensures (k + 1 == |ds| || failure.Some?) ==> r' == Deliver(Process, ds, ss, now, values, width, |ds|)
      ensures forall i :: 0 <= i < |entities| ==> entities[i].Snapshot() == r'.states[i]
      ensures bus.published == published + r'.published
      ensures bus.subscriptions == old(bus.subscriptions) && bus.writes == old(bus.writes)
    {
      var e := entities[k];
      ghost var o := Process(e.Describe(), e.Snapshot(), now, data);
      DeliverStep(Process, ds, ss, now, values, width, k, r, e.Describe(), e.Snapshot(), data);
      AppendAssoc(published, r.published, o.published);
      r' := Delivery(r.states[k := o.next], r.published + o.published, o.failure);
      if k + 1 == |ds| || o.failure.Some? {
        DeliveredAll(Process, ds, ss, now, values, width, k + 1, r');
      }
      failure := e.OnModbusData(now, data);
    }

    /** `Gateway.register_entity_set`: create the group's entities one by one
        and add its processor, with timestamp 0; a constructor that raises
        leaves the processors as they were. */
    method RegisterEntitySet(cls: ModbusClass, kind: Kind, itemCount: nat, timeWait: int) returns (failure: Option<Exception>)
      requires Valid()
      modifies this, bus
      ensures Valid()
      ensures var (pub, subs, err) := RegisterEffects(cls, kind, itemCount);
        && failure == err
        && bus.published == old(bus.published) + pub
        && bus.subscriptions == old(bus.subscriptions) + subs
      ensures bus.writes == old(bus.writes)
      ensures failure.Some? ==> processors == old(processors)
      ensures failure.None? ==>
        && |processors| == |old(processors)| + 1 && processors[..|old(processors)|] == old(processors)
        && var p := processors[|old(processors)|];
           && p.timestamp == Some(0) && p.timeWait == timeWait && |p.entities| == itemCount
           && forall i :: 0 <= i < itemCount ==>
                fresh(p.entities[i]) && p.entities[i].Describe() == Descriptor(kind, cls, i)
                && p.entities[i].Snapshot() == Initial
    {
      var entities;
      entities, failure := NewEntities(cls, kind, itemCount);
      if failure.None? {
        assert Descriptors(entities) == seq(itemCount, i requires 0 <= i < itemCount => Descriptor(kind, cls, i));
      }
      if failure.Some? {
        return;
      }
      var p := Processor(Some(0), entities, timeWait);
      forall i | 0 <= i < |entities|
        ensures entities[i] !in AllEntities(processors)
      {
        forall j, i' | 0 <= j < |processors| && 0 <= i' < |processors[j].entities|
          ensures processors[j].entities[i'] != entities[i]
        {
          assert old(allocated(processors[j].entities[i']));
        }
      }
      AppendGroup(processors, p, bus);
      processors := processors + [p];
    }

    /** The loop of `register_entity_set`: the entities of one group, in
        order, until a constructor raises. */
    method NewEntities(cls: ModbusClass, kind: Kind, itemCount: nat) returns (entities: seq<Entity>, failure: Option<Exception>)
      modifies bus
      ensures var (pub, subs, err) := RegisterEffects(cls, kind, itemCount);
        && failure == err
        && bus.published == old(bus.published) + pub
        && bus.subscriptions == old(bus.subscriptions) + subs
      ensures bus.writes == old(bus.writes)
      ensures failure.None? ==>
        && |entities| == itemCount && Built(entities, bus, cls, kind)
        && forall i :: 0 <= i < itemCount ==> fresh(entities[i]) && entities[i].Snapshot() == Initial
    {
      entities := [];
      while |entities| < itemCount
        invariant |entities| <= itemCount && Built(entities, bus, cls, kind)
        invariant |entities| > 0 ==> ConstructionCheck(cls, kind).None?
        invariant bus.published == old(bus.published) + GroupPublishes(cls, kind, |entities|)
        invariant bus.subscriptions == old(bus.subscriptions) + GroupSubscriptions(cls, kind, |entities|)
        invariant bus.writes == old(bus.writes)
        invariant forall i :: 0 <= i < |entities| ==> fresh(entities[i])
        invariant forall i :: 0 <= i < |entities| ==> entities[i].Snapshot() == Initial
      {
        var more;
        more, failure := AddEntity(cls, kind, entities, old(bus.published), old(bus.subscriptions));
        if failure.Some? {
          RegisterFails(cls, kind, itemCount);
          return [], failure;
        }
        entities := more;
      }
      failure := None;
    }

    /** One pass of that loop: the next entity, or the constructor's error. */
    method AddEntity(cls: ModbusClass, kind: Kind, entities: seq<Entity>, ghost published: seq<Publish>, ghost subscriptions: seq<Subscription>)
      returns (more: seq<Entity>, failure: Option<Exception>)
      requires Built(entities, bus, cls, kind) && (|entities| > 0 ==> ConstructionCheck(cls, kind).None?)
      requires bus.published == published + GroupPublishes(cls, kind, |entities|)
      requires bus.subscriptions == subscriptions + GroupSubscriptions(cls, kind, |entities|)
      requires forall i :: 0 <= i < |entities| ==> entities[i].Snapshot() == Initial
      modifies bus
      ensures failure == ConstructionCheck(cls, kind)
      ensures bus.published == published + GroupPublishes(cls, kind, |entities| + 1)
      ensures bus.subscriptions == subscriptions + GroupSubscriptions(cls, kind, |entities| + 1)
      ensures bus.writes == old(bus.writes)
      ensures failure.Some? ==> more == []
      ensures failure.None? ==> && |more| == |entities| + 1 && more[..|entities|] == entities
                                && Built(more, bus, cls, kind) && fresh(more[|entities|])
                                && (forall i :: 0 <= i < |entities| ==> more[i] == entities[i])
                                && (forall i :: 0 <= i < |more| ==> more[i].Snapshot() == Initial)
    {
      ghost var d := Descriptor(kind, cls, |entities|);
      AppendAssoc(published, GroupPublishes(cls, kind, |entities|), InitPublishes(d));
      AppendAssoc(subscriptions, GroupSubscriptions(cls, kind, |entities|), InitSubscriptions(d));
      var r := NewEntity(bus, cls, kind, |entities|);
      if r.Failure? {
        return [], Some(r.error);
      }
      more := entities + [r.value];
      failure := None;
      BuiltSnoc(entities, r.value, bus, cls, kind);
    }

    /** `Gateway.modbus_step`: poll every group in order and store the
        timestamps they return; a poll that raises ends the step with the
        processors as they were, after the groups before it (and its own
        entities up to the one that raised) were served. */
    method ModbusStep(clocks: seq<int>, replies: seq<ReadReply>) returns (failure: Option<Exception>)
      requires Valid() && |clocks| == |processors| && |replies| == |processors|
      modifies AllEntities(processors), this, bus, udp
      ensures Valid()
      ensures var rs := old(Polls(clocks, replies)); var f := FirstFailure(rs);
        && failure == (if f < |rs| then Some(rs[f].result.error) else None)
        && processors == (if f < |rs| then old(processors) else Retimed(old(processors), Stamps(rs)))
        && bus.published == old(bus.published) + AllPublished(rs[..Served(rs)])
        && udp.requests == old(udp.requests) + AllReads(rs[..Served(rs)])
        && States(processors) == Mix(rs, Served(rs), old(States(processors)))
      ensures bus.subscriptions == old(bus.subscriptions) && bus.writes == old(bus.writes)
    {
      var stamps;
      failure, stamps := PollAll(clocks, replies);
      if failure.None? {
        PollsStamped(processors, old(States(processors)), clocks, replies);
        Retime(stamps);
      }
    }

    /** The assignment that ends `modbus_step`: every group gets its new
        timestamp and keeps its entities. */
    method Retime(stamps: seq<Option<int>>)
      requires Valid() && |stamps| == |processors|
      requires forall j :: 0 <= j < |processors| && |processors[j].entities| > 0 ==> stamps[j].Some?
      modifies this
      ensures Valid() && processors == Retimed(old(processors), stamps)
      ensures States(processors) == old(States(processors))
    {
      RetimedValid(processors, stamps, bus);
      ghost var ps := processors;
      processors := Retimed(processors, stamps);
      assert forall k :: 0 <= k < |processors| ==> processors[k].entities == ps[k].entities;
      assert States(processors) == States(ps);
    }

    /** The loop of `modbus_step`, which leaves the processors themselves
        alone: the timestamps it gathers when no poll raises. */
    method PollAll(clocks: seq<int>, replies: seq<ReadReply>) returns (failure: Option<Exception>, stamps: seq<Option<int>>)
      requires Valid() && |clocks| == |processors| && |replies| == |processors|
      modifies AllEntities(processors), bus, udp
      ensures var rs := old(Polls(clocks, replies)); var f := FirstFailure(rs);
        && failure == (if f < |rs| then Some(rs[f].result.error) else None)
        && (f == |rs| ==> stamps == Stamps(rs))
        && bus.published == old(bus.published) + AllPublished(rs[..Served(rs)])
        && udp.requests == old(udp.requests) + AllReads(rs[..Served(rs)])
        && States(processors) == Mix(rs, Served(rs), old(States(processors)))
      ensures bus.subscriptions == old(bus.subscriptions) && bus.writes == old(bus.writes)
    {
      ghost var before := States(processors);
      ghost var rs := PollsFrom(processors, before, clocks, replies);
      stamps := [];
      var j := 0;
      while j < |processors|
        invariant j <= |processors| == |rs| && (forall k :: 0 <= k < j ==> rs[k].result.Success?)
        invariant stamps == Stamps(rs[..j])
        invariant States(processors) == Mix(rs, j, before)
        invariant bus.published == old(bus.published) + AllPublished(rs[..j])
        invariant udp.requests == old(udp.requests) + AllReads(rs[..j])
        invariant bus.subscriptions == old(bus.subscriptions) && bus.writes == old(bus.writes)
      {
        var r := PollGroup(j, clocks[j], replies[j], rs, before, old(bus.published), old(udp.requests));
        if r.Failure? {
          FirstFailureAt(rs, j);
          return Some(r.error), stamps;
        }
        StampsSnoc(rs, j);
        stamps := stamps + [r.value];
        j := j + 1;
      }
      FirstFailureAt(rs, j);
      assert rs[..j] == rs;
      failure := None;
    }

    /** One group's turn in that step: group j is polled from the states it
        started with, the groups before it are served already. */
    method PollGroup(j: nat, clock: int, reply: ReadReply, ghost rs: seq<PollResult>, ghost before: seq<seq<EntityState>>,
                     ghost published: seq<Publish>, ghost requests: seq<ReadRequest>)
      returns (r: Result<Option<int>>)
      requires Valid() && j < |processors| == |rs| == |before| && |before[j]| == |processors[j].entities|
      requires rs[j] == Poll(Descriptors(processors[j].entities), before[j],
                             processors[j].timestamp, processors[j].timeWait, clock, reply)
      requires States(processors) == Mix(rs, j, before)
      requires bus.published == published + AllPublished(rs[..j])
      requires udp.requests == requests + AllReads(rs[..j])
      modifies (set e | e in processors[j].entities), bus, udp
      ensures r == rs[j].result
      ensures States(processors) == Mix(rs, j + 1, before)
      ensures bus.published == published + AllPublished(rs[..j + 1])
      ensures udp.requests == requests + AllReads(rs[..j + 1])
      ensures bus.subscriptions == old(bus.subscriptions) && bus.writes == old(bus.writes)
    {
      var p := processors[j];
      GroupOfValid(processors, bus, j);
      AllSnoc(rs, j);
      AppendAssoc(published, AllPublished(rs[..j]), rs[j].published);
      AppendAssoc(requests, AllReads(rs[..j]), if rs[j].read.Some? then [rs[j].read.value] else []);
      ghost var st := States(processors);
      assert Snapshots(p.entities) == before[j];
      r := ProcessEntities(p.entities, p.timeWait, p.timestamp, clock, reply);
      forall k | 0 <= k < |processors|
        ensures States(processors)[k] == Mix(rs, j + 1, before)[k]
      {
        if k != j {
          GroupsApart(processors, bus, j, k);
          assert Snapshots(processors[k].entities) == old(Snapshots(processors[k].entities));
        }
      }
    }

  }
}
