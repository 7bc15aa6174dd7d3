/** The stand-alone bit gateway of ModbusMQTT.py: bit, button and light-relay
    entities fed from one bulk coil read, the events they put on the outbound
    queue (publishes and coil writes), the topic each entity owns, and the
    parse of an inbound command topic back to the entity's index.

    The outbound queue and its worker thread become the record of every event
    queued, in order; the MQTT client becomes the record of its subscriptions;
    the clock reading and the device's answer to the read are parameters. */
module ModbusMqtt {
  import opened Py
  import opened Modbus
  import Entities

  const ClickPauseMax := 250
  const LongPressMin := 400
  const DiscoveryPrefix := "homeassistant"

  /** The entity classes a BitGateway can be given. */
  datatype Kind = BitType | ButtonType | LightRelayType

  /** A queued payload: text, a click count, or a discovery document (whose
      JSON content is not modelled). */
  datatype Payload = Text(text: string) | Count(count: nat) | DiscoveryDocument

  /** What `EventQueue.publish` is handed: an MQTTEvent or a WriteModbusBitEvent. */
  datatype Event =
    | MqttEvent(topic: string, payload: Payload, retain: bool)
    | WriteModbusBit(address: Option<int>, value: bool)

  class EventQueue {
    var events: seq<Event>

    constructor ()
      ensures events == []
    {
      events := [];
    }
  }

  class MqttClient {
    var subscriptions: seq<string>

    constructor ()
      ensures subscriptions == []
    {
      subscriptions := [];
    }
  }

  // ---------------------------------------------------------------------
  // Topics

  /** `PublishEvent`: the topic is "<entity address>/<event type>". */
  function EventTopic(entityAddress: string, eventType: string): (t: string)
    ensures |t| == |entityAddress| + 1 + |eventType|
    ensures t[..|entityAddress|] == entityAddress && t[|entityAddress|] == '/'
    ensures t[|entityAddress| + 1..] == eventType
  {
    entityAddress + "/" + eventType
  }

  /** `BitGateway.initialize.address`: "plc/<namespace>/<idx//8+1>-<idx%8+1>",
      the same coordinate as the newer entities' with eight slots a module. */
  function Address(namespace: string, idx: nat): string {
    "plc/" + namespace + "/" + Entities.MqttCoordinate(idx, 8)
  }

  /** The subscription pattern "plc/<namespace>/+/set". */
  function SubscribePattern(namespace: string): string {
    "plc/" + namespace + "/+/set"
  }

  /** `"{}".format(x)` for an optional integer. */
  function FormatOptional(x: Option<int>): string {
    if x.Some? then IntToString(x.value) else "None"
  }

  // ---------------------------------------------------------------------
  // The topic pattern "plc/<namespace>/([^/.]+)-([^/]+)/(.+)"

  /** The position of the first c in s, or |s| when there is none. */
  function Find(s: string, c: char): (k: nat)
    ensures k <= |s| && (k < |s| ==> s[k] == c)
    ensures forall i :: 0 <= i < k ==> s[i] != c
  {
    FindFrom(s, c, 0)
  }

  /** The position of the first c in s at or after `from`, or |s|. */
  function FindFrom(s: string, c: char, from: nat): (k: nat)
    requires from <= |s|
    ensures from <= k <= |s| && (k < |s| ==> s[k] == c)
    ensures forall i :: from <= i < k ==> s[i] != c
    decreases |s| - from
  {
    if from == |s| then from else if s[from] == c then from else FindFrom(s, c, from + 1)
  }

  predicate NoDot(s: string) {
    forall i :: 0 <= i < |s| ==> s[i] != '.'
  }

  /** p splits c into `([^/.]+)-([^/]+)`: a non-empty head free of dots, the
      hyphen at p, and a non-empty tail. */
  predicate SplitsAt(c: string, p: nat) {
    1 <= p && p + 1 < |c| && c[p] == '-' && NoDot(c[..p])
  }

  /** The hyphen the pattern settles on: its first group is greedy, so it
      takes the last splitting hyphen at or before `from`. */
  function LastSplit(c: string, from: nat): (r: Option<nat>)
    ensures r.Some? ==> r.value <= from && SplitsAt(c, r.value)
    ensures forall p :: (if r.Some? then r.value else 0) < p <= from ==> !SplitsAt(c, p)
    decreases from
  {
    if from == 0 then None
    else if from + 1 < |c| && c[from] == '-' && NoDot(c[..from]) then Some(from)
    else LastSplit(c, from - 1)
  }

  /** The longest prefix with no newline: what `(.+)` takes at the end. */
  function Line(s: string): (r: string)
    ensures r == s[..Find(s, '\n')]
  {
    s[..Find(s, '\n')]
  }

  /** `re.match(topic_idx_pattern, topic)`: its three groups, or None where it
      does not match. The namespace is taken literally. */
  function MatchTopic(namespace: string, topic: string): Option<(string, string, string)> {
    var prefix := "plc/" + namespace + "/";
    if !(prefix <= topic) then None else MatchRest(topic[|prefix|..])
  }

  /** The pattern after its literal prefix: `([^/.]+)-([^/]+)/(.+)`. */
  function MatchRest(rest: string): Option<(string, string, string)> {
    var q := Find(rest, '/');
    if q == |rest| then None
    else
      var coordinate, event := rest[..q], Line(rest[q + 1..]);
      var p := LastSplit(coordinate, |coordinate|);
      if p.None? || event == [] then None
      else Some((coordinate[..p.value], coordinate[p.value + 1..], event))
  }

  /** The four values `mqtt_topic_split` returns when it parses the topic. */
  datatype Split = Split(idx: int, mod: int, slot: int, event: string)

  /** `Gateway.mqtt_topic_split`: a parsed topic, None where the match or an
      `int()` fails (the bare except turns those into four Nones), and a
      TypeError where the gateway has no pattern, which `re.match` raises
      outside the try. */
  function TopicSplit(hasPattern: bool, namespace: string, topic: string): (r: Result<Option<Split>>)
    ensures r.Failure? <==> !hasPattern
    ensures r.Success? && r.value.Some? ==> r.value.value.idx == r.value.value.mod * 8 + r.value.value.slot
  {
    if !hasPattern then Failure(TypeError)
    else
      match MatchTopic(namespace, topic)
      case None => Success(None)
      case Some((m, n, event)) =>
        var mod, slot := ParseInt(m), ParseInt(n);
        if mod.None? || slot.None? then Success(None)
        else Success(Some(Split((mod.value - 1) * 8 + (slot.value - 1), mod.value - 1, slot.value - 1, event)))
  }

  // ---------------------------------------------------------------------
  // The entities' state machines

  /** What one entity is: its class, its topic and its coil address (None
      when the gateway has no write offset). */
  datatype Descriptor = Descriptor(kind: Kind, mqttAddress: string, modbusAddress: Option<int>)

  /** The fields an entity updates: `state`, then for buttons `click_count`,
      `hold` and `timestamp`. */
  datatype EntityState = EntityState(state: Option<bool>, clickCount: nat, hold: bool, timestamp: int)

  const Initial := EntityState(None, 0, false, 0)

  datatype Step = Step(next: EntityState, events: seq<Event>)

  /** `True if self.modbus_address else False`: None and 0 are both false. */
  predicate Retained(modbusAddress: Option<int>) {
    modbusAddress.Some? && modbusAddress.value != 0
  }

  function OnOff(v: bool): string {
    if v then "ON" else "OFF"
  }

  /** `BitEntity.on_modbus_update`. */
  function BitUpdate(d: Descriptor, s: EntityState, v: bool): Step {
    if s.state != Some(v) then
      Step(s.(state := Some(v)), [MqttEvent(EventTopic(d.mqttAddress, "status"), Text(OnOff(v)), Retained(d.modbusAddress))])
    else Step(s, [])
  }

  /** `ButtonEntity.on_modbus_update`: the bit update, then one of the edge,
      long-press or click-pause branches. */
  function ButtonUpdate(d: Descriptor, s: EntityState, now: int, v: bool): Step {
    var b := BitUpdate(d, s, v);
    var t := b.next;
    if s.state != Some(v) then
      if v then
        Step(t.(clickCount := t.clickCount + 1, timestamp := now), b.events)
      else if t.hold then
        Step(t.(hold := false, clickCount := 0, timestamp := now),
             b.events + [MqttEvent(EventTopic(d.mqttAddress, "long"), Text("RELEASE"), false)])
      else
        Step(t.(timestamp := now), b.events)
    else if v && !t.hold then
      if now - t.timestamp > LongPressMin then
        Step(t.(hold := true), [MqttEvent(EventTopic(d.mqttAddress, "long"), Count(t.clickCount), false)])
      else Step(t, [])
    else if !v && t.clickCount > 0 then
      if now - t.timestamp > ClickPauseMax then
        Step(t.(clickCount := 0), [MqttEvent(EventTopic(d.mqttAddress, "click"), Count(t.clickCount), false)])
      else Step(t, [])
    else Step(t, [])
  }

  /** `on_modbus_update` of the entity's class (a light relay is a bit entity). */
  function Update(d: Descriptor, s: EntityState, now: int, v: bool): Step {
    if d.kind == ButtonType then ButtonUpdate(d, s, now, v) else BitUpdate(d, s, v)
  }

  /** `_mqtt_to_modbus`: the coil value a command payload asks for, None for
      an unrecognised one; `not self.state` is true while the state is None. */
  function Decode(payload: string, state: Option<bool>): Option<bool> {
    var u := Upper(payload);
    if u == "ON" || u == "1" then Some(true)
    else if u == "OFF" || u == "0" then Some(false)
    else if u == "TOGGLE" then Some(state != Some(true))
    else None
  }

  /** `on_mqtt_msg`: the coil write that a command queues. */
  function Command(d: Descriptor, s: EntityState, payload: string): seq<Event> {
    var v := Decode(payload, s.state);
    if v.Some? then [WriteModbusBit(d.modbusAddress, v.value)] else []
  }

  /** `Entity.discovery`: only a light relay has a discovery type, uid and
      config, and so only a light relay queues a discovery document. */
  function Discovery(d: Descriptor): seq<Event> {
    if d.kind == LightRelayType then
      [MqttEvent(DiscoveryPrefix + "/light/plc/plc_light_" + FormatOptional(d.modbusAddress) + "/config",
                 DiscoveryDocument, true)]
    else []
  }

  function Discoveries(ds: seq<Descriptor>): seq<Event> {
    if ds == [] then [] else Discoveries(ds[..|ds| - 1]) + Discovery(ds[|ds| - 1])
  }

  // ---------------------------------------------------------------------
  // One read fanned out over a gateway's entities

  datatype Sweep = Sweep(states: seq<EntityState>, events: seq<Event>)

  /** The first n entities updated in order with one timestamp, entity k
      with bit k; the others untouched. */
  function Fan(ds: seq<Descriptor>, ss: seq<EntityState>, now: int, bits: seq<bool>, n: nat): (r: Sweep)
    requires |ds| == |ss| && n <= |ds| && n <= |bits|
    ensures |r.states| == |ss|
    ensures forall k :: 0 <= k < |ss| ==>
      r.states[k] == if k < n then Update(ds[k], ss[k], now, bits[k]).next else ss[k]
  {
    if n == 0 then Sweep(ss, [])
    else
      var r := Fan(ds, ss, now, bits, n - 1);
      var u := Update(ds[n - 1], ss[n - 1], now, bits[n - 1]);
      Sweep(r.states[n - 1 := u.next], r.events + u.events)
  }

  /** The bits of a coil read, with Python's truth of 0 and 1. */
  function CoilBits(values: seq<int>): (r: seq<bool>)
    ensures |r| == |values| && forall i :: 0 <= i < |values| ==> r[i] == (values[i] != 0)
  {
    seq(|values|, i requires 0 <= i < |values| => values[i] != 0)
  }

  function Min(a: nat, b: nat): nat {
    if a <= b then a else b
  }

  /** What a gateway step does to the entities and the queue, given the
      answer to its read: a failed read raises, an empty one changes
      nothing, and otherwise `zip` pairs the entities with the bits. */
  function StepOutcome(ds: seq<Descriptor>, ss: seq<EntityState>, now: int, reply: ReadReply): (r: Result<Sweep>)
    requires |ds| == |ss|
    ensures reply.ReadFailed? <==> r.Failure?
    ensures r.Success? ==> |r.value.states| == |ss|
  {
    match reply
    case ReadFailed => Failure(TransportFailure)
    case Values(values) =>
      if values == [] then Success(Sweep(ss, []))
      else Success(Fan(ds, ss, now, CoilBits(values), Min(|ds|, |values|)))
  }

  class BitEntity {
    const queue: EventQueue
    const kind: Kind
    const mqttAddress: string
    const modbusAddress: Option<int>

    var state: Option<bool>
    var clickCount: nat
    var hold: bool
    var timestamp: int

    function Describe(): Descriptor {
      Descriptor(kind, mqttAddress, modbusAddress)
    }

    ghost function Snapshot(): EntityState
      reads this
    {
      EntityState(state, clickCount, hold, timestamp)
    }

    constructor (queue: EventQueue, kind: Kind, mqttAddress: string, modbusAddress: Option<int>)
      ensures this.queue == queue && Describe() == Descriptor(kind, mqttAddress, modbusAddress)
      ensures Snapshot() == Initial
    {
      this.queue := queue;
      this.kind := kind;
      this.mqttAddress := mqttAddress;
      this.modbusAddress := modbusAddress;
      state := None;
      clickCount, hold, timestamp := 0, false, 0;
    }

    method Enqueue(e: Event)
      modifies queue
      ensures queue.events == old(queue.events) + [e]
    {
      queue.events := queue.events + [e];
    }

    /** `BitEntity.on_modbus_update`; it returns the state before the call. */
    method BitModbusUpdate(newVal: bool) returns (oldVal: Option<bool>)
      modifies this, queue
      ensures oldVal == old(state)
      ensures Snapshot() == BitUpdate(Describe(), old(Snapshot()), newVal).next
      ensures queue.events == old(queue.events) + BitUpdate(Describe(), old(Snapshot()), newVal).events
    {
      oldVal := state;
      if state != Some(newVal) {
        var retain := modbusAddress.Some? && modbusAddress.value != 0;
        var value := if newVal then "ON" else "OFF";
        Enqueue(MqttEvent(EventTopic(mqttAddress, "status"), Text(value), retain));
        state := Some(newVal);
      }
    }

    /** `ButtonEntity.on_modbus_update`. */
    method ButtonModbusUpdate(timestamp: int, newVal: bool) returns (oldVal: Option<bool>)
      modifies this, queue
      ensures oldVal == old(state)
      ensures Snapshot() == ButtonUpdate(Describe(), old(Snapshot()), timestamp, newVal).next
      ensures queue.events == old(queue.events) + ButtonUpdate(Describe(), old(Snapshot()), timestamp, newVal).events
    {
      oldVal := BitModbusUpdate(newVal);
      if oldVal != Some(newVal) {
        if newVal {
          clickCount := clickCount + 1;
        } else if hold {
          Enqueue(MqttEvent(EventTopic(mqttAddress, "long"), Text("RELEASE"), false));
          hold := false;
          clickCount := 0;
        }
        this.timestamp := timestamp;
      } else if newVal && !hold {
        var delta := timestamp - this.timestamp;
        if delta > LongPressMin {
          Enqueue(MqttEvent(EventTopic(mqttAddress, "long"), Count(clickCount), false));
          hold := true;
        }
      } else if !newVal && clickCount > 0 {
        var delta := timestamp - this.timestamp;
        if delta > ClickPauseMax {
          Enqueue(MqttEvent(EventTopic(mqttAddress, "click"), Count(clickCount), false));
          clickCount := 0;
        }
      }
      state := Some(newVal);
    }

    /** `on_modbus_update` of the entity's own class. */
    method OnModbusUpdate(timestamp: int, newVal: bool) returns (oldVal: Option<bool>)
      modifies this, queue
      ensures oldVal == old(state)
      ensures Snapshot() == Update(Describe(), old(Snapshot()), timestamp, newVal).next
      ensures queue.events == old(queue.events) + Update(Describe(), old(Snapshot()), timestamp, newVal).events
    {
      if kind == ButtonType {
        oldVal := ButtonModbusUpdate(timestamp, newVal);
      } else {
        oldVal := BitModbusUpdate(newVal);
      }
    }

    /** `BitEntity.on_mqtt_msg`: queue the decoded coil write, if any; the
        event name only reaches the log. */
    method OnMqttMsg(event: string, payload: string)
      modifies queue
      ensures queue.events == old(queue.events) + Command(Describe(), Snapshot(), payload)
    {
      var value := Decode(payload, state);
      if value.Some? {
        Enqueue(WriteModbusBit(modbusAddress, value.value));
      }
    }

    /** `Entity.discovery`. */
    method Announce()
      modifies queue
      ensures queue.events == old(queue.events) + Discovery(Describe())
    {
      if kind == LightRelayType {
        Enqueue(MqttEvent(DiscoveryPrefix + "/light/plc/plc_light_" + FormatOptional(modbusAddress) + "/config",
                          DiscoveryDocument, true));
      }
    }
  }

  /** No entity appears twice. */
  predicate Distinct(es: seq<BitEntity>) {
    forall i, j :: 0 <= i < j < |es| ==> es[i] != es[j]
  }

  function Descriptors(es: seq<BitEntity>): (r: seq<Descriptor>)
    ensures |r| == |es| && forall i :: 0 <= i < |es| ==> r[i] == es[i].Describe()
  {
    seq(|es|, i requires 0 <= i < |es| => es[i].Describe())
  }

  ghost function Snapshots(es: seq<BitEntity>): (r: seq<EntityState>)
    reads set e | e in es
    ensures |r| == |es| && forall i :: 0 <= i < |es| ==> r[i] == es[i].Snapshot()
  {
    seq(|es|, i reads es requires 0 <= i < |es| => es[i].Snapshot())
  }

  /** The coil entity idx writes: `off + idx`, or None without an offset. */
  function WriteAddress(setAddressOffset: Option<int>, idx: nat): Option<int> {
    if setAddressOffset.Some? then Some(setAddressOffset.value + idx) else None
  }

  /** The entities `initialize` builds: one per index, in index order. */
  function Layout(kind: Kind, namespace: string, setAddressOffset: Option<int>, itemCount: nat): (r: seq<Descriptor>)
    ensures |r| == itemCount
    ensures forall i :: 0 <= i < itemCount ==>
      r[i] == Descriptor(kind, Address(namespace, i), WriteAddress(setAddressOffset, i))
  {
    seq(itemCount, i requires 0 <= i < itemCount => Descriptor(kind, Address(namespace, i), WriteAddress(setAddressOffset, i)))
  }

  /** The entity a command topic reaches: None for a topic that does not
      parse, an IndexError for an index Python's list rejects (a negative
      index counts from the end), a TypeError without a pattern. */
  function Route(hasPattern: bool, namespace: string, count: nat, topic: string): (r: Result<Option<(nat, string)>>)
    ensures r.Success? && r.value.Some? ==> r.value.value.0 < count
  {
    match TopicSplit(hasPattern, namespace, topic)
    case Failure(e) => Failure(e)
    case Success(None) => Success(None)
    case Success(Some(sp)) =>
      var i := Index(count, sp.idx);
      if i.None? then Failure(IndexError) else Success(Some((i.value, sp.event)))
  }

  class BitGateway {
    const namespace: string
    const mqttRetain: bool
    const getAddressOffset: int
    const setAddressOffset: Option<int>
    const itemCount: nat
    const kind: Kind
    const queue: EventQueue
    const client: MqttClient
    const udp: UdpClient
    /** `self.state`: the entities, in index order. */
    const entities: seq<BitEntity>

    /** The entities are the ones `initialize` builds, all distinct and all
        queueing on the gateway's queue. */
    predicate Valid() {
      && Distinct(entities)
      && (forall i :: 0 <= i < |entities| ==> entities[i].queue == queue)
      && Descriptors(entities) == Layout(kind, namespace, setAddressOffset, itemCount)
    }

    /** `BitGateway.__init__` with `initialize`: subscribe to the command
        pattern when there is a write offset, build the entities, then queue
        each one's discovery document. */
    constructor (queue: EventQueue, client: MqttClient, udp: UdpClient, namespace: string, mqttRetain: bool,
                 getAddressOffset: int, setAddressOffset: Option<int>, itemCount: nat, kind: Kind)
      modifies queue, client
      ensures Valid()
      ensures this.queue == queue && this.client == client && this.udp == udp
      ensures this.namespace == namespace && this.mqttRetain == mqttRetain && this.kind == kind
      ensures this.getAddressOffset == getAddressOffset && this.setAddressOffset == setAddressOffset
      ensures this.itemCount == itemCount
      ensures forall i :: 0 <= i < |entities| ==> fresh(entities[i]) && entities[i].Snapshot() == Initial
      ensures client.subscriptions == old(client.subscriptions) + (if setAddressOffset.Some? then [SubscribePattern(namespace)] else [])
      ensures queue.events == old(queue.events) + Discoveries(Layout(kind, namespace, setAddressOffset, itemCount))
    {
      if setAddressOffset.Some? {
        client.subscriptions := client.subscriptions + [SubscribePattern(namespace)];
      }
      var es := MakeEntities(queue, kind, namespace, setAddressOffset, itemCount);
      AnnounceAll(queue, es);
      this.namespace, this.mqttRetain, this.kind := namespace, mqttRetain, kind;
      this.getAddressOffset, this.setAddressOffset, this.itemCount := getAddressOffset, setAddressOffset, itemCount;
      this.queue, this.client, this.udp := queue, client, udp;
      entities := es;
    }

    /** `BitGateway.modbus_step`: read `item_count` coils from the read offset
        and, unless the answer is empty, update entity i with bit i for every
        i the zip reaches, all with one timestamp. */
    method ModbusStep(now: int, reply: ReadReply) returns (failure: Option<Exception>)
      requires Valid()
      modifies (set e | e in entities), queue, udp
      ensures var r := StepOutcome(Descriptors(entities), old(Snapshots(entities)), now, reply);
        && failure == (if r.Failure? then Some(r.error) else None)
        && Snapshots(entities) == (if r.Success? then r.value.states else old(Snapshots(entities)))
        && queue.events == old(queue.events) + (if r.Success? then r.value.events else [])
      ensures udp.requests == old(udp.requests) + [ReadCoils(getAddressOffset, itemCount)]
    {
      udp.requests := udp.requests + [ReadCoils(getAddressOffset, itemCount)];
      if reply.ReadFailed? {
        return Some(TransportFailure);
      }
      var values := reply.values;
      failure := None;
      if values == [] {
        return;
      }
      ghost var sweep := Fan(Descriptors(entities), Snapshots(entities), now, CoilBits(values), Min(|entities|, |values|));
      FanOut(entities, queue, now, CoilBits(values), Min(|entities|, |values|));
      assert Snapshots(entities) == sweep.states;
    }

    /** `BitGateway.on_mqtt_message`: hand the command to the entity its
        topic names, if it names one. */
    method OnMqttMessage(topic: string, payload: string) returns (failure: Option<Exception>)
      requires Valid()
      ensures var r := Route(setAddressOffset.Some?, namespace, |entities|, topic);
        && failure == (if r.Failure? then Some(r.error) else None)
        && queue.events == old(queue.events) +
             (if r.Success? && r.value.Some? then Command(entities[r.value.value.0].Describe(), entities[r.value.value.0].Snapshot(), payload) else [])
      modifies queue
    {
      var r := Route(setAddressOffset.Some?, namespace, |entities|, topic);
      if r.Failure? {
        return Some(r.error);
      }
      failure := None;
      if r.value.Some? {
        var (i, event) := r.value.value;
        entities[i].OnMqttMsg(event, payload);
      }
    }
  }

  /** The loop over `zip(self.state, data)`: entity k gets bit k, for the
      first n entities. */
  method FanOut(es: seq<BitEntity>, queue: EventQueue, now: int, bits: seq<bool>, n: nat)
    requires Distinct(es) && forall i :: 0 <= i < |es| ==> es[i].queue == queue
    requires n <= |es| && n <= |bits|
    modifies (set e | e in es), queue
    ensures var r := Fan(Descriptors(es), old(Snapshots(es)), now, bits, n);
      && (forall i :: 0 <= i < |es| ==> es[i].Snapshot() == r.states[i])
      && queue.events == old(queue.events) + r.events
  {
    ghost var ds, ss := Descriptors(es), Snapshots(es);
    ghost var r := Fan(ds, ss, now, bits, 0);
    var k: nat := 0;
    while k < n
      invariant k <= n && r == Fan(ds, ss, now, bits, k)
      invariant forall i :: 0 <= i < |es| ==> es[i].Snapshot() == r.states[i]
      invariant queue.events == old(queue.events) + r.events
    {
      r := UpdateAt(es, queue, now, bits, k, ds, ss, old(queue.events), r);
      k := k + 1;
    }
    assert k == n;
  }

  /** One pass of that loop: `entity.on_modbus_update(timestamp, value)` for
      entity k carries the sweep of the first k entities over to k + 1. */
  method UpdateAt(es: seq<BitEntity>, queue: EventQueue, now: int, bits: seq<bool>, k: nat,
                  ghost ds: seq<Descriptor>, ghost ss: seq<EntityState>, ghost before: seq<Event>, ghost r: Sweep)
    returns (ghost r': Sweep)
    requires Distinct(es) && forall i :: 0 <= i < |es| ==> es[i].queue == queue
    requires ds == Descriptors(es) && |ss| == |es| && k < |es| && k < |bits|
    requires r == Fan(ds, ss, now, bits, k)
    requires forall i :: 0 <= i < |es| ==> es[i].Snapshot() == r.states[i]
    requires queue.events == before + r.events
    modifies es[k], queue
    ensures r' == Fan(ds, ss, now, bits, k + 1)
    ensures forall i :: 0 <= i < |es| ==> es[i].Snapshot() == r'.states[i]
    ensures queue.events == before + r'.events
  {
    ghost var u := Update(ds[k], ss[k], now, bits[k]);
    var old_ := es[k].OnModbusUpdate(now, bits[k]);
    r' := Sweep(r.states[k := u.next], r.events + u.events);
    AppendAssoc(before, r.events, u.events);
  }

  /** The list comprehension of `initialize`: entity idx gets its address and
      write address. */
  method MakeEntities(queue: EventQueue, kind: Kind, namespace: string, setAddressOffset: Option<int>, itemCount: nat)
    returns (es: seq<BitEntity>)
    ensures Distinct(es) && (forall i :: 0 <= i < |es| ==> es[i].queue == queue)
    ensures Descriptors(es) == Layout(kind, namespace, setAddressOffset, itemCount)
    ensures forall i :: 0 <= i < |es| ==> fresh(es[i]) && es[i].Snapshot() == Initial
  {
    es := [];
    while |es| < itemCount
      invariant |es| <= itemCount
      invariant Distinct(es) && forall i :: 0 <= i < |es| ==> es[i].queue == queue
      invariant forall i :: 0 <= i < |es| ==>
        es[i].Describe() == Descriptor(kind, Address(namespace, i), WriteAddress(setAddressOffset, i))
      invariant forall i :: 0 <= i < |es| ==> fresh(es[i]) && es[i].Snapshot() == Initial
    {
      var idx := |es|;
      var e := new BitEntity(queue, kind, Address(namespace, idx), WriteAddress(setAddressOffset, idx));
      es := es + [e];
    }
  }

  /** `[entity.discovery() for entity in self.state]`. */
  method AnnounceAll(queue: EventQueue, es: seq<BitEntity>)
    requires forall i :: 0 <= i < |es| ==> es[i].queue == queue
    modifies queue
    ensures queue.events == old(queue.events) + Discoveries(Descriptors(es))
  {
    ghost var ds := Descriptors(es);
    var k := 0;
    while k < |es|
      invariant k <= |es|
      invariant queue.events == old(queue.events) + Discoveries(ds[..k])
    {
      DiscoveriesSnoc(ds, k);
      es[k].Announce();
      k := k + 1;
    }
    assert ds[..k] == ds;
  }

  lemma DiscoveriesSnoc(ds: seq<Descriptor>, k: nat)
    requires k < |ds|
    ensures Discoveries(ds[..k + 1]) == Discoveries(ds[..k]) + Discovery(ds[k])
  {
    assert ds[..k + 1][..k] == ds[..k];
  }
}
