/** The entities of modbus-mqtt/gateway/entity.py: a Modbus class shared by a
    group of entities, the topics and addresses each entity derives from its
    index, the state machines that turn samples into publishes, and the
    decoders that turn bus commands into device writes.

    Python's entity classes form a hierarchy (BitEntity, ButtonEntity,
    BitOutputEntity, LightRelayEntity, BlindEntity); here they are one class
    tagged with its Kind. The pure functions below say what each call does;
    the class methods do it field by field and are proved against them. */
module Entities {
  import opened Py
  import Modbus

  datatype DataType = Coil | Register | OtherType(name: string)

  datatype ModbusClass = ModbusClass(
    name: string,
    dataType: DataType,
    dataSize: nat,
    readOffset: int,
    writeOffset: int,
    readOnly: bool)

  datatype Kind = Bit | Button | BitOutput | LightRelay | Blind

  /** What one entity is, apart from its changing state. */
  datatype Descriptor = Descriptor(kind: Kind, cls: ModbusClass, idx: nat)

  /** A publish payload: text, an integer, None (which paho sends as an
      empty payload), or a discovery document (whose JSON content is not
      modelled). */
  datatype Payload = Text(text: string) | Number(number: int) | Null | DiscoveryDocument

  datatype Publish = Publish(topic: string, payload: Payload, retain: bool)

  datatype Handler = SetHandler | ConfigHandler

  datatype Subscription = Subscription(topic: string, handler: Handler)

  /** A call of `modbus_write_coils` or `modbus_write_registers`. */
  datatype Write =
    | WriteCoils(address: int, bits: Modbus.Data<bool>)
    | WriteRegisters(address: int, words: Modbus.Data<int>)

  const ClickPauseMax := 250
  const LongPressMin := 400
  /** The configuration's default discovery prefix. */
  const DiscoveryPrefix := "homeassistant"

  /** The gateway an entity talks to (GatewayInterface), as the record of
      every call made on it. */
  class GatewayInterface {
    var published: seq<Publish>
    var subscriptions: seq<Subscription>
    var writes: seq<Write>

    constructor ()
      ensures published == [] && subscriptions == [] && writes == []
    {
      published, subscriptions, writes := [], [], [];
    }
  }

  // ---------------------------------------------------------------------
  // Coordinates, topics and addresses

  /** `ModbusClass.mqtt_coordinate`: "<module>-<slot>", both counted from 1. */
  function MqttCoordinate(address: nat, slotSize: nat): string
    requires slotSize > 0
  {
    NatToString(address / slotSize + 1) + "-" + NatToString(address % slotSize + 1)
  }

  /** Bit entities sit eight to a module, blinds four. */
  function SlotSize(kind: Kind): nat {
    if kind == Blind then 4 else 8
  }

  function Coordinate(d: Descriptor): string {
    MqttCoordinate(d.idx, SlotSize(d.kind))
  }

  function TopicBase(d: Descriptor): string {
    "plc/" + d.cls.name + "/" + Coordinate(d)
  }

  /** `Entity.mqtt_topic`: the base topic and one more level. */
  function Topic(d: Descriptor, level: string): string {
    TopicBase(d) + "/" + level
  }

  /** The position of the first '-' in s, or |s|. */
  function FirstDash(s: string): (k: nat)
    ensures k <= |s|
    ensures forall i :: 0 <= i < k ==> s[i] != '-'
    ensures k < |s| ==> s[k] == '-'
  {
    DashFrom(s, 0)
  }

  /** The position of the first '-' in s at or after `from`, or |s|. */
  function DashFrom(s: string, from: nat): (k: nat)
    requires from <= |s|
    ensures from <= k <= |s|
    ensures forall i :: from <= i < k ==> s[i] != '-'
    ensures k < |s| ==> s[k] == '-'
    decreases |s| - from
  {
    if from == |s| || s[from] == '-' then from else DashFrom(s, from + 1)
  }

  predicate AllDigits(s: string) {
    forall i :: 0 <= i < |s| ==> IsDigit(s[i])
  }

  /** Reads a coordinate back to the entity index it names, for a slot size:
      an independent decoder that the coordinate format is checked against. */
  function CoordinateIndex(c: string, slotSize: nat): Option<nat> {
    var k := FirstDash(c);
    if k == |c| then None
    else
      var m, r := c[..k], c[k + 1..];
      if !(|m| > 0 && |r| > 0 && AllDigits(m) && AllDigits(r)) then None
      else
        DigitsAreDigitsOrUnderscores(m);
        DigitsAreDigitsOrUnderscores(r);
        var mv, rv := DigitsValue(m), DigitsValue(r);
        if mv >= 1 && 1 <= rv <= slotSize then
          Modbus.MulNonNegative(mv - 1, slotSize);
          Some((mv - 1) * slotSize + (rv - 1))
        else None
  }

  /** A coordinate whose module numeral has no dash splits at the dash
      after it. */
  lemma SplitAtDash(m: string, r: string)
    requires AllDigits(m)
    ensures FirstDash(m + "-" + r) == |m|
    ensures (m + "-" + r)[..|m|] == m && (m + "-" + r)[|m| + 1..] == r
  {
    var c := m + "-" + r;
    assert forall i :: 0 <= i < |m| ==> c[i] == m[i];
    assert c[|m|] == '-';
  }

  /** A coordinate names the entity it was made for: "<module>-<slot>" with
      the slot in 1..slotSize decodes back to the address. */
  lemma {:induction false} CoordinateRoundTrip(address: nat, slotSize: nat)
    requires slotSize > 0
    ensures CoordinateIndex(MqttCoordinate(address, slotSize), slotSize) == Some(address)
  {
    var q, rem := address / slotSize, address % slotSize;
    CoordinateArithmetic(address, slotSize, q, rem);
    var m, r := NatToString(q + 1), NatToString(rem + 1);
    var c := m + "-" + r;
    assert c == MqttCoordinate(address, slotSize);
    SplitAtDash(m, r);
    assert DigitsValue(m) == q + 1 && DigitsValue(r) == rem + 1 by {
      DigitsValueOfNatToString(q + 1);
      DigitsValueOfNatToString(rem + 1);
    }
  }

  /** The module and slot numbers of a coordinate put the address back together. */
  lemma CoordinateArithmetic(address: nat, slotSize: nat, q: int, rem: int)
    requires slotSize > 0 && q == address / slotSize && rem == address % slotSize
    ensures 0 <= rem < slotSize && q >= 0 && q * slotSize + rem == address
  {
  }

  /** Distinct entities of one class and kind get distinct topics. */
  lemma TopicBaseInjective(d: Descriptor, e: Descriptor)
    requires d.kind == e.kind && d.cls == e.cls
    requires TopicBase(d) == TopicBase(e)
    ensures d.idx == e.idx
  {
    var p := "plc/" + d.cls.name + "/";
    assert TopicBase(d) == p + Coordinate(d);
    assert TopicBase(e) == p + Coordinate(e);
    assert Coordinate(d) == TopicBase(d)[|p|..];
    assert Coordinate(e) == TopicBase(e)[|p|..];
    CoordinateRoundTrip(d.idx, SlotSize(d.kind));
    CoordinateRoundTrip(e.idx, SlotSize(e.kind));
  }

  /** `Entity.modbus_read_address`: the index plus the read offset (not scaled
      by the data size). */
  function ReadAddress(d: Descriptor): int {
    d.idx + d.cls.readOffset
  }

  /** The integer attributes a ModbusClass instance has, by Python name. */
  function IntAttribute(cls: ModbusClass, attribute: string): Option<int> {
    if attribute == "data_size" then Some(cls.dataSize)
    else if attribute == "read_offset" then Some(cls.readOffset)
    else if attribute == "write_offset" then Some(cls.writeOffset)
    else None
  }

  /** `Entity.modbus_write_address` as written: it looks up the attribute
      `data_sizdata_size`, which no ModbusClass has. */
  function WriteAddressAsWritten(d: Descriptor): Result<int> {
    match IntAttribute(d.cls, "data_sizdata_size")
    case None => Failure(AttributeError)
    case Some(size) => Success(d.idx * size + d.cls.writeOffset)
  }

  /** `Entity.modbus_write_address` as intended: item `idx` of the class's
      write area, each item `data_size` wide. */
  function WriteAddress(d: Descriptor): int {
    d.idx * d.cls.dataSize + d.cls.writeOffset
  }

  /** As written, every write address lookup raises. */
  lemma WriteAddressAsWrittenFails(d: Descriptor)
    ensures WriteAddressAsWritten(d) == Failure(AttributeError)
  {
  }

  /** The intended write areas of distinct entities of one class do not
      overlap: entity i owns [WriteAddress, WriteAddress + data_size). */
  lemma WriteAreasDisjoint(d: Descriptor, e: Descriptor, a: int)
    requires d.cls == e.cls && d.idx != e.idx
    requires WriteAddress(d) <= a < WriteAddress(d) + d.cls.dataSize
    ensures !(WriteAddress(e) <= a < WriteAddress(e) + e.cls.dataSize)
  {
    var w := d.cls.dataSize;
    if d.idx < e.idx {
      Modbus.WindowEnd(d.idx, e.idx, w);
    } else {
      Modbus.WindowEnd(e.idx, d.idx, w);
    }
  }

  // ---------------------------------------------------------------------
  // Construction

  predicate SupportedType(t: DataType) {
    t == Coil || t == Register
  }

  /** Why constructing an entity of this kind over this class raises, if it
      does: `initialize` checks the data type, BlindEntity the layout. */
  function ConstructionCheck(cls: ModbusClass, kind: Kind): Option<Exception> {
    if !SupportedType(cls.dataType) then Some(UnsupportedDataType)
    else if kind == Blind && cls.dataType != Register then Some(BlindNeedsRegisters)
    else if kind == Blind && cls.dataSize != 2 then Some(BlindNeedsTwoWords)
    else None
  }

  /** `discovery_component`, formatted as `format` prints it ("None" for
      the kinds that have none). */
  function Component(kind: Kind): string {
    match kind
    case LightRelay => "light"
    case Blind => "cover"
    case _ => "None"
  }

  /** Only output and blind entities have a discovery payload. */
  predicate HasDiscoveryPayload(kind: Kind) {
    kind == BitOutput || kind == LightRelay || kind == Blind
  }

  function DiscoveryUid(d: Descriptor): string {
    Component(d.kind) + "-" + d.cls.name + "-" + Coordinate(d)
  }

  function DiscoveryTopic(d: Descriptor): string {
    DiscoveryPrefix + "/" + Component(d.kind) + "/plc/" + DiscoveryUid(d) + "/config"
  }

  /** What `initialize` publishes: nothing when the data type is refused,
      else the retained discovery message of the kinds that have one. */
  function InitPublishes(d: Descriptor): seq<Publish> {
    if !SupportedType(d.cls.dataType) || !HasDiscoveryPayload(d.kind) then []
    else [Publish(DiscoveryTopic(d), DiscoveryDocument, true)]
  }

  /** What `initialize` subscribes to: outputs their set topic, blinds their
      set and config topics; nothing when the data type is refused. */
  function InitSubscriptions(d: Descriptor): seq<Subscription> {
    if !SupportedType(d.cls.dataType) then []
    else match d.kind
      case BitOutput => [Subscription(Topic(d, "set"), SetHandler)]
      case LightRelay => [Subscription(Topic(d, "set"), SetHandler)]
      case Blind => [Subscription(Topic(d, "set"), SetHandler), Subscription(Topic(d, "config"), ConfigHandler)]
      case _ => []
  }

  // ---------------------------------------------------------------------
  // State and the sample state machines

  /** The fields an entity updates: `state` (bit kinds), `click_count`,
      `hold`, `timestamp` (buttons), `pos`, `target`, `t_up`, `t_dn` (blinds). */
  datatype EntityState = EntityState(
    state: Option<int>,
    clickCount: nat,
    hold: bool,
    timestamp: int,
    pos: int,
    target: Option<int>,
    tUp: int,
    tDn: int)

  /** The state every constructor leaves. */
  const Initial := EntityState(None, 0, false, 0, 0, Some(0), 0, 0)

  datatype Step = Step(next: EntityState, published: seq<Publish>)

  function OnOff(v: int): string {
    if v != 0 then "ON" else "OFF"
  }

  /** `BitEntity.process_modbus_data` on the sample's first item. */
  function BitStep(d: Descriptor, s: EntityState, v: int): Step {
    if Some(v) != s.state then
      Step(s.(state := Some(v)), [Publish(Topic(d, "status"), Text(OnOff(v)), d.cls.readOnly)])
    else Step(s, [])
  }

  /** `ButtonEntity.process_modbus_data`: the bit step, then one of the edge,
      long-press or click-pause branches. A sample item compares equal to
      True when it is 1 and to False when it is 0. */
  function ButtonStep(d: Descriptor, s: EntityState, now: int, v: int): Step {
    var b := BitStep(d, s, v);
    var t := b.next;
    if s.state != t.state then
      if v == 1 then
        Step(t.(clickCount := t.clickCount + 1, timestamp := now), b.published)
      else if v == 0 && t.hold then
        Step(t.(hold := false, clickCount := 0, timestamp := now),
             b.published + [Publish(Topic(d, "long"), Text("RELEASE"), false)])
      else
        Step(t.(timestamp := now), b.published)
    else if v == 1 && !t.hold then
      if now - t.timestamp > LongPressMin then
        Step(t.(hold := true), [Publish(Topic(d, "long"), Number(t.clickCount), false)])
      else Step(t, [])
    else if v == 0 && t.clickCount > 0 then
      if now - t.timestamp > ClickPauseMax then
        Step(t.(clickCount := 0), [Publish(Topic(d, "click"), Number(t.clickCount), false)])
      else Step(t, [])
    else Step(t, [])
  }

  // Python's masks on (unbounded, two's-complement) ints, written with
  // Euclidean division, which agrees with them on every integer.

  /** `w & 0x80 != 0` */
  predicate MoveFlag(w: int) {
    (w / 128) % 2 == 1
  }

  /** `w & 0x7F` */
  function Low7(w: int): int {
    w % 128
  }

  /** `(w & 0xFF00) >> 8` */
  function HighByte(w: int): int {
    (w % 65536) / 256
  }

  /** `w & 0x00FF` */
  function LowByte(w: int): int {
    w % 256
  }

  /** `v | 0x80` */
  function WithMoveFlag(v: int): int {
    if MoveFlag(v) then v else v + 128
  }

  /** The target a blind's first word reports: none while the move flag is
      clear (stopped), else the low seven bits. */
  function TargetOf(w0: int): Option<int> {
    if !MoveFlag(w0) then None else Some(Low7(w0))
  }

  function TargetPayload(t: Option<int>): Payload {
    if t.None? then Null else Number(t.value)
  }

  /** `BlindEntity.process_modbus_data`: decode the two words, then publish
      each field that changed, in the order status, target, t_up, t_dn. */
  function BlindStep(d: Descriptor, s: EntityState, w0: int, w1: int): Step {
    var target, pos, up, dn := TargetOf(w0), HighByte(w0), HighByte(w1), LowByte(w1);
    Step(s.(pos := pos, target := target, tUp := up, tDn := dn),
         PosPublishes(d, s, pos) + TargetPublishes(d, s, target) + UpPublishes(d, s, up) + DnPublishes(d, s, dn))
  }

  function PosPublishes(d: Descriptor, s: EntityState, pos: int): seq<Publish> {
    if s.pos != pos then [Publish(Topic(d, "status"), Number(pos), false)] else []
  }

  function TargetPublishes(d: Descriptor, s: EntityState, target: Option<int>): seq<Publish> {
    if s.target != target then [Publish(Topic(d, "target"), TargetPayload(target), false)] else []
  }

  function UpPublishes(d: Descriptor, s: EntityState, up: int): seq<Publish> {
    if s.tUp != up then [Publish(Topic(d, "t_up"), Number(up), false)] else []
  }

  function DnPublishes(d: Descriptor, s: EntityState, dn: int): seq<Publish> {
    if s.tDn != dn then [Publish(Topic(d, "t_dn"), Number(dn), false)] else []
  }

  datatype Outcome = Outcome(next: EntityState, published: seq<Publish>, failure: Option<Exception>)

  /** `Entity.on_modbus_data`: a sample whose length is not the class's data
      size raises before anything happens; so does one too short to index. */
  function Process(d: Descriptor, s: EntityState, now: int, data: seq<int>): (o: Outcome)
    ensures o.failure.Some? ==> o.next == s && o.published == []
  {
    if |data| != d.cls.dataSize then Outcome(s, [], Some(DataLength))
    else if d.kind == Blind then
      if |data| < 2 then Outcome(s, [], Some(IndexError))
      else var r := BlindStep(d, s, data[0], data[1]); Outcome(r.next, r.published, None)
    else if |data| == 0 then Outcome(s, [], Some(IndexError))
    else if d.kind == Button then
      var r := ButtonStep(d, s, now, data[0]); Outcome(r.next, r.published, None)
    else
      var r := BitStep(d, s, data[0]); Outcome(r.next, r.published, None)
  }

  // ---------------------------------------------------------------------
  // Command decoders

  predicate Truthy(v: Option<int>) {
    v.Some? && v.value != 0
  }

  /** `BitOutputEntity.on_mqtt_set`: the coil value a relay command asks for,
      None for an unrecognised command. */
  function DecodeSwitch(payload: string, state: Option<int>): Option<bool> {
    var u := Upper(payload);
    if u == "ON" || u == "1" then Some(true)
    else if u == "OFF" || u == "0" then Some(false)
    else if u == "TOGGLE" then Some(!Truthy(state))
    else None
  }

  /** `max(0, min(100, n))`, as the two comparisons do it. */
  function Clamp(n: int): int {
    if n < 0 then 0 else if n > 100 then 100 else n
  }

  /** `BlindEntity.on_mqtt_set`: the word written to a blind's first
      register, Success(None) for an unsupported command, and the TypeError
      of `None & 0x7F` for STOP while the blind reports no target. The
      command words are matched case-sensitively. */
  function BlindSetWord(payload: string, target: Option<int>): Result<Option<int>> {
    match ParseInt(payload)
    case Some(n) => Success(Some(WithMoveFlag(Clamp(n))))
    case None =>
      if payload == "OPEN" then Success(Some(WithMoveFlag(100)))
      else if payload == "CLOSE" then Success(Some(WithMoveFlag(0)))
      else if payload == "STOP" then
        if target.None? then Failure(TypeError) else Success(Some(Low7(target.value)))
      else Success(None)
  }

  /** `BlindEntity.on_mqtt_config`: the packed `(t_up << 8) + t_dn` word, a
      missing field taken from the state; None when both are missing. */
  function ConfigWord(s: EntityState, tUp: Option<int>, tDn: Option<int>): Option<int> {
    if tUp.None? && tDn.None? then None
    else Some(tUp.GetOr(s.tUp) * 256 + tDn.GetOr(s.tDn))
  }

  /** The write a set command issues, if any, or the exception it raises. */
  function SetCommand(d: Descriptor, s: EntityState, payload: string): Result<Option<Write>> {
    if d.kind == Blind then
      match BlindSetWord(payload, s.target)
      case Failure(e) => Failure(e)
      case Success(w) =>
        if w.None? then Success(None)
        else Success(Some(WriteRegisters(WriteAddress(d), Modbus.Single(w.value))))
    else
      match DecodeSwitch(payload, s.state)
      case None => Success(None)
      case Some(b) => Success(Some(WriteCoils(WriteAddress(d), Modbus.Single(b))))
  }

  /** The same command with the write address computed as written. */
  function SetCommandAsWritten(d: Descriptor, s: EntityState, payload: string): Result<Option<Write>> {
    match SetCommand(d, s, payload)
    case Failure(e) => Failure(e)
    case Success(w) =>
      if w.None? then Success(None)
      else match WriteAddressAsWritten(d)
        case Failure(e) => Failure(e)
        case Success(a) => Success(Some(w.value.(address := a)))
  }

  /** The write a config command issues, if any: to the register after the
      blind's first one. */
  function ConfigCommand(d: Descriptor, s: EntityState, tUp: Option<int>, tDn: Option<int>): Option<Write> {
    match ConfigWord(s, tUp, tDn)
    case None => None
    case Some(w) => Some(WriteRegisters(WriteAddress(d) + 1, Modbus.Single(w)))
  }

  // ---------------------------------------------------------------------
  // The entity object

  class Entity {
    const gateway: GatewayInterface
    const modbusClass: ModbusClass
    const kind: Kind
    const modbusIdx: nat

    var state: Option<int>
    var clickCount: nat
    var hold: bool
    var timestamp: int
    var pos: int
    var target: Option<int>
    var tUp: int
    var tDn: int

    function Describe(): Descriptor {
      Descriptor(kind, modbusClass, modbusIdx)
    }

    ghost function Snapshot(): EntityState
      reads this
    {
      EntityState(state, clickCount, hold, timestamp, pos, target, tUp, tDn)
    }

    /** The entity passed the constructor's checks. */
    predicate WellFormed() {
      ConstructionCheck(modbusClass, kind).None?
    }

    constructor (gateway: GatewayInterface, modbusClass: ModbusClass, kind: Kind, modbusIdx: nat)
      ensures this.gateway == gateway && Describe() == Descriptor(kind, modbusClass, modbusIdx)
      ensures Snapshot() == Initial
    {
      this.gateway := gateway;
      this.modbusClass := modbusClass;
      this.kind := kind;
      this.modbusIdx := modbusIdx;
      state := None;
      clickCount, hold, timestamp := 0, false, 0;
      pos, target, tUp, tDn := 0, Some(0), 0, 0;
    }

    method Emit(level: string, payload: Payload, retain: bool)
      modifies gateway
      ensures gateway.published == old(gateway.published) + [Publish(Topic(Describe(), level), payload, retain)]
      ensures gateway.subscriptions == old(gateway.subscriptions) && gateway.writes == old(gateway.writes)
    {
      gateway.published := gateway.published + [Publish(Topic(Describe(), level), payload, retain)];
    }

    /** `BitEntity.process_modbus_data`, from the sample's first item on; it
        returns the state before the call. */
    method ProcessBit(timestamp: int, newVal: int) returns (oldVal: Option<int>)
      modifies this, gateway
      ensures oldVal == old(state)
      ensures Snapshot() == BitStep(Describe(), old(Snapshot()), newVal).next
      ensures gateway.published == old(gateway.published) + BitStep(Describe(), old(Snapshot()), newVal).published
      ensures gateway.subscriptions == old(gateway.subscriptions) && gateway.writes == old(gateway.writes)
    {
      oldVal := state;
      if Some(newVal) != state {
        var retain := modbusClass.readOnly;
        var value := if newVal != 0 then "ON" else "OFF";
        Emit("status", Text(value), retain);
        state := Some(newVal);
      }
    }

    /** `ButtonEntity.process_modbus_data`, from the sample's first item on. */
    method ProcessButton(timestamp: int, newVal: int) returns (oldVal: Option<int>)
      modifies this, gateway
      ensures oldVal == old(state)
      ensures Snapshot() == ButtonStep(Describe(), old(Snapshot()), timestamp, newVal).next
      ensures gateway.published == old(gateway.published) + ButtonStep(Describe(), old(Snapshot()), timestamp, newVal).published
      ensures gateway.subscriptions == old(gateway.subscriptions) && gateway.writes == old(gateway.writes)
    {
      oldVal := ProcessBit(timestamp, newVal);
      if oldVal != state {
        if state == Some(1) {
          clickCount := clickCount + 1;
        } else if state == Some(0) {
          if hold {
            Emit("long", Text("RELEASE"), false);
            hold := false;
            clickCount := 0;
          }
        }
        this.timestamp := timestamp;
      } else if state == Some(1) && !hold {
        var delta := timestamp - this.timestamp;
        if delta > LongPressMin {
          Emit("long", Number(clickCount), false);
          hold := true;
        }
      } else if state == Some(0) && clickCount > 0 {
        var delta := timestamp - this.timestamp;
        if delta > ClickPauseMax {
          Emit("click", Number(clickCount), false);
          clickCount := 0;
        }
      }
    }

    method UpdatePos(newPos: int)
      modifies this, gateway
      ensures Snapshot() == old(Snapshot()).(pos := newPos)
      ensures gateway.published == old(gateway.published) + PosPublishes(Describe(), old(Snapshot()), newPos)
      ensures gateway.subscriptions == old(gateway.subscriptions) && gateway.writes == old(gateway.writes)
    {
      if pos != newPos {
        Emit("status", Number(newPos), false);
        pos := newPos;
      }
    }

    method UpdateTarget(newTarget: Option<int>)
      modifies this, gateway
      ensures Snapshot() == old(Snapshot()).(target := newTarget)
      ensures gateway.published == old(gateway.published) + TargetPublishes(Describe(), old(Snapshot()), newTarget)
      ensures gateway.subscriptions == old(gateway.subscriptions) && gateway.writes == old(gateway.writes)
    {
      if target != newTarget {
        Emit("target", TargetPayload(newTarget), false);
        target := newTarget;
      }
    }

    method UpdateUp(newUp: int)
      modifies this, gateway
      ensures Snapshot() == old(Snapshot()).(tUp := newUp)
      ensures gateway.published == old(gateway.published) + UpPublishes(Describe(), old(Snapshot()), newUp)
      ensures gateway.subscriptions == old(gateway.subscriptions) && gateway.writes == old(gateway.writes)
    {
      if tUp != newUp {
        Emit("t_up", Number(newUp), false);
        tUp := newUp;
      }
    }

    method UpdateDn(newDn: int)
      modifies this, gateway
      ensures Snapshot() == old(Snapshot()).(tDn := newDn)
      ensures gateway.published == old(gateway.published) + DnPublishes(Describe(), old(Snapshot()), newDn)
      ensures gateway.subscriptions == old(gateway.subscriptions) && gateway.writes == old(gateway.writes)
    {
      if tDn != newDn {
        Emit("t_dn", Number(newDn), false);
        tDn := newDn;
      }
    }

    /** `BlindEntity.process_modbus_data`, from the sample's two words on. */
    method ProcessBlind(w0: int, w1: int)
      modifies this, gateway
      ensures Snapshot() == BlindStep(Describe(), old(Snapshot()), w0, w1).next
      ensures gateway.published == old(gateway.published) + BlindStep(Describe(), old(Snapshot()), w0, w1).published
      ensures gateway.subscriptions == old(gateway.subscriptions) && gateway.writes == old(gateway.writes)
    {
      var newTarget := if !MoveFlag(w0) then None else Some(Low7(w0));
      var newPos := HighByte(w0);
      var newUp := HighByte(w1);
      var newDn := LowByte(w1);
      ghost var d, s0, p0 := Describe(), Snapshot(), gateway.published;
      assert newTarget == TargetOf(w0);
      UpdatePos(newPos);
      ghost var p1 := PosPublishes(d, s0, newPos);
      UpdateTarget(newTarget);
      ghost var p2 := p1 + TargetPublishes(d, s0, newTarget);
      assert gateway.published == p0 + p2;
      UpdateUp(newUp);
      ghost var p3 := p2 + UpPublishes(d, s0, newUp);
      assert gateway.published == p0 + p3;
      UpdateDn(newDn);
      assert gateway.published == p0 + (p3 + DnPublishes(d, s0, newDn));
    }

    /** `Entity.on_modbus_data`: check the sample's length, then run the
        kind's state machine. */
    method OnModbusData(timestamp: int, data: seq<int>) returns (failure: Option<Exception>)
      modifies this, gateway
      ensures Snapshot() == Process(Describe(), old(Snapshot()), timestamp, data).next
      ensures gateway.published == old(gateway.published) + Process(Describe(), old(Snapshot()), timestamp, data).published
      ensures failure == Process(Describe(), old(Snapshot()), timestamp, data).failure
      ensures gateway.subscriptions == old(gateway.subscriptions) && gateway.writes == old(gateway.writes)
    {
      if |data| != modbusClass.dataSize {
        return Some(DataLength);
      }
      if kind == Blind {
        if |data| < 2 {
          return Some(IndexError);
        }
        ProcessBlind(data[0], data[1]);
      } else {
        if |data| == 0 {
          return Some(IndexError);
        }
        if kind == Button {
          var _ := ProcessButton(timestamp, data[0]);
        } else {
          var _ := ProcessBit(timestamp, data[0]);
        }
      }
      failure := None;
    }

    /** `on_mqtt_set` of outputs and blinds: the write a command issues. */
    method OnMqttSet(payload: string) returns (failure: Option<Exception>)
      requires kind == BitOutput || kind == LightRelay || kind == Blind
      modifies gateway
      ensures var r := SetCommand(Describe(), Snapshot(), payload);
        && failure == (if r.Failure? then Some(r.error) else None)
        && gateway.writes == old(gateway.writes) + (if r.Success? && r.value.Some? then [r.value.value] else [])
      ensures gateway.published == old(gateway.published) && gateway.subscriptions == old(gateway.subscriptions)
    {
      failure := None;
      if kind == Blind {
        var value: int;
        var n := ParseInt(payload);
        if n.Some? {
          value := n.value;
          if value < 0 {
            value := 0;
          } else if value > 100 {
            value := 100;
          }
          value := WithMoveFlag(value);
        } else if payload == "OPEN" {
          value := WithMoveFlag(100);
        } else if payload == "CLOSE" {
          value := WithMoveFlag(0);
        } else if payload == "STOP" {
          if target.None? {
            return Some(TypeError);
          }
          value := Low7(target.value);
        } else {
          return;
        }
        gateway.writes := gateway.writes + [WriteRegisters(WriteAddress(Describe()), Modbus.Single(value))];
      } else {
        var upper := Upper(payload);
        var value: Option<bool> := None;
        if upper == "ON" || upper == "1" {
          value := Some(true);
        } else if upper == "OFF" || upper == "0" {
          value := Some(false);
        } else if upper == "TOGGLE" {
          value := Some(!Truthy(state));
        }
        if value.Some? {
          gateway.writes := gateway.writes + [WriteCoils(WriteAddress(Describe()), Modbus.Single(value.value))];
        }
      }
    }

    /** `BlindEntity.on_mqtt_config`, given the two travel-time fields of
        the JSON payload (None where a field is absent). */
    method OnMqttConfig(tUpField: Option<int>, tDnField: Option<int>)
      requires kind == Blind
      modifies gateway
      ensures var w := ConfigCommand(Describe(), Snapshot(), tUpField, tDnField);
        gateway.writes == old(gateway.writes) + (if w.Some? then [w.value] else [])
      ensures gateway.published == old(gateway.published) && gateway.subscriptions == old(gateway.subscriptions)
    {
      if tUpField.Some? || tDnField.Some? {
        var conf: int;
        if tUpField.Some? && tDnField.Some? {
          conf := tUpField.value * 256 + tDnField.value;
        } else if tUpField.Some? {
          conf := tUpField.value * 256 + tDn;
        } else {
          conf := tUp * 256 + tDnField.value;
        }
        gateway.writes := gateway.writes + [WriteRegisters(WriteAddress(Describe()) + 1, Modbus.Single(conf))];
      }
    }
  }

  /** Constructing an entity (`Entity.__init__` with `initialize`, and the
      BlindEntity checks after it): the data-type check raises before any
      effect; the blind checks raise after the discovery message and the
      subscriptions. */
  method NewEntity(gateway: GatewayInterface, cls: ModbusClass, kind: Kind, idx: nat) returns (r: Result<Entity>)
    modifies gateway
    ensures var d := Descriptor(kind, cls, idx);
      && gateway.published == old(gateway.published) + InitPublishes(d)
      && gateway.subscriptions == old(gateway.subscriptions) + InitSubscriptions(d)
    ensures gateway.writes == old(gateway.writes)
    ensures r.Failure? <==> ConstructionCheck(cls, kind).Some?
    ensures r.Failure? ==> r.error == ConstructionCheck(cls, kind).value
    ensures r.Success? ==> && fresh(r.value) && r.value.gateway == gateway && r.value.WellFormed()
                           && r.value.Describe() == Descriptor(kind, cls, idx) && r.value.Snapshot() == Initial
  {
    var d := Descriptor(kind, cls, idx);
    if !SupportedType(cls.dataType) {
      return Failure(UnsupportedDataType);
    }
    if HasDiscoveryPayload(kind) {
      gateway.published := gateway.published + [Publish(DiscoveryTopic(d), DiscoveryDocument, true)];
    }
    if kind == BitOutput || kind == LightRelay || kind == Blind {
      gateway.subscriptions := gateway.subscriptions + [Subscription(Topic(d, "set"), SetHandler)];
    }
    if kind == Blind {
      gateway.subscriptions := gateway.subscriptions + [Subscription(Topic(d, "config"), ConfigHandler)];
      if cls.dataType != Register {
        return Failure(BlindNeedsRegisters);
      }
      if cls.dataSize != 2 {
        return Failure(BlindNeedsTwoWords);
      }
    }
    var e := new Entity(gateway, cls, kind, idx);
    return Success(e);
  }
}
