# Modbus ↔ MQTT gateway, modelled in Dafny

The repository bridges a PLC on a Modbus fieldbus to an MQTT broker. Home
Assistant discovers the PLC's inputs, relays, lights and blinds over MQTT. It
contains three generations of the same gateway, and each one is modelled here:

- **modbus-mqtt/gateway/entity.py**, modelled in `Entities` (entities.dfy)
  with its properties in `EntityProperties` (entity_properties.dfy).
  - A `ModbusClass` describes a memory area of the PLC: its data type, item
    width, read and write offsets, and whether it is read-only.
  - Entities of five kinds stand over it: bits, buttons, bit outputs, light
    relays and blinds. Here they are one `Entity` class tagged with its
    `Kind`.
  - Each entity derives its topics ("plc/<class>/<module>-<slot>/…") and
    its addresses from its index.
  - It turns every sample of its items into MQTT publishes: status changes,
    click and long-press events, a blind's position, target and travel times.
  - It turns commands on its `set` and `config` topics into coil or
    register writes.
  - Every step is a pure function. The class methods perform it field by
    field and are proved against that function.
- **modbus-mqtt/gateway/gateway.py**, modelled in `PollGateway`
  (poll_gateway.dfy).
  - The gateway holds groups of entities ("processors"). Each group stands
    over one class and is polled every `time_wait` ms by one bulk read of
    `data_size * n` items.
  - The items read are handed out window by window, entity k taking items
    `k*w .. k*w+w`.
  - A step polls every group in order and stores the timestamps returned.
    Write helpers send requests through a TCP client that retries once after
    an error answer.
- **gateway.py** (top level), modelled in `UnitGateway` (unit_gateway.dfy).
  This is the older polling gateway. It chooses the bulk read by the class's
  unit: coils for 1 bit, holding registers for 16 bits, anything else raises.
  Its write helpers send straight through, with no retry.
- **ModbusMQTT.py**, modelled in `ModbusMqtt` (modbus_mqtt.dfy) with its
  properties in `ModbusMqttProperties` (mqtt_properties.dfy).
  - This is the stand-alone bit gateway. Bit, button and light-relay entities
    are fed from one coil read.
  - Entities put MQTT events and coil writes on an outbound queue.
  - An inbound topic "plc/<ns>/<m>-<n>/<event>" is parsed back to the entity
    it names.

`Py` (py.dfy) holds the Python behaviour the code relies on:
- optional values and the exceptions raised;
- list slicing and negative indexing;
- `str.upper`, `str(int)` and `int(str)`, with their round trip.

`Modbus` (modbus.dfy) holds what both polling gateways share:
- read and write requests;
- the fan-out of one read over a group;
- the TCP client.

The clock reading and the device's answers are method parameters.
Everything handed to the UDP client or the TCP client is a field holding
the record of calls, in order. So is everything the entities of entity.py and
ModbusMQTT.py hand to MQTT, and the availability message of
modbus-mqtt/gateway/gateway.py. `UnitGateway` records no MQTT traffic.

A blind first seen at position 0 publishes no position, because `pos`
starts at 0 and only a changed position is published
(`EntityProperties.CoverExample`).

## Model

| member | source | states |
|---|---|---|
| Entities.GatewayInterface.constructor | modbus-mqtt/gateway/entity.py:10-26 | The gateway interface starts with no publishes, subscriptions or writes recorded. |
| Entities.FirstDash | modbus-mqtt/gateway/entity.py:60-63 | The position of the first '-' in a coordinate: no dash before it, a dash at it unless it is the end. |
| Entities.DashFrom | modbus-mqtt/gateway/entity.py:60-63 | The first '-' at or after a position, with the same two guarantees. |
| Entities.SplitAtDash | modbus-mqtt/gateway/entity.py:60-63 | A coordinate "<m>-<r>" whose module numeral is all digits splits at the dash after m, giving m and r back. |
| Entities.CoordinateRoundTrip | modbus-mqtt/gateway/entity.py:60-63 | The coordinate "<idx//s+1>-<idx%s+1>" decodes back to idx for every slot size s > 0, by an independent decoder. |
| Entities.CoordinateArithmetic | modbus-mqtt/gateway/entity.py:60-63 | Module and slot numbers rebuild the index: q*s + r == idx with 0 <= r < s. |
| Entities.TopicBaseInjective | modbus-mqtt/gateway/entity.py:112-118 | Two entities of one class and kind with the same base topic have the same index. |
| Entities.WriteAddressAsWrittenFails | modbus-mqtt/gateway/entity.py:108-110 | As written, `modbus_write_address` raises AttributeError for every entity: the attribute `data_sizdata_size` does not exist. |
| Entities.WriteAreasDisjoint | modbus-mqtt/gateway/entity.py:108-110 | With the intended address idx*data_size + write_offset, the write areas of two distinct entities of a class do not overlap. |
| Entities.Process | modbus-mqtt/gateway/entity.py:142-146 | A sample that makes `on_modbus_data` raise leaves the state unchanged and publishes nothing. |
| Entities.Entity.constructor | modbus-mqtt/gateway/entity.py:74-88 | A new entity keeps its gateway, class, kind and index. It starts with no state, no clicks, no hold, timestamp 0, position 0 and target 0. |
| Entities.Entity.Emit | modbus-mqtt/gateway/entity.py:137-140 | A publish on "<base>/<level>" is appended to the gateway's publishes. Subscriptions and writes are unchanged. |
| Entities.Entity.ProcessBit | modbus-mqtt/gateway/entity.py:155-172 | The bit step: on a changed value, publish ON/OFF on status (retained when the class is read-only) and keep the value. The previous state is returned. |
| Entities.Entity.ProcessButton | modbus-mqtt/gateway/entity.py:190-229 | The fields and publishes after a sample are exactly `ButtonStep`'s. The Button* lemmas of EntityProperties state that step's promises for every state and time: click counting, RELEASE after a hold, a long event past 400 ms, a click event past 250 ms. |
| Entities.Entity.UpdatePos | modbus-mqtt/gateway/entity.py:337-366 | The position is updated; it is published on status only when it changed. |
| Entities.Entity.UpdateTarget | modbus-mqtt/gateway/entity.py:337-366 | The target is updated; it is published only when it changed. A target of None is published as `Payload.Null`, which stands for the empty payload paho sends for `mqtt_publish(topic, None)`. |
| Entities.Entity.UpdateUp | modbus-mqtt/gateway/entity.py:337-366 | The upward travel time is updated; it is published only when it changed. |
| Entities.Entity.UpdateDn | modbus-mqtt/gateway/entity.py:337-366 | The downward travel time is updated; it is published only when it changed. |
| Entities.Entity.ProcessBlind | modbus-mqtt/gateway/entity.py:337-366 | The blind step on two words: the new state and the publishes, in the order status, target, t_up, t_dn. |
| Entities.Entity.OnModbusData | modbus-mqtt/gateway/entity.py:142-146 | Fields, publishes and the exception raised are those of `Process`: a length check, then the kind's state machine. Subscriptions and writes are unchanged. |
| Entities.Entity.OnMqttSet | modbus-mqtt/gateway/entity.py:237-252 | A set command appends exactly the write `SetCommand` decodes, or raises its exception (STOP without a target), or does nothing. Nothing is published. |
| Entities.Entity.OnMqttConfig | modbus-mqtt/gateway/entity.py:322-335 | A config command writes (t_up<<8)+t_dn to the register after the blind's first. A missing field is taken from the state; with both missing, nothing is written. |
| Entities.NewEntity | modbus-mqtt/gateway/entity.py:74-102 | Construction publishes the retained discovery message and subscribes the set and config handlers of its kind. It raises exactly the construction check's error, with the data-type check coming before any effect. |
| EntityProperties.BitStepPublishesOnChange | modbus-mqtt/gateway/entity.py:155-172 | A bit publishes once, on status and retained when read-only, exactly when the value changes; it then holds the value. |
| EntityProperties.BitStepIdempotent | modbus-mqtt/gateway/entity.py:155-172 | The same sample a second time publishes nothing and changes nothing. |
| EntityProperties.DecodeSwitchSpec | modbus-mqtt/gateway/entity.py:237-252 | Case-insensitively, in both directions: ON/1 write true, OFF/0 write false, TOGGLE writes the negated state, and anything else writes nothing. |
| EntityProperties.StatusAsCommand | modbus-mqtt/gateway/entity.py:155-172 | The status text a bit publishes, sent back as a command, writes that bit's value. |
| EntityProperties.ToggleTwice | modbus-mqtt/gateway/entity.py:237-252 | Toggling, reporting the value back, and toggling again writes the original value. |
| EntityProperties.SwitchCommandWrites | modbus-mqtt/gateway/entity.py:237-252 | A relay command never raises, and it writes one coil at the entity's write address exactly when it decodes. |
| EntityProperties.BlindDecodesLayout | modbus-mqtt/gateway/entity.py:337-366 | Decoding the device's two-word layout gives back position, target (None when stopped) and both travel times. |
| EntityProperties.BlindDecodedInRange | modbus-mqtt/gateway/entity.py:337-366 | Any two words decode to a byte-range position and travel times, and a 7-bit target. |
| EntityProperties.BlindPublishesIffChanged | modbus-mqtt/gateway/entity.py:337-366 | A blind publishes nothing exactly when its state does not change. It publishes at most four messages, none retained. |
| EntityProperties.BlindStepIdempotent | modbus-mqtt/gateway/entity.py:337-366 | Repeating a blind sample is silent. |
| EntityProperties.CoverExample | modbus-mqtt/gateway/entity.py:337-366 | From the initial state, position 0 moving to 50 with times 10/5 publishes target, t_up and t_dn, but not the position. |
| EntityProperties.BlindSetWordSpec | modbus-mqtt/gateway/entity.py:299-320 | A written word fits a byte, with the position byte zero. A number writes its clamp with the move flag. STOP without a target is the only error, and the words that exist are the only ones that write. |
| EntityProperties.NotANumber | modbus-mqtt/gateway/entity.py:299-320 | A stripped text starting with no digit or sign is not an `int()`. |
| EntityProperties.BlindSetReadBack | modbus-mqtt/gateway/entity.py:299-366 | The blind reads back what a set command wrote: a number gives target clamp(n), OPEN 100, CLOSE 0, STOP no target, and the position always 0. |
| EntityProperties.SetWordTarget | modbus-mqtt/gateway/entity.py:299-320 | The target each accepted command's word carries, with a zero position byte. |
| EntityProperties.SetWordNumber | modbus-mqtt/gateway/entity.py:302-307 | A numeric payload carries its clamped value as target and is none of the command words. |
| EntityProperties.SetWordCommand | modbus-mqtt/gateway/entity.py:308-316 | The words OPEN, CLOSE and STOP carry targets 100, 0 and none. |
| EntityProperties.CommandWordsNotNumbers | modbus-mqtt/gateway/entity.py:302-316 | OPEN, CLOSE and STOP do not parse as integers, so each reaches its own branch. |
| EntityProperties.CommandWord | modbus-mqtt/gateway/entity.py:308-316 | The word each of OPEN, CLOSE and STOP writes. |
| EntityProperties.FlaggedTarget | modbus-mqtt/gateway/entity.py:307-312 | `c | 0x80` for 0 <= c <= 100 is c + 128 and reads back as target c at position 0. |
| EntityProperties.StoppedTarget | modbus-mqtt/gateway/entity.py:314 | STOP's word `target & 0x7F` reads back as stopped at position 0. |
| EntityProperties.BlindTargetRoundTrip | modbus-mqtt/gateway/entity.py:299-366 | The text of any integer n, sent as a set command, writes clamp(n)+128, which the blind reports as target clamp(n). |
| EntityProperties.ConfigRoundTrip | modbus-mqtt/gateway/entity.py:322-366 | A config word within range is reported back as the travel times asked for, with missing fields kept. |
| EntityProperties.ConfigCommandWrites | modbus-mqtt/gateway/entity.py:322-335 | A config writes exactly when a field is given, to a register inside the blind's two-word write area. |
| EntityProperties.SetCommandAsWrittenRaises | modbus-mqtt/gateway/entity.py:108-110 | As written, every command that would write raises AttributeError instead; other commands behave as intended. |
| EntityProperties.RelayOnAsWritten | modbus-mqtt/gateway/entity.py:237-252 | "ON" to relay 0 of a coil class writes coil 0 as intended and raises AttributeError as written. |
| EntityProperties.TopicsDistinct | modbus-mqtt/gateway/entity.py:116-140 | Entities of one class and kind at different indices never share a topic. |
| EntityProperties.ConstructionSpec | modbus-mqtt/gateway/entity.py:74-102 | Which constructions are refused (both directions). How many subscriptions each kind holds: blind 2, outputs 1. Discovery is published once and retained, only for outputs and blinds. |
| EntityProperties.ProcessFailure | modbus-mqtt/gateway/entity.py:142-146 | A sample raises exactly when its length is not the data size or it is too short for the kind. For a constructed blind that means exactly when it is not two words. |
| EntityProperties.ButtonRisingEdge | modbus-mqtt/gateway/entity.py:195-208 | From any state that is not 1, a sample of 1 adds exactly one click, stamps the time and publishes only the ON status. |
| EntityProperties.ButtonReleaseAfterHold | modbus-mqtt/gateway/entity.py:195-208 | A falling edge while held publishes OFF and then exactly one "long" = RELEASE, ends the hold, resets the clicks and stamps the time. |
| EntityProperties.ButtonOtherEdge | modbus-mqtt/gateway/entity.py:195-208 | Any other edge publishes the status and only stamps the time: clicks and hold are kept. |
| EntityProperties.ButtonLongPress | modbus-mqtt/gateway/entity.py:209-217 | Pressed and not held: more than 400 ms after the stamp, exactly one "long" event with the click count, and the hold begins. At 400 ms or less, nothing changes and nothing is published. |
| EntityProperties.ButtonClickPause | modbus-mqtt/gateway/entity.py:219-227 | Released with clicks pending: more than 250 ms after the stamp, exactly one "click" event with the count, which resets. At 250 ms or less, nothing changes and nothing is published. |
| EntityProperties.ButtonSteadyIdle | modbus-mqtt/gateway/entity.py:195-229 | An unchanged sample while held, while released with no clicks, or of a value other than 0 and 1 changes nothing and publishes nothing. |
| EntityProperties.ButtonStateFollows | modbus-mqtt/gateway/entity.py:190-208 | For any state and sample, the button ends holding the sample. Its timestamp is the sample's time exactly on an edge and unchanged otherwise. |
| EntityProperties.AlternatingCounts | modbus-mqtt/gateway/entity.py:190-229 | Alternating presses and releases count one click per press and publish only statuses, one per sample. |
| EntityProperties.QuickClicks | modbus-mqtt/gateway/entity.py:190-229 | N quick clicks followed by a pause over 250 ms publish one click event carrying N and reset the count. |
| EntityProperties.NoClickBeforePause | modbus-mqtt/gateway/entity.py:190-229 | Before the pause has elapsed, no click event is published and nothing changes. |
| EntityProperties.LongPress | modbus-mqtt/gateway/entity.py:190-229 | Press, hold past 400 ms, release: one long event with the click count, then RELEASE, and the clicks are reset. |
| EntityProperties.LongPressRun | modbus-mqtt/gateway/entity.py:190-229 | The exact publishes and final state of that run. |
| EntityProperties.LongPressEvents | modbus-mqtt/gateway/entity.py:190-229 | Of the run's publishes, the long-topic ones are the long event and the release. |
| EntityProperties.HoldIsSilent | modbus-mqtt/gateway/entity.py:190-229 | While held, further pressed samples publish nothing and change nothing. |
| EntityProperties.LevelsDistinct | modbus-mqtt/gateway/entity.py:137-140 | Topic levels of different lengths give different topics. |
| Modbus.CoilRequest | modbus-mqtt/gateway/gateway.py:46-53 | A list becomes a multiple-coil request and one value a single-coil request. Either way the request stores exactly the given bits at the address. |
| Modbus.RegisterRequest | modbus-mqtt/gateway/gateway.py:55-62 | The same rule for registers, storing exactly the given words. |
| Modbus.UdpClient.constructor | modbus-mqtt/gateway/gateway.py:22 | The UDP client starts with no read sent. |
| Modbus.Windows | modbus-mqtt/gateway/gateway.py:118-122 | One window per entity, window k being `values[k*w:(k+1)*w]` with Python's clamping. |
| Modbus.WindowsFull | modbus-mqtt/gateway/gateway.py:118-122 | With enough items read, each window is exactly w items at k*w. |
| Modbus.WindowsTile | modbus-mqtt/gateway/gateway.py:118-122 | The windows, concatenated in order, are exactly the items read. |
| Modbus.TileStep | modbus-mqtt/gateway/gateway.py:118-122 | One more window extends the tiled prefix by w. |
| Modbus.WindowEnd | modbus-mqtt/gateway/gateway.py:118-122 | Window k of n ends within the n windows. |
| Modbus.WindowShort | modbus-mqtt/gateway/gateway.py:118-122 | A window is full width exactly when the read returned items up to its end. |
| Modbus.TcpClient.constructor | modbus-mqtt/gateway/gateway.py:23 | The TCP client starts closed, with no connection made and nothing sent. |
| Modbus.TcpClient.Execute | modbus-mqtt/gateway/gateway.py:36-44 | `modbus_execute`: connect if closed, send, and resend once after an error answer. The last answer is returned. |
| Modbus.TcpClient.Send | gateway.py:55-67 | A request goes straight onto the wire, with no connect and no retry. |
| PollGateway.Deliver | modbus-mqtt/gateway/gateway.py:118-122 | Delivering to the first k entities leaves entities k and later untouched. |
| PollGateway.Poll | modbus-mqtt/gateway/gateway.py:93-126 | A poll keeps one state per entity. |
| PollGateway.PollNotDue | modbus-mqtt/gateway/gateway.py:101-126 | A poll that is not due reads nothing, changes nothing and returns the previous timestamp. |
| PollGateway.PollTimestamps | modbus-mqtt/gateway/gateway.py:94-101 | An empty group returns None and reads nothing. A non-empty group never returns None. A None timestamp of a non-empty group raises TypeError. |
| PollGateway.PollDueReads | modbus-mqtt/gateway/gateway.py:101-124 | A due poll reads data_size*n coils or holding registers from the read offset. A failed read raises, changing nothing. When every entity takes its window, the poll returns the current time. |
| PollGateway.PollAsWrittenRaises | modbus-mqtt/gateway/gateway.py:110-112 | As written, comparing with `ModbusClass.COIL` makes every due poll raise AttributeError before reading. Otherwise it agrees with `Poll`. |
| PollGateway.ProcessAccepts | modbus-mqtt/gateway/entity.py:142-146 | An accepted entity of positive data size takes any sample of its size. |
| PollGateway.ProcessRejectsLength | modbus-mqtt/gateway/entity.py:142-146 | A sample of the wrong length raises and changes nothing. |
| PollGateway.ProcessChecked | modbus-mqtt/gateway/entity.py:142-146 | `on_modbus_data` is a length-checked step, the only fact the delivery lemmas use. |
| PollGateway.DeliverFanOut | modbus-mqtt/gateway/gateway.py:118-122 | With enough items read, no entity raises and each takes its own window from its own state. |
| PollGateway.MemberAccepts | modbus-mqtt/gateway/gateway.py:118-122 | Entity i of a group takes its full window without raising. |
| PollGateway.DeliverUnfold | modbus-mqtt/gateway/gateway.py:118-122 | One more entity served after a delivery that has not raised. |
| PollGateway.DeliverStep | modbus-mqtt/gateway/gateway.py:118-122 | The same, from the delivery so far and the entity's descriptor, state and window. |
| PollGateway.DeliverPublishes | modbus-mqtt/gateway/gateway.py:118-122 | The group publishes, in entity order, what each entity publishes for its own window. |
| PollGateway.DeliverShort | modbus-mqtt/gateway/gateway.py:118-122 | With too few items, entity |values|/w raises the length error. Entities before it took their windows; those after it are untouched. |
| PollGateway.DeliverCut | modbus-mqtt/gateway/gateway.py:118-122 | The invariant of a read cut short, after any number of entities. |
| PollGateway.CutStart | modbus-mqtt/gateway/gateway.py:118-122 | That invariant holds before the first entity. |
| PollGateway.CutBefore | modbus-mqtt/gateway/gateway.py:118-122 | Each entity before the cut keeps the invariant. |
| PollGateway.CutAt | modbus-mqtt/gateway/gateway.py:118-122 | The entity at the cut raises and keeps the invariant. |
| PollGateway.CutStates | modbus-mqtt/gateway/gateway.py:118-122 | The state bookkeeping of one more entity in a cut read. |
| PollGateway.DeliverAfterFailure | modbus-mqtt/gateway/gateway.py:118-122 | Once an entity raised, delivering to more entities changes nothing. |
| PollGateway.PollDelivers | modbus-mqtt/gateway/gateway.py:101-124 | A due, issuable, answered poll is the delivery of the items read. |
| PollGateway.PollFull | modbus-mqtt/gateway/gateway.py:93-124 | A due poll answered in full: each entity takes its window, the group publishes in entity order, and the poll returns now. |
| PollGateway.PollShort | modbus-mqtt/gateway/gateway.py:93-124 | A due poll answered short raises the length error at the entity whose window is cut. Earlier entities were served; later ones are untouched. |
| PollGateway.DeliveredAll | modbus-mqtt/gateway/gateway.py:118-122 | The loop ends with the whole delivery, whether it served everyone or stopped at a failure. |
| PollGateway.DeliverStopped | modbus-mqtt/gateway/gateway.py:118-122 | After a failure the next entity is not served. |
| PollGateway.ShortIndex | modbus-mqtt/gateway/gateway.py:118-122 | A short read's cut falls inside the group. |
| PollGateway.ReadAddressMatchesWindow | modbus-mqtt/gateway/entity.py:104-106 | `modbus_read_address` (idx + read_offset) is where the entity's window starts only for entity 0 or one-item classes. |
| PollGateway.GroupSubscriptionsDistinct | modbus-mqtt/gateway/gateway.py:128-130 | A group of n outputs holds n set subscriptions, entity i's on its own topic, and no two share a topic. |
| PollGateway.GroupSubscriptionsShape | modbus-mqtt/gateway/gateway.py:128-130 | Entity i of an output group subscribes to its own set topic. |
| PollGateway.RegisterFails | modbus-mqtt/gateway/gateway.py:128-130 | A group its constructors refuse stops at its first entity, with that entity's effects and the refusal. |
| PollGateway.RegisterUnsupported | modbus-mqtt/gateway/entity.py:89-92 | An unsupported data type publishes and subscribes nothing, and raises. |
| PollGateway.FirstFailure | modbus-mqtt/gateway/gateway.py:132-133 | The first group whose poll raised: every earlier one succeeded. |
| PollGateway.FailureFrom | modbus-mqtt/gateway/gateway.py:132-133 | The first failing group at or after a position. |
| PollGateway.FirstFailureAt | modbus-mqtt/gateway/gateway.py:132-133 | The first failure is j when the groups before j succeeded and j failed. |
| PollGateway.Served | modbus-mqtt/gateway/gateway.py:132-133 | A step serves the groups up to and including the first failure. |
| PollGateway.Stamps | modbus-mqtt/gateway/gateway.py:132-133 | The timestamps returned, one per group. |
| PollGateway.Retimed | modbus-mqtt/gateway/gateway.py:132-133 | The new processors: each gets its timestamp and keeps its entities and wait. |
| PollGateway.Descriptors | modbus-mqtt/gateway/gateway.py:93-126 | What each entity of a group is. |
| PollGateway.Snapshots | modbus-mqtt/gateway/gateway.py:93-126 | The current state of each entity of a group. |
| PollGateway.States | modbus-mqtt/gateway/gateway.py:132-133 | The states of every group's entities. |
| PollGateway.Mix | modbus-mqtt/gateway/gateway.py:132-133 | After n groups are served: their polls' states, and the earlier states for the rest. |
| PollGateway.PollsFrom | modbus-mqtt/gateway/gateway.py:132-133 | Every group's poll, from given states. |
| PollGateway.BuiltSnoc | modbus-mqtt/gateway/gateway.py:128-130 | A fresh entity described as the next one extends a built group and its initial states. |
| PollGateway.AppendGroup | modbus-mqtt/gateway/gateway.py:128-130 | Adding a group of distinct, new entities keeps the groups valid. |
| PollGateway.GroupOfValid | modbus-mqtt/gateway/gateway.py:128-130 | A valid group's entities are distinct and talk to the gateway. |
| PollGateway.GroupsApart | modbus-mqtt/gateway/gateway.py:128-130 | Two groups share no entity. |
| PollGateway.RetimedValid | modbus-mqtt/gateway/gateway.py:132-133 | New timestamps keep the groups valid. |
| PollGateway.PollsStamped | modbus-mqtt/gateway/gateway.py:132-133 | A poll that does not raise leaves a timestamp in a non-empty group. |
| PollGateway.StampsSnoc | modbus-mqtt/gateway/gateway.py:132-133 | One more group's timestamp. |
| PollGateway.AllSnoc | modbus-mqtt/gateway/gateway.py:132-133 | One more group's publishes and reads. |
| PollGateway.WriteRequestFor | modbus-mqtt/gateway/gateway.py:86-90 | An entity's write becomes a request storing its bits or words at its address, as a coil request exactly for coil writes. |
| PollGateway.Gateway.constructor | modbus-mqtt/gateway/gateway.py:66-74 | No groups; "online" announced on plc/availability. |
| PollGateway.Gateway.ModbusWriteCoils | modbus-mqtt/gateway/gateway.py:46-53 | The coil request goes through `modbus_execute`: connect if closed, resend once after an error. The answer is dropped and nothing is returned. |
| PollGateway.Gateway.ModbusWriteRegisters | modbus-mqtt/gateway/gateway.py:55-62 | The same for registers, also returning nothing. |
| PollGateway.Gateway.Forward | modbus-mqtt/gateway/gateway.py:86-90 | An entity's write reaches the wire as the request that stores its data at its address. |
| PollGateway.Gateway.Polls | modbus-mqtt/gateway/gateway.py:132-133 | Each group's poll from the current states. |
| PollGateway.Gateway.ProcessEntities | modbus-mqtt/gateway/gateway.py:93-126 | `__process_entities`: the result, the entities' new states, the publishes and the read sent are exactly `Poll`'s. |
| PollGateway.Gateway.DeliverValues | modbus-mqtt/gateway/gateway.py:118-122 | The loop hands entity after entity its window until one raises: states, publishes and the failure are `Deliver`'s. |
| PollGateway.Gateway.Feed | modbus-mqtt/gateway/gateway.py:119-121 | One pass of that loop carries the delivery of k entities to k+1. |
| PollGateway.Gateway.RegisterEntitySet | modbus-mqtt/gateway/gateway.py:128-130 | The group's entities are created in order with their publishes and subscriptions, and a processor with timestamp 0 is added. A refused constructor leaves the processors unchanged. The groups stay valid. |
| PollGateway.Gateway.NewEntities | modbus-mqtt/gateway/gateway.py:129 | The list comprehension: n fresh entities in index order, in their initial state, or the first constructor error. |
| PollGateway.Gateway.AddEntity | modbus-mqtt/gateway/gateway.py:129 | One more entity, or the constructor's error, with its effects. |
| PollGateway.Gateway.ModbusStep | modbus-mqtt/gateway/gateway.py:132-133 | Every group is polled in order. If none raised, the new timestamps are stored. If one raised, that exception is returned with the processors unchanged, after the groups before it were served. |
| PollGateway.Gateway.Retime | modbus-mqtt/gateway/gateway.py:133 | The assignment that ends the step: new timestamps, same entities. |
| PollGateway.Gateway.PollAll | modbus-mqtt/gateway/gateway.py:133 | The comprehension of that step, up to the first poll that raised. |
| PollGateway.Gateway.PollGroup | modbus-mqtt/gateway/gateway.py:133 | One group's turn, after the groups before it were served. |
| UnitGateway.Sink.constructor | gateway.py:105-107 | An entity of the top-level gateway, recording the samples it is handed. |
| UnitGateway.Sink.OnModbusData | gateway.py:95-99 | Each sample is recorded in order. |
| UnitGateway.PollNotDue | gateway.py:78-103 | A poll that is not due reads nothing, hands out nothing and returns the previous timestamp. |
| UnitGateway.PollTimestamps | gateway.py:71-78 | An empty group returns None. A non-empty group never returns None. A None timestamp of a non-empty group raises TypeError. |
| UnitGateway.PollDueReads | gateway.py:78-101 | A due poll reads coils for unit 1 and holding registers for unit 16, width*n of them. Any other unit raises before reading. A failed read raises. Otherwise entity i gets window i and the poll returns now. |
| UnitGateway.PollWindowsTile | gateway.py:95-99 | Answered in full, the poll hands out one window of the class's width per entity, and together they are the items read. |
| UnitGateway.WindowsShape | gateway.py:95-99 | The windows tile the read, each w wide. |
| UnitGateway.Classes | gateway.py:80-84 | The class of each entity. |
| UnitGateway.Polls | gateway.py:109-110 | Every group's poll. |
| UnitGateway.FirstFailure | gateway.py:109-110 | The first group whose poll raised. |
| UnitGateway.FailureFrom | gateway.py:109-110 | The first failing group at or after a position. |
| UnitGateway.FirstFailureAt | gateway.py:109-110 | The first failure is j when the groups before j succeeded and j failed. |
| UnitGateway.Served | gateway.py:109-110 | The groups served: up to and including the first failure. |
| UnitGateway.Stamps | gateway.py:109-110 | The timestamps returned, one per group. |
| UnitGateway.Retimed | gateway.py:109-110 | New timestamps, with the same entities and waits. |
| UnitGateway.Received | gateway.py:95-99 | The samples each entity of a group was handed. |
| UnitGateway.Logs | gateway.py:109-110 | The samples of every group's entities. |
| UnitGateway.Fed | gateway.py:95-99 | After a poll, entity i has gained exactly the i-th window stamped with the clock, or nothing. |
| UnitGateway.FedIdle | gateway.py:95-99 | A poll that hands out no windows feeds nobody. |
| UnitGateway.Extended | gateway.py:109-110 | After n groups: those groups fed by their polls, the rest unchanged. |
| UnitGateway.AppendGroup | gateway.py:105-107 | A new group of distinct, new entities keeps the groups valid. |
| UnitGateway.GroupOfValid | gateway.py:105-107 | A valid group's entities are distinct. |
| UnitGateway.GroupsApart | gateway.py:105-107 | Two groups share no entity. |
| UnitGateway.RetimedValid | gateway.py:109-110 | New timestamps keep the groups valid. |
| UnitGateway.PollsStamped | gateway.py:70-103 | In valid groups no poll meets the TypeError, and a successful poll of a non-empty group leaves a timestamp. |
| UnitGateway.StepStamps | gateway.py:70-110 | Without failures, a group's timestamp moves to its clock reading exactly when it was due and is kept otherwise; an empty group gets None. |
| UnitGateway.StampsSnoc | gateway.py:109-110 | One more group's timestamp. |
| UnitGateway.AllSnoc | gateway.py:109-110 | One more group's read. |
| UnitGateway.Gateway.constructor | gateway.py:35-43 | No groups, no reads and no writes. |
| UnitGateway.Gateway.ModbusWriteCoils | gateway.py:55-60 | A list goes out as one multiple-coil request, one value as a single-coil request, with no retry. |
| UnitGateway.Gateway.ModbusWriteRegisters | gateway.py:62-67 | The same for registers. |
| UnitGateway.Gateway.ProcessEntities | gateway.py:70-103 | `__process_entities`: the result, the read sent and the samples handed out are exactly `Poll`'s. |
| UnitGateway.Gateway.RegisterEntitySet | gateway.py:105-107 | Adds one group of item_count fresh entities at indices 0..n-1, with timestamp 0; the groups stay valid. |
| UnitGateway.Gateway.ModbusStep | gateway.py:109-110 | Every group is polled in order; the timestamps are stored unless a poll raised. In that case the step ends there with the processors unchanged, after the earlier groups were served. |
| UnitGateway.Gateway.Retime | gateway.py:110 | The assignment that ends the step. |
| UnitGateway.Gateway.PollAll | gateway.py:110 | The comprehension of the step, up to the first failure. |
| UnitGateway.Gateway.PollGroup | gateway.py:110 | One group's turn. |
| ModbusMqtt.EventQueue.constructor | ModbusMQTT.py:82-90 | The outbound queue starts empty. |
| ModbusMqtt.MqttClient.constructor | ModbusMQTT.py:388-391 | The client starts with no subscriptions. |
| ModbusMqtt.EventTopic | ModbusMQTT.py:142-152 | An event's topic is the entity address, '/', and the event type, readable back part by part. |
| ModbusMqtt.Find | ModbusMQTT.py:393-401 | The first occurrence of a character, or the end. |
| ModbusMqtt.FindFrom | ModbusMQTT.py:393-401 | The same from a position. |
| ModbusMqtt.LastSplit | ModbusMQTT.py:414-416 | The hyphen the greedy `([^/.]+)-([^/]+)` settles on: a valid split, and no valid split after it. |
| ModbusMqtt.Line | ModbusMQTT.py:414-416 | What `(.+)` takes: the text up to the first newline. |
| ModbusMqtt.TopicSplit | ModbusMQTT.py:393-401 | `mqtt_topic_split` raises exactly without a pattern. A parsed topic's index is mod*8 + slot. |
| ModbusMqtt.Fan | ModbusMQTT.py:454-458 | Updating the first n entities gives entity k the update with bit k; the rest are untouched. |
| ModbusMqtt.CoilBits | ModbusMQTT.py:34-35 | One truth value per coil item read, true exactly for non-zero items. |
| ModbusMqtt.StepOutcome | ModbusMQTT.py:454-458 | A step raises exactly when the read failed, and keeps one state per entity. |
| ModbusMqtt.BitEntity.constructor | ModbusMQTT.py:178-214 | A new entity keeps its queue, class, topic and coil address, with no state and no clicks. |
| ModbusMqtt.BitEntity.Enqueue | ModbusMQTT.py:82-90 | `EventQueue.publish` appends the event. |
| ModbusMqtt.BitEntity.BitModbusUpdate | ModbusMQTT.py:216-228 | The bit update performed on the fields: the state and the events are `BitUpdate`'s, and the old state is returned. |
| ModbusMqtt.BitEntity.ButtonModbusUpdate | ModbusMQTT.py:291-323 | The button update performed on the fields, as `ButtonUpdate`. |
| ModbusMqtt.BitEntity.OnModbusUpdate | ModbusMQTT.py:291-323 | Dispatches on the entity's class. |
| ModbusMqtt.BitEntity.OnMqttMsg | ModbusMQTT.py:230-259 | Queues exactly the decoded coil write, if any. |
| ModbusMqtt.BitEntity.Announce | ModbusMQTT.py:188-196 | Queues the retained discovery document, for light relays only. |
| ModbusMqtt.Descriptors | ModbusMQTT.py:440-445 | What each entity is. |
| ModbusMqtt.Snapshots | ModbusMQTT.py:454-458 | Each entity's current state. |
| ModbusMqtt.Layout | ModbusMQTT.py:435-445 | Entity idx owns Address(idx) and writes coil off+idx, or none without an offset. |
| ModbusMqtt.Route | ModbusMQTT.py:460-463 | A routed command always names an entity within the list. |
| ModbusMqtt.BitGateway.constructor | ModbusMQTT.py:418-448 | Subscribes to the set pattern exactly when there is a write offset, builds the entities in layout order, then queues every discovery. |
| ModbusMqtt.BitGateway.ModbusStep | ModbusMQTT.py:451-458 | Reads item_count coils from the read offset. On a non-empty answer, entity i is updated with bit i for every pair the zip forms; states and queue are `StepOutcome`'s. |
| ModbusMqtt.BitGateway.OnMqttMessage | ModbusMQTT.py:460-463 | The command reaches exactly the entity `Route` names, or raises its error, or is dropped. |
| ModbusMqtt.FanOut | ModbusMQTT.py:457-458 | The zip loop, as `Fan`. |
| ModbusMqtt.UpdateAt | ModbusMQTT.py:458 | One pass of the zip loop. |
| ModbusMqtt.MakeEntities | ModbusMQTT.py:440-445 | The comprehension: distinct fresh entities in initial state, following `Layout`. |
| ModbusMqtt.AnnounceAll | ModbusMQTT.py:447 | Each entity's discovery, in order. |
| ModbusMqtt.DiscoveriesSnoc | ModbusMQTT.py:447 | One more entity's discovery. |
| ModbusMqttProperties.BitUpdateSpec | ModbusMQTT.py:216-228 | A status event is queued exactly when the value changes. It is ON/OFF, and retained exactly when the coil address is truthy. |
| ModbusMqttProperties.BitUpdateIdempotent | ModbusMQTT.py:216-228 | The same value again queues nothing. |
| ModbusMqttProperties.AddressZeroNotRetained | ModbusMQTT.py:222 | An output at coil 0 publishes unretained, because `0` is falsy. |
| ModbusMqttProperties.ButtonRisingEdge | ModbusMQTT.py:291-323 | A press adds a click and stamps the time, queueing only the status. |
| ModbusMqttProperties.ButtonReleaseAfterHold | ModbusMQTT.py:291-323 | Releasing while held queues RELEASE after the status, ends the hold and resets the clicks. |
| ModbusMqttProperties.ButtonFallingEdge | ModbusMQTT.py:291-323 | Any other release only stamps the time. |
| ModbusMqttProperties.ButtonLongPress | ModbusMQTT.py:291-323 | Held past 400 ms, exactly one long event with the count, and the hold begins; before that, nothing. |
| ModbusMqttProperties.ButtonClickPause | ModbusMQTT.py:291-323 | Released past 250 ms with clicks pending, exactly one click event with the count, and the count resets; before that, nothing. |
| ModbusMqttProperties.ButtonStateFollows | ModbusMQTT.py:291-323 | The button always ends holding the given value, and its timestamp moves exactly on an edge. |
| ModbusMqttProperties.DecodeCases | ModbusMQTT.py:249-259 | Both directions: ON/1 true, OFF/0 false, TOGGLE the opposite (true while there is no state), and anything else is not a command. |
| ModbusMqttProperties.CommandQueuesWrite | ModbusMQTT.py:230-247 | A command queues one write to the entity's own coil exactly when its payload decodes. |
| ModbusMqttProperties.AddressInjective | ModbusMQTT.py:435-438 | Different indices get different entity addresses. |
| ModbusMqttProperties.TopicRoundTrip | ModbusMQTT.py:393-401 | "<address of idx>/<event>" parses back to idx, its module, its slot and the event. |
| ModbusMqttProperties.SplitOfIndex | ModbusMQTT.py:393-401 | A match on an index's numerals splits into that index. |
| ModbusMqttProperties.SplitOfMatch | ModbusMQTT.py:393-401 | A match with numerals a and b splits into (a-1)*8 + (b-1). |
| ModbusMqttProperties.MatchNumerals | ModbusMQTT.py:414-416 | The pattern splits "plc/<ns>/<m>-<n>/<event>" into m, n and the event. |
| ModbusMqttProperties.MatchRestNumerals | ModbusMQTT.py:414-416 | The same after the literal prefix. |
| ModbusMqttProperties.CoordinateFind | ModbusMQTT.py:414-416 | The first '/' follows the coordinate. |
| ModbusMqttProperties.SplitsAtDash | ModbusMQTT.py:414-416 | The greedy group stops at the hyphen between the numerals. |
| ModbusMqttProperties.ForeignTopic | ModbusMQTT.py:393-401 | A topic outside plc/<ns>/ parses to nothing. |
| ModbusMqttProperties.RouteOwnTopic | ModbusMQTT.py:460-463 | Entity i's set topic reaches entity i. |
| ModbusMqttProperties.RouteOfSplit | ModbusMQTT.py:460-463 | A parsed topic reaches the entity its index selects in the list. |
| ModbusMqttProperties.SlotOverflowAliases | ModbusMQTT.py:393-401 | Slots are not checked: "1-9" reaches the same entity as "2-1". |
| ModbusMqttProperties.ModuleZeroCountsFromEnd | ModbusMQTT.py:460-463 | Module 0 gives a negative index, counted from the end of the list. |
| ModbusMqttProperties.RouteAlias | ModbusMQTT.py:460-463 | "<a>-<b>/set" reaches the entity that index (a-1)*8+(b-1) selects, for any a and b. |
| ModbusMqttProperties.AliasSplit | ModbusMQTT.py:393-401 | "<a>-<b>/set" splits into module a-1 and slot b-1, for any a and b. |
| ModbusMqttProperties.EmptyReadIdle | ModbusMQTT.py:454-458 | An empty read changes nothing and queues nothing; a failed read raises. |
| ModbusMqttProperties.FanEvents | ModbusMQTT.py:457-458 | The queue holds the events of each entity the zip reaches, each from its own starting state and bit, joined front to back in entity order. |
| ModbusMqttProperties.LayoutAddresses | ModbusMQTT.py:435-445 | Entity i's topic and coil address. |
| Py.AppendAssoc | modbus-mqtt/gateway/gateway.py:116-123 | Concatenation associates, so publishes gathered pass by pass equal those gathered per entity. |
| Py.ConcatSnoc | ModbusMQTT.py:457-458 | Joining one more list at the back of a front-to-back join appends it. |
| Py.Slice | modbus-mqtt/gateway/gateway.py:120 | `s[i:j]` is at most j-i long, and is exactly `s[i..j]` when j is within the list. |
| Py.Index | ModbusMQTT.py:463 | `l[i]` exists exactly for -n <= i < n, agrees with i modulo n, and counts from the start for non-negative i. |
| Py.Upper | modbus-mqtt/gateway/entity.py:239 | Upper-casing keeps the length and maps each character. |
| Py.UpperMatches | modbus-mqtt/gateway/entity.py:240-244 | `s.upper() == w` exactly when s equals w ignoring case. |
| Py.UpperIdle | ModbusMQTT.py:249-259 | A string with no lower-case letter is its own upper case. |
| Py.DigitChar | modbus-mqtt/gateway/entity.py:60-63 | A decimal digit's character is a digit. |
| Py.NatToString | modbus-mqtt/gateway/entity.py:60-63 | `str(n)` is a non-empty run of digits. |
| Py.IntToString | ModbusMQTT.py:188-196 | `str(i)` is non-empty. |
| Py.TrimStart | modbus-mqtt/gateway/entity.py:302 | Stripping leading space leaves a suffix that does not start with space. |
| Py.SkipSpace | modbus-mqtt/gateway/entity.py:302 | The first non-space position. |
| Py.TrimEnd | modbus-mqtt/gateway/entity.py:302 | Stripping trailing space leaves a prefix that does not end with space. |
| Py.DigitsNoDoubleUnderscore | modbus-mqtt/gateway/entity.py:302 | Digits alone never hold two underscores together. |
| Py.DigitsAreDigitsOrUnderscores | modbus-mqtt/gateway/entity.py:302 | A run of digits is a run of digits and underscores. |
| Py.DigitsValueOfNatToString | modbus-mqtt/gateway/entity.py:302 | The digits of `str(n)` have value n. |
| Py.TrimIdle | modbus-mqtt/gateway/entity.py:302 | Text without surrounding space is unchanged by stripping. |
| Py.ParseNatToString | ModbusMQTT.py:396-397 | `int(str(n)) == n`. |
| Py.ParseUnsigned | modbus-mqtt/gateway/entity.py:302 | `int()` of bare digit groups is their value. |
| Py.ParseIntToString | modbus-mqtt/gateway/entity.py:302 | `int(str(i)) == i` for every integer, negative ones included. |
| Py.ParseNegative | modbus-mqtt/gateway/entity.py:302 | A leading minus negates the value. |
| Py.NatToStringInjective | modbus-mqtt/gateway/entity.py:60-63 | Equal numerals mean equal numbers. |

## Left out

- The JSON bodies of the discovery documents (`discovery_payload`, `discovery_config`) are not modelled. A discovery publish carries an opaque document, and only its topic, its presence and its retain flag are modelled.
- The MQTT client (paho), its callbacks, its network loop and its connection state are not modelled. `on_connect`'s "online" birth message and the `is_connected` wait loop are left out, as is the last will. For entity.py, modbus-mqtt/gateway/gateway.py and ModbusMQTT.py, what is published or subscribed is recorded in order instead.
- The `EventQueue` worker thread of ModbusMQTT.py is not modelled, and neither is the thread-safe queue: the queue is the record of events put on it. Concurrency is out of scope.
- The clock (`time.time_ns() // 1000000`) is an integer parameter, and so are the device's answers to reads and writes. The pymodbus clients are records of the requests sent.
- The configuration module and the runner (config.py, runner.py), and the `gateways` list and main loop of ModbusMQTT.py (lines 467-491), are not modelled. They only pick constants and call the steps modelled here.
- `WordBasedEntity` of ModbusMQTT.py is not modelled. Its constructor calls `super(BitEntity, self)` on a class that is not a BitEntity, so it raises TypeError whenever it is built.
- ModbusMQTT.py and the entity and gateway modules define no motion, availability or sensor entity, so none is modelled.
- `Entity.birth_msg` of ModbusMQTT.py is a stub that does nothing, so `initialize`'s call of it is not modelled.
- `logging`, `logger` and `print` calls are not modelled.
- `str.upper` and `int()` are modelled for ASCII: Unicode case mapping and non-ASCII digits and white space are outside the model.
- The bit gateway's namespace is inserted into the regular expression unescaped; the model matches it literally, so a namespace holding regex metacharacters is outside the model.
- `mqtt_retain` of the bit gateway is stored but never read by the code; the model keeps it as a field only.
- The entity module that gateway.py imports is not part of this model. Its entities are `Sink`s that record the samples handed to them.
- The offset loop of both `__process_entities` is modelled as handing entity k the k-th window `values[k*w:(k+1)*w]`. The two are equal: the offset is k*w on pass k.
- PollGateway.Deliver and its lemmas are stated for any length-checked step (`Checked`), and `ProcessChecked` shows that `on_modbus_data` is one.
- pymodbus pads a coil read's `.bits` to a multiple of eight; the reply is modelled as the list of values as handed back and the padding is not modelled beyond that.
- Modbus.TcpClient.Send: gateway.py's helpers call `write_coil(s)`/`write_register(s)` on the TCP client directly. The model records the request and does not model the client's own connection handling.
- Entities.Entity.OnMqttConfig: takes the payload's `t_up` and `t_dn` fields as already parsed, each an optional integer. The `json.loads` of entity.py:323-326 is not modelled: a malformed document (JSONDecodeError), a document that is not an object (no `.get`) and a field that is not an integer (TypeError at `<<`) are outside the model.
- Every MQTT handler here starts from the payload as a decoded string. The `msg.payload.decode('utf-8')` of entity.py:238, 300 and 323 and ModbusMQTT.py:250 is not modelled, so the UnicodeDecodeError it raises on bytes that are not UTF-8 is outside the model.
- Entities.DiscoveryPrefix: fixed to "homeassistant", the default of config.py:26. The prefix that configuration can set there is not a parameter of the model. ModbusMQTT.py fixes the same prefix as a constant (ModbusMQTT.py:21), and its model follows that.
- UnitGateway.Gateway.constructor: the availability publish of "online" on `MQTT_AVAILABILITY_TOPIC` (gateway.py:41-43) is not recorded. Neither are the gateway's `mqtt_publish` and `mqtt_subscribe` (gateway.py:46-53), which only forward to the MQTT client for the entity module that is not part of this model.
- UnitGateway.Gateway.ModbusWriteCoils: gateway.py:58 passes `len(data)` as a third positional argument to `write_coils`. Depending on the pymodbus version, that argument becomes the unit id or raises TypeError. The model records only the coil request, so neither effect is captured.
- ModbusMQTT.py's `modbus_read_coils` is modelled by the record of read requests on a UdpClient, like the other gateways' reads.

## Findings

| source | as written | input that shows it | evidently intended | confidence | as-written member | corrected member |
|---|---|---|---|---|---|---|
| modbus-mqtt/gateway/entity.py:110 | `modbus_write_address` reads `modbus_class.data_sizdata_size`, which no ModbusClass has, so every write address lookup raises AttributeError | "ON" on the set topic of relay 0 of a coil class "relay" | `modbus_idx * data_size + write_offset`, each entity owning its own `data_size` items of the write area | not executed | EntityProperties.RelayOnAsWritten | Entities.WriteAreasDisjoint |
| modbus-mqtt/gateway/gateway.py:110-112 | the poll compares the data type with `entity.ModbusClass.COIL` and `.REGISTER`, attributes the class does not define (the constants are module-level `TYPE_COIL`/`TYPE_REGISTER`), so a due poll raises AttributeError before reading | any non-empty group whose poll is due | read coils for `TYPE_COIL`, holding registers for `TYPE_REGISTER` | not executed | PollGateway.PollAsWrittenRaises | PollGateway.PollDueReads |

The entities use the corrected write address (`Entities.WriteAddress`), and
`Entities.WriteAddressAsWrittenFails` and
`EntityProperties.SetCommandAsWrittenRaises` give the as-written behaviour for
every entity and command. The gateway's `ProcessEntities` follows the
corrected poll (`PollGateway.Poll`).
