/** What ModbusMQTT.py promises about its entities and topics, proved of the
    model in ModbusMqtt. */
module ModbusMqttProperties {
  import opened Py
  import opened Modbus
  import Entities
  import opened ModbusMqtt

  // ---------------------------------------------------------------------
  // Bit entities

  /** A bit entity queues a status event exactly when the value differs
      from its state: "ON" or "OFF", retained exactly when its coil address
      is truthy (so not at address 0); it then holds the value. */
  lemma BitUpdateSpec(d: Descriptor, s: EntityState, v: bool)
    ensures var st := BitUpdate(d, s, v);
      && st.next == s.(state := Some(v))
      && (st.events != [] <==> s.state != Some(v))
      && (st.events != [] ==> st.events == [MqttEvent(EventTopic(d.mqttAddress, "status"), Text(if v then "ON" else "OFF"),
                                                        d.modbusAddress.Some? && d.modbusAddress.value != 0)])
  {
  }

  /** The same value a second time queues nothing and changes nothing. */
  lemma BitUpdateIdempotent(d: Descriptor, s: EntityState, v: bool)
    ensures var t := BitUpdate(d, s, v).next;
      BitUpdate(d, t, v) == Step(t, [])
  {
  }

  /** An output at coil address 0 publishes its status unretained. */
  lemma AddressZeroNotRetained(d: Descriptor, s: EntityState, v: bool)
    requires d.modbusAddress == Some(0) && s.state != Some(v)
    ensures BitUpdate(d, s, v).events[0].retain == false
  {
  }

  // ---------------------------------------------------------------------
  // Buttons

  /** A rising edge adds one click and stamps the time; the status event is
      the only one queued. */
  lemma ButtonRisingEdge(d: Descriptor, s: EntityState, now: int)
    requires s.state != Some(true)
    ensures var st := ButtonUpdate(d, s, now, true);
      && st.next == EntityState(Some(true), s.clickCount + 1, s.hold, now)
      && st.events == BitUpdate(d, s, true).events
  {
  }

  /** A falling edge while holding queues exactly one "long" = "RELEASE"
      after the status, ends the hold and forgets the clicks. */
  lemma ButtonReleaseAfterHold(d: Descriptor, s: EntityState, now: int)
    requires s.state != Some(false) && s.hold
    ensures var st := ButtonUpdate(d, s, now, false);
      && st.next == EntityState(Some(false), 0, false, now)
      && st.events == BitUpdate(d, s, false).events + [MqttEvent(EventTopic(d.mqttAddress, "long"), Text("RELEASE"), false)]
  {
  }

  /** Any other falling edge only stamps the time. */
  lemma ButtonFallingEdge(d: Descriptor, s: EntityState, now: int)
    requires s.state != Some(false) && !s.hold
    ensures var st := ButtonUpdate(d, s, now, false);
      && st.next == EntityState(Some(false), s.clickCount, false, now)
      && st.events == BitUpdate(d, s, false).events
  {
  }

  /** Held down, not yet holding: past 400 ms exactly one "long" event with
      the click count, and the hold begins; before that, nothing. */
  lemma ButtonLongPress(d: Descriptor, s: EntityState, now: int)
    requires s.state == Some(true) && !s.hold
    ensures var st := ButtonUpdate(d, s, now, true);
      if now - s.timestamp > LongPressMin then
        st == Step(s.(hold := true), [MqttEvent(EventTopic(d.mqttAddress, "long"), Count(s.clickCount), false)])
      else st == Step(s, [])
  {
  }

  /** Released with clicks pending: past 250 ms exactly one "click" event
      with their count, and the count restarts; before that, nothing. */
  lemma ButtonClickPause(d: Descriptor, s: EntityState, now: int)
    requires s.state == Some(false) && s.clickCount > 0
    ensures var st := ButtonUpdate(d, s, now, false);
      if now - s.timestamp > ClickPauseMax then
        st == Step(s.(clickCount := 0), [MqttEvent(EventTopic(d.mqttAddress, "click"), Count(s.clickCount), false)])
      else st == Step(s, [])
  {
  }

  /** Whatever happens, a button ends holding the value it was given, and
      its timestamp moves exactly on an edge. */
  lemma ButtonStateFollows(d: Descriptor, s: EntityState, now: int, v: bool)
    ensures var t := ButtonUpdate(d, s, now, v).next;
      && t.state == Some(v)
      && (t.timestamp == now || t.timestamp == s.timestamp)
      && (s.state != Some(v) ==> t.timestamp == now)
      && (s.state == Some(v) ==> t.timestamp == s.timestamp)
  {
  }

  // ---------------------------------------------------------------------
  // Commands

  /** `_mqtt_to_modbus` reads ON and 1 as true, OFF and 0 as false, TOGGLE
      as the opposite of the state (true while there is none), ignoring
      case; anything else is not a command. */
  lemma DecodeCases(payload: string, state: Option<bool>)
    ensures Decode(payload, state) == Some(true) <==>
      EqualsIgnoringCase(payload, "ON") || EqualsIgnoringCase(payload, "1") ||
      (EqualsIgnoringCase(payload, "TOGGLE") && state != Some(true))
    ensures Decode(payload, state) == Some(false) <==>
      EqualsIgnoringCase(payload, "OFF") || EqualsIgnoringCase(payload, "0") ||
      (EqualsIgnoringCase(payload, "TOGGLE") && state == Some(true))
    ensures Decode(payload, state).None? <==>
      !EqualsIgnoringCase(payload, "ON") && !EqualsIgnoringCase(payload, "1") &&
      !EqualsIgnoringCase(payload, "OFF") && !EqualsIgnoringCase(payload, "0") &&
      !EqualsIgnoringCase(payload, "TOGGLE")
  {
    UpperMatches(payload, "ON");
    UpperMatches(payload, "1");
    UpperMatches(payload, "OFF");
    UpperMatches(payload, "0");
    UpperMatches(payload, "TOGGLE");
  }

  /** A command queues one coil write, to the entity's own address, exactly
      when it decodes. */
  lemma CommandQueuesWrite(d: Descriptor, s: EntityState, payload: string)
    ensures |Command(d, s, payload)| == (if Decode(payload, s.state).Some? then 1 else 0)
    ensures Decode(payload, s.state).Some? ==>
      Command(d, s, payload) == [WriteModbusBit(d.modbusAddress, Decode(payload, s.state).value)]
  {
  }

  // ---------------------------------------------------------------------
  // Topics and coordinates

  /** Distinct indices get distinct entity topics. */
  lemma AddressInjective(namespace: string, i: nat, j: nat)
    requires Address(namespace, i) == Address(namespace, j)
    ensures i == j
  {
    var p := "plc/" + namespace + "/";
    assert Entities.MqttCoordinate(i, 8) == Address(namespace, i)[|p|..];
    assert Entities.MqttCoordinate(j, 8) == Address(namespace, j)[|p|..];
    Entities.CoordinateRoundTrip(i, 8);
    Entities.CoordinateRoundTrip(j, 8);
  }

  /** The command topic of entity idx, "<address>/<event>", parses back to
      idx, its module, its slot and the event. */
  lemma TopicRoundTrip(namespace: string, idx: nat, event: string)
    requires event != [] && Find(event, '\n') == |event|
    ensures TopicSplit(true, namespace, Address(namespace, idx) + "/" + event)
         == Success(Some(Split(idx, idx / 8, idx % 8, event)))
  {
    var topic := Address(namespace, idx) + "/" + event;
    // The numerals are bound by a choice, so that the rest of the proof does
    // not unfold them.
    assert exists m, n ::
      (MatchTopic(namespace, topic) == Some((m, n, event))
       && ParseInt(m) == Some(idx / 8 + 1) && ParseInt(n) == Some(idx % 8 + 1)) by {
      var q, rem := idx / 8, idx % 8;
      Entities.CoordinateArithmetic(idx, 8, q, rem);
      var m, n := NatToString(q + 1), NatToString(rem + 1);
      var prefix := "plc/" + namespace + "/";
      assert Address(namespace, idx) == prefix + (m + "-" + n);
      Regroup(prefix, m + "-" + n, event);
      MatchNumerals(namespace, m, n, event);
      ParseNatToString(q + 1);
      ParseNatToString(rem + 1);
      assert MatchTopic(namespace, topic) == Some((m, n, event));
      assert ParseInt(m) == Some(idx / 8 + 1) && ParseInt(n) == Some(idx % 8 + 1);
    }
    var m, n :|
      (MatchTopic(namespace, topic) == Some((m, n, event))
       && ParseInt(m) == Some(idx / 8 + 1) && ParseInt(n) == Some(idx % 8 + 1));
    SplitOfIndex(namespace, topic, m, n, event, idx);
  }

  /** SplitOfMatch for the numerals of an index's module and slot. */
  lemma SplitOfIndex(namespace: string, topic: string, m: string, n: string, event: string, idx: nat)
    requires MatchTopic(namespace, topic) == Some((m, n, event))
    requires ParseInt(m) == Some(idx / 8 + 1) && ParseInt(n) == Some(idx % 8 + 1)
    ensures TopicSplit(true, namespace, topic) == Success(Some(Split(idx, idx / 8, idx % 8, event)))
  {
    SplitOfMatch(namespace, topic, m, n, event, idx / 8 + 1, idx % 8 + 1);
  }

  /** A topic the pattern matches with two numerals splits into their
      values, less one, and the index they make eight slots a module. */
  lemma SplitOfMatch(namespace: string, topic: string, m: string, n: string, event: string, a: int, b: int)
    requires MatchTopic(namespace, topic) == Some((m, n, event))
    requires ParseInt(m) == Some(a) && ParseInt(n) == Some(b)
    ensures TopicSplit(true, namespace, topic) == Success(Some(Split((a - 1) * 8 + (b - 1), a - 1, b - 1, event)))
  {
  }

  /** The pattern takes "plc/<namespace>/<m>-<n>/<event>", with numerals m
      and n and an event on one line, apart into m, n and the event. */
  lemma MatchNumerals(namespace: string, m: string, n: string, event: string)
    requires |m| > 0 && |n| > 0
    requires forall i :: 0 <= i < |m| ==> IsDigit(m[i])
    requires forall i :: 0 <= i < |n| ==> IsDigit(n[i])
    requires event != [] && Find(event, '\n') == |event|
    ensures MatchTopic(namespace, "plc/" + namespace + "/" + (m + "-" + n + "/" + event)) == Some((m, n, event))
  {
    var prefix := "plc/" + namespace + "/";
    var rest := m + "-" + n + "/" + event;
    assert (prefix + rest)[|prefix|..] == rest;
    MatchRestNumerals(m, n, event);
  }

  lemma MatchRestNumerals(m: string, n: string, event: string)
    requires |m| > 0 && |n| > 0
    requires forall i :: 0 <= i < |m| ==> IsDigit(m[i])
    requires forall i :: 0 <= i < |n| ==> IsDigit(n[i])
    requires event != [] && Find(event, '\n') == |event|
    ensures MatchRest(m + "-" + n + "/" + event) == Some((m, n, event))
  {
    var c := m + "-" + n;
    var rest := c + "/" + event;
    CoordinateFind(m, n, event);
    var q := Find(rest, '/');
    assert q == |c| < |rest|;
    AroundSeparator(c, "/", event);
    assert Line(event) == event;
    SplitsAtDash(m, n);
  }

  /** p + c + "/" + e, grouped as the topic pattern reads it. */
  lemma Regroup(p: string, c: string, e: string)
    ensures p + c + "/" + e == p + (c + "/" + e)
  {
    AppendAssoc(p, c, "/");
    AppendAssoc(p, c + "/", e);
  }

  /** The parts of a + sep + b on either side of the separator. */
  lemma AroundSeparator(a: string, sep: string, b: string)
    requires |sep| == 1
    ensures (a + sep + b)[..|a|] == a && (a + sep + b)[|a| + 1..] == b
  {
  }

  /** In "<m>-<n>/<event>" with digit strings m and n the first '/' follows n. */
  lemma CoordinateFind(m: string, n: string, event: string)
    requires forall i :: 0 <= i < |m| ==> IsDigit(m[i])
    requires forall i :: 0 <= i < |n| ==> IsDigit(n[i])
    ensures Find(m + "-" + n + "/" + event, '/') == |m| + 1 + |n|
  {
    var s := m + "-" + n + "/" + event;
    forall i | 0 <= i < |m| + 1 + |n|
      ensures s[i] != '/'
    {
      if i < |m| {
        assert s[i] == m[i];
      } else if i > |m| {
        assert s[i] == n[i - |m| - 1];
      }
    }
    assert s[|m| + 1 + |n|] == '/';
  }

  /** The pattern splits "<m>-<n>" at the hyphen between the two numerals:
      the numeral after it has no hyphen to move to. */
  lemma SplitsAtDash(m: string, n: string)
    requires |m| > 0 && |n| > 0
    requires forall i :: 0 <= i < |m| ==> IsDigit(m[i])
    requires forall i :: 0 <= i < |n| ==> IsDigit(n[i])
    ensures var c := m + "-" + n;
      LastSplit(c, |c|) == Some(|m|) && c[..|m|] == m && c[|m| + 1..] == n
  {
    var c := m + "-" + n;
    assert c[..|m|] == m && c[|m| + 1..] == n;
    assert SplitsAt(c, |m|);
    forall p | |m| < p <= |c|
      ensures !SplitsAt(c, p)
    {
      if p < |c| {
        assert c[p] == n[p - |m| - 1];
      }
    }
  }

  /** A topic outside "plc/<namespace>/" parses to nothing. */
  lemma ForeignTopic(namespace: string, topic: string)
    requires !(("plc/" + namespace + "/") <= topic)
    ensures TopicSplit(true, namespace, topic) == Success(None)
  {
  }

  /** The set topic of entity i reaches entity i. */
  lemma RouteOwnTopic(namespace: string, count: nat, i: nat)
    requires i < count
    ensures Route(true, namespace, count, Address(namespace, i) + "/set") == Success(Some((i, "set")))
  {
    var topic := Address(namespace, i) + "/set";
    assert topic == Address(namespace, i) + "/" + "set" by {
      AppendAssoc(Address(namespace, i), "/", "set");
    }
    TopicRoundTrip(namespace, i, "set");
    RouteOfSplit(namespace, count, topic, i, i / 8, i % 8, "set", i);
  }

  /** A topic that splits reaches the entity its index selects. */
  lemma RouteOfSplit(namespace: string, count: nat, topic: string, idx: int, mod: int, slot: int, event: string, j: nat)
    requires TopicSplit(true, namespace, topic) == Success(Some(Split(idx, mod, slot, event)))
    requires Index(count, idx) == Some(j)
    ensures Route(true, namespace, count, topic) == Success(Some((j, event)))
  {
  }

  /** The coordinate is not checked against eight slots a module: a slot
      past 8 names an entity of a later module ("1-9" is "2-1"). */
  lemma SlotOverflowAliases(namespace: string, count: nat)
    requires count > 8
    ensures Route(true, namespace, count, "plc/" + namespace + "/" + NatToString(1) + "-" + NatToString(9) + "/set")
         == Route(true, namespace, count, Address(namespace, 8) + "/set")
  {
    RouteAlias(namespace, count, 1, 9, 8);
    RouteOwnTopic(namespace, count, 8);
  }

  /** ... and module 0 gives a negative index, which Python's list counts from
      the end: "0-b" reaches the entity 9 - b from the last ("0-1" the eighth). */
  lemma ModuleZeroCountsFromEnd(namespace: string, count: nat, b: nat)
    requires 1 <= b <= 8 && count >= 9 - b
    ensures Route(true, namespace, count, "plc/" + namespace + "/" + NatToString(0) + "-" + NatToString(b) + "/set")
         == Success(Some((count + b - 9, "set")))
  {
    assert Index(count, (0 - 1) * 8 + (b - 1)) == Some(count + b - 9);
    RouteAlias(namespace, count, 0, b, count + b - 9);
  }

  /** "<a>-<b>/set" reaches the entity j that index (a - 1) * 8 + (b - 1)
      selects in Python's list, whatever the range of a and b. */
  lemma RouteAlias(namespace: string, count: nat, a: nat, b: nat, j: nat)
    requires Index(count, (a - 1) * 8 + (b - 1)) == Some(j)
    ensures Route(true, namespace, count, "plc/" + namespace + "/" + NatToString(a) + "-" + NatToString(b) + "/set")
         == Success(Some((j, "set")))
  {
    var topic := "plc/" + namespace + "/" + NatToString(a) + "-" + NatToString(b) + "/set";
    AliasSplit(namespace, NatToString(a), NatToString(b), a, b);
    RouteOfSplit(namespace, count, topic, (a - 1) * 8 + (b - 1), a - 1, b - 1, "set", j);
  }

  /** "<m>-<n>/set" for the numerals of a and b splits into module a - 1
      and slot b - 1, whatever their range. */
  lemma AliasSplit(namespace: string, m: string, n: string, a: nat, b: nat)
    requires m == NatToString(a) && n == NatToString(b)
    ensures TopicSplit(true, namespace, "plc/" + namespace + "/" + m + "-" + n + "/set")
         == Success(Some(Split((a - 1) * 8 + (b - 1), a - 1, b - 1, "set")))
  {
    var prefix := "plc/" + namespace + "/";
    var topic := prefix + m + "-" + n + "/set";
    assert MatchTopic(namespace, topic) == Some((m, n, "set")) by {
      var c := m + "-" + n;
      AppendAssoc(prefix, m, "-");
      AppendAssoc(prefix, m + "-", n);
      assert prefix + m + "-" + n == prefix + c;
      AppendAssoc(prefix + c, "/", "set");
      assert topic == prefix + c + "/" + "set";
      Regroup(prefix, c, "set");
      MatchNumerals(namespace, m, n, "set");
    }
    assert ParseInt(m) == Some(a) && ParseInt(n) == Some(b) by {
      ParseNatToString(a);
      ParseNatToString(b);
    }
    SplitOfMatch(namespace, topic, m, n, "set", a, b);
  }

  // ---------------------------------------------------------------------
  // The gateway step

  /** An empty answer to the read changes nothing and queues nothing; a
      failed one raises. */
  lemma EmptyReadIdle(ds: seq<Descriptor>, ss: seq<EntityState>, now: int)
    requires |ds| == |ss|
    ensures StepOutcome(ds, ss, now, Values([])) == Success(Sweep(ss, []))
    ensures StepOutcome(ds, ss, now, ReadFailed) == Failure(TransportFailure)
  {
  }

  /** The queue holds what the entities the zip reaches queued, each from
      its own starting state, joined in entity order. */
  lemma {:induction false} FanEvents(ds: seq<Descriptor>, ss: seq<EntityState>, now: int, bits: seq<bool>, n: nat)
    requires |ds| == |ss| && n <= |ds| && n <= |bits|
    ensures Fan(ds, ss, now, bits, n).events == Concat(UpdateEvents(ds, ss, now, bits, n))
  {
    if n > 0 {
      FanEvents(ds, ss, now, bits, n - 1);
      var es := UpdateEvents(ds, ss, now, bits, n);
      assert es == UpdateEvents(ds, ss, now, bits, n - 1) + [es[n - 1]];
      ConcatSnoc(UpdateEvents(ds, ss, now, bits, n - 1), es[n - 1]);
    }
  }

  /** What each of the first n entities queues, on its own bit. */
  function UpdateEvents(ds: seq<Descriptor>, ss: seq<EntityState>, now: int, bits: seq<bool>, n: nat): seq<seq<Event>>
    requires |ds| == |ss| && n <= |ds| && n <= |bits|
  {
    seq(n, k requires 0 <= k < n => Update(ds[k], ss[k], now, bits[k]).events)
  }

  /** The layout of a gateway: entity idx owns Address(idx) and writes coil
      `off + idx`, or nothing without an offset. */
  lemma LayoutAddresses(kind: Kind, namespace: string, off: Option<int>, itemCount: nat, i: nat)
    requires i < itemCount
    ensures Layout(kind, namespace, off, itemCount)[i].mqttAddress == Address(namespace, i)
    ensures Layout(kind, namespace, off, itemCount)[i].modbusAddress ==
      (if off.Some? then Some(off.value + i) else None)
  {
  }
}
