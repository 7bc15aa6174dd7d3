/** What the entity model of modbus-mqtt/gateway/entity.py guarantees: the
    status a bit publishes, the commands that write it back, the blind's
    word layout in both directions, and the button's click and long-press
    events over a run of samples. */
module EntityProperties {
  import opened Py
  import opened Entities

  // ---------------------------------------------------------------------
  // Bits and relays

  /** A bit publishes exactly when its value changes, once, on its status
      topic, retained when the class is read-only; the new value is kept. */
  lemma BitStepPublishesOnChange(d: Descriptor, s: EntityState, v: int)
    ensures BitStep(d, s, v).next == s.(state := Some(v))
    ensures BitStep(d, s, v).published ==
      if s.state == Some(v) then [] else [Publish(Topic(d, "status"), Text(OnOff(v)), d.cls.readOnly)]
  {
  }

  /** Sampling the same value twice publishes nothing the second time. */
  lemma BitStepIdempotent(d: Descriptor, s: EntityState, v: int)
    ensures var r := BitStep(d, s, v);
      BitStep(d, r.next, v) == Step(r.next, [])
  {
  }

  /** The switch decoder, case-insensitively: ON and 1 write true, OFF and 0
      write false, TOGGLE the negation of the state, anything else nothing. */
  lemma DecodeSwitchSpec(payload: string, state: Option<int>)
    ensures DecodeSwitch(payload, state) == Some(true) <==>
      EqualsIgnoringCase(payload, "ON") || EqualsIgnoringCase(payload, "1")
      || (EqualsIgnoringCase(payload, "TOGGLE") && !Truthy(state))
    ensures DecodeSwitch(payload, state) == Some(false) <==>
      EqualsIgnoringCase(payload, "OFF") || EqualsIgnoringCase(payload, "0")
      || (EqualsIgnoringCase(payload, "TOGGLE") && Truthy(state))
    ensures DecodeSwitch(payload, state) == None <==>
      !EqualsIgnoringCase(payload, "ON") && !EqualsIgnoringCase(payload, "1")
      && !EqualsIgnoringCase(payload, "OFF") && !EqualsIgnoringCase(payload, "0")
      && !EqualsIgnoringCase(payload, "TOGGLE")
  {
    UpperMatches(payload, "ON");
    UpperMatches(payload, "1");
    UpperMatches(payload, "OFF");
    UpperMatches(payload, "0");
    UpperMatches(payload, "TOGGLE");
  }

  /** The status text a bit publishes, sent back as a command, writes the
      value the bit reported. */
  lemma StatusAsCommand(v: int, state: Option<int>)
    ensures DecodeSwitch(OnOff(v), state) == Some(v != 0)
  {
    UpperIdle("ON");
    UpperIdle("OFF");
  }

  /** A toggle whose write the device takes and reports back, toggled again,
      writes the original value. */
  lemma ToggleTwice(payload: string, state: Option<int>)
    requires EqualsIgnoringCase(payload, "TOGGLE")
    ensures DecodeSwitch(payload, state).Some?
    ensures var b := DecodeSwitch(payload, state).value;
      DecodeSwitch(payload, Some(if b then 1 else 0)) == Some(Truthy(state))
  {
    UpperMatches(payload, "TOGGLE");
  }

  /** A relay command writes one coil at the entity's own write address. */
  lemma SwitchCommandWrites(d: Descriptor, s: EntityState, payload: string)
    requires d.kind != Blind
    ensures SetCommand(d, s, payload).Success?
    ensures SetCommand(d, s, payload).value.Some? <==> DecodeSwitch(payload, s.state).Some?
    ensures SetCommand(d, s, payload).value.Some? ==>
      SetCommand(d, s, payload).value.value
        == WriteCoils(WriteAddress(d), Modbus.Single(DecodeSwitch(payload, s.state).value))
  {
  }

  // ---------------------------------------------------------------------
  // Blinds

  /** A blind's two words as the device lays them out: position in the high
      byte of the first, the move flag and target in its low byte, and the
      travel times in the two bytes of the second. */
  function EncodeBlind(pos: int, target: Option<int>, tUp: int, tDn: int): (int, int) {
    (pos * 256 + (if target.None? then 0 else target.value + 128), tUp * 256 + tDn)
  }

  predicate BlindFieldsInRange(pos: int, target: Option<int>, tUp: int, tDn: int) {
    && 0 <= pos < 256 && 0 <= tUp < 256 && 0 <= tDn < 256
    && (target.Some? ==> 0 <= target.value < 128)
  }

  /** Decoding inverts the layout: every field the blind records comes back. */
  lemma BlindDecodesLayout(d: Descriptor, s: EntityState, pos: int, target: Option<int>, tUp: int, tDn: int)
    requires BlindFieldsInRange(pos, target, tUp, tDn)
    ensures var (w0, w1) := EncodeBlind(pos, target, tUp, tDn);
      BlindStep(d, s, w0, w1).next == s.(pos := pos, target := target, tUp := tUp, tDn := tDn)
  {
    var lowByte := if target.None? then 0 else target.value + 128;
    assert 0 <= lowByte < 256;
    assert (pos * 256 + lowByte) % 65536 == pos * 256 + lowByte;
    assert (pos * 256 + lowByte) / 256 == pos;
    assert (pos * 256 + lowByte) / 128 == 2 * pos + lowByte / 128;
    assert (pos * 256 + lowByte) % 128 == lowByte % 128;
    assert (tUp * 256 + tDn) % 65536 == tUp * 256 + tDn;
    assert (tUp * 256 + tDn) / 256 == tUp;
    assert (tUp * 256 + tDn) % 256 == tDn;
  }

  /** ... and the fields decoded from any two words are in range. */
  lemma BlindDecodedInRange(d: Descriptor, s: EntityState, w0: int, w1: int)
    ensures var n := BlindStep(d, s, w0, w1).next;
      BlindFieldsInRange(n.pos, n.target, n.tUp, n.tDn)
  {
  }

  /** A blind publishes exactly the fields that changed, so a sample that
      changes nothing publishes nothing, and repeating a sample is silent. */
  lemma BlindPublishesIffChanged(d: Descriptor, s: EntityState, w0: int, w1: int)
    ensures var r := BlindStep(d, s, w0, w1);
      && (r.published == [] <==> r.next == s)
      && |r.published| <= 4
      && forall i :: 0 <= i < |r.published| ==> !r.published[i].retain
  {
    var r := BlindStep(d, s, w0, w1);
    var p1, p2, p3, p4 := PosPublishes(d, s, r.next.pos), TargetPublishes(d, s, r.next.target),
                          UpPublishes(d, s, r.next.tUp), DnPublishes(d, s, r.next.tDn);
    assert r.published == p1 + p2 + p3 + p4;
    if r.published == [] {
      assert |p1| == 0 && |p2| == 0 && |p3| == 0 && |p4| == 0;
    }
  }

  lemma BlindStepIdempotent(d: Descriptor, s: EntityState, w0: int, w1: int)
    ensures var r := BlindStep(d, s, w0, w1);
      BlindStep(d, r.next, w0, w1) == Step(r.next, [])
  {
  }

  /** The cover example: a blind at position 0, moving to 50, with travel
      times 10 and 5, seen first from the initial state, publishes the
      target and both times but not the position, which is already 0. */
  lemma CoverExample(d: Descriptor)
    ensures BlindStep(d, Initial, 0 * 256 + 128 + 50, 10 * 256 + 5) ==
      Step(Initial.(target := Some(50), tUp := 10, tDn := 5),
           [Publish(Topic(d, "target"), Number(50), false),
            Publish(Topic(d, "t_up"), Number(10), false),
            Publish(Topic(d, "t_dn"), Number(5), false)])
  {
  }

  /** The words a blind set command can write: the position byte is always
      written as zero, and a number asks for its clamped value as target. */
  lemma BlindSetWordSpec(payload: string, target: Option<int>)
    ensures BlindSetWord(payload, target).Success? && BlindSetWord(payload, target).value.Some? ==>
      0 <= BlindSetWord(payload, target).value.value < 256
    ensures ParseInt(payload).Some? ==>
      BlindSetWord(payload, target) == Success(Some(Clamp(ParseInt(payload).value) + 128))
    ensures BlindSetWord(payload, target).Failure? <==>
      ParseInt(payload).None? && payload == "STOP" && target.None?
    ensures BlindSetWord(payload, target) == Success(None) <==>
      ParseInt(payload).None? && payload != "OPEN" && payload != "CLOSE" && payload != "STOP"
  {
    var r := BlindSetWord(payload, target);
    if ParseInt(payload).Some? {
      var c := Clamp(ParseInt(payload).value);
      assert r == Success(Some(WithMoveFlag(c)));
      FlaggedTarget(c);
    } else if payload == "OPEN" {
      assert r == Success(Some(WithMoveFlag(100)));
      FlaggedTarget(100);
    } else if payload == "CLOSE" {
      assert r == Success(Some(WithMoveFlag(0)));
      FlaggedTarget(0);
    } else if payload == "STOP" {
      assert target.Some? ==> r == Success(Some(Low7(target.value))) && 0 <= Low7(target.value) < 128;
    } else {
      assert r == Success(None);
    }
  }

  lemma NotANumber(s: string)
    requires |s| > 0 && !IsSpace(s[0]) && !IsSpace(s[|s| - 1]) && !IsDigit(s[0])
    requires s[0] != '+' && s[0] != '-'
    ensures ParseInt(s) == None
  {
    TrimIdle(s);
  }

  /** Reading back what a set command wrote: a number n sets target
      clamp(n), OPEN 100, CLOSE 0, and STOP clears the target; the position
      reads back as 0. */
  lemma BlindSetReadBack(d: Descriptor, s: EntityState, payload: string, w1: int)
    requires BlindSetWord(payload, s.target).Success? && BlindSetWord(payload, s.target).value.Some?
    ensures var w := BlindSetWord(payload, s.target).value.value;
      var t := BlindStep(d, s, w, w1).next.target;
      && (ParseInt(payload).Some? ==> t == Some(Clamp(ParseInt(payload).value)))
      && (payload == "OPEN" ==> t == Some(100))
      && (payload == "CLOSE" ==> t == Some(0))
      && (payload == "STOP" ==> t == None)
      && BlindStep(d, s, w, w1).next.pos == 0
  {
    var w := BlindSetWord(payload, s.target).value.value;
    SetWordTarget(payload, s.target);
    assert BlindStep(d, s, w, w1).next.target == TargetOf(w);
    assert BlindStep(d, s, w, w1).next.pos == HighByte(w);
  }

  lemma SetWordTarget(payload: string, target: Option<int>)
    requires BlindSetWord(payload, target).Success? && BlindSetWord(payload, target).value.Some?
    ensures var w := BlindSetWord(payload, target).value.value;
      && (ParseInt(payload).Some? ==> TargetOf(w) == Some(Clamp(ParseInt(payload).value)))
      && (payload == "OPEN" ==> TargetOf(w) == Some(100))
      && (payload == "CLOSE" ==> TargetOf(w) == Some(0))
      && (payload == "STOP" ==> TargetOf(w) == None)
      && HighByte(w) == 0
  {
    if ParseInt(payload).Some? {
      SetWordNumber(payload, target);
    } else {
      SetWordCommand(payload, target);
    }
  }

  lemma SetWordNumber(payload: string, target: Option<int>)
    requires ParseInt(payload).Some?
    ensures var w := BlindSetWord(payload, target).value.value;
      && TargetOf(w) == Some(Clamp(ParseInt(payload).value)) && HighByte(w) == 0
      && payload != "OPEN" && payload != "CLOSE" && payload != "STOP"
  {
    var c := Clamp(ParseInt(payload).value);
    assert BlindSetWord(payload, target) == Success(Some(WithMoveFlag(c)));
    FlaggedTarget(c);
    CommandWordsNotNumbers();
  }

  lemma SetWordCommand(payload: string, target: Option<int>)
    requires ParseInt(payload).None?
    requires BlindSetWord(payload, target).Success? && BlindSetWord(payload, target).value.Some?
    ensures var w := BlindSetWord(payload, target).value.value;
      && (payload == "OPEN" ==> TargetOf(w) == Some(100))
      && (payload == "CLOSE" ==> TargetOf(w) == Some(0))
      && (payload == "STOP" ==> TargetOf(w) == None)
      && HighByte(w) == 0
  {
    if payload == "OPEN" {
      CommandWord(payload, target);
      FlaggedTarget(100);
    } else if payload == "CLOSE" {
      CommandWord(payload, target);
      FlaggedTarget(0);
    } else {
      assert payload == "STOP" && target.Some?;
      CommandWord(payload, target);
      StoppedTarget(target.value);
    }
  }

  lemma CommandWordsNotNumbers()
    ensures ParseInt("OPEN") == None && ParseInt("CLOSE") == None && ParseInt("STOP") == None
  {
    NotANumber("OPEN");
    NotANumber("CLOSE");
    NotANumber("STOP");
  }

  /** The three command words are not numbers, so each takes its own branch. */
  lemma CommandWord(payload: string, target: Option<int>)
    requires payload == "OPEN" || payload == "CLOSE" || payload == "STOP"
    ensures payload == "OPEN" ==> BlindSetWord(payload, target) == Success(Some(WithMoveFlag(100)))
    ensures payload == "CLOSE" ==> BlindSetWord(payload, target) == Success(Some(WithMoveFlag(0)))
    ensures payload == "STOP" && target.Some? ==> BlindSetWord(payload, target) == Success(Some(Low7(target.value)))
  {
    NotANumber(payload);
  }

  lemma FlaggedTarget(c: int)
    requires 0 <= c <= 100
    ensures WithMoveFlag(c) == c + 128
    ensures TargetOf(c + 128) == Some(c) && HighByte(c + 128) == 0
  {
  }

  lemma StoppedTarget(t: int)
    ensures TargetOf(Low7(t)).None? && HighByte(Low7(t)) == 0
  {
  }

  /** A number sent as text round-trips into the target. */
  lemma BlindTargetRoundTrip(d: Descriptor, s: EntityState, n: int, w1: int)
    ensures BlindSetWord(IntToString(n), s.target) == Success(Some(Clamp(n) + 128))
    ensures BlindStep(d, s, Clamp(n) + 128, w1).next.target == Some(Clamp(n))
  {
    ParseIntToString(n);
    BlindSetWordSpec(IntToString(n), s.target);
    BlindSetReadBack(d, s, IntToString(n), w1);
  }

  /** A config command writes the travel times the blind then reports: given
      fields are taken, missing ones kept from the state. */
  lemma ConfigRoundTrip(d: Descriptor, s: EntityState, tUp: Option<int>, tDn: Option<int>, w0: int)
    requires tUp.Some? || tDn.Some?
    requires 0 <= tUp.GetOr(s.tUp) < 256 && 0 <= tDn.GetOr(s.tDn) < 256
    ensures ConfigWord(s, tUp, tDn).Some?
    ensures var n := BlindStep(d, s, w0, ConfigWord(s, tUp, tDn).value).next;
      n.tUp == tUp.GetOr(s.tUp) && n.tDn == tDn.GetOr(s.tDn)
  {
    var u, v := tUp.GetOr(s.tUp), tDn.GetOr(s.tDn);
    assert (u * 256 + v) % 65536 == u * 256 + v;
    assert (u * 256 + v) / 256 == u;
  }

  /** A config command writes to the register after the blind's first, which
      lies in the blind's own two-word write area. */
  lemma ConfigCommandWrites(d: Descriptor, s: EntityState, tUp: Option<int>, tDn: Option<int>)
    requires d.kind == Blind && ConstructionCheck(d.cls, d.kind).None?
    ensures ConfigCommand(d, s, tUp, tDn).Some? <==> tUp.Some? || tDn.Some?
    ensures ConfigCommand(d, s, tUp, tDn).Some? ==>
      var w := ConfigCommand(d, s, tUp, tDn).value;
      && w.WriteRegisters? && WriteAddress(d) <= w.address < WriteAddress(d) + d.cls.dataSize
  {
  }

  /** As written, every command that would write raises AttributeError. */
  lemma SetCommandAsWrittenRaises(d: Descriptor, s: EntityState, payload: string)
    ensures SetCommand(d, s, payload).Success? && SetCommand(d, s, payload).value.Some? ==>
      SetCommandAsWritten(d, s, payload) == Failure(AttributeError)
    ensures SetCommand(d, s, payload).Failure? || SetCommand(d, s, payload).value.None? ==>
      SetCommandAsWritten(d, s, payload) == SetCommand(d, s, payload)
  {
  }

  /** A concrete instance: "ON" to the first relay of class "relay". */
  lemma RelayOnAsWritten()
    ensures var d := Descriptor(BitOutput, ModbusClass("relay", Coil, 1, 0, 0, false), 0);
      && SetCommand(d, Initial, "ON") == Success(Some(WriteCoils(0, Modbus.Single(true))))
      && SetCommandAsWritten(d, Initial, "ON") == Failure(AttributeError)
  {
    var d := Descriptor(BitOutput, ModbusClass("relay", Coil, 1, 0, 0, false), 0);
    StatusAsCommand(1, None);
    assert OnOff(1) == "ON";
  }

  // ---------------------------------------------------------------------
  // Entities on the bus

  /** Entities of one class and kind at different indices publish and
      subscribe on different topics. */
  lemma TopicsDistinct(d: Descriptor, e: Descriptor, level: string)
    requires d.kind == e.kind && d.cls == e.cls && d.idx != e.idx
    ensures Topic(d, level) != Topic(e, level)
  {
    if Topic(d, level) == Topic(e, level) {
      var k := |Topic(d, level)| - |"/" + level|;
      assert TopicBase(d) == Topic(d, level)[..k];
      assert TopicBase(e) == Topic(e, level)[..k];
      TopicBaseInjective(d, e);
    }
  }

  /** Construction: what is refused, and the subscriptions every accepted
      output and blind holds. */
  lemma ConstructionSpec(d: Descriptor)
    ensures ConstructionCheck(d.cls, d.kind).None? <==>
      SupportedType(d.cls.dataType) && (d.kind == Blind ==> d.cls.dataType == Register && d.cls.dataSize == 2)
    ensures SupportedType(d.cls.dataType) ==>
      |InitSubscriptions(d)| == (match d.kind case Blind => 2 case BitOutput => 1 case LightRelay => 1 case _ => 0)
    ensures |InitPublishes(d)| == (if SupportedType(d.cls.dataType) && HasDiscoveryPayload(d.kind) then 1 else 0)
    ensures forall i :: 0 <= i < |InitPublishes(d)| ==> InitPublishes(d)[i].retain
  {
  }

  // ---------------------------------------------------------------------
  // Samples into an entity

  /** A sample raises exactly when its length is not the data size or it is
      too short for the kind; a constructed entity only on the length. */
  lemma ProcessFailure(d: Descriptor, s: EntityState, now: int, data: seq<int>)
    ensures Process(d, s, now, data).failure.Some? <==>
      |data| != d.cls.dataSize || (d.kind == Blind && |data| < 2) || |data| == 0
    ensures ConstructionCheck(d.cls, d.kind).None? && d.kind == Blind ==>
      (Process(d, s, now, data).failure.Some? <==> |data| != 2)
  {
  }

  // ---------------------------------------------------------------------
  // Buttons, one sample at a time

  /** A rising edge (the sample is 1 and the state was not) adds exactly one
      click and stamps the time; the status is the only publish. */
  lemma ButtonRisingEdge(d: Descriptor, s: EntityState, now: int)
    requires s.state != Some(1)
    ensures ButtonStep(d, s, now, 1) ==
      Step(s.(state := Some(1), clickCount := s.clickCount + 1, timestamp := now),
           [Publish(Topic(d, "status"), Text("ON"), d.cls.readOnly)])
  {
  }

  /** A falling edge while holding publishes exactly one "long" = RELEASE
      after the status, ends the hold and resets the clicks. */
  lemma ButtonReleaseAfterHold(d: Descriptor, s: EntityState, now: int)
    requires s.state != Some(0) && s.hold
    ensures ButtonStep(d, s, now, 0) ==
      Step(s.(state := Some(0), hold := false, clickCount := 0, timestamp := now),
           [Publish(Topic(d, "status"), Text("OFF"), d.cls.readOnly),
            Publish(Topic(d, "long"), Text("RELEASE"), false)])
  {
  }

  /** Any other edge (a falling edge while not holding, or a change to a
      value neither 0 nor 1) publishes the status and only stamps the time. */
  lemma ButtonOtherEdge(d: Descriptor, s: EntityState, now: int, v: int)
    requires s.state != Some(v) && v != 1 && (v == 0 ==> !s.hold)
    ensures ButtonStep(d, s, now, v) ==
      Step(s.(state := Some(v), timestamp := now),
           [Publish(Topic(d, "status"), Text(OnOff(v)), d.cls.readOnly)])
  {
  }

  /** Held down and not yet holding: past 400 ms exactly one "long" event with
      the click count, and the hold begins; at 400 ms or less, nothing. */
  lemma ButtonLongPress(d: Descriptor, s: EntityState, now: int)
    requires s.state == Some(1) && !s.hold
    ensures ButtonStep(d, s, now, 1) ==
      if now - s.timestamp > LongPressMin then
        Step(s.(hold := true), [Publish(Topic(d, "long"), Number(s.clickCount), false)])
      else Step(s, [])
  {
  }

  /** Released with clicks pending: past 250 ms exactly one "click" event
      with their count, and the count restarts; at 250 ms or less, nothing. */
  lemma ButtonClickPause(d: Descriptor, s: EntityState, now: int)
    requires s.state == Some(0) && s.clickCount > 0
    ensures ButtonStep(d, s, now, 0) ==
      if now - s.timestamp > ClickPauseMax then
        Step(s.(clickCount := 0), [Publish(Topic(d, "click"), Number(s.clickCount), false)])
      else Step(s, [])
  {
  }

  /** An unchanged sample in any other situation (still held, released with
      no clicks, or a value neither 0 nor 1) changes nothing and is silent. */
  lemma ButtonSteadyIdle(d: Descriptor, s: EntityState, now: int, v: int)
    requires s.state == Some(v)
    requires v == 1 ==> s.hold
    requires v == 0 ==> s.clickCount == 0
    ensures ButtonStep(d, s, now, v) == Step(s, [])
  {
  }

  /** Whatever the sample, the button ends holding it, and its timestamp
      becomes the sample's time exactly on an edge and stays otherwise. */
  lemma ButtonStateFollows(d: Descriptor, s: EntityState, now: int, v: int)
    ensures var t := ButtonStep(d, s, now, v).next;
      && t.state == Some(v)
      && (s.state != Some(v) ==> t.timestamp == now)
      && (s.state == Some(v) ==> t.timestamp == s.timestamp)
  {
  }

  // ---------------------------------------------------------------------
  // Buttons over a run of samples

  /** The button fed one timed sample after another. */
  function RunButton(d: Descriptor, s: EntityState, samples: seq<(int, int)>): Step
    decreases |samples|
  {
    if samples == [] then Step(s, [])
    else
      var r := RunButton(d, s, samples[..|samples| - 1]);
      var (now, v) := samples[|samples| - 1];
      var t := ButtonStep(d, r.next, now, v);
      Step(t.next, r.published + t.published)
  }

  /** Samples going 1, 0, 1, 0, ...: every one is an edge. */
  predicate Alternating(samples: seq<(int, int)>) {
    forall i :: 0 <= i < |samples| ==> samples[i].1 == (if i % 2 == 0 then 1 else 0)
  }

  /** Feeding presses and releases counts one click per press, publishes
      only statuses, and leaves the button unheld. */
  lemma {:induction false} AlternatingCounts(d: Descriptor, s: EntityState, samples: seq<(int, int)>)
    requires s.state != Some(1) && !s.hold
    requires Alternating(samples)
    requires |samples| > 0
    ensures var r := RunButton(d, s, samples);
      && r.next == s.(state := Some(if |samples| % 2 == 1 then 1 else 0),
                      clickCount := s.clickCount + (|samples| + 1) / 2,
                      timestamp := samples[|samples| - 1].0)
      && |r.published| == |samples|
      && forall i :: 0 <= i < |r.published| ==> r.published[i].topic == Topic(d, "status")
    decreases |samples|
  {
    var k := |samples|;
    var prefix := samples[..k - 1];
    var (now, v) := samples[k - 1];
    var r := RunButton(d, s, prefix);
    if k == 1 {
      assert prefix == [];
      assert v == 1;
    } else {
      assert forall i :: 0 <= i < |prefix| ==> prefix[i] == samples[i];
      AlternatingCounts(d, s, prefix);
      if (k - 1) % 2 == 0 {
        assert v == 1;
      } else {
        assert v == 0;
      }
    }
  }

  /** N quick clicks followed by a pause longer than the click pause give
      exactly one click event carrying N and reset the count. */
  lemma QuickClicks(d: Descriptor, s: EntityState, samples: seq<(int, int)>, pause: int)
    requires s.state != Some(1) && !s.hold && s.clickCount == 0
    requires Alternating(samples) && |samples| > 0 && |samples| % 2 == 0
    requires pause - samples[|samples| - 1].0 > ClickPauseMax
    ensures var r := RunButton(d, s, samples + [(pause, 0)]);
      && r.published == RunButton(d, s, samples).published + [Publish(Topic(d, "click"), Number(|samples| / 2), false)]
      && r.next.clickCount == 0 && !r.next.hold
  {
    var all := samples + [(pause, 0)];
    assert all[..|all| - 1] == samples;
    AlternatingCounts(d, s, samples);
  }

  /** Clicks faster than the pause give no click event yet. */
  lemma NoClickBeforePause(d: Descriptor, s: EntityState, samples: seq<(int, int)>, now: int)
    requires s.state != Some(1) && !s.hold
    requires Alternating(samples) && |samples| > 0 && |samples| % 2 == 0
    requires now - samples[|samples| - 1].0 <= ClickPauseMax
    ensures var r := RunButton(d, s, samples + [(now, 0)]);
      && r.published == RunButton(d, s, samples).published
      && r.next == RunButton(d, s, samples).next
  {
    var all := samples + [(now, 0)];
    assert all[..|all| - 1] == samples;
    AlternatingCounts(d, s, samples);
  }

  function LongEvents(d: Descriptor, published: seq<Publish>): seq<Publish> {
    if published == [] then []
    else
      var last := published[|published| - 1];
      LongEvents(d, published[..|published| - 1]) + (if last.topic == Topic(d, "long") then [last] else [])
  }

  /** Press, keep pressed past the long-press minimum, release: one long
      event with the clicks so far, then RELEASE, and no click left over. */
  lemma LongPress(d: Descriptor, s: EntityState, t0: int, t1: int, t2: int)
    requires s.state != Some(1) && !s.hold
    requires t1 - t0 > LongPressMin
    ensures var r := RunButton(d, s, [(t0, 1), (t1, 1), (t2, 0)]);
      && LongEvents(d, r.published) ==
           [Publish(Topic(d, "long"), Number(s.clickCount + 1), false),
            Publish(Topic(d, "long"), Text("RELEASE"), false)]
      && r.next.clickCount == 0 && !r.next.hold && r.next.state == Some(0)
  {
    var c := s.clickCount;
    var on := Publish(Topic(d, "status"), Text("ON"), d.cls.readOnly);
    var off := Publish(Topic(d, "status"), Text("OFF"), d.cls.readOnly);
    var long := Publish(Topic(d, "long"), Number(c + 1), false);
    var release := Publish(Topic(d, "long"), Text("RELEASE"), false);
    LongPressRun(d, s, t0, t1, t2);
    LongPressEvents(d, on, long, off, release);
  }

  /** The samples of a long press, one at a time. */
  lemma LongPressRun(d: Descriptor, s: EntityState, t0: int, t1: int, t2: int)
    requires s.state != Some(1) && !s.hold
    requires t1 - t0 > LongPressMin
    ensures RunButton(d, s, [(t0, 1), (t1, 1), (t2, 0)]) ==
      Step(s.(state := Some(0), hold := false, clickCount := 0, timestamp := t2),
           [Publish(Topic(d, "status"), Text("ON"), d.cls.readOnly),
            Publish(Topic(d, "long"), Number(s.clickCount + 1), false),
            Publish(Topic(d, "status"), Text("OFF"), d.cls.readOnly),
            Publish(Topic(d, "long"), Text("RELEASE"), false)])
  {
    var samples := [(t0, 1), (t1, 1), (t2, 0)];
    var c := s.clickCount;
    var on := Publish(Topic(d, "status"), Text("ON"), d.cls.readOnly);
    var off := Publish(Topic(d, "status"), Text("OFF"), d.cls.readOnly);
    var long := Publish(Topic(d, "long"), Number(c + 1), false);
    var release := Publish(Topic(d, "long"), Text("RELEASE"), false);
    assert samples[..2][..1] == [(t0, 1)];
    assert samples[..2] == [(t0, 1), (t1, 1)];
    assert [(t0, 1)][..0] == [];
    var s1 := s.(state := Some(1), clickCount := c + 1, timestamp := t0);
    assert RunButton(d, s, [(t0, 1)]) == Step(s1, [on]);
    var s2 := s1.(hold := true);
    assert RunButton(d, s, samples[..2]) == Step(s2, [on, long]);
    assert [on, long] + [off, release] == [on, long, off, release];
  }

  /** Of a status, a long, a status and a long publish, the long events
      are the two long ones. */
  lemma LongPressEvents(d: Descriptor, on: Publish, long: Publish, off: Publish, release: Publish)
    requires on.topic == off.topic == Topic(d, "status")
    requires long.topic == release.topic == Topic(d, "long")
    ensures LongEvents(d, [on, long, off, release]) == [long, release]
  {
    LevelsDistinct(d, "status", "long");
    var all := [on, long, off, release];
    assert all[..3] == [on, long, off];
    assert [on, long, off][..2] == [on, long];
    assert [on, long][..1] == [on];
    assert [on][..0] == [];
    assert LongEvents(d, [on]) == [];
    assert LongEvents(d, [on, long]) == [long];
    assert LongEvents(d, [on, long, off]) == [long];
  }

  /** While a long press is held, further pressed samples publish nothing. */
  lemma {:induction false} HoldIsSilent(d: Descriptor, s: EntityState, samples: seq<(int, int)>)
    requires s.state == Some(1) && s.hold
    requires forall i :: 0 <= i < |samples| ==> samples[i].1 == 1
    ensures RunButton(d, s, samples) == Step(s, [])
    decreases |samples|
  {
    if samples != [] {
      var prefix := samples[..|samples| - 1];
      assert forall i :: 0 <= i < |prefix| ==> prefix[i] == samples[i];
      HoldIsSilent(d, s, prefix);
    }
  }

  lemma LevelsDistinct(d: Descriptor, a: string, b: string)
    requires |a| != |b|
    ensures Topic(d, a) != Topic(d, b)
  {
  }
}
