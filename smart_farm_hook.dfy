/** The newest revision of the smart-farm data hook: JSON `{command}`
    actuator payloads, a `try` around the whole message handler, and a
    water level clamped into [0, 100] on the send path. */
module SmartFarmHook {
  import opened Common
  import opened FarmTypes

  const OverviewTopic := "PLKIT/overview"
  const FanTopic := "PLKIT/control/fan"
  const HeaterTopic := "PLKIT/control/heater"
  const LightTopic := "PLKIT/control/Light"
  const Tank1Topic := "PLKIT/control/nutreinet_solution_pump_FE"
  const Tank2Topic := "PLKIT/control/Plus_water_pump_FE"
  const Tank3Topic := "PLKIT/control/farm_pump_FE"
  const Tank4Topic := "PLKIT/control/recycle_pump_FE"
  const WaterLevelTopic := "PLKIT/control/Water_level_FE"

  /** The cell a topic writes, or `None` for a topic the handler ignores. */
  function FieldOf(topic: string): Option<Field> {
    if topic == OverviewTopic then Some(Data)
    else if topic == FanTopic then Some(Fan)
    else if topic == HeaterTopic then Some(Heater)
    else if topic == LightTopic then Some(LedLight)
    else if topic == Tank1Topic then Some(Tank1)
    else if topic == Tank2Topic then Some(Tank2)
    else if topic == Tank3Topic then Some(Tank3)
    else if topic == Tank4Topic then Some(Tank4)
    else if topic == WaterLevelTopic then Some(WaterLevel)
    else None
  }

  /** `parsedMsg.command === "on"`; reading a property of `null` throws,
      which is `None` here. */
  function CommandIsOn(j: Json): (r: Option<bool>)
    ensures r.None? <==> j.JNull?
    ensures r == Some(true) <==> j == JCommand("on")
  {
    if j.JNull? then None else Some(j.JCommand? && j.command == "on")
  }

  /** `JSON.stringify({command: "on" | "off"})` */
  function CommandPayload(on: bool): Payload {
    Wire(JCommand(if on then "on" else "off"))
  }

  /** `handleMqttMessage`: the payload is parsed first; a parse error, or an
      exception while dispatching, is caught and changes nothing. */
  function Receive(s: FarmState, topic: string, p: Payload): (t: FarmState)
    ensures p.Malformed? ==> t == s
    ensures topic == OverviewTopic && p.Wire? ==> t == s.(data := p.json)
    ensures topic != OverviewTopic ==> t.data == s.data
    ensures topic != FanTopic ==> t.fan == s.fan
  {
    match p
    case Malformed(_) => s
    case Wire(j) =>
      if topic == OverviewTopic then s.(data := j)
      else if topic == FanTopic then
        (match CommandIsOn(j) case None => s case Some(on) => s.(fan := on))
      else if topic == HeaterTopic then
        (match CommandIsOn(j) case None => s case Some(on) => s.(heater := on))
      else if topic == LightTopic then
        (match CommandIsOn(j) case None => s case Some(on) => s.(ledLight := on))
      else if topic == Tank1Topic then s.(tank1 := NumberOf(p))
      else if topic == Tank2Topic then s.(tank2 := NumberOf(p))
      else if topic == Tank3Topic then s.(tank3 := NumberOf(p))
      else if topic == Tank4Topic then s.(tank4 := NumberOf(p))
      else if topic == WaterLevelTopic then s.(waterLevel := NumberOf(p))
      else s
  }

  /** The level `handleWaterLevelChange` stores and publishes. */
  function Clamp(level: int): (r: int)
    ensures 0 <= r <= 100
    ensures level < 0 ==> r == 0
    ensures level >= 100 ==> r == 100
    ensures 0 <= level < 100 ==> r == level
  {
    if level < 0 then 0 else if level >= 100 then 100 else level
  }

  /** A user action: the optimistic local update and the messages published. */
  function Act(s: FarmState, a: Action): (st: Step)
    ensures |st.published| <= 1
    ensures a.WaterLevelChange? ==> st.state.waterLevel.Int? && 0 <= st.state.waterLevel.value <= 100
    ensures !a.ToggleFan? ==> st.state.fan == s.fan
  {
    match a
    case ToggleFan =>
      Step(s.(fan := !s.fan), [Message(FanTopic, CommandPayload(!s.fan))])
    case ToggleHeater =>
      Step(s.(heater := !s.heater), [Message(HeaterTopic, CommandPayload(!s.heater))])
    case ToggleLedLight =>
      Step(s.(ledLight := !s.ledLight), [Message(LightTopic, CommandPayload(!s.ledLight))])
    case TankChange(n, v) =>
      if n == 1 then Step(s.(tank1 := Int(v)), [Message(Tank1Topic, IntText(v))])
      else if n == 2 then Step(s.(tank2 := Int(v)), [Message(Tank2Topic, IntText(v))])
      else if n == 3 then Step(s.(tank3 := Int(v)), [Message(Tank3Topic, IntText(v))])
      else if n == 4 then Step(s.(tank4 := Int(v)), [Message(Tank4Topic, IntText(v))])
      else Step(s, [])
    case WaterLevelChange(level) =>
      Step(s.(waterLevel := Int(Clamp(level))), [Message(WaterLevelTopic, IntText(Clamp(level)))])
  }

  /** Something that happens to the hook: a bus message, a poll result or a
      user action. */
  datatype Event = Inbound(msg: Message) | Poll(result: PollResult) | User(action: Action)

  /** Apply one event. */
  function Apply(st: Step, e: Event): (r: Step)
    ensures st.published <= r.published && |r.published| <= |st.published| + 1
  {
    match e
    case Inbound(m) => Step(Receive(st.state, m.topic, m.payload), st.published)
    case Poll(r) => Step(ApplyPoll(st.state, r), st.published)
    case User(a) =>
      var next := Act(st.state, a);
      Step(next.state, st.published + next.published)
  }

  /** Apply a sequence of events in order. */
  function Run(st: Step, events: seq<Event>): (r: Step)
    ensures |r.published| <= |st.published| + |events|
    decreases |events|
  {
    if events == [] then st else Run(Apply(st, events[0]), events[1..])
  }

  // ---------------------------------------------------------------------
  // Properties of the specification functions

  /** A message changes at most the cell its topic names, and a topic the
      handler does not know changes nothing. */
  lemma {:induction false} ReceiveWritesOnlyItsField(s: FarmState, topic: string, p: Payload)
    ensures OnlyChanges(s, Receive(s, topic, p), FieldOf(topic))
    ensures FieldOf(topic) == None ==> Receive(s, topic, p) == s
  {
    var t := Receive(s, topic, p);
    var only := FieldOf(topic);
    if p.Malformed? || only == None {
      assert t == s;
    } else if topic == OverviewTopic {
      assert t == s.(data := p.json);
    } else if topic == FanTopic {
      assert only == Some(Fan) && t.(fan := s.fan) == s;
    } else if topic == HeaterTopic {
      assert only == Some(Heater) && t.(heater := s.heater) == s;
    } else if topic == LightTopic {
      assert only == Some(LedLight) && t.(ledLight := s.ledLight) == s;
    } else if topic == Tank1Topic {
      assert t == s.(tank1 := NumberOf(p));
    } else if topic == Tank2Topic {
      assert t == s.(tank2 := NumberOf(p));
    } else if topic == Tank3Topic {
      assert t == s.(tank3 := NumberOf(p));
    } else if topic == Tank4Topic {
      assert t == s.(tank4 := NumberOf(p));
    } else {
      assert t == s.(waterLevel := NumberOf(p));
    }
    forall f: Field | Some(f) != only
      ensures SameAt(s, t, f)
    {
    }
    if only == None {
      NoChangeMeansEqual(s, t);
    }
  }

  /** What each known topic writes into its cell: the whole bundle, the
      command flag, or the unclamped number. */
  lemma ReceiveValues(s: FarmState, j: Json)
    ensures Receive(s, OverviewTopic, Wire(j)).data == j
    ensures j != JNull ==>
      && Receive(s, FanTopic, Wire(j)).fan == (j == JCommand("on"))
      && Receive(s, HeaterTopic, Wire(j)).heater == (j == JCommand("on"))
      && Receive(s, LightTopic, Wire(j)).ledLight == (j == JCommand("on"))
    ensures Receive(s, Tank1Topic, Wire(j)).tank1 == NumberOf(Wire(j))
    ensures Receive(s, Tank2Topic, Wire(j)).tank2 == NumberOf(Wire(j))
    ensures Receive(s, Tank3Topic, Wire(j)).tank3 == NumberOf(Wire(j))
    ensures Receive(s, Tank4Topic, Wire(j)).tank4 == NumberOf(Wire(j))
    ensures Receive(s, WaterLevelTopic, Wire(j)).waterLevel == NumberOf(Wire(j))
    ensures forall n :: Receive(s, WaterLevelTopic, Wire(JNum(n))).waterLevel == Int(n)
  {
  }

  /** A body that is not JSON changes no cell, whatever the topic. */
  lemma MalformedFailsClosed(s: FarmState, topic: string, n: JsNumber)
    ensures Receive(s, topic, Malformed(n)) == s
  {
  }

  /** An actuator message whose JSON is `null` throws on `.command`; the
      error is caught and the flag keeps its value. */
  lemma NullCommandFailsClosed(s: FarmState)
    ensures Receive(s, FanTopic, Wire(JNull)) == s
    ensures Receive(s, HeaterTopic, Wire(JNull)) == s
    ensures Receive(s, LightTopic, Wire(JNull)) == s
  {
  }

  /** Delivering the same message twice has the effect of delivering it once. */
  lemma ReceiveIdempotent(s: FarmState, topic: string, p: Payload)
    ensures Receive(Receive(s, topic, p), topic, p) == Receive(s, topic, p)
  {
    var t := Receive(s, topic, p);
    if p.Wire? {
      if topic == OverviewTopic {
        assert t == s.(data := p.json);
      } else if topic == FanTopic || topic == HeaterTopic || topic == LightTopic {
        assert CommandIsOn(p.json).Some? ==> Receive(t, topic, p) == t;
      } else if topic == Tank1Topic {
        assert t == s.(tank1 := NumberOf(p));
      } else if topic == Tank2Topic {
        assert t == s.(tank2 := NumberOf(p));
      } else if topic == Tank3Topic {
        assert t == s.(tank3 := NumberOf(p));
      } else if topic == Tank4Topic {
        assert t == s.(tank4 := NumberOf(p));
      } else if topic == WaterLevelTopic {
        assert t == s.(waterLevel := NumberOf(p));
      }
    }
  }

  /** Each action publishes at most one message, and exactly one unless it is
      a tank change for a tank other than 1 to 4. */
  lemma ActPublishesOnce(s: FarmState, a: Action)
    ensures |Act(s, a).published| <= 1
    ensures |Act(s, a).published| == 0 <==> a.TankChange? && !(1 <= a.tank <= 4)
  {
  }

  /** A toggle negates one flag, changes no other cell and publishes
      `{"command":"on"}` exactly when the new flag is set. */
  lemma ToggleNegatesOneFlag(s: FarmState)
    ensures var st := Act(s, ToggleFan);
      st.state == s.(fan := !s.fan) &&
      st.published == [Message(FanTopic, Wire(JCommand(if st.state.fan then "on" else "off")))]
    ensures var st := Act(s, ToggleHeater);
      st.state == s.(heater := !s.heater) &&
      st.published == [Message(HeaterTopic, Wire(JCommand(if st.state.heater then "on" else "off")))]
    ensures var st := Act(s, ToggleLedLight);
      st.state == s.(ledLight := !s.ledLight) &&
      st.published == [Message(LightTopic, Wire(JCommand(if st.state.ledLight then "on" else "off")))]
  {
  }

  /** Two toggles of the same actuator with nothing in between restore the
      whole snapshot; the two published commands are opposite. */
  lemma DoubleToggleRestores(s: FarmState, a: Action)
    requires a.ToggleFan? || a.ToggleHeater? || a.ToggleLedLight?
    ensures Act(Act(s, a).state, a).state == s
    ensures Act(Act(s, a).state, a).published[0].payload != Act(s, a).published[0].payload
  {
  }

  /** `handleTankChange(n, v)` sets tank `n` to `v` for `n` in 1..4 and
      publishes `v.toString()` on that tank's topic; any other `n` is a no-op. */
  lemma TankChangeSetsOneTank(s: FarmState, n: int, v: int)
    ensures 1 <= n <= 4 ==>
      && OnlyChanges(s, Act(s, TankChange(n, v)).state, FieldOf(Act(s, TankChange(n, v)).published[0].topic))
      && Act(s, TankChange(n, v)).published[0].payload == IntText(v)
    ensures n == 1 ==> Act(s, TankChange(n, v)).state.tank1 == Int(v)
    ensures n == 2 ==> Act(s, TankChange(n, v)).state.tank2 == Int(v)
    ensures n == 3 ==> Act(s, TankChange(n, v)).state.tank3 == Int(v)
    ensures n == 4 ==> Act(s, TankChange(n, v)).state.tank4 == Int(v)
    ensures !(1 <= n <= 4) ==> Act(s, TankChange(n, v)) == Step(s, [])
  {
    if 1 <= n <= 4 {
      var st := Act(s, TankChange(n, v));
      forall f: Field | Some(f) != FieldOf(st.published[0].topic)
        ensures SameAt(s, st.state, f)
      {
      }
    }
  }

  /** The water level stored and published is always within [0, 100]. */
  lemma WaterLevelInRange(s: FarmState, level: int)
    ensures var st := Act(s, WaterLevelChange(level));
      && st.state.waterLevel.Int?
      && 0 <= st.state.waterLevel.value <= 100
      && st.published == [Message(WaterLevelTopic, IntText(st.state.waterLevel.value))]
  {
  }

  /** Echoing back a message the hook published leaves the snapshot as the
      local action left it. */
  lemma {:induction false} EchoIsFixpoint(s: FarmState, a: Action)
    ensures forall m | m in Act(s, a).published ::
      Receive(Act(s, a).state, m.topic, m.payload) == Act(s, a).state
  {
    match a
    case ToggleFan =>
    case ToggleHeater =>
    case ToggleLedLight =>
    case TankChange(n, v) =>
    case WaterLevelChange(level) =>
  }

  /** A poll result and a bus message for any cell but the bundle touch
      disjoint cells, so they commute. */
  lemma PollCommutesWithControlMessages(s: FarmState, r: PollResult, topic: string, p: Payload)
    requires topic != OverviewTopic
    ensures Receive(ApplyPoll(s, r), topic, p) == ApplyPoll(Receive(s, topic, p), r)
  {
  }

  /** An event that may write the fan flag. */
  predicate TouchesFan(e: Event) {
    (e.Inbound? && e.msg.topic == FanTopic) || (e.User? && e.action.ToggleFan?)
  }

  /** With no fan toggle and no message on the fan topic, the fan flag keeps
      its value however many other events happen. */
  lemma {:induction false} FanStableWithoutFanEvents(st: Step, events: seq<Event>)
    requires forall i :: 0 <= i < |events| ==> !TouchesFan(events[i])
    ensures Run(st, events).state.fan == st.state.fan
    decreases |events|
  {
    if events != [] {
      var next := Apply(st, events[0]);
      assert next.state.fan == st.state.fan by {
        match events[0]
        case Inbound(m) => ReceiveWritesOnlyItsField(st.state, m.topic, m.payload);
          assert SameAt(st.state, next.state, Fan);
        case Poll(r) =>
        case User(a) =>
      }
      FanStableWithoutFanEvents(next, events[1..]);
    }
  }

  /** Running events never removes a published message: the outbox only grows. */
  lemma {:induction false} OutboxOnlyGrows(st: Step, events: seq<Event>)
    ensures st.published <= Run(st, events).published
    decreases |events|
  {
    if events != [] {
      OutboxOnlyGrows(Apply(st, events[0]), events[1..]);
    }
  }

  // ---------------------------------------------------------------------
  // The hook as a stateful object

  /** The hook's state cells, with the outbox standing for `publish`. */
  class Hook {
    var data: Json
    var fan: bool
    var heater: bool
    var ledLight: bool
    var tank1: JsNumber
    var tank2: JsNumber
    var tank3: JsNumber
    var tank4: JsNumber
    var waterLevel: JsNumber
    var outbox: seq<Message>

    /** The snapshot the cells hold. */
    function State(): FarmState
      reads this
    {
      FarmState(data, fan, heater, ledLight, tank1, tank2, tank3, tank4, waterLevel)
    }

    /** All metrics `null`, all flags off, tanks at 50, water level 0. */
    constructor ()
      ensures State() == Initial && outbox == []
      ensures data == JBundle(NoMetrics) && !fan && !heater && !ledLight
      ensures tank1 == tank2 == tank3 == tank4 == Int(50) && waterLevel == Int(0)
    {
      data := JBundle(NoMetrics);
      fan, heater, ledLight := false, false, false;
      tank1, tank2, tank3, tank4 := Int(50), Int(50), Int(50), Int(50);
      waterLevel := Int(0);
      outbox := [];
    }

    /** `handleMqttMessage(topic, message)` */
    method HandleMqttMessage(topic: string, p: Payload)
      modifies this
      ensures State() == Receive(old(State()), topic, p)
      ensures OnlyChanges(old(State()), State(), FieldOf(topic))
      ensures p.Malformed? ==> State() == old(State())
      ensures outbox == old(outbox)
    {
      ReceiveWritesOnlyItsField(State(), topic, p);
      if p.Malformed? {
        return;  // JSON.parse threw; the catch only logs
      }
      var parsed := p.json;
      if topic == OverviewTopic {
        data := parsed;
      } else if topic == FanTopic {
        var on := CommandIsOn(parsed);
        if on.Some? { fan := on.value; }
      } else if topic == HeaterTopic {
        var on := CommandIsOn(parsed);
        if on.Some? { heater := on.value; }
      } else if topic == LightTopic {
        var on := CommandIsOn(parsed);
        if on.Some? { ledLight := on.value; }
      } else if topic == Tank1Topic {
        tank1 := NumberOf(p);
      } else if topic == Tank2Topic {
        tank2 := NumberOf(p);
      } else if topic == Tank3Topic {
        tank3 := NumberOf(p);
      } else if topic == Tank4Topic {
        tank4 := NumberOf(p);
      } else if topic == WaterLevelTopic {
        waterLevel := NumberOf(p);
      }
    }

    /** The end of `fetchData`: one `setData` with all six series, or
      nothing when any fetch failed. */
    method ReceivePoll(r: PollResult)
      modifies this
      ensures State() == ApplyPoll(old(State()), r)
      ensures outbox == old(outbox)
    {
      if r.Polled? {
        data := JBundle(Metrics(Some(r.tempHum), Some(r.waterLevel), Some(r.illumination),
                                Some(r.tds), Some(r.liquidTemp), Some(r.prediction)));
      }
    }

    method ToggleFan()
      modifies this
      ensures fan == !old(fan)
      ensures State() == old(State()).(fan := fan)
      ensures outbox == old(outbox) + [Message(FanTopic, CommandPayload(fan))]
      ensures Step(State(), outbox[|old(outbox)|..]) == Act(old(State()), FarmTypes.ToggleFan)
    {
      var newState := !fan;
      fan := newState;
      outbox := outbox + [Message(FanTopic, CommandPayload(newState))];
    }

    method ToggleHeater()
      modifies this
      ensures heater == !old(heater)
      ensures State() == old(State()).(heater := heater)
      ensures outbox == old(outbox) + [Message(HeaterTopic, CommandPayload(heater))]
      ensures Step(State(), outbox[|old(outbox)|..]) == Act(old(State()), FarmTypes.ToggleHeater)
    {
      var newState := !heater;
      heater := newState;
      outbox := outbox + [Message(HeaterTopic, CommandPayload(newState))];
    }

    method ToggleLedLight()
      modifies this
      ensures ledLight == !old(ledLight)
      ensures State() == old(State()).(ledLight := ledLight)
      ensures outbox == old(outbox) + [Message(LightTopic, CommandPayload(ledLight))]
      ensures Step(State(), outbox[|old(outbox)|..]) == Act(old(State()), FarmTypes.ToggleLedLight)
    {
      var newState := !ledLight;
      ledLight := newState;
      outbox := outbox + [Message(LightTopic, CommandPayload(newState))];
    }

    /** `handleTankChange(tankNumber, value)` */
    method HandleTankChange(tankNumber: int, value: int)
      modifies this
      ensures old(outbox) <= outbox
      ensures Step(State(), outbox[|old(outbox)|..]) == Act(old(State()), TankChange(tankNumber, value))
      ensures !(1 <= tankNumber <= 4) ==> State() == old(State()) && outbox == old(outbox)
    {
      if tankNumber == 1 {
        tank1 := Int(value);
        outbox := outbox + [Message(Tank1Topic, IntText(value))];
      } else if tankNumber == 2 {
        tank2 := Int(value);
        outbox := outbox + [Message(Tank2Topic, IntText(value))];
      } else if tankNumber == 3 {
        tank3 := Int(value);
        outbox := outbox + [Message(Tank3Topic, IntText(value))];
      } else if tankNumber == 4 {
        tank4 := Int(value);
        outbox := outbox + [Message(Tank4Topic, IntText(value))];
      }
    }

    /** `handleWaterLevelChange(level)` */
    method HandleWaterLevelChange(level: int)
      modifies this
      ensures waterLevel == Int(Clamp(level))
      ensures State() == old(State()).(waterLevel := waterLevel)
      ensures outbox == old(outbox) + [Message(WaterLevelTopic, IntText(Clamp(level)))]
      ensures Step(State(), outbox[|old(outbox)|..]) == Act(old(State()), WaterLevelChange(level))
    {
      var clamped := level;
      if clamped < 0 {
        clamped := 0;
      } else if clamped >= 100 {
        clamped := 100;
      }
      waterLevel := Int(clamped);
      outbox := outbox + [Message(WaterLevelTopic, IntText(clamped))];
    }
  }
}
