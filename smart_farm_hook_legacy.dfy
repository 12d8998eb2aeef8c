/** The older revision of the smart-farm data hook: raw `"1"`/`"0"`
    actuator payloads, no guard around `JSON.parse`, and a water level that
    is stored and published as given. */
module SmartFarmHookLegacy {
  import opened Common
  import opened FarmTypes

  const OverviewTopic := "smartFarm/overview"
  const FanTopic := "smartFarm/control/fan"
  const HeaterTopic := "smartFarm/control/heater"
  const LightTopic := "smartFarm/control/ledLight"
  const Tank1Topic := "smartFarm/control/tank1"
  const Tank2Topic := "smartFarm/control/tank2"
  const Tank3Topic := "smartFarm/control/tank3"
  const Tank4Topic := "smartFarm/control/tank4"
  const WaterLevelTopic := "smartFarm/control/waterLevel"

  /** The body `"1"` */
  const On := IntText(1)
  /** The body `"0"` */
  const Off := IntText(0)

  /** The cell a topic writes, or `None` for a topic the handler ignores. */
  function FieldOf(topic: string): Option<Field> {
    if topic == OverviewTopic then Some(Data)
    else if topic == FanTopic then Some(Fan)
    else if topic == HeaterTopic then Some(Heater)
    else if topic == LightTopic then Some(LedLight)
    else if topic == Tank1Topic then Some(Tank1)
    else if topic == Tank2Topic then Some(Tank2)
    else if topic == Tank3Topic then Some(Tank3)
    else if topic == Tank4Topic then Some(Tank4)
    else if topic == WaterLevelTopic then Some(WaterLevel)
    else None
  }

  /** The outcome of the message handler: the new snapshot, or an exception
      that escapes the handler and leaves every cell as it was. */
  datatype Outcome = Applied(state: FarmState) | Threw

  /** The `if`/`else if` chain over the bundle and the actuator topics. */
  function Dispatch(s: FarmState, topic: string, p: Payload): (r: Outcome)
    ensures r.Threw? <==> topic == OverviewTopic && p.Malformed?
    ensures r.Applied? ==> r.state.(data := s.data, fan := s.fan, heater := s.heater, ledLight := s.ledLight) == s
  {
    if topic == OverviewTopic then
      (match p case Malformed(_) => Threw case Wire(j) => Applied(s.(data := j)))
    else if topic == FanTopic then Applied(s.(fan := p == On))
    else if topic == HeaterTopic then Applied(s.(heater := p == On))
    else if topic == LightTopic then Applied(s.(ledLight := p == On))
    else Applied(s)
  }

  /** The five independent `if`s over the tank and water-level topics. */
  function LevelUpdates(s: FarmState, topic: string, p: Payload): (t: FarmState)
    ensures t.(tank1 := s.tank1, tank2 := s.tank2, tank3 := s.tank3, tank4 := s.tank4, waterLevel := s.waterLevel) == s
    ensures topic == Tank1Topic ==> t.tank1 == NumberOf(p)
    ensures topic == WaterLevelTopic ==> t.waterLevel == NumberOf(p)
  {
    var s1 := if topic == Tank1Topic then s.(tank1 := NumberOf(p)) else s;
    var s2 := if topic == Tank2Topic then s1.(tank2 := NumberOf(p)) else s1;
    var s3 := if topic == Tank3Topic then s2.(tank3 := NumberOf(p)) else s2;
    var s4 := if topic == Tank4Topic then s3.(tank4 := NumberOf(p)) else s3;
    if topic == WaterLevelTopic then s4.(waterLevel := NumberOf(p)) else s4
  }

  /** `handleMqttMessage(topic, message)` */
  function Receive(s: FarmState, topic: string, p: Payload): (r: Outcome)
    ensures r.Threw? ==> topic == OverviewTopic
    ensures r.Applied? && topic != OverviewTopic ==> r.state.data == s.data
  {
    match Dispatch(s, topic, p)
    case Threw => Threw
    case Applied(t) => Applied(LevelUpdates(t, topic, p))
  }

  /** A user action: the optimistic local update and the messages published. */
  function Act(s: FarmState, a: Action): (st: Step)
    ensures |st.published| <= 1
    ensures a.WaterLevelChange? ==> st.state.waterLevel == Int(a.level)
  {
    match a
    case ToggleFan =>
      Step(s.(fan := !s.fan), [Message(FanTopic, if !s.fan then On else Off)])
    case ToggleHeater =>
      Step(s.(heater := !s.heater), [Message(HeaterTopic, if !s.heater then On else Off)])
    case ToggleLedLight =>
      Step(s.(ledLight := !s.ledLight), [Message(LightTopic, if !s.ledLight then On else Off)])
    case TankChange(n, v) =>
      if n == 1 then Step(s.(tank1 := Int(v)), [Message(Tank1Topic, IntText(v))])
      else if n == 2 then Step(s.(tank2 := Int(v)), [Message(Tank2Topic, IntText(v))])
      else if n == 3 then Step(s.(tank3 := Int(v)), [Message(Tank3Topic, IntText(v))])
      else if n == 4 then Step(s.(tank4 := Int(v)), [Message(Tank4Topic, IntText(v))])
      else Step(s, [])
    case WaterLevelChange(level) =>
      Step(s.(waterLevel := Int(level)), [Message(WaterLevelTopic, IntText(level))])
  }

  // ---------------------------------------------------------------------
  // Properties of the specification functions

  /** Only a bundle message whose body is not JSON throws. */
  lemma ThrowsOnlyOnMalformedOverview(s: FarmState, topic: string, p: Payload)
    ensures Receive(s, topic, p).Threw? <==> topic == OverviewTopic && p.Malformed?
  {
  }

  /** Although the tank and water-level topics are tested by independent
      `if`s, the topic strings are distinct, so a handled message changes at
      most the cell its topic names; an unknown topic changes nothing. */
  lemma {:induction false} ReceiveWritesOnlyItsField(s: FarmState, topic: string, p: Payload)
    ensures Receive(s, topic, p).Applied? ==>
      OnlyChanges(s, Receive(s, topic, p).state, FieldOf(topic))
    ensures FieldOf(topic) == None ==> Receive(s, topic, p) == Applied(s)
  {
    var r := Receive(s, topic, p);
    var only := FieldOf(topic);
    if r.Applied? {
      var t := r.state;
      if only == None {
        assert t == s;
      } else if topic == OverviewTopic {
        assert t == s.(data := p.json);
      } else if topic == FanTopic {
        assert t == s.(fan := p == On);
      } else if topic == HeaterTopic {
        assert t == s.(heater := p == On);
      } else if topic == LightTopic {
        assert t == s.(ledLight := p == On);
      } else if topic == Tank1Topic {
        assert t == s.(tank1 := NumberOf(p));
      } else if topic == Tank2Topic {
        assert t == s.(tank2 := NumberOf(p));
      } else if topic == Tank3Topic {
        assert t == s.(tank3 := NumberOf(p));
      } else if topic == Tank4Topic {
        assert t == s.(tank4 := NumberOf(p));
      } else {
        assert t == s.(waterLevel := NumberOf(p));
      }
      forall f: Field | Some(f) != only
        ensures SameAt(s, t, f)
      {
      }
    }
  }

  /** An actuator flag becomes true exactly when the body is `"1"`; any other
      body, JSON or not, turns it off. */
  lemma ActuatorOnIffOne(s: FarmState, p: Payload)
    ensures Receive(s, FanTopic, p).Applied? && (Receive(s, FanTopic, p).state.fan <==> p == On)
    ensures Receive(s, HeaterTopic, p).Applied? && (Receive(s, HeaterTopic, p).state.heater <==> p == On)
    ensures Receive(s, LightTopic, p).Applied? && (Receive(s, LightTopic, p).state.ledLight <==> p == On)
  {
  }

  /** A bundle message replaces the whole bundle with the parsed value. */
  lemma OverviewReplacesBundle(s: FarmState, j: Json)
    ensures Receive(s, OverviewTopic, Wire(j)) == Applied(s.(data := j))
  {
  }

  /** A tank or water-level body is stored as `Number(msg)` with no guard:
      a body that is not JSON still stores what `Number` makes of its text. */
  lemma LevelsStoreNumberOf(s: FarmState, p: Payload)
    ensures Receive(s, Tank1Topic, p) == Applied(s.(tank1 := NumberOf(p)))
    ensures Receive(s, Tank2Topic, p) == Applied(s.(tank2 := NumberOf(p)))
    ensures Receive(s, Tank3Topic, p) == Applied(s.(tank3 := NumberOf(p)))
    ensures Receive(s, Tank4Topic, p) == Applied(s.(tank4 := NumberOf(p)))
    ensures Receive(s, WaterLevelTopic, p) == Applied(s.(waterLevel := NumberOf(p)))
    ensures p.Malformed? ==> Receive(s, Tank1Topic, p).state.tank1 == p.number
  {
  }

  /** Delivering the same message twice has the effect of delivering it once. */
  lemma ReceiveIdempotent(s: FarmState, topic: string, p: Payload)
    ensures Receive(s, topic, p).Applied? ==>
      Receive(Receive(s, topic, p).state, topic, p) == Receive(s, topic, p)
  {
  }

  /** A toggle negates one flag and publishes `"1"` exactly when the new flag
      is set. */
  lemma ToggleNegatesOneFlag(s: FarmState)
    ensures var st := Act(s, ToggleFan);
      st.state == s.(fan := !s.fan) &&
      st.published == [Message(FanTopic, if st.state.fan then On else Off)]
    ensures var st := Act(s, ToggleHeater);
      st.state == s.(heater := !s.heater) &&
      st.published == [Message(HeaterTopic, if st.state.heater then On else Off)]
    ensures var st := Act(s, ToggleLedLight);
      st.state == s.(ledLight := !s.ledLight) &&
      st.published == [Message(LightTopic, if st.state.ledLight then On else Off)]
  {
  }

  /** Two toggles of the same actuator restore the whole snapshot. */
  lemma DoubleToggleRestores(s: FarmState, a: Action)
    requires a.ToggleFan? || a.ToggleHeater? || a.ToggleLedLight?
    ensures Act(Act(s, a).state, a).state == s
    ensures Act(Act(s, a).state, a).published[0].payload != Act(s, a).published[0].payload
  {
  }

  /** A tank number outside 1..4 changes nothing and publishes nothing; the
      water level is stored and published exactly as given. */
  lemma LevelActions(s: FarmState, n: int, v: int)
    ensures !(1 <= n <= 4) ==> Act(s, TankChange(n, v)) == Step(s, [])
    ensures Act(s, WaterLevelChange(v)) ==
      Step(s.(waterLevel := Int(v)), [Message(WaterLevelTopic, IntText(v))])
  {
  }

  /** Echoing back a message the hook published reproduces the state the
      local action left, and does not throw. */
  lemma {:induction false} EchoIsFixpoint(s: FarmState, a: Action)
    ensures forall m | m in Act(s, a).published ::
      Receive(Act(s, a).state, m.topic, m.payload) == Applied(Act(s, a).state)
  {
    var st := Act(s, a);
    if st.published != [] {
      var m := st.published[0];
      assert st.published == [m];
      assert Receive(st.state, m.topic, m.payload) == Applied(st.state) by {
        match a
        case ToggleFan =>
          assert m == Message(FanTopic, if st.state.fan then On else Off);
        case ToggleHeater =>
          assert m == Message(HeaterTopic, if st.state.heater then On else Off);
        case ToggleLedLight =>
          assert m == Message(LightTopic, if st.state.ledLight then On else Off);
        case TankChange(n, v) =>
          assert m.payload == IntText(v);
        case WaterLevelChange(level) =>
          assert m == Message(WaterLevelTopic, IntText(level));
      }
    }
  }

  // ---------------------------------------------------------------------
  // The hook as a stateful object

  /** The hook's state cells, with the outbox standing for `publish`. */
  class Hook {
    var data: Json
    var fan: bool
    var heater: bool
    var ledLight: bool
    var tank1: JsNumber
    var tank2: JsNumber
    var tank3: JsNumber
    var tank4: JsNumber
    var waterLevel: JsNumber
    var outbox: seq<Message>

    /** The snapshot the cells hold. */
    function State(): FarmState
      reads this
    {
      FarmState(data, fan, heater, ledLight, tank1, tank2, tank3, tank4, waterLevel)
    }

    /** All metrics `null`, all flags off, tanks at 50, water level 0. */
    constructor ()
      ensures State() == Initial && outbox == []
      ensures data == JBundle(NoMetrics) && !fan && !heater && !ledLight
      ensures tank1 == tank2 == tank3 == tank4 == Int(50) && waterLevel == Int(0)
    {
      data := JBundle(NoMetrics);
      fan, heater, ledLight := false, false, false;
      tank1, tank2, tank3, tank4 := Int(50), Int(50), Int(50), Int(50);
      waterLevel := Int(0);
      outbox := [];
    }

    /** `handleMqttMessage(topic, message)`; `threw` reports the exception
      `JSON.parse` raises on a malformed bundle. */
    method HandleMqttMessage(topic: string, p: Payload) returns (threw: bool)
      modifies this
      ensures threw <==> Receive(old(State()), topic, p).Threw?
      ensures threw ==> State() == old(State())
      ensures !threw ==> State() == Receive(old(State()), topic, p).state
      ensures !threw ==> OnlyChanges(old(State()), State(), FieldOf(topic))
      ensures outbox == old(outbox)
    {
      threw := false;
      if topic == OverviewTopic {
        if p.Malformed? {
          threw := true;
          return;
        }
        data := p.json;
      } else if topic == FanTopic {
        fan := p == On;
      } else if topic == HeaterTopic {
        heater := p == On;
      } else if topic == LightTopic {
        ledLight := p == On;
      }
      if topic == Tank1Topic { tank1 := NumberOf(p); }
      if topic == Tank2Topic { tank2 := NumberOf(p); }
      if topic == Tank3Topic { tank3 := NumberOf(p); }
      if topic == Tank4Topic { tank4 := NumberOf(p); }
      if topic == WaterLevelTopic { waterLevel := NumberOf(p); }
      ReceiveWritesOnlyItsField(old(State()), topic, p);
    }

    /** The end of `fetchData`. */
    method ReceivePoll(r: PollResult)
      modifies this
      ensures State() == ApplyPoll(old(State()), r)
      ensures outbox == old(outbox)
    {
      if r.Polled? {
        data := JBundle(Metrics(Some(r.tempHum), Some(r.waterLevel), Some(r.illumination),
                                Some(r.tds), Some(r.liquidTemp), Some(r.prediction)));
      }
    }

    method ToggleFan()
      modifies this
      ensures fan == !old(fan)
      ensures State() == old(State()).(fan := fan)
      ensures outbox == old(outbox) + [Message(FanTopic, if fan then On else Off)]
      ensures Step(State(), outbox[|old(outbox)|..]) == Act(old(State()), FarmTypes.ToggleFan)
    {
      var newState := !fan;
      fan := newState;
      outbox := outbox + [Message(FanTopic, if newState then On else Off)];
    }

    method ToggleHeater()
      modifies this
      ensures heater == !old(heater)
      ensures State() == old(State()).(heater := heater)
      ensures outbox == old(outbox) + [Message(HeaterTopic, if heater then On else Off)]
      ensures Step(State(), outbox[|old(outbox)|..]) == Act(old(State()), FarmTypes.ToggleHeater)
    {
      var newState := !heater;
      heater := newState;
      outbox := outbox + [Message(HeaterTopic, if newState then On else Off)];
    }

    method ToggleLedLight()
      modifies this
      ensures ledLight == !old(ledLight)
      ensures State() == old(State()).(ledLight := ledLight)
      ensures outbox == old(outbox) + [Message(LightTopic, if ledLight then On else Off)]
      ensures Step(State(), outbox[|old(outbox)|..]) == Act(old(State()), FarmTypes.ToggleLedLight)
    {
      var newState := !ledLight;
      ledLight := newState;
      outbox := outbox + [Message(LightTopic, if newState then On else Off)];
    }

    /** `handleTankChange(tankNumber, value)` */
    method HandleTankChange(tankNumber: int, value: int)
      modifies this
      ensures old(outbox) <= outbox
      ensures Step(State(), outbox[|old(outbox)|..]) == Act(old(State()), TankChange(tankNumber, value))
      ensures !(1 <= tankNumber <= 4) ==> State() == old(State()) && outbox == old(outbox)
    {
      if tankNumber == 1 {
        tank1 := Int(value);
        outbox := outbox + [Message(Tank1Topic, IntText(value))];
      } else if tankNumber == 2 {
        tank2 := Int(value);
        outbox := outbox + [Message(Tank2Topic, IntText(value))];
      } else if tankNumber == 3 {
        tank3 := Int(value);
        outbox := outbox + [Message(Tank3Topic, IntText(value))];
      } else if tankNumber == 4 {
        tank4 := Int(value);
        outbox := outbox + [Message(Tank4Topic, IntText(value))];
      }
    }

    /** `handleWaterLevelChange(level)`: no clamping in this revision. */
    method HandleWaterLevelChange(level: int)
      modifies this
      ensures waterLevel == Int(level)
      ensures State() == old(State()).(waterLevel := waterLevel)
      ensures outbox == old(outbox) + [Message(WaterLevelTopic, IntText(level))]
      ensures Step(State(), outbox[|old(outbox)|..]) == Act(old(State()), WaterLevelChange(level))
    {
      waterLevel := Int(level);
      outbox := outbox + [Message(WaterLevelTopic, IntText(level))];
    }
  }
}
