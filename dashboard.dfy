/** The dashboard component that inlines the older reconciler (same topics,
    same `"1"`/`"0"` payloads, no parse guard, no clamp) and gates its
    rendering on the six metric slots. Its handlers are proved against the
    older hook's specification functions. */
module Dashboard {
  import opened Common
  import opened FarmTypes
  import Legacy = SmartFarmHookLegacy

  /** What the component renders. */
  datatype View = Loading | Ready | RenderError

  /** The loading gate `!data.tempHumData || ... || !data.predictionData`.
      A fetched series is an array, which is truthy even when empty. The gate
      does not test `data` itself, so a bundle message whose JSON is `null`
      makes the property read throw while rendering. */
  function Gate(data: Json): (v: View)
    ensures v == Ready <==> data.JBundle? && AllPresent(data.metrics)
    ensures v == RenderError <==> data.JNull?
  {
    match data
    case JNull => RenderError
    case JBundle(m) => if AllPresent(m) then Ready else Loading
    case _ => Loading
  }

  /** The component starts on the loading screen, and a successful poll
      makes it ready whatever the bus did before. */
  lemma PollMakesReady(s: FarmState, r: PollResult)
    ensures Gate(Initial.data) == Loading
    ensures r.Polled? ==> Gate(ApplyPoll(s, r).data) == Ready
    ensures r.PollFailed? ==> Gate(ApplyPoll(s, r).data) == Gate(s.data)
  {
  }

  /** The component's state cells, with the outbox standing for `publish`. */
  class Dashboard {
    var data: Json
    var fan: bool
    var heater: bool
    var ledLight: bool
    var tank1: JsNumber
    var tank2: JsNumber
    var tank3: JsNumber
    var tank4: JsNumber
    var waterLevel: JsNumber
    var outbox: seq<Message>

    /** The snapshot the cells hold. */
    function State(): FarmState
      reads this
    {
      FarmState(data, fan, heater, ledLight, tank1, tank2, tank3, tank4, waterLevel)
    }

    /** All metrics `null`, all flags off, tanks at 50, water level 0. */
    constructor ()
      ensures State() == Initial && outbox == []
      ensures data == JBundle(NoMetrics) && !fan && !heater && !ledLight
      ensures tank1 == tank2 == tank3 == tank4 == Int(50) && waterLevel == Int(0)
      ensures Gate(data) == Loading
    {
      data := JBundle(NoMetrics);
      fan, heater, ledLight := false, false, false;
      tank1, tank2, tank3, tank4 := Int(50), Int(50), Int(50), Int(50);
      waterLevel := Int(0);
      outbox := [];
    }

    /** `handleMqttMessage(topic, message)` */
    method HandleMqttMessage(topic: string, p: Payload) returns (threw: bool)
      modifies this
      ensures threw <==> Legacy.Receive(old(State()), topic, p).Threw?
      ensures threw ==> State() == old(State())
      ensures !threw ==> State() == Legacy.Receive(old(State()), topic, p).state
      ensures !threw ==> OnlyChanges(old(State()), State(), Legacy.FieldOf(topic))
      ensures outbox == old(outbox)
    {
      threw := false;
      if topic == Legacy.OverviewTopic {
        if p.Malformed? {
          threw := true;
          return;
        }
        data := p.json;
      } else if topic == Legacy.FanTopic {
        fan := p == Legacy.On;
      } else if topic == Legacy.HeaterTopic {
        heater := p == Legacy.On;
      } else if topic == Legacy.LightTopic {
        ledLight := p == Legacy.On;
      }
      if topic == Legacy.Tank1Topic { tank1 := NumberOf(p); }
      if topic == Legacy.Tank2Topic { tank2 := NumberOf(p); }
      if topic == Legacy.Tank3Topic { tank3 := NumberOf(p); }
      if topic == Legacy.Tank4Topic { tank4 := NumberOf(p); }
      if topic == Legacy.WaterLevelTopic { waterLevel := NumberOf(p); }
      Legacy.ReceiveWritesOnlyItsField(old(State()), topic, p);
    }

    /** The end of `fetchData`. */
    method ReceivePoll(r: PollResult)
      modifies this
      ensures State() == ApplyPoll(old(State()), r)
      ensures r.Polled? ==> Gate(data) == Ready
      ensures outbox == old(outbox)
    {
      if r.Polled? {
        data := JBundle(Metrics(Some(r.tempHum), Some(r.waterLevel), Some(r.illumination),
                                Some(r.tds), Some(r.liquidTemp), Some(r.prediction)));
      }
    }

    method ToggleFan()
      modifies this
      ensures fan == !old(fan)
      ensures outbox == old(outbox) + [Message(Legacy.FanTopic, if fan then Legacy.On else Legacy.Off)]
      ensures Step(State(), outbox[|old(outbox)|..]) == Legacy.Act(old(State()), FarmTypes.ToggleFan)
    {
      var newState := !fan;
      fan := newState;
      outbox := outbox + [Message(Legacy.FanTopic, if newState then Legacy.On else Legacy.Off)];
    }

    method ToggleHeater()
      modifies this
      ensures heater == !old(heater)
      ensures outbox == old(outbox) + [Message(Legacy.HeaterTopic, if heater then Legacy.On else Legacy.Off)]
      ensures Step(State(), outbox[|old(outbox)|..]) == Legacy.Act(old(State()), FarmTypes.ToggleHeater)
    {
      var newState := !heater;
      heater := newState;
      outbox := outbox + [Message(Legacy.HeaterTopic, if newState then Legacy.On else Legacy.Off)];
    }

    method ToggleLedLight()
      modifies this
      ensures ledLight == !old(ledLight)
      ensures outbox == old(outbox) + [Message(Legacy.LightTopic, if ledLight then Legacy.On else Legacy.Off)]
      ensures Step(State(), outbox[|old(outbox)|..]) == Legacy.Act(old(State()), FarmTypes.ToggleLedLight)
    {
      var newState := !ledLight;
      ledLight := newState;
      outbox := outbox + [Message(Legacy.LightTopic, if newState then Legacy.On else Legacy.Off)];
    }

    /** `handleTankChange(tankNumber, value)` */
    method HandleTankChange(tankNumber: int, value: int)
      modifies this
      ensures old(outbox) <= outbox
      ensures Step(State(), outbox[|old(outbox)|..]) == Legacy.Act(old(State()), TankChange(tankNumber, value))
      ensures !(1 <= tankNumber <= 4) ==> State() == old(State()) && outbox == old(outbox)
    {
      if tankNumber == 1 {
        tank1 := Int(value);
        outbox := outbox + [Message(Legacy.Tank1Topic, IntText(value))];
      } else if tankNumber == 2 {
        tank2 := Int(value);
        outbox := outbox + [Message(Legacy.Tank2Topic, IntText(value))];
      } else if tankNumber == 3 {
        tank3 := Int(value);
        outbox := outbox + [Message(Legacy.Tank3Topic, IntText(value))];
      } else if tankNumber == 4 {
        tank4 := Int(value);
        outbox := outbox + [Message(Legacy.Tank4Topic, IntText(value))];
      }
    }

    /** `handleWaterLevelChange(level)`: stored and published unclamped. */
    method HandleWaterLevelChange(level: int)
      modifies this
      ensures waterLevel == Int(level)
      ensures outbox == old(outbox) + [Message(Legacy.WaterLevelTopic, IntText(level))]
      ensures Step(State(), outbox[|old(outbox)|..]) == Legacy.Act(old(State()), WaterLevelChange(level))
    {
      waterLevel := Int(level);
      outbox := outbox + [Message(Legacy.WaterLevelTopic, IntText(level))];
    }
  }
}
