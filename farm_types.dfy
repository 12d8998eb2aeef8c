/** The farm snapshot shared by the three revisions of the dashboard's
    reconciler: the six-slot metrics bundle, the three actuator flags, the
    four tank levels and the water level, together with the payloads that
    travel on the message bus and the results of the REST poll. */
module FarmTypes {
  import opened Common

  /** One timestamped reading as the REST endpoints return it; the
      reconciler never looks inside. */
  datatype Sample = Sample(fields: map<string, int>)

  type Series = seq<Sample>

  /** The `data` bundle: one slot per metric, `None` standing for `null`. */
  datatype Metrics = Metrics(
    tempHum: Option<Series>,
    waterLevel: Option<Series>,
    illumination: Option<Series>,
    tds: Option<Series>,
    liquidTemp: Option<Series>,
    prediction: Option<Series>)

  /** A JSON value as `JSON.parse` returns it, reduced to the shapes the
      reconciler tells apart. `JNum(n)` is the text `n.toString()` prints,
      `JCommand(c)` an object whose `command` property is the string `c`,
      whatever other properties it has, `JBundle` an object read through its
      six metric properties, each an array or missing, `JOther` every other
      valid JSON text, with what `Number`
      makes of that text (an integer for a number written otherwise than
      canonically, such as `1e3` or ` 5`; `NaN` for `true`, strings,
      arrays and objects). */
  datatype Json =
    | JNull
    | JNum(n: int)
    | JCommand(command: string)
    | JBundle(metrics: Metrics)
    | JOther(number: JsNumber)

  /** A message body: text that `JSON.parse` rejects, together with what
      `Number` makes of it (`""` gives 0, `"05"` and `"+5"` give 5, `"0x10"`
      gives 16, `"abc"` gives `NaN`), or a valid JSON text. */
  datatype Payload = Malformed(number: JsNumber) | Wire(json: Json)

  /** A JavaScript number as produced by `Number(msg)`. */
  datatype JsNumber = Int(value: int) | NaN

  /** One published (or received) bus message. */
  datatype Message = Message(topic: string, payload: Payload)

  /** The nine state cells of the hook. */
  datatype FarmState = FarmState(
    data: Json,
    fan: bool,
    heater: bool,
    ledLight: bool,
    tank1: JsNumber,
    tank2: JsNumber,
    tank3: JsNumber,
    tank4: JsNumber,
    waterLevel: JsNumber)

  /** A user action offered to the control panel. */
  datatype Action =
    | ToggleFan
    | ToggleHeater
    | ToggleLedLight
    | TankChange(tank: int, value: int)
    | WaterLevelChange(level: int)

  /** The state after an action and the messages it published, in order. */
  datatype Step = Step(state: FarmState, published: seq<Message>)

  /** The outcome of `fetchData`: the six sequential fetches either all
      succeed or the single `try` around them gives up. */
  datatype PollResult =
    | PollFailed
    | Polled(tempHum: Series, waterLevel: Series, illumination: Series,
             tds: Series, liquidTemp: Series, prediction: Series)

  /** Every metric slot `null`. */
  const NoMetrics := Metrics(None, None, None, None, None, None)

  /** The hook's `useState` initial values. */
  const Initial := FarmState(JBundle(NoMetrics), false, false, false,
                             Int(50), Int(50), Int(50), Int(50), Int(0))

  /** The six slots of the metrics bundle. */
  predicate AllPresent(m: Metrics) {
    m.tempHum.Some? && m.waterLevel.Some? && m.illumination.Some? &&
    m.tds.Some? && m.liquidTemp.Some? && m.prediction.Some?
  }

  /** `Number(msg)` of the raw message text. */
  function NumberOf(p: Payload): (r: JsNumber)
    ensures p.Wire? && p.json.JNum? ==> r == Int(p.json.n)
    ensures p.Malformed? ==> r == p.number
    ensures p.Wire? && (p.json.JNull? || p.json.JCommand? || p.json.JBundle?) ==> r == NaN
  {
    match p
    case Malformed(n) => n
    case Wire(j) =>
      match j
      case JNum(n) => Int(n)
      case JOther(n) => n
      case _ => NaN
  }

  /** `value.toString()` of an integer, as a message body. */
  function IntText(v: int): Payload {
    Wire(JNum(v))
  }

  /** `setData({...})` after a successful poll; a failed poll changes nothing. */
  function ApplyPoll(s: FarmState, r: PollResult): (t: FarmState)
    ensures r.PollFailed? ==> t == s
    ensures r.Polled? ==> t.data.JBundle? && AllPresent(t.data.metrics)
    ensures r.Polled? ==> t.data == JBundle(Metrics(Some(r.tempHum), Some(r.waterLevel), Some(r.illumination),
                                                    Some(r.tds), Some(r.liquidTemp), Some(r.prediction)))
    ensures t.(data := s.data) == s
  {
    match r
    case PollFailed => s
    case Polled(th, wl, il, td, lt, pr) =>
      s.(data := JBundle(Metrics(Some(th), Some(wl), Some(il), Some(td), Some(lt), Some(pr))))
  }

  /** The cells of the snapshot, one per state hook. */
  datatype Field = Data | Fan | Heater | LedLight | Tank1 | Tank2 | Tank3 | Tank4 | WaterLevel

  /** `s` and `t` hold the same value in cell `f`. */
  predicate SameAt(s: FarmState, t: FarmState, f: Field) {
    match f
    case Data => s.data == t.data
    case Fan => s.fan == t.fan
    case Heater => s.heater == t.heater
    case LedLight => s.ledLight == t.ledLight
    case Tank1 => s.tank1 == t.tank1
    case Tank2 => s.tank2 == t.tank2
    case Tank3 => s.tank3 == t.tank3
    case Tank4 => s.tank4 == t.tank4
    case WaterLevel => s.waterLevel == t.waterLevel
  }

  /** `t` differs from `s` at most in cell `only` (in no cell when `None`). */
  predicate OnlyChanges(s: FarmState, t: FarmState, only: Option<Field>) {
    forall f: Field :: Some(f) != only ==> SameAt(s, t, f)
  }

  lemma {:induction false} NoChangeMeansEqual(s: FarmState, t: FarmState)
    requires OnlyChanges(s, t, None)
    ensures s == t
  {
    assert SameAt(s, t, Data) && SameAt(s, t, Fan) && SameAt(s, t, Heater);
    assert SameAt(s, t, LedLight) && SameAt(s, t, Tank1) && SameAt(s, t, Tank2);
    assert SameAt(s, t, Tank3) && SameAt(s, t, Tank4) && SameAt(s, t, WaterLevel);
  }
}
