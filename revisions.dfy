/** The newest and the older reconciler side by side: where they agree and
    where their payload encodings, clamping and error handling differ. */
module Revisions {
  import opened FarmTypes
  import Newest = SmartFarmHook
  import Legacy = SmartFarmHookLegacy

  /** Toggles and tank changes update the snapshot identically in both
      revisions and publish the same number of messages. */
  lemma LocalUpdatesAgree(s: FarmState, a: Action)
    requires !a.WaterLevelChange?
    ensures Newest.Act(s, a).state == Legacy.Act(s, a).state
    ensures |Newest.Act(s, a).published| == |Legacy.Act(s, a).published|
  {
  }

  /** The water level the two revisions store agrees exactly on inputs in
      [0, 100]; outside it only the newest revision clamps. */
  lemma WaterLevelAgreesIffInRange(s: FarmState, level: int)
    ensures Newest.Act(s, WaterLevelChange(level)).state == Legacy.Act(s, WaterLevelChange(level)).state
            <==> 0 <= level <= 100
  {
    if level < 0 || level > 100 {
      assert Newest.Act(s, WaterLevelChange(level)).state.waterLevel
          != Legacy.Act(s, WaterLevelChange(level)).state.waterLevel;
    }
  }

  /** The two actuator encodings do not understand each other: a JSON
      command read by the older handler, or a `"1"` read by the newest
      one, always turns the actuator off. */
  lemma EncodingsIncompatible(s: FarmState, on: bool)
    ensures Legacy.Receive(s, Legacy.FanTopic, Newest.CommandPayload(on)).state.fan == false
    ensures Newest.Receive(s, Newest.FanTopic, Legacy.On).fan == false
  {
  }

  /** A body that is not JSON: the newest revision ignores it on every
      topic; the older one stores in a tank what `Number` makes of the text
      (`NaN` for `abc`, 0 for the empty body) and throws on the bundle. */
  lemma MalformedHandlingDiffers(s: FarmState, n: JsNumber)
    ensures Newest.Receive(s, Newest.Tank1Topic, Malformed(n)) == s
    ensures Legacy.Receive(s, Legacy.Tank1Topic, Malformed(n)) == Legacy.Applied(s.(tank1 := n))
    ensures Newest.Receive(s, Newest.OverviewTopic, Malformed(n)) == s
    ensures Legacy.Receive(s, Legacy.OverviewTopic, Malformed(n)) == Legacy.Threw
  {
  }
}
