# PLKIT smart farm — a Dafny model of its control-state reconciler and helpers

PLKIT is a smart-farm system. A React dashboard shows sensor series and drives
actuators over an MQTT bus, a small marketplace front end reads a mock API, and
two Python services keep registries of forecasting models. This project models
the following parts in Dafny and proves properties of them:

- **The control-state reconciler** of the dashboard's data hook, in all three
  revisions found in the repository:
  - the newest hook (`FE.dashboard/src/hooks/useSmartFarmData.js`);
  - the older hook (`src/hooks/useSmartFarmData.js`);
  - the older reconciler inlined in `src/components/Dashboard.js`.

  The reconciler's state is nine cells:
  - the six-slot metrics bundle `data`;
  - the flags `fan`, `heater` and `ledLight`;
  - the tank levels `tank1` to `tank4`;
  - `waterLevel`.

  Three kinds of step change these cells:
  - inbound bus messages;
  - the REST poll;
  - user actions, which update a cell and then publish one message.

  Each revision has two layers:
  - pure specification functions, `Receive` (one bus message) and `Act` (one
    user action), over a `FarmState` value;
  - a `class` whose fields are the nine cells plus an `outbox` sequence that
    stands for `publish`. Each method of the class is proved to change the
    fields as the specification function says.

  Module `Revisions` puts the two encodings side by side:
  - the JSON `{command}` objects and the clamped water level of the newest
    revision;
  - the `"1"`/`"0"` bodies and the unguarded `JSON.parse` of the older ones.
- **The Overview panel's helpers:**
  - `chunkedData`, as a loop proved to partition its input;
  - the slide index buttons, as a class;
  - the view-mode flip;
  - the loading gate in front of the latest prediction.
- **The marketplace's mock API module:**
  - the case-insensitive keyword filter;
  - the first-match lookups;
  - the wishlist, a set updated in place with a write-through copy in browser
    storage.
- **`calculate_time_until_threshold`**, a linear search with an early return.
- **The two `ModelManager` registries:**
  - the analysis service's, which admits only TSMixer models;
  - the model service's, which admits five model kinds.

  Each is a class over a `map` from name to model, with spec functions for the
  start-up directory scan.
- **The model service's upload endpoint**, reduced to its validation and error
  mapping, and the not-found check of its predict endpoint.

Modules:
- `Common` — `Option`, string predicates, ASCII lowering, `os.path.splitext`;
- `FarmTypes`;
- `SmartFarmHook`;
- `SmartFarmHookLegacy`;
- `Dashboard`;
- `Revisions`;
- `Overview`;
- `MockApi`;
- `Threshold`;
- `TsMixerRegistry`;
- `ModelRegistry`;
- `ModelUpload`.

Behaviour of the code worth knowing:

- **A non-numeric tank or water-level body.** Both hook revisions store
  `Number(msg)` unguarded. A JSON body that is not a number, such as `null` or
  an object, stores `NaN` (`JsNumber.NaN`). In the older revision a body that
  is not JSON stores what `Number` makes of its text: `""` gives 0, `"05"`
  gives 5, `"abc"` gives `NaN`. The newest revision leaves the cell unchanged
  for a body that is not JSON, because `JSON.parse` throws first.
- **A failing REST fetch.** The six fetches share one `try`, so one failure
  aborts the whole poll (`PollResult.PollFailed`).
- **The loading gate.** It checks only truthiness. A fetched empty array passes
  it.
- **The model service as written does not start.** `app/model_manager.py:7-14`
  imports `LinearRegressionModel`, `LSTMModel`, `RandomForestModel` and
  `XGBoostModel` from `app/model.py`, which defines only `BaseModel` and
  `TSMixerModel` (lines 10-45). The import at `app/main.py:8` therefore raises
  `ImportError`. The two endpoint bullets below describe the service with that
  import repaired.
- **The upload endpoint.** `app/main.py:90` calls `model_manager.load_model`,
  which `app/model_manager.py` does not define. The call raises
  `AttributeError`, and the handler's `except Exception` (lines 95-97) turns
  every otherwise valid upload into a 500.
- **The predict endpoint.** `app/main.py:126` calls `model_manager.get_model`,
  which neither registry defines. The `except Exception` at lines 179-181
  turns that into a 500, so every request that passes the 404 check fails.

## Model

| member | source | states |
|---|---|---|
| Common.SplitExt | app/main.py:56 | `os.path.splitext`: stem and extension concatenate back to the path. The extension is empty or is one dot followed by no further dot or slash. It is non-empty exactly when the last dot comes after the last slash with a character other than a dot between them, and it then runs from that last dot to the end. |
| Common.SplitExtExamples | app/main.py:56 | `a.tar.gz` splits into `a.tar` and `.gz`, and `a..b` into `a.` and `.b`. `..pt` and `x.d/.b` have no extension, because a leading dot of the base name does not start one. |
| Common.SplitExtOfSuffix | app/main.py:56 | For a path ending in a one-dot suffix, the extension is that suffix or empty. It is exactly the suffix when the character before it is neither a dot nor a slash. |
| FarmTypes.NumberOf | FE.dashboard/src/hooks/useSmartFarmData.js:103-111 | `Number(msg)`: a JSON integer gives that integer, and `null`, a command object or a bundle gives `NaN`. A body that is not JSON gives what `Number` makes of its text. |
| FarmTypes.ApplyPoll | FE.dashboard/src/hooks/useSmartFarmData.js:31-72 | A failed poll changes nothing. A successful poll fills each metric slot with its own fetched series (temperature and humidity, water level, illumination, TDS, liquid temperature, prediction). Only the `data` cell changes. |
| SmartFarmHook.Clamp | FE.dashboard/src/hooks/useSmartFarmData.js:274-280 | The result is in [0, 100]. A negative input becomes 0, 100 or more becomes 100, and anything else is kept. |
| SmartFarmHook.CommandIsOn | FE.dashboard/src/hooks/useSmartFarmData.js:97-101 | Reading `.command` fails exactly for JSON `null`. The flag becomes true exactly for an object whose `command` property is the string `"on"`, whatever other properties it has. |
| SmartFarmHook.Receive | FE.dashboard/src/hooks/useSmartFarmData.js:85-116 | A body that is not JSON changes nothing. The bundle topic stores the parsed JSON, only the bundle topic changes `data`, and only the fan topic changes `fan`. |
| SmartFarmHook.Act | FE.dashboard/src/hooks/useSmartFarmData.js:213-287 | An action publishes at most one message. A water-level change stores an integer in [0, 100]. Only a fan toggle changes `fan`. |
| SmartFarmHook.Apply | FE.dashboard/src/hooks/useSmartFarmData.js:85-287 | One event keeps every message published before and appends at most one. |
| SmartFarmHook.Run | FE.dashboard/src/hooks/useSmartFarmData.js:85-287 | A sequence of n events publishes at most n messages. |
| SmartFarmHook.ReceiveWritesOnlyItsField | FE.dashboard/src/hooks/useSmartFarmData.js:93-112 | A bus message changes at most the one cell its topic names. An unknown topic changes nothing. |
| SmartFarmHook.ReceiveValues | FE.dashboard/src/hooks/useSmartFarmData.js:93-112 | Per topic: the bundle topic stores the whole parsed bundle; an actuator flag becomes `command == "on"`; each tank and the water level store `Number(msg)` of the body, unclamped. |
| SmartFarmHook.MalformedFailsClosed | FE.dashboard/src/hooks/useSmartFarmData.js:89-115 | A body that is not JSON leaves the whole snapshot unchanged, whatever the topic and whatever `Number` makes of its text. |
| SmartFarmHook.NullCommandFailsClosed | FE.dashboard/src/hooks/useSmartFarmData.js:96-115 | An actuator message whose JSON is `null` throws on `.command`. The error is caught, and the snapshot is unchanged. |
| SmartFarmHook.ReceiveIdempotent | FE.dashboard/src/hooks/useSmartFarmData.js:85-116 | Delivering the same message twice equals delivering it once. |
| SmartFarmHook.ActPublishesOnce | FE.dashboard/src/hooks/useSmartFarmData.js:213-287 | Every action publishes at most one message. It publishes none only for a tank number outside 1..4. |
| SmartFarmHook.ToggleNegatesOneFlag | FE.dashboard/src/hooks/useSmartFarmData.js:213-237 | Each toggle negates its own flag and changes no other cell. It publishes one message on its own topic, `{"command":"on"}` exactly when the new flag is true. |
| SmartFarmHook.DoubleToggleRestores | FE.dashboard/src/hooks/useSmartFarmData.js:213-219 | Two toggles of one actuator restore the whole snapshot. The two published commands differ. |
| SmartFarmHook.TankChangeSetsOneTank | FE.dashboard/src/hooks/useSmartFarmData.js:239-272 | For n in 1..4, tank n becomes v, nothing else changes, and `v.toString()` is published on that tank's topic. Any other n changes and publishes nothing. |
| SmartFarmHook.WaterLevelInRange | FE.dashboard/src/hooks/useSmartFarmData.js:274-287 | The stored water level is always in [0, 100], and exactly that value is published. |
| SmartFarmHook.EchoIsFixpoint | FE.dashboard/src/hooks/useSmartFarmData.js:96-111 | Feeding any message an action published back into the handler leaves the state as the action left it. |
| SmartFarmHook.PollCommutesWithControlMessages | FE.dashboard/src/hooks/useSmartFarmData.js:61-112 | A poll result and a message on any topic but the bundle's commute, in either order. |
| SmartFarmHook.FanStableWithoutFanEvents | FE.dashboard/src/hooks/useSmartFarmData.js:96-97 | Over any sequence of events with no fan message and no fan toggle, the fan flag keeps its value. |
| SmartFarmHook.OutboxOnlyGrows | FE.dashboard/src/hooks/useSmartFarmData.js:213-287 | Over any sequence of events, the published messages only grow; earlier messages are never lost. |
| SmartFarmHook.Hook.constructor | FE.dashboard/src/hooks/useSmartFarmData.js:7-22 | All six metrics null, flags off, tanks at 50, water level 0, empty outbox. |
| SmartFarmHook.Hook.HandleMqttMessage | FE.dashboard/src/hooks/useSmartFarmData.js:85-116 | The new snapshot is `Receive` of the old one. Only the topic's cell changes, a body that is not JSON changes nothing, and nothing is published. |
| SmartFarmHook.Hook.ReceivePoll | FE.dashboard/src/hooks/useSmartFarmData.js:31-72 | The new snapshot is `ApplyPoll` of the old one, and nothing is published. |
| SmartFarmHook.Hook.ToggleFan | FE.dashboard/src/hooks/useSmartFarmData.js:213-219 | `fan` is negated and no other cell changes. The command for the new value is appended to the outbox, which agrees with `Act`. |
| SmartFarmHook.Hook.ToggleHeater | FE.dashboard/src/hooks/useSmartFarmData.js:221-228 | Same as `ToggleFan`, for `heater`. |
| SmartFarmHook.Hook.ToggleLedLight | FE.dashboard/src/hooks/useSmartFarmData.js:230-237 | Same as `ToggleFan`, for `ledLight`. |
| SmartFarmHook.Hook.HandleTankChange | FE.dashboard/src/hooks/useSmartFarmData.js:239-272 | The new snapshot and the appended messages are those of `Act`. The outbox only grows. A tank number outside 1..4 changes nothing. |
| SmartFarmHook.Hook.HandleWaterLevelChange | FE.dashboard/src/hooks/useSmartFarmData.js:274-287 | The clamped level is stored and appended to the outbox, and no other cell changes. |
| SmartFarmHookLegacy.Dispatch | src/hooks/useSmartFarmData.js:82-90 | It throws exactly on a bundle message whose body is not JSON. Otherwise it changes at most `data` and the three flags. |
| SmartFarmHookLegacy.LevelUpdates | src/hooks/useSmartFarmData.js:92-96 | Only the four tanks and the water level can change. The tank 1 and water-level topics store `Number(msg)`. |
| SmartFarmHookLegacy.Receive | src/hooks/useSmartFarmData.js:79-97 | It throws only on the bundle topic. Any other topic leaves `data` unchanged. |
| SmartFarmHookLegacy.Act | src/hooks/useSmartFarmData.js:123-160 | An action publishes at most one message. A water-level change stores the level as given, unclamped. |
| SmartFarmHookLegacy.ThrowsOnlyOnMalformedOverview | src/hooks/useSmartFarmData.js:82-84 | The handler throws exactly on a bundle message whose body is not JSON. |
| SmartFarmHookLegacy.ReceiveWritesOnlyItsField | src/hooks/useSmartFarmData.js:79-97 | Although the level topics are tested by independent `if`s, a handled message changes at most its topic's cell. An unknown topic changes nothing. |
| SmartFarmHookLegacy.ActuatorOnIffOne | src/hooks/useSmartFarmData.js:85-90 | An actuator flag becomes true exactly when the body is `"1"`. Any other body sets it false. |
| SmartFarmHookLegacy.OverviewReplacesBundle | src/hooks/useSmartFarmData.js:82-84 | A bundle message with a JSON body replaces the whole bundle. |
| SmartFarmHookLegacy.LevelsStoreNumberOf | src/hooks/useSmartFarmData.js:92-96 | Each tank or water-level topic stores `Number(msg)` in its own cell. A JSON body that is not a number stores `NaN`. A body that is not JSON stores what `Number` makes of its text. |
| SmartFarmHookLegacy.ReceiveIdempotent | src/hooks/useSmartFarmData.js:79-97 | Delivering a handled message twice equals delivering it once. |
| SmartFarmHookLegacy.ToggleNegatesOneFlag | src/hooks/useSmartFarmData.js:123-139 | A toggle negates one flag and publishes `"1"` exactly when the new flag is true, otherwise `"0"`. |
| SmartFarmHookLegacy.DoubleToggleRestores | src/hooks/useSmartFarmData.js:123-139 | Two toggles of one actuator restore the snapshot, and the two bodies differ. |
| SmartFarmHookLegacy.LevelActions | src/hooks/useSmartFarmData.js:141-160 | A tank number outside 1..4 changes and publishes nothing. The water level is stored and published verbatim, unclamped. |
| SmartFarmHookLegacy.EchoIsFixpoint | src/hooks/useSmartFarmData.js:79-97 | Feeding any message an action published back into the handler does not throw. It reproduces the state the action left. |
| SmartFarmHookLegacy.Hook.constructor | src/hooks/useSmartFarmData.js:5-20 | All six metrics null, flags off, tanks at 50, water level 0, empty outbox. |
| SmartFarmHookLegacy.Hook.HandleMqttMessage | src/hooks/useSmartFarmData.js:79-97 | It reports a throw exactly when `Receive` throws, and then the state is unchanged. Otherwise the state is `Receive`'s, with only the topic's cell changed. |
| SmartFarmHookLegacy.Hook.ReceivePoll | src/hooks/useSmartFarmData.js:27-70 | The new snapshot is `ApplyPoll` of the old one. |
| SmartFarmHookLegacy.Hook.ToggleFan | src/hooks/useSmartFarmData.js:123-127 | `fan` is negated, and `"1"`/`"0"` for the new value is appended, agreeing with `Act`. |
| SmartFarmHookLegacy.Hook.ToggleHeater | src/hooks/useSmartFarmData.js:129-133 | Same as `ToggleFan`, for `heater`. |
| SmartFarmHookLegacy.Hook.ToggleLedLight | src/hooks/useSmartFarmData.js:135-139 | Same as `ToggleFan`, for `ledLight`. |
| SmartFarmHookLegacy.Hook.HandleTankChange | src/hooks/useSmartFarmData.js:141-155 | The state and messages are those of `Act`. A tank number outside 1..4 is a no-op. |
| SmartFarmHookLegacy.Hook.HandleWaterLevelChange | src/hooks/useSmartFarmData.js:157-160 | The level is stored and published as given. |
| Dashboard.Gate | src/components/Dashboard.js:210-219 | The dashboard is ready exactly when the bundle has all six slots non-null. It fails to render exactly when `data` is JSON `null`. |
| Dashboard.PollMakesReady | src/components/Dashboard.js:26-67 | The initial state shows the loading screen. A successful poll makes the dashboard ready, and a failed one changes nothing. |
| Dashboard.Dashboard.constructor | src/components/Dashboard.js:8-23 | The initial cells, and the gate shows the loading screen. |
| Dashboard.Dashboard.HandleMqttMessage | src/components/Dashboard.js:77-107 | Agrees with the older hook's `Receive`: throws only on a malformed bundle, and otherwise changes at most the topic's cell. |
| Dashboard.Dashboard.ReceivePoll | src/components/Dashboard.js:26-67 | The new snapshot is `ApplyPoll` of the old one. After a successful poll the gate is ready. |
| Dashboard.Dashboard.ToggleFan | src/components/Dashboard.js:163-168 | `fan` is negated, and `"1"`/`"0"` is appended, agreeing with the older hook's `Act`. |
| Dashboard.Dashboard.ToggleHeater | src/components/Dashboard.js:170-175 | Same as `ToggleFan`, for `heater`. |
| Dashboard.Dashboard.ToggleLedLight | src/components/Dashboard.js:177-182 | Same as `ToggleFan`, for `ledLight`. |
| Dashboard.Dashboard.HandleTankChange | src/components/Dashboard.js:184-202 | Agrees with `Act`. A tank number outside 1..4 is a no-op. |
| Dashboard.Dashboard.HandleWaterLevelChange | src/components/Dashboard.js:204-208 | The level is stored and published unclamped. |
| Revisions.LocalUpdatesAgree | FE.dashboard/src/hooks/useSmartFarmData.js:213-272 | Toggles and tank changes update the snapshot identically in the newest and older revisions, and publish as many messages. |
| Revisions.WaterLevelAgreesIffInRange | FE.dashboard/src/hooks/useSmartFarmData.js:274-287 | The two revisions store the same water level exactly when the input is in [0, 100]. |
| Revisions.EncodingsIncompatible | src/hooks/useSmartFarmData.js:85-90 | A JSON command read by the older handler, or `"1"` read by the newest, always turns the fan off. |
| Revisions.MalformedHandlingDiffers | FE.dashboard/src/hooks/useSmartFarmData.js:89-115 | For a body that is not JSON, the newest revision changes nothing. The older one stores what `Number` makes of the text in a tank (`NaN` for a body that is neither JSON nor numeric text) and throws on the bundle topic. |
| Overview.ChunkedData | FE.dashboard/src/components/Overview.js:93-99 | The chunks concatenate back to the input. Each chunk is non-empty and at most `size` long, all but the last are exactly `size`, and there are ceil(n / size) of them. |
| Overview.StepSlide | FE.dashboard/src/components/Overview.js:108-114 | One press moves the index by at most one slide, in the pressed direction, and keeps an index in range in range. |
| Overview.Slides | FE.dashboard/src/components/Overview.js:108-114 | After k presses the index is at most k slides from where it started. |
| Overview.SlidesStayInRange | FE.dashboard/src/components/Overview.js:108-114 | From an index in range, any sequence of presses keeps it in [0, max(0, chunks - 1)]. |
| Overview.Slide.constructor | FE.dashboard/src/components/Overview.js:38-41 | Every slide index starts at 0. |
| Overview.Slide.PrevSlide | FE.dashboard/src/components/Overview.js:108-110 | It decrements only above 0, and keeps the index in range. |
| Overview.Slide.NextSlide | FE.dashboard/src/components/Overview.js:112-114 | It increments only below `chunks - 1`, and keeps the index in range. |
| Overview.ToggleViewMode | FE.dashboard/src/components/Overview.js:54-59 | Only `key` changes: chart becomes table, and table or absent becomes chart. Every other key keeps its mode. |
| Overview.ToggleTwiceRestores | FE.dashboard/src/components/Overview.js:44-59 | Flipping a present key twice restores the modes. |
| Overview.PassesGate | FE.dashboard/src/components/Overview.js:71-81 | The panel admits exactly what the dashboard component's gate admits. JSON `null` keeps the panel loading, where that component throws. |
| Overview.LatestPredictionAsWritten | FE.dashboard/src/components/Overview.js:116-117 | There is no element exactly for an empty list. Otherwise it is the list's last element. |
| Overview.EmptyPredictionPassesGate | FE.dashboard/src/components/Overview.js:71-81 | A bundle of six empty series passes the gate, and the latest-prediction read as written then has no element. |
| Overview.Render | FE.dashboard/src/components/Overview.js:116-117 | The panel shows exactly when the gate passes and the prediction list is non-empty. It shows the list's last element. |
| Overview.RenderAgreesWithSourceWhenShowing | FE.dashboard/src/components/Overview.js:116-117 | Whenever the corrected panel shows, the read as written yields the same element. |
| MockApi.Filter | src/api/index.js:6 | `items.filter(keep)` keeps exactly the items satisfying `keep`, as a subsequence of the input. Each kept item occurs as often as in the input, so duplicates survive. |
| MockApi.MatchesKeyword | src/api/index.js:6 | A title that matches is at least as long as the keyword. The empty keyword matches every title. |
| MockApi.FilterByKeyword | src/api/index.js:4-7 | It keeps exactly the items whose lowered title contains the lowered keyword, in their original order, each as often as in the input. |
| MockApi.EmptyKeywordKeepsAll | src/api/index.js:4-7 | Filtering by the empty keyword returns the whole list. |
| MockApi.Find | src/api/index.js:14-16 | It returns nothing exactly when no key matches. Otherwise it returns an element with that key, and no earlier element has it. |
| MockApi.Api.constructor | src/api/index.js:27-28 | The wishlist is what storage holds, or empty. |
| MockApi.Api.GetMarkets | src/api/index.js:9-12 | A falsy keyword gives the whole list. Otherwise it gives exactly the matching markets, as a subsequence, each as often as in the list. |
| MockApi.Api.GetCommunitys | src/api/index.js:18-21 | The same, for communities. |
| MockApi.Api.GetMarketBySlug | src/api/index.js:14-16 | It returns nothing exactly when no market has the slug. Otherwise it returns the first market in list order with that slug. |
| MockApi.Api.GetCommunityById | src/api/index.js:23-25 | The same, for community ids, which are strings as the route parameter its caller passes. |
| MockApi.Api.GetWishlist | src/api/index.js:40-42 | Exactly the markets whose slug is marked, in market-list order, each as often as in the list. |
| MockApi.Api.AddWishlist | src/api/index.js:30-33 | Marks the slug and nothing else, idempotently. The stored copy equals the wishlist. Every market with that slug is now in `GetWishlist`, and none is lost. |
| MockApi.Api.DeleteWishlist | src/api/index.js:35-38 | Unmarks only the slug; an absent slug is a no-op. The stored copy equals the wishlist. No market with that slug remains, and the others stay. |
| Threshold.TimeUntilThreshold | AI.analysis/app/utils.py:36-41 | It returns -1 exactly when no value is at or below the threshold, including for an empty series. Otherwise it returns 10·i for the first such index i: a multiple of 10 below 10·len, with every earlier value above the threshold. |
| TsMixerRegistry.CreateModelInstance | AI.analysis/app/model_manager.py:27-32 | A fresh model exactly when the name starts with `TSMixer`. |
| TsMixerRegistry.Registered | AI.analysis/app/model_manager.py:14-25 | Every name the scan registers starts with `TSMixer`. |
| TsMixerRegistry.RegisteredMembers | AI.analysis/app/model_manager.py:14-25 | A name is registered exactly when some listed `.pt` file with that stem is named `TSMixer…` and loads. |
| TsMixerRegistry.LoadOne | AI.analysis/app/model_manager.py:15-25 | One listed file adds its stem exactly when it is registrable, mapped to the model loaded from that file. Every other entry is unchanged. |
| TsMixerRegistry.LoadAll | AI.analysis/app/model_manager.py:14-25 | The scan adds exactly the registrable stems and skips every failure. Each added name maps to the listed file with that stem, and other entries are unchanged. |
| TsMixerRegistry.ModelManager.constructor | AI.analysis/app/model_manager.py:8-12 | The registry is the start-up scan applied to the empty registry. |
| TsMixerRegistry.ModelManager.LoadAllModels | AI.analysis/app/model_manager.py:14-25 | The loop leaves the registry equal to `LoadAll` of the old one, and keeps every name prefixed. |
| TsMixerRegistry.ModelManager.TrainModel | AI.analysis/app/model_manager.py:34-48 | `ValueError` with the registry unchanged exactly for a name without the prefix. Otherwise the name maps to a trained model saved to `name.pt`, and other entries are unchanged. |
| TsMixerRegistry.ModelManager.Predict | AI.analysis/app/model_manager.py:50-68 | `ValueError` exactly for a name not in the registry. Otherwise the registered model. |
| TsMixerRegistry.ModelManager.LoadModel | AI.analysis/app/model_manager.py:70-84 | It succeeds exactly for type `TSMixer`, a prefixed name and a successful load. A wrong type or name raises the registry's own `ValueError`, and a failed load re-raises the load's own exception, whatever its class. Any failure leaves the registry unchanged. Success sets only that entry. |
| TsMixerRegistry.ModelManager.ListModels | AI.analysis/app/model_manager.py:86-87 | Exactly the names `Predict` accepts. All carry the prefix. |
| ModelRegistry.CreateModelInstance | app/model_manager.py:34-52 | A model exactly for a kind's name, and of that kind. The extension plays no part. |
| ModelRegistry.KindNames | app/model_manager.py:34-52 | The kind names are exactly the five literals. |
| ModelRegistry.CreateFromKindName | app/model_manager.py:34-52 | Creating from a kind's name gives that kind, whatever the extension. |
| ModelRegistry.Loadable | app/model_manager.py:24-32 | The scan loads a file exactly when it ends in `.joblib` or `.pth` and its name without the extension is one of the five kind names. |
| ModelRegistry.Names | app/model_manager.py:24-32 | Every name the scan can load is a kind's name. |
| ModelRegistry.LoadAll | app/model_manager.py:24-32 | It raises exactly when some loadable file fails. The registry only gains loadable names, and gains all of them when nothing raised. Every entry maps to its own kind. Other entries are unchanged. |
| ModelRegistry.ScanStopsAtFailure | app/model_manager.py:24-32 | A failed load aborts the scan. Later files are never looked at, and earlier additions stay. |
| ModelRegistry.SavePath | app/model_manager.py:63-67 | The save path ends in `.pth` exactly for an LSTM and `.joblib` otherwise. Splitting it gives back the name and that extension. |
| ModelRegistry.SaveExtension | app/model_manager.py:63-67 | `.pth` exactly for an LSTM, `.joblib` for every other kind. |
| ModelRegistry.SavedModelIsLoadable | app/model_manager.py:24-67 | A model saved after training under its kind's name is loaded again by the next start-up scan, under the same name. |
| ModelRegistry.ModelManager.constructor | app/model_manager.py:18-21 | An empty registry. |
| ModelRegistry.ModelManager.LoadAllModels | app/model_manager.py:24-32 | The loop, with its early exit on the first failed load, yields exactly `LoadAll`'s registry and raised flag. |
| ModelRegistry.ModelManager.TrainModel | app/model_manager.py:54-70 | It fails with the registry unchanged exactly for an unregistered, unknown name. Otherwise it reuses or registers the entry and changes nothing else. The save path ends in `.pth` exactly for `LSTM`. |
| ModelRegistry.ModelManager.Predict | app/model_manager.py:72-76 | Fails exactly for an unregistered name. Otherwise the model registered for it, of the kind the name names. |
| ModelRegistry.ModelManager.ListModels | app/model_manager.py:78-79 | Exactly the names `Predict` accepts. |
| ModelUpload.UploadModel | app/main.py:37-99 | It accepts exactly a valid suffix, a matching type/extension pair, a saved file, valid or absent kwargs and a clean load. The name plus the extension is the file name. Errors are 400 or 500, and a bad suffix or a type/extension mismatch is 400. The status is 500 exactly for a save failure or a non-`ValueError` load failure. |
| ModelUpload.UploadModelAsWritten | app/main.py:88-97 | As written, no upload is ever accepted. The status is 500 exactly when the suffix and type checks pass and the request is not rejected for bad kwargs. |
| ModelUpload.AsWrittenRejectsValidUpload | app/main.py:88-97 | Every upload the intended endpoint accepts gets a 500 as written. |
| ModelUpload.AcceptedPairs | app/main.py:59-64 | Only (`TSMixer`, `.pt`) and (other type, `.joblib`) are ever accepted. |
| ModelUpload.BareExtensionRejected | app/main.py:52-64 | A file named just `.pt` or `.joblib` passes the suffix check but is rejected with 400. |
| ModelUpload.UploadedNameSavesBack | app/main.py:56 | For a non-LSTM kind named by an accepted `.joblib` upload, training saves back to the uploaded file name. |
| ModelUpload.PredictStatus | app/main.py:122-124 | 404 exactly for a name not in the registry. `None` means only that the request is not a 404. |
| ModelUpload.PredictAsWritten | app/main.py:122-126 | As written the status is 404 exactly for a name not in the registry, and 500 for every other request. |
| ModelUpload.PredictAsWrittenNeverServes | app/main.py:122-126 | Every request the not-found check lets through gets a 500 as written. |

## Left out

- MQTT connect, subscribe and end, and the `fetch` calls: `publish` is an
  append to `outbox`, and a poll is an input `PollResult`.
- Asynchronous interleaving and unmounting: events are applied one at a time
  in an arbitrary order (`SmartFarmHook.Run`).
- The connection handle re-created on every render
  (`src/hooks/useSmartFarmData.js:23,73`, `src/components/Dashboard.js:70`):
  re-render lifetime semantics, not logic.
- React rendering, charts, tables, routing and the marketplace pages.
- SmartFarmHook.Receive: a JSON body other than an integer, `null`, a command
  or a bundle carries its `Number` value as an input. `JsNumber` holds only
  integers and `NaN`, so fractions and infinities are not represented.
- SmartFarmHookLegacy.Receive: `Number(msg)` of a body that is not JSON is an
  input (the number the `Malformed` payload carries), not computed from the
  text. Only integer and `NaN` results are represented.
- Revisions.MalformedHandlingDiffers: the number the older revision stores for
  a body that is not JSON is the payload's `Number` value, given as an input,
  and fractions and infinities are not represented.
- MockApi.MatchesKeyword: `toLowerCase` is ASCII-only.
- MockApi.Api.AddWishlist: the storage copy is a ghost set of slugs; JSON
  serialisation and stored values other than `true` are not modelled. The
  wishlist is a plain object, so a slug that names an inherited property
  (`toString`, `constructor`, `__proto__`) reads as marked in `getWishlist`
  without being added, and deleting it does not unmark it. The set model
  does not capture this.
- TsMixerRegistry.ModelManager.TrainModel: training and saving are not
  modelled, and neither are the `model_kwargs` constructor arguments or their
  errors. The returned path stands for the file the source saves to.
- ModelRegistry.ModelManager.TrainModel: training and saving are not
  modelled. The returned path stands for the file the source saves to.
- ModelRegistry.ModelManager.constructor: `__init__` runs the start-up scan
  right after creating the registry. Here that scan is the separate
  `LoadAllModels`, whose `raised` result stands for the exception that would
  abort construction.
- Paths: `os.path.join(models_dir, …)` is not modelled. Names and paths are the
  bare file names.
- `list_models` returns a Python list; its order is not modelled (a set).
- Threshold.TimeUntilThreshold: the `TimeSeries` is a sequence of reals with one
  component; floating-point comparison is exact real comparison.
- ModelUpload.UploadModel: writing the file, parsing `model_kwargs` and loading
  the model are inputs. `app/model_manager.py` defines no `load_model`, so as
  written the call always raises `AttributeError` (`UploadModelAsWritten`).
  `UploadModel` models the evidently intended endpoint, in which the load
  outcome of a registry that has the method is an input (`LoadOk` for a clean
  load). The model classes of `app/model.py` are not part of this model, and
  neither is the `ImportError` that stops the service from starting; both
  endpoints are modelled as if that import were repaired.
- ModelUpload.PredictStatus: only the not-found check. `None` means that the
  request is not answered with a 404, not that it is served: as written every
  such request gets a 500 (`PredictAsWritten`). Fetching the model, the type
  dispatch and the prediction itself are not modelled.
- Dashboard.Gate: a metric slot holding a truthy value that is not an array
  (a number, a string, an object) passes the source's truthiness gate, but
  such a bundle is not represented, and the model shows the loading screen
  for it. The same holds for `Overview.PassesGate`, and for an object that
  carries both a string `command` and the metric properties, which the model
  reads as a command.
- MockApi.Api.GetCommunityById: community ids are strings, as the route
  parameter its only caller passes. The mock data file is not part of this
  model; if its ids are numbers, `===` against the string parameter never
  matches and the page always redirects, which the model does not represent.
- Prediction numerics (darts, torch, scikit-learn) and the data preprocessing
  are not modelled.

## Findings

| source | as written | input that shows it | evidently intended | confidence | as-written member | corrected member |
|---|---|---|---|---|---|---|
| FE.dashboard/src/components/Overview.js:71-81 | The loading gate tests only that each series is truthy. An empty prediction list passes, and `predictionData[latestIndex].water` (line 384) then reads a property of `undefined` and throws. | a bundle whose six series are all `[]` | keep the panel loading until the prediction list has an element | not executed | Overview.EmptyPredictionPassesGate | Overview.Render |
| app/main.py:90 | The handler calls `model_manager.load_model`, which the registry of `app/model_manager.py` does not define. The `AttributeError` is caught by `except Exception` and answered with a 500. This holds once the service starts at all: as written, the import at `app/model_manager.py:7-14` of four classes `app/model.py` does not define raises `ImportError` first. | any upload that passes the suffix, type and kwargs checks, such as `RandomForest.joblib` with type `RandomForest` | load the stored model into the registry and answer with the model name | not executed | ModelUpload.AsWrittenRejectsValidUpload | ModelUpload.UploadModel |
| app/main.py:126 | Past the 404 check the handler calls `model_manager.get_model`, which neither registry defines. The `AttributeError` is caught by the last `except Exception` (lines 179-181) and answered with a 500. As for the upload endpoint, the service first fails to start on the `ImportError` of `app/model_manager.py:7-14`. | a predict request naming any registered model | look the model up in the registry and answer with its prediction | not executed | ModelUpload.PredictAsWrittenNeverServes | ModelUpload.PredictStatus |
