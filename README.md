# gorgan core, modelled in Dafny

gorgan is a "threat detection" dashboard with two parts:

- **demodet**, a React web client. It shows simulated temperature and sound sensors and an air-quality card that shows the shared store's AQI. The card's OpenWeather polling waits for a `liveMode` flag the shared store never provides, so it never fetches. It also has a fixed "Upsidometer" gauge, a manual override panel, a team chat and a keyword-driven assistant chat.
- **servorgan**, an Express API server backed by Firestore. It has a bearer-token middleware, an alerts collection, user profiles and a friend graph.

This project models the logic of those pieces and proves properties of it.

- **Pure logic** becomes functions with contracts and lemmas: the US AQI conversion, status thresholds, bar widths, the keyword cascade, JavaScript string helpers, and the alert-document and profile-merge rules.
- **State updates** become classes whose methods state their whole new state:
  - each sensor's tick;
  - the shared sensor store and the override panel;
  - the two chats;
  - the request/response pair the middleware touches;
  - the `alerts` and `users` collections and the handlers over them.

Environment inputs are passed in as parameters:

- `Math.random()` draws, in [0, 1);
- clock readings, in milliseconds;
- the identity verifier, as a function from token to claims;
- whether a Firestore write or read fails, for the alert handlers and user creation;
- Firestore's generated document ids.

Numbers are mathematical reals. `Math.round(x)` is `floor(x + 1/2)`.

Modules, one file each:

- `Wrappers`, `Numeric` and `JsString` are helpers. `JsString` covers ECMAScript `trim`, ASCII `toLowerCase`, `includes`, `startsWith` and decimal `toString`.
- `JsonValue` holds JSON values, truthiness and Firestore's value order.
- Client modules: `WeatherService`, `SensorCommon`, `TemperatureSensor`, `SoundTracker`, `VecnaMeter`, `SensorContext`, `ManualOverrideModal`, `AirQualitySensor`, `MessagingDashboard` and `AIAssistant`.
- Server modules: `VerifyFirebaseToken`, `Alerts`, `UserController` and `UsersRoutes`.

## Model

| member | source | states |
|---|---|---|
| WeatherService.LinearInterpolation | demodet/src/services/weatherService.ts:147-155 | the result sits on the straight line through (inMin, outMin) and (inMax, outMax): its rise over outMin is in the same ratio to the output span as the input's rise over inMin is to the input span |
| WeatherService.Pm25Aqi | demodet/src/services/weatherService.ts:125-134 | every PM2.5 concentration in [0, 500.4] gets an index in [0, 500], and up to 12.0 at most 50 |
| WeatherService.Pm10Aqi | demodet/src/services/weatherService.ts:136-145 | every PM10 concentration in [0, 604] gets an index in [0, 500], and up to 54 at most 50 |
| WeatherService.InterpolationEndpoints | demodet/src/services/weatherService.ts:147-155 | the linear map sends the band's low and high concentration to its low and high index |
| WeatherService.InterpolationMonotone | demodet/src/services/weatherService.ts:147-155 | within a band with increasing input and output range, a higher concentration never gives a lower index |
| WeatherService.SelectBand | demodet/src/services/weatherService.ts:125-145 | the first breakpoint band whose upper concentration bound is not exceeded, or the last band when every bound is exceeded |
| WeatherService.Pm25IsTableLookup | demodet/src/services/weatherService.ts:125-134 | the PM2.5 if-chain equals interpolation in the first matching row of the EPA PM2.5 breakpoint table |
| WeatherService.Pm10IsTableLookup | demodet/src/services/weatherService.ts:136-145 | the PM10 if-chain equals interpolation in the first matching row of the EPA PM10 breakpoint table |
| WeatherService.Pm25Breakpoints | demodet/src/services/weatherService.ts:125-134 | every PM2.5 band's upper bound maps to that band's top index: 12.0→50, 35.4→100, 55.4→150, 150.4→200, 250.4→300, 350.4→400 |
| WeatherService.Pm10Breakpoints | demodet/src/services/weatherService.ts:136-145 | every PM10 band's upper bound maps to that band's top index: 54→50, 154→100, 254→150, 354→200, 424→300, 504→400 |
| WeatherService.Pm25Gap | demodet/src/services/weatherService.ts:125-134 | a PM2.5 value between two bands (e.g. 12.05) gets an index strictly between the two bands' indexes |
| WeatherService.Pm25Monotone | demodet/src/services/weatherService.ts:125-134 | the PM2.5 sub-index never decreases as concentration rises |
| WeatherService.Pm10GapDips | demodet/src/services/weatherService.ts:141-143 | the PM10 sub-index is not monotone: 354.1 scores lower than 354.0, and 424.1 lower than 424.0 |
| WeatherService.Pm10GapDipRoundsAway | demodet/src/services/weatherService.ts:122-145 | after rounding, values in the 354–355 and 424–425 gaps still score at least 200 and 300 |
| WeatherService.Unclamped | demodet/src/services/weatherService.ts:125-145 | the top band is not capped: PM2.5 above 500.4 or PM10 above 604 gives an index above 500 |
| WeatherService.ConvertToUsAqi | demodet/src/services/weatherService.ts:112-123 | the US AQI is one of the two rounded sub-indexes and is at least both (the worse pollutant wins) |
| WeatherService.GasesIgnored | demodet/src/services/weatherService.ts:112-123 | NO2 and O3 never affect the result |
| WeatherService.SumOfSquaresBound | demodet/src/services/weatherService.ts:217-220 | the sum of squared byte bins is at most 255² per bin |
| WeatherService.ClampDecibels | demodet/src/services/weatherService.ts:229 | the rounded decibel value is clamped into [30, 130], unchanged when already inside |
| WeatherService.ClampDecibelsMonotone | demodet/src/services/weatherService.ts:229 | a higher decibel value never gives a lower reported level |
| WeatherService.GetSoundLevel | demodet/src/services/weatherService.ts:207-230 | 0 without an analyser; otherwise the clamped, rounded decibels of the bins' mean square, always within [30, 130] |
| SensorCommon.DriftStep | demodet/src/components/TemperatureSensor.tsx:10-13 | one random-walk tick stays in [lo, hi] and moves an in-range reading by at most half the spread downwards and less than half the spread upwards |
| SensorCommon.DriftStepMonotone | demodet/src/components/TemperatureSensor.tsx:10-13 | from the same reading, a larger random draw never gives a lower next reading |
| SensorCommon.WalkInRange | demodet/src/components/TemperatureSensor.tsx:8-16 | any run of ticks from an in-range reading stays in range |
| SensorCommon.Walk | demodet/src/components/TemperatureSensor.tsx:8-16 | no ticks leave the start reading; after at least one tick the reading is in [lo, hi], wherever it started |
| SensorCommon.WalkDisplacement | demodet/src/components/TemperatureSensor.tsx:8-16 | from an in-range start, n ticks end within n·spread/2 of the start |
| TemperatureSensor.Sensor.constructor | demodet/src/components/TemperatureSensor.tsx:5 | the card starts at 18.5 °C |
| TemperatureSensor.TemperatureStatus | demodet/src/components/TemperatureSensor.tsx:18-22 | CRITICAL iff below 0, WARNING iff in [0, 15), NORMAL iff at least 15 |
| TemperatureSensor.BadgeBelowSafeLine | demodet/src/components/TemperatureSensor.tsx:33-37 | the badge shows exactly below the 15 °C safe line |
| TemperatureSensor.InitialIsNormal | demodet/src/components/TemperatureSensor.tsx:5 | the initial 18.5 °C is NORMAL |
| TemperatureSensor.Drift | demodet/src/components/TemperatureSensor.tsx:10-13 | a tick keeps the temperature in [-10, 35] and moves an in-range reading by at most 1 °C down and less than 1 °C up |
| TemperatureSensor.BarWidth | demodet/src/components/TemperatureSensor.tsx:52 | the bar width is in [0, 100]: 0 at or below -10, 100 at or above 35, strictly between otherwise |
| TemperatureSensor.BarWidthMonotone | demodet/src/components/TemperatureSensor.tsx:52 | a warmer reading never has a shorter bar |
| TemperatureSensor.Sensor.Tick | demodet/src/components/TemperatureSensor.tsx:9-14 | the interval callback replaces the temperature by one drift step, staying in [-10, 35] |
| SoundTracker.Tracker.constructor | demodet/src/components/SoundTracker.tsx:5 | the card starts at 72 dB |
| SoundTracker.SoundStatus | demodet/src/components/SoundTracker.tsx:18-22 | CRITICAL iff above 110, WARNING iff in (95, 110], NORMAL iff at most 95 |
| SoundTracker.InitialIsNormal | demodet/src/components/SoundTracker.tsx:5 | the initial 72 dB is NORMAL |
| SoundTracker.Drift | demodet/src/components/SoundTracker.tsx:10-13 | a tick keeps the level in [30, 130] and moves an in-range level by at most 5 dB down and less than 5 dB up |
| SoundTracker.BarWidth | demodet/src/components/SoundTracker.tsx:52 | the width is capped at 100, reached exactly from 130 dB up, and has the sign of the level |
| SoundTracker.BarWidthMonotone | demodet/src/components/SoundTracker.tsx:52 | a louder level never has a shorter bar, and strictly longer below the 130 dB cap |
| SoundTracker.BarVisibleInRange | demodet/src/components/SoundTracker.tsx:12-52 | every reachable level (at least 30 dB) shows a bar at least 23 wide |
| SoundTracker.Tracker.Tick | demodet/src/components/SoundTracker.tsx:9-14 | the interval callback replaces the level by one drift step, staying in [30, 130] |
| VecnaMeter.VecnaStatus | demodet/src/components/VecnaMeter.tsx:6-11 | MINIMAL iff ≤ 25, MODERATE iff in (25, 50], HIGH iff in (50, 75], CRITICAL iff above 75 |
| VecnaMeter.TierMonotone | demodet/src/components/VecnaMeter.tsx:6-11 | a higher level never gives a lower tier |
| VecnaMeter.FixedLevelIsHigh | demodet/src/components/VecnaMeter.tsx:4-13 | the hard-coded level 67 always shows HIGH |
| VecnaMeter.BarWidth | demodet/src/components/VecnaMeter.tsx:32 | the width is the level up to 100 and exactly 100 from 100 up; never above the level |
| VecnaMeter.BarWidthMonotone | demodet/src/components/VecnaMeter.tsx:32 | a higher level never has a shorter bar |
| SensorContext.WithTemperature | demodet/src/context/SensorContext.tsx:26-28 | replaces the temperature and keeps the sound level and AQI |
| SensorContext.WithSoundLevel | demodet/src/context/SensorContext.tsx:30-32 | replaces the sound level and keeps temperature and AQI |
| SensorContext.WithAqi | demodet/src/context/SensorContext.tsx:34-36 | replaces the AQI and keeps temperature and sound level |
| SensorContext.UpdatesCommute | demodet/src/context/SensorContext.tsx:26-36 | updates of different fields commute |
| SensorContext.UpdatesIdempotent | demodet/src/context/SensorContext.tsx:26-36 | of two updates of the same field, the last one wins |
| SensorContext.SensorProvider.constructor | demodet/src/context/SensorContext.tsx:20-24 | the store starts at 18.5 °C, 0 dB, AQI 145 |
| SensorContext.SensorProvider.UpdateTemperature | demodet/src/context/SensorContext.tsx:26-28 | the stored readings become the temperature update of the old ones |
| SensorContext.SensorProvider.UpdateSoundLevel | demodet/src/context/SensorContext.tsx:30-32 | the stored readings become the sound-level update of the old ones |
| SensorContext.SensorProvider.UpdateAqi | demodet/src/context/SensorContext.tsx:34-36 | the stored readings become the AQI update of the old ones |
| SensorContext.UseSensorContext | demodet/src/context/SensorContext.tsx:52-58 | returns the context when one is provided, else the fixed "used outside a provider" error |
| ManualOverrideModal.Modal.constructor | demodet/src/components/ManualOverrideModal.tsx:10-13 | the three inputs start at the store's current readings |
| ManualOverrideModal.Modal.Resync | demodet/src/components/ManualOverrideModal.tsx:16-20 | the inputs are reset to the store's readings and nothing is sent |
| ManualOverrideModal.Modal.SetTemp | demodet/src/components/ManualOverrideModal.tsx:51 | editing the temperature field changes only that input |
| ManualOverrideModal.Modal.SetSound | demodet/src/components/ManualOverrideModal.tsx:61 | editing the sound field changes only that input |
| ManualOverrideModal.Modal.SetAqi | demodet/src/components/ManualOverrideModal.tsx:71 | editing the AQI field changes only that input |
| ManualOverrideModal.Modal.ApplyManual | demodet/src/components/ManualOverrideModal.tsx:22-27 | the store ends holding exactly the three inputs; the calls are temperature, sound, AQI, then close |
| AirQualitySensor.AqiStatus | demodet/src/components/AirQualitySensor.tsx:27-31 | CRITICAL iff above 400, WARNING iff in (250, 400], NORMAL iff at most 250 |
| AirQualitySensor.InitialIsNormal | demodet/src/components/AirQualitySensor.tsx:27-31 | the store's initial AQI of 145 shows NORMAL |
| AirQualitySensor.BarWidth | demodet/src/components/AirQualitySensor.tsx:61 | the width is capped at 100, reached exactly from AQI 500, and has the sign of the AQI |
| AirQualitySensor.BarWidthMonotone | demodet/src/components/AirQualitySensor.tsx:61 | a higher AQI never has a shorter bar, and strictly longer below the 500 cap |
| AirQualitySensor.DisplayedAqi | demodet/src/components/AirQualitySensor.tsx:51 | the shown AQI is within a half of the stored one |
| AirQualitySensor.DisplayedAqiMonotone | demodet/src/components/AirQualitySensor.tsx:51 | a higher stored AQI never shows a lower number |
| AirQualitySensor.PollingNeverStarts | demodet/src/components/AirQualitySensor.tsx:7-20 | the context provides no `liveMode`, so polling never starts |
| AirQualitySensor.Poll | demodet/src/components/AirQualitySensor.tsx:10-25 | when live mode is on, the fetched AQI replaces the stored one; otherwise the store is untouched |
| JsString.TrimStart | demodet/src/components/AIAssistant.tsx:31 | the result is a suffix of the input that starts with a non-whitespace character or is empty, and what was cut is all whitespace |
| JsString.TrimEnd | demodet/src/components/AIAssistant.tsx:31 | the result is a prefix of the input that ends with a non-whitespace character or is empty, and what was cut is all whitespace |
| JsString.Trim | demodet/src/components/AIAssistant.tsx:31 | the result is a contiguous piece of the input with whitespace-only text before and after it, and neither starts nor ends with whitespace |
| JsString.ToLower | demodet/src/components/AIAssistant.tsx:58 | same length, each character mapped by the ASCII lower-case map |
| JsString.TrimEmptyIffBlank | demodet/src/components/AIAssistant.tsx:31 | `s.trim()` is empty exactly when every character of `s` is ECMAScript whitespace |
| JsString.ToLowerIdempotent | demodet/src/components/AIAssistant.tsx:58 | lower-casing twice is lower-casing once |
| JsString.Includes | demodet/src/components/AIAssistant.tsx:60 | `includes` holds exactly when the needle occurs at some position |
| JsString.NatToString | demodet/src/components/AIAssistant.tsx:34 | `Date.now().toString()` is a non-empty run of decimal digits with no leading zero, whose decimal value is the number |
| JsString.NatToStringInjective | demodet/src/components/AIAssistant.tsx:34 | different clock readings give different message ids |
| MessagingDashboard.StatusColor | demodet/src/components/MessagingDashboard.tsx:100-111 | green iff online, yellow iff away, grey for everything else |
| MessagingDashboard.OnlineMembers | demodet/src/components/MessagingDashboard.tsx:157 | the filter keeps exactly the online members, each as often as it occurs, and nothing else; a single member is kept or dropped whole |
| MessagingDashboard.OnlineMembersAppend | demodet/src/components/MessagingDashboard.tsx:157 | the filter distributes over concatenation, so it keeps the members' relative order |
| MessagingDashboard.RosterOnlineCount | demodet/src/components/MessagingDashboard.tsx:43-157 | the fixed roster shows "4 Online" |
| MessagingDashboard.IdsUnique | demodet/src/components/MessagingDashboard.tsx:28-121 | while ids are positions, no two messages share an id |
| MessagingDashboard.CanSendIffNotBlank | demodet/src/components/MessagingDashboard.tsx:114 | a message is sent exactly when the input has a non-whitespace character and a member is selected |
| MessagingDashboard.Dashboard.constructor | demodet/src/components/MessagingDashboard.tsx:26-41 | nobody selected, empty input, the two seed messages |
| MessagingDashboard.Dashboard.SelectMember | demodet/src/components/MessagingDashboard.tsx:165 | selecting a member changes only the selection |
| MessagingDashboard.Dashboard.SetMessageInput | demodet/src/components/MessagingDashboard.tsx:251 | typing changes only the input |
| MessagingDashboard.Dashboard.SendMessage | demodet/src/components/MessagingDashboard.tsx:113-124 | appends the raw input as the current user's message numbered one past the count and clears the input, or changes nothing; ids stay positions |
| AIAssistant.SimulatedResponse | demodet/src/components/AIAssistant.tsx:57-77 | the reply text for each branch of the keyword cascade: protocol, safe zones, team status, survival tips, else the fallback |
| AIAssistant.ReplyFor | demodet/src/components/AIAssistant.tsx:57-77 | the five replies as an if-and-only-if cascade: demogorgon, then safe/where, then team/members, then survive/help, else the fallback |
| AIAssistant.CaseInsensitive | demodet/src/components/AIAssistant.tsx:58 | a query and its lower-cased form get the same reply |
| AIAssistant.SendEnabledIff | demodet/src/components/AIAssistant.tsx:160 | the send button is enabled exactly for non-blank input while no reply is pending |
| AIAssistant.Chat.constructor | demodet/src/components/AIAssistant.tsx:10-19 | the chat opens with the welcome message, id "1", empty input |
| AIAssistant.Chat.SetInput | demodet/src/components/AIAssistant.tsx:153 | typing changes only the input |
| AIAssistant.Chat.Send | demodet/src/components/AIAssistant.tsx:30-43 | blank input changes nothing; otherwise the raw input is posted with the clock as id, the box cleared, typing shown and a reply scheduled |
| AIAssistant.Chat.DeliverReply | demodet/src/components/AIAssistant.tsx:45-54 | the oldest scheduled reply answers the input captured at send time, with id clock+1, and clears the typing indicator |
| VerifyFirebaseToken.BearerHeader | demodet/src/services/api.ts:18 | the client's header is "Bearer " followed by the token |
| VerifyFirebaseToken.ExtractToken | servorgan/src/middleware/verifyFirebaseToken.ts:6-8 | a token is extracted exactly when the header starts with the exact "Bearer "; the header is then that prefix plus the token |
| VerifyFirebaseToken.TokenRoundTrip | servorgan/src/middleware/verifyFirebaseToken.ts:8 | extracting from the client's header gives back the client's token |
| VerifyFirebaseToken.LowerCaseSchemeRejected | servorgan/src/middleware/verifyFirebaseToken.ts:7 | "bearer " in lower case counts as a missing token |
| VerifyFirebaseToken.Exchange.Reject | servorgan/src/middleware/verifyFirebaseToken.ts:7-15 | sets the status and error body, nothing else |
| VerifyFirebaseToken.Authenticate | servorgan/src/middleware/verifyFirebaseToken.ts:5-17 | 401 "Missing token" or 401 "Invalid token" without calling next; or the claims as `req.user` and next called exactly once |
| JsonValue.Truthy | servorgan/src/routes/alerts.ts:23 | a truthy value is present and not null; arrays and objects are always truthy; a string is truthy exactly when non-empty |
| JsonValue.ValueLeqTotal | servorgan/src/routes/alerts.ts:11 | any two `createdAt` values are ordered one way or the other |
| JsonValue.ValueLeqTransitive | servorgan/src/routes/alerts.ts:11 | the `createdAt` order is transitive |
| Alerts.EffectiveLimit | servorgan/src/routes/alerts.ts:10 | NaN and 0 become 20; any other number is kept |
| Alerts.QueryLimit | servorgan/src/routes/alerts.ts:11 | a limit is usable exactly when it is a whole number ≥ 1 |
| Alerts.DefaultLimitIsTwenty | servorgan/src/routes/alerts.ts:10 | a missing, non-numeric or zero limit lists 20 alerts |
| Alerts.GivenLimitKept | servorgan/src/routes/alerts.ts:10-11 | a whole positive limit is used as given |
| Alerts.BodyFields | servorgan/src/routes/alerts.ts:22 | an object body gives its own fields; a missing or non-object body gives no fields |
| Alerts.AlertDocument | servorgan/src/routes/alerts.ts:24-28 | keeps every body field, forces `userId` to the caller, keeps the body's `createdAt` unless null or missing, when it is the clock |
| Alerts.ZeroCreatedAtKept | servorgan/src/routes/alerts.ts:27 | a body `createdAt` of 0 is stored as 0 |
| Alerts.UserIdCannotBeForged | servorgan/src/routes/alerts.ts:26 | a body `userId` never survives |
| Alerts.WithId | servorgan/src/routes/alerts.ts:29-30 | the response object is the document plus `id`, with a document field `id` taking precedence |
| Alerts.BodyIdShadowsGeneratedId | servorgan/src/routes/alerts.ts:30 | a body field `id` replaces the generated id in the POST response |
| Alerts.Ordered | servorgan/src/routes/alerts.ts:11 | ordering by `createdAt` keeps exactly the documents that have the field, and never more documents than given; a single document is kept or dropped whole |
| Alerts.OrderedCounts | servorgan/src/routes/alerts.ts:11 | each document with `createdAt` is kept exactly as often as it occurs; others never |
| Alerts.OrderedAppend | servorgan/src/routes/alerts.ts:11 | the filter distributes over concatenation, so it keeps the documents' relative order |
| Alerts.NewestIndex | servorgan/src/routes/alerts.ts:11 | finds a document no other document is newer than |
| Alerts.TakeNewest | servorgan/src/routes/alerts.ts:11 | moving a newest remaining document to the page keeps the page newest-first and newer than the rest |
| Alerts.SelectNewest | servorgan/src/routes/alerts.ts:11 | the page has min(limit, count) documents taken from the candidates, newest first, none left out newer than one taken |
| Alerts.Items | servorgan/src/routes/alerts.ts:12 | one `{ id, ...data }` object per document, in order |
| Alerts.AlertStore.Post | servorgan/src/routes/alerts.ts:20-36 | no truthy `threatLevel`: 400 and nothing stored; failed write: 500; else the document is appended and echoed with its id |
| Alerts.AlertStore.List | servorgan/src/routes/alerts.ts:8-18 | unusable limit or failed read: 500; else a newest-first page of at most the limit |
| Alerts.PostedAlertsAreOrdered | servorgan/src/routes/alerts.ts:24-28 | every posted alert has a `createdAt`, so the list can include it |
| UserController.Stamped | servorgan/src/controllers/userController.ts:14-18 | both stamps become the clock, and nothing else changes |
| UserController.CreateIfAbsent | servorgan/src/controllers/userController.ts:9-20 | existing profiles are untouched; a new uid gets the stamped profile |
| UserController.CreateIfAbsentIdempotent | servorgan/src/controllers/userController.ts:13 | creating twice equals creating once |
| UserController.Merge | servorgan/src/controllers/userController.ts:38-41 | each field the update brings replaces the stored one, others are kept, `updatedAt` is the clock |
| UserController.MergeNothing | servorgan/src/controllers/userController.ts:38-41 | an empty update only refreshes `updatedAt` |
| UserController.MergeIdempotent | servorgan/src/controllers/userController.ts:38-41 | applying an update twice equals applying it once at the later time |
| UserController.MergeStampWins | servorgan/src/controllers/userController.ts:40 | a client-sent `updatedAt` is overwritten by the server's |
| UserController.UpdateProfile | servorgan/src/controllers/userController.ts:34-42 | fails exactly for a missing uid; otherwise only that profile changes, to the merge |
| UserController.SetThreat | servorgan/src/controllers/userController.ts:47-55 | fails exactly for a missing uid or undefined threat; otherwise that profile gets the threat and the clock as `updatedAt`, every other field of it and every other profile is kept |
| UserController.SetThreatIsMerge | servorgan/src/controllers/userController.ts:47-55 | a threat update equals a general update bringing only `currentThreat` |
| UserController.UserStore.CreateUserIfNotExists | servorgan/src/controllers/userController.ts:9-20 | succeeds when the profile exists or the write is accepted; the collection is then the create-if-absent result |
| UserController.UserStore.GetUser | servorgan/src/controllers/userController.ts:25-29 | null for an absent uid, the stored profile otherwise |
| UserController.UserStore.UpdateUser | servorgan/src/controllers/userController.ts:34-42 | the collection becomes the update result, or is unchanged when that fails |
| UserController.UserStore.UpdateThreatStatus | servorgan/src/controllers/userController.ts:47-55 | the collection becomes the threat update result, or is unchanged when that fails |
| UsersRoutes.ArrayUnion | servorgan/src/routes/users.ts:54-75 | the element is present afterwards, nothing else is added, an array already holding it is unchanged, otherwise it is appended |
| UsersRoutes.ArrayRemove | servorgan/src/routes/users.ts:70 | the element is absent afterwards and every other element is kept |
| UsersRoutes.ArrayUnionIdempotent | servorgan/src/routes/users.ts:55 | a second union of the same element changes nothing |
| UsersRoutes.ArrayUnionKeepsDistinct | servorgan/src/routes/users.ts:54-75 | union never creates a duplicate |
| UsersRoutes.InitialProfile | servorgan/src/routes/users.ts:27-34 | the new profile copies uid, email, name and picture from the token, with no friends yet |
| UsersRoutes.InitStep | servorgan/src/routes/users.ts:24-37 | an existing profile is untouched; otherwise the stamped initial profile is added, or the call throws when a claim is missing |
| UsersRoutes.InitIdempotent | servorgan/src/routes/users.ts:24-37 | signing in again never resets a profile |
| UsersRoutes.RequestStep | servorgan/src/routes/users.ts:48-59 | without a truthy `toUid`: 400 and no change; success exactly for an existing target; on success only the target's `friendRequests` changes, to its union with the sender; on any other outcome nothing changes |
| UsersRoutes.RequestIdempotent | servorgan/src/routes/users.ts:54-56 | repeating a request leaves the collection as after one |
| UsersRoutes.AcceptStep | servorgan/src/routes/users.ts:61-78 | a missing, non-string or empty `fromUid`, or a caller without a profile: rejected with no change; otherwise my `friends` gains the friend and my `friendRequests` loses it, nothing else of mine changes; then rejected with only my half written when the friend has no profile, or success with the friend's `friends` gaining me and no other change; the set of uids never changes |
| UsersRoutes.AcceptIgnoresPendingRequests | servorgan/src/routes/users.ts:61-78 | accept succeeds exactly when both profiles exist, pending request or not |
| UsersRoutes.AcceptMakesFriends | servorgan/src/routes/users.ts:68-75 | afterwards each is in the other's `friends` and the request is gone |
| UsersRoutes.AcceptTouchesOnlyTwo | servorgan/src/routes/users.ts:65-75 | no third profile changes |
| UsersRoutes.AcceptHalfApplied | servorgan/src/routes/users.ts:68-75 | accepting from a uid with no profile fails after my half is written |
| UsersRoutes.Router.GetMe | servorgan/src/routes/users.ts:15-19 | the caller's stored profile, or null |
| UsersRoutes.Router.Init | servorgan/src/routes/users.ts:24-37 | outcome and collection are those of the init step |
| UsersRoutes.Router.PatchMe | servorgan/src/routes/users.ts:42-46 | `{ ok: true }` exactly when the caller has a profile, which then receives the merge |
| UsersRoutes.Router.FriendRequest | servorgan/src/routes/users.ts:48-59 | outcome and collection are those of the request step |
| UsersRoutes.Router.FriendAccept | servorgan/src/routes/users.ts:61-78 | outcome and collection are those of the accept step |

## Left out

- Network, geolocation and timers are not modelled:
  - `getCurrentWeatherData` (the two `fetch` calls, geolocation and the fallback reading) is not modelled. `convertToUSAQI` is modelled on the `components` it receives.
  - `setInterval` and `setTimeout` are not modelled. Each firing of a callback is a method call.
  - `initializeMicrophone`, `stopMicrophone` and `isMicrophoneActive` are Web Audio plumbing with no logic to prove. They are not modelled.
- WeatherService.GetSoundLevel requires a non-empty spectrum. The source never calls it with an empty one: the analyser's `fftSize` is 2048 (weatherService.ts:174), so `frequencyBinCount` is 1024.
- WeatherService.GetSoundLevel: the decibel formula `20·log10(sqrt(mean)/255) + 90` is a function parameter, because Dafny's reals have no square root or logarithm. The contract covers the loop, the zero-analyser case and the clamping.
- Numbers are exact reals, not IEEE doubles:
  - rounding error is not modelled;
  - `parseFloat` of the override inputs yielding NaN is not modelled;
  - `toFixed(1)` display formatting is not modelled.
- String helpers:
  - JsString.ToLower lower-cases ASCII letters only. JavaScript's full Unicode case mapping is not modelled.
  - `toLocaleTimeString` is not modelled. Message timestamps are given strings.
- Rendering (JSX, CSS classes other than the status colours, scrolling) is not modelled. `onClose` appears only as the `Closed` call the override panel records.
- Firestore is a map or sequence held in memory, which leaves several behaviours out:
  - Operations are applied in order. Concurrency between requests is not modelled.
  - JsonValue.ValueLeq orders only values of different types, booleans, numbers and strings. Arrays and maps tie among themselves. Timestamps, bytes, references and geopoints do not occur in JSON bodies.
  - Alerts.SelectNewest leaves the order among equal `createdAt` values unspecified. Firestore breaks such ties by document id.
  - Alerts.QueryLimit treats every limit that is not a whole number ≥ 1 as a failed query (500), including negative and infinite limits.
  - JavaScript's `Number()` parsing of the query string is not modelled. The model takes its result: NaN, a finite number or ±Infinity.
- Body and field handling is simplified:
  - Field paths with dots in `updateUser` keys are not modelled. The update is typed as a partial profile.
  - Body fields outside the profile type are not modelled.
  - `toUid` and `fromUid` strings containing "/" are not modelled. These would address other collections.
  - A handler whose store call throws is `Rejected` with no response body. What the server then answers depends on Express's handling of rejected async handlers, which is not modelled.
- A failing Firestore call is a parameter only of Alerts.AlertStore.Post, Alerts.AlertStore.List and UserController.UserStore.CreateUserIfNotExists. UsersRoutes.Router.Init derives its failure from the claims (a missing claim makes the write throw). UsersRoutes.Router.PatchMe, UsersRoutes.Router.FriendRequest and UsersRoutes.Router.FriendAccept fail only where a document is missing; a transport failure of their writes is not modelled.
- Each operation takes one clock reading `now`. Where the source reads the clock twice, the model makes the two readings equal; the source does not guarantee that:
  - AIAssistant.Chat.Send and AIAssistant.Chat.DeliverReply each use one reading for the message id (`Date.now()`) and its timestamp (`new Date()`).
  - UserController.Stamped uses one reading for `createdAt` and `updatedAt`.
- Delivery is not modelled:
  - Delivery of the JSON response body is not modelled.
  - Logging is not modelled.
  - CORS and the body-size limit are not modelled.
- The users router is modelled, but `servorgan/src/index.ts` mounts only the alerts router. No request reaches `/me`, `/init` or `/friends/*` in the server as written.
