# CaminosCalidad: a verified model of the navigation bookkeeping

CaminosCalidad is a browser map application for routes between haciendas.
The user places an origin, an optional stopover and a destination. The
application asks a routing service for routes and avoids haciendas that the
user has blocked. It then guides the user by GPS and by voice. Under the map
and page code sits a set of small sequential components. This project models
them in Dafny and proves what each of them promises:

- **RouteCalculator** (`route_calculator.dfy`). A route is blocked when one
  of its coordinates at indices 0, 5, 10, ... lies in the bounding box of a
  blocked hacienda. The module covers the origin/destination check, waypoint
  assembly and the route request outcome. It also covers choosing the first
  unblocked route and cycling to the next unblocked alternative.
- **GpsTracker** (`gps_tracker.dfy`). The tracker keeps a breadcrumb trail of
  at most 100 positions and a travelled-distance accumulator. It grades the
  signal and checks for deviation over every fifth route point. Fixes are
  throttled to one per second. Stopping resets the trail, the distances, the
  grade and the flags, and tells the app state that GPS is off. Fixes, and
  on stopping the newest breadcrumb, go to the offline trail only when the
  offline manager is loaded. A null `offline` argument stands for the
  manager being absent, which is the case as the files are written (see
  Left out). With the UI manager loaded, route tracking stops at the
  progress display, before the deviation check (see Findings).
- **OfflineManager** (`offline_manager.dfy`). Routes are cached in memory and
  in browser storage with an expiry time and lazy deletion. The module also
  covers the expiry sweep, loading cached routes, clearing by key prefix and
  the 100-entry GPS trail with its last known position. This is the module
  at js/offline-manager.js:43-437 as the authors wrote it. The file as a
  whole is rejected by JavaScript (see Left out).
- **Voice guidance**:
  - `voice.dfy` holds the shared lookup of the next instruction by
    cumulative distance.
  - `voice_navigation.dfy` covers the main application: the instruction list
    with short steps merged, distance wording, and a first-in first-out
    utterance queue that high priority bypasses.
  - `caminos_voice.dfy` covers the Caminos variant: a queue stably sorted by
    priority, and the spoken route summary. As written, that file does not
    parse (see Left out).
- **SearchManager** (`search_manager.dfy`). The name a hacienda is shown
  under, and the text search: filter, score, sort and truncate. It also holds
  the proximity search.
- **StateManager** (`state_manager.dfy`). The application state store:
  - merge updates;
  - listeners, called in subscription order;
  - reset;
  - the status line and the route-button decisions.
- **UiManager**, **TrackingManager** and **LayerManager** (`ui_manager.dfy`,
  `tracking_manager.dfy`, `layer_manager.dfy`). Each is a small state
  machine or decision table:
  - the block-list toggle and the blocked-point guard;
  - dropping the stopover and the instruction icons;
  - swipe classification and the simulated progress bar;
  - the tracking panel's remaining time, colour and completion;
  - the mutually exclusive base map layers.

`common.dfy` holds the JavaScript string and number behaviour the components
rely on: `toLowerCase` (on ASCII and Latin-1 letters), `trim`, `Math.round`, `toFixed(1)`, `indexOf`,
`splice` and `slice(-n)`. `sorting.dfy` holds a stable sort by a real key,
which is how `Array.prototype.sort` behaves with a numeric comparator.
`geo.dfy` holds points, boxes, features and routes.

Geometry is abstract:

- A point is a pair of reals.
- A hacienda's extent is an axis-aligned box, because the code tests
  `getBounds().contains`.
- Distance is an uninterpreted non-negative function passed as a parameter.

`Date.now()` is a `now` parameter. Browser storage is a map field of the
offline cache. A storage write that throws, for example past the quota, is a
`storageFails` parameter.

Module-level variables that the JavaScript updates in place are class fields
with `modifies` clauses. The application state is a `Store` object, and the
other components take it as a parameter. Pure decisions are functions, and
the methods are proved against them.

## Model

| member | source | states |
|---|---|---|
| `Common.Lower` | js/search-manager.js:43 | `toLowerCase` on ASCII and Latin-1 text: the same length, with each capital A-Z and À-Þ (except ×) lowered and every other character kept |
| `Common.TrimStart` | js/search-manager.js:43 | `trim` at the front: only JavaScript white space is removed, and the rest starts with a non-space |
| `Common.TrimEnd` | js/search-manager.js:43 | `trim` at the back: only JavaScript white space is removed, and the rest ends with a non-space |
| `Common.Round` | js/tracking-manager.js:92 | `Math.round`: the integer within half of x, with halves rounded up |
| `Common.NatToStringRoundTrip` | js/tracking-manager.js:96-100 | the decimal text of a number written into a label reads back as that number |
| `Common.IntToString` | js/voice-navigation.js:242-244 | integer text: a leading minus sign exactly for negatives |
| `Common.Fixed1Abs` | js/voice-navigation.js:240 | `toFixed(1)` of a non-negative value ends in one digit after the point |
| `Common.IndexOf` | js/ui-manager.js:427 | `indexOf`: -1 exactly when absent; otherwise a position holding x with no earlier x |
| `Common.RemoveAt` | js/ui-manager.js:431 | `splice(i, 1)`: one element fewer, and exactly that element's occurrence is gone |
| `Common.LastN` | js/offline-manager.js:269-271 | `slice(-n)`: the last min(n, length) elements, in order |
| `Common.LastNAppend` | js/gps-tracker.js:636-640 | appending to a buffer capped at n: at most n remain, the new element is last, and the earlier ones keep their order |
| `Sorting.Take` | js/search-manager.js:67 | `slice(0, n)`: a prefix of length min(n, length) |
| `Sorting.SortByKey` | js/search-manager.js:66 | the sort is a permutation of its input |
| `Sorting.InsertByKey` | Caminos/js/voice-navigation.js:158-163 | one insertion adds exactly one element |
| `Sorting.SortByKeySorted` | js/search-manager.js:66 | the sorted sequence is ordered by key |
| `Sorting.SortByKeyStable` | Caminos/js/voice-navigation.js:158-163 | the sort is stable: elements with equal keys keep their order |
| `Sorting.WithKeyAppend` | Caminos/js/voice-navigation.js:157 | a pushed element comes last among those with its key |
| `Sorting.Best` | js/search-manager.js:66-67 | `sort` then `slice(0, n)`: min(n, length) elements in key order, a sub-multiset of the input (no repeats beyond the input's), no element left out with a smaller key than one kept, and the whole input when it fits |
| `Sorting.TakeLeavesLarger` | js/search-manager.js:66-67 | a prefix of a sorted sequence is ordered, drawn from the input, and no smaller than what follows it |
| `Sorting.BestStable` | js/search-manager.js:66-67 | among the kept elements, those with equal keys are the first such elements of the input, in input order |
| `RouteCalculator.PointBlockedIff` | js/route-calculator.js:307-313 | a point is blocked exactly when some zone with a blocked name has it in its box |
| `RouteCalculator.NothingBlocked` | js/route-calculator.js:294-297 | with an empty block list no point is blocked |
| `RouteCalculator.SampledBlockedIff` | js/route-calculator.js:300-318 | the sampled scan is true exactly when a coordinate at a multiple of 5 is blocked |
| `RouteCalculator.RutaPasaPorBloqueadaIff` | js/route-calculator.js:293-319 | false without a hacienda layer or with nothing blocked; otherwise true exactly when a sampled coordinate lies in a blocked box |
| `RouteCalculator.SamplesDecide` | js/route-calculator.js:300-302 | two routes that agree on their sampled coordinates get the same answer, so points between samples are never tested |
| `RouteCalculator.LastBlocking` | js/ui-manager.js:514-524 | a hacienda name is found exactly when the point is blocked, and it names a blocked zone containing the point |
| `RouteCalculator.ValidarBloqueoOrigenDestino` | js/route-calculator.js:89-130 | valid without a layer or with nothing blocked; otherwise valid exactly when neither end is blocked, and a rejection names the blocking hacienda of each blocked end |
| `RouteCalculator.RejectionMessage` | js/route-calculator.js:115-123 | the rejection message starts with the fixed error prefix |
| `RouteCalculator.Waypoints` | js/route-calculator.js:39-42 | origin first and destination last, with the stopover between them exactly when it is set |
| `RouteCalculator.CalcularRuta` | js/route-calculator.js:13-86 | a missing origin, then a missing destination, is reported first; with both set, the endpoint check's rejection is returned exactly when it fails, "no map" exactly when it passes without a map, and a request carrying the waypoints exactly when it passes with one |
| `RouteCalculator.RecalcularRuta` | js/route-calculator.js:322-327 | a new request exactly when both ends are set |
| `RouteCalculator.FirstUnblockedFrom` | js/route-calculator.js:245-262 | the smallest unblocked index at or after `from`; none means every such index is blocked |
| `RouteCalculator.UnblockedHead` | js/route-calculator.js:135-152 | the head of the filtered list is the route at the first unblocked index, and `indexOf` finds that index |
| `RouteCalculator.UnblockedEmpty` | js/route-calculator.js:135-145 | when every route is blocked the filtered list is empty |
| `RouteCalculator.UnblockedAtMostOne` | js/route-calculator.js:234-239 | a single unblocked index gives a filtered list of at most one route |
| `RouteCalculator.FoundPatch` | js/route-calculator.js:148-152 | the written route is unblocked, every earlier route is blocked, and `rutasEncontradas[rutaIndex] == currentRoute` |
| `RouteCalculator.OnRoutesFound` | js/route-calculator.js:133-185 | with no unblocked route the state is unchanged; otherwise the first unblocked route and its index are stored |
| `RouteCalculator.NextIndex` | js/route-calculator.js:245-262 | an unblocked index; none exactly when every route is blocked |
| `RouteCalculator.FindUnblockedAfter` | js/route-calculator.js:245-262 | one search loop: the first unblocked index above `after`, or -1 |
| `RouteCalculator.NextIndexMoves` | js/route-calculator.js:245-268 | with two or more unblocked routes and an unblocked current one, the next index differs from it |
| `RouteCalculator.NextIndexWraps` | js/route-calculator.js:254-262 | with nothing unblocked above the current index, the search wraps to the first unblocked route |
| `RouteCalculator.CambiarRutaAlternativa` | js/route-calculator.js:229-290 | nothing changes with fewer than two routes, fewer than two unblocked routes, or the same index found; otherwise the index and current route become those of `NextIndex` |
| `RouteCalculator.SwitchKeepsSelection` | js/route-calculator.js:265-268 | after a switch the stored route is unblocked and is the route at the stored index |
| `GpsTracker.SignalStrength` | js/gps-tracker.js:410-418 | a grade from 1 to 5: 5 exactly below 10 m, 1 exactly from 100 m |
| `GpsTracker.SignalMonotone` | js/gps-tracker.js:410-418 | a less accurate fix never gets a better grade |
| `GpsTracker.MinStep` | js/gps-tracker.js:605-608 | one step of the minimum: finite, not above the new distance, not above the old minimum |
| `GpsTracker.SampledMinExceeds` | js/gps-tracker.js:599-615 | the minimum exceeds a threshold exactly when the start value and every fifth distance exceed it |
| `GpsTracker.SampledMinEmpty` | js/gps-tracker.js:599-601 | without coordinates the minimum stays `Infinity` |
| `GpsTracker.CheckRouteDeviation` | js/gps-tracker.js:592-633 | not checked exactly without a route; otherwise the loop's minimum, with a warning exactly when every fifth point is over 100 m away (so an empty route warns), spoken when voice is on |
| `GpsTracker.Tracker.constructor` | js/gps-tracker.js:7-22 | the module's initial values |
| `GpsTracker.Tracker.CalculateSignalStrength` | js/gps-tracker.js:410-418 | the grade is stored and returned; nothing else changes |
| `GpsTracker.Tracker.UpdateBreadcrumbs` | js/gps-tracker.js:636-640 | the trail becomes the last 100 of old trail plus position |
| `GpsTracker.Tracker.CalculateTraveledDistance` | js/gps-tracker.js:642-648 | the distance never decreases, and grows by the last leg only with at least two breadcrumbs |
| `GpsTracker.ProgressDisplayHidesDeviation` | js/gps-tracker.js:582-588 | with the progress display loaded, tracking never warns of a deviation, however far off the route the position is |
| `GpsTracker.Tracker.UpdateRouteTracking` | js/gps-tracker.js:568-589 | without a current route nothing changes; otherwise the breadcrumb is added and the last leg counted, then the progress display throws exactly when it is loaded (js/gps-tracker.js:654-659, js/ui-manager.js:745-746), and otherwise the deviation check gives its verdict |
| `GpsTracker.Tracker.RecordFix` | js/gps-tracker.js:342-389 | the fix is graded; with the offline manager loaded it is cached (stored unless storage fails), and without it nothing is cached; it becomes the last position at `now`, and the tracker is centred and active; the trail and distance are untouched |
| `GpsTracker.Tracker.HandleLocationSuccess` | js/gps-tracker.js:334-407 | a later fix: without a map nothing changes at all; with one the grade, accuracy, last position, time and flags are set, the offline trail grows exactly when the offline manager is loaded, the trail and distance advance exactly when a route exists, and the outcome is that of the route tracking |
| `GpsTracker.Tracker.OnWatchPosition` | js/gps-tracker.js:546-552 | a fix is processed exactly when more than 1000 ms have passed, and then its time is recorded and it is handled as by `HandleLocationSuccess`; otherwise nothing changes |
| `GpsTracker.Tracker.StopGPS` | js/gps-tracker.js:676-733 | with the offline manager loaded, the newest breadcrumb, if any, is cached with the last accuracy and stored unless storage fails; without it nothing is cached; the trail, distances, flags and grade reset, the accuracy and time are kept; `gpsActivo` becomes false and the listeners are unchanged |
| `GpsTracker.Tracker.GetCompletionPercentage` | js/gps-tracker.js:742-745 | always 0, since the total route distance is only ever 0 |
| `OfflineManager.RouteKey` | js/offline-manager.js:207 | `"route_" + key`, from which the key can be read back |
| `OfflineManager.RouteKeyInjective` | js/offline-manager.js:207 | different keys are stored under different names |
| `OfflineManager.CachedRouteLookup` | js/offline-manager.js:226-254 | a live memory entry answers; an expired one is deleted; otherwise a live stored entry answers and repopulates memory, and an expired or unparseable one is handled as the code does |
| `OfflineManager.CacheThenGet` | js/offline-manager.js:203-233 | round trip: a cached route comes back until it expires |
| `OfflineManager.StoredHitRepopulates` | js/offline-manager.js:239-246 | a live stored entry alone is returned and copied into memory |
| `OfflineManager.ExpiredAtNow` | js/offline-manager.js:230-248 | an entry whose expiry is now is not returned |
| `OfflineManager.SweepExpired` | js/offline-manager.js:319-339 | the corrected sweep: exactly the route entries with `expires < now` are removed, and the rest are untouched |
| `OfflineManager.ClearStorage` | js/offline-manager.js:405-419 | exactly the `route_` and `gps_trail` keys are removed, and every other entry is untouched |
| `OfflineManager.LiveRoutes` | js/offline-manager.js:347-356 | the stored route entries that are not expired, keyed by storage key |
| `OfflineManager.SweepKeepsLive` | js/offline-manager.js:319-336 | a sweep keeps every entry a lookup at the same time returns, and leaves no expired route |
| `OfflineManager.SweepByIndex` | js/offline-manager.js:323-336 | the loop as written: index order, advancing past a removed key |
| `OfflineManager.SweepByIndexSkips` | js/offline-manager.js:323-336 | two adjacent expired routes: the loop keeps the second, though the corrected sweep removes it |
| `OfflineManager.OfflineCache.constructor` | js/offline-manager.js:43-49 | empty memory map and trail over the given storage |
| `OfflineManager.OfflineCache.CacheRoute` | js/offline-manager.js:203-223 | false with nothing stored without a cache; otherwise the entry with expiry now + maxCacheAge goes to memory and, unless the write fails, to storage |
| `OfflineManager.OfflineCache.GetCachedRoute` | js/offline-manager.js:226-254 | the answer and both maps afterwards are those that `CachedRouteLookup` gives |
| `OfflineManager.OfflineCache.CacheGPSPosition` | js/offline-manager.js:257-281 | the fix is appended and the trail cut to its last 100, then saved unless the write fails |
| `OfflineManager.OfflineCache.GetLastKnownPosition` | js/offline-manager.js:284-303 | the newest fix in memory; else the newest in the stored trail, which is reloaded; else none |
| `OfflineManager.OfflineCache.CleanupExpiredCache` | js/offline-manager.js:319-339 | storage becomes `SweepExpired`, and the swept keys leave memory |
| `OfflineManager.OfflineCache.LoadCachedData` | js/offline-manager.js:342-369 | every live stored route is copied to memory, and their names are returned |
| `OfflineManager.OfflineCache.ClearAllCache` | js/offline-manager.js:405-433 | memory map and trail emptied, and storage becomes `ClearStorage` |
| `Voice.GetNextInstructionBasedOnProgress` | js/voice-navigation.js:437-461 | none without a route or with 0 travelled; otherwise the first instruction whose running sum exceeds the distance travelled, with the positive distance left, or none when every sum is behind |
| `Voice.PrefixSumMonotone` | js/voice-navigation.js:445-451 | with non-negative distances the running sums never decrease |
| `Voice.AllBehindIffTotal` | js/voice-navigation.js:445-460 | no next instruction exactly when the distance travelled is at least the total |
| `Voice.FirstAheadUnique` | js/voice-navigation.js:443-458 | at most one step is the first one ahead |
| `VoiceNavigation.DistanceBuckets` | js/voice-navigation.js:238-246 | kilometres above 1000 m; metres rounded to ten above 100 m; metres rounded to one otherwise |
| `VoiceNavigation.Kept` | js/voice-navigation.js:205-210 | at most one sentence per step, and at least one when there are steps |
| `VoiceNavigation.Entries` | js/voice-navigation.js:189-211 | the step sentences number exactly `Kept` |
| `VoiceNavigation.NoShortSteps` | js/voice-navigation.js:189-211 | with no step under 50 m every step has its own sentence, in order |
| `VoiceNavigation.EntriesStep` | js/voice-navigation.js:205-210 | a short later step is joined to the previous sentence; any other step adds one |
| `VoiceNavigation.PushStep` | js/voice-navigation.js:189-211 | one loop pass keeps the list equal to the header plus the entries so far |
| `VoiceNavigation.PushStepSentences` | js/voice-navigation.js:189-211 | the loop appends exactly `Entries` of the steps |
| `VoiceNavigation.PrepareInstructions` | js/voice-navigation.js:179-216 | three header lines, the step sentences, the closing line: length 4 + `Kept` |
| `VoiceNavigation.Speaker.constructor` | js/voice-navigation.js:7-16 | idle, with an empty queue |
| `VoiceNavigation.Speaker.Speak` | js/voice-navigation.js:261-319 | nothing without voice; while speaking, anything but high priority is queued and not spoken; otherwise it is spoken at once |
| `VoiceNavigation.Speaker.OnStart` | js/voice-navigation.js:283-290 | the utterance is playing and `vozActiva` becomes true |
| `VoiceNavigation.Speaker.ProcessQueue` | js/voice-navigation.js:322-327 | when idle and the queue is not empty, the head is taken off and spoken; otherwise nothing changes |
| `VoiceNavigation.Speaker.OnEnd` | js/voice-navigation.js:292-299 | nothing is playing, then the queue moves on |
| `VoiceNavigation.Speaker.StopSpeaking` | js/voice-navigation.js:365-375 | only while the synthesiser speaks: playback stops and the queue is emptied |
| `VoiceNavigation.Speaker.ClearQueue` | js/voice-navigation.js:420-422 | the queue is emptied and nothing else changes |
| `CaminosVoice.Enqueued` | Caminos/js/voice-navigation.js:157-163 | after an enqueue the queue is ordered by rank, is the old queue plus the utterance, and puts it last among its rank |
| `CaminosVoice.StepDistanceAgrees` | Caminos/js/voice-navigation.js:79-81 | the two variants word a distance alike except from 100 m to 1000 m, where they agree only when the rounded metres are a multiple of ten |
| `CaminosVoice.SegmentsPrefix` | Caminos/js/voice-navigation.js:78-84 | the segments of the first steps come first, in order |
| `CaminosVoice.AppendSegment` | Caminos/js/voice-navigation.js:83 | one `+=` pass keeps the text equal to the opening plus the segments so far |
| `CaminosVoice.AppendSegments` | Caminos/js/voice-navigation.js:78-84 | the loop appends one "Paso i+1" segment per step, in order |
| `CaminosVoice.InstructionText` | Caminos/js/voice-navigation.js:64-86 | opening, one segment per step, closing |
| `CaminosVoice.Speaker.constructor` | Caminos/js/voice-navigation.js:7-11 | idle, with an empty queue |
| `CaminosVoice.Speaker.Speak` | Caminos/js/voice-navigation.js:106-171 | nothing without synthesis; while speaking or at low priority the utterance is queued by rank; otherwise it is spoken at once |
| `CaminosVoice.Speaker.ProcessQueue` | Caminos/js/voice-navigation.js:174-181 | when idle, the head is dequeued, spoken and marked playing |
| `CaminosVoice.Speaker.OnEnd` | Caminos/js/voice-navigation.js:140-146 | nothing is playing, then the queue moves on |
| `CaminosVoice.Speaker.StopSpeaking` | Caminos/js/voice-navigation.js:184-193 | always: the queue is empty, nothing plays, and `vozActiva` becomes false |
| `CaminosVoice.Speaker.ClearQueue` | Caminos/js/voice-navigation.js:221-223 | the queue is emptied and nothing else changes |
| `CaminosVoice.Speaker.SpeakInstructions` | Caminos/js/voice-navigation.js:49-103 | without synthesis or a route nothing is spoken; otherwise `InstructionText` is spoken |
| `SearchManager.FirstTruthy` | js/search-manager.js:27-31 | a `||` chain yields a non-empty string |
| `SearchManager.FirstTruthySpec` | js/search-manager.js:27-31 | the first truthy candidate is chosen, and none is chosen exactly when none is truthy |
| `SearchManager.GetNombre` | js/search-manager.js:22-32 | "Sin nombre" without a feature; otherwise exactly the first truthy of `Nombre`, `name`, `NOMBRE`, `Hacienda` of the unwrapped feature (as characterised by `FirstTruthySpec`), else "Ubicación sin nombre" |
| `SearchManager.GetNombrePrefersNombre` | js/search-manager.js:27 | a truthy `Nombre` always wins |
| `SearchManager.Score` | js/search-manager.js:58-65 | never negative |
| `SearchManager.ScorePositiveIff` | js/search-manager.js:58-65 | a name scores exactly when it contains the query |
| `SearchManager.MatchesIff` | js/search-manager.js:51-65 | a feature is kept exactly when its name is not blocked and contains the query |
| `SearchManager.Candidates` | js/search-manager.js:50-65 | every candidate is a kept feature from the data with its score |
| `SearchManager.CandidatesComplete` | js/search-manager.js:50-65 | every kept feature is a candidate |
| `SearchManager.RankedTies` | js/search-manager.js:66-67 | candidates with equal scores are listed in candidate (data) order: those kept are the first with that score |
| `SearchManager.RankedFeatures` | js/search-manager.js:66-68 | the features of the sorted candidates are kept features, by non-increasing score |
| `SearchManager.Haciendas` | js/search-manager.js:68 | the features of the scored list, position by position |
| `SearchManager.Ranked` | js/search-manager.js:43-68 | nothing for a short query; otherwise the features of the `maxResults` best candidates (`Sorting.Best` by score: no repeats, none left out scoring more than one listed), so min(maxResults, candidates) kept features in non-increasing score order |
| `SearchManager.Buscar` | js/search-manager.js:35-127 | at most `maxResults` results, on the trimmed and lower-cased query |
| `SearchManager.BuscarComplete` | js/search-manager.js:43-68 | when the candidates fit in `maxResults`, every kept feature is listed |
| `SearchManager.RankedComplete` | js/search-manager.js:50-68 | the same for an already normalised query |
| `SearchManager.Within` | js/search-manager.js:141-154 | every near feature is within the radius and comes from the data |
| `SearchManager.WithinComplete` | js/search-manager.js:141-154 | every feature within the radius is near |
| `SearchManager.BuscarPorProximidad` | js/search-manager.js:138-157 | empty without data or a point; otherwise the five nearest of the features in range (`Sorting.Best` by distance: no repeats, none left out nearer than one listed), within the radius, nearest first |
| `SearchManager.BuscarPorProximidadDefault` | js/search-manager.js:138 | with the default radius of 10 km: at most five results, none farther than 10 km |
| `SearchManager.BuscarPorProximidadTies` | js/search-manager.js:155-156 | features at equal distance are listed in data order: those listed are the first in range at that distance |
| `SearchManager.BuscarPorProximidadComplete` | js/search-manager.js:138-157 | with at most five features in range, all of them are listed |
| `SearchManager.SearchIndex.constructor` | js/search-manager.js:7 | no data |
| `SearchManager.SearchIndex.SetHaciendasData` | js/search-manager.js:12-14 | the given data, or empty when missing |
| `StateManager.InitialStateReads` | Caminos/js/state-manager.js:7-26 | the initial state: no points, no routes, index 0, nothing blocked, street map only |
| `StateManager.Notify` | Caminos/js/state-manager.js:48 | one call per listener, in subscription order, with the new and old state |
| `StateManager.RemoveFirst` | Caminos/js/state-manager.js:57-61 | exactly one occurrence is removed when present |
| `StateManager.RemoveFirstOnce` | Caminos/js/state-manager.js:56-62 | a listener subscribed once is gone, and removing it again changes nothing |
| `StateManager.RemoveFirstKeepsOrder` | Caminos/js/state-manager.js:57-61 | the other listeners keep their order |
| `StateManager.MergeFrame` | Caminos/js/state-manager.js:43-45 | a merge overwrites exactly the patch's keys and leaves every other key |
| `StateManager.Status` | Caminos/js/state-manager.js:127-139 | "Seleccione" exactly with fewer than two points |
| `StateManager.StatusRouteReady` | Caminos/js/state-manager.js:127-139 | "Ruta calculada" exactly when all expected points are set (three with a stopover, else two) and a route exists |
| `StateManager.ReadyWithoutOrigin` | Caminos/js/state-manager.js:127-139 | a stopover and a destination without an origin show "Listo" |
| `StateManager.StatusInitial` | Caminos/js/state-manager.js:127-139 | the initial state asks for locations |
| `StateManager.Unblocked` | Caminos/js/state-manager.js:170-172 | the filter keeps only unblocked routes from the list |
| `StateManager.RouteButtonsOf` | Caminos/js/state-manager.js:157-188 | buttons hidden exactly without a current route; the alternatives button as the counts of routes and unblocked routes decide |
| `StateManager.Store.constructor` | Caminos/js/state-manager.js:7-28 | the initial state, no listeners |
| `StateManager.Store.Get` | Caminos/js/state-manager.js:38-40 | the entry, or none when the key is absent |
| `StateManager.Store.Set` | Caminos/js/state-manager.js:43-52 | the state is the old state merged with the patch; listeners are notified with new and old |
| `StateManager.Store.Subscribe` | Caminos/js/state-manager.js:55-56 | the listener is appended |
| `StateManager.Store.Unsubscribe` | Caminos/js/state-manager.js:57-62 | its first occurrence is removed |
| `StateManager.Store.SetPunto` | Caminos/js/state-manager.js:66-69 | only `puntos[tipo]` changes; the name is ignored |
| `StateManager.Store.LimpiarTodo` | Caminos/js/state-manager.js:85-117 | unconfirmed: false, nothing changes; confirmed: the initial state and listeners told of a reset |
| `UiManager.Toggled` | js/ui-manager.js:426-438 | a listed name loses its first occurrence; an absent one is appended |
| `UiManager.ToggledCounts` | js/ui-manager.js:426-438 | only the toggled name's count changes |
| `UiManager.ToggleTwice` | js/ui-manager.js:426-438 | toggling a name listed at most once twice restores the list's contents |
| `UiManager.ToggleBlockHacienda` | js/ui-manager.js:425-452 | the toggled list replaces the old one; a recalculation exactly when blocking with a current route |
| `UiManager.PlacePoint` | js/ui-manager.js:557-580 | the point and its marker are placed; other kinds are unchanged; manual mode for that kind ends; nothing else changes |
| `UiManager.SetPunto` | js/ui-manager.js:506-591 | nothing without a map; nothing, and the hacienda named, when the point is blocked; otherwise `PlacePoint` |
| `UiManager.WithoutStopover` | js/ui-manager.js:281-294 | no stopover point and, with a map, no stopover marker; origin and destination untouched |
| `UiManager.ToggleParada` | js/ui-manager.js:273-307 | only hiding with the controls present changes the state, to `WithoutStopover`, with a recalculation exactly when a route is shown |
| `UiManager.GetIconoInstruccion` | js/ui-manager.js:713-742 | the eleven listed types get their icon; others get left when the modifier mentions Left, else right when it mentions Right, else up |
| `UiManager.ClassifySwipe` | js/ui-manager.js:121-133 | a gesture exactly when the horizontal move exceeds 50 and the vertical stays under 30; leftwards opens, rightwards closes |
| `UiManager.SwipeReversed` | js/ui-manager.js:121-133 | the reversed path makes the opposite gesture |
| `UiManager.TouchGestures.constructor` | js/ui-manager.js:107 | no start point |
| `UiManager.TouchGestures.TouchStart` | js/ui-manager.js:109-114 | a single touch records its start; others change nothing |
| `UiManager.TouchGestures.TouchEnd` | js/ui-manager.js:116-137 | without a recorded start or with other than one touch, no gesture; otherwise `ClassifySwipe` |
| `UiManager.SimulatedClosedForm` | js/ui-manager.js:755-759 | the bar grows by a hundredth per tick for a hundred ticks, then stays full |
| `UiManager.Percent` | js/ui-manager.js:762 | none for a total of 0; otherwise between 0 and 100, and 100 once the total is reached |
| `UiManager.ProgressBar.constructor` | js/ui-manager.js:745-752 | a fresh simulation over the route's length |
| `UiManager.ProgressBar.Tick` | js/ui-manager.js:755-762 | the accumulator grows, and the interval stops exactly once it would pass the total; the percentage is `Percent` |
| `UiManager.ProgressStops` | js/ui-manager.js:755-760 | for a route of positive length the interval is cleared on the 101st tick (when 100 ticks have already run) and the bar stays full |
| `TrackingManager.RemainingTime` | js/tracking-manager.js:64-65 | never negative: the estimate minus the time elapsed, or 0 |
| `TrackingManager.RemainingMinutes` | js/tracking-manager.js:92 | the remaining time rounded to whole minutes |
| `TrackingManager.TimeLabelOf` | js/tracking-manager.js:92-101 | hours and minutes exactly above 60 minutes, with h*60 + m the total; exactly 60 stays "60m" |
| `TrackingManager.LabelText` | js/tracking-manager.js:96-100 | the label ends in "m" |
| `TrackingManager.BandOf` | js/tracking-manager.js:120-126 | below 30, below 70, and the rest |
| `TrackingManager.BandMonotone` | js/tracking-manager.js:120-126 | more progress never shows an earlier colour |
| `TrackingManager.TrackingUi` | js/tracking-manager.js:82-138 | complete exactly at 100 percent or more; the time label is that of the remaining minutes |
| `TrackingManager.TrackingSession.constructor` | js/tracking-manager.js:7-9 | no interval, no start, no estimate |
| `TrackingManager.TrackingSession.StartTracking` | js/tracking-manager.js:14-31 | nothing without a route; otherwise started now with the route's time in milliseconds |
| `TrackingManager.TrackingSession.StopTracking` | js/tracking-manager.js:34-49 | the interval cleared and the session reset |
| `TrackingManager.TrackingSession.UpdateTrackingUi` | js/tracking-manager.js:130-137 | a completed route stops tracking; otherwise nothing changes |
| `TrackingManager.TrackingSession.UpdateTrackingDisplay` | js/tracking-manager.js:61-79 | nothing before tracking starts; otherwise the clamped remaining time, with the tracker's figures or their defaults |
| `TrackingManager.TrackingSession.UpdateEstimatedTime` | js/tracking-manager.js:160-172 | unchanged without an estimate, speed or distance to go; otherwise elapsed plus distance left at the current speed |
| `LayerManager.Selected` | js/layer-manager.js:83-89 | every base layer key is on exactly when it is the chosen one, and every other entry is preserved |
| `LayerManager.ResizeTarget` | js/layer-manager.js:119-131 | satellite on a small screen unless it is on; streets on a large one when no base layer is on; otherwise none |
| `LayerManager.ResizeSettles` | js/layer-manager.js:119-131 | after a resize switch the same width asks for nothing more |
| `LayerManager.DefaultTarget` | js/layer-manager.js:56-67 | satellite on a small screen, streets otherwise, when that layer exists |
| `LayerManager.Layers.constructor` | js/layer-manager.js:7-9 | no map, no base layers, none current |
| `LayerManager.Layers.SwitchToLayer` | js/layer-manager.js:70-94 | false and nothing changes without a map or for an unknown layer; otherwise the chosen layer replaces the previous one and `capas` becomes `Selected` |
| `LayerManager.Layers.SetDefaultLayer` | js/layer-manager.js:56-67 | a switch to `DefaultTarget` when there is one |
| `LayerManager.Layers.Init` | js/layer-manager.js:39-53 | on a map exactly one base layer is on: satellite on a small screen, streets otherwise |
| `LayerManager.Layers.HandleResize` | js/layer-manager.js:119-131 | a switch to `ResizeTarget` when there is one |

## Left out

- Rendering, Leaflet objects and the page: markers, popups, tooltips, toasts,
  styles, the routing control, `fitBounds`, the layer control and switches,
  the progress-circle geometry and the distance text of the tracking panel.
  The presence of a map or of page elements is a boolean parameter.
- Browser APIs and the network: geolocation, permissions, battery, speech
  synthesis, audio, service workers and `fetch`. Speech synthesis is an
  availability flag plus the list of utterances handed to it. A storage write
  that throws is the `storageFails` parameter.
- Timers: a `setTimeout` recalculation is the returned `recalc` flag. An
  interval is a `running` flag advanced by `Tick`.
- Option callbacks passed to `speak` (`onStart`, `onEnd`, `onError`), and
  exceptions thrown by the synthesiser.
- `cleanInstructionText` is a regular-expression rewrite. It is a `clean`
  function parameter.
- Floating point: numbers are exact reals. `toFixed` and `Math.round` are
  modelled on exact values, so a run in floating point may reach the full
  progress bar one tick later or earlier than `UiManager.ProgressStops` says.
- `NaN` and `undefined` arithmetic, except where the code tests them
  (`|| 1`, a missing tracker).
- GpsTracker.Tracker.HandleLocationSuccess: models a later fix, not the
  first one (`initial`). On the first fix the source also does three things
  the model leaves out. It starts continuous tracking when no watch is set
  (js/gps-tracker.js:379-381). It places the origin through
  `RouteManager.setPunto` when AppState has none (js/gps-tracker.js:392-398,
  forwarded by js/route-calculator.js:335-339). It shows a toast
  (js/gps-tracker.js:404-406). Centring the map on the first fix while
  `gpsCentered` is false (js/gps-tracker.js:373-376) is modelled, as the
  flag becoming true. The marker, the accuracy circle and the status text
  are page effects and are not modelled.
- OfflineManager.OfflineCache.LoadCachedData: returns the set of cached names,
  because the returned array's order depends on the storage's key order.
- The constants files hold data only, and define `AppConstants` in conflicting
  ways. The values used appear as constants or parameters: the caps of 100,
  the stride 5, the 100 m threshold, `maxCacheAge`, `minChars` and
  `maxResults`.
- js/offline-manager.js declares `OfflineManager` twice, as a class at line 6
  and as a `const` at line 43, in the same scope. JavaScript rejects this as
  a syntax error. As written, the whole file therefore never runs, and
  `window.OfflineManager` (line 441) is never set. `OfflineManager` models
  the module at lines 43-437 as the authors wrote it. The class at lines
  6-41 is not modelled. The tracker's guard on `window.OfflineManager`
  (js/gps-tracker.js:358, 708) is the nullable `offline` argument, and the
  files as written correspond to `offline == null`.
- The trailing `getNextInstructionBasedOnProgress() {` at
  Caminos/js/voice-navigation.js:243 is method syntax at the top level of a
  script, which JavaScript rejects as a syntax error. As written, the whole
  file therefore never runs and never defines `window.VoiceNavigation` in the
  Caminos variant. `CaminosVoice` models the module at lines 5-235 as
  the authors wrote it. The trailing function has the same rule as
  `Voice.GetNextInstructionBasedOnProgress` and is not modelled separately.
- js/route-calculator.js:155 calls a nonexistent `initRouteTracking`. It is
  not modelled.
- The offline manager's connectivity listeners, service-worker registration
  and prefetching are not part of this model. The same goes for
  js/map-manager.js, js/app.js and sw.js.
- GpsTracker.Tracker.UpdateRouteTracking: the progress display called by
  `updateProgressUI` (js/gps-tracker.js:654-659) is handed two numbers and
  throws on its first line (see Findings). The model records this as the
  `ProgressFailed` outcome, decided by the `progressDisplay` parameter (the
  display is loaded). The exception stops `handleLocationSuccess` too, which
  is modelled. The display's own page effects are not.
- Common.Lower: covers the letters Spanish hacienda names use, ASCII A-Z and
  the Latin-1 capitals U+00C0-U+00DE. Other cased letters, such as 'Ā' or
  'Σ', are kept unchanged, where `toLowerCase` lowers them. The
  length-changing case of 'İ' (U+0130) is not modelled.
- SearchManager.BuscarPorProximidad: the default `radioKm = 10` is the
  separate `BuscarPorProximidadDefault`.

## Findings

| source | as written | input that shows it | evidently intended | confidence | as-written member | corrected member |
|---|---|---|---|---|---|---|
| js/gps-tracker.js:582-588 | `updateRouteTracking` calls `updateProgressUI` before `checkRouteDeviation`. That call hands the two distances to `UIManager.actualizarProgresoRuta`, which reads `summary.totalDistance` from its argument (js/ui-manager.js:745-746) and throws on a number. So once the UI manager is loaded, the deviation check is never reached | any processed fix while a current route exists and js/ui-manager.js is loaded: no deviation warning, however far off the route | the deviation check runs after every tracked fix | not executed | `GpsTracker.Tracker.UpdateRouteTracking` with `progressDisplay`, `GpsTracker.ProgressDisplayHidesDeviation` | `GpsTracker.CheckRouteDeviation`, by which `GpsTracker.Tracker.UpdateRouteTracking` ends without the display |
| js/offline-manager.js:323-330 | the loop removes expired route keys while it walks storage by index, so the key after each removed one moves into the index already passed and is skipped | storage holding only `route_a` and `route_b`, both with `expires` 1, swept at time 5: `route_b` survives | every stored route with `expires < now` is removed | not executed | `OfflineManager.SweepByIndex`, `OfflineManager.SweepByIndexSkips` | `OfflineManager.SweepExpired`, used by `OfflineManager.OfflineCache.CleanupExpiredCache` |
