# Robot control dashboard — session model

A Dafny model of the session logic of a React dashboard that drives a robot through a
ROS bridge. The model covers:

- the state the top-level `App` component keeps: operation mode, robot status, the route
  being edited on the map, the sensor list, the selected sensor, the pending parameter edit
  buffer, the saving/rebooting flags and the current alert;
- the handlers that change that state: configuration ingestion, sensor selection,
  parameter edits, the two save workflows, confirmed mode and status changes, map clicks,
  waypoint removal and the drive pad;
- the pure rules around that state in `src/types.ts`, `src/components/Header.tsx` and
  `src/components/SensorSection.tsx`.

Files:

| file | contents |
|---|---|
| `wrappers.dfy` | `Option` and `Result` |
| `strings.dfy` | integer-to-decimal text and back, ASCII capitalisation |
| `dict.dfy` | a JavaScript object as an ordered entry list: `Keys`, lookup, spread-update |
| `types.dfy` | mode and status enums with their integer codes, parameter kinds, sensors, waypoints |
| `header.dfy` | Start/Pause/Stop enable rules and the mode selector |
| `sensor_section.dfy` | the live/reboot partition of a sensor's parameters and what the panel renders |
| `sensor_store.dfy` | sensor-list ingestion, buffer seeding, sensor lookup, update-request shaping |
| `waypoints.dfy` | placing and removing route points, auto-advance of the selected type |
| `velocity.dfy` | direction to `/cmd_vel` twist message |
| `app.dfy` | class `Dashboard`: the component state as fields, one method per handler |
| `fixtures.dfy` | the hard-coded example sensors, a route-editing session, client walkthroughs |

Modelling choices:

- A JavaScript object is a sequence of `(key, value)` entries. Its order is insertion order,
  which is the order `Object.keys` and `Object.entries` report for non-numeric keys.
  `{...prev, [k]: v}` is `Dict.Put`: an existing key keeps its slot, and a new key goes last.
- A bridge service call is represented by the callback it ends in. The `Outcome` is
  `Succeeded` or `Failed` and is passed to the handler. Each handler returns the service
  calls it issued, in order, so "the reboot service is never called" is a statement about
  that sequence. The `/cmd_vel` publish is the returned `Twist`.
- A handler that reads `selectedSensor.params[k].requires_reboot` for a buffer key `k` that
  is neither an own nor an inherited property of the sensor's `params` throws a `TypeError`, and the handler's `catch` block handles it. The
  model returns this as `BuildFault` and takes the catch path. `handleParamChange` itself
  accepts any name, so the model's handlers can reach that path. The panel rows, its only
  callers, pass only names of the selected sensor's parameters
  (src/components/SensorSection.tsx:74-97 and 134-157). As long as edits come only from those rows,
  the invariant `Dashboard.BufferMatchesSelection` holds and the fault cannot occur.
- The ingestion handler indexes element 0 unconditionally. An empty snapshot therefore
  empties the sensor list and clears the selection, then throws before it reseeds the
  buffer or raises the success alert. `IngestConfig` returns `false` in that case.
- A successful save does not write the sent values back into `sensorsList`.
- `handleSensorChange` ignores an unknown id and raises no alert.

## Model

| member | source | states |
|---|---|---|
| Strings.NatToString | src/App.tsx:355 | the decimal text of a count is non-empty, all digits, and starts with '0' only for zero |
| Strings.ParseNatToString | src/App.tsx:271 | reading the decimal text of a natural number gives the number back |
| Strings.NatToStringInjective | src/App.tsx:355 | different counts get different texts |
| Strings.IntToString | src/App.tsx:271 | `toString` of an integer is non-empty and starts with '-' exactly for negative values |
| Strings.ParseInt | src/components/Header.tsx:26 | an integer is read exactly from an optional '-' followed by at least one digit |
| Strings.IntToStringRoundTrip | src/App.tsx:271 | a stringified integer parses back to itself |
| Strings.IntToStringInjective | src/App.tsx:271 | different integers are sent as different texts |
| Strings.UpperCase | src/components/SensorSection.tsx:64 | a lower-case ASCII letter becomes its upper-case letter; any other character is unchanged |
| Strings.Capitalize | src/components/SensorSection.tsx:64 | same length, first character upper-cased, the rest unchanged |
| Dict.Keys | src/App.tsx:270 | `Object.keys` has one key per entry, the i-th key being the i-th entry's key |
| Dict.Get | src/App.tsx:270 | a lookup is undefined exactly for a missing key; a found value is stored under that key |
| Dict.GetAt | src/App.tsx:271 | in an object, the key of the i-th entry looks up the i-th value |
| Dict.SameKeySameValue | src/types.ts:51-53 | an object holds one value per key |
| Dict.Put | src/App.tsx:245-250 | spread-update keeps the key order and appends a new key; the key now maps to the new value and every other key keeps its value |
| Types.ModeCode | src/types.ts:3-7 | each mode's code lies in 0..2 |
| Types.ModeOfCode | src/types.ts:3-7 | a code decodes exactly when it is in 0..2, to the mode with that code |
| Types.ModeCodeRoundTrip | src/types.ts:3-7 | decoding a mode's code gives the mode back |
| Types.ModeCodeInjective | src/types.ts:3-7 | different modes have different codes |
| Types.StatusCode | src/types.ts:9-13 | each status's code lies in 0..2 |
| Types.StatusOfCode | src/types.ts:9-13 | a code decodes exactly when it is in 0..2, to the status with that code |
| Types.StatusCodeRoundTrip | src/types.ts:9-13 | decoding a status's code gives the status back |
| Types.StatusCodeInjective | src/types.ts:9-13 | different statuses have different codes |
| Types.TypeOfTag | src/types.ts:22 | a tag is accepted exactly when it is "string", "int" or "boolean", and then names that kind |
| Types.TypeTagRoundTrip | src/types.ts:22 | every kind's tag reads back as that kind |
| Types.RequiresReboot | src/types.ts:30 | a parameter needs a reboot exactly when its optional flag is present and true; an absent flag means live |
| Header.Enabled | src/components/Header.tsx:35-57 | a button is enabled exactly when it asks for another status than the current one, except that Pause stays disabled while stopped |
| Header.Target | src/App.tsx:229-231 | Start asks for Running, Pause for Paused, Stop for Stopped, and no button asks for another status |
| Header.PauseEnabledOnlyWhenRunning | src/components/Header.tsx:45 | Pause is enabled exactly while the robot is running |
| Header.EnabledButtonsChangeStatus | src/components/Header.tsx:35-57 | in every status some button is enabled, and no enabled button asks for the current status |
| Header.RequestableTransitions | src/components/Header.tsx:35-57 | the operator can request exactly the status changes other than Stopped to Paused |
| Header.ModeOfOption | src/components/Header.tsx:26 | a selector value yields a mode only when it parses to that mode's code |
| Header.OptionsCoverModes | src/components/Header.tsx:29-31 | every offered option is a valid mode, the options are pairwise different, and every mode is offered |
| Header.SelectorRoundTrip | src/components/Header.tsx:25-26 | reading back the selector value a mode is shown with gives that mode |
| SensorSection.RuntimeParams | src/components/SensorSection.tsx:28-29 | without a selected sensor no entries; with one, exactly its entries without the reboot flag, in order |
| SensorSection.BootParams | src/components/SensorSection.tsx:30-31 | without a selected sensor no entries; with one, exactly its entries with the reboot flag, in order |
| SensorSection.FilterByReboot | src/components/SensorSection.tsx:28-31 | a block holds exactly the entries whose reboot flag matches, as a subsequence of the sensor's entries |
| SensorSection.FilterCounts | src/components/SensorSection.tsx:28-31 | the two blocks together hold each entry exactly as often as the sensor does |
| SensorSection.Partition | src/components/SensorSection.tsx:28-31 | without a selection both blocks are empty; with one they partition its entries, keep its order, and share no key |
| SensorSection.BlocksCoverKeys | src/components/SensorSection.tsx:28-31 | a name is a parameter of the sensor exactly when it is a key of one of the two blocks |
| SensorSection.EditsKeepKind | src/components/SensorSection.tsx:67-100 | a `handleParamChange` from a row's control keeps the buffer's keys and the edited value's run-time kind, so the row keeps its control |
| SensorSection.EditorFor | src/components/SensorSection.tsx:67-100 | a row has no control exactly when the buffer has no value for it; otherwise its control hands back exactly the values of the buffered value's kind |
| SensorSection.Bounds | src/components/SensorSection.tsx:71-72 | the slider and number-box limits are the declared range, or 0..100 when none is declared |
| SensorSection.Render | src/components/SensorSection.tsx:57-167 | nothing is shown without a selected sensor; a shown block has one row per parameter of its kind, and its button is disabled by the matching in-flight flag |
| SensorSection.Rows | src/components/SensorSection.tsx:61-103 | one row per block entry, in block order, each built from its entry |
| SensorSection.BlockShownIffPresent | src/components/SensorSection.tsx:57 | a block is non-empty exactly when the sensor has a parameter with that reboot flag |
| SensorSection.RowsHaveEditors | src/components/SensorSection.tsx:67-100 | while the buffer has the sensor's keys, every row gets an editor |
| SensorSection.RenderVisibility | src/components/SensorSection.tsx:57-167 | the runtime block shows exactly when a live parameter exists and the boot block exactly when a reboot one does; the save button is disabled exactly while saving and the reboot button exactly while rebooting |
| SensorSection.RenderRows | src/components/SensorSection.tsx:61-81 | each shown row is captioned with the capitalised name and bounded by the declared range or else 0..100 |
| SensorSection.RenderEditors | src/components/SensorSection.tsx:67-100 | while the buffer has the selected sensor's keys, every shown row has an editor |
| SensorStore.BuildSensorList | src/App.tsx:144-155 | one sensor per snapshot entry, in order, with id and name both set to the key and the other fields copied |
| SensorStore.ParamValues | src/App.tsx:160-164 | the seeded buffer has the sensor's parameter names, in order, each mapped to that parameter's value |
| SensorStore.FindSensor | src/App.tsx:234 | no result exactly when no sensor has the id; otherwise the first sensor with that id |
| SensorStore.Stringify | src/App.tsx:271 | the text of a value reads back as that value under every parameter type the value has |
| SensorStore.NamesWhere | src/App.tsx:270 | exactly the given keys whose parameter has the matching reboot flag, and no more of them than were given |
| SensorStore.BuildUpdateRequest | src/App.tsx:268-272 | building throws only at a buffer key that is not a parameter of the sensor, and a built request names the sensor it was built from (its names and values are pinned by RequestCorrespondence) |
| SensorStore.StringifyRoundTrip | src/App.tsx:271 | a stringified value of the declared kind reads back as the same value |
| SensorStore.ValuesWhere | src/App.tsx:271 | the value list fails exactly when some buffer key is not a parameter of the sensor, and names that key |
| SensorStore.NamesAlign | src/App.tsx:270 | from any position on, the request names are the keys of the matching block |
| SensorStore.NamesMatchPanel | src/App.tsx:270 | the request's names are the keys of the panel block with the same reboot flag, in the same order |
| SensorStore.ValuesAlign | src/App.tsx:271 | from any position on, the request values are the stringified buffer values of the matching block's keys, position by position |
| SensorStore.RequestCorrespondence | src/App.tsx:268-272 | while the buffer has the sensor's keys, the request builds; it carries the sensor's name, the matching block's keys, and the stringified buffer value of each name at the same position |
| SensorStore.MatchingBufferBuilds | src/App.tsx:268-272 | while the buffer has the sensor's keys, building either request never throws |
| SensorStore.RequestsSplitParams | src/App.tsx:268-309 | the live and reboot requests name disjoint parameters that together cover the sensor |
| Waypoints.WaypointName | src/App.tsx:355 | the name reads back as the capitalised type, a single space, and the route length plus one as a decimal without a leading zero |
| Waypoints.HasType | src/App.tsx:369 | the route has a point of the type exactly when its count of that type is positive |
| Waypoints.NewWaypoint | src/App.tsx:351-356 | the new point has the click's id and position and the selected type, and its name is the waypoint name numbered by the route length before the click plus one |
| Waypoints.NextType | src/App.tsx:367-371 | the selected type never becomes Start, and only changes from Start to Checkpoint or, while the route has no End, from Checkpoint to End |
| Waypoints.CountTypeAppend | src/App.tsx:358-365 | the number of points of a type in a concatenation is the sum of the two counts |
| Waypoints.WithoutType | src/App.tsx:360 | exactly the points of other types are kept, in order, with none of the type left and the other counts unchanged |
| Waypoints.Place | src/App.tsx:358-365 | the new point goes last; a checkpoint leaves the earlier route unchanged; a Start or End leaves exactly one point of its type and keeps exactly the points of other types; other types' counts do not change |
| Waypoints.PlaceKeepsAtMostOneEndpoint | src/App.tsx:358-365 | placing a point keeps at most one Start and at most one End |
| Waypoints.AutoAdvance | src/App.tsx:367-371 | Start is followed by Checkpoint and End by End; after a checkpoint the type becomes End exactly when the route had no End; once an End exists, checkpoints keep being placed and the End stays |
| Waypoints.RemoveById | src/App.tsx:374-376 | exactly the points with another id are kept, in order; one point per match is removed and no type count grows |
| Waypoints.RemoveKeepsAtMostOneEndpoint | src/App.tsx:374-376 | removing points keeps at most one Start and at most one End |
| Velocity.Command | src/App.tsx:388-415 | Stop sets no component; every other direction sets exactly its one component, with the speed or turn magnitude, positive for forward, left and turn_left |
| Velocity.CommandIsDetermined | src/App.tsx:388-415 | the command description fixes the message uniquely |
| Velocity.OppositeDirections | src/App.tsx:394-411 | opposite buttons send opposite messages |
| App.FailureAlertsDistinct | src/App.tsx:317-326 | a failed update and a failed reboot raise different error alerts |
| App.Dashboard.constructor | src/App.tsx:80-107 | the initial state: Manual, Stopped, empty route with Start selected, nothing selected or buffered, no alert |
| App.Dashboard.IngestConfig | src/App.tsx:144-165 | the sensor list is built from the snapshot; a non-empty snapshot selects the first sensor, seeds the buffer from it and raises the success alert; an empty one clears the selection and leaves the buffer and alert alone |
| App.Dashboard.SensorChange | src/App.tsx:233-243 | a known id selects the first sensor with it and reseeds the buffer; an unknown id changes nothing |
| App.Dashboard.ParamChange | src/App.tsx:245-250 | the buffer is spread-updated at that name; this keeps it aligned with a selected sensor that has the name, and a value from the row's own control keeps the buffer's keys and the row's control |
| App.Dashboard.ChangeMode | src/App.tsx:194-206 | the request carries the mode's code; the mode is committed only on success; the alert reports the outcome |
| App.Dashboard.ChangeStatus | src/App.tsx:215-227 | the request carries the status's code; the status is committed only on success; the alert reports the outcome |
| App.Dashboard.PressStatusButton | src/App.tsx:215-231 | a button requests its target status; the status is committed and the success alert raised only on success, else the failure alert; a confirmed press of an enabled button changes the status |
| App.Dashboard.SaveParams | src/App.tsx:258-288 | without a selection, no call is made and the flag stays set; a fault takes the catch path; otherwise exactly one live update is sent, the flag is cleared and the alert reports the outcome; it never reboots |
| App.Dashboard.SaveAndReboot | src/App.tsx:296-335 | without a selection, no call is made and the flag stays set; otherwise the reboot update is sent, and a reboot call follows exactly when that update succeeded; the alerts tell the failures apart |
| App.Dashboard.SendLiveUpdate | src/App.tsx:274-287 | the saving flag is cleared; a fault takes the catch path with no call; otherwise exactly the one update call is issued and the alert reports its outcome; the reboot service is never called |
| App.Dashboard.SendRebootUpdate | src/App.tsx:311-333 | the rebooting flag is cleared; a fault takes the catch path with no call; otherwise the update is called first, the reboot follows exactly when the update succeeded, and the alert reports the last outcome |
| App.Dashboard.MapClick | src/App.tsx:349-372 | the route becomes the placement of a point of the selected type, and the type auto-advances from the route before the click |
| App.Dashboard.SelectWaypointType | src/App.tsx:437 | the selector sets the type to place next and keeps the route invariant |
| App.Dashboard.RemoveWaypoint | src/App.tsx:374-376 | the route loses exactly the points with that id and keeps the route invariant |
| App.Dashboard.Move | src/App.tsx:388-418 | the published message is the command for the direction, and the alert names the direction |
| Fixtures.FixturesWellTyped | src/App.tsx:28-77 | the example sensors' parameters respect the declared range/options shape |
| Fixtures.Accel1Panel | src/App.tsx:36-54 | for accel1, the runtime block is filterCutoff alone and the boot block is sensitivity then sampleRate |
| Fixtures.Accel1Buffer | src/App.tsx:36-54 | selecting accel1 seeds the buffer with sensitivity 2, sampleRate 100, filterCutoff 50, in that order |
| Fixtures.Accel1KeysDistinct | src/App.tsx:36-54 | accel1's parameters form an object with keys sensitivity, sampleRate, filterCutoff |
| Fixtures.RouteSession | src/App.tsx:349-372 | five clicks give Checkpoint, End, End, Checkpoint as the next types; the final route is checkpoint B, End C, checkpoint D, and the Start E that replaced A, with their generated names |
| Fixtures.LoadedDashboard | src/App.tsx:144-165 | ingesting the two example sensors selects accel1 with its parameters and raises the success alert |

## Left out

- The camera topic (src/App.tsx:337-347): every render of `App` creates a new `/camera/color/image_raw` topic and subscribes to it, and each subscription logs its first message and unsubscribes. This per-render subscription, the image data and the placeholder video panel are not modelled.
- The ROS connection, its `error` and `close` alerts, and the service, topic and request objects: these are network I/O, replaced by the `Outcome` parameter and the returned service calls.
- JSON parsing of the configuration reply: the parsed snapshot is the input of `IngestConfig`.
- The alert auto-dismiss timer, the `Alert` component and every other piece of markup and styling.
- Waypoint ids and coordinates: the id (from `Date.now()`) and the position are parameters, and ids are not assumed unique.
- The rendering-only components: map, graphs, statistics, status indicator, control panel.
- React update batching, `useEffect` re-registration of the bridge handlers, and the stale closures of asynchronous callbacks: each handler is modelled as one atomic transition over the current state.
- Types.Value: numbers are integers. `parseFloat` edits can produce fractions or NaN, and `toString` of such numbers, or of very large ones in exponent notation, is not modelled.
- Dict.Get: a name that every JavaScript object inherits from `Object.prototype` (`toString`, `constructor`, `valueOf`, …) reads as missing, while JavaScript returns the inherited property.
- SensorStore.ValuesWhere: a buffer key inherited from `Object.prototype` is treated as missing, so the model takes the catch path. JavaScript reads `requires_reboot` of the inherited function as `undefined`, keeps the entry in the live request, which then has one more value than names, and drops it from the reboot request. Only `handleParamChange` with a name the panel never passes reaches this case.
- Dict.Keys: integer-like keys, which JavaScript lists before all others in ascending numeric order, are kept in insertion order like any other key.
- Strings.UpperCase: only ASCII letters are upper-cased; `toUpperCase` on other scripts is not modelled.
- Strings.ParseInt: `parseInt`'s leniency (leading spaces, a '+' sign, trailing junk) is not modelled; the selector only ever passes "0", "1" or "2".
- App.Dashboard.SaveAndReboot: a fault while building the request and a failed reboot raise the same alert text, exactly as in the source; the model does not tell them apart either.
