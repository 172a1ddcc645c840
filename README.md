# PATH widget and settings core, in Dafny

This project models three small stateful or pure pieces of the PATH departure-board app
(Android/iOS, Kotlin Multiplatform):

- **Widget setup** (`WidgetSetupViewModel`): a reducer over an immutable screen `State`
  (app-widget id, use-closest-station flag, sort order, train filter, and the New Jersey and
  New York station rows). Each `Intent` yields a new state and possibly an effect. Confirming
  turns the checked rows into a `StoredWidgetConfiguration`. When the widget id becomes known, a
  collector loads the stored configuration and rebuilds the rows from the station table.
  Modules `WidgetSetup` (pure transitions) and `SetupViewModel` (the view model as a class
  that owns the state, the sent effects and the stored configurations).
- **Settings manager** (`SettingsManager`): one persisted value per setting, the aggregate
  `AppSettings` that mirrors them, and the location-setting automaton over `Disabled`,
  `Enabled` and `EnabledPendingPermission`. Module `Settings`, with the persisters as fields
  of a class and the automaton as a transition function with reachability lemmas.
- **Widget data** (`WidgetData`): `isPast` with its one-minute grace window, `isBackfilled`,
  and `longId`, the stable numeric id of a station row. Module `WidgetData`.

Shared entities (stations, the `StationSort`, `TrainFilter` and `LocationSetting` enums) are in
module `Api`; the display-name ordering of stations is in module `StationOrder`.

Inputs of the model, which are not modelled themselves: the station table `Stations.All`
(a sequence of stations), `String.hashCode` (a function to 32-bit ints), the location
permission list and the device's permission and location support (booleans), the
`IntPersistable.fromPersistence` decoder, the set of all train lines and the default commuting
configuration. Instants are integer nanoseconds.

## Model

| member | source | states |
|---|---|---|
| `Api.StationSort.Number` | composeApp/src/commonMain/kotlin/com/sixbynine/transit/path/api/StationSort.kt:5-7 | `Alphabetical` is persisted as 1, `NjAm` as 2 and `NyAm` as 3, and no other number stands for them |
| `Api.StationSortNumberInjective` | composeApp/src/commonMain/kotlin/com/sixbynine/transit/path/api/StationSort.kt:5-7 | distinct sort orders have distinct persistence numbers |
| `StationOrder.SortByDisplayName` | composeApp/src/androidMain/kotlin/com/sixbynine/transit/path/widget/setup/WidgetSetupViewModel.kt:74 | the result is a permutation of the input, sorted by display name |
| `WidgetData.TrainData.IsPast` | composeApp/src/commonMain/kotlin/com/sixbynine/transit/path/widget/WidgetData.kt:43-45 | a train is past iff more than one minute has elapsed since its projected arrival; at exactly one minute it is not |
| `WidgetData.TrainData.IsBackfilled` | composeApp/src/commonMain/kotlin/com/sixbynine/transit/path/widget/WidgetData.kt:47-48 | true iff a backfill source is present |
| `WidgetData.IsPastMonotone` | composeApp/src/commonMain/kotlin/com/sixbynine/transit/path/widget/WidgetData.kt:43-45 | a train past at some instant is past at every later instant |
| `WidgetData.NotYetArrivedIsNotPast` | composeApp/src/commonMain/kotlin/com/sixbynine/transit/path/widget/WidgetData.kt:43-45 | a train whose projected arrival is not before now is never past |
| `WidgetData.IndexOfFirst` | composeApp/src/commonMain/kotlin/com/sixbynine/transit/path/widget/WidgetData.kt:53-54 | -1 iff no station has the id; otherwise an in-range index holding the id with no earlier station holding it |
| `WidgetData.LongId` | composeApp/src/commonMain/kotlin/com/sixbynine/transit/path/widget/WidgetData.kt:52-58 | for a listed id, the index of the first station with that API name, in [0, table size); for an unlisted id, its hash code plus ten |
| `WidgetData.LongIdDistinctForListedStations` | composeApp/src/commonMain/kotlin/com/sixbynine/transit/path/widget/WidgetData.kt:52-56 | two different listed ids get different row ids |
| `Settings.DefaultSettings` | composeApp/src/commonMain/kotlin/com/sixbynine/transit/path/app/settings/SettingsManager.kt:28-37 | defaults: filter All, time display Relative, station limit ThreePerLine, sort Alphabetical, presumed trains shown, location Disabled, avoid-missing-trains Disabled, all lines, default commuting configuration |
| `Settings.InitialSettings` | composeApp/src/commonMain/kotlin/com/sixbynine/transit/path/app/settings/SettingsManager.kt:28-68 | each of the nine settings starts as its stored value where one is stored, and as its persister's default otherwise |
| `Settings.InitialSettingsFromEmptyStorage` | composeApp/src/commonMain/kotlin/com/sixbynine/transit/path/app/settings/SettingsManager.kt:28-68 | with nothing stored, the starting aggregate equals the defaults |
| `Settings.LocationSettingFor` | composeApp/src/commonMain/kotlin/com/sixbynine/transit/path/app/settings/SettingsManager.kt:137-142 | disabled iff the toggle is off; enabled iff on with permission; pending iff on without permission |
| `Settings.NextLocationSetting` | composeApp/src/commonMain/kotlin/com/sixbynine/transit/path/app/settings/SettingsManager.kt:73-148 | Denied gives Disabled from any state; Granted promotes pending to Enabled and keeps the others; the startup check disables when location is unsupported or permission is missing and otherwise keeps the setting; a toggle gives `LocationSettingFor` |
| `Settings.EnabledOnlyWithPermission` | composeApp/src/commonMain/kotlin/com/sixbynine/transit/path/app/settings/SettingsManager.kt:73-148 | from a non-enabled state, no event sequence reaches Enabled unless one of its events vouches for the permission (a toggle with permission, or a Granted result) |
| `Settings.PendingOnlyFromToggle` | composeApp/src/commonMain/kotlin/com/sixbynine/transit/path/app/settings/SettingsManager.kt:137-148 | from a non-pending state, the setting becomes pending only if the user enabled it while the permission was missing |
| `Settings.DisabledUntilUserEnables` | composeApp/src/commonMain/kotlin/com/sixbynine/transit/path/app/settings/SettingsManager.kt:73-96 | a disabled setting stays disabled through any events that do not switch the toggle on |
| `Settings.LongToInt` | composeApp/src/commonMain/kotlin/com/sixbynine/transit/path/app/settings/SettingsManager.kt:190-191 | Long.toInt keeps the value modulo 2^32 in the Int range, and is the identity on Int-range values |
| `Settings.CurrentAvoidMissingTrains` | composeApp/src/commonMain/kotlin/com/sixbynine/transit/path/app/settings/SettingsManager.kt:189-193 | Disabled when nothing is stored under the key or the stored number does not decode; otherwise the decoded mode of the narrowed number |
| `Settings.SettingsManager.constructor` | composeApp/src/commonMain/kotlin/com/sixbynine/transit/path/app/settings/SettingsManager.kt:56-68 | the aggregate starts as the stored value of each setting, or its default, and mirrors the persisters |
| `Settings.SettingsManager.SetLocationSetting` | composeApp/src/commonMain/kotlin/com/sixbynine/transit/path/app/settings/SettingsManager.kt:98-100 | writing the location persister changes only the aggregate's location field |
| `Settings.SettingsManager.CheckLocationAtStartup` | composeApp/src/commonMain/kotlin/com/sixbynine/transit/path/app/settings/SettingsManager.kt:74-79 | the startup check's transition, changing only the location field of the aggregate |
| `Settings.SettingsManager.OnLocationPermissionResult` | composeApp/src/commonMain/kotlin/com/sixbynine/transit/path/app/settings/SettingsManager.kt:81-95 | a permission result's transition, changing only the location field of the aggregate |
| `Settings.SettingsManager.UpdateLocationSetting` | composeApp/src/commonMain/kotlin/com/sixbynine/transit/path/app/settings/SettingsManager.kt:137-149 | the toggle's decision is stored, only the location field changes, and a permission request is issued exactly when the new setting is pending |
| `Settings.SettingsManager.UpdateTrainFilter` | composeApp/src/commonMain/kotlin/com/sixbynine/transit/path/app/settings/SettingsManager.kt:151-154 | only the aggregate's train filter changes, to the new value |
| `Settings.SettingsManager.UpdateLineFilters` | composeApp/src/commonMain/kotlin/com/sixbynine/transit/path/app/settings/SettingsManager.kt:156-159 | only the aggregate's line filters change, to the new value |
| `Settings.SettingsManager.UpdateTimeDisplay` | composeApp/src/commonMain/kotlin/com/sixbynine/transit/path/app/settings/SettingsManager.kt:161-164 | only the aggregate's time display changes, to the new value |
| `Settings.SettingsManager.UpdateStationLimit` | composeApp/src/commonMain/kotlin/com/sixbynine/transit/path/app/settings/SettingsManager.kt:166-169 | only the aggregate's station limit changes, to the new value |
| `Settings.SettingsManager.UpdateStationSort` | composeApp/src/commonMain/kotlin/com/sixbynine/transit/path/app/settings/SettingsManager.kt:171-174 | only the aggregate's station sort changes, to the new value |
| `Settings.SettingsManager.UpdateDisplayPresumedTrains` | composeApp/src/commonMain/kotlin/com/sixbynine/transit/path/app/settings/SettingsManager.kt:176-180 | only the aggregate's presumed-trains flag changes, to the new value |
| `Settings.SettingsManager.UpdateAvoidMissingTrains` | composeApp/src/commonMain/kotlin/com/sixbynine/transit/path/app/settings/SettingsManager.kt:182-187 | only the aggregate's avoid-missing-trains mode changes, to the new value |
| `Settings.SettingsManager.UpdateCommutingConfiguration` | composeApp/src/commonMain/kotlin/com/sixbynine/transit/path/app/settings/SettingsManager.kt:195-200 | only the aggregate's commuting configuration changes, to the new value |
| `WidgetSetup.AnyPermissionGranted` | composeApp/src/androidMain/kotlin/com/sixbynine/transit/path/widget/setup/WidgetSetupViewModel.kt:109 | true iff some requested permission maps to true; a missing entry counts as not granted |
| `WidgetSetup.ToggleRows` | composeApp/src/androidMain/kotlin/com/sixbynine/transit/path/widget/setup/WidgetSetupViewModel.kt:132-145 | same length, ids and names in the same order; a row's flag becomes the intent's value iff its id is the toggled id, otherwise it is kept |
| `WidgetSetup.CheckedIds` | composeApp/src/androidMain/kotlin/com/sixbynine/transit/path/widget/setup/WidgetSetupViewModel.kt:162-164 | an id is listed iff some checked row has it |
| `WidgetSetup.ToSet` | composeApp/src/androidMain/kotlin/com/sixbynine/transit/path/widget/setup/WidgetSetupViewModel.kt:168 | the set holds exactly the listed ids |
| `WidgetSetup.Reduce` | composeApp/src/androidMain/kotlin/com/sixbynine/transit/path/widget/setup/WidgetSetupViewModel.kt:106-180 | a denied permission request clears the closest-station flag, otherwise nothing changes; the closest-station toggle sets the flag and asks for permission iff turned on without permission; a station toggle changes only the two row lists; sort order and filter selections change only their field; confirming keeps the state and completes with the current widget id |
| `WidgetSetup.ConfigurationFor` | composeApp/src/androidMain/kotlin/com/sixbynine/transit/path/widget/setup/WidgetSetupViewModel.kt:158-175 | the stored stations are exactly the ids of checked rows of either list; flag, sort order and filter are copied |
| `WidgetSetup.StationsIn` | composeApp/src/androidMain/kotlin/com/sixbynine/transit/path/widget/setup/WidgetSetupViewModel.kt:72-73 | each station of the given state occurs as often as in the table; no other station occurs |
| `WidgetSetup.StationsInSingle` | composeApp/src/androidMain/kotlin/com/sixbynine/transit/path/widget/setup/WidgetSetupViewModel.kt:72-73 | a lone station is kept iff it lies in the given state |
| `WidgetSetup.StationsInKeepsOrder` | composeApp/src/androidMain/kotlin/com/sixbynine/transit/path/widget/setup/WidgetSetupViewModel.kt:72-73 | filtering keeps table order: filtering a concatenation gives the filtered first part followed by the filtered second part |
| `WidgetSetup.RowsFor` | composeApp/src/androidMain/kotlin/com/sixbynine/transit/path/widget/setup/WidgetSetupViewModel.kt:75-81 | one row per station, same order, with its id and name, checked iff its id was selected |
| `WidgetSetup.WithStoredConfiguration` | composeApp/src/androidMain/kotlin/com/sixbynine/transit/path/widget/setup/WidgetSetupViewModel.kt:64-92 | the widget id is kept; the flag is copied; missing sort order and filter become Alphabetical and All; both row lists follow the sorted stations of their state; a row is checked iff stored stations exist and contain its id |
| `WidgetSetup.SortedStationsInAreThatState` | composeApp/src/androidMain/kotlin/com/sixbynine/transit/path/widget/setup/WidgetSetupViewModel.kt:72-90 | each list is sorted by display name and holds exactly the table's stations of its state |
| `WidgetSetup.ToggleKeepsRowsMatching` | composeApp/src/androidMain/kotlin/com/sixbynine/transit/path/widget/setup/WidgetSetupViewModel.kt:129-147 | a station toggle keeps every row's id and name in place |
| `WidgetSetup.ToggleThenConfirm` | composeApp/src/androidMain/kotlin/com/sixbynine/transit/path/widget/setup/WidgetSetupViewModel.kt:129-168 | after toggling a listed station, confirming stores its id iff it was toggled on |
| `WidgetSetup.SortedStationsInUnique` | composeApp/src/androidMain/kotlin/com/sixbynine/transit/path/widget/setup/WidgetSetupViewModel.kt:72-90 | a table with unique ids yields a list with unique ids |
| `WidgetSetup.TableStatesShareNoId` | composeApp/src/androidMain/kotlin/com/sixbynine/transit/path/widget/setup/WidgetSetupViewModel.kt:72-90 | a table with unique ids never lists one id under both states |
| `WidgetSetup.RowsRestored` | composeApp/src/androidMain/kotlin/com/sixbynine/transit/path/widget/setup/WidgetSetupViewModel.kt:75-91 | rebuilding one list's rows from the confirmed ids gives back exactly those rows |
| `WidgetSetup.LoadedState` | composeApp/src/androidMain/kotlin/com/sixbynine/transit/path/widget/setup/WidgetSetupViewModel.kt:67-92 | the widget id is kept, `useClosestStation` is copied, a missing sort order becomes `Alphabetical` and a missing filter `All`; the rows list the given stations in order, and a row is checked iff its id is in the stored selection (none when it is absent) |
| `WidgetSetup.ConfirmThenLoadRestoresState` | composeApp/src/androidMain/kotlin/com/sixbynine/transit/path/widget/setup/WidgetSetupViewModel.kt:64-175 | for rows over station lists with unique ids and no id in both lists, loading the configuration that confirming stored gives back the confirmed state: flag, sort order, filter and every row's checked flag |
| `WidgetSetup.ConfirmThenLoadFromTable` | composeApp/src/androidMain/kotlin/com/sixbynine/transit/path/widget/setup/WidgetSetupViewModel.kt:64-175 | the same round trip for rows built from a station table with unique API names |
| `SetupViewModel.Collect` | composeApp/src/androidMain/kotlin/com/sixbynine/transit/path/widget/setup/WidgetSetupViewModel.kt:54-98 | the invalid id and a repeat of the last id do nothing; a new id loads its stored configuration if there is one and is remembered; the widget id is never changed |
| `SetupViewModel.WidgetSetupViewModel.constructor` | composeApp/src/androidMain/kotlin/com/sixbynine/transit/path/widget/setup/WidgetSetupViewModel.kt:43-98 | starts with no effects, runs the collector once on the initial state and establishes `Valid()`: the collector has seen the current widget id unless it is the invalid one |
| `SetupViewModel.WidgetSetupViewModel.SetAppWidgetId` | composeApp/src/androidMain/kotlin/com/sixbynine/transit/path/widget/setup/WidgetSetupViewModel.kt:100-104 | changes only the widget id, then runs the collector; effects and stored configurations are untouched, and `Valid()` holds afterwards |
| `SetupViewModel.WidgetSetupViewModel.OnIntent` | composeApp/src/androidMain/kotlin/com/sixbynine/transit/path/widget/setup/WidgetSetupViewModel.kt:106-190 | the state becomes `Reduce`'s; its effect, if any, is appended to the sent effects; confirming stores `ConfigurationFor` the state under the current widget id; `Valid()` is kept, since no intent changes the widget id, so no collector run is due |
| `SetupViewModel.ReopenAfterConfirm` | composeApp/src/androidMain/kotlin/com/sixbynine/transit/path/widget/setup/WidgetSetupViewModel.kt:54-175 | confirming and then opening the setup screen again for the same widget shows the confirmed state, and the completion effect was sent |

## Left out

- The train backfill engine (`TrainBackfillHelper`) and the alert schedule evaluation (`Schedule.isActiveAt`): not modelled.
- `PathRepository`: network fetching, timeouts, the response cache and JSON decoding.
- Compose and SwiftUI presentation code.
- Coroutines and ordering: the view model's collector, its `ConfirmClicked` work and its effect sends run in launched coroutines; the model runs each to completion at once, so interleavings (an intent handled while a stored configuration loads) are not captured. The same holds for the settings manager's collectors, which the model applies synchronously.
- `SetupViewModel.WidgetSetupViewModel.OnIntent`: the Glance id lookup is the identity; a lookup that fails while confirming (which throws in the source) is not modelled.
- `DepartureBoardWidget().updateAll`, `Analytics` calls and `LocationProvider` calls: side effects outside the core; permission and support are boolean inputs.
- The default `State()` of the setup screen: `WidgetSetupScreenContract` is not part of this model, so the constructor takes the initial state.
- `StationOrder.SortByDisplayName`: `StationByDisplayNameComparator` is not part of this model; it stands for the lexicographic order on character codes, and the stability of `sortedWith` is not stated.
- `WidgetSetup.ConfirmThenLoadFromTable`: assumes the station table's API names are unique; with a duplicated name the two rows sharing it would be checked together after loading.
- `WidgetData.TrainData.IsPast`: instants are unbounded integers; the saturation of `Instant` arithmetic at its extreme values is not modelled.
- `Settings.CurrentAvoidMissingTrains`: the global data store and `IntPersistable.fromPersistence` are inputs; only `Disabled` of the avoid-missing-trains modes is named, the others are kept by number.
- The encoding of the line filter as bit flags and the JSON encoding of the commuting configuration.
