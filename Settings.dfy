/** The app-wide settings manager: one persisted value per setting, an aggregate
    `AppSettings` record that mirrors them, and the small automaton that governs
    the location setting. Device support, the permission state and the storage
    behind the persisters are inputs of the model. */
module Settings {
  import Wrappers
  import opened Api

  datatype TimeDisplay = Relative | Clock

  datatype StationLimit = None | Four | Six | OnePerLine | TwoPerLine | ThreePerLine

  /** Only `Disabled` is named by the settings manager; the other modes are kept
      by their persistence number. */
  datatype AvoidMissingTrains = Disabled | Mode(number: int)

  /** A train line, by name; the set of all lines is an input of the model. */
  datatype Line = Line(name: string)

  /** The commuting configuration, held as the JSON text it is persisted as. */
  datatype CommutingConfiguration = CommutingConfiguration(json: string)

  datatype AppSettings = AppSettings(
    locationSetting: LocationSetting,
    trainFilter: TrainFilter,
    lineFilters: set<Line>,
    timeDisplay: TimeDisplay,
    stationLimit: StationLimit,
    stationSort: StationSort,
    displayPresumedTrains: bool,
    avoidMissingTrains: AvoidMissingTrains,
    commutingConfiguration: CommutingConfiguration)

  /** What each persister finds in storage when the manager starts; `None` when
      nothing was ever written under its key. */
  datatype StoredSettings = StoredSettings(
    locationSetting: Wrappers.Option<LocationSetting>,
    trainFilter: Wrappers.Option<TrainFilter>,
    lineFilters: Wrappers.Option<set<Line>>,
    timeDisplay: Wrappers.Option<TimeDisplay>,
    stationLimit: Wrappers.Option<StationLimit>,
    stationSort: Wrappers.Option<StationSort>,
    displayPresumedTrains: Wrappers.Option<bool>,
    avoidMissingTrains: Wrappers.Option<AvoidMissingTrains>,
    commutingConfiguration: Wrappers.Option<CommutingConfiguration>)

  /** The persisters' default values. The line filter defaults to every line and
      the commuting configuration to its own default, both inputs here. */
  function DefaultSettings(allLines: set<Line>, defaultCommuting: CommutingConfiguration): (r: AppSettings)
    ensures r.trainFilter == All && r.timeDisplay == Relative && r.stationLimit == ThreePerLine
    ensures r.stationSort == Alphabetical && r.displayPresumedTrains
    ensures r.locationSetting == LocationSetting.Disabled
    ensures r.avoidMissingTrains == AvoidMissingTrains.Disabled
    ensures r.lineFilters == allLines && r.commutingConfiguration == defaultCommuting
  {
    AppSettings(LocationSetting.Disabled, All, allLines, Relative, ThreePerLine, Alphabetical,
                true, AvoidMissingTrains.Disabled, defaultCommuting)
  }

  /** The settings the persisters start with: the stored value where there is
      one, the default otherwise. */
  function InitialSettings(stored: StoredSettings, allLines: set<Line>, defaultCommuting: CommutingConfiguration): (r: AppSettings)
    ensures r.locationSetting == if stored.locationSetting.Some? then stored.locationSetting.value
                     else DefaultSettings(allLines, defaultCommuting).locationSetting
    ensures r.trainFilter == if stored.trainFilter.Some? then stored.trainFilter.value
                     else DefaultSettings(allLines, defaultCommuting).trainFilter
    ensures r.lineFilters == if stored.lineFilters.Some? then stored.lineFilters.value
                     else DefaultSettings(allLines, defaultCommuting).lineFilters
    ensures r.timeDisplay == if stored.timeDisplay.Some? then stored.timeDisplay.value
                     else DefaultSettings(allLines, defaultCommuting).timeDisplay
    ensures r.stationLimit == if stored.stationLimit.Some? then stored.stationLimit.value
                     else DefaultSettings(allLines, defaultCommuting).stationLimit
    ensures r.stationSort == if stored.stationSort.Some? then stored.stationSort.value
                     else DefaultSettings(allLines, defaultCommuting).stationSort
    ensures r.displayPresumedTrains == if stored.displayPresumedTrains.Some? then stored.displayPresumedTrains.value
                     else DefaultSettings(allLines, defaultCommuting).displayPresumedTrains
    ensures r.avoidMissingTrains == if stored.avoidMissingTrains.Some? then stored.avoidMissingTrains.value
                     else DefaultSettings(allLines, defaultCommuting).avoidMissingTrains
    ensures r.commutingConfiguration == if stored.commutingConfiguration.Some? then stored.commutingConfiguration.value
                     else DefaultSettings(allLines, defaultCommuting).commutingConfiguration
  {
    var d := DefaultSettings(allLines, defaultCommuting);
    AppSettings(
      stored.locationSetting.GetOr(d.locationSetting),
      stored.trainFilter.GetOr(d.trainFilter),
      stored.lineFilters.GetOr(d.lineFilters),
      stored.timeDisplay.GetOr(d.timeDisplay),
      stored.stationLimit.GetOr(d.stationLimit),
      stored.stationSort.GetOr(d.stationSort),
      stored.displayPresumedTrains.GetOr(d.displayPresumedTrains),
      stored.avoidMissingTrains.GetOr(d.avoidMissingTrains),
      stored.commutingConfiguration.GetOr(d.commutingConfiguration))
  }

  /** With empty storage every setting takes its default. */
  lemma InitialSettingsFromEmptyStorage(allLines: set<Line>, defaultCommuting: CommutingConfiguration)
    ensures var empty := StoredSettings(Wrappers.None, Wrappers.None, Wrappers.None, Wrappers.None,
                                        Wrappers.None, Wrappers.None, Wrappers.None, Wrappers.None, Wrappers.None);
            InitialSettings(empty, allLines, defaultCommuting) == DefaultSettings(allLines, defaultCommuting)
  {
  }

  // ---------------------------------------------------------------------------
  // The location-setting automaton

  datatype PermissionResult = Granted | Denied

  /** What can move the location setting: the user's toggle (with the permission
      state at that moment), a permission-request result, and the check run once
      at startup (with device support and the permission state). */
  datatype LocationEvent =
    | Toggled(enabled: bool, hasPermission: bool)
    | PermissionResulted(result: PermissionResult)
    | StartupChecked(supported: bool, hasPermission: bool)

  /** The decision taken when the user flips the location toggle. */
  function LocationSettingFor(enabled: bool, hasPermission: bool): (r: LocationSetting)
    ensures r == LocationSetting.Disabled <==> !enabled
    ensures r == Enabled <==> enabled && hasPermission
    ensures r == EnabledPendingPermission <==> enabled && !hasPermission
  {
    if !enabled then LocationSetting.Disabled
    else if hasPermission then Enabled
    else EnabledPendingPermission
  }

  /** One transition of the location setting. */
  function NextLocationSetting(current: LocationSetting, e: LocationEvent): (r: LocationSetting)
    ensures e == PermissionResulted(Denied) ==> r == LocationSetting.Disabled
    ensures e == PermissionResulted(Granted) ==>
              r == (if current == EnabledPendingPermission then Enabled else current)
    ensures e.StartupChecked? ==>
              r == (if !e.supported || !e.hasPermission then LocationSetting.Disabled else current)
    ensures e.Toggled? ==> r == LocationSettingFor(e.enabled, e.hasPermission)
  {
    match e
    case Toggled(enabled, hasPermission) => LocationSettingFor(enabled, hasPermission)
    case PermissionResulted(Denied) => LocationSetting.Disabled
    case PermissionResulted(Granted) =>
      if current == EnabledPendingPermission then Enabled else current
    case StartupChecked(supported, hasPermission) =>
      if !supported || !hasPermission then LocationSetting.Disabled else current
  }

  /** The location setting after a sequence of events, in order. */
  function Run(start: LocationSetting, events: seq<LocationEvent>): LocationSetting
  {
    if events == [] then start
    else NextLocationSetting(Run(start, events[..|events| - 1]), events[|events| - 1])
  }

  /** An event that vouches for the location permission being held. */
  predicate VouchesForPermission(e: LocationEvent)
  {
    e == Toggled(true, true) || e == PermissionResulted(Granted)
  }

  /** The setting never becomes `Enabled` unless some event along the way
      vouched for the permission. */
  lemma {:induction false} EnabledOnlyWithPermission(start: LocationSetting, events: seq<LocationEvent>)
    requires start != Enabled
    requires Run(start, events) == Enabled
    ensures exists i :: 0 <= i < |events| && VouchesForPermission(events[i])
  {
    var n := |events|;
    var last := events[n - 1];
    var before := Run(start, events[..n - 1]);
    if VouchesForPermission(last) {
      assert VouchesForPermission(events[n - 1]);
    } else {
      assert before == Enabled;
      EnabledOnlyWithPermission(start, events[..n - 1]);
      var i :| 0 <= i < n - 1 && VouchesForPermission(events[..n - 1][i]);
      assert events[..n - 1][i] == events[i];
    }
  }

  /** The setting only becomes pending through the user enabling it while the
      permission is missing. */
  lemma {:induction false} PendingOnlyFromToggle(start: LocationSetting, events: seq<LocationEvent>)
    requires start != EnabledPendingPermission
    requires Run(start, events) == EnabledPendingPermission
    ensures exists i :: 0 <= i < |events| && events[i] == Toggled(true, false)
  {
    var n := |events|;
    if events[n - 1] != Toggled(true, false) {
      EnabledPendingIsKept(start, events);
      PendingOnlyFromToggle(start, events[..n - 1]);
      var i :| 0 <= i < n - 1 && events[..n - 1][i] == Toggled(true, false);
      assert events[..n - 1][i] == events[i];
    }
  }

  lemma EnabledPendingIsKept(start: LocationSetting, events: seq<LocationEvent>)
    requires events != []
    requires events[|events| - 1] != Toggled(true, false)
    requires Run(start, events) == EnabledPendingPermission
    ensures Run(start, events[..|events| - 1]) == EnabledPendingPermission
  {
  }

  /** A disabled setting stays disabled until the user switches it on: neither a
      granted permission nor the startup check enables it. */
  lemma {:induction false} DisabledUntilUserEnables(events: seq<LocationEvent>)
    requires forall i :: 0 <= i < |events| ==> !(events[i].Toggled? && events[i].enabled)
    ensures Run(LocationSetting.Disabled, events) == LocationSetting.Disabled
  {
    if events != [] {
      var n := |events|;
      assert forall i :: 0 <= i < n - 1 ==> events[..n - 1][i] == events[i];
      DisabledUntilUserEnables(events[..n - 1]);
    }
  }

  /** Kotlin's `Long.toInt()`: keeps the low 32 bits, as a two's-complement value. */
  function LongToInt(x: int): (r: Int32)
    ensures (x - r as int) % 0x1_0000_0000 == 0
    ensures -0x8000_0000 <= x < 0x8000_0000 ==> r as int == x
  {
    var low := x % 0x1_0000_0000;
    if low < 0x8000_0000 then low as Int32 else (low - 0x1_0000_0000) as Int32
  }

  /** The avoid-missing-trains mode read directly from the global store: the
      Long stored under its key (absent when never written), narrowed to an Int
      and decoded by `fromPersistence`; `Disabled` when absent or undecodable. */
  function CurrentAvoidMissingTrains(storedLong: Wrappers.Option<int>,
                                     fromPersistence: Int32 -> Wrappers.Option<AvoidMissingTrains>): (r: AvoidMissingTrains)
    ensures storedLong.None? ==> r == AvoidMissingTrains.Disabled
    ensures storedLong.Some? && fromPersistence(LongToInt(storedLong.value)).Some? ==>
              r == fromPersistence(LongToInt(storedLong.value)).value
    ensures storedLong.Some? && fromPersistence(LongToInt(storedLong.value)).None? ==>
              r == AvoidMissingTrains.Disabled
  {
    match storedLong
    case None => AvoidMissingTrains.Disabled
    case Some(n) => fromPersistence(LongToInt(n)).GetOr(AvoidMissingTrains.Disabled)
  }

  /** The settings manager. Each persister's current value is a field; `settings`
      is the aggregate its collectors keep in step with them. */
  class SettingsManager {
    var locationSetting: LocationSetting
    var trainFilter: TrainFilter
    var lineFilters: set<Line>
    var timeDisplay: TimeDisplay
    var stationLimit: StationLimit
    var stationSort: StationSort
    var displayPresumedTrains: bool
    var avoidMissingTrains: AvoidMissingTrains
    var commutingConfiguration: CommutingConfiguration
    var settings: AppSettings

    /** The persisters' current values, as one record. */
    function Persisted(): AppSettings
      reads this
    {
      AppSettings(locationSetting, trainFilter, lineFilters, timeDisplay, stationLimit,
                  stationSort, displayPresumedTrains, avoidMissingTrains, commutingConfiguration)
    }

    /** The aggregate mirrors every persisted setting. */
    ghost predicate Valid()
      reads this
    {
      settings == Persisted()
    }

    constructor (stored: StoredSettings, allLines: set<Line>, defaultCommuting: CommutingConfiguration)
      ensures Valid()
      ensures settings == InitialSettings(stored, allLines, defaultCommuting)
    {
      var s := InitialSettings(stored, allLines, defaultCommuting);
      locationSetting := s.locationSetting;
      trainFilter := s.trainFilter;
      lineFilters := s.lineFilters;
      timeDisplay := s.timeDisplay;
      stationLimit := s.stationLimit;
      stationSort := s.stationSort;
      displayPresumedTrains := s.displayPresumedTrains;
      avoidMissingTrains := s.avoidMissingTrains;
      commutingConfiguration := s.commutingConfiguration;
      settings := s;
    }

    /** Writes the location persister and lets its collector update the aggregate. */
    method SetLocationSetting(value: LocationSetting)
      requires Valid()
      modifies this
      ensures Valid()
      ensures settings == old(settings).(locationSetting := value)
    {
      locationSetting := value;
      settings := settings.(locationSetting := value);
    }

    /** The check launched at startup: the setting is switched off when the
        device cannot provide a location or the permission is missing. */
    method CheckLocationAtStartup(supported: bool, hasPermission: bool)
      requires Valid()
      modifies this
      ensures Valid()
      ensures settings == old(settings).(locationSetting :=
                NextLocationSetting(old(locationSetting), StartupChecked(supported, hasPermission)))
    {
      if !supported || !hasPermission {
        SetLocationSetting(LocationSetting.Disabled);
      }
    }

    /** Reacts to the result of a location-permission request. */
    method OnLocationPermissionResult(result: PermissionResult)
      requires Valid()
      modifies this
      ensures Valid()
      ensures settings == old(settings).(locationSetting :=
                NextLocationSetting(old(locationSetting), PermissionResulted(result)))
    {
      match result
      case Denied =>
        SetLocationSetting(LocationSetting.Disabled);
      case Granted =>
        if locationSetting == EnabledPendingPermission {
          SetLocationSetting(Enabled);
        }
    }

    /** The user's location toggle. Returns whether a permission request is
        issued, which happens exactly when the new setting is pending. */
    method UpdateLocationSetting(enabled: bool, hasPermission: bool) returns (requestsPermission: bool)
      requires Valid()
      modifies this
      ensures Valid()
      ensures settings == old(settings).(locationSetting := LocationSettingFor(enabled, hasPermission))
      ensures requestsPermission <==> locationSetting == EnabledPendingPermission
    {
      var setting := LocationSettingFor(enabled, hasPermission);
      SetLocationSetting(setting);
      requestsPermission := setting == EnabledPendingPermission;
    }

    method UpdateTrainFilter(value: TrainFilter)
      requires Valid()
      modifies this
      ensures Valid()
      ensures settings == old(settings).(trainFilter := value)
    {
      trainFilter := value;
      settings := settings.(trainFilter := value);
    }

    method UpdateLineFilters(value: set<Line>)
      requires Valid()
      modifies this
      ensures Valid()
      ensures settings == old(settings).(lineFilters := value)
    {
      lineFilters := value;
      settings := settings.(lineFilters := value);
    }

    method UpdateTimeDisplay(value: TimeDisplay)
      requires Valid()
      modifies this
      ensures Valid()
      ensures settings == old(settings).(timeDisplay := value)
    {
      timeDisplay := value;
      settings := settings.(timeDisplay := value);
    }

    method UpdateStationLimit(value: StationLimit)
      requires Valid()
      modifies this
      ensures Valid()
      ensures settings == old(settings).(stationLimit := value)
    {
      stationLimit := value;
      settings := settings.(stationLimit := value);
    }

    method UpdateStationSort(value: StationSort)
      requires Valid()
      modifies this
      ensures Valid()
      ensures settings == old(settings).(stationSort := value)
    {
      stationSort := value;
      settings := settings.(stationSort := value);
    }

    method UpdateDisplayPresumedTrains(value: bool)
      requires Valid()
      modifies this
      ensures Valid()
      ensures settings == old(settings).(displayPresumedTrains := value)
    {
      displayPresumedTrains := value;
      settings := settings.(displayPresumedTrains := value);
    }

    method UpdateAvoidMissingTrains(value: AvoidMissingTrains)
      requires Valid()
      modifies this
      ensures Valid()
      ensures settings == old(settings).(avoidMissingTrains := value)
    {
      avoidMissingTrains := value;
      settings := settings.(avoidMissingTrains := value);
    }

    method UpdateCommutingConfiguration(value: CommutingConfiguration)
      requires Valid()
      modifies this
      ensures Valid()
      ensures settings == old(settings).(commutingConfiguration := value)
    {
      commutingConfiguration := value;
      settings := settings.(commutingConfiguration := value);
    }
  }
}
