/** The widget setup view model: it owns the screen state, sends effects on a
    channel and reads and writes the per-widget stored configuration. The
    Glance id lookup is taken to be the identity, so stored configurations are
    kept by app-widget id; a lookup that fails is the same as a widget with no
    stored configuration. */
module SetupViewModel {
  import opened Wrappers
  import Api
  import opened WidgetSetup

  /** The collector started at construction: it watches the state's widget id,
      skips the invalid id and repeats of the last id it saw, and loads the
      stored configuration of each new id. Returns the new state and the last id
      seen. */
  function Collect(s: State, lastCollected: Option<int>,
                   configurations: map<int, StoredWidgetConfiguration>,
                   stations: seq<Api.Station>): (r: (State, Option<int>))
    ensures s.appWidgetId == InvalidAppWidgetId || lastCollected == Some(s.appWidgetId) ==>
              r == (s, lastCollected)
    ensures s.appWidgetId != InvalidAppWidgetId && lastCollected != Some(s.appWidgetId) ==>
              r.1 == Some(s.appWidgetId) &&
              r.0 == (if s.appWidgetId in configurations
                      then WithStoredConfiguration(s, configurations[s.appWidgetId], stations)
                      else s)
    ensures r.0.appWidgetId == s.appWidgetId
  {
    var id := s.appWidgetId;
    if id == InvalidAppWidgetId || lastCollected == Some(id) then (s, lastCollected)
    else if id in configurations then (WithStoredConfiguration(s, configurations[id], stations), Some(id))
    else (s, Some(id))
  }

  class WidgetSetupViewModel {
    var state: State
    /** Every effect sent so far, oldest first. */
    var effects: seq<Effect>
    /** The stored configuration of each widget. */
    var configurations: map<int, StoredWidgetConfiguration>
    /** The last valid widget id the collector saw. */
    var lastCollected: Option<int>
    /** The station table. */
    const stations: seq<Api.Station>
    /** The location permissions the screen requests. */
    const locationPermissions: seq<string>

    /** The collector has seen the current widget id, unless it is the invalid
        one; so an intent, which keeps the id, needs no new load. */
    ghost predicate Valid()
      reads this
    {
      state.appWidgetId == InvalidAppWidgetId || lastCollected == Some(state.appWidgetId)
    }

    constructor (initial: State, stations: seq<Api.Station>, locationPermissions: seq<string>,
                 configurations: map<int, StoredWidgetConfiguration>)
      ensures this.stations == stations && this.locationPermissions == locationPermissions
      ensures this.configurations == configurations && effects == []
      ensures (state, lastCollected) == Collect(initial, None, configurations, stations)
      ensures Valid()
    {
      this.stations := stations;
      this.locationPermissions := locationPermissions;
      this.configurations := configurations;
      effects := [];
      var next := Collect(initial, None, configurations, stations);
      state, lastCollected := next.0, next.1;
    }

    /** Sets the widget being configured; the collector then loads its stored
        configuration if the id is new. */
    method SetAppWidgetId(appWidgetId: int)
      modifies this
      ensures effects == old(effects) && configurations == old(configurations)
      ensures (state, lastCollected) ==
              Collect(old(state).(appWidgetId := appWidgetId), old(lastCollected), configurations, stations)
      ensures Valid()
    {
      state := state.(appWidgetId := appWidgetId);
      var next := Collect(state, lastCollected, configurations, stations);
      state, lastCollected := next.0, next.1;
    }

    /** Handles one intent; `hasLocationPermission` is the device's permission
        state. Confirming stores the configuration for the current widget. */
    method OnIntent(intent: Intent, hasLocationPermission: bool)
      requires Valid()
      modifies this
      ensures Valid()
      ensures lastCollected == old(lastCollected)
      ensures state == Reduce(old(state), intent, hasLocationPermission, locationPermissions).0
      ensures var effect := Reduce(old(state), intent, hasLocationPermission, locationPermissions).1;
              effects == old(effects) + (if effect.Some? then [effect.value] else [])
      ensures configurations ==
              if intent.ConfirmClicked?
              then old(configurations)[old(state).appWidgetId := ConfigurationFor(old(state))]
              else old(configurations)
    {
      var next := Reduce(state, intent, hasLocationPermission, locationPermissions);
      if intent.ConfirmClicked? {
        configurations := configurations[state.appWidgetId := ConfigurationFor(state)];
      }
      state := next.0;
      if next.1.Some? {
        effects := effects + [next.1.value];
      }
    }
  }

  /** Confirming a widget's setup and opening the setup screen for that widget
      again shows the choices that were confirmed, when the rows came from a
      station table with unique ids. */
  method ReopenAfterConfirm(vm: WidgetSetupViewModel, blank: State) returns (reopened: WidgetSetupViewModel)
    requires vm.Valid() && vm.state.appWidgetId != InvalidAppWidgetId
    requires UniqueIds(vm.stations)
    requires RowsMatch(vm.state.njStations, SortedStationsIn(vm.stations, Api.NewJersey))
    requires RowsMatch(vm.state.nyStations, SortedStationsIn(vm.stations, Api.NewYork))
    requires blank.appWidgetId == InvalidAppWidgetId
    modifies vm
    ensures fresh(reopened)
    ensures reopened.state == old(vm.state)
    ensures vm.effects == old(vm.effects) + [CompleteConfigurationIntent(old(vm.state).appWidgetId)]
  {
    var confirmed := vm.state;
    vm.OnIntent(ConfirmClicked, false);
    reopened := new WidgetSetupViewModel(blank, vm.stations, vm.locationPermissions, vm.configurations);
    reopened.SetAppWidgetId(confirmed.appWidgetId);
    ConfirmThenLoadFromTable(confirmed, blank.(appWidgetId := confirmed.appWidgetId), vm.stations);
  }
}
