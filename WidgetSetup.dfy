/** The widget setup screen: its immutable state, the transitions each intent
    makes, the stored configuration that confirming writes, and the rebuilding
    of the station rows from a stored configuration. */
module WidgetSetup {
  import opened Wrappers
  import Api
  import Order = StationOrder

  /** Android's `AppWidgetManager.INVALID_APPWIDGET_ID`. */
  const InvalidAppWidgetId: int := 0

  /** One selectable station on the setup screen. */
  datatype StationRow = StationRow(id: string, displayName: string, checked: bool)

  datatype State = State(
    appWidgetId: int,
    useClosestStation: bool,
    sortOrder: Api.StationSort,
    filter: Api.TrainFilter,
    njStations: seq<StationRow>,
    nyStations: seq<StationRow>)

  /** `results` maps each requested permission to whether it was granted; a
      permission missing from it was not. */
  datatype Intent =
    | PermissionRequestComplete(results: map<string, bool>)
    | UseClosestStationToggled(checked: bool)
    | StationToggled(id: string, checked: bool)
    | SortOrderSelected(sortOrder: Api.StationSort)
    | TrainFilterSelected(filter: Api.TrainFilter)
    | ConfirmClicked

  datatype Effect =
    | LaunchLocationPermissionRequest(permissions: seq<string>)
    | CompleteConfigurationIntent(appWidgetId: int)

  /** The configuration stored for a widget; every field but the closest-station
      flag may be absent (null) in storage. */
  datatype StoredWidgetConfiguration = StoredWidgetConfiguration(
    fixedStations: Option<set<string>>,
    useClosestStation: bool,
    sortOrder: Option<Api.StationSort>,
    filter: Option<Api.TrainFilter>)

  // ---------------------------------------------------------------------------
  // Pieces of the transitions

  /** Whether any of the location permissions came back granted. */
  function AnyPermissionGranted(permissions: seq<string>, results: map<string, bool>): (r: bool)
    ensures r <==> exists i :: 0 <= i < |permissions| && permissions[i] in results && results[permissions[i]]
  {
    if permissions == [] then false
    else
      (permissions[0] in results && results[permissions[0]]) ||
      AnyPermissionGranted(permissions[1..], results)
  }

  /** Sets the checked flag of every row with the given id. */
  function ToggleRows(rows: seq<StationRow>, id: string, checked: bool): (r: seq<StationRow>)
    ensures |r| == |rows|
    ensures forall i :: 0 <= i < |rows| ==>
              r[i].id == rows[i].id && r[i].displayName == rows[i].displayName &&
              r[i].checked == (if rows[i].id == id then checked else rows[i].checked)
  {
    if rows == [] then []
    else
      var row := if rows[0].id == id then rows[0].(checked := checked) else rows[0];
      [row] + ToggleRows(rows[1..], id, checked)
  }

  /** The ids of the checked rows. */
  function CheckedIds(rows: seq<StationRow>): (r: seq<string>)
    ensures forall x :: x in r <==> exists i :: 0 <= i < |rows| && rows[i].checked && rows[i].id == x
  {
    if rows == [] then []
    else
      var rest := CheckedIds(rows[1..]);
      assert forall i :: 1 <= i < |rows| ==> rows[i] == rows[1..][i - 1];
      if rows[0].checked then [rows[0].id] + rest else rest
  }

  /** The set of elements of a sequence (Kotlin's `toSet`). */
  function ToSet(s: seq<string>): (r: set<string>)
    ensures forall x :: x in r <==> x in s
  {
    set x | x in s
  }

  // ---------------------------------------------------------------------------
  // Transitions

  /** The new state and the effect (if any) of one intent. `hasLocationPermission`
      is the device's permission state, `permissions` the location permissions
      the screen asks for. Confirming leaves the state as it is; what it stores
      is `ConfigurationFor`. */
  function Reduce(s: State, intent: Intent, hasLocationPermission: bool, permissions: seq<string>): (r: (State, Option<Effect>))
    ensures intent.PermissionRequestComplete? ==>
              r.1 == None &&
              r.0 == (if AnyPermissionGranted(permissions, intent.results) then s
                      else s.(useClosestStation := false))
    ensures intent.UseClosestStationToggled? ==>
              r.0 == s.(useClosestStation := intent.checked) &&
              (r.1 != None <==> intent.checked && !hasLocationPermission) &&
              (r.1 != None ==> r.1 == Some(LaunchLocationPermissionRequest(permissions)))
    ensures intent.StationToggled? ==>
              r.1 == None &&
              r.0 == s.(njStations := ToggleRows(s.njStations, intent.id, intent.checked),
                        nyStations := ToggleRows(s.nyStations, intent.id, intent.checked))
    ensures intent.SortOrderSelected? ==> r.1 == None && r.0 == s.(sortOrder := intent.sortOrder)
    ensures intent.TrainFilterSelected? ==> r.1 == None && r.0 == s.(filter := intent.filter)
    ensures intent.ConfirmClicked? ==> r == (s, Some(CompleteConfigurationIntent(s.appWidgetId)))
  {
    match intent
    case PermissionRequestComplete(results) =>
      var wasPermissionRejected := !AnyPermissionGranted(permissions, results);
      (if wasPermissionRejected then s.(useClosestStation := false) else s, None)
    case UseClosestStationToggled(checked) =>
      (s.(useClosestStation := checked),
       if checked && !hasLocationPermission then Some(LaunchLocationPermissionRequest(permissions)) else None)
    case StationToggled(id, checked) =>
      (s.(njStations := ToggleRows(s.njStations, id, checked),
          nyStations := ToggleRows(s.nyStations, id, checked)), None)
    case SortOrderSelected(sortOrder) =>
      (s.(sortOrder := sortOrder), None)
    case TrainFilterSelected(filter) =>
      (s.(filter := filter), None)
    case ConfirmClicked =>
      (s, Some(CompleteConfigurationIntent(s.appWidgetId)))
  }

  /** The configuration that confirming stores: the ids of the checked rows of
      both lists, and the other choices as they are. */
  function ConfigurationFor(s: State): (r: StoredWidgetConfiguration)
    ensures r.fixedStations.Some?
    ensures forall x :: x in r.fixedStations.value <==>
              (exists i :: 0 <= i < |s.njStations| && s.njStations[i].checked && s.njStations[i].id == x) ||
              (exists i :: 0 <= i < |s.nyStations| && s.nyStations[i].checked && s.nyStations[i].id == x)
    ensures r.useClosestStation == s.useClosestStation
    ensures r.sortOrder == Some(s.sortOrder) && r.filter == Some(s.filter)
  {
    var selectedStations := CheckedIds(s.njStations) + CheckedIds(s.nyStations);
    StoredWidgetConfiguration(Some(ToSet(selectedStations)), s.useClosestStation,
                              Some(s.sortOrder), Some(s.filter))
  }

  // ---------------------------------------------------------------------------
  // Rebuilding the rows from a stored configuration

  /** The stations of the table that lie in `state`. */
  function StationsIn(stations: seq<Api.Station>, state: Api.State): (r: seq<Api.Station>)
    ensures forall x :: multiset(r)[x] == if x.state == state then multiset(stations)[x] else 0
  {
    if stations == [] then []
    else
      var rest := StationsIn(stations[1..], state);
      assert stations == [stations[0]] + stations[1..];
      if stations[0].state == state then [stations[0]] + rest else rest
  }

  /** A one-station table keeps its station exactly when it lies in `state`. */
  lemma StationsInSingle(x: Api.Station, state: Api.State)
    ensures StationsIn([x], state) == if x.state == state then [x] else []
  {
    assert [x][1..] == [];
  }

  /** Filtering keeps table order: the stations kept from a concatenation are
      those kept from the first part followed by those kept from the second. */
  lemma {:induction false} StationsInKeepsOrder(a: seq<Api.Station>, b: seq<Api.Station>, state: Api.State)
    ensures StationsIn(a + b, state) == StationsIn(a, state) + StationsIn(b, state)
  {
    if a == [] {
      assert a + b == b;
    } else {
      assert (a + b)[1..] == a[1..] + b;
      StationsInKeepsOrder(a[1..], b, state);
    }
  }

  /** The stations of `state`, ordered by display name. */
  function SortedStationsIn(stations: seq<Api.Station>, state: Api.State): (r: seq<Api.Station>)
  {
    Order.SortByDisplayName(StationsIn(stations, state))
  }

  /** One row per station, checked exactly when its id was selected. */
  function RowsFor(sorted: seq<Api.Station>, selected: set<string>): (r: seq<StationRow>)
    ensures |r| == |sorted|
    ensures forall i :: 0 <= i < |sorted| ==>
              r[i].id == sorted[i].pathApiName && r[i].displayName == sorted[i].displayName &&
              (r[i].checked <==> sorted[i].pathApiName in selected)
  {
    seq(|sorted|, i requires 0 <= i < |sorted| =>
      StationRow(sorted[i].pathApiName, sorted[i].displayName, sorted[i].pathApiName in selected))
  }

  /** The state after a stored configuration is loaded: absent choices take
      their defaults, and both row lists are rebuilt from the station table. */
  function WithStoredConfiguration(s: State, stored: StoredWidgetConfiguration, stations: seq<Api.Station>): (r: State)
    ensures r.appWidgetId == s.appWidgetId
    ensures r.useClosestStation == stored.useClosestStation
    ensures r.sortOrder == (if stored.sortOrder.Some? then stored.sortOrder.value else Api.Alphabetical)
    ensures r.filter == (if stored.filter.Some? then stored.filter.value else Api.All)
    ensures RowsMatch(r.njStations, SortedStationsIn(stations, Api.NewJersey))
    ensures RowsMatch(r.nyStations, SortedStationsIn(stations, Api.NewYork))
    ensures forall i :: 0 <= i < |r.njStations| ==>
              (r.njStations[i].checked <==> stored.fixedStations.Some? && r.njStations[i].id in stored.fixedStations.value)
    ensures forall i :: 0 <= i < |r.nyStations| ==>
              (r.nyStations[i].checked <==> stored.fixedStations.Some? && r.nyStations[i].id in stored.fixedStations.value)
  {
    LoadedState(s, stored, SortedStationsIn(stations, Api.NewJersey), SortedStationsIn(stations, Api.NewYork))
  }

  /** The state after loading `stored`, with rows built from the station lists
      `nj` and `ny`. */
  function LoadedState(s: State, stored: StoredWidgetConfiguration, nj: seq<Api.Station>, ny: seq<Api.Station>): (r: State)
    ensures r.appWidgetId == s.appWidgetId
    ensures r.useClosestStation == stored.useClosestStation
    ensures r.sortOrder == (if stored.sortOrder.Some? then stored.sortOrder.value else Api.Alphabetical)
    ensures r.filter == (if stored.filter.Some? then stored.filter.value else Api.All)
    ensures RowsMatch(r.njStations, nj) && RowsMatch(r.nyStations, ny)
    ensures forall i :: 0 <= i < |r.njStations| ==>
              (r.njStations[i].checked <==> stored.fixedStations.Some? && r.njStations[i].id in stored.fixedStations.value)
    ensures forall i :: 0 <= i < |r.nyStations| ==>
              (r.nyStations[i].checked <==> stored.fixedStations.Some? && r.nyStations[i].id in stored.fixedStations.value)
  {
    var selectedStations := stored.fixedStations.GetOr({});
    s.(useClosestStation := stored.useClosestStation,
       sortOrder := stored.sortOrder.GetOr(Api.Alphabetical),
       filter := stored.filter.GetOr(Api.All),
       njStations := RowsFor(nj, selectedStations),
       nyStations := RowsFor(ny, selectedStations))
  }

  /** The rows list exactly the given stations, in that order. */
  ghost predicate RowsMatch(rows: seq<StationRow>, sorted: seq<Api.Station>)
  {
    |rows| == |sorted| &&
    forall i :: 0 <= i < |rows| ==>
      rows[i].id == sorted[i].pathApiName && rows[i].displayName == sorted[i].displayName
  }

  /** No two stations of the table share an API name. */
  ghost predicate UniqueIds(stations: seq<Api.Station>)
  {
    forall i, j :: 0 <= i < j < |stations| ==> stations[i].pathApiName != stations[j].pathApiName
  }

  // ---------------------------------------------------------------------------
  // Properties

  /** The rows of each state list exactly that state's stations of the table,
      each as often as the table does, sorted by display name. */
  lemma SortedStationsInAreThatState(stations: seq<Api.Station>, state: Api.State)
    ensures Order.SortedByDisplayName(SortedStationsIn(stations, state))
    ensures forall x :: multiset(SortedStationsIn(stations, state))[x] ==
                        if x.state == state then multiset(stations)[x] else 0
  {
  }

  /** Toggling a station keeps every row where it was, with its id and name. */
  lemma ToggleKeepsRowsMatching(s: State, id: string, checked: bool, nj: seq<Api.Station>, ny: seq<Api.Station>,
                                hasLocationPermission: bool, permissions: seq<string>)
    requires RowsMatch(s.njStations, nj) && RowsMatch(s.nyStations, ny)
    ensures var t := Reduce(s, StationToggled(id, checked), hasLocationPermission, permissions).0;
            RowsMatch(t.njStations, nj) && RowsMatch(t.nyStations, ny)
  {
  }

  /** After a listed station is toggled, confirming stores its id exactly when
      it was toggled on. */
  lemma ToggleThenConfirm(s: State, id: string, checked: bool, hasLocationPermission: bool, permissions: seq<string>)
    requires (exists i :: 0 <= i < |s.njStations| && s.njStations[i].id == id) ||
             (exists i :: 0 <= i < |s.nyStations| && s.nyStations[i].id == id)
    ensures var t := Reduce(s, StationToggled(id, checked), hasLocationPermission, permissions).0;
            id in ConfigurationFor(t).fixedStations.value <==> checked
  {
    var t := Reduce(s, StationToggled(id, checked), hasLocationPermission, permissions).0;
    if checked {
      if exists i :: 0 <= i < |s.njStations| && s.njStations[i].id == id {
        var i :| 0 <= i < |s.njStations| && s.njStations[i].id == id;
        assert t.njStations[i].checked && t.njStations[i].id == id;
      } else {
        var i :| 0 <= i < |s.nyStations| && s.nyStations[i].id == id;
        assert t.nyStations[i].checked && t.nyStations[i].id == id;
      }
    }
  }

  /** A station of a table with unique ids appears once in its state's list. */
  lemma {:induction false} SortedStationsInUnique(stations: seq<Api.Station>, state: Api.State)
    requires UniqueIds(stations)
    ensures UniqueIds(SortedStationsIn(stations, state))
  {
    var filtered := StationsIn(stations, state);
    var sorted := SortedStationsIn(stations, state);
    forall i, j | 0 <= i < j < |sorted|
      ensures sorted[i].pathApiName != sorted[j].pathApiName
    {
      var a, b := sorted[i], sorted[j];
      assert a in multiset(sorted) && b in multiset(sorted);
      assert a in multiset(filtered) && b in multiset(filtered);
      assert a in multiset(stations) && b in multiset(stations);
      if a == b {
        DuplicateCounted(sorted, i, j);
        assert multiset(stations)[a] >= 2;
        var k :| 0 <= k < |stations| && stations[k] == a;
        CountedTwiceHasOtherIndex(stations, k);
      } else {
        var k :| 0 <= k < |stations| && stations[k] == a;
        var l :| 0 <= l < |stations| && stations[l] == b;
        assert k != l && stations[k].pathApiName != stations[l].pathApiName;
      }
    }
  }

  /** Two positions holding the same value make it counted at least twice. */
  lemma DuplicateCounted<T>(s: seq<T>, i: int, j: int)
    requires 0 <= i < j < |s| && s[i] == s[j]
    ensures multiset(s)[s[i]] >= 2
  {
    assert s == s[..j] + [s[j]] + s[j + 1..];
    assert s[i] in multiset(s[..j]) by { assert s[..j][i] == s[i]; }
  }

  /** A value counted twice sits at some position other than a given one of its. */
  lemma CountedTwiceHasOtherIndex(s: seq<Api.Station>, k: int)
    requires 0 <= k < |s| && multiset(s)[s[k]] >= 2
    ensures exists l :: 0 <= l < |s| && l != k && s[l] == s[k]
  {
    assert s == s[..k] + [s[k]] + s[k + 1..];
    assert multiset(s[..k] + s[k + 1..])[s[k]] >= 1;
    assert s[k] in s[..k] + s[k + 1..];
    var m :| 0 <= m < |s[..k] + s[k + 1..]| && (s[..k] + s[k + 1..])[m] == s[k];
    if m < k {
      assert s[m] == s[k];
    } else {
      assert s[m + 1] == s[k];
    }
  }

  /** Every station of a state's sorted list is a station of the table in that
      state. */
  lemma SortedMember(stations: seq<Api.Station>, state: Api.State, i: int)
    requires 0 <= i < |SortedStationsIn(stations, state)|
    ensures SortedStationsIn(stations, state)[i] in stations
    ensures SortedStationsIn(stations, state)[i].state == state
  {
    var x := SortedStationsIn(stations, state)[i];
    assert x in multiset(SortedStationsIn(stations, state));
  }

  /** Stations of a table with unique ids that lie in different states have
      different ids. */
  lemma DifferentStatesDifferentIds(stations: seq<Api.Station>, a: Api.Station, b: Api.Station)
    requires UniqueIds(stations)
    requires a in stations && b in stations && a.state != b.state
    ensures a.pathApiName != b.pathApiName
  {
    var k :| 0 <= k < |stations| && stations[k] == a;
    var l :| 0 <= l < |stations| && stations[l] == b;
    assert k != l && stations[k].pathApiName != stations[l].pathApiName;
  }

  /** With unique ids no id is listed under both states. */
  lemma TableStatesShareNoId(stations: seq<Api.Station>)
    requires UniqueIds(stations)
    ensures NoSharedIds(SortedStationsIn(stations, Api.NewJersey), SortedStationsIn(stations, Api.NewYork))
  {
    var nj, ny := SortedStationsIn(stations, Api.NewJersey), SortedStationsIn(stations, Api.NewYork);
    forall i, j | 0 <= i < |nj| && 0 <= j < |ny|
      ensures nj[i].pathApiName != ny[j].pathApiName
    {
      SortedMember(stations, Api.NewJersey, i);
      SortedMember(stations, Api.NewYork, j);
      DifferentStatesDifferentIds(stations, nj[i], ny[j]);
    }
  }

  /** No id occurs in both station lists. */
  ghost predicate NoSharedIds(a: seq<Api.Station>, b: seq<Api.Station>)
  {
    forall i, j :: 0 <= i < |a| && 0 <= j < |b| ==> a[i].pathApiName != b[j].pathApiName
  }

  /** Rebuilding a list's rows from the confirmed ids gives back those rows,
      provided the list has unique ids that the other list does not share. */
  lemma RowsRestored(rows: seq<StationRow>, other: seq<StationRow>,
                     sorted: seq<Api.Station>, otherSorted: seq<Api.Station>, fixed: set<string>)
    requires RowsMatch(rows, sorted) && RowsMatch(other, otherSorted)
    requires UniqueIds(sorted) && NoSharedIds(sorted, otherSorted)
    requires forall x :: x in fixed <==>
               (exists k :: 0 <= k < |rows| && rows[k].checked && rows[k].id == x) ||
               (exists k :: 0 <= k < |other| && other[k].checked && other[k].id == x)
    ensures RowsFor(sorted, fixed) == rows
  {
    var r := RowsFor(sorted, fixed);
    forall i | 0 <= i < |rows|
      ensures r[i] == rows[i]
    {
      if rows[i].checked {
        assert rows[i].id in fixed;
      }
    }
  }

  /** Loading the configuration stored by confirming `s`, into any state for the
      same widget, gives back `s`, when its rows list stations with unique ids
      and no id in both lists. */
  lemma ConfirmThenLoadRestoresState(s: State, base: State, nj: seq<Api.Station>, ny: seq<Api.Station>)
    requires base.appWidgetId == s.appWidgetId
    requires UniqueIds(nj) && UniqueIds(ny) && NoSharedIds(nj, ny)
    requires RowsMatch(s.njStations, nj) && RowsMatch(s.nyStations, ny)
    ensures LoadedState(base, ConfigurationFor(s), nj, ny) == s
  {
    var fixed := ConfigurationFor(s).fixedStations.value;
    RowsRestored(s.njStations, s.nyStations, nj, ny, fixed);
    RowsRestored(s.nyStations, s.njStations, ny, nj, fixed);
  }

  /** The same round trip for rows built from a station table with unique ids. */
  lemma ConfirmThenLoadFromTable(s: State, base: State, stations: seq<Api.Station>)
    requires base.appWidgetId == s.appWidgetId
    requires UniqueIds(stations)
    requires RowsMatch(s.njStations, SortedStationsIn(stations, Api.NewJersey))
    requires RowsMatch(s.nyStations, SortedStationsIn(stations, Api.NewYork))
    ensures WithStoredConfiguration(base, ConfigurationFor(s), stations) == s
  {
    var nj, ny := SortedStationsIn(stations, Api.NewJersey), SortedStationsIn(stations, Api.NewYork);
    SortedStationsInUnique(stations, Api.NewJersey);
    SortedStationsInUnique(stations, Api.NewYork);
    TableStatesShareNoId(stations);
    ConfirmThenLoadRestoresState(s, base, nj, ny);
  }
}
