/** The data a home-screen widget renders: per-train predicates and the stable
    numeric id of a station row. Instants are integer nanoseconds since the epoch. */
module WidgetData {
  import opened Wrappers
  import opened Api

  /** One minute, in nanoseconds. */
  const OneMinute: int := 60 * 1_000_000_000

  /** A display colour, as the stored ARGB value. */
  datatype ColorWrapper = ColorWrapper(argb: int)

  datatype TrainData = TrainData(
    id: string,
    title: string,
    colors: seq<ColorWrapper>,
    projectedArrival: int,
    isDelayed: bool,
    backfillSource: Option<BackfillSource>)
  {
    /** A train counts as gone once more than a minute has passed since its
        projected arrival; at exactly one minute it is still shown. */
    predicate IsPast(now: int)
      ensures IsPast(now) <==> now - projectedArrival > OneMinute
    {
      projectedArrival < now - OneMinute
    }

    /** The entry was synthesised from another station's observation. */
    predicate IsBackfilled()
      ensures IsBackfilled() <==> exists s :: backfillSource == Some(s)
    {
      backfillSource != None
    }
  }

  datatype SignData = SignData(title: string, colors: seq<ColorWrapper>, projectedArrivals: seq<int>)

  datatype StationData = StationData(
    id: string,
    displayName: string,
    signs: seq<SignData>,
    trains: seq<TrainData>,
    state: State)

  /** Kotlin's `indexOfFirst { it.pathApiName == id }`: the first index whose
      station has that API name, or -1 when none has. */
  function IndexOfFirst(stations: seq<Station>, id: string): (r: int)
    ensures -1 <= r < |stations|
    ensures r == -1 <==> forall i :: 0 <= i < |stations| ==> stations[i].pathApiName != id
    ensures r != -1 ==> stations[r].pathApiName == id
    ensures r != -1 ==> forall i :: 0 <= i < r ==> stations[i].pathApiName != id
  {
    if stations == [] then -1
    else if stations[0].pathApiName == id then 0
    else
      var k := IndexOfFirst(stations[1..], id);
      if k == -1 then -1 else k + 1
  }

  /** The row id of a station: its index in the station table `stations`, or,
      for an id the table does not list, the id's 32-bit hash code plus ten.
      `hashCode` stands for Kotlin's `String.hashCode`. */
  function LongId(station: StationData, stations: seq<Station>, hashCode: string -> Int32): (r: int)
    ensures (exists i :: 0 <= i < |stations| && stations[i].pathApiName == station.id) ==>
              0 <= r < |stations| && stations[r].pathApiName == station.id &&
              forall i :: 0 <= i < r ==> stations[i].pathApiName != station.id
    ensures (forall i :: 0 <= i < |stations| ==> stations[i].pathApiName != station.id) ==>
              r == hashCode(station.id) as int + 10
  {
    var index := IndexOfFirst(stations, station.id);
    if index != -1 then index else hashCode(station.id) as int + 10
  }

  /** Once a train is past, it stays past as time goes on. */
  lemma IsPastMonotone(train: TrainData, now: int, later: int)
    requires train.IsPast(now) && now <= later
    ensures train.IsPast(later)
  {
  }

  /** A train that has not yet arrived is never past. */
  lemma NotYetArrivedIsNotPast(train: TrainData, now: int)
    requires train.projectedArrival >= now
    ensures !train.IsPast(now)
  {
  }

  /** Stations listed in the table get pairwise distinct row ids. */
  lemma LongIdDistinctForListedStations(a: StationData, b: StationData, stations: seq<Station>, hashCode: string -> Int32)
    requires exists i :: 0 <= i < |stations| && stations[i].pathApiName == a.id
    requires exists i :: 0 <= i < |stations| && stations[i].pathApiName == b.id
    requires a.id != b.id
    ensures LongId(a, stations, hashCode) != LongId(b, stations, hashCode)
  {
  }
}
