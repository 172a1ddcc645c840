/** Small shared vocabulary: the Option wrapper for Kotlin's nullable values. */
module Wrappers {
  datatype Option<+T> = None | Some(value: T) {
    /** Kotlin's elvis operator `this ?: default`. */
    function GetOr(default: T): (r: T)
      ensures Some? ==> r == value
      ensures None? ==> r == default
    {
      match this
      case Some(v) => v
      case None => default
    }
  }
}

/** The app's shared API entities: stations, their geographic state, and the enums
    that settings and widgets store. */
module Api {
  import opened Wrappers

  /** Kotlin's 32-bit `Int`. */
  newtype Int32 = x: int | -0x8000_0000 <= x < 0x8000_0000

  /** The geographic state a PATH station lies in. */
  datatype State = NewJersey | NewYork

  /** A station of the static station table: its API identifier, the name shown
      to riders and its state. */
  datatype Station = Station(pathApiName: string, displayName: string, state: State)

  /** Order in which stations are listed; each entry is persisted by its number. */
  datatype StationSort = Alphabetical | NjAm | NyAm {
    function Number(): (n: int)
      ensures this == Alphabetical <==> n == 1
      ensures this == NjAm <==> n == 2
      ensures this == NyAm <==> n == 3
    {
      match this
      case Alphabetical => 1
      case NjAm => 2
      case NyAm => 3
    }
  }

  /** Which trains the departure board shows. */
  datatype TrainFilter = All | Interstate

  /** The user's choice about location-based station ordering. */
  datatype LocationSetting = Enabled | EnabledPendingPermission | Disabled

  /** Where a backfilled train's arrival estimate came from. Instants are
      nanoseconds since the epoch. */
  datatype BackfillSource = BackfillSource(station: Station, projectedArrival: int)

  /** Distinct sort orders get distinct persistence numbers, so a stored number
      decodes to at most one sort order. */
  lemma StationSortNumberInjective(a: StationSort, b: StationSort)
    requires a.Number() == b.Number()
    ensures a == b
  {
  }
}
