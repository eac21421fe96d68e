/** The location wrapper of the geo package: a possibly-null Android Location
    together with two provider flags, and the heuristic that picks the better
    of two fixes. Accuracies are whole metres, times epoch milliseconds. */
module LocationDV {
  import opened Wrappers

  const FIFTEEN_MINUTES: int := 15 * 60 * 1000
  const TWO_HUNDRED_METERS: int := 200

  /** The provider names of the Android LocationManager. */
  const GPS_PROVIDER: string := "gps"
  const NETWORK_PROVIDER: string := "network"

  /** An Android Location reading. `accuracy` is None when the reading has
      no accuracy; `provider` is None when the provider name is null. */
  datatype Location = Location(time: int, accuracy: Option<nat>, provider: Option<string>)
  {
    /** Location.getAccuracy(): a reading without accuracy reports 0. */
    function Accuracy(): nat {
      if accuracy.Some? then accuracy.value else 0
    }
  }

  datatype ProviderDV = GpsProvider | NetworkProvider | UnknownProvider | NullProvider

  /** The wrapper: the wrapped reading (None for a null location) and the
      two flags set once when the wrapper is built. */
  datatype LocationDV = LocationDV(location: Option<Location>, isNetworkProvider: bool, isGpsProvider: bool)

  /** InValidLocationDVException. */
  datatype InvalidLocationDV = InvalidLocationDV

  /** Which of the two operands of compareTo is returned. */
  datatype Pick = This | Argument

  /** hasValidLocation: a location is wrapped, which is exactly when
      provider() is not NULL. */
  predicate HasValidLocation(dv: LocationDV): (r: bool)
    ensures r <==> Provider(dv) != NullProvider
  {
    dv.location.Some?
  }

  /** The provider a reading's name stands for, stated on the name alone. */
  function ProviderOfName(name: Option<string>): ProviderDV {
    match name
    case Some(n) =>
      if n == NETWORK_PROVIDER then NetworkProvider
      else if n == GPS_PROVIDER then GpsProvider
      else UnknownProvider
    case None => UnknownProvider
  }

  /** provider(): NULL without a location, otherwise the network flag wins
      over the GPS flag. */
  function Provider(dv: LocationDV): (r: ProviderDV)
    ensures r == NullProvider <==> dv.location.None?
    ensures r == NetworkProvider <==> dv.location.Some? && dv.isNetworkProvider
    ensures r == GpsProvider <==> dv.location.Some? && !dv.isNetworkProvider && dv.isGpsProvider
    ensures r == UnknownProvider <==> dv.location.Some? && !dv.isNetworkProvider && !dv.isGpsProvider
  {
    if dv.location.Some? then
      if dv.isNetworkProvider then NetworkProvider
      else if dv.isGpsProvider then GpsProvider
      else UnknownProvider
    else NullProvider
  }

  /** valueOf: a null location is rejected; otherwise the flags record
      whether the reading's provider name is "gps" or "network". */
  function ValueOf(location: Option<Location>): (r: Result<LocationDV, InvalidLocationDV>)
    ensures r.Failure? <==> location.None?
    ensures r.Success? ==> r.value.location == location && HasValidLocation(r.value)
    ensures r.Success? ==> Provider(r.value) == ProviderOfName(location.value.provider)
    ensures r.Success? ==> Provider(r.value) != NullProvider
  {
    match location
    case None => Failure(InvalidLocationDV)
    case Some(loc) =>
      Success(LocationDV(location,
                         isNetworkProvider := loc.provider == Some(NETWORK_PROVIDER),
                         isGpsProvider := loc.provider == Some(GPS_PROVIDER)))
  }

  /** getAccuracy: fails without a location, 0 for a reading without accuracy. */
  function GetAccuracy(dv: LocationDV): (r: Result<nat, InvalidLocationDV>)
    ensures r.Failure? <==> dv.location.None?
    ensures r.Success? && dv.location.value.accuracy.None? ==> r.value == 0
    ensures r.Success? && dv.location.value.accuracy.Some? ==> r.value == dv.location.value.accuracy.value
  {
    if dv.location.None? then Failure(InvalidLocationDV) else Success(dv.location.value.Accuracy())
  }

  /** isNetworkProvider(): fails without a location. */
  function IsNetworkProvider(dv: LocationDV): (r: Result<bool, InvalidLocationDV>)
    ensures r.Failure? <==> dv.location.None?
    ensures r.Success? ==> (r.value <==> Provider(dv) == NetworkProvider)
  {
    if dv.location.None? then Failure(InvalidLocationDV) else Success(dv.isNetworkProvider)
  }

  /** isGPSProvider(): fails without a location. */
  function IsGpsProvider(dv: LocationDV): (r: Result<bool, InvalidLocationDV>)
    ensures r.Failure? <==> dv.location.None?
    ensures r.Success? && !dv.isNetworkProvider ==> (r.value <==> Provider(dv) == GpsProvider)
  {
    if dv.location.None? then Failure(InvalidLocationDV) else Success(dv.isGpsProvider)
  }

  /** isSameProvider: two null names are the same provider, a null and a
      non-null name are not, two names are compared with equals. */
  function IsSameProvider(p1: Option<string>, p2: Option<string>): (r: bool)
    ensures r <==> p1 == p2
  {
    if p1.None? then p2.None? else p2.Some? && p1.value == p2.value
  }

  /** The decision of compareTo. `this` is the first argument. The accuracy
      difference is the Java cast of a float difference to int; on whole
      metres it is exact. */
  function Better(self: LocationDV, other: LocationDV): (r: Pick)
    // null locations are discarded
    ensures self.location.None? ==> r == Argument
    ensures self.location.Some? && other.location.None? ==> r == This
    // the freshness window decides alone outside fifteen minutes
    ensures self.location.Some? && other.location.Some? ==>
      var dt := self.location.value.time - other.location.value.time;
      (dt > FIFTEEN_MINUTES ==> r == This) && (dt < -FIFTEEN_MINUTES ==> r == Argument)
    // inside the window: accuracy first, then a newer fix may win
    ensures self.location.Some? && other.location.Some? ==>
      var dt := self.location.value.time - other.location.value.time;
      var da := self.location.value.Accuracy() - other.location.value.Accuracy();
      -FIFTEEN_MINUTES <= dt <= FIFTEEN_MINUTES ==>
        && (da < 0 ==> r == This)
        && (dt > 0 && da == 0 ==> r == This)
        && (dt > 0 && 0 < da <= TWO_HUNDRED_METERS ==>
              (r == This <==> self.location.value.provider == other.location.value.provider))
        && (dt > 0 && da > TWO_HUNDRED_METERS ==> r == Argument)
        && (dt <= 0 && da >= 0 ==> r == Argument)
  {
    if self.location.None? then Argument
    else if other.location.None? then This
    else
      var loc1, loc2 := self.location.value, other.location.value;
      var timeDelta := loc1.time - loc2.time;
      var isSignificantlyNewer := timeDelta > FIFTEEN_MINUTES;
      var isSignificantlyOlder := timeDelta < -FIFTEEN_MINUTES;
      var isNewer := timeDelta > 0;
      if isSignificantlyNewer then This
      else if isSignificantlyOlder then Argument
      else
        var accuracyDelta := loc1.Accuracy() - loc2.Accuracy();
        var isLessAccurate := accuracyDelta > 0;
        var isMoreAccurate := accuracyDelta < 0;
        var isSignificantlyLessAccurate := accuracyDelta > TWO_HUNDRED_METERS;
        var isFromSameProvider := IsSameProvider(loc1.provider, loc2.provider);
        if isMoreAccurate then This
        else if isNewer && !isLessAccurate then This
        else if isNewer && !isSignificantlyLessAccurate && isFromSameProvider then This
        else Argument
  }

  /** compareTo: returns whichever operand Better picks. */
  function CompareTo(self: LocationDV, other: LocationDV): (r: LocationDV)
    ensures r == self || r == other
    ensures self.location.None? ==> r == other
    ensures self.location.Some? && other.location.None? ==> r == self
    ensures HasValidLocation(self) || HasValidLocation(other) ==> HasValidLocation(r)
  {
    if Better(self, other) == This then self else other
  }

  /** Equal times and equal accuracies: the argument is kept. */
  lemma TiesFavourArgument(a: LocationDV, b: LocationDV)
    requires a.location.Some? && b.location.Some?
    requires a.location.value.time == b.location.value.time
    requires a.location.value.Accuracy() == b.location.value.Accuracy()
    ensures Better(a, b) == Argument && Better(b, a) == Argument
  {
  }

  /** A fix compared with itself is itself. */
  lemma CompareToSelf(a: LocationDV)
    ensures CompareTo(a, a) == a
  {
  }

  /** The heuristic is no ranking: three fixes from one provider inside the
      window where each beats the next and the last beats the first. Folding
      it over a stream therefore depends on arrival order. */
  lemma NotTransitive()
    ensures
      var a := LocationDV(Some(Location(2000, Some(300), Some(GPS_PROVIDER))), false, true);
      var b := LocationDV(Some(Location(1000, Some(200), Some(GPS_PROVIDER))), false, true);
      var c := LocationDV(Some(Location(0, Some(100), Some(GPS_PROVIDER))), false, true);
      Better(a, b) == This && Better(b, c) == This && Better(c, a) == This
  {
  }

  /** Whichever of two fixes is the receiver wins: inside the window, a
      newer fix from the same provider that is at most 200 m less accurate
      beats the older one, and the older one, being more accurate, beats it
      back. */
  lemma ReceiverCanAlwaysWin(a: LocationDV, b: LocationDV)
    requires a.location.Some? && b.location.Some?
    requires 0 < a.location.value.time - b.location.value.time <= FIFTEEN_MINUTES
    requires 0 < a.location.value.Accuracy() - b.location.value.Accuracy() <= TWO_HUNDRED_METERS
    requires a.location.value.provider == b.location.value.provider
    ensures CompareTo(a, b) == a && CompareTo(b, a) == b
  {
  }

  /** The same newer, slightly less accurate fix from another provider
      loses to the older one, whichever is the receiver. */
  lemma DifferentProviderKeepsCurrent(a: LocationDV, b: LocationDV)
    requires a.location.Some? && b.location.Some?
    requires 0 < a.location.value.time - b.location.value.time <= FIFTEEN_MINUTES
    requires 0 < a.location.value.Accuracy() - b.location.value.Accuracy() <= TWO_HUNDRED_METERS
    requires a.location.value.provider != b.location.value.provider
    ensures CompareTo(a, b) == b && CompareTo(b, a) == b
  {
  }
}
