/** The tracking session of the location package: a start/stop state machine
    over three update subscriptions, an unknown-best-provider listener, a
    provider-disabled receiver and a one-minute deadline timer.

    The Android LocationManager is an input: a Platform value answers the
    provider list, the two best-provider queries and the last known fixes,
    and `registered` records what the platform holds on the manager's
    behalf. A removal that throws is named in a `failing` set: the throw is
    swallowed and the subscription stays registered. Every Java reference
    field is a bool that is true when the reference is non-null. */
module LocationUpdates {
  import opened Wrappers
  import opened LocationDV

  const ONE_MINUTE: int := 60 * 1000
  const LOCATION_UPDATE_SECONDS: int := 3000
  const LOCATION_UPDATE_METERS: int := 0

  /** What the manager can have registered with the platform. */
  datatype Subscription =
    | GpsUpdates                 // requestGPSUpdates with the GPS pending intent
    | NetworkUpdates             // requestNetworkUpdates with the network pending intent
    | UnknownBestIntentUpdates   // requestUnknownBestUpdates with its pending intent
    | UnknownBestListenerUpdates // requestLocationUpdates(bestProvider, listener)
    | ProviderDisabledReceiver   // registerReceiver for the provider-disabled action

  /** The answers of the LocationManager during one start. */
  datatype Platform = Platform(
    allProviders: seq<string>,
    bestProvider: Option<string>,          // getBestProvider(criteria, false)
    bestAvailableProvider: Option<string>, // getBestProvider(criteria, true)
    lastKnownGps: Option<Location>,
    lastKnownNetwork: Option<Location>)

  /** Callbacks the manager makes to its listeners, in order. */
  datatype Event = StartTracing | StopTracing | LocationUpdate(fix: LocationDV)

  /** findLatestLocation without the notification: both last known fixes
      must exist (valueOf rejects a null one), and then the GPS fix is
      compared with the network fix. */
  function FindLatestLocation(p: Platform): (r: Option<LocationDV>)
    ensures r.Some? <==> p.lastKnownGps.Some? && p.lastKnownNetwork.Some?
    ensures r.Some? ==> r.value.location == p.lastKnownGps || r.value.location == p.lastKnownNetwork
    ensures r.Some? ==> r.value == CompareTo(ValueOf(p.lastKnownGps).value, ValueOf(p.lastKnownNetwork).value)
  {
    match ValueOf(p.lastKnownGps)
    case Failure(_) => None
    case Success(gps) =>
      match ValueOf(p.lastKnownNetwork)
      case Failure(_) => None
      case Success(network) => Some(CompareTo(gps, network))
  }

  /** What findLatestLocation reports to the update listener: the fix it
      found, when it found one and the listener is set. */
  function LatestNotice(p: Platform, listenerPresent: bool): seq<Event> {
    var fix := FindLatestLocation(p);
    if fix.Some? && listenerPresent then [LocationUpdate(fix.value)] else []
  }

  /** The condition under which searchUnknowBestProviderListener listens to
      the best provider that is not currently available. */
  predicate UnknownBestUsable(p: Platform, listenerPresent: bool) {
    p.bestProvider.Some? && p.bestProvider != p.bestAvailableProvider && listenerPresent
  }

  /** What a start subscribes, given whether the unknown-best listener and
      the provider-disabled receiver references are present at that point:
      both unknown-best subscriptions when that provider is usable, each
      listed provider, and the receiver when it is present. */
  function StartAdds(p: Platform, unknownBestListener: bool, receiver: bool): (r: set<Subscription>)
    ensures GpsUpdates in r <==> GPS_PROVIDER in p.allProviders
    ensures NetworkUpdates in r <==> NETWORK_PROVIDER in p.allProviders
    ensures ProviderDisabledReceiver in r <==> receiver
    ensures UnknownBestListenerUpdates in r <==> UnknownBestUsable(p, unknownBestListener)
    ensures UnknownBestIntentUpdates in r <==> UnknownBestUsable(p, unknownBestListener)
  {
    (if UnknownBestUsable(p, unknownBestListener) then {UnknownBestListenerUpdates, UnknownBestIntentUpdates} else {})
    + (if GPS_PROVIDER in p.allProviders then {GpsUpdates} else {})
    + (if NETWORK_PROVIDER in p.allProviders then {NetworkUpdates} else {})
    + (if receiver then {ProviderDisabledReceiver} else {})
  }

  /** Adding four groups one after another adds their union. */
  lemma UnionRegroup<T>(base: set<T>, a: set<T>, b: set<T>, c: set<T>, d: set<T>)
    ensures base + a + b + c + d == base + (a + b + c + d)
  {
  }

  class LocationUpdateManager {
    var isLocationTrackingRunning: bool
    var canUnknownBestLocationUpdate: bool
    var pendingIntentGps: bool
    var pendingIntentNetwork: bool
    var pendingIntentUnknownBest: bool
    var listenerUnknownBestLocationProvider: bool
    var receiverLocationProviderDisabled: bool
    var timerTaxiradar: bool
    var timerTaskTaxiRadar: bool
    var listenerLocationUpdate: bool
    var onStartLocationTracingListener: bool
    var onStopLocationTracingListener: bool
    /** What the platform holds on the manager's behalf. */
    var registered: set<Subscription>
    /** The listener callbacks made so far. */
    var events: seq<Event>
    /** Whether a stop has ever torn a session down. */
    ghost var stoppedOnce: bool

    ghost predicate Valid()
      reads this
    {
      && (isLocationTrackingRunning <==> TimerIsRunning())
      && (!isLocationTrackingRunning ==> !pendingIntentGps && !pendingIntentNetwork)
      && (pendingIntentGps ==> GpsUpdates in registered)
      && (pendingIntentNetwork ==> NetworkUpdates in registered)
      && (isLocationTrackingRunning && canUnknownBestLocationUpdate ==>
            && listenerUnknownBestLocationProvider && pendingIntentUnknownBest
            && UnknownBestListenerUpdates in registered && UnknownBestIntentUpdates in registered)
      && (isLocationTrackingRunning && receiverLocationProviderDisabled ==> ProviderDisabledReceiver in registered)
      && (stoppedOnce <==> !listenerUnknownBestLocationProvider)
      && (stoppedOnce <==> !receiverLocationProviderDisabled)
    }

    /** timerIsRunning: both the timer and its task are present. */
    predicate TimerIsRunning(): (r: bool)
      reads this
      ensures r <==> timerTaxiradar && timerTaskTaxiRadar
    {
      timerTaxiradar && timerTaskTaxiRadar
    }

    constructor ()
      ensures Valid()
      ensures !isLocationTrackingRunning && !canUnknownBestLocationUpdate
      ensures listenerUnknownBestLocationProvider && receiverLocationProviderDisabled
      ensures !listenerLocationUpdate && !onStartLocationTracingListener && !onStopLocationTracingListener
      ensures registered == {} && events == [] && !stoppedOnce
    {
      isLocationTrackingRunning := false;
      canUnknownBestLocationUpdate := false;
      pendingIntentGps, pendingIntentNetwork, pendingIntentUnknownBest := false, false, false;
      listenerUnknownBestLocationProvider := true;
      receiverLocationProviderDisabled := true;
      timerTaxiradar, timerTaskTaxiRadar := false, false;
      listenerLocationUpdate := false;
      onStartLocationTracingListener, onStopLocationTracingListener := false, false;
      registered := {};
      events := [];
      stoppedOnce := false;
    }

    method SetListenerLocationUpdate(present: bool)
      modifies this`listenerLocationUpdate
      ensures listenerLocationUpdate == present
    {
      listenerLocationUpdate := present;
    }

    method SetOnStartLocationTracingListener(present: bool)
      modifies this`onStartLocationTracingListener
      ensures onStartLocationTracingListener == present
    {
      onStartLocationTracingListener := present;
    }

    method SetOnStopLocationTracingListener(present: bool)
      modifies this`onStopLocationTracingListener
      ensures onStopLocationTracingListener == present
    {
      onStopLocationTracingListener := present;
    }

    /** startGPSTimer: a fresh timer with a fresh task, scheduled to stop
        tracing after ONE_MINUTE. */
    method StartGpsTimer()
      modifies this`timerTaxiradar, this`timerTaskTaxiRadar
      ensures TimerIsRunning()
    {
      timerTaxiradar := true;
      timerTaskTaxiRadar := true;
    }

    /** resetGPSTimer: cancels a running timer and drops the timer (the timer task
        reference is kept). */
    method ResetGpsTimer()
      modifies this`timerTaxiradar
      ensures !TimerIsRunning()
      ensures timerTaxiradar == (old(timerTaxiradar) && !timerTaskTaxiRadar)
    {
      if TimerIsRunning() {
        timerTaxiradar := false;
      }
    }

    /** notifyLocationUpdate: forwarded to the listener when one is set. */
    method NotifyLocationUpdate(fix: LocationDV)
      modifies this`events
      ensures events == old(events) + (if listenerLocationUpdate then [LocationUpdate(fix)] else [])
    {
      if listenerLocationUpdate {
        events := events + [LocationUpdate(fix)];
      }
    }

    /** onLocationUpdate: every update from the receivers is forwarded as
        it is, without comparing it with earlier fixes. */
    method OnLocationUpdate(fix: LocationDV)
      modifies this`events
      ensures events == old(events) + (if listenerLocationUpdate then [LocationUpdate(fix)] else [])
    {
      NotifyLocationUpdate(fix);
    }

    method OnStartLocationTracing()
      modifies this`events
      ensures events == old(events) + (if onStartLocationTracingListener then [StartTracing] else [])
    {
      if onStartLocationTracingListener {
        events := events + [StartTracing];
      }
    }

    /** onStopLocationTracing: the callback is posted to the handler. */
    method OnStopLocationTracing()
      modifies this`events
      ensures events == old(events) + (if onStopLocationTracingListener then [StopTracing] else [])
    {
      if onStopLocationTracingListener {
        events := events + [StopTracing];
      }
    }

    method NotifyLatestLocation(p: Platform)
      modifies this`events
      ensures events == old(events) + LatestNotice(p, listenerLocationUpdate)
    {
      var fix := FindLatestLocation(p);
      if fix.Some? {
        NotifyLocationUpdate(fix.value);
      }
    }

    /** searchUnknowBestProviderListener. */
    method SearchUnknownBestProviderListener(p: Platform)
      modifies this`canUnknownBestLocationUpdate, this`registered
      ensures canUnknownBestLocationUpdate == UnknownBestUsable(p, listenerUnknownBestLocationProvider)
      ensures registered == old(registered) + (if canUnknownBestLocationUpdate then {UnknownBestListenerUpdates} else {})
    {
      if p.bestProvider.Some? && p.bestProvider != p.bestAvailableProvider && listenerUnknownBestLocationProvider {
        canUnknownBestLocationUpdate := true;
        registered := registered + {UnknownBestListenerUpdates};
      } else {
        canUnknownBestLocationUpdate := false;
      }
    }

    /** initUnknownBestLocationListener. */
    method InitUnknownBestLocationListener()
      modifies this`pendingIntentUnknownBest, this`registered
      ensures pendingIntentUnknownBest == (old(pendingIntentUnknownBest) || canUnknownBestLocationUpdate)
      ensures registered == old(registered) + (if canUnknownBestLocationUpdate then {UnknownBestIntentUpdates} else {})
    {
      if canUnknownBestLocationUpdate {
        pendingIntentUnknownBest := true;
        registered := registered + {UnknownBestIntentUpdates};
      }
    }

    /** initGPSListener. */
    method InitGpsListener(p: Platform)
      modifies this`pendingIntentGps, this`registered
      ensures pendingIntentGps == (old(pendingIntentGps) || GPS_PROVIDER in p.allProviders)
      ensures registered == old(registered) + (if GPS_PROVIDER in p.allProviders then {GpsUpdates} else {})
    {
      if GPS_PROVIDER in p.allProviders {
        pendingIntentGps := true;
        registered := registered + {GpsUpdates};
      }
    }

    /** initNetworkLocationListener. */
    method InitNetworkLocationListener(p: Platform)
      modifies this`pendingIntentNetwork, this`registered
      ensures pendingIntentNetwork == (old(pendingIntentNetwork) || NETWORK_PROVIDER in p.allProviders)
      ensures registered == old(registered) + (if NETWORK_PROVIDER in p.allProviders then {NetworkUpdates} else {})
    {
      if NETWORK_PROVIDER in p.allProviders {
        pendingIntentNetwork := true;
        registered := registered + {NetworkUpdates};
      }
    }

    /** registerReceiver: a null receiver registers nothing. */
    method RegisterProviderDisabledReceiver()
      modifies this`registered
      ensures registered == old(registered) + (if receiverLocationProviderDisabled then {ProviderDisabledReceiver} else {})
    {
      if receiverLocationProviderDisabled {
        registered := registered + {ProviderDisabledReceiver};
      }
    }

    /** startLocationTracing. While running it changes nothing; from idle it
        fires the start listener, notifies the better last known fix,
        subscribes to what the platform offers and arms a fresh timer. */
    method StartLocationTracing(p: Platform)
      requires Valid()
      modifies this`events, this`isLocationTrackingRunning, this`canUnknownBestLocationUpdate,
               this`pendingIntentUnknownBest, this`pendingIntentGps, this`pendingIntentNetwork,
               this`registered, this`timerTaxiradar, this`timerTaskTaxiRadar
      ensures Valid()
      ensures old(isLocationTrackingRunning) ==> unchanged(this)
      ensures !old(isLocationTrackingRunning) ==>
        && isLocationTrackingRunning && TimerIsRunning()
        && (pendingIntentGps <==> GPS_PROVIDER in p.allProviders)
        && (pendingIntentNetwork <==> NETWORK_PROVIDER in p.allProviders)
        && canUnknownBestLocationUpdate == UnknownBestUsable(p, listenerUnknownBestLocationProvider)
        && pendingIntentUnknownBest == (old(pendingIntentUnknownBest) || canUnknownBestLocationUpdate)
        && registered == old(registered) + StartAdds(p, listenerUnknownBestLocationProvider, receiverLocationProviderDisabled)
        && events == old(events)
             + (if onStartLocationTracingListener then [StartTracing] else [])
             + LatestNotice(p, listenerLocationUpdate)
      ensures stoppedOnce ==> !canUnknownBestLocationUpdate || old(isLocationTrackingRunning)
    {
      if !isLocationTrackingRunning {
        BeginTracing(p);
      }
    }

    /** The steps of startLocationTracing from idle, in their order. */
    method BeginTracing(p: Platform)
      modifies this`events, this`isLocationTrackingRunning, this`canUnknownBestLocationUpdate,
               this`pendingIntentUnknownBest, this`pendingIntentGps, this`pendingIntentNetwork,
               this`registered, this`timerTaxiradar, this`timerTaskTaxiRadar
      ensures isLocationTrackingRunning && TimerIsRunning()
      ensures canUnknownBestLocationUpdate == UnknownBestUsable(p, listenerUnknownBestLocationProvider)
      ensures pendingIntentUnknownBest == (old(pendingIntentUnknownBest) || canUnknownBestLocationUpdate)
      ensures pendingIntentGps == (old(pendingIntentGps) || GPS_PROVIDER in p.allProviders)
      ensures pendingIntentNetwork == (old(pendingIntentNetwork) || NETWORK_PROVIDER in p.allProviders)
      ensures registered == old(registered) + StartAdds(p, listenerUnknownBestLocationProvider, receiverLocationProviderDisabled)
      ensures events == old(events)
             + (if onStartLocationTracingListener then [StartTracing] else [])
             + LatestNotice(p, listenerLocationUpdate)
    {
      OnStartLocationTracing();
      isLocationTrackingRunning := true;
      NotifyLatestLocation(p);
      Subscribe(p);
      ResetGpsTimer();
      StartGpsTimer();
    }

    /** The subscription part of startLocationTracing, in its order. */
    method Subscribe(p: Platform)
      modifies this`canUnknownBestLocationUpdate, this`pendingIntentUnknownBest, this`pendingIntentGps,
               this`pendingIntentNetwork, this`registered
      ensures canUnknownBestLocationUpdate == UnknownBestUsable(p, listenerUnknownBestLocationProvider)
      ensures pendingIntentUnknownBest == (old(pendingIntentUnknownBest) || canUnknownBestLocationUpdate)
      ensures pendingIntentGps == (old(pendingIntentGps) || GPS_PROVIDER in p.allProviders)
      ensures pendingIntentNetwork == (old(pendingIntentNetwork) || NETWORK_PROVIDER in p.allProviders)
      ensures registered == old(registered) + StartAdds(p, listenerUnknownBestLocationProvider, receiverLocationProviderDisabled)
    {
      ghost var before := registered;
      SearchUnknownBestProviderListener(p);
      InitUnknownBestLocationListener();
      ghost var unknownBest := if canUnknownBestLocationUpdate
        then {UnknownBestListenerUpdates, UnknownBestIntentUpdates} else {};
      assert registered == before + unknownBest;
      InitGpsListener(p);
      InitNetworkLocationListener(p);
      RegisterProviderDisabledReceiver();
      UnionRegroup(before, unknownBest,
        if GPS_PROVIDER in p.allProviders then {GpsUpdates} else {},
        if NETWORK_PROVIDER in p.allProviders then {NetworkUpdates} else {},
        if receiverLocationProviderDisabled then {ProviderDisabledReceiver} else {});
    }

    /** stopLocationProviderDisabledListener: the reference is dropped even
        when unregistering throws. */
    method StopLocationProviderDisabledListener(failing: set<Subscription>)
      modifies this`receiverLocationProviderDisabled, this`registered
      ensures !receiverLocationProviderDisabled
      ensures registered == old(registered)
        - (if old(receiverLocationProviderDisabled) && ProviderDisabledReceiver !in failing then {ProviderDisabledReceiver} else {})
    {
      if receiverLocationProviderDisabled && ProviderDisabledReceiver !in failing {
        registered := registered - {ProviderDisabledReceiver};
      }
      receiverLocationProviderDisabled := false;
    }

    /** stopGpsLocationListener. */
    method StopGpsLocationListener(failing: set<Subscription>)
      modifies this`pendingIntentGps, this`registered
      ensures !pendingIntentGps
      ensures registered == old(registered) - (if old(pendingIntentGps) && GpsUpdates !in failing then {GpsUpdates} else {})
    {
      if pendingIntentGps && GpsUpdates !in failing {
        registered := registered - {GpsUpdates};
      }
      pendingIntentGps := false;
    }

    /** stopNetworkLocationListener. */
    method StopNetworkLocationListener(failing: set<Subscription>)
      modifies this`pendingIntentNetwork, this`registered
      ensures !pendingIntentNetwork
      ensures registered == old(registered) - (if old(pendingIntentNetwork) && NetworkUpdates !in failing then {NetworkUpdates} else {})
    {
      if pendingIntentNetwork && NetworkUpdates !in failing {
        registered := registered - {NetworkUpdates};
      }
      pendingIntentNetwork := false;
    }

    /** stopUnknownBestLocationProviderListener: only with the listener
        present are the listener and then the pending intent removed; a
        throw from the first removal skips the second. The listener is
        dropped in every case; the pending intent reference is kept. */
    method StopUnknownBestLocationProviderListener(failing: set<Subscription>)
      modifies this`listenerUnknownBestLocationProvider, this`registered
      ensures !listenerUnknownBestLocationProvider
      ensures registered == old(registered) - UnknownBestRemoved(old(listenerUnknownBestLocationProvider), pendingIntentUnknownBest, failing)
    {
      if listenerUnknownBestLocationProvider && UnknownBestListenerUpdates !in failing {
        registered := registered - {UnknownBestListenerUpdates};
        if pendingIntentUnknownBest && UnknownBestIntentUpdates !in failing {
          registered := registered - {UnknownBestIntentUpdates};
        }
      }
      listenerUnknownBestLocationProvider := false;
    }

    /** stopLocationTracing. While idle it changes nothing; otherwise every
        teardown step runs whatever the others throw. */
    method StopLocationTracing(failing: set<Subscription>)
      requires Valid()
      modifies this`isLocationTrackingRunning, this`stoppedOnce, this`timerTaxiradar,
               this`listenerUnknownBestLocationProvider, this`pendingIntentGps,
               this`receiverLocationProviderDisabled, this`pendingIntentNetwork, this`registered, this`events
      ensures Valid()
      ensures Stopped(failing)
    {
      if isLocationTrackingRunning {
        isLocationTrackingRunning := false;
        TearDown(failing);
        stoppedOnce := true;
      }
    }

    /** The teardown steps of stopLocationTracing, in their order; each
        runs whatever the others throw. */
    method TearDown(failing: set<Subscription>)
      modifies this`timerTaxiradar, this`listenerUnknownBestLocationProvider, this`pendingIntentGps,
               this`receiverLocationProviderDisabled, this`pendingIntentNetwork, this`registered, this`events
      ensures !TimerIsRunning()
      ensures !pendingIntentGps && !pendingIntentNetwork
      ensures !listenerUnknownBestLocationProvider && !receiverLocationProviderDisabled
      ensures registered == old(registered) - TornDown(old(this.Snapshot()), failing)
      ensures events == old(events) + (if onStopLocationTracingListener then [StopTracing] else [])
    {
      ResetGpsTimer();
      StopUnknownBestLocationProviderListener(failing);
      StopGpsLocationListener(failing);
      StopLocationProviderDisabledListener(failing);
      StopNetworkLocationListener(failing);
      OnStopLocationTracing();
    }

    /** The state stopLocationTracing leaves: nothing changes while idle;
        otherwise the session is idle without a timer, every handle,
        listener and receiver reference is dropped whatever the removals
        throw, exactly the removals TornDown allows happen, the stop
        listener is called when set, and a stop has happened. */
    twostate predicate Stopped(failing: set<Subscription>)
      reads this
    {
      if old(isLocationTrackingRunning) then
        && !isLocationTrackingRunning && !TimerIsRunning()
        && !pendingIntentGps && !pendingIntentNetwork
        && !listenerUnknownBestLocationProvider && !receiverLocationProviderDisabled
        && registered == old(registered) - TornDown(old(Snapshot()), failing)
        && events == old(events) + (if onStopLocationTracingListener then [StopTracing] else [])
        && stoppedOnce
      else
        unchanged(this)
    }

    /** The state a stop followed by a start leaves. A stop of a running
        session drops the unknown-best listener and the receiver, so the
        start sees them only when the session was idle; the start then
        subscribes afresh and ends running with a timer. */
    twostate predicate Restarted(p: Platform, failing: set<Subscription>)
      reads this
    {
      var wasRunning := old(isLocationTrackingRunning);
      var listenerLeft := old(listenerUnknownBestLocationProvider) && !wasRunning;
      var receiverLeft := old(receiverLocationProviderDisabled) && !wasRunning;
      && isLocationTrackingRunning && TimerIsRunning()
      && listenerUnknownBestLocationProvider == listenerLeft
      && receiverLocationProviderDisabled == receiverLeft
      && canUnknownBestLocationUpdate == UnknownBestUsable(p, listenerLeft)
      && pendingIntentUnknownBest == (old(pendingIntentUnknownBest) || canUnknownBestLocationUpdate)
      && pendingIntentGps == (GPS_PROVIDER in p.allProviders)
      && pendingIntentNetwork == (NETWORK_PROVIDER in p.allProviders)
      && registered == (old(registered) - (if wasRunning then TornDown(old(Snapshot()), failing) else {}))
                       + StartAdds(p, listenerLeft, receiverLeft)
      && events == old(events)
           + (if wasRunning && onStopLocationTracingListener then [StopTracing] else [])
           + (if onStartLocationTracingListener then [StartTracing] else [])
           + LatestNotice(p, listenerLocationUpdate)
      && stoppedOnce == (old(stoppedOnce) || wasRunning)
    }

    /** The reference fields a stop consults. */
    function Snapshot(): Refs
      reads this
    {
      Refs(listenerUnknownBestLocationProvider, pendingIntentUnknownBest, pendingIntentGps,
           receiverLocationProviderDisabled, pendingIntentNetwork)
    }

    /** The provider-disabled receiver: a missing or false
        KEY_PROVIDER_ENABLED extra restarts the session. */
    method OnProviderDisabledBroadcast(providerEnabled: Option<bool>, p: Platform, failing: set<Subscription>)
      requires Valid()
      modifies this`isLocationTrackingRunning, this`stoppedOnce, this`timerTaxiradar, this`timerTaskTaxiRadar,
               this`listenerUnknownBestLocationProvider, this`receiverLocationProviderDisabled,
               this`canUnknownBestLocationUpdate, this`pendingIntentUnknownBest,
               this`pendingIntentGps, this`pendingIntentNetwork, this`registered, this`events
      ensures Valid()
      ensures providerEnabled == Some(true) ==> unchanged(this)
      ensures providerEnabled != Some(true) ==> Restarted(p, failing)
    {
      var providerDisabled := !(if providerEnabled.Some? then providerEnabled.value else false);
      if providerDisabled {
        StopLocationTracing(failing);
        StartLocationTracing(p);
      }
    }

    /** onProviderEnabled of the unknown-best listener: stop, then start. */
    method OnUnknownBestProviderEnabled(p: Platform, failing: set<Subscription>)
      requires Valid()
      modifies this`isLocationTrackingRunning, this`stoppedOnce, this`timerTaxiradar, this`timerTaskTaxiRadar,
               this`listenerUnknownBestLocationProvider, this`receiverLocationProviderDisabled,
               this`canUnknownBestLocationUpdate, this`pendingIntentUnknownBest,
               this`pendingIntentGps, this`pendingIntentNetwork, this`registered, this`events
      ensures Valid()
      ensures Restarted(p, failing)
    {
      StopLocationTracing(failing);
      StartLocationTracing(p);
    }

    /** The timer task: when the minute is up, a plain stop. */
    method OnTimerExpired(failing: set<Subscription>)
      requires Valid()
      modifies this`isLocationTrackingRunning, this`stoppedOnce, this`timerTaxiradar,
               this`listenerUnknownBestLocationProvider, this`pendingIntentGps,
               this`receiverLocationProviderDisabled, this`pendingIntentNetwork, this`registered, this`events
      ensures Valid()
      ensures Stopped(failing)
    {
      StopLocationTracing(failing);
    }
  }

  /** The reference fields that decide what a stop removes. */
  datatype Refs = Refs(unknownBestListener: bool, unknownBestIntent: bool, gpsIntent: bool,
                       disabledReceiver: bool, networkIntent: bool)

  /** What stopUnknownBestLocationProviderListener removes. */
  function UnknownBestRemoved(listener: bool, intent: bool, failing: set<Subscription>): (r: set<Subscription>)
    ensures r <= {UnknownBestListenerUpdates, UnknownBestIntentUpdates} && r !! failing
    ensures UnknownBestListenerUpdates in r <==> listener && UnknownBestListenerUpdates !in failing
    ensures UnknownBestIntentUpdates in r ==> UnknownBestListenerUpdates in r && intent
  {
    if listener && UnknownBestListenerUpdates !in failing then
      {UnknownBestListenerUpdates} + (if intent && UnknownBestIntentUpdates !in failing then {UnknownBestIntentUpdates} else {})
    else {}
  }

  /** What a stop removes from the platform: each step on its own. */
  function TornDown(refs: Refs, failing: set<Subscription>): (r: set<Subscription>)
    ensures r !! failing
    ensures refs.gpsIntent && GpsUpdates !in failing ==> GpsUpdates in r
    ensures refs.networkIntent && NetworkUpdates !in failing ==> NetworkUpdates in r
    ensures refs.disabledReceiver && ProviderDisabledReceiver !in failing ==> ProviderDisabledReceiver in r
  {
    UnknownBestRemoved(refs.unknownBestListener, refs.unknownBestIntent, failing)
    + (if refs.gpsIntent && GpsUpdates !in failing then {GpsUpdates} else {})
    + (if refs.disabledReceiver && ProviderDisabledReceiver !in failing then {ProviderDisabledReceiver} else {})
    + (if refs.networkIntent && NetworkUpdates !in failing then {NetworkUpdates} else {})
  }
}
