/** ExtMapView: a map view that turns raw touches into double clicks, finger
    events and pans, reports zoom changes against a baseline level, and
    watches the map centre to report when the map starts and stops moving.
    The platform's clock, map centre and zoom level are parameters. */
module MapView {
  import opened Wrappers

  /** Two touch-downs closer than this are a double click. */
  const DOUBLE_CLICK_MS: int := 250
  /** The value lastTouchTime has before any touch and after a double
      click. */
  const INVALID: int := -1

  datatype GeoPoint = GeoPoint(latitudeE6: int, longitudeE6: int)

  datatype Action = ActionDown | ActionMove | ActionUp | ActionOther

  /** The hooks and listener calls the view makes. */
  datatype MapEvent =
    | DbClicked
    | FingerDown
    | FingerUp
    | FingerDragMoving
    | Pan
    | ZoomedIn(oldLevel: int, newLevel: int)
    | ZoomedOut(oldLevel: int, newLevel: int)

  /** What the watcher posts to the UI thread. */
  datatype WatchEvent = MapMoving | MapStopMoving

  /** areDifferentGeoPoints: a missing old point differs from every point;
      otherwise the points differ when a coordinate does. */
  function AreDifferentGeoPoints(oldPoint: Option<GeoPoint>, newPoint: GeoPoint): (r: bool)
    ensures r <==> oldPoint != Some(newPoint)
  {
    || oldPoint.None?
    || oldPoint.value.latitudeE6 != newPoint.latitudeE6
    || oldPoint.value.longitudeE6 != newPoint.longitudeE6
  }

  // ---------------------------------------------------------------------
  // The watcher over the sampled map centres

  /** The centre the watcher compares sample i with. */
  function Previous(centers: seq<GeoPoint>, i: nat): Option<GeoPoint>
    requires i <= |centers|
  {
    if i == 0 then None else Some(centers[i - 1])
  }

  /** Sample i shows a moved map. The first sample always does. */
  predicate Changed(centers: seq<GeoPoint>, i: nat)
    requires i < |centers|
  {
    AreDifferentGeoPoints(Previous(centers, i), centers[i])
  }

  /** The edge detector on samples: moving is posted where a run of moved
      samples starts, stop-moving where a run of still samples starts. */
  function EventAt(centers: seq<GeoPoint>, i: nat): (r: seq<WatchEvent>)
    requires i < |centers|
    ensures |r| <= 1
  {
    if Changed(centers, i) then
      if i == 0 || !Changed(centers, i - 1) then [MapMoving] else []
    else
      if i > 0 && Changed(centers, i - 1) then [MapStopMoving] else []
  }

  /** All events posted for the first n samples. */
  function Expected(centers: seq<GeoPoint>, n: nat): seq<WatchEvent>
    requires n <= |centers|
  {
    if n == 0 then [] else Expected(centers, n - 1) + EventAt(centers, n - 1)
  }

  /** The first sample is always a move. */
  lemma FirstSampleMoves(centers: seq<GeoPoint>)
    requires |centers| > 0
    ensures Changed(centers, 0) && Expected(centers, 1) == [MapMoving]
  {
  }

  /** After n >= 1 samples the last event posted tells the map's state at
      the last sample: moving exactly when that sample moved. */
  lemma {:induction false} LastEventIsState(centers: seq<GeoPoint>, n: nat)
    requires 1 <= n <= |centers|
    ensures var e := Expected(centers, n);
      |e| > 0 && (e[|e| - 1] == MapMoving <==> Changed(centers, n - 1))
  {
    var tail := EventAt(centers, n - 1);
    if n > 1 {
      var e' := Expected(centers, n - 1);
      LastEventIsState(centers, n - 1);
      assert Expected(centers, n) == e' + tail;
      if tail == [] {
        assert Changed(centers, n - 1) <==> Changed(centers, n - 2);
      } else {
        assert (e' + tail)[|e' + tail| - 1] == tail[0];
      }
    } else {
      assert Expected(centers, n) == tail;
    }
  }

  /** The events alternate, starting with moving: stop-moving is posted
      once per stop and not again before a move, and the other way round. */
  lemma {:induction false} EventsAlternate(centers: seq<GeoPoint>, n: nat)
    requires n <= |centers|
    ensures var e := Expected(centers, n);
      && (|e| > 0 ==> e[0] == MapMoving)
      && (forall k :: 0 <= k < |e| - 1 ==> e[k] != e[k + 1])
  {
    if n > 0 {
      EventsAlternate(centers, n - 1);
      var e' := Expected(centers, n - 1);
      var e := Expected(centers, n);
      if n > 1 {
        LastEventIsState(centers, n - 1);
        assert forall k :: 0 <= k < |e'| ==> e[k] == e'[k];
      }
    }
  }

  /** The per-iteration body of the watcher loop, run over the centres it
      samples before it is stopped: a moved sample clears the stop flag and
      posts moving once; a still sample clears the moving flag and posts
      stop-moving once. */
  method WatchCenters(centers: seq<GeoPoint>) returns (posted: seq<WatchEvent>)
    ensures posted == Expected(centers, |centers|)
  {
    posted := [];
    var previous: Option<GeoPoint> := None;
    var onceFiredStopMoving := false;
    var onceFiredMoving := false;
    for i := 0 to |centers|
      invariant posted == Expected(centers, i)
      invariant previous == Previous(centers, i)
      invariant i == 0 ==> !onceFiredMoving && !onceFiredStopMoving
      invariant i > 0 ==> (onceFiredMoving <==> Changed(centers, i - 1))
      invariant i > 0 ==> (onceFiredStopMoving <==> !Changed(centers, i - 1))
    {
      var current := centers[i];
      if !AreDifferentGeoPoints(previous, current) {
        onceFiredMoving := false;
        if !onceFiredStopMoving {
          posted := posted + [MapStopMoving];
          onceFiredStopMoving := true;
        }
      } else {
        onceFiredStopMoving := false;
        if !onceFiredMoving {
          posted := posted + [MapMoving];
          onceFiredMoving := true;
        }
      }
      previous := Some(current);
    }
  }

  // ---------------------------------------------------------------------
  // Touch-downs

  datatype Down = DoubleClick | SingleDown

  /** The kinds of a series of touch-downs at the given times, starting
      from the recorded time last: a down within 250 ms of the recorded one
      is a double click and clears the record, any other down is recorded. */
  function Classify(last: int, times: seq<int>): (r: seq<Down>)
    decreases |times|
    ensures |r| == |times|
    ensures |times| > 0 ==> (r[0] == DoubleClick <==> times[0] - last < DOUBLE_CLICK_MS)
  {
    if times == [] then []
    else if times[0] - last < DOUBLE_CLICK_MS then [DoubleClick] + Classify(INVALID, times[1..])
    else [SingleDown] + Classify(times[0], times[1..])
  }

  /** A double click consumes both of its downs: at clock times of 249 ms
      or later, after a fresh start or a double click, the next down is
      never a double click, so two double clicks never follow each other. */
  lemma {:induction false} NoDoubleAfterDouble(last: int, times: seq<int>)
    requires forall k :: 0 <= k < |times| ==> times[k] >= DOUBLE_CLICK_MS + INVALID
    decreases |times|
    ensures var c := Classify(last, times);
      && |c| == |times|
      && (forall i, j :: 0 <= i && j == i + 1 && j < |c| ==> !(c[i] == DoubleClick && c[j] == DoubleClick))
      && (last == INVALID && |c| > 0 ==> c[0] == SingleDown)
  {
    if times != [] {
      var rest := times[1..];
      assert forall k :: 0 <= k < |rest| ==> rest[k] == times[k + 1];
      var double := times[0] - last < DOUBLE_CLICK_MS;
      var next := if double then INVALID else times[0];
      NoDoubleAfterDouble(next, rest);
      var c := Classify(last, times);
      var c' := Classify(next, rest);
      assert c == [if double then DoubleClick else SingleDown] + c';
      forall i, j | 0 <= i && j == i + 1 && j < |c|
        ensures !(c[i] == DoubleClick && c[j] == DoubleClick)
      {
        if i > 0 {
          assert c[i] == c'[i - 1] && c[j] == c'[j - 1];
        }
      }
    }
  }

  /** A second down shortly after a first is a double click. */
  lemma QuickSecondDownIsDouble(t: int, d: int)
    requires t >= DOUBLE_CLICK_MS + INVALID && 0 <= d < DOUBLE_CLICK_MS
    ensures Classify(INVALID, [t, t + d]) == [SingleDown, DoubleClick]
  {
    var times := [t, t + d];
    assert times[1..] == [t + d];
    assert [t + d][1..] == [];
    assert Classify(t, [t + d]) == [DoubleClick] + Classify(INVALID, []);
  }

  // ---------------------------------------------------------------------
  // The view

  class ExtMapView {
    var lastTouchTime: int
    var oldZoomLevel: int
    var oldCenterGeoPoint: Option<GeoPoint>
    var hasPanAndZoomListener: bool
    /** The registered moving and stop-moving listeners, by identity. */
    var onMapMovingListeners: seq<nat>
    var onMapStopMovingListeners: seq<nat>
    var events: seq<MapEvent>

    constructor ()
      ensures lastTouchTime == INVALID && oldZoomLevel == -1 && oldCenterGeoPoint == None
      ensures !hasPanAndZoomListener && onMapMovingListeners == [] && onMapStopMovingListeners == []
      ensures events == []
    {
      lastTouchTime := INVALID;
      oldZoomLevel := -1;
      oldCenterGeoPoint := None;
      hasPanAndZoomListener := false;
      onMapMovingListeners, onMapStopMovingListeners := [], [];
      events := [];
    }

    method SetOnPanListener(present: bool)
      modifies this`hasPanAndZoomListener
      ensures hasPanAndZoomListener == present
    {
      hasPanAndZoomListener := present;
    }

    method AddOnMapMovingListener(id: nat)
      modifies this`onMapMovingListeners
      ensures onMapMovingListeners == old(onMapMovingListeners) + [id]
    {
      onMapMovingListeners := onMapMovingListeners + [id];
    }

    method AddOnMapStopMovingListener(id: nat)
      modifies this`onMapStopMovingListeners
      ensures onMapStopMovingListeners == old(onMapStopMovingListeners) + [id]
    {
      onMapStopMovingListeners := onMapStopMovingListeners + [id];
    }

    /** release: forgets the moving and stop-moving listeners. */
    method Release()
      modifies this`onMapMovingListeners, this`onMapStopMovingListeners
      ensures onMapMovingListeners == [] && onMapStopMovingListeners == []
    {
      onMapMovingListeners := [];
      onMapStopMovingListeners := [];
    }

    /** onInterceptTouchEvent at clock time now: a down within 250 ms of the
        recorded one is a double click and clears the record; any other
        down is recorded and reported as finger-down. The touch is never
        intercepted. */
    method OnInterceptTouchEvent(action: Action, now: int) returns (r: bool)
      modifies this`lastTouchTime, this`events
      ensures !r
      ensures action == ActionDown && now - old(lastTouchTime) < DOUBLE_CLICK_MS ==>
        lastTouchTime == INVALID && events == old(events) + [DbClicked]
      ensures action == ActionDown && now - old(lastTouchTime) >= DOUBLE_CLICK_MS ==>
        lastTouchTime == now && events == old(events) + [FingerDown]
      ensures action != ActionDown ==> lastTouchTime == old(lastTouchTime) && events == old(events)
    {
      if action == ActionDown {
        var thisTime := now;
        if thisTime - lastTouchTime < DOUBLE_CLICK_MS {
          lastTouchTime := INVALID;
          events := events + [DbClicked];
        } else {
          lastTouchTime := thisTime;
          events := events + [FingerDown];
        }
      }
      r := false;
    }

    /** onTouchEvent: on finger-up a pan is reported when the centre
        differs from the one recorded at the previous finger-up, and the
        centre is recorded; a move is reported as a drag. The result is the
        map's own handling, false when that throws (None). */
    method OnTouchEvent(action: Action, center: GeoPoint, superResult: Option<bool>) returns (r: bool)
      modifies this`oldCenterGeoPoint, this`events
      ensures action == ActionUp ==>
        && oldCenterGeoPoint == Some(center)
        && events == old(events) + [FingerUp]
             + (if hasPanAndZoomListener && old(oldCenterGeoPoint) != Some(center) then [Pan] else [])
      ensures action == ActionMove ==>
        oldCenterGeoPoint == old(oldCenterGeoPoint) && events == old(events) + [FingerDragMoving]
      ensures action != ActionUp && action != ActionMove ==>
        oldCenterGeoPoint == old(oldCenterGeoPoint) && events == old(events)
      ensures r == (superResult.Some? && superResult.value)
    {
      match action {
        case ActionUp =>
          events := events + [FingerUp];
          var centerGeoPoint := center;
          if AreDifferentGeoPoints(oldCenterGeoPoint, centerGeoPoint) {
            if hasPanAndZoomListener {
              events := events + [Pan];
            }
          }
          oldCenterGeoPoint := Some(center);
        case ActionMove =>
          events := events + [FingerDragMoving];
        case _ =>
      }
      r := if superResult.Some? then superResult.value else false;
    }

    /** dispatchDraw at zoom level zoom: the first draw fixes the baseline,
        which is never updated; every draw above or below it is reported. */
    method DispatchDraw(zoom: int)
      modifies this`oldZoomLevel, this`events
      ensures oldZoomLevel == (if old(oldZoomLevel) == -1 then zoom else old(oldZoomLevel))
      ensures events == old(events)
        + (if hasPanAndZoomListener && oldZoomLevel < zoom then [ZoomedIn(oldZoomLevel, zoom)] else [])
        + (if hasPanAndZoomListener && oldZoomLevel > zoom then [ZoomedOut(oldZoomLevel, zoom)] else [])
    {
      if oldZoomLevel == -1 {
        oldZoomLevel := zoom;
      }
      if oldZoomLevel < zoom {
        if hasPanAndZoomListener {
          events := events + [ZoomedIn(oldZoomLevel, zoom)];
        }
      }
      if oldZoomLevel > zoom {
        if hasPanAndZoomListener {
          events := events + [ZoomedOut(oldZoomLevel, zoom)];
        }
      }
    }
  }

  /** Replaying touch-downs on the view classifies them as Classify does,
      starting from the recorded time. */
  method ReplayDowns(view: ExtMapView, times: seq<int>) returns (kinds: seq<Down>)
    modifies view`lastTouchTime, view`events
    ensures kinds == Classify(old(view.lastTouchTime), times)
  {
    kinds := [];
    ghost var start := view.lastTouchTime;
    for i := 0 to |times|
      invariant kinds + Classify(view.lastTouchTime, times[i..]) == Classify(start, times)
    {
      var last := view.lastTouchTime;
      var kind := if times[i] - last < DOUBLE_CLICK_MS then DoubleClick else SingleDown;
      assert times[i..][1..] == times[i + 1..];
      var _ := view.OnInterceptTouchEvent(ActionDown, times[i]);
      assert Classify(last, times[i..]) == [kind] + Classify(view.lastTouchTime, times[i + 1..]);
      assert kinds + ([kind] + Classify(view.lastTouchTime, times[i + 1..]))
          == (kinds + [kind]) + Classify(view.lastTouchTime, times[i + 1..]);
      kinds := kinds + [kind];
    }
  }

  /** Once drawn at a level, later draws compare against that first level:
      zooming in twice reports two zoom-ins from the same baseline. */
  method ZoomBaselineIsFirstLevel(view: ExtMapView, first: int, second: int, third: int)
    requires first != -1 && view.oldZoomLevel == -1 && view.hasPanAndZoomListener
    requires first < second < third
    modifies view
    ensures view.oldZoomLevel == first
    ensures view.events == old(view.events) + [ZoomedIn(first, second), ZoomedIn(first, third)]
  {
    view.DispatchDraw(first);
    view.DispatchDraw(second);
    view.DispatchDraw(third);
  }
}
