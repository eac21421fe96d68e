/** LLSlideView: a gallery that shows one image at a time and slides to a
    neighbour in small steps. Each step of the animation is one run of the
    Moving task, which re-posts itself on the UI handler until the offset
    passes a bound. Bitmaps are known by identity; the screen density
    enters only through the scaled form of the bound 320. */
module SlideView {
  import opened Wrappers

  const PLUS: int := 1
  const MINUS: int := -1
  const MOVE_UNIT: int := 15
  /** The unscaled bound of a step towards a neighbour. */
  const NEIGHBOUR_BOUND: int := 320

  datatype Bitmap = Bitmap(id: nat)

  /** Calls made to the scroll listeners: onItemScroll when a step draws,
      onItemScrolled when a move is stopped. */
  datatype ScrollEvent = Scroll(position: int) | Scrolled(position: int)

  /** What calcBound does: the change of the offset and the bound. */
  datatype Bound = Bound(delta: int, stop: int)

  /** Whether direction dir points at a neighbour of pos, as calcBound
      decides it. */
  predicate TowardsNeighbour(pos: int, dir: int, size: int) {
    (dir == PLUS && pos + 1 < size) || (dir == MINUS && pos != 0)
  }

  /** calcBound: towards a neighbour the picture slides against the
      direction with bound 320; at the last (first) item it slides with the
      direction and the bound is 0. */
  function CalcBoundOf(pos: int, dir: int, size: int): (b: Bound)
    ensures b.stop == NEIGHBOUR_BOUND || b.stop == 0
    ensures (dir == PLUS || dir == MINUS) && -1 <= pos < size ==>
      && (b.stop == NEIGHBOUR_BOUND <==> TowardsNeighbour(pos, dir, size))
      && (TowardsNeighbour(pos, dir, size) ==> b.delta == -MOVE_UNIT * dir)
      && (!TowardsNeighbour(pos, dir, size) ==> b.delta == MOVE_UNIT * dir)
    ensures dir != PLUS && dir != MINUS ==> b == Bound(0, 0)
  {
    if dir == PLUS && pos + 1 < size then Bound(-MOVE_UNIT, NEIGHBOUR_BOUND)
    else if dir == PLUS && pos + 1 == size then Bound(MOVE_UNIT, 0)
    else if dir == MINUS && pos != 0 then Bound(MOVE_UNIT, NEIGHBOUR_BOUND)
    else if dir == MINUS && pos == 0 then Bound(-MOVE_UNIT, 0)
    else Bound(0, 0)
  }

  /** The bound in pixels: stop * density, with 320 * density given as the
      positive whole number scaled320. */
  function Scaled(stop: int, scaled320: int): int {
    if stop == NEIGHBOUR_BOUND then scaled320 else 0
  }

  /** isOutOfBound: past the left bound unless at the last item, or past
      the right bound unless at the first. */
  predicate OutOfBound(left: int, bound: int, pos: int, size: int): (r: bool)
    ensures r ==> left < -bound || bound < left
    ensures 0 < pos && pos + 1 < size ==> (r <==> left < -bound || bound < left)
  {
    (left < -bound && pos + 1 != size) || (left > bound && pos != 0)
  }

  /** calcCurrentPosition's new index: one step in the direction, -1
      raised to 0 and size lowered to size - 1. */
  function NextPosition(pos: int, dir: int, size: int): (r: int)
    ensures -1 <= pos <= size ==> pos - 1 <= r <= pos + 1
    ensures -1 <= pos <= size && dir == PLUS ==> pos <= r
    ensures 0 <= pos <= size && dir != PLUS ==> r <= pos
  {
    var p := pos + (if dir == PLUS then PLUS else MINUS);
    var p' := if p == -1 then 0 else p;
    if p' == size then p' - 1 else p'
  }

  function Clamp(x: int, lo: int, hi: int): int
    requires lo <= hi
  {
    if x < lo then lo else if x > hi then hi else x
  }

  /** From an item, the new position is the neighbour in the direction,
      clamped to the items; from -1 a forward step lands on 0. */
  lemma NextPositionClamps(pos: int, dir: int, size: int)
    requires dir == PLUS || dir == MINUS
    requires size >= 1 && -1 <= pos < size && (pos == -1 ==> dir == PLUS)
    ensures NextPosition(pos, dir, size) == Clamp(pos + dir, 0, size - 1)
    ensures 0 <= NextPosition(pos, dir, size) < size
  {
  }

  /** The one index error: from -1 a backward step leaves the items. */
  lemma BackwardFromMinusOneLeaves(size: int)
    requires size >= 0
    ensures NextPosition(-1, MINUS, size) == -2
  {
  }

  /** With a single item at position 0 no offset is out of bound, so the
      animation re-posts itself for ever and the buttons stay disabled. */
  lemma SingleItemNeverStops(left: int, bound: int)
    ensures !OutOfBound(left, bound, 0, 1)
  {
  }

  class LLSlideView {
    /** 320 * density, in whole pixels. */
    const scaled320: int
    /** The dot container and the arrow buttons come from the layout. */
    const hasDots: bool
    var swipable: bool

    var items: seq<Bitmap>
    var count: int
    var position: int
    var direction: int
    var left: int
    var canClickButton: bool
    var current: Option<Bitmap>
    var next: Option<Bitmap>
    var previous: Option<Bitmap>

    /** A Moving task has been created, and one is queued on the handler. */
    var movingCreated: bool
    var posted: bool
    var autoRollRunning: bool

    /** The drawables of the dots, once set. */
    var dotSelectedSet: bool
    var dotUnselectedSet: bool
    /** One dot per item; true where the dot marks the current position. */
    var dots: seq<bool>
    var leftArrowVisible: bool
    var rightArrowVisible: bool
    var leftTriggerVisible: bool
    var rightTriggerVisible: bool

    /** Whether the onItemScroll and onItemScrolled listeners are set. */
    var scrollListener: bool
    var scrolledListener: bool
    /** The calls made to those listeners, in order. */
    var events: seq<ScrollEvent>

    /** The count always is the size of the item list. */
    ghost predicate Valid()
      reads this
    {
      count == |items| && (direction == PLUS || direction == MINUS) && scaled320 > 0
    }

    /** The public constructor: no items, position 0, then the indicator. */
    constructor (swipable: bool, scaled320: int, hasDots: bool)
      requires scaled320 > 0
      ensures Valid() && fresh(this)
      ensures this.swipable == swipable && this.scaled320 == scaled320 && this.hasDots == hasDots
      ensures items == [] && count == 0 && position == 0 && direction == PLUS && left == 0
      ensures canClickButton && !movingCreated && !posted && !autoRollRunning && events == []
      ensures !scrollListener && !scrolledListener
    {
      this.swipable := swipable;
      this.scaled320 := scaled320;
      this.hasDots := hasDots;
      items, count, position, direction, left := [], 0, 0, PLUS, 0;
      canClickButton := true;
      current, next, previous := None, None, None;
      movingCreated, posted, autoRollRunning := false, false, false;
      dotSelectedSet, dotUnselectedSet := false, false;
      dots := [];
      leftArrowVisible, rightArrowVisible := false, false;
      leftTriggerVisible, rightTriggerVisible := false, false;
      scrollListener, scrolledListener := false, false;
      events := [];
      new;
      UpdateIndicator();
    }

    method SetOnItemScrollListener(present: bool)
      modifies this`scrollListener
      ensures scrollListener == present
    {
      scrollListener := present;
    }

    method SetOnItemScrolledListener(present: bool)
      modifies this`scrolledListener
      ensures scrolledListener == present
    {
      scrolledListener := present;
    }

    /** setDotSelected: a null drawable switches the indicator off again. */
    method SetDotSelected(present: bool)
      modifies this`dotSelectedSet
      ensures dotSelectedSet == present
    {
      dotSelectedSet := present;
    }

    /** setDotUnselected: a null drawable switches the indicator off again. */
    method SetDotUnselected(present: bool)
      modifies this`dotUnselectedSet
      ensures dotUnselectedSet == present
    {
      dotUnselectedSet := present;
    }

    predicate IndicatorReady()
      reads this
    {
      hasDots && dotSelectedSet && dotUnselectedSet
    }

    /** The indicator shows the position: one dot per item, the current
        one marked; the backward arrow and trigger are shown only after the
        first item, the forward ones only before the last. */
    predicate IndicatorShowsPosition()
      reads this
    {
      && |dots| == |items|
      && (forall i :: 0 <= i < |dots| ==> (dots[i] <==> i == position))
      && (leftArrowVisible <==> position > 0) && (leftTriggerVisible <==> position > 0)
      && (rightArrowVisible <==> position < count - 1) && (rightTriggerVisible <==> position < count - 1)
    }

    /** The result of updateIndicator: the indicator shows the position
        when it is ready, and is left as it was otherwise. */
    twostate predicate IndicatorUpdated()
      reads this
    {
      && (IndicatorReady() ==> IndicatorShowsPosition())
      && (!IndicatorReady() ==>
            unchanged(this`dots, this`leftArrowVisible, this`rightArrowVisible,
                      this`leftTriggerVisible, this`rightTriggerVisible))
    }

    /** updateIndicator. */
    method UpdateIndicator()
      modifies this`dots, this`leftArrowVisible, this`rightArrowVisible,
               this`leftTriggerVisible, this`rightTriggerVisible
      ensures IndicatorUpdated()
    {
      if IndicatorReady() {
        dots := [];
        var cnt := |items|;
        for i := 0 to cnt
          invariant |dots| == i
          invariant forall j :: 0 <= j < i ==> (dots[j] <==> j == position)
        {
          dots := dots + [position == i];
        }
        leftArrowVisible := !(position <= 0);
        rightArrowVisible := !(position >= count - 1);
        leftTriggerVisible := !(position <= 0);
        rightTriggerVisible := !(position >= count - 1);
      }
    }

    /** setImages: a null list changes nothing. Otherwise the list is
        taken, the position reset to 0, the first item (and the second)
        shown when there is one, and an unswipable gallery starts rolling.
        The previous image is left as it was. */
    method SetImages(bitmaps: Option<seq<Bitmap>>)
      requires Valid()
      modifies this`items, this`count, this`position, this`current, this`next, this`autoRollRunning,
               this`dots, this`leftArrowVisible, this`rightArrowVisible,
               this`leftTriggerVisible, this`rightTriggerVisible
      ensures Valid()
      ensures bitmaps.None? ==> unchanged(this)
      ensures bitmaps.Some? ==>
        && items == bitmaps.value && count == |items| && position == 0
        && current == (if count > 0 then Some(items[0]) else old(current))
        && next == (if count > 1 then Some(items[1]) else old(next))
        && previous == old(previous)
        && left == old(left) && direction == old(direction) && posted == old(posted)
        && autoRollRunning == (old(autoRollRunning) || !swipable)
        && IndicatorUpdated()
        && (IndicatorReady() ==> !leftArrowVisible && (rightArrowVisible <==> count > 1))
    {
      if bitmaps.Some? {
        TakeImages(bitmaps.value);
        UpdateIndicator();
        if !swipable {
          autoRollRunning := true;
        }
      }
    }

    /** The list taken by setImages: the position reset to 0 and the
        first item (and the second) shown when there is one. */
    method TakeImages(bitmaps: seq<Bitmap>)
      modifies this`items, this`count, this`position, this`current, this`next
      ensures items == bitmaps && count == |items| && position == 0
      ensures current == (if count > 0 then Some(items[0]) else old(current))
      ensures next == (if count > 1 then Some(items[1]) else old(next))
    {
      items := bitmaps;
      count := |items|;
      position := 0;
      if count > 0 {
        current := Some(items[position]);
      }
      if count > 1 {
        next := Some(items[position + 1]);
      }
    }

    /** calcBound on the current state: moves the offset and returns the
        unscaled bound. */
    method CalcBound() returns (stop: int)
      modifies this`left
      ensures var b := CalcBoundOf(position, direction, |items|);
        stop == b.stop && left == old(left) + b.delta
    {
      stop := 0;
      if direction == PLUS && position + 1 < |items| {
        left := left - MOVE_UNIT;
        stop := 320;
      } else if direction == PLUS && position + 1 == |items| {
        left := left + MOVE_UNIT;
        stop := 0;
      } else if direction == MINUS && position != 0 {
        left := left + MOVE_UNIT;
        stop := 320;
      } else if direction == MINUS && position == 0 {
        left := left - MOVE_UNIT;
        stop := 0;
      }
    }

    predicate IsOutOfBound(stop: int): (r: bool)
      reads this
      ensures stop != NEIGHBOUR_BOUND ==> (r <==> (left < 0 && position + 1 != |items|) || (left > 0 && position != 0))
      ensures stop == NEIGHBOUR_BOUND ==> (r <==> OutOfBound(left, scaled320, position, |items|))
    {
      OutOfBound(left, Scaled(stop, scaled320), position, |items|)
    }

    /** calcCurrentPosition: the new position and its image with its two
        neighbours. ok is false where List.get would throw, which happens
        only when the new position is outside the items. */
    method CalcCurrentPosition() returns (ok: bool)
      modifies this`position, this`current, this`next, this`previous
      ensures position == NextPosition(old(position), direction, |items|)
      ensures ok <==> 0 <= position < |items|
      ensures ok ==> current == Some(items[position])
      ensures ok ==> next == (if position + 1 < |items| then Some(items[position + 1]) else None)
      ensures ok ==> previous == (if position >= 1 then Some(items[position - 1]) else None)
      ensures !ok ==> current == old(current) && next == old(next) && previous == old(previous)
    {
      position := position + (if direction == PLUS then PLUS else MINUS);
      position := if position == -1 then 0 else position;
      position := if position == |items| then position - 1 else position;
      if !(0 <= position < |items|) {
        return false;
      }
      current := Some(items[position]);
      next := if |items| > position + 1 then Some(items[position + 1]) else None;
      previous := if position - 1 > MINUS then Some(items[position - 1]) else None;
      ok := true;
    }

    /** stopMoving: drops a queued task and reports the position to the
        onItemScrolled listener when one is set. */
    method StopMoving()
      modifies this`posted, this`events
      ensures movingCreated ==> !posted && events == old(events) + (if scrolledListener then [Scrolled(position)] else [])
      ensures !movingCreated ==> posted == old(posted) && events == old(events)
    {
      if movingCreated {
        posted := false;
        OnItemScrolled();
      }
    }

    /** onItemScroll: the listener, when set, hears the position. */
    method OnItemScroll()
      modifies this`events
      ensures events == old(events) + (if scrollListener then [Scroll(position)] else [])
    {
      if scrollListener {
        events := events + [Scroll(position)];
      }
    }

    /** onItemScrolled: the listener, when set, hears the position. */
    method OnItemScrolled()
      modifies this`events
      ensures events == old(events) + (if scrolledListener then [Scrolled(position)] else [])
    {
      if scrolledListener {
        events := events + [Scrolled(position)];
      }
    }

    /** The result of Moving.stop, with the events logged before it: the
        indicator updated, a queued task dropped and reported to the
        onItemScrolled listener, the buttons enabled. */
    twostate predicate MovingStopped(before: seq<ScrollEvent>)
      reads this
    {
      && IndicatorUpdated()
      && canClickButton
      && (movingCreated ==> !posted && events == before + (if scrolledListener then [Scrolled(position)] else []))
      && (!movingCreated ==> posted == old(posted) && events == before)
    }

    /** The images of calcCurrentPosition at the new position: the item
        itself and its neighbours, none past either end. */
    predicate ShowsItemAt()
      reads this
      requires 0 <= position < |items|
    {
      && current == Some(items[position])
      && next == (if position + 1 < |items| then Some(items[position + 1]) else None)
      && previous == (if position >= 1 then Some(items[position - 1]) else None)
    }

    /** The position update of an out-of-bound step: at most one past
        either end, calcCurrentPosition moves to the neighbour and shows
        it, and ok is false where List.get throws; further out, nothing
        moves. */
    twostate predicate PositionStepped(ok: bool)
      reads this
    {
      && (-1 <= old(position) <= |items| ==>
            && position == NextPosition(old(position), direction, |items|)
            && (ok <==> 0 <= position < |items|)
            && (ok ==> ShowsItemAt())
            && (!ok ==> unchanged(this`current, this`next, this`previous)))
      && (!(-1 <= old(position) <= |items|) ==>
            ok && position == old(position) && unchanged(this`current, this`next, this`previous))
    }

    /** The images shown are those of before. */
    twostate predicate ImagesKept()
      reads this
    {
      unchanged(this`current, this`next, this`previous)
    }

    /** The indicator is as it was. */
    twostate predicate IndicatorKept()
      reads this
    {
      unchanged(this`dots, this`leftArrowVisible, this`rightArrowVisible,
                this`leftTriggerVisible, this`rightTriggerVisible)
    }

    /** Moving.run: one animation step. The onItemScroll listener hears the
        old position. Out of bound, the offset is reset, the position
        updated and, unless that throws, the task stopped; otherwise the
        runnable is posted again. ok is false where the position update
        throws. */
    method Run() returns (ok: bool)
      requires Valid()
      modifies this`left, this`position, this`current, this`next, this`previous,
               this`dots, this`leftArrowVisible, this`rightArrowVisible,
               this`leftTriggerVisible, this`rightTriggerVisible,
               this`posted, this`events, this`canClickButton
      ensures Valid()
      ensures items == old(items) && direction == old(direction) && swipable == old(swipable)
      ensures movingCreated == old(movingCreated) && autoRollRunning == old(autoRollRunning)
      ensures var b := CalcBoundOf(old(position), direction, |items|);
        var out := OutOfBound(old(left) + b.delta, Scaled(b.stop, scaled320), old(position), |items|);
        && (!out ==> ok && left == old(left) + b.delta && Reposted())
        && (out ==> left == 0 && PositionStepped(ok))
        && (out && ok ==> MovingStopped(old(events) + (if scrollListener then [Scroll(old(position))] else [])))
        && (out && !ok ==> Interrupted())
    {
      ok := true;
      var stop := CalcBound();
      ghost var out := OutOfBound(left, Scaled(stop, scaled320), position, |items|);
      assert IsOutOfBound(stop) == out;
      ok := StartAndCheck(stop);
    }

    /** Not out of bound: the old position was heard, the buttons are
        disabled and the runnable is posted again; nothing else moves. */
    twostate predicate Reposted()
      reads this
    {
      && posted && !canClickButton && position == old(position)
      && events == old(events) + (if scrollListener then [Scroll(old(position))] else [])
      && ImagesKept() && IndicatorKept()
    }

    /** The position update threw: the old position was heard and the
        buttons stay disabled; nothing else is updated. */
    twostate predicate Interrupted()
      reads this
    {
      && !canClickButton && posted == old(posted)
      && events == old(events) + (if scrollListener then [Scroll(old(position))] else [])
      && IndicatorKept()
    }

    /** The part of Moving.run after calcBound. */
    method StartAndCheck(stop: int) returns (ok: bool)
      modifies this`left, this`position, this`current, this`next, this`previous,
               this`dots, this`leftArrowVisible, this`rightArrowVisible,
               this`leftTriggerVisible, this`rightTriggerVisible,
               this`posted, this`events, this`canClickButton
      ensures !old(IsOutOfBound(stop)) ==> ok && left == old(left) && Reposted()
      ensures old(IsOutOfBound(stop)) ==> left == 0 && PositionStepped(ok)
      ensures old(IsOutOfBound(stop)) && ok ==>
        MovingStopped(old(events) + (if scrollListener then [Scroll(old(position))] else []))
      ensures old(IsOutOfBound(stop)) && !ok ==> Interrupted()
    {
      ok := true;
      ghost var out := IsOutOfBound(stop);
      Start();
      assert IsOutOfBound(stop) == out;
      if IsOutOfBound(stop) {
        ok := EndStep();
      } else {
        posted := true;
      }
    }

    /** Moving.start: the onItemScroll listener hears the position, and the
        buttons are disabled. */
    method Start()
      modifies this`events, this`canClickButton
      ensures events == old(events) + (if scrollListener then [Scroll(position)] else [])
      ensures !canClickButton
    {
      OnItemScroll();
      canClickButton := false;
    }

    /** The out-of-bound half of Moving.run: the offset is reset, the
        position updated when it is at most one past either end, then,
        unless that throws, the task is stopped. */
    method EndStep() returns (ok: bool)
      modifies this`left, this`position, this`current, this`next, this`previous,
               this`dots, this`leftArrowVisible, this`rightArrowVisible,
               this`leftTriggerVisible, this`rightTriggerVisible,
               this`posted, this`events, this`canClickButton
      ensures left == 0
      ensures PositionStepped(ok)
      ensures ok ==> MovingStopped(old(events))
      ensures !ok ==> IndicatorKept() && unchanged(this`posted, this`events, this`canClickButton)
    {
      ok := Reposition();
      if ok {
        Stop();
      }
    }

    /** The offset reset and the guarded calcCurrentPosition of an
        out-of-bound step. */
    method Reposition() returns (ok: bool)
      modifies this`left, this`position, this`current, this`next, this`previous
      ensures left == 0
      ensures PositionStepped(ok)
    {
      ok := true;
      left := 0;
      if (swipable && position > MINUS && position < |items|) || (position >= -1 && position <= |items|) {
        ok := CalcCurrentPosition();
      }
    }

    /** Moving.stop. */
    method Stop()
      modifies this`dots, this`leftArrowVisible, this`rightArrowVisible,
               this`leftTriggerVisible, this`rightTriggerVisible,
               this`posted, this`events, this`canClickButton
      ensures MovingStopped(old(events))
    {
      UpdateIndicator();
      StopMoving();
      canClickButton := true;
    }

    /** How far the offset still is from the bound of the step it is
        taking; the position and direction fix which of the four cases it
        is. */
    function Remaining(): int
      reads this
    {
      if direction == PLUS && position + 1 < |items| then left + scaled320
      else if direction == PLUS && position + 1 == |items| then -left
      else if direction == MINUS && position != 0 then scaled320 - left
      else left
    }

    /** The handler running the posted task until it stops. With two or
        more items every animation reaches its bound, leaves the offset at
        0, re-enables the buttons and lands on the neighbour in the
        direction, clamped to the items. */
    method Animate()
      requires Valid() && count >= 2 && movingCreated
      requires 0 <= position < count || (position == -1 && direction == PLUS)
      modifies this
      ensures Valid() && items == old(items) && direction == old(direction)
      ensures !posted && left == 0 && canClickButton
      ensures position == Clamp(old(position) + direction, 0, old(count) - 1)
      ensures current == Some(items[position])
    {
      var ok := Run();
      while posted
        invariant Valid() && count >= 2 && movingCreated
        invariant items == old(items) && direction == old(direction)
        invariant ok
        invariant posted ==> position == old(position)
        invariant !posted ==> (&& left == 0 && canClickButton
          && position == NextPosition(old(position), direction, |items|)
          && current == Some(items[position]))
        decreases if posted then (if Remaining() < 0 then 0 else Remaining()) + 1 else 0
      {
        ok := Run();
      }
      NextPositionClamps(old(position), direction, count);
    }

    /** The result of moveItem: with at least one item, a queued task is
        stopped and reported to the onItemScrolled listener, and a new task
        is posted; without items nothing changes. */
    twostate predicate ItemMoved()
      reads this
    {
      && (count > 0 ==> (&& movingCreated && posted
            && events == old(events) + (if old(movingCreated) && scrolledListener then [Scrolled(position)] else [])))
      && (count <= 0 ==> (&& posted == old(posted) && events == old(events)
            && movingCreated == old(movingCreated)))
    }

    /** moveItem. */
    method MoveItem()
      modifies this`posted, this`events, this`movingCreated
      ensures ItemMoved()
    {
      if count > 0 {
        StopMoving();
        movingCreated := true;
        posted := true;
      }
    }

    /** toNextItem: sets the direction, then moves. */
    method ToNextItem(dir: int)
      requires dir == PLUS || dir == MINUS
      modifies this`direction, this`posted, this`events, this`movingCreated
      ensures direction == dir
      ensures ItemMoved()
    {
      direction := dir;
      MoveItem();
    }

    method MoveLeft()
      modifies this`direction, this`posted, this`events, this`movingCreated
      ensures direction == MINUS
      ensures ItemMoved()
    {
      ToNextItem(MINUS);
    }

    method MoveRight()
      modifies this`direction, this`posted, this`events, this`movingCreated
      ensures direction == PLUS
      ensures ItemMoved()
    {
      ToNextItem(PLUS);
    }

    /** The auto-roll timer task: at the last item the position becomes -1
        so that the forward move lands on the first item; a task stopped
        there reports -1. */
    method AutoRollTick()
      modifies this`position, this`direction, this`posted, this`events, this`movingCreated
      ensures position == (if old(position) == count - 1 then -1 else old(position))
      ensures direction == PLUS
      ensures ItemMoved()
    {
      if position == count - 1 {
        position := -1;
      }
      MoveRight();
    }
  }

  /** An auto-roll at the last item, animated to its end, shows the first
      item again. */
  method RollOverFromLast(view: LLSlideView)
    requires view.Valid() && view.count >= 2 && view.position == view.count - 1
    modifies view
    ensures view.items == old(view.items)
    ensures view.position == 0 && view.current == Some(view.items[0])
    ensures !view.posted && view.left == 0 && view.canClickButton
  {
    view.AutoRollTick();
    view.Animate();
  }
}
