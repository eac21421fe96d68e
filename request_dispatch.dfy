/** LLRequestResponsibleObject.handleMessage: a request's result message is
    dispatched by its code to the matching callback of the object itself,
    mirrored to the decorated delegate when there is one, and then every
    message is closed by onRequestFinished on both. The message payload is
    passed through untouched, so only its code is modelled. */
module RequestDispatch {

  const REQUEST_FAILED: int := 0x34
  const REQUEST_SUCCESSED: int := 0x35
  const REQUEST_ABORTED: int := 0x36
  const REQUEST_IMAGE_SUCCESSED: int := 0x37
  const REQUEST_IMAGE_FAILED: int := 0x38

  datatype Callback =
    | OnRequestFailed
    | OnRequestSuccessed
    | OnRequestAborted
    | OnRequestImageSuccessed
    | OnRequestImageFailed
    | OnRequestFinished

  /** Whose callback is called: the object's own or its delegate's. */
  datatype Target = Self | Delegate

  datatype Call = Call(target: Target, callback: Callback)

  /** The codes of the request classes and the callback each one stands
      for. */
  const CodeTable: map<int, Callback> := map[
    REQUEST_FAILED := OnRequestFailed,
    REQUEST_SUCCESSED := OnRequestSuccessed,
    REQUEST_ABORTED := OnRequestAborted,
    REQUEST_IMAGE_SUCCESSED := OnRequestImageSuccessed,
    REQUEST_IMAGE_FAILED := OnRequestImageFailed
  ]

  /** The calls made for a message with the given code, in order. A
      delegate is present when the object was built around one. */
  function HandleMessage(what: int, hasDelegate: bool): (trace: seq<Call>)
    ensures |trace| == (if what in CodeTable then 2 else 1) * (if hasDelegate then 2 else 1)
    ensures what in CodeTable ==> trace[0] == Call(Self, CodeTable[what])
    ensures what !in CodeTable ==> forall i :: 0 <= i < |trace| ==> trace[i].callback == OnRequestFinished
    ensures forall i :: 0 <= i < |trace| ==>
      (trace[i].callback == OnRequestFinished <==> i >= |trace| - (if hasDelegate then 2 else 1))
    ensures !hasDelegate ==> forall i :: 0 <= i < |trace| ==> trace[i].target == Self
    ensures hasDelegate ==> forall i :: 0 <= i < |trace| / 2 ==>
      trace[2 * i] == Call(Self, trace[2 * i].callback) && trace[2 * i + 1] == Call(Delegate, trace[2 * i].callback)
  {
    var specific :=
      if what == REQUEST_FAILED then [OnRequestFailed]
      else if what == REQUEST_SUCCESSED then [OnRequestSuccessed]
      else if what == REQUEST_ABORTED then [OnRequestAborted]
      else if what == REQUEST_IMAGE_SUCCESSED then [OnRequestImageSuccessed]
      else if what == REQUEST_IMAGE_FAILED then [OnRequestImageFailed]
      else [];
    var callbacks := specific + [OnRequestFinished];
    FinishLast(callbacks, hasDelegate);
    Mirrored(callbacks, hasDelegate)
  }

  /** When only the last callback is the finishing one, the finishing calls
      are exactly the last call, or the last two with a delegate. */
  lemma FinishLast(callbacks: seq<Callback>, hasDelegate: bool)
    requires |callbacks| >= 1 && callbacks[|callbacks| - 1] == OnRequestFinished
    requires forall i :: 0 <= i < |callbacks| - 1 ==> callbacks[i] != OnRequestFinished
    ensures var trace := Mirrored(callbacks, hasDelegate);
      forall i :: 0 <= i < |trace| ==>
        (trace[i].callback == OnRequestFinished <==> i >= |trace| - (if hasDelegate then 2 else 1))
  {
    var trace := Mirrored(callbacks, hasDelegate);
    forall i | 0 <= i < |trace|
      ensures trace[i].callback == OnRequestFinished <==> i >= |trace| - (if hasDelegate then 2 else 1)
    {
      if hasDelegate {
        var j := i / 2;
        assert i == 2 * j || i == 2 * j + 1;
        assert trace[i].callback == callbacks[j];
      }
    }
  }

  /** Each callback on the object, followed by the same one on the delegate
      when there is one. */
  function Mirrored(callbacks: seq<Callback>, hasDelegate: bool): (trace: seq<Call>)
    ensures |trace| == |callbacks| * (if hasDelegate then 2 else 1)
    ensures !hasDelegate ==> forall i :: 0 <= i < |trace| ==> trace[i] == Call(Self, callbacks[i])
    ensures hasDelegate ==> forall i :: 0 <= i < |callbacks| ==>
      trace[2 * i] == Call(Self, callbacks[i]) && trace[2 * i + 1] == Call(Delegate, callbacks[i])
  {
    if callbacks == [] then []
    else
      var head := if hasDelegate then [Call(Self, callbacks[0]), Call(Delegate, callbacks[0])]
                  else [Call(Self, callbacks[0])];
      head + Mirrored(callbacks[1..], hasDelegate)
  }

  /** The calls made on one target, in order. */
  function CallsOn(trace: seq<Call>, target: Target): (r: seq<Callback>)
    ensures |r| <= |trace|
  {
    if trace == [] then []
    else (if trace[0].target == target then [trace[0].callback] else []) + CallsOn(trace[1..], target)
  }

  /** Distinct codes stand for distinct callbacks, and none is the finishing
      callback. */
  lemma CodesAreDistinct(a: int, b: int)
    requires a in CodeTable && b in CodeTable && a != b
    ensures CodeTable[a] != CodeTable[b]
    ensures CodeTable[a] != OnRequestFinished
  {
  }

  /** The object and its delegate see the same callbacks in the same order,
      and the object sees the same callbacks whether it has a delegate or
      not. */
  lemma {:induction false} DelegateMirrorsSelf(callbacks: seq<Callback>)
    ensures CallsOn(Mirrored(callbacks, true), Self) == callbacks
    ensures CallsOn(Mirrored(callbacks, true), Delegate) == callbacks
    ensures CallsOn(Mirrored(callbacks, false), Self) == callbacks
    ensures CallsOn(Mirrored(callbacks, false), Delegate) == []
  {
    if callbacks != [] {
      DelegateMirrorsSelf(callbacks[1..]);
      var t := Mirrored(callbacks, true);
      assert t[1..][1..] == Mirrored(callbacks[1..], true);
      var f := Mirrored(callbacks, false);
      assert f[1..] == Mirrored(callbacks[1..], false);
    }
  }

  /** What each target sees of a message: the specific callback for a
      known code (none for an unknown code) and then the finishing one; the
      delegate sees the same, or nothing when there is none. */
  lemma MessageCalls(what: int, hasDelegate: bool)
    ensures var own := (if what in CodeTable then [CodeTable[what]] else []) + [OnRequestFinished];
      && CallsOn(HandleMessage(what, hasDelegate), Self) == own
      && CallsOn(HandleMessage(what, hasDelegate), Delegate) == (if hasDelegate then own else [])
  {
    var own := (if what in CodeTable then [CodeTable[what]] else []) + [OnRequestFinished];
    assert HandleMessage(what, hasDelegate) == Mirrored(own, hasDelegate);
    DelegateMirrorsSelf(own);
  }

  /** onRequestFinished runs exactly once on the object, and exactly once on
      the delegate when there is one. */
  lemma FinishedOnce(what: int, hasDelegate: bool)
    ensures multiset(CallsOn(HandleMessage(what, hasDelegate), Self))[OnRequestFinished] == 1
    ensures multiset(CallsOn(HandleMessage(what, hasDelegate), Delegate))[OnRequestFinished]
      == (if hasDelegate then 1 else 0)
  {
    MessageCalls(what, hasDelegate);
    var own := (if what in CodeTable then [CodeTable[what]] else []) + [OnRequestFinished];
    if what in CodeTable {
      assert CodeTable[what] != OnRequestFinished;
      assert multiset(own) == multiset{CodeTable[what]} + multiset{OnRequestFinished};
    } else {
      assert own == [OnRequestFinished];
    }
  }

  /** The full trace of a known code: the specific callback on the object,
      on the delegate, then the finishing callback on each; without a
      delegate only the object's two calls. */
  lemma KnownCodeTrace(what: int, hasDelegate: bool)
    requires what in CodeTable
    ensures var x := CodeTable[what];
      HandleMessage(what, hasDelegate)
        == if hasDelegate then [Call(Self, x), Call(Delegate, x), Call(Self, OnRequestFinished), Call(Delegate, OnRequestFinished)]
           else [Call(Self, x), Call(Self, OnRequestFinished)]
  {
    var t := HandleMessage(what, hasDelegate);
    if hasDelegate {
      assert t[2 * 1] == Call(Self, OnRequestFinished);
    }
  }
}
