/** LLImageCache: a map from keys to images capped at MAX_CACHE_SLOTS. The
    Java class keeps one static map; here it is the field of one object.
    Eviction walks the key set's iterator, whose order is the map's: the
    model lets each victim be any key the iterator has not yet returned. */
module ImageCache {
  import opened Wrappers

  const MAX_CACHE_SLOTS: nat := 40

  /** A decoded image, known here only by identity. */
  datatype Bitmap = Bitmap(id: nat)

  /** The NullPointerException of ConcurrentHashMap.get(null). */
  datatype NullKey = NullKey

  class LLImageCache {
    var sendungenCache: map<string, Bitmap>

    constructor ()
      ensures sendungenCache == map[]
    {
      sendungenCache := map[];
    }

    /** setSendungImage. A null key or image changes nothing. Otherwise, when
        one more entry would exceed the cap, entries are evicted until it
        would not, and then the key is bound to the image. `evicted` names
        the keys removed. */
    method SetSendungImage(key: Option<string>, image: Option<Bitmap>) returns (ghost evicted: set<string>)
      modifies this
      ensures key.None? || image.None? ==> sendungenCache == old(sendungenCache) && evicted == {}
      ensures key.Some? && image.Some? ==>
        && evicted <= old(sendungenCache).Keys
        && sendungenCache == (old(sendungenCache) - evicted)[key.value := image.value]
        && (|old(sendungenCache)| + 1 <= MAX_CACHE_SLOTS ==> evicted == {})
        && (|old(sendungenCache)| + 1 > MAX_CACHE_SLOTS ==> |old(sendungenCache)| - |evicted| == MAX_CACHE_SLOTS - 1)
        && (|old(sendungenCache)| >= MAX_CACHE_SLOTS ==> evicted != {})
        && |sendungenCache| <= MAX_CACHE_SLOTS
      ensures |old(sendungenCache)| <= MAX_CACHE_SLOTS ==> |sendungenCache| <= MAX_CACHE_SLOTS
    {
      evicted := {};
      if key.Some? && image.Some? {
        if |sendungenCache| + 1 > MAX_CACHE_SLOTS {
          var keyIter := sendungenCache.Keys;
          while keyIter != {} && |sendungenCache| + 1 > MAX_CACHE_SLOTS
            invariant evicted <= old(sendungenCache).Keys
            invariant sendungenCache == old(sendungenCache) - evicted
            invariant keyIter == sendungenCache.Keys
            invariant |sendungenCache| + |evicted| == |old(sendungenCache)|
            invariant |sendungenCache| + 1 >= MAX_CACHE_SLOTS
            decreases keyIter
          {
            var next :| next in keyIter;
            keyIter := keyIter - {next};
            assert (sendungenCache - {next}).Keys == sendungenCache.Keys - {next};
            sendungenCache := sendungenCache - {next};
            evicted := evicted + {next};
          }
        }
        sendungenCache := sendungenCache[key.value := image.value];
      }
    }

    /** getSendungenImage: the bound image, None for an unbound key; a null
        key throws. */
    method GetSendungenImage(key: Option<string>) returns (r: Result<Option<Bitmap>, NullKey>)
      ensures key.None? ==> r.Failure?
      ensures key.Some? ==> r.Success?
      ensures key.Some? && key.value in sendungenCache ==> r.value == Some(sendungenCache[key.value])
      ensures key.Some? && key.value !in sendungenCache ==> r.value == None
    {
      if key.None? {
        return Failure(NullKey);
      }
      if key.value in sendungenCache {
        r := Success(Some(sendungenCache[key.value]));
      } else {
        r := Success(None);
      }
    }

    method Clear()
      modifies this
      ensures sendungenCache == map[]
    {
      sendungenCache := map[];
    }

    method IsEmpty() returns (r: bool)
      ensures r <==> |sendungenCache| == 0
    {
      r := |sendungenCache| == 0;
    }
  }

  /** A put followed by a get of the same key returns the image put. */
  method PutThenGet(cache: LLImageCache, key: string, image: Bitmap) returns (r: Result<Option<Bitmap>, NullKey>)
    modifies cache
    ensures r == Success(Some(image))
    ensures |old(cache.sendungenCache)| <= MAX_CACHE_SLOTS ==> |cache.sendungenCache| <= MAX_CACHE_SLOTS
  {
    var _ := cache.SetSendungImage(Some(key), Some(image));
    r := cache.GetSendungenImage(Some(key));
  }

  /** After clear the cache reports empty. */
  method ClearThenIsEmpty(cache: LLImageCache) returns (r: bool)
    modifies cache
    ensures r
  {
    cache.Clear();
    r := cache.IsEmpty();
  }
}
