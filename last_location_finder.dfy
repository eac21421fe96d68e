/** GingerbreadLastLocationFinder: the most accurate last known fix, over all
    providers, among those older than a given time. The platform's last
    known fixes are an input map; a provider missing from it has none. */
module LastLocationFinder {
  import opened Wrappers
  import opened LocationDV

  /** Float.MAX_VALUE, the initial accuracy bound, as a whole number. */
  const FLOAT_MAX_VALUE: int := 340282346638528859811704183484516925440

  /** A fix that the loop may take: older than minTime, with an accuracy
      below the initial bound. */
  predicate IsCandidate(loc: Location, minTime: int) {
    loc.time < minTime && loc.accuracy.Some? && loc.accuracy.value < FLOAT_MAX_VALUE
  }

  /** The provider at index i offers a candidate fix. */
  predicate CandidateAt(providers: seq<string>, lastKnown: map<string, Location>, minTime: int, i: int)
    requires 0 <= i < |providers|
  {
    providers[i] in lastKnown && IsCandidate(lastKnown[providers[i]], minTime)
  }

  /** What getLastBestLocation returns: null exactly when no provider
      offers a candidate; otherwise the fix of a candidate provider k whose
      accuracy is at most every candidate's, and strictly below that of
      every candidate listed before k. */
  ghost predicate IsLastBest(providers: seq<string>, lastKnown: map<string, Location>, minTime: int, r: Option<Location>) {
    && (r.None? <==> forall i :: 0 <= i < |providers| ==> !CandidateAt(providers, lastKnown, minTime, i))
    && (r.Some? ==>
          exists k :: 0 <= k < |providers| && CandidateAt(providers, lastKnown, minTime, k)
            && r.value == lastKnown[providers[k]]
            && (forall i :: 0 <= i < |providers| && CandidateAt(providers, lastKnown, minTime, i) ==>
                  r.value.accuracy.value <= lastKnown[providers[i]].accuracy.value)
            && (forall i :: 0 <= i < k && CandidateAt(providers, lastKnown, minTime, i) ==>
                  r.value.accuracy.value < lastKnown[providers[i]].accuracy.value))
  }

  /** IsLastBest determines the fix: the result depends on the providers,
      their last known fixes and minTime alone, so never on minDistance. */
  lemma LastBestIsUnique(providers: seq<string>, lastKnown: map<string, Location>, minTime: int, r1: Option<Location>, r2: Option<Location>)
    requires IsLastBest(providers, lastKnown, minTime, r1)
    requires IsLastBest(providers, lastKnown, minTime, r2)
    ensures r1 == r2
  {
    if r1.Some? {
      assert r2.Some?;
      var k1 :| 0 <= k1 < |providers| && CandidateAt(providers, lastKnown, minTime, k1)
        && r1.value == lastKnown[providers[k1]]
        && (forall i :: 0 <= i < |providers| && CandidateAt(providers, lastKnown, minTime, i) ==>
              r1.value.accuracy.value <= lastKnown[providers[i]].accuracy.value)
        && (forall i :: 0 <= i < k1 && CandidateAt(providers, lastKnown, minTime, i) ==>
              r1.value.accuracy.value < lastKnown[providers[i]].accuracy.value);
      var k2 :| 0 <= k2 < |providers| && CandidateAt(providers, lastKnown, minTime, k2)
        && r2.value == lastKnown[providers[k2]]
        && (forall i :: 0 <= i < |providers| && CandidateAt(providers, lastKnown, minTime, i) ==>
              r2.value.accuracy.value <= lastKnown[providers[i]].accuracy.value)
        && (forall i :: 0 <= i < k2 && CandidateAt(providers, lastKnown, minTime, i) ==>
              r2.value.accuracy.value < lastKnown[providers[i]].accuracy.value);
      assert k1 == k2;
    }
  }

  /** getLastBestLocation: the minimum-accuracy candidate, ties to the
      earliest provider because the comparison is strict. */
  method GetLastBestLocation(providers: seq<string>, lastKnown: map<string, Location>, minDistance: int, minTime: int)
    returns (bestResult: Option<Location>)
    ensures IsLastBest(providers, lastKnown, minTime, bestResult)
  {
    bestResult := None;
    var bestAccuracy: int := FLOAT_MAX_VALUE;
    ghost var bestIndex: int := -1;
    for j := 0 to |providers|
      invariant bestResult.None? <==> bestIndex == -1
      invariant bestResult.None? ==> bestAccuracy == FLOAT_MAX_VALUE
      invariant bestResult.None? ==> forall i :: 0 <= i < j ==> !CandidateAt(providers, lastKnown, minTime, i)
      invariant bestResult.Some? ==>
        && 0 <= bestIndex < j && CandidateAt(providers, lastKnown, minTime, bestIndex)
        && bestResult.value == lastKnown[providers[bestIndex]]
        && bestAccuracy == bestResult.value.accuracy.value
      invariant forall i :: 0 <= i < j && CandidateAt(providers, lastKnown, minTime, i) ==>
        bestAccuracy <= lastKnown[providers[i]].accuracy.value
      invariant forall i :: 0 <= i < bestIndex && CandidateAt(providers, lastKnown, minTime, i) ==>
        bestAccuracy < lastKnown[providers[i]].accuracy.value
    {
      var provider := providers[j];
      if provider in lastKnown {
        var location := lastKnown[provider];
        var accuracy := location.Accuracy();
        var time := location.time;
        if time < minTime && location.accuracy.Some? && accuracy < bestAccuracy {
          bestResult := Some(location);
          bestAccuracy := accuracy;
          bestIndex := j;
        }
      }
    }
  }
}
