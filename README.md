# SlidingGallery support library: sequential cores in Dafny

This project models the small sequential cores under the views, HTTP plumbing and platform
wrappers of the SlidingGallery Android support library, and proves what each one promises.
Each Java file becomes one Dafny module:

| module | file | what it models |
|---|---|---|
| `LocationDV` (location_dv.dfy) | geo/LocationDV.java | the location wrapper, its provider flags and the `compareTo` heuristic that picks the better of two fixes |
| `LocationUpdates` (location_update_manager.dfy) | location/LocationUpdateManager.java | the tracking session: a start/stop state machine over the platform subscriptions, the provider-disabled receiver, the unknown-best-provider listener and the one-minute deadline timer |
| `LastLocationFinder` (last_location_finder.dfy) | location/GingerbreadLastLocationFinder.java | the arg-min loop over the providers' last known fixes |
| `ImageCache` (image_cache.dfy) | lightlib/backend/LLImageCache.java | the image map capped at 40 entries with eviction before a put |
| `HighLight` (highlight_text.dfy) | lightlib/ui/view/HighLightText.java | the scan that reports the span of every word starting with a header |
| `AddressDV` (address_dv.dfy) | geo/AddressDV.java | the split of the first address line into street and house number, and the guarded getters |
| `SlideView` (slide_view.dfy) | lightlib/ui/view/gallery/LLSlideView.java | the slide gallery's position, offset and bound arithmetic, its animation task and its indicator |
| `MapView` (ext_map_view.dfy) | lightlib/ui/view/ExtMapView.java | the double-click detector, the moving/stopped edge detector over map centres, the pan check and the zoom baseline |
| `RequestDispatch` (request_dispatch.dfy) | lightlib/backend/base/LLRequestResponsibleObject.java | the dispatch of request result codes to callbacks, mirrored to an optional delegate |

`Wrappers` (wrappers.dfy) holds the `Option` and `Result` datatypes. A Java `null` is `None`, and
a thrown exception is a `Failure`. Objects whose fields the Java code updates in place are Dafny
classes with `modifies` frames; pure Java code is datatypes, functions and lemmas. Platform
services are inputs:
- the Android `LocationManager` answers;
- the clock;
- the map centre and zoom level;
- which platform removals throw.

Listener callbacks are appended to an `events` log, each only when its listener is set; the presence of a listener is a flag (the MapView hooks are the exception listed under "## Left out").

## Model

All paths are relative to the repository root; `src/de/cellular/lib/` is the common prefix.

| member | source | states |
|---|---|---|
| LocationDV.ValueOf | src/de/cellular/lib/geo/LocationDV.java:73-92 | a null location is rejected; otherwise the wrapper holds it, is valid, and provider() is the provider its name stands for ("network", "gps" or unknown), never NULL |
| LocationDV.HasValidLocation | src/de/cellular/lib/geo/LocationDV.java:177-180 | true iff a location is wrapped, which is exactly when provider() is not NULL |
| LocationDV.Provider | src/de/cellular/lib/geo/LocationDV.java:204-210 | NULL iff no location is wrapped; otherwise NETWORK iff the network flag is set, GPS iff only the GPS flag is set, UNKNOWN iff neither |
| LocationDV.GetAccuracy | src/de/cellular/lib/geo/LocationDV.java:188-197 | fails exactly when no location is wrapped; a fix without accuracy reports 0, otherwise its accuracy |
| LocationDV.IsNetworkProvider | src/de/cellular/lib/geo/LocationDV.java:99-105 | fails exactly without a location; true iff provider() is NETWORK |
| LocationDV.IsGpsProvider | src/de/cellular/lib/geo/LocationDV.java:112-118 | fails exactly without a location; with the network flag clear, true iff provider() is GPS |
| LocationDV.IsSameProvider | src/de/cellular/lib/geo/LocationDV.java:328-335 | two names are the same provider iff both are null or both are equal strings |
| LocationDV.Better | src/de/cellular/lib/geo/LocationDV.java:259-319 | the whole decision table: null operands are discarded; more than 15 minutes newer wins and more than 15 minutes older loses regardless of accuracy; inside the window a more accurate fix wins, and a newer fix wins when it is not less accurate, or at most 200 m less accurate from the same provider; everything else returns the argument |
| LocationDV.CompareTo | src/de/cellular/lib/geo/LocationDV.java:259-319 | the result is one of the two operands; without a location on `this` it is the argument; without one on the argument it is `this`; it has a location whenever either operand has one |
| LocationDV.TiesFavourArgument | src/de/cellular/lib/geo/LocationDV.java:277-318 | equal times and equal accuracies return the argument, in either order |
| LocationDV.CompareToSelf | src/de/cellular/lib/geo/LocationDV.java:259-319 | a fix compared with itself is itself |
| LocationDV.NotTransitive | src/de/cellular/lib/geo/LocationDV.java:296-318 | three fixes from one provider where each beats the next and the last beats the first: the heuristic is not an order |
| LocationDV.ReceiverCanAlwaysWin | src/de/cellular/lib/geo/LocationDV.java:296-318 | for any two fixes from one provider inside the window, the newer one at most 200 m less accurate: each wins when it is the receiver |
| LocationDV.DifferentProviderKeepsCurrent | src/de/cellular/lib/geo/LocationDV.java:296-318 | for the same two fixes from different providers the older, more accurate one wins whichever is the receiver |
| LocationUpdates.FindLatestLocation | src/de/cellular/lib/location/LocationUpdateManager.java:441-474 | a fix is found iff both the GPS and the network last known fixes exist, and it is then the GPS fix compared with the network fix |
| LocationUpdates.TornDown | src/de/cellular/lib/location/LocationUpdateManager.java:481-594 | a stop removes no subscription whose removal throws, and removes the GPS, network and receiver subscriptions it holds when their removal does not throw, each independently of the others |
| LocationUpdates.UnknownBestRemoved | src/de/cellular/lib/location/LocationUpdateManager.java:575-594 | never a throwing removal; the listener subscription is removed iff the listener is present and its removal does not throw, and the pending-intent subscription only after that and only with the intent present |
| LocationUpdates.StartAdds | src/de/cellular/lib/location/LocationUpdateManager.java:286-305 | a start subscribes GPS and network iff listed, the receiver iff its reference is present, and both unknown-best subscriptions iff the best provider exists, differs from the best available one and the listener is present |
| LocationUpdates.LocationUpdateManager.constructor | src/de/cellular/lib/location/LocationUpdateManager.java:150-209 | idle, no timer, the unknown-best listener and the disabled-provider receiver present, nothing registered, the invariant established |
| LocationUpdates.LocationUpdateManager.TimerIsRunning | src/de/cellular/lib/location/LocationUpdateManager.java:261-264 | true iff both the timer and its task are present |
| LocationUpdates.LocationUpdateManager.SetListenerLocationUpdate | src/de/cellular/lib/location/LocationUpdateManager.java:601-604 | sets the update listener |
| LocationUpdates.LocationUpdateManager.SetOnStartLocationTracingListener | src/de/cellular/lib/location/LocationUpdateManager.java:637-640 | sets the start listener |
| LocationUpdates.LocationUpdateManager.SetOnStopLocationTracingListener | src/de/cellular/lib/location/LocationUpdateManager.java:656-659 | sets the stop listener |
| LocationUpdates.LocationUpdateManager.StartGpsTimer | src/de/cellular/lib/location/LocationUpdateManager.java:226-240 | afterwards timerIsRunning holds |
| LocationUpdates.LocationUpdateManager.ResetGpsTimer | src/de/cellular/lib/location/LocationUpdateManager.java:245-254 | afterwards timerIsRunning does not hold; a running timer is dropped, the timer-task reference is kept |
| LocationUpdates.LocationUpdateManager.NotifyLocationUpdate | src/de/cellular/lib/location/LocationUpdateManager.java:611-624 | the fix reaches the listener exactly when one is set |
| LocationUpdates.LocationUpdateManager.OnLocationUpdate | src/de/cellular/lib/location/LocationUpdateManager.java:626-630 | every incoming fix is forwarded as it is, unfiltered |
| LocationUpdates.LocationUpdateManager.OnStartLocationTracing | src/de/cellular/lib/location/LocationUpdateManager.java:645-649 | the start listener is called when set |
| LocationUpdates.LocationUpdateManager.OnStopLocationTracing | src/de/cellular/lib/location/LocationUpdateManager.java:664-679 | the stop callback is posted exactly when the stop listener is set |
| LocationUpdates.LocationUpdateManager.NotifyLatestLocation | src/de/cellular/lib/location/LocationUpdateManager.java:441-474 | the listener gets the better last known fix exactly when both last known fixes exist |
| LocationUpdates.LocationUpdateManager.SearchUnknownBestProviderListener | src/de/cellular/lib/location/LocationUpdateManager.java:325-348 | the unknown-best flag is set iff the best provider exists, differs from the best available one and the listener is present; the listener is subscribed exactly then |
| LocationUpdates.LocationUpdateManager.InitUnknownBestLocationListener | src/de/cellular/lib/location/LocationUpdateManager.java:380-407 | the unknown-best pending intent is subscribed only when the flag is set |
| LocationUpdates.LocationUpdateManager.InitGpsListener | src/de/cellular/lib/location/LocationUpdateManager.java:412-434 | the GPS subscription is made iff the provider list contains "gps" |
| LocationUpdates.LocationUpdateManager.InitNetworkLocationListener | src/de/cellular/lib/location/LocationUpdateManager.java:353-375 | the network subscription is made iff the provider list contains "network" |
| LocationUpdates.LocationUpdateManager.RegisterProviderDisabledReceiver | src/de/cellular/lib/location/LocationUpdateManager.java:305 | the receiver is registered only while its reference is present |
| LocationUpdates.LocationUpdateManager.Subscribe | src/de/cellular/lib/location/LocationUpdateManager.java:286-305 | the subscriptions of a start, each made exactly under its own condition |
| LocationUpdates.LocationUpdateManager.StartLocationTracing | src/de/cellular/lib/location/LocationUpdateManager.java:269-318 | keeps the invariant; touches only the fields a start writes, so the listener flags, the unknown-best listener and the receiver keep their values; while running changes nothing; from idle fires the start listener, then notifies the better last known fix, makes exactly the subscriptions of StartAdds, sets the unknown-best flag, and ends running with a fresh timer; after any stop it can never enable unknown-best updates |
| LocationUpdates.LocationUpdateManager.BeginTracing | src/de/cellular/lib/location/LocationUpdateManager.java:275-310 | the steps from idle: the start listener fires, the better last known fix is notified, each subscription is made under its own condition, and the session ends running with a timer |
| LocationUpdates.LocationUpdateManager.StopLocationProviderDisabledListener | src/de/cellular/lib/location/LocationUpdateManager.java:503-520 | the receiver reference is dropped whether or not unregistering throws |
| LocationUpdates.LocationUpdateManager.StopGpsLocationListener | src/de/cellular/lib/location/LocationUpdateManager.java:527-544 | the GPS handle is dropped whether or not the removal throws |
| LocationUpdates.LocationUpdateManager.StopNetworkLocationListener | src/de/cellular/lib/location/LocationUpdateManager.java:551-568 | the network handle is dropped whether or not the removal throws |
| LocationUpdates.LocationUpdateManager.StopUnknownBestLocationProviderListener | src/de/cellular/lib/location/LocationUpdateManager.java:575-594 | the unknown-best listener is dropped in every case; a throwing listener removal skips the pending-intent removal |
| LocationUpdates.LocationUpdateManager.StopLocationTracing | src/de/cellular/lib/location/LocationUpdateManager.java:481-498 | keeps the invariant and touches only the fields a stop writes; while idle changes nothing; otherwise clears running, cancels the timer, drops every handle, listener and receiver reference whatever the removals throw, removes exactly what TornDown allows, and fires the stop listener |
| LocationUpdates.LocationUpdateManager.TearDown | src/de/cellular/lib/location/LocationUpdateManager.java:488-495 | the teardown: no timer, no GPS or network handle, no unknown-best listener or receiver reference, exactly the subscriptions TornDown allows are removed, then the stop listener fires |
| LocationUpdates.LocationUpdateManager.OnProviderDisabledBroadcast | src/de/cellular/lib/location/LocationUpdateManager.java:150-166 | a true provider-enabled extra changes nothing; a false or missing one is a stop then a start: the removals of TornDown when the session was running, then the subscriptions of StartAdds with the references the stop left; the log gains the stop callback (when running), the start callback and the latest fix; the session ends running with a timer |
| LocationUpdates.LocationUpdateManager.OnUnknownBestProviderEnabled | src/de/cellular/lib/location/LocationUpdateManager.java:182-188 | a stop then a start, with the same composed removals, subscriptions and logged callbacks; after a real stop the unknown-best listener is gone, so the start cannot enable unknown-best updates |
| LocationUpdates.LocationUpdateManager.OnTimerExpired | src/de/cellular/lib/location/LocationUpdateManager.java:229-237 | exactly a stop: the same result as stopLocationTracing, nothing changed while idle |
| LastLocationFinder.GetLastBestLocation | src/de/cellular/lib/location/GingerbreadLastLocationFinder.java:20-41 | null iff no provider has a fix older than minTime with an accuracy; otherwise a candidate fix whose accuracy is at most every candidate's and strictly below every earlier candidate's (ties go to the first provider) |
| LastLocationFinder.LastBestIsUnique | src/de/cellular/lib/location/GingerbreadLastLocationFinder.java:20-41 | the specification determines the result, so it depends on providers, fixes and minTime only, never on minDistance |
| ImageCache.LLImageCache.constructor | src/de/cellular/lib/lightlib/backend/LLImageCache.java:31 | the cache starts empty |
| ImageCache.LLImageCache.SetSendungImage | src/de/cellular/lib/lightlib/backend/LLImageCache.java:33-47 | a null key or image changes nothing; otherwise entries are evicted only when size + 1 > 40 and only until size + 1 <= 40 (at least one at 40 entries, even for a present key), the others keep their values, then the key is bound to the image; a cache of at most 40 stays at most 40 |
| ImageCache.LLImageCache.GetSendungenImage | src/de/cellular/lib/lightlib/backend/LLImageCache.java:49-51 | the bound image, none for an unbound key, a failure for a null key |
| ImageCache.LLImageCache.Clear | src/de/cellular/lib/lightlib/backend/LLImageCache.java:53-56 | the cache is empty afterwards |
| ImageCache.LLImageCache.IsEmpty | src/de/cellular/lib/lightlib/backend/LLImageCache.java:58-60 | true iff there are no entries |
| ImageCache.PutThenGet | src/de/cellular/lib/lightlib/backend/LLImageCache.java:33-51 | a get after a put of the same key returns the image put, and the cap holds |
| ImageCache.ClearThenIsEmpty | src/de/cellular/lib/lightlib/backend/LLImageCache.java:53-60 | after clear the cache reports empty |
| HighLight.IndexOf | src/de/cellular/lib/lightlib/ui/view/HighLightText.java:57 | -1 when the pattern does not occur at or after `from`, otherwise its first occurrence there |
| HighLight.SpanEnd | src/de/cellular/lib/lightlib/ui/view/HighLightText.java:61-63 | the first ' ' or ',' at or after the start, or the text length: no delimiter before it, a delimiter at it |
| HighLight.Spans | src/de/cellular/lib/lightlib/ui/view/HighLightText.java:55-73 | the spans found from an offset lie after it and inside the text, at most one per character |
| HighLight.SpansStep | src/de/cellular/lib/lightlib/ui/view/HighLightText.java:57-64 | one iteration: a found occurrence gives a non-empty span and the scan resumes at its end; none ends the scan |
| HighLight.SpansAreWords | src/de/cellular/lib/lightlib/ui/view/HighLightText.java:57-66 | every span starts at an occurrence of the header and is a whole word: no delimiter inside, a delimiter or the text end after it |
| HighLight.SpansOrdered | src/de/cellular/lib/lightlib/ui/view/HighLightText.java:57-64 | spans are increasing and do not overlap |
| HighLight.SpansAreFirstOccurrences | src/de/cellular/lib/lightlib/ui/view/HighLightText.java:55-73 | each span starts at the first occurrence after the previous span's end; there are none iff there is no occurrence; after the last one there is no occurrence |
| HighLight.SpansCoverOccurrences | src/de/cellular/lib/lightlib/ui/view/HighLightText.java:55-73 | every occurrence of the header lies inside some span; occurrences inside a word are skipped |
| HighLight.EmptyHeaderStalls | src/de/cellular/lib/lightlib/ui/view/HighLightText.java:55-73 | with an empty header at a delimiter or the text end the search finds the offset itself and the word ends there: the loop never advances |
| HighLight.DelimiterHeaderStalls | src/de/cellular/lib/lightlib/ui/view/HighLightText.java:57-64 | a header starting with ' ' or ',' gives words that end where they start |
| HighLight.HighLightText.constructor | src/de/cellular/lib/lightlib/ui/view/HighLightText.java:36-40 | holds the text and the header, nothing highlighted |
| HighLight.HighLightText.DoHighLight | src/de/cellular/lib/lightlib/ui/view/HighLightText.java:86 | the sink appends one span |
| HighLight.HighLightText.Highlight | src/de/cellular/lib/lightlib/ui/view/HighLightText.java:48-74 | for a proper header the loop terminates and passes exactly the spans of Spans, in text order, to doHighLight; a header starting with ' ' or ',' that does not occur ends the loop at once and reports nothing |
| AddressDV.TrimLeft | src/de/cellular/lib/geo/AddressDV.java:182 | drops exactly the leading characters <= ' ' |
| AddressDV.TrimRight | src/de/cellular/lib/geo/AddressDV.java:182 | drops exactly the trailing characters <= ' ' |
| AddressDV.JavaTrim | src/de/cellular/lib/geo/AddressDV.java:182 | String.trim: the result neither starts nor ends with a character <= ' ' |
| AddressDV.TrimKeeps | src/de/cellular/lib/geo/AddressDV.java:182 | a line that neither starts nor ends with a character <= ' ' is its own trim |
| AddressDV.TrimIdempotent | src/de/cellular/lib/geo/AddressDV.java:182 | trimming twice is trimming once |
| AddressDV.FirstSpace | src/de/cellular/lib/geo/AddressDV.java:182 | the index of the first ' ' |
| AddressDV.RawSplit | src/de/cellular/lib/geo/AddressDV.java:182 | the pieces between spaces: at least one, none containing a space, the whole string when it has no space |
| AddressDV.JoinRawSplit | src/de/cellular/lib/geo/AddressDV.java:182 | joining the pieces with single spaces gives back the string |
| AddressDV.DropTrailingEmpty | src/de/cellular/lib/geo/AddressDV.java:182 | removes exactly the trailing empty pieces |
| AddressDV.JavaSplit | src/de/cellular/lib/geo/AddressDV.java:182 | String.split(" "): pieces without spaces |
| AddressDV.SplitOfUnpadded | src/de/cellular/lib/geo/AddressDV.java:182 | on a string not ending in a space split drops nothing and inverts joining |
| AddressDV.Tokens | src/de/cellular/lib/geo/AddressDV.java:182 | the tokens of the trimmed line: at least one, without spaces, joining back to the trimmed line |
| AddressDV.TokensOfKept | src/de/cellular/lib/geo/AddressDV.java:182 | on such a line the tokens are exactly the pieces between its spaces |
| AddressDV.LastHouseNumber | src/de/cellular/lib/geo/AddressDV.java:190-198 | none iff no token consists only of digits, '\|' and '-' |
| AddressDV.LastHouseNumberIsLast | src/de/cellular/lib/geo/AddressDV.java:190-198 | the house number is a matching token and no later token matches |
| AddressDV.HouseNumberSnoc | src/de/cellular/lib/geo/AddressDV.java:190-198 | one more token: a number-like token becomes the house number, any other keeps the previous one, as each iteration's setFeatureName does |
| AddressDV.TokenStep | src/de/cellular/lib/geo/AddressDV.java:190-203 | one iteration of the loop on the i-th token: the street grows by that token's piece and the house number follows HouseNumberSnoc |
| AddressDV.NonNumberTokens | src/de/cellular/lib/geo/AddressDV.java:193-203 | the tokens that are not house numbers, in order |
| AddressDV.StreetNameSnoc | src/de/cellular/lib/geo/AddressDV.java:190-203 | the loop's step: one more token appends its street piece |
| AddressDV.RawSplitPiece | src/de/cellular/lib/geo/AddressDV.java:182 | a space-free word followed by a space splits off as the first piece |
| AddressDV.StreetNameFront | src/de/cellular/lib/geo/AddressDV.java:193-203 | splitting the street name gives the first token (unless it is number-like) followed by the split of the rest's street name |
| AddressDV.StreetNameSplits | src/de/cellular/lib/geo/AddressDV.java:188-205 | the street is every non-number token followed by exactly one space, in order |
| AddressDV.DoubleSpaceSplit | src/de/cellular/lib/geo/AddressDV.java:182 | two space-free words around a double space split into the first word, an empty piece and the second word |
| AddressDV.DoubleSpaceTokens | src/de/cellular/lib/geo/AddressDV.java:182 | for any two words x, y with untrimmable outer ends, "x  y" has the tokens x, "" and y |
| AddressDV.DoubleSpaceHidesNumber | src/de/cellular/lib/geo/AddressDV.java:182-198 | the empty token matches the house-number pattern, so any line "x  y" whose last word y is not number-like has house number "", whatever x is |
| AddressDV.StreetThenNumber | src/de/cellular/lib/geo/AddressDV.java:182-222 | for any street word w and number-like token n, "w n" has tokens w and n, house number n, street "w " and full street "w  n" (two spaces) |
| AddressDV.WordThenNumberTokens | src/de/cellular/lib/geo/AddressDV.java:182 | a word, one space and a number-like token are exactly those two tokens |
| AddressDV.FullString | src/de/cellular/lib/geo/AddressDV.java:222 | the first string ("null" for null), one space, the second |
| AddressDV.AddressDV.constructor | src/de/cellular/lib/geo/AddressDV.java:43-46 | no address yet |
| AddressDV.AddressDV.EditStreetNumberInAddress | src/de/cellular/lib/geo/AddressDV.java:179-212 | with several tokens the house number is the last matching token ("" if none) and the street the non-matching tokens each followed by a space; with one token the house number is "" and the street is what it was; only those two fields may change |
| AddressDV.AddressDV.ScanTokens | src/de/cellular/lib/geo/AddressDV.java:190-205 | the for-each loop: afterwards the feature name is the last number-like token ("" if none) and the built street name is every other token followed by one space |
| AddressDV.AddressDV.GetLatitudeE6 | src/de/cellular/lib/geo/AddressDV.java:54-60 | fails exactly without an address |
| AddressDV.AddressDV.GetLongitudeE6 | src/de/cellular/lib/geo/AddressDV.java:68-74 | fails exactly without an address |
| AddressDV.AddressDV.GetLatitude | src/de/cellular/lib/geo/AddressDV.java:82-87 | fails with the wrapper's error without an address, with the IllegalStateException of Address.getLatitude when no latitude was set, else the latitude |
| AddressDV.AddressDV.GetLongitude | src/de/cellular/lib/geo/AddressDV.java:95-100 | fails with the wrapper's error without an address, with the IllegalStateException of Address.getLongitude when no longitude was set, else the longitude |
| AddressDV.Address.GetLatitude | src/de/cellular/lib/geo/AddressDV.java:86 | the Android getter: the latitude once one was set, otherwise the IllegalStateException |
| AddressDV.Address.GetLongitude | src/de/cellular/lib/geo/AddressDV.java:99 | the Android getter: the longitude once one was set, otherwise the IllegalStateException |
| AddressDV.AddressDV.GetStreet | src/de/cellular/lib/geo/AddressDV.java:231-237 | fails exactly without an address, else the thoroughfare |
| AddressDV.AddressDV.GetHouseNumber | src/de/cellular/lib/geo/AddressDV.java:245-251 | fails exactly without an address, else the feature name |
| AddressDV.AddressDV.GetPostalCode | src/de/cellular/lib/geo/AddressDV.java:259-265 | fails exactly without an address, else the postal code |
| AddressDV.AddressDV.GetCity | src/de/cellular/lib/geo/AddressDV.java:273-279 | fails exactly without an address, else the locality |
| AddressDV.AddressDV.GetFullStreet | src/de/cellular/lib/geo/AddressDV.java:220-223 | fails exactly without an address, else street, one space, house number |
| AddressDV.AddressDV.GetFullCity | src/de/cellular/lib/geo/AddressDV.java:287-290 | fails exactly without an address, else city, one space, postal code |
| AddressDV.ValueOf | src/de/cellular/lib/geo/AddressDV.java:109-125 | a null address is rejected; a missing first line fails with the null-pointer error; otherwise the house number and street are edited as editStreetNumberInAddress does, then a missing coordinate fails with the IllegalStateException, the edit staying in the caller's Address; with both coordinates, a fresh wrapper holding the same address whose E6 values are the coordinates times 10^6 |
| AddressDV.FullStreetOfNewAddress | src/de/cellular/lib/geo/AddressDV.java:220-223 | the full street of a freshly wrapped address with both coordinates is the street name of the tokens, one space, the house number; without a coordinate wrapping fails |
| SlideView.CalcBoundOf | src/de/cellular/lib/lightlib/ui/view/gallery/LLSlideView.java:425-444 | the four step cases: towards a neighbour the offset moves against the direction by 15 and the bound is 320, at the end item it moves with it and the bound is 0 |
| SlideView.NextPositionClamps | src/de/cellular/lib/lightlib/ui/view/gallery/LLSlideView.java:409-412 | from an item (or -1 going forward) the new position is pos + direction clamped to the items |
| SlideView.BackwardFromMinusOneLeaves | src/de/cellular/lib/lightlib/ui/view/gallery/LLSlideView.java:409-412 | from -1 a backward step gives -2 |
| SlideView.NextPosition | src/de/cellular/lib/lightlib/ui/view/gallery/LLSlideView.java:409-412 | from -1 up to the size the new position is at most one away, never behind going forward and never ahead going backward |
| SlideView.OutOfBound | src/de/cellular/lib/lightlib/ui/view/gallery/LLSlideView.java:419-423 | out of bound only past one of the two bounds; between the first and the last item either side counts |
| SlideView.SingleItemNeverStops | src/de/cellular/lib/lightlib/ui/view/gallery/LLSlideView.java:419-423 | with one item neither out-of-bound test can hold |
| SlideView.LLSlideView.constructor | src/de/cellular/lib/lightlib/ui/view/gallery/LLSlideView.java:166-190 | no items, position 0, moving forward, offset 0, buttons enabled |
| SlideView.LLSlideView.SetDotSelected | src/de/cellular/lib/lightlib/ui/view/gallery/LLSlideView.java:511-513 | records whether a selected dot drawable is set; a null one switches the indicator off again |
| SlideView.LLSlideView.SetDotUnselected | src/de/cellular/lib/lightlib/ui/view/gallery/LLSlideView.java:515-517 | records whether an unselected dot drawable is set; a null one switches the indicator off again |
| SlideView.LLSlideView.SetOnItemScrollListener | src/de/cellular/lib/lightlib/ui/view/gallery/LLSlideView.java:136-138 | records whether the scroll listener is set |
| SlideView.LLSlideView.SetOnItemScrolledListener | src/de/cellular/lib/lightlib/ui/view/gallery/LLSlideView.java:140-142 | records whether the scrolled listener is set |
| SlideView.LLSlideView.OnItemScroll | src/de/cellular/lib/lightlib/ui/view/gallery/LLSlideView.java:150-154 | the scroll listener hears the position exactly when it is set |
| SlideView.LLSlideView.OnItemScrolled | src/de/cellular/lib/lightlib/ui/view/gallery/LLSlideView.java:156-160 | the scrolled listener hears the position exactly when it is set |
| SlideView.LLSlideView.UpdateIndicator | src/de/cellular/lib/lightlib/ui/view/gallery/LLSlideView.java:320-345 | one dot per item with exactly the current one marked; the left arrow and trigger hidden iff position <= 0, the right ones iff position >= count - 1 |
| SlideView.LLSlideView.SetImages | src/de/cellular/lib/lightlib/ui/view/gallery/LLSlideView.java:293-318 | a null list changes nothing; otherwise position 0, count = size, current = item 0 when there is one, next = item 1 when there are two, the indicator updated for position 0 (no backward arrow, a forward arrow iff there are two items), and an unswipable gallery starts rolling |
| SlideView.LLSlideView.TakeImages | src/de/cellular/lib/lightlib/ui/view/gallery/LLSlideView.java:299-307 | the list is taken, the position is 0, and the first two items are shown when present |
| SlideView.LLSlideView.CalcBound | src/de/cellular/lib/lightlib/ui/view/gallery/LLSlideView.java:425-444 | moves the offset by the step of CalcBoundOf and returns its bound |
| SlideView.LLSlideView.IsOutOfBound | src/de/cellular/lib/lightlib/ui/view/gallery/LLSlideView.java:419-423 | with bound 0 any offset left of 0 (not at the last item) or right of 0 (not at the first) is out; with bound 320 the scaled bound is used |
| SlideView.LLSlideView.CalcCurrentPosition | src/de/cellular/lib/lightlib/ui/view/gallery/LLSlideView.java:409-417 | the new position is one step in the direction; inside the items current, next and previous are that item and its neighbours (none past an end) |
| SlideView.LLSlideView.StopMoving | src/de/cellular/lib/lightlib/ui/view/gallery/LLSlideView.java:496-501 | with a task, drops it and reports the position to the scrolled listener when it is set; without one changes nothing |
| SlideView.LLSlideView.Run | src/de/cellular/lib/lightlib/ui/view/gallery/LLSlideView.java:379-407 | one animation step; the scroll listener (when set) always hears the old position first. Not out of bound: the offset moves one step, the runnable is re-posted and the images and indicator stay. Out of bound: the offset is 0 and the position takes its step; unless the step throws, the stop follows (indicator updated, task dropped and reported to the scrolled listener, buttons enabled), and if it throws the buttons stay disabled and nothing else is logged |
| SlideView.LLSlideView.StartAndCheck | src/de/cellular/lib/lightlib/ui/view/gallery/LLSlideView.java:385-406 | the part of a step after calcBound: the same cases as Run, stated against the out-of-bound test on the moved offset |
| SlideView.LLSlideView.EndStep | src/de/cellular/lib/lightlib/ui/view/gallery/LLSlideView.java:391-402 | the out-of-bound branch: the offset is 0; from at most one past either end the position takes one clamped step and, when it lands on an item, shows it with its neighbours; unless the step throws, the task is stopped (the indicator updated, the task dropped and reported, the buttons enabled), otherwise the indicator, the task and the log stay |
| SlideView.LLSlideView.Reposition | src/de/cellular/lib/lightlib/ui/view/gallery/LLSlideView.java:392-396 | the offset reset and the guarded position step, with ok false where List.get throws |
| SlideView.LLSlideView.Start | src/de/cellular/lib/lightlib/ui/view/gallery/LLSlideView.java:446-449 | the scroll listener (when set) hears the position, and the buttons are disabled |
| SlideView.LLSlideView.Stop | src/de/cellular/lib/lightlib/ui/view/gallery/LLSlideView.java:451-455 | the indicator updated, a queued task dropped and reported to the scrolled listener when set, the buttons enabled |
| SlideView.LLSlideView.Animate | src/de/cellular/lib/lightlib/ui/view/gallery/LLSlideView.java:379-407 | with two or more items the runnable stops: offset 0, buttons enabled, position = old position + direction clamped, current = that item |
| SlideView.LLSlideView.MoveItem | src/de/cellular/lib/lightlib/ui/view/gallery/LLSlideView.java:489-494 | does nothing without items; otherwise a queued task is dropped and reported to the scrolled listener when set, and a new task is posted |
| SlideView.LLSlideView.ToNextItem | src/de/cellular/lib/lightlib/ui/view/gallery/LLSlideView.java:484-487 | sets the direction, then has the whole effect of moveItem |
| SlideView.LLSlideView.MoveLeft | src/de/cellular/lib/lightlib/ui/view/gallery/LLSlideView.java:503-505 | moves backward, with the whole effect of moveItem |
| SlideView.LLSlideView.MoveRight | src/de/cellular/lib/lightlib/ui/view/gallery/LLSlideView.java:507-509 | moves forward, with the whole effect of moveItem |
| SlideView.LLSlideView.AutoRollTick | src/de/cellular/lib/lightlib/ui/view/gallery/LLSlideView.java:536-541 | at the last item the position becomes -1; then the view moves forward with the whole effect of moveItem, so a task stopped there reports -1; without items nothing else changes |
| SlideView.RollOverFromLast | src/de/cellular/lib/lightlib/ui/view/gallery/LLSlideView.java:531-544 | an auto-roll at the last item, animated to its end, shows the first item |
| MapView.AreDifferentGeoPoints | src/de/cellular/lib/lightlib/ui/view/ExtMapView.java:278-281 | true iff the old point is absent or either E6 coordinate differs |
| MapView.EventAt | src/de/cellular/lib/lightlib/ui/view/ExtMapView.java:182-222 | at most one event is posted per sample |
| MapView.FirstSampleMoves | src/de/cellular/lib/lightlib/ui/view/ExtMapView.java:172-175 | the first centre counts as a move, so moving is posted first |
| MapView.LastEventIsState | src/de/cellular/lib/lightlib/ui/view/ExtMapView.java:177-225 | the last posted event is moving iff the last sample moved |
| MapView.EventsAlternate | src/de/cellular/lib/lightlib/ui/view/ExtMapView.java:182-222 | posted events start with moving and alternate: stop-moving fires once per stop and not again before a move, and moving likewise |
| MapView.WatchCenters | src/de/cellular/lib/lightlib/ui/view/ExtMapView.java:170-236 | the flag-driven loop posts exactly the edge events: moving where a run of moved samples starts, stop-moving where a run of still samples starts |
| MapView.NoDoubleAfterDouble | src/de/cellular/lib/lightlib/ui/view/ExtMapView.java:252-266 | one classification per down; after a fresh start or a double click the next down is single, so two double clicks never follow each other |
| MapView.QuickSecondDownIsDouble | src/de/cellular/lib/lightlib/ui/view/ExtMapView.java:252-259 | a second down under 250 ms after the first is a double click |
| MapView.Classify | src/de/cellular/lib/lightlib/ui/view/ExtMapView.java:252-266 | one classification per down; a down is a double click iff it comes under 250 ms after the recorded one |
| MapView.ExtMapView.constructor | src/de/cellular/lib/lightlib/ui/view/ExtMapView.java:28-39 | no recorded touch, no zoom baseline, no recorded centre, no listeners |
| MapView.ExtMapView.SetOnPanListener | src/de/cellular/lib/lightlib/ui/view/ExtMapView.java:51-53 | sets the pan-and-zoom listener |
| MapView.ExtMapView.AddOnMapMovingListener | src/de/cellular/lib/lightlib/ui/view/ExtMapView.java:431-434 | appends a moving listener |
| MapView.ExtMapView.AddOnMapStopMovingListener | src/de/cellular/lib/lightlib/ui/view/ExtMapView.java:421-424 | appends a stop-moving listener |
| MapView.ExtMapView.Release | src/de/cellular/lib/lightlib/ui/view/ExtMapView.java:154-159 | both listener lists are empty afterwards |
| MapView.ExtMapView.OnInterceptTouchEvent | src/de/cellular/lib/lightlib/ui/view/ExtMapView.java:247-276 | a down under 250 ms after the recorded one is a double click and resets the record to -1; any other down is recorded and is a finger-down; never intercepts |
| MapView.ExtMapView.OnTouchEvent | src/de/cellular/lib/lightlib/ui/view/ExtMapView.java:289-319 | on finger-up pan is reported only when the centre differs from the one recorded at the previous finger-up, and the centre is recorded; a move is a drag; returns the map's own result, false when that throws |
| MapView.ExtMapView.DispatchDraw | src/de/cellular/lib/lightlib/ui/view/ExtMapView.java:322-339 | the baseline is captured on the first draw and never updated; every draw above or below it is reported |
| MapView.ReplayDowns | src/de/cellular/lib/lightlib/ui/view/ExtMapView.java:247-276 | the handler, called for a series of downs, classifies them as Classify does |
| MapView.ZoomBaselineIsFirstLevel | src/de/cellular/lib/lightlib/ui/view/ExtMapView.java:324-338 | zooming in twice reports two zoom-ins from the first level |
| RequestDispatch.HandleMessage | src/de/cellular/lib/lightlib/backend/base/LLRequestResponsibleObject.java:94-136 | a known code starts with its own callback on the object, an unknown one makes only finishing calls; the finishing calls come last; without a delegate every call is on the object; with one each object call is followed by the same call on the delegate |
| RequestDispatch.Mirrored | src/de/cellular/lib/lightlib/backend/base/LLRequestResponsibleObject.java:97-135 | each call on the object, followed by the same call on the delegate when there is one |
| RequestDispatch.FinishLast | src/de/cellular/lib/lightlib/backend/base/LLRequestResponsibleObject.java:97-135 | when only the last callback finishes, the finishing calls of the mirrored trace are exactly its last one, or last two with a delegate |
| RequestDispatch.CallsOn | src/de/cellular/lib/lightlib/backend/base/LLRequestResponsibleObject.java:97-135 | the calls one target receives, in order |
| RequestDispatch.CodesAreDistinct | src/de/cellular/lib/lightlib/backend/base/LLRequestResponsibleObject.java:95-126 | the codes 0x34 to 0x38 stand for five distinct callbacks, none of them the finishing one |
| RequestDispatch.DelegateMirrorsSelf | src/de/cellular/lib/lightlib/backend/base/LLRequestResponsibleObject.java:99-135 | the delegate sees exactly the object's callbacks; the object sees the same with or without a delegate |
| RequestDispatch.MessageCalls | src/de/cellular/lib/lightlib/backend/base/LLRequestResponsibleObject.java:94-136 | each target sees the code's own callback (none for an unknown code) and then the finishing one; without a delegate the delegate sees nothing |
| RequestDispatch.FinishedOnce | src/de/cellular/lib/lightlib/backend/base/LLRequestResponsibleObject.java:132-135 | onRequestFinished runs exactly once on the object, and once on the delegate when there is one |
| RequestDispatch.KnownCodeTrace | src/de/cellular/lib/lightlib/backend/base/LLRequestResponsibleObject.java:97-135 | with a delegate the trace is [self.x, delegate.x, self.finished, delegate.finished], without one [self.x, self.finished] |

## Left out

- Floating point is not modelled:
  - accuracies are whole metres;
  - the `(int)` truncation of the accuracy difference is exact on them;
  - latitude and longitude are reals;
  - `latLonToPoint`, `toGeoPoint` and the E6 conversions of `LocationDV` are not part of this model;
  - the E6 values of `AddressDV` are `real` products with no rounding.
- LocationDV.Better: `long` overflow of the time difference is not modelled; times are unbounded integers.
- A missing accuracy counts as 0, which is what `Location.getAccuracy()` reports. Every incoming update is forwarded unfiltered, without `compareTo` (`OnLocationUpdate`).
- The `LocationUpdateManager` singleton, its `Context` and the `Timer` thread are not modelled. `StopTracing` in the log records that the stop callback was posted to the `Handler`, not the later call of the listener: on the manager's looper that call runs after everything the restart logs, and it reads the listener field only then, so clearing the listener in between throws a `NullPointerException` that the model does not show. The timer is a pair of flags, and its expiry is the explicit event `OnTimerExpired`. The pending intents and receivers are presence flags.
- LastLocationFinder.GetLastBestLocation: accuracies below the initial bound are whole metres, so the float comparison with `Float.MAX_VALUE` is an integer comparison.
- ImageCache.LLImageCache.SetSendungImage: the eviction order of the `ConcurrentHashMap` iterator is not modelled. Each victim is any key not yet returned, and `evicted` is a ghost result. The cache is an object field, not a static one, and concurrent access is not modelled.
- HighLight.HighLightText.Highlight: the precondition excludes an empty header, and a header starting with ' ' or ',' that occurs in the text. On those the Java loop never ends, as `EmptyHeaderStalls` and `DelimiterHeaderStalls` show. The dead store of `offset` at line 60 is kept, and so is the `end >= 0` test, which always holds. Spans are reported; the text styling done by subclasses is not modelled.
- `AddressDV.valueOf(Context, GeoPoint)` (the Geocoder lookup) and `toString` are not part of this model. The regular expression `[0-9|-]*` is a character test; its '|' is a literal character.
- SlideView: the following are not part of this model:
  - drawing, touch gestures, `onSizeChanged` and the bitmaps themselves (identities only);
  - the density-scaled bound, which is a positive integer;
  - the auto-roll `Timer` thread, which is the explicit event `AutoRollTick`;
  - aliasing of the list handed to `setImages`. Java keeps the caller's `List` and reads its size afresh in `calcBound`, `isOutOfBound`, `calcCurrentPosition` and the dot loop, but uses the `mCount` taken at `setImages` in `moveItem`, the arrows and the auto-roll. The model copies the list, so `Valid()` can keep `count == |items|`; a caller that changes the list afterwards, making the two differ, is not modelled.
- SlideView.LLSlideView.Animate: requires at least two items. With one item the Java task re-posts itself forever (`SingleItemNeverStops`). A backward step from -1 leaves the items (`BackwardFromMinusOneLeaves`), which `CalcCurrentPosition` reports as `ok == false` instead of the Java index error.
- MapView.WatchCenters: the watcher thread, its 300 ms sleep, the executor and the `Handler` posts are not modelled. The loop runs over the finite list of centres it samples; the Java loop never ends, because `stopListenMapMoving` is never set. The listener fan-out of the posted events is not modelled.
- MapView: the listener callbacks are logged as hook calls, and the null checks of the optional finger and double-click listeners are abstracted. `getController().zoomInFixing` on a double click is not modelled. The clock is a parameter.
- RequestDispatch: only the message code is modelled; the payload is passed through. The deprecated `Handler` constructors and the log line of the default branch are not modelled.
- Logging (`LL`, `LLL`, `Log`) is not modelled anywhere.
