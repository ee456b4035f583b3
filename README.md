# Boat dashboard components, modelled in Dafny

This project models the logic inside six Salesforce Lightning Web Components of a boat-browsing app:

- **boatsNearMe**: the proximity map. It builds a marker list: a "You are here!" marker first, then one marker per boat. It also holds the wire-result handler, the one-shot render guard and the position callback.
- **boatSearchForm**: the boat-type filter. It builds options from the BoatType list, with "All Types" in front, and emits a `search` event when an option is chosen.
- **boatTile**: a tile's CSS class follows the selection. `selectBoat` emits a `boatselect` event.
- **boatReviews**: an imperative review fetch, guarded on a non-empty boat id. The model covers the `recordId` setter, `refresh`, and the promise's `then`/`catch`/`finally` steps.
- **boatDetailTabs**: a message-channel subscription, made at most once. Its handler binds the boat id. The model also covers the tab icon and the handling of a newly created review.
- **boatSearch**: a two-state loading flag.

Each component is a Dafny `class` with the component's fields. Each handler or callback is a `method`. Its `modifies` clause names only the fields the handler assigns, so "nothing else changes" comes from the frame. A `Valid()` predicate is the component invariant.

Effects that leave the component are kept as ghost logs:

- toasts (`toasts`);
- `getCurrentPosition` requests (`locationRequests`);
- `subscribe` calls (`subscribeCalls`);
- `getAllReviews` calls (`fetches`);
- dispatched CustomEvents (`searchEvents`, `boatSelectEvents`).

A value that a foreign call returns becomes a parameter: the subscription handle, the tabset and reviews children that the template lookup finds, a geolocation position, a wire result.

The list-building `map`/`unshift` code is pure functions (`NewMarkers`, `SearchOptions`) with lemmas about them. Module-level "scenario" methods create a fresh component, drive it through a sequence of calls, and state the outcome.

JavaScript `undefined`/`null` is `Common.Option.None`. A falsy string field is `None` or `""` (`Common.Truthy`). Fields that start `undefined` and are only tested for truthiness (`isRendered`, the reviews `isLoading`) start as `false`. Latitudes and longitudes are opaque integers, because the code only copies them; a boat without a geolocation has None for both.

Behaviour of the code worth knowing:

- In the reviews component, every successful answer replaces the list when it arrives, whichever boat id it was fetched for. An answer for an older id that arrives last stays shown while the newer id is bound (`Reviews.OutOfOrderAnswers`). The first answer to settle clears `isLoading` while a newer fetch is still in flight (`Reviews.StaleAnswerWins`).
- A rejection only sets `error` and leaves the list alone, so an older id's list can be shown next to the newer id's error (`Reviews.RejectionKeepsOlderList`).
- Setting `recordId` re-fetches on every call, even when the id is unchanged (`Reviews.SameIdFetchesTwice`). It is not idempotent.
- `boatReviews` holds the promise chain from the moment a fetch starts. So `reviewsToShow` is already true while loading, and stays true after a rejection (`Reviews.BoatReviews.ReviewsToShow`).
- On data, the search form does not clear a previously stored `error`.
- The proximity map passes `getCurrentPosition` only a success callback. A refused or failed position request is silently ignored: no toast is shown, and latitude and longitude stay undefined.
- The detail tabs' wired record property holds the framework's default object (data and error undefined) from construction on. That object is truthy, so the details tab icon shows from the start, before any boat is selected (`DetailTabs.BoatDetailTabs.constructor`).
- These components contain no message bus, query controller or batch-edit code.

## Model

| member | source | states |
|---|---|---|
| NearMe.BoatMarkers | force-app/main/default/lwc/boatsNearMe/boatsNearMe.js:63-72 | one marker per boat, same count; marker i carries boat i's geolocation latitude/longitude and its Name as title, and no icon |
| NearMe.NewMarkers | force-app/main/default/lwc/boatsNearMe/boatsNearMe.js:61-81 | for N boats exactly N+1 markers; marker 0 is at the current latitude/longitude, titled 'You are here!' with icon 'standard:user' (also for N = 0); marker i+1 is boat i's; only marker 0 has an icon |
| NearMe.BoatMarker | force-app/main/default/lwc/boatsNearMe/boatsNearMe.js:63-71 | the marker for one boat carries its geolocation (null when the boat has none) and its Name, has no icon, and is never the "You are here!" marker at any position |
| NearMe.MarkerTitles | force-app/main/default/lwc/boatsNearMe/boatsNearMe.js:61-81 | the marker titles are 'You are here!' followed by the boat names, in query order |
| NearMe.BoatMarkerTitles | force-app/main/default/lwc/boatsNearMe/boatsNearMe.js:63-72 | the boat markers' titles are exactly the boat names, in order |
| NearMe.BoatsNearMe.constructor | force-app/main/default/lwc/boatsNearMe/boatsNearMe.js:12-18 | markers start empty, isLoading true, not rendered, position unset, and no request or toast yet |
| NearMe.BoatsNearMe.WiredBoatsJSON | force-app/main/default/lwc/boatsNearMe/boatsNearMe.js:24-39 | on data: isLoading false, error undefined, markers replaced wholesale by NewMarkers at the current position; on error: isLoading false, exactly one toast ('Error loading Boats Near Me', error.message, 'error'), markers unchanged; with neither, nothing changes; keeps Valid |
| NearMe.BoatsNearMe.CreateMapMarkers | force-app/main/default/lwc/boatsNearMe/boatsNearMe.js:61-82 | mapMarkers becomes the marker list for the current latitude/longitude and the given boats |
| NearMe.BoatsNearMe.RenderedCallback | force-app/main/default/lwc/boatsNearMe/boatsNearMe.js:44-49 | requests the position only when not yet rendered, afterwards isRendered is true; Valid keeps the request count at one per lifetime |
| NearMe.BoatsNearMe.GetLocationFromBrowser | force-app/main/default/lwc/boatsNearMe/boatsNearMe.js:53-54 | issues exactly one position request |
| NearMe.BoatsNearMe.OnPositionAcquired | force-app/main/default/lwc/boatsNearMe/boatsNearMe.js:54-57 | latitude and longitude become the position's coords; nothing else changes (frame) |
| NearMe.DataThenError | force-app/main/default/lwc/boatsNearMe/boatsNearMe.js:24-57 | after render, position, data and then an error result, isLoading is false, exactly one error toast carrying the error's message was shown, and markers are still those built from the data at that position |
| SearchForm.TypeOptions | force-app/main/default/lwc/boatSearchForm/boatSearchForm.js:16-21 | one option per boat type, labelled by its Name and valued by its Id, in input order |
| SearchForm.SearchOptions | force-app/main/default/lwc/boatSearchForm/boatSearchForm.js:16-22 | N types give N+1 options; option 0 is {All Types, ''}; option i+1 is type i's {Name, Id} |
| SearchForm.OptionsRoundTrip | force-app/main/default/lwc/boatSearchForm/boatSearchForm.js:16-22 | reading the options after 'All Types' back gives exactly the input type list |
| SearchForm.TypeOptionsRoundTrip | force-app/main/default/lwc/boatSearchForm/boatSearchForm.js:16-21 | the type options read back give the input type list |
| SearchForm.BoatSearchForm.constructor | force-app/main/default/lwc/boatSearchForm/boatSearchForm.js:6-11 | selectedBoatTypeId starts as '', error and searchOptions undefined, no event sent |
| SearchForm.BoatSearchForm.BoatTypes | force-app/main/default/lwc/boatSearchForm/boatSearchForm.js:14-27 | on data, searchOptions is SearchOptions(data); on error without data, searchOptions undefined and error holds it; with neither, nothing changes |
| SearchForm.BoatSearchForm.HandleSearchOptionChange | force-app/main/default/lwc/boatSearchForm/boatSearchForm.js:31-42 | selectedBoatTypeId becomes the chosen value and exactly one 'search' event with that boatTypeId is sent; Valid keeps the last event equal to the selection |
| SearchForm.LoadThenChoose | force-app/main/default/lwc/boatSearchForm/boatSearchForm.js:14-42 | after loading the types and choosing option k+1, the options are SearchOptions(types) and the selection is type k's Id |
| Tile.BoatTile.constructor | force-app/main/default/lwc/boatTile/boatTile.js:3-6 | the public properties `boat` and `selectedBoatId` hold what the parent sets, and no event has been sent |
| Tile.BoatTile.TileClass | force-app/main/default/lwc/boatTile/boatTile.js:16-23 | 'tile-wrapper selected' exactly when boat.Id equals selectedBoatId, otherwise 'tile-wrapper' |
| Tile.BoatTile.SelectBoat | force-app/main/default/lwc/boatTile/boatTile.js:26-34 | selectedBoatId becomes boat.Id, so the tile class is the selected one; exactly one 'boatselect' event with boatId = boat.Id; boat unchanged (frame) |
| Tile.SelectBoatTwice | force-app/main/default/lwc/boatTile/boatTile.js:26-34 | selecting twice leaves selectedBoatId = boat.Id and the boat unchanged, as selecting once does |
| Reviews.BoatReviews.constructor | force-app/main/default/lwc/boatReviews/boatReviews.js:6-10 | every field starts undefined and no fetch has been issued |
| Reviews.BoatReviews.RecordId | force-app/main/default/lwc/boatReviews/boatReviews.js:13-15 | the getter returns the bound boatId, so a set followed by a get gives back the set value (see SetRecordId) |
| Reviews.BoatReviews.SetRecordId | force-app/main/default/lwc/boatReviews/boatReviews.js:13-24 | boatId and the recordId getter become the value, then getReviews runs for it, on every set |
| Reviews.BoatReviews.Refresh | force-app/main/default/lwc/boatReviews/boatReviews.js:33-35 | exactly the effect of getReviews for the bound id |
| Reviews.BoatReviews.GetReviews | force-app/main/default/lwc/boatReviews/boatReviews.js:41-56 | with an empty or undefined boatId nothing changes and nothing is fetched; otherwise isLoading is true, exactly one fetch keyed by boatId is issued and its promise is stored in boatReviews |
| Reviews.BoatReviews.OnReviewsResolved | force-app/main/default/lwc/boatReviews/boatReviews.js:44-51 | boatReviews becomes the result, error undefined, isLoading false, that fetch marked settled, whichever fetch it was |
| Reviews.BoatReviews.OnReviewsRejected | force-app/main/default/lwc/boatReviews/boatReviews.js:47-51 | error becomes the rejection, isLoading false, boatReviews untouched (frame), that fetch marked settled |
| Reviews.BoatReviews.ReviewsToShow | force-app/main/default/lwc/boatReviews/boatReviews.js:27-44 | true exactly once a fetch has been issued, so already true while loading |
| Reviews.SameIdFetchesTwice | force-app/main/default/lwc/boatReviews/boatReviews.js:17-44 | setting the same id twice issues two fetches keyed by that id, and leaves it bound, loading, with the promise for that id stored |
| Reviews.StaleAnswerWins | force-app/main/default/lwc/boatReviews/boatReviews.js:17-51 | an answer for the first id, arriving after a second id was set, is shown for the second id and clears isLoading while the second fetch is still unsettled |
| Reviews.OutOfOrderAnswers | force-app/main/default/lwc/boatReviews/boatReviews.js:17-51 | when the second id's answer arrives before the first id's, both fetches settle and the first id's list is left shown while the second id is bound |
| Reviews.RejectionKeepsOlderList | force-app/main/default/lwc/boatReviews/boatReviews.js:17-51 | after the first id's answer and the second id's rejection, the first id's list is shown, error holds the rejection, and loading is off |
| Reviews.EmptyIdDoesNothing | force-app/main/default/lwc/boatReviews/boatReviews.js:41-55 | an empty or undefined id, set or refreshed, shows no reviews and does not load |
| DetailTabs.Tabset.constructor | force-app/main/default/lwc/boatDetailTabs/boatDetailTabs.js:86 | the lightning-tabset child, whose active tab is unset until handleReviewCreated sets it |
| DetailTabs.BoatDetailTabs.constructor | force-app/main/default/lwc/boatDetailTabs/boatDetailTabs.js:28-52 | subscription starts null, no boat bound, no subscribe call; the wired record holds the framework's default object, so the tab icon already shows |
| DetailTabs.BoatDetailTabs.DetailsTabIconName | force-app/main/default/lwc/boatDetailTabs/boatDetailTabs.js:42-44 | 'utility:anchor' exactly when wiredRecord is set, null otherwise |
| DetailTabs.BoatDetailTabs.ReceiveRecord | force-app/main/default/lwc/boatDetailTabs/boatDetailTabs.js:30-31 | the record wire's value is stored in wiredRecord |
| DetailTabs.BoatDetailTabs.SubscribeMC | force-app/main/default/lwc/boatDetailTabs/boatDetailTabs.js:55-66 | nothing happens when a subscription exists or boatId is set; otherwise exactly one subscribe call on the boat channel with application scope, and its handle is stored |
| DetailTabs.BoatDetailTabs.ConnectedCallback | force-app/main/default/lwc/boatDetailTabs/boatDetailTabs.js:69-71 | the effect of subscribeMC; Valid keeps the number of subscriptions at most one |
| DetailTabs.BoatDetailTabs.OnMessage | force-app/main/default/lwc/boatDetailTabs/boatDetailTabs.js:63 | boatId becomes the message's recordId, whatever it was before |
| DetailTabs.BoatDetailTabs.HandleReviewCreated | force-app/main/default/lwc/boatDetailTabs/boatDetailTabs.js:85-88 | the tabset's active tab becomes 'reviews' and the reviews child takes exactly one refresh step |
| DetailTabs.ConnectThreeTimes | force-app/main/default/lwc/boatDetailTabs/boatDetailTabs.js:55-71 | three connects make exactly one subscribe call, on the boat channel with application scope, and hold the first handle |
| DetailTabs.LastMessageWins | force-app/main/default/lwc/boatDetailTabs/boatDetailTabs.js:63 | after two messages the bound id is the second's |
| Search.BoatSearch.constructor | force-app/main/default/lwc/boatSearch/boatSearch.js:3-4 | isLoading starts false |
| Search.BoatSearch.HandleLoading | force-app/main/default/lwc/boatSearch/boatSearch.js:7-9 | isLoading is true afterwards, whatever it was |
| Search.BoatSearch.HandleDoneLoading | force-app/main/default/lwc/boatSearch/boatSearch.js:12-14 | isLoading is false afterwards, whatever it was |
| Search.FinalLoading | force-app/main/default/lwc/boatSearch/boatSearch.js:4-14 | after any sequence of loading/done-loading events, isLoading is set by the last event, and is false if there were none |

## Left out

- Browser geolocation, toast delivery, the message service, Apex calls and `@wire` provisioning are foreign. Only their effects are logged (ghost fields), and their answers arrive as method parameters. There is no model of when a wire re-fires on a parameter change (`$latitude`, `$longitude`, `$boatTypeId`, `$boatId`).
- Promise scheduling: a settling promise runs its `then`/`catch` and `finally` steps as one method call. Interleaving between microtasks is not modelled.
- `boatName` (boatDetailTabs.js:47-49): reading a field with `getFieldValue` is foreign record metadata.
- `navigateToRecordViewPage` and `navigateToRecord`: navigation is foreign and changes no component state.
- `setAttribute('boatId', value)` in the `recordId` setter: a DOM attribute write.
- `boatSearch.searchBoats` (boatSearch.js:18-20): it calls an undefined free function, so it has no defined behaviour. `createNewBoat` is empty.
- `boatTile.backgroundStyle` (boatTile.js:10-12): it refers to an unqualified `boat` and would throw.
- `boatSearchResults.searchBoats` only forwards to an Apex call and holds no logic.
- A direct assignment of boatReviews' public `boatId` property by a parent, which bypasses the setter.
- Missing imports: boatDetailTabs.js extends `NavigationMixin(LightningElement)` at line 25 but never imports `NavigationMixin`, and boatSearch.js extends `LightningElement` at line 2 but imports only `api`. Read literally, both modules throw a ReferenceError when the class is evaluated; the model assumes the missing imports are present.
- Tile.BoatTile.constructor: takes the boat as given. A tile whose `boat` property is still undefined, where `tileClass` would throw at boatTile.js:19, is not modelled.
- Reviews.BoatReviews.OnReviewsResolved: does not model a `null` result list; Apex returns a list, which is truthy.
- NearMe.BoatsNearMe.WiredBoatsJSON: `error.message` is taken as a present string; an error object without a message would show `undefined`.
