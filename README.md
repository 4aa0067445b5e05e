# First-responder directory: a Dafny model of the front end

The application shows emergency facilities (police, fire, ambulance, hospital and emergency
services) on a map and in an admin dashboard. This project models its core:

- the backend client (`lib/api.ts`). It builds query strings, tolerates two response shapes and
  maps loosely typed location JSON onto the `FirstResponder` record.
- the four-criterion list filter and the sorted city and state choices. The map screen and the
  admin page implement these identically.
- the filter panel (`components/Filters.tsx`).
- the admin dashboard's state and handlers (`app/admin/page.tsx`), as the class `Admin.Dashboard`.
- the map screen's state and handlers (`components/MapView.tsx`), as the class `MapView.MapScreen`.
- the map controller's choice between `setView` and `setZoom` (`components/MapController.tsx`).
- the marker cluster layer's icon buckets and its marker loop (`components/MarkerClusterGroup.tsx`).
- the Places client (`lib/googlePlaces.ts`), as the class `GooglePlaces.PlacesClient`. This
  covers its once-only initialisation and the shaping of provider replies.

Helper modules model the JavaScript built-ins the code relies on:

- `JsOr`: `a || b` on optional strings and numbers.
- `JsText`: `toLowerCase`, `toUpperCase`, `includes`, `trim`, and `length` in UTF-16 code units.
- `Decimal`: `Number#toString` on integers.
- `Ordering`: the default `sort` of distinct strings.
- `Seqs`: `Array#filter`.

Network replies, user confirmation, the provider's callbacks and the time-based id are inputs of the
methods that use them.

The comment at `lib/api.ts:51-52` says a location response can be either a bare array or an
object holding `{ locations: [...] }`. In the code only `getClosestLocations` and
`getNearbyLocations` normalise the body, and the model follows the code.
`getAllLocations` maps the parsed body directly, so an object body makes it return `[]`
(`Api.ListRejectsWrapper`).

## Model

| member | source | states |
|---|---|---|
| Types.AllCategoriesComplete | types/index.ts:1 | every category is among the five listed |
| Types.CategoryNameInjective | types/index.ts:1 | two categories with the same display name are the same category |
| JsOr.FirstNonEmpty | lib/api.ts:33-47 | a chain `a \|\| b \|\| ''` yields "" exactly when no candidate is truthy, else the first truthy candidate |
| JsOr.FirstNonZero | lib/api.ts:43-44 | a chain `a \|\| b \|\| 0` on numbers yields 0 exactly when no candidate is non-zero, else the first non-zero candidate |
| JsOr.FirstNonEmptyOne | lib/api.ts:38 | `a \|\| ''` is the first-truthy choice over `[a]` |
| JsOr.FirstNonEmptyTwo | lib/api.ts:45 | `a \|\| b \|\| ''` is the first-truthy choice over `[a, b]` |
| JsOr.FirstNonEmptyThree | lib/api.ts:47 | `a \|\| b \|\| c \|\| ''` is the first-truthy choice over `[a, b, c]` |
| JsOr.FirstNonZeroChain | lib/api.ts:43-44 | `a \|\| b \|\| 0` on numbers is the first-non-zero choice over `[a, b]` |
| JsText.ToLower | app/admin/page.tsx:102-108 | lower-casing keeps the length and maps each character |
| JsText.ToUpper | lib/api.ts:23 | upper-casing keeps the length and maps each character |
| JsText.UpperCharMatch | lib/api.ts:26-30 | two characters agree upper-cased exactly when the first lower-cases to the second, a lower-case letter |
| JsText.UpperMatchesCasing | lib/api.ts:26-30 | comparing upper-cased strings with a lower-case word's upper case accepts exactly the casings of that word |
| JsText.IncludesEmpty | components/MapView.tsx:79-82 | every string includes the empty query |
| JsText.IncludesSelf | components/MapView.tsx:79-82 | every string includes itself |
| JsText.TrimStart | components/MapView.tsx:75 | removes exactly the longest whitespace prefix |
| JsText.TrimEnd | components/MapView.tsx:75 | removes exactly the longest whitespace suffix |
| JsText.Trim | components/MapView.tsx:75 | the trimmed string is a slice of the input with only whitespace before and after it. It is empty exactly when every character is whitespace, and otherwise starts and ends with non-whitespace |
| JsText.TrimSurrounded | components/MapView.tsx:75 | dropping a whitespace prefix, then a whitespace suffix, leaves a slice with only whitespace around it, non-whitespace at both ends, and empty exactly when the input is all whitespace |
| JsText.Utf16Length | lib/googlePlaces.ts:111 | the length is between the character count and twice it, and equals the character count on the Basic Multilingual Plane |
| Decimal.NatToDecimal | components/Filters.tsx:151 | a natural is written as a non-empty digit string without a leading zero |
| Decimal.IntToDecimal | lib/api.ts:37 | an integer is written as a non-empty string |
| Decimal.NatRoundTrip | components/Filters.tsx:151 | parsing a natural's decimal text gives the natural back |
| Decimal.IntRoundTrip | lib/api.ts:37 | an integer's text is an optional minus and digits, and parses back to the integer |
| Decimal.IntToDecimalInjective | lib/api.ts:37 | different numeric ids give different id strings |
| Ordering.LessIrreflexive | app/admin/page.tsx:117 | no string sorts before itself |
| Ordering.LessTransitive | app/admin/page.tsx:117 | the sort order is transitive |
| Ordering.LessTotal | app/admin/page.tsx:117 | any two different strings are ordered one way or the other |
| Ordering.LessAsymmetric | app/admin/page.tsx:117 | the sort order is asymmetric |
| Ordering.StrictlySortedDistinct | app/admin/page.tsx:117 | a strictly sorted list has no repeated entry |
| Ordering.Insert | app/admin/page.tsx:117 | inserting into a strictly sorted list keeps it strictly sorted, and adds exactly the new element |
| Ordering.SortedDistinct | app/admin/page.tsx:117 | `Array.from(new Set(xs)).sort()` is strictly sorted and holds exactly the elements of `xs` |
| Ordering.HeadIsLeast | app/admin/page.tsx:117 | the first element of a sorted list is its least |
| Ordering.NotBoth | app/admin/page.tsx:117 | no two strings sort before each other |
| Ordering.SortedUnique | app/admin/page.tsx:117 | two strictly sorted lists with the same elements are equal |
| Seqs.Keep | app/admin/page.tsx:103-113 | filtering never lengthens the list, and keeps exactly the elements that pass, each as often as it occurs in the input |
| Seqs.KeepIsSubsequence | app/admin/page.tsx:103-113 | filtering keeps the surviving elements in their original order |
| Seqs.KeepAll | app/admin/page.tsx:100 | a filter that passes every element returns the list itself |
| Seqs.KeepCongruent | app/admin/page.tsx:103-113 | tests that agree on the list's elements filter it the same way |
| Seqs.KeepKeep | app/admin/page.tsx:103-113 | filtering twice is filtering once by both tests |
| Seqs.Refine | components/MapView.tsx:86-96 | a stage that filters only when its criterion is set narrows the list to the records passing every stage so far |
| Api.LowerNameIsWord | lib/api.ts:26-30 | each lower-case category name is made of lower-case letters |
| Api.UpperOfLowerName | lib/api.ts:26-30 | each backend name is its lower-case name upper-cased |
| Api.DisplayNameIsCasing | lib/api.ts:26-30 | each display name is a casing of the category's lower-case name |
| Api.CategoryComparison | lib/api.ts:23-30 | the upper-cased text equals a backend name exactly when the text is a casing of that category's name |
| Api.MapCategory | lib/api.ts:23-30 | any casing of a category name maps to that category; any other result than Police comes from a casing of its name |
| Api.MapCategoryOfName | lib/api.ts:23-30 | a category's name in any casing maps back to the category |
| Api.MapCategoryDefault | lib/api.ts:24 | text that is no category name, or a missing category, maps to Police |
| Api.IdString | lib/api.ts:37 | a missing id is "", a text id is kept, and a numeric id's text parses back to the number |
| Api.CityAsWritten | lib/api.ts:33 | as written, the city is the city object itself exactly when it is an object without a truthy name; otherwise it is the first truthy of the nested name and the flat text |
| Api.StateAsWritten | lib/api.ts:34 | as written, the state is a state object itself exactly when no earlier candidate is truthy and it is an object without a truthy name; otherwise it is the first truthy candidate |
| Api.CityName | lib/api.ts:33 | the city is the first truthy of the nested name and the flat text, else "", and agrees with the as-written text whenever that is text |
| Api.StateName | lib/api.ts:34 | the state is the first truthy of the city's state name, the state's name and the flat text, else "", and agrees with the as-written text whenever that is text |
| Api.CityObjectLeaks | lib/api.ts:33 | a city object without a name is passed through as written, and becomes "" in the corrected reading |
| Api.StateObjectLeaks | lib/api.ts:34 | a state object with an empty name is passed through as written, and becomes "" in the corrected reading |
| Api.MapLocation | lib/api.ts:21-49 | each record field is the first truthy of its candidate JSON fields in source order. Coordinates fall back to 0, the other texts to "", and the website is the first website field if truthy, else the second |
| Api.MapAll | lib/api.ts:76 | mapping succeeds exactly when every element is an object, and then yields one record per element, in order |
| Api.Normalize | lib/api.ts:53-57 | an array is returned as is, an object's `locations` array is returned, anything else gives [] |
| Api.NormalizedResult | lib/api.ts:99-107 | a network error, a non-ok status, an unparsable body or a null element gives []; otherwise the mapped normalised list |
| Api.ListResult | lib/api.ts:73-80 | a non-empty result comes only from an ok response whose body is an array, and then it is that array mapped. A `null` element in the array gives [] |
| Api.ListRejectsNull | lib/api.ts:76-80 | a `null` element in the list endpoint's array makes the call return [] |
| Api.ShapeTolerance | lib/api.ts:53-57 | the closest and nearby endpoints read a bare array and the same array wrapped in an object identically |
| Api.ListRejectsWrapper | lib/api.ts:75-76 | the list endpoint reads a wrapped array as [] |
| Api.Sent | lib/api.ts:67-71 | the query holds at most one pair per parameter |
| Api.LookupAppend | lib/api.ts:68 | appending a pair leaves earlier keys' values and adds the new key's value when it was absent |
| Api.LookupAbsent | lib/api.ts:67 | a key not in the query has no value |
| Api.SentKeys | lib/api.ts:67-71 | only listed parameter keys are sent, and distinct parameter keys stay distinct |
| Api.SentLookup | lib/api.ts:67-71 | with distinct keys, a parameter's key looks up its value exactly when it was sent |
| Api.Append | lib/api.ts:68 | `append` adds the pair at the end exactly when the parameter is present |
| Api.ListQueryMeaning | lib/api.ts:67-71 | `category` is sent upper-cased exactly when given, `address`, `cityId` and `cityName` exactly when given, no other key, no key twice |
| Api.ClosestQueryMeaning | lib/api.ts:93-97 | `latitude` and `longitude` are always sent, `limit` and the upper-cased `category` exactly when given, no other key, no key twice |
| Api.NearbyQueryMeaning | lib/api.ts:121-126 | `latitude` and `longitude` are always sent, `radiusKm`, the upper-cased `category` and `limit` exactly when given, no other key, no key twice |
| Api.BuildListQuery | lib/api.ts:67-71 | the appended query is the list endpoint's parameter list as sent, with its meaning |
| Api.BuildClosestQuery | lib/api.ts:93-97 | the appended query is the closest endpoint's parameter list as sent, with its meaning |
| Api.BuildNearbyQuery | lib/api.ts:121-126 | the appended query is the nearby endpoint's parameter list as sent, with its meaning |
| Api.GetAllLocations | lib/api.ts:60-81 | requests `/locations` with the list query and returns the list reading of the outcome |
| Api.GetClosestLocations | lib/api.ts:84-108 | requests `/locations/closest` with its query and returns the normalised reading of the outcome |
| Api.GetNearbyLocations | lib/api.ts:111-137 | requests `/locations/nearby` with its query and returns the normalised reading of the outcome |
| ResponderFilter.Apply | app/admin/page.tsx:99-115 | the filtered list is an order-preserving sub-list holding exactly the records that pass all four stages, each as often as it occurs in the input |
| ResponderFilter.FilterInStages | components/MapView.tsx:72-99 | narrowing the copied list stage by stage gives exactly the filtered list |
| ResponderFilter.NarrowByText | components/MapView.tsx:73-84 | after the text stage, the list is the records passing it |
| ResponderFilter.NarrowByCategory | components/MapView.tsx:86-88 | after the category stage, the list is the records passing both stages so far |
| ResponderFilter.NarrowByCity | components/MapView.tsx:90-92 | after the city stage, the list is the records passing the three stages so far |
| ResponderFilter.NarrowByState | components/MapView.tsx:94-96 | after the state stage, the list is the filtered list |
| ResponderFilter.NoCriteriaShowsAll | components/MapView.tsx:72-99 | with no criterion set, the whole list is shown in its order |
| ResponderFilter.BlankTitleNotGiven | components/MapView.tsx:75 | a title of whitespace only switches the text stage off |
| ResponderFilter.BlankTitleIgnored | components/MapView.tsx:75-84 | a title of whitespace only filters exactly like an empty one |
| ResponderFilter.UnsetTitlesAgree | components/MapView.tsx:75-84 | two filters whose titles are both unset and whose other criteria agree match the same records |
| ResponderFilter.OwnTitleMatches | components/MapView.tsx:76-82 | a record's own title always finds it |
| ResponderFilter.ApplyIdempotent | app/admin/page.tsx:99-115 | filtering an already filtered list changes nothing |
| ResponderFilter.AvailableCities | components/MapView.tsx:61-64 | the city choices are strictly sorted and are exactly the cities of the records |
| ResponderFilter.AvailableStates | components/MapView.tsx:66-69 | the state choices are strictly sorted and are exactly the states of the records |
| ResponderFilter.AvailableCitiesCanonical | app/admin/page.tsx:117 | two lists with the same set of cities offer the same city choices |
| Filters.HandleChange | components/Filters.tsx:30-35 | the changed criterion takes the value, every other criterion and the category list are kept |
| Filters.ClearFilters | components/Filters.tsx:37-44 | every criterion is at its default and the category list is dropped |
| Filters.HasActiveFilters | components/Filters.tsx:46-50 | active exactly when some criterion differs from its default |
| Filters.HandleChangeSameValue | components/Filters.tsx:30-35 | writing a criterion's own value back changes nothing |
| Filters.HandleChangeOverwrites | components/Filters.tsx:30-35 | the last write to a criterion wins |
| Filters.HandleChangeCommutes | components/Filters.tsx:30-35 | changes to different criteria commute |
| Filters.ClearedShowsAll | components/Filters.tsx:37-44 | cleared filters are inactive and show every record |
| Filters.InactiveShowsAll | components/Filters.tsx:46-50 | filters the panel reports as inactive show every record |
| Filters.SpacesTitleActiveButIdle | components/Filters.tsx:46-50 | a title of one space counts as active although it filters nothing out |
| Filters.CategoryOptions | components/Filters.tsx:14-21 | six options, "All" first, every category's name among them, no repeats |
| Filters.CategoryOptionSelects | components/Filters.tsx:14-21 | choosing a category option keeps exactly that category's records |
| Filters.ResultLabel | components/Filters.tsx:151 | the label is exactly the count's decimal text followed by " result found" for one and " results found" otherwise |
| Admin.EmptyDraft | app/admin/page.tsx:34-49 | a blank form has no id, category Police and zero coordinates |
| Admin.ToRecord | app/admin/page.tsx:67 | the saved record carries the given id |
| Admin.NewRecord | app/admin/page.tsx:71-76 | a new record takes the fresh id unless the form carries one |
| Admin.ToRecordOfDraft | app/admin/page.tsx:51-55 | loading a record into the form and saving it gives the record back |
| Admin.UpdateDraft | app/admin/page.tsx:257-371 | a form control's edit shows its value in its field and leaves every other field |
| Admin.RemoveId | app/admin/page.tsx:57-61 | deleting keeps, in order, exactly the records with another id, each as often as it occurs |
| Admin.ReplaceId | app/admin/page.tsx:65-69 | saving replaces exactly the records with the edited id and keeps the rest in place |
| Admin.ReplaceKeepsIds | app/admin/page.tsx:65-69 | saving an edit keeps every id in its place |
| Admin.SaveUnchanged | app/admin/page.tsx:63-80 | saving an unchanged form leaves the list as it was |
| Admin.RemoveIdIdempotent | app/admin/page.tsx:57-61 | deleting twice is deleting once, and no record with the id remains |
| Admin.Dashboard.constructor | app/admin/page.tsx:10-30 | the initial list, no edit in progress, the form hidden and blank, default filters |
| Admin.Dashboard.Add | app/admin/page.tsx:34-49 | opens a blank form for a new record, list and filters unchanged |
| Admin.Dashboard.Edit | app/admin/page.tsx:51-55 | opens the form loaded with the record |
| Admin.Dashboard.Delete | app/admin/page.tsx:57-61 | removes the records with the id only when confirmed, nothing else changes |
| Admin.Dashboard.Submit | app/admin/page.tsx:63-80 | an edit replaces the edited record, an add appends the form under the fresh id, and the form closes |
| Admin.Dashboard.Cancel | app/admin/page.tsx:82-97 | closes and blanks the form, the list untouched |
| Admin.Dashboard.EditForm | app/admin/page.tsx:257-371 | one form field takes the control's value |
| Admin.Dashboard.SetFilter | app/admin/page.tsx:163-204 | one criterion takes the control's value |
| Admin.Dashboard.FilteredResponders | app/admin/page.tsx:99-115 | the table lists exactly the filtered records |
| MapController.CommandFor | components/MapController.tsx:14-33 | centre and zoom give `setView` at that zoom, a centre alone `setView` at zoom 15, a zoom alone `setZoom`, and neither nothing |
| MapController.Perform | components/MapController.tsx:14-33 | no command leaves the view, `setZoom` keeps the centre |
| MapController.EffectShowsRequest | components/MapController.tsx:14-33 | after the effect the map shows the requested centre and zoom (zoom 15 for a centre alone) |
| MapController.EffectIdempotent | components/MapController.tsx:14-33 | running the effect again changes nothing |
| MapView.Click | components/MapView.tsx:101-104 | selects the facility and centres on it, nothing else |
| MapView.Close | components/MapView.tsx:123-125 | drops the selection only |
| MapView.Reset | components/MapView.tsx:126-131 | no selection, no centre, settings closed, inactive default filters |
| MapView.Toggle | components/MapView.tsx:157 | flips the settings menu only |
| MapView.ResetIdempotent | components/MapView.tsx:126-131 | resetting twice is resetting once |
| MapView.ToggleInvolution | components/MapView.tsx:157 | toggling twice restores the state |
| MapView.ResetShowsAll | components/MapView.tsx:126-131 | after a reset every facility is shown and the controller only re-zooms to 15 |
| MapView.ClickMovesMap | components/MapView.tsx:299 | a click makes the controller move to the facility at zoom 15 |
| MapView.MapScreen.constructor | components/MapView.tsx:38-52 | nothing loaded or selected, settings closed, default filters |
| MapView.MapScreen.Load | components/MapView.tsx:55-58 | the data becomes both the list and the shown list |
| MapView.MapScreen.RunFilterEffect | components/MapView.tsx:72-99 | the shown list becomes exactly the filtered list, nothing else changes |
| MapView.MapScreen.SetFilters | components/MapView.tsx:208-214 | the panel's filters replace the screen's, nothing else changes |
| MapView.MapScreen.ResponderClick | components/MapView.tsx:101-104 | the screen state becomes the click transition, lists unchanged |
| MapView.MapScreen.CloseInfoCard | components/MapView.tsx:123-125 | the screen state becomes the close transition, lists unchanged |
| MapView.MapScreen.ResetFilters | components/MapView.tsx:126-131 | the screen state becomes the reset transition, lists unchanged |
| MapView.MapScreen.ToggleSettings | components/MapView.tsx:157 | the screen state becomes the toggle transition, lists unchanged |
| MapView.MapScreen.ControllerCommand | components/MapView.tsx:299 | with a centre the controller moves there at zoom 15, without one it only sets zoom 15 |
| MarkerCluster.IconFor | components/MarkerClusterGroup.tsx:29-46 | up to 50 children a small 40-pixel icon, 51 to 100 a medium 50-pixel one, above 100 a large 60-pixel one, showing the count |
| MarkerCluster.IconSizeMonotone | components/MarkerClusterGroup.tsx:31-39 | a bigger cluster never gets a smaller icon |
| MarkerCluster.DistanceFor | components/MarkerClusterGroup.tsx:71-75 | a distance is shown exactly when a distance map is given and has the facility's id, and it is that entry |
| MarkerCluster.MarkerFor | components/MarkerClusterGroup.tsx:51-83 | the marker sits at the facility's coordinates, reports the facility on click, and pops up its distance if any |
| MarkerCluster.MarkersFor | components/MarkerClusterGroup.tsx:50-86 | one marker per facility, in order |
| MarkerCluster.ClusterGroup.constructor | components/MarkerClusterGroup.tsx:23-47 | a new group holds no layer |
| MarkerCluster.ClusterGroup.AddLayer | components/MarkerClusterGroup.tsx:85 | the marker is added after the existing layers |
| MarkerCluster.AddMarkers | components/MarkerClusterGroup.tsx:50-86 | the group gains the facilities' markers, in order, after its existing layers |
| MarkerCluster.Render | components/MarkerClusterGroup.tsx:19-89 | without a map nothing is added; with one, one marker per facility, in order, each with its facility and distance |
| GooglePlaces.PlacesClient.constructor | lib/googlePlaces.ts:29-31 | not loaded, no services |
| GooglePlaces.PlacesClient.SetupServices | lib/googlePlaces.ts:88-102 | without the library nothing changes; a throwing constructor leaves that service and the later one as they were |
| GooglePlaces.PlacesClient.Init | lib/googlePlaces.ts:34-86 | no window or already loaded resolves and changes nothing; a resolved load has set the loaded flag; a timeout or load failure rejects with its message and changes nothing. On a first call, a library already present, or a script that appears or loads in time, resolves; a resolved load then sets the autocomplete service when the library is available and its constructor did not throw, sets the places service when both constructors succeeded, and otherwise keeps each service as it was |
| GooglePlaces.InitTwice | lib/googlePlaces.ts:36 | after a resolved initialisation a second one resolves too |
| GooglePlaces.PlacesClient.GetAutocompleteSuggestions | lib/googlePlaces.ts:105-153 | no request unless loaded, with a service, and the input has at least two code units; else the request with country and types, and the shaped reply |
| GooglePlaces.PlacesClient.GetPlaceDetails | lib/googlePlaces.ts:156-198 | no request unless loaded with a places service; else the request for the four fields and the shaped reply |
| GooglePlaces.Country | lib/googlePlaces.ts:124 | the first region code if truthy, else "in"; never empty |
| GooglePlaces.ShapePrediction | lib/googlePlaces.ts:142-149 | each suggestion text is the first truthy candidate in source order, else "" |
| GooglePlaces.ShapeSuggestions | lib/googlePlaces.ts:129-150 | [] unless the status is OK with predictions; else one suggestion per prediction, in order |
| GooglePlaces.MainTextFromDescription | lib/googlePlaces.ts:146 | a prediction with a description always gets a main text |
| GooglePlaces.ShapeDetails | lib/googlePlaces.ts:172-195 | a place exactly when the status is OK and it has a location; its id falls back to the requested id, texts fall back to "", and each coordinate is read from the getter or the plain field |
| GooglePlaces.DetailsIdNonEmpty | lib/googlePlaces.ts:187 | a non-empty requested id gives a non-empty place id |

## Left out

- Numbers are integers. Coordinates, distances and `Number(...)` conversions are not modelled as floating point, and `parseFloat`, `toFixed(1)` and `toString` of non-integers are not modelled.
- Case mapping covers ASCII letters only. Other characters are kept as they are, where JavaScript maps them by Unicode rules.
- `Ordering.SortedDistinct` compares strings by code point, whereas `Array#sort` compares UTF-16 code units. The two orders differ only between characters above the Basic Multilingual Plane and code units 0xE000-0xFFFF.
- The query string is modelled as a list of key/value pairs. URL encoding and `URLSearchParams#toString` are not modelled.
- `fetch`, `response.json()` and their failures are one `HttpOutcome` input. Async scheduling, React re-rendering and effect ordering are not modelled, and neither is concurrency between calls.
- JSON values are a typed record with optional fields. Primitive array elements other than `null` read as objects without fields. An id is either text or an integer; other id values are not modelled.
- Logging (`console.error` and `console.warn`) is not modelled.
- The admin page's confirmation dialog and `Date.now()` are the `confirmed` and `freshId` inputs of `Admin.Dashboard.Delete` and `Admin.Dashboard.Submit`.
- The page layout is not modelled: Leaflet, the icons and the HTML of the popups and the cluster icons. The popup and icon content are recorded as fields.
- Geolocation, the support `mailto:` link, the admin sign-in and the sidebar are not modelled.
- `initGooglePlaces`'s script injection, 100 ms polling and 10 s timer are flattened into the `Environment` input. This input says which path the environment takes. The API key and script URL are not modelled.
- Provider predictions that are not objects are not modelled.
- `refreshSessionToken` is not modelled because it does nothing.
- Search orchestration is not modelled: debouncing, a generation counter, the haversine distance and the merging of backend and Places results. None of the source files modelled here contains such code.
- Api.MapLocation: reads `city` and `state` through the corrected `Api.CityName` and `Api.StateName`. Where `lib/api.ts:33-34` pass a nameless city or state object through, the model gives "" (see Findings).

## Findings

| source | as written | input that shows it | evidently intended | confidence | as-written member | corrected member |
|---|---|---|---|---|---|---|
| lib/api.ts:33 | `loc.city?.name \|\| loc.city \|\| ''` returns the city object itself when it has no truthy `name` | `{ city: {} }` (city object without a name) | a string city, "" when no name is known | not executed | Api.CityAsWritten, Api.CityObjectLeaks | Api.CityName |
| lib/api.ts:34 | `... \|\| loc.state?.name \|\| loc.state \|\| ''` returns the state object itself when no name is truthy | `{ state: { name: "" } }` | a string state, "" when no name is known | not executed | Api.StateAsWritten, Api.StateObjectLeaks | Api.StateName |
