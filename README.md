# Locationpedia view state, camera state and photo workflows in Dafny

Locationpedia is a React map application. Its "locations" live in a shared
Firestore collection, and photos live in Firebase Storage. This project
models the three components that hold the application's sequential logic.
The remote services are abstract inputs: a snapshot is a sequence of
documents, a geocoder reply is a value, and every awaited remote step is a
`Succeeded`/`Failed` outcome.

- `Records` (`records.dfy`): the record shape and the snapshot-to-list mapping
  `{ id: doc.id, ...doc.data() }`. Both the list and the map apply it.
- `LocationList` (`location_list.dfy`): the `locations` and `currentPage`
  state cells. It also covers JavaScript's `slice`, 7-entry pages, the
  `Math.ceil` page count, the `pageNumbers` loop, the distinct country tabs
  in first-occurrence order, and the per-country `filter`.
- `MapComponent` (`map_component.dfy`): the `center`, `zoom`, `boundaryData`
  and `locations` state cells and the three triggers that change them. It
  also covers the closed 5-point GeoJSON ring (RFC 7946 section 3.1.6), the
  geocoder-reply classification, and the validation of a map click that
  creates a record.
- `PopupComponent` (`popup_component.dfy`): the 3,000,000-byte guard, the
  storage path, and the awaited upload, delete and comment workflows. These
  are modelled as the trace of remote requests issued plus the new local
  `photos` and `comment` state.

Modelling choices:
- Latitude and longitude are exact `real`s. The model copies and compares
  them; only the shoelace sum behind `RingWindsClockwise` computes with them.
- An unset `country` is `None`. Records created by a map click have no
  country field.
- An awaited step with no `catch` ends the handler at the first rejection.
  `Issued` states that semantics once, and all three workflows (upload,
  delete and comment) are specified through it.
- The code deletes a photo with `photos.filter(p => p !== photo)`, which
  compares references. Every entry of `photos` is a distinct object: each
  comes from a fetched document or from a fresh `newPhoto`. So the model
  removes exactly the entry at the clicked position.

Behaviour one might expect of such an app, but which this code does not
have:
- There is no search debounce.
- One `currentPage` is shared by all tabs. There are no per-category cursors
  and no reset when a tab is switched.
- The page count is taken from the whole list, even inside a country tab.
  There is no minimum of one page: an empty list shows no buttons.
- Countries are all distinct `country` values, including "unset".
- The photo upload handler has no photo-count check. Only the file input is
  hidden, when `photos.length >= 3` (PopupComponent.jsx lines 170-172).
- Adding a comment writes `{text}` and clears the input. It does not touch
  the local list.

Other behaviour of the code:
- The boundary ring winds clockwise (`RingWindsClockwise`). RFC 7946 section
  3.1.6 says a linear ring MUST follow the right-hand rule, so an exterior
  ring must be counterclockwise; the ring the app builds breaks that rule.
  Only the section's advice to parsers, not to reject such rings, is a
  SHOULD NOT. `IsLinearRing` checks just the size and closure conditions.
- A result without `bounds` throws before `setCenter`, so nothing changes.
- A `bounds` object missing a corner throws after `setCenter`: the center
  moves to the result, the boundary stays as it was, and the error is
  logged.
- An empty file selection makes `file.size` throw before any request, so
  nothing happens.
- A failed record write after a successful upload leaves the blob stored
  but not listed in the record.

## Model

| member | source | states |
|---|---|---|
| `Records.FromDoc` | src/LocationList.jsx:28-31 | a list entry carries the document's id and exactly its fields |
| `Records.FromSnapshot` | src/LocationList.jsx:27-33 | the new local list has one entry per document, same length and order, each with `id = doc.id` and the document's data |
| `Records.ToSnapshot` | src/LocationList.jsx:28-31 | the inverse of the `{ id: doc.id, ...doc.data() }` mapping, one document per entry (same length), which `SnapshotRoundTrip` uses to show that the mapping loses nothing |
| `Records.SnapshotRoundTrip` | src/LocationList.jsx:27-34 | the local list gives back exactly the snapshot's documents, so a snapshot replaces the list with nothing merged or lost |
| `Records.SnapshotInjective` | src/MapComponent.jsx:34-42 | different snapshots give different local lists |
| `LocationList.SliceIndex` | src/LocationList.jsx:62-65 | a `slice` index counts back from the end when negative and is clamped to the list bounds |
| `LocationList.JsSlice` | src/LocationList.jsx:62-65 | `slice(start, end)` with non-negative bounds is the sub-range clipped to the list's length, never longer than the list |
| `LocationList.PageSlice` | src/LocationList.jsx:58-65 | for page p >= 1 the shown entries are exactly those at indices [(p-1)*7, p*7), clipped to the list's length: at most 7, in list order |
| `LocationList.PageCount` | src/LocationList.jsx:129 | the page count is the least c with 7c >= n, which is ceil(n/7); it is 0 exactly for an empty list |
| `LocationList.PageSliceEmptyIffPastEnd` | src/LocationList.jsx:60-65 | a page shows nothing exactly when it is past the page count; a stale cursor after the list shrinks shows an empty page |
| `LocationList.ConcatPagesFrom` | src/LocationList.jsx:60-65 | pages p..last laid end to end are the list's suffix from index (p-1)*7 |
| `LocationList.PagesPartitionList` | src/LocationList.jsx:129-139 | pages 1..ceil(n/7) laid end to end reproduce the list exactly, with no loss and no duplication |
| `LocationList.PageButtons` | src/LocationList.jsx:128-139 | the loop makes ceil(n/7) buttons numbered 1.. in order; button i is active iff i == currentPage; some button is active iff 1 <= currentPage <= the count |
| `LocationList.Distinct` | src/LocationList.jsx:56 | `[...new Set(s)]` holds exactly the values of s, each once |
| `LocationList.DistinctFirstOccurrenceOrder` | src/LocationList.jsx:56 | the distinct values keep first-occurrence order: an earlier value occurs in s before every occurrence of a later one |
| `LocationList.CountryColumn` | src/LocationList.jsx:56 | the mapped `country` column has one value per entry, in order |
| `LocationList.Countries` | src/LocationList.jsx:56 | the country tabs are every `country` value present in the list, including unset, each exactly once |
| `LocationList.WithCountry` | src/LocationList.jsx:153 | a country tab's list is no longer than the whole list, and every entry in it has that country |
| `LocationList.WithCountrySelectsInOrder` | src/LocationList.jsx:149-154 | a country tab's list is the entries at exactly those positions whose country matches, each once, in increasing position order |
| `LocationList.EveryLocationHasItsTab` | src/LocationList.jsx:149-154 | every entry's country is a tab, and the entry appears in that tab's list |
| `LocationList.SmallCountryTabLaterPagesEmpty` | src/LocationList.jsx:147-156 | a country with at most 7 entries still offers page buttons up to ceil(n/7) of the whole list, and every page from 2 on shows it empty |
| `LocationList.OneKoreanLocation` | src/LocationList.jsx:56-65 | a one-entry list in "KR": page 1 of the "KR" tab shows that entry, and "KR" is the only country tab |
| `LocationList.ListView.constructor` | src/LocationList.jsx:20-21 | the list starts empty and `currentPage` starts at 1 |
| `LocationList.ListView.ApplySnapshot` | src/LocationList.jsx:27-34 | a snapshot replaces `locations` wholesale; `currentPage` is kept, with no clamp |
| `LocationList.ListView.ClickPage` | src/LocationList.jsx:129-135 | clicking button i (1 <= i <= page count of the whole list) sets `currentPage` to i and changes nothing else |
| `LocationList.ListView.DeleteLocation` | src/LocationList.jsx:46-53 | delete only forwards the id to the store; the method cannot modify the local list |
| `LocationList.ListView.Render` | src/LocationList.jsx:128-159 | "All" and every country tab are sliced at the one shared `currentPage`; all tabs show the same buttons, ceil(n/7) of them counted from the whole list, numbered 1.. in order, button i active iff i == `currentPage`, so the current page's button is active whenever it is within the count |
| `MapComponent.BoundaryRing` | src/MapComponent.jsx:119-128 | the ring has 5 `[lng, lat]` points: SW, (SW.lng, NE.lat), NE, (NE.lng, SW.lat), SW. It meets the size and closure conditions of a linear ring (not its winding rule), and the box it was drawn from can be read back from it |
| `MapComponent.RingCornersDistinct` | src/MapComponent.jsx:121-127 | the four corners are pairwise distinct iff the box has a non-zero height and width |
| `MapComponent.RingWindsClockwise` | src/MapComponent.jsx:121-127 | for a box with NE north-east of SW, the ring's shoelace area is negative, so it winds clockwise |
| `MapComponent.BoundaryData` | src/MapComponent.jsx:112-131 | `geoJSONData` is a collection of exactly one feature whose polygon has exactly one ring; that ring meets the linear-ring size and closure conditions, and the box it was drawn from can be read back from it |
| `MapComponent.SeoulBoundary` | src/MapComponent.jsx:119-128 | bounds SW(37.4,126.8)/NE(37.7,127.2) give the ring [[126.8,37.4],[126.8,37.7],[127.2,37.7],[127.2,37.4],[126.8,37.4]] |
| `MapComponent.Classify` | src/MapComponent.jsx:98-142 | a reply moves the camera and redraws the boundary iff it has a non-empty results list whose first entry has bounds with both corners; "not found" iff data or results are missing or empty; any other reply (thrown request, missing bounds, missing corner) is a logged error |
| `MapComponent.MapClickRecord` | src/MapComponent.jsx:56-89 | a click creates a record iff both prompt answers are non-null and non-empty; the record has those answers, the clicked lat/lng, no country and empty `comments` and `photos` |
| `MapComponent.MapView.constructor` | src/MapComponent.jsx:11-19 | initial center is [37.5666791, 126.9782914], zoom 15, no boundary and no locations |
| `MapComponent.MapView.MoveTo` | src/MapComponent.jsx:21-29 | a chosen record sets center to its (lat, lng) and zoom to 20, whatever the prior zoom; no record changes nothing; the boundary is never touched |
| `MapComponent.MapView.ApplySnapshot` | src/MapComponent.jsx:34-42 | a snapshot replaces the map's `locations` wholesale and leaves the camera alone |
| `MapComponent.MapView.Search` | src/MapComponent.jsx:92-143 | the center moves to the first result's point iff the reply has a first result with a `bounds` object, even when a corner is then missing; the boundary becomes that box's ring iff both corners are present, and otherwise stays; no results or a thrown request leaves center and boundary as they were; zoom never changes |
| `PopupComponent.StoragePath` | src/PopupComponent.jsx:110-113 | the path is "locations/" + id + "/photos/" followed by exactly the file name |
| `PopupComponent.FirstSlashAfterId` | src/PopupComponent.jsx:88-91 | in id + "/" + rest, with no slash in the id, the first slash sits right after the id |
| `PopupComponent.StoragePathInjective` | src/PopupComponent.jsx:110-113 | for slash-free document ids, two photos share a blob path iff they have the same location and the same file name |
| `PopupComponent.Issued` | src/PopupComponent.jsx:114-125 | awaited steps are issued in plan order; each one only after all before it succeeded; the handler stops at the first failure; the whole plan goes out iff all but the last step succeeded |
| `PopupComponent.DeleteUndoesUpload` | src/PopupComponent.jsx:88-123 | delete targets the same storage path that upload wrote, and removes the same record entry that upload appended |
| `PopupComponent.RemoveAt` | src/PopupComponent.jsx:98 | removing the clicked photo keeps every other entry, in order, and removes exactly that one |
| `PopupComponent.Popup.constructor` | src/PopupComponent.jsx:47-49 | the comment input starts empty and the photo list starts empty |
| `PopupComponent.Popup.UploadInputShown` | src/PopupComponent.jsx:170-172 | the file input is offered exactly while one more photo still fits under the cap of 3 |
| `PopupComponent.Popup.FetchPhotos` | src/PopupComponent.jsx:54-67 | an existing record replaces the local list with its `photos` field, or with [] if the field is missing; a missing record or a failed fetch changes nothing |
| `PopupComponent.Popup.SubmitComment` | src/PopupComponent.jsx:79-85 | exactly one request is sent, appending `{text: comment}`, which is the one-step `Issued` plan; the input is cleared to "" only after that write succeeds |
| `PopupComponent.Popup.PhotoChange` | src/PopupComponent.jsx:101-127 | no chosen file means no request and no local change; size > 3000000 means no request and no local change, while exactly 3000000 proceeds. Requests go out in order: bytes, URL, record. Only if all three succeed is `{path: url, name}` appended at the end. If the input was shown (`UploadInputShown` before the call), the list stays within 3 |
| `PopupComponent.Popup.PhotoDelete` | src/PopupComponent.jsx:87-99 | the blob delete comes first; if it fails, no record request is sent and the list is unchanged; after both succeed, the clicked entry is removed and the rest keep their order |

## Left out

- Firestore, Firebase Storage and the geocoder are external services. A
  snapshot is a sequence of `Doc` values, and each request is a `RemoteCall`
  value with a `Succeeded`/`Failed` outcome. What `arrayUnion` and
  `arrayRemove` do to the stored arrays belongs to the library and is not
  modelled.
- The geocoder URL construction (`encodeURIComponent`, the API key) is just
  string plumbing.
- `window.prompt`, `alert` and `console` are I/O. The prompts' answers are
  parameters, and the alert or log outcome of a search is `SearchSignal`.
- Rendering is left out. This covers Leaflet, `MapUpdater` (which receives
  `defaultZoom`, not the `zoom` state, so nothing is claimed about the
  rendered zoom), the markers, clustering, the carousel and dialog, and
  the `clickedLocation` cell (it is never set). It also covers the `photo`
  state cell, which is only ever reset to `null`.
- React effect scheduling, subscription teardown and interleaving of
  concurrent handlers are framework and concurrency concerns. They include
  stale closures over `photos`, and an effect that re-runs only when
  `currentLocation` changes identity. Each handler is modelled as one
  sequential run.
- The HTML `required` attribute of the comment field is browser-side form
  validation. `SubmitComment` has no emptiness check, and neither does the
  handler.
- The wiring between components (through `App.jsx`) is not modelled: the
  list's Move button, `App.jsx`'s own unused creation helper, and Move
  passing the chosen record to the map as `currentLocation`.
- Floating-point coordinates are treated as exact reals. No property depends
  on rounding.
- `Records.FromSnapshot`: does not model a stored field named `id`
  overriding `doc.id` in the spread. Records written by this app have none.
