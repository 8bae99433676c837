# Ecoleta mobile client: category selection and detail strings

This project models the client-side core of Ecoleta, a mobile app for finding
waste-collection points, and proves properties of that model.

The first part is the point-listing screen. It has four state slots: the fetched
item categories, the fetched points, the list of selected item ids and the
initial map position. Tapping a category chip toggles that chip's id in the
selection. Each change of the selection issues a fresh point request for the
route's city and state code (uf). Responses replace the slots. The map and its
markers are drawn only once the position has a non-zero latitude. A chip is
highlighted when its id is selected.

The second part is the point-detail screen. It builds the items line, the
address line, the WhatsApp deep link and the mail request. It renders nothing
until the point has been fetched.

Modules:

- `Selection` (`Selection.dfy`) is the toggle as a function on lists. The id is
  found with findIndex. A selected id is filtered out; any other id is
  appended. The module also holds the lemmas about the toggle: its membership
  flip, the involution on sets (and why it fails on lists), and the
  duplicate-free invariant and odd-tap-count characterisation of any sequence
  of taps starting from the empty selection.
- `PointsView` (`PointsView.dfy`) holds the fetched records and the pure render
  guards: the map with one marker per point, and the chip row.
- `PointsScreen` (`PointsScreen.dfy`) is the listing screen as a class. Its
  fields are the four slots plus a log of the point requests issued. Its methods
  are the tap handler, the two "response arrived" events and the
  permission/position outcome.
- `Detail` (`Detail.dfy`) holds the detail screen's strings and render guard.
  Each string builder is paired with a parser that recovers its inputs. The
  round trips are proved in both directions when the title list is non-empty,
  no title contains a comma, and the uf contains no '-'. The items line needs
  both title conditions. The list must be non-empty because no titles and one
  empty title give the same line. No title may contain a comma because
  `["a, b"]` and `["a", "b"]` also give the same line.
- `Wrappers` (`Wrappers.dfy`) holds the `Option` type.

The selection is a list, not a set: re-adding a removed id puts it last, so
two taps on a selected chip restore the set of ids but not necessarily the
list (`Selection.ToggleTwiceReorders`).

## Model

| member | source | states |
|---|---|---|
| Selection.FindIndex | mobile/src/pages/Points/index.tsx:99 | The result is -1 exactly when the id is absent; otherwise it is the first position holding the id. |
| Selection.Without | mobile/src/pages/Points/index.tsx:102 | The result holds every other id and not this one, with multiplicities: the multiset of the input with this id's count set to zero. |
| Selection.Toggle | mobile/src/pages/Points/index.tsx:98-107 | After a toggle, the toggled id's membership is flipped and every other id's membership is unchanged. |
| Selection.ReplaySnoc | mobile/src/pages/Points/index.tsx:98-107 | Replaying one more tap is toggling its id in the replayed selection. |
| Selection.WithoutConcat | mobile/src/pages/Points/index.tsx:102 | Filtering distributes over concatenation, so the remaining ids keep their relative order. |
| Selection.WithoutAbsent | mobile/src/pages/Points/index.tsx:102 | Filtering out an id that does not occur returns the list unchanged. |
| Selection.ToggleAbsent | mobile/src/pages/Points/index.tsx:99-105 | Toggling an id that is not selected appends it: the earlier entries and their order are unchanged, and the new id is last. |
| Selection.TogglePresent | mobile/src/pages/Points/index.tsx:99-103 | Toggling a selected id removes every occurrence of it, keeps every other id with its multiplicity, and preserves order over any split of the list. |
| Selection.ToggleIds | mobile/src/pages/Points/index.tsx:98-107 | As a set, the toggle is the symmetric difference with {id}. |
| Selection.ToggleTwiceIds | mobile/src/pages/Points/index.tsx:98-107 | Toggling the same id twice restores the set of selected ids. |
| Selection.ToggleTwiceAbsent | mobile/src/pages/Points/index.tsx:98-107 | Toggling an unselected id twice restores the identical list. |
| Selection.ToggleTwicePresent | mobile/src/pages/Points/index.tsx:98-107 | Toggling a selected id twice gives the list without that id, followed by the id once (the id moves to the end). |
| Selection.ToggleTwiceReorders | mobile/src/pages/Points/index.tsx:98-107 | Counterexample to the list-level involution: from [1, 2], tapping 1 twice gives [2, 1]. |
| Selection.ToggleNoDuplicates | mobile/src/pages/Points/index.tsx:98-107 | The toggle keeps a duplicate-free list duplicate-free, and on such a list it removes or adds exactly one entry. |
| Selection.ReplayNoDuplicates | mobile/src/pages/Points/index.tsx:38 | Starting from the empty selection, any sequence of taps leaves the selection free of duplicates. |
| Selection.ReplayParity | mobile/src/pages/Points/index.tsx:38 | Starting from the empty selection, an id is selected exactly when it was tapped an odd number of times. |
| PointsView.MarkerFor | mobile/src/pages/Points/index.tsx:131-144 | A marker stands at its point's coordinates, shows its point's image and name, and navigates to its point's id. |
| PointsView.Markers | mobile/src/pages/Points/index.tsx:130 | There is one marker per fetched point, in the order of the points list. |
| PointsView.RenderMap | mobile/src/pages/Points/index.tsx:120-147 | The map exists exactly when the latitude is non-zero; when it exists, it is centred on the position and carries the markers of the points. |
| PointsView.RenderChips | mobile/src/pages/Points/index.tsx:157-171 | There is one chip per item, in order, showing that item. A chip is highlighted exactly when its id is in the selection. |
| PointsView.MarkerTargets | mobile/src/pages/Points/index.tsx:130-134 | Every marker belongs to a fetched point, and every fetched point has a marker. |
| PointsView.MarkersConcat | mobile/src/pages/Points/index.tsx:130 | The markers of a concatenation are the concatenation of the markers. |
| PointsView.NoMapAtOrigin | mobile/src/pages/Points/index.tsx:40 | At the initial [0, 0] position no map, and so no marker, is drawn, whatever points were fetched. |
| PointsView.ToggleChangesOnlyThatChip | mobile/src/pages/Points/index.tsx:162-164 | A tap on a chip changes the highlight of exactly the chips carrying that item id. |
| PointsScreen.QueryFor | mobile/src/pages/Points/index.tsx:79-84 | The point request carries exactly the route's city, the route's uf and the current selection. |
| PointsScreen.LoggedExtend | mobile/src/pages/Points/index.tsx:78-107 | If the log holds, for each k, the request for the selection after the first k taps, then appending the request for the selection after one more tap keeps that property. |
| PointsScreen.Screen.constructor | mobile/src/pages/Points/index.tsx:36-88 | On mount the slots are empty and the position is [0, 0]. One point request is issued, for the empty selection. |
| PointsScreen.Screen.SelectItem | mobile/src/pages/Points/index.tsx:78-107 | The selection becomes the toggle of the old one. Exactly one request is appended, with the route's city and uf and the new selection. Items, points and position are unchanged, and the invariant is kept. |
| PointsScreen.Screen.ItemsArrived | mobile/src/pages/Points/index.tsx:72-74 | The items slot is replaced by the response; nothing else changes. |
| PointsScreen.Screen.PointsArrived | mobile/src/pages/Points/index.tsx:85-87 | The points slot is replaced by the response, never merged with the old one; nothing else changes. |
| PointsScreen.Screen.PositionLoaded | mobile/src/pages/Points/index.tsx:49-64 | A status other than 'granted' returns the permission alert and changes nothing. A granted status with a known location stores that location. No other slot changes. |
| PointsScreen.Screen.View | mobile/src/pages/Points/index.tsx:120-171 | The map is drawn exactly when the stored latitude is non-zero, centred there, with the markers of the points slot. The chips follow the items slot, highlighted by membership in the selection. |
| PointsScreen.TapTwice | mobile/src/pages/Points/index.tsx:78-107 | Two taps on one chip leave the selection as the toggle of the toggle of the old one, so the selected set is restored. Exactly two requests are appended, for the selection after the first tap and after the second. The selection stays duplicate-free, and the items, points and position slots are untouched. |
| Detail.Titles | mobile/src/pages/Detail/index.tsx:74 | The titles of the items, one per item, in order. |
| Detail.JoinTitles | mobile/src/pages/Detail/index.tsx:74 | The titles in order, with ", " between adjacent ones only: the line is empty for no titles, and otherwise starts with the first title (JoinEndsWithLast shows it ends with the last; see also JoinLength, JoinConcat, JoinLast, JoinSplit and SplitJoin). |
| Detail.JoinEndsWithLast | mobile/src/pages/Detail/index.tsx:74 | A non-empty items line ends with the last title. |
| Detail.JoinConcat | mobile/src/pages/Detail/index.tsx:74 | The items line of two non-empty title lists concatenated is their two lines joined by exactly one ", ". |
| Detail.JoinLength | mobile/src/pages/Detail/index.tsx:74 | The items line is as long as the titles plus two characters per adjacent pair. So there is no trailing separator, and no titles give the empty line. |
| Detail.JoinLast | mobile/src/pages/Detail/index.tsx:74 | With several titles, the line ends with ", " followed by the last title. |
| Detail.JoinSplit | mobile/src/pages/Detail/index.tsx:74 | Splitting any line at ", " and joining it again restores the line. |
| Detail.SplitJoin | mobile/src/pages/Detail/index.tsx:74 | When no title contains a comma, splitting the items line recovers the non-empty title list exactly. |
| Detail.Address | mobile/src/pages/Detail/index.tsx:79 | The address is the city, then '-', then the uf, with nothing else. |
| Detail.ParseAddressOfAddress | mobile/src/pages/Detail/index.tsx:79 | For a uf without '-', the address reads back as its city and uf, even when the city contains a '-'. |
| Detail.AddressOfParseAddress | mobile/src/pages/Detail/index.tsx:79 | Any line that parses is the address of the city and uf it parses to. |
| Detail.WhatsappUrl | mobile/src/pages/Detail/index.tsx:49 | The link is "whatsapp://send?phone=", then the phone verbatim, then the fixed text parameter. |
| Detail.PhoneOfWhatsappUrl | mobile/src/pages/Detail/index.tsx:49 | The phone reads back unchanged from its link, because no escaping is applied. |
| Detail.WhatsappUrlOfPhone | mobile/src/pages/Detail/index.tsx:49 | Every link of that shape is the deep link of the phone it carries. |
| Detail.WhatsappUrlInjective | mobile/src/pages/Detail/index.tsx:49 | Different phones give different links. |
| Detail.ComposeMail | mobile/src/pages/Detail/index.tsx:52-57 | The mail request has the fixed subject and exactly one recipient, the point's email. |
| Detail.Render | mobile/src/pages/Detail/index.tsx:59-80 | Nothing is rendered exactly when `data.point` is absent. A point without items throws. Otherwise the screen shows the point's image, name, joined items line and address. |
| Detail.RenderInitial | mobile/src/pages/Detail/index.tsx:31 | The initial empty data slot renders nothing. |

## Left out

- Network calls (`api.get` for items, points and one point): HTTP I/O. A response is modelled only by the event that stores it (`ItemsArrived`, `PointsArrived`, or an argument of `Detail.Render`). A failed fetch is the absence of that event, so the stale slot stays.
- The items request and the permission request issued on mount: they are not logged. Only the point requests are, because their parameters are the property of interest.
- Geolocation and the permission prompt: foreign platform calls. Their outcomes, the status string and the resolved location, are parameters of `PositionLoaded`.
- PointsScreen.Screen.PositionLoaded: the model does not forbid a second call, although the mount effect runs once.
- Floating-point coordinates, the 0.014 map deltas and JavaScript's -0 and NaN: coordinates are exact reals that are only copied and compared with zero.
- Map rendering, `Image`/`SvgUri`, styles and layout: only the data handed to the map, markers and chips is modelled. The marker's `key` string is left out.
- Navigation (going back, and opening the detail screen): only the point id a marker navigates to is modelled (`Marker.detailPointId`).
- `Linking.openURL` and the mail composer: only their arguments are modelled (`WhatsappUrl`, `ComposeMail`).
- The ordering races between the three asynchronous effects: concurrency. Events are applied one at a time, in any order.
- The landing screen (`mobile/src/pages/Home/index.tsx`): pure input collection. Its 2-character cap is a property of the text input component.
- The backend (`server/src/routes.ts` and `server/src/controllers/`): not modelled. This model covers the mobile client only, so the point filter of `pointsController.index` is out of its scope.
