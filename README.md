# SapaOC market map: a Dafny model

SapaOC is a single-page map of the Sapa market. Guests browse locations (food stalls,
shops, services, toilets, entrances) on a map image or in a list. They can search by
title and filter by category, and they can propose new locations, which start PENDING.
An administrator unlocks admin mode with a secret query parameter. In admin mode they
can add, edit, move, approve and delete locations, and replace the map background. The
list of locations and the background are kept in the browser's local storage, which
the application reads and writes directly. The repository also holds a persistence
service (services/api.ts) that puts a remote server in front of the same cache, with
fallbacks when the server cannot be reached. The application does not import it; it is
modelled as a module of its own and related to the application's start-up read.

This project models that behaviour:

- the data model (`Types`);
- the two local-storage slots as a class (`Storage`);
- the separate persistence service with its fallback chains (`Api`);
- the pure list transformations behind the application's handlers (`LocationStore`);
- the application component as a class with one field per piece of state (`App`);
- the GPS-to-map projection (`Projection`);
- the add/edit form (`LocationModal`);
- the header's search (`Header`);
- the list cards (`ListView`);
- the map surface (`InteractiveMap`);
- the markers (`MapMarker`);
- the category bar (`BottomNav`).

`Seqs` holds the generic order-keeping filter and the keyed update that the other
modules share.

Things outside the program become inputs:

- A network exchange is an input `Reply` value: `Ok(body)`, `NotOk` or `Threw`.
- A storage write that may throw takes a `quotaExceeded` flag.
- A confirmation dialog is a `confirmed` flag.
- The id of a new record is a parameter.
- The constant tables (categories, translations, seed list, geographic bounds,
  default background) are parameters.

Coordinates and zoom scales are `real`.

The model follows the code in three places where a reader might expect otherwise:

- Editing or moving an id that is not in the list is a silent no-op, not an error.
- The projection divides by the two ranges of the bounds without a guard, so a
  non-degenerate box is a precondition.
- The marker's icon choice tests for a HOTEL category that the enumeration does not have,
  so that branch is dead and `MapMarker.IconName` has no such case.

## Model

| member | source | states |
|---|---|---|
| Types.EnumerationsClosed | types.ts:1-18 | Five categories, each listed once, and none named HOTEL; the status enumeration has exactly two values and the language enumeration exactly three |
| Types.CategoryIdInjective | types.ts:1-7 | Distinct categories have distinct string values |
| Types.OrElse | components/LocationModal.tsx:47-49 | An optional text falls back exactly when it is missing or empty |
| Types.FindConfig | components/ListView.tsx:28 | Finds a config exactly when one has the category, and returns the first such config |
| Types.BadgeColor | components/MapMarker.tsx:17 | The config's colour when it exists and is non-empty, otherwise bg-gray-500 |
| Storage.LocalStorage.constructor | services/api.ts:46 | Starts with the given contents in both slots |
| Storage.LocalStorage.WriteLocations | services/api.ts:57 | A write that does not throw stores the list; one that throws leaves the slot as it was |
| Storage.LocalStorage.WriteMapImage | services/api.ts:117 | A write that does not throw stores the URL; one that throws leaves the slot as it was |
| Api.DataUrl | services/api.ts:99-103 | The inline fallback is a data: URL |
| Api.CacheOrSeed | services/api.ts:44-47 | The offline read fails exactly on a corrupt cache; otherwise it returns the cached list if there is one, else the seed, never a mix of the two |
| Api.GetLocations | services/api.ts:34-49 | An ok reply whose cache write succeeds is returned and cached; every other outcome leaves the cache untouched and returns the offline read of the old cache |
| Api.SaveLocations | services/api.ts:55-72 | The cache write comes first; if it throws, the call rejects and nothing else happens; otherwise the cache holds the argument and the result is whether the server answered ok |
| Api.UploadImage | services/api.ts:79-105 | Returns the server URL when the reply is ok and both success and url are truthy, otherwise the file's data-URL; never empty, never a failure |
| Api.MapImageOf | services/api.ts:113 | The stored background when the slot holds a non-empty one, else the default |
| Api.GetMapImage | services/api.ts:110-114 | Reads the background slot with the default as fallback |
| Api.SaveMapImage | services/api.ts:116-118 | A write that does not throw stores the URL; one that throws leaves the slot as it was |
| Api.SaveThenGetMapImage | services/api.ts:110-118 | Saving a non-empty background and then reading it back gives that background |
| Api.SaveThenLoadOffline | services/api.ts:34-72 | After a save, whatever the server answered, a load with the server unreachable returns exactly the saved list |
| Projection.Percent | App.tsx:121-126 | The percentage scaled back by the extent gives the offset |
| Projection.PercentInRangeEitherSign | App.tsx:121-126 | An offset lying between 0 and a non-zero extent, of either sign, is a percentage between 0 and 100 |
| Projection.Project | App.tsx:117-126 | x is the longitude's offset from the left edge as a percentage of the longitude range, y the latitude's offset below the top edge as a percentage of the latitude range |
| Projection.PercentInRange | App.tsx:121-126 | An offset within a positive extent is a percentage between 0 and 100 |
| Projection.PercentIncreasing | App.tsx:121-126 | Over a positive extent the percentage grows strictly with the offset |
| Projection.ProjectInverse | App.tsx:117-126 | The projection is invertible: unprojecting the map point gives back the GPS fix |
| Projection.ProjectCorners | App.tsx:117-126 | The top-left corner maps to (0,0) and the bottom-right corner to (100,100) |
| Projection.ProjectInBox | App.tsx:117-126 | Every fix between the two corners on both axes lands in [0,100] on both axes, whichever way the box is oriented |
| Projection.ProjectMonotone | App.tsx:117-126 | x grows strictly with longitude, and y grows strictly as latitude falls |
| Projection.ProjectOutsideBox | App.tsx:128-132 | No clamping: a fix outside the box lands below 0 or above 100 on the matching side |
| LocationModal.FormFor | components/LocationModal.tsx:41-52 | The fields are copied from the edited record; a missing phone number, image or opening hours becomes '' |
| LocationModal.SubmitPayload | components/LocationModal.tsx:54-61 | The payload holds the six form fields; x and y come from the edited record, else the tapped point, else 50 |
| LocationModal.UnchangedEditReproducesRecord | components/LocationModal.tsx:41-61 | Loading a record into the form and submitting it unchanged gives back the record's title, category, description, coordinates and non-empty optional fields |
| LocationModal.SubmitLabelKey | components/LocationModal.tsx:211 | form_update when editing, otherwise form_create for an admin and form_submit for a guest |
| LocationModal.TitleKey | components/LocationModal.tsx:80 | form_edit_title when editing, otherwise form_add_title |
| LocationModal.ShowsMoveButton | components/LocationModal.tsx:98 | The Move button is rendered exactly in edit mode, for an admin, with a move handler |
| LocationModal.ShowsDeleteButton | components/LocationModal.tsx:198 | The Delete button is rendered exactly in edit mode, for an admin, with a delete handler |
| LocationModal.GuestsAndNewFormsCannotMoveOrDelete | components/LocationModal.tsx:98-198 | Neither Move nor Delete is offered to a guest, or on a form for a new point |
| LocationModal.Form.constructor | components/LocationModal.tsx:30-37 | The form starts with every text empty and category FOOD |
| LocationModal.Form.IsEditMode | components/LocationModal.tsx:73 | The form is in edit mode exactly when a record was handed in |
| LocationModal.Form.LoadInitialData | components/LocationModal.tsx:41-52 | With a record under edit the form is loaded from it; without one nothing changes |
| LocationModal.Form.EditTitle | components/LocationModal.tsx:117 | Replaces the title and no other field |
| LocationModal.Form.EditCategory | components/LocationModal.tsx:127 | Replaces the category and no other field |
| LocationModal.Form.EditPhoneNumber | components/LocationModal.tsx:141 | Replaces the phone number and no other field |
| LocationModal.Form.EditDescription | components/LocationModal.tsx:153 | Replaces the description and no other field |
| LocationModal.Form.SetImage | components/LocationModal.tsx:63-71 | A picked photo's data-URL replaces the image and no other field |
| LocationModal.Form.RemoveImage | components/LocationModal.tsx:188 | Sets the image to '' and leaves every other field unchanged |
| LocationModal.Form.Submit | components/LocationModal.tsx:54-112 | Nothing is handed over while the required name is empty; otherwise the payload built from the current form and coordinates, whose title is then non-empty; the form is left as it was |
| LocationStore.FindById | App.tsx:226 | Finds a record exactly when one has the id, and returns the first such record |
| LocationStore.NewLocation | App.tsx:154-159 | The new record has the given id, status APPROVED exactly for an admin, and rating 5; every other field comes from the payload, which can be read back from the record |
| LocationStore.Merge | App.tsx:150 | The payload's fields replace the record's, and id, status and rating are kept |
| LocationStore.Added | App.tsx:154-160 | The new record is appended at the end and the existing records are untouched |
| LocationStore.Edited | App.tsx:147-151 | Only the records with the edited id are merged with the payload; the length and every other record stay the same |
| LocationStore.Moved | App.tsx:171-174 | Only x and y of the records with the moving id change |
| LocationStore.Approved | App.tsx:213-215 | Only the records with the id change, and they become APPROVED |
| LocationStore.Deleted | App.tsx:217-222 | No record with the id remains, every other record stays, and the list does not grow |
| LocationStore.DeletedAppend | App.tsx:219 | Deleting distributes over concatenation, so the remaining records keep their order |
| LocationStore.DeletedSingle | App.tsx:219 | A single record is kept exactly when its id differs from the deleted one |
| LocationStore.Visible | App.tsx:233-236 | An admin sees the whole list; a guest sees exactly the APPROVED records, and never more records than the list has |
| LocationStore.ApproveIdempotent | App.tsx:213-215 | Approving twice is the same as approving once |
| LocationStore.ApprovedIsApproved | App.tsx:214 | After approval every record with that id is APPROVED |
| LocationStore.MissingIdIsNoOp | App.tsx:171-174 | Moving, editing, approving or deleting an id that is not in the list leaves the list unchanged, with no error |
| LocationStore.UpdatesKeepIds | App.tsx:147-151 | Edit, move and approve keep every id in its place, so unique ids stay unique |
| LocationStore.EditKeepsStatus | App.tsx:147-151 | An edit never changes a record's status or rating |
| LocationStore.AddKeepsUniqueIds | App.tsx:154-160 | Adding with an unused id keeps the ids unique, and the id is then present |
| LocationStore.DeleteKeepsUniqueIds | App.tsx:219 | Deleting keeps the ids unique |
| LocationStore.AddThenDeleteRestores | App.tsx:154-222 | Deleting a record right after adding it under a fresh id gives back the original list |
| LocationStore.GuestViewPreservesOrder | App.tsx:233-236 | The guest view keeps the original order: it distributes over concatenation |
| LocationStore.GuestViewSingle | App.tsx:233-236 | A single record is kept exactly when it is APPROVED, once |
| LocationStore.GuestViewWithinAdminView | App.tsx:233-236 | The guest view lies within the admin view, and equals it when nothing is PENDING |
| LocationStore.HiddenUntilApproved | App.tsx:154-236 | A guest's proposal under a fresh id is in the list, every record with that id is PENDING and hidden from guests, and after approval guests see it |
| LocationStore.SubmitApproveDeleteScenario | App.tsx:154-236 | A guest's proposal is PENDING with rating 5 and hidden from guests; once approved it is visible to them; once deleted it is gone |
| App.StartupLocations | App.tsx:32-40 | The cached list when the slot holds one that parses; the seed when the slot is missing, empty or corrupt |
| App.StartupMatchesOfflineRead | App.tsx:32-40 | Start-up and the service's offline read agree, except on a corrupt cache, where only the service fails |
| App.Translate | App.tsx:52-54 | The translation when present and non-empty, else the key itself; a non-empty key never gives '' |
| App.App.constructor | App.tsx:10-49 | The first render: the list and background come from storage, every flag is off, the language is Czech and the map view is shown |
| App.App.CheckSecretKey | App.tsx:57-66 | The secret equal to sapaadmin enables admin switching and turns admin mode on; any other value changes nothing |
| App.App.ToggleAdmin | components/Header.tsx:191-198 | Flips admin mode, and only when switching is enabled |
| App.App.SetLanguage | components/Header.tsx:172 | Sets the interface language |
| App.App.SetViewMode | components/Header.tsx:95-103 | Switches between the map and the list |
| App.App.SelectCategory | App.tsx:309 | Sets the active category filter |
| App.App.T | App.tsx:52-54 | A non-empty key never translates to '' |
| App.App.VisibleLocations | App.tsx:233-236 | The whole list for an admin, exactly the APPROVED records for a guest, never more records than the list has |
| App.App.PersistLocations | App.tsx:69-75 | The cache holds the current list unless the write throws, in which case the failure is swallowed |
| App.App.UploadMapImage | App.tsx:78-93 | The new background is shown at once; it reaches the cache only when the write does not throw |
| App.App.Locate | App.tsx:96-100 | Switches to the map and highlights the record |
| App.App.ReceivePosition | App.tsx:111-132 | The user's dot is the unclamped projection of the fix, and projecting it back gives the fix |
| App.App.Submit | App.tsx:146-166 | With a record under edit, only the records with its id are merged; otherwise the new record is appended; unique ids stay unique for a fresh id; the form closes |
| App.App.MapClick | App.tsx:169-186 | In move mode an admin's click moves the pending record and leaves move mode; otherwise an admin's click opens the add form at that point; a guest's click changes nothing |
| App.App.MarkerClick | App.tsx:189-198 | An admin's click opens the edit form on the record; a guest's click changes nothing |
| App.App.StartMove | App.tsx:201-204 | Closes the form and waits for the next map click to move the record |
| App.App.CancelMove | App.tsx:265 | Leaves move mode |
| App.App.OpenSuggestForm | App.tsx:206-210 | Opens an empty add form with no tapped point |
| App.App.CloseForm | App.tsx:319 | Closes the form |
| App.App.Approve | App.tsx:213-215 | The list becomes the approved list |
| App.App.Delete | App.tsx:217-222 | A confirmed delete removes every record with the id and closes the form; a declined one changes nothing |
| App.App.EditFromList | App.tsx:225-230 | An admin gets the edit form on the first record with the id; a missing id changes nothing |
| App.Mount | App.tsx:32-75 | The first render followed by the effect on the list: the start-up list is written straight back, so a corrupt cache is replaced by the seed unless the write throws |
| App.PersistThenReload | App.tsx:32-75 | After the effect persists the list, a reload starts with exactly that list and the stored background |
| App.MenuToggleAdmin | components/Header.tsx:227-235 | The menu's admin entry flips admin mode when switching is enabled and closes the menu |
| App.GuestSubmissionLifecycle | App.tsx:146-236 | Run through the component: after a guest submits under a fresh id the record is present, PENDING and hidden from guests; after an admin approves it guests see it; after a confirmed delete it is gone |
| Header.LowerChar | components/Header.tsx:58 | Lower-cases exactly the ASCII capitals |
| Header.Lower | components/Header.tsx:58 | Lower-cases a string character by character and keeps its length |
| Header.TitleMatches | components/Header.tsx:58 | A title matches exactly when its lower-cased form contains the lower-cased query |
| Header.SearchResults | components/Header.tsx:57-59 | An empty query yields nothing; otherwise exactly the locations whose lower-cased title contains the lower-cased query, never more than the list has |
| Header.GuestSearchFindsOnlyApproved | components/Header.tsx:57-59 | Over the guest view the results are drawn from the list and are all APPROVED |
| Header.SearchPreservesOrder | components/Header.tsx:58 | The results keep the order of the list |
| Header.SearchSingle | components/Header.tsx:58 | On a single record a non-empty query keeps it exactly when its title matches, once |
| Header.TitleFindsItself | components/Header.tsx:58 | A query equal to a title, up to ASCII case, finds that location |
| Header.HeaderState.constructor | components/Header.tsx:34-36 | Starts with an empty query, the results hidden and the menu closed |
| Header.HeaderState.ResultsPanelOpen | components/Header.tsx:131 | The results panel is open exactly when it is shown and the query is non-empty |
| Header.HeaderState.Type | components/Header.tsx:118-121 | Typing sets the query and shows the results |
| Header.HeaderState.Focus | components/Header.tsx:122 | Focusing shows the results |
| Header.HeaderState.ClickOutside | components/Header.tsx:41-49 | A mouse-down outside the search box hides the results |
| Header.HeaderState.ClearQuery | components/Header.tsx:125 | Empties the query |
| Header.HeaderState.ChooseResult | components/Header.tsx:61-65 | Hands the id to the locate handler, hides the results and clears the query, so the panel is closed |
| Header.HeaderState.ToggleMenu | components/Header.tsx:210 | Flips the menu |
| Header.HeaderState.MenuAdminEntry | components/Header.tsx:229 | The menu's admin entry closes the menu; the flip of admin mode is App.App.ToggleAdmin's, and App.MenuToggleAdmin runs both |
| ListView.CategoryLabel | components/ListView.tsx:28-32 | The config's label for the language when the config exists and the label is non-empty, otherwise the raw category id; never '' |
| ListView.ImageSrc | components/ListView.tsx:47 | The record's image when non-empty, otherwise the placeholder URL |
| ListView.RatingShown | components/ListView.tsx:61-66 | The badge appears exactly for a present non-zero rating; a zero rating renders as a bare 0 |
| ListView.CardActions | components/ListView.tsx:86-125 | View is always offered; Approve exactly to an admin on a PENDING record with a handler; Edit and Delete exactly to an admin with a handler |
| ListView.CardFor | components/ListView.tsx:27-128 | The card shows the PENDING badge exactly to an admin on a PENDING record, the phone number and opening hours exactly when they are non-empty, and the label, image, colour and rating rules above |
| ListView.Render | components/ListView.tsx:21-130 | The empty message exactly for an empty list; otherwise one card per location, in order |
| ListView.GuestCardsHaveNoAdminControls | components/ListView.tsx:38-125 | A guest sees no PENDING badge and no Approve, Edit or Delete button |
| ListView.ApprovedCardHasNoApprove | components/ListView.tsx:38-105 | An APPROVED record shows neither the PENDING badge nor Approve |
| MapMarker.IconName | components/MapMarker.tsx:20-27 | Utensils, ShoppingBag, Bath and Info for FOOD, SHOPPING, WC and SERVICE, and MapPin for ENTRANCE |
| MapMarker.NoHotelIcon | components/MapMarker.tsx:25 | No category gets the hotel icon, and only ENTRANCE gets the pin |
| MapMarker.MarkerLabel | components/MapMarker.tsx:29 | The config's label when a config exists, even if empty; otherwise the category id |
| MapMarker.PopoverVisible | components/MapMarker.tsx:47 | The popover shows exactly when the marker is hovered or active |
| MapMarker.ZIndexClass | components/MapMarker.tsx:33-47 | The marker is raised exactly when it is hovered or active, which is when its popover shows |
| MapMarker.Marker.constructor | components/MapMarker.tsx:14 | A marker starts not hovered |
| MapMarker.Marker.MouseEnter | components/MapMarker.tsx:39 | Hovering sets the flag |
| MapMarker.Marker.MouseLeave | components/MapMarker.tsx:40 | Leaving clears the flag |
| MapMarker.Marker.Click | components/MapMarker.tsx:35-38 | A click hands over the marker's own location; that the event stops there is stated by InteractiveMap.DispatchClick |
| InteractiveMap.ZoomInScale | components/InteractiveMap.tsx:57 | Zooming in adds 0.2 and caps the result at 2.5 |
| InteractiveMap.ZoomOutScale | components/InteractiveMap.tsx:58 | Zooming out subtracts 0.2 and floors the result at 1 |
| InteractiveMap.ZoomStaysInRange | components/InteractiveMap.tsx:57-58 | Both buttons keep the scale within [1, 2.5] and are no-ops at their own bounds |
| InteractiveMap.ZoomRoundTrip | components/InteractiveMap.tsx:57-58 | Away from the bounds, zooming out undoes zooming in, and the other way round |
| InteractiveMap.MapView.constructor | components/InteractiveMap.tsx:37 | The scale starts at 1 |
| InteractiveMap.MapView.ZoomIn | components/InteractiveMap.tsx:57 | Applies the zoom-in step and keeps the scale in range |
| InteractiveMap.MapView.ZoomOut | components/InteractiveMap.tsx:58 | Applies the zoom-out step and keeps the scale in range |
| InteractiveMap.ByCategory | components/InteractiveMap.tsx:41-43 | With no active category everything passes; otherwise exactly that category's locations |
| InteractiveMap.ByCategoryPreservesOrder | components/InteractiveMap.tsx:41-43 | The category filter keeps the list's order |
| InteractiveMap.Markers | components/InteractiveMap.tsx:108-119 | One marker per filtered location, in order, with its first config; a marker is active exactly when its id is the highlighted one |
| InteractiveMap.GuestMapShowsOnlyApproved | components/InteractiveMap.tsx:41-43 | Over the guest view, every marker is an APPROVED record of the list in the active category |
| InteractiveMap.AtMostOneActiveMarker | components/InteractiveMap.tsx:116 | With no highlight no marker is active; with unique ids at most one is |
| InteractiveMap.ClickPoint | components/InteractiveMap.tsx:50-52 | The percentages locate the click: scaled back onto the map's box they give the click's screen position |
| InteractiveMap.ClickInsideInRange | components/InteractiveMap.tsx:50-52 | A click inside the map's box gives percentages in [0, 100] |
| InteractiveMap.HandleMapClick | components/InteractiveMap.tsx:46-55 | A point is reported exactly in admin mode, with a handler, on a mounted map, and it locates the click |
| InteractiveMap.DispatchClick | components/InteractiveMap.tsx:46-119 | A marker click reaches only the marker handler, never the add-point handler; a surface click reaches only the add-point handler, under its guard |
| BottomNav.Toggle | components/BottomNav.tsx:35-39 | Clicking the active category clears the selection; clicking any other category selects it |
| BottomNav.SelectAll | components/BottomNav.tsx:21 | The All button clears the selection |
| BottomNav.IsHighlighted | components/BottomNav.tsx:35 | A category button is highlighted exactly when its category is the active one |
| BottomNav.AllHighlighted | components/BottomNav.tsx:24 | The All button is highlighted exactly when no category is active |
| BottomNav.Listed | components/BottomNav.tsx:34 | Some button of the bar is for the category |
| BottomNav.EachCategoryOnce | components/BottomNav.tsx:34 | The bar lists every category, each on one button |
| BottomNav.ButtonHighlighted | components/BottomNav.tsx:35-42 | The button at that position is highlighted exactly when its category is the active one |
| BottomNav.ExactlyOneHighlighted | components/BottomNav.tsx:24-42 | When the bar lists each category once, exactly one button is highlighted: All and no category button when nothing is selected, otherwise exactly one category button |
| BottomNav.DuplicateLightsTwoButtons | components/BottomNav.tsx:34-42 | A category listed twice highlights both of its buttons when selected |
| BottomNav.UnlistedLightsNothing | components/BottomNav.tsx:24-42 | A selected category missing from the bar leaves every button dark, All included |
| BottomNav.ToggleTwice | components/BottomNav.tsx:39 | Two clicks on a category, starting from All or from that category, return to the start |
| BottomNav.ToggleHighlights | components/BottomNav.tsx:35-42 | After a click the category is highlighted exactly when it was not before, and All exactly when it was |
| BottomNav.ColorHex | components/BottomNav.tsx:65-73 | FOOD #ED1C24, SHOPPING #FFD200, SERVICE #00AEEF, WC #9E005D, and #888 for ENTRANCE |
| BottomNav.BrandColoursDistinct | components/BottomNav.tsx:65-70 | The four brand colours are pairwise distinct |

## Left out

- Rendering: markup, class strings other than the named fallbacks, animation and layout are presentation.
- Network I/O: fetch, the abort controller and the 3000/5000 ms timeouts are outside the program. Each exchange is an input outcome, so a timeout is one more way to get `Threw`.
- JSON: serialization and parsing are not modelled. A cache slot holds a list, nothing, or text that does not parse.
- File reading: `FileReader` is asynchronous browser I/O. The data-URL is built from a MIME type and an already-encoded base64 text, and the encoding itself is not modelled.
- Geolocation: the browser callbacks, the unsupported-browser path, the error path and the `isLocating` flag are device I/O. Only the success arithmetic is modelled.
- Dialogs: `alert` is left out, and `confirm` is a boolean input.
- Logging: the `console.error` and `console.warn` calls in the application and the persistence service are output only and are not modelled.
- Highlight timer: the 3-second timer that clears the highlight is a clock.
- React scheduling: state batching and the stale list snapshot used when adding are timing issues. Each handler runs on the current state.
- LocationModal.Form.SetImage: runs on the form as it is when the file has been read. In the source the read callback spreads the form captured when the file was picked, so a field edited while the file loads is lost; the model does not capture that lost edit.
- Unicode case folding: `toLowerCase` is a library function; only ASCII letters are folded.
- Floating point: coordinates and the zoom scale are exact reals. IEEE rounding, Infinity and NaN are not modelled, so after many zoom steps the model's scale can differ from the browser's by rounding.
- Constant tables: the categories, translations, seed list, geographic bounds and default background live in a constants file that is not part of this model. They are parameters.
- components/Icon.tsx is not part of this model (it maps icon names to drawings). Neither are the language flag strings of the header.
- Header file upload: the header's hidden file input only forwards the picked file to the application's handler, which `App.App.UploadMapImage` models.
- App.App.UploadMapImage: has no admin guard, like the application's handler. The buttons that open the file picker are rendered only in admin mode, and the model does not capture that render guard.
- List view and marker handlers: the list's View, Approve, Edit and Delete buttons only call the application's handlers (`App.App.Locate`, `App.App.Approve`, `App.App.EditFromList`, `App.App.Delete`), so they are modelled as which buttons are offered.
- Opening hours in the form: there is no input for opening hours, so the form only carries the loaded value through.
- Projection.Project: requires a non-zero latitude and longitude range, because the source divides by both without a guard.
- Projection.ProjectInBox: requires a non-zero range on each axis, for the same reason; it holds for either orientation of the box.
- Projection.ProjectMonotone, Projection.ProjectOutsideBox: state the direction for a box with north up and east to the right, which is how the bounds are laid out.
- App.App.ReceivePosition: requires non-degenerate bounds, because it projects the fix with `Projection.Project`.
- InteractiveMap.ClickPoint: requires a map box of non-zero width and height, because the source divides by both without a guard.
- InteractiveMap.HandleMapClick: requires a mounted map box to have non-zero width and height, for the same reason.
- InteractiveMap.DispatchClick: requires a mounted map box to have non-zero width and height, because a surface click goes through `InteractiveMap.HandleMapClick`.
- App.App.Submit: the new record's id is a parameter. The source uses the current time and never checks that the id is unused, so uniqueness is promised only for an unused id.
- Header.Lower: folds ASCII letters only.
- Effects: React runs the effect on the list after every change; the model runs it as a separate step (`App.App.PersistLocations`) that a caller sequences after the change, as `App.Mount` and `App.PersistThenReload` do.
- LocationModal.Form.Submit: the browser's `required` check is modelled as rejecting only the empty title; other browser validation is not modelled.
