/**
 * The application component's state and handlers: the location list, the privilege
 * flags, the add/edit/move workflow, the background image, the user's dot, and the
 * effects that read and write local storage.
 */
module App {
  import opened Types
  import opened Storage
  import opened LocationModal
  import opened LocationStore
  import opened Projection
  import Api
  import Header

  /** The string that unlocks the admin toggle when passed as `?secret=`. */
  const SecretKey: string := "sapaadmin"

  datatype ViewMode = MapMode | ListMode

  /**
   * The start-up list: the cached list when the slot holds one that parses; the seed
   * list when the slot is missing or empty, and also when parsing throws (caught here).
   */
  function StartupLocations(slot: ListSlot, seed: seq<Location>): (r: seq<Location>)
    ensures slot.Stored? ==> r == slot.locations
    ensures !slot.Stored? ==> r == seed
  {
    if slot.Stored? then slot.locations else seed
  }

  /** Start-up and the service's offline read agree except on a corrupt cache, which only the service fails on. */
  lemma StartupMatchesOfflineRead(slot: ListSlot, seed: seq<Location>)
    ensures !slot.Corrupt? ==> Api.CacheOrSeed(slot, seed) == Api.Resolved(StartupLocations(slot, seed))
    ensures slot.Corrupt? ==> Api.CacheOrSeed(slot, seed).Rejected? && StartupLocations(slot, seed) == seed
  {
  }

  /** `t(key)`: the current language's translation when it is present and non-empty, else the key itself. */
  function Translate(table: map<string, string>, key: string): (r: string)
    ensures key in table && table[key] != "" ==> r == table[key]
    ensures !(key in table && table[key] != "") ==> r == key
    ensures key != "" ==> r != ""
  {
    if key in table && table[key] != "" then table[key] else key
  }

  class App {
    var locations: seq<Location>
    var isAdmin: bool
    var canSwitchAdmin: bool
    var language: Language
    var viewMode: ViewMode
    var activeCategory: Option<Category>
    var highlightedId: Option<string>
    var isFormOpen: bool
    var tempCoords: Option<Coords>
    var editingLocation: Option<Location>
    var movingLocationId: Option<string>
    var userLocation: Option<UserLocation>
    var mapImage: string

    /** First render: the two lazy initialisers read the storage slots; everything else takes its default. */
    constructor (ls: LocalStorage, seed: seq<Location>, defaultMapImage: string)
      ensures locations == StartupLocations(ls.locationsSlot, seed)
      ensures mapImage == Api.MapImageOf(ls.mapImageSlot, defaultMapImage)
      ensures !isAdmin && !canSwitchAdmin && language == CS && viewMode == MapMode
      ensures activeCategory.None? && highlightedId.None? && !isFormOpen && tempCoords.None?
      ensures editingLocation.None? && movingLocationId.None? && userLocation.None?
    {
      locations := StartupLocations(ls.locationsSlot, seed);
      mapImage := Api.MapImageOf(ls.mapImageSlot, defaultMapImage);
      isAdmin, canSwitchAdmin := false, false;
      language, viewMode := CS, MapMode;
      activeCategory, highlightedId := None, None;
      isFormOpen, tempCoords, editingLocation := false, None, None;
      movingLocationId, userLocation := None, None;
    }

    /** The mount effect: the `secret` query parameter equal to the key enables and switches on admin mode. */
    method CheckSecretKey(secret: Option<string>)
      modifies this`canSwitchAdmin, this`isAdmin
      ensures secret == Some(SecretKey) ==> canSwitchAdmin && isAdmin
      ensures secret != Some(SecretKey) ==> canSwitchAdmin == old(canSwitchAdmin) && isAdmin == old(isAdmin)
    {
      if secret == Some(SecretKey) {
        canSwitchAdmin := true;
        isAdmin := true;
      }
    }

    /** The header's Admin/Guest button flips `isAdmin`; it is rendered only when `canSwitchAdmin` holds. */
    method ToggleAdmin()
      modifies this`isAdmin
      ensures isAdmin == if canSwitchAdmin then !old(isAdmin) else old(isAdmin)
    {
      if canSwitchAdmin {
        isAdmin := !isAdmin;
      }
    }

    /** `setLanguage` from the header. */
    method SetLanguage(lang: Language)
      modifies this`language
      ensures language == lang
    {
      language := lang;
    }

    /** The header's Map/List switch. */
    method SetViewMode(mode: ViewMode)
      modifies this`viewMode
      ensures viewMode == mode
    {
      viewMode := mode;
    }

    /** `setActiveCategory`, fed by the bottom bar. */
    method SelectCategory(selection: Option<Category>)
      modifies this`activeCategory
      ensures activeCategory == selection
    {
      activeCategory := selection;
    }

    /** `t(key)` with the current language's table. */
    function T(translations: Language -> map<string, string>, key: string): (r: string)
      reads this
      ensures key != "" ==> r != ""
    {
      Translate(translations(language), key)
    }

    /** `visibleLocations`: the list every view and the search receive. */
    function VisibleLocations(): (r: seq<Location>)
      reads this
      ensures isAdmin ==> r == locations
      ensures !isAdmin ==> forall l :: l in r <==> l in locations && l.status == APPROVED
      ensures |r| <= |locations|
    {
      Visible(locations, isAdmin)
    }

    /** The effect on `locations`: write the list to the cache; a failing write is swallowed. */
    method PersistLocations(ls: LocalStorage, quotaExceeded: bool)
      modifies ls`locationsSlot
      ensures ls.locationsSlot == if quotaExceeded then old(ls.locationsSlot) else Stored(locations)
    {
      var _ := ls.WriteLocations(locations, quotaExceeded);
    }

    /**
     * `handleMapImageUpload`, once the file has been read as a data-URL: the map shows
     * it at once; `stored` says whether it also reached the cache (which alert is shown).
     */
    method UploadMapImage(ls: LocalStorage, dataUrl: string, quotaExceeded: bool) returns (stored: bool)
      modifies this`mapImage, ls`mapImageSlot
      ensures mapImage == dataUrl
      ensures stored == !quotaExceeded
      ensures ls.mapImageSlot == if stored then Some(dataUrl) else old(ls.mapImageSlot)
    {
      mapImage := dataUrl;
      stored := ls.WriteMapImage(dataUrl, quotaExceeded);
    }

    /** `handleLocate`: switch to the map and highlight the record (the 3 s timer that clears it is not modelled). */
    method Locate(id: string)
      modifies this`viewMode, this`highlightedId
      ensures viewMode == MapMode && highlightedId == Some(id)
    {
      viewMode := MapMode;
      highlightedId := Some(id);
    }

    /** The success callback of `handleRequestUserLocation`: the fix projected onto the map, unclamped. */
    method ReceivePosition(lat: real, lng: real, bounds: Bounds)
      requires NonDegenerate(bounds)
      modifies this`userLocation
      ensures userLocation == Some(Project(lat, lng, bounds))
      ensures Unproject(userLocation.value, bounds) == LatLng(lat, lng)
    {
      userLocation := Some(Project(lat, lng, bounds));
      ProjectInverse(lat, lng, bounds);
    }

    /**
     * `handleFormSubmit`: with a record under edit, merge the payload into the records
     * with its id; otherwise append a new record with the given id (the source uses
     * `Date.now()` and never checks that it is unused). Then the form closes.
     */
    method Submit(data: Payload, freshId: string)
      modifies this`locations, this`isFormOpen, this`tempCoords, this`editingLocation
      ensures old(editingLocation).Some? ==> locations == Edited(old(locations), old(editingLocation).value.id, data)
      ensures old(editingLocation).None? ==> locations == Added(old(locations), freshId, data, isAdmin)
      ensures UniqueIds(old(locations)) && (old(editingLocation).None? ==> !HasId(old(locations), freshId)) ==>
        UniqueIds(locations)
      ensures !isFormOpen && tempCoords.None? && editingLocation.None?
    {
      if editingLocation.Some? {
        UpdatesKeepIds(locations, editingLocation.value.id, data, 0.0, 0.0);
        locations := Edited(locations, editingLocation.value.id, data);
      } else {
        if UniqueIds(locations) && !HasId(locations, freshId) {
          AddKeepsUniqueIds(locations, freshId, data, isAdmin);
        }
        locations := Added(locations, freshId, data, isAdmin);
      }
      isFormOpen := false;
      tempCoords := None;
      editingLocation := None;
    }

    /**
     * `onMapClick`. In move mode (a non-empty pending id) an admin's click moves the
     * records with that id (none, silently, if the id is gone) and leaves move mode.
     * Otherwise an admin's click opens the add form at that point. A guest's click
     * changes nothing.
     */
    method MapClick(x: real, y: real)
      modifies this`locations, this`movingLocationId, this`tempCoords, this`editingLocation, this`isFormOpen
      ensures Truthy(old(movingLocationId)) && isAdmin ==>
        locations == Moved(old(locations), old(movingLocationId).value, x, y) && movingLocationId.None? &&
        tempCoords == old(tempCoords) && editingLocation == old(editingLocation) && isFormOpen == old(isFormOpen)
      ensures !Truthy(old(movingLocationId)) && isAdmin ==>
        locations == old(locations) && movingLocationId == old(movingLocationId) &&
        tempCoords == Some(Coords(x, y)) && editingLocation.None? && isFormOpen
      ensures !isAdmin ==>
        locations == old(locations) && movingLocationId == old(movingLocationId) &&
        tempCoords == old(tempCoords) && editingLocation == old(editingLocation) && isFormOpen == old(isFormOpen)
    {
      if Truthy(movingLocationId) && isAdmin {
        locations := Moved(locations, movingLocationId.value, x, y);
        movingLocationId := None;
        return;
      }
      if isAdmin {
        tempCoords := Some(Coords(x, y));
        editingLocation := None;
        isFormOpen := true;
      }
    }

    /** `onMarkerClick`: an admin opens the edit form on the record; a guest's click changes nothing here. */
    method MarkerClick(loc: Location)
      modifies this`editingLocation, this`tempCoords, this`isFormOpen
      ensures isAdmin ==> editingLocation == Some(loc) && tempCoords == Some(Coords(loc.x, loc.y)) && isFormOpen
      ensures !isAdmin ==>
        editingLocation == old(editingLocation) && tempCoords == old(tempCoords) && isFormOpen == old(isFormOpen)
    {
      if isAdmin {
        editingLocation := Some(loc);
        tempCoords := Some(Coords(loc.x, loc.y));
        isFormOpen := true;
      }
    }

    /** `handleStartMove`: close the form and wait for the next map click. */
    method StartMove(id: string)
      modifies this`isFormOpen, this`movingLocationId
      ensures !isFormOpen && movingLocationId == Some(id)
    {
      isFormOpen := false;
      movingLocationId := Some(id);
    }

    /** The cancel button of the move banner. */
    method CancelMove()
      modifies this`movingLocationId
      ensures movingLocationId.None?
    {
      movingLocationId := None;
    }

    /** `openSuggestForm`: an empty add form with no tapped point. */
    method OpenSuggestForm()
      modifies this`tempCoords, this`editingLocation, this`isFormOpen
      ensures tempCoords.None? && editingLocation.None? && isFormOpen
    {
      tempCoords := None;
      editingLocation := None;
      isFormOpen := true;
    }

    /** The form's `onClose`. */
    method CloseForm()
      modifies this`isFormOpen
      ensures !isFormOpen
    {
      isFormOpen := false;
    }

    /** `approveLocation`. */
    method Approve(id: string)
      modifies this`locations
      ensures locations == Approved(old(locations), id)
    {
      locations := Approved(locations, id);
    }

    /** `deleteLocation`: only a confirmed delete removes the records and closes the form. */
    method Delete(id: string, confirmed: bool)
      modifies this`locations, this`isFormOpen
      ensures confirmed ==> locations == Deleted(old(locations), id) && !isFormOpen
      ensures !confirmed ==> locations == old(locations) && isFormOpen == old(isFormOpen)
    {
      if confirmed {
        locations := Deleted(locations, id);
        isFormOpen := false;
      }
    }

    /** `handleEditFromList`: find the first record with the id and treat it as a marker click. */
    method EditFromList(id: string)
      modifies this`editingLocation, this`tempCoords, this`isFormOpen
      ensures isAdmin && HasId(locations, id) ==>
        editingLocation == FindById(locations, id) && isFormOpen &&
        tempCoords == Some(Coords(editingLocation.value.x, editingLocation.value.y))
      ensures !(isAdmin && HasId(locations, id)) ==>
        editingLocation == old(editingLocation) && tempCoords == old(tempCoords) && isFormOpen == old(isFormOpen)
    {
      var found := FindById(locations, id);
      if found.Some? {
        MarkerClick(found.value);
      }
    }
  }

  /**
   * The first render followed by the `[locations]` effect that runs after it: the
   * start-up list is written straight back, so a corrupt cache is replaced by the
   * seed list at once (unless the write throws).
   */
  method Mount(ls: LocalStorage, seed: seq<Location>, defaultMapImage: string, quotaExceeded: bool)
    returns (app: App)
    modifies ls`locationsSlot
    ensures app.locations == StartupLocations(old(ls.locationsSlot), seed)
    ensures !quotaExceeded ==> ls.locationsSlot == Stored(app.locations)
    ensures quotaExceeded ==> ls.locationsSlot == old(ls.locationsSlot)
    ensures old(ls.locationsSlot).Corrupt? && !quotaExceeded ==> ls.locationsSlot == Stored(seed)
  {
    app := new App(ls, seed, defaultMapImage);
    app.PersistLocations(ls, quotaExceeded);
  }

  /**
   * A change of the list, the effect that persists it, and a reload: the reloaded
   * application starts with exactly the list it had, so an edit survives a reload.
   */
  method PersistThenReload(app: App, ls: LocalStorage, seed: seq<Location>, defaultMapImage: string)
    returns (reloaded: App)
    modifies ls`locationsSlot
    ensures reloaded.locations == app.locations
    ensures reloaded.mapImage == Api.MapImageOf(ls.mapImageSlot, defaultMapImage)
  {
    app.PersistLocations(ls, false);
    reloaded := new App(ls, seed, defaultMapImage);
  }

  /**
   * The header menu's admin entry, wired to the application: it flips admin mode
   * (the entry is rendered only when switching is enabled) and closes the menu.
   */
  method MenuToggleAdmin(app: App, header: Header.HeaderState)
    modifies app`isAdmin, header`isMenuOpen
    ensures app.isAdmin == if app.canSwitchAdmin then !old(app.isAdmin) else old(app.isAdmin)
    ensures !header.isMenuOpen
  {
    app.ToggleAdmin();
    header.MenuAdminEntry();
  }

  /**
   * The add/approve/delete run through the component: a guest's submission is in the
   * list, PENDING and hidden from guests (`submitted`); once an admin approves it guests
   * see it (`approved`); after a confirmed delete it is gone.
   */
  method GuestSubmissionLifecycle(ls: LocalStorage, seed: seq<Location>, defaultMapImage: string,
                                  data: Payload, freshId: string)
    returns (app: App, submitted: seq<Location>, approved: seq<Location>)
    requires !HasId(StartupLocations(ls.locationsSlot, seed), freshId)
    ensures HasId(submitted, freshId)
    ensures forall l :: l in submitted && l.id == freshId ==> l.status == PENDING
    ensures !HasId(Visible(submitted, false), freshId)
    ensures HasId(Visible(approved, false), freshId)
    ensures !HasId(app.locations, freshId)
  {
    app := new App(ls, seed, defaultMapImage);
    var before := app.locations;
    HiddenUntilApproved(before, freshId, data);
    app.Submit(data, freshId);
    submitted := app.locations;
    app.CheckSecretKey(Some(SecretKey));
    app.Approve(freshId);
    approved := app.locations;
    app.Delete(freshId, true);
  }
}
