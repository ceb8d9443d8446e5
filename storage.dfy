/**
 * The browser's local storage as the application uses it: two named slots,
 * 'sapa_map_locations' (a serialized location list) and 'sapa_map_bg_image'
 * (the map background reference). Serialization is not modelled: the list slot
 * holds the list it was written with, or is missing, or holds text that does
 * not parse.
 */
module Storage {
  import opened Types

  /** What reading the 'sapa_map_locations' slot yields. */
  datatype ListSlot =
    | Absent                              // no item, or the empty string (both falsy)
    | Stored(locations: seq<Location>)    // text that parses to this list
    | Corrupt                             // text on which JSON.parse throws

  class LocalStorage {
    var locationsSlot: ListSlot
    var mapImageSlot: Option<string>

    constructor (locationsSlot: ListSlot, mapImageSlot: Option<string>)
      ensures this.locationsSlot == locationsSlot && this.mapImageSlot == mapImageSlot
    {
      this.locationsSlot := locationsSlot;
      this.mapImageSlot := mapImageSlot;
    }

    /**
     * `setItem('sapa_map_locations', JSON.stringify(locations))`. When the quota is
     * exceeded the call throws (`ok` is false) and the slot keeps its old value.
     */
    method WriteLocations(locations: seq<Location>, quotaExceeded: bool) returns (ok: bool)
      modifies this`locationsSlot
      ensures ok == !quotaExceeded
      ensures locationsSlot == if ok then Stored(locations) else old(locationsSlot)
    {
      ok := !quotaExceeded;
      if ok {
        locationsSlot := Stored(locations);
      }
    }

    /** `setItem('sapa_map_bg_image', url)`, which throws when the quota is exceeded. */
    method WriteMapImage(url: string, quotaExceeded: bool) returns (ok: bool)
      modifies this`mapImageSlot
      ensures ok == !quotaExceeded
      ensures mapImageSlot == if ok then Some(url) else old(mapImageSlot)
    {
      ok := !quotaExceeded;
      if ok {
        mapImageSlot := Some(url);
      }
    }
  }
}
