/**
 * The persistence service: read chain remote -> cached list -> seed data,
 * write-through saving, image upload with an inline data-URL fallback, and the
 * map background slot. Each network exchange is an input (`Reply`), and an async
 * call's settling is its result (`Settled`).
 */
module Api {
  import opened Types
  import opened Storage

  /**
   * How a fetch ends as seen by the caller: a response with `ok` set whose JSON body
   * parsed to `body`; a response with `ok` unset; or a thrown error (network failure,
   * the abort after the timeout, a body that does not parse).
   */
  datatype Reply<T> = Ok(body: T) | NotOk | Threw

  /** How the promise of an async service call settles. */
  datatype Settled<T> = Resolved(value: T) | Rejected

  /** The JSON body of the upload endpoint: `{ success, url }`, where `url` may be missing. */
  datatype UploadResult = UploadResult(success: bool, url: Option<string>)

  /** A picked image file: its MIME type and the base64 text of its bytes (the encoding itself is not modelled). */
  datatype File = File(mimeType: string, base64: string)

  /** What `FileReader.readAsDataURL` produces for a file. */
  function DataUrl(file: File): (r: string)
    ensures |r| >= 5 && r[..5] == "data:"
  {
    "data:" + file.mimeType + ";base64," + file.base64
  }

  /**
   * The offline branch of `getLocations` (the catch block): the cached list when the
   * slot holds one, the seed list when the slot is empty, and an uncaught `JSON.parse`
   * error when its text is corrupt. The two sources are never merged.
   */
  function CacheOrSeed(slot: ListSlot, seed: seq<Location>): (r: Settled<seq<Location>>)
    ensures r.Rejected? <==> slot.Corrupt?
    ensures r.Resolved? ==> r.value == (if slot.Stored? then slot.locations else seed)
  {
    match slot
    case Stored(locations) => Resolved(locations)
    case Absent => Resolved(seed)
    case Corrupt => Rejected
  }

  /**
   * `api.getLocations()`. An ok reply is written to the cache and returned; a non-ok
   * reply, a thrown fetch, or a cache write that throws lead to the offline branch,
   * which does not write the cache.
   */
  method GetLocations(ls: LocalStorage, reply: Reply<seq<Location>>, seed: seq<Location>, quotaExceeded: bool)
    returns (r: Settled<seq<Location>>)
    modifies ls`locationsSlot
    ensures reply.Ok? && !quotaExceeded ==>
      r == Resolved(reply.body) && ls.locationsSlot == Stored(reply.body)
    ensures !(reply.Ok? && !quotaExceeded) ==>
      ls.locationsSlot == old(ls.locationsSlot) && r == CacheOrSeed(old(ls.locationsSlot), seed)
  {
    if reply.Ok? {
      var cached := ls.WriteLocations(reply.body, quotaExceeded);
      if cached {
        return Resolved(reply.body);
      }
    }
    r := CacheOrSeed(ls.locationsSlot, seed);
  }

  /**
   * `api.saveLocations(locations)`. The cache is written first and outside the `try`:
   * if that write throws, the promise rejects and the server is never contacted, so
   * `reply` plays no part. Otherwise the result is `response.ok`, or false when the
   * request throws.
   */
  method SaveLocations(ls: LocalStorage, locations: seq<Location>, reply: Reply<()>, quotaExceeded: bool)
    returns (r: Settled<bool>)
    modifies ls`locationsSlot
    ensures quotaExceeded ==> r == Rejected && ls.locationsSlot == old(ls.locationsSlot)
    ensures !quotaExceeded ==> r == Resolved(reply.Ok?) && ls.locationsSlot == Stored(locations)
  {
    var cached := ls.WriteLocations(locations, quotaExceeded);
    if !cached {
      return Rejected;
    }
    r := Resolved(reply.Ok?);
  }

  /**
   * `api.uploadImage(file)`: the server's URL when the reply is ok and both `success`
   * and `url` are truthy; otherwise the file's data-URL. It never rejects, and the
   * reference it yields is never empty.
   */
  function UploadImage(file: File, reply: Reply<UploadResult>): (r: string)
    ensures r != ""
    ensures reply.Ok? && reply.body.success && Truthy(reply.body.url) ==> r == reply.body.url.value
    ensures !(reply.Ok? && reply.body.success && Truthy(reply.body.url)) ==> r == DataUrl(file)
  {
    if reply.Ok? && reply.body.success && Truthy(reply.body.url) then reply.body.url.value
    else DataUrl(file)
  }

  /** `getItem('sapa_map_bg_image') || DEFAULT_MAP_IMAGE_URL` on the slot's content. */
  function MapImageOf(slot: Option<string>, defaultUrl: string): (r: string)
    ensures Truthy(slot) ==> r == slot.value
    ensures !Truthy(slot) ==> r == defaultUrl
  {
    OrElse(slot, defaultUrl)
  }

  /** `api.getMapImage()`. */
  function GetMapImage(ls: LocalStorage, defaultUrl: string): (r: string)
    reads ls
    ensures Truthy(ls.mapImageSlot) ==> r == ls.mapImageSlot.value
    ensures !Truthy(ls.mapImageSlot) ==> r == defaultUrl
  {
    MapImageOf(ls.mapImageSlot, defaultUrl)
  }

  /** `api.saveMapImage(url)`; `stored` is false when `setItem` throws. */
  method SaveMapImage(ls: LocalStorage, url: string, quotaExceeded: bool) returns (stored: bool)
    modifies ls`mapImageSlot
    ensures stored == !quotaExceeded
    ensures ls.mapImageSlot == if stored then Some(url) else old(ls.mapImageSlot)
  {
    stored := ls.WriteMapImage(url, quotaExceeded);
  }

  /** Saving a non-empty background and reading it back yields that background. */
  method SaveThenGetMapImage(ls: LocalStorage, url: string, defaultUrl: string) returns (read: string)
    requires url != ""
    modifies ls`mapImageSlot
    ensures read == url
  {
    var stored := SaveMapImage(ls, url, false);
    read := GetMapImage(ls, defaultUrl);
  }

  /**
   * A save leaves the cache equal to its argument whatever the server answers, so a
   * load with the server unreachable returns exactly that list.
   */
  method SaveThenLoadOffline(ls: LocalStorage, locations: seq<Location>, saveReply: Reply<()>,
                             loadReply: Reply<seq<Location>>, seed: seq<Location>)
    returns (saved: Settled<bool>, loaded: Settled<seq<Location>>)
    requires !loadReply.Ok?
    modifies ls`locationsSlot
    ensures saved == Resolved(saveReply.Ok?)
    ensures loaded == Resolved(locations)
  {
    saved := SaveLocations(ls, locations, saveReply, false);
    loaded := GetLocations(ls, loadReply, seed, false);
  }
}
