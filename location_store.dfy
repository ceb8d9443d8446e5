/**
 * The transformations the application feeds to `setLocations`: add, edit-merge,
 * move, approve and delete, and the guest/admin visibility projection. Each is a
 * pure function from the old list to the new one.
 */
module LocationStore {
  import opened Types
  import opened Seqs
  import opened LocationModal

  /** Some record in the list carries this id. */
  predicate HasId(locations: seq<Location>, id: string)
  {
    exists i :: 0 <= i < |locations| && locations[i].id == id
  }

  /** `locations.find(l => l.id === id)`: the first record with this id, if any. */
  function FindById(locations: seq<Location>, id: string): (r: Option<Location>)
    ensures r.Some? <==> HasId(locations, id)
    ensures r.Some? ==> exists i :: 0 <= i < |locations| && locations[i] == r.value &&
                          forall j :: 0 <= j < i ==> locations[j].id != id
    ensures r.Some? ==> r.value.id == id
  {
    if locations == [] then None
    else if locations[0].id == id then Some(locations[0])
    else
      var rest := FindById(locations[1..], id);
      assert forall i :: 1 <= i < |locations| ==> locations[i] == locations[1..][i - 1];
      rest
  }

  /** No two records share an id (the property a fresh id is meant to keep; nothing checks it). */
  predicate UniqueIds(locations: seq<Location>)
  {
    forall i, j :: 0 <= i < j < |locations| ==> locations[i].id != locations[j].id
  }

  /** Two lists carry the same ids at the same positions. */
  predicate SameIds(a: seq<Location>, b: seq<Location>)
  {
    |a| == |b| && forall i :: 0 <= i < |a| ==> a[i].id == b[i].id
  }

  /**
   * `{ id, ...data, status: isAdmin ? APPROVED : PENDING, rating: 5.0 }`: status and rating
   * are written after the payload and so are decided here, never by the form.
   */
  function NewLocation(id: string, data: Payload, isAdmin: bool): (r: Location)
    ensures r.id == id
    ensures r.status == APPROVED <==> isAdmin
    ensures r.rating == Some(5.0)
    ensures SubmitPayload(FormFor(r), Some(r), None) == data
  {
    Location(id, data.title, data.description, data.category, data.x, data.y,
             Some(data.image), Some(5.0), Some(data.openHours), Some(data.phoneNumber),
             if isAdmin then APPROVED else PENDING)
  }

  /** `{...loc, ...data}`: the payload's fields over the record; id, status and rating are kept. */
  function Merge(loc: Location, data: Payload): (r: Location)
    ensures r.id == loc.id && r.status == loc.status && r.rating == loc.rating
    ensures SubmitPayload(FormFor(r), Some(r), None) == data
  {
    loc.(title := data.title, description := data.description, category := data.category,
         x := data.x, y := data.y, image := Some(data.image), openHours := Some(data.openHours),
         phoneNumber := Some(data.phoneNumber))
  }

  /** The list after adding: the new record at the end, the others untouched. */
  function Added(locations: seq<Location>, id: string, data: Payload, isAdmin: bool): (r: seq<Location>)
    ensures |r| == |locations| + 1 && r[..|locations|] == locations
    ensures r[|locations|] == NewLocation(id, data, isAdmin)
  {
    locations + [NewLocation(id, data, isAdmin)]
  }

  /** The edit branch of `handleFormSubmit`: only the records with this id are merged with the payload. */
  function Edited(locations: seq<Location>, id: string, data: Payload): (r: seq<Location>)
    ensures |r| == |locations|
    ensures forall i :: 0 <= i < |locations| && locations[i].id != id ==> r[i] == locations[i]
    ensures forall i :: 0 <= i < |locations| && locations[i].id == id ==> r[i] == Merge(locations[i], data)
  {
    UpdateWhere(locations, (l: Location) => l.id == id, (l: Location) => Merge(l, data))
  }

  /** The move branch of `onMapClick`: only x and y of the records with this id change. */
  function Moved(locations: seq<Location>, id: string, x: real, y: real): (r: seq<Location>)
    ensures |r| == |locations|
    ensures forall i :: 0 <= i < |locations| && locations[i].id != id ==> r[i] == locations[i]
    ensures forall i :: 0 <= i < |locations| && locations[i].id == id ==> r[i] == locations[i].(x := x, y := y)
  {
    UpdateWhere(locations, (l: Location) => l.id == id, (l: Location) => l.(x := x, y := y))
  }

  /** `approveLocation`: the records with this id become APPROVED. */
  function Approved(locations: seq<Location>, id: string): (r: seq<Location>)
    ensures |r| == |locations|
    ensures forall i :: 0 <= i < |locations| && locations[i].id != id ==> r[i] == locations[i]
    ensures forall i :: 0 <= i < |locations| && locations[i].id == id ==> r[i] == locations[i].(status := APPROVED)
  {
    UpdateWhere(locations, (l: Location) => l.id == id, (l: Location) => l.(status := APPROVED))
  }

  /** The confirmed branch of `deleteLocation`: every record with this id goes, the rest stay. */
  function Deleted(locations: seq<Location>, id: string): (r: seq<Location>)
    ensures !HasId(r, id)
    ensures forall l :: l in r <==> l in locations && l.id != id
    ensures |r| <= |locations|
  {
    var r := Filter(locations, (l: Location) => l.id != id);
    assert forall i :: 0 <= i < |r| ==> r[i] in r;
    r
  }

  /** `visibleLocations`: the whole list for an admin, the APPROVED records for a guest. */
  function Visible(locations: seq<Location>, isAdmin: bool): (r: seq<Location>)
    ensures isAdmin ==> r == locations
    ensures !isAdmin ==> forall l :: l in r <==> l in locations && l.status == APPROVED
    ensures |r| <= |locations|
  {
    if isAdmin then locations else Filter(locations, (l: Location) => l.status == APPROVED)
  }

  // ----- Properties -----

  /** Approving twice is approving once. */
  lemma ApproveIdempotent(locations: seq<Location>, id: string)
    ensures Approved(Approved(locations, id), id) == Approved(locations, id)
  {
    var once := Approved(locations, id);
    var twice := Approved(once, id);
    forall i | 0 <= i < |locations| ensures twice[i] == once[i] {
      assert once[i].id == locations[i].id;
    }
  }

  /** After approval every record with that id is APPROVED. */
  lemma ApprovedIsApproved(locations: seq<Location>, id: string)
    ensures forall i :: 0 <= i < |locations| && locations[i].id == id ==> Approved(locations, id)[i].status == APPROVED
  {
  }

  /** Moving, editing or approving an id that is not in the list is a silent no-op. */
  lemma MissingIdIsNoOp(locations: seq<Location>, id: string, data: Payload, x: real, y: real)
    requires !HasId(locations, id)
    ensures Moved(locations, id, x, y) == locations
    ensures Edited(locations, id, data) == locations
    ensures Approved(locations, id) == locations
    ensures Deleted(locations, id) == locations
  {
    assert forall i :: 0 <= i < |locations| ==> locations[i].id != id;
    FilterAllPass(locations, (l: Location) => l.id != id);
  }

  /** Edit, move and approve keep every id in its place, hence the length and uniqueness. */
  lemma UpdatesKeepIds(locations: seq<Location>, id: string, data: Payload, x: real, y: real)
    ensures SameIds(Edited(locations, id, data), locations)
    ensures SameIds(Moved(locations, id, x, y), locations)
    ensures SameIds(Approved(locations, id), locations)
    ensures UniqueIds(locations) ==>
      UniqueIds(Edited(locations, id, data)) && UniqueIds(Moved(locations, id, x, y)) && UniqueIds(Approved(locations, id))
  {
    var e, m, a := Edited(locations, id, data), Moved(locations, id, x, y), Approved(locations, id);
    assert forall i :: 0 <= i < |locations| ==> e[i].id == locations[i].id && m[i].id == locations[i].id && a[i].id == locations[i].id;
  }

  /** A merge changes the payload's fields and no others: the status of a PENDING record stays PENDING. */
  lemma EditKeepsStatus(locations: seq<Location>, id: string, data: Payload)
    ensures forall i :: 0 <= i < |locations| ==>
      Edited(locations, id, data)[i].status == locations[i].status &&
      Edited(locations, id, data)[i].rating == locations[i].rating
  {
  }

  /** Adding with an id not yet in the list keeps the ids unique. */
  lemma AddKeepsUniqueIds(locations: seq<Location>, id: string, data: Payload, isAdmin: bool)
    requires UniqueIds(locations) && !HasId(locations, id)
    ensures UniqueIds(Added(locations, id, data, isAdmin))
    ensures HasId(Added(locations, id, data, isAdmin), id)
  {
    var r := Added(locations, id, data, isAdmin);
    assert r[|locations|].id == id;
    forall i, j | 0 <= i < j < |r| ensures r[i].id != r[j].id {
      if j < |locations| {
        assert r[i] == locations[i] && r[j] == locations[j];
      } else {
        assert r[i] == locations[i];
      }
    }
  }

  /** Deleting keeps the ids unique. */
  lemma {:induction false} DeleteKeepsUniqueIds(locations: seq<Location>, id: string)
    requires UniqueIds(locations)
    ensures UniqueIds(Deleted(locations, id))
  {
    if locations != [] {
      var tail := locations[1..];
      assert UniqueIds(tail) by {
        forall i, j | 0 <= i < j < |tail| ensures tail[i].id != tail[j].id {
          assert tail[i] == locations[i + 1] && tail[j] == locations[j + 1];
        }
      }
      DeleteKeepsUniqueIds(tail, id);
      var rest := Deleted(tail, id);
      assert forall k :: 0 <= k < |rest| ==> rest[k] in tail;
      assert forall l :: l in tail ==> l.id != locations[0].id;
      assert locations == [locations[0]] + tail;
    }
  }

  /**
   * Deleting keeps the survivors in their order and with their multiplicity: it
   * distributes over concatenation, so every record before another stays before it.
   */
  lemma DeletedAppend(a: seq<Location>, b: seq<Location>, id: string)
    ensures Deleted(a + b, id) == Deleted(a, id) + Deleted(b, id)
  {
    FilterAppend(a, b, (l: Location) => l.id != id);
  }

  /** On a single record, deleting keeps it exactly when its id differs; with `DeletedAppend` this fixes every result. */
  lemma DeletedSingle(l: Location, id: string)
    ensures Deleted([l], id) == if l.id == id then [] else [l]
  {
    assert [l][1..] == [];
  }

  /** Deleting a fresh record right after adding it restores the list exactly. */
  lemma AddThenDeleteRestores(locations: seq<Location>, id: string, data: Payload, isAdmin: bool)
    requires !HasId(locations, id)
    ensures Deleted(Added(locations, id, data, isAdmin), id) == locations
  {
    var keep := (l: Location) => l.id != id;
    FilterAppend(locations, [NewLocation(id, data, isAdmin)], keep);
    FilterAllPass(locations, keep);
    assert Filter([NewLocation(id, data, isAdmin)], keep) == [];
  }

  /** The guest view keeps the APPROVED records in their original order: it is a filter that distributes over concatenation. */
  lemma GuestViewPreservesOrder(a: seq<Location>, b: seq<Location>)
    ensures Visible(a + b, false) == Visible(a, false) + Visible(b, false)
  {
    FilterAppend(a, b, (l: Location) => l.status == APPROVED);
  }

  /** On a single record the guest view keeps it exactly when it is APPROVED; with `GuestViewPreservesOrder` this fixes every guest view. */
  lemma GuestViewSingle(l: Location)
    ensures Visible([l], false) == if l.status == APPROVED then [l] else []
  {
    assert [l][1..] == [];
  }

  /** The guest view is part of the admin view, and equals it exactly when nothing is PENDING. */
  lemma GuestViewWithinAdminView(locations: seq<Location>)
    ensures forall l :: l in Visible(locations, false) ==> l in Visible(locations, true)
    ensures (forall i :: 0 <= i < |locations| ==> locations[i].status == APPROVED) ==>
      Visible(locations, false) == Visible(locations, true)
  {
    if forall i :: 0 <= i < |locations| ==> locations[i].status == APPROVED {
      FilterAllPass(locations, (l: Location) => l.status == APPROVED);
    }
  }

  /** A guest's proposal under a fresh id is in the list, PENDING and hidden from guests; after approval guests see it. */
  lemma HiddenUntilApproved(locations: seq<Location>, id: string, data: Payload)
    requires !HasId(locations, id)
    ensures HasId(Added(locations, id, data, false), id)
    ensures forall l :: l in Added(locations, id, data, false) && l.id == id ==> l.status == PENDING
    ensures !HasId(Visible(Added(locations, id, data, false), false), id)
    ensures HasId(Visible(Approved(Added(locations, id, data, false), id), false), id)
  {
    var added := Added(locations, id, data, false);
    assert added[|locations|].id == id;
    assert forall l :: l in added && l.id == id ==> l == added[|locations|];
    var guests := Visible(added, false);
    assert forall i :: 0 <= i < |guests| ==> guests[i] in guests;
    var approved := Approved(added, id);
    assert approved[|locations|] in approved;
    assert approved[|locations|] in Visible(approved, false);
  }

  /**
   * A guest's submission is PENDING with rating 5 and hidden from guests; once approved
   * it is APPROVED and visible to guests; once deleted it is gone from the admin view.
   */
  lemma SubmitApproveDeleteScenario(locations: seq<Location>, id: string, data: Payload)
    requires !HasId(locations, id)
    ensures var added := Added(locations, id, data, false);
      var l := added[|locations|];
      l.id == id && l.status == PENDING && l.rating == Some(5.0) &&
      l !in Visible(added, false) &&
      Approved(added, id)[|locations|].status == APPROVED &&
      Approved(added, id)[|locations|] in Visible(Approved(added, id), false) &&
      !HasId(Visible(Deleted(Approved(added, id), id), true), id)
  {
    var added := Added(locations, id, data, false);
    var approved := Approved(added, id);
    assert approved[|locations|] in approved;
  }
}
