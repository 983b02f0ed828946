/**
 * The rooms page: a room list held in page state, seeded from the static
 * room list, with add, edit, archive and delete behind dialogs.
 */
module RoomsPage {
  import opened Wrappers
  import opened Types
  import opened Ids
  import opened Seqs
  import opened RoomForm

  const RoomIdPrefix := "room-"

  /** The amenities every new room is given, in this order. */
  const DefaultAmenities: seq<Amenity> :=
    [Amenity("WiFi", "Wifi"), Amenity("TV", "Tv"), Amenity("Air Conditioning", "Wind")]

  /**
   * The room the add path builds: four fields from the form, an id from the
   * `Date.now()` reading, the default amenities and status `available`. The
   * form's image hint is not copied.
   */
  function NewRoom(d: RoomData, stamp: nat): (r: Room)
    ensures r.id == StampedId(RoomIdPrefix, stamp)
    ensures r.name == d.name && r.description == d.description
    ensures r.price == d.price && r.imageUrl == d.imageUrl
    ensures r.amenities == DefaultAmenities && r.status == Some(Available)
    ensures r.imageHint == None
  {
    Room(StampedId(RoomIdPrefix, stamp), d.name, d.description, d.price, d.imageUrl,
         DefaultAmenities, Some(Available), None)
  }

  /** `{ ...r, ...roomData }`: the form's fields replace the room's, the rest is kept. */
  function Merge(r: Room, d: RoomData): (m: Room)
    ensures m.id == r.id && m.amenities == r.amenities && m.status == r.status
    ensures m.name == d.name && m.description == d.description
    ensures m.price == d.price && m.imageUrl == d.imageUrl
    ensures m.imageHint == Some(d.imageHint)
  {
    r.(name := d.name, description := d.description, price := d.price,
       imageUrl := d.imageUrl, imageHint := Some(d.imageHint))
  }

  /** The edit path: `rooms.map(r => r.id === id ? { ...r, ...roomData } : r)`. */
  function EditRoom(rs: seq<Room>, id: string, d: RoomData): (r: seq<Room>)
    ensures |r| == |rs|
    ensures forall i :: 0 <= i < |rs| && rs[i].id == id ==> r[i] == Merge(rs[i], d)
    ensures forall i :: 0 <= i < |rs| && rs[i].id != id ==> r[i] == rs[i]
  {
    if rs == [] then []
    else [if rs[0].id == id then Merge(rs[0], d) else rs[0]] + EditRoom(rs[1..], id, d)
  }

  /** `rooms.map(r => r.id === id ? { ...r, status: 'archived' } : r)`. */
  function ArchiveRoom(rs: seq<Room>, id: string): (r: seq<Room>)
    ensures |r| == |rs|
    ensures forall i :: 0 <= i < |rs| && rs[i].id == id ==> r[i] == rs[i].(status := Some(Archived))
    ensures forall i :: 0 <= i < |rs| && rs[i].id != id ==> r[i] == rs[i]
  {
    if rs == [] then []
    else [if rs[0].id == id then rs[0].(status := Some(Archived)) else rs[0]] + ArchiveRoom(rs[1..], id)
  }

  /** `rooms.filter(r => r.id !== id)`. */
  function DeleteRoom(rs: seq<Room>, id: string): (r: seq<Room>)
    ensures Subsequence(r, rs)
    ensures forall x :: multiset(r)[x] == if x.id == id then 0 else multiset(rs)[x]
  {
    if rs == [] then []
    else
      assert rs == [rs[0]] + rs[1..];
      var rest := DeleteRoom(rs[1..], id);
      if rs[0].id == id then
        SubsequenceSkip(rest, rs);
        rest
      else
        SubsequenceCons(rs[0], rest, rs[1..]);
        [rs[0]] + rest
  }

  predicate HasRoom(rs: seq<Room>, id: string) {
    exists i :: 0 <= i < |rs| && rs[i].id == id
  }

  /** Archiving is idempotent. */
  lemma ArchiveIdempotent(rs: seq<Room>, id: string)
    ensures ArchiveRoom(ArchiveRoom(rs, id), id) == ArchiveRoom(rs, id)
  {
  }

  /** Archiving, editing and deleting an id no room carries change nothing. */
  lemma {:induction false} AbsentIdUnchanged(rs: seq<Room>, id: string, d: RoomData)
    requires !HasRoom(rs, id)
    ensures ArchiveRoom(rs, id) == rs
    ensures EditRoom(rs, id, d) == rs
    ensures DeleteRoom(rs, id) == rs
  {
    if rs != [] {
      assert rs[0].id != id;
      assert !HasRoom(rs[1..], id) by {
        forall i | 0 <= i < |rs[1..]| ensures rs[1..][i].id != id { assert rs[1..][i] == rs[i + 1]; }
      }
      AbsentIdUnchanged(rs[1..], id, d);
      assert rs == [rs[0]] + rs[1..];
    }
  }

  /** After a delete no room carries the id, and every other room is still there. */
  lemma DeleteRemovesExactly(rs: seq<Room>, id: string)
    ensures !HasRoom(DeleteRoom(rs, id), id)
    ensures forall x :: x in rs && x.id != id ==> x in DeleteRoom(rs, id)
  {
    var r := DeleteRoom(rs, id);
    forall i | 0 <= i < |r| ensures r[i].id != id {
      assert multiset(r)[r[i]] > 0;
    }
    forall x | x in rs && x.id != id ensures x in r {
      assert multiset(rs)[x] > 0;
    }
  }

  /**
   * Saving an edit form left as it opened gives the room back: every field is
   * re-submitted as it was, provided the room has an image URL and an image hint.
   */
  lemma UntouchedEditKeepsRoom(r: Room, stamp: nat)
    requires r.imageUrl != "" && r.imageHint.Some?
    ensures Merge(r, Submit(DefaultValues(Some(r)), stamp)) == r
  {
  }

  /** The page's state. */
  class Page {
    var rooms: seq<Room>
    var selected: Option<Room>
    var addEditOpen: bool
    var archiveOpen: bool
    var deleteOpen: bool

    /** The list starts as the seed list, nothing selected, every dialog closed. */
    constructor (seed: seq<Room>)
      ensures rooms == seed && selected == None
      ensures !addEditOpen && !archiveOpen && !deleteOpen
    {
      rooms := seed;
      selected := None;
      addEditOpen, archiveOpen, deleteOpen := false, false, false;
    }

    /** "Add Room": an empty selection and the form dialog open. */
    method HandleAddRoom()
      modifies this`selected, this`addEditOpen
      ensures selected == None && addEditOpen
    {
      selected := None;
      addEditOpen := true;
    }

    /** "Edit", "Archive" and "Delete" select the room and open their dialog. */
    method HandleEditRoom(r: Room)
      modifies this`selected, this`addEditOpen
      ensures selected == Some(r) && addEditOpen
    {
      selected := Some(r);
      addEditOpen := true;
    }

    method HandleArchiveRoom(r: Room)
      modifies this`selected, this`archiveOpen
      ensures selected == Some(r) && archiveOpen
    {
      selected := Some(r);
      archiveOpen := true;
    }

    method HandleDeleteRoom(r: Room)
      modifies this`selected, this`deleteOpen
      ensures selected == Some(r) && deleteOpen
    {
      selected := Some(r);
      deleteOpen := true;
    }

    /** `onSaveChanges`: edits the selected room, or prepends a new one; then resets. */
    method SaveChanges(d: RoomData, stamp: nat)
      modifies this`rooms, this`selected, this`addEditOpen
      ensures rooms == if old(selected).Some?
        then EditRoom(old(rooms), old(selected).value.id, d)
        else [NewRoom(d, stamp)] + old(rooms)
      ensures selected == None && !addEditOpen
    {
      if selected.Some? {
        rooms := EditRoom(rooms, selected.value.id, d);
      } else {
        rooms := [NewRoom(d, stamp)] + rooms;
      }
      addEditOpen := false;
      selected := None;
    }

    /** The form's "Cancel": closes the dialog and keeps the selection. */
    method CancelForm()
      modifies this`addEditOpen
      ensures !addEditOpen
    {
      addEditOpen := false;
    }

    /** `onConfirmArchive`. */
    method ConfirmArchive()
      modifies this`rooms, this`selected, this`archiveOpen
      ensures rooms == if old(selected).Some?
        then ArchiveRoom(old(rooms), old(selected).value.id) else old(rooms)
      ensures selected == None && !archiveOpen
    {
      if selected.Some? {
        rooms := ArchiveRoom(rooms, selected.value.id);
      }
      archiveOpen := false;
      selected := None;
    }

    /** `onConfirmDelete`. */
    method ConfirmDelete()
      modifies this`rooms, this`selected, this`deleteOpen
      ensures rooms == if old(selected).Some?
        then DeleteRoom(old(rooms), old(selected).value.id) else old(rooms)
      ensures selected == None && !deleteOpen
    {
      if selected.Some? {
        rooms := DeleteRoom(rooms, selected.value.id);
      }
      deleteOpen := false;
      selected := None;
    }

    /** The "Cancel" of the archive or delete dialog: clears the selection, closes the dialog. */
    method DismissArchive()
      modifies this`selected, this`archiveOpen
      ensures selected == None && !archiveOpen
    {
      selected := None;
      archiveOpen := false;
    }

    method DismissDelete()
      modifies this`selected, this`deleteOpen
      ensures selected == None && !deleteOpen
    {
      selected := None;
      deleteOpen := false;
    }
  }

  /** The status badge of a row: only `archived` reads "Archived"; every other room reads "Available". */
  function StatusLabel(r: Room): (text: string)
    ensures text == "Archived" <==> r.status == Some(Archived)
    ensures text == "Archived" || text == "Available"
  {
    if r.status == Some(Archived) then "Archived" else "Available"
  }
}
