/**
 * The booking provider: the list of bookings with its `loading` flag, the
 * effect that loads it from storage (falling back to the seed list), the
 * effect that writes it back once loaded, and the two mutators.
 */
module BookingStore {
  import opened Types
  import opened Ids
  import opened Persisted

  /** `Omit<Booking, 'id' | 'status'>`: what a caller of `addBooking` supplies. */
  datatype BookingData = BookingData(
    roomId: string,
    roomName: string,
    guestName: string,
    checkIn: int,
    checkOut: int,
    totalPrice: real)

  /** A booking as `JSON.stringify` writes it: both dates become ISO text. */
  datatype StoredBooking = StoredBooking(
    id: string,
    roomId: string,
    roomName: string,
    guestName: string,
    checkIn: IsoText,
    checkOut: IsoText,
    status: BookingStatus,
    totalPrice: real)

  const BookingIdPrefix := "booking-"

  /** The caller-supplied part of a booking. */
  function DataOf(b: Booking): BookingData {
    BookingData(b.roomId, b.roomName, b.guestName, b.checkIn, b.checkOut, b.totalPrice)
  }

  /**
   * The record `addBooking` builds: the caller's fields, an id made from the
   * `Date.now()` reading `stamp`, and status `pending` whatever the caller had.
   */
  function NewBooking(d: BookingData, stamp: nat): (b: Booking)
    ensures DataOf(b) == d
    ensures b.status == Pending
    ensures b.id == StampedId(BookingIdPrefix, stamp)
  {
    Booking(StampedId(BookingIdPrefix, stamp), d.roomId, d.roomName, d.guestName,
            d.checkIn, d.checkOut, Pending, d.totalPrice)
  }

  /** `bookings.map(b => b.id === id ? { ...b, status } : b)`. */
  function SetStatus(bs: seq<Booking>, id: string, s: BookingStatus): (r: seq<Booking>)
    ensures |r| == |bs|
    ensures forall i :: 0 <= i < |bs| && bs[i].id == id ==> r[i] == bs[i].(status := s)
    ensures forall i :: 0 <= i < |bs| && bs[i].id != id ==> r[i] == bs[i]
  {
    if bs == [] then []
    else [if bs[0].id == id then bs[0].(status := s) else bs[0]] + SetStatus(bs[1..], id, s)
  }

  predicate HasId(bs: seq<Booking>, id: string) {
    exists i :: 0 <= i < |bs| && bs[i].id == id
  }

  predicate UniqueIds(bs: seq<Booking>) {
    forall i, j :: 0 <= i < j < |bs| ==> bs[i].id != bs[j].id
  }

  /** An id that no booking carries leaves the list as it was. */
  lemma SetStatusAbsent(bs: seq<Booking>, id: string, s: BookingStatus)
    requires !HasId(bs, id)
    ensures SetStatus(bs, id, s) == bs
  {
  }

  /** Setting the same status twice is setting it once. */
  lemma SetStatusIdempotent(bs: seq<Booking>, id: string, s: BookingStatus)
    ensures SetStatus(SetStatus(bs, id, s), id, s) == SetStatus(bs, id, s)
  {
  }

  /** The ids, and hence their uniqueness, survive a status update. */
  lemma SetStatusKeepsIds(bs: seq<Booking>, id: string, s: BookingStatus)
    ensures forall i :: 0 <= i < |bs| ==> SetStatus(bs, id, s)[i].id == bs[i].id
    ensures UniqueIds(bs) ==> UniqueIds(SetStatus(bs, id, s))
  {
  }

  /** Prepending a booking whose id is not yet taken keeps the ids unique. */
  lemma AddKeepsUniqueIds(bs: seq<Booking>, d: BookingData, stamp: nat)
    requires UniqueIds(bs) && !HasId(bs, StampedId(BookingIdPrefix, stamp))
    ensures UniqueIds([NewBooking(d, stamp)] + bs)
  {
    var r := [NewBooking(d, stamp)] + bs;
    forall i, j | 0 <= i < j < |r| ensures r[i].id != r[j].id {
      if i == 0 {
        assert r[j] == bs[j - 1];
      } else {
        assert r[i] == bs[i - 1] && r[j] == bs[j - 1];
      }
    }
  }

  /** `JSON.stringify` of one booking. */
  function Encode(b: Booking): (w: StoredBooking)
    ensures FromIso(w.checkIn) == b.checkIn && FromIso(w.checkOut) == b.checkOut
    ensures w.id == b.id && w.status == b.status && w.totalPrice == b.totalPrice
    ensures w.roomId == b.roomId && w.roomName == b.roomName && w.guestName == b.guestName
  {
    StoredBooking(b.id, b.roomId, b.roomName, b.guestName,
                  ToIso(b.checkIn), ToIso(b.checkOut), b.status, b.totalPrice)
  }

  /** `{ ...b, checkIn: new Date(b.checkIn), checkOut: new Date(b.checkOut) }`. */
  function Revive(w: StoredBooking): (b: Booking)
    ensures Encode(b) == w
  {
    Booking(w.id, w.roomId, w.roomName, w.guestName,
            FromIso(w.checkIn), FromIso(w.checkOut), w.status, w.totalPrice)
  }

  /** Reviving undoes encoding: a stored booking reads back as the booking written. */
  lemma ReviveEncode(b: Booking)
    ensures Revive(Encode(b)) == b
  {
  }

  /** What the load effect puts in the list: the stored bookings, or the seed list. */
  function Loaded(slot: Slot<seq<StoredBooking>>, seed: seq<Booking>): (bs: seq<Booking>)
    ensures slot.Present? ==> MapAll(bs, Encode) == slot.value
    ensures !slot.Present? ==> bs == seed
  {
    match slot
    case Present(ws) => MapAll(ws, Revive)
    case _ => seed
  }

  /** Writing the list back and loading it again gives the same bookings, dates included. */
  lemma {:induction false} ReloadRoundTrip(bs: seq<Booking>, seed: seq<Booking>)
    ensures Loaded(Present(MapAll(bs, Encode)), seed) == bs
  {
    MapAllRoundTrip(bs, Encode, Revive);
  }

  /**
   * The provider's state. `saved` is the `slumber-bookings` storage key. Once
   * the initial load has run, the storage holds exactly the current list.
   */
  class Store {
    const seed: seq<Booking>
    var bookings: seq<Booking>
    var loading: bool
    var saved: Slot<seq<StoredBooking>>

    ghost predicate Valid()
      reads this
    {
      !loading ==> saved == Present(MapAll(bookings, Encode))
    }

    /** Mounting the provider: an empty list, still loading, storage as found. */
    constructor (initial: Slot<seq<StoredBooking>>, seed: seq<Booking>)
      ensures Valid()
      ensures this.seed == seed && bookings == [] && loading && saved == initial
    {
      this.seed := seed;
      bookings := [];
      loading := true;
      saved := initial;
    }

    /** The persist effect: the list is written back only once loading is over. */
    method Persist()
      modifies this`saved
      ensures saved == if loading then old(saved) else Present(MapAll(bookings, Encode))
      ensures Valid()
    {
      if !loading {
        saved := Present(MapAll(bookings, Encode));
      }
    }

    /** The load effect, followed by the persist effect that `loading` turning false triggers. */
    method Load()
      modifies this`bookings, this`loading, this`saved
      ensures bookings == Loaded(old(saved), seed)
      ensures !loading && Valid()
    {
      bookings := Loaded(saved, seed);
      loading := false;
      Persist();
    }

    /** `addBooking`: prepends the new pending booking. */
    method AddBooking(d: BookingData, stamp: nat)
      requires Valid()
      modifies this`bookings, this`saved
      ensures bookings == [NewBooking(d, stamp)] + old(bookings)
      ensures saved == if loading then old(saved) else Present(MapAll(bookings, Encode))
      ensures Valid()
    {
      bookings := [NewBooking(d, stamp)] + bookings;
      Persist();
    }

    /** `updateBookingStatus`: rewrites the status of every booking with that id. */
    method UpdateBookingStatus(id: string, s: BookingStatus)
      requires Valid()
      modifies this`bookings, this`saved
      ensures bookings == SetStatus(old(bookings), id, s)
      ensures saved == if loading then old(saved) else Present(MapAll(bookings, Encode))
      ensures Valid()
    {
      bookings := SetStatus(bookings, id, s);
      Persist();
    }
  }
}
