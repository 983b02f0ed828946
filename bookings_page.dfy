/**
 * The bookings page: the table shown newest check-in first, the status badge,
 * the Confirm/Cancel menu items with their enablement rules, and the handlers
 * behind the details and cancellation dialogs.
 */
module BookingsPage {
  import opened Wrappers
  import opened Types
  import opened Ordering
  import opened BookingStore
  import opened Persisted

  /** "Confirm Booking" is disabled unless the booking is pending. */
  predicate ConfirmEnabled(s: BookingStatus): (r: bool)
    ensures r ==> CancelEnabled(s)
  {
    s == Pending
  }

  /** "Cancel Booking" is disabled once the booking is cancelled. */
  predicate CancelEnabled(s: BookingStatus): (r: bool)
    ensures r <==> s == Pending || s == Confirmed
  {
    s != Cancelled
  }

  /** The two menu actions that change a booking, and the status each writes. */
  datatype Action = Confirm | Cancel

  function Target(a: Action): (s: BookingStatus)
    ensures s != Pending
  {
    match a
    case Confirm => Confirmed
    case Cancel => Cancelled
  }

  predicate Enabled(a: Action, s: BookingStatus): (r: bool)
    ensures r ==> s != Cancelled && s != Target(a)
  {
    match a
    case Confirm => ConfirmEnabled(s)
    case Cancel => CancelEnabled(s)
  }

  /** The intended life cycle of a booking, stated independently of the menu. */
  predicate Transition(from: BookingStatus, to: BookingStatus) {
    || (from == Pending && to == Confirmed)
    || (from == Pending && to == Cancelled)
    || (from == Confirmed && to == Cancelled)
  }

  /** An enabled action moves a booking along exactly one transition of the life cycle. */
  lemma EnabledActionIsTransition(a: Action, from: BookingStatus)
    requires Enabled(a, from)
    ensures Transition(from, Target(a))
  {
  }

  /** Every transition of the life cycle is offered by some enabled action. */
  lemma TransitionIsEnabledAction(from: BookingStatus, to: BookingStatus)
    requires Transition(from, to)
    ensures exists a :: Enabled(a, from) && Target(a) == to
  {
    if to == Confirmed { assert Enabled(Confirm, from); } else { assert Enabled(Cancel, from); }
  }

  /** Nothing is enabled on a cancelled booking, and no action writes `pending`. */
  lemma CancelledIsTerminal(a: Action)
    ensures !Enabled(a, Cancelled)
    ensures Target(a) != Pending
  {
  }

  function CheckIn(b: Booking): int {
    b.checkIn
  }

  /** `[...bookings].sort((a, b) => b.checkIn - a.checkIn)`. */
  function SortedBookings(bs: seq<Booking>): (r: seq<Booking>)
    ensures multiset(r) == multiset(bs)
    ensures forall i, j :: 0 <= i < j < |r| ==> r[i].checkIn >= r[j].checkIn
    ensures forall t :: WithKey(r, CheckIn, t) == WithKey(bs, CheckIn, t)
  {
    forall t ensures WithKey(SortDesc(bs, CheckIn), CheckIn, t) == WithKey(bs, CheckIn, t) {
      SortDescStable(bs, CheckIn, t);
    }
    SortDesc(bs, CheckIn)
  }

  /**
   * With unique ids, an enabled action on a row of the table changes that
   * booking's status along one transition and leaves every other booking alone.
   */
  lemma {:induction false} RowActionFollowsLifeCycle(bs: seq<Booking>, row: Booking, a: Action)
    requires UniqueIds(bs)
    requires row in SortedBookings(bs)
    requires Enabled(a, row.status)
    ensures var r := SetStatus(bs, row.id, Target(a));
      forall i :: 0 <= i < |bs| ==>
        if bs[i] == row then r[i] == row.(status := Target(a)) && Transition(row.status, r[i].status)
        else r[i] == bs[i]
  {
    assert row in multiset(SortedBookings(bs));
    var k :| 0 <= k < |bs| && bs[k] == row;
  }

  /**
   * Without unique ids the life cycle is not kept: confirming a pending row
   * also rewrites a cancelled booking that shares its id.
   */
  lemma DuplicateIdRevivesCancelled()
    ensures var p := Booking("booking-1", "r1", "Suite", "Bob", 0, 1, Pending, 300.0);
      var c := p.(status := Cancelled);
      ConfirmEnabled(p.status) && SetStatus([p, c], p.id, Confirmed)[1].status == Confirmed
  {
  }

  datatype BadgeVariant = Default | Secondary | Destructive

  /** `confirmed` → default, `pending` → secondary, anything else → destructive. */
  function Badge(s: BookingStatus): (v: BadgeVariant)
    ensures v == Default <==> s == Confirmed
    ensures v == Secondary <==> s == Pending
    ensures v == Destructive <==> s == Cancelled
  {
    match s
    case Confirmed => Default
    case Pending => Secondary
    case Cancelled => Destructive
  }

  /** The badge determines the status: distinct statuses never share a badge. */
  lemma BadgeInjective(s: BookingStatus, t: BookingStatus)
    requires Badge(s) == Badge(t)
    ensures s == t
  {
  }

  /** The page's own state over the shared booking store. */
  class Page {
    const store: Store
    var selected: Option<Booking>
    var detailsOpen: bool
    var cancelOpen: bool

    constructor (store: Store)
      ensures this.store == store
      ensures selected == None && !detailsOpen && !cancelOpen
    {
      this.store := store;
      selected := None;
      detailsOpen := false;
      cancelOpen := false;
    }

    /** "View Details". */
    method ViewDetails(b: Booking)
      modifies this`selected, this`detailsOpen
      ensures selected == Some(b) && detailsOpen
    {
      selected := Some(b);
      detailsOpen := true;
    }

    /** Closing the details dialog; the selection is kept. */
    method CloseDetails()
      modifies this`detailsOpen
      ensures !detailsOpen
    {
      detailsOpen := false;
    }

    /** Clicking "Confirm Booking" on a row: a disabled item ignores the click. */
    method ClickConfirm(b: Booking)
      requires store.Valid()
      modifies store`bookings, store`saved
      ensures store.bookings == if ConfirmEnabled(b.status)
        then SetStatus(old(store.bookings), b.id, Confirmed) else old(store.bookings)
      ensures store.saved == if store.loading then old(store.saved) else Present(MapAll(store.bookings, Encode))
      ensures store.Valid()
    {
      if ConfirmEnabled(b.status) {
        store.UpdateBookingStatus(b.id, Confirmed);
      }
    }

    /** Clicking "Cancel Booking" on a row selects it and opens the confirmation dialog. */
    method ClickCancel(b: Booking)
      modifies this`selected, this`cancelOpen
      ensures if CancelEnabled(b.status)
        then selected == Some(b) && cancelOpen
        else selected == old(selected) && cancelOpen == old(cancelOpen)
    {
      if CancelEnabled(b.status) {
        selected := Some(b);
        cancelOpen := true;
      }
    }

    /** "Confirm Cancellation": cancels the selected booking, if any, then resets. */
    method ConfirmCancel()
      requires store.Valid()
      modifies this`selected, this`cancelOpen, store`bookings, store`saved
      ensures store.bookings == if old(selected).Some?
        then SetStatus(old(store.bookings), old(selected).value.id, Cancelled)
        else old(store.bookings)
      ensures store.saved == if store.loading then old(store.saved) else Present(MapAll(store.bookings, Encode))
      ensures store.Valid()
      ensures selected == None && !cancelOpen
    {
      if selected.Some? {
        store.UpdateBookingStatus(selected.value.id, Cancelled);
      }
      cancelOpen := false;
      selected := None;
    }

    /** "Dismiss": clears the selection and closes the dialog; the bookings are untouched. */
    method DismissCancel()
      modifies this`selected, this`cancelOpen
      ensures selected == None && !cancelOpen
    {
      selected := None;
      cancelOpen := false;
    }
  }
}
