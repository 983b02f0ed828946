# Hotel dashboard state rules in Dafny

This project models the client-side state rules of a small hotel dashboard.
There are three browser-backed stores: bookings, the activity log and the
session. There are four dashboard pages and components: bookings, rooms, logs
and the sidebar. Around them sit the room form and the dashboard layout's
access guard. Each source file becomes one Dafny module:

- `types.dfy` holds the record shapes: `User`, `Room`, `Booking` and the log
  entry. Each has its enumerated `role` or `status`. The room status also has
  `Archived`, because the rooms page writes it.
- `booking_store.dfy` holds the booking provider. It is a class `Store` with
  `bookings`, `loading` and the stored value of the `slumber-bookings` key. It
  has the load effect, the persist effect, `addBooking` and
  `updateBookingStatus`. The new lists are pure functions (`NewBooking`,
  `SetStatus`, `Loaded`).
- `bookings_page.dfy` holds the Confirm and Cancel gates, the booking life
  cycle they give rise to, the newest-first table order, the status badge, and
  a class `Page` with the dialog handlers.
- `rooms_page.dfy` holds the room list operations (add, edit-merge, archive,
  delete) as functions, and a class `Page` with the selection and the three
  dialog flags.
- `room_form.dfy` holds the validation schema, the default values and the
  submit step with its placeholder image URL.
- `log_store.dfy` holds the log provider: a class `Store` with the guarded
  prepend `addLog`, its load and its persist effects.
- `logs_page.dfy` holds the admin gate, the redirect, the newest-first order
  and the loading, empty or rows view.
- `auth.dfy` holds the session provider: a class `Session` with restore,
  `login` (the display name derived from the email), `signup` and `logout`.
  `login`, `signup` and `logout` return their redirect target; restore does
  not redirect.
- `sidebar.dfy` holds the role-filtered menu, the home link and the logout
  button condition.
- `dashboard_layout.dfy` holds the redirect predicate and the render gate.
- Shared helpers:
  - `wrappers.dfy`: optional values.
  - `ids.dfy`: the decimal text of a `Date.now()` reading, prefixed ids and the
    placeholder URL.
  - `ordering.dfy`: the stable descending sort.
  - `seqs.dfy`: order-preserving subsequences.
  - `persisted.dfy`: storage slots, ISO date text and the element-wise conversion of stored lists.

Conventions used throughout:

- `Date.now()` and `new Date()` are parameters: `stamp: nat` and `now: int`.
  Dates are integer milliseconds.
- A redirect is a returned target, never an effect.
- Browser storage is a field of type `Slot`. A slot is either `Absent` (the key
  is missing or empty), `Malformed` (the value cannot be read back) or
  `Present`.
- A stored date (`IsoText`) is represented by the instant its ISO text names.
  So reading a date back gives the same instant by construction, and the
  reload round trips rest on `Persisted.MapAllRoundTrip` alone.
- Each store's persist effect is a method. The mutators call it last, so the
  stores keep the invariant "once loaded, storage holds exactly the current
  list".
- The seed lists (`initialBookings`, `initialRooms`) are constructor
  parameters, because src/lib/data.ts is not part of this model.

The enumerations `Role` and `BookingStatus` are datatypes, so each value is
exactly one of its three cases.

Notes on how the model reads the source:

- The bookings page's "Dismiss" button clears the selection. The alert dialog
  closes itself on cancel, so `DismissCancel` also closes it.
- `LogEntry` is not declared in src/lib/types.ts, although that file is where
  it is imported from. Its fields are the ones `addLog` writes.
- `Room` has no `imageHint` in src/lib/types.ts. The room form still reads one
  from the edited room, and the edit merge writes it, so the model's `Room`
  carries an optional one.

## Model

| member | source | states |
|---|---|---|
| Ids.Decimal | src/hooks/use-auth.tsx:39 | `toString` of a millisecond reading is a non-empty run of decimal digits, a single digit exactly below ten |
| Ids.DecimalInjective | src/hooks/use-auth.tsx:39 | distinct readings give distinct decimal texts |
| Ids.StampedId | src/hooks/use-bookings.tsx:52 | a `${prefix}${Date.now()}` id starts with the prefix and continues with digits only |
| Ids.StampedIdInjective | src/hooks/use-bookings.tsx:52 | two ids with the same prefix are equal only if their readings are equal |
| Ids.PlaceholderUrl | src/components/room-form.tsx:53 | the placeholder URL starts with the picsum seed prefix and ends with `/600/400` |
| Ordering.Insert | src/app/dashboard/bookings/page.tsx:76 | inserting an element adds exactly that element to the multiset |
| Ordering.InsertNonIncreasing | src/app/dashboard/bookings/page.tsx:76 | inserting into a newest-first list keeps it newest-first |
| Ordering.SortDesc | src/app/dashboard/bookings/page.tsx:76 | the sorted copy is a permutation of its input with keys non-increasing |
| Ordering.InsertWithKey | src/app/dashboard/bookings/page.tsx:76 | insertion adds the element to its own key class only, at the front |
| Ordering.SortDescStable | src/app/dashboard/bookings/page.tsx:76 | elements with equal keys keep their input order (the stability of `Array.prototype.sort`) |
| Ordering.StableSortUnique | src/app/dashboard/logs/page.tsx:39 | two newest-first sequences that agree within every key class are equal, so any stable descending sort gives `SortDesc` |
| Ordering.SortDescOfSorted | src/app/dashboard/logs/page.tsx:39 | a list that is already newest-first is left unchanged by the sort |
| Persisted.ToIso | src/hooks/use-bookings.tsx:45 | a date written as ISO text reads back as the same instant |
| Persisted.MapAll | src/hooks/use-bookings.tsx:26-30 | the JSON list and the parsed list convert each element in its place, keeping the length |
| Persisted.MapAllRoundTrip | src/hooks/use-logs.tsx:21-42 | writing a list out and reading it back gives the same list whenever reading undoes writing for one element |
| BookingStore.NewBooking | src/hooks/use-bookings.tsx:50-54 | all caller fields are copied, the status is `pending` whatever the caller had, and the id is `booking-` plus the reading |
| BookingStore.SetStatus | src/hooks/use-bookings.tsx:58-62 | the length and the order are kept; every booking with the id gets the status and no other field changes; every other booking is unchanged |
| BookingStore.SetStatusAbsent | src/hooks/use-bookings.tsx:60 | an id no booking carries leaves the list unchanged |
| BookingStore.SetStatusIdempotent | src/hooks/use-bookings.tsx:60 | applying the same update twice equals applying it once |
| BookingStore.SetStatusKeepsIds | src/hooks/use-bookings.tsx:60 | every id stays in place, so unique ids stay unique |
| BookingStore.AddKeepsUniqueIds | src/hooks/use-bookings.tsx:49-55 | prepending a booking with an untaken id keeps the ids unique |
| BookingStore.Revive | src/hooks/use-bookings.tsx:26-30 | reviving a stored booking gives back the booking whose encoding it is |
| BookingStore.Encode | src/hooks/use-bookings.tsx:45 | `JSON.stringify` copies every plain field and writes each date as text that reads back as the same instant |
| BookingStore.ReviveEncode | src/hooks/use-bookings.tsx:26-30 | a stored booking read back is the booking that was written |
| BookingStore.Loaded | src/hooks/use-bookings.tsx:21-41 | stored data becomes the bookings it encodes; absent or unreadable storage gives the seed list |
| BookingStore.ReloadRoundTrip | src/hooks/use-bookings.tsx:21-47 | writing the list and loading it again gives the same bookings |
| BookingStore.Store.constructor | src/hooks/use-bookings.tsx:18-19 | the provider starts with an empty list, `loading` set, and storage as found |
| BookingStore.Store.Persist | src/hooks/use-bookings.tsx:43-47 | storage is written with the current list only when `loading` is false |
| BookingStore.Store.Load | src/hooks/use-bookings.tsx:21-41 | the list becomes `Loaded` of the storage, `loading` ends false in every case, and storage then mirrors the list |
| BookingStore.Store.AddBooking | src/hooks/use-bookings.tsx:49-56 | the new pending booking is at index 0, followed by the old list in order; the invariant is kept |
| BookingStore.Store.UpdateBookingStatus | src/hooks/use-bookings.tsx:58-62 | the list becomes `SetStatus` of the old one; the invariant is kept |
| BookingsPage.ConfirmEnabled | src/app/dashboard/bookings/page.tsx:152 | Confirm is enabled only on a pending booking, and a confirmable booking is also cancellable |
| BookingsPage.CancelEnabled | src/app/dashboard/bookings/page.tsx:159 | Cancel is enabled exactly on pending and confirmed bookings |
| BookingsPage.Target | src/app/dashboard/bookings/page.tsx:58-73 | Confirm writes `confirmed` and Cancel writes `cancelled`; neither writes `pending` |
| BookingsPage.Enabled | src/app/dashboard/bookings/page.tsx:150-159 | an enabled action is never on a cancelled booking and always changes the status |
| BookingsPage.EnabledActionIsTransition | src/app/dashboard/bookings/page.tsx:150-159 | an enabled Confirm or Cancel moves a booking along one of pending→confirmed, pending→cancelled, confirmed→cancelled |
| BookingsPage.TransitionIsEnabledAction | src/app/dashboard/bookings/page.tsx:150-159 | each of those three transitions is offered by an enabled action |
| BookingsPage.CancelledIsTerminal | src/app/dashboard/bookings/page.tsx:150-159 | nothing is enabled on a cancelled booking, and no action writes `pending` |
| BookingsPage.SortedBookings | src/app/dashboard/bookings/page.tsx:76 | the table is a permutation of the bookings with check-in non-increasing, stable on equal check-ins |
| BookingsPage.RowActionFollowsLifeCycle | src/app/dashboard/bookings/page.tsx:58-73 | with unique ids, an enabled action on a table row changes that booking along one transition and leaves every other booking alone |
| BookingsPage.DuplicateIdRevivesCancelled | src/hooks/use-bookings.tsx:60 | with a duplicated id, confirming a pending row also rewrites a cancelled booking with that id |
| BookingsPage.Badge | src/app/dashboard/bookings/page.tsx:110-116 | confirmed→default, pending→secondary, cancelled→destructive, each an if-and-only-if |
| BookingsPage.BadgeInjective | src/app/dashboard/bookings/page.tsx:110-116 | the badge determines the status |
| BookingsPage.Page.constructor | src/app/dashboard/bookings/page.tsx:46-51 | nothing is selected and both dialogs are closed |
| BookingsPage.Page.ViewDetails | src/app/dashboard/bookings/page.tsx:53-56 | the booking is selected and the details dialog is open |
| BookingsPage.Page.CloseDetails | src/app/dashboard/bookings/page.tsx:174 | the details dialog is closed |
| BookingsPage.Page.ClickConfirm | src/app/dashboard/bookings/page.tsx:150-155 | a click on a pending row confirms every booking with its id; a click on a disabled item changes nothing |
| BookingsPage.Page.ClickCancel | src/app/dashboard/bookings/page.tsx:156-162 | a click on a row that is not cancelled selects it and opens the dialog; a click on a disabled item changes nothing |
| BookingsPage.Page.ConfirmCancel | src/app/dashboard/bookings/page.tsx:67-73 | the selected booking's id is cancelled only if a booking is selected; the selection is always cleared and the dialog closed |
| BookingsPage.Page.DismissCancel | src/app/dashboard/bookings/page.tsx:243 | the selection is cleared, the dialog is closed and the bookings are untouched |
| RoomForm.Check | src/components/room-form.tsx:22-28 | a rule gives its field's message exactly when it fails |
| RoomForm.Errors | src/components/room-form.tsx:22-28 | each field is flagged if and only if its bound fails: name under 2, description under 10, price below 0, hint under 2; each error carries its field's message |
| RoomForm.AcceptedIff | src/components/room-form.tsx:22-28 | the schema accepts exactly the values meeting all four bounds; zero passes, and `imageUrl` is never checked |
| RoomForm.Submit | src/components/room-form.tsx:50-56 | a non-empty image URL is passed through, an empty or missing one becomes the placeholder, and all other fields are unchanged |
| RoomForm.HandleSubmit | src/components/room-form.tsx:71 | the submit step runs if and only if the values are accepted; otherwise the errors are reported and are non-empty |
| RoomForm.DefaultValues | src/components/room-form.tsx:41-47 | adding gives empty strings and price 0; editing gives the room's own fields |
| RoomForm.EmptyAddFormRejected | src/components/room-form.tsx:22-47 | an untouched add form is rejected on name, description and hint, in schema order |
| RoomsPage.NewRoom | src/app/dashboard/rooms/page.tsx:79-91 | a new room takes four fields from the form, `room-` plus the reading as id, the three default amenities in order, and status `available` |
| RoomsPage.Merge | src/app/dashboard/rooms/page.tsx:76 | the form fields replace the room's; id, amenities and status are kept |
| RoomsPage.EditRoom | src/app/dashboard/rooms/page.tsx:76 | only rooms with the id are merged; the length and the order are kept |
| RoomsPage.ArchiveRoom | src/app/dashboard/rooms/page.tsx:100 | rooms with the id get status `archived` and keep everything else; every other room is unchanged |
| RoomsPage.DeleteRoom | src/app/dashboard/rooms/page.tsx:108 | the result is an order-preserving subsequence holding every room without the id, with its multiplicity, and none with it |
| RoomsPage.ArchiveIdempotent | src/app/dashboard/rooms/page.tsx:98-101 | archiving twice is archiving once |
| RoomsPage.AbsentIdUnchanged | src/app/dashboard/rooms/page.tsx:76-108 | archive, edit and delete with an id no room carries change nothing |
| RoomsPage.DeleteRemovesExactly | src/app/dashboard/rooms/page.tsx:106-109 | after a delete no room carries the id, and every other room is still there |
| RoomsPage.UntouchedEditKeepsRoom | src/components/room-form.tsx:41-56 | saving an edit form left as it opened gives back the same room, if it had an image URL and a hint |
| RoomsPage.Page.constructor | src/app/dashboard/rooms/page.tsx:47-51 | the room list is the seed list, nothing is selected and every dialog is closed |
| RoomsPage.Page.HandleAddRoom | src/app/dashboard/rooms/page.tsx:53-56 | the selection is cleared and the form dialog is open |
| RoomsPage.Page.HandleEditRoom | src/app/dashboard/rooms/page.tsx:58-61 | the room is selected and the form dialog is open |
| RoomsPage.Page.HandleArchiveRoom | src/app/dashboard/rooms/page.tsx:63-66 | the room is selected and the archive dialog is open |
| RoomsPage.Page.HandleDeleteRoom | src/app/dashboard/rooms/page.tsx:68-71 | the room is selected and the delete dialog is open |
| RoomsPage.Page.SaveChanges | src/app/dashboard/rooms/page.tsx:73-96 | with a selection the selected id is edited, otherwise a new room is prepended; the selection is then cleared and the dialog closed |
| RoomsPage.Page.CancelForm | src/app/dashboard/rooms/page.tsx:193 | the form dialog is closed |
| RoomsPage.Page.ConfirmArchive | src/app/dashboard/rooms/page.tsx:98-104 | the selected id is archived only if a room is selected; the selection is cleared and the dialog closed |
| RoomsPage.Page.ConfirmDelete | src/app/dashboard/rooms/page.tsx:106-112 | the selected id is deleted only if a room is selected; the selection is cleared and the dialog closed |
| RoomsPage.Page.DismissArchive | src/app/dashboard/rooms/page.tsx:207 | the selection is cleared and the archive dialog is closed |
| RoomsPage.Page.DismissDelete | src/app/dashboard/rooms/page.tsx:223 | the selection is cleared and the delete dialog is closed |
| RoomsPage.StatusLabel | src/app/dashboard/rooms/page.tsx:158 | the badge reads "Archived" exactly for archived rooms and "Available" for every other room |
| LogStore.NewLog | src/hooks/use-logs.tsx:47-52 | the entry has id `log-` plus the reading, the supplied timestamp, the user's name and the action |
| LogStore.Logged | src/hooks/use-logs.tsx:44-54 | with no user the log is unchanged; with a user exactly one new entry is at the front and the old entries follow in order |
| LogStore.Revive | src/hooks/use-logs.tsx:25-28 | reviving a stored entry gives back the entry whose encoding it is |
| LogStore.Encode | src/hooks/use-logs.tsx:40 | `JSON.stringify` copies id, user and action and writes the timestamp as text that reads back as the same instant |
| LogStore.ReviveEncode | src/hooks/use-logs.tsx:25-28 | a stored entry read back is the entry that was written |
| LogStore.Loaded | src/hooks/use-logs.tsx:21-36 | stored data becomes the entries it encodes; with absent or unreadable storage the log is not set and keeps what it had |
| LogStore.ReloadRoundTrip | src/hooks/use-logs.tsx:21-42 | writing the log and loading it again gives the same entries |
| LogStore.Store.constructor | src/hooks/use-logs.tsx:17-19 | the provider starts with an empty log, `loading` set, and storage as found |
| LogStore.Store.Persist | src/hooks/use-logs.tsx:38-42 | storage is written with the current log only when `loading` is false |
| LogStore.Store.Load | src/hooks/use-logs.tsx:21-36 | the log is replaced by the stored entries only when storage holds some, otherwise it is kept; `loading` ends false, and storage then mirrors the log |
| LogStore.Store.AddLog | src/hooks/use-logs.tsx:44-54 | the log becomes `Logged` for the session's current user; the invariant is kept |
| LogsPage.Redirect | src/app/dashboard/logs/page.tsx:32-36 | a redirect to `/dashboard` happens if and only if a user is signed in who is not an admin |
| LogsPage.SortedLogs | src/app/dashboard/logs/page.tsx:39 | the listing is a permutation of the log with timestamps non-increasing, stable on equal timestamps |
| LogsPage.Render | src/app/dashboard/logs/page.tsx:41-97 | Access Denied exactly for non-admins and for no user; for an admin, the loading row, else the empty row for an empty log, else one row per entry newest first |
| LogsPage.RedirectShowsDenied | src/app/dashboard/logs/page.tsx:32-57 | a redirect only happens over the Access Denied view, and with no user there is no redirect |
| Auth.LocalPart | src/hooks/use-auth.tsx:38 | the name part is a prefix of the email with no `@`, followed in the email by an `@` or by nothing |
| Auth.LocalPartUnique | src/hooks/use-auth.tsx:38 | those three facts determine the part before the first `@` |
| Auth.UpperWordChar | src/hooks/use-auth.tsx:38 | upper-casing a `\w` character changes only `a`..`z` |
| Auth.CapitalizeFirst | src/hooks/use-auth.tsx:38 | only the first character can change, and only if it is a lower-case ASCII letter |
| Auth.DisplayName | src/hooks/use-auth.tsx:38 | the login name is as long as the part before the first `@`, contains no `@`, and after its first character repeats the email |
| Auth.DisplayNameCapitalizes | src/hooks/use-auth.tsx:38 | `alice@hotel.com` gives `Alice`, and an email without `@` is used whole |
| Auth.DisplayNameKeepsNonLetters | src/hooks/use-auth.tsx:38 | a leading digit is kept as it is, and an email starting with `@` gives the empty name |
| Auth.HomeFor | src/hooks/use-auth.tsx:44-48 | the target is `/` exactly for guests and `/dashboard` otherwise |
| Auth.Session.constructor | src/hooks/use-auth.tsx:19-20 | nobody is signed in, `loading` is set, and storage is as found |
| Auth.Session.Restore | src/hooks/use-auth.tsx:23-35 | a stored user becomes the session; unreadable data is removed and the user stays null; `loading` ends false |
| Auth.Session.Login | src/hooks/use-auth.tsx:37-49 | the session and the storage hold the same user with the derived name, and the target depends on the role |
| Auth.Session.Signup | src/hooks/use-auth.tsx:51-60 | the session and the storage hold the same user with the given name verbatim, and the target depends on the role |
| Auth.Session.Logout | src/hooks/use-auth.tsx:62-66 | the user is null, the stored record is removed, and the target is `/login`; the state is a fixed point, so logging out twice ends the same way |
| Sidebar.KeepSelects | src/components/app-sidebar.tsx:63-64 | the role filter keeps exactly the entries whose roles include the user's role, as an order-preserving subsequence |
| Sidebar.MenuItems | src/components/app-sidebar.tsx:22-51 | the menu is empty exactly without a user; every entry admits admins and no entry admits guests |
| Sidebar.Keep | src/components/app-sidebar.tsx:63-64 | the role filter never lengthens the menu; `KeepSelects` states what it keeps |
| Sidebar.VisibleItems | src/components/app-sidebar.tsx:22-64 | the listed entries are a subsequence of the menu, holding exactly those shown to the user |
| Sidebar.KeepFour | src/components/app-sidebar.tsx:63-64 | a four-entry menu is filtered entry by entry, in order |
| Sidebar.MenuByRole | src/components/app-sidebar.tsx:22-64 | an admin sees Dashboard, Bookings, Rooms, Logs; a cashier sees all but Logs; a guest and nobody see nothing |
| Sidebar.DashboardUsersHaveMenu | src/components/app-sidebar.tsx:22-64 | the roles `login` sends to the dashboard are exactly the roles with a non-empty menu |
| Sidebar.LogsEntryMatchesLogsPage | src/components/app-sidebar.tsx:43-48 | the Logs entry is listed exactly for the users the logs page lets in |
| Sidebar.HomeHref | src/components/app-sidebar.tsx:56 | the home link targets `/dashboard` exactly with a user and `/` exactly without one |
| Sidebar.ShowsLogout | src/components/app-sidebar.tsx:82 | the logout button is shown exactly when the home link targets the dashboard, that is, with a user |
| DashboardLayout.Redirect | src/app/dashboard/layout.tsx:24-28 | the guard redirects to `/login` if and only if loading is over and nobody is signed in |
| DashboardLayout.Render | src/app/dashboard/layout.tsx:30-58 | the placeholder is shown if and only if loading or signed out; the content if and only if resolved with a user |
| DashboardLayout.GuardIsConsistent | src/app/dashboard/layout.tsx:24-30 | a redirect happens only over the placeholder and never while loading; content never comes with a redirect |
| DashboardLayout.GuestPassesGuard | src/app/dashboard/layout.tsx:30 | the guard checks only for a user: a guest gets the dashboard content, with an empty menu |

## Left out

- JSX markup, styling, icons, images, the header and root layout shells, and the provider nesting are not modelled. They hold no state rules.
- `localStorage` and JSON are not modelled as text. Each key is a `Slot`, and a stored date is the instant its ISO text names.
- The bookings store treats every value that makes the load throw as `Malformed`: a syntax error, or a value that is not an array. A stored array of wrongly shaped records is not distinguished from good data.
- Auth.Session.Restore: a stored value that parses but is not a user record is not modelled. Neither is the text `null`, which parses to null and leaves the user null. Storage is either a user, unreadable or absent.
- Id collisions are not modelled. Two ids made in the same millisecond are equal, and nothing here claims ids are unique. The life-cycle theorem assumes unique ids instead, and `DuplicateIdRevivesCancelled` shows what happens without them.
- BookingStore.Store.AddBooking is specified for the state as it is. A booking added before the load effect runs is overwritten by the load. The model shows this only through `Load` replacing the list.
- `toFixed(2)`, date formatting with date-fns and `getTime` are not modelled. Prices are reals, used only in comparisons, and dates are integer milliseconds.
- RoomForm.Errors counts string length in Dafny characters. zod counts UTF-16 code units, so the two differ for characters outside the Basic Multilingual Plane.
- RoomForm.Errors takes `price` as an already coerced number. `z.coerce.number` on arbitrary input, NaN included, is not modelled. So is `room?.price || 0` turning a NaN price into 0.
- `handleImageChange` in the room form is not modelled. It is asynchronous `FileReader` I/O, and only its effect, a data URL in `imageUrl`, reaches the model as a form value.
- React effect scheduling, `useCallback` and router and toast calls are not modelled. Redirects are returned targets, and each persist effect runs at the end of the change that triggers it.
- The run-time errors `useBookings`, `useLogs` and `useAuth` raise outside their provider are not modelled. They are wiring errors, not state rules.
- The room card's booking toast, the date-range picker's search, the landing page and the static dashboard overview are not modelled. None of them touches a store.
- The seed lists of src/lib/data.ts are not part of this model. They enter as parameters.
- Overwrites of the stored state from another tab or session are not modelled. They are concurrency the code does not address.
- The rooms page is not persisted. A reload returns to the seed list, and the model keeps rooms in page state only.
- The logs page's `loading` flag and the user come from two providers. The model passes both to `LogsPage.Render` as inputs.
