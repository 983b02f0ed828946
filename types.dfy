/** The record shapes of the dashboard and their enumerated fields. */
module Types {
  import opened Wrappers

  /** A session user's role: exactly one of three. */
  datatype Role = Admin | Cashier | Guest

  datatype User = User(id: string, name: string, email: string, role: Role)

  /** One amenity of a room: a label and the name of the icon shown for it. */
  datatype Amenity = Amenity(name: string, icon: string)

  /**
   * A room's status. The declared type lists the first three; the rooms page
   * also writes `archived`, so the model's enumeration has it too.
   */
  datatype RoomStatus = Available | Unavailable | Maintenance | Archived

  /**
   * A room. `status` is optional, as declared. `imageHint` is not declared on
   * the type, but the room form reads it from the room being edited and the
   * edit merge copies it in, so rooms may carry one.
   */
  datatype Room = Room(
    id: string,
    name: string,
    description: string,
    price: real,
    imageUrl: string,
    amenities: seq<Amenity>,
    status: Option<RoomStatus>,
    imageHint: Option<string>)

  /** A booking's status: exactly one of three. */
  datatype BookingStatus = Pending | Confirmed | Cancelled

  /** A booking; `checkIn` and `checkOut` are instants in milliseconds. */
  datatype Booking = Booking(
    id: string,
    roomId: string,
    roomName: string,
    guestName: string,
    checkIn: int,
    checkOut: int,
    status: BookingStatus,
    totalPrice: real)

  /** An activity-log entry: `user` is a snapshot of the acting user's display name. */
  datatype LogEntry = LogEntry(id: string, timestamp: int, user: string, action: string)
}
