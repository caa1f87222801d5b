/** The rows the reservation engine reads and writes, one datatype per table.
    Identifiers are naturals with their total order; instants are integers. */
module Tables {

  type Id = nat

  datatype Option<+T> = None | Some(value: T)

  datatype Status = Reserved | Confirmed | Cancelled | Expired {
    // The statuses covered by the partial unique index on seat rows.
    predicate Active() { Reserved? || Confirmed? }
  }

  datatype Kind = Quantity | Seats

  datatype Event = Event(name: string)

  // `position` stands for the name ticket types are listed by.
  datatype TicketType = TicketType(event: Id, position: int, total: int, sold: int, reserved: int)

  // `position` stands for the (section, row, number) label the inventory is sorted by.
  datatype Seat = Seat(event: Id, position: int)

  datatype Reservation = Reservation(
    event: Id, session: Id, user: Option<Id>, status: Status, kind: Kind, key: string, expiresAt: int)

  datatype Item = Item(reservation: Id, ticketType: Id, quantity: int, status: Status)

  datatype SeatRow = SeatRow(reservation: Id, seat: Id, status: Status, expiresAt: int)

  datatype Store = Store(
    events: map<Id, Event>,
    ticketTypes: map<Id, TicketType>,
    seats: map<Id, Seat>,
    reservations: map<Id, Reservation>,
    items: map<Id, Item>,
    seatRows: map<Id, SeatRow>)

  // The visitor session behind a request, with its user once logged in.
  datatype Caller = Caller(session: Id, user: Option<Id>)

  datatype ItemDetail = ItemDetail(ticketType: Id, quantity: int, status: Status)

  datatype SeatDetail = SeatDetail(seat: Id, status: Status)

  datatype Response =
    | QuantityResponse(id: Id, status: Status, expiresAt: int, ticketType: Id, quantity: int)
    | SeatsResponse(id: Id, status: Status, expiresAt: int, seats: seq<Id>)
    | DetailResponse(
        id: Id, event: Id, status: Status, kind: Kind, expiresAt: int,
        items: seq<ItemDetail>, seatDetails: seq<SeatDetail>)

  datatype Error =
    | StockConflict
    | SeatConflict
    | SeatsNotFound
    | NotFound
    | TransitionConflict
    | InventoryConflict
    | MultipleRows
    | Aborted   // connection lost, or chosen as a deadlock victim

  // What a call ends with: a fresh reservation or transition, a replay, a batch count, or an error.
  datatype Outcome =
    | Made(response: Response)
    | Replayed(response: Response)
    | Count(processed: nat)
    | Failed(error: Error)
}
