/** The inventory view of an event: ticket availability and one line per row of the seat outer join. */
module Inventory {
  import opened Tables
  import opened Ordering
  import opened Spec
  import opened Totals
  import opened Invariant

  datatype SeatState = Available | Held | Sold

  datatype TypeLine = TypeLine(ticketType: Id, total: int, sold: int, reserved: int, available: int)

  datatype SeatLine = SeatLine(seat: Id, state: SeatState)

  datatype View = NoSuchEvent | EventView(ticketTypes: seq<TypeLine>, seats: seq<SeatLine>)

  function SeatStatus(status: Option<Status>): SeatState {
    match status
    case Some(Reserved) => Held
    case Some(Confirmed) => Sold
    case _ => Available
  }

  // The rows of one seat in the outer join: one per active seat row, or a single one without a status.
  function JoinRows(db: Store, seat: Id): seq<(Id, Option<Status>)> {
    var rows := Sorted(ActiveRows(db, seat));
    if rows == [] then [(seat, None)]
    else seq(|rows|, k requires 0 <= k < |rows| => assert rows[k] in rows; (seat, Some(db.seatRows[rows[k]].status)))
  }

  function JoinAll(db: Store, seats: seq<Id>): seq<(Id, Option<Status>)> {
    if seats == [] then [] else JoinRows(db, seats[0]) + JoinAll(db, seats[1..])
  }

  // ORDER BY the seat's label, then its id.
  function SeatColumn(db: Store, event: Id): map<Id, int> {
    map s | s in db.seats && db.seats[s].event == event :: db.seats[s].position
  }

  function ListSeatInventory(db: Store, event: Id): seq<(Id, Option<Status>)> {
    JoinAll(db, Ordered(SeatColumn(db, event)))
  }

  // ORDER BY the name, then the id.
  function TypeColumn(db: Store, event: Id): map<Id, int> {
    map t | t in db.ticketTypes && db.ticketTypes[t].event == event :: db.ticketTypes[t].position
  }

  function LineOf(t: Id, row: TicketType): TypeLine {
    TypeLine(t, row.total, row.sold, row.reserved, row.total - row.sold - row.reserved)
  }

  function ListTicketTypes(db: Store, event: Id): seq<TypeLine> {
    var ids := Ordered(TypeColumn(db, event));
    seq(|ids|, k requires 0 <= k < |ids| => assert ids[k] in ids; LineOf(ids[k], db.ticketTypes[ids[k]]))
  }

  // The committed stores the three queries read.
  datatype Seen = Seen(events: Store, types: Store, seats: Store)

  function GetInventory(seen: Seen, event: Id): View {
    if event !in seen.events.events then
      NoSuchEvent
    else
      var joined := ListSeatInventory(seen.seats, event);
      EventView(
        ListTicketTypes(seen.types, event),
        seq(|joined|, k requires 0 <= k < |joined| => SeatLine(joined[k].0, SeatStatus(joined[k].1))))
  }

  // ----- seats -----

  lemma SoleActive(db: Store, seat: Id, i: Id)
    requires Exclusive(db) && i in ActiveRows(db, seat)
    ensures ActiveRows(db, seat) == {i}
  {
  }

  // With exclusive seats the join yields one row per seat, with the status of its active hold if there is one.
  lemma OneRowPerSeat(db: Store, seat: Id)
    requires Exclusive(db)
    ensures |JoinRows(db, seat)| == 1 && JoinRows(db, seat)[0].0 == seat
    ensures JoinRows(db, seat)[0].1.None? <==> !Occupied(db, seat)
    ensures forall i :: i in ActiveRows(db, seat) ==> JoinRows(db, seat)[0].1 == Some(db.seatRows[i].status)
  {
    if Occupied(db, seat) {
      var i :| i in db.seatRows && db.seatRows[i].seat == seat && db.seatRows[i].status.Active();
      SoleActive(db, seat, i);
      hide Exclusive, ActiveRows;
      var rows := Sorted(ActiveRows(db, seat));
      assert |rows| == 1 && rows[0] in rows;
    } else {
      assert ActiveRows(db, seat) == {};
    }
  }

  lemma {:induction false} JoinedInOrder(db: Store, seats: seq<Id>)
    requires Exclusive(db)
    ensures |JoinAll(db, seats)| == |seats|
    ensures forall k :: 0 <= k < |seats| ==> JoinAll(db, seats)[k] == JoinRows(db, seats[k])[0]
  {
    hide JoinRows, Exclusive;
    if seats != [] {
      OneRowPerSeat(db, seats[0]);
      JoinedInOrder(db, seats[1..]);
      forall k | 0 <= k < |seats|
        ensures |JoinRows(db, seats[k])| == 1 && JoinAll(db, seats)[k] == JoinRows(db, seats[k])[0]
      {
        OneRowPerSeat(db, seats[k]);
        if k > 0 { assert seats[k] == seats[1..][k - 1]; }
      }
    }
  }

  // The row is active on the seat: reserved or confirmed.
  ghost predicate Takes(row: SeatRow, seat: Id) {
    row.seat == seat && (row.status == Reserved || row.status == Confirmed)
  }

  // The line is available when no row takes the seat, otherwise it tells what the row that does is.
  ghost predicate SeatShown(db: Store, line: SeatLine) {
    && (line.state.Available? <==> forall i :: i in db.seatRows ==> !Takes(db.seatRows[i], line.seat))
    && (forall i :: i in db.seatRows && Takes(db.seatRows[i], line.seat) ==>
          line.state == if db.seatRows[i].status == Reserved then Held else Sold)
  }

  // `a` comes before `b` in a list by position, ties broken by id.
  ghost predicate Precedes(position: int, a: Id, position': int, b: Id) {
    position < position' || (position == position' && a < b)
  }

  // Only an unknown event has no view.
  lemma ViewExists(seen: Seen, event: Id)
    ensures GetInventory(seen, event).NoSuchEvent? <==> event !in seen.events.events
  {
    hide ListSeatInventory, ListTicketTypes;
  }

  lemma SeatLines(seen: Seen, event: Id)
    requires Exclusive(seen.seats) && event in seen.events.events
    ensures var lines := GetInventory(seen, event).seats; var ids := Ordered(SeatColumn(seen.seats, event));
            && |lines| == |ids|
            && forall k :: 0 <= k < |lines| ==> lines[k].seat == ids[k] && SeatShown(seen.seats, lines[k])
  {
    var db := seen.seats;
    var ids := Ordered(SeatColumn(db, event));
    JoinedInOrder(db, ids);
    var lines := GetInventory(seen, event).seats;
    forall k | 0 <= k < |lines| ensures lines[k].seat == ids[k] && SeatShown(db, lines[k]) {
      hide Exclusive, JoinRows, JoinAll;
      OneRowPerSeat(db, ids[k]);
      StatusShown(db, ids[k], JoinRows(db, ids[k])[0].1);
    }
  }

  lemma SeatIds(db: Store, event: Id)
    ensures var ids := Ordered(SeatColumn(db, event));
            && (forall s :: s in ids <==> s in db.seats && db.seats[s].event == event)
            && (forall k, m :: 0 <= k < m < |ids| ==>
                  && ids[k] in db.seats && ids[m] in db.seats
                  && Precedes(db.seats[ids[k]].position, ids[k], db.seats[ids[m]].position, ids[m]))
  {
  }

  // The lines list exactly the seats of the event, by label and then id.
  ghost predicate SeatsListed(seats: map<Id, Seat>, event: Id, lines: seq<SeatLine>) {
    && (forall s :: s in seats && seats[s].event == event <==> exists k :: 0 <= k < |lines| && lines[k].seat == s)
    && (forall k, m :: 0 <= k < m < |lines| ==>
          && lines[k].seat in seats && lines[m].seat in seats
          && Precedes(seats[lines[k].seat].position, lines[k].seat, seats[lines[m].seat].position, lines[m].seat))
  }

  lemma ListedSeats(seats: map<Id, Seat>, event: Id, lines: seq<SeatLine>, ids: seq<Id>)
    requires |lines| == |ids| && forall k :: 0 <= k < |ids| ==> lines[k].seat == ids[k]
    requires forall s :: s in ids <==> s in seats && seats[s].event == event
    requires forall k, m :: 0 <= k < m < |ids| ==>
               && ids[k] in seats && ids[m] in seats
               && Precedes(seats[ids[k]].position, ids[k], seats[ids[m]].position, ids[m])
    ensures SeatsListed(seats, event, lines)
  {
    hide Precedes;
    forall s ensures s in ids <==> exists k :: 0 <= k < |lines| && lines[k].seat == s {
      if s in ids {
        var k :| 0 <= k < |ids| && ids[k] == s;
        assert lines[k].seat == s;
      }
    }
  }

  // In every store with exclusive seats the view lists each seat of the event exactly once, by label and then id,
  // in the state of its hold.
  lemma SeatsAgreeWithHolds(seen: Seen, event: Id)
    requires Exclusive(seen.seats) && event in seen.events.events
    ensures var lines := GetInventory(seen, event).seats;
            && SeatsListed(seen.seats.seats, event, lines)
            && forall k :: 0 <= k < |lines| ==> SeatShown(seen.seats, lines[k])
  {
    var lines, ids := GetInventory(seen, event).seats, Ordered(SeatColumn(seen.seats, event));
    hide Exclusive, SeatColumn, Ordered, GetInventory, SeatShown, Precedes, SeatsListed, IsOrdered;
    SeatLines(seen, event);
    SeatIds(seen.seats, event);
    ListedSeats(seen.seats.seats, event, lines, ids);
  }

  lemma StatusShown(db: Store, seat: Id, status: Option<Status>)
    requires status.None? <==> !Occupied(db, seat)
    requires forall i :: i in ActiveRows(db, seat) ==> status == Some(db.seatRows[i].status)
    ensures SeatShown(db, SeatLine(seat, SeatStatus(status)))
  {
  }

  // Two active rows would show up as the same seat listed twice.
  lemma TwiceHeldTwiceListed(db: Store, seat: Id)
    ensures |JoinRows(db, seat)| == 1 <==>
      forall i, j :: i in db.seatRows && j in db.seatRows && Takes(db.seatRows[i], seat) && Takes(db.seatRows[j], seat) ==> i == j
  {
    assert forall i :: i in ActiveRows(db, seat) <==> i in db.seatRows && Takes(db.seatRows[i], seat);
    JoinedOnce(db, seat);
    hide ActiveRows, JoinRows;
  }

  lemma JoinedOnce(db: Store, seat: Id)
    ensures |JoinRows(db, seat)| == 1 <==>
      forall i, j :: i in ActiveRows(db, seat) && j in ActiveRows(db, seat) ==> i == j
  {
  }

  // ----- ticket types -----

  lemma TypeIds(db: Store, event: Id)
    ensures var ids := Ordered(TypeColumn(db, event));
            && (forall t :: t in ids <==> t in db.ticketTypes && db.ticketTypes[t].event == event)
            && (forall k, m :: 0 <= k < m < |ids| ==>
                  && ids[k] in db.ticketTypes && ids[m] in db.ticketTypes
                  && Precedes(db.ticketTypes[ids[k]].position, ids[k], db.ticketTypes[ids[m]].position, ids[m]))
  {
  }

  lemma TypeLines(db: Store, event: Id)
    ensures var lines := ListTicketTypes(db, event); var ids := Ordered(TypeColumn(db, event));
            && |lines| == |ids| && (forall k :: 0 <= k < |ids| ==> lines[k].ticketType == ids[k])
            && forall k :: 0 <= k < |ids| ==> lines[k].ticketType in db.ticketTypes && ColumnsShown(db, lines[k])
  {
    var column := TypeColumn(db, event);
    OrderedBy(column);
    var ids, lines := Ordered(column), ListTicketTypes(db, event);
    assert forall t :: t in column ==> t in db.ticketTypes;
    hide Ordered, IsOrdered, Before, TypeColumn;
    forall k | 0 <= k < |ids|
      ensures lines[k].ticketType == ids[k] && ids[k] in db.ticketTypes && ColumnsShown(db, lines[k])
    {
      assert ids[k] in ids;
    }
  }

  ghost predicate ColumnsShown(db: Store, line: TypeLine)
    requires line.ticketType in db.ticketTypes
  {
    var row := db.ticketTypes[line.ticketType];
    && line.total == row.total && line.sold == row.sold && line.reserved == row.reserved
    && line.available == row.total - row.sold - row.reserved
  }

  // The lines list exactly the ticket types of the event, by name and then id.
  ghost predicate TypesListed(types: map<Id, TicketType>, event: Id, lines: seq<TypeLine>) {
    && (forall t :: t in types && types[t].event == event <==> exists k :: 0 <= k < |lines| && lines[k].ticketType == t)
    && (forall k, m :: 0 <= k < m < |lines| ==>
          && lines[k].ticketType in types && lines[m].ticketType in types
          && Precedes(types[lines[k].ticketType].position, lines[k].ticketType,
                      types[lines[m].ticketType].position, lines[m].ticketType))
  }

  lemma ListedTypes(types: map<Id, TicketType>, event: Id, lines: seq<TypeLine>, ids: seq<Id>)
    requires |lines| == |ids| && forall k :: 0 <= k < |ids| ==> lines[k].ticketType == ids[k]
    requires forall t :: t in ids <==> t in types && types[t].event == event
    requires forall k, m :: 0 <= k < m < |ids| ==>
               && ids[k] in types && ids[m] in types
               && Precedes(types[ids[k]].position, ids[k], types[ids[m]].position, ids[m])
    ensures TypesListed(types, event, lines)
  {
    hide Precedes;
    forall t ensures t in ids <==> exists k :: 0 <= k < |lines| && lines[k].ticketType == t {
      if t in ids {
        var k :| 0 <= k < |ids| && ids[k] == t;
        assert lines[k].ticketType == t;
      }
    }
  }

  // Every ticket type of the event is listed once, by name and then id, each line with the columns of its row.
  lemma TypesInOrder(seen: Seen, event: Id)
    requires event in seen.events.events
    ensures var lines := GetInventory(seen, event).ticketTypes;
            && TypesListed(seen.types.ticketTypes, event, lines)
            && forall k :: 0 <= k < |lines| ==> lines[k].ticketType in seen.types.ticketTypes && ColumnsShown(seen.types, lines[k])
  {
    var lines, ids := GetInventory(seen, event).ticketTypes, Ordered(TypeColumn(seen.types, event));
    assert lines == ListTicketTypes(seen.types, event);
    hide TypeColumn, Ordered, GetInventory, ListTicketTypes, Precedes, TypesListed, ColumnsShown, IsOrdered;
    TypeLines(seen.types, event);
    TypeIds(seen.types, event);
    ListedTypes(seen.types.ticketTypes, event, lines, ids);
  }

  // In a consistent store each line shows as sold what confirmed items add up to, as reserved what reserved ones
  // do, and as available what remains of the total, which is never negative.
  lemma StockAgreesWithItems(seen: Seen, event: Id, k: nat)
    requires Inv(seen.types) && event in seen.events.events && k < |GetInventory(seen, event).ticketTypes|
    ensures var db := seen.types; var line := GetInventory(seen, event).ticketTypes[k]; var t := line.ticketType;
            && t in db.ticketTypes && db.ticketTypes[t].event == event && line.total == db.ticketTypes[t].total
            && line.sold == Total(db.items, t, Confirmed) && line.reserved == Total(db.items, t, Reserved)
            && line.available == line.total - Total(db.items, t, Reserved) - Total(db.items, t, Confirmed)
            && line.available >= 0
  {
    TypesInOrder(seen, event);
    hide Linked, Shaped, UniqueKeys, Exclusive, Rooted, GetInventory, Precedes;
    var line := GetInventory(seen, event).ticketTypes[k];
    assert BalancedType(seen.types, line.ticketType);
  }
}
