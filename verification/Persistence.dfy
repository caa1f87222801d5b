/** The tables behind a database session: one method per repository statement, changing the tables in
    place, with commit, rollback and savepoints as snapshots. */
module Persistence {
  import opened Tables
  import opened Spec
  import opened Operations

  class Session {
    var events: map<Id, Event>
    var ticketTypes: map<Id, TicketType>
    var seats: map<Id, Seat>
    var reservations: map<Id, Reservation>
    var items: map<Id, Item>
    var seatRows: map<Id, SeatRow>
    // What other sessions see, and what a rollback restores.
    var committed: Store

    function View(): Store
      reads this
    {
      Store(events, ticketTypes, seats, reservations, items, seatRows)
    }

    constructor (store: Store)
      ensures View() == store && committed == store
    {
      events, ticketTypes, seats := store.events, store.ticketTypes, store.seats;
      reservations, items, seatRows := store.reservations, store.items, store.seatRows;
      committed := store;
    }

    method Commit()
      modifies `committed
      ensures committed == View()
    {
      committed := View();
    }

    // Back to a savepoint taken earlier in the transaction.
    method RollbackTo(savepoint: Store)
      modifies `events, `ticketTypes, `seats, `reservations, `items, `seatRows
      ensures View() == savepoint
    {
      events, ticketTypes, seats := savepoint.events, savepoint.ticketTypes, savepoint.seats;
      reservations, items, seatRows := savepoint.reservations, savepoint.items, savepoint.seatRows;
    }

    method Rollback()
      modifies `events, `ticketTypes, `seats, `reservations, `items, `seatRows
      ensures View() == committed
    {
      RollbackTo(committed);
    }

    // ----- guarded updates -----

    method ReserveTicketQuantity(event: Id, t: Id, quantity: int) returns (updated: bool)
      modifies `ticketTypes
      ensures updated <==>
                && t in old(ticketTypes) && old(ticketTypes)[t].event == event
                && old(ticketTypes)[t].sold + old(ticketTypes)[t].reserved + quantity <= old(ticketTypes)[t].total
      ensures ticketTypes
           == if updated
              then old(ticketTypes)[t := old(ticketTypes)[t].(reserved := old(ticketTypes)[t].reserved + quantity)]
              else old(ticketTypes)
    {
      updated := t in ticketTypes && ticketTypes[t].event == event
                 && ticketTypes[t].total - ticketTypes[t].sold - ticketTypes[t].reserved >= quantity;
      if updated {
        var row := ticketTypes[t];
        ticketTypes := ticketTypes[t := row.(reserved := row.reserved + quantity)];
      }
    }

    method ReleaseReservedQuantity(t: Id, quantity: int) returns (updated: bool)
      modifies `ticketTypes
      ensures updated <==> t in old(ticketTypes) && old(ticketTypes)[t].reserved >= quantity
      ensures ticketTypes
           == if updated
              then old(ticketTypes)[t := old(ticketTypes)[t].(reserved := old(ticketTypes)[t].reserved - quantity)]
              else old(ticketTypes)
    {
      updated := t in ticketTypes && ticketTypes[t].reserved >= quantity;
      if updated {
        var row := ticketTypes[t];
        ticketTypes := ticketTypes[t := row.(reserved := row.reserved - quantity)];
      }
    }

    method ConfirmReservedQuantity(t: Id, quantity: int) returns (updated: bool)
      modifies `ticketTypes
      ensures updated <==>
                && t in old(ticketTypes) && old(ticketTypes)[t].reserved >= quantity
                && old(ticketTypes)[t].sold + old(ticketTypes)[t].reserved <= old(ticketTypes)[t].total
      ensures ticketTypes
           == if updated
              then old(ticketTypes)[t := old(ticketTypes)[t].(reserved := old(ticketTypes)[t].reserved - quantity,
                                                              sold := old(ticketTypes)[t].sold + quantity)]
              else old(ticketTypes)
    {
      updated := t in ticketTypes && ticketTypes[t].reserved >= quantity
                 && ticketTypes[t].sold + ticketTypes[t].reserved <= ticketTypes[t].total;
      if updated {
        var row := ticketTypes[t];
        ticketTypes := ticketTypes[t := row.(reserved := row.reserved - quantity, sold := row.sold + quantity)];
      }
    }

    // ----- inserts -----

    // Refused by the unique constraint on (session, key).
    method AddReservation(id: Id, row: Reservation) returns (inserted: bool)
      modifies `reservations
      ensures inserted <==> forall r :: r in old(reservations) ==>
                !(old(reservations)[r].session == row.session && old(reservations)[r].key == row.key)
      ensures reservations == if inserted then old(reservations)[id := row] else old(reservations)
    {
      inserted := !(exists r :: r in reservations && reservations[r].session == row.session && reservations[r].key == row.key);
      if inserted {
        reservations := reservations[id := row];
      }
    }

    method AddReservationItem(id: Id, row: Item)
      modifies `items
      ensures View() == old(View()).(items := old(items)[id := row])
    {
      items := items[id := row];
    }

    // One reserved row per seat, in order; the partial unique index refuses the first seat that has an active row.
    method AddReservationSeats(rid: Id, ordered: seq<Id>, ids: seq<Id>, expiresAt: int) returns (inserted: bool)
      requires |ids| == |ordered| && Distinct(ids) && Distinct(ordered)
      requires forall i :: i in ids ==> i !in seatRows
      modifies `seatRows
      ensures inserted <==> forall k :: 0 <= k < |ordered| ==> !Occupied(old(View()), ordered[k])
      ensures inserted <==> forall k, i :: 0 <= k < |ordered| && i in old(seatRows) ==> !Takes(old(seatRows)[i], ordered[k])
      ensures inserted ==>
                && seatRows.Keys == old(seatRows).Keys + SetOf(ids)
                && (forall i :: i in old(seatRows) ==> seatRows[i] == old(seatRows)[i])
                && (forall k :: 0 <= k < |ids| ==> seatRows[ids[k]] == SeatRow(rid, ordered[k], Reserved, expiresAt))
      ensures inserted ==>
                View() == old(View()).(seatRows := old(seatRows) + NewRows(rid, ordered, ids, expiresAt))
    {
      hide NewRows, Occupied, Distinct;
      ghost var before := View();
      var n := 0;
      assert ids[..0] == [];
      FirstRows(before.seatRows, rid, ordered, expiresAt);
      while n < |ordered|
        invariant 0 <= n <= |ordered|
        invariant View() == before.(seatRows := before.seatRows + NewRows(rid, ordered, ids[..n], expiresAt))
        invariant forall k :: 0 <= k < n ==> !Occupied(before, ordered[k])
      {
        SlotAsBefore(before, rid, ordered, ids, n, expiresAt);
        if Occupied(View(), ordered[n]) {
          OccupiedIff(before, ordered[n]);
          return false;
        }
        OneMoreRow(before.seatRows, rid, ordered, ids, n, expiresAt);
        seatRows := seatRows[ids[n] := SeatRow(rid, ordered[n], Reserved, expiresAt)];
        n := n + 1;
      }
      assert ids[..n] == ids;
      forall k | 0 <= k < |ordered| ensures forall i :: i in before.seatRows ==> !Takes(before.seatRows[i], ordered[k]) {
        OccupiedIff(before, ordered[k]);
      }
      RowsAdded(before.seatRows, rid, ordered, ids, expiresAt);
      return true;
    }

    // ----- expiry of stale holds on locked seats -----

    method ExpireReservationsForSeats(seatIds: set<Id>, expiredAt: int)
      modifies `seatRows, `reservations
      ensures View() == Settle(old(View()), StaleHolders(old(View()), seatIds, expiredAt), Expired)
      ensures RunOutExpired(old(View()), View(), seatIds, expiredAt)
    {
      SettledIs(View(), seatIds, expiredAt);
      hide RunOutExpired, StaleHolders;
      var holders := StaleHolders(View(), seatIds, expiredAt);
      if holders == {} {
        NothingToSettle(View(), Expired);
        return;
      }
      seatRows := seatRows + (map i | i in seatRows && seatRows[i].reservation in holders && seatRows[i].status.Reserved?
                                :: seatRows[i].(status := Expired));
      reservations := reservations + (map r | r in holders && r in reservations && reservations[r].status.Reserved?
                                        :: reservations[r].(status := Expired));
    }

    // ----- assignments to loaded rows -----

    method SetItemStatus(i: Id, status: Status)
      requires i in items
      modifies `items
      ensures View() == old(View()).(items := old(items)[i := old(items)[i].(status := status)])
    {
      items := items[i := items[i].(status := status)];
    }

    method SetSeatRowStatus(i: Id, status: Status)
      requires i in seatRows
      modifies `seatRows
      ensures View() == old(View()).(seatRows := old(seatRows)[i := old(seatRows)[i].(status := status)])
    {
      seatRows := seatRows[i := seatRows[i].(status := status)];
    }

    method SetReservationStatus(r: Id, status: Status)
      requires r in reservations
      modifies `reservations
      ensures View() == old(View()).(reservations := old(reservations)[r := old(reservations)[r].(status := status)])
    {
      reservations := reservations[r := reservations[r].(status := status)];
    }
  }

  // The row is active on the seat: reserved or confirmed.
  ghost predicate Takes(row: SeatRow, seat: Id) {
    row.seat == seat && (row.status == Reserved || row.status == Confirmed)
  }

  // Reservation `r` holds one of the seats in a reserved row that has run out.
  ghost predicate RunOut(rows: map<Id, SeatRow>, seatIds: set<Id>, expiredAt: int, r: Id) {
    exists i :: i in rows && rows[i].reservation == r && rows[i].seat in seatIds && rows[i].status == Reserved
                && rows[i].expiresAt <= expiredAt
  }

  // Exactly what was reserved of such reservations has become expired, seat rows and parents.
  ghost predicate RunOutExpired(db: Store, d: Store, seatIds: set<Id>, expiredAt: int) {
    && d == db.(seatRows := d.seatRows, reservations := d.reservations)
    && d.seatRows.Keys == db.seatRows.Keys && d.reservations.Keys == db.reservations.Keys
    && (forall i :: i in db.seatRows ==>
          var row := db.seatRows[i];
          d.seatRows[i] == if row.status == Reserved && RunOut(db.seatRows, seatIds, expiredAt, row.reservation)
                           then row.(status := Expired) else row)
    && (forall r :: r in db.reservations ==>
          var row := db.reservations[r];
          d.reservations[r] == if row.status == Reserved && RunOut(db.seatRows, seatIds, expiredAt, r)
                               then row.(status := Expired) else row)
  }

  lemma NothingToSettle(db: Store, target: Status)
    ensures Settle(db, {}, target) == db
  {
    var rows, parents := SettledRows(db, {}, target), SettledParents(db, {}, target);
    assert forall i :: i !in rows;
    assert forall r :: r !in parents;
    hide SettledRows, SettledParents;
    assert db.seatRows + rows == db.seatRows && db.reservations + parents == db.reservations;
  }

  lemma HoldersRunOut(db: Store, seatIds: set<Id>, expiredAt: int)
    ensures forall r :: r in StaleHolders(db, seatIds, expiredAt) <==> RunOut(db.seatRows, seatIds, expiredAt, r)
  {
    forall r ensures r in StaleHolders(db, seatIds, expiredAt) <==> RunOut(db.seatRows, seatIds, expiredAt, r) {
      if RunOut(db.seatRows, seatIds, expiredAt, r) {
        var i :| i in db.seatRows && db.seatRows[i].reservation == r && db.seatRows[i].seat in seatIds
                 && db.seatRows[i].status == Reserved && db.seatRows[i].expiresAt <= expiredAt;
        assert StaleRow(db.seatRows[i], seatIds, expiredAt);
      }
    }
  }

  lemma SettledIs(db: Store, seatIds: set<Id>, expiredAt: int)
    ensures RunOutExpired(db, Settle(db, StaleHolders(db, seatIds, expiredAt), Expired), seatIds, expiredAt)
  {
    hide StaleHolders, RunOut, StaleRow;
    HoldersRunOut(db, seatIds, expiredAt);
  }

  lemma OccupiedIff(db: Store, seat: Id)
    ensures Occupied(db, seat) <==> exists i :: i in db.seatRows && Takes(db.seatRows[i], seat)
  {
    if Occupied(db, seat) {
      var i :| i in db.seatRows && db.seatRows[i].seat == seat && db.seatRows[i].status.Active();
      assert Takes(db.seatRows[i], seat);
    }
  }

  lemma RowsAdded(rows: map<Id, SeatRow>, rid: Id, ordered: seq<Id>, ids: seq<Id>, expiresAt: int)
    requires |ids| == |ordered| && Distinct(ids) && forall i :: i in ids ==> i !in rows
    ensures var d := rows + NewRows(rid, ordered, ids, expiresAt);
            && d.Keys == rows.Keys + SetOf(ids) && (forall i :: i in rows ==> d[i] == rows[i])
            && (forall k :: 0 <= k < |ids| ==> d[ids[k]] == SeatRow(rid, ordered[k], Reserved, expiresAt))
  {
    NewRowsAt(rid, ordered, ids, expiresAt);
    hide NewRows;
  }

  lemma FirstRows(rows: map<Id, SeatRow>, rid: Id, ordered: seq<Id>, expiresAt: int)
    ensures rows + NewRows(rid, ordered, [], expiresAt) == rows
  {
  }

  lemma OneMoreRow(rows: map<Id, SeatRow>, rid: Id, ordered: seq<Id>, ids: seq<Id>, n: nat, expiresAt: int)
    requires |ids| == |ordered| && n < |ordered|
    ensures rows + NewRows(rid, ordered, ids[..n + 1], expiresAt)
         == (rows + NewRows(rid, ordered, ids[..n], expiresAt))[ids[n] := SeatRow(rid, ordered[n], Reserved, expiresAt)]
  {
    assert ids[..n + 1][..n] == ids[..n];
  }

  // The rows inserted so far are on other seats.
  lemma SlotAsBefore(before: Store, rid: Id, ordered: seq<Id>, ids: seq<Id>, n: nat, expiresAt: int)
    requires |ids| == |ordered| && Distinct(ids) && Distinct(ordered) && n < |ordered|
    requires forall i :: i in ids ==> i !in before.seatRows
    ensures Occupied(before.(seatRows := before.seatRows + NewRows(rid, ordered, ids[..n], expiresAt)), ordered[n])
       <==> Occupied(before, ordered[n])
  {
    var added := NewRows(rid, ordered, ids[..n], expiresAt);
    var after := before.(seatRows := before.seatRows + added);
    NewRowsAt(rid, ordered, ids[..n], expiresAt);
    forall i | i in added ensures i !in before.seatRows && added[i].seat != ordered[n] {
      assert i in ids[..n];
      var k :| 0 <= k < n && ids[..n][k] == i;
      assert ids[k] in ids && added[i].seat == ordered[k];
    }
    hide NewRows;
    if Occupied(before, ordered[n]) {
      var i :| i in before.seatRows && before.seatRows[i].seat == ordered[n] && before.seatRows[i].status.Active();
      assert after.seatRows[i] == before.seatRows[i];
    }
  }
}
