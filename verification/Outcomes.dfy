/** When a reservation request succeeds, what it answers, and what it leaves behind. */
module Outcomes {
  import opened Tables
  import opened Ordering
  import opened Spec
  import opened Totals
  import opened Invariant
  import opened Transitions
  import opened Operations

  // A reservation of this kind was made under the key in the session.
  ghost predicate KeyHeld(db: Store, session: Id, key: string, kind: Kind) {
    exists r :: r in db.reservations && db.reservations[r].session == session && db.reservations[r].key == key
                && db.reservations[r].kind == kind
  }

  lemma KeyHeldKeyed(db: Store, session: Id, key: string, kind: Kind)
    ensures KeyHeld(db, session, key, kind) <==> exists r :: Keyed(db, r, session, key, kind)
  {
    if KeyHeld(db, session, key, kind) {
      var r :| r in db.reservations && db.reservations[r].session == session && db.reservations[r].key == key
               && db.reservations[r].kind == kind;
      assert Keyed(db, r, session, key, kind);
    }
  }

  // ----- the idempotency lookups -----

  lemma SoleKeyedItem(db: Store, session: Id, key: string, i: Id, j: Id)
    requires Linked(db) && Shaped(db) && UniqueKeys(db)
    requires i in db.items && Keyed(db, db.items[i].reservation, session, key, Quantity)
    requires j in db.items && Keyed(db, db.items[j].reservation, session, key, Quantity)
    ensures i == j
  {
  }

  lemma QuantityLookupFound(db: Store, session: Id, key: string, r: Id)
    requires Linked(db) && Shaped(db) && UniqueKeys(db)
    requires Keyed(db, r, session, key, Quantity)
    ensures exists i :: i in db.items && db.items[i].reservation == r
              && QuantityLookup(db, session, key)
                 == Found(QuantityResponse(r, db.reservations[r].status, db.reservations[r].expiresAt,
                                           db.items[i].ticketType, db.items[i].quantity))
  {
    assert HasItem(db, r);
    var i :| i in db.items && db.items[i].reservation == r;
    var column := map j | j in db.items && Keyed(db, db.items[j].reservation, session, key, Quantity) :: 0;
    forall j | j in column ensures j == i {
      SoleKeyedItem(db, session, key, i, j);
    }
    hide Linked, Shaped, UniqueKeys;
    SoleRow(column, i);
  }

  lemma SoleRow(column: map<Id, int>, i: Id)
    requires i in column && forall j :: j in column ==> j == i
    ensures Ordered(column) == [i]
  {
    assert column.Keys == {i};
    var rows := Ordered(column);
    assert |rows| == 1 && rows[0] in rows;
  }

  // The lookup by key answers for quantity reservations alone, and is never ambiguous.
  lemma QuantityLookupExact(db: Store, session: Id, key: string)
    requires Linked(db) && Shaped(db) && UniqueKeys(db)
    ensures QuantityLookup(db, session, key).Missing? <==> !KeyHeld(db, session, key, Quantity)
    ensures !QuantityLookup(db, session, key).Ambiguous?
  {
    KeyHeldKeyed(db, session, key, Quantity);
    if KeyHeld(db, session, key, Quantity) {
      var r :| Keyed(db, r, session, key, Quantity);
      QuantityLookupFound(db, session, key, r);
    } else {
      var column := map j | j in db.items && Keyed(db, db.items[j].reservation, session, key, Quantity) :: 0;
      assert column.Keys == {};
      assert |Ordered(column)| == 0;
    }
  }

  // The item belongs to a quantity reservation made under the key in the session.
  ghost predicate KeyedItem(db: Store, i: Id, session: Id, key: string) {
    && i in db.items && db.items[i].reservation in db.reservations
    && var row := db.reservations[db.items[i].reservation];
    row.session == session && row.key == key && row.kind == Quantity
  }

  // In any store, consistent or not, the lookup misses when there is no such item and refuses to choose among several.
  lemma QuantityLookupCounts(db: Store, session: Id, key: string)
    ensures QuantityLookup(db, session, key).Missing? <==> forall i :: !KeyedItem(db, i, session, key)
    ensures QuantityLookup(db, session, key).Ambiguous? <==>
              exists i, j :: i != j && KeyedItem(db, i, session, key) && KeyedItem(db, j, session, key)
  {
    var column := map i | i in db.items && Keyed(db, db.items[i].reservation, session, key, Quantity) :: 0;
    assert forall i :: i in column <==> KeyedItem(db, i, session, key);
    ColumnCounts(column);
    hide KeyedItem, Keyed;
  }

  lemma ColumnCounts(column: map<Id, int>)
    ensures Ordered(column) == [] <==> forall i :: i !in column
    ensures |Ordered(column)| > 1 <==> exists i, j :: i != j && i in column && j in column
  {
    var rows := Ordered(column);
    assert forall k :: 0 <= k < |rows| ==> rows[k] in rows;
    if |rows| > 1 {
      assert rows[0] != rows[1] && rows[0] in column && rows[1] in column;
    }
    if i, j :| i != j && i in column && j in column {
      var k :| 0 <= k < |rows| && rows[k] == i;
      var m :| 0 <= m < |rows| && rows[m] == j;
    }
  }

  ghost predicate SeatOf(db: Store, r: Id, s: Id) {
    exists i :: i in db.seatRows && db.seatRows[i].reservation == r && db.seatRows[i].seat == s
  }

  function SeatsHeld(db: Store, r: Id): set<Id> {
    set i | i in db.seatRows && db.seatRows[i].reservation == r :: db.seatRows[i].seat
  }

  // Read in seat order, the rows of a reservation on distinct seats list each of its seats once, ascending.
  lemma SeatsAtSorted(db: Store, rows: seq<Id>, r: Id)
    requires forall i :: i in rows <==> i in db.seatRows && db.seatRows[i].reservation == r
    requires forall m, n :: 0 <= m < n < |rows| ==> db.seatRows[rows[m]].seat < db.seatRows[rows[n]].seat
    ensures SeatsAt(db, rows) == Sorted(SeatsHeld(db, r))
  {
    var seats := SeatsAt(db, rows);
    forall s ensures s in seats <==> s in SeatsHeld(db, r) {
      if s in SeatsHeld(db, r) {
        var i :| i in db.seatRows && db.seatRows[i].reservation == r && db.seatRows[i].seat == s;
        var k :| 0 <= k < |rows| && rows[k] == i;
        assert seats[k] == s;
      }
      if s in seats {
        var k :| 0 <= k < |seats| && seats[k] == s;
        assert rows[k] in rows;
      }
    }
    hide Sorted;
    SortedIs(SeatsHeld(db, r), seats);
  }

  lemma KeyedRowsOf(db: Store, session: Id, key: string, r: Id)
    requires Linked(db) && Shaped(db) && UniqueKeys(db)
    requires Keyed(db, r, session, key, Seats)
    ensures KeyedRows(db, session, key) != []
    ensures forall i :: i in KeyedRows(db, session, key) <==> i in db.seatRows && db.seatRows[i].reservation == r
    ensures var rows := KeyedRows(db, session, key);
            forall m, n :: 0 <= m < n < |rows| ==> db.seatRows[rows[m]].seat < db.seatRows[rows[n]].seat
  {
    assert HasSeat(db, r);
    var i :| i in db.seatRows && db.seatRows[i].reservation == r;
    assert i in KeyedRows(db, session, key);
    KeyedRowsOrdered(db, session, key);
    hide Linked, Shaped, UniqueKeys, KeyedRows, Keyed;
    var rows := KeyedRows(db, session, key);
    forall m, n | 0 <= m < n < |rows| ensures db.seatRows[rows[m]].seat < db.seatRows[rows[n]].seat {
      assert rows[m] in rows && rows[n] in rows;
      DistinctSeats(db, rows[m], rows[n]);
    }
  }

  lemma KeyedRowsOrdered(db: Store, session: Id, key: string)
    ensures var rows := KeyedRows(db, session, key);
            forall m, n :: 0 <= m < n < |rows| ==>
              rows[m] != rows[n] && rows[m] in db.seatRows && rows[n] in db.seatRows
              && db.seatRows[rows[m]].seat <= db.seatRows[rows[n]].seat
  {
    hide Keyed;
  }

  lemma DistinctSeats(db: Store, i: Id, j: Id)
    requires Shaped(db) && i in db.seatRows && j in db.seatRows && i != j
    requires db.seatRows[i].reservation == db.seatRows[j].reservation
    ensures db.seatRows[i].seat != db.seatRows[j].seat
  {
  }

  // A lookup by a key in use answers with its reservation and exactly that reservation's seats, ascending.
  lemma SeatsLookupFound(db: Store, session: Id, key: string, r: Id)
    requires Linked(db) && Shaped(db) && UniqueKeys(db)
    requires Keyed(db, r, session, key, Seats)
    ensures SeatsLookup(db, session, key)
         == Found(SeatsResponse(r, db.reservations[r].status, db.reservations[r].expiresAt, Sorted(SeatsHeld(db, r))))
  {
    KeyedRowsOf(db, session, key, r);
    hide Linked, Shaped, UniqueKeys, IsOrdered, KeyedRows, Sorted;
    var rows := KeyedRows(db, session, key);
    assert rows[0] in rows;
    SeatsAtSorted(db, rows, r);
    hide SeatsAt;
  }

  lemma SeatsLookupExact(db: Store, session: Id, key: string)
    requires Linked(db) && Shaped(db) && UniqueKeys(db)
    ensures SeatsLookup(db, session, key).Missing? <==> !KeyHeld(db, session, key, Seats)
  {
    KeyHeldKeyed(db, session, key, Seats);
    if KeyHeld(db, session, key, Seats) {
      var r :| Keyed(db, r, session, key, Seats);
      SeatsLookupFound(db, session, key, r);
    }
  }

  lemma KeyUsedByKind(db: Store, session: Id, key: string)
    ensures KeyUsed(db, session, key) <==> KeyHeld(db, session, key, Quantity) || KeyHeld(db, session, key, Seats)
  {
  }

  // ----- quantity requests -----

  // A quantity request is made exactly when the key is unused and what is neither sold nor reserved covers
  // the quantity, replayed exactly when the key holds a quantity reservation, and refused otherwise; only a
  // made one changes anything.
  lemma QuantityOutcome(db: Store, caller: Caller, event: Id, t: Id, quantity: int, key: string,
                        rid: Id, iid: Id, expiresAt: int)
    requires Linked(db) && Shaped(db) && UniqueKeys(db)
    ensures var (d, out) := ReserveQuantity(db, caller, event, t, quantity, key, rid, iid, expiresAt);
            && (out.Made? <==>
                  && !KeyHeld(db, caller.session, key, Quantity) && !KeyHeld(db, caller.session, key, Seats)
                  && t in db.ticketTypes && db.ticketTypes[t].event == event
                  && db.ticketTypes[t].sold + db.ticketTypes[t].reserved + quantity <= db.ticketTypes[t].total)
            && (out.Replayed? <==> KeyHeld(db, caller.session, key, Quantity))
            && (!out.Made? && !out.Replayed? ==> out == Failed(StockConflict))
            && (!out.Made? ==> d == db)
  {
    QuantityLookupExact(db, caller.session, key);
    KeyUsedByKind(db, caller.session, key);
    hide Linked, Shaped, UniqueKeys, QuantityLookup, KeyHeld;
  }

  // The tickets of type `t` that no reserved or confirmed item of a reservation takes cover the quantity.
  ghost predicate TicketsLeft(db: Store, event: Id, t: Id, quantity: int) {
    && t in db.ticketTypes && db.ticketTypes[t].event == event
    && Total(db.items, t, Reserved) + Total(db.items, t, Confirmed) + quantity <= db.ticketTypes[t].total
  }

  // Tickets that no hold and no sale takes are granted, and no others.
  lemma LeftIsGranted(db: Store, caller: Caller, event: Id, t: Id, quantity: int, key: string,
                      rid: Id, iid: Id, expiresAt: int)
    requires Inv(db)
    ensures ReserveQuantity(db, caller, event, t, quantity, key, rid, iid, expiresAt).1.Made?
       <==> && !KeyHeld(db, caller.session, key, Quantity) && !KeyHeld(db, caller.session, key, Seats)
            && TicketsLeft(db, event, t, quantity)
  {
    QuantityOutcome(db, caller, event, t, quantity, key, rid, iid, expiresAt);
    assert t in db.ticketTypes ==> BalancedType(db, t);
    hide Linked, Shaped, UniqueKeys, Exclusive, Rooted, ReserveQuantity, KeyHeld;
  }

  // What a made quantity request leaves behind and answers, column by column.
  lemma QuantityEffect(db: Store, caller: Caller, event: Id, t: Id, quantity: int, key: string,
                       rid: Id, iid: Id, expiresAt: int)
    requires ReserveQuantity(db, caller, event, t, quantity, key, rid, iid, expiresAt).1.Made?
    ensures var (d, out) := ReserveQuantity(db, caller, event, t, quantity, key, rid, iid, expiresAt);
            && t in db.ticketTypes
            && d == db.(ticketTypes := d.ticketTypes, reservations := d.reservations, items := d.items)
            && d.ticketTypes
               == db.ticketTypes[t := db.ticketTypes[t].(reserved := db.ticketTypes[t].reserved + quantity)]
            && d.reservations
               == db.reservations[rid := Reservation(event, caller.session, caller.user, Reserved, Quantity, key, expiresAt)]
            && d.items == db.items[iid := Item(rid, t, quantity, Reserved)]
            && out == Made(QuantityResponse(rid, Reserved, expiresAt, t, quantity))
  {
    hide QuantityLookup, KeyUsed;
  }

  // ----- seat requests -----

  // No confirmed hold, and no reserved hold that is still running at `now`.
  ghost predicate Free(db: Store, s: Id, now: int) {
    forall i :: i in db.seatRows && db.seatRows[i].seat == s ==>
      !db.seatRows[i].status.Confirmed? && !(db.seatRows[i].status.Reserved? && db.seatRows[i].expiresAt > now)
  }

  ghost predicate AllFree(db: Store, seats: set<Id>, now: int) {
    forall s :: s in seats ==> Free(db, s, now)
  }

  lemma AllFreeIff(db: Store, seats: set<Id>, now: int)
    requires Linked(db)
    ensures AllFree(db, seats, now) <==> !Blocked(Settle(db, StaleHolders(db, seats, now), Expired), seats)
  {
  }

  ghost predicate InEvent(db: Store, event: Id, seats: set<Id>) {
    forall s :: s in seats ==> s in db.seats && db.seats[s].event == event
  }

  lemma FoundWhole(db: Store, event: Id, seats: set<Id>)
    requires InEvent(db, event, seats)
    ensures FoundSeats(db, event, seats) == Sorted(seats)
  {
    hide Sorted;
    assert SeatsOfEvent(db, event, seats) == seats;
  }

  lemma FoundIff(db: Store, event: Id, seats: set<Id>)
    ensures FoundSeats(db, event, seats) == Sorted(seats) <==> InEvent(db, event, seats)
  {
    hide FoundSeats, Sorted;
    if FoundSeats(db, event, seats) == Sorted(seats) {
      FoundAll(db, event, seats);
    }
    if InEvent(db, event, seats) {
      FoundWhole(db, event, seats);
    }
  }

  // A seat request is made exactly when the key is unused, every seat belongs to the event and every
  // seat is free; it is replayed exactly when the key holds a seat reservation; and it is told that seats
  // are missing exactly when the key does not and some seat is not in the event.
  lemma SeatsOutcome(db: Store, caller: Caller, event: Id, seats: set<Id>, key: string,
                     rid: Id, rowIds: seq<Id>, now: int, expiresAt: int)
    requires Linked(db) && Shaped(db) && UniqueKeys(db)
    requires |rowIds| == |seats|
    ensures var (d, out) := ReserveSeats(db, caller, event, seats, key, rid, rowIds, now, expiresAt);
            && (out.Made? <==> && !KeyHeld(db, caller.session, key, Quantity) && !KeyHeld(db, caller.session, key, Seats)
                               && InEvent(db, event, seats)
                               && AllFree(db, seats, now))
            && (out.Replayed? <==> KeyHeld(db, caller.session, key, Seats))
            && (!out.Made? && !out.Replayed? ==> out == Failed(SeatConflict) || out == Failed(SeatsNotFound))
            && (out == Failed(SeatsNotFound) <==> !KeyHeld(db, caller.session, key, Seats) && !InEvent(db, event, seats))
            && (!out.Made? ==> d == db)
  {
    SeatsLookupExact(db, caller.session, key);
    KeyUsedByKind(db, caller.session, key);
    FoundIff(db, event, seats);
    AllFreeIff(db, seats, now);
    hide Linked, Shaped, UniqueKeys, SeatsLookup, Settle, AllFree, Blocked, StaleHolders, FoundSeats, Sorted, NewRows,
         KeyUsed, KeyHeld, InEvent;
  }

  // `q` is a stale holder of one of the seats.
  ghost predicate Outdated(db: Store, q: Id, seats: set<Id>, now: int) {
    && q in db.reservations && db.reservations[q].status.Reserved? && db.reservations[q].expiresAt <= now
    && exists s :: s in seats && SeatOf(db, q, s)
  }

  lemma OutdatedHolders(db: Store, seats: set<Id>, now: int)
    requires Linked(db)
    ensures forall q :: q in StaleHolders(db, seats, now) <==> Outdated(db, q, seats, now)
  {
  }

  function Turned(row: Reservation, turn: bool, target: Status): Reservation {
    if turn then row.(status := target) else row
  }

  function TurnedRow(row: SeatRow, turn: bool, target: Status): SeatRow {
    if turn then row.(status := target) else row
  }

  lemma SettledChildren(db: Store, holders: set<Id>, target: Status)
    requires Linked(db)
    requires forall q :: q in holders ==> q in db.reservations && db.reservations[q].status.Reserved?
    ensures var d := Settle(db, holders, target);
            && d.seatRows.Keys == db.seatRows.Keys && d.reservations.Keys == db.reservations.Keys
            && (forall i :: i in db.seatRows ==>
                  d.seatRows[i] == TurnedRow(db.seatRows[i], db.seatRows[i].reservation in holders, target))
            && (forall q :: q in db.reservations ==>
                  d.reservations[q] == Turned(db.reservations[q], q in holders, target))
  {
  }

  lemma NewRowsSeats(rid: Id, seats: set<Id>, ids: seq<Id>, expiresAt: int)
    requires |ids| == |seats| && Distinct(ids)
    ensures var added := NewRows(rid, Sorted(seats), ids, expiresAt);
            && (forall i :: i in added <==> i in ids)
            && (forall i :: i in added ==> added[i].reservation == rid && added[i].seat in seats
                                           && added[i].status.Reserved? && added[i].expiresAt == expiresAt)
            && (forall s :: s in seats ==> exists i :: i in added && added[i].seat == s)
  {
    var ordered := Sorted(seats);
    var added := NewRows(rid, ordered, ids, expiresAt);
    NewRowsAt(rid, ordered, ids, expiresAt);
    hide NewRows;
    forall i | i in added
      ensures added[i].reservation == rid && added[i].seat in seats && added[i].status.Reserved?
              && added[i].expiresAt == expiresAt
    {
      var k :| 0 <= k < |ids| && ids[k] == i;
      assert ordered[k] in ordered;
    }
    forall s | s in seats ensures exists i :: i in added && added[i].seat == s {
      assert s in ordered;
      var k :| 0 <= k < |ordered| && ordered[k] == s;
      assert ids[k] in added && added[ids[k]].seat == s;
    }
  }

  lemma SeatsUnmade(db: Store, caller: Caller, event: Id, seats: set<Id>, key: string,
                    rid: Id, rowIds: seq<Id>, now: int, expiresAt: int)
    requires |rowIds| == |seats|
    requires !ReserveSeats(db, caller, event, seats, key, rid, rowIds, now, expiresAt).1.Made?
    ensures ReserveSeats(db, caller, event, seats, key, rid, rowIds, now, expiresAt).0 == db
  {
    hide Settle, StaleHolders, NewRows, Sorted, KeyUsed, Blocked, SeatsLookup, FoundSeats;
  }

  lemma SeatsMadeForm(db: Store, caller: Caller, event: Id, seats: set<Id>, key: string,
                      rid: Id, rowIds: seq<Id>, now: int, expiresAt: int)
    requires |rowIds| == |seats|
    requires ReserveSeats(db, caller, event, seats, key, rid, rowIds, now, expiresAt).1.Made?
    ensures ReserveSeats(db, caller, event, seats, key, rid, rowIds, now, expiresAt).0
         == WithSeats(Settle(db, StaleHolders(db, seats, now), Expired), rid,
                      SeatsParent(caller, event, key, expiresAt), NewRows(rid, Sorted(seats), rowIds, expiresAt))
    ensures ReserveSeats(db, caller, event, seats, key, rid, rowIds, now, expiresAt).1
         == Made(SeatsResponse(rid, Reserved, expiresAt, Sorted(seats)))
  {
    hide Settle, StaleHolders, NewRows, Sorted, KeyUsed, Blocked, SeatsLookup, FoundSeats;
  }

  // Exactly the stale holders of the seats have become expired, with all their rows.
  ghost predicate StaleLapsed(db: Store, d: Store, seats: set<Id>, now: int) {
    && db.reservations.Keys <= d.reservations.Keys
    && (forall q :: q in db.reservations ==>
          d.reservations[q] == Turned(db.reservations[q], Outdated(db, q, seats, now), Expired))
    && db.seatRows.Keys <= d.seatRows.Keys
    && (forall i :: i in db.seatRows ==>
          d.seatRows[i] == TurnedRow(db.seatRows[i], Outdated(db, db.seatRows[i].reservation, seats, now), Expired))
  }

  // The new rows are one reserved row for each of `seats`, all of reservation `rid`.
  ghost predicate ExactlyHeld(db: Store, d: Store, rid: Id, seats: set<Id>, expiresAt: int) {
    && (forall i :: i in d.seatRows && i !in db.seatRows ==>
          && d.seatRows[i].reservation == rid && d.seatRows[i].status.Reserved? && d.seatRows[i].expiresAt == expiresAt)
    && (forall s :: SeatOf(d, rid, s) <==> s in seats)
  }

  lemma LapsedThenHeld(db: Store, seats: set<Id>, now: int, rid: Id, parent: Reservation, added: map<Id, SeatRow>)
    requires Linked(db) && rid !in db.reservations && added.Keys !! db.seatRows.Keys
    ensures StaleLapsed(db, WithSeats(Settle(db, StaleHolders(db, seats, now), Expired), rid, parent, added), seats, now)
  {
    hide Linked, Settle, StaleHolders, SeatOf;
    var holders := StaleHolders(db, seats, now);
    OutdatedHolders(db, seats, now);
    SettledChildren(db, holders, Expired);
    hide Outdated, Turned, TurnedRow;
  }

  lemma HeldRows(db: Store, d: Store, added: map<Id, SeatRow>, rid: Id, seats: set<Id>)
    requires d.seatRows == db.seatRows + added && added.Keys !! db.seatRows.Keys
    requires forall i :: i in db.seatRows ==> db.seatRows[i].reservation != rid
    requires forall i :: i in added ==> added[i].reservation == rid && added[i].seat in seats
    requires forall s :: s in seats ==> exists i :: i in added && added[i].seat == s
    ensures forall s :: SeatOf(d, rid, s) <==> s in seats
  {
  }

  lemma HeldExactly(db: Store, d0: Store, rid: Id, parent: Reservation, seats: set<Id>, rowIds: seq<Id>)
    requires d0.seatRows.Keys == db.seatRows.Keys
    requires forall i :: i in db.seatRows ==> d0.seatRows[i].reservation != rid
    requires |rowIds| == |seats| && Distinct(rowIds)
    requires forall i :: i in rowIds ==> i !in db.seatRows
    ensures ExactlyHeld(db, WithSeats(d0, rid, parent, NewRows(rid, Sorted(seats), rowIds, parent.expiresAt)),
                        rid, seats, parent.expiresAt)
  {
    hide NewRows, Sorted, SeatOf;
    var added := NewRows(rid, Sorted(seats), rowIds, parent.expiresAt);
    NewRowsSeats(rid, seats, rowIds, parent.expiresAt);
    HeldRows(d0, WithSeats(d0, rid, parent, added), added, rid, seats);
  }

  lemma SettledOwners(db: Store, holders: set<Id>, target: Status, rid: Id)
    requires Linked(db) && rid !in db.reservations
    ensures var rows := Settle(db, holders, target).seatRows;
            forall i :: i in db.seatRows ==> i in rows && rows[i].reservation != rid
  {
  }

  // A made seat request expires the stale holders of the requested seats, with all their rows, and
  // nobody else; it holds exactly the requested seats; ticket types and items are untouched.
  lemma SeatsEffect(db: Store, caller: Caller, event: Id, seats: set<Id>, key: string,
                    rid: Id, rowIds: seq<Id>, now: int, expiresAt: int)
    requires Linked(db)
    requires rid !in db.reservations && |rowIds| == |seats| && Distinct(rowIds)
    requires forall i :: i in rowIds ==> i !in db.seatRows
    requires ReserveSeats(db, caller, event, seats, key, rid, rowIds, now, expiresAt).1.Made?
    ensures var (d, out) := ReserveSeats(db, caller, event, seats, key, rid, rowIds, now, expiresAt);
            && out == Made(SeatsResponse(rid, Reserved, expiresAt, Sorted(seats)))
            && d.events == db.events && d.ticketTypes == db.ticketTypes && d.items == db.items && d.seats == db.seats
            && d.reservations.Keys == db.reservations.Keys + {rid}
            && d.reservations[rid] == Reservation(event, caller.session, caller.user, Reserved, Seats, key, expiresAt)
            && StaleLapsed(db, d, seats, now)
            && ExactlyHeld(db, d, rid, seats, expiresAt)
  {
    hide Linked, Settle, StaleHolders, NewRows, Sorted, StaleLapsed, ExactlyHeld, ReserveSeats;
    var parent := SeatsParent(caller, event, key, expiresAt);
    var holders := StaleHolders(db, seats, now);
    SeatsMadeForm(db, caller, event, seats, key, rid, rowIds, now, expiresAt);
    NewRowsSeats(rid, seats, rowIds, expiresAt);
    LapsedThenHeld(db, seats, now, rid, parent, NewRows(rid, Sorted(seats), rowIds, expiresAt));
    SettleFrame(db, holders, Expired, caller.session, key);
    SettledOwners(db, holders, Expired, rid);
    HeldExactly(db, Settle(db, holders, Expired), rid, parent, seats, rowIds);
  }

  lemma Childless(db: Store, d: Store, rid: Id, expiresAt: int)
    requires ExactlyHeld(db, d, rid, {}, expiresAt)
    requires rid in d.reservations && d.reservations[rid].kind.Seats?
    ensures !HasSeat(d, rid) && !Shaped(d)
  {
    forall i | i in d.seatRows ensures d.seatRows[i].reservation != rid {
      assert !SeatOf(d, rid, d.seatRows[i].seat);
    }
  }

  lemma EmptyAnswer(db: Store, caller: Caller, event: Id, key: string, rid: Id, now: int, expiresAt: int)
    requires ReserveSeats(db, caller, event, {}, key, rid, [], now, expiresAt).1.Made?
    ensures ReserveSeats(db, caller, event, {}, key, rid, [], now, expiresAt).1
         == Made(SeatsResponse(rid, Reserved, expiresAt, []))
  {
    hide KeyUsed, StaleHolders, SeatsLookup, FoundSeats, Settle, Blocked, Sorted;
    assert Sorted({}) == [];
  }

  // Passed straight to the service an empty list makes a reservation without children.
  lemma EmptyListIsChildless(db: Store, caller: Caller, event: Id, key: string, rid: Id, now: int, expiresAt: int)
    requires Linked(db) && Shaped(db) && UniqueKeys(db) && rid !in db.reservations
    requires !KeyUsed(db, caller.session, key)
    ensures var (d, out) := ReserveSeats(db, caller, event, {}, key, rid, [], now, expiresAt);
            && out == Made(SeatsResponse(rid, Reserved, expiresAt, []))
            && rid in d.reservations && !HasSeat(d, rid) && !Shaped(d)
  {
    hide ReserveSeats, Linked, Shaped, UniqueKeys, KeyUsed, StaleLapsed, Sorted, StaleHolders, SeatsLookup;
    KeyUsedByKind(db, caller.session, key);
    SeatsOutcome(db, caller, event, {}, key, rid, [], now, expiresAt);
    SeatsEffect(db, caller, event, {}, key, rid, [], now, expiresAt);
    var (d, out) := ReserveSeats(db, caller, event, {}, key, rid, [], now, expiresAt);
    Childless(db, d, rid, expiresAt);
    EmptyAnswer(db, caller, event, key, rid, now, expiresAt);
  }

  // ----- cancel and confirm -----

  // The caller is the session the reservation was made in, or is logged in as the user it was made for.
  ghost predicate OwnedBy(row: Reservation, caller: Caller) {
    caller.session == row.session || (caller.user.Some? && row.user.Some? && caller.user.value == row.user.value)
  }

  // The answer shows reservation `r` in status `status`, its item or its seats included: a quantity reservation
  // with its one item and no seats, a seat reservation with each of its seats once, ascending, and no items.
  ghost predicate Shows(db: Store, r: Id, status: Status, answer: Response)
    requires r in db.reservations
  {
    var row := db.reservations[r];
    && answer.DetailResponse? && answer.id == r && answer.status == status
    && answer.event == row.event && answer.kind == row.kind && answer.expiresAt == row.expiresAt
    && (row.kind.Quantity? ==>
          && answer.seatDetails == []
          && exists i :: i in db.items && db.items[i].reservation == r
                         && answer.items == [ItemDetail(db.items[i].ticketType, db.items[i].quantity, status)])
    && (row.kind.Seats? ==>
          && answer.items == [] && |answer.seatDetails| == |SeatsHeld(db, r)|
          && forall k :: 0 <= k < |answer.seatDetails| ==>
               answer.seatDetails[k] == SeatDetail(Sorted(SeatsHeld(db, r))[k], status))
  }

  lemma ItemShown(db: Store, r: Id)
    requires Linked(db) && Shaped(db) && r in db.reservations
    ensures var details := ItemDetails(db, ItemsOf(db, r));
            && (db.reservations[r].kind.Seats? ==> details == [])
            && (db.reservations[r].kind.Quantity? ==>
                  exists i :: i in db.items && db.items[i].reservation == r
                    && details == [ItemDetail(db.items[i].ticketType, db.items[i].quantity, db.reservations[r].status)])
  {
    if db.reservations[r].kind.Quantity? {
      assert HasItem(db, r);
      var i :| i in db.items && db.items[i].reservation == r;
      SoleRow(ItemColumn(db, r), i);
      assert LinkedItem(db, db.items[i]);
    } else {
      assert forall i :: i in db.items && db.items[i].reservation == r ==> LinkedItem(db, db.items[i]);
      assert ItemColumn(db, r).Keys == {};
    }
  }

  lemma SeatRowsInOrder(db: Store, r: Id)
    requires Linked(db) && Shaped(db) && r in db.reservations
    ensures var rows := SeatRowsOf(db, r);
            forall m, n :: 0 <= m < n < |rows| ==> db.seatRows[rows[m]].seat < db.seatRows[rows[n]].seat
  {
    var rows := SeatRowsOf(db, r);
    SeatRowsBySeat(db, r);
    hide Linked, Shaped, SeatRowsOf;
    forall m, n | 0 <= m < n < |rows| ensures db.seatRows[rows[m]].seat < db.seatRows[rows[n]].seat {
      assert rows[m] in rows && rows[n] in rows;
      DistinctSeats(db, rows[m], rows[n]);
    }
  }

  lemma SeatRowsBySeat(db: Store, r: Id)
    ensures var rows := SeatRowsOf(db, r);
            forall m, n :: 0 <= m < n < |rows| ==>
              rows[m] != rows[n] && rows[m] in db.seatRows && rows[n] in db.seatRows
              && db.seatRows[rows[m]].seat <= db.seatRows[rows[n]].seat
  {
  }

  // What a detail lists is exactly the rows of the reservation: items by ticket type and then id, seat rows by
  // seat and then id; in any store, consistent or not.
  lemma DetailRows(db: Store, r: Id)
    ensures var ids := ItemsOf(db, r);
            && (forall i :: i in ids <==> i in db.items && db.items[i].reservation == r)
            && (forall m, n :: 0 <= m < n < |ids| ==>
                  && ids[m] in db.items && ids[n] in db.items
                  && var a, b := db.items[ids[m]].ticketType, db.items[ids[n]].ticketType;
                  (a < b || (a == b && ids[m] < ids[n])))
    ensures var ids := SeatRowsOf(db, r);
            && (forall i :: i in ids <==> i in db.seatRows && db.seatRows[i].reservation == r)
            && (forall m, n :: 0 <= m < n < |ids| ==>
                  && ids[m] in db.seatRows && ids[n] in db.seatRows
                  && var a, b := db.seatRows[ids[m]].seat, db.seatRows[ids[n]].seat;
                  (a < b || (a == b && ids[m] < ids[n])))
  {
    var items := ItemColumn(db, r);
    var rows := map i | i in db.seatRows && db.seatRows[i].reservation == r :: db.seatRows[i].seat;
    assert ItemsOf(db, r) == Ordered(items) && SeatRowsOf(db, r) == Ordered(rows);
    hide Ordered, IsOrdered, Before;
    OrderedBy(items);
    OrderedBy(rows);
  }

  lemma RowsAgree(db: Store, r: Id)
    requires Linked(db) && r in db.reservations
    ensures forall i :: i in db.seatRows && db.seatRows[i].reservation == r ==>
              db.seatRows[i].status == db.reservations[r].status && db.reservations[r].kind.Seats?
  {
    assert forall i :: i in db.seatRows ==> LinkedRow(db, db.seatRows[i]);
  }

  lemma SeatsShown(db: Store, r: Id)
    requires Linked(db) && Shaped(db) && r in db.reservations
    ensures var details := SeatDetails(db, SeatRowsOf(db, r));
            && (db.reservations[r].kind.Quantity? ==> details == [])
            && |details| == |SeatsHeld(db, r)|
            && forall k :: 0 <= k < |details| ==>
                 details[k] == SeatDetail(Sorted(SeatsHeld(db, r))[k], db.reservations[r].status)
  {
    hide Linked, Shaped, SeatRowsOf, Sorted, SeatsHeld;
    var rows := SeatRowsOf(db, r);
    SeatRowsInOrder(db, r);
    SeatsAtSorted(db, rows, r);
    RowsAgree(db, r);
    forall k | 0 <= k < |rows|
      ensures db.seatRows[rows[k]].status == db.reservations[r].status && db.reservations[r].kind.Seats?
      ensures Sorted(SeatsHeld(db, r))[k] == db.seatRows[rows[k]].seat
    {
      assert rows[k] in rows;
      assert SeatsAt(db, rows)[k] == db.seatRows[rows[k]].seat;
    }
    SortedSize(SeatsHeld(db, r));
  }

  lemma SortedSize(seats: set<Id>)
    ensures |Sorted(seats)| == |seats|
  {
  }

  lemma DetailShows(db: Store, r: Id)
    requires Linked(db) && Shaped(db) && r in db.reservations
    ensures Shows(db, r, db.reservations[r].status, DetailOf(db, r))
  {
    ItemShown(db, r);
    SeatsShown(db, r);
    hide Linked, Shaped, ItemsOf, SeatRowsOf, SeatsHeld, Sorted, SeatDetails, ItemDetails;
  }

  // A call finds nothing exactly when the reservation does not exist or the caller is of another session and
  // not logged in as its user; a visitor without a user finds nothing but the reservations of the own session.
  lemma FoundByOwner(db: Store, r: Id, caller: Caller, target: Status, now: int)
    requires Inv(db) && (target.Cancelled? || target.Confirmed?)
    ensures Lifecycle(db, r, caller, target, now) == (db, Failed(NotFound))
       <==> r !in db.reservations
            || (db.reservations[r].session != caller.session
                && (caller.user.None? || db.reservations[r].user != caller.user))
  {
    hide Inv, TransitionReserved, DetailOf;
    if r in db.reservations && db.reservations[r].status.Reserved? {
      TransitionParents(db, r, Expired);
      TransitionParents(db, r, target);
    }
  }

  lemma LifecycleCases(db: Store, r: Id, caller: Caller, target: Status, now: int)
    requires Inv(db) && r in db.reservations && OwnedBy(db.reservations[r], caller)
    requires target.Cancelled? || target.Confirmed?
    ensures var (d, out) := Lifecycle(db, r, caller, target, now);
            var before := db.reservations[r];
            && (before.status == target ==> d == db && out == Replayed(DetailOf(db, r)))
            && (before.status != target && !before.status.Reserved? ==> d == db && out == Failed(TransitionConflict))
            && (before.status.Reserved? && before.expiresAt < now ==>
                  && out == Failed(TransitionConflict)
                  && d.reservations == db.reservations[r := before.(status := Expired)])
            && (before.status.Reserved? && before.expiresAt >= now ==>
                  && Inv(d) && d.reservations == db.reservations[r := before.(status := target)]
                  && out == Made(DetailOf(d, r)))
  {
    hide Inv, TransitionReserved, DetailOf;
    if db.reservations[r].status.Reserved? {
      TransitionParents(db, r, Expired);
      TransitionParents(db, r, target);
      GuardsNeverFail(db, r, target);
    }
  }

  // What an owned call does to its reservation, and answers: replay, conflict, late expiry or the transition.
  lemma LifecycleOutcome(db: Store, r: Id, caller: Caller, target: Status, now: int)
    requires Inv(db) && r in db.reservations && OwnedBy(db.reservations[r], caller)
    requires target.Cancelled? || target.Confirmed?
    ensures var (d, out) := Lifecycle(db, r, caller, target, now);
            var before := db.reservations[r];
            && (before.status == target ==> d == db && out.Replayed? && Shows(d, r, target, out.response))
            && (before.status != target && !before.status.Reserved? ==> d == db && out == Failed(TransitionConflict))
            && (before.status.Reserved? && before.expiresAt < now ==>
                  && out == Failed(TransitionConflict)
                  && d.reservations == db.reservations[r := before.(status := Expired)])
            && (before.status.Reserved? && before.expiresAt >= now ==>
                  && d.reservations == db.reservations[r := before.(status := target)]
                  && out.Made? && Shows(d, r, target, out.response))
  {
    LifecycleCases(db, r, caller, target, now);
    var d := Lifecycle(db, r, caller, target, now).0;
    assert r in d.reservations;
    hide Inv, Lifecycle, DetailOf, Shows, OwnedBy;
    if d.reservations[r].status == target {
      InvParts(d);
      DetailShows(d, r);
    }
  }

  // After any owned call the reservation is settled, whatever the answer.
  lemma LifecycleSettles(db: Store, r: Id, caller: Caller, target: Status, now: int)
    requires Inv(db) && r in db.reservations && OwnedBy(db.reservations[r], caller)
    requires target.Cancelled? || target.Confirmed?
    ensures var (d, out) := Lifecycle(db, r, caller, target, now);
            && r in d.reservations && !d.reservations[r].status.Reserved?
            && (out.Made? || out.Replayed? ==> d.reservations[r].status == target)
            && (out.Failed? ==> out.error.TransitionConflict?)
  {
    hide Inv, Lifecycle, DetailOf;
    LifecycleOutcome(db, r, caller, target, now);
  }

  lemma SettledStays(db: Store, r: Id, caller: Caller, target: Status, now: int)
    requires r in db.reservations && OwnedBy(db.reservations[r], caller) && !db.reservations[r].status.Reserved?
    ensures Lifecycle(db, r, caller, target, now)
         == (db, if db.reservations[r].status == target then Replayed(DetailOf(db, r)) else Failed(TransitionConflict))
  {
  }

  // Repeating a call, at any time and with either target, changes nothing more; repeating a
  // successful one gives the same answer.
  lemma LifecycleRepeats(db: Store, r: Id, caller: Caller, target: Status, now: int, target': Status, now': int)
    requires Inv(db) && r in db.reservations && OwnedBy(db.reservations[r], caller)
    requires target.Cancelled? || target.Confirmed?
    ensures var (d, out) := Lifecycle(db, r, caller, target, now);
            && Lifecycle(d, r, caller, target', now').0 == d
            && (out.Made? ==> Lifecycle(d, r, caller, target, now').1 == Replayed(out.response))
  {
    hide Inv, TransitionReserved, DetailOf, Lifecycle;
    LifecycleSettles(db, r, caller, target, now);
    LifecycleCases(db, r, caller, target, now);
    var (d, out) := Lifecycle(db, r, caller, target, now);
    SettledStays(d, r, caller, target', now');
    SettledStays(d, r, caller, target, now');
  }

  // ----- retries -----

  // A same-kind retry answers with the stored reservation, item and current status, and moves no stock.
  lemma QuantityRetry(db: Store, caller: Caller, event: Id, t: Id, quantity: int, key: string,
                      rid: Id, iid: Id, expiresAt: int, r: Id, i: Id)
    requires Linked(db) && Shaped(db) && UniqueKeys(db)
    requires Keyed(db, r, caller.session, key, Quantity)
    requires i in db.items && db.items[i].reservation == r
    ensures ReserveQuantity(db, caller, event, t, quantity, key, rid, iid, expiresAt)
         == (db, Replayed(QuantityResponse(r, db.reservations[r].status, db.reservations[r].expiresAt,
                                           db.items[i].ticketType, db.items[i].quantity)))
  {
    QuantityLookupFound(db, caller.session, key, r);
    var j :| j in db.items && db.items[j].reservation == r
             && QuantityLookup(db, caller.session, key)
                == Found(QuantityResponse(r, db.reservations[r].status, db.reservations[r].expiresAt,
                                          db.items[j].ticketType, db.items[j].quantity));
    assert i == j;
    hide Linked, Shaped, UniqueKeys, QuantityLookup, HasStock, KeyUsed;
  }

  lemma SeatsRetry(db: Store, caller: Caller, event: Id, seats: set<Id>, key: string,
                   rid: Id, rowIds: seq<Id>, now: int, expiresAt: int, r: Id)
    requires Linked(db) && Shaped(db) && UniqueKeys(db) && |rowIds| == |seats|
    requires Keyed(db, r, caller.session, key, Seats)
    ensures ReserveSeats(db, caller, event, seats, key, rid, rowIds, now, expiresAt)
         == (db, Replayed(SeatsResponse(r, db.reservations[r].status, db.reservations[r].expiresAt,
                                        Sorted(SeatsHeld(db, r)))))
  {
    SeatsLookupFound(db, caller.session, key, r);
    hide Linked, Shaped, UniqueKeys, SeatsLookup, FoundSeats, Settle, StaleHolders, KeyUsed, Blocked, NewRows, Sorted;
  }

  // A key held by the other kind creates nothing and ends in an error.
  lemma CrossKindRefused(db: Store, ttl: int, op: Op)
    requires Linked(db) && Shaped(db) && UniqueKeys(db)
    requires op.QuantityOp? || op.SeatsOp?
    requires op.SeatsOp? ==> |op.rowIds| == |op.seats|
    requires KeyHeld(db, op.caller.session, op.key, if op.QuantityOp? then Seats else Quantity)
    ensures Exec(db, ttl, op).0 == db && Exec(db, ttl, op).1.Failed?
  {
    hide ReserveQuantity, ReserveSeats, Linked, Shaped;
    var kind := if op.QuantityOp? then Seats else Quantity;
    assert forall q, k :: Keyed(db, q, op.caller.session, op.key, k) ==> k == kind;
    KeyUsedByKind(db, op.caller.session, op.key);
    if op.QuantityOp? {
      QuantityOutcome(db, op.caller, op.event, op.ticketType, op.quantity, op.key, op.rid, op.iid, op.now + ttl);
    } else {
      SeatsOutcome(db, op.caller, op.event, op.seats, op.key, op.rid, op.rowIds, op.now, op.now + ttl);
    }
  }
}
