/** The laws that tie the tables together, and their preservation by every change the engine commits. */
module Invariant {
  import opened Tables
  import opened Spec
  import opened Totals

  ghost predicate LinkedItem(db: Store, item: Item) {
    && item.quantity > 0
    && item.reservation in db.reservations
    && item.ticketType in db.ticketTypes
    && var parent := db.reservations[item.reservation];
    && parent.kind.Quantity?
    && parent.status == item.status
    && parent.event == db.ticketTypes[item.ticketType].event
  }

  ghost predicate LinkedRow(db: Store, row: SeatRow) {
    && row.reservation in db.reservations
    && row.seat in db.seats
    && var parent := db.reservations[row.reservation];
    && parent.kind.Seats?
    && parent.status == row.status
    && parent.expiresAt == row.expiresAt
    && parent.event == db.seats[row.seat].event
  }

  // Parent/child agreement: status, deadline and event of every child are those of its parent.
  ghost predicate Linked(db: Store) {
    && (forall i :: i in db.items ==> LinkedItem(db, db.items[i]))
    && (forall i :: i in db.seatRows ==> LinkedRow(db, db.seatRows[i]))
  }

  ghost predicate HasItem(db: Store, r: Id) {
    exists i :: i in db.items && db.items[i].reservation == r
  }

  ghost predicate HasSeat(db: Store, r: Id) {
    exists i :: i in db.seatRows && db.seatRows[i].reservation == r
  }

  // A quantity reservation has exactly one item, a seat reservation one or more rows on distinct seats.
  ghost predicate Shaped(db: Store) {
    && (forall r :: r in db.reservations ==>
          if db.reservations[r].kind.Quantity? then HasItem(db, r) else HasSeat(db, r))
    && (forall i, j :: i in db.items && j in db.items && db.items[i].reservation == db.items[j].reservation ==> i == j)
    && (forall i, j | i in db.seatRows && j in db.seatRows && db.seatRows[i].reservation == db.seatRows[j].reservation
                      && db.seatRows[i].seat == db.seatRows[j].seat :: i == j)
  }

  ghost predicate UniqueKeys(db: Store) {
    forall r, q | r in db.reservations && q in db.reservations
                  && db.reservations[r].session == db.reservations[q].session
                  && db.reservations[r].key == db.reservations[q].key :: r == q
  }

  // At most one active row per seat.
  ghost predicate Exclusive(db: Store) {
    forall i, j | i in db.seatRows && j in db.seatRows && db.seatRows[i].status.Active()
                  && db.seatRows[j].status.Active() && db.seatRows[i].seat == db.seatRows[j].seat :: i == j
  }

  ghost predicate BalancedType(db: Store, t: Id)
    requires t in db.ticketTypes
  {
    && db.ticketTypes[t].reserved == Total(db.items, t, Reserved)
    && db.ticketTypes[t].sold == Total(db.items, t, Confirmed)
    && db.ticketTypes[t].sold + db.ticketTypes[t].reserved <= db.ticketTypes[t].total
  }

  // Conservation: the counters are the sums over the items, and never exceed the total.
  ghost predicate Balanced(db: Store) {
    forall t :: t in db.ticketTypes ==> BalancedType(db, t)
  }

  // Every ticket type, seat and reservation names an existing event.
  ghost predicate Rooted(db: Store) {
    && (forall t :: t in db.ticketTypes ==> db.ticketTypes[t].event in db.events)
    && (forall s :: s in db.seats ==> db.seats[s].event in db.events)
    && (forall r :: r in db.reservations ==> db.reservations[r].event in db.events)
  }

  ghost predicate Inv(db: Store) {
    Linked(db) && Shaped(db) && UniqueKeys(db) && Exclusive(db) && Balanced(db) && Rooted(db)
  }

  lemma InvParts(db: Store)
    requires Inv(db)
    ensures Linked(db) && Shaped(db) && UniqueKeys(db) && Exclusive(db) && Balanced(db) && Rooted(db)
  {
  }

  // Events, ticket types and seats as created, before the first reservation.
  ghost predicate Fresh(db: Store) {
    && db.reservations == map[] && db.items == map[] && db.seatRows == map[]
    && Rooted(db)
    && (forall t :: t in db.ticketTypes ==>
          db.ticketTypes[t].sold == 0 && db.ticketTypes[t].reserved == 0 && db.ticketTypes[t].total >= 0)
  }

  lemma FreshInv(db: Store)
    requires Fresh(db)
    ensures Inv(db)
  {
  }

  // The CHECK constraints on the counters follow; the code's guards alone keep them.
  lemma CountersWithinBounds(db: Store, t: Id)
    requires Inv(db) && t in db.ticketTypes
    ensures 0 <= db.ticketTypes[t].sold && 0 <= db.ticketTypes[t].reserved
    ensures db.ticketTypes[t].sold + db.ticketTypes[t].reserved <= db.ticketTypes[t].total
  {
    assert forall i :: i in db.items ==> LinkedItem(db, db.items[i]);
    TotalNonNegative(db.items, t, Reserved);
    TotalNonNegative(db.items, t, Confirmed);
    assert BalancedType(db, t);
  }

  // ----- a quantity hold is inserted -----

  function WithQuantity(db: Store, t: Id, rid: Id, parent: Reservation, iid: Id, quantity: int): Store
    requires t in db.ticketTypes
  {
    db.(ticketTypes := db.ticketTypes[t := Hold(db.ticketTypes[t], quantity)],
        reservations := db.reservations[rid := parent],
        items := db.items[iid := Item(rid, t, quantity, Reserved)])
  }

  lemma WithQuantityBalanced(db: Store, t: Id, rid: Id, parent: Reservation, iid: Id, quantity: int)
    requires Balanced(db) && HasStock(db, parent.event, t, quantity)
    requires iid !in db.items
    ensures Balanced(WithQuantity(db, t, rid, parent, iid, quantity))
  {
    var d := WithQuantity(db, t, rid, parent, iid, quantity);
    forall u | u in d.ticketTypes ensures BalancedType(d, u) {
      assert BalancedType(db, u);
      TotalPut(db.items, iid, Item(rid, t, quantity, Reserved), u, Reserved);
      TotalPut(db.items, iid, Item(rid, t, quantity, Reserved), u, Confirmed);
    }
  }

  lemma WithQuantityShaped(db: Store, t: Id, rid: Id, parent: Reservation, iid: Id, quantity: int)
    requires Linked(db) && Shaped(db) && t in db.ticketTypes
    requires rid !in db.reservations && iid !in db.items && parent.kind.Quantity?
    ensures Shaped(WithQuantity(db, t, rid, parent, iid, quantity))
  {
    var d := WithQuantity(db, t, rid, parent, iid, quantity);
    forall r | r in d.reservations
      ensures if d.reservations[r].kind.Quantity? then HasItem(d, r) else HasSeat(d, r)
    {
      if r == rid {
        assert d.items[iid].reservation == rid;
      } else if d.reservations[r].kind.Quantity? {
        assert HasItem(db, r);
        var i :| i in db.items && db.items[i].reservation == r;
        assert d.items[i].reservation == r;
      } else {
        assert HasSeat(db, r);
      }
    }
    assert forall i :: i in db.items ==> LinkedItem(db, db.items[i]);
  }

  lemma WithQuantityLinked(db: Store, t: Id, rid: Id, parent: Reservation, iid: Id, quantity: int)
    requires Linked(db) && HasStock(db, parent.event, t, quantity) && quantity > 0
    requires rid !in db.reservations && parent.kind.Quantity? && parent.status.Reserved?
    ensures Linked(WithQuantity(db, t, rid, parent, iid, quantity))
  {
  }

  lemma ParentAddedUnique(db: Store, rid: Id, parent: Reservation, d: Store)
    requires UniqueKeys(db) && !KeyUsed(db, parent.session, parent.key)
    requires d.reservations == db.reservations[rid := parent]
    ensures UniqueKeys(d)
  {
  }

  lemma WithQuantityRooted(db: Store, t: Id, rid: Id, parent: Reservation, iid: Id, quantity: int)
    requires Exclusive(db) && Rooted(db) && HasStock(db, parent.event, t, quantity)
    ensures Exclusive(WithQuantity(db, t, rid, parent, iid, quantity))
    ensures Rooted(WithQuantity(db, t, rid, parent, iid, quantity))
  {
  }

  lemma WithQuantityInv(db: Store, t: Id, rid: Id, parent: Reservation, iid: Id, quantity: int)
    requires Inv(db) && HasStock(db, parent.event, t, quantity) && quantity > 0
    requires rid !in db.reservations && iid !in db.items && parent.kind.Quantity? && parent.status.Reserved?
    requires !KeyUsed(db, parent.session, parent.key)
    ensures Inv(WithQuantity(db, t, rid, parent, iid, quantity))
  {
    hide Linked, Shaped, UniqueKeys, Exclusive, Balanced, Rooted, KeyUsed;
    WithQuantityLinked(db, t, rid, parent, iid, quantity);
    WithQuantityShaped(db, t, rid, parent, iid, quantity);
    WithQuantityBalanced(db, t, rid, parent, iid, quantity);
    ParentAddedUnique(db, rid, parent, WithQuantity(db, t, rid, parent, iid, quantity));
    WithQuantityRooted(db, t, rid, parent, iid, quantity);
  }

  // ----- reserved seat rows change status with their parents -----

  lemma SettleLinked(db: Store, holders: set<Id>, target: Status)
    requires Linked(db)
    requires forall r :: r in holders ==> r in db.reservations && db.reservations[r].kind.Seats?
    ensures Linked(Settle(db, holders, target))
  {
  }

  lemma SettleShaped(db: Store, holders: set<Id>, target: Status)
    requires Shaped(db)
    ensures Shaped(Settle(db, holders, target))
  {
    var d := Settle(db, holders, target);
    forall r | r in d.reservations
      ensures if d.reservations[r].kind.Quantity? then HasItem(d, r) else HasSeat(d, r)
    {
      if d.reservations[r].kind.Quantity? {
        assert HasItem(db, r);
      } else {
        assert HasSeat(db, r);
        var i :| i in db.seatRows && db.seatRows[i].reservation == r;
        assert d.seatRows[i].reservation == r;
      }
    }
  }

  lemma BalancedUntouched(db: Store, d: Store)
    requires Balanced(db) && d.ticketTypes == db.ticketTypes && d.items == db.items
    ensures Balanced(d)
  {
  }

  lemma SettleExclusive(db: Store, holders: set<Id>, target: Status)
    requires Exclusive(db)
    ensures Exclusive(Settle(db, holders, target))
  {
  }

  lemma SettleUnique(db: Store, holders: set<Id>, target: Status)
    requires UniqueKeys(db) && Rooted(db)
    ensures UniqueKeys(Settle(db, holders, target)) && Rooted(Settle(db, holders, target))
  {
  }

  lemma SettleInv(db: Store, holders: set<Id>, target: Status)
    requires Inv(db)
    requires forall r :: r in holders ==> r in db.reservations && db.reservations[r].kind.Seats?
    ensures Inv(Settle(db, holders, target))
  {
    SettleLinked(db, holders, target);
    SettleShaped(db, holders, target);
    SettleExclusive(db, holders, target);
    SettleUnique(db, holders, target);
    BalancedUntouched(db, Settle(db, holders, target));
  }

  // ----- a seat hold is inserted -----

  // The rows of `added` are all new and hold distinct, unoccupied seats of the parent's event.
  ghost predicate FreshRows(db: Store, rid: Id, parent: Reservation, added: map<Id, SeatRow>) {
    && added.Keys !! db.seatRows.Keys
    && (forall i :: i in added ==>
          && added[i].reservation == rid && added[i].status == parent.status && added[i].expiresAt == parent.expiresAt
          && added[i].seat in db.seats && db.seats[added[i].seat].event == parent.event
          && !Occupied(db, added[i].seat))
    && (forall i, j :: i in added && j in added && added[i].seat == added[j].seat ==> i == j)
  }

  function WithSeats(db: Store, rid: Id, parent: Reservation, added: map<Id, SeatRow>): Store {
    db.(reservations := db.reservations[rid := parent], seatRows := db.seatRows + added)
  }

  lemma WithSeatsLinked(db: Store, rid: Id, parent: Reservation, added: map<Id, SeatRow>)
    requires Linked(db) && FreshRows(db, rid, parent, added)
    requires rid !in db.reservations && parent.kind.Seats?
    ensures Linked(WithSeats(db, rid, parent, added))
  {
  }

  lemma WithSeatsShaped(db: Store, rid: Id, parent: Reservation, added: map<Id, SeatRow>)
    requires Linked(db) && Shaped(db) && FreshRows(db, rid, parent, added)
    requires rid !in db.reservations && parent.kind.Seats? && added.Keys != {}
    ensures Shaped(WithSeats(db, rid, parent, added))
  {
  }

  lemma WithSeatsExclusive(db: Store, rid: Id, parent: Reservation, added: map<Id, SeatRow>)
    requires Exclusive(db) && FreshRows(db, rid, parent, added)
    ensures Exclusive(WithSeats(db, rid, parent, added))
  {
  }

  lemma WithSeatsRooted(db: Store, rid: Id, parent: Reservation, added: map<Id, SeatRow>)
    requires Rooted(db) && FreshRows(db, rid, parent, added) && added.Keys != {}
    ensures Rooted(WithSeats(db, rid, parent, added))
  {
  }

  lemma WithSeatsInv(db: Store, rid: Id, parent: Reservation, added: map<Id, SeatRow>)
    requires Inv(db) && FreshRows(db, rid, parent, added)
    requires rid !in db.reservations && parent.kind.Seats? && added.Keys != {}
    requires !KeyUsed(db, parent.session, parent.key)
    ensures Inv(WithSeats(db, rid, parent, added))
  {
    var d := WithSeats(db, rid, parent, added);
    WithSeatsLinked(db, rid, parent, added);
    WithSeatsShaped(db, rid, parent, added);
    WithSeatsExclusive(db, rid, parent, added);
    BalancedUntouched(db, d);
    ParentAddedUnique(db, rid, parent, d);
    WithSeatsRooted(db, rid, parent, added);
  }

  // ----- a quantity hold is settled -----

  function Moved(db: Store, r: Id, x: Id, target: Status): Store
    requires r in db.reservations && x in db.items && db.items[x].ticketType in db.ticketTypes
  {
    var item := db.items[x];
    db.(ticketTypes := db.ticketTypes[item.ticketType := Move(db.ticketTypes[item.ticketType], item.quantity, target)],
        items := db.items[x := item.(status := target)],
        reservations := db.reservations[r := db.reservations[r].(status := target)])
  }

  // The item of a reserved quantity reservation; conservation makes both guards pass.
  ghost predicate SoleItem(db: Store, r: Id, x: Id) {
    && r in db.reservations && db.reservations[r].kind.Quantity? && db.reservations[r].status.Reserved?
    && x in db.items && db.items[x].reservation == r && db.items[x].status.Reserved?
    && db.items[x].ticketType in db.ticketTypes
  }

  lemma MovedBalanced(db: Store, r: Id, x: Id, target: Status)
    requires Balanced(db) && SoleItem(db, r, x) && !target.Reserved?
    requires db.items[x].quantity > 0
    ensures Balanced(Moved(db, r, x, target))
  {
    var d := Moved(db, r, x, target);
    var item := db.items[x];
    forall t | t in d.ticketTypes ensures BalancedType(d, t) {
      assert BalancedType(db, t);
      TotalPut(db.items, x, item.(status := target), t, Reserved);
      TotalPut(db.items, x, item.(status := target), t, Confirmed);
    }
  }

  lemma MovedShaped(db: Store, r: Id, x: Id, target: Status)
    requires Shaped(db) && SoleItem(db, r, x)
    ensures Shaped(Moved(db, r, x, target))
  {
    var d := Moved(db, r, x, target);
    forall q | q in d.reservations
      ensures if d.reservations[q].kind.Quantity? then HasItem(d, q) else HasSeat(d, q)
    {
      if d.reservations[q].kind.Quantity? {
        assert HasItem(db, q);
        var i :| i in db.items && db.items[i].reservation == q;
        assert d.items[i].reservation == q;
      } else {
        assert HasSeat(db, q);
      }
    }
  }

  lemma MovedLinked(db: Store, r: Id, x: Id, target: Status)
    requires Linked(db) && Shaped(db) && SoleItem(db, r, x)
    ensures Linked(Moved(db, r, x, target))
  {
    var d := Moved(db, r, x, target);
    forall i | i in d.items ensures LinkedItem(d, d.items[i]) {
      assert LinkedItem(db, db.items[i]);
    }
    forall i | i in d.seatRows ensures LinkedRow(d, d.seatRows[i]) {
      assert LinkedRow(db, db.seatRows[i]);
    }
  }

  lemma MovedUnique(db: Store, r: Id, x: Id, target: Status)
    requires UniqueKeys(db) && Rooted(db) && Exclusive(db) && SoleItem(db, r, x)
    ensures UniqueKeys(Moved(db, r, x, target)) && Rooted(Moved(db, r, x, target))
    ensures Exclusive(Moved(db, r, x, target))
  {
  }

  lemma MovedInv(db: Store, r: Id, x: Id, target: Status)
    requires Inv(db) && SoleItem(db, r, x) && !target.Reserved?
    ensures Inv(Moved(db, r, x, target))
  {
    assert LinkedItem(db, db.items[x]);
    MovedLinked(db, r, x, target);
    MovedShaped(db, r, x, target);
    MovedUnique(db, r, x, target);
    MovedBalanced(db, r, x, target);
  }
}
