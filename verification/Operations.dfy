/** The atomic operations: every request as one step from one committed store to the next. */
module Operations {
  import opened Tables
  import opened Ordering
  import opened Spec
  import opened Invariant
  import opened Transitions

  // `now` is the clock reading the operation acts on; ids are those the request generated.
  datatype Op =
    | QuantityOp(caller: Caller, event: Id, ticketType: Id, quantity: int, key: string, rid: Id, iid: Id, now: int)
    | SeatsOp(caller: Caller, event: Id, seats: set<Id>, key: string, rid: Id, rowIds: seq<Id>, now: int)
    | LifecycleOp(id: Id, caller: Caller, target: Status, now: int)
    | ExpireOp(rows: seq<Id>, now: int)

  ghost predicate Distinct(ids: seq<Id>) {
    forall m, n :: 0 <= m < n < |ids| ==> ids[m] != ids[n]
  }

  // What the request schema, fresh UUIDs and the row locks guarantee of an operation.
  ghost predicate GoodOp(db: Store, op: Op) {
    match op
    case QuantityOp(_, _, _, quantity, _, rid, iid, _) =>
      quantity > 0 && rid !in db.reservations && iid !in db.items
    case SeatsOp(_, _, seats, _, rid, rowIds, _) =>
      && seats != {} && rid !in db.reservations
      && |rowIds| == |seats| && Distinct(rowIds) && (forall i :: i in rowIds ==> i !in db.seatRows)
    case LifecycleOp(_, _, target, _) =>
      target.Cancelled? || target.Confirmed?
    case ExpireOp(rows, now) =>
      && Distinct(rows)
      && (forall r :: r in rows ==> r in db.reservations && StaleReservation(db.reservations[r], now))
  }

  // `ttl` is the configured lifetime of a hold.
  function Exec(db: Store, ttl: int, op: Op): (Store, Outcome)
    requires op.SeatsOp? ==> |op.rowIds| == |op.seats|
    requires op.ExpireOp? ==> forall r :: r in op.rows ==> r in db.reservations
  {
    match op
    case QuantityOp(caller, event, t, quantity, key, rid, iid, now) =>
      ReserveQuantity(db, caller, event, t, quantity, key, rid, iid, now + ttl)
    case SeatsOp(caller, event, seats, key, rid, rowIds, now) =>
      ReserveSeats(db, caller, event, seats, key, rid, rowIds, now, now + ttl)
    case LifecycleOp(id, caller, target, now) =>
      Lifecycle(db, id, caller, target, now)
    case ExpireOp(rows, _) =>
      var (d, count) := ExpireRows(db, rows);
      (d, Count(count))
  }

  // ----- the rows a seat hold inserts -----

  lemma {:induction false} NewRowsAt(rid: Id, seats: seq<Id>, ids: seq<Id>, expiresAt: int)
    requires |ids| <= |seats| && Distinct(ids)
    ensures forall k :: 0 <= k < |ids| ==>
              ids[k] in NewRows(rid, seats, ids, expiresAt)
              && NewRows(rid, seats, ids, expiresAt)[ids[k]] == SeatRow(rid, seats[k], Reserved, expiresAt)
    ensures forall i :: i in NewRows(rid, seats, ids, expiresAt) ==> i in ids
  {
    if ids != [] {
      var n := |ids| - 1;
      NewRowsAt(rid, seats, ids[..n], expiresAt);
      forall k | 0 <= k < |ids|
        ensures ids[k] in NewRows(rid, seats, ids, expiresAt)
             && NewRows(rid, seats, ids, expiresAt)[ids[k]] == SeatRow(rid, seats[k], Reserved, expiresAt)
      {
        if k < n {
          assert ids[..n][k] == ids[k];
        }
      }
    }
  }

  lemma NewRowsFresh(db: Store, rid: Id, parent: Reservation, seats: seq<Id>, ids: seq<Id>)
    requires parent.status.Reserved?
    requires |ids| == |seats| && Distinct(ids) && Distinct(seats)
    requires forall i :: i in ids ==> i !in db.seatRows
    requires forall s :: s in seats ==> s in db.seats && db.seats[s].event == parent.event && !Occupied(db, s)
    ensures FreshRows(db, rid, parent, NewRows(rid, seats, ids, parent.expiresAt))
    ensures seats != [] ==> NewRows(rid, seats, ids, parent.expiresAt).Keys != {}
  {
    var added := NewRows(rid, seats, ids, parent.expiresAt);
    NewRowsAt(rid, seats, ids, parent.expiresAt);
    forall i | i in added
      ensures exists k :: 0 <= k < |ids| && ids[k] == i && added[i] == SeatRow(rid, seats[k], Reserved, parent.expiresAt)
    {
      assert i in ids;
    }
    if seats != [] {
      assert ids[0] in added;
    }
  }

  // ----- every operation keeps the invariant -----

  lemma QuantityKeeps(db: Store, ttl: int, op: Op)
    requires Inv(db) && op.QuantityOp? && GoodOp(db, op)
    ensures Inv(Exec(db, ttl, op).0)
  {
    hide Linked, Shaped, UniqueKeys, Exclusive, Balanced, Rooted, QuantityLookup, KeyUsed;
    var parent := QuantityParent(op.caller, op.event, op.key, op.now + ttl);
    if Exec(db, ttl, op).1.Made? {
      WithQuantityInv(db, op.ticketType, op.rid, parent, op.iid, op.quantity);
    }
  }

  lemma StaleHoldersAreSeats(db: Store, seats: set<Id>, now: int)
    requires Linked(db)
    ensures forall r :: r in StaleHolders(db, seats, now) ==> r in db.reservations && db.reservations[r].kind.Seats?
  {
  }

  lemma FoundAll(db: Store, event: Id, seats: set<Id>)
    requires FoundSeats(db, event, seats) == Sorted(seats)
    ensures forall s :: s in seats ==> s in db.seats && db.seats[s].event == event
  {
  }

  lemma SortedNonEmpty(seats: set<Id>)
    requires seats != {}
    ensures Sorted(seats) != [] && Distinct(Sorted(seats))
  {
  }

  lemma SettleFrame(db: Store, holders: set<Id>, target: Status, session: Id, key: string)
    ensures var d := Settle(db, holders, target);
            && d.events == db.events && d.ticketTypes == db.ticketTypes && d.seats == db.seats && d.items == db.items
            && d.reservations.Keys == db.reservations.Keys
            && d.seatRows.Keys == db.seatRows.Keys
            && KeyUsed(d, session, key) == KeyUsed(db, session, key)
  {
  }

  lemma SeatsMadeKeeps(db: Store, caller: Caller, event: Id, seats: set<Id>, key: string,
                       rid: Id, rowIds: seq<Id>, now: int, expiresAt: int)
    requires Inv(db) && seats != {} && rid !in db.reservations
    requires |rowIds| == |seats| && Distinct(rowIds) && forall i :: i in rowIds ==> i !in db.seatRows
    requires FoundSeats(db, event, seats) == Sorted(seats) && !KeyUsed(db, caller.session, key)
    requires !Blocked(Settle(db, StaleHolders(db, seats, now), Expired), seats)
    ensures Inv(WithSeats(Settle(db, StaleHolders(db, seats, now), Expired), rid,
                          SeatsParent(caller, event, key, expiresAt),
                          NewRows(rid, Sorted(seats), rowIds, expiresAt)))
  {
    var d := Settle(db, StaleHolders(db, seats, now), Expired);
    var parent := SeatsParent(caller, event, key, expiresAt);
    assert parent.event == event && parent.session == caller.session && parent.key == key
        && parent.status.Reserved? && parent.kind.Seats? && parent.expiresAt == expiresAt;
    assert forall s :: s in seats ==> !Occupied(d, s);
    hide *;
    StaleHoldersAreSeats(db, seats, now);
    SettleInv(db, StaleHolders(db, seats, now), Expired);
    SettleFrame(db, StaleHolders(db, seats, now), Expired, caller.session, key);
    FoundAll(db, event, seats);
    SortedNonEmpty(seats);
    NewRowsFresh(d, rid, parent, Sorted(seats), rowIds);
    WithSeatsInv(d, rid, parent, NewRows(rid, Sorted(seats), rowIds, expiresAt));
  }

  lemma SeatsKeeps(db: Store, ttl: int, op: Op)
    requires Inv(db) && op.SeatsOp? && GoodOp(db, op)
    ensures Inv(Exec(db, ttl, op).0)
  {
    hide Inv, Settle, StaleHolders, FoundSeats, SeatsLookup, SeatsReplay, NewRows, Blocked, KeyUsed, Sorted;
    var d := Settle(db, StaleHolders(db, op.seats, op.now), Expired);
    if SeatsLookup(db, op.caller.session, op.key).Missing?
       && FoundSeats(db, op.event, op.seats) == Sorted(op.seats)
       && !KeyUsed(db, op.caller.session, op.key)
       && !Blocked(d, op.seats)
    {
      SeatsMadeKeeps(db, op.caller, op.event, op.seats, op.key, op.rid, op.rowIds, op.now, op.now + ttl);
    }
  }

  lemma LifecycleKeeps(db: Store, ttl: int, op: Op)
    requires Inv(db) && op.LifecycleOp? && GoodOp(db, op)
    ensures Inv(Exec(db, ttl, op).0)
  {
    hide Inv, TransitionReserved, DetailOf, Owns;
    if op.id in db.reservations {
      GuardsNeverFail(db, op.id, Expired);
      GuardsNeverFail(db, op.id, op.target);
    }
  }

  // A batch over reserved rows counts all of them and expires exactly them.
  lemma {:induction false} ExpireAll(db: Store, rows: seq<Id>)
    requires Inv(db) && Distinct(rows)
    requires forall r :: r in rows ==> r in db.reservations && db.reservations[r].status.Reserved?
    ensures Inv(ExpireRows(db, rows).0)
    ensures ExpireRows(db, rows).1 == |rows|
    ensures ExpireRows(db, rows).0.reservations.Keys == db.reservations.Keys
    ensures forall r :: r in db.reservations ==>
              ExpireRows(db, rows).0.reservations[r]
              == if r in rows then db.reservations[r].(status := Expired) else db.reservations[r]
    decreases |rows|
  {
    hide Linked, Shaped, UniqueKeys, Exclusive, Balanced, Rooted;
    if rows != [] {
      var n := |rows| - 1;
      assert forall r :: r in rows[..n] ==> r in rows;
      ExpireAll(db, rows[..n]);
      var d := ExpireRows(db, rows[..n]).0;
      assert rows[n] in rows && rows[n] !in rows[..n];
      TransitionParents(d, rows[n], Expired);
      GuardsNeverFail(d, rows[n], Expired);
      assert forall r :: r in rows <==> r in rows[..n] || r == rows[n];
    }
  }

  lemma ExecKeepsInv(db: Store, ttl: int, op: Op)
    requires Inv(db) && GoodOp(db, op)
    ensures Inv(Exec(db, ttl, op).0)
  {
    match op
    case QuantityOp(_, _, _, _, _, _, _, _) => QuantityKeeps(db, ttl, op);
    case SeatsOp(_, _, _, _, _, _, _) => SeatsKeeps(db, ttl, op);
    case LifecycleOp(_, _, _, _) => LifecycleKeeps(db, ttl, op);
    case ExpireOp(rows, _) => ExpireAll(db, rows);
  }
}
