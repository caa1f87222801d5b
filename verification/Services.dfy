/** The reservation services, statement by statement over a session, each proved equal to the
    corresponding function on stores. */
module Services {
  import opened Tables
  import opened Ordering
  import opened Spec
  import opened Operations
  import opened Persistence

  // ----- quantity reservations -----

  class QuantityReservationService {
    const session: Session
    const ttl: int

    constructor (session: Session, ttl: int)
      ensures this.session == session && this.ttl == ttl
    {
      this.session, this.ttl := session, ttl;
    }

    // `now` is the clock reading, `rid` and `iid` the generated ids.
    method Reserve(caller: Caller, event: Id, t: Id, quantity: int, key: string, now: int, rid: Id, iid: Id)
      returns (outcome: Outcome)
      requires session.View() == session.committed
      modifies session
      ensures (session.View(), outcome)
           == ReserveQuantity(old(session.View()), caller, event, t, quantity, key, rid, iid, now + ttl)
      ensures session.committed == session.View()
      ensures !outcome.Made? ==> session.committed == old(session.committed)
    {
      hide QuantityLookup;
      var existing := QuantityLookup(session.View(), caller.session, key);
      if existing.Found? {
        return Replayed(existing.response);
      } else if existing.Ambiguous? {
        return Failed(MultipleRows);
      }
      var stockReserved := session.ReserveTicketQuantity(event, t, quantity);
      if !stockReserved {
        outcome := ResolveConflictOrReplay(caller.session, key);
        return;
      }
      var expiresAt := now + ttl;
      var inserted := session.AddReservation(
        rid, Reservation(event, caller.session, caller.user, Reserved, Quantity, key, expiresAt));
      if !inserted {
        outcome := ResolveConflictOrReplay(caller.session, key);
        return;
      }
      session.AddReservationItem(iid, Item(rid, t, quantity, Reserved));
      session.Commit();
      return Made(QuantityResponse(rid, Reserved, expiresAt, t, quantity));
    }

    method ResolveConflictOrReplay(visitor: Id, key: string) returns (outcome: Outcome)
      modifies session
      ensures session.View() == session.committed == old(session.committed)
      ensures outcome == QuantityReplay(old(session.committed), visitor, key)
    {
      hide QuantityLookup;
      session.Rollback();
      var existing := QuantityLookup(session.View(), visitor, key);
      if existing.Found? {
        return Replayed(existing.response);
      } else if existing.Ambiguous? {
        return Failed(MultipleRows);
      }
      session.Rollback();
      return Failed(StockConflict);
    }
  }

  // ----- seat reservations -----

  class SeatReservationService {
    const session: Session
    const ttl: int

    constructor (session: Session, ttl: int)
      ensures this.session == session && this.ttl == ttl
    {
      this.session, this.ttl := session, ttl;
    }

    method Reserve(caller: Caller, event: Id, seatIds: set<Id>, key: string, now: int, rid: Id, rowIds: seq<Id>)
      returns (outcome: Outcome)
      requires session.View() == session.committed
      requires |rowIds| == |seatIds| && Distinct(rowIds) && forall i :: i in rowIds ==> i !in session.seatRows
      modifies session
      ensures (session.View(), outcome)
           == ReserveSeats(old(session.View()), caller, event, seatIds, key, rid, rowIds, now, now + ttl)
      ensures session.committed == session.View()
      ensures !outcome.Made? ==> session.committed == old(session.committed)
    {
      hide SeatsLookup, FoundSeats, Sorted, StaleHolders, SettledRows, SettledParents, NewRows, Occupied, Blocked;
      ghost var before := session.View();
      var existing := SeatsLookup(session.View(), caller.session, key);
      if existing.Found? {
        return Replayed(existing.response);
      }
      var ordered := Sorted(seatIds);
      var locked := FoundSeats(session.View(), event, seatIds);
      if locked != ordered {
        session.Rollback();
        return Failed(SeatsNotFound);
      }
      session.ExpireReservationsForSeats(seatIds, now);
      ghost var settled := session.View();
      SettlingKeeps(before, StaleHolders(before, seatIds, now), caller.session, key);
      var expiresAt := now + ttl;
      var inserted := session.AddReservation(
        rid, Reservation(event, caller.session, caller.user, Reserved, Seats, key, expiresAt));
      if !inserted {
        outcome := ResolveConflictOrReplay(caller.session, key);
        return;
      }
      SortedDistinct(seatIds);
      BlockedIff(settled, session.View(), seatIds);
      inserted := session.AddReservationSeats(rid, ordered, rowIds, expiresAt);
      if !inserted {
        outcome := ResolveConflictOrReplay(caller.session, key);
        return;
      }
      session.Commit();
      return Made(SeatsResponse(rid, Reserved, expiresAt, ordered));
    }

    method ResolveConflictOrReplay(visitor: Id, key: string) returns (outcome: Outcome)
      modifies session
      ensures session.View() == session.committed == old(session.committed)
      ensures outcome == SeatsReplay(old(session.committed), visitor, key)
    {
      hide SeatsLookup;
      session.Rollback();
      var existing := SeatsLookup(session.View(), visitor, key);
      if existing.Found? {
        return Replayed(existing.response);
      }
      session.Rollback();
      return Failed(SeatConflict);
    }
  }

  lemma SettlingKeeps(db: Store, holders: set<Id>, visitor: Id, key: string)
    ensures KeyUsed(Settle(db, holders, Expired), visitor, key) == KeyUsed(db, visitor, key)
    ensures Settle(db, holders, Expired).seatRows.Keys == db.seatRows.Keys
  {
  }

  lemma SortedDistinct(ids: set<Id>)
    ensures Distinct(Sorted(ids)) && |Sorted(ids)| == |ids|
  {
  }

  lemma BlockedIff(settled: Store, view: Store, seatIds: set<Id>)
    requires view.seatRows == settled.seatRows
    ensures Blocked(settled, seatIds) <==> exists k :: 0 <= k < |seatIds| && Occupied(view, Sorted(seatIds)[k])
  {
    assert forall s :: Occupied(settled, s) == Occupied(view, s);
    hide Occupied, IsOrdered;
    var ordered := Sorted(seatIds);
    if Blocked(settled, seatIds) {
      var s :| s in seatIds && Occupied(settled, s);
      assert s in ordered;
      var k :| 0 <= k < |ordered| && ordered[k] == s;
      assert Occupied(view, ordered[k]);
    }
    if k :| 0 <= k < |seatIds| && Occupied(view, ordered[k]) {
      assert ordered[k] in ordered;
    }
  }

  // ----- cancel, confirm, expire -----

  class ReservationLifecycleService {
    const session: Session

    constructor (session: Session)
      ensures this.session == session
    {
      this.session := session;
    }

    method TransitionQuantity(r: Id, target: Status) returns (ok: bool)
      modifies session`ticketTypes, session`items
      ensures ok == Spec.TransitionQuantity(old(session.View()), r, target).Some?
      ensures ok ==> session.View() == Spec.TransitionQuantity(old(session.View()), r, target).value
    {
      hide Ordered, ItemColumn, IsOrdered;
      var ids := ItemsOf(session.View(), r);
      if ids == [] {
        return false;
      }
      ghost var before := session.View();
      var n := 0;
      while n < |ids|
        invariant 0 <= n <= |ids|
        invariant forall i :: i in ids ==> i in before.items && i in session.items
        invariant TransitionItems(before, ids, target) == TransitionItems(session.View(), ids[n..], target)
      {
        assert ids[n] in ids && ids[n..][1..] == ids[n + 1..];
        var item := session.items[ids[n]];
        if !item.status.Reserved? {
          return false;
        }
        var updated;
        if target.Confirmed? {
          updated := session.ConfirmReservedQuantity(item.ticketType, item.quantity);
        } else {
          updated := session.ReleaseReservedQuantity(item.ticketType, item.quantity);
        }
        if !updated {
          return false;
        }
        session.SetItemStatus(ids[n], target);
        n := n + 1;
      }
      return true;
    }

    method TransitionSeats(r: Id, target: Status) returns (ok: bool)
      modifies session`seatRows
      ensures ok == Spec.TransitionSeats(old(session.View()), r, target).Some?
      ensures ok ==> session.View() == Spec.TransitionSeats(old(session.View()), r, target).value
    {
      hide SeatRowsOf, SettledRows, RowsReserved, Distinct;
      var ids := SeatRowsOf(session.View(), r);
      if ids == [] {
        NoneReserved(session.View(), r);
        return false;
      }
      ghost var before := session.View();
      SeatRowsDistinct(before, r);
      var n := 0;
      while n < |ids|
        invariant 0 <= n <= |ids|
        invariant session.seatRows.Keys == before.seatRows.Keys
        invariant forall i :: i in before.seatRows ==>
                    session.seatRows[i] == if i in ids[..n] then before.seatRows[i].(status := target) else before.seatRows[i]
        invariant forall i :: i in ids[..n] ==> before.seatRows[i].status.Reserved?
      {
        NotYet(ids, n);
        if !session.seatRows[ids[n]].status.Reserved? {
          OneUnreserved(before, r, ids[n]);
          return false;
        }
        session.SetSeatRowStatus(ids[n], target);
        n := n + 1;
      }
      assert ids[..n] == ids;
      AllSettled(before, r, target, session.seatRows);
      return true;
    }

    // Raises the inventory conflict when `ok` is false; the caller rolls back.
    method TransitionReserved(r: Id, target: Status) returns (ok: bool)
      requires r in session.reservations
      modifies session`ticketTypes, session`items, session`seatRows, session`reservations
      ensures ok == Spec.TransitionReserved(old(session.View()), r, target).Some?
      ensures ok ==> session.View() == Spec.TransitionReserved(old(session.View()), r, target).value
    {
      hide ItemsOf, SettledRows, RowsReserved;
      var reservation := session.reservations[r];
      if !reservation.status.Reserved? {
        return true;
      }
      TransitionFrame(session.View(), r, target);
      if reservation.kind.Quantity? {
        ok := TransitionQuantity(r, target);
      } else {
        ok := TransitionSeats(r, target);
      }
      if ok {
        session.SetReservationStatus(r, target);
      }
    }

    // The owned row, locked; `None` after a rollback.
    method LockOwned(r: Id, caller: Caller) returns (reservation: Option<Reservation>)
      requires session.View() == session.committed
      modifies session
      ensures session.View() == session.committed == old(session.committed)
      ensures reservation.Some? <==>
                && r in session.reservations
                && (session.reservations[r].session == caller.session
                    || (caller.user.Some? && session.reservations[r].user == caller.user))
      ensures reservation.Some? ==> reservation.value == session.reservations[r]
    {
      if r in session.reservations && Owns(session.reservations[r], caller) {
        return Some(session.reservations[r]);
      }
      session.Rollback();
      return None;
    }

    method Cancel(r: Id, caller: Caller, now: int) returns (outcome: Outcome)
      requires session.View() == session.committed
      modifies session
      ensures (session.View(), outcome) == Lifecycle(old(session.View()), r, caller, Cancelled, now)
      ensures session.committed == session.View()
    {
      hide Spec.TransitionReserved, DetailOf;
      var reservation := LockOwned(r, caller);
      if reservation.None? {
        return Failed(NotFound);
      }
      if reservation.value.status == Cancelled {
        outcome := Replayed(DetailOf(session.View(), r));
        session.Rollback();
        return;
      }
      if reservation.value.status in {Confirmed, Expired} {
        session.Rollback();
        return Failed(TransitionConflict);
      }
      TransitionFrame(session.View(), r, Expired);
      TransitionFrame(session.View(), r, Cancelled);
      if reservation.value.expiresAt < now {
        var ok := TransitionReserved(r, Expired);
        if !ok {
          session.Rollback();
          return Failed(InventoryConflict);
        }
        session.Commit();
        return Failed(TransitionConflict);
      }
      var ok := TransitionReserved(r, Cancelled);
      if !ok {
        session.Rollback();
        return Failed(InventoryConflict);
      }
      outcome := Made(DetailOf(session.View(), r));
      session.Commit();
    }

    method Confirm(r: Id, caller: Caller, now: int) returns (outcome: Outcome)
      requires session.View() == session.committed
      modifies session
      ensures (session.View(), outcome) == Lifecycle(old(session.View()), r, caller, Confirmed, now)
      ensures session.committed == session.View()
    {
      hide Spec.TransitionReserved, DetailOf;
      var reservation := LockOwned(r, caller);
      if reservation.None? {
        return Failed(NotFound);
      }
      if reservation.value.status == Confirmed {
        outcome := Replayed(DetailOf(session.View(), r));
        session.Rollback();
        return;
      }
      if reservation.value.status in {Cancelled, Expired} {
        session.Rollback();
        return Failed(TransitionConflict);
      }
      TransitionFrame(session.View(), r, Expired);
      TransitionFrame(session.View(), r, Confirmed);
      if reservation.value.expiresAt < now {
        var ok := TransitionReserved(r, Expired);
        if !ok {
          session.Rollback();
          return Failed(InventoryConflict);
        }
        session.Commit();
        return Failed(TransitionConflict);
      }
      var ok := TransitionReserved(r, Confirmed);
      if !ok {
        session.Rollback();
        return Failed(InventoryConflict);
      }
      outcome := Made(DetailOf(session.View(), r));
      session.Commit();
    }

    // From any store, consistent or not, a batch is the fold of all-or-nothing transitions over the picked rows.
    method ExpireBatch(size: nat, clock: int, at: Option<int>, only: Option<set<Id>>) returns (processed: nat)
      requires session.View() == session.committed
      modifies session
      ensures var now := if at.Some? then at.value else clock;
              BatchPicks(old(session.View()), size, now, only)
              && (session.View(), processed) == ExpireRows(old(session.View()), StaleBatch(old(session.View()), size, now, only))
      ensures session.committed == session.View()
    {
      hide Spec.TransitionReserved, StaleBatch, ExpireRows;
      var effectiveNow := if at.Some? then at.value else clock;
      var rows := StaleBatch(session.View(), size, effectiveNow, only);
      PickedExist(session.View(), size, effectiveNow, only);
      NothingExpired(session.View());
      if rows == [] {
        session.Rollback();
        return 0;
      }
      ghost var before := session.View();
      assert rows[..0] == [];
      processed := 0;
      var n := 0;
      while n < |rows|
        invariant 0 <= n <= |rows|
        invariant session.reservations.Keys == before.reservations.Keys
        invariant ExpireRows(before, rows[..n]) == (session.View(), processed)
        invariant session.committed == before
      {
        BatchGrows(before, rows, n);
        var savepoint := session.View();
        TransitionFrame(savepoint, rows[n], Expired);
        var ok := TransitionReserved(rows[n], Expired);
        if ok {
          processed := processed + 1;
        } else {
          session.RollbackTo(savepoint);
        }
        n := n + 1;
      }
      assert rows[..n] == rows;
      session.Commit();
    }
  }

  lemma NotYet(ids: seq<Id>, n: nat)
    requires n < |ids| && Distinct(ids)
    ensures ids[n] in ids && ids[n] !in ids[..n] && ids[..n + 1] == ids[..n] + [ids[n]]
  {
  }

  lemma SeatRowsDistinct(db: Store, r: Id)
    ensures Distinct(SeatRowsOf(db, r))
  {
  }

  lemma NoneReserved(db: Store, r: Id)
    requires SeatRowsOf(db, r) == []
    ensures !RowsReserved(db, r)
  {
  }

  lemma OneUnreserved(db: Store, r: Id, i: Id)
    requires i in db.seatRows && db.seatRows[i].reservation == r && !db.seatRows[i].status.Reserved?
    ensures !RowsReserved(db, r)
  {
  }

  lemma AllSettled(db: Store, r: Id, target: Status, rows: map<Id, SeatRow>)
    requires SeatRowsOf(db, r) != [] && rows.Keys == db.seatRows.Keys
    requires forall i :: i in SeatRowsOf(db, r) ==> db.seatRows[i].status.Reserved?
    requires forall i :: i in db.seatRows ==>
               rows[i] == if i in SeatRowsOf(db, r) then db.seatRows[i].(status := target) else db.seatRows[i]
    ensures RowsReserved(db, r) && rows == db.seatRows + SettledRows(db, {r}, target)
  {
    hide SeatRowsOf;
    var i := SeatRowsOf(db, r)[0];
    assert i in SeatRowsOf(db, r);
    assert db.seatRows[i].reservation == r;
  }

  lemma NothingExpired(db: Store)
    ensures ExpireRows(db, []) == (db, 0)
  {
  }

  lemma BatchGrows(db: Store, rows: seq<Id>, n: nat)
    requires n < |rows| && forall r :: r in rows ==> r in db.reservations
    ensures rows[n] in rows
    ensures var (d, count) := ExpireRows(db, rows[..n]);
            rows[n] in d.reservations ==>
              ExpireRows(db, rows[..n + 1]) == match Spec.TransitionReserved(d, rows[n], Expired)
                                               case None => (d, count)
                                               case Some(e) => (e, count + 1)
  {
    hide Spec.TransitionReserved;
    assert rows[..n + 1][..n] == rows[..n];
  }

  ghost predicate BatchPicks(db: Store, size: nat, now: int, only: Option<set<Id>>) {
    forall r :: r in StaleBatch(db, size, now, only) ==> r in db.reservations
  }

  lemma PickedExist(db: Store, size: nat, now: int, only: Option<set<Id>>)
    ensures BatchPicks(db, size, now, only)
  {
    var column := StaleColumn(db, now, only);
    assert forall r :: r in Take(Ordered(column), size) ==> r in Ordered(column);
  }

  lemma {:induction false} ItemsFrame(db: Store, ids: seq<Id>, target: Status)
    requires forall i :: i in ids ==> i in db.items
    ensures TransitionItems(db, ids, target).Some? ==>
              TransitionItems(db, ids, target).value.reservations == db.reservations
    decreases |ids|
  {
    if ids != [] && db.items[ids[0]].status.Reserved? {
      var item := db.items[ids[0]];
      var moved := MoveStock(db, item.ticketType, item.quantity, target);
      if moved.Some? {
        ItemsFrame(moved.value.(items := moved.value.items[ids[0] := item.(status := target)]), ids[1..], target);
      }
    }
  }

  // A transition that succeeds, from any store, changes no parent but its own.
  lemma TransitionFrame(db: Store, r: Id, target: Status)
    requires r in db.reservations
    ensures Spec.TransitionQuantity(db, r, target).Some? ==>
              Spec.TransitionQuantity(db, r, target).value.reservations == db.reservations
    ensures Spec.TransitionReserved(db, r, target).Some? ==>
              Spec.TransitionReserved(db, r, target).value.reservations
              == if db.reservations[r].status.Reserved? then db.reservations[r := db.reservations[r].(status := target)]
                 else db.reservations
  {
    hide ItemsOf, TransitionItems, RowsReserved, SettledRows;
    ItemsFrame(db, ItemsOf(db, r), target);
  }

  // The seat rows of a reservation move together or not at all: when there is one and all are reserved.
  lemma SeatsMoveTogether(db: Store, r: Id, target: Status)
    ensures var moved := Spec.TransitionSeats(db, r, target);
            && (moved.Some? <==>
                  && (exists i :: i in db.seatRows && db.seatRows[i].reservation == r)
                  && (forall i :: i in db.seatRows && db.seatRows[i].reservation == r ==> db.seatRows[i].status == Reserved))
            && (moved.Some? ==>
                  && moved.value == db.(seatRows := moved.value.seatRows)
                  && moved.value.seatRows.Keys == db.seatRows.Keys
                  && forall i :: i in db.seatRows ==>
                       moved.value.seatRows[i]
                       == if db.seatRows[i].reservation == r then db.seatRows[i].(status := target) else db.seatRows[i])
  {
  }

  // ----- batch isolation -----

  // `bad` cannot be settled when its turn comes.
  ghost predicate FailsAfter(db: Store, rows: seq<Id>, bad: Id)
    requires forall r :: r in rows ==> r in db.reservations
  {
    var d := ExpireRows(db, rows).0;
    bad in d.reservations && Spec.TransitionReserved(d, bad, Expired).None?
  }

  // From any store a row that fails leaves no trace: the batch ends with the same store and the same
  // count as if the row had not been picked.
  lemma {:induction false} FailedRowLeavesNoTrace(db: Store, first: seq<Id>, bad: Id, rest: seq<Id>)
    requires forall r :: r in first + [bad] + rest ==> r in db.reservations
    requires forall r :: r in first ==> r in db.reservations
    requires FailsAfter(db, first, bad)
    ensures forall r :: r in first + rest ==> r in db.reservations
    ensures ExpireRows(db, first + [bad] + rest) == ExpireRows(db, first + rest)
    decreases |rest|
  {
    hide Spec.TransitionReserved;
    forall r | r in first + rest ensures r in db.reservations {
      assert r in first + [bad] + rest;
    }
    if rest == [] {
      assert first + [bad] + rest == first + [bad] && first + rest == first;
      assert (first + [bad])[..|first|] == first;
    } else {
      var n := |rest| - 1;
      var all, others := first + [bad] + rest, first + rest;
      assert all[..|all| - 1] == first + [bad] + rest[..n];
      assert others[..|others| - 1] == first + rest[..n];
      assert all[|all| - 1] == rest[n] == others[|others| - 1];
      assert forall r :: r in first + [bad] + rest[..n] ==> r in all;
      FailedRowLeavesNoTrace(db, first, bad, rest[..n]);
    }
  }
}
