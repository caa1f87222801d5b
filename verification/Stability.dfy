/** What a transaction knows stays true while other transactions commit. */
module Stability {
  import opened Tables
  import opened Ordering
  import opened Spec
  import opened Operations
  import opened Concurrent
  import opened Isolation
  import opened RowWrites
  import opened Progress

  lemma QuantityStable(db: Store, d: Store, ttl: int, tx: Tx)
    requires Typed(tx) && tx.request.QuantityRequest? && QuantityInv(db, ttl, tx)
    requires Quiet(db, d, tx.locks) && StillNew(db, d, tx.writes)
    ensures QuantityInv(d, ttl, tx)
  {
  }

  lemma QuietStale(db: Store, d: Store, locks: set<Lock>, seats: set<Id>, now: int, stale: seq<Id>)
    requires Quiet(db, d, locks) && StaleOk(db, seats, now, stale) && SeatLocks(seats) <= locks
    ensures StaleOk(d, seats, now, stale)
  {
  }

  lemma QuietSlot(db: Store, d: Store, locks: set<Lock>, s: Id, holders: set<Id>)
    requires Quiet(db, d, locks) && SlotFree(db, s, holders) && SeatLock(s) in locks
    requires forall r :: r in holders ==> ParentLock(r) in locks
    ensures SlotFree(d, s, holders)
  {
  }

  lemma StaleProtected(db: Store, tx: Tx, seats: set<Id>, now: int, stale: seq<Id>)
    requires StaleOk(db, seats, now, stale) && ParentLocks(stale) <= tx.locks
    ensures Protects(db, tx.locks, SetOf(stale))
  {
  }

  lemma QuietFound(db: Store, d: Store, locks: set<Lock>, event: Id, seats: set<Id>)
    requires Quiet(db, d, locks)
    ensures FoundSeats(d, event, seats) == FoundSeats(db, event, seats)
  {
  }

  lemma SeatsStable(db: Store, d: Store, ttl: int, tx: Tx)
    requires Typed(tx) && tx.request.SeatsRequest? && SeatsInv(db, ttl, tx)
    requires Quiet(db, d, tx.locks) && StillNew(db, d, tx.writes)
    ensures SeatsInv(d, ttl, tx)
  {
    hide Quiet, StaleOk, SettledRows, SettledParents, FoundSeats, Sorted, NewRows, SlotFree, Protects, KeyUsed;
    var q := tx.request;
    QuietFound(db, d, tx.locks, q.event, q.seats);
    match tx.pc
    case SParents(now, stale, _) => QuietStale(db, d, tx.locks, q.seats, now, stale);
    case SExpireRows(now, stale) => QuietStale(db, d, tx.locks, q.seats, now, stale);
    case SExpireParents(now, stale) =>
      QuietStale(db, d, tx.locks, q.seats, now, stale);
      StaleProtected(db, tx, q.seats, now, stale);
      QuietSettled(db, d, tx.locks, SetOf(stale), Expired);
    case SInsert(now, stale) =>
      QuietStale(db, d, tx.locks, q.seats, now, stale);
      StaleProtected(db, tx, q.seats, now, stale);
      QuietSettled(db, d, tx.locks, SetOf(stale), Expired);
    case SSeats(_, _, _, _) => InsertedStable(db, d, ttl, tx);
    case _ =>
  }

  lemma QuietSlots(db: Store, d: Store, locks: set<Lock>, seats: set<Id>, stale: seq<Id>, n: nat)
    requires Quiet(db, d, locks) && SeatLocks(seats) <= locks && ParentLocks(stale) <= locks && n <= |seats|
    requires forall k :: 0 <= k < n ==> SlotFree(db, Sorted(seats)[k], SetOf(stale))
    ensures forall k :: 0 <= k < n ==> SlotFree(d, Sorted(seats)[k], SetOf(stale))
  {
    hide Quiet, SlotFree;
    forall r | r in SetOf(stale) ensures ParentLock(r) in locks {
      assert ParentLock(r) in ParentLocks(stale);
    }
    forall k | 0 <= k < n ensures SlotFree(d, Sorted(seats)[k], SetOf(stale)) {
      assert Sorted(seats)[k] in Sorted(seats);
      assert SeatLock(Sorted(seats)[k]) in SeatLocks(seats);
      QuietSlot(db, d, locks, Sorted(seats)[k], SetOf(stale));
    }
  }

  lemma InsertedIdsNew(db: Store, d: Store, w: Writes, rid: Id, seats: set<Id>, ids: seq<Id>, expiresAt: int)
    requires StillNew(db, d, w) && Distinct(ids) && |ids| <= |seats| && forall i :: i in ids ==> i !in db.seatRows
    requires forall i :: i in NewRows(rid, Sorted(seats), ids, expiresAt) ==> i in w.seatRows
    ensures forall i :: i in ids ==> i !in d.seatRows
  {
    NewRowsAt(rid, Sorted(seats), ids, expiresAt);
    hide Sorted, NewRows;
    forall i | i in ids ensures i !in d.seatRows {
      var k :| 0 <= k < |ids| && ids[k] == i;
      assert i in w.seatRows;
    }
  }

  lemma InsertedStable(db: Store, d: Store, ttl: int, tx: Tx)
    requires Typed(tx) && tx.request.SeatsRequest? && SeatsInv(db, ttl, tx) && tx.pc.SSeats?
    requires Quiet(db, d, tx.locks) && StillNew(db, d, tx.writes)
    ensures SeatsInv(d, ttl, tx)
  {
    hide Quiet, StaleOk, StillNew, SettledRows, SettledParents, FoundSeats, NewRows, SlotFree, Protects, KeyUsed, Sorted,
         ParentLocks, SeatLocks;
    var q := tx.request;
    var SSeats(now, stale, rid, ids) := tx.pc;
    QuietFound(db, d, tx.locks, q.event, q.seats);
    QuietStale(db, d, tx.locks, q.seats, now, stale);
    StaleProtected(db, tx, q.seats, now, stale);
    QuietSettled(db, d, tx.locks, SetOf(stale), Expired);
    QuietKey(db, d, tx.locks, q.caller.session, q.key);
    QuietSlots(db, d, tx.locks, q.seats, stale, |ids|);
    InsertedIdsNew(db, d, tx.writes, rid, q.seats, ids, now + ttl);
    StillNewParent(db, d, tx.writes, rid);
  }

  lemma StillNewParent(db: Store, d: Store, w: Writes, rid: Id)
    requires StillNew(db, d, w) && rid in w.reservations && rid !in db.reservations
    ensures rid !in d.reservations
  {
  }

  lemma OwnedStable(db: Store, d: Store, tx: Tx)
    requires tx.request.LifecycleRequest? && OwnedInv(db, tx) && Quiet(db, d, tx.locks)
    ensures OwnedInv(d, tx)
  {
  }

  lemma QuietAllStale(db: Store, d: Store, locks: set<Lock>, rows: seq<Id>, now: int)
    requires Quiet(db, d, locks) && ParentLocks(rows) <= locks && AllStale(db, rows, now)
    ensures AllStale(d, rows, now)
  {
  }

  lemma BatchStable(db: Store, d: Store, tx: Tx)
    requires tx.request.BatchRequest? && BatchInv(db, tx) && Quiet(db, d, tx.locks)
    ensures BatchInv(d, tx)
  {
  }

  lemma QuietReserved(db: Store, d: Store, locks: set<Lock>, rows: seq<Id>)
    requires Quiet(db, d, locks) && ParentLocks(rows) <= locks && AllReserved(db, rows)
    ensures AllReserved(d, rows)
    ensures forall r :: r in rows ==> ParentLock(r) in locks && d.reservations[r] == db.reservations[r]
  {
  }

  lemma RowsStable(db: Store, d: Store, tx: Tx)
    requires RowsInv(db, tx)
    requires Quiet(db, d, tx.locks) && StillNew(db, d, tx.writes)
    ensures RowsInv(d, tx)
  {
    hide Quiet, Delta, ItemsOf, Overlay;
    var pc := tx.pc;
    QuietReserved(db, d, tx.locks, pc.rows);
    forall t | t in tx.writes.ticketTypes ensures TypeLock(t) in tx.locks && t in db.ticketTypes {
      assert CoveredType(db, tx, t);
    }
    QuietDelta(db, d, tx.locks, pc.rows[..pc.n], pc.target);
    CoveredStays(db, d, tx);
    InFlightStays(db, d, tx);
    LocksStay(db, d, tx.locks, pc.rows);
    if tx.request.BatchRequest? {
      QuietAllStale(db, d, tx.locks, pc.rows, pc.now);
    } else {
      assert tx.request.id in pc.rows;
    }
    if pc.todo != [] {
      assert pc.rows[pc.n] in pc.rows;
      QuietItemColumn(db, d, tx.writes, tx.locks, pc.rows[pc.n]);
    }
    hide Covered, InFlight;
  }

  lemma LocksStay(db: Store, d: Store, locks: set<Lock>, rows: seq<Id>)
    requires LocksOf(db, rows, locks) && Quiet(db, d, locks)
    ensures LocksOf(d, rows, locks)
  {
  }

  lemma InFlightStays(db: Store, d: Store, tx: Tx)
    requires InFlight(db, tx.writes) && Quiet(db, d, tx.locks)
    ensures InFlight(d, tx.writes)
  {
  }

  // The knowledge of a transaction survives every commit that is quiet for its locks.
  lemma TxStable(db: Store, d: Store, ttl: int, tx: Tx)
    requires TxInv(db, ttl, tx) && Quiet(db, d, tx.locks) && StillNew(db, d, tx.writes)
    ensures TxInv(d, ttl, tx)
  {
    hide Quiet, StillNew, QuantityInv, SeatsInv, OwnedInv, BatchInv, RowsInv;
    if tx.pc.Rows? {
      RowsStable(db, d, tx);
    } else if !tx.pc.Done? {
      match tx.request
      case QuantityRequest(_, _, _, _, _) => QuantityStable(db, d, ttl, tx);
      case SeatsRequest(_, _, _, _) => SeatsStable(db, d, ttl, tx);
      case LifecycleRequest(_, _, _) => OwnedStable(db, d, tx);
      case BatchRequest(_, _, _) => BatchStable(db, d, tx);
    }
  }
}
