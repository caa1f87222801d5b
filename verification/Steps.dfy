/** One statement of one transaction: it keeps what the transaction knows, and a commit is one atomic operation. */
module Steps {
  import opened Tables
  import opened Ordering
  import opened Spec
  import opened Invariant
  import opened Transitions
  import opened Operations
  import opened Outcomes
  import opened Concurrent
  import opened Isolation
  import opened RowWrites
  import opened Progress

  // The commit of `w` with answer `outcome` is exactly the operation `op`.
  ghost predicate CommitsAs(db: Store, ttl: int, tx: Tx, w: Writes, outcome: Outcome, op: Option<Op>) {
    && op.Some? && GoodOp(db, op.value) && Covered(db, tx.(writes := w))
    && Exec(db, ttl, op.value) == (Overlay(db, w), outcome)
  }

  ghost predicate GoodNext(db: Store, ttl: int, tx: Tx, next: Next, op: Option<Op>) {
    match next
    case Going(tx') => tx'.request == tx.request && TxInv(db, ttl, tx')
    case Committed(w, outcome) => CommitsAs(db, ttl, tx, w, outcome, op)
    case Over(_) => true
  }

  ghost predicate IsFresh(db: Store, uid: Id) {
    uid !in db.reservations && uid !in db.items && uid !in db.seatRows
  }

  // ----- quantity requests -----

  lemma QuantityMade(db: Store, caller: Caller, event: Id, t: Id, quantity: int, key: string,
                     rid: Id, iid: Id, expiresAt: int)
    requires Linked(db) && Shaped(db) && UniqueKeys(db)
    requires HasStock(db, event, t, quantity) && !KeyUsed(db, caller.session, key)
    ensures ReserveQuantity(db, caller, event, t, quantity, key, rid, iid, expiresAt)
         == (WithQuantity(db, t, rid, QuantityParent(caller, event, key, expiresAt), iid, quantity),
             Made(QuantityResponse(rid, Reserved, expiresAt, t, quantity)))
  {
  }

  function QuantityWrites(db: Store, t: Id, quantity: int, rid: Id, parent: Reservation, iid: Id): Writes
    requires t in db.ticketTypes
  {
    HeldStock(db, t, quantity).(reservations := map[rid := parent], items := map[iid := Item(rid, t, quantity, Reserved)])
  }

  lemma QuantityOverlay(db: Store, t: Id, quantity: int, rid: Id, parent: Reservation, iid: Id)
    requires t in db.ticketTypes
    ensures Overlay(db, QuantityWrites(db, t, quantity, rid, parent, iid)) == WithQuantity(db, t, rid, parent, iid, quantity)
  {
    var a, b := Overlay(db, QuantityWrites(db, t, quantity, rid, parent, iid)), WithQuantity(db, t, rid, parent, iid, quantity);
    assert a.ticketTypes == b.ticketTypes && a.reservations == b.reservations;
    assert a.items == b.items && a.seatRows == b.seatRows;
  }

  lemma QuantityCommits(db: Store, ttl: int, tx: Tx, uid: Id)
    requires Inv(db) && TxInv(db, ttl, tx) && tx.pc.QItem? && IsFresh(db, uid)
    ensures GoodNext(db, ttl, tx, AdvanceQuantity(db, 0, ttl, tx, uid), OpOf(tx, uid))
  {
    hide Linked, Shaped, UniqueKeys, Exclusive, Balanced, Rooted, QuantityLookup, ReserveQuantity, WithQuantity, Overlay, KeyUsed;
    var q := tx.request;
    var QItem(now, rid) := tx.pc;
    var parent := QuantityParent(q.caller, q.event, q.key, now + ttl);
    QuantityMade(db, q.caller, q.event, q.ticketType, q.quantity, q.key, rid, uid, now + ttl);
    QuantityOverlay(db, q.ticketType, q.quantity, rid, parent, uid);
    assert AdvanceQuantity(db, 0, ttl, tx, uid).writes == QuantityWrites(db, q.ticketType, q.quantity, rid, parent, uid);
  }

  lemma StockHeld(db: Store, clock: int, ttl: int, tx: Tx, uid: Id)
    requires TxInv(db, ttl, tx) && tx.pc.QStock?
    ensures GoodNext(db, ttl, tx, AdvanceQuantity(db, clock, ttl, tx, uid), None)
  {
    hide SeatsInv, OwnedInv, BatchInv, RowsInv;
  }

  lemma QuantityInserted(db: Store, clock: int, ttl: int, tx: Tx, uid: Id)
    requires TxInv(db, ttl, tx) && (tx.pc.QClock? || tx.pc.QInsert?) && IsFresh(db, uid)
    ensures GoodNext(db, ttl, tx, AdvanceQuantity(db, clock, ttl, tx, uid), None)
  {
    hide KeyUsed, HasStock, SeatsInv, OwnedInv, BatchInv, RowsInv;
  }

  lemma QuantityGoes(db: Store, clock: int, ttl: int, tx: Tx, uid: Id)
    requires TxInv(db, ttl, tx) && tx.request.QuantityRequest? && !tx.pc.Done? && !tx.pc.QItem? && IsFresh(db, uid)
    ensures GoodNext(db, ttl, tx, AdvanceQuantity(db, clock, ttl, tx, uid), OpOf(tx, uid))
  {
    if tx.pc.QStock? {
      StockHeld(db, clock, ttl, tx, uid);
      NoCommit(db, ttl, tx, AdvanceQuantity(db, clock, ttl, tx, uid), OpOf(tx, uid));
      hide *;
    } else if tx.pc.QClock? || tx.pc.QInsert? {
      QuantityInserted(db, clock, ttl, tx, uid);
      NoCommit(db, ttl, tx, AdvanceQuantity(db, clock, ttl, tx, uid), OpOf(tx, uid));
      hide *;
    } else {
      hide QuantityLookup, QuantityReplay, SeatsInv, OwnedInv, BatchInv, RowsInv;
    }
  }

  // ----- seat requests -----

  // Settling the list read earlier is settling today's stale holders: the rest of the list is already settled.
  lemma SettleSame(db: Store, seats: set<Id>, now: int, stale: seq<Id>)
    requires Linked(db) && StaleOk(db, seats, now, stale)
    ensures Settle(db, StaleHolders(db, seats, now), Expired) == Settle(db, SetOf(stale), Expired)
  {
    var holders := StaleHolders(db, seats, now);
    HoldersListed(db, seats, now, stale);
    assert forall i :: i in db.seatRows ==> LinkedRow(db, db.seatRows[i]);
    hide StaleHolders, Linked, StaleOk;
    assert SettledRows(db, holders, Expired) == SettledRows(db, SetOf(stale), Expired);
    assert SettledParents(db, holders, Expired) == SettledParents(db, SetOf(stale), Expired);
  }

  lemma HoldersListed(db: Store, seats: set<Id>, now: int, stale: seq<Id>)
    requires Linked(db) && StaleOk(db, seats, now, stale)
    ensures forall r :: r in StaleHolders(db, seats, now) ==> r in stale
    ensures forall r :: r in stale ==> r in db.reservations
    ensures forall r :: r in stale && db.reservations[r].status.Reserved? ==> r in StaleHolders(db, seats, now)
  {
    OutdatedHolders(db, seats, now);
    hide Linked;
    forall r | r in stale ensures StaleEntry(db, seats, now, r) {
    }
    forall r | r in stale && db.reservations[r].status.Reserved? ensures r in StaleHolders(db, seats, now) {
      assert Outdated(db, r, seats, now);
    }
  }

  lemma SlotSettled(db: Store, s: Id, holders: set<Id>)
    requires SlotFree(db, s, holders)
    ensures !Occupied(Settle(db, holders, Expired), s)
  {
  }

  lemma AllSlotsFree(db: Store, seats: set<Id>, holders: set<Id>)
    requires forall k :: 0 <= k < |seats| ==> SlotFree(db, Sorted(seats)[k], holders)
    ensures !Blocked(Settle(db, holders, Expired), seats)
  {
    hide SlotFree, Settle, Occupied, IsOrdered;
    forall s | s in seats ensures !Occupied(Settle(db, holders, Expired), s) {
      assert s in Sorted(seats);
      var k :| 0 <= k < |seats| && Sorted(seats)[k] == s;
      SlotSettled(db, s, holders);
    }
  }

  lemma SeatsMade(db: Store, caller: Caller, event: Id, seats: set<Id>, key: string,
                  rid: Id, rowIds: seq<Id>, now: int, expiresAt: int)
    requires Linked(db) && Shaped(db) && UniqueKeys(db) && |rowIds| == |seats|
    requires FoundSeats(db, event, seats) == Sorted(seats) && !KeyUsed(db, caller.session, key)
    requires !Blocked(Settle(db, StaleHolders(db, seats, now), Expired), seats)
    ensures ReserveSeats(db, caller, event, seats, key, rid, rowIds, now, expiresAt)
         == (WithSeats(Settle(db, StaleHolders(db, seats, now), Expired), rid,
                       SeatsParent(caller, event, key, expiresAt), NewRows(rid, Sorted(seats), rowIds, expiresAt)),
             Made(SeatsResponse(rid, Reserved, expiresAt, Sorted(seats))))
  {
  }

  lemma SeatsOverlay(db: Store, stale: seq<Id>, rid: Id, parent: Reservation, added: map<Id, SeatRow>)
    ensures Overlay(db, NO_WRITES.(reservations := ExpiredParents(db, stale)[rid := parent],
                                   seatRows := ExpiredRows(db, stale) + added))
         == WithSeats(Settle(db, SetOf(stale), Expired), rid, parent, added)
  {
    PutLater(db.reservations, ExpiredParents(db, stale), rid, parent);
    AddLater(db.seatRows, ExpiredRows(db, stale), added);
    hide SettledRows, SettledParents;
    OverlayNothing(db);
  }

  lemma SeatsCommit(db: Store, ttl: int, tx: Tx, uid: Id)
    requires Inv(db) && TxInv(db, ttl, tx) && tx.pc.SSeats? && |tx.pc.ids| == |tx.request.seats|
    ensures GoodNext(db, ttl, tx, AdvanceSeats(db, 0, ttl, tx, uid), OpOf(tx, uid))
  {
    hide Linked, Shaped, UniqueKeys, Exclusive, Balanced, Rooted, SeatsLookup, KeyUsed, Settle, StaleHolders, Overlay,
         Blocked, FoundSeats, Sorted, NewRows, StaleOk, SlotFree, Covered, InFlight, SettledRows, SettledParents, ReserveSeats;
    var q := tx.request;
    var SSeats(now, stale, rid, ids) := tx.pc;
    TxCovered(db, ttl, tx);
    SettleSame(db, q.seats, now, stale);
    AllSlotsFree(db, q.seats, SetOf(stale));
    SeatsMade(db, q.caller, q.event, q.seats, q.key, rid, ids, now, now + ttl);
    SeatsOverlay(db, stale, rid, SeatsParent(q.caller, q.event, q.key, now + ttl),
                 NewRows(rid, Sorted(q.seats), ids, now + ttl));
    assert tx.(writes := tx.writes) == tx;
  }

  lemma SeatLocksGrow(found: seq<Id>, n: nat)
    requires n < |found|
    ensures SeatLocks(SetOf(found[..n + 1])) == SeatLocks(SetOf(found[..n])) + {SeatLock(found[n])}
  {
  }

  lemma SortedMembers(seats: set<Id>)
    ensures SetOf(Sorted(seats)) == seats
  {
  }

  lemma SeatLocked(db: Store, ttl: int, tx: Tx, uid: Id)
    requires TxInv(db, ttl, tx) && tx.pc.SLock?
    ensures GoodNext(db, ttl, tx, AdvanceSeats(db, 0, ttl, tx, uid), None)
  {
    hide FoundSeats, Sorted, SeatLocks, SetOf;
    var q := tx.request;
    var found := FoundSeats(db, q.event, q.seats);
    if tx.pc.n < |found| {
      SeatLocksGrow(found, tx.pc.n);
    } else {
      assert found[..tx.pc.n] == found;
      SortedMembers(q.seats);
    }
  }

  lemma StaleRead(db: Store, seats: set<Id>, now: int)
    requires Linked(db)
    ensures StaleOk(db, seats, now, Sorted(StaleHolders(db, seats, now)))
  {
    OutdatedHolders(db, seats, now);
    StaleHoldersAreSeats(db, seats, now);
    var holders := StaleHolders(db, seats, now);
    var stale := Sorted(holders);
    forall r | r in stale ensures StaleEntry(db, seats, now, r) {
      assert Outdated(db, r, seats, now);
      hide SeatOf;
    }
    forall i | i in db.seatRows && StaleRow(db.seatRows[i], seats, now) ensures db.seatRows[i].reservation in stale {
      assert db.seatRows[i].reservation in holders;
    }
  }

  lemma ParentLocked(stale: seq<Id>, n: nat)
    requires n < |stale|
    ensures ParentLocks(stale[..n + 1]) == ParentLocks(stale[..n]) + {ParentLock(stale[n])}
  {
  }

  lemma SeatsGoEarly(db: Store, clock: int, ttl: int, tx: Tx, uid: Id)
    requires Inv(db) && TxInv(db, ttl, tx)
    requires tx.pc.SLookup? || tx.pc.SClock?
    ensures GoodNext(db, ttl, tx, AdvanceSeats(db, clock, ttl, tx, uid), None)
  {
    hide Inv, StaleOk, SeatsLookup, SeatsReplay, FoundSeats, Sorted, StaleHolders;
    if tx.pc.SLookup? {
      assert FoundSeats(db, tx.request.event, tx.request.seats)[..0] == [];
    }
  }

  lemma StaleHoldersRead(db: Store, ttl: int, tx: Tx, uid: Id)
    requires Inv(db) && TxInv(db, ttl, tx) && tx.pc.SRead?
    ensures GoodNext(db, ttl, tx, AdvanceSeats(db, 0, ttl, tx, uid), None)
  {
    hide Linked, Shaped, UniqueKeys, Exclusive, Balanced, Rooted, StaleOk, FoundSeats, Sorted, StaleHolders;
    StaleRead(db, tx.request.seats, tx.pc.now);
    assert ParentLocks(Sorted(StaleHolders(db, tx.request.seats, tx.pc.now))[..0]) == {};
  }

  lemma StaleHoldersLocked(db: Store, ttl: int, tx: Tx, uid: Id)
    requires TxInv(db, ttl, tx) && tx.pc.SParents?
    ensures GoodNext(db, ttl, tx, AdvanceSeats(db, 0, ttl, tx, uid), None)
  {
    hide StaleOk, FoundSeats, Sorted;
    var SParents(_, stale, n) := tx.pc;
    if n < |stale| {
      ParentLocked(stale, n);
    } else {
      assert stale[..n] == stale;
    }
  }

  lemma ParentsExpired(db: Store, ttl: int, tx: Tx, uid: Id)
    requires TxInv(db, ttl, tx) && (tx.pc.SExpireRows? || tx.pc.SExpireParents?)
    ensures GoodNext(db, ttl, tx, AdvanceSeats(db, 0, ttl, tx, uid), None)
  {
    hide StaleOk, FoundSeats, Sorted, SettledRows, SettledParents;
    assert map[] + ExpiredRows(db, tx.pc.stale) == ExpiredRows(db, tx.pc.stale);
    assert map[] + ExpiredParents(db, tx.pc.stale) == ExpiredParents(db, tx.pc.stale);
  }

  lemma ParentInserted(db: Store, ttl: int, tx: Tx, uid: Id)
    requires TxInv(db, ttl, tx) && tx.pc.SInsert? && IsFresh(db, uid)
    ensures GoodNext(db, ttl, tx, AdvanceSeats(db, 0, ttl, tx, uid), None)
  {
    hide StaleOk, FoundSeats, Sorted, SettledRows, SettledParents, KeyUsed, SlotFree;
    assert ExpiredRows(db, tx.pc.stale) + map[] == ExpiredRows(db, tx.pc.stale);
  }

  // What a seat request has written over committed rows is their expiry, and its own rows are new.
  lemma OldWritesExpired(db: Store, ttl: int, tx: Tx)
    requires TxInv(db, ttl, tx) && tx.pc.SSeats?
    ensures forall i :: i in tx.writes.seatRows && i in db.seatRows ==> i in ExpiredRows(db, tx.pc.stale)
    ensures forall i :: i in tx.pc.ids ==> i in tx.writes.seatRows
  {
    hide StaleOk, FoundSeats, Sorted, SettledRows, SettledParents, KeyUsed, SlotFree, NewRows;
    var SSeats(now, stale, rid, ids) := tx.pc;
    NewRowsAt(rid, Sorted(tx.request.seats), ids, now + ttl);
  }

  // An index check that finds no entry proves the slot free in the committed store.
  lemma SlotChecked(db: Store, w: Writes, stale: seq<Id>, s: Id)
    requires forall i :: i in w.seatRows && i in db.seatRows ==> i in ExpiredRows(db, stale)
    requires !Occupied(Overlay(db, w), s)
    ensures SlotFree(db, s, SetOf(stale))
  {
  }

  lemma NewRowsPut(rid: Id, seats: seq<Id>, ids: seq<Id>, uid: Id, expiresAt: int)
    requires |ids| < |seats|
    ensures NewRows(rid, seats, ids + [uid], expiresAt)
         == NewRows(rid, seats, ids, expiresAt)[uid := SeatRow(rid, seats[|ids|], Reserved, expiresAt)]
  {
  }

  lemma SeatInserted(db: Store, ttl: int, tx: Tx, uid: Id)
    requires TxInv(db, ttl, tx) && tx.pc.SSeats? && |tx.pc.ids| < |tx.request.seats|
    requires IsFresh(db, uid) && uid !in tx.writes.seatRows
    ensures GoodNext(db, ttl, tx, AdvanceSeats(db, 0, ttl, tx, uid), None)
  {
    hide StaleOk, FoundSeats, Sorted, SettledRows, SettledParents, KeyUsed, SlotFree, NewRows, Overlay, Occupied;
    var q := tx.request;
    var SSeats(now, stale, rid, ids) := tx.pc;
    var ordered := Sorted(q.seats);
    OldWritesExpired(db, ttl, tx);
    if !Occupied(Overlay(db, tx.writes), ordered[|ids|]) {
      SlotChecked(db, tx.writes, stale, ordered[|ids|]);
      NewRowsPut(rid, ordered, ids, uid, now + ttl);
      PutLater(ExpiredRows(db, stale), NewRows(rid, ordered, ids, now + ttl), uid,
               SeatRow(rid, ordered[|ids|], Reserved, now + ttl));
    }
  }

  lemma SeatsStep(db: Store, clock: int, ttl: int, tx: Tx, uid: Id)
    requires Inv(db) && TxInv(db, ttl, tx) && tx.request.SeatsRequest? && !tx.pc.Done?
    requires IsFresh(db, uid) && uid !in tx.writes.seatRows
    ensures GoodNext(db, ttl, tx, AdvanceSeats(db, clock, ttl, tx, uid), OpOf(tx, uid))
  {
    hide Inv, TxInv, CommitsAs, AdvanceSeats, OpOf, GoodNext;
    KnowsType(db, ttl, tx);
    if !tx.pc.SClock? {
      SeatsClockFree(db, clock, ttl, tx, uid);
    }
    NoCommit(db, ttl, tx, AdvanceSeats(db, clock, ttl, tx, uid), OpOf(tx, uid));
    match tx.pc
    case SLock(_) => SeatLocked(db, ttl, tx, uid);
    case SLookup => SeatsGoEarly(db, clock, ttl, tx, uid);
    case SClock => SeatsGoEarly(db, clock, ttl, tx, uid);
    case SRead(_) => StaleHoldersRead(db, ttl, tx, uid);
    case SParents(_, _, _) => StaleHoldersLocked(db, ttl, tx, uid);
    case SExpireRows(_, _) => ParentsExpired(db, ttl, tx, uid);
    case SExpireParents(_, _) => ParentsExpired(db, ttl, tx, uid);
    case SInsert(_, _) => ParentInserted(db, ttl, tx, uid);
    case SSeats(_, _, _, ids) =>
      if |ids| < |tx.request.seats| {
        SeatInserted(db, ttl, tx, uid);
      } else {
        SeatsCommit(db, ttl, tx, uid);
      }
    case SReplay => SeatsReplayed(db, ttl, tx, uid);
  }

  lemma KnowsType(db: Store, ttl: int, tx: Tx)
    requires TxInv(db, ttl, tx) && tx.request.SeatsRequest? && !tx.pc.Done?
    ensures Typed(tx)
    ensures tx.pc.SLookup? || tx.pc.SLock? || tx.pc.SClock? || tx.pc.SRead? || tx.pc.SParents? || tx.pc.SExpireRows?
         || tx.pc.SExpireParents? || tx.pc.SInsert? || tx.pc.SSeats? || tx.pc.SReplay?
    ensures tx.pc.SSeats? ==> |tx.pc.ids| <= |tx.request.seats|
  {
    hide SeatsInv, RowsInv;
  }

  lemma SeatsClockFree(db: Store, clock: int, ttl: int, tx: Tx, uid: Id)
    requires Typed(tx) && tx.request.SeatsRequest? && !tx.pc.Done? && !tx.pc.SClock?
    ensures AdvanceSeats(db, clock, ttl, tx, uid) == AdvanceSeats(db, 0, ttl, tx, uid)
  {
  }

  // A step that commits nothing is good whatever operation it is compared with.
  lemma NoCommit(db: Store, ttl: int, tx: Tx, next: Next, op: Option<Op>)
    ensures GoodNext(db, ttl, tx, next, None) ==> GoodNext(db, ttl, tx, next, op)
  {
    hide TxInv;
  }

  lemma SeatsReplayed(db: Store, ttl: int, tx: Tx, uid: Id)
    requires Typed(tx) && tx.pc.SReplay?
    ensures GoodNext(db, ttl, tx, AdvanceSeats(db, 0, ttl, tx, uid), None)
  {
    hide SeatsReplay;
  }

  // ----- cancels, confirms and batches -----

  lemma RowsBegin(db: Store, tx: Tx)
    requires tx.pc.Rows? && Typed(tx) && tx.writes == NO_WRITES && RowsRequest(db, tx)
    requires Distinct(tx.pc.rows) && AllReserved(db, tx.pc.rows) && tx.locks == ParentLocks(tx.pc.rows)
    requires tx.pc.n == 0 && tx.pc.count == 0 && tx.pc.todo == [] && !tx.pc.target.Reserved?
    ensures RowsInv(db, tx)
  {
  }

  lemma OwnedStep(db: Store, clock: int, ttl: int, tx: Tx)
    requires TxInv(db, ttl, tx) && (tx.pc.LLock? || tx.pc.LCheck?)
    ensures GoodNext(db, ttl, tx, AdvanceOwned(db, clock, tx), None)
  {
    hide RowsInv, DetailOf, Owns;
    var next := AdvanceOwned(db, clock, tx);
    if next.Going? && next.tx.pc.Rows? {
      assert ParentLocks([tx.request.id]) == {ParentLock(tx.request.id)};
      RowsBegin(db, next.tx);
    }
  }

  lemma BatchScanned(db: Store, ttl: int, tx: Tx, taken: set<Lock>)
    requires TxInv(db, ttl, tx) && tx.pc.BScan?
    ensures GoodNext(db, ttl, tx, AdvanceBatch(db, 0, tx, taken), None)
  {
    hide RowsInv;
    var BScan(now, candidates, got) := tx.pc;
    var next := AdvanceBatch(db, 0, tx, taken);
    if next.Going? && next.tx.pc.Rows? {
      assert Distinct(got) by {
        assert forall m :: 0 <= m < |got| ==> (got + candidates)[m] == got[m];
      }
      RowsBegin(db, next.tx);
    } else if next.Going? {
      ScanDistinct(got, candidates);
      assert ParentLocks(got + [candidates[0]]) == ParentLocks(got) + {ParentLock(candidates[0])};
    }
  }

  lemma ScanDistinct(got: seq<Id>, candidates: seq<Id>)
    requires candidates != [] && Distinct(got + candidates)
    ensures Distinct(got + candidates[1..]) && Distinct((got + [candidates[0]]) + candidates[1..])
  {
    assert (got + [candidates[0]]) + candidates[1..] == got + candidates;
    var all, rest := got + candidates, got + candidates[1..];
    assert forall m :: 0 <= m < |rest| ==> rest[m] == all[if m < |got| then m else m + 1];
  }

  lemma BatchStep(db: Store, clock: int, ttl: int, tx: Tx, taken: set<Lock>)
    requires TxInv(db, ttl, tx) && (tx.pc.BClock? || tx.pc.BSelect? || tx.pc.BScan?)
    ensures GoodNext(db, ttl, tx, AdvanceBatch(db, clock, tx, taken), None)
  {
    hide RowsInv, StaleColumn, IsOrdered, StaleReservation, QuantityInv, SeatsInv, OwnedInv, Ordered, Distinct, ParentLocks;
    if tx.pc.BScan? {
      BatchClockFree(db, clock, tx, taken);
      BatchScanned(db, ttl, tx, taken);
    } else if tx.pc.BSelect? {
      BatchSelected(Ordered(StaleColumn(db, tx.pc.now, tx.request.only)), StaleColumn(db, tx.pc.now, tx.request.only));
    }
  }

  lemma BatchClockFree(db: Store, clock: int, tx: Tx, taken: set<Lock>)
    requires Typed(tx) && tx.pc.BScan?
    ensures AdvanceBatch(db, clock, tx, taken) == AdvanceBatch(db, 0, tx, taken)
  {
  }

  lemma BatchSelected(candidates: seq<Id>, column: map<Id, int>)
    requires candidates == Ordered(column)
    ensures ParentLocks([]) == {} && Distinct([] + candidates)
  {
  }

  // ----- settling rows -----

  // The locks after `r` is settled: its ticket type is locked as well, if it has one.
  function RowLocks(view: Store, r: Id, locks: set<Lock>): set<Lock> {
    if r !in view.reservations || view.reservations[r].kind.Seats? || ItemsOf(view, r) == [] then locks
    else
      assert ItemsOf(view, r)[0] in ItemsOf(view, r);
      locks + {TypeLock(view.items[ItemsOf(view, r)[0]].ticketType)}
  }

  lemma SettledRowIs(db: Store, w: Writes, r: Id, target: Status, i: Id)
    requires i in SettledRows(Overlay(db, w), {r}, target) && i !in w.seatRows
    ensures i in db.seatRows && db.seatRows[i].reservation == r && db.seatRows[i].status.Reserved?
    ensures SettledRows(Overlay(db, w), {r}, target)[i] == db.seatRows[i].(status := target)
  {
  }

  // Settling again a row written before keeps it covered: only its status changes.
  lemma RowWrittenAgain(db: Store, tx: Tx, r: Id, target: Status, i: Id)
    requires i in SettledRows(Overlay(db, tx.writes), {r}, target) && i in tx.writes.seatRows
    ensures SettledRows(Overlay(db, tx.writes), {r}, target)[i] == tx.writes.seatRows[i].(status := target)
    ensures tx.writes.seatRows[i].reservation == r
  {
  }

  lemma SeatsRowCovered(db: Store, tx: Tx, r: Id, target: Status)
    requires Covered(db, tx) && InFlight(db, tx.writes) && ParentLock(r) in tx.locks
    requires r in db.reservations && db.reservations[r].status.Reserved? && db.reservations[r].kind.Seats?
    requires r in Overlay(db, tx.writes).reservations && Overlay(db, tx.writes).reservations[r] == db.reservations[r]
    ensures var tx' := tx.(writes := WithRow(Overlay(db, tx.writes), tx.writes, r, target));
            Covered(db, tx') && InFlight(db, tx'.writes)
  {
    hide SettledRows, Overlay, ItemsOf;
    var view := Overlay(db, tx.writes);
    var settled := SettledRows(view, {r}, target);
    var tx' := tx.(writes := WithRow(view, tx.writes, r, target));
    assert tx'.writes == tx.writes.(seatRows := tx.writes.seatRows + settled,
                                    reservations := tx.writes.reservations[r := db.reservations[r].(status := target)]);
    hide WithRow;
    forall t | t in tx'.writes.ticketTypes ensures CoveredType(db, tx', t) { assert CoveredType(db, tx, t); }
    forall q | q in tx'.writes.reservations ensures CoveredParent(db, tx', q) {
      if q != r { assert CoveredParent(db, tx, q); }
    }
    forall i | i in tx'.writes.items ensures CoveredItem(db, tx', i) { assert CoveredItem(db, tx, i); }
    forall i | i in tx'.writes.seatRows
      ensures CoveredRow(db, tx', i) && (i in db.seatRows || tx'.writes.seatRows[i].reservation in tx'.writes.reservations)
    {
      if i in tx.writes.seatRows {
        assert CoveredRow(db, tx, i);
        if i in settled { RowWrittenAgain(db, tx, r, target, i); }
      } else {
        SettledRowIs(db, tx.writes, r, target, i);
      }
    }
  }

  function PutQuantity(w: Writes, t: Id, row: TicketType, x: Id, item: Item, r: Id, parent: Reservation): Writes {
    w.(ticketTypes := w.ticketTypes[t := row], items := w.items[x := item], reservations := w.reservations[r := parent])
  }

  lemma PutQuantityCovered(db: Store, tx: Tx, t: Id, row: TicketType, x: Id, item: Item, r: Id, parent: Reservation)
    requires Covered(db, tx) && InFlight(db, tx.writes) && ParentLock(r) in tx.locks
    requires t in db.ticketTypes && row.event == db.ticketTypes[t].event && row.total == db.ticketTypes[t].total
    requires x in db.items && item.reservation == r && item == db.items[x].(status := item.status)
    requires r in db.reservations && db.reservations[r].status.Reserved? && parent == db.reservations[r].(status := parent.status)
    ensures var tx' := tx.(writes := PutQuantity(tx.writes, t, row, x, item, r, parent), locks := tx.locks + {TypeLock(t)});
            Covered(db, tx') && InFlight(db, tx'.writes)
  {
  }

  // The view's counters and items differ from the committed ones only in the columns that move.
  lemma ViewOfCovered(db: Store, tx: Tx, t: Id, x: Id)
    requires Covered(db, tx) && InFlight(db, tx.writes)
    ensures var view := Overlay(db, tx.writes);
            && (t in view.ticketTypes ==> t in db.ticketTypes && view.ticketTypes[t].event == db.ticketTypes[t].event
                                          && view.ticketTypes[t].total == db.ticketTypes[t].total)
            && (x in view.items ==> x in db.items && view.items[x] == db.items[x].(status := view.items[x].status))
  {
  }

  lemma QuantityRowForm(view: Store, w: Writes, r: Id, x: Id, target: Status, locks: set<Lock>)
    requires SoleItem(view, r, x) && ItemsOf(view, r) == [x]
    ensures var item := view.items[x];
            && WithRow(view, w, r, target)
               == PutQuantity(w, item.ticketType, Move(view.ticketTypes[item.ticketType], item.quantity, target),
                              x, item.(status := target), r, view.reservations[r].(status := target))
            && RowLocks(view, r, locks) == locks + {TypeLock(item.ticketType)}
  {
  }

  lemma QuantityRowCovered(db: Store, tx: Tx, r: Id, x: Id, target: Status)
    requires Covered(db, tx) && InFlight(db, tx.writes) && ParentLock(r) in tx.locks
    requires r in db.reservations && r in Overlay(db, tx.writes).reservations
    requires db.reservations[r] == Overlay(db, tx.writes).reservations[r]
    requires SoleItem(Overlay(db, tx.writes), r, x) && ItemsOf(Overlay(db, tx.writes), r) == [x]
    ensures var view := Overlay(db, tx.writes);
            var tx' := tx.(writes := WithRow(view, tx.writes, r, target), locks := RowLocks(view, r, tx.locks));
            Covered(db, tx') && InFlight(db, tx'.writes)
  {
    var view := Overlay(db, tx.writes);
    var item := view.items[x];
    ViewOfCovered(db, tx, item.ticketType, x);
    QuantityRowForm(view, tx.writes, r, x, target, tx.locks);
    hide Covered, InFlight, ItemsOf, Overlay, WithRow, RowLocks, PutQuantity;
    PutQuantityCovered(db, tx, item.ticketType, Move(view.ticketTypes[item.ticketType], item.quantity, target),
                       x, item.(status := target), r, db.reservations[r].(status := target));
  }

  lemma RowsBatchCommits(db: Store, ttl: int, tx: Tx, uid: Id)
    requires Inv(db) && TxInv(db, ttl, tx) && tx.pc.Rows? && tx.request.BatchRequest? && tx.pc.n == |tx.pc.rows|
    ensures GoodNext(db, ttl, tx, AdvanceRows(db, tx), OpOf(tx, uid))
  {
    hide Inv, Covered, InFlight, Delta, Overlay, ExpireRows, ParentLocks, ItemsOf;
    assert tx.pc.rows[..tx.pc.n] == tx.pc.rows;
    DeltaIsBatch(db, tx.pc.rows);
    ExpireAll(db, tx.pc.rows);
    assert tx.(writes := tx.writes) == tx;
  }

  lemma RowsCallCommits(db: Store, ttl: int, tx: Tx, uid: Id)
    requires Inv(db) && TxInv(db, ttl, tx) && tx.pc.Rows? && tx.request.LifecycleRequest? && tx.pc.n == |tx.pc.rows|
    ensures GoodNext(db, ttl, tx, AdvanceRows(db, tx), OpOf(tx, uid))
  {
    hide Inv, Covered, InFlight, Delta, Overlay, TransitionReserved, ParentLocks, ItemsOf, DetailOf, Owns;
    assert tx.pc.rows[..tx.pc.n] == tx.pc.rows;
    assert tx.request.id in tx.pc.rows;
    DeltaIsTransition(db, tx.request.id, tx.pc.target);
    DeltaView(db, tx.pc.rows, tx.pc.target);
    assert tx.(writes := tx.writes) == tx;
  }

  ghost predicate AtRow(db: Store, tx: Tx) {
    RowsInv(db, tx) && tx.pc.n < |tx.pc.rows|
  }

  // The next statement goes on, and the transaction knows what it should.
  ghost predicate GoesOn(db: Store, tx: Tx) {
    && Typed(tx) && tx.pc.Rows?
    && var next := AdvanceRows(db, tx);
    && next.Going? && RowsInv(db, next.tx)
  }

  ghost predicate NextKind(db: Store, tx: Tx, kind: Kind) {
    && tx.pc.Rows? && tx.pc.n < |tx.pc.rows| && tx.pc.rows[tx.pc.n] in db.reservations
    && db.reservations[tx.pc.rows[tx.pc.n]].kind == kind
  }

  // What the next row looks like through the writes so far.
  ghost predicate RowSeen(db: Store, tx: Tx) {
    && tx.pc.Rows? && tx.pc.n < |tx.pc.rows|
    && var view := Overlay(db, tx.writes); var r := tx.pc.rows[tx.pc.n];
    && Inv(view) && r in db.reservations && r in view.reservations
    && view.reservations[r] == db.reservations[r] && view.reservations[r].status.Reserved?
    && ParentLock(r) in tx.locks
  }

  lemma NextRow(db: Store, tx: Tx)
    requires Inv(db) && AtRow(db, tx)
    ensures RowSeen(db, tx)
  {
    hide Inv, Covered, InFlight, Delta, Overlay, ItemsOf;
    var rows, n := tx.pc.rows, tx.pc.n;
    assert rows[n] in rows && rows[n] !in rows[..n];
    assert ParentLock(rows[n]) in ParentLocks(rows);
    assert Distinct(rows[..n]) && AllReserved(db, rows[..n]);
    DeltaView(db, rows[..n], tx.pc.target);
  }

  lemma DeltaNext(db: Store, rows: seq<Id>, n: nat, target: Status)
    requires n < |rows|
    ensures Delta(db, rows[..n + 1], target)
         == WithRow(Overlay(db, Delta(db, rows[..n], target)), Delta(db, rows[..n], target), rows[n], target)
  {
    hide WithRow, Overlay;
    assert rows[..n + 1][..n] == rows[..n];
  }

  // `tx'` is `tx` with one more row settled.
  ghost predicate OneMore(db: Store, tx: Tx, tx': Tx) {
    && tx.pc.Rows? && tx.pc.n < |tx.pc.rows| && tx'.request == tx.request
    && tx'.pc == Rows(tx.pc.rows, tx.pc.target, tx.pc.now, tx.pc.n + 1, [], tx.pc.saved, tx.pc.savedLocks, tx.pc.count + 1)
    && tx'.writes == WithRow(Overlay(db, tx.writes), tx.writes, tx.pc.rows[tx.pc.n], tx.pc.target)
    && tx.locks <= tx'.locks && LocksOf(db, tx.pc.rows, tx'.locks)
    && Covered(db, tx') && InFlight(db, tx'.writes)
  }

  // The writes after one more row are the next step of the recursion.
  lemma RowSettled(db: Store, tx: Tx, tx': Tx)
    requires AtRow(db, tx) && OneMore(db, tx, tx')
    ensures RowsInv(db, tx')
  {
    hide Covered, InFlight, WithRow, Overlay, ItemsOf, Delta, ParentLocks, Distinct, AllReserved, AllStale, Owns;
    DeltaNext(db, tx.pc.rows, tx.pc.n, tx.pc.target);
  }

  lemma TypeLocked(db: Store, rows: seq<Id>, locks: set<Lock>, x: Id)
    requires LocksOf(db, rows, locks) && x in db.items && db.items[x].reservation in rows
    ensures LocksOf(db, rows, locks + {TypeLock(db.items[x].ticketType)})
  {
  }

  lemma SeatsRowAdvances(db: Store, tx: Tx)
    requires Typed(tx) && RowSeen(db, tx) && NextKind(db, tx, Seats) && tx.pc.todo == []
    requires RowsReserved(Overlay(db, tx.writes), tx.pc.rows[tx.pc.n])
    ensures AdvanceRows(db, tx)
         == Going(tx.(pc := Rows(tx.pc.rows, tx.pc.target, tx.pc.now, tx.pc.n + 1, [], tx.pc.saved, tx.pc.savedLocks,
                                 tx.pc.count + 1),
                      writes := WithRow(Overlay(db, tx.writes), tx.writes, tx.pc.rows[tx.pc.n], tx.pc.target)))
  {
    hide Inv, Overlay, RowsReserved, SettledRows, ItemsOf;
  }

  lemma SeatsRowSettled(db: Store, tx: Tx)
    requires Inv(db) && AtRow(db, tx) && NextKind(db, tx, Seats)
    ensures GoesOn(db, tx)
  {
    hide Inv, Covered, InFlight, RowsReserved, Overlay, Linked, Shaped, AdvanceRows, WithRow, Balanced, Delta, ItemsOf,
         ParentLocks, Distinct, AllReserved, AllStale, Owns;
    var view := Overlay(db, tx.writes);
    var r := tx.pc.rows[tx.pc.n];
    NextRow(db, tx);
    InvParts(view);
    SeatsReserved(view, r);
    SeatsRowCovered(db, tx, r, tx.pc.target);
    SeatsRowAdvances(db, tx);
    var tx' := AdvanceRows(db, tx).tx;
    SameCovered(db, tx.(writes := tx'.writes), tx');
    RowSettled(db, tx, tx');
  }

  lemma SameCovered(db: Store, a: Tx, b: Tx)
    requires a.writes == b.writes && a.locks == b.locks && Covered(db, a)
    ensures Covered(db, b)
  {
  }

  function Opened(db: Store, tx: Tx): Tx
    requires tx.pc.Rows? && tx.pc.n < |tx.pc.rows|
  {
    tx.(pc := Rows(tx.pc.rows, tx.pc.target, tx.pc.now, tx.pc.n, ItemsOf(Overlay(db, tx.writes), tx.pc.rows[tx.pc.n]),
                   tx.writes, tx.locks, tx.pc.count))
  }

  lemma QuantityRowOpens(db: Store, tx: Tx)
    requires Typed(tx) && RowSeen(db, tx) && NextKind(db, tx, Quantity) && tx.pc.todo == []
    requires ItemsOf(Overlay(db, tx.writes), tx.pc.rows[tx.pc.n]) != []
    ensures AdvanceRows(db, tx) == Going(Opened(db, tx))
  {
    hide Inv, Overlay, RowsReserved, SettledRows, ItemsOf;
  }

  lemma RowOpened(db: Store, tx: Tx)
    requires AtRow(db, tx) && NextKind(db, tx, Quantity)
    ensures RowsInv(db, Opened(db, tx))
  {
    hide Covered, InFlight, Delta, Overlay, ItemsOf, ParentLocks, Distinct, AllReserved, AllStale, Owns;
    SameCovered(db, tx, Opened(db, tx));
  }

  lemma QuantityRowOpened(db: Store, tx: Tx)
    requires Inv(db) && AtRow(db, tx) && NextKind(db, tx, Quantity) && tx.pc.todo == []
    ensures GoesOn(db, tx)
  {
    hide Inv, ItemsOf, Overlay, Linked, Shaped, Balanced, AdvanceRows, Covered, InFlight, Delta, ParentLocks, Distinct,
         AllReserved, AllStale, Owns;
    var view := Overlay(db, tx.writes);
    NextRow(db, tx);
    InvParts(view);
    var x := SoleItemExists(view, tx.pc.rows[tx.pc.n]);
    QuantityRowOpens(db, tx);
    RowOpened(db, tx);
  }

  function ItemMoved(view: Store, tx: Tx, x: Id): Tx
    requires tx.pc.Rows? && tx.pc.n < |tx.pc.rows| && tx.pc.rows[tx.pc.n] in view.reservations
    requires x in view.items && view.items[x].ticketType in view.ticketTypes
  {
    var r := tx.pc.rows[tx.pc.n];
    var item := view.items[x];
    tx.(pc := Rows(tx.pc.rows, tx.pc.target, tx.pc.now, tx.pc.n + 1, [], tx.pc.saved, tx.pc.savedLocks, tx.pc.count + 1),
        writes := PutQuantity(tx.writes, item.ticketType,
                    Move(view.ticketTypes[item.ticketType], item.quantity, tx.pc.target), x,
                    item.(status := tx.pc.target), r, view.reservations[r].(status := tx.pc.target)),
        locks := tx.locks + {TypeLock(item.ticketType)})
  }

  lemma QuantityRowAdvances(db: Store, tx: Tx, x: Id)
    requires Typed(tx) && tx.pc.Rows? && tx.pc.n < |tx.pc.rows| && tx.pc.todo == [x]
    requires SoleItem(Overlay(db, tx.writes), tx.pc.rows[tx.pc.n], x)
    requires CanMove(Overlay(db, tx.writes), Overlay(db, tx.writes).items[x].ticketType,
                     Overlay(db, tx.writes).items[x].quantity, tx.pc.target)
    ensures AdvanceRows(db, tx) == Going(ItemMoved(Overlay(db, tx.writes), tx, x))
  {
    hide Overlay, RowsReserved, SettledRows, ItemsOf;
  }

  lemma QuantityRowSettled(db: Store, tx: Tx)
    requires Inv(db) && AtRow(db, tx) && tx.pc.todo != []
    ensures GoesOn(db, tx)
  {
    hide Inv, InFlight, Delta, ItemsOf, Overlay, Linked, Shaped, Balanced, Covered, WithRow, RowLocks, AdvanceRows,
         PutQuantity, CanMove, Move, ParentLocks, Distinct, AllReserved, AllStale, Owns;
    var view := Overlay(db, tx.writes);
    var r := tx.pc.rows[tx.pc.n];
    NextRow(db, tx);
    InvParts(view);
    var x := SoleItemExists(view, r);
    GuardPasses(view, r, x, tx.pc.target);
    QuantityRowForm(view, tx.writes, r, x, tx.pc.target, tx.locks);
    QuantityRowCovered(db, tx, r, x, tx.pc.target);
    ViewOfCovered(db, tx, view.items[x].ticketType, x);
    TypeLocked(db, tx.pc.rows, tx.locks, x);
    QuantityRowAdvances(db, tx, x);
    var tx' := AdvanceRows(db, tx).tx;
    SameCovered(db, tx.(writes := tx'.writes, locks := tx'.locks), tx');
    RowSettled(db, tx, tx');
  }

  // Settling rows never meets a failing guard: it goes on, or commits the whole operation.
  lemma RowsStep(db: Store, ttl: int, tx: Tx, uid: Id)
    requires Inv(db) && TxInv(db, ttl, tx) && tx.pc.Rows?
    ensures GoodNext(db, ttl, tx, AdvanceRows(db, tx), OpOf(tx, uid))
    ensures !AdvanceRows(db, tx).Over?
  {
    hide Inv, RowsInv, AdvanceRows, CommitsAs;
    if tx.pc.n >= |tx.pc.rows| {
      RowsDone(db, tx);
      if tx.request.BatchRequest? {
        RowsBatchCommits(db, ttl, tx, uid);
      } else {
        RowsCallCommits(db, ttl, tx, uid);
      }
    } else {
      NextRow(db, tx);
      if tx.pc.todo != [] {
        QuantityRowSettled(db, tx);
      } else if db.reservations[tx.pc.rows[tx.pc.n]].kind.Quantity? {
        QuantityRowOpened(db, tx);
      } else {
        SeatsRowSettled(db, tx);
      }
    }
  }

  lemma RowsDone(db: Store, tx: Tx)
    requires RowsInv(db, tx) && tx.pc.n >= |tx.pc.rows|
    ensures tx.pc.n == |tx.pc.rows| && AdvanceRows(db, tx).Committed?
  {
  }

  // One statement of any transaction.
  lemma AdvanceStep(db: Store, clock: int, ttl: int, tx: Tx, taken: set<Lock>, uid: Id)
    requires Inv(db) && TxInv(db, ttl, tx) && !tx.pc.Done? && IsFresh(db, uid) && uid !in tx.writes.seatRows
    ensures GoodNext(db, ttl, tx, Advance(db, clock, ttl, tx, taken, uid), OpOf(tx, uid))
  {
    hide Inv, AdvanceRows, AdvanceQuantity, AdvanceSeats, AdvanceOwned, AdvanceBatch, CommitsAs, QuantityInv, SeatsInv,
         OwnedInv, BatchInv, RowsInv, Covered, InFlight;
    if tx.pc.Rows? {
      RowsStep(db, ttl, tx, uid);
    } else {
      match tx.request
      case QuantityRequest(_, _, _, _, _) =>
        if tx.pc.QItem? {
          QuantityClockFree(db, clock, ttl, tx, uid);
          QuantityCommits(db, ttl, tx, uid);
        } else {
          QuantityGoes(db, clock, ttl, tx, uid);
        }
      case SeatsRequest(_, _, _, _) => SeatsStep(db, clock, ttl, tx, uid);
      case LifecycleRequest(_, _, _) => OwnedStep(db, clock, ttl, tx);
      case BatchRequest(_, _, _) => BatchStep(db, clock, ttl, tx, taken);
    }
  }

  lemma QuantityClockFree(db: Store, clock: int, ttl: int, tx: Tx, uid: Id)
    requires Typed(tx) && tx.pc.QItem?
    ensures AdvanceQuantity(db, clock, ttl, tx, uid) == AdvanceQuantity(db, 0, ttl, tx, uid)
  {
  }
}
