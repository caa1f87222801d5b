/** What a transaction has read, locked and written by each statement, relative to the committed store. */
module Progress {
  import opened Tables
  import opened Ordering
  import opened Spec
  import opened Operations
  import opened Outcomes
  import opened Concurrent
  import opened Isolation
  import opened RowWrites

  ghost predicate Idle(tx: Tx) {
    tx.writes == NO_WRITES && tx.locks == {}
  }

  // ----- quantity requests -----

  function HeldStock(db: Store, t: Id, quantity: int): Writes
    requires t in db.ticketTypes
  {
    NO_WRITES.(ticketTypes := map[t := Hold(db.ticketTypes[t], quantity)])
  }

  ghost predicate QuantityInv(db: Store, ttl: int, tx: Tx)
    requires Typed(tx) && tx.request.QuantityRequest?
  {
    var q := tx.request;
    match tx.pc
    case QClock =>
      && HasStock(db, q.event, q.ticketType, q.quantity)
      && tx.locks == {TypeLock(q.ticketType)} && tx.writes == HeldStock(db, q.ticketType, q.quantity)
    case QInsert(_) =>
      && HasStock(db, q.event, q.ticketType, q.quantity)
      && tx.locks == {TypeLock(q.ticketType)} && tx.writes == HeldStock(db, q.ticketType, q.quantity)
    case QItem(now, rid) =>
      && HasStock(db, q.event, q.ticketType, q.quantity)
      && tx.locks == {TypeLock(q.ticketType), KeyLock(q.caller.session, q.key)}
      && tx.writes == HeldStock(db, q.ticketType, q.quantity).(
           reservations := map[rid := QuantityParent(q.caller, q.event, q.key, now + ttl)])
      && rid !in db.reservations && !KeyUsed(db, q.caller.session, q.key)
    case _ => Idle(tx)
  }

  // ----- seat requests -----

  ghost function SeatLocks(seats: set<Id>): set<Lock> {
    set s | s in seats :: SeatLock(s)
  }

  ghost function ParentLocks(rows: seq<Id>): set<Lock> {
    set r | r in rows :: ParentLock(r)
  }

  ghost predicate HoldsOne(db: Store, r: Id, seats: set<Id>) {
    exists s :: s in seats && SeatOf(db, r, s)
  }

  ghost predicate StaleEntry(db: Store, seats: set<Id>, now: int, r: Id) {
    && r in db.reservations && db.reservations[r].kind.Seats? && db.reservations[r].expiresAt <= now
    && HoldsOne(db, r, seats)
  }

  // The list of stale holders read earlier is still complete: nobody else can add to it, only settle rows of it.
  ghost predicate StaleOk(db: Store, seats: set<Id>, now: int, stale: seq<Id>) {
    && Ascending(stale)
    && (forall r :: r in stale ==> StaleEntry(db, seats, now, r))
    && (forall i :: i in db.seatRows && StaleRow(db.seatRows[i], seats, now) ==> db.seatRows[i].reservation in stale)
  }

  // Every active row on the seat belongs to one of the holders and is still reserved.
  ghost predicate SlotFree(db: Store, s: Id, holders: set<Id>) {
    forall i :: i in db.seatRows && db.seatRows[i].seat == s && db.seatRows[i].status.Active() ==>
      db.seatRows[i].reservation in holders && db.seatRows[i].status.Reserved?
  }

  function ExpiredRows(db: Store, stale: seq<Id>): map<Id, SeatRow> {
    SettledRows(db, SetOf(stale), Expired)
  }

  function ExpiredParents(db: Store, stale: seq<Id>): map<Id, Reservation> {
    SettledParents(db, SetOf(stale), Expired)
  }

  ghost predicate SeatsLocked(db: Store, tx: Tx, more: set<Lock>)
    requires tx.request.SeatsRequest?
  {
    && FoundSeats(db, tx.request.event, tx.request.seats) == Sorted(tx.request.seats)
    && tx.locks == SeatLocks(tx.request.seats) + more
  }

  ghost predicate SeatsInv(db: Store, ttl: int, tx: Tx)
    requires Typed(tx) && tx.request.SeatsRequest?
  {
    var q := tx.request;
    match tx.pc
    case SLock(n) =>
      var found := FoundSeats(db, q.event, q.seats);
      n <= |found| && tx.locks == SeatLocks(SetOf(found[..n])) && tx.writes == NO_WRITES
    case SClock => SeatsLocked(db, tx, {}) && tx.writes == NO_WRITES
    case SRead(_) => SeatsLocked(db, tx, {}) && tx.writes == NO_WRITES
    case SParents(now, stale, n) =>
      && n <= |stale| && SeatsLocked(db, tx, ParentLocks(stale[..n])) && StaleOk(db, q.seats, now, stale)
      && tx.writes == NO_WRITES
    case SExpireRows(now, stale) =>
      && SeatsLocked(db, tx, ParentLocks(stale)) && StaleOk(db, q.seats, now, stale)
      && tx.writes == NO_WRITES
    case SExpireParents(now, stale) =>
      && SeatsLocked(db, tx, ParentLocks(stale)) && StaleOk(db, q.seats, now, stale)
      && tx.writes == NO_WRITES.(seatRows := ExpiredRows(db, stale))
    case SInsert(now, stale) =>
      && SeatsLocked(db, tx, ParentLocks(stale)) && StaleOk(db, q.seats, now, stale)
      && tx.writes == NO_WRITES.(seatRows := ExpiredRows(db, stale), reservations := ExpiredParents(db, stale))
    case SSeats(now, stale, rid, ids) =>
      && SeatsLocked(db, tx, ParentLocks(stale) + {KeyLock(q.caller.session, q.key)})
      && StaleOk(db, q.seats, now, stale)
      && rid !in db.reservations && !KeyUsed(db, q.caller.session, q.key)
      && Distinct(ids) && (forall i :: i in ids ==> i !in db.seatRows)
      && (forall k :: 0 <= k < |ids| ==> SlotFree(db, Sorted(q.seats)[k], SetOf(stale)))
      && tx.writes == NO_WRITES.(
           reservations := ExpiredParents(db, stale)[rid := SeatsParent(q.caller, q.event, q.key, now + ttl)],
           seatRows := ExpiredRows(db, stale) + NewRows(rid, Sorted(q.seats), ids, now + ttl))
    case _ => Idle(tx)
  }

  // ----- cancels, confirms and batches -----

  ghost predicate OwnedInv(db: Store, tx: Tx)
    requires tx.request.LifecycleRequest?
  {
    match tx.pc
    case LCheck =>
      && tx.writes == NO_WRITES && tx.locks == {ParentLock(tx.request.id)}
      && tx.request.id in db.reservations && Owns(db.reservations[tx.request.id], tx.request.caller)
    case _ => Idle(tx)
  }

  ghost predicate AllStale(db: Store, rows: seq<Id>, now: int) {
    forall r :: r in rows ==> r in db.reservations && StaleReservation(db.reservations[r], now)
  }

  ghost predicate BatchInv(db: Store, tx: Tx)
    requires tx.request.BatchRequest?
  {
    match tx.pc
    case BScan(now, candidates, got) =>
      && tx.writes == NO_WRITES && tx.locks == ParentLocks(got)
      && AllStale(db, got, now) && Distinct(got + candidates)
    case _ => Idle(tx)
  }

  ghost predicate RowsRequest(db: Store, tx: Tx)
    requires tx.pc.Rows? && (tx.request.LifecycleRequest? || tx.request.BatchRequest?)
  {
    var q := tx.request;
    if q.BatchRequest? then
      tx.pc.target.Expired? && AllStale(db, tx.pc.rows, tx.pc.now)
    else
      && tx.pc.rows == [q.id] && q.id in db.reservations && Owns(db.reservations[q.id], q.caller)
      && tx.pc.target == (if db.reservations[q.id].expiresAt < tx.pc.now then Expired else q.target)
  }

  // Every uncommitted child row is a known one or hangs under an uncommitted parent.
  ghost predicate InFlight(db: Store, w: Writes) {
    && (forall i :: i in w.items ==> i in db.items)
    && (forall i :: i in w.seatRows && i !in db.seatRows ==> w.seatRows[i].reservation in w.reservations)
  }

  // `t` is the ticket type of an item of one of the rows.
  ghost predicate TypeOfRows(db: Store, rows: seq<Id>, t: Id) {
    exists i :: i in db.items && db.items[i].reservation in rows && db.items[i].ticketType == t
  }

  ghost predicate LocksOf(db: Store, rows: seq<Id>, locks: set<Lock>) {
    forall l :: l in locks ==> (l.TypeLock? && TypeOfRows(db, rows, l.t)) || l in ParentLocks(rows)
  }

  ghost predicate RowsInv(db: Store, tx: Tx) {
    && Typed(tx) && tx.pc.Rows?
    && var pc := tx.pc;
    && RowsRequest(db, tx)
    && Distinct(pc.rows) && AllReserved(db, pc.rows) && ParentLocks(pc.rows) <= tx.locks
    && pc.n <= |pc.rows| && pc.count == pc.n && !pc.target.Reserved?
    && tx.writes == Delta(db, pc.rows[..pc.n], pc.target)
    && Covered(db, tx) && InFlight(db, tx.writes)
    && LocksOf(db, pc.rows, tx.locks)
    && (pc.todo != [] ==>
          && pc.n < |pc.rows| && db.reservations[pc.rows[pc.n]].kind.Quantity?
          && pc.todo == ItemsOf(Overlay(db, tx.writes), pc.rows[pc.n])
          && pc.saved == tx.writes && pc.savedLocks == tx.locks)
  }

  ghost predicate TxInv(db: Store, ttl: int, tx: Tx) {
    && Typed(tx) && ValidRequest(tx.request)
    && if tx.pc.Done? then Idle(tx)
       else if tx.pc.Rows? then RowsInv(db, tx)
       else match tx.request
         case QuantityRequest(_, _, _, _, _) => QuantityInv(db, ttl, tx)
         case SeatsRequest(_, _, _, _) => SeatsInv(db, ttl, tx)
         case LifecycleRequest(_, _, _) => OwnedInv(db, tx)
         case BatchRequest(_, _, _) => BatchInv(db, tx)
  }

  // ----- clock readings -----

  function PcNow(pc: Pc): Option<int> {
    match pc
    case QInsert(now) => Some(now)
    case QItem(now, _) => Some(now)
    case SRead(now) => Some(now)
    case SParents(now, _, _) => Some(now)
    case SExpireRows(now, _) => Some(now)
    case SExpireParents(now, _) => Some(now)
    case SInsert(now, _) => Some(now)
    case SSeats(now, _, _, _) => Some(now)
    case BSelect(now) => Some(now)
    case BScan(now, _, _) => Some(now)
    case Rows(_, _, now, _, _, _, _, _) => Some(now)
    case _ => None
  }

  // The instant the transaction acts on: the one given to the batch, or one between its beginning and now.
  ghost predicate InTime(tx: Tx, clock: int, now: int) {
    if tx.request.BatchRequest? && tx.request.at.Some? then now == tx.request.at.value else tx.began <= now <= clock
  }

  ghost predicate Timely(clock: int, tx: Tx) {
    tx.began <= clock && (PcNow(tx.pc).Some? ==> InTime(tx, clock, PcNow(tx.pc).value))
  }

  // ----- every write is covered by a lock, at every statement -----

  lemma IdleCovered(db: Store, tx: Tx)
    requires tx.writes == NO_WRITES
    ensures Covered(db, tx) && InFlight(db, tx.writes)
  {
  }

  lemma QuantityCovered(db: Store, ttl: int, tx: Tx)
    requires Typed(tx) && tx.request.QuantityRequest? && QuantityInv(db, ttl, tx)
    ensures Covered(db, tx) && InFlight(db, tx.writes)
  {
  }

  lemma ExpiredCovered(db: Store, tx: Tx, seats: set<Id>, now: int, stale: seq<Id>, i: Id)
    requires StaleOk(db, seats, now, stale) && ParentLocks(stale) <= tx.locks
    requires i in tx.writes.seatRows && i in ExpiredRows(db, stale) && tx.writes.seatRows[i] == ExpiredRows(db, stale)[i]
    ensures CoveredRow(db, tx, i)
  {
  }

  lemma ExpiredParentCovered(db: Store, tx: Tx, stale: seq<Id>, r: Id)
    requires ParentLocks(stale) <= tx.locks
    requires r in tx.writes.reservations && r in ExpiredParents(db, stale)
    requires tx.writes.reservations[r] == ExpiredParents(db, stale)[r]
    ensures CoveredParent(db, tx, r)
  {
  }

  lemma SeatsExpiredCovered(db: Store, ttl: int, tx: Tx)
    requires Typed(tx) && tx.request.SeatsRequest? && SeatsInv(db, ttl, tx)
    requires tx.pc.SExpireParents? || tx.pc.SInsert?
    ensures Covered(db, tx) && InFlight(db, tx.writes)
  {
    hide StaleOk, SettledRows, SettledParents, FoundSeats, Sorted;
    forall i | i in tx.writes.seatRows ensures i in db.seatRows && CoveredRow(db, tx, i) {
      ExpiredCovered(db, tx, tx.request.seats, tx.pc.now, tx.pc.stale, i);
      ExpiredKnown(db, tx.pc.stale, i);
    }
    forall r | r in tx.writes.reservations ensures CoveredParent(db, tx, r) {
      ExpiredParentCovered(db, tx, tx.pc.stale, r);
    }
  }

  lemma ExpiredKnown(db: Store, stale: seq<Id>, i: Id)
    ensures i in ExpiredRows(db, stale) ==> i in db.seatRows
    ensures i in ExpiredParents(db, stale) ==> i in db.reservations
  {
  }

  lemma NewRowCovered(db: Store, tx: Tx, rid: Id, seats: set<Id>, ids: seq<Id>, expiresAt: int, i: Id)
    requires |ids| <= |seats| && Distinct(ids) && SeatLocks(seats) <= tx.locks
    requires rid !in db.reservations && forall j :: j in ids ==> j !in db.seatRows
    requires i in NewRows(rid, Sorted(seats), ids, expiresAt)
    requires i in tx.writes.seatRows && tx.writes.seatRows[i] == NewRows(rid, Sorted(seats), ids, expiresAt)[i]
    ensures CoveredRow(db, tx, i) && tx.writes.seatRows[i].reservation == rid
  {
    NewRowsAt(rid, Sorted(seats), ids, expiresAt);
    var k :| 0 <= k < |ids| && ids[k] == i;
    assert Sorted(seats)[k] in Sorted(seats);
    assert SeatLock(Sorted(seats)[k]) in SeatLocks(seats);
  }

  lemma SeatsInsertedCovered(db: Store, ttl: int, tx: Tx)
    requires Typed(tx) && tx.request.SeatsRequest? && SeatsInv(db, ttl, tx) && tx.pc.SSeats?
    ensures Covered(db, tx) && InFlight(db, tx.writes)
  {
    hide StaleOk, SettledRows, SettledParents, FoundSeats, Sorted, NewRows, SlotFree;
    var SSeats(now, stale, rid, ids) := tx.pc;
    var seats := tx.request.seats;
    forall i | i in tx.writes.seatRows
      ensures CoveredRow(db, tx, i) && (i in db.seatRows || tx.writes.seatRows[i].reservation == rid)
    {
      if i in NewRows(rid, Sorted(seats), ids, now + ttl) {
        NewRowCovered(db, tx, rid, seats, ids, now + ttl, i);
      } else {
        ExpiredCovered(db, tx, seats, now, stale, i);
        ExpiredKnown(db, stale, i);
      }
    }
    forall r | r in tx.writes.reservations ensures CoveredParent(db, tx, r) {
      if r != rid {
        ExpiredParentCovered(db, tx, stale, r);
      }
    }
  }

  lemma TxCovered(db: Store, ttl: int, tx: Tx)
    requires TxInv(db, ttl, tx)
    ensures Covered(db, tx) && InFlight(db, tx.writes)
  {
    hide Covered, InFlight, StaleOk, SettledRows, SettledParents, FoundSeats, Sorted, NewRows, SlotFree, Delta;
    if tx.writes == NO_WRITES {
      IdleCovered(db, tx);
    } else if !tx.pc.Rows? {
      if tx.request.QuantityRequest? {
        QuantityCovered(db, ttl, tx);
      } else if tx.pc.SSeats? {
        SeatsInsertedCovered(db, ttl, tx);
      } else {
        SeatsExpiredCovered(db, ttl, tx);
      }
    }
  }
}
