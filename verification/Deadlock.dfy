/** The wait-for graph. Locks are taken upwards: seats by id, then parents by id, then a wait on the
    active-seat index towards a later `now`, then ticket types. Only a wait for somebody else's key and
    a batch waiting for a second ticket type can close a cycle, and they need incompatible requests under
    one key or two such batches. */
module Deadlock {
  import opened Tables
  import opened Ordering
  import opened Spec
  import opened Invariant
  import opened Operations
  import opened Concurrent
  import opened Isolation
  import opened RowWrites
  import opened Progress
  import opened Refinement

  // How far up the order of locks the transaction waits.
  ghost function Rank(db: Store, tx: Tx): (int, int)
    requires Typed(tx)
  {
    match Wanted(db, tx)
    case Nothing => (0, 0)
    case RowOf(SeatLock(s)) => (1, s)
    case RowOf(ParentLock(r)) => if tx.pc.LLock? then (0, 0) else (2, r)
    case SlotOf(_) => (3, if tx.pc.SSeats? then tx.pc.now else 0)
    case RowOf(TypeLock(t)) => (4, t)
    case RowOf(KeyLock(_, _)) => (5, 0)
  }

  ghost predicate Below(a: (int, int), b: (int, int)) {
    a.0 < b.0 || (a.0 == b.0 && a.1 < b.1)
  }

  // Waits for a key another request is inserting, or for a ticket type while holding one.
  ghost predicate Exposed(db: Store, tx: Tx)
    requires Typed(tx)
  {
    match Wanted(db, tx)
    case RowOf(KeyLock(_, _)) => true
    case RowOf(TypeLock(_)) => exists t :: TypeLock(t) in tx.locks
    case _ => false
  }

  // ----- what the holder of a lock can be waiting for -----

  lemma SeatHolder(db: Store, ttl: int, tx: Tx, s: Id)
    requires TxInv(db, ttl, tx) && SeatLock(s) in tx.locks
    ensures Wanted(db, tx).RowOf? && Wanted(db, tx).lock.SeatLock? ==> s < Wanted(db, tx).lock.s
    ensures !tx.pc.LLock? && tx.request.SeatsRequest?
  {
    hide StaleOk, SettledRows, SettledParents, KeyUsed, SlotFree, NewRows, Covered, InFlight, Delta, Overlay, Sorted,
         FoundSeats, AllReserved, RowsRequest, ItemsOf, CanMove, HasStock, Owns;
    if tx.pc.SLock? {
      var found := FoundSeats(db, tx.request.event, tx.request.seats);
      FoundAscend(db, tx.request.event, tx.request.seats);
      assert SeatLock(s) in SeatLocks(SetOf(found[..tx.pc.n]));
    }
  }

  lemma FoundAscend(db: Store, event: Id, seats: set<Id>)
    ensures Ascending(FoundSeats(db, event, seats))
  {
  }

  lemma ParentHolder(db: Store, ttl: int, tx: Tx, r: Id)
    requires TxInv(db, ttl, tx) && ParentLock(r) in tx.locks
    ensures Wanted(db, tx).RowOf? ==> !Wanted(db, tx).lock.SeatLock?
    ensures Wanted(db, tx).RowOf? && Wanted(db, tx).lock.ParentLock? ==> r < Wanted(db, tx).lock.r
    ensures !tx.pc.LLock?
  {
    hide SettledRows, SettledParents, KeyUsed, SlotFree, NewRows, Covered, InFlight, Delta, Overlay, Sorted, FoundSeats,
         AllReserved, RowsRequest, ItemsOf, CanMove, HasStock, Owns, StaleEntry;
  }

  lemma TypeHolder(db: Store, ttl: int, tx: Tx, t: Id)
    requires TxInv(db, ttl, tx) && TypeLock(t) in tx.locks
    ensures Wanted(db, tx) == Nothing || Exposed(db, tx)
  {
    hide SettledRows, SettledParents, KeyUsed, SlotFree, NewRows, Covered, InFlight, Delta, Overlay, Sorted, FoundSeats,
         AllReserved, RowsRequest, ItemsOf, CanMove, HasStock, Owns, StaleEntry, StaleOk;
  }

  lemma KeyHolder(db: Store, ttl: int, tx: Tx, session: Id, key: string)
    requires TxInv(db, ttl, tx) && KeyLock(session, key) in tx.locks
    ensures !tx.pc.Done? && (tx.request.QuantityRequest? || tx.request.SeatsRequest?)
    ensures tx.request.caller.session == session && tx.request.key == key
  {
    hide SettledRows, SettledParents, KeyUsed, SlotFree, NewRows, Covered, InFlight, Delta, Overlay, Sorted, FoundSeats,
         AllReserved, RowsRequest, ItemsOf, CanMove, HasStock, Owns, StaleEntry, StaleOk;
  }

  // A seat insert that waits on the index waits for a transaction acting on a later instant, or for one
  // that settles rows: the hold in its way was not yet stale for it, but is for the other.
  lemma SlotHolder(db: Store, ttl: int, tx: Tx, other: Tx, seat: Id)
    requires Typed(tx) && Typed(other) && Linked(db)
    requires TxInv(db, ttl, tx) && TxInv(db, ttl, other) && tx.locks !! other.locks
    requires Wanted(db, tx) == SlotOf(seat) && InFlightSlot(db, other.writes, seat)
    ensures Below(Rank(db, tx), Rank(db, other)) || Wanted(db, other) == Nothing
  {
    hide TxInv, Wanted, Linked;
    var i :| i in other.writes.seatRows && other.writes.seatRows[i].seat == seat;
    InWay(db, ttl, tx, other, seat, i);
    var r := db.seatRows[i].reservation;
    RowWriter(db, ttl, other, i);
    SlotWaiter(db, other);
    if other.pc.SSeats? {
      LaterHolder(db, ttl, other, r);
    }
  }

  lemma RowWriter(db: Store, ttl: int, tx: Tx, i: Id)
    requires TxInv(db, ttl, tx) && i in tx.writes.seatRows
    ensures Wanted(db, tx).RowOf? ==> !Wanted(db, tx).lock.SeatLock? && !Wanted(db, tx).lock.ParentLock?
  {
    hide SettledRows, SettledParents, KeyUsed, SlotFree, NewRows, Covered, InFlight, Delta, Overlay, Sorted, FoundSeats,
         AllReserved, RowsRequest, ItemsOf, CanMove, HasStock, Owns, StaleEntry, StaleOk, LocksOf;
  }

  lemma SlotWaiter(db: Store, tx: Tx)
    requires Typed(tx)
    ensures Wanted(db, tx).SlotOf? ==> tx.pc.SSeats?
    ensures tx.pc.SSeats? ==> Wanted(db, tx).SlotOf? || Wanted(db, tx) == Nothing
  {
  }

  lemma WaitingSeats(db: Store, ttl: int, tx: Tx, seat: Id)
    requires TxInv(db, ttl, tx) && Wanted(db, tx) == SlotOf(seat)
    ensures tx.pc.SSeats? && seat in tx.request.seats
    ensures SeatLock(seat) in tx.locks && forall r :: r in tx.pc.stale ==> ParentLock(r) in tx.locks
    ensures forall i :: i in db.seatRows && StaleRow(db.seatRows[i], tx.request.seats, tx.pc.now) ==>
              db.seatRows[i].reservation in tx.pc.stale
  {
    hide SettledRows, SettledParents, KeyUsed, SlotFree, NewRows, FoundSeats, Overlay, CanMove, HasStock, Owns, RowsInv,
         IsOrdered;
    SlotWaiter(db, tx);
    var ordered := Sorted(tx.request.seats);
    assert ordered[|tx.pc.ids|] in ordered;
    assert SeatLock(seat) in SeatLocks(tx.request.seats);
    forall r | r in tx.pc.stale ensures ParentLock(r) in tx.locks {
      assert ParentLock(r) in ParentLocks(tx.pc.stale);
    }
  }

  // The entry in the way belongs to a committed hold that is still running for the waiting request.
  lemma InWay(db: Store, ttl: int, tx: Tx, other: Tx, seat: Id, i: Id)
    requires Typed(tx) && Typed(other) && Linked(db)
    requires TxInv(db, ttl, tx) && TxInv(db, ttl, other) && tx.locks !! other.locks
    requires Wanted(db, tx) == SlotOf(seat)
    requires i in other.writes.seatRows && other.writes.seatRows[i].seat == seat
    ensures i in db.seatRows && db.seatRows[i].status.Reserved? && ParentLock(db.seatRows[i].reservation) in other.locks
    ensures tx.pc.SSeats? && tx.pc.now < db.seatRows[i].expiresAt
    ensures db.seatRows[i].reservation in db.reservations
    ensures db.reservations[db.seatRows[i].reservation].expiresAt == db.seatRows[i].expiresAt
  {
    WaitingSeats(db, ttl, tx, seat);
    TxCovered(db, ttl, other);
    hide TxInv, Wanted;
    assert CoveredRow(db, other, i);
    if i in db.seatRows {
      assert LinkedRow(db, db.seatRows[i]);
    }
  }

  lemma LaterHolder(db: Store, ttl: int, tx: Tx, r: Id)
    requires TxInv(db, ttl, tx) && tx.pc.SSeats? && ParentLock(r) in tx.locks
    ensures r in db.reservations && db.reservations[r].expiresAt <= tx.pc.now
  {
    hide SettledRows, SettledParents, KeyUsed, SlotFree, NewRows, FoundSeats, Sorted, HoldsOne;
    assert ParentLock(r) in ParentLocks(tx.pc.stale);
    assert StaleEntry(db, tx.request.seats, tx.pc.now, r);
  }

  // ----- every other wait goes up -----

  lemma WaitRises(s: Sys, a: Id, b: Id)
    requires SysInv(s) && WaitsFor(s, a, b)
    requires !Exposed(s.db, s.txs[a]) && !Exposed(s.db, s.txs[b])
    ensures Below(Rank(s.db, s.txs[a]), Rank(s.db, s.txs[b])) || Wanted(s.db, s.txs[b]) == Nothing
  {
    hide Inv, TxInv, Wanted, Typed;
    var tx, other := s.txs[a], s.txs[b];
    SysTyped(s, a);
    SysTyped(s, b);
    assert Apart(tx, other);
    match Wanted(s.db, tx)
    case RowOf(SeatLock(seat)) => SeatHolder(s.db, s.ttl, other, seat); SlotWaiter(s.db, other);
    case RowOf(ParentLock(r)) => ParentHolder(s.db, s.ttl, other, r); SlotWaiter(s.db, other);
    case RowOf(TypeLock(t)) => TypeHolder(s.db, s.ttl, other, t);
    case SlotOf(seat) => InvParts(s.db); SlotHolder(s.db, s.ttl, tx, other, seat);
    case _ =>
  }

  // ----- cycles -----

  ghost predicate WaitPath(s: Sys, path: seq<Id>)
    requires AllTyped(s)
  {
    forall k :: 0 <= k < |path| - 1 ==> WaitsFor(s, path[k], path[k + 1])
  }

  ghost predicate WaitCycle(s: Sys, path: seq<Id>)
    requires AllTyped(s)
  {
    |path| >= 2 && path[0] == path[|path| - 1] && WaitPath(s, path)
  }

  lemma Waiter(s: Sys, a: Id, b: Id)
    requires AllTyped(s) && WaitsFor(s, a, b)
    ensures a in s.txs && b in s.txs && Wanted(s.db, s.txs[a]) != Nothing
  {
    hide Wanted;
  }

  lemma {:induction false} PathRises(s: Sys, path: seq<Id>, k: nat)
    requires SysInv(s) && AllTyped(s) && WaitPath(s, path) && 0 < k < |path|
    requires forall m :: 0 <= m < |path| ==> path[m] in s.txs && !Exposed(s.db, s.txs[path[m]])
    requires forall m :: 0 <= m < |path| ==> Wanted(s.db, s.txs[path[m]]) != Nothing
    ensures Below(Rank(s.db, s.txs[path[0]]), Rank(s.db, s.txs[path[k]]))
  {
    hide SysInv, Wanted, Exposed, WaitsFor, Rank, Typed;
    assert WaitsFor(s, path[k - 1], path[k - 1 + 1]);
    WaitRises(s, path[k - 1], path[k]);
    if k > 1 {
      PathRises(s, path, k - 1);
    }
  }

  // Every cycle of waiting transactions passes through an exposed one.
  lemma CyclesAreExposed(s: Sys, path: seq<Id>)
    requires SysInv(s) && AllTyped(s) && WaitCycle(s, path)
    ensures exists k :: 0 <= k < |path| && path[k] in s.txs && Exposed(s.db, s.txs[path[k]])
  {
    hide SysInv, Wanted, Exposed, WaitsFor, Rank, Typed;
    forall m | 0 <= m < |path| ensures path[m] in s.txs && Wanted(s.db, s.txs[path[m]]) != Nothing {
      var n := if m == |path| - 1 then 0 else m;
      assert WaitsFor(s, path[n], path[n + 1]);
      Waiter(s, path[n], path[n + 1]);
    }
    if forall k :: 0 <= k < |path| ==> !Exposed(s.db, s.txs[path[k]]) {
      PathRises(s, path, |path| - 1);
    }
  }

  // ----- when no transaction is exposed -----

  predicate Reserving(tx: Tx) {
    !tx.pc.Done? && (tx.request.QuantityRequest? || tx.request.SeatsRequest?)
  }

  predicate SameKey(a: Tx, b: Tx)
    requires Reserving(a) && Reserving(b)
  {
    a.request.caller.session == b.request.caller.session && a.request.key == b.request.key
  }

  // Two requests of one kind; if for seats, with a common one, as a plain retry has.
  predicate Compatible(a: Request, b: Request) {
    || (a.QuantityRequest? && b.QuantityRequest?)
    || (a.SeatsRequest? && b.SeatsRequest? && a.seats * b.seats != {})
  }

  // A batch that has picked items of two ticket types.
  ghost predicate Mixed(s: Sys, a: Id) {
    && a in s.txs && s.txs[a].request.BatchRequest? && s.txs[a].pc.Rows?
    && exists t, u :: t != u && TypeOfRows(s.db, s.txs[a].pc.rows, t) && TypeOfRows(s.db, s.txs[a].pc.rows, u)
  }

  ghost predicate HasKind(db: Store, rows: seq<Id>, kind: Kind) {
    exists r :: r in rows && r in db.reservations && db.reservations[r].kind == kind
  }

  // A batch that has picked both a seat and a quantity reservation.
  ghost predicate Blended(s: Sys, a: Id) {
    && a in s.txs && s.txs[a].request.BatchRequest? && s.txs[a].pc.Rows?
    && HasKind(s.db, s.txs[a].pc.rows, Seats) && HasKind(s.db, s.txs[a].pc.rows, Quantity)
  }

  // Requests in flight under one key are compatible, or of different kinds while no batch blends kinds; and at
  // most one batch mixes ticket types.
  ghost predicate Calm(s: Sys) {
    && (forall a, b | a in s.txs && b in s.txs && a != b && Reserving(s.txs[a]) && Reserving(s.txs[b])
                      && SameKey(s.txs[a], s.txs[b]) ::
          || Compatible(s.txs[a].request, s.txs[b].request)
          || (s.txs[a].request.QuantityRequest? != s.txs[b].request.QuantityRequest? && forall u :: !Blended(s, u)))
    && (forall a, b :: Mixed(s, a) && Mixed(s, b) ==> a == b)
  }

  lemma KeyWaiter(db: Store, tx: Tx, session: Id, key: string)
    requires Typed(tx) && Wanted(db, tx) == RowOf(KeyLock(session, key))
    ensures Reserving(tx) && tx.request.caller.session == session && tx.request.key == key
  {
  }

  // A settling transaction waits only for ticket types of its rows.
  lemma TypeWaiter(db: Store, ttl: int, tx: Tx, t: Id)
    requires TxInv(db, ttl, tx) && Wanted(db, tx) == RowOf(TypeLock(t))
    ensures tx.pc.QStock? || (tx.pc.Rows? && TypeOfRows(db, tx.pc.rows, t) && LocksOf(db, tx.pc.rows, tx.locks))
  {
    hide Sorted, FoundSeats, HasStock, CanMove, Owns, SettledRows, SettledParents, KeyUsed, SlotFree, NewRows, Covered,
         InFlight, Delta, AllReserved, RowsRequest, StaleEntry, StaleOk, LocksOf, QuantityInv, SeatsInv, OwnedInv, BatchInv,
         Distinct, ParentLocks, IsOrdered, ItemColumn, Overlay, TypeOfRows;
    if tx.pc.Rows? {
      var pc := tx.pc;
      var view := Overlay(db, tx.writes);
      var r, x := pc.rows[pc.n], pc.todo[0];
      assert x in ItemsOf(view, r);
      ViewItem(db, tx, x);
      assert TypeOfRows(db, pc.rows, t) by { ItemType(db, pc.rows, x); }
    }
  }

  lemma ItemType(db: Store, rows: seq<Id>, x: Id)
    requires x in db.items && db.items[x].reservation in rows
    ensures TypeOfRows(db, rows, db.items[x].ticketType)
  {
  }

  lemma ViewItem(db: Store, tx: Tx, x: Id)
    requires Covered(db, tx) && InFlight(db, tx.writes) && x in Overlay(db, tx.writes).items
    ensures x in db.items && Overlay(db, tx.writes).items[x] == db.items[x].(status := Overlay(db, tx.writes).items[x].status)
  {
  }

  lemma SoleType(db: Store, r: Id, t: Id, u: Id)
    requires Shaped(db) && TypeOfRows(db, [r], t) && TypeOfRows(db, [r], u)
    ensures t == u
  {
  }

  lemma TypesHeld(db: Store, rows: seq<Id>, locks: set<Lock>, u: Id)
    requires LocksOf(db, rows, locks) && TypeLock(u) in locks
    ensures TypeOfRows(db, rows, u)
  {
  }

  lemma RowsAre(db: Store, ttl: int, tx: Tx)
    requires TxInv(db, ttl, tx)
    ensures tx.pc.Rows? && tx.request.LifecycleRequest? ==> tx.pc.rows == [tx.request.id]
    ensures tx.pc.QStock? ==> tx.locks == {}
    ensures tx.pc.Rows? ==> tx.request.LifecycleRequest? || tx.request.BatchRequest?
  {
  }

  // Whoever waits for a ticket type while holding another is a mixed batch.
  lemma TypesMixed(s: Sys, a: Id, b: Id, t: Id)
    requires SysInv(s) && AllTyped(s) && WaitsFor(s, a, b)
    requires Wanted(s.db, s.txs[a]) == RowOf(TypeLock(t)) && Exposed(s.db, s.txs[a])
    ensures Mixed(s, a)
  {
    assert Apart(s.txs[a], s.txs[b]);
    InvParts(s.db);
    var tx := s.txs[a];
    var u :| TypeLock(u) in tx.locks;
    assert TypeLock(t) in s.txs[b].locks;
    hide TxInv, Wanted, Inv, TypeOfRows, LocksOf, Linked, Shaped;
    TypeWaiter(s.db, s.ttl, tx, t);
    RowsAre(s.db, s.ttl, tx);
    TypesHeld(s.db, tx.pc.rows, tx.locks, u);
    if tx.request.LifecycleRequest? {
      SoleType(s.db, tx.request.id, t, u);
    }
  }

  lemma HolderInserts(db: Store, ttl: int, tx: Tx, session: Id, key: string)
    requires TxInv(db, ttl, tx) && KeyLock(session, key) in tx.locks && Wanted(db, tx) != Nothing
    ensures tx.pc.SSeats? && tx.request.SeatsRequest? && SeatLocks(tx.request.seats) <= tx.locks
  {
    hide SettledRows, SettledParents, KeyUsed, SlotFree, NewRows, Covered, InFlight, Delta, Overlay, Sorted, FoundSeats,
         AllReserved, RowsRequest, ItemsOf, CanMove, HasStock, Owns, StaleEntry, StaleOk;
  }

  lemma KeyWaiterLocks(db: Store, ttl: int, tx: Tx, session: Id, key: string)
    requires TxInv(db, ttl, tx) && Wanted(db, tx) == RowOf(KeyLock(session, key)) && tx.request.SeatsRequest?
    ensures SeatLocks(tx.request.seats) <= tx.locks
  {
    hide SettledRows, SettledParents, KeyUsed, SlotFree, NewRows, Covered, InFlight, Delta, Overlay, Sorted, FoundSeats,
         AllReserved, RowsRequest, ItemsOf, CanMove, HasStock, Owns, StaleEntry, StaleOk;
  }

  lemma SeatsMeet(a: Tx, b: Tx)
    requires Apart(a, b) && a.request.SeatsRequest? && b.request.SeatsRequest?
    requires SeatLocks(a.request.seats) <= a.locks && SeatLocks(b.request.seats) <= b.locks
    ensures a.request.seats * b.request.seats == {}
  {
    assert forall x :: x in a.request.seats ==> SeatLock(x) in SeatLocks(a.request.seats);
    assert forall x :: x in b.request.seats ==> SeatLock(x) in SeatLocks(b.request.seats);
  }

  // Who waits for the key of a request that waits itself is a quantity request, and that one waits at a seat:
  // two seat requests with a common seat do not both come to the key.
  lemma KeyWaits(s: Sys, a: Id, b: Id, c: Id)
    requires SysInv(s) && Calm(s) && AllTyped(s) && WaitsFor(s, a, b) && WaitsFor(s, b, c)
    requires Wanted(s.db, s.txs[a]).RowOf? && Wanted(s.db, s.txs[a]).lock.KeyLock?
    ensures s.txs[b].pc.SSeats? && s.txs[a].request.QuantityRequest? && forall u :: !Blended(s, u)
  {
    hide TxInv, Wanted, Inv, Mixed, SeatLocks, Blended;
    var tx, other := s.txs[a], s.txs[b];
    assert Apart(tx, other);
    var KeyLock(session, key) := Wanted(s.db, tx).lock;
    KeyWaiter(s.db, tx, session, key);
    KeyHolder(s.db, s.ttl, other, session, key);
    HolderInserts(s.db, s.ttl, other, session, key);
    assert SameKey(tx, other);
    if tx.request.SeatsRequest? {
      KeyWaiterLocks(s.db, s.ttl, tx, session, key);
      SeatsMeet(tx, other);
    }
  }

  // A settling transaction that has expired a row of a seat hold and waits for a ticket type blends kinds.
  lemma BlendsKinds(s: Sys, a: Id, r: Id, t: Id)
    requires SysInv(s) && a in s.txs && r in s.db.reservations && s.db.reservations[r].kind.Seats?
    requires ParentLock(r) in s.txs[a].locks && Typed(s.txs[a]) && Wanted(s.db, s.txs[a]) == RowOf(TypeLock(t))
    ensures Blended(s, a)
  {
    var tx := s.txs[a];
    hide Inv, TxInv, Wanted, Linked, Shaped, TypeOfRows, LocksOf, HasKind, AllApart, AllTimely;
    InvParts(s.db);
    TypeWaiter(s.db, s.ttl, tx, t);
    RowsAre(s.db, s.ttl, tx);
    ItemKind(s.db, tx.pc.rows, t);
    ParentPicked(s.db, tx.pc.rows, tx.locks, r);
    if tx.request.LifecycleRequest? {
      SoleKind(s.db, tx.request.id);
    }
  }

  lemma ItemKind(db: Store, rows: seq<Id>, t: Id)
    requires Linked(db) && TypeOfRows(db, rows, t)
    ensures HasKind(db, rows, Quantity)
  {
    var i :| i in db.items && db.items[i].reservation in rows && db.items[i].ticketType == t;
    assert db.items[i].reservation in db.reservations;
  }

  lemma ParentPicked(db: Store, rows: seq<Id>, locks: set<Lock>, r: Id)
    requires LocksOf(db, rows, locks) && ParentLock(r) in locks && r in db.reservations
    ensures HasKind(db, rows, db.reservations[r].kind)
  {
  }

  lemma SoleKind(db: Store, r: Id)
    ensures !(HasKind(db, [r], Seats) && HasKind(db, [r], Quantity))
  {
  }

  lemma QuantityParents(db: Store, ttl: int, tx: Tx, r: Id)
    requires TxInv(db, ttl, tx) && (tx.pc.QInsert? || tx.pc.QStock?)
    ensures ParentLock(r) !in tx.locks
  {
    hide HasStock;
  }

  // Without such a batch whoever makes a seat insert wait and waits itself is a seat request: at a seat with
  // a later instant, or at its key.
  lemma SlotAhead(s: Sys, a: Id, b: Id, c: Id, seat: Id)
    requires SysInv(s) && AllTyped(s) && WaitsFor(s, a, b) && WaitsFor(s, b, c)
    requires Wanted(s.db, s.txs[a]) == SlotOf(seat) && forall u :: !Blended(s, u)
    ensures Below(Rank(s.db, s.txs[a]), Rank(s.db, s.txs[b]))
    ensures s.txs[b].pc.SSeats? || (s.txs[b].request.SeatsRequest? && Wanted(s.db, s.txs[b]).RowOf?
                                    && Wanted(s.db, s.txs[b]).lock.KeyLock?)
  {
    hide Inv, TxInv, Wanted, Blended, Rank, Linked, Typed;
    var tx, other := s.txs[a], s.txs[b];
    assert Apart(tx, other);
    InvParts(s.db);
    Waiter(s, b, c);
    SlotHolder(s.db, s.ttl, tx, other, seat);
    SlotWaiter(s.db, other);
    var i :| i in other.writes.seatRows && other.writes.seatRows[i].seat == seat;
    InWay(s.db, s.ttl, tx, other, seat, i);
    RowWriter(s.db, s.ttl, other, i);
    SeatRowKind(s.db, i);
    match Wanted(s.db, other)
    case RowOf(TypeLock(t)) => BlendsKinds(s, b, s.db.seatRows[i].reservation, t);
    case RowOf(KeyLock(session, key)) => KeyPlaces(s.db, other, session, key);
      if other.pc.QInsert? { QuantityParents(s.db, s.ttl, other, s.db.seatRows[i].reservation); }
    case _ =>
  }

  lemma KeyPlaces(db: Store, tx: Tx, session: Id, key: string)
    requires Typed(tx) && Wanted(db, tx) == RowOf(KeyLock(session, key))
    ensures tx.pc.QInsert? || (tx.pc.SInsert? && tx.request.SeatsRequest?)
  {
  }

  lemma SeatRowKind(db: Store, i: Id)
    requires Linked(db) && i in db.seatRows
    ensures db.seatRows[i].reservation in db.reservations && db.reservations[db.seatRows[i].reservation].kind.Seats?
  {
  }

  // Each of these transactions waits for another of them.
  ghost predicate Knot(s: Sys, ids: set<Id>)
    requires AllTyped(s)
  {
    ids != {} && ids <= s.txs.Keys && forall a :: a in ids ==> exists b :: b in ids && WaitsFor(s, a, b)
  }

  lemma {:induction false} Topmost(s: Sys, ids: set<Id>) returns (a: Id)
    requires AllTyped(s) && ids <= s.txs.Keys && ids != {}
    ensures a in ids && forall b :: b in ids ==> !Below(Rank(s.db, s.txs[a]), Rank(s.db, s.txs[b]))
    decreases |ids|
  {
    hide Rank, Typed;
    var x :| x in ids;
    a := x;
    if ids != {x} {
      var y := Topmost(s, ids - {x});
      a := if Below(Rank(s.db, s.txs[x]), Rank(s.db, s.txs[y])) then y else x;
      forall b | b in ids ensures !Below(Rank(s.db, s.txs[a]), Rank(s.db, s.txs[b])) {
        assert b == x || b in ids - {x};
      }
    }
  }

  lemma NextIn(s: Sys, ids: set<Id>, a: Id) returns (b: Id)
    requires AllTyped(s) && Knot(s, ids) && a in ids
    ensures b in ids && b in s.txs && WaitsFor(s, a, b) && a in s.txs && Wanted(s.db, s.txs[a]) != Nothing
  {
    hide WaitsFor, Wanted, Typed;
    b :| b in ids && WaitsFor(s, a, b);
    Waiter(s, a, b);
  }

  // The seat request furthest up in a knot would have to wait for one further up.
  lemma NoKeyInKnot(s: Sys, ids: set<Id>, a: Id)
    requires SysInv(s) && AllTyped(s) && Calm(s) && Knot(s, ids) && a in ids
    ensures Wanted(s.db, s.txs[a]).RowOf? ==> !Wanted(s.db, s.txs[a]).lock.KeyLock?
  {
    hide SysInv, Wanted, WaitsFor, Rank, Typed, Calm, Below, Blended, Knot;
    assert a in s.txs by { var b := NextIn(s, ids, a); }
    if Wanted(s.db, s.txs[a]).RowOf? && Wanted(s.db, s.txs[a]).lock.KeyLock? {
      var b := NextIn(s, ids, a);
      var c := NextIn(s, ids, b);
      KeyWaits(s, a, b, c);
      var seated := set u | u in ids && u in s.txs && s.txs[u].pc.SSeats?;
      assert b in seated;
      var top := Topmost(s, seated);
      var m := NextIn(s, ids, top);
      var n := NextIn(s, ids, m);
      SlotWaiter(s.db, s.txs[top]);
      SlotAhead(s, top, m, n, Wanted(s.db, s.txs[top]).seat);
      if !s.txs[m].pc.SSeats? {
        var o := NextIn(s, ids, n);
        KeyWaits(s, m, n, o);
      }
    }
  }

  // A transaction in a knot waits neither for a key nor, having a ticket type, for another.
  lemma NoneExposed(s: Sys, ids: set<Id>, a: Id)
    requires SysInv(s) && AllTyped(s) && Calm(s) && Knot(s, ids) && a in ids
    ensures !Exposed(s.db, s.txs[a])
  {
    hide TxInv, Wanted, Inv, Mixed, Knot;
    NoKeyInKnot(s, ids, a);
    var b := NextIn(s, ids, a);
    var c := NextIn(s, ids, b);
    NoKeyInKnot(s, ids, b);
    match Wanted(s.db, s.txs[a])
    case RowOf(TypeLock(t)) =>
      TypeHolder(s.db, s.ttl, s.txs[b], t);
      if Exposed(s.db, s.txs[a]) {
        TypesMixed(s, a, b, t);
        TypesMixed(s, b, c, Wanted(s.db, s.txs[b]).lock.t);
      }
    case _ =>
  }

  lemma NoKnot(s: Sys, ids: set<Id>)
    requires SysInv(s) && AllTyped(s) && Calm(s)
    ensures !Knot(s, ids)
  {
    hide SysInv, Wanted, Exposed, WaitsFor, Rank, Typed, Calm, Below;
    if Knot(s, ids) {
      assert ids != {} && ids <= s.txs.Keys;
      hide Knot;
      var a := Topmost(s, ids);
      var b := NextIn(s, ids, a);
      var c := NextIn(s, ids, b);
      NoneExposed(s, ids, a);
      NoneExposed(s, ids, b);
      WaitRises(s, a, b);
    }
  }

  // As long as requests under one key are compatible, or of different kinds while no batch blends kinds, and at
  // most one batch mixes ticket types, there is no cycle of waiting transactions.
  lemma NoDeadlock(s: Sys, path: seq<Id>)
    requires SysInv(s) && AllTyped(s) && Calm(s)
    ensures !WaitCycle(s, path)
  {
    hide SysInv, Wanted, WaitsFor, Typed, Calm;
    if WaitCycle(s, path) {
      var ids := set x | x in path;
      forall a | a in ids ensures a in s.txs && exists b :: b in ids && WaitsFor(s, a, b) {
        var k :| 0 <= k < |path| && path[k] == a;
        var n := if k == |path| - 1 then 0 else k;
        assert WaitsFor(s, path[n], path[n + 1]);
        Waiter(s, path[n], path[n + 1]);
      }
      assert path[0] in ids;
      NoKnot(s, ids);
    }
  }

  // ----- progress -----

  lemma {:induction false} UnusedId(used: set<Id>) returns (uid: Id)
    ensures forall i :: i in used ==> i < uid
    decreases |used|
  {
    uid := 0;
    if used != {} {
      var x :| x in used;
      var rest := UnusedId(used - {x});
      uid := if rest <= x then x + 1 else rest;
      forall i | i in used ensures i < uid { assert i == x || i in used - {x}; }
    }
  }

  lemma SomeIdIsNew(s: Sys) returns (uid: Id)
    ensures IsNew(s, uid)
  {
    var parents := set u, r | u in s.txs && r in s.txs[u].writes.reservations :: r;
    var rows := set u, i | u in s.txs && i in s.txs[u].writes.seatRows :: i;
    uid := UnusedId(s.db.reservations.Keys + s.db.items.Keys + s.db.seatRows.Keys + parents + rows);
    forall u | u in s.txs ensures uid !in s.txs[u].writes.reservations && uid !in s.txs[u].writes.seatRows {
      assert uid in s.txs[u].writes.reservations ==> uid in parents;
      assert uid in s.txs[u].writes.seatRows ==> uid in rows;
    }
  }

  ghost predicate Stuck(s: Sys, a: Id)
    requires AllTyped(s)
  {
    exists b :: WaitsFor(s, a, b)
  }

  lemma HolderLives(s: Sys, a: Id, b: Id)
    requires SysInv(s) && AllTyped(s) && WaitsFor(s, a, b)
    ensures !s.txs[b].pc.Done?
  {
    hide Wanted, Inv, AllApart, RowsInv, QuantityInv, SeatsInv, OwnedInv, BatchInv;
    assert TxInv(s.db, s.ttl, s.txs[b]);
  }

  ghost function Unfinished(s: Sys): set<Id> {
    set a | a in s.txs && !s.txs[a].pc.Done?
  }

  // Whom a stuck transaction waits for is unfinished.
  lemma Ahead(s: Sys, a: Id) returns (b: Id)
    requires SysInv(s) && AllTyped(s) && Stuck(s, a)
    ensures WaitsFor(s, a, b) && b in Unfinished(s)
  {
    hide SysInv, Wanted, WaitsFor, Typed;
    b :| WaitsFor(s, a, b);
    Waiter(s, a, b);
    HolderLives(s, a, b);
  }

  lemma NotAllStuck(s: Sys, id: Id)
    requires SysInv(s) && AllTyped(s) && Calm(s) && id in Unfinished(s)
    ensures exists a :: a in Unfinished(s) && !Stuck(s, a)
  {
    hide SysInv, Wanted, WaitsFor, Typed, Calm, Stuck;
    if forall a :: a in Unfinished(s) ==> Stuck(s, a) {
      forall a | a in Unfinished(s) ensures exists b :: b in Unfinished(s) && WaitsFor(s, a, b) {
        var b := Ahead(s, a);
      }
      NoKnot(s, Unfinished(s));
    }
  }

  // As long as a request is unfinished some transaction can run its next statement.
  lemma SomebodyCanGo(s: Sys, id: Id)
    requires SysInv(s) && AllTyped(s) && Calm(s) && id in s.txs && !s.txs[id].pc.Done?
    ensures exists a, uid :: Enabled(s, Run(a, uid))
  {
    hide SysInv, Wanted, WaitsFor, Rank, Typed, Calm, IsNew;
    var uid := SomeIdIsNew(s);
    NotAllStuck(s, id);
    var a :| a in Unfinished(s) && !Stuck(s, a);
    assert Enabled(s, Run(a, uid));
  }
}
