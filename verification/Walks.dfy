/** Pieces of traces: a transaction that meets no competing lock walks through its statements. */
module Walks {
  import opened Tables
  import opened Ordering
  import opened Spec
  import opened Invariant
  import opened Transitions
  import opened Operations
  import opened Outcomes
  import opened Runs
  import opened Concurrent
  import opened Isolation
  import opened RowWrites
  import opened Progress
  import opened Steps
  import opened Refinement
  import opened Deadlock

  // The system is reached from newly created events, ticket types and seats, with no request yet.
  ghost predicate Arises(s: Sys) {
    exists s0: Sys, actions :: Fresh(s0.db) && s0.txs == map[] && GoodTrace(s0, actions) && Trace(s0, actions) == s
  }

  lemma ArisesFresh(s: Sys)
    requires Fresh(s.db) && s.txs == map[]
    ensures Arises(s)
  {
    assert GoodTrace(s, []) && Trace(s, []) == s;
  }

  lemma ArisesNext(s: Sys, a: Action)
    requires Arises(s) && Enabled(s, a)
    ensures Arises(Do(s, a))
  {
    hide Enabled, Do, Fresh;
    var s0: Sys, actions :| Fresh(s0.db) && s0.txs == map[] && GoodTrace(s0, actions) && Trace(s0, actions) == s;
    assert (actions + [a])[..|actions|] == actions;
    assert GoodTrace(s0, actions + [a]) && Trace(s0, actions + [a]) == Do(s, a);
  }

  lemma ArisesInv(s: Sys)
    requires Arises(s)
    ensures SysInv(s) && AllTyped(s)
    ensures forall id :: id in s.txs ==> TxInv(s.db, s.ttl, s.txs[id])
  {
    hide Fresh, GoodTrace, Trace, Inv, TxInv, Typed;
    var s0: Sys, actions :| Fresh(s0.db) && s0.txs == map[] && GoodTrace(s0, actions) && Trace(s0, actions) == s;
    StartInv(s0);
    EveryInterleavingIsARun(s0, actions);
    forall id | id in s.txs ensures Typed(s.txs[id]) {
      SysTyped(s, id);
    }
  }

  // From `s` to `d` only transaction `id` has moved, and it has not ended.
  ghost predicate Beside(s: Sys, d: Sys, id: Id) {
    && Arises(d) && AllTyped(d) && d.db == s.db && d.clock == s.clock && d.ttl == s.ttl
    && id in s.txs && id in d.txs && d.txs[id].request == s.txs[id].request
    && d.txs == s.txs[id := d.txs[id]]
  }

  // Nobody holds what the next statement of `id` needs.
  ghost predicate Clear(s: Sys, id: Id)
    requires AllTyped(s) && id in s.txs
  {
    match Wanted(s.db, s.txs[id])
    case Nothing => true
    case RowOf(lock) => lock !in Taken(s, id)
    case SlotOf(seat) => forall u :: u in s.txs && u != id ==> !InFlightSlot(s.db, s.txs[u].writes, seat)
  }

  lemma ClearRuns(s: Sys, id: Id, uid: Id)
    requires AllTyped(s) && id in s.txs && Clear(s, id) && !s.txs[id].pc.Done? && IsNew(s, uid)
    ensures Enabled(s, Run(id, uid))
  {
    hide Wanted, InFlightSlot, Typed, IsNew;
    forall u ensures !WaitsFor(s, id, u) {
      assert u in s.txs && u != id ==> s.txs[u].locks <= Taken(s, id);
    }
  }

  lemma Goes(s: Sys, id: Id, uid: Id) returns (d: Sys)
    requires Arises(s) && AllTyped(s) && id in s.txs && Clear(s, id) && !s.txs[id].pc.Done? && IsNew(s, uid)
    requires Advance(s.db, s.clock, s.ttl, s.txs[id], Taken(s, id), uid).Going?
    requires Advance(s.db, s.clock, s.ttl, s.txs[id], Taken(s, id), uid).tx.request == s.txs[id].request
    ensures Beside(s, d, id) && d.txs[id] == Advance(s.db, s.clock, s.ttl, s.txs[id], Taken(s, id), uid).tx
  {
    hide Wanted, Typed, IsNew, Advance, Clear;
    ClearRuns(s, id, uid);
    hide Enabled, WaitsFor;
    d := Do(s, Run(id, uid));
    ArisesNext(s, Run(id, uid));
    ArisesInv(d);
  }

  lemma BesideBoth(s: Sys, m: Sys, d: Sys, id: Id)
    requires Beside(s, m, id) && Beside(m, d, id)
    ensures Beside(s, d, id)
  {
    hide AllTyped, Arises;
    assert s.txs[id := m.txs[id]][id := d.txs[id]] == s.txs[id := d.txs[id]];
  }

  lemma BesideTaken(s: Sys, d: Sys, id: Id)
    requires Beside(s, d, id)
    ensures Taken(d, id) == Taken(s, id)
  {
    assert forall u :: u != id ==> (u in d.txs <==> u in s.txs);
    assert forall u :: u != id && u in d.txs ==> d.txs[u] == s.txs[u];
    hide AllTyped, Arises;
  }

  // ----- a seat request -----

  // The key is unused, and the seats are in the event and locked by nobody else.
  ghost predicate SeatsReady(s: Sys, id: Id) {
    && id in s.txs && s.txs[id].request.SeatsRequest?
    && var q := s.txs[id].request;
    && SeatsLookup(s.db, q.caller.session, q.key).Missing?
    && FoundSeats(s.db, q.event, q.seats) == Sorted(q.seats)
    && (forall x :: x in q.seats ==> SeatLock(x) !in Taken(s, id))
  }

  lemma OneSeatLocked(s: Sys, id: Id, n: nat) returns (d: Sys)
    requires Arises(s) && AllTyped(s) && SeatsReady(s, id) && s.txs[id].pc == SLock(n) && n <= |Sorted(s.txs[id].request.seats)|
    ensures Beside(s, d, id)
    ensures d.txs[id].pc == if n < |Sorted(s.txs[id].request.seats)| then SLock(n + 1) else SClock
  {
    hide SeatsLookup, FoundSeats, Sorted, IsNew, Overlay;
    var uid := SomeIdIsNew(s);
    var ordered := Sorted(s.txs[id].request.seats);
    if n < |ordered| {
      assert ordered[n] in ordered;
    }
    d := Goes(s, id, uid);
  }

  lemma BesideReady(s: Sys, d: Sys, id: Id)
    requires Beside(s, d, id) && SeatsReady(s, id)
    ensures SeatsReady(d, id)
  {
    BesideTaken(s, d, id);
    hide Taken, Arises, AllTyped, SeatsLookup, FoundSeats, Sorted;
  }

  lemma {:induction false} ToClock(s: Sys, id: Id, n: nat) returns (d: Sys)
    requires Arises(s) && AllTyped(s) && SeatsReady(s, id) && s.txs[id].pc == SLock(n) && n <= |Sorted(s.txs[id].request.seats)|
    ensures Beside(s, d, id) && d.txs[id].pc == SClock
    decreases |Sorted(s.txs[id].request.seats)| - n
  {
    hide Sorted, Arises, AllTyped;
    d := OneSeatLocked(s, id, n);
    if n < |Sorted(s.txs[id].request.seats)| {
      BesideReady(s, d, id);
      var e := ToClock(d, id, n + 1);
      BesideBoth(s, d, e, id);
      d := e;
    }
  }

  // From the first statement to the list of stale holders.
  lemma ToStale(s: Sys, id: Id) returns (d: Sys)
    requires Arises(s) && AllTyped(s) && SeatsReady(s, id) && s.txs[id].pc == SLookup
    ensures Beside(s, d, id)
    ensures d.txs[id].pc == SParents(s.clock, Sorted(StaleHolders(s.db, s.txs[id].request.seats, s.clock)), 0)
  {
    hide SeatsLookup, FoundSeats, Sorted, IsNew, Overlay, StaleHolders, Arises, AllTyped;
    var uid := SomeIdIsNew(s);
    var a := Goes(s, id, uid);
    BesideReady(s, a, id);
    var b := ToClock(a, id, 0);
    uid := SomeIdIsNew(b);
    var c := Goes(b, id, uid);
    uid := SomeIdIsNew(c);
    d := Goes(c, id, uid);
    BesideBoth(s, a, b, id);
    BesideBoth(s, b, c, id);
    BesideBoth(s, c, d, id);
  }

  lemma {:induction false} ToExpire(s: Sys, id: Id, now: int, stale: seq<Id>, n: nat) returns (d: Sys)
    requires Arises(s) && AllTyped(s) && id in s.txs && s.txs[id].pc == SParents(now, stale, n) && n <= |stale|
    requires forall r :: r in stale ==> ParentLock(r) !in Taken(s, id)
    ensures Beside(s, d, id) && d.txs[id].pc == SExpireRows(now, stale)
    decreases |stale| - n
  {
    hide IsNew, Overlay, Arises;
    var uid := SomeIdIsNew(s);
    d := Goes(s, id, uid);
    BesideTaken(s, d, id);
    hide AllTyped, Taken;
    if n < |stale| {
      var e := ToExpire(d, id, now, stale, n + 1);
      BesideBoth(s, d, e, id);
      d := e;
    }
  }

  lemma ToInsert(s: Sys, id: Id, now: int, stale: seq<Id>) returns (d: Sys)
    requires Arises(s) && AllTyped(s) && id in s.txs && s.txs[id].pc == SParents(now, stale, 0)
    requires forall r :: r in stale ==> ParentLock(r) !in Taken(s, id)
    ensures Beside(s, d, id) && d.txs[id].pc == SInsert(now, stale)
  {
    hide IsNew, Overlay, Arises, SettledRows, SettledParents, AllTyped, Taken;
    var a := ToExpire(s, id, now, stale, 0);
    var b := Passed(a, id);
    d := Passed(b, id);
    BesideBoth(s, a, b, id);
    BesideBoth(s, b, d, id);
  }

  lemma Passed(s: Sys, id: Id) returns (d: Sys)
    requires Arises(s) && AllTyped(s) && id in s.txs && (s.txs[id].pc.SExpireRows? || s.txs[id].pc.SExpireParents?)
    ensures Beside(s, d, id)
    ensures var pc := s.txs[id].pc;
            d.txs[id].pc == if pc.SExpireRows? then SExpireParents(pc.now, pc.stale) else SInsert(pc.now, pc.stale)
  {
    hide IsNew, Overlay, Arises, SettledRows, SettledParents;
    var uid := SomeIdIsNew(s);
    d := Goes(s, id, uid);
  }

  lemma ToSeats(s: Sys, id: Id, now: int, stale: seq<Id>) returns (d: Sys, rid: Id)
    requires Arises(s) && AllTyped(s) && id in s.txs && s.txs[id].pc == SInsert(now, stale)
    requires s.txs[id].request.SeatsRequest? && !KeyUsed(s.db, s.txs[id].request.caller.session, s.txs[id].request.key)
    requires KeyLock(s.txs[id].request.caller.session, s.txs[id].request.key) !in Taken(s, id)
    ensures Beside(s, d, id) && d.txs[id].pc == SSeats(now, stale, rid, [])
  {
    hide IsNew, Overlay, Arises, KeyUsed;
    rid := SomeIdIsNew(s);
    d := Goes(s, id, rid);
  }

  lemma Begins(s: Sys, id: Id, request: Request) returns (d: Sys)
    requires Arises(s) && id !in s.txs && ValidRequest(request)
    ensures d == s.(txs := s.txs[id := Tx(request, FirstPc(request), NO_WRITES, {}, s.clock)])
    ensures Arises(d) && AllTyped(d)
  {
    hide Arises;
    d := Do(s, Begin(id, request));
    ArisesNext(s, Begin(id, request));
    ArisesInv(d);
  }

  lemma Passes(s: Sys, passed: nat) returns (d: Sys)
    requires Arises(s)
    ensures d == s.(clock := s.clock + passed) && Arises(d) && AllTyped(d)
  {
    hide Arises;
    d := Do(s, Tick(passed));
    ArisesNext(s, Tick(passed));
    ArisesInv(d);
  }

  // The commit of `id`, as one operation.
  lemma Commits(s: Sys, id: Id, uid: Id) returns (d: Sys)
    requires Arises(s) && AllTyped(s) && id in s.txs && Clear(s, id) && !s.txs[id].pc.Done? && IsNew(s, uid)
    requires Advance(s.db, s.clock, s.ttl, s.txs[id], Taken(s, id), uid).Committed?
    ensures OpOf(s.txs[id], uid).Some? && GoodOp(s.db, OpOf(s.txs[id], uid).value)
    ensures Arises(d) && AllTyped(d) && d.clock == s.clock && d.ttl == s.ttl && d.txs.Keys == s.txs.Keys
    ensures d.db == Exec(s.db, s.ttl, OpOf(s.txs[id], uid).value).0
    ensures Exec(s.db, s.ttl, OpOf(s.txs[id], uid).value).1
         == Advance(s.db, s.clock, s.ttl, s.txs[id], Taken(s, id), uid).outcome
    ensures d.txs[id].pc.Done?
    ensures forall u :: u in s.txs && u != id ==> d.txs[u] == s.txs[u]
  {
    hide Wanted, Typed, IsNew, Advance, Clear, Exec, GoodOp, OpOf, SysInv, Arises;
    ClearRuns(s, id, uid);
    ArisesInv(s);
    hide Enabled, WaitsFor;
    d := Do(s, Run(id, uid));
    ArisesNext(s, Run(id, uid));
    ArisesInv(d);
    CommitIsOp(s, id, uid);
  }

  // ----- a quantity hold made alone -----

  ghost predicate AllDone(s: Sys) {
    forall id :: id in s.txs ==> s.txs[id].pc.Done?
  }

  lemma NothingTaken(s: Sys, id: Id)
    requires Arises(s) && forall u :: u in s.txs && u != id ==> s.txs[u].pc.Done?
    ensures Taken(s, id) == {}
    ensures forall u :: u in s.txs && u != id ==> s.txs[u].writes == NO_WRITES
  {
    ArisesInv(s);
    hide Arises, SysInv, RowsInv, QuantityInv, SeatsInv, OwnedInv, BatchInv;
  }

  ghost predicate StockReady(s: Sys, id: Id) {
    && id in s.txs && s.txs[id].request.QuantityRequest?
    && var q := s.txs[id].request;
    && QuantityLookup(s.db, q.caller.session, q.key).Missing? && HasStock(s.db, q.event, q.ticketType, q.quantity)
    && q.ticketType in s.db.ticketTypes && TypeLock(q.ticketType) !in Taken(s, id)
  }

  lemma OneStockStep(s: Sys, id: Id) returns (d: Sys)
    requires Arises(s) && AllTyped(s) && StockReady(s, id)
    requires s.txs[id].pc.QLookup? || s.txs[id].pc.QStock? || s.txs[id].pc.QClock?
    ensures Beside(s, d, id) && StockReady(d, id)
    ensures d.txs[id].pc == match s.txs[id].pc
                            case QLookup => QStock
                            case QStock => QClock
                            case _ => QInsert(s.clock)
  {
    hide IsNew, Arises, QuantityLookup, HasStock, KeyUsed, Taken;
    var uid := SomeIdIsNew(s);
    d := Goes(s, id, uid);
    BesideTaken(s, d, id);
  }

  lemma ToKey(s: Sys, id: Id) returns (d: Sys)
    requires Arises(s) && AllTyped(s) && StockReady(s, id) && s.txs[id].pc == QLookup
    ensures Beside(s, d, id) && d.txs[id].pc == QInsert(s.clock)
  {
    hide Arises, AllTyped, StockReady;
    var a := OneStockStep(s, id);
    var b := OneStockStep(a, id);
    d := OneStockStep(b, id);
    BesideBoth(s, a, b, id);
    BesideBoth(s, b, d, id);
  }

  lemma ToItem(s: Sys, id: Id, now: int) returns (d: Sys, rid: Id)
    requires Arises(s) && AllTyped(s) && id in s.txs && s.txs[id].pc == QInsert(now) && s.txs[id].request.QuantityRequest?
    requires !KeyUsed(s.db, s.txs[id].request.caller.session, s.txs[id].request.key)
    requires KeyLock(s.txs[id].request.caller.session, s.txs[id].request.key) !in Taken(s, id)
    ensures Beside(s, d, id) && d.txs[id].pc == QItem(now, rid) && rid !in s.db.reservations
  {
    hide Arises, KeyUsed, Taken;
    rid := SomeIdIsNew(s);
    d := Goes(s, id, rid);
  }

  lemma QuantityEnds(s: Sys, id: Id) returns (d: Sys, iid: Id)
    requires Arises(s) && AllTyped(s) && id in s.txs && s.txs[id].pc.QItem? && s.txs[id].request.QuantityRequest?
    ensures Arises(d) && AllTyped(d) && d.clock == s.clock && d.ttl == s.ttl && d.txs.Keys == s.txs.Keys
    ensures var q := s.txs[id].request; var pc := s.txs[id].pc;
            && iid !in s.db.items && pc.rid !in s.db.reservations
            && d.db == ReserveQuantity(s.db, q.caller, q.event, q.ticketType, q.quantity, q.key, pc.rid, iid,
                                       pc.now + s.ttl).0
    ensures d.txs[id].pc.Done? && forall u :: u in s.txs && u != id ==> d.txs[u] == s.txs[u]
  {
    hide Arises, Exec;
    iid := SomeIdIsNew(s);
    d := Commits(s, id, iid);
    MadeQuantity(s.db, s.ttl, OpOf(s.txs[id], iid).value);
  }

  lemma MadeQuantity(db: Store, ttl: int, op: Op)
    requires op.QuantityOp?
    ensures Exec(db, ttl, op)
         == ReserveQuantity(db, op.caller, op.event, op.ticketType, op.quantity, op.key, op.rid, op.iid, op.now + ttl)
  {
    hide ReserveQuantity;
  }

  ghost predicate KeyReady(s: Sys, id: Id) {
    && id in s.txs && Reserving(s.txs[id])
    && !KeyUsed(s.db, s.txs[id].request.caller.session, s.txs[id].request.key)
    && KeyLock(s.txs[id].request.caller.session, s.txs[id].request.key) !in Taken(s, id)
  }

  lemma ToHold(s: Sys, id: Id) returns (d: Sys, rid: Id)
    requires Arises(s) && AllTyped(s) && StockReady(s, id) && KeyReady(s, id) && s.txs[id].pc == QLookup
    ensures Beside(s, d, id) && d.txs[id].pc == QItem(s.clock, rid)
  {
    hide Arises, AllTyped, KeyUsed, QuantityLookup, HasStock, Taken;
    var b := ToKey(s, id);
    BesideTaken(s, b, id);
    d, rid := ToItem(b, id, s.clock);
    BesideBoth(s, b, d, id);
  }

  // `id` has just begun with `request`, and everybody else is done.
  ghost predicate Alone(s: Sys, id: Id, request: Request) {
    && Arises(s) && AllTyped(s) && id in s.txs && s.txs[id] == Tx(request, FirstPc(request), NO_WRITES, {}, s.clock)
    && forall u :: u in s.txs && u != id ==> s.txs[u].pc.Done?
  }

  lemma BeginsAlone(s: Sys, id: Id, request: Request) returns (d: Sys)
    requires Arises(s) && AllDone(s) && id !in s.txs && ValidRequest(request)
    ensures Alone(d, id, request) && Taken(d, id) == {} && d.txs.Keys == s.txs.Keys + {id}
    ensures forall u :: u in s.txs ==> d.txs[u] == s.txs[u]
    ensures d.db == s.db && d.clock == s.clock && d.ttl == s.ttl
    ensures Inv(d.db)
  {
    hide Arises, AllTyped, Inv;
    d := Begins(s, id, request);
    NothingTaken(d, id);
    ArisesInv(s);
    InvOf(s);
  }

  lemma AloneHolds(s: Sys, id: Id, request: Request) returns (d: Sys, rid: Id, iid: Id)
    requires Alone(s, id, request) && Taken(s, id) == {} && request.QuantityRequest? && Inv(s.db)
    requires !KeyUsed(s.db, request.caller.session, request.key)
    requires HasStock(s.db, request.event, request.ticketType, request.quantity)
    ensures Arises(d) && AllDone(d) && d.clock == s.clock && d.ttl == s.ttl && d.txs.Keys == s.txs.Keys
    ensures rid !in s.db.reservations && iid !in s.db.items
    ensures d.db == ReserveQuantity(s.db, request.caller, request.event, request.ticketType, request.quantity, request.key,
                                    rid, iid, s.clock + s.ttl).0
  {
    hide Arises, AllTyped, KeyUsed, QuantityLookup, HasStock, Taken, ReserveQuantity, Inv;
    InvParts(s.db);
    QuantityMissing(s.db, request);
    var c, r := ToHold(s, id);
    rid := r;
    d, iid := QuantityEnds(c, id);
  }

  // With nothing else in flight a quantity request makes its hold.
  lemma HoldsQuantity(s: Sys, id: Id, request: Request) returns (d: Sys, rid: Id, iid: Id)
    requires Arises(s) && AllDone(s) && id !in s.txs && request.QuantityRequest? && ValidRequest(request)
    requires !KeyUsed(s.db, request.caller.session, request.key)
    requires HasStock(s.db, request.event, request.ticketType, request.quantity)
    ensures Arises(d) && AllDone(d) && d.clock == s.clock && d.ttl == s.ttl && d.txs.Keys == s.txs.Keys + {id}
    ensures rid !in s.db.reservations && iid !in s.db.items && request.ticketType in s.db.ticketTypes
    ensures d.db == WithQuantity(s.db, request.ticketType, rid,
                                 QuantityParent(request.caller, request.event, request.key, s.clock + s.ttl),
                                 iid, request.quantity)
  {
    hide Arises, AllDone, Alone, Inv, KeyUsed, QuantityLookup, WithQuantity, ReserveQuantity, Taken, HasStock, AllTyped;
    var a := BeginsAlone(s, id, request);
    InvParts(s.db);
    QuantityMissing(s.db, request);
    d, rid, iid := AloneHolds(a, id, request);
    QuantityMade(s.db, request.caller, request.event, request.ticketType, request.quantity, request.key, rid, iid,
                 s.clock + s.ttl);
  }

  lemma QuantityMissing(db: Store, request: Request)
    requires Linked(db) && Shaped(db) && UniqueKeys(db) && request.QuantityRequest?
    requires !KeyUsed(db, request.caller.session, request.key)
    requires HasStock(db, request.event, request.ticketType, request.quantity)
    ensures QuantityLookup(db, request.caller.session, request.key).Missing? && request.ticketType in db.ticketTypes
  {
    QuantityLookupExact(db, request.caller.session, request.key);
    KeyUsedByKind(db, request.caller.session, request.key);
    hide QuantityLookup, Linked, Shaped, UniqueKeys;
  }

  // ----- a seat hold made alone -----

  ghost predicate NoRows(db: Store) {
    forall i :: i !in db.seatRows
  }

  // The rows inserted so far are on other seats.
  lemma SlotOpen(db: Store, ttl: int, tx: Tx)
    requires TxInv(db, ttl, tx) && NoRows(db) && tx.pc.SSeats? && |tx.pc.ids| < |Sorted(tx.request.seats)|
    ensures !Occupied(Overlay(db, tx.writes), Sorted(tx.request.seats)[|tx.pc.ids|])
  {
    hide StaleOk, FoundSeats, Sorted, SettledParents, KeyUsed, SlotFree, NewRows, SeatsLocked, RowsInv;
    var SSeats(now, stale, rid, ids) := tx.pc;
    NewRowsAt(rid, Sorted(tx.request.seats), ids, now + ttl);
    forall i | i in tx.writes.seatRows
      ensures tx.writes.seatRows[i].seat != Sorted(tx.request.seats)[|ids|]
    {
      assert i in ids;
      var k :| 0 <= k < |ids| && ids[k] == i;
    }
  }

  lemma OneRowIn(s: Sys, id: Id) returns (d: Sys, uid: Id)
    requires Arises(s) && AllTyped(s) && id in s.txs && NoRows(s.db)
    requires forall u :: u in s.txs && u != id ==> s.txs[u].pc.Done?
    requires s.txs[id].pc.SSeats? && |s.txs[id].pc.ids| < |Sorted(s.txs[id].request.seats)|
    ensures Beside(s, d, id)
    ensures var pc := s.txs[id].pc; d.txs[id].pc == SSeats(pc.now, pc.stale, pc.rid, pc.ids + [uid])
  {
    hide Arises, TxInv, Sorted, Occupied, NewRows, Overlay, NoRows;
    ArisesInv(s);
    NothingTaken(s, id);
    SlotOpen(s.db, s.ttl, s.txs[id]);
    uid := SomeIdIsNew(s);
    d := Goes(s, id, uid);
  }

  lemma {:induction false} AllRowsIn(s: Sys, id: Id) returns (d: Sys, ids: seq<Id>)
    requires Arises(s) && AllTyped(s) && id in s.txs && NoRows(s.db)
    requires forall u :: u in s.txs && u != id ==> s.txs[u].pc.Done?
    requires s.txs[id].request.SeatsRequest? && s.txs[id].pc.SSeats?
    requires |s.txs[id].pc.ids| <= |Sorted(s.txs[id].request.seats)|
    ensures Beside(s, d, id) && |ids| == |Sorted(s.txs[id].request.seats)|
    ensures var pc := s.txs[id].pc; d.txs[id].pc == SSeats(pc.now, pc.stale, pc.rid, ids)
    decreases |Sorted(s.txs[id].request.seats)| - |s.txs[id].pc.ids|
  {
    hide Arises, AllTyped, Sorted, NoRows;
    var pc := s.txs[id].pc;
    if |pc.ids| == |Sorted(s.txs[id].request.seats)| {
      d, ids := s, pc.ids;
    } else {
      var a, uid := OneRowIn(s, id);
      d, ids := AllRowsIn(a, id);
      BesideBoth(s, a, d, id);
    }
  }

  // `d` is `db` with one more hold, `rid` on exactly `seats`.
  ghost predicate OneHold(db: Store, d: Store, rid: Id, parent: Reservation, seats: set<Id>) {
    && d.events == db.events && d.ticketTypes == db.ticketTypes && d.items == db.items && d.seats == db.seats
    && rid !in db.reservations && d.reservations.Keys == db.reservations.Keys + {rid}
    && (forall q :: q in db.reservations ==> d.reservations[q] == db.reservations[q])
    && d.reservations[rid] == parent
    && (forall i :: i in d.seatRows ==>
          && d.seatRows[i].reservation == rid && d.seatRows[i].status.Reserved?
          && d.seatRows[i].expiresAt == parent.expiresAt && d.seatRows[i].seat in seats)
    && (forall x :: x in seats ==> SeatOf(d, rid, x))
  }

  lemma HeldAlone(db: Store, ttl: int, op: Op)
    requires Inv(db) && NoRows(db) && op.SeatsOp? && GoodOp(db, op) && Exec(db, ttl, op).1.Made?
    ensures OneHold(db, Exec(db, ttl, op).0, op.rid, SeatsParent(op.caller, op.event, op.key, op.now + ttl), op.seats)
  {
    hide Shaped, UniqueKeys, Exclusive, Balanced, Rooted, ReserveSeats, Linked, SeatOf, Outdated, Sorted;
    SeatsEffect(db, op.caller, op.event, op.seats, op.key, op.rid, op.rowIds, op.now, op.now + ttl);
    var d := Exec(db, ttl, op).0;
    NobodyOutdated(db, op.seats, op.now);
    forall i | i in d.seatRows ensures d.seatRows[i].seat in op.seats {
      SeatOfRow(d, i);
    }
  }

  lemma NobodyOutdated(db: Store, seats: set<Id>, now: int)
    requires NoRows(db)
    ensures forall q :: !Outdated(db, q, seats, now)
  {
  }

  lemma SeatOfRow(db: Store, i: Id)
    requires i in db.seatRows
    ensures SeatOf(db, db.seatRows[i].reservation, db.seatRows[i].seat)
  {
  }

  lemma LastRowIn(db: Store, clock: int, ttl: int, tx: Tx, taken: set<Lock>, uid: Id)
    requires Typed(tx) && tx.pc.SSeats? && |tx.pc.ids| == |tx.request.seats|
    ensures Wanted(db, tx) == Nothing
    ensures var next := Advance(db, clock, ttl, tx, taken, uid); next.Committed? && next.outcome.Made?
    ensures var q := tx.request;
            OpOf(tx, uid) == Some(SeatsOp(q.caller, q.event, q.seats, q.key, tx.pc.rid, tx.pc.ids, tx.pc.now))
  {
    hide Occupied, Overlay;
  }

  lemma RowsEnd(s: Sys, id: Id) returns (d: Sys)
    requires Arises(s) && AllTyped(s) && id in s.txs && NoRows(s.db)
    requires s.txs[id].request.SeatsRequest? && s.txs[id].pc.SSeats? && |s.txs[id].pc.ids| == |s.txs[id].request.seats|
    ensures Arises(d) && AllTyped(d) && d.clock == s.clock && d.ttl == s.ttl && d.txs.Keys == s.txs.Keys
    ensures var q := s.txs[id].request; var pc := s.txs[id].pc;
            OneHold(s.db, d.db, pc.rid, SeatsParent(q.caller, q.event, q.key, pc.now + s.ttl), q.seats)
    ensures d.txs[id].pc.Done? && forall u :: u in s.txs && u != id ==> d.txs[u] == s.txs[u]
  {
    hide Arises, Exec, GoodOp, OneHold, Inv, NoRows, Sorted, Advance, Wanted, OpOf, SysInv, TxInv, Taken, IsNew;
    ArisesInv(s);
    InvOf(s);
    var uid := SomeIdIsNew(s);
    LastRowIn(s.db, s.clock, s.ttl, s.txs[id], Taken(s, id), uid);
    d := Commits(s, id, uid);
    HeldAlone(s.db, s.ttl, OpOf(s.txs[id], uid).value);
  }

  lemma NoLookup(db: Store, session: Id, key: string)
    requires NoRows(db)
    ensures SeatsLookup(db, session, key).Missing?
  {
    hide KeyedRows;
    assert forall i :: i !in KeyedRows(db, session, key);
  }

  lemma NobodyStale(db: Store, seats: set<Id>, now: int)
    requires NoRows(db)
    ensures Sorted(StaleHolders(db, seats, now)) == []
  {
    hide Sorted;
    assert StaleHolders(db, seats, now) == {};
  }

  // With nothing else in flight, and no seat held before, a seat request makes its hold.
  lemma HoldsSeats(s: Sys, id: Id, request: Request) returns (d: Sys, rid: Id)
    requires Arises(s) && AllDone(s) && id !in s.txs && request.SeatsRequest? && ValidRequest(request)
    requires NoRows(s.db) && InEvent(s.db, request.event, request.seats)
    requires !KeyUsed(s.db, request.caller.session, request.key)
    ensures Arises(d) && AllDone(d) && d.clock == s.clock && d.ttl == s.ttl && d.txs.Keys == s.txs.Keys + {id}
    ensures OneHold(s.db, d.db, rid, SeatsParent(request.caller, request.event, request.key, s.clock + s.ttl), request.seats)
  {
    hide Arises, AllTyped, Inv, KeyUsed, SeatsLookup, Taken, FoundSeats, Sorted, StaleHolders, OneHold, NoRows, InEvent;
    var a := BeginsAlone(s, id, request);
    FoundIff(s.db, request.event, request.seats);
    NoLookup(s.db, request.caller.session, request.key);
    NobodyStale(s.db, request.seats, s.clock);
    var b := ToStale(a, id);
    BesideTaken(a, b, id);
    var c := ToInsert(b, id, s.clock, []);
    BesideTaken(b, c, id);
    var e, r := ToSeats(c, id, s.clock, []);
    var f, ids := AllRowsIn(e, id);
    rid := r;
    d := RowsEnd(f, id);
  }

  // ----- a batch -----

  lemma ToScan(s: Sys, id: Id) returns (d: Sys)
    requires Arises(s) && AllTyped(s) && id in s.txs && s.txs[id].pc == BClock
    requires s.txs[id].request.BatchRequest? && s.txs[id].request.at == None && s.txs[id].request.only == None
    ensures Beside(s, d, id) && d.txs[id].pc == BScan(s.clock, Ordered(StaleColumn(s.db, s.clock, None)), [])
  {
    hide Arises, StaleColumn, Ordered, IsOrdered;
    var uid := SomeIdIsNew(s);
    var a := Goes(s, id, uid);
    uid := SomeIdIsNew(a);
    d := Goes(a, id, uid);
    hide AllTyped;
    BesideBoth(s, a, d, id);
  }

  lemma Scans(s: Sys, id: Id) returns (d: Sys)
    requires Arises(s) && AllTyped(s) && id in s.txs && s.txs[id].request.BatchRequest? && s.txs[id].pc.BScan?
    requires s.txs[id].pc.got != [] || (s.txs[id].pc.candidates != [] && s.txs[id].request.size > 0)
    ensures Beside(s, d, id) && AdvanceBatch(s.db, s.clock, s.txs[id], Taken(s, id)) == Going(d.txs[id])
  {
    hide Arises, StaleReservation, Taken;
    var uid := SomeIdIsNew(s);
    d := Goes(s, id, uid);
  }

  lemma ItemNext(db: Store, tx: Tx, x: Id)
    requires Inv(db) && RowsInv(db, tx) && tx.pc.n < |tx.pc.rows| && tx.pc.todo != []
    requires x in db.items && db.items[x].reservation == tx.pc.rows[tx.pc.n]
    ensures var view := Overlay(db, tx.writes);
            && tx.pc.todo == [x] && SoleItem(view, tx.pc.rows[tx.pc.n], x)
            && view.items[x].ticketType == db.items[x].ticketType
            && CanMove(view, view.items[x].ticketType, view.items[x].quantity, tx.pc.target)
  {
    hide Inv, Covered, InFlight, Delta, ItemsOf, Overlay, Linked, Balanced, ParentLocks, Distinct, AllReserved, AllStale,
         Owns, LocksOf, CanMove, SoleItem;
    var view := Overlay(db, tx.writes);
    NextRow(db, tx);
    InvParts(view);
    InvParts(db);
    var y := SoleItemExists(view, tx.pc.rows[tx.pc.n]);
    GuardPasses(view, tx.pc.rows[tx.pc.n], y, tx.pc.target);
    SoleIsListed(view, tx.pc.rows[tx.pc.n], y);
    ViewOfCovered(db, tx, view.items[y].ticketType, y);
    OnlyItem(db, x, y);
  }

  lemma SoleIsListed(db: Store, r: Id, x: Id)
    requires SoleItem(db, r, x)
    ensures x in db.items && db.items[x].reservation == r
  {
  }

  lemma OnlyItem(db: Store, x: Id, y: Id)
    requires Shaped(db) && x in db.items && y in db.items && db.items[x].reservation == db.items[y].reservation
    ensures x == y
  {
  }

  // A settling transaction at an item waits for its ticket type.
  lemma WantsType(db: Store, tx: Tx, x: Id)
    requires Inv(db) && RowsInv(db, tx) && tx.pc.n < |tx.pc.rows| && tx.pc.todo != []
    requires x in db.items && db.items[x].reservation == tx.pc.rows[tx.pc.n]
    ensures Wanted(db, tx) == RowOf(TypeLock(db.items[x].ticketType))
  {
    hide Inv, Covered, InFlight, Delta, Overlay, CanMove, ItemsOf, ParentLocks, Distinct, AllReserved, AllStale, Owns,
         LocksOf, FoundSeats, Sorted, HasStock, RowsRequest;
    ItemNext(db, tx, x);
  }

  lemma RowsKnown(s: Sys, id: Id)
    requires Arises(s) && id in s.txs && s.txs[id].pc.Rows?
    ensures Inv(s.db) && RowsInv(s.db, s.txs[id])
  {
    hide Arises, Inv, RowsInv, SysInv, QuantityInv, SeatsInv, OwnedInv, BatchInv;
    ArisesInv(s);
    InvOf(s);
  }

  lemma RowOpens(s: Sys, id: Id) returns (d: Sys)
    requires Arises(s) && AllTyped(s) && id in s.txs && s.txs[id].pc.Rows? && s.txs[id].pc.todo == []
    requires NextKind(s.db, s.txs[id], Quantity)
    ensures Beside(s, d, id) && d.txs[id].pc.Rows?
    ensures var pc, next := s.txs[id].pc, d.txs[id].pc;
            next.rows == pc.rows && next.n == pc.n && next.todo != []
    ensures d.txs[id].locks == s.txs[id].locks && d.txs[id].writes == s.txs[id].writes
  {
    hide Arises, Inv, RowsInv, AdvanceRows, ItemsOf, Overlay, SysInv, TxInv, IsNew, Taken;
    RowsKnown(s, id);
    OpensTo(s.db, s.txs[id]);
    var uid := SomeIdIsNew(s);
    d := Goes(s, id, uid);
  }

  lemma OpensTo(db: Store, tx: Tx)
    requires Inv(db) && RowsInv(db, tx) && NextKind(db, tx, Quantity) && tx.pc.todo == []
    ensures AdvanceRows(db, tx) == Going(Opened(db, tx)) && ItemsOf(Overlay(db, tx.writes), tx.pc.rows[tx.pc.n]) != []
  {
    hide Inv, Covered, InFlight, Delta, ItemsOf, Overlay, Linked, Shaped, Balanced, ParentLocks, Distinct, AllReserved,
         AllStale, Owns, LocksOf, AdvanceRows;
    NextRow(db, tx);
    InvParts(Overlay(db, tx.writes));
    var x := SoleItemExists(Overlay(db, tx.writes), tx.pc.rows[tx.pc.n]);
    QuantityRowOpens(db, tx);
  }

  lemma ItemMoves(s: Sys, id: Id, x: Id) returns (d: Sys)
    requires Arises(s) && AllTyped(s) && id in s.txs && s.txs[id].pc.Rows? && s.txs[id].pc.todo != []
    requires s.txs[id].pc.n < |s.txs[id].pc.rows|
    requires x in s.db.items && s.db.items[x].reservation == s.txs[id].pc.rows[s.txs[id].pc.n]
    requires TypeLock(s.db.items[x].ticketType) !in Taken(s, id)
    ensures Beside(s, d, id) && d.txs[id].pc.Rows?
    ensures var pc, next := s.txs[id].pc, d.txs[id].pc;
            next.rows == pc.rows && next.n == pc.n + 1 && next.todo == []
    ensures d.txs[id].locks == s.txs[id].locks + {TypeLock(s.db.items[x].ticketType)}
  {
    hide Arises, Inv, RowsInv, AdvanceRows, Overlay, SysInv, TxInv, IsNew, Taken, Wanted, CanMove;
    RowsKnown(s, id);
    ItemNext(s.db, s.txs[id], x);
    WantsType(s.db, s.txs[id], x);
    QuantityRowAdvances(s.db, s.txs[id], x);
    var uid := SomeIdIsNew(s);
    d := Goes(s, id, uid);
  }

  lemma SeatsMove(s: Sys, id: Id) returns (d: Sys)
    requires Arises(s) && AllTyped(s) && id in s.txs && s.txs[id].pc.Rows? && s.txs[id].pc.todo == []
    requires NextKind(s.db, s.txs[id], Seats) && s.txs[id].writes == NO_WRITES
    ensures Beside(s, d, id) && d.txs[id].pc.Rows?
    ensures var pc, next := s.txs[id].pc, d.txs[id].pc;
            next.rows == pc.rows && next.n == pc.n + 1 && next.todo == []
    ensures d.txs[id].locks == s.txs[id].locks
    ensures forall i :: i in s.db.seatRows && s.db.seatRows[i].reservation == s.txs[id].pc.rows[s.txs[id].pc.n]
                        && s.db.seatRows[i].status.Reserved? ==>
              i in d.txs[id].writes.seatRows && d.txs[id].writes.seatRows[i].seat == s.db.seatRows[i].seat
  {
    hide Arises, Inv, RowsInv, AdvanceRows, SysInv, TxInv, IsNew, Taken, RowsReserved, Overlay, WithRow;
    RowsKnown(s, id);
    SeatsMoveTo(s.db, s.txs[id]);
    var uid := SomeIdIsNew(s);
    d := Goes(s, id, uid);
    SettledWrites(s.db, s.txs[id].pc.rows[s.txs[id].pc.n], s.txs[id].pc.target);
  }

  lemma SettledWrites(db: Store, r: Id, target: Status)
    requires r in db.reservations && db.reservations[r].kind.Seats? && db.reservations[r].status.Reserved?
    ensures var w := WithRow(Overlay(db, NO_WRITES), NO_WRITES, r, target);
            forall i :: i in db.seatRows && db.seatRows[i].reservation == r && db.seatRows[i].status.Reserved? ==>
              i in w.seatRows && w.seatRows[i].seat == db.seatRows[i].seat
  {
  }

  lemma SeatsMoveTo(db: Store, tx: Tx)
    requires Inv(db) && RowsInv(db, tx) && NextKind(db, tx, Seats) && tx.pc.todo == []
    ensures db.reservations[tx.pc.rows[tx.pc.n]].status.Reserved?
    ensures var next := AdvanceRows(db, tx);
            && next.Going? && next.tx.request == tx.request && next.tx.pc.Rows? && next.tx.pc.rows == tx.pc.rows
            && next.tx.pc.n == tx.pc.n + 1 && next.tx.pc.todo == [] && next.tx.locks == tx.locks
            && next.tx.writes == WithRow(Overlay(db, tx.writes), tx.writes, tx.pc.rows[tx.pc.n], tx.pc.target)
  {
    hide Inv, Covered, InFlight, Delta, ItemsOf, Overlay, Linked, Shaped, Balanced, ParentLocks, Distinct, AllStale,
         Owns, LocksOf, AdvanceRows, RowsReserved, WithRow;
    NextRow(db, tx);
    InvParts(Overlay(db, tx.writes));
    SeatsReserved(Overlay(db, tx.writes), tx.pc.rows[tx.pc.n]);
    SeatsRowAdvances(db, tx);
  }
}
