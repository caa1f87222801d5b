/** Requests that end without a commit: their answer is the one the atomic operation gives in some store
    committed while the request was in flight. */
module Refusals {
  import opened Tables
  import opened Ordering
  import opened Spec
  import opened Invariant
  import opened Operations
  import opened Outcomes
  import opened Runs
  import opened Concurrent
  import opened Progress
  import opened Steps
  import opened Refinement

  // ----- the stores committed while a request is in flight -----

  // `db` is committed after the first `n` actions, and `id` has begun by then and not ended.
  ghost predicate DuringAt(s: Sys, actions: seq<Action>, n: nat, id: Id, db: Store) {
    && n <= |actions| && GoodTrace(s, actions[..n])
    && var m := Trace(s, actions[..n]);
    && id in m.txs && !m.txs[id].pc.Done? && m.db == db
  }

  ghost predicate During(s: Sys, actions: seq<Action>, id: Id, db: Store) {
    exists n: nat :: DuringAt(s, actions, n, id, db)
  }

  lemma DuringNow(s: Sys, actions: seq<Action>, id: Id)
    requires GoodTrace(s, actions) && id in Trace(s, actions).txs && !Trace(s, actions).txs[id].pc.Done?
    ensures During(s, actions, id, Trace(s, actions).db)
  {
    hide GoodTrace, Trace;
    assert actions[..|actions|] == actions;
    assert DuringAt(s, actions, |actions|, id, Trace(s, actions).db);
  }

  lemma DuringLonger(s: Sys, actions: seq<Action>, id: Id, db: Store)
    requires actions != [] && During(s, actions[..|actions| - 1], id, db)
    ensures During(s, actions, id, db)
  {
    hide GoodTrace, Trace;
    var n: nat :| DuringAt(s, actions[..|actions| - 1], n, id, db);
    assert actions[..|actions| - 1][..n] == actions[..n];
    assert DuringAt(s, actions, n, id, db);
  }

  lemma StepEvolves(s: Sys, a: Action)
    requires SysInv(s) && Enabled(s, a)
    ensures Evolves(s.db, Do(s, a).db)
  {
    hide Evolves, Enabled, Do, Exec, GoodOp, CommitOp, Inv;
    StepRefines(s, a);
    InvOf(s);
    EvolvesRefl(s.db);
    if CommitOp(s, a).Some? {
      ExecEvolves(s.db, s.ttl, CommitOp(s, a).value);
    }
  }

  lemma {:induction false} DuringEvolves(s: Sys, actions: seq<Action>, n: nat, id: Id, db: Store)
    requires SysInv(s) && GoodTrace(s, actions) && DuringAt(s, actions, n, id, db)
    ensures Inv(db) && Evolves(db, Trace(s, actions).db)
    decreases |actions|
  {
    hide SysInv, Evolves, Enabled, Do, Inv;
    EveryInterleavingIsARun(s, actions);
    if n == |actions| {
      assert actions[..n] == actions;
      InvOf(Trace(s, actions));
      EvolvesRefl(db);
    } else {
      var rest := actions[..|actions| - 1];
      assert rest[..n] == actions[..n];
      DuringEvolves(s, rest, n, id, db);
      EveryInterleavingIsARun(s, rest);
      StepEvolves(Trace(s, rest), actions[|actions| - 1]);
      EvolvesTransitively(db, Trace(s, rest).db, Trace(s, actions).db);
    }
  }

  // ----- why a request goes back to its lookup -----

  ghost predicate RefusesStock(db: Store, q: Request)
    requires q.QuantityRequest?
  {
    !HasStock(db, q.event, q.ticketType, q.quantity) || KeyUsed(db, q.caller.session, q.key)
  }

  ghost predicate RefusesSeats(db: Store, q: Request, now: int)
    requires q.SeatsRequest?
  {
    && FoundSeats(db, q.event, q.seats) == Sorted(q.seats)
    && (KeyUsed(db, q.caller.session, q.key) || Blocked(Settle(db, StaleHolders(db, q.seats, now), Expired), q.seats))
  }

  ghost predicate Missed(db: Store, q: Request)
    requires q.SeatsRequest?
  {
    SeatsLookup(db, q.caller.session, q.key).Missing?
  }

  // What brings a transaction to this statement, seen in `db`.
  ghost predicate Cause(db: Store, tx: Tx, now: int)
    requires Typed(tx)
  {
    && (tx.pc.QReplay? ==> RefusesStock(db, tx.request))
    && (tx.pc.SLock? ==> Missed(db, tx.request))
    && (tx.pc.SReplay? ==> RefusesSeats(db, tx.request, now))
  }

  // A seat found taken in the index is taken in the committed store, whatever is stale at `now`.
  lemma TakenBlocks(db: Store, ttl: int, tx: Tx)
    requires Linked(db) && TxInv(db, ttl, tx) && tx.pc.SSeats? && |tx.pc.ids| < |tx.request.seats|
    requires Occupied(Overlay(db, tx.writes), Sorted(tx.request.seats)[|tx.pc.ids|])
    ensures RefusesSeats(db, tx.request, tx.pc.now)
  {
    hide Linked, StaleOk, FoundSeats, Sorted, KeyUsed, SlotFree, NewRows, StaleHolders, RowsInv, SettledParents, SettledRows,
         Occupied, Settle, Overlay;
    var SSeats(now, stale, rid, ids) := tx.pc;
    var seat := Sorted(tx.request.seats)[|ids|];
    assert seat in Sorted(tx.request.seats);
    SettleSame(db, tx.request.seats, now, stale);
    OtherSeats(db, ttl, tx);
    StillTaken(db, tx.writes, stale, seat);
  }

  lemma StillTaken(db: Store, w: Writes, stale: seq<Id>, seat: Id)
    requires forall i :: i in ExpiredRows(db, stale) ==> i in w.seatRows && w.seatRows[i] == ExpiredRows(db, stale)[i]
    requires forall i :: i in w.seatRows && i !in ExpiredRows(db, stale) ==> w.seatRows[i].seat != seat
    requires Occupied(Overlay(db, w), seat)
    ensures Occupied(Settle(db, SetOf(stale), Expired), seat)
  {
    var i :| i in Overlay(db, w).seatRows && Overlay(db, w).seatRows[i].seat == seat
             && Overlay(db, w).seatRows[i].status.Active();
    assert i !in ExpiredRows(db, stale);
    assert Settle(db, SetOf(stale), Expired).seatRows[i] == db.seatRows[i];
  }

  // The request's own rows are on the seats before.
  lemma OtherSeats(db: Store, ttl: int, tx: Tx)
    requires TxInv(db, ttl, tx) && tx.pc.SSeats? && |tx.pc.ids| < |tx.request.seats|
    ensures forall i :: i in tx.writes.seatRows && i !in ExpiredRows(db, tx.pc.stale) ==>
              tx.writes.seatRows[i].seat != Sorted(tx.request.seats)[|tx.pc.ids|]
    ensures forall i :: i in ExpiredRows(db, tx.pc.stale) ==>
              i in tx.writes.seatRows && tx.writes.seatRows[i] == ExpiredRows(db, tx.pc.stale)[i]
  {
    hide StaleOk, FoundSeats, Sorted, SettledRows, SettledParents, KeyUsed, SlotFree, NewRows, SeatsLocked, RowsInv;
    var SSeats(now, stale, rid, ids) := tx.pc;
    var added := NewRows(rid, Sorted(tx.request.seats), ids, now + ttl);
    NewRowsAt(rid, Sorted(tx.request.seats), ids, now + ttl);
    forall i | i in added ensures i in ids && i !in db.seatRows && added[i].seat != Sorted(tx.request.seats)[|ids|] {
      var k :| 0 <= k < |ids| && ids[k] == i;
    }
    ExpiredAreKnown(db, stale);
  }

  lemma ExpiredAreKnown(db: Store, stale: seq<Id>)
    ensures forall i :: i in ExpiredRows(db, stale) ==> i in db.seatRows
  {
  }

  ghost predicate Waiting(tx: Tx) {
    tx.pc.QReplay? || tx.pc.SLock? || tx.pc.SReplay?
  }

  lemma QuantityCause(db: Store, clock: int, ttl: int, tx: Tx, uid: Id)
    requires Typed(tx) && tx.request.QuantityRequest? && !tx.pc.Done?
    requires AdvanceQuantity(db, clock, ttl, tx, uid).Going?
    ensures var tx' := AdvanceQuantity(db, clock, ttl, tx, uid).tx;
            && Typed(tx') && tx'.request == tx.request && (tx'.pc.QReplay? ==> RefusesStock(db, tx.request))
            && !tx'.pc.SLock? && !tx'.pc.SReplay?
  {
    hide QuantityLookup, HasStock, KeyUsed;
  }

  lemma SeatsCause(db: Store, clock: int, ttl: int, tx: Tx, uid: Id)
    requires Linked(db) && TxInv(db, ttl, tx) && Typed(tx) && tx.request.SeatsRequest? && !tx.pc.Done?
    requires AdvanceSeats(db, clock, ttl, tx, uid).Going?
    ensures var tx' := AdvanceSeats(db, clock, ttl, tx, uid).tx;
            && Typed(tx') && tx'.request == tx.request && !tx'.pc.QReplay?
            && (tx'.pc.SLock? && !tx.pc.SLock? ==> Missed(db, tx.request))
            && (tx'.pc.SReplay? ==> (tx.pc.SSeats? || tx.pc.SInsert?) && RefusesSeats(db, tx.request, tx.pc.now))
  {
    hide Linked, FoundSeats, Sorted, KeyUsed, SlotFree, NewRows, StaleHolders, SettledParents, SettledRows, Overlay, Occupied,
         RefusesSeats, SeatsLookup, TxInv, SeatsReplay;
    if tx.pc.SSeats? && |tx.pc.ids| < |tx.request.seats|
       && Occupied(Overlay(db, tx.writes), Sorted(tx.request.seats)[|tx.pc.ids|])
    {
      TakenBlocks(db, ttl, tx);
    } else if tx.pc.SInsert? && KeyUsed(db, tx.request.caller.session, tx.request.key) {
      SeatsKnown(db, ttl, tx);
      KeyRefuses(db, tx);
    }
  }

  lemma SeatsKnown(db: Store, ttl: int, tx: Tx)
    requires TxInv(db, ttl, tx) && tx.pc.SInsert?
    ensures FoundSeats(db, tx.request.event, tx.request.seats) == Sorted(tx.request.seats)
  {
    hide FoundSeats, Sorted, StaleOk;
  }

  // The step into such a statement sees its cause.
  lemma CauseSeen(db: Store, clock: int, ttl: int, tx: Tx, taken: set<Lock>, uid: Id)
    requires Linked(db) && TxInv(db, ttl, tx) && Typed(tx) && !tx.pc.Done?
    requires Advance(db, clock, ttl, tx, taken, uid).Going?
    ensures var tx' := Advance(db, clock, ttl, tx, taken, uid).tx;
            && Typed(tx') && tx'.request == tx.request
            && (tx'.pc.QReplay? || tx'.pc.SReplay? || (tx'.pc.SLock? && !tx.pc.SLock?) ==>
                  Cause(db, tx', if tx.pc.SSeats? || tx.pc.SInsert? then tx.pc.now else clock))
  {
    hide Linked, TxInv, RefusesStock, RefusesSeats, Missed, AdvanceRows, AdvanceQuantity, AdvanceSeats, AdvanceOwned,
         AdvanceBatch;
    if tx.pc.Rows? {
      RowsKept(db, tx);
    } else if tx.request.QuantityRequest? {
      QuantityCause(db, clock, ttl, tx, uid);
    } else if tx.request.SeatsRequest? {
      SeatsCause(db, clock, ttl, tx, uid);
    } else {
      NoCause(db, clock, ttl, tx, taken, uid);
    }
  }

  lemma NoCause(db: Store, clock: int, ttl: int, tx: Tx, taken: set<Lock>, uid: Id)
    requires Typed(tx) && !tx.pc.Done? && !tx.pc.Rows? && (tx.request.LifecycleRequest? || tx.request.BatchRequest?)
    requires Advance(db, clock, ttl, tx, taken, uid).Going?
    ensures var tx' := Advance(db, clock, ttl, tx, taken, uid).tx;
            Typed(tx') && tx'.request == tx.request && !Waiting(tx')
  {
    hide DetailOf, Owns, StaleColumn, StaleReservation, AdvanceQuantity, AdvanceSeats, AdvanceRows, Ordered;
    if tx.request.LifecycleRequest? { hide AdvanceBatch; } else { hide AdvanceOwned; }
  }

  lemma RowsKept(db: Store, tx: Tx)
    requires Typed(tx) && tx.pc.Rows? && AdvanceRows(db, tx).Going?
    ensures Typed(AdvanceRows(db, tx).tx) && AdvanceRows(db, tx).tx.pc.Rows? && AdvanceRows(db, tx).tx.request == tx.request
  {
    hide AdvanceRows;
  }

  lemma KeyRefuses(db: Store, tx: Tx)
    requires tx.request.SeatsRequest? && tx.pc.SInsert?
    requires FoundSeats(db, tx.request.event, tx.request.seats) == Sorted(tx.request.seats)
    requires KeyUsed(db, tx.request.caller.session, tx.request.key)
    ensures RefusesSeats(db, tx.request, tx.pc.now)
  {
  }

  // The cause of where the transaction stands was seen while it was in flight, for an instant in that time.
  ghost predicate Explained(s: Sys, actions: seq<Action>, id: Id, tx: Tx, clock: int) {
    Typed(tx) && (Waiting(tx) ==>
      exists db, now :: During(s, actions, id, db) && Cause(db, tx, now) && tx.began <= now <= clock)
  }

  lemma ExplainedLonger(s: Sys, actions: seq<Action>, id: Id, tx: Tx, tx': Tx, clock: int, later: int)
    requires actions != [] && Explained(s, actions[..|actions| - 1], id, tx, clock) && clock <= later
    requires Typed(tx') && tx'.request == tx.request && tx'.began == tx.began
    requires Waiting(tx') ==> tx'.pc == tx.pc || (tx'.pc.SLock? && tx.pc.SLock?)
    ensures Explained(s, actions, id, tx', later)
  {
    hide RefusesStock, RefusesSeats, Missed, During;
    if Waiting(tx') {
      var db, now :| During(s, actions[..|actions| - 1], id, db) && Cause(db, tx, now) && tx.began <= now <= clock;
      DuringLonger(s, actions, id, db);
      assert Cause(db, tx', now);
    }
  }

  lemma ExplainedByStep(s: Sys, actions: seq<Action>, id: Id, uid: Id)
    requires SysInv(s) && GoodTrace(s, actions) && actions != []
    requires var m := Trace(s, actions[..|actions| - 1]);
             && SysInv(m) && Enabled(m, Run(id, uid)) && Explained(s, actions[..|actions| - 1], id, m.txs[id], m.clock)
             && Advance(m.db, m.clock, m.ttl, m.txs[id], Taken(m, id), uid).Going?
    ensures var m := Trace(s, actions[..|actions| - 1]);
            Explained(s, actions, id, Advance(m.db, m.clock, m.ttl, m.txs[id], Taken(m, id), uid).tx, m.clock)
  {
    hide During, RefusesStock, RefusesSeats, Missed, Advance, TxInv, Wanted, IsNew, Taken, GoodTrace, Trace, Inv, Cause;
    GoodRest(s, actions);
    var rest := actions[..|actions| - 1];
    var m := Trace(s, rest);
    var tx := m.txs[id];
    var tx' := Advance(m.db, m.clock, m.ttl, tx, Taken(m, id), uid).tx;
    InvOf(m);
    InvParts(m.db);
    SysTyped(m, id);
    StaysTimely(m.db, m.clock, m.ttl, tx, Taken(m, id), uid);
    CauseSeen(m.db, m.clock, m.ttl, tx, Taken(m, id), uid);
    if tx.pc.SLock? || !Waiting(tx') {
      if tx.pc.SLock? { LockNext(m.db, m.clock, m.ttl, tx, Taken(m, id), uid); }
      ExplainedLonger(s, actions, id, tx, tx', m.clock, m.clock);
    } else {
      InstantKnown(m.clock, tx);
      DuringNow(s, rest, id);
      DuringLonger(s, actions, id, m.db);
    }
  }

  lemma InstantKnown(clock: int, tx: Tx)
    requires Typed(tx) && Timely(clock, tx)
    ensures var now := if tx.pc.SSeats? || tx.pc.SInsert? then tx.pc.now else clock; tx.began <= now <= clock
  {
  }

  lemma GoodRest(s: Sys, actions: seq<Action>)
    requires GoodTrace(s, actions) && actions != []
    ensures GoodTrace(s, actions[..|actions| - 1])
  {
  }

  lemma LockNext(db: Store, clock: int, ttl: int, tx: Tx, taken: set<Lock>, uid: Id)
    requires Typed(tx) && tx.pc.SLock? && Advance(db, clock, ttl, tx, taken, uid).Going?
    ensures var next := Advance(db, clock, ttl, tx, taken, uid).tx.pc; next.SLock? || next.SClock?
  {
    hide FoundSeats, Sorted;
  }

  lemma {:induction false} AlwaysExplained(s: Sys, actions: seq<Action>, id: Id)
    requires SysInv(s) && GoodTrace(s, actions) && id !in s.txs && id in Trace(s, actions).txs
    ensures Explained(s, actions, id, Trace(s, actions).txs[id], Trace(s, actions).clock)
    decreases |actions|
  {
    hide SysInv, Advance, Explained, During, Wanted, IsNew, Typed, Enabled, Taken;
    var rest, a := actions[..|actions| - 1], actions[|actions| - 1];
    EveryInterleavingIsARun(s, rest);
    EveryInterleavingIsARun(s, actions);
    var m := Trace(s, rest);
    SysTyped(Trace(s, actions), id);
    if id in m.txs {
      AlwaysExplained(s, rest, id);
    }
    LastStep(s, actions, id);
  }

  lemma LastStep(s: Sys, actions: seq<Action>, id: Id)
    requires SysInv(s) && GoodTrace(s, actions) && actions != [] && id in Trace(s, actions).txs
    requires SysInv(Trace(s, actions[..|actions| - 1]))
    requires Typed(Trace(s, actions).txs[id])
    requires var m := Trace(s, actions[..|actions| - 1]);
             id in m.txs ==> Explained(s, actions[..|actions| - 1], id, m.txs[id], m.clock)
    ensures Explained(s, actions, id, Trace(s, actions).txs[id], Trace(s, actions).clock)
  {
    hide SysInv, Advance, During, Wanted, IsNew, Typed, Taken, Cause, ValidRequest;
    var m, a := Trace(s, actions[..|actions| - 1]), actions[|actions| - 1];
    var tx' := Trace(s, actions).txs[id];
    assert Trace(s, actions) == Do(m, a) && Enabled(m, a);
    if id !in m.txs {
      assert !Waiting(tx');
    } else if a.Run? && a.id == id && Advance(m.db, m.clock, m.ttl, m.txs[id], Taken(m, id), a.uid).Going? {
      ExplainedByStep(s, actions, id, a.uid);
    } else {
      ExplainedLonger(s, actions, id, m.txs[id], tx', m.clock, Trace(s, actions).clock);
    }
  }

  // ----- the answer -----

  // The operation asks for what the request asks for.
  ghost predicate Asks(q: Request, op: Op) {
    match q
    case QuantityRequest(caller, event, t, quantity, key) =>
      op.QuantityOp? && op.caller == caller && op.event == event && op.ticketType == t && op.quantity == quantity && op.key == key
    case SeatsRequest(caller, event, seats, key) =>
      op.SeatsOp? && op.caller == caller && op.event == event && op.seats == seats && op.key == key && |op.rowIds| == |seats|
    case LifecycleRequest(id, caller, target) =>
      op.LifecycleOp? && op.id == id && op.caller == caller && op.target == target
    case BatchRequest(_, _, _) =>
      op.ExpireOp? && op.rows == []
  }

  // In `db` the atomic operation, acting at `now`, changes nothing and answers `out`.
  ghost predicate Answers(db: Store, ttl: int, q: Request, out: Outcome, now: int) {
    exists op :: Asks(q, op) && op.now == now && Exec(db, ttl, op) == (db, out)
  }

  function QuantityAsked(q: Request, now: int): Op
    requires q.QuantityRequest?
  {
    QuantityOp(q.caller, q.event, q.ticketType, q.quantity, q.key, 0, 0, now)
  }

  function SeatsAsked(q: Request, now: int): Op
    requires q.SeatsRequest?
  {
    SeatsOp(q.caller, q.event, q.seats, q.key, 0, Sorted(q.seats), now)
  }

  // A lookup that misses now has missed before.
  lemma MissedBefore(db: Store, d: Store, session: Id, key: string)
    requires Inv(db) && Inv(d) && Evolves(db, d)
    ensures QuantityLookup(d, session, key).Missing? ==> QuantityLookup(db, session, key).Missing?
    ensures SeatsLookup(d, session, key).Missing? ==> SeatsLookup(db, session, key).Missing?
  {
    hide Inv, QuantityLookup, SeatsLookup;
    InvParts(db);
    InvParts(d);
    QuantityLookupExact(db, session, key);
    QuantityLookupExact(d, session, key);
    SeatsLookupExact(db, session, key);
    SeatsLookupExact(d, session, key);
    hide Linked, Shaped, UniqueKeys, Exclusive, Balanced, Rooted;
    assert forall r, kind :: Keyed(db, r, session, key, kind) ==> Keyed(d, r, session, key, kind);
  }

  lemma SameFound(db: Store, d: Store, event: Id, seats: set<Id>)
    requires Evolves(db, d)
    ensures FoundSeats(db, event, seats) == FoundSeats(d, event, seats)
  {
    hide Sorted;
    assert SeatsOfEvent(db, event, seats) == SeatsOfEvent(d, event, seats);
  }

  lemma QuantityAnswersIn(db: Store, ttl: int, q: Request, now: int)
    requires q.QuantityRequest? && (QuantityLookup(db, q.caller.session, q.key).Missing? ==> RefusesStock(db, q))
    ensures Answers(db, ttl, q, QuantityReplay(db, q.caller.session, q.key), now)
  {
    hide QuantityLookup, HasStock, KeyUsed, QuantityReplay, ReserveSeats, Lifecycle, ExpireRows;
    assert Asks(q, QuantityAsked(q, now));
    assert Exec(db, ttl, QuantityAsked(q, now)) == (db, QuantityReplay(db, q.caller.session, q.key));
  }

  lemma QuantityAnswers(db: Store, d: Store, ttl: int, q: Request, now: int, clock: int)
    requires q.QuantityRequest? && Inv(db) && Inv(d) && Evolves(db, d)
    requires QuantityLookup(d, q.caller.session, q.key).Missing? ==> RefusesStock(db, q)
    ensures var out := QuantityReplay(d, q.caller.session, q.key);
            Answers(db, ttl, q, out, now) || Answers(d, ttl, q, out, clock)
  {
    hide Inv, QuantityLookup, Evolves, Answers, RefusesStock;
    MissedBefore(db, d, q.caller.session, q.key);
    if QuantityLookup(d, q.caller.session, q.key).Missing? {
      QuantityAnswersIn(db, ttl, q, now);
    } else {
      QuantityAnswersIn(d, ttl, q, clock);
    }
  }

  lemma SeatsAnswerIn(db: Store, ttl: int, q: Request, now: int)
    requires q.SeatsRequest? && (SeatsLookup(db, q.caller.session, q.key).Missing? ==> RefusesSeats(db, q, now))
    ensures Answers(db, ttl, q, SeatsReplay(db, q.caller.session, q.key), now)
  {
    hide SeatsLookup, KeyUsed, SeatsReplay, Sorted, FoundSeats, Settle, StaleHolders, Blocked, NewRows, ReserveQuantity,
         Lifecycle, ExpireRows;
    SortedCount(q.seats);
    assert Asks(q, SeatsAsked(q, now));
    assert Exec(db, ttl, SeatsAsked(q, now)) == (db, SeatsReplay(db, q.caller.session, q.key));
  }

  lemma SeatsAnswer(db: Store, d: Store, ttl: int, q: Request, now: int, clock: int)
    requires q.SeatsRequest? && Inv(db) && Inv(d) && Evolves(db, d)
    requires SeatsLookup(d, q.caller.session, q.key).Missing? ==> RefusesSeats(db, q, now)
    ensures var out := SeatsReplay(d, q.caller.session, q.key);
            Answers(db, ttl, q, out, now) || Answers(d, ttl, q, out, clock)
  {
    hide Inv, SeatsLookup, Evolves, Answers, RefusesSeats;
    MissedBefore(db, d, q.caller.session, q.key);
    if SeatsLookup(d, q.caller.session, q.key).Missing? {
      SeatsAnswerIn(db, ttl, q, now);
    } else {
      SeatsAnswerIn(d, ttl, q, clock);
    }
  }

  lemma SortedCount(seats: set<Id>)
    ensures |Sorted(seats)| == |seats|
  {
  }

  lemma NotFoundAnswers(db: Store, d: Store, ttl: int, q: Request, now: int)
    requires q.SeatsRequest? && Evolves(db, d) && Missed(db, q) && FoundSeats(d, q.event, q.seats) != Sorted(q.seats)
    ensures Answers(db, ttl, q, Failed(SeatsNotFound), now)
  {
    hide SeatsLookup, KeyUsed, Evolves, Sorted, FoundSeats, Settle, StaleHolders, Blocked, NewRows, ReserveQuantity,
         Lifecycle, ExpireRows;
    SameFound(db, d, q.event, q.seats);
    SortedCount(q.seats);
    var op := SeatsAsked(q, now);
    assert Asks(q, op);
    assert Exec(db, ttl, op) == (db, Failed(SeatsNotFound));
  }

  lemma OwnedAnswers(db: Store, clock: int, ttl: int, tx: Tx)
    requires tx.request.LifecycleRequest? && (tx.pc.LLock? || tx.pc.LCheck?) && AdvanceOwned(db, clock, tx).Over?
    ensures Answers(db, ttl, tx.request, AdvanceOwned(db, clock, tx).outcome, clock)
  {
    hide DetailOf, Owns, TransitionReserved;
    var q := tx.request;
    var op := LifecycleOp(q.id, q.caller, q.target, clock);
    assert Asks(q, op);
    assert Exec(db, ttl, op) == (db, AdvanceOwned(db, clock, tx).outcome);
  }

  lemma BatchAnswers(db: Store, ttl: int, q: Request, now: int)
    requires q.BatchRequest?
    ensures Answers(db, ttl, q, Count(0), now)
  {
    var op := ExpireOp([], now);
    assert Asks(q, op) && Exec(db, ttl, op) == (db, Count(0));
  }

  // The last statement of a request that ends without a commit.
  lemma OverAnswers(db: Store, d: Store, clock: int, ttl: int, tx: Tx, taken: set<Lock>, uid: Id, now: int)
    requires Inv(db) && Inv(d) && Evolves(db, d) && TxInv(d, ttl, tx) && !tx.pc.Done?
    requires Advance(d, clock, ttl, tx, taken, uid).Over?
    requires Waiting(tx) ==> Cause(db, tx, now)
    ensures var out := Advance(d, clock, ttl, tx, taken, uid).outcome;
            Answers(db, ttl, tx.request, out, now) || Answers(d, ttl, tx.request, out, clock)
  {
    hide Inv, Evolves, Answers, QuantityLookup, SeatsLookup, RefusesStock, RefusesSeats, Missed, KeyUsed, FoundSeats, Sorted,
         StaleHolders, SettledRows, SettledParents, Occupied, DetailOf, Owns, AdvanceRows, HasStock, StaleColumn, RowsInv,
         QuantityInv, SeatsInv, OwnedInv, BatchInv, AdvanceOwned, QuantityReplay, SeatsReplay;
    if tx.pc.Rows? {
      RowsStep(d, ttl, tx, uid);
    } else {
      match tx.request
      case QuantityRequest(_, _, _, _, _) => QuantityAnswers(db, d, ttl, tx.request, now, clock);
      case SeatsRequest(_, _, _, _) =>
        if tx.pc.SLock? {
          NotFoundAnswers(db, d, ttl, tx.request, now);
        } else {
          SeatsAnswer(db, d, ttl, tx.request, now, clock);
        }
      case LifecycleRequest(_, _, _) => OwnedAnswers(d, clock, ttl, tx);
      case BatchRequest(_, _, _) => BatchAnswers(d, ttl, tx.request, clock);
    }
  }

  // A store in which the cause was seen, or the current one.
  lemma CauseIn(s: Sys, actions: seq<Action>, id: Id) returns (db: Store, now: int)
    requires SysInv(s) && GoodTrace(s, actions) && id !in s.txs && id in Trace(s, actions).txs
    requires !Trace(s, actions).txs[id].pc.Done?
    ensures var m := Trace(s, actions);
            && During(s, actions, id, db) && Inv(db) && Inv(m.db) && Evolves(db, m.db)
            && Typed(m.txs[id]) && (Waiting(m.txs[id]) ==> Cause(db, m.txs[id], now))
            && m.txs[id].began <= now <= m.clock
  {
    hide SysInv, During, Cause, GoodTrace, Trace, Evolves, Inv;
    var m := Trace(s, actions);
    EveryInterleavingIsARun(s, actions);
    InvOf(m);
    AlwaysExplained(s, actions, id);
    if Waiting(m.txs[id]) {
      db, now :| During(s, actions, id, db) && Cause(db, m.txs[id], now) && m.txs[id].began <= now <= m.clock;
    } else {
      DuringNow(s, actions, id);
      SysTyped(m, id);
      db, now := m.db, m.clock;
    }
    DuringSome(s, actions, id, db);
  }

  lemma DuringSome(s: Sys, actions: seq<Action>, id: Id, db: Store)
    requires SysInv(s) && GoodTrace(s, actions) && During(s, actions, id, db)
    ensures Inv(db) && Evolves(db, Trace(s, actions).db)
  {
    hide SysInv, GoodTrace, Trace, Evolves, Inv, DuringAt;
    var n: nat :| DuringAt(s, actions, n, id, db);
    DuringEvolves(s, actions, n, id, db);
  }

  // Every request that ends without a commit is answered as the atomic operation answers in some store
  // committed between its beginning and its end, acting at some instant between the two; so no seat
  // conflict is explained by a hold that had run out before the request came in. That a batch which ends
  // so had nothing to pick is `Scans.EmptyBatchFoundNothing`.
  lemma RefusalsLinearize(s: Sys, actions: seq<Action>, id: Id, uid: Id)
    requires SysInv(s) && GoodTrace(s, actions) && id !in s.txs && Enabled(Trace(s, actions), Run(id, uid))
    requires var m := Trace(s, actions); Advance(m.db, m.clock, m.ttl, m.txs[id], Taken(m, id), uid).Over?
    ensures var m := Trace(s, actions);
            exists db, now :: During(s, actions, id, db) && m.txs[id].began <= now <= m.clock
                              && Answers(db, m.ttl, m.txs[id].request,
                                         Advance(m.db, m.clock, m.ttl, m.txs[id], Taken(m, id), uid).outcome, now)
  {
    hide SysInv, Advance, During, Wanted, IsNew, Taken, Cause, Answers, GoodTrace, Trace, Evolves, Inv, TxInv, Waiting;
    var m := Trace(s, actions);
    EveryInterleavingIsARun(s, actions);
    var db, now := CauseIn(s, actions, id);
    DuringNow(s, actions, id);
    Knows(m, id);
    SysTyped(m, id);
    OverAnswers(db, m.db, m.clock, m.ttl, m.txs[id], Taken(m, id), uid, now);
  }

  // The committed reason of a conflict: the key holds a reservation of the other kind, or the tickets not sold
  // or held do not suffice, or a requested seat has a confirmed hold or one that runs out later than `since`.
  ghost predicate Hindered(db: Store, q: Request, since: int) {
    || (q.QuantityRequest?
        && (KeyHeld(db, q.caller.session, q.key, Seats) || !TicketsLeft(db, q.event, q.ticketType, q.quantity)))
    || (q.SeatsRequest? && (KeyHeld(db, q.caller.session, q.key, Quantity) || !AllFree(db, q.seats, since)))
  }

  lemma ConflictHindered(db: Store, ttl: int, q: Request, out: Outcome, now: int)
    requires Inv(db) && Answers(db, ttl, q, out, now)
    requires out == Failed(StockConflict) || out == Failed(SeatConflict)
    ensures Hindered(db, q, now)
  {
    hide Linked, Shaped, UniqueKeys, Exclusive, Balanced, Rooted, ReserveQuantity, ReserveSeats, DetailOf, TransitionReserved,
         KeyHeld, TicketsLeft, AllFree, InEvent, KeyUsed, ExpireRows;
    var op :| Asks(q, op) && op.now == now && Exec(db, ttl, op) == (db, out);
    KeyUsedByKind(db, if q.QuantityRequest? || q.SeatsRequest? then q.caller.session else 0,
                  if q.QuantityRequest? || q.SeatsRequest? then q.key else "");
    match op
    case QuantityOp(_, _, _, _, _, _, _, _) =>
      QuantityOutcome(db, op.caller, op.event, op.ticketType, op.quantity, op.key, op.rid, op.iid, op.now + ttl);
      LeftIsGranted(db, op.caller, op.event, op.ticketType, op.quantity, op.key, op.rid, op.iid, op.now + ttl);
    case SeatsOp(_, _, _, _, _, _, _) =>
      SeatsOutcome(db, op.caller, op.event, op.seats, op.key, op.rid, op.rowIds, op.now, op.now + ttl);
    case _ =>
  }

  lemma HinderedSince(db: Store, q: Request, now: int, since: int)
    requires Hindered(db, q, now) && since <= now
    ensures Hindered(db, q, since)
  {
    hide KeyHeld, TicketsLeft;
  }

  // Every conflict has its reason: in some store committed while the request was in flight the key held a
  // reservation of the other kind, the stock did not suffice, or a requested seat was sold or held beyond the
  // moment the request came in. Holds that had run out by then never turn anybody away.
  lemma ConflictsAreReal(s: Sys, actions: seq<Action>, id: Id, uid: Id)
    requires SysInv(s) && GoodTrace(s, actions) && id !in s.txs && Enabled(Trace(s, actions), Run(id, uid))
    requires var m := Trace(s, actions); var next := Advance(m.db, m.clock, m.ttl, m.txs[id], Taken(m, id), uid);
             next == Over(Failed(StockConflict)) || next == Over(Failed(SeatConflict))
    ensures var tx := Trace(s, actions).txs[id];
            exists db :: During(s, actions, id, db) && Hindered(db, tx.request, tx.began)
  {
    var m := Trace(s, actions);
    var tx := m.txs[id];
    hide SysInv, Advance, During, Wanted, IsNew, Taken, Answers, GoodTrace, Trace, Evolves, Inv, Hindered, Enabled;
    RefusalsLinearize(s, actions, id, uid);
    var db, now :| During(s, actions, id, db) && tx.began <= now <= m.clock
                   && Answers(db, m.ttl, tx.request,
                              Advance(m.db, m.clock, m.ttl, tx, Taken(m, id), uid).outcome, now);
    DuringSome(s, actions, id, db);
    ConflictHindered(db, m.ttl, tx.request, Advance(m.db, m.clock, m.ttl, tx, Taken(m, id), uid).outcome, now);
    HinderedSince(db, tx.request, now, tx.began);
  }

  lemma Knows(s: Sys, id: Id)
    requires SysInv(s) && id in s.txs
    ensures TxInv(s.db, s.ttl, s.txs[id])
  {
  }
}
