/** Whole runs of atomic operations: what no sequence of requests and batches can undo. */
module Runs {
  import opened Tables
  import opened Ordering
  import opened Spec
  import opened Invariant
  import opened Transitions
  import opened Operations
  import opened Outcomes

  // Rows keep their identity, a settled row keeps its status, no sale is taken back, and new children
  // come with new parents.
  ghost predicate Evolves(db: Store, d: Store) {
    && d.events == db.events && d.seats == db.seats && d.ticketTypes.Keys == db.ticketTypes.Keys
    && (forall t :: t in db.ticketTypes ==>
          && d.ticketTypes[t] == db.ticketTypes[t].(sold := d.ticketTypes[t].sold, reserved := d.ticketTypes[t].reserved)
          && db.ticketTypes[t].sold <= d.ticketTypes[t].sold)
    && (forall r :: r in db.reservations ==>
          && r in d.reservations
          && d.reservations[r] == db.reservations[r].(status := d.reservations[r].status)
          && (!db.reservations[r].status.Reserved? ==> d.reservations[r] == db.reservations[r]))
    && (forall i :: i in db.items ==>
          && i in d.items && d.items[i] == db.items[i].(status := d.items[i].status)
          && (!db.items[i].status.Reserved? ==> d.items[i] == db.items[i]))
    && (forall i :: i in db.seatRows ==>
          && i in d.seatRows && d.seatRows[i] == db.seatRows[i].(status := d.seatRows[i].status)
          && (!db.seatRows[i].status.Reserved? ==> d.seatRows[i] == db.seatRows[i]))
    && (forall i :: i in d.items && i !in db.items ==> d.items[i].reservation !in db.reservations)
    && (forall i :: i in d.seatRows && i !in db.seatRows ==> d.seatRows[i].reservation !in db.reservations)
  }

  lemma EvolvesTransitively(a: Store, b: Store, c: Store)
    requires Evolves(a, b) && Evolves(b, c)
    ensures Evolves(a, c)
  {
  }

  lemma SettleEvolves(db: Store, holders: set<Id>, target: Status)
    ensures Evolves(db, Settle(db, holders, target))
  {
  }

  lemma WithSeatsEvolves(db: Store, rid: Id, parent: Reservation, added: map<Id, SeatRow>)
    requires rid !in db.reservations && added.Keys !! db.seatRows.Keys
    requires forall i :: i in added ==> added[i].reservation == rid
    ensures Evolves(db, WithSeats(db, rid, parent, added))
  {
  }

  lemma MovedEvolves(db: Store, r: Id, x: Id, target: Status)
    requires SoleItem(db, r, x) && db.items[x].quantity >= 0
    ensures Evolves(db, Moved(db, r, x, target))
  {
  }

  lemma TransitionEvolves(db: Store, r: Id, target: Status)
    requires Inv(db) && r in db.reservations && !target.Reserved?
    ensures TransitionReserved(db, r, target).Some?
    ensures Evolves(db, TransitionReserved(db, r, target).value)
  {
    hide Linked, Shaped, UniqueKeys, Exclusive, Balanced, Rooted, Settle, Moved;
    if db.reservations[r].status.Reserved? {
      hide Evolves;
      if db.reservations[r].kind.Quantity? {
        var x := QuantityPasses(db, r, target);
        QuantityPositive(db, x);
        MovedEvolves(db, r, x, target);
      } else {
        SeatsPass(db, r, target);
        SettleEvolves(db, {r}, target);
      }
    }
  }

  lemma QuantityPositive(db: Store, x: Id)
    requires Linked(db) && x in db.items
    ensures db.items[x].quantity > 0
  {
  }

  lemma ExpireStep(db: Store, rows: seq<Id>, d: Store)
    requires rows != [] && forall r :: r in rows ==> r in db.reservations
    requires d == ExpireRows(db, rows[..|rows| - 1]).0 && rows[|rows| - 1] in d.reservations
    requires TransitionReserved(d, rows[|rows| - 1], Expired).Some?
    ensures ExpireRows(db, rows).0 == TransitionReserved(d, rows[|rows| - 1], Expired).value
  {
  }

  lemma {:induction false} ExpireEvolves(db: Store, rows: seq<Id>)
    requires Inv(db) && Distinct(rows)
    requires forall r :: r in rows ==> r in db.reservations && db.reservations[r].status.Reserved?
    ensures Evolves(db, ExpireRows(db, rows).0)
    decreases |rows|
  {
    hide Inv, Evolves, TransitionReserved;
    if rows == [] {
      EvolvesRefl(db);
    } else {
      var n := |rows| - 1;
      var init := rows[..n];
      assert forall r :: r in init ==> r in rows;
      ExpireEvolves(db, init);
      ExpireAll(db, init);
      var d := ExpireRows(db, init).0;
      assert rows[n] in rows;
      hide ExpireRows;
      TransitionEvolves(d, rows[n], Expired);
      EvolvesTransitively(db, d, TransitionReserved(d, rows[n], Expired).value);
      ExpireStep(db, rows, d);
    }
  }

  lemma EvolvesRefl(db: Store)
    ensures Evolves(db, db)
  {
  }

  lemma SeatsEvolve(db: Store, caller: Caller, event: Id, seats: set<Id>, key: string,
                    rid: Id, rowIds: seq<Id>, now: int, expiresAt: int)
    requires rid !in db.reservations && |rowIds| == |seats| && Distinct(rowIds)
    requires forall i :: i in rowIds ==> i !in db.seatRows
    ensures Evolves(db, ReserveSeats(db, caller, event, seats, key, rid, rowIds, now, expiresAt).0)
  {
    hide Settle, StaleHolders, NewRows, Sorted, Evolves, ReserveSeats, WithSeats;
    if ReserveSeats(db, caller, event, seats, key, rid, rowIds, now, expiresAt).1.Made? {
      var parent := SeatsParent(caller, event, key, expiresAt);
      var holders := StaleHolders(db, seats, now);
      var d := Settle(db, holders, Expired);
      var added := NewRows(rid, Sorted(seats), rowIds, expiresAt);
      SeatsMadeForm(db, caller, event, seats, key, rid, rowIds, now, expiresAt);
      NewRowsSeats(rid, seats, rowIds, expiresAt);
      SettleEvolves(db, holders, Expired);
      SettleFrame(db, holders, Expired, caller.session, key);
      WithSeatsEvolves(d, rid, parent, added);
      EvolvesTransitively(db, d, WithSeats(d, rid, parent, added));
    } else {
      SeatsUnmade(db, caller, event, seats, key, rid, rowIds, now, expiresAt);
      EvolvesRefl(db);
    }
  }

  lemma LifecycleEvolves(db: Store, r: Id, caller: Caller, target: Status, now: int)
    requires Inv(db) && !target.Reserved?
    ensures Evolves(db, Lifecycle(db, r, caller, target, now).0)
  {
    hide Inv, Evolves, TransitionReserved, DetailOf, Owns;
    EvolvesRefl(db);
    if r in db.reservations {
      TransitionEvolves(db, r, Expired);
      TransitionEvolves(db, r, target);
    }
  }

  lemma QuantityEvolves(db: Store, caller: Caller, event: Id, t: Id, quantity: int, key: string,
                        rid: Id, iid: Id, expiresAt: int)
    requires rid !in db.reservations && iid !in db.items
    ensures Evolves(db, ReserveQuantity(db, caller, event, t, quantity, key, rid, iid, expiresAt).0)
  {
    hide QuantityLookup, KeyUsed;
  }

  lemma ExecEvolves(db: Store, ttl: int, op: Op)
    requires Inv(db) && GoodOp(db, op)
    ensures Evolves(db, Exec(db, ttl, op).0)
  {
    hide Inv, ReserveQuantity, ReserveSeats, Lifecycle, Evolves;
    match op
    case QuantityOp(caller, event, t, quantity, key, rid, iid, now) =>
      QuantityEvolves(db, caller, event, t, quantity, key, rid, iid, now + ttl);
    case SeatsOp(caller, event, seats, key, rid, rowIds, now) =>
      SeatsEvolve(db, caller, event, seats, key, rid, rowIds, now, now + ttl);
    case LifecycleOp(id, caller, target, now) => LifecycleEvolves(db, id, caller, target, now);
    case ExpireOp(rows, _) => ExpireEvolves(db, rows);
  }

  // ----- one operation against one hold -----

  ghost predicate ByOwner(db: Store, r: Id, op: Op) {
    op.LifecycleOp? && op.id == r && r in db.reservations && OwnedBy(db.reservations[r], op.caller)
  }

  // A hold ends only by its owner's call, by a seat request that reads the clock at its deadline or later, or by
  // a batch whose instant is past the deadline; and it is confirmed only by an owner's confirm whose clock
  // reading is not past the deadline.
  lemma HoldEnds(db: Store, ttl: int, op: Op, r: Id)
    requires Inv(db) && GoodOp(db, op)
    requires r in db.reservations && db.reservations[r].status.Reserved?
    ensures var d := Exec(db, ttl, op).0;
            && r in d.reservations
            && (!d.reservations[r].status.Reserved? ==>
                  || ByOwner(db, r, op)
                  || (op.SeatsOp? && db.reservations[r].expiresAt <= op.now)
                  || (op.ExpireOp? && r in op.rows && db.reservations[r].expiresAt < op.now))
            && (d.reservations[r].status.Confirmed? ==>
                  ByOwner(db, r, op) && op.target.Confirmed? && op.now <= db.reservations[r].expiresAt)
  {
    hide Linked, Shaped, UniqueKeys, Exclusive, Balanced, Rooted, ReserveSeats, Lifecycle, DetailOf;
    match op
    case QuantityOp(_, _, _, _, _, _, _, _) =>
    case SeatsOp(caller, event, seats, key, rid, rowIds, now) =>
      if Exec(db, ttl, op).1.Made? {
        SeatsEffect(db, caller, event, seats, key, rid, rowIds, now, now + ttl);
      } else {
        SeatsOutcome(db, caller, event, seats, key, rid, rowIds, now, now + ttl);
      }
    case LifecycleOp(id, caller, target, now) =>
      if id in db.reservations && OwnedBy(db.reservations[id], caller) {
        LifecycleOutcome(db, id, caller, target, now);
      } else {
        LifecycleStranger(db, id, caller, target, now);
      }
    case ExpireOp(rows, _) => ExpireAll(db, rows);
  }

  lemma LifecycleStranger(db: Store, id: Id, caller: Caller, target: Status, now: int)
    requires id in db.reservations ==> !OwnedBy(db.reservations[id], caller)
    ensures Lifecycle(db, id, caller, target, now) == (db, Failed(NotFound))
  {
  }

  // ----- runs -----

  ghost predicate GoodRun(db: Store, ttl: int, ops: seq<Op>)
    decreases |ops|, 0
  {
    ops == [] || (GoodRun(db, ttl, ops[..|ops| - 1]) && GoodOp(After(db, ttl, ops[..|ops| - 1]), ops[|ops| - 1]))
  }

  ghost function After(db: Store, ttl: int, ops: seq<Op>): Store
    requires GoodRun(db, ttl, ops)
    decreases |ops|, 1
  {
    if ops == [] then db
    else Exec(After(db, ttl, ops[..|ops| - 1]), ttl, ops[|ops| - 1]).0
  }

  lemma {:induction false} GoodPrefix(db: Store, ttl: int, ops: seq<Op>, n: nat)
    requires GoodRun(db, ttl, ops) && n <= |ops|
    ensures GoodRun(db, ttl, ops[..n])
    decreases |ops|
  {
    if n < |ops| {
      assert ops[..|ops| - 1][..n] == ops[..n];
      GoodPrefix(db, ttl, ops[..|ops| - 1], n);
    } else {
      assert ops[..n] == ops;
    }
  }

  lemma ExtendRun(db: Store, ttl: int, ops: seq<Op>, op: Op)
    requires GoodRun(db, ttl, ops) && GoodOp(After(db, ttl, ops), op)
    ensures GoodRun(db, ttl, ops + [op])
    ensures After(db, ttl, ops + [op]) == Exec(After(db, ttl, ops), ttl, op).0
  {
  }

  // Every store of a run keeps the invariant.
  lemma {:induction false} RunKeepsInv(db: Store, ttl: int, ops: seq<Op>)
    requires Inv(db) && GoodRun(db, ttl, ops)
    ensures Inv(After(db, ttl, ops))
    decreases |ops|
  {
    hide Inv, Exec, GoodOp;
    if ops != [] {
      RunKeepsInv(db, ttl, ops[..|ops| - 1]);
      ExecKeepsInv(After(db, ttl, ops[..|ops| - 1]), ttl, ops[|ops| - 1]);
    }
  }

  // Over any stretch of a run rows keep their identity and settled ones their status, so each
  // reservation leaves RESERVED at most once; and sales only grow.
  lemma {:induction false} RunEvolves(db: Store, ttl: int, ops: seq<Op>, n: nat)
    requires Inv(db) && GoodRun(db, ttl, ops) && n <= |ops|
    ensures GoodRun(db, ttl, ops[..n])
    ensures Evolves(After(db, ttl, ops[..n]), After(db, ttl, ops))
    decreases |ops|
  {
    hide Inv, Exec, GoodOp, Evolves;
    GoodPrefix(db, ttl, ops, n);
    if n == |ops| {
      assert ops[..n] == ops;
      EvolvesRefl(After(db, ttl, ops));
    } else {
      var m := |ops| - 1;
      assert ops[..m][..n] == ops[..n];
      RunEvolves(db, ttl, ops[..m], n);
      RunKeepsInv(db, ttl, ops[..m]);
      ExecEvolves(After(db, ttl, ops[..m]), ttl, ops[m]);
      EvolvesTransitively(After(db, ttl, ops[..n]), After(db, ttl, ops[..m]), After(db, ttl, ops));
    }
  }

  lemma RowKept(db: Store, d: Store, r: Id)
    requires Evolves(db, d) && r in db.reservations
    ensures r in d.reservations && d.reservations[r] == db.reservations[r].(status := d.reservations[r].status)
  {
  }

  // The operation comes before the deadline of the hold `row` and is not its owner's call on it.
  ghost predicate Spares(row: Reservation, r: Id, op: Op) {
    op.now < row.expiresAt && !(op.LifecycleOp? && op.id == r && OwnedBy(row, op.caller))
  }

  lemma SparedHold(db: Store, ttl: int, op: Op, r: Id)
    requires Inv(db) && GoodOp(db, op)
    requires r in db.reservations && db.reservations[r].status.Reserved? && Spares(db.reservations[r], r, op)
    ensures var d := Exec(db, ttl, op).0; r in d.reservations && d.reservations[r] == db.reservations[r]
  {
    hide Inv, Exec, OwnedBy, Evolves;
    HoldEnds(db, ttl, op, r);
    ExecEvolves(db, ttl, op);
    RowKept(db, Exec(db, ttl, op).0, r);
  }

  // A hold whose deadline no operation of the run has reached, and whose owner stays quiet, is still held.
  lemma {:induction false} HoldSafeUntilDeadline(db: Store, ttl: int, ops: seq<Op>, r: Id)
    requires Inv(db) && GoodRun(db, ttl, ops)
    requires r in db.reservations && db.reservations[r].status.Reserved?
    requires forall op :: op in ops ==> Spares(db.reservations[r], r, op)
    ensures r in After(db, ttl, ops).reservations
    ensures After(db, ttl, ops).reservations[r] == db.reservations[r]
    decreases |ops|
  {
    hide Inv, Exec, GoodOp, Spares;
    if ops != [] {
      var m := |ops| - 1;
      HoldSafeUntilDeadline(db, ttl, ops[..m], r);
      RunKeepsInv(db, ttl, ops[..m]);
      SparedHold(After(db, ttl, ops[..m]), ttl, ops[m], r);
    }
  }

  // ----- who can still cancel or confirm -----

  lemma MadeRow(db: Store, ttl: int, made: Op)
    requires Inv(db) && (made.QuantityOp? || made.SeatsOp?) && GoodOp(db, made) && Exec(db, ttl, made).1.Made?
    ensures var first := Exec(db, ttl, made).0;
            && made.rid in first.reservations
            && first.reservations[made.rid]
               == Reservation(made.event, made.caller.session, made.caller.user, Reserved,
                              if made.QuantityOp? then Quantity else Seats, made.key, made.now + ttl)
  {
    hide Shaped, UniqueKeys, Exclusive, Balanced, Rooted, ReserveSeats, ReserveQuantity, Linked, StaleLapsed, ExactlyHeld, Sorted;
    if made.QuantityOp? {
      QuantityEffect(db, made.caller, made.event, made.ticketType, made.quantity, made.key, made.rid, made.iid, made.now + ttl);
    } else {
      SeatsEffect(db, made.caller, made.event, made.seats, made.key, made.rid, made.rowIds, made.now, made.now + ttl);
    }
  }

  // Whatever runs in between, exactly the session and the user a reservation was made by find it again: any
  // other caller is answered that it does not exist.
  lemma MakerFindsIt(db: Store, ttl: int, made: Op, ops: seq<Op>, call: Op)
    requires Inv(db) && (made.QuantityOp? || made.SeatsOp?) && GoodOp(db, made) && Exec(db, ttl, made).1.Made?
    requires GoodRun(Exec(db, ttl, made).0, ttl, ops)
    requires call.LifecycleOp? && call.id == made.rid && (call.target.Cancelled? || call.target.Confirmed?)
    ensures var d := After(Exec(db, ttl, made).0, ttl, ops);
            Exec(d, ttl, call) == (d, Failed(NotFound))
            <==> call.caller.session != made.caller.session
                 && (call.caller.user.None? || call.caller.user != made.caller.user)
  {
    var first := Exec(db, ttl, made).0;
    hide Inv, GoodOp, Evolves, GoodRun;
    ExecKeepsInv(db, ttl, made);
    MadeRow(db, ttl, made);
    RunKeepsInv(first, ttl, ops);
    assert ops[..0] == [];
    RunEvolves(first, ttl, ops, 0);
    var d := After(first, ttl, ops);
    RowKept(first, d, made.rid);
    FoundByOwner(d, call.id, call.caller, call.target, call.now);
    hide ReserveQuantity, ReserveSeats, Lifecycle;
  }

  // ----- retries -----

  // A request made once is replayed ever after: same reservation, same item, its current status,
  // whatever else ran in between and whatever the retry asks for.
  lemma QuantityRetryAfterRun(db: Store, ttl: int, made: Op, ops: seq<Op>, retry: Op)
    requires Inv(db) && made.QuantityOp? && GoodOp(db, made) && Exec(db, ttl, made).1.Made?
    requires GoodRun(Exec(db, ttl, made).0, ttl, ops)
    requires retry.QuantityOp? && retry.caller.session == made.caller.session && retry.key == made.key
    ensures var d := After(Exec(db, ttl, made).0, ttl, ops);
            && made.rid in d.reservations
            && Exec(d, ttl, retry)
               == (d, Replayed(QuantityResponse(made.rid, d.reservations[made.rid].status, made.now + ttl,
                                                made.ticketType, made.quantity)))
  {
    hide Inv, GoodOp, Evolves, QuantityLookup;
    var first := Exec(db, ttl, made).0;
    ExecKeepsInv(db, ttl, made);
    RunKeepsInv(first, ttl, ops);
    assert ops[..0] == [];
    RunEvolves(first, ttl, ops, 0);
    var d := After(first, ttl, ops);
    hide Exec, After;
    MadeItemPersists(first, d, made.rid, made.iid);
    RetryOf(d, ttl, retry, made.rid, made.iid);
  }

  lemma MadeItemPersists(first: Store, d: Store, rid: Id, iid: Id)
    requires Evolves(first, d) && rid in first.reservations && iid in first.items
    ensures rid in d.reservations && iid in d.items
    ensures d.reservations[rid] == first.reservations[rid].(status := d.reservations[rid].status)
    ensures d.items[iid] == first.items[iid].(status := d.items[iid].status)
  {
  }

  lemma RetryOf(d: Store, ttl: int, retry: Op, rid: Id, iid: Id)
    requires Inv(d) && retry.QuantityOp?
    requires Keyed(d, rid, retry.caller.session, retry.key, Quantity)
    requires iid in d.items && d.items[iid].reservation == rid
    ensures Exec(d, ttl, retry)
         == (d, Replayed(QuantityResponse(rid, d.reservations[rid].status, d.reservations[rid].expiresAt,
                                          d.items[iid].ticketType, d.items[iid].quantity)))
  {
    hide Linked, Shaped, UniqueKeys, Exclusive, Balanced, Rooted, QuantityLookup, ReserveQuantity;
    QuantityRetry(d, retry.caller, retry.event, retry.ticketType, retry.quantity, retry.key,
                  retry.rid, retry.iid, retry.now + ttl, rid, iid);
  }

  lemma MadeSeatsPersist(first: Store, d: Store, rid: Id, s: Id)
    requires Evolves(first, d) && rid in first.reservations
    ensures SeatOf(d, rid, s) <==> SeatOf(first, rid, s)
  {
  }

  lemma SeatsMadeRow(db: Store, ttl: int, made: Op)
    requires Inv(db) && made.SeatsOp? && GoodOp(db, made) && Exec(db, ttl, made).1.Made?
    ensures var first := Exec(db, ttl, made).0;
            && made.rid in first.reservations
            && first.reservations[made.rid]
               == Reservation(made.event, made.caller.session, made.caller.user, Reserved, Seats, made.key, made.now + ttl)
            && forall s :: SeatOf(first, made.rid, s) <==> s in made.seats
  {
    hide Shaped, UniqueKeys, Exclusive, Balanced, Rooted, ReserveSeats, Linked;
    SeatsEffect(db, made.caller, made.event, made.seats, made.key, made.rid, made.rowIds, made.now, made.now + ttl);
  }

  lemma SeatsMadeKept(first: Store, ttl: int, ops: seq<Op>, rid: Id, seats: set<Id>)
    requires Inv(first) && GoodRun(first, ttl, ops) && rid in first.reservations
    requires forall s :: SeatOf(first, rid, s) <==> s in seats
    ensures var d := After(first, ttl, ops);
            && Inv(d) && rid in d.reservations
            && d.reservations[rid] == first.reservations[rid].(status := d.reservations[rid].status)
            && forall s :: SeatOf(d, rid, s) <==> s in seats
  {
    hide Inv, GoodOp, Evolves, SeatOf, Exec;
    RunKeepsInv(first, ttl, ops);
    assert ops[..0] == [];
    RunEvolves(first, ttl, ops, 0);
    var d := After(first, ttl, ops);
    hide After;
    RowKept(first, d, rid);
    forall s ensures SeatOf(d, rid, s) <==> s in seats {
      MadeSeatsPersist(first, d, rid, s);
    }
  }

  // The same for seats: a retry lists exactly the seats first held, in the order of the first answer,
  // whichever seats it asks for.
  lemma SeatsRetryAfterRun(db: Store, ttl: int, made: Op, first: Store, ops: seq<Op>, retry: Op)
    requires Inv(db) && made.SeatsOp? && GoodOp(db, made)
    requires Exec(db, ttl, made).0 == first && Exec(db, ttl, made).1.Made?
    requires GoodRun(first, ttl, ops)
    requires retry.SeatsOp? && |retry.rowIds| == |retry.seats|
    requires retry.caller.session == made.caller.session && retry.key == made.key
    ensures var d := After(first, ttl, ops);
            && made.rid in d.reservations
            && Exec(d, ttl, retry)
               == (d, Replayed(SeatsResponse(made.rid, d.reservations[made.rid].status, made.now + ttl, Sorted(made.seats))))
  {
    hide Inv, GoodOp, SeatOf, Exec, After, GoodRun, Sorted;
    RowIdsMatch(db, made);
    ExecKeepsInv(db, ttl, made);
    SeatsMadeRow(db, ttl, made);
    SeatsMadeKept(first, ttl, ops, made.rid, made.seats);
    SeatsRetryOf(After(first, ttl, ops), ttl, retry, made.rid, made.seats);
  }

  lemma RowIdsMatch(db: Store, op: Op)
    requires GoodOp(db, op) && op.SeatsOp?
    ensures |op.rowIds| == |op.seats|
  {
  }

  lemma SeatsRetryOf(d: Store, ttl: int, retry: Op, rid: Id, seats: set<Id>)
    requires Inv(d) && retry.SeatsOp? && |retry.rowIds| == |retry.seats|
    requires Keyed(d, rid, retry.caller.session, retry.key, Seats)
    requires forall s :: SeatOf(d, rid, s) <==> s in seats
    ensures Exec(d, ttl, retry)
         == (d, Replayed(SeatsResponse(rid, d.reservations[rid].status, d.reservations[rid].expiresAt, Sorted(seats))))
  {
    hide Linked, Shaped, UniqueKeys, Exclusive, Balanced, Rooted, ReserveSeats, Sorted;
    SeatsRetry(d, retry.caller, retry.event, retry.seats, retry.key, retry.rid, retry.rowIds, retry.now, retry.now + ttl, rid);
    assert SeatsHeld(d, rid) == seats by {
      forall s ensures s in SeatsHeld(d, rid) <==> SeatOf(d, rid, s) {
      }
    }
  }
}
