/** What holds in every reachable state of the concurrent system, and of every answer it gives. */
module Reachable {
  import opened Tables
  import opened Ordering
  import opened Spec
  import opened Invariant
  import opened Operations
  import opened Outcomes
  import opened Runs
  import opened Concurrent
  import opened Isolation
  import opened RowWrites
  import opened Progress
  import opened Steps
  import opened Refinement

  // ----- conflicting writes -----

  lemma SharedType(db: Store, a: Tx, b: Tx, t: Id)
    requires Covered(db, a) && Covered(db, b) && a.locks !! b.locks
    ensures t in a.writes.ticketTypes ==> t !in b.writes.ticketTypes
  {
  }

  lemma SharedItem(db: Store, a: Tx, b: Tx, i: Id)
    requires Covered(db, a) && Covered(db, b) && a.locks !! b.locks
    requires InFlight(db, a.writes)
    ensures i in a.writes.items ==> i !in b.writes.items
  {
  }

  // No two transactions have uncommitted writes to the same row of any table, so no update is lost.
  lemma NoLostUpdates(s: Sys, a: Id, b: Id)
    requires SysInv(s) && a in s.txs && b in s.txs && a != b
    ensures var v, w := s.txs[a].writes, s.txs[b].writes;
            && v.ticketTypes.Keys !! w.ticketTypes.Keys && v.reservations.Keys !! w.reservations.Keys
            && v.items.Keys !! w.items.Keys && v.seatRows.Keys !! w.seatRows.Keys
  {
    assert Apart(s.txs[a], s.txs[b]);
    TxCovered(s.db, s.ttl, s.txs[a]);
    TxCovered(s.db, s.ttl, s.txs[b]);
    hide SysInv, Covered, InFlight;
    forall t | t in s.txs[a].writes.ticketTypes ensures t !in s.txs[b].writes.ticketTypes {
      SharedType(s.db, s.txs[a], s.txs[b], t);
    }
    forall i | i in s.txs[a].writes.items ensures i !in s.txs[b].writes.items {
      SharedItem(s.db, s.txs[a], s.txs[b], i);
    }
  }

  // ----- answers -----

  lemma OverUnmade(db: Store, clock: int, ttl: int, tx: Tx, taken: set<Lock>, uid: Id)
    requires Inv(db) && TxInv(db, ttl, tx) && !tx.pc.Done?
    requires Advance(db, clock, ttl, tx, taken, uid).Over?
    ensures var out := Advance(db, clock, ttl, tx, taken, uid).outcome;
            !out.Made? && out != Failed(InventoryConflict) && out != Failed(MultipleRows)
            && (out.Count? ==> out.processed == 0 && tx.pc.BScan? && tx.pc.got == [])
  {
    hide Linked, Shaped, UniqueKeys, Exclusive, Balanced, Rooted, RowsInv, QuantityInv, SeatsInv, OwnedInv, BatchInv,
         QuantityLookup, SeatsLookup, KeyUsed, FoundSeats, Sorted, StaleHolders, SettledRows, SettledParents, Occupied,
         DetailOf, Owns, AdvanceRows, HasStock, StaleColumn;
    if tx.pc.Rows? {
      RowsStep(db, ttl, tx, uid);
    } else if tx.request.QuantityRequest? {
      QuantityLookupExact(db, tx.request.caller.session, tx.request.key);
    }
  }

  lemma CommitAnswers(db: Store, clock: int, ttl: int, tx: Tx, taken: set<Lock>, uid: Id)
    requires TxInv(db, ttl, tx) && !tx.pc.Done?
    requires Advance(db, clock, ttl, tx, taken, uid).Committed?
    ensures var out := Advance(db, clock, ttl, tx, taken, uid).outcome;
            && (out.Failed? && out.error != TransitionConflict ==>
                  out.error == NotFound && tx.pc.Rows? && tx.request.LifecycleRequest?)
            && (out.Count? ==> tx.pc.Rows? && out.processed == |tx.pc.rows|)
  {
    hide Covered, InFlight, Delta, Overlay, QuantityLookup, SeatsLookup, KeyUsed, FoundSeats, Sorted, StaleHolders,
         SettledRows, SettledParents, Occupied, DetailOf, Owns, HasStock, StaleColumn, ItemsOf, RowsReserved, QuantityInv,
         SeatsInv, OwnedInv, BatchInv, CanMove;
  }

  // The owned row is still there when the call that settled it answers.
  lemma OwnedStays(s: Sys, id: Id, uid: Id, w: Writes, outcome: Outcome)
    requires OwnCommit(s, id, uid, w, outcome) && TxInv(s.db, s.ttl, s.txs[id]) && Inv(s.db)
    requires s.txs[id].pc.Rows? && s.txs[id].request.LifecycleRequest?
    ensures outcome != Failed(NotFound)
  {
    hide Inv, Covered, InFlight, Delta, Overlay, TransitionReserved, DetailOf, ParentLocks, ItemsOf;
    var tx := s.txs[id];
    LifecycleOutcome(s.db, tx.request.id, tx.request.caller, tx.request.target, tx.pc.now);
    hide Lifecycle;
  }

  // Reachable states never answer with an inventory conflict or an ambiguous key, and a batch counts
  // every row it locked.
  lemma AnswersAreClean(s: Sys, id: Id, uid: Id)
    requires SysInv(s) && Enabled(s, Run(id, uid)) && Do(s, Run(id, uid)).txs[id].pc.Done?
    ensures var out := Do(s, Run(id, uid)).txs[id].pc.outcome;
            && out != Failed(InventoryConflict) && out != Failed(MultipleRows)
            && (out.Count? ==> out.processed == match s.txs[id].pc
                                                case BScan(_, _, got) => |got|
                                                case Rows(rows, _, _, _, _, _, _, _) => |rows|
                                                case _ => 0)
  {
    hide Inv, TxInv, Advance, Wanted, Typed, Apart;
    var tx := s.txs[id];
    var next := Advance(s.db, s.clock, s.ttl, tx, Taken(s, id), uid);
    match next
    case Going(tx') => GoingOn(s.db, s.clock, s.ttl, tx, Taken(s, id), uid);
    case Over(_) => OverUnmade(s.db, s.clock, s.ttl, tx, Taken(s, id), uid);
    case Committed(_, _) => CommitAnswers(s.db, s.clock, s.ttl, tx, Taken(s, id), uid);
  }

  lemma GoingOn(db: Store, clock: int, ttl: int, tx: Tx, taken: set<Lock>, uid: Id)
    requires Typed(tx) && !tx.pc.Done? && Advance(db, clock, ttl, tx, taken, uid).Going?
    ensures !Advance(db, clock, ttl, tx, taken, uid).tx.pc.Done?
  {
    hide Overlay, QuantityLookup, SeatsLookup, KeyUsed, FoundSeats, Sorted, StaleHolders, SettledRows, SettledParents,
         Occupied, DetailOf, Owns, HasStock, StaleColumn, AdvanceRows;
  }

  // A request that ends in an error has changed nothing, unless it is the conflict that reports an
  // expired hold; and whatever way it ends, it keeps no lock and no pending write.
  lemma FailureLeavesNothing(s: Sys, a: Action)
    requires SysInv(s) && Enabled(s, a) && (a.Run? || a.Abort?) && Do(s, a).txs[a.id].pc.Done?
    ensures var d := Do(s, a); var out := d.txs[a.id].pc.outcome;
            && (out.Failed? && out.error != TransitionConflict ==> d.db == s.db)
            && d.txs[a.id].locks == {} && d.txs[a.id].writes == NO_WRITES
  {
    hide Inv, TxInv, Advance, Wanted, Typed, Apart, OwnCommit, Overlay;
    if a.Run? {
      var tx := s.txs[a.id];
      var next := Advance(s.db, s.clock, s.ttl, tx, Taken(s, a.id), a.uid);
      match next
      case Going(tx') => GoingOn(s.db, s.clock, s.ttl, tx, Taken(s, a.id), a.uid);
      case Over(_) =>
      case Committed(w, out) =>
        CommitAnswers(s.db, s.clock, s.ttl, tx, Taken(s, a.id), a.uid);
        if out == Failed(NotFound) {
          CommitIsOp(s, a.id, a.uid);
          OwnedStays(s, a.id, a.uid, w, out);
        }
    }
  }

  // A request whose key is already committed never makes a reservation, of either kind.
  lemma UsedKeyMakesNothing(s: Sys, id: Id, uid: Id)
    requires SysInv(s) && Enabled(s, Run(id, uid))
    requires s.txs[id].request.QuantityRequest? || s.txs[id].request.SeatsRequest?
    requires KeyUsed(s.db, s.txs[id].request.caller.session, s.txs[id].request.key)
    ensures !Advance(s.db, s.clock, s.ttl, s.txs[id], Taken(s, id), uid).Committed?
  {
    hide Inv, KeyUsed, Covered, InFlight, Overlay, QuantityLookup, SeatsLookup, FoundSeats, Sorted, StaleHolders,
         SettledRows, SettledParents, Occupied, HasStock, StaleOk, SlotFree, SeatsLocked, NewRows, Wanted, Apart, RowsInv,
         Taken, WaitsFor, IsNew;
    assert TxInv(s.db, s.ttl, s.txs[id]);
  }

  // A replayed reservation request answers with the one reservation committed under its key.
  lemma ReplayIsTheOriginal(s: Sys, id: Id, uid: Id, r: Id)
    requires SysInv(s) && Enabled(s, Run(id, uid)) && s.txs[id].request.QuantityRequest?
    requires Keyed(s.db, r, s.txs[id].request.caller.session, s.txs[id].request.key, Quantity)
    requires Advance(s.db, s.clock, s.ttl, s.txs[id], Taken(s, id), uid).Over?
    ensures exists i :: i in s.db.items && s.db.items[i].reservation == r
              && Advance(s.db, s.clock, s.ttl, s.txs[id], Taken(s, id), uid).outcome
                 == Replayed(QuantityResponse(r, s.db.reservations[r].status, s.db.reservations[r].expiresAt,
                                              s.db.items[i].ticketType, s.db.items[i].quantity))
  {
    hide SysInv, QuantityLookup, KeyUsed, HasStock, Linked, Shaped, UniqueKeys, Wanted, Taken, IsNew, WaitsFor, Advance,
         Inv;
    var q := s.txs[id].request;
    SysTyped(s, id);
    InvOf(s);
    InvParts(s.db);
    QuantityLookupFound(s.db, q.caller.session, q.key, r);
    QuantityOver(s.db, s.clock, s.ttl, s.txs[id], Taken(s, id), uid);
  }

  lemma QuantityOver(db: Store, clock: int, ttl: int, tx: Tx, taken: set<Lock>, uid: Id)
    requires Typed(tx) && !tx.pc.Done? && tx.request.QuantityRequest?
    requires Advance(db, clock, ttl, tx, taken, uid).Over?
    ensures Advance(db, clock, ttl, tx, taken, uid).outcome
         == QuantityReplay(db, tx.request.caller.session, tx.request.key)
  {
    hide QuantityLookup, QuantityReplay, KeyUsed, HasStock;
  }

  lemma SeatsOver(db: Store, clock: int, ttl: int, tx: Tx, taken: set<Lock>, uid: Id)
    requires Typed(tx) && !tx.pc.Done? && tx.request.SeatsRequest?
    requires Advance(db, clock, ttl, tx, taken, uid).Over?
    ensures var out := Advance(db, clock, ttl, tx, taken, uid).outcome;
            out == Failed(SeatsNotFound) || out == SeatsReplay(db, tx.request.caller.session, tx.request.key)
  {
    hide SeatsLookup, SeatsReplay, KeyUsed, FoundSeats, Sorted, StaleHolders, SettledRows, SettledParents, Occupied,
         Overlay, NewRows;
  }

  // The same for seats; a request past its first lookup may instead end because its seats are not all in the event.
  lemma SeatsReplayIsTheOriginal(s: Sys, id: Id, uid: Id, r: Id)
    requires SysInv(s) && Enabled(s, Run(id, uid)) && s.txs[id].request.SeatsRequest?
    requires Keyed(s.db, r, s.txs[id].request.caller.session, s.txs[id].request.key, Seats)
    requires Advance(s.db, s.clock, s.ttl, s.txs[id], Taken(s, id), uid).Over?
    ensures var out := Advance(s.db, s.clock, s.ttl, s.txs[id], Taken(s, id), uid).outcome;
            out == Failed(SeatsNotFound)
            || out == Replayed(SeatsResponse(r, s.db.reservations[r].status, s.db.reservations[r].expiresAt,
                                             Sorted(SeatsHeld(s.db, r))))
  {
    hide SysInv, SeatsLookup, KeyUsed, Linked, Shaped, UniqueKeys, Wanted, Taken, IsNew, WaitsFor, Advance, Inv, Sorted;
    var q := s.txs[id].request;
    SysTyped(s, id);
    InvOf(s);
    InvParts(s.db);
    SeatsLookupFound(s.db, q.caller.session, q.key, r);
    SeatsOver(s.db, s.clock, s.ttl, s.txs[id], Taken(s, id), uid);
  }

  // ----- holds are safe until their deadline -----

  // The request neither is a call of the owner of `row` on it nor expires ahead of its deadline.
  ghost predicate Harmless(request: Request, r: Id, row: Reservation) {
    && !(request.LifecycleRequest? && request.id == r && OwnedBy(row, request.caller))
    && (request.BatchRequest? && request.at.Some? ==> request.at.value < row.expiresAt)
  }

  ghost predicate SparedSys(s: Sys, r: Id, row: Reservation) {
    forall id :: id in s.txs ==> Harmless(s.txs[id].request, r, row)
  }

  lemma StepSpares(s: Sys, a: Action, r: Id, row: Reservation)
    requires SysInv(s) && Enabled(s, a) && SparedSys(s, r, row)
    requires a.Begin? ==> Harmless(a.request, r, row)
    ensures SparedSys(Do(s, a), r, row) && Do(s, a).clock >= s.clock
  {
    hide SysInv, Harmless, Advance, Wanted, Typed, ValidRequest, IsNew, Timely;
    if a.Run? {
      SysTyped(s, a.id);
      if Advance(s.db, s.clock, s.ttl, s.txs[a.id], Taken(s, a.id), a.uid).Going? {
        StaysTimely(s.db, s.clock, s.ttl, s.txs[a.id], Taken(s, a.id), a.uid);
      }
    }
  }

  lemma CommitSpares(s: Sys, a: Action, r: Id, row: Reservation)
    requires SysInv(s) && Enabled(s, a) && SparedSys(s, r, row) && s.clock < row.expiresAt
    requires CommitOp(s, a).Some?
    ensures Spares(row, r, CommitOp(s, a).value)
  {
    hide SysInv, Advance, Wanted, IsNew, OwnedBy, Timely, OpOf;
    SysTyped(s, a.id);
    assert Harmless(s.txs[a.id].request, r, row);
    ReadInTime(s.txs[a.id], s.clock, a.uid);
    OpAsksFor(s.txs[a.id], a.uid);
  }

  lemma OpAsksFor(tx: Tx, uid: Id)
    requires Typed(tx) && OpOf(tx, uid).Some?
    ensures var op := OpOf(tx, uid).value;
            op.LifecycleOp? ==> tx.request.LifecycleRequest? && op.id == tx.request.id && op.caller == tx.request.caller
  {
  }

  // Under any interleaving a reserved hold whose owner makes no call on it keeps its row while the
  // clock has not reached its deadline.
  lemma {:induction false} HoldSafeUnderConcurrency(s: Sys, actions: seq<Action>, r: Id)
    requires SysInv(s) && GoodTrace(s, actions)
    requires r in s.db.reservations && s.db.reservations[r].status.Reserved?
    requires SparedSys(s, r, s.db.reservations[r])
    requires forall a :: a in actions && a.Begin? ==> Harmless(a.request, r, s.db.reservations[r])
    requires Trace(s, actions).clock < s.db.reservations[r].expiresAt
    ensures r in Trace(s, actions).db.reservations
    ensures Trace(s, actions).db.reservations[r] == s.db.reservations[r]
    ensures SparedSys(Trace(s, actions), r, s.db.reservations[r])
    decreases |actions|
  {
    hide SysInv, SparedSys, Enabled, Do, CommitOp, Inv, Exec, GoodOp, Harmless, Spares;
    if actions != [] {
      var n := |actions| - 1;
      var rest := actions[..n];
      EveryInterleavingIsARun(s, rest);
      var mid, row := Trace(s, rest), s.db.reservations[r];
      assert actions[n] in actions;
      ClockGrows(mid, actions[n]);
      HoldSafeUnderConcurrency(s, rest, r);
      StepSpares(mid, actions[n], r, row);
      StepRefines(mid, actions[n]);
      InvOf(mid);
      if CommitOp(mid, actions[n]).Some? {
        CommitSpares(mid, actions[n], r, row);
        SparedHold(mid.db, mid.ttl, CommitOp(mid, actions[n]).value, r);
      }
    }
  }

  lemma ClockGrows(s: Sys, a: Action)
    requires Enabled(s, a)
    ensures Do(s, a).clock >= s.clock
  {
  }
}
