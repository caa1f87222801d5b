/** Every interleaving of statements is a run of atomic operations, in commit order. */
module Refinement {
  import opened Tables
  import opened Ordering
  import opened Spec
  import opened Invariant
  import opened Operations
  import opened Runs
  import opened Concurrent
  import opened Isolation
  import opened RowWrites
  import opened Progress
  import opened Stability
  import opened Steps

  // Two transactions hold different locks and have touched different rows.
  ghost predicate Apart(a: Tx, b: Tx) {
    && a.locks !! b.locks
    && a.writes.reservations.Keys !! b.writes.reservations.Keys
    && a.writes.seatRows.Keys !! b.writes.seatRows.Keys
  }

  ghost predicate AllKnow(s: Sys) {
    forall id :: id in s.txs ==> TxInv(s.db, s.ttl, s.txs[id])
  }

  ghost predicate AllApart(s: Sys) {
    forall a, b :: a in s.txs && b in s.txs && a != b ==> Apart(s.txs[a], s.txs[b])
  }

  ghost predicate AllTimely(s: Sys) {
    forall id :: id in s.txs ==> Timely(s.clock, s.txs[id])
  }

  ghost predicate SysInv(s: Sys) {
    Inv(s.db) && AllKnow(s) && AllApart(s) && AllTimely(s)
  }

  // ----- a statement reads the clock as it stands, or keeps its reading -----

  lemma StaysTimely(db: Store, clock: int, ttl: int, tx: Tx, taken: set<Lock>, uid: Id)
    requires Typed(tx) && !tx.pc.Done? && Timely(clock, tx) && Advance(db, clock, ttl, tx, taken, uid).Going?
    ensures Timely(clock, Advance(db, clock, ttl, tx, taken, uid).tx)
    ensures Advance(db, clock, ttl, tx, taken, uid).tx.request == tx.request
    ensures Advance(db, clock, ttl, tx, taken, uid).tx.began == tx.began
  {
    hide Overlay, QuantityLookup, SeatsLookup, KeyUsed, FoundSeats, Sorted, StaleHolders, SettledRows, SettledParents,
         Occupied, DetailOf, Owns, HasStock, StaleColumn, AdvanceRows;
    if tx.pc.Rows? {
      RowsKeepNow(db, tx);
    }
  }

  lemma RowsKeepNow(db: Store, tx: Tx)
    requires Typed(tx) && tx.pc.Rows? && AdvanceRows(db, tx).Going?
    ensures PcNow(AdvanceRows(db, tx).tx.pc) == PcNow(tx.pc) && AdvanceRows(db, tx).tx.began == tx.began
  {
    hide Overlay, SettledRows, ItemsOf, RowsReserved, CanMove, Move;
  }

  lemma ReadInTime(tx: Tx, clock: int, uid: Id)
    requires Typed(tx) && Timely(clock, tx) && OpOf(tx, uid).Some?
    ensures InTime(tx, clock, OpOf(tx, uid).value.now)
  {
  }

  // ----- what a statement adds to the locks and the writes -----

  ghost predicate Gains(db: Store, tx: Tx, taken: set<Lock>, uid: Id, tx': Tx)
    requires Typed(tx)
  {
    && (forall l :: l in tx'.locks ==> l in tx.locks || Wanted(db, tx) == RowOf(l) || l !in taken)
    && (forall r :: r in tx'.writes.reservations ==> r in tx.writes.reservations || r in db.reservations || r == uid)
    && (forall i :: i in tx'.writes.seatRows ==> i in tx.writes.seatRows || i in db.seatRows || i == uid)
  }

  lemma QuantityGains(db: Store, clock: int, ttl: int, tx: Tx, taken: set<Lock>, uid: Id)
    requires Typed(tx) && tx.request.QuantityRequest? && !tx.pc.Done? && !tx.pc.Rows?
    requires AdvanceQuantity(db, clock, ttl, tx, uid).Going?
    ensures Gains(db, tx, taken, uid, AdvanceQuantity(db, clock, ttl, tx, uid).tx)
  {
  }

  lemma SeatsGains(db: Store, clock: int, ttl: int, tx: Tx, taken: set<Lock>, uid: Id)
    requires Typed(tx) && tx.request.SeatsRequest? && !tx.pc.Done? && !tx.pc.Rows?
    requires AdvanceSeats(db, clock, ttl, tx, uid).Going?
    ensures Gains(db, tx, taken, uid, AdvanceSeats(db, clock, ttl, tx, uid).tx)
  {
    hide KeyUsed, SeatsLookup, SeatsReplay, FoundSeats, Overlay, Sorted, StaleHolders, Occupied;
    if tx.pc.SExpireRows? {
      assert forall i :: i in SettledRows(db, SetOf(tx.pc.stale), Expired) ==> i in db.seatRows;
    } else if tx.pc.SExpireParents? {
      assert forall r :: r in SettledParents(db, SetOf(tx.pc.stale), Expired) ==> r in db.reservations;
    }
  }

  lemma ItemGains(db: Store, tx: Tx, taken: set<Lock>, uid: Id, settled: map<Id, Reservation>)
    requires Typed(tx) && tx.pc.Rows? && tx.pc.n < |tx.pc.rows| && tx.pc.todo != []
    requires tx.pc.saved == tx.writes && tx.pc.savedLocks == tx.locks
    requires forall r :: r in settled ==> r in tx.writes.reservations || r in db.reservations
    requires AdvanceItem(Overlay(db, tx.writes), tx, settled).Going?
    ensures Gains(db, tx, taken, uid, AdvanceItem(Overlay(db, tx.writes), tx, settled).tx)
  {
    hide Overlay, CanMove, Move;
  }

  lemma SeatRowsGain(db: Store, w: Writes, r: Id, target: Status)
    ensures forall i :: i in SettledRows(Overlay(db, w), {r}, target) ==> i in w.seatRows || i in db.seatRows
  {
  }

  lemma RowsGains(db: Store, tx: Tx, taken: set<Lock>, uid: Id)
    requires RowsInv(db, tx) && AdvanceRows(db, tx).Going?
    ensures Gains(db, tx, taken, uid, AdvanceRows(db, tx).tx)
  {
    hide Covered, InFlight, Delta, ItemsOf, RowsReserved, ParentLocks, Distinct, AllReserved, AllStale, Owns, RowsOutcome,
         Wanted, SettledRows, AdvanceItem, Overlay, RowsRequest;
    var pc := tx.pc;
    if pc.n < |pc.rows| {
      var view := Overlay(db, tx.writes);
      var r := pc.rows[pc.n];
      ViewKeys(db, tx.writes, r);
      if r in view.reservations && view.reservations[r].status.Reserved? {
        if pc.todo != [] {
          ItemGains(db, tx, taken, uid, tx.writes.reservations[r := view.reservations[r].(status := pc.target)]);
        } else {
          SeatRowsGain(db, tx.writes, r, pc.target);
        }
      }
    }
  }

  lemma ViewKeys(db: Store, w: Writes, r: Id)
    ensures r in Overlay(db, w).reservations ==> r in w.reservations || r in db.reservations
  {
  }

  lemma OthersGain(db: Store, clock: int, ttl: int, tx: Tx, taken: set<Lock>, uid: Id)
    requires Typed(tx) && (tx.pc.LLock? || tx.pc.LCheck? || tx.pc.BClock? || tx.pc.BSelect? || tx.pc.BScan?)
    requires Advance(db, clock, ttl, tx, taken, uid).Going?
    ensures Gains(db, tx, taken, uid, Advance(db, clock, ttl, tx, taken, uid).tx)
  {
    hide DetailOf, Owns, Overlay, StaleColumn;
  }

  lemma StepGains(db: Store, clock: int, ttl: int, tx: Tx, taken: set<Lock>, uid: Id)
    requires TxInv(db, ttl, tx) && !tx.pc.Done?
    requires Advance(db, clock, ttl, tx, taken, uid).Going?
    ensures Gains(db, tx, taken, uid, Advance(db, clock, ttl, tx, taken, uid).tx)
  {
    hide RowsInv, QuantityInv, SeatsInv, OwnedInv, BatchInv, Gains, AdvanceRows, AdvanceQuantity, AdvanceSeats;
    if tx.pc.Rows? {
      RowsGains(db, tx, taken, uid);
    } else {
      match tx.request
      case QuantityRequest(_, _, _, _, _) => QuantityGains(db, clock, ttl, tx, taken, uid);
      case SeatsRequest(_, _, _, _) => SeatsGains(db, clock, ttl, tx, taken, uid);
      case LifecycleRequest(_, _, _) => LifecyclePcs(db, ttl, tx); OthersGain(db, clock, ttl, tx, taken, uid);
      case BatchRequest(_, _, _) => LifecyclePcs(db, ttl, tx); OthersGain(db, clock, ttl, tx, taken, uid);
    }
  }

  lemma LifecyclePcs(db: Store, ttl: int, tx: Tx)
    requires Typed(tx) && !tx.pc.Done? && !tx.pc.Rows? && (tx.request.LifecycleRequest? || tx.request.BatchRequest?)
    ensures tx.request.LifecycleRequest? ==> tx.pc.LLock? || tx.pc.LCheck?
    ensures tx.request.BatchRequest? ==> tx.pc.BClock? || tx.pc.BSelect? || tx.pc.BScan?
  {
  }

  // A commit adds at most an item row to what was written before.
  lemma CommitAdds(db: Store, clock: int, ttl: int, tx: Tx, taken: set<Lock>, uid: Id)
    requires Typed(tx) && !tx.pc.Done? && Advance(db, clock, ttl, tx, taken, uid).Committed?
    ensures var w := Advance(db, clock, ttl, tx, taken, uid).writes;
            w.reservations == tx.writes.reservations && w.seatRows == tx.writes.seatRows
  {
    hide KeyUsed, SeatsLookup, SeatsReplay, QuantityLookup, QuantityReplay, FoundSeats, Overlay, Sorted, StaleHolders,
         Occupied, ItemsOf, RowsReserved, DetailOf, Owns, StaleColumn, RowsOutcome, CanMove;
  }

  // ----- transactions stay apart -----

  lemma StillApart(db: Store, tx: Tx, tx': Tx, other: Tx, taken: set<Lock>, uid: Id)
    requires Typed(tx) && Gains(db, tx, taken, uid, tx') && Apart(tx, other)
    requires Covered(db, tx') && Covered(db, other)
    requires other.locks <= taken && forall l :: Wanted(db, tx) == RowOf(l) ==> l !in other.locks
    requires uid !in other.writes.reservations && uid !in other.writes.seatRows
    ensures Apart(tx', other)
  {
  }

  lemma IdleApart(tx: Tx, other: Tx)
    requires Idle(tx)
    ensures Apart(tx, other) && Apart(other, tx)
  {
  }

  // ----- the three ways a step ends -----

  lemma GoingKeeps(s: Sys, id: Id, uid: Id)
    requires SysInv(s) && Enabled(s, Run(id, uid))
    requires Advance(s.db, s.clock, s.ttl, s.txs[id], Taken(s, id), uid).Going?
    ensures SysInv(Do(s, Run(id, uid)))
  {
    hide Inv, TxInv, Advance, Wanted, Gains, Covered, InFlight, Typed, Apart, Timely;
    var tx := s.txs[id];
    var tx' := Advance(s.db, s.clock, s.ttl, tx, Taken(s, id), uid).tx;
    RowIdFree(s, id, uid);
    AdvanceStep(s.db, s.clock, s.ttl, tx, Taken(s, id), uid);
    StepGains(s.db, s.clock, s.ttl, tx, Taken(s, id), uid);
    SysTyped(s, id);
    StaysTimely(s.db, s.clock, s.ttl, tx, Taken(s, id), uid);
    TxCovered(s.db, s.ttl, tx');
    forall u | u in s.txs && u != id ensures Apart(tx', s.txs[u]) && Apart(s.txs[u], tx') {
      TxCovered(s.db, s.ttl, s.txs[u]);
      NotWaiting(s, id, uid, u);
      StillApart(s.db, tx, tx', s.txs[u], Taken(s, id), uid);
      ApartBoth(tx', s.txs[u]);
    }
  }

  lemma ApartBoth(a: Tx, b: Tx)
    requires Apart(a, b)
    ensures Apart(b, a)
  {
  }

  lemma RowIdFree(s: Sys, id: Id, uid: Id)
    requires Enabled(s, Run(id, uid))
    ensures IsFresh(s.db, uid) && uid !in s.txs[id].writes.seatRows
  {
  }

  lemma NotWaiting(s: Sys, id: Id, uid: Id, u: Id)
    requires Enabled(s, Run(id, uid)) && u in s.txs && u != id
    ensures s.txs[u].locks <= Taken(s, id)
    ensures forall l :: Wanted(s.db, s.txs[id]) == RowOf(l) ==> l !in s.txs[u].locks
    ensures uid !in s.txs[u].writes.reservations && uid !in s.txs[u].writes.seatRows
  {
    assert !WaitsFor(s, id, u);
  }

  lemma OverKeeps(s: Sys, id: Id, outcome: Outcome)
    requires SysInv(s) && id in s.txs
    ensures SysInv(s.(txs := s.txs[id := Ended(s.txs[id], outcome)]))
  {
    hide Inv, Apart, Covered;
    var ended := Ended(s.txs[id], outcome);
    EndedKnows(s.db, s.ttl, s.txs[id], outcome);
    hide TxInv;
    forall u | u in s.txs && u != id ensures Apart(ended, s.txs[u]) && Apart(s.txs[u], ended) {
      IdleApart(ended, s.txs[u]);
    }
  }

  lemma EndedKnows(db: Store, ttl: int, tx: Tx, outcome: Outcome)
    requires Typed(tx) && ValidRequest(tx.request)
    ensures TxInv(db, ttl, Ended(tx, outcome)) && Idle(Ended(tx, outcome))
  {
  }

  lemma EndedTimely(clock: int, tx: Tx, outcome: Outcome)
    requires Timely(clock, tx)
    ensures Timely(clock, Ended(tx, outcome))
  {
  }

  lemma OtherSurvives(db: Store, ttl: int, tx: Tx, w: Writes, other: Tx)
    requires TxInv(db, ttl, other) && Apart(tx, other)
    requires Covered(db, tx.(writes := w))
    requires w.reservations == tx.writes.reservations && w.seatRows == tx.writes.seatRows
    ensures TxInv(Overlay(db, w), ttl, other)
  {
    hide TxInv, Covered, Quiet;
    TxCovered(db, ttl, other);
    CommitIsQuiet(db, tx.(writes := w), other.locks);
    TxStable(db, Overlay(db, w), ttl, other);
  }

  ghost predicate OwnCommit(s: Sys, id: Id, uid: Id, w: Writes, outcome: Outcome) {
    && id in s.txs && Typed(s.txs[id]) && ValidRequest(s.txs[id].request) && Covered(s.db, s.txs[id].(writes := w))
    && w.reservations == s.txs[id].writes.reservations && w.seatRows == s.txs[id].writes.seatRows
    && var op := OpOf(s.txs[id], uid);
    && op.Some? && GoodOp(s.db, op.value) && Exec(s.db, s.ttl, op.value) == (Overlay(s.db, w), outcome)
    && Inv(Overlay(s.db, w))
  }

  lemma CommitIsOp(s: Sys, id: Id, uid: Id)
    requires SysInv(s) && Enabled(s, Run(id, uid))
    requires Advance(s.db, s.clock, s.ttl, s.txs[id], Taken(s, id), uid).Committed?
    ensures var next := Advance(s.db, s.clock, s.ttl, s.txs[id], Taken(s, id), uid);
            OwnCommit(s, id, uid, next.writes, next.outcome)
  {
    hide Inv, Advance, Covered, InFlight, Apart, Exec, GoodOp, Wanted, AllApart, OpOf, Overlay;
    var tx := s.txs[id];
    RowIdFree(s, id, uid);
    AdvanceStep(s.db, s.clock, s.ttl, tx, Taken(s, id), uid);
    CommitAdds(s.db, s.clock, s.ttl, tx, Taken(s, id), uid);
    ExecKeepsInv(s.db, s.ttl, OpOf(tx, uid).value);
  }

  lemma OwnCommitKeeps(s: Sys, id: Id, uid: Id, w: Writes, outcome: Outcome)
    requires SysInv(s) && OwnCommit(s, id, uid, w, outcome)
    ensures SysInv(s.(db := Overlay(s.db, w), txs := s.txs[id := Ended(s.txs[id], outcome)]))
  {
    hide Inv, Covered, Apart, Exec, GoodOp, Wanted, OpOf, Overlay, TxInv, Idle, Ended, Typed, ValidRequest, Timely;
    var tx := s.txs[id];
    var ended := Ended(tx, outcome);
    forall u | u in s.txs && u != id
      ensures TxInv(Overlay(s.db, w), s.ttl, s.txs[u]) && Apart(ended, s.txs[u]) && Apart(s.txs[u], ended)
    {
      OtherSurvives(s.db, s.ttl, tx, w, s.txs[u]);
      EndedKnows(Overlay(s.db, w), s.ttl, tx, outcome);
      IdleApart(ended, s.txs[u]);
    }
    EndedKnows(Overlay(s.db, w), s.ttl, tx, outcome);
    EndedTimely(s.clock, tx, outcome);
  }

  // ----- one step of the system -----

  // A step either leaves the committed store alone or is exactly one atomic operation, answered as that operation answers.
  ghost predicate Refines(s: Sys, a: Action, d: Sys)
    requires Enabled(s, a)
  {
    && d.ttl == s.ttl
    && match CommitOp(s, a)
       case None => d.db == s.db
       case Some(op) =>
         && GoodOp(s.db, op) && d.db == Exec(s.db, s.ttl, op).0
         && a.Run? && a.id in d.txs && d.txs[a.id].pc == Done(Exec(s.db, s.ttl, op).1)
         && InTime(s.txs[a.id], s.clock, op.now)
  }

  lemma RunRefines(s: Sys, id: Id, uid: Id)
    requires SysInv(s) && Enabled(s, Run(id, uid))
    ensures SysInv(Do(s, Run(id, uid))) && Refines(s, Run(id, uid), Do(s, Run(id, uid)))
  {
    hide SysInv, Advance, OpOf, Wanted, Exec, GoodOp, Covered, Overlay, Inv, IsNew, Timely, InTime;
    var tx := s.txs[id];
    var next := Advance(s.db, s.clock, s.ttl, tx, Taken(s, id), uid);
    SysTyped(s, id);
    match next
    case Going(_) => GoingKeeps(s, id, uid);
    case Committed(w, outcome) =>
      CommitIsOp(s, id, uid);
      OwnCommitKeeps(s, id, uid, w, outcome);
      ReadInTime(tx, s.clock, uid);
    case Over(outcome) => OverKeeps(s, id, outcome);
  }

  lemma InvOf(s: Sys)
    requires SysInv(s)
    ensures Inv(s.db)
  {
  }

  lemma SysTyped(s: Sys, id: Id)
    requires SysInv(s) && id in s.txs
    ensures Typed(s.txs[id]) && ValidRequest(s.txs[id].request) && Timely(s.clock, s.txs[id])
  {
  }

  lemma BeginKeeps(s: Sys, id: Id, request: Request)
    requires SysInv(s) && Enabled(s, Begin(id, request))
    ensures SysInv(Do(s, Begin(id, request)))
  {
    hide Inv, Apart;
    var tx := Tx(request, FirstPc(request), NO_WRITES, {}, s.clock);
    BeginKnows(s.db, s.ttl, request, s.clock);
    hide TxInv;
    forall u | u in s.txs ensures Apart(tx, s.txs[u]) && Apart(s.txs[u], tx) {
      IdleApart(tx, s.txs[u]);
    }
  }

  lemma BeginKnows(db: Store, ttl: int, request: Request, clock: int)
    requires ValidRequest(request)
    ensures TxInv(db, ttl, Tx(request, FirstPc(request), NO_WRITES, {}, clock))
  {
  }

  lemma StepRefines(s: Sys, a: Action)
    requires SysInv(s) && Enabled(s, a)
    ensures SysInv(Do(s, a)) && Refines(s, a, Do(s, a))
  {
    match a
    case Begin(id, request) => BeginKeeps(s, id, request);
    case Run(id, uid) => RunRefines(s, id, uid);
    case Abort(id) => OverKeeps(s, id, Failed(Aborted));
    case Tick(_) => TickKeeps(s, a);
  }

  lemma TickKeeps(s: Sys, a: Action)
    requires SysInv(s) && a.Tick?
    ensures SysInv(Do(s, a))
  {
    hide Inv, TxInv, Apart;
  }

  // ----- whole traces -----

  ghost predicate GoodTrace(s: Sys, actions: seq<Action>)
    decreases |actions|, 0
  {
    actions == [] ||
    (GoodTrace(s, actions[..|actions| - 1]) && Enabled(Trace(s, actions[..|actions| - 1]), actions[|actions| - 1]))
  }

  ghost function Trace(s: Sys, actions: seq<Action>): Sys
    requires GoodTrace(s, actions)
    decreases |actions|, 1
  {
    if actions == [] then s
    else Do(Trace(s, actions[..|actions| - 1]), actions[|actions| - 1])
  }

  // The operations committed along a trace, in commit order.
  ghost function Linear(s: Sys, actions: seq<Action>): seq<Op>
    requires GoodTrace(s, actions)
    decreases |actions|
  {
    if actions == [] then []
    else
      var rest := actions[..|actions| - 1];
      match CommitOp(Trace(s, rest), actions[|actions| - 1])
      case None => Linear(s, rest)
      case Some(op) => Linear(s, rest) + [op]
  }

  // Every interleaving of any number of requests and batches leaves the store that the atomic
  // operations leave when run one after the other in commit order.
  lemma {:induction false} EveryInterleavingIsARun(s: Sys, actions: seq<Action>)
    requires SysInv(s) && GoodTrace(s, actions)
    ensures SysInv(Trace(s, actions)) && Trace(s, actions).ttl == s.ttl
    ensures GoodRun(s.db, s.ttl, Linear(s, actions))
    ensures Trace(s, actions).db == After(s.db, s.ttl, Linear(s, actions))
    decreases |actions|
  {
    hide SysInv, Enabled, Do, CommitOp, Exec, GoodOp;
    if actions != [] {
      var rest, a := actions[..|actions| - 1], actions[|actions| - 1];
      EveryInterleavingIsARun(s, rest);
      StepRefines(Trace(s, rest), a);
      if CommitOp(Trace(s, rest), a).Some? {
        ExtendRun(s.db, s.ttl, Linear(s, rest), CommitOp(Trace(s, rest), a).value);
      }
    }
  }

  // The system as it starts: freshly created events, ticket types and seats, and no request yet.
  lemma StartInv(s: Sys)
    requires Fresh(s.db) && s.txs == map[]
    ensures SysInv(s)
  {
    FreshInv(s.db);
  }

  // Rows keep their identity, settled reservations their status, and sales only grow, under any interleaving.
  lemma TraceEvolves(s: Sys, actions: seq<Action>)
    requires SysInv(s) && GoodTrace(s, actions)
    ensures Evolves(s.db, Trace(s, actions).db)
  {
    hide Evolves, Trace, Linear, GoodTrace, GoodRun, AllKnow, AllApart, Inv;
    EveryInterleavingIsARun(s, actions);
    var ops := Linear(s, actions);
    RunEvolves(s.db, s.ttl, ops, 0);
    AfterNothing(s.db, s.ttl, ops);
  }

  lemma AfterNothing(db: Store, ttl: int, ops: seq<Op>)
    requires GoodRun(db, ttl, ops[..0])
    ensures After(db, ttl, ops[..0]) == db
  {
  }
}
