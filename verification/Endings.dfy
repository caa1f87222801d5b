/** Every request comes to an end: each of its statements brings it nearer, whatever others commit. */
module Endings {
  import opened Tables
  import opened Ordering
  import opened Spec
  import opened Invariant
  import opened Runs
  import opened Concurrent
  import opened Progress
  import opened Refinement
  import opened Refusals
  import opened Deadlock

  function Gap(a: int, b: int): nat {
    if a > b then a - b else 0
  }

  // The statements still ahead: the part of the request, the rounds left in it and the items left in the round.
  function Remaining(db: Store, tx: Tx): (nat, nat, nat)
    requires Typed(tx)
  {
    match tx.pc
    case QLookup => (6, 0, 0)
    case QStock => (5, 0, 0)
    case QClock => (4, 0, 0)
    case QInsert(_) => (3, 0, 0)
    case QItem(_, _) => (2, 0, 0)
    case QReplay => (1, 0, 0)
    case SLookup => (10, 0, 0)
    case SLock(n) => (9, Gap(|FoundSeats(db, tx.request.event, tx.request.seats)|, n), 0)
    case SClock => (8, 0, 0)
    case SRead(_) => (7, 0, 0)
    case SParents(_, stale, n) => (6, Gap(|stale|, n), 0)
    case SExpireRows(_, _) => (5, 0, 0)
    case SExpireParents(_, _) => (4, 0, 0)
    case SInsert(_, _) => (3, 0, 0)
    case SSeats(_, _, _, ids) => (2, Gap(|tx.request.seats|, |ids|), 0)
    case SReplay => (1, 0, 0)
    case LLock => (4, 0, 0)
    case LCheck => (3, 0, 0)
    case BClock => (4, 0, 0)
    case BSelect(_) => (3, 0, 0)
    case BScan(_, candidates, _) => (2, |candidates|, 0)
    case Rows(rows, _, _, n, todo, _, _, _) => (1, Gap(|rows|, n) * 2 + (if todo == [] then 1 else 0), |todo|)
    case Done(_) => (0, 0, 0)
  }

  predicate Nearer(a: (nat, nat, nat), b: (nat, nat, nat)) {
    a.0 < b.0 || (a.0 == b.0 && (a.1 < b.1 || (a.1 == b.1 && a.2 < b.2)))
  }

  predicate Closer(db: Store, tx': Tx, tx: Tx)
    requires Typed(tx)
  {
    Typed(tx') && Nearer(Remaining(db, tx'), Remaining(db, tx))
  }

  lemma RowsNearer(db: Store, tx: Tx)
    requires Typed(tx) && tx.pc.Rows? && AdvanceRows(db, tx).Going?
    ensures Closer(db, AdvanceRows(db, tx).tx, tx)
  {
    hide Overlay, SettledRows, ItemsOf, RowsReserved, CanMove, Move, FoundSeats;
  }

  lemma QuantityNearer(db: Store, clock: int, ttl: int, tx: Tx, uid: Id)
    requires Typed(tx) && tx.request.QuantityRequest? && !tx.pc.Done? && AdvanceQuantity(db, clock, ttl, tx, uid).Going?
    ensures Closer(db, AdvanceQuantity(db, clock, ttl, tx, uid).tx, tx)
  {
    hide QuantityLookup, KeyUsed, HasStock;
  }

  lemma SeatsNearer(db: Store, clock: int, ttl: int, tx: Tx, uid: Id)
    requires Typed(tx) && tx.request.SeatsRequest? && !tx.pc.Done? && AdvanceSeats(db, clock, ttl, tx, uid).Going?
    ensures Closer(db, AdvanceSeats(db, clock, ttl, tx, uid).tx, tx)
  {
    hide SeatsLookup, KeyUsed, FoundSeats, Sorted, StaleHolders, SettledRows, SettledParents, Occupied, Overlay;
    SortedCount(tx.request.seats);
  }

  lemma OwnedNearer(db: Store, clock: int, tx: Tx)
    requires Typed(tx) && (tx.pc.LLock? || tx.pc.LCheck?) && AdvanceOwned(db, clock, tx).Going?
    ensures Closer(db, AdvanceOwned(db, clock, tx).tx, tx)
  {
    hide Owns, DetailOf, FoundSeats;
  }

  lemma BatchNearer(db: Store, clock: int, tx: Tx, taken: set<Lock>)
    requires Typed(tx) && (tx.pc.BClock? || tx.pc.BSelect? || tx.pc.BScan?) && AdvanceBatch(db, clock, tx, taken).Going?
    ensures Closer(db, AdvanceBatch(db, clock, tx, taken).tx, tx)
  {
    hide StaleColumn, StaleReservation, FoundSeats, Ordered;
  }

  // Every statement brings the request nearer to its end: no request loops.
  lemma StatementsRunOut(db: Store, clock: int, ttl: int, tx: Tx, taken: set<Lock>, uid: Id)
    requires Typed(tx) && !tx.pc.Done? && Advance(db, clock, ttl, tx, taken, uid).Going?
    ensures Closer(db, Advance(db, clock, ttl, tx, taken, uid).tx, tx)
  {
    hide Closer, AdvanceRows, AdvanceQuantity, AdvanceSeats, AdvanceOwned, AdvanceBatch;
    if tx.pc.Rows? {
      RowsNearer(db, tx);
    } else if tx.request.QuantityRequest? {
      QuantityNearer(db, clock, ttl, tx, uid);
    } else if tx.request.SeatsRequest? {
      SeatsNearer(db, clock, ttl, tx, uid);
    } else {
      LifecyclePcs(db, ttl, tx);
      if tx.request.LifecycleRequest? { OwnedNearer(db, clock, tx); } else { BatchNearer(db, clock, tx, taken); }
    }
  }

  // What others commit takes it no further from it.
  lemma StaysNear(db: Store, d: Store, tx: Tx)
    requires Typed(tx) && Evolves(db, d)
    ensures Remaining(d, tx) == Remaining(db, tx)
  {
    hide FoundSeats, Evolves;
    if tx.pc.SLock? {
      SameFound(db, d, tx.request.event, tx.request.seats);
    }
  }

  // ----- to the end -----

  ghost predicate LeftAlone(s: Sys, id: Id) {
    id in s.txs && forall u :: u in s.txs && u != id ==> s.txs[u].pc.Done?
  }

  lemma NothingHeld(s: Sys, id: Id, uid: Id)
    requires SysInv(s) && AllTyped(s) && LeftAlone(s, id) && !s.txs[id].pc.Done? && IsNew(s, uid)
    ensures Enabled(s, Run(id, uid))
  {
    hide Inv, AllApart, AllTimely, Wanted, RowsInv, QuantityInv, SeatsInv, OwnedInv, BatchInv, IsNew;
    forall u ensures !WaitsFor(s, id, u) {
      if u in s.txs && u != id {
        assert TxInv(s.db, s.ttl, s.txs[u]);
      }
    }
  }

  lemma AllAreTyped(s: Sys)
    requires SysInv(s)
    ensures AllTyped(s)
  {
    hide Inv, RowsInv, QuantityInv, SeatsInv, OwnedInv, BatchInv;
  }

  // The next statement of a request with nobody beside it.
  lemma OneMore(s: Sys, id: Id) returns (a: Action)
    requires SysInv(s) && LeftAlone(s, id) && !s.txs[id].pc.Done?
    ensures a.Run? && a.id == id && Enabled(s, a) && SysInv(Do(s, a)) && LeftAlone(Do(s, a), id)
    ensures AllTyped(s) && AllTyped(Do(s, a))
    ensures !Do(s, a).txs[id].pc.Done? ==> Nearer(Remaining(Do(s, a).db, Do(s, a).txs[id]), Remaining(s.db, s.txs[id]))
  {
    hide SysInv, Advance, Wanted, IsNew, Remaining, Nearer, Typed, WaitsFor;
    AllAreTyped(s);
    var uid := SomeIdIsNew(s);
    NothingHeld(s, id, uid);
    a := Run(id, uid);
    StepRefines(s, a);
    AllAreTyped(Do(s, a));
    if Advance(s.db, s.clock, s.ttl, s.txs[id], Taken(s, id), uid).Going? {
      StatementsRunOut(s.db, s.clock, s.ttl, s.txs[id], Taken(s, id), uid);
    }
  }

  lemma Prefixed(s: Sys, a: Action, actions: seq<Action>)
    requires Enabled(s, a) && GoodTrace(Do(s, a), actions)
    ensures GoodTrace(s, [a] + actions) && Trace(s, [a] + actions) == Trace(Do(s, a), actions)
    decreases |actions|
  {
    hide Enabled, Do;
    if actions == [] {
      assert [a] + actions == [a];
      assert [a][..0] == [];
    } else {
      var n := |actions| - 1;
      Prefixed(s, a, actions[..n]);
      assert ([a] + actions)[..|[a] + actions| - 1] == [a] + actions[..n];
      assert ([a] + actions)[|[a] + actions| - 1] == actions[n];
    }
  }

  // From any state the system gets into, a request that is left alone runs to its end by its own statements.
  lemma {:induction false} RunsToItsEnd(s: Sys, id: Id) returns (actions: seq<Action>)
    requires SysInv(s) && AllTyped(s) && LeftAlone(s, id)
    ensures GoodTrace(s, actions) && (forall a :: a in actions ==> a.Run? && a.id == id)
    ensures id in Trace(s, actions).txs && Trace(s, actions).txs[id].pc.Done?
    decreases Remaining(s.db, s.txs[id]).0, Remaining(s.db, s.txs[id]).1, Remaining(s.db, s.txs[id]).2
  {
    hide SysInv, Enabled, Do, Remaining, Typed;
    if s.txs[id].pc.Done? {
      actions := [];
    } else {
      var a := OneMore(s, id);
      var d := Do(s, a);
      if d.txs[id].pc.Done? {
        assert [a][..0] == [];
        actions := [a];
      } else {
        var rest := RunsToItsEnd(d, id);
        Prefixed(s, a, rest);
        actions := [a] + rest;
      }
    }
  }
}
