/** The expiration worker as a queue: how far one batch drains it and how long a stale hold can wait. */
module Draining {
  import opened Tables
  import opened Ordering
  import opened Spec
  import opened Invariant
  import opened Operations
  import opened Outcomes
  import opened Runs

  lemma {:induction false} MembersCount(ids: seq<Id>)
    requires Distinct(ids)
    ensures |SetOf(ids)| == |ids|
  {
    if ids != [] {
      var n := |ids| - 1;
      MembersCount(ids[..n]);
      assert SetOf(ids) == SetOf(ids[..n]) + {ids[n]};
      assert ids[n] !in ids[..n];
    }
  }

  lemma BatchRows(db: Store, size: nat, now: int, only: Option<set<Id>>)
    ensures var rows := StaleBatch(db, size, now, only);
            && Distinct(rows) && |rows| == (if size <= |StaleColumn(db, now, only)| then size else |StaleColumn(db, now, only)|)
            && (forall r :: r in rows ==> r in StaleColumn(db, now, only))
            && (forall r, q :: r in rows && q in StaleColumn(db, now, only) && q !in rows
                  ==> Before(StaleColumn(db, now, only), r, q))
  {
  }

  // ----- what a batch takes -----

  // The hold has run out at `now`.
  ghost predicate Due(row: Reservation, now: int) {
    row.status == Reserved && row.expiresAt < now
  }

  // A hold the batch may take: one that has run out, and one of those it is restricted to, if it is.
  ghost predicate Eligible(db: Store, r: Id, now: int, only: Option<set<Id>>) {
    r in db.reservations && Due(db.reservations[r], now) && (only.Some? ==> r in only.value)
  }

  ghost predicate DueBefore(db: Store, a: Id, b: Id) {
    && a in db.reservations && b in db.reservations
    && (db.reservations[a].expiresAt < db.reservations[b].expiresAt
        || (db.reservations[a].expiresAt == db.reservations[b].expiresAt && a < b))
  }

  // The first `size` eligible holds apart from `skipped`, by deadline and then id.
  ghost predicate FirstDue(db: Store, now: int, only: Option<set<Id>>, skipped: set<Id>, size: nat, rows: seq<Id>) {
    && |rows| <= size
    && (forall r :: r in rows ==> Eligible(db, r, now, only) && r !in skipped)
    && (forall m, n :: 0 <= m < n < |rows| ==> DueBefore(db, rows[m], rows[n]))
    && (forall k :: Eligible(db, k, now, only) && k !in rows && k !in skipped ==>
          |rows| == size && forall r :: r in rows ==> DueBefore(db, r, k))
  }

  ghost predicate InOrder(column: map<Id, int>, ids: seq<Id>) {
    && (forall i :: i in ids ==> i in column)
    && (forall m, n :: 0 <= m < n < |ids| ==> ids[m] != ids[n] && Before(column, ids[m], ids[n]))
  }

  lemma ColumnIsEligible(db: Store, now: int, only: Option<set<Id>>)
    ensures var column := StaleColumn(db, now, only);
            && (forall r :: r in column <==> Eligible(db, r, now, only))
            && (forall a, b :: a in column && b in column && a != b && Before(column, a, b) ==> DueBefore(db, a, b))
  {
  }

  // Taking from the front of what remains without `skipped`.
  lemma TakenFirst(db: Store, now: int, only: Option<set<Id>>, skipped: set<Id>, size: nat, ids: seq<Id>)
    requires InOrder(StaleColumn(db, now, only), ids)
    requires forall i :: i in ids <==> i in StaleColumn(db, now, only) && i !in skipped
    ensures FirstDue(db, now, only, skipped, size, Take(ids, size))
  {
    ColumnIsEligible(db, now, only);
    hide StaleColumn, Eligible, DueBefore, Before;
    var rows := Take(ids, size);
    assert forall m :: 0 <= m < |rows| ==> rows[m] == ids[m] && ids[m] in ids;
    forall k | Eligible(db, k, now, only) && k !in rows && k !in skipped
      ensures |rows| == size && forall r :: r in rows ==> DueBefore(db, r, k)
    {
      var n :| 0 <= n < |ids| && ids[n] == k;
      assert n >= |rows|;
      assert forall m :: 0 <= m < |rows| ==> DueBefore(db, rows[m], k);
    }
  }

  // With no competing locks a batch takes the first eligible holds.
  lemma BatchFirstDue(db: Store, size: nat, now: int, only: Option<set<Id>>)
    ensures FirstDue(db, now, only, {}, size, StaleBatch(db, size, now, only))
  {
    TakenFirst(db, now, only, {}, size, Ordered(StaleColumn(db, now, only)));
  }

  // It counts them, and expires them and no other reservation: none that still runs, none outside its restriction.
  lemma BatchExpiresExactly(db: Store, size: nat, now: int, only: Option<set<Id>>)
    requires Inv(db)
    ensures var rows := StaleBatch(db, size, now, only);
            && FirstDue(db, now, only, {}, size, rows)
            && (forall r :: r in rows ==> r in db.reservations)
            && var (d, count) := ExpireRows(db, rows);
            && count == |rows| && d.reservations.Keys == db.reservations.Keys
            && forall r :: r in db.reservations ==>
                 d.reservations[r] == if r in rows then db.reservations[r].(status := Expired) else db.reservations[r]
  {
    BatchFirstDue(db, size, now, only);
    BatchRows(db, size, now, only);
    hide Inv, StaleBatch, ExpireRows, StaleColumn;
    ExpireAll(db, StaleBatch(db, size, now, only));
  }

  ghost function AllDue(db: Store, now: int): set<Id> {
    set r | r in db.reservations && Due(db.reservations[r], now)
  }

  // A batch with no competing locks counts min(size, due) rows and takes exactly them off the queue.
  lemma BatchDrains(db: Store, size: nat, now: int)
    requires Inv(db)
    ensures var due := |AllDue(db, now)|;
            var rows := StaleBatch(db, size, now, None);
            (forall r :: r in rows ==> r in db.reservations) &&
            var (d, count) := ExpireRows(db, rows);
            && count == (if size <= due then size else due)
            && |AllDue(d, now)| == due - count
  {
    hide Inv;
    var column := StaleColumn(db, now, None);
    var rows := StaleBatch(db, size, now, None);
    BatchRows(db, size, now, None);
    hide StaleBatch;
    assert forall r :: r in rows ==> r in db.reservations && db.reservations[r].status.Reserved?;
    ExpireAll(db, rows);
    var d := ExpireRows(db, rows).0;
    hide ExpireRows;
    MembersCount(rows);
    assert AllDue(db, now) == column.Keys;
    assert AllDue(d, now) == column.Keys - SetOf(rows);
    assert SetOf(rows) <= column.Keys;
    assert |column.Keys| == |column|;
  }

  // The running holds that leave the queue no later than `r`, `r` included.
  ghost function Ahead(db: Store, r: Id): set<Id>
    requires r in db.reservations
  {
    set j | j in db.reservations && db.reservations[j].status.Reserved?
            && (db.reservations[j].expiresAt < db.reservations[r].expiresAt
                || (db.reservations[j].expiresAt == db.reservations[r].expiresAt && j <= r))
  }

  lemma BatchAdvances(db: Store, size: nat, now: int, r: Id)
    requires Inv(db) && r in db.reservations && Due(db.reservations[r], now)
    ensures var rows := StaleBatch(db, size, now, None);
            (forall q :: q in rows ==> q in db.reservations) &&
            var d := ExpireRows(db, rows).0;
            && r in d.reservations
            && (d.reservations[r].status.Reserved? ==> |Ahead(d, r)| + size <= |Ahead(db, r)|)
  {
    hide Inv, StaleBatch, ExpireRows, Ahead;
    var column := StaleColumn(db, now, None);
    var rows := StaleBatch(db, size, now, None);
    BatchRows(db, size, now, None);
    StaleIn(db, now, rows, r);
    ExpireAll(db, rows);
    var d := ExpireRows(db, rows).0;
    hide StaleColumn;
    if d.reservations[r].status.Reserved? {
      RowsAhead(db, now, rows, r);
      RestBehind(column, rows, size, r);
      AheadWithout(db, d, rows, r);
    }
  }

  lemma StaleIn(db: Store, now: int, rows: seq<Id>, r: Id)
    requires forall q :: q in rows ==> q in StaleColumn(db, now, None)
    requires r in db.reservations && Due(db.reservations[r], now)
    ensures forall q :: q in rows ==> q in db.reservations && db.reservations[q].status.Reserved?
    ensures r in StaleColumn(db, now, None)
  {
  }

  lemma RowsAhead(db: Store, now: int, rows: seq<Id>, r: Id)
    requires r in StaleColumn(db, now, None) && r !in rows
    requires forall q :: q in rows ==> q in StaleColumn(db, now, None) && Before(StaleColumn(db, now, None), q, r)
    ensures r in db.reservations && forall q :: q in rows ==> q in Ahead(db, r)
  {
  }

  lemma AheadWithout(db: Store, d: Store, rows: seq<Id>, r: Id)
    requires Distinct(rows) && r in db.reservations && r !in rows
    requires forall q :: q in rows ==> q in Ahead(db, r)
    requires d.reservations.Keys == db.reservations.Keys
    requires forall q :: q in db.reservations ==>
               d.reservations[q] == Turned(db.reservations[q], q in rows, Expired)
    ensures |Ahead(d, r)| + |rows| == |Ahead(db, r)|
  {
    MembersCount(rows);
    assert Ahead(d, r) == Ahead(db, r) - SetOf(rows);
    assert SetOf(rows) <= Ahead(db, r);
  }

  // Leaving someone behind means the batch is full.
  lemma RestBehind(column: map<Id, int>, rows: seq<Id>, size: nat, r: Id)
    requires Distinct(rows) && r in column && r !in rows
    requires forall q :: q in rows ==> q in column
    requires |rows| == (if size <= |column| then size else |column|)
    ensures |rows| == size
  {
    MembersCount(rows);
    if size > |column| {
      assert SetOf(rows) + {r} <= column.Keys;
      CardinalityLe(SetOf(rows) + {r}, column.Keys);
    }
  }

  lemma {:induction false} CardinalityLe(a: set<Id>, b: set<Id>)
    requires a <= b
    ensures |a| <= |b|
    decreases |a|
  {
    if a != {} {
      var x :| x in a;
      CardinalityLe(a - {x}, b - {x});
    }
  }

  // New holds start with the full lifetime.
  lemma NewHoldDeadline(db: Store, ttl: int, op: Op, j: Id)
    requires Inv(db) && GoodOp(db, op)
    requires j in Exec(db, ttl, op).0.reservations && j !in db.reservations
    ensures op.QuantityOp? || op.SeatsOp?
    ensures Exec(db, ttl, op).0.reservations[j].expiresAt == op.now + ttl
    ensures Exec(db, ttl, op).0.reservations[j].status.Reserved?
  {
    hide Linked, Shaped, UniqueKeys, Exclusive, Balanced, Rooted, ReserveSeats, Lifecycle, DetailOf, Shows, StaleLapsed,
         ExactlyHeld, QuantityLookup, KeyUsed, OwnedBy;
    match op
    case QuantityOp(_, _, _, _, _, _, _, _) =>
    case SeatsOp(caller, event, seats, key, rid, rowIds, now) =>
      if Exec(db, ttl, op).1.Made? {
        SeatsEffect(db, caller, event, seats, key, rid, rowIds, now, now + ttl);
      } else {
        SeatsUnmade(db, caller, event, seats, key, rid, rowIds, now, now + ttl);
      }
    case LifecycleOp(id, caller, target, now) =>
      if id in db.reservations && OwnedBy(db.reservations[id], caller) {
        LifecycleOutcome(db, id, caller, target, now);
      } else {
        LifecycleStranger(db, id, caller, target, now);
      }
    case ExpireOp(rows, _) => ExpireAll(db, rows);
  }

  // A hold made by `op` runs out after `deadline`; other operations make none.
  ghost predicate OutLasts(ttl: int, op: Op, deadline: int) {
    op.QuantityOp? || op.SeatsOp? ==> deadline < op.now + ttl
  }

  // Arrivals never get ahead of a hold that runs out before they do.
  lemma NobodyOvertakes(db: Store, ttl: int, op: Op, r: Id)
    requires Inv(db) && GoodOp(db, op)
    requires r in db.reservations && OutLasts(ttl, op, db.reservations[r].expiresAt)
    ensures var d := Exec(db, ttl, op).0; r in d.reservations && Ahead(d, r) <= Ahead(db, r)
  {
    hide Inv, Exec, Evolves;
    ExecEvolves(db, ttl, op);
    var d := Exec(db, ttl, op).0;
    RowKept(db, d, r);
    forall j | j in Ahead(d, r) ensures j in Ahead(db, r) {
      if j in db.reservations {
        RowKept(db, d, j);
        SettledKept(db, d, j);
      } else {
        NewHoldDeadline(db, ttl, op, j);
      }
    }
  }

  lemma SettledKept(db: Store, d: Store, r: Id)
    requires Evolves(db, d) && r in db.reservations
    ensures r in d.reservations
    ensures !db.reservations[r].status.Reserved? ==> d.reservations[r] == db.reservations[r]
  {
  }

  // `op` is a worker batch of `size` that met no competing lock.
  ghost predicate FullBatch(db: Store, size: nat, op: Op) {
    op.ExpireOp? && op.rows == StaleBatch(db, size, op.now, None)
  }

  // Such a batch run after `deadline`.
  ghost predicate LateBatch(db: Store, size: nat, op: Op, deadline: int) {
    FullBatch(db, size, op) && deadline < op.now
  }

  ghost function Batches(db: Store, ttl: int, size: nat, ops: seq<Op>, deadline: int): nat
    requires GoodRun(db, ttl, ops)
  {
    if ops == [] then 0
    else
      var n := |ops| - 1;
      Batches(db, ttl, size, ops[..n], deadline)
        + if LateBatch(After(db, ttl, ops[..n]), size, ops[n], deadline) then 1 else 0
  }

  lemma OneMoreBatch(db: Store, ttl: int, size: nat, ops: seq<Op>, op: Op, deadline: int)
    requires GoodRun(db, ttl, ops) && GoodRun(db, ttl, ops + [op])
    ensures Batches(db, ttl, size, ops + [op], deadline)
         == Batches(db, ttl, size, ops, deadline) + if LateBatch(After(db, ttl, ops), size, op, deadline) then 1 else 0
  {
    hide LateBatch, After, GoodRun;
    assert (ops + [op])[..|ops|] == ops;
  }

  lemma RankStep(db: Store, ttl: int, size: nat, op: Op, r: Id)
    requires Inv(db) && GoodOp(db, op)
    requires r in db.reservations && OutLasts(ttl, op, db.reservations[r].expiresAt)
    ensures var d := Exec(db, ttl, op).0;
            && r in d.reservations && d.reservations[r].expiresAt == db.reservations[r].expiresAt
            && (d.reservations[r].status.Reserved? ==>
                  && db.reservations[r].status.Reserved?
                  && |Ahead(d, r)| + (if LateBatch(db, size, op, db.reservations[r].expiresAt) then size else 0) <= |Ahead(db, r)|)
  {
    hide Inv, Evolves, Ahead, ReserveQuantity, ReserveSeats, Lifecycle, ExpireRows, StaleBatch;
    var d := Exec(db, ttl, op).0;
    ExecEvolves(db, ttl, op);
    RowKept(db, d, r);
    SettledKept(db, d, r);
    NobodyOvertakes(db, ttl, op, r);
    CardinalityLe(Ahead(d, r), Ahead(db, r));
    if db.reservations[r].status.Reserved? && LateBatch(db, size, op, db.reservations[r].expiresAt) {
      BatchAdvances(db, size, op.now, r);
    }
  }

  lemma {:induction false} RankFalls(db: Store, ttl: int, size: nat, ops: seq<Op>, r: Id)
    requires Inv(db) && GoodRun(db, ttl, ops)
    requires r in db.reservations && forall op :: op in ops ==> OutLasts(ttl, op, db.reservations[r].expiresAt)
    ensures var d := After(db, ttl, ops);
            && r in d.reservations && d.reservations[r].expiresAt == db.reservations[r].expiresAt
            && (d.reservations[r].status.Reserved? ==>
                  |Ahead(d, r)| + size * Batches(db, ttl, size, ops, db.reservations[r].expiresAt) <= |Ahead(db, r)|)
    decreases |ops|
  {
    hide Inv, Ahead, Exec, GoodOp, LateBatch, OutLasts;
    if ops != [] {
      var n := |ops| - 1;
      RankFalls(db, ttl, size, ops[..n], r);
      RunKeepsInv(db, ttl, ops[..n]);
      RankStep(After(db, ttl, ops[..n]), ttl, size, ops[n], r);
    }
  }

  // A hold of rank k is settled once the worker has run ceil(k / size) batches after its deadline, whatever
  // else is committed in between, requests that read the clock before the deadline included.
  lemma BoundedWait(db: Store, ttl: int, size: nat, ops: seq<Op>, r: Id)
    requires Inv(db) && GoodRun(db, ttl, ops)
    requires r in db.reservations && forall op :: op in ops ==> OutLasts(ttl, op, db.reservations[r].expiresAt)
    requires size * Batches(db, ttl, size, ops, db.reservations[r].expiresAt) >= |Ahead(db, r)|
    ensures r in After(db, ttl, ops).reservations && !After(db, ttl, ops).reservations[r].status.Reserved?
  {
    hide Inv, After, GoodRun, Batches;
    RankFalls(db, ttl, size, ops, r);
    assert var d := After(db, ttl, ops); d.reservations[r].status.Reserved? ==> r in Ahead(d, r);
  }
}
