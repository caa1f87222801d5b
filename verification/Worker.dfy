/** The expiration worker: one batch per tick, each in its own transaction; a batch that raises is
    rolled back and the loop goes on. */
module Worker {
  import opened Tables
  import opened Spec
  import opened Invariant
  import opened Operations
  import opened Runs
  import opened Draining
  import opened Services

  // What one turn of the endless loop meets: a batch at the clock reading `now`, or an exception.
  datatype Tick = Batch(now: int) | Failure

  function OneBatch(db: Store, size: nat, now: int): (Store, nat) {
    PickedExist(db, size, now, None);
    ExpireRows(db, StaleBatch(db, size, now, None))
  }

  function AfterTicks(db: Store, size: nat, ticks: seq<Tick>): Store {
    if ticks == [] then db
    else
      var n := |ticks| - 1;
      var d := AfterTicks(db, size, ticks[..n]);
      match ticks[n]
      case Batch(now) => OneBatch(d, size, now).0
      case Failure => d
  }

  class ExpirationWorker {
    const service: ReservationLifecycleService
    const size: nat

    constructor (service: ReservationLifecycleService, size: nat)
      ensures this.service == service && this.size == size
    {
      this.service, this.size := service, size;
    }

    // The turns of the loop up to any point of its life.
    method RunExpirationWorker(ticks: seq<Tick>) returns (counts: seq<nat>)
      requires service.session.View() == service.session.committed
      modifies service.session
      ensures service.session.View() == service.session.committed == AfterTicks(old(service.session.View()), size, ticks)
      ensures |counts| == |ticks|
      ensures forall k :: 0 <= k < |ticks| ==>
                counts[k] == match ticks[k]
                             case Batch(now) => OneBatch(AfterTicks(old(service.session.View()), size, ticks[..k]), size, now).1
                             case Failure => 0
    {
      hide StaleBatch, ExpireRows;
      ghost var start := service.session.View();
      counts := [];
      var n := 0;
      while n < |ticks|
        invariant 0 <= n <= |ticks| && |counts| == n
        invariant service.session.View() == service.session.committed == AfterTicks(start, size, ticks[..n])
        invariant forall k :: 0 <= k < n ==>
                    counts[k] == match ticks[k]
                                 case Batch(now) => OneBatch(AfterTicks(start, size, ticks[..k]), size, now).1
                                 case Failure => 0
      {
        assert ticks[..n + 1][..n] == ticks[..n];
        var processed := 0;
        match ticks[n] {
          case Batch(now) => processed := service.ExpireBatch(size, now, None, None);
          case Failure => service.session.Rollback();
        }
        counts := counts + [processed];
        n := n + 1;
      }
      assert ticks[..n] == ticks;
    }
  }

  // ----- the worker as a run of operations -----

  function BatchTicks(ticks: seq<Tick>): nat {
    if ticks == [] then 0
    else BatchTicks(ticks[..|ticks| - 1]) + if ticks[|ticks| - 1].Batch? then 1 else 0
  }

  function WorkerOps(db: Store, size: nat, ticks: seq<Tick>): seq<Op> {
    if ticks == [] then []
    else
      var n := |ticks| - 1;
      var d := AfterTicks(db, size, ticks[..n]);
      match ticks[n]
      case Batch(now) => WorkerOps(db, size, ticks[..n]) + [ExpireOp(StaleBatch(d, size, now, None), now)]
      case Failure => WorkerOps(db, size, ticks[..n])
  }

  lemma {:induction false} WorkerIsARun(db: Store, ttl: int, size: nat, ticks: seq<Tick>, deadline: int)
    requires Inv(db)
    ensures GoodRun(db, ttl, WorkerOps(db, size, ticks))
    ensures After(db, ttl, WorkerOps(db, size, ticks)) == AfterTicks(db, size, ticks)
    ensures (forall now :: Batch(now) in ticks ==> deadline < now) ==>
              Batches(db, ttl, size, WorkerOps(db, size, ticks), deadline) == BatchTicks(ticks)
    ensures forall op :: op in WorkerOps(db, size, ticks) ==> op.ExpireOp?
    decreases |ticks|
  {
    hide Inv, StaleBatch, OneBatch, GoodRun, After, Batches;
    if ticks == [] {
      EmptyRun(db, ttl, size, deadline);
    } else {
      var n := |ticks| - 1;
      var init := ticks[..n];
      WorkerIsARun(db, ttl, size, init, deadline);
      assert ticks[n] in ticks && forall t :: t in init ==> t in ticks;
      if ticks[n].Batch? {
        OneBatchMore(db, ttl, size, WorkerOps(db, size, init), ticks[n].now, deadline);
      }
    }
  }

  lemma EmptyRun(db: Store, ttl: int, size: nat, deadline: int)
    ensures GoodRun(db, ttl, []) && After(db, ttl, []) == db && Batches(db, ttl, size, [], deadline) == 0
  {
  }

  lemma OneBatchMore(db: Store, ttl: int, size: nat, ops: seq<Op>, now: int, deadline: int)
    requires GoodRun(db, ttl, ops)
    ensures var d := After(db, ttl, ops);
            var longer := ops + [ExpireOp(StaleBatch(d, size, now, None), now)];
            && GoodRun(db, ttl, longer) && After(db, ttl, longer) == OneBatch(d, size, now).0
            && Batches(db, ttl, size, longer, deadline) == Batches(db, ttl, size, ops, deadline) + if deadline < now then 1 else 0
  {
    hide StaleBatch, ExpireRows, FullBatch, GoodOp, After, GoodRun, Batches;
    var d := After(db, ttl, ops);
    var op := ExpireOp(StaleBatch(d, size, now, None), now);
    BatchIsGood(d, size, now);
    PickedExist(d, size, now, None);
    ExtendRun(db, ttl, ops, op);
    OneMoreBatch(db, ttl, size, ops, op, deadline);
  }

  lemma BatchIsGood(db: Store, size: nat, now: int)
    ensures GoodOp(db, ExpireOp(StaleBatch(db, size, now, None), now))
    ensures FullBatch(db, size, ExpireOp(StaleBatch(db, size, now, None), now))
  {
    BatchRows(db, size, now, None);
  }

  // A hold that is overdue when the worker starts, with k - 1 overdue holds ahead of it, is settled
  // after ceil(k / size) batches, however many turns of the loop fail in between.
  lemma WorkerSettles(db: Store, size: nat, ticks: seq<Tick>, r: Id)
    requires Inv(db) && r in db.reservations
    requires forall now :: Batch(now) in ticks ==> db.reservations[r].expiresAt < now
    requires size * BatchTicks(ticks) >= |Ahead(db, r)|
    ensures r in AfterTicks(db, size, ticks).reservations
    ensures !AfterTicks(db, size, ticks).reservations[r].status.Reserved?
  {
    hide Inv, AfterTicks, WorkerOps, After, GoodRun, Batches, Ahead;
    WorkerIsARun(db, 0, size, ticks, db.reservations[r].expiresAt);
    BoundedWait(db, 0, size, WorkerOps(db, size, ticks), r);
  }
}
