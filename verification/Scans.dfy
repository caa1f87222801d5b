/** What a batch picks while others hold locks: the first stale rows it does not find locked. */
module Scans {
  import opened Tables
  import opened Ordering
  import opened Spec
  import opened Invariant
  import opened Operations
  import opened Runs
  import opened Draining
  import opened Concurrent
  import opened Isolation
  import opened RowWrites
  import opened Progress
  import opened Steps
  import opened Refinement
  import opened Refusals

  // ----- passing over rows -----

  function Left(ids: seq<Id>, skipped: set<Id>): seq<Id> {
    if ids == [] then []
    else (if ids[0] in skipped then [] else [ids[0]]) + Left(ids[1..], skipped)
  }

  lemma {:induction false} LeftNone(ids: seq<Id>, skipped: set<Id>)
    requires forall i :: i in ids ==> i !in skipped
    ensures Left(ids, skipped) == ids
  {
    if ids != [] {
      LeftNone(ids[1..], skipped);
    }
  }

  lemma {:induction false} LeftJoin(a: seq<Id>, b: seq<Id>, skipped: set<Id>)
    ensures Left(a + b, skipped) == Left(a, skipped) + Left(b, skipped)
  {
    if a == [] {
      assert a + b == b;
    } else {
      assert (a + b)[1..] == a[1..] + b;
      LeftJoin(a[1..], b, skipped);
    }
  }

  lemma {:induction false} LeftMembers(ids: seq<Id>, skipped: set<Id>)
    ensures forall i :: i in Left(ids, skipped) <==> i in ids && i !in skipped
  {
    if ids != [] {
      LeftMembers(ids[1..], skipped);
      assert forall i :: i in ids <==> i == ids[0] || i in ids[1..];
    }
  }

  lemma {:induction false} LeftElsewhere(ids: seq<Id>, skipped: set<Id>, next: Id)
    requires next !in ids
    ensures Left(ids, skipped + {next}) == Left(ids, skipped)
  {
    if ids != [] {
      LeftElsewhere(ids[1..], skipped, next);
    }
  }

  // ----- one scan -----

  // The next statement tries to lock row `k`, selected as stale at `now`.
  predicate AtRow(pc: Pc, k: Id, now: int) {
    pc.BScan? && pc.now == now && pc.candidates != [] && pc.candidates[0] == k
  }

  // Coming to row `k` in its scan, `id` has found it locked by somebody else or no longer stale at its instant.
  ghost predicate MetAt(s: Sys, actions: seq<Action>, n: nat, id: Id, k: Id, now: int) {
    && n <= |actions| && GoodTrace(s, actions[..n])
    && var m := Trace(s, actions[..n]);
    && id in m.txs && AtRow(m.txs[id].pc, k, now)
    && (ParentLock(k) in Taken(m, id) || k !in m.db.reservations || !Due(m.db.reservations[k], now))
  }

  ghost predicate Met(s: Sys, actions: seq<Action>, id: Id, k: Id, now: int) {
    exists n: nat :: MetAt(s, actions, n, id, k, now)
  }

  lemma MetNow(s: Sys, actions: seq<Action>, id: Id, k: Id, now: int)
    requires GoodTrace(s, actions) && id in Trace(s, actions).txs && AtRow(Trace(s, actions).txs[id].pc, k, now)
    requires var m := Trace(s, actions);
             ParentLock(k) in Taken(m, id) || k !in m.db.reservations || !Due(m.db.reservations[k], now)
    ensures Met(s, actions, id, k, now)
  {
    hide GoodTrace, Trace, Taken, Due;
    assert actions[..|actions|] == actions;
    assert MetAt(s, actions, |actions|, id, k, now);
  }

  lemma MetLonger(s: Sys, actions: seq<Action>, id: Id, k: Id, now: int)
    requires actions != [] && Met(s, actions[..|actions| - 1], id, k, now)
    ensures Met(s, actions, id, k, now)
  {
    hide GoodTrace, Trace, Taken, Due;
    var n: nat :| MetAt(s, actions[..|actions| - 1], n, id, k, now);
    assert actions[..|actions| - 1][..n] == actions[..n];
    assert MetAt(s, actions, n, id, k, now);
  }

  // The stale rows of `db` the request may pick, in the order of the statement.
  function Candidates(db: Store, now: int, q: Request): seq<Id>
    requires q.BatchRequest?
  {
    Ordered(StaleColumn(db, now, q.only))
  }

  // A scan of `db` that has passed `done` and taken all of it but `skipped`, with `candidates` to come.
  ghost predicate Progressed(all: seq<Id>, done: seq<Id>, skipped: set<Id>, candidates: seq<Id>, got: seq<Id>, size: nat) {
    && all == done + candidates && (forall k :: k in skipped ==> k in done)
    && got == Left(done, skipped) && |got| <= size && Distinct(all)
  }

  lemma TakesOne(all: seq<Id>, done: seq<Id>, skipped: set<Id>, candidates: seq<Id>, got: seq<Id>, size: nat)
    requires Progressed(all, done, skipped, candidates, got, size) && candidates != [] && |got| < size
    ensures Progressed(all, done + [candidates[0]], skipped, candidates[1..], got + [candidates[0]], size)
  {
    NewInDone(all, done, candidates);
    LeftJoin(done, [candidates[0]], skipped);
  }

  lemma PassesOver(all: seq<Id>, done: seq<Id>, skipped: set<Id>, candidates: seq<Id>, got: seq<Id>, size: nat)
    requires Progressed(all, done, skipped, candidates, got, size) && candidates != []
    ensures Progressed(all, done + [candidates[0]], skipped + {candidates[0]}, candidates[1..], got, size)
  {
    NewInDone(all, done, candidates);
    LeftJoin(done, [candidates[0]], skipped + {candidates[0]});
    LeftElsewhere(done, skipped, candidates[0]);
  }

  lemma NewInDone(all: seq<Id>, done: seq<Id>, candidates: seq<Id>)
    requires Distinct(all) && all == done + candidates && candidates != []
    ensures candidates[0] !in done && all == (done + [candidates[0]]) + candidates[1..]
  {
    assert all[|done|] == candidates[0];
    assert forall m :: 0 <= m < |done| ==> all[m] == done[m];
  }

  lemma Complete(all: seq<Id>, done: seq<Id>, skipped: set<Id>, candidates: seq<Id>, got: seq<Id>, size: nat)
    requires Progressed(all, done, skipped, candidates, got, size) && (candidates == [] || |got| >= size)
    ensures got == Take(Left(all, skipped), size)
  {
    LeftJoin(done, candidates, skipped);
  }

  // How far the batch has come, and what it has picked once it settles rows.
  ghost predicate Scan(s: Sys, actions: seq<Action>, id: Id, tx: Tx, db: Store, done: seq<Id>, skipped: set<Id>)
    requires tx.request.BatchRequest? && (tx.pc.BScan? || tx.pc.Rows?)
  {
    && During(s, actions, id, db)
    && (forall k :: k in skipped ==> Met(s, actions, id, k, tx.pc.now))
    && var all := Candidates(db, tx.pc.now, tx.request);
    && if tx.pc.BScan? then Progressed(all, done, skipped, tx.pc.candidates, tx.pc.got, tx.request.size)
       else tx.pc.rows == Take(Left(all, skipped), tx.request.size)
  }

  ghost predicate Picks(s: Sys, actions: seq<Action>, id: Id, tx: Tx) {
    tx.request.BatchRequest? && (tx.pc.BScan? || tx.pc.Rows?) ==>
      exists db, done, skipped :: Scan(s, actions, id, tx, db, done, skipped)
  }

  lemma ScanLonger(s: Sys, actions: seq<Action>, id: Id, tx: Tx)
    requires actions != [] && Picks(s, actions[..|actions| - 1], id, tx)
    ensures Picks(s, actions, id, tx)
  {
    hide During, Met, Candidates, Progressed;
    if tx.request.BatchRequest? && (tx.pc.BScan? || tx.pc.Rows?) {
      var rest := actions[..|actions| - 1];
      var db, done, skipped :| Scan(s, rest, id, tx, db, done, skipped);
      DuringLonger(s, actions, id, db);
      forall k | k in skipped ensures Met(s, actions, id, k, tx.pc.now) {
        MetLonger(s, actions, id, k, tx.pc.now);
      }
      assert Scan(s, actions, id, tx, db, done, skipped);
    }
  }

  // The statement that selects: nothing passed yet.
  lemma Selects(s: Sys, actions: seq<Action>, id: Id, tx': Tx, now: int)
    requires GoodTrace(s, actions) && id in Trace(s, actions).txs && !Trace(s, actions).txs[id].pc.Done?
    requires var m := Trace(s, actions);
             tx'.request.BatchRequest? && tx'.pc == BScan(now, Candidates(m.db, now, tx'.request), [])
    ensures Picks(s, actions, id, tx')
  {
    hide GoodTrace, Trace, During, Met, Candidates;
    var m := Trace(s, actions);
    DuringNow(s, actions, id);
    CandidatesDistinct(m.db, now, tx'.request);
    assert Progressed(Candidates(m.db, now, tx'.request), [], {}, tx'.pc.candidates, [], tx'.request.size);
    assert Scan(s, actions, id, tx', m.db, [], {});
  }

  lemma CandidatesDistinct(db: Store, now: int, q: Request)
    requires q.BatchRequest?
    ensures Distinct(Candidates(db, now, q))
  {
    hide StaleColumn;
  }

  // A statement of the scan: it takes the next row or passes over it, or is through.
  lemma ScansOn(s: Sys, actions: seq<Action>, id: Id, tx: Tx, tx': Tx)
    requires GoodTrace(s, actions) && id in Trace(s, actions).txs && Trace(s, actions).txs[id] == tx
    requires tx.request.BatchRequest? && tx.pc.BScan? && Picks(s, actions, id, tx)
    requires var m := Trace(s, actions); AdvanceBatch(m.db, m.clock, tx, Taken(m, id)) == Going(tx')
    ensures Picks(s, actions, id, tx')
  {
    hide GoodTrace, Trace, During, Met, Candidates, Progressed, Taken;
    var BScan(now, candidates, got) := tx.pc;
    var m, size := Trace(s, actions), tx.request.size;
    var db, done, skipped :| Scan(s, actions, id, tx, db, done, skipped);
    var all := Candidates(db, now, tx.request);
    if candidates == [] || |got| >= size {
      Complete(all, done, skipped, candidates, got, size);
      assert Scan(s, actions, id, tx', db, done, skipped);
    } else if tx'.pc.got == got {
      PassesOver(all, done, skipped, candidates, got, size);
      MetNow(s, actions, id, candidates[0], now);
      assert Scan(s, actions, id, tx', db, done + [candidates[0]], skipped + {candidates[0]});
    } else {
      TakesOne(all, done, skipped, candidates, got, size);
      assert Scan(s, actions, id, tx', db, done + [candidates[0]], skipped);
    }
  }

  lemma RowsStay(db: Store, clock: int, ttl: int, tx: Tx, taken: set<Lock>, uid: Id)
    requires Typed(tx) && tx.pc.Rows? && Advance(db, clock, ttl, tx, taken, uid).Going?
    ensures var tx' := Advance(db, clock, ttl, tx, taken, uid).tx;
            tx'.pc.Rows? && tx'.pc.rows == tx.pc.rows && tx'.pc.now == tx.pc.now && tx'.request == tx.request
  {
    hide Overlay, SettledRows, ItemsOf, RowsReserved, CanMove, Move;
  }

  lemma SamePick(s: Sys, actions: seq<Action>, id: Id, tx: Tx, tx': Tx)
    requires Picks(s, actions, id, tx) && tx.pc.Rows? && tx'.pc.Rows? && tx'.request == tx.request
    requires tx'.pc.rows == tx.pc.rows && tx'.pc.now == tx.pc.now
    ensures Picks(s, actions, id, tx')
  {
    hide During, Met, Candidates;
    if tx.request.BatchRequest? {
      var db, done, skipped :| Scan(s, actions, id, tx, db, done, skipped);
      assert Scan(s, actions, id, tx', db, done, skipped);
    }
  }

  lemma BatchFirst(db: Store, clock: int, ttl: int, tx: Tx, taken: set<Lock>, uid: Id)
    requires Typed(tx) && tx.request.BatchRequest? && !tx.pc.Done? && !tx.pc.Rows? && !tx.pc.BScan?
    requires Advance(db, clock, ttl, tx, taken, uid).Going?
    ensures var tx' := Advance(db, clock, ttl, tx, taken, uid).tx;
            && tx'.request == tx.request
            && (tx'.pc.BSelect?
                || (tx.pc.BSelect? && tx'.pc == BScan(tx.pc.now, Candidates(db, tx.pc.now, tx.request), [])))
  {
    hide StaleColumn;
  }

  // One statement of the batch, whatever others do in between.
  lemma PicksOn(s: Sys, actions: seq<Action>, id: Id, uid: Id)
    requires GoodTrace(s, actions) && SysInv(Trace(s, actions)) && Enabled(Trace(s, actions), Run(id, uid))
    requires var m := Trace(s, actions);
             && m.txs[id].request.BatchRequest? && Picks(s, actions, id, m.txs[id])
             && Advance(m.db, m.clock, m.ttl, m.txs[id], Taken(m, id), uid).Going?
    ensures var m := Trace(s, actions);
            && Advance(m.db, m.clock, m.ttl, m.txs[id], Taken(m, id), uid).tx.request == m.txs[id].request
            && Picks(s, actions, id, Advance(m.db, m.clock, m.ttl, m.txs[id], Taken(m, id), uid).tx)
  {
    hide GoodTrace, Trace, SysInv, During, Met, Candidates, Progressed, Taken, Wanted, IsNew, Picks, AdvanceBatch, AdvanceRows;
    var m := Trace(s, actions);
    var tx := m.txs[id];
    SysTyped(m, id);
    if tx.pc.Rows? {
      RowsStay(m.db, m.clock, m.ttl, tx, Taken(m, id), uid);
      SamePick(s, actions, id, tx, Advance(m.db, m.clock, m.ttl, tx, Taken(m, id), uid).tx);
    } else if tx.pc.BScan? {
      ScansOn(s, actions, id, tx, Advance(m.db, m.clock, m.ttl, tx, Taken(m, id), uid).tx);
      RequestStays(m.db, m.clock, tx, Taken(m, id));
    } else {
      BatchFirst(m.db, m.clock, m.ttl, tx, Taken(m, id), uid);
      FirstPicks(s, actions, id, tx, Advance(m.db, m.clock, m.ttl, tx, Taken(m, id), uid).tx);
    }
  }

  lemma RequestStays(db: Store, clock: int, tx: Tx, taken: set<Lock>)
    requires Typed(tx) && tx.pc.BScan? && AdvanceBatch(db, clock, tx, taken).Going?
    ensures AdvanceBatch(db, clock, tx, taken).tx.request == tx.request
  {
  }

  lemma FirstPicks(s: Sys, actions: seq<Action>, id: Id, tx: Tx, tx': Tx)
    requires GoodTrace(s, actions) && id in Trace(s, actions).txs && !Trace(s, actions).txs[id].pc.Done?
    requires tx.request.BatchRequest? && tx'.request == tx.request
    requires tx'.pc.BSelect?
          || (tx.pc.BSelect? && tx'.pc == BScan(tx.pc.now, Candidates(Trace(s, actions).db, tx.pc.now, tx.request), []))
    ensures Picks(s, actions, id, tx')
  {
    hide GoodTrace, Trace, Candidates, Scan;
    if tx'.pc.BScan? {
      Selects(s, actions, id, tx', tx.pc.now);
    }
  }

  lemma {:induction false} AlwaysPicks(s: Sys, actions: seq<Action>, id: Id)
    requires SysInv(s) && GoodTrace(s, actions) && id !in s.txs && id in Trace(s, actions).txs
    ensures Picks(s, actions, id, Trace(s, actions).txs[id])
    decreases |actions|
  {
    hide SysInv, Advance, Picks, During, Wanted, IsNew, Typed, Enabled, Taken;
    var rest := actions[..|actions| - 1];
    EveryInterleavingIsARun(s, rest);
    if id in Trace(s, rest).txs {
      AlwaysPicks(s, rest, id);
    }
    LastPick(s, actions, id);
  }

  lemma LastPick(s: Sys, actions: seq<Action>, id: Id)
    requires GoodTrace(s, actions) && actions != [] && id in Trace(s, actions).txs
    requires SysInv(Trace(s, actions[..|actions| - 1]))
    requires var m := Trace(s, actions[..|actions| - 1]);
             id in m.txs ==> Picks(s, actions[..|actions| - 1], id, m.txs[id])
    ensures Picks(s, actions, id, Trace(s, actions).txs[id])
  {
    hide SysInv, Advance, During, Wanted, IsNew, Taken, ValidRequest, Scan, Typed;
    var rest, a := actions[..|actions| - 1], actions[|actions| - 1];
    var m := Trace(s, rest);
    var tx' := Trace(s, actions).txs[id];
    assert Trace(s, actions) == Do(m, a) && Enabled(m, a);
    if id in m.txs {
      if a.Run? && a.id == id && Advance(m.db, m.clock, m.ttl, m.txs[id], Taken(m, id), a.uid).Going?
         && m.txs[id].request.BatchRequest?
      {
        PicksOn(s, rest, id, a.uid);
        ScanLonger(s, actions, id, tx');
      } else if tx' == m.txs[id] {
        ScanLonger(s, actions, id, tx');
      } else if a.Run? && a.id == id && Advance(m.db, m.clock, m.ttl, m.txs[id], Taken(m, id), a.uid).Going? {
        KeepsRequest(m, id, a.uid);
      }
    }
  }

  lemma KeepsRequest(m: Sys, id: Id, uid: Id)
    requires SysInv(m) && Enabled(m, Run(id, uid)) && !m.txs[id].request.BatchRequest?
    requires Advance(m.db, m.clock, m.ttl, m.txs[id], Taken(m, id), uid).Going?
    ensures !Advance(m.db, m.clock, m.ttl, m.txs[id], Taken(m, id), uid).tx.request.BatchRequest?
  {
    hide SysInv, Overlay, QuantityLookup, SeatsLookup, KeyUsed, FoundSeats, Sorted, StaleHolders, SettledRows, SettledParents,
         Occupied, DetailOf, Owns, HasStock, StaleColumn, AdvanceRows, Wanted, IsNew, Taken, WaitsFor;
    SysTyped(m, id);
    if m.txs[id].pc.Rows? { RowsStay(m.db, m.clock, m.ttl, m.txs[id], Taken(m, id), uid); }
  }

  // ----- a scan that passes over nothing is a full batch -----

  // No hold made between `db` and `d` is already stale at `now`.
  ghost predicate NoneLate(db: Store, d: Store, now: int) {
    forall r :: r in d.reservations && r !in db.reservations ==> !Due(d.reservations[r], now)
  }

  lemma {:induction false} LeftInOrder(column: map<Id, int>, ids: seq<Id>, gone: set<Id>)
    requires InOrder(column, ids)
    ensures InOrder(column, Left(ids, gone))
  {
    if ids != [] {
      LeftInOrder(column, ids[1..], gone);
      LeftMembers(ids[1..], gone);
      var rest := Left(ids[1..], gone);
      forall n | 0 <= n < |rest| ensures ids[0] != rest[n] && Before(column, ids[0], rest[n]) {
        assert rest[n] in ids[1..];
        var k :| 0 <= k < |ids[1..]| && ids[1..][k] == rest[n];
        assert ids[k + 1] == rest[n];
      }
    }
  }

  // Without the rows that are gone the order is that of what remains.
  lemma LeftOrdered(a: map<Id, int>, b: map<Id, int>, ids: seq<Id>)
    requires IsOrdered(a, ids) && forall r :: r in b ==> r in a && b[r] == a[r]
    ensures IsOrdered(b, Left(ids, a.Keys - b.Keys))
  {
    var gone := a.Keys - b.Keys;
    LeftInOrder(a, ids, gone);
    LeftMembers(ids, gone);
    var left := Left(ids, gone);
    forall i ensures i in left <==> i in b {
    }
    forall m, n | 0 <= m < n < |left| ensures left[m] != left[n] && Before(b, left[m], left[n]) {
      assert left[m] in left && left[n] in left;
    }
  }

  lemma StaleStay(db: Store, d: Store, now: int)
    requires Evolves(db, d) && NoneLate(db, d, now)
    ensures var a, b := StaleColumn(db, now, None), StaleColumn(d, now, None);
            forall r :: r in b ==> r in a && b[r] == a[r]
  {
  }

  // The first rows of the old order that are all still there are the first rows of the new one.
  lemma BatchStays(a: map<Id, int>, b: map<Id, int>, size: nat)
    requires forall r :: r in b ==> r in a && b[r] == a[r]
    requires forall r :: r in Take(Ordered(a), size) ==> r in b
    ensures Take(Ordered(b), size) == Take(Ordered(a), size)
  {
    var all := Ordered(a);
    var rows := Take(all, size);
    var gone := a.Keys - b.Keys;
    hide Ordered, IsOrdered, Left;
    LeftOrdered(a, b, all);
    OrderedUnique(b, Ordered(b), Left(all, gone));
    var rest := all[|rows|..];
    assert all == rows + rest;
    LeftJoin(rows, rest, gone);
    LeftNone(rows, gone);
    TakesFront(rows, Left(rest, gone), size);
  }

  lemma TakesFront(rows: seq<Id>, rest: seq<Id>, size: nat)
    requires |rows| <= size && (|rows| < size ==> rest == [])
    ensures Take(rows + rest, size) == rows
  {
  }

  lemma FullStays(db: Store, d: Store, size: nat, now: int)
    requires Evolves(db, d) && NoneLate(db, d, now) && AllStale(d, StaleBatch(db, size, now, None), now)
    ensures StaleBatch(d, size, now, None) == StaleBatch(db, size, now, None)
  {
    hide Ordered, Evolves;
    StaleStay(db, d, now);
    BatchStays(StaleColumn(db, now, None), StaleColumn(d, now, None), size);
  }

  lemma PickedFirst(db: Store, now: int, q: Request, skipped: set<Id>)
    requires q.BatchRequest?
    ensures FirstDue(db, now, q.only, skipped, q.size, Take(Left(Candidates(db, now, q), skipped), q.size))
  {
    var all := Candidates(db, now, q);
    LeftInOrder(StaleColumn(db, now, q.only), all, skipped);
    LeftMembers(all, skipped);
    TakenFirst(db, now, q.only, skipped, q.size, Left(all, skipped));
  }

  // A batch that is about to commit has picked, in order, the first stale rows of a store committed while it
  // was in flight that it did not meet locked or settled; if it passed over none, and no hold made meanwhile
  // was stale from the start, it commits as a full batch.
  lemma BatchPicksFirstFree(s: Sys, actions: seq<Action>, id: Id) returns (db: Store, skipped: set<Id>)
    requires SysInv(s) && GoodTrace(s, actions) && id !in s.txs && id in Trace(s, actions).txs
    requires Trace(s, actions).txs[id].request.BatchRequest? && Trace(s, actions).txs[id].pc.Rows?
    ensures var m := Trace(s, actions); var tx := m.txs[id];
            && During(s, actions, id, db) && (forall k :: k in skipped ==> Met(s, actions, id, k, tx.pc.now))
            && InTime(tx, m.clock, tx.pc.now)
            && FirstDue(db, tx.pc.now, tx.request.only, skipped, tx.request.size, tx.pc.rows)
            && (skipped == {} && tx.request.only.None? && NoneLate(db, m.db, tx.pc.now) ==>
                  FullBatch(m.db, tx.request.size, ExpireOp(tx.pc.rows, tx.pc.now)))
  {
    hide SysInv, During, Met, Candidates, GoodTrace, Trace, Evolves, NoneLate, StaleBatch;
    var m := Trace(s, actions);
    var tx := m.txs[id];
    EveryInterleavingIsARun(s, actions);
    AlwaysPicks(s, actions, id);
    SysTyped(m, id);
    var d, done, skips :| Scan(s, actions, id, tx, d, done, skips);
    db, skipped := d, skips;
    PickedFirst(db, tx.pc.now, tx.request, skipped);
    if skipped == {} && tx.request.only.None? && NoneLate(db, m.db, tx.pc.now) {
      DuringSome(s, actions, id, db);
      AllTaken(db, tx.pc.now, tx.request, tx.pc.rows);
      RowsStillStale(m, id);
      FullStays(db, m.db, tx.request.size, tx.pc.now);
    }
  }

  // A batch that ends without having picked anything has found nothing: every stale row it might have picked
  // was locked by somebody else or settled when it came to it, or it was asked for no row at all.
  lemma EmptyBatchFoundNothing(s: Sys, actions: seq<Action>, id: Id, uid: Id) returns (db: Store, skipped: set<Id>)
    requires SysInv(s) && GoodTrace(s, actions) && id !in s.txs && Enabled(Trace(s, actions), Run(id, uid))
    requires Trace(s, actions).txs[id].request.BatchRequest?
    requires var m := Trace(s, actions); Advance(m.db, m.clock, m.ttl, m.txs[id], Taken(m, id), uid).Over?
    ensures var m := Trace(s, actions); var tx := m.txs[id];
            && tx.pc.BScan?
            && Advance(m.db, m.clock, m.ttl, tx, Taken(m, id), uid) == Over(Count(0))
            && During(s, actions, id, db) && (forall k :: k in skipped ==> Met(s, actions, id, k, tx.pc.now))
            && InTime(tx, m.clock, tx.pc.now)
            && (tx.request.size > 0 ==> forall k :: Eligible(db, k, tx.pc.now, tx.request.only) ==> k in skipped)
  {
    var m := Trace(s, actions);
    var tx := m.txs[id];
    hide SysInv, During, Met, Candidates, GoodTrace, Trace, Enabled, Taken, Advance, Progressed, Picks, Wanted, Eligible;
    EveryInterleavingIsARun(s, actions);
    AlwaysPicks(s, actions, id);
    EmptyScan(m, id, uid);
    SysTyped(m, id);
    var d, done, skips :| Scan(s, actions, id, tx, d, done, skips);
    db, skipped := d, skips;
    CandidatesEligible(db, tx.pc.now, tx.request);
    NothingLeft(Candidates(db, tx.pc.now, tx.request), done, skipped, tx.pc.candidates, tx.request.size);
  }

  lemma CandidatesEligible(db: Store, now: int, q: Request)
    requires q.BatchRequest?
    ensures forall k :: k in Candidates(db, now, q) <==> Eligible(db, k, now, q.only)
  {
    ColumnIsEligible(db, now, q.only);
  }

  lemma NothingLeft(all: seq<Id>, done: seq<Id>, skipped: set<Id>, candidates: seq<Id>, size: nat)
    requires Progressed(all, done, skipped, candidates, [], size) && (size > 0 ==> candidates == [])
    ensures size > 0 ==> forall k :: k in all ==> k in skipped
  {
    LeftMembers(done, skipped);
  }

  lemma EmptyScan(m: Sys, id: Id, uid: Id)
    requires SysInv(m) && Enabled(m, Run(id, uid)) && m.txs[id].request.BatchRequest?
    requires Advance(m.db, m.clock, m.ttl, m.txs[id], Taken(m, id), uid).Over?
    ensures var tx := m.txs[id];
            && tx.pc.BScan? && tx.pc.got == [] && (tx.pc.candidates == [] || |tx.pc.got| >= tx.request.size)
            && Advance(m.db, m.clock, m.ttl, tx, Taken(m, id), uid) == Over(Count(0))
  {
    hide Inv, Taken, Wanted, IsNew, WaitsFor, RowsInv, AdvanceRows, StaleColumn, StaleReservation, AllApart, AllTimely;
    SysTyped(m, id);
    Knows(m, id);
    if m.txs[id].pc.Rows? {
      RowsStep(m.db, m.ttl, m.txs[id], uid);
    }
  }

  lemma AllTaken(db: Store, now: int, q: Request, rows: seq<Id>)
    requires q.BatchRequest? && q.only.None? && rows == Take(Left(Candidates(db, now, q), {}), q.size)
    ensures rows == StaleBatch(db, q.size, now, None)
  {
    LeftNone(Candidates(db, now, q), {});
    hide Ordered, StaleColumn;
  }

  lemma RowsStillStale(m: Sys, id: Id)
    requires SysInv(m) && id in m.txs && m.txs[id].pc.Rows? && m.txs[id].request.BatchRequest?
    ensures AllStale(m.db, m.txs[id].pc.rows, m.txs[id].pc.now)
  {
    hide Inv, AllApart, Covered, InFlight, Delta, Overlay, ItemsOf, LocksOf, StaleReservation;
    assert TxInv(m.db, m.ttl, m.txs[id]);
  }
}
