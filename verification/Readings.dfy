/** The clock readings requests act on, from their beginning to their commit, and what follows for holds that
    run out: no call that comes after the deadline confirms one. */
module Readings {
  import opened Tables
  import opened Ordering
  import opened Spec
  import opened Invariant
  import opened Operations
  import opened Outcomes
  import opened Runs
  import opened Draining
  import opened Concurrent
  import opened Isolation
  import opened RowWrites
  import opened Progress
  import opened Refinement
  import opened Refusals

  // ----- where a reading comes from -----

  predicate AtClock(pc: Pc) {
    pc.QClock? || pc.SClock? || pc.LCheck? || pc.BClock?
  }

  // After the first `n` actions `tx`, of request `request`, is `id` and about to read the clock, which shows `now`.
  ghost predicate ReadsAt(s: Sys, actions: seq<Action>, n: nat, id: Id, request: Request, now: int) {
    && n <= |actions| && GoodTrace(s, actions[..n])
    && var m := Trace(s, actions[..n]);
    && id in m.txs && m.txs[id].request == request && AtClock(m.txs[id].pc) && m.clock == now
  }

  ghost predicate Reads(s: Sys, actions: seq<Action>, id: Id, request: Request, now: int) {
    exists n: nat :: ReadsAt(s, actions, n, id, request, now)
  }

  lemma ReadsNow(s: Sys, actions: seq<Action>, id: Id)
    requires GoodTrace(s, actions) && id in Trace(s, actions).txs && AtClock(Trace(s, actions).txs[id].pc)
    ensures Reads(s, actions, id, Trace(s, actions).txs[id].request, Trace(s, actions).clock)
  {
    hide GoodTrace, Trace, AtClock;
    assert actions[..|actions|] == actions;
    assert ReadsAt(s, actions, |actions|, id, Trace(s, actions).txs[id].request, Trace(s, actions).clock);
  }

  lemma ReadsLonger(s: Sys, actions: seq<Action>, id: Id, request: Request, now: int)
    requires actions != [] && Reads(s, actions[..|actions| - 1], id, request, now)
    ensures Reads(s, actions, id, request, now)
  {
    hide GoodTrace, Trace, AtClock;
    var n: nat :| ReadsAt(s, actions[..|actions| - 1], n, id, request, now);
    assert actions[..|actions| - 1][..n] == actions[..n];
    assert ReadsAt(s, actions, n, id, request, now);
  }

  // The instant a transaction acts on is the one given to the batch, or was read from the clock while it was in flight.
  ghost predicate Sourced(s: Sys, actions: seq<Action>, id: Id, tx: Tx) {
    PcNow(tx.pc).Some? ==>
      if tx.request.BatchRequest? && tx.request.at.Some? then tx.request.at == PcNow(tx.pc)
      else Reads(s, actions, id, tx.request, PcNow(tx.pc).value)
  }

  // A statement keeps the instant, reads the clock, or takes the instant given to the batch.
  lemma InstantStep(db: Store, clock: int, ttl: int, tx: Tx, taken: set<Lock>, uid: Id)
    requires Typed(tx) && !tx.pc.Done? && Advance(db, clock, ttl, tx, taken, uid).Going?
    ensures var tx' := Advance(db, clock, ttl, tx, taken, uid).tx;
            && tx'.request == tx.request
            && (PcNow(tx'.pc).Some? ==>
                  || PcNow(tx'.pc) == PcNow(tx.pc)
                  || (AtClock(tx.pc) && PcNow(tx'.pc)
                        == Some(if tx.request.BatchRequest? && tx.request.at.Some? then tx.request.at.value else clock)))
  {
    hide Overlay, QuantityLookup, SeatsLookup, KeyUsed, FoundSeats, Sorted, StaleHolders, SettledRows, SettledParents,
         Occupied, DetailOf, Owns, HasStock, StaleColumn, AdvanceRows;
    if tx.pc.Rows? {
      RowsKeepNow(db, tx);
    }
  }

  lemma StillSourced(s: Sys, actions: seq<Action>, id: Id, tx: Tx, tx': Tx)
    requires actions != [] && Sourced(s, actions[..|actions| - 1], id, tx)
    requires tx'.request == tx.request && (PcNow(tx'.pc).None? || PcNow(tx'.pc) == PcNow(tx.pc))
    ensures Sourced(s, actions, id, tx')
  {
    hide Reads;
    if PcNow(tx.pc).Some? && Reads(s, actions[..|actions| - 1], id, tx.request, PcNow(tx.pc).value) {
      ReadsLonger(s, actions, id, tx.request, PcNow(tx.pc).value);
    }
  }

  lemma SourcedByStep(s: Sys, actions: seq<Action>, id: Id, uid: Id)
    requires GoodTrace(s, actions) && actions != [] && GoodTrace(s, actions[..|actions| - 1])
    requires var m := Trace(s, actions[..|actions| - 1]);
             && SysInv(m) && Enabled(m, Run(id, uid)) && Sourced(s, actions[..|actions| - 1], id, m.txs[id])
             && Advance(m.db, m.clock, m.ttl, m.txs[id], Taken(m, id), uid).Going?
    ensures var m := Trace(s, actions[..|actions| - 1]);
            Sourced(s, actions, id, Advance(m.db, m.clock, m.ttl, m.txs[id], Taken(m, id), uid).tx)
  {
    hide GoodTrace, Trace, SysInv, Advance, Taken, Wanted, IsNew, Reads, AtClock, PcNow;
    var rest := actions[..|actions| - 1];
    var m := Trace(s, rest);
    SysTyped(m, id);
    InstantStep(m.db, m.clock, m.ttl, m.txs[id], Taken(m, id), uid);
    var tx' := Advance(m.db, m.clock, m.ttl, m.txs[id], Taken(m, id), uid).tx;
    if PcNow(tx'.pc).None? || PcNow(tx'.pc) == PcNow(m.txs[id].pc) {
      StillSourced(s, actions, id, m.txs[id], tx');
    } else if PcNow(tx'.pc) == Some(m.clock) {
      ReadsNow(s, rest, id);
      ReadsLonger(s, actions, id, tx'.request, m.clock);
    }
  }

  // Every instant acted on is a reading the transaction made itself after it began, batches with a given
  // instant apart.
  lemma {:induction false} ReadingsAreReal(s: Sys, actions: seq<Action>, id: Id)
    requires SysInv(s) && GoodTrace(s, actions) && id !in s.txs && id in Trace(s, actions).txs
    ensures Sourced(s, actions, id, Trace(s, actions).txs[id])
    decreases |actions|
  {
    hide SysInv, Advance, Sourced, Wanted, IsNew, Typed, Enabled, Taken;
    var rest := actions[..|actions| - 1];
    EveryInterleavingIsARun(s, rest);
    if id in Trace(s, rest).txs {
      ReadingsAreReal(s, rest, id);
    }
    LastReading(s, actions, id);
  }

  lemma LastReading(s: Sys, actions: seq<Action>, id: Id)
    requires GoodTrace(s, actions) && actions != [] && id in Trace(s, actions).txs
    requires SysInv(Trace(s, actions[..|actions| - 1]))
    requires var m := Trace(s, actions[..|actions| - 1]);
             id in m.txs ==> Sourced(s, actions[..|actions| - 1], id, m.txs[id])
    ensures Sourced(s, actions, id, Trace(s, actions).txs[id])
  {
    hide SysInv, Advance, Reads, Wanted, IsNew, Taken, ValidRequest, Typed;
    var rest, a := actions[..|actions| - 1], actions[|actions| - 1];
    var m := Trace(s, rest);
    var tx' := Trace(s, actions).txs[id];
    assert Trace(s, actions) == Do(m, a) && Enabled(m, a);
    if id in m.txs {
      if a.Run? && a.id == id && Advance(m.db, m.clock, m.ttl, m.txs[id], Taken(m, id), a.uid).Going? {
        SourcedByStep(s, actions, id, a.uid);
      } else if tx' == m.txs[id] {
        StillSourced(s, actions, id, m.txs[id], tx');
      }
    }
  }

  // ----- when a request came in -----

  // A transaction begins with the request it was given, at what the clock shows then.
  lemma {:induction false} BeganAt(s: Sys, actions: seq<Action>, id: Id) returns (n: nat)
    requires SysInv(s) && GoodTrace(s, actions) && id !in s.txs && id in Trace(s, actions).txs
    ensures n < |actions| && GoodTrace(s, actions[..n]) && id !in Trace(s, actions[..n]).txs
    ensures actions[n] == Begin(id, Trace(s, actions).txs[id].request)
    ensures Trace(s, actions).txs[id].began == Trace(s, actions[..n]).clock
    decreases |actions|
  {
    hide SysInv, Advance, Wanted, IsNew, Typed, Taken, ValidRequest;
    var rest, a := actions[..|actions| - 1], actions[|actions| - 1];
    var m := Trace(s, rest);
    assert Trace(s, actions) == Do(m, a) && Enabled(m, a);
    if id in m.txs {
      EveryInterleavingIsARun(s, rest);
      n := BeganAt(s, rest, id);
      assert rest[..n] == actions[..n];
      SameBeginning(m, a, id);
    } else {
      n := |actions| - 1;
    }
  }

  lemma SameBeginning(s: Sys, a: Action, id: Id)
    requires SysInv(s) && Enabled(s, a) && id in s.txs
    ensures id in Do(s, a).txs
    ensures Do(s, a).txs[id].request == s.txs[id].request && Do(s, a).txs[id].began == s.txs[id].began
  {
    hide SysInv, Advance, Wanted, IsNew, Typed, Timely, ValidRequest, Taken;
    if a.Run? && a.id == id && Advance(s.db, s.clock, s.ttl, s.txs[id], Taken(s, id), a.uid).Going? {
      SysTyped(s, id);
      StaysTimely(s.db, s.clock, s.ttl, s.txs[id], Taken(s, id), a.uid);
    }
  }

  // ----- holds that have run out -----

  lemma OpCommits(s: Sys, a: Action)
    requires SysInv(s) && Enabled(s, a) && CommitOp(s, a).Some?
    ensures a.Run? && a.id in s.txs && Typed(s.txs[a.id]) && OpOf(s.txs[a.id], a.uid) == CommitOp(s, a)
    ensures var op := CommitOp(s, a).value;
            && GoodOp(s.db, op) && Do(s, a).db == Exec(s.db, s.ttl, op).0 && InTime(s.txs[a.id], s.clock, op.now)
            && Do(s, a).txs[a.id].pc == Done(Exec(s.db, s.ttl, op).1)
  {
    hide SysInv, Advance, OpOf, Wanted, IsNew, Exec, GoodOp, InTime;
    StepRefines(s, a);
    SysTyped(s, a.id);
  }

  // No call that came in after the deadline of a hold confirms it, wherever it stood in the queue.
  lemma LateNeverConfirms(s: Sys, a: Action, r: Id)
    requires SysInv(s) && Enabled(s, a) && a.Run?
    requires r in s.db.reservations && s.db.reservations[r].expiresAt < s.txs[a.id].began
    ensures r in Do(s, a).db.reservations
    ensures Do(s, a).db.reservations[r].status.Confirmed? ==> s.db.reservations[r].status.Confirmed?
  {
    hide SysInv, Advance, Wanted, IsNew, Exec, GoodOp, Inv, Evolves, OpOf, Enabled, Do, CommitOp;
    StepRefines(s, a);
    InvOf(s);
    if CommitOp(s, a).Some? {
      OpCommits(s, a);
      ExecEvolves(s.db, s.ttl, CommitOp(s, a).value);
      RowKept(s.db, Do(s, a).db, r);
      SettledKept(s.db, Do(s, a).db, r);
      if s.db.reservations[r].status.Reserved? {
        HoldEnds(s.db, s.ttl, CommitOp(s, a).value, r);
        if CommitOp(s, a).value.LifecycleOp? {
          Asked(s, a.id, a.uid, CommitOp(s, a).value);
        }
      }
    }
  }

  lemma CallOp(db: Store, ttl: int, tx: Tx, uid: Id)
    requires TxInv(db, ttl, tx) && tx.request.LifecycleRequest? && OpOf(tx, uid).Some?
    ensures tx.pc.Rows? && OpOf(tx, uid) == Some(LifecycleOp(tx.request.id, tx.request.caller, tx.request.target, tx.pc.now))
    ensures var q := tx.request;
            && q.id in db.reservations && OwnedBy(db.reservations[q.id], q.caller) && db.reservations[q.id].status.Reserved?
            && (q.target.Cancelled? || q.target.Confirmed?)
  {
    hide Covered, InFlight, Delta, Overlay, ItemsOf, LocksOf;
    assert tx.pc.rows[0] in tx.pc.rows;
  }

  // A cancel or confirm that came in after the deadline and commits has expired the hold, and says so.
  lemma LateCallExpires(s: Sys, a: Action)
    requires SysInv(s) && Enabled(s, a) && CommitOp(s, a).Some? && s.txs[a.id].request.LifecycleRequest?
    requires var q := s.txs[a.id].request;
             q.id in s.db.reservations ==> s.db.reservations[q.id].expiresAt < s.txs[a.id].began
    ensures var q := s.txs[a.id].request;
            && q.id in s.db.reservations && s.db.reservations[q.id].status.Reserved?
            && Do(s, a).db.reservations == s.db.reservations[q.id := s.db.reservations[q.id].(status := Expired)]
    ensures Do(s, a).txs[a.id].pc == Done(Failed(TransitionConflict))
  {
    var q := s.txs[a.id].request;
    hide SysInv, Advance, Wanted, IsNew, Inv, OpOf, Enabled, Do, CommitOp, TxInv, Lifecycle;
    OpCommits(s, a);
    InvOf(s);
    Knows(s, a.id);
    CallOp(s.db, s.ttl, s.txs[a.id], a.uid);
    LifecycleOutcome(s.db, q.id, q.caller, q.target, s.txs[a.id].pc.now);
  }

  // ----- a confirmed hold was locked in time -----

  // After the first `n` actions `id`, a confirm of the hold's owner, has the lock of the hold, which is still
  // reserved, and the clock is not past its deadline.
  ghost predicate LockedInTime(s: Sys, actions: seq<Action>, n: nat, id: Id, r: Id) {
    && n <= |actions| && GoodTrace(s, actions[..n])
    && var m := Trace(s, actions[..n]);
    && id in m.txs && r in m.db.reservations && m.db.reservations[r].status.Reserved?
    && m.txs[id].request.LifecycleRequest? && m.txs[id].request.id == r && m.txs[id].request.target.Confirmed?
    && OwnedBy(m.db.reservations[r], m.txs[id].request.caller)
    && ParentLock(r) in m.txs[id].locks && m.clock <= m.db.reservations[r].expiresAt
  }

  lemma Checking(db: Store, ttl: int, tx: Tx)
    requires TxInv(db, ttl, tx) && AtClock(tx.pc) && tx.request.LifecycleRequest?
    ensures tx.request.id in db.reservations && OwnedBy(db.reservations[tx.request.id], tx.request.caller)
    ensures ParentLock(tx.request.id) in tx.locks
  {
  }

  // The step that confirms a hold belongs to a call that read the clock in time, with the lock.
  lemma ConfirmedByStep(s: Sys, actions: seq<Action>, a: Action, r: Id) returns (n: nat, id: Id)
    requires SysInv(s) && s.txs == map[] && GoodTrace(s, actions) && Enabled(Trace(s, actions), a)
    requires var m := Trace(s, actions);
             && r in Do(m, a).db.reservations && Do(m, a).db.reservations[r].status.Confirmed?
             && (r in m.db.reservations ==> !m.db.reservations[r].status.Confirmed?)
    ensures LockedInTime(s, actions, n, id, r)
  {
    var m := Trace(s, actions);
    hide SysInv, Enabled, Do, GoodTrace, Trace, OwnedBy, Reads;
    EveryInterleavingIsARun(s, actions);
    var now := ConfirmingStep(m, a, r);
    id := a.id;
    ReadingsAreReal(s, actions, id);
    n := ReadInLock(s, actions, id, r, now);
  }

  lemma ConfirmingOp(db: Store, ttl: int, op: Op, r: Id)
    requires Inv(db) && GoodOp(db, op)
    requires r in Exec(db, ttl, op).0.reservations && Exec(db, ttl, op).0.reservations[r].status.Confirmed?
    requires r in db.reservations ==> !db.reservations[r].status.Confirmed?
    ensures r in db.reservations && db.reservations[r].status.Reserved? && op.LifecycleOp? && op.id == r
    ensures op.target.Confirmed? && op.now <= db.reservations[r].expiresAt
  {
    var d := Exec(db, ttl, op).0;
    hide Exec, GoodOp, Inv, Evolves, OwnedBy;
    if r !in db.reservations {
      NewHoldDeadline(db, ttl, op, r);
    }
    ExecEvolves(db, ttl, op);
    SettledKept(db, d, r);
    HoldEnds(db, ttl, op, r);
  }

  lemma ConfirmingStep(m: Sys, a: Action, r: Id) returns (now: int)
    requires SysInv(m) && Enabled(m, a)
    requires r in Do(m, a).db.reservations && Do(m, a).db.reservations[r].status.Confirmed?
    requires r in m.db.reservations ==> !m.db.reservations[r].status.Confirmed?
    ensures a.Run? && r in m.db.reservations && m.db.reservations[r].status.Reserved?
    ensures now <= m.db.reservations[r].expiresAt && PcNow(m.txs[a.id].pc) == Some(now)
    ensures var q := m.txs[a.id].request; q.LifecycleRequest? && q.id == r && q.target.Confirmed?
  {
    hide SysInv, Do, Exec, GoodOp, Inv, CommitOp, OpOf, Advance, Wanted, IsNew;
    InvOf(m);
    StepRefines(m, a);
    OpCommits(m, a);
    var op := CommitOp(m, a).value;
    ConfirmingOp(m.db, m.ttl, op, r);
    Asked(m, a.id, a.uid, op);
    now := op.now;
  }

  lemma Asked(m: Sys, id: Id, uid: Id, op: Op)
    requires SysInv(m) && id in m.txs && Typed(m.txs[id]) && OpOf(m.txs[id], uid) == Some(op) && op.LifecycleOp?
    ensures m.txs[id].request == LifecycleRequest(op.id, op.caller, op.target) && PcNow(m.txs[id].pc) == Some(op.now)
  {
    hide SysInv;
  }

  lemma ReadInLock(s: Sys, actions: seq<Action>, id: Id, r: Id, now: int) returns (n: nat)
    requires SysInv(s) && GoodTrace(s, actions) && id in Trace(s, actions).txs
    requires var m := Trace(s, actions); var q := m.txs[id].request;
             && q.LifecycleRequest? && q.id == r && q.target.Confirmed? && Reads(s, actions, id, q, now)
             && r in m.db.reservations && m.db.reservations[r].status.Reserved? && now <= m.db.reservations[r].expiresAt
    ensures LockedInTime(s, actions, n, id, r)
  {
    var m := Trace(s, actions);
    hide SysInv, GoodTrace, Trace, OwnedBy, TxInv, Evolves, Inv;
    var k: nat :| ReadsAt(s, actions, k, id, m.txs[id].request, now);
    n := k;
    var early := Trace(s, actions[..n]);
    EveryInterleavingIsARun(s, actions[..n]);
    Knows(early, id);
    Checking(early.db, early.ttl, early.txs[id]);
    assert !early.txs[id].pc.Done?;
    assert DuringAt(s, actions, n, id, early.db);
    DuringEvolves(s, actions, n, id, early.db);
    SettledKept(early.db, m.db, r);
    RowKept(early.db, m.db, r);
  }

  // Whatever a trace has confirmed was reserved and locked by its owner's confirm at some moment at which the
  // clock was not past the deadline.
  lemma {:induction false} ConfirmedUnderLock(s: Sys, actions: seq<Action>, r: Id) returns (n: nat, id: Id)
    requires SysInv(s) && s.txs == map[] && GoodTrace(s, actions)
    requires r in Trace(s, actions).db.reservations && Trace(s, actions).db.reservations[r].status.Confirmed?
    requires r in s.db.reservations ==> !s.db.reservations[r].status.Confirmed?
    ensures LockedInTime(s, actions, n, id, r)
    decreases |actions|
  {
    hide SysInv, Enabled, Do, OwnedBy;
    var rest := actions[..|actions| - 1];
    var m := Trace(s, rest);
    if r in m.db.reservations && m.db.reservations[r].status.Confirmed? {
      n, id := ConfirmedUnderLock(s, rest, r);
      assert rest[..n] == actions[..n];
    } else {
      n, id := ConfirmedByStep(s, rest, actions[|actions| - 1], r);
      assert rest[..n] == actions[..n];
    }
  }
}
