/** Traces from fresh systems that end in a deadlock, for each of the three things the absence of deadlock
    has to exclude. */
module DeadlockWitness {
  import opened Tables
  import opened Ordering
  import opened Spec
  import opened Invariant
  import opened Operations
  import opened Outcomes
  import opened Concurrent
  import opened Progress
  import opened Refinement
  import opened Deadlock
  import opened Walks

  const HOLDER := Caller(1, None)
  const VISITOR := Caller(3, None)

  // An event with two ticket types and two seats.
  const NEW_EVENT := Store(
    map[0 := Event("concert")],
    map[1 := TicketType(0, 1, 10, 0, 0), 2 := TicketType(0, 2, 10, 0, 0)],
    map[1 := Seat(0, 1), 2 := Seat(0, 2)],
    map[], map[], map[])

  const START := Sys(NEW_EVENT, map[], 0, 10)

  lemma Starts()
    ensures Arises(START) && AllDone(START) && NoRows(START.db)
  {
    ArisesFresh(START);
  }

  // ----- a stale hold and two requests under one key -----

  // The seats of request `q` are all held by `h`, of another session, until `deadline`; there is no other seat hold.
  ghost predicate HeldAgainst(db: Store, h: Id, q: Request, deadline: int)
    requires q.SeatsRequest?
  {
    && InEvent(db, q.event, q.seats) && q.seats != {}
    && h in db.reservations && db.reservations[h].kind.Seats?
    && db.reservations[h].status.Reserved? && db.reservations[h].expiresAt == deadline
    && (forall r :: r in db.reservations ==> db.reservations[r].session != q.caller.session)
    && (forall i :: i in db.seatRows ==>
          && db.seatRows[i].reservation == h && db.seatRows[i].status.Reserved? && db.seatRows[i].expiresAt == deadline)
    && (forall x :: x in q.seats ==> SeatOf(db, h, x))
  }

  lemma KeyUnused(db: Store, h: Id, q: Request, deadline: int)
    requires q.SeatsRequest? && HeldAgainst(db, h, q, deadline)
    ensures !KeyUsed(db, q.caller.session, q.key) && SeatsLookup(db, q.caller.session, q.key).Missing?
  {
    hide KeyedRows;
    assert forall i :: i !in KeyedRows(db, q.caller.session, q.key);
  }

  lemma StaleAt(db: Store, h: Id, q: Request, deadline: int, now: int)
    requires q.SeatsRequest? && HeldAgainst(db, h, q, deadline)
    ensures Sorted(StaleHolders(db, q.seats, now)) == if now < deadline then [] else [h]
  {
    hide Sorted;
    var x :| x in q.seats;
    assert SeatOf(db, h, x);
    var i :| i in db.seatRows && db.seatRows[i].reservation == h && db.seatRows[i].seat == x;
    assert StaleRow(db.seatRows[i], q.seats, now) <==> now >= deadline;
    assert forall r :: r in StaleHolders(db, q.seats, now) <==> now >= deadline && r == h;
    SortedIs(StaleHolders(db, q.seats, now), if now < deadline then [] else [h]);
  }

  // The request, up to the insert of its parent.
  lemma ToParent(s: Sys, id: Id, h: Id, q: Request, deadline: int) returns (d: Sys)
    requires Arises(s) && id !in s.txs && q.SeatsRequest? && HeldAgainst(s.db, h, q, deadline)
    requires forall u :: u in s.txs ==> ParentLock(h) !in s.txs[u].locks
    requires forall u, x :: u in s.txs && x in q.seats ==> SeatLock(x) !in s.txs[u].locks
    ensures Arises(d) && AllTyped(d) && d.db == s.db && d.clock == s.clock && d.ttl == s.ttl && id in d.txs
    ensures d.txs.Keys == s.txs.Keys + {id} && forall u :: u in s.txs ==> d.txs[u] == s.txs[u]
    ensures d.txs[id].request == q && d.txs[id].pc == SInsert(s.clock, if s.clock < deadline then [] else [h])
  {
    hide Arises, AllTyped, SeatsLookup, FoundSeats, Sorted, StaleHolders, HeldAgainst, KeyUsed;
    KeyUnused(s.db, h, q, deadline);
    AllFound(s.db, h, q, deadline);
    StaleAt(s.db, h, q, deadline, s.clock);
    var a := Begins(s, id, q);
    var b := ToStale(a, id);
    BesideTaken(a, b, id);
    d := ToInsert(b, id, s.clock, if s.clock < deadline then [] else [h]);
    BesideBoth(a, b, d, id);
  }

  lemma AllFound(db: Store, h: Id, q: Request, deadline: int)
    requires q.SeatsRequest? && HeldAgainst(db, h, q, deadline)
    ensures ValidRequest(q) && FoundSeats(db, q.event, q.seats) == Sorted(q.seats)
  {
    hide FoundSeats, Sorted;
    FoundIff(db, q.event, q.seats);
  }

  // At an instant at which the hold still runs, up to the insert of its first seat.
  lemma ToSeat(s: Sys, id: Id, h: Id, q: Request, deadline: int) returns (d: Sys)
    requires Arises(s) && AllDone(s) && id !in s.txs && q.SeatsRequest? && HeldAgainst(s.db, h, q, deadline)
    requires s.clock < deadline
    ensures Arises(d) && AllTyped(d) && d.db == s.db && d.clock == s.clock && d.ttl == s.ttl && id in d.txs
    ensures d.txs.Keys == s.txs.Keys + {id} && forall u :: u in s.txs ==> d.txs[u] == s.txs[u]
    ensures AtSeat(d, id, q)
  {
    hide Arises, AllTyped, HeldAgainst, KeyUsed, Taken, Sorted, AtSeat;
    DoneIdle(s);
    var a := ToParent(s, id, h, q, deadline);
    d := WithKey(s, a, id, h, q, deadline);
    AllFound(s.db, h, q, deadline);
    SeatHeld(d, id, q);
  }

  lemma WithKey(s: Sys, a: Sys, id: Id, h: Id, q: Request, deadline: int) returns (d: Sys)
    requires Arises(a) && AllTyped(a) && AllDone(s) && id in a.txs && q.SeatsRequest? && HeldAgainst(a.db, h, q, deadline)
    requires a.txs.Keys == s.txs.Keys + {id} && forall u :: u in s.txs && u != id ==> a.txs[u] == s.txs[u]
    requires a.txs[id].request == q && a.txs[id].pc == SInsert(a.clock, [])
    ensures Beside(a, d, id) && d.txs[id].pc.SSeats? && d.txs[id].pc.stale == [] && d.txs[id].pc.ids == []
  {
    hide Arises, AllTyped, HeldAgainst, KeyUsed, Taken, Beside;
    KeyUnused(a.db, h, q, deadline);
    NothingTaken(a, id);
    var e, rid := ToSeats(a, id, a.clock, []);
    d := e;
  }

  lemma DoneIdle(s: Sys)
    requires Arises(s) && AllDone(s)
    ensures forall u :: u in s.txs ==> s.txs[u].locks == {}
  {
    hide Arises, SysInv, RowsInv, QuantityInv, SeatsInv, OwnedInv, BatchInv;
    ArisesInv(s);
  }

  function FirstSeat(q: Request): (x: Id)
    requires q.SeatsRequest? && q.seats != {}
    ensures x in q.seats
  {
    SortedNonEmpty(q.seats);
    assert Sorted(q.seats)[0] in Sorted(q.seats);
    Sorted(q.seats)[0]
  }

  // The request has its seats and its key, and waits for the first seat's place in the index.
  ghost predicate AtSeat(s: Sys, id: Id, q: Request)
    requires q.SeatsRequest? && q.seats != {}
  {
    && AllTyped(s) && id in s.txs && s.txs[id].request == q
    && Wanted(s.db, s.txs[id]) == SlotOf(FirstSeat(q))
    && s.txs[id].locks == SeatLocks(q.seats) + {KeyLock(q.caller.session, q.key)}
  }

  lemma SeatHeld(s: Sys, id: Id, q: Request)
    requires Arises(s) && AllTyped(s) && id in s.txs && s.txs[id].request == q && q.SeatsRequest? && q.seats != {}
    requires s.txs[id].pc.SSeats? && s.txs[id].pc.stale == [] && s.txs[id].pc.ids == []
    ensures AtSeat(s, id, q)
  {
    hide Arises, StaleOk, SettledRows, SettledParents, KeyUsed, SlotFree, NewRows, FoundSeats, Sorted, RowsInv, SysInv;
    ArisesInv(s);
    assert ParentLocks([]) == {};
  }

  // In a system of new events a hold on `seats`, made first.
  lemma OldHold(start: Sys, holder: Caller, event: Id, seats: set<Id>) returns (d: Sys, h: Id)
    requires Fresh(start.db) && start.txs == map[] && InEvent(start.db, event, seats) && seats != {}
    ensures Arises(d) && AllDone(d) && d.clock == start.clock && d.ttl == start.ttl && d.txs.Keys == {0}
    ensures OneHold(start.db, d.db, h, SeatsParent(holder, event, "old", start.clock + start.ttl), seats)
  {
    hide Arises, OneHold, InEvent;
    ArisesFresh(start);
    assert !KeyUsed(start.db, holder.session, "old") && NoRows(start.db);
    d, h := HoldsSeats(start, 0, SeatsRequest(holder, event, seats, "old"));
  }

  lemma HoldStands(db: Store, d: Store, h: Id, holder: Caller, event: Id, seats: set<Id>, deadline: int, q: Request)
    requires Fresh(db) && OneHold(db, d, h, SeatsParent(holder, event, "old", deadline), seats)
    requires InEvent(db, event, seats)
    requires q.SeatsRequest? && q.event == event && q.seats <= seats && q.seats != {} && q.caller.session != holder.session
    ensures HeldAgainst(d, h, q, deadline)
  {
    hide SeatOf;
  }

  // A request that expires the hold, on seat `x` among others, waits for its key.
  lemma Expiring(s: Sys, id: Id, h: Id, q: Request, deadline: int, x: Id)
    requires Arises(s) && AllTyped(s) && q.SeatsRequest? && HeldAgainst(s.db, h, q, deadline) && SeatOf(s.db, h, x)
    requires id in s.txs && s.txs[id].request == q && s.txs[id].pc.SInsert? && s.txs[id].pc.stale == [h]
    ensures Wanted(s.db, s.txs[id]) == RowOf(KeyLock(q.caller.session, q.key)) && InFlightSlot(s.db, s.txs[id].writes, x)
  {
    hide Arises, StaleOk, SettledParents, KeyUsed, SlotFree, NewRows, FoundSeats, Sorted, RowsInv, SysInv;
    ArisesInv(s);
    var i :| i in s.db.seatRows && s.db.seatRows[i].reservation == h && s.db.seatRows[i].seat == x;
    assert i in ExpiredRows(s.db, [h]);
    assert s.txs[id].writes.seatRows[i].seat == x;
  }

  // Any two seat requests of one caller under one key, for disjoint seats of any event, may come to wait for each
  // other: one, for whose clock reading an old hold still runs, has the key and waits for its seat, which the other
  // is expiring before it waits for the key.
  lemma SameKeyOtherSeat(db: Store, ttl: int, caller: Caller, event: Id, a: set<Id>, b: set<Id>, key: string)
      returns (s: Sys, path: seq<Id>)
    requires Fresh(db) && ttl > 0 && InEvent(db, event, a) && InEvent(db, event, b)
    requires a != {} && b != {} && a * b == {}
    ensures Arises(s) && AllTyped(s) && WaitCycle(s, path)
    ensures s.ttl == ttl && s.db.events == db.events && s.db.seats == db.seats
    ensures forall u :: u in s.txs && !s.txs[u].pc.Done? ==>
              s.txs[u].request == SeatsRequest(caller, event, a, key) || s.txs[u].request == SeatsRequest(caller, event, b, key)
  {
    hide Arises, HeldAgainst, Wanted, Typed, Fresh, AtSeat, AllTyped, SeatOf, AllDone, InEvent, WaitPath;
    var first, second := SeatsRequest(caller, event, a, key), SeatsRequest(caller, event, b, key);
    var m, h := BothHeld(db, ttl, first, second);
    var n := FirstComes(m, h, first, ttl);
    var o := Passes(n, ttl);
    StillWaits(n, o, first);
    s := SecondComes(o, h, first, second, ttl);
    path := [1, 2, 1];
  }

  // Transaction 0 is done, and the first request waits at its seat.
  ghost predicate FirstWaits(s: Sys, first: Request)
    requires first.SeatsRequest? && first.seats != {}
  {
    && Arises(s) && AtSeat(s, 1, first)
    && (forall u :: u in s.txs ==> u == 0 || u == 1) && 0 in s.txs && s.txs[0].pc.Done? && s.txs[0].locks == {}
  }

  lemma FirstComes(m: Sys, h: Id, first: Request, deadline: int) returns (n: Sys)
    requires Arises(m) && AllDone(m) && m.txs.Keys == {0} && m.clock < deadline
    requires first.SeatsRequest? && HeldAgainst(m.db, h, first, deadline)
    ensures first.seats != {} && FirstWaits(n, first) && n.db == m.db && n.clock == m.clock && n.ttl == m.ttl
  {
    assert first.seats != {};
    DoneIdle(m);
    OnlyFirst(m);
    hide Arises, HeldAgainst, AtSeat, AllTyped, AllDone;
    n := ToSeat(m, 1, h, first, deadline);
  }

  lemma OnlyFirst(m: Sys)
    requires AllDone(m) && m.txs.Keys == {0}
    ensures 0 in m.txs && 1 !in m.txs && m.txs[0].pc.Done? && forall u :: u in m.txs ==> u == 0
  {
  }

  lemma StillWaits(n: Sys, o: Sys, first: Request)
    requires first.SeatsRequest? && first.seats != {} && FirstWaits(n, first)
    requires Arises(o) && AllTyped(o) && o.db == n.db && o.txs == n.txs
    ensures FirstWaits(o, first)
  {
    hide Arises, Wanted, Typed, SeatLocks;
  }

  lemma SecondComes(n: Sys, h: Id, first: Request, second: Request, deadline: int) returns (s: Sys)
    requires first.SeatsRequest? && first.seats != {} && second.SeatsRequest? && FirstWaits(n, first) && n.clock >= deadline
    requires HeldAgainst(n.db, h, second, deadline) && SeatOf(n.db, h, FirstSeat(first))
    requires first.seats * second.seats == {} && first.caller == second.caller && first.key == second.key
    ensures Arises(s) && AllTyped(s) && WaitCycle(s, [1, 2, 1]) && s.db == n.db && s.ttl == n.ttl
    ensures forall u :: u in s.txs && !s.txs[u].pc.Done? ==> s.txs[u].request == first || s.txs[u].request == second
  {
    LocksApart(n, h, first, second);
    hide Arises, HeldAgainst, AllTyped, SeatOf, Wanted, WaitCycle, InFlightSlot, SeatLocks;
    s := ToParent(n, 2, h, second, deadline);
    Expiring(s, 2, h, second, deadline, FirstSeat(first));
    Facing(n, s, first, second);
    Only(n, s, first, second);
  }

  lemma Only(n: Sys, s: Sys, first: Request, second: Request)
    requires first.SeatsRequest? && first.seats != {} && FirstWaits(n, first)
    requires (forall u :: u in s.txs <==> u in n.txs || u == 2) && s.txs[2].request == second
    requires forall u :: u in n.txs ==> s.txs[u] == n.txs[u]
    ensures forall u :: u in s.txs && !s.txs[u].pc.Done? ==> s.txs[u].request == first || s.txs[u].request == second
  {
    hide Arises, AllTyped, Wanted, SeatLocks;
  }

  lemma BothHeld(db: Store, ttl: int, first: Request, second: Request) returns (m: Sys, h: Id)
    requires Fresh(db) && first.SeatsRequest? && second.SeatsRequest?
    requires first.event == second.event && first.caller == second.caller && first.seats != {} && second.seats != {}
    requires InEvent(db, first.event, first.seats) && InEvent(db, first.event, second.seats)
    ensures Arises(m) && AllDone(m) && m.clock == 0 && m.ttl == ttl && m.txs.Keys == {0}
    ensures HeldAgainst(m.db, h, first, ttl) && HeldAgainst(m.db, h, second, ttl) && SeatOf(m.db, h, FirstSeat(first))
    ensures m.db.events == db.events && m.db.seats == db.seats
  {
    var event, seats := first.event, first.seats + second.seats;
    assert InEvent(db, event, seats);
    hide Arises, HeldAgainst, OneHold, Fresh, SeatOf, InEvent;
    var holder := Caller(first.caller.session + 1, None);
    m, h := OldHold(Sys(db, map[], 0, ttl), holder, event, seats);
    HoldStands(db, m.db, h, holder, event, seats, ttl, first);
    HoldStands(db, m.db, h, holder, event, seats, ttl, second);
    SameSeats(db, m.db, h, holder, event, seats, ttl, FirstSeat(first));
  }

  lemma SameSeats(db: Store, d: Store, h: Id, holder: Caller, event: Id, seats: set<Id>, deadline: int, x: Id)
    requires OneHold(db, d, h, SeatsParent(holder, event, "old", deadline), seats)
    ensures d.events == db.events && d.seats == db.seats && (x in seats ==> SeatOf(d, h, x))
  {
    hide SeatOf;
  }

  lemma LocksApart(n: Sys, h: Id, first: Request, second: Request)
    requires first.SeatsRequest? && first.seats != {} && second.SeatsRequest? && FirstWaits(n, first)
    requires first.seats * second.seats == {}
    ensures forall u :: u in n.txs ==> ParentLock(h) !in n.txs[u].locks
    ensures forall u, x :: u in n.txs && x in second.seats ==> SeatLock(x) !in n.txs[u].locks
  {
    LocksOfSeats(first, second, h);
    hide Arises, AllTyped, Wanted, SeatLocks;
  }

  lemma LocksOfSeats(first: Request, second: Request, h: Id)
    requires first.SeatsRequest? && second.SeatsRequest? && first.seats * second.seats == {}
    ensures ParentLock(h) !in SeatLocks(first.seats)
    ensures forall x :: x in second.seats ==> SeatLock(x) !in SeatLocks(first.seats)
  {
    forall x | x in second.seats ensures SeatLock(x) !in SeatLocks(first.seats) {
      assert x !in first.seats * second.seats;
    }
  }

  lemma Facing(n: Sys, s: Sys, first: Request, second: Request)
    requires first.SeatsRequest? && first.seats != {} && AtSeat(n, 1, first) && second.SeatsRequest?
    requires AllTyped(s) && s.db == n.db && {1, 2} <= s.txs.Keys && s.txs[1] == n.txs[1]
    requires second.caller == first.caller && second.key == first.key
    requires Wanted(s.db, s.txs[2]) == RowOf(KeyLock(second.caller.session, second.key))
    requires InFlightSlot(s.db, s.txs[2].writes, FirstSeat(first))
    ensures WaitCycle(s, [1, 2, 1])
  {
    hide Wanted, Typed, InFlightSlot, Sorted;
    assert WaitsFor(s, 1, 2) && WaitsFor(s, 2, 1);
  }

  // ----- two batches over two ticket types -----

  function TypeOf(k: nat): Id {
    if k == 0 || k == 3 then 1 else 2
  }

  function KeyOf(k: nat): string {
    if k == 0 then "a" else if k == 1 then "b" else if k == 2 then "c" else "d"
  }

  // `n` quantity holds, made one instant after the other on the ticket types 1, 2, 2, 1.
  ghost predicate HoldsSoFar(db: Store, n: nat, r: seq<Id>, x: seq<Id>) {
    && |r| == n && |x| == n && (forall k, l :: 0 <= k < l < n ==> r[k] != r[l])
    && (forall q :: q in db.reservations <==> q in r)
    && (forall k :: 0 <= k < n ==>
          && db.reservations[r[k]] == QuantityParent(HOLDER, 0, KeyOf(k), 10 + k)
          && x[k] in db.items && db.items[x[k]].reservation == r[k] && db.items[x[k]].ticketType == TypeOf(k))
    && HasStock(db, 0, 1, 10 - n) && HasStock(db, 0, 2, 10 - n)
  }

  lemma KeyStillUnused(db: Store, n: nat, r: seq<Id>, x: seq<Id>)
    requires HoldsSoFar(db, n, r, x) && n < 4
    ensures !KeyUsed(db, 1, KeyOf(n)) && HasStock(db, 0, TypeOf(n), 1)
  {
    forall q | q in db.reservations ensures db.reservations[q].key != KeyOf(n) {
      var k :| 0 <= k < n && r[k] == q;
    }
  }

  lemma OneHoldMore(db: Store, n: nat, r: seq<Id>, x: seq<Id>, rid: Id, iid: Id)
    requires HoldsSoFar(db, n, r, x) && n < 4 && rid !in db.reservations && iid !in db.items
    ensures HoldsSoFar(WithQuantity(db, TypeOf(n), rid, QuantityParent(HOLDER, 0, KeyOf(n), n + 10), iid, 1),
                       n + 1, r + [rid], x + [iid])
  {
    hide KeyOf;
    assert forall k :: 0 <= k < n ==> r[k] in r;
  }

  ghost predicate Holding(s: Sys, n: nat, r: seq<Id>, x: seq<Id>) {
    && Arises(s) && AllDone(s) && s.clock == n && s.ttl == 10 && (forall id :: id in s.txs ==> id < n)
    && HoldsSoFar(s.db, n, r, x)
  }

  lemma NextHold(s: Sys, n: nat, r: seq<Id>, x: seq<Id>) returns (d: Sys, r': seq<Id>, x': seq<Id>)
    requires Holding(s, n, r, x) && n < 4
    ensures Holding(d, n + 1, r', x')
  {
    hide Arises, KeyUsed, HoldsSoFar, WithQuantity, HasStock, AllTyped;
    var request := QuantityRequest(HOLDER, 0, TypeOf(n), 1, KeyOf(n));
    KeyStillUnused(s.db, n, r, x);
    var a, rid, iid := HoldsQuantity(s, n, request);
    OneHoldMore(s.db, n, r, x, rid, iid);
    d := Passes(a, 1);
    r', x' := r + [rid], x + [iid];
  }

  lemma {:induction false} Holds(n: nat) returns (s: Sys, r: seq<Id>, x: seq<Id>)
    requires n <= 4
    ensures Holding(s, n, r, x)
  {
    if n == 0 {
      Starts();
      hide Arises;
      s, r, x := START, [], [];
    } else {
      var m, q, y := Holds(n - 1);
      s, r, x := NextHold(m, n - 1, q, y);
    }
  }

  lemma InDeadlineOrder(column: map<Id, int>, r: seq<Id>)
    requires |r| == 4 && (forall k, l :: 0 <= k < l < 4 ==> r[k] != r[l]) && forall q :: q in column <==> q in r
    requires forall k :: 0 <= k < 4 ==> r[k] in column && column[r[k]] == 10 + k
    ensures Ordered(column) == r
  {
    hide Ordered;
    OrderedUnique(column, Ordered(column), r);
  }

  lemma AllCandidates(db: Store, r: seq<Id>, x: seq<Id>, now: int)
    requires HoldsSoFar(db, 4, r, x) && now > 13
    ensures Ordered(StaleColumn(db, now, None)) == r
    ensures forall k :: 0 <= k < 4 ==> r[k] in db.reservations && StaleReservation(db.reservations[r[k]], now)
  {
    hide Ordered, HasStock, KeyOf;
    var column := StaleColumn(db, now, None);
    assert forall k :: 0 <= k < 4 ==> r[k] in r;
    forall q ensures q in column <==> q in r {
      if q in r { var k :| 0 <= k < 4 && r[k] == q; }
    }
    InDeadlineOrder(column, r);
  }

  const BATCH := BatchRequest(2, None, None)

  // A batch on its way through the candidates.
  ghost predicate Scanning(s: Sys, id: Id, candidates: seq<Id>, got: seq<Id>) {
    && Arises(s) && AllTyped(s) && id in s.txs && s.txs[id].request == BATCH
    && s.txs[id].pc == BScan(s.clock, candidates, got)
  }

  lemma Takes(s: Sys, id: Id, candidates: seq<Id>, got: seq<Id>) returns (d: Sys)
    requires Scanning(s, id, candidates, got) && candidates != [] && |got| < 2 && ParentLock(candidates[0]) !in Taken(s, id)
    requires candidates[0] in s.db.reservations && StaleReservation(s.db.reservations[candidates[0]], s.clock)
    ensures Beside(s, d, id) && Scanning(d, id, candidates[1..], got + [candidates[0]])
  {
    hide Arises, AllTyped, Taken, StaleReservation;
    d := Scans(s, id);
  }

  lemma SkipsOver(s: Sys, id: Id, candidates: seq<Id>, got: seq<Id>) returns (d: Sys)
    requires Scanning(s, id, candidates, got) && candidates != [] && |got| < 2 && ParentLock(candidates[0]) in Taken(s, id)
    ensures Beside(s, d, id) && Scanning(d, id, candidates[1..], got)
  {
    hide Arises, AllTyped, Taken, StaleReservation;
    d := Scans(s, id);
  }

  // A batch has picked `rows` and settled none of them yet.
  ghost predicate Picked(s: Sys, id: Id, rows: seq<Id>) {
    && Arises(s) && AllTyped(s) && id in s.txs && s.txs[id].request == BATCH && s.txs[id].pc.Rows?
    && s.txs[id].pc.rows == rows && s.txs[id].pc.n == 0 && s.txs[id].pc.todo == [] && s.txs[id].writes == NO_WRITES
    && s.txs[id].locks == ParentLocks(rows)
  }

  lemma Closes(s: Sys, id: Id, candidates: seq<Id>, got: seq<Id>) returns (d: Sys)
    requires Scanning(s, id, candidates, got) && |got| == 2
    ensures Beside(s, d, id) && Picked(d, id, got)
  {
    hide Arises, AllTyped, Taken, StaleReservation, SysInv, ParentLocks, AllStale;
    ArisesInv(s);
    d := Scans(s, id);
  }

  ghost predicate StaleRows(s: Sys, r: seq<Id>) {
    && Ordered(StaleColumn(s.db, s.clock, None)) == r
    && (forall k :: 0 <= k < |r| ==> r[k] in s.db.reservations && StaleReservation(s.db.reservations[r[k]], s.clock))
    && (forall k, l :: 0 <= k < l < |r| ==> r[k] != r[l])
  }

  lemma TakesTwo(s: Sys, id: Id, r: seq<Id>) returns (d: Sys)
    requires Scanning(s, id, r, []) && |r| >= 2
    requires forall k :: 0 <= k < 2 ==> r[k] in s.db.reservations && StaleReservation(s.db.reservations[r[k]], s.clock)
    requires ParentLock(r[0]) !in Taken(s, id) && ParentLock(r[1]) !in Taken(s, id)
    ensures Beside(s, d, id) && Picked(d, id, r[..2])
  {
    hide Arises, AllTyped, Taken, StaleReservation, Picked, Scanning;
    var a := Takes(s, id, r, []);
    BesideTaken(s, a, id);
    var b := Takes(a, id, r[1..], [] + [r[0]]);
    assert ([] + [r[0]]) + [r[1..][0]] == r[..2];
    d := Closes(b, id, r[1..][1..], r[..2]);
    BesideBoth(s, a, b, id);
    BesideBoth(s, b, d, id);
  }

  // A batch that meets no locked reservation takes the first two candidates.
  lemma FirstPicks(s: Sys, id: Id, r: seq<Id>) returns (d: Sys)
    requires Arises(s) && id !in s.txs && |r| >= 2 && StaleRows(s, r)
    requires forall u, q :: u in s.txs && q in r ==> ParentLock(q) !in s.txs[u].locks
    ensures Picked(d, id, r[..2]) && d.db == s.db && d.clock == s.clock && d.txs.Keys == s.txs.Keys + {id}
    ensures forall u :: u in s.txs ==> d.txs[u] == s.txs[u]
  {
    hide Arises, Ordered, StaleColumn, IsOrdered, AllTyped, StaleReservation, Picked;
    var a := Begins(s, id, BATCH);
    assert r[0] in r && r[1] in r;
    assert ParentLock(r[0]) !in Taken(a, id) && ParentLock(r[1]) !in Taken(a, id);
    hide Taken;
    var b := ToScan(a, id);
    BesideTaken(a, b, id);
    d := TakesTwo(b, id, r);
  }

  // Only `other` is unfinished beside `id`.
  lemma TakenBy(s: Sys, id: Id, other: Id)
    requires Arises(s) && other in s.txs && other != id
    requires forall u :: u in s.txs && u != id && u != other ==> s.txs[u].pc.Done?
    ensures Taken(s, id) == s.txs[other].locks
  {
    hide Arises, SysInv, RowsInv, QuantityInv, SeatsInv, OwnedInv, BatchInv;
    ArisesInv(s);
    assert forall u :: u in s.txs && u != id && u != other ==> s.txs[u].locks == {};
  }

  lemma SkipsTwo(s: Sys, id: Id, r: seq<Id>) returns (d: Sys)
    requires Scanning(s, id, r, []) && |r| >= 2
    requires ParentLock(r[0]) in Taken(s, id) && ParentLock(r[1]) in Taken(s, id)
    ensures Beside(s, d, id) && Scanning(d, id, r[2..], [])
  {
    hide Arises, AllTyped, Taken, Scanning;
    var a := SkipsOver(s, id, r, []);
    BesideTaken(s, a, id);
    d := SkipsOver(a, id, r[1..], []);
    assert r[1..][1..] == r[2..];
    BesideBoth(s, a, d, id);
  }

  // The second batch passes over the rows of the first and takes the next two.
  lemma SecondPicks(s: Sys, first: Id, id: Id, r: seq<Id>) returns (d: Sys)
    requires |r| == 4 && StaleRows(s, r) && Picked(s, first, r[..2]) && id !in s.txs
    requires forall u :: u in s.txs && u != first ==> s.txs[u].pc.Done?
    ensures Picked(d, id, r[2..]) && d.db == s.db && d.clock == s.clock && d.txs.Keys == s.txs.Keys + {id}
    ensures forall u :: u in s.txs ==> d.txs[u] == s.txs[u]
  {
    hide Arises, Ordered, StaleColumn, IsOrdered, AllTyped, Taken, StaleReservation, ParentLocks;
    LockedRows(r);
    var a := Begins(s, id, BATCH);
    TakenBy(a, id, first);
    hide Picked;
    var b := ToScan(a, id);
    BesideTaken(a, b, id);
    var c := SkipsTwo(b, id, r);
    BesideTaken(b, c, id);
    BesideBoth(a, b, c, id);
    d := TakesTwo(c, id, r[2..]);
    assert r[2..][..2] == r[2..];
    BesideBoth(a, c, d, id);
  }

  lemma LockedRows(r: seq<Id>)
    requires |r| == 4 && (forall k, l :: 0 <= k < l < 4 ==> r[k] != r[l])
    ensures ParentLock(r[0]) in ParentLocks(r[..2]) && ParentLock(r[1]) in ParentLocks(r[..2])
    ensures ParentLock(r[2]) !in ParentLocks(r[..2]) && ParentLock(r[3]) !in ParentLocks(r[..2])
  {
    assert r[..2] == [r[0], r[1]];
  }

  // `x` is the item of quantity reservation `r`.
  ghost predicate ItemOf(db: Store, r: Id, x: Id) {
    r in db.reservations && db.reservations[r].kind.Quantity? && x in db.items && db.items[x].reservation == r
  }

  // Having settled its first row, a batch of two waits for the ticket type of the second.
  lemma HalfDone(s: Sys, id: Id, rows: seq<Id>, x: Id, y: Id) returns (d: Sys)
    requires Picked(s, id, rows) && |rows| == 2 && ItemOf(s.db, rows[0], x) && ItemOf(s.db, rows[1], y)
    requires TypeLock(s.db.items[x].ticketType) !in Taken(s, id)
    ensures Beside(s, d, id) && d.txs[id].pc.Rows? && d.txs[id].pc.rows == rows
    ensures Wanted(d.db, d.txs[id]) == RowOf(TypeLock(s.db.items[y].ticketType))
    ensures d.txs[id].locks == ParentLocks(rows) + {TypeLock(s.db.items[x].ticketType)}
  {
    hide Arises, AllTyped, Taken, ParentLocks, Wanted, RowsInv, Inv;
    var a := RowOpens(s, id);
    BesideTaken(s, a, id);
    var b := ItemMoves(a, id, x);
    BesideTaken(a, b, id);
    d := RowOpens(b, id);
    BesideBoth(s, a, b, id);
    BesideBoth(s, b, d, id);
    RowsKnown(d, id);
    WantsType(d.db, d.txs[id], y);
  }

  // Two batches that each picked items of two ticket types, in opposite orders.
  lemma TwoMixedBatches() returns (s: Sys, path: seq<Id>)
    ensures Arises(s) && AllTyped(s) && WaitCycle(s, path)
    ensures forall u :: u in s.txs && !s.txs[u].pc.Done? ==> s.txs[u].request == BATCH
  {
    hide Arises, AllTyped, Taken, HoldsSoFar, StaleRows, Picked, HasStock, Wanted;
    var m, r, x := Holds(4);
    var n := Passes(m, 10);
    HoldsAre(n.db, n, r, x);
    DoneIdle(n);
    var a := FirstPicks(n, 5, r);
    StaleRowsStay(n, a, r);
    var b := SecondPicks(a, 5, 6, r);
    PickedArises(b, 6, r[2..]);
    SamePicked(a, b, 5, r[..2]);
    TakenBy(b, 5, 6);
    NoTypes(b, 6, r[2..]);
    var c := HalfDone(b, 5, r[..2], x[0], x[1]);
    SamePicked(b, c, 6, r[2..]);
    TakenBy(c, 6, 5);
    NoTypes(b, 5, r[..2]);
    s := HalfDone(c, 6, r[2..], x[2], x[3]);
    path := [5, 6, 5];
    Crossed(s, 5, 6);
  }

  lemma Crossed(s: Sys, a: Id, b: Id)
    requires AllTyped(s) && a in s.txs && b in s.txs && a != b
    requires Wanted(s.db, s.txs[a]) == RowOf(TypeLock(2)) && TypeLock(2) in s.txs[b].locks
    requires Wanted(s.db, s.txs[b]) == RowOf(TypeLock(1)) && TypeLock(1) in s.txs[a].locks
    ensures WaitCycle(s, [a, b, a])
  {
    hide Wanted, Typed;
    assert WaitsFor(s, a, b) && WaitsFor(s, b, a);
  }

  lemma PickedArises(s: Sys, id: Id, rows: seq<Id>)
    requires Picked(s, id, rows)
    ensures Arises(s) && AllTyped(s)
  {
  }

  lemma SamePicked(s: Sys, d: Sys, id: Id, rows: seq<Id>)
    requires Picked(s, id, rows) && Arises(d) && AllTyped(d) && id in d.txs && d.txs[id] == s.txs[id]
    ensures Picked(d, id, rows)
  {
  }

  lemma NoTypes(s: Sys, id: Id, rows: seq<Id>)
    requires Picked(s, id, rows)
    ensures forall t :: TypeLock(t) !in s.txs[id].locks
    ensures forall t :: TypeLock(t) !in ParentLocks(rows)
  {
  }

  lemma HoldsAre(db: Store, s: Sys, r: seq<Id>, x: seq<Id>)
    requires s.db == db && HoldsSoFar(db, 4, r, x) && s.clock > 13
    ensures |r| == 4 && |x| == 4 && StaleRows(s, r)
    ensures forall k :: 0 <= k < 4 ==> ItemOf(db, r[k], x[k]) && db.items[x[k]].ticketType == TypeOf(k)
  {
    hide StaleColumn, StaleReservation, Ordered, HasStock, KeyOf;
    AllCandidates(db, r, x, s.clock);
    assert forall k :: 0 <= k < 4 ==> r[k] in r;
  }

  lemma StaleRowsStay(s: Sys, d: Sys, r: seq<Id>)
    requires StaleRows(s, r) && d.db == s.db && d.clock == s.clock
    ensures StaleRows(d, r)
  {
  }

  // ----- a quantity and a seat request under one key -----

  const SEAT_ASKED := SeatsRequest(VISITOR, 0, {1}, "k")

  // The seat hold `h` of somebody else and a quantity hold `q` with its item `i`, running out at 10 and 11.
  ghost predicate SeatAndQuantity(db: Store, h: Id, q: Id, i: Id) {
    && HeldAgainst(db, h, SEAT_ASKED, 10) && q != h && (forall r :: r in db.reservations ==> r == h || r == q)
    && q in db.reservations && db.reservations[q] == QuantityParent(HOLDER, 0, "more", 11)
    && (forall x :: x in db.items <==> x == i) && db.items[i].reservation == q && db.items[i].ticketType == 1
    && HasStock(db, 0, 1, 9)
  }

  lemma BothHolds() returns (s: Sys, h: Id, q: Id, i: Id)
    ensures Arises(s) && AllDone(s) && s.clock == 5 && s.txs.Keys == {0, 1} && SeatAndQuantity(s.db, h, q, i)
  {
    hide Arises, AllTyped, SeatAndQuantity, OldOnly, WithQuantity, HasStock;
    var m, r := FirstHold();
    h := r;
    var n := Passes(m, 1);
    MoreUnused(n.db, h);
    var a, rid, iid := HoldsQuantity(n, 1, QuantityRequest(HOLDER, 0, 1, 1, "more"));
    q, i := rid, iid;
    HeldStill(n.db, h, q, i);
    s := Passes(a, 4);
  }

  ghost predicate OldOnly(db: Store, h: Id) {
    && HeldAgainst(db, h, SEAT_ASKED, 10) && h in db.reservations && db.reservations[h].key == "old" && (forall r :: r in db.reservations ==> r == h)
    && db.ticketTypes == NEW_EVENT.ticketTypes && db.items == map[]
  }

  lemma FirstHold() returns (m: Sys, h: Id)
    ensures Arises(m) && AllDone(m) && m.clock == 0 && m.ttl == 10 && m.txs.Keys == {0} && OldOnly(m.db, h)
  {
    hide Arises, OneHold, HeldAgainst;
    Starts();
    m, h := OldHold(START, HOLDER, 0, {1});
    HoldStands(START.db, m.db, h, HOLDER, 0, {1}, 10, SEAT_ASKED);
    HoldIsOnly(m.db, h);
  }

  lemma HoldIsOnly(db: Store, h: Id)
    requires OneHold(NEW_EVENT, db, h, SeatsParent(HOLDER, 0, "old", 10), {1})
    ensures h in db.reservations && db.reservations[h].key == "old" && (forall r :: r in db.reservations ==> r == h)
    ensures db.ticketTypes == NEW_EVENT.ticketTypes && db.items == map[]
  {
    hide SeatOf;
  }

  lemma MoreUnused(db: Store, h: Id)
    requires OldOnly(db, h)
    ensures !KeyUsed(db, 1, "more") && HasStock(db, 0, 1, 1)
  {
    hide HeldAgainst;
  }

  lemma StillHeld(db: Store, h: Id, q: Id, i: Id)
    requires HeldAgainst(db, h, SEAT_ASKED, 10) && 1 in db.ticketTypes && q !in db.reservations
    ensures HeldAgainst(WithQuantity(db, 1, q, QuantityParent(HOLDER, 0, "more", 11), i, 1), h, SEAT_ASKED, 10)
  {
    var d := WithQuantity(db, 1, q, QuantityParent(HOLDER, 0, "more", 11), i, 1);
    assert SeatOf(db, h, 1);
    assert d.seatRows == db.seatRows;
  }

  lemma HeldStill(db: Store, h: Id, q: Id, i: Id)
    requires OldOnly(db, h) && q !in db.reservations
    ensures SeatAndQuantity(WithQuantity(db, 1, q, QuantityParent(HOLDER, 0, "more", 11), i, 1), h, q, i)
  {
    StillHeld(db, h, q, i);
    hide HeldAgainst;
  }

  lemma HoldAndItemStale(s: Sys, h: Id, q: Id, i: Id)
    requires SeatAndQuantity(s.db, h, q, i) && s.clock == 20
    ensures StaleRows(s, [h, q]) && ItemOf(s.db, q, i)
    ensures s.db.reservations[h].kind.Seats? && SeatOf(s.db, h, 1)
  {
    hide Ordered;
    var column := StaleColumn(s.db, s.clock, None);
    assert forall r :: r in column <==> r in [h, q];
    assert column[h] == 10 && column[q] == 11;
    OrderedUnique(column, Ordered(column), [h, q]);
  }

  // Having expired the seat hold, the batch waits for the ticket type of the quantity hold.
  lemma SeatExpired(s: Sys, id: Id, h: Id, q: Id, i: Id) returns (d: Sys)
    requires Picked(s, id, [h, q]) && SeatAndQuantity(s.db, h, q, i) && s.clock == 20
    ensures Beside(s, d, id) && d.txs[id].request == BATCH && d.txs[id].pc.Rows? && d.txs[id].pc.rows == [h, q]
    ensures Wanted(d.db, d.txs[id]) == RowOf(TypeLock(1)) && InFlightSlot(d.db, d.txs[id].writes, 1)
    ensures forall t :: TypeLock(t) !in d.txs[id].locks
  {
    hide Arises, AllTyped, Taken, Wanted, RowsInv, Inv, HasStock, Ordered, StaleColumn;
    HoldAndItemStale(s, h, q, i);
    var a := SeatsMove(s, id);
    d := RowOpens(a, id);
    BesideBoth(s, a, d, id);
    RowsKnown(d, id);
    WantsType(d.db, d.txs[id], i);
    var j :| j in s.db.seatRows && s.db.seatRows[j].reservation == h && s.db.seatRows[j].seat == 1;
    assert j in d.txs[id].writes.seatRows && d.txs[id].writes.seatRows[j].seat == 1;
  }

  // A quantity request of the visitor under the key "k" has reserved its stock and waits for the key.
  lemma StockTaken(s: Sys, id: Id, h: Id, q: Id, i: Id) returns (d: Sys)
    requires Arises(s) && id !in s.txs && SeatAndQuantity(s.db, h, q, i)
    requires forall u :: u in s.txs ==> TypeLock(1) !in s.txs[u].locks
    ensures Arises(d) && AllTyped(d) && d.db == s.db && d.txs.Keys == s.txs.Keys + {id}
    ensures forall u :: u in s.txs ==> d.txs[u] == s.txs[u]
    ensures d.txs[id].request.QuantityRequest?
    ensures TypeLock(1) in d.txs[id].locks && Wanted(d.db, d.txs[id]) == RowOf(KeyLock(3, "k"))
  {
    hide Arises, AllTyped, StockReady, SeatAndQuantity;
    var request := QuantityRequest(VISITOR, 0, 1, 1, "k");
    var a := Begins(s, id, request);
    CanTakeStock(s, a, id, h, q, i);
    d := ToKey(a, id);
    KeyWanted(d, id);
  }

  lemma CanTakeStock(s: Sys, a: Sys, id: Id, h: Id, q: Id, i: Id)
    requires Arises(s) && SeatAndQuantity(s.db, h, q, i) && a.db == s.db && id in a.txs
    requires a.txs[id].request == QuantityRequest(VISITOR, 0, 1, 1, "k")
    requires forall u :: u in a.txs && u != id ==> TypeLock(1) !in a.txs[u].locks
    ensures StockReady(a, id)
  {
    hide Arises, AllTyped, HasStock, Inv, QuantityLookup, SeatAndQuantity, KeyUsed, SysInv;
    ArisesInv(s);
    InvOf(s);
    InvParts(s.db);
    StockOfOne(s.db, h, q, i);
    QuantityMissing(s.db, a.txs[id].request);
  }

  lemma StockOfOne(db: Store, h: Id, q: Id, i: Id)
    requires SeatAndQuantity(db, h, q, i)
    ensures !KeyUsed(db, 3, "k") && HasStock(db, 0, 1, 1)
  {
  }

  lemma KeyWanted(s: Sys, id: Id)
    requires Arises(s) && AllTyped(s) && id in s.txs && s.txs[id].pc.QInsert?
    requires s.txs[id].request == QuantityRequest(VISITOR, 0, 1, 1, "k")
    ensures TypeLock(1) in s.txs[id].locks && Wanted(s.db, s.txs[id]) == RowOf(KeyLock(3, "k"))
  {
    hide Arises, SysInv, RowsInv, SeatsInv, OwnedInv, BatchInv, HasStock;
    ArisesInv(s);
  }

  // A quantity and a seat request under one key, with one batch: the seat request has the key and waits for
  // the seat the batch is expiring, the batch for the ticket type the quantity request has reserved from,
  // and that one for the key.
  lemma KeyAcrossKinds() returns (s: Sys, path: seq<Id>)
    ensures Arises(s) && AllTyped(s) && WaitCycle(s, path)
    ensures (exists u :: Blended(s, u)) && forall u :: !Mixed(s, u)
  {
    hide Arises, AllTyped, HeldAgainst, HasStock, Wanted, InFlightSlot, AtSeat, StaleRows, Picked, TypeOfRows;
    var m, h, q, i := BothHolds();
    DoneIdle(m);
    var n := ToSeat(m, 2, h, SEAT_ASKED, 10);
    SeatLocksAre(n, 2);
    var a := Passes(n, 15);
    HoldAndItemStale(a, h, q, i);
    var b := FirstPicks(a, 3, [h, q]);
    assert [h, q][..2] == [h, q];
    var c := SeatExpired(b, 3, h, q, i);
    s := StockTaken(c, 4, h, q, i);
    path := [2, 3, 4, 2];
    Triangle(n, s);
    SoleItemType(s.db, h, q, i);
    BothKinds(s, 3, h, q, i);
  }

  lemma SeatLocksAre(s: Sys, id: Id)
    requires AtSeat(s, id, SEAT_ASKED)
    ensures s.txs[id].locks == {SeatLock(1), KeyLock(3, "k")}
  {
  }

  lemma Triangle(n: Sys, s: Sys)
    requires AtSeat(n, 2, SEAT_ASKED) && AllTyped(s) && s.db == n.db && {2, 3, 4} <= s.txs.Keys && s.txs[2] == n.txs[2]
    requires Wanted(s.db, s.txs[3]) == RowOf(TypeLock(1)) && InFlightSlot(s.db, s.txs[3].writes, 1)
    requires Wanted(s.db, s.txs[4]) == RowOf(KeyLock(3, "k")) && TypeLock(1) in s.txs[4].locks
    ensures WaitCycle(s, [2, 3, 4, 2])
  {
    hide Wanted, Typed, InFlightSlot;
    assert WaitsFor(s, 2, 3) && WaitsFor(s, 3, 4) && WaitsFor(s, 4, 2);
  }

  lemma BothKinds(s: Sys, id: Id, h: Id, q: Id, i: Id)
    requires SeatAndQuantity(s.db, h, q, i) && id in s.txs
    requires s.txs[id].request == BATCH && s.txs[id].pc.Rows? && s.txs[id].pc.rows == [h, q]
    ensures Blended(s, id)
  {
    hide HasStock;
    assert h in [h, q] && q in [h, q];
  }

  lemma SoleItemType(db: Store, h: Id, q: Id, i: Id)
    requires SeatAndQuantity(db, h, q, i)
    ensures forall rows, t :: TypeOfRows(db, rows, t) ==> t == 1
  {
  }
}
