/** Any number of transactions, one statement at a time, under READ COMMITTED.

    A statement sees the last committed store overlaid with its own transaction's writes. Row locks and
    unique-index entries are held until commit, rollback or, for a batch, rollback to the row's savepoint.
    A statement that needs a lock another transaction holds does not run; FOR UPDATE SKIP LOCKED passes
    over such rows. The uncommitted writes of a transaction are invisible to all others. */
module Concurrent {
  import opened Tables
  import opened Ordering
  import opened Spec
  import opened Operations

  datatype Lock =
    | TypeLock(t: Id)
    | SeatLock(s: Id)
    | ParentLock(r: Id)
    | KeyLock(session: Id, key: string)   // the entry in the unique index on (session, key)

  datatype Writes = Writes(
    ticketTypes: map<Id, TicketType>,
    reservations: map<Id, Reservation>,
    items: map<Id, Item>,
    seatRows: map<Id, SeatRow>)

  const NO_WRITES := Writes(map[], map[], map[], map[])

  function Overlay(db: Store, w: Writes): Store {
    Store(db.events, db.ticketTypes + w.ticketTypes, db.seats, db.reservations + w.reservations,
          db.items + w.items, db.seatRows + w.seatRows)
  }

  datatype Request =
    | QuantityRequest(caller: Caller, event: Id, ticketType: Id, quantity: int, key: string)
    | SeatsRequest(caller: Caller, event: Id, seats: set<Id>, key: string)
    | LifecycleRequest(id: Id, caller: Caller, target: Status)
    | BatchRequest(size: nat, at: Option<int>, only: Option<set<Id>>)

  // Where a transaction stands: the statement it runs next, with the local variables it has filled.
  datatype Pc =
    | QLookup | QStock | QClock | QInsert(now: int) | QItem(now: int, rid: Id) | QReplay
    | SLookup | SLock(n: nat) | SClock | SRead(now: int)
    | SParents(now: int, stale: seq<Id>, n: nat)
    | SExpireRows(now: int, stale: seq<Id>) | SExpireParents(now: int, stale: seq<Id>)
    | SInsert(now: int, stale: seq<Id>)
    | SSeats(now: int, stale: seq<Id>, rid: Id, ids: seq<Id>)
    | SReplay
    | LLock | LCheck
    | BClock | BSelect(now: int) | BScan(now: int, candidates: seq<Id>, got: seq<Id>)
    | Rows(rows: seq<Id>, target: Status, now: int, n: nat, todo: seq<Id>,
           saved: Writes, savedLocks: set<Lock>, count: nat)
    | Done(outcome: Outcome)

  // `began` is what the clock showed when the request came in; no statement looks at it.
  datatype Tx = Tx(request: Request, pc: Pc, writes: Writes, locks: set<Lock>, began: int)

  // `clock` is the monotone wall clock, `ttl` the configured lifetime of a hold.
  datatype Sys = Sys(db: Store, txs: map<Id, Tx>, clock: int, ttl: int)

  predicate Typed(tx: Tx) {
    && (tx.pc.QLookup? || tx.pc.QStock? || tx.pc.QClock? || tx.pc.QInsert? || tx.pc.QItem? || tx.pc.QReplay?
        ==> tx.request.QuantityRequest?)
    && (tx.pc.SLookup? || tx.pc.SLock? || tx.pc.SClock? || tx.pc.SRead? || tx.pc.SParents? || tx.pc.SExpireRows?
        || tx.pc.SExpireParents? || tx.pc.SInsert? || tx.pc.SSeats? || tx.pc.SReplay?
        ==> tx.request.SeatsRequest?)
    && (tx.pc.LLock? || tx.pc.LCheck? ==> tx.request.LifecycleRequest?)
    && (tx.pc.BClock? || tx.pc.BSelect? || tx.pc.BScan? ==> tx.request.BatchRequest?)
    && (tx.pc.Rows? ==> tx.request.LifecycleRequest? || tx.request.BatchRequest?)
    && (tx.pc.SSeats? ==> |tx.pc.ids| <= |tx.request.seats|)
  }

  function FirstPc(request: Request): Pc {
    match request
    case QuantityRequest(_, _, _, _, _) => QLookup
    case SeatsRequest(_, _, _, _) => SLookup
    case LifecycleRequest(_, _, _) => LLock
    case BatchRequest(_, _, _) => BClock
  }

  // What the request schema admits.
  predicate ValidRequest(request: Request) {
    && (request.QuantityRequest? ==> request.quantity > 0)
    && (request.SeatsRequest? ==> request.seats != {})
    && (request.LifecycleRequest? ==> request.target.Cancelled? || request.target.Confirmed?)
  }

  // ----- one statement of one transaction -----

  datatype Next =
    | Going(tx: Tx)
    | Committed(writes: Writes, outcome: Outcome)
    | Over(outcome: Outcome)                       // rolled back, or nothing to commit

  function RolledBack(tx: Tx, pc: Pc): Tx {
    tx.(pc := pc, writes := NO_WRITES, locks := {})
  }

  function AdvanceQuantity(db: Store, clock: int, ttl: int, tx: Tx, uid: Id): Next
    requires Typed(tx) && tx.request.QuantityRequest? && !tx.pc.Done?
  {
    var q := tx.request;
    match tx.pc
    case QLookup =>
      if QuantityLookup(db, q.caller.session, q.key).Missing? then Going(tx.(pc := QStock))
      else Over(QuantityReplay(db, q.caller.session, q.key))
    case QStock =>
      if HasStock(db, q.event, q.ticketType, q.quantity) then
        Going(tx.(pc := QClock, locks := tx.locks + {TypeLock(q.ticketType)},
                  writes := tx.writes.(ticketTypes :=
                    tx.writes.ticketTypes[q.ticketType := Hold(db.ticketTypes[q.ticketType], q.quantity)])))
      else
        Going(RolledBack(tx, QReplay))
    case QClock => Going(tx.(pc := QInsert(clock)))
    case QInsert(now) =>
      if KeyUsed(db, q.caller.session, q.key) then
        Going(RolledBack(tx, QReplay))
      else
        Going(tx.(pc := QItem(now, uid), locks := tx.locks + {KeyLock(q.caller.session, q.key)},
                  writes := tx.writes.(reservations :=
                    tx.writes.reservations[uid := QuantityParent(q.caller, q.event, q.key, now + ttl)])))
    case QItem(now, rid) =>
      Committed(tx.writes.(items := tx.writes.items[uid := Item(rid, q.ticketType, q.quantity, Reserved)]),
                Made(QuantityResponse(rid, Reserved, now + ttl, q.ticketType, q.quantity)))
    case _ => Over(QuantityReplay(db, q.caller.session, q.key))
  }

  function AdvanceSeats(db: Store, clock: int, ttl: int, tx: Tx, uid: Id): Next
    requires Typed(tx) && tx.request.SeatsRequest? && !tx.pc.Done?
  {
    var q := tx.request;
    match tx.pc
    case SLookup =>
      if SeatsLookup(db, q.caller.session, q.key).Missing? then Going(tx.(pc := SLock(0)))
      else Over(SeatsReplay(db, q.caller.session, q.key))
    case SLock(n) =>
      var found := FoundSeats(db, q.event, q.seats);
      if n < |found| then Going(tx.(pc := SLock(n + 1), locks := tx.locks + {SeatLock(found[n])}))
      else if found != Sorted(q.seats) then Over(Failed(SeatsNotFound))
      else Going(tx.(pc := SClock))
    case SClock => Going(tx.(pc := SRead(clock)))
    case SRead(now) => Going(tx.(pc := SParents(now, Sorted(StaleHolders(db, q.seats, now)), 0)))
    case SParents(now, stale, n) =>
      if n < |stale| then Going(tx.(pc := SParents(now, stale, n + 1), locks := tx.locks + {ParentLock(stale[n])}))
      else Going(tx.(pc := SExpireRows(now, stale)))
    case SExpireRows(now, stale) =>
      Going(tx.(pc := SExpireParents(now, stale),
                writes := tx.writes.(seatRows := tx.writes.seatRows + SettledRows(db, SetOf(stale), Expired))))
    case SExpireParents(now, stale) =>
      Going(tx.(pc := SInsert(now, stale),
                writes := tx.writes.(reservations :=
                  tx.writes.reservations + SettledParents(db, SetOf(stale), Expired))))
    case SInsert(now, stale) =>
      if KeyUsed(db, q.caller.session, q.key) then
        Going(RolledBack(tx, SReplay))
      else
        Going(tx.(pc := SSeats(now, stale, uid, []), locks := tx.locks + {KeyLock(q.caller.session, q.key)},
                  writes := tx.writes.(reservations :=
                    tx.writes.reservations[uid := SeatsParent(q.caller, q.event, q.key, now + ttl)])))
    case SSeats(now, stale, rid, ids) =>
      var ordered := Sorted(q.seats);
      if |ids| < |ordered| then
        if Occupied(Overlay(db, tx.writes), ordered[|ids|]) then
          Going(RolledBack(tx, SReplay))
        else
          Going(tx.(pc := SSeats(now, stale, rid, ids + [uid]),
                    writes := tx.writes.(seatRows :=
                      tx.writes.seatRows[uid := SeatRow(rid, ordered[|ids|], Reserved, now + ttl)])))
      else
        Committed(tx.writes, Made(SeatsResponse(rid, Reserved, now + ttl, ordered)))
    case _ => Over(SeatsReplay(db, q.caller.session, q.key))
  }

  function AdvanceOwned(db: Store, clock: int, tx: Tx): Next
    requires tx.request.LifecycleRequest? && (tx.pc.LLock? || tx.pc.LCheck?)
  {
    var q := tx.request;
    if q.id !in db.reservations || !Owns(db.reservations[q.id], q.caller) then
      Over(Failed(NotFound))
    else if tx.pc.LLock? then
      Going(tx.(pc := LCheck, locks := tx.locks + {ParentLock(q.id)}))
    else if db.reservations[q.id].status == q.target then
      Over(Replayed(DetailOf(db, q.id)))
    else if !db.reservations[q.id].status.Reserved? then
      Over(Failed(TransitionConflict))
    else
      var target := if db.reservations[q.id].expiresAt < clock then Expired else q.target;
      Going(tx.(pc := Rows([q.id], target, clock, 0, [], NO_WRITES, {}, 0)))
  }

  function AdvanceBatch(db: Store, clock: int, tx: Tx, taken: set<Lock>): Next
    requires tx.request.BatchRequest? && (tx.pc.BClock? || tx.pc.BSelect? || tx.pc.BScan?)
  {
    var q := tx.request;
    match tx.pc
    case BClock => Going(tx.(pc := BSelect(if q.at.Some? then q.at.value else clock)))
    case BSelect(now) => Going(tx.(pc := BScan(now, Ordered(StaleColumn(db, now, q.only)), [])))
    case BScan(now, candidates, got) =>
      if candidates == [] || |got| >= q.size then
        if got == [] then Over(Count(0))
        else Going(tx.(pc := Rows(got, Expired, now, 0, [], NO_WRITES, {}, 0)))
      else
        var r := candidates[0];
        if ParentLock(r) in taken || r !in db.reservations || !StaleReservation(db.reservations[r], now) then
          Going(tx.(pc := BScan(now, candidates[1..], got)))
        else
          Going(tx.(pc := BScan(now, candidates[1..], got + [r]), locks := tx.locks + {ParentLock(r)}))
  }

  // A row that raises the inventory conflict: a batch goes back to the savepoint, a single call gives up.
  function RowRefused(tx: Tx, saved: Writes, savedLocks: set<Lock>): (next: Next)
    requires tx.pc.Rows?
    ensures next.Going? ==> next.tx.pc.Rows? && next.tx.request == tx.request
  {
    if tx.request.BatchRequest?
    then Going(tx.(pc := tx.pc.(n := tx.pc.n + 1, todo := []), writes := saved, locks := savedLocks))
    else Over(Failed(InventoryConflict))
  }

  function RowsOutcome(db: Store, tx: Tx): Outcome
    requires tx.pc.Rows? && (tx.request.LifecycleRequest? || tx.request.BatchRequest?)
  {
    if tx.request.BatchRequest? then Count(tx.pc.count)
    else if tx.pc.target.Expired? then Failed(TransitionConflict)
    else if tx.request.id in db.reservations then Made(DetailOf(db, tx.request.id))
    else Failed(NotFound)
  }

  function AdvanceRows(db: Store, tx: Tx): (next: Next)
    requires Typed(tx) && tx.pc.Rows?
    ensures next.Going? ==> next.tx.pc.Rows? && next.tx.request == tx.request
  {
    var view := Overlay(db, tx.writes);
    var pc := tx.pc;
    if pc.n >= |pc.rows| then
      Committed(tx.writes, RowsOutcome(view, tx))
    else
      var r := pc.rows[pc.n];
      if r !in view.reservations || !view.reservations[r].status.Reserved? then
        Going(tx.(pc := pc.(n := pc.n + 1, count := pc.count + 1)))
      else
        var settled := tx.writes.reservations[r := view.reservations[r].(status := pc.target)];
        if pc.todo != [] then
          AdvanceItem(view, tx, settled)
        else if view.reservations[r].kind.Quantity? then
          if ItemsOf(view, r) == [] then RowRefused(tx, tx.writes, tx.locks)
          else Going(tx.(pc := pc.(todo := ItemsOf(view, r), saved := tx.writes, savedLocks := tx.locks)))
        else if RowsReserved(view, r) then
          Going(tx.(pc := pc.(n := pc.n + 1, count := pc.count + 1),
                    writes := tx.writes.(seatRows := tx.writes.seatRows + SettledRows(view, {r}, pc.target),
                                         reservations := settled)))
        else
          RowRefused(tx, tx.writes, tx.locks)
  }

  // The guarded UPDATE for the next item; with the last one the parent takes its status too.
  function AdvanceItem(view: Store, tx: Tx, settled: map<Id, Reservation>): (next: Next)
    requires tx.pc.Rows? && tx.pc.todo != []
    ensures next.Going? ==> next.tx.pc.Rows? && next.tx.request == tx.request
  {
    var pc := tx.pc;
    var x := pc.todo[0];
    if x !in view.items || !view.items[x].status.Reserved?
       || !CanMove(view, view.items[x].ticketType, view.items[x].quantity, pc.target)
    then
      RowRefused(tx, pc.saved, pc.savedLocks)
    else
      var item := view.items[x];
      var w := tx.writes.(
        ticketTypes := tx.writes.ticketTypes[item.ticketType := Move(view.ticketTypes[item.ticketType], item.quantity, pc.target)],
        items := tx.writes.items[x := item.(status := pc.target)]);
      var locks := tx.locks + {TypeLock(item.ticketType)};
      if |pc.todo| == 1
      then Going(tx.(pc := pc.(n := pc.n + 1, count := pc.count + 1, todo := []),
                     writes := w.(reservations := settled), locks := locks))
      else Going(tx.(pc := pc.(todo := pc.todo[1..]), writes := w, locks := locks))
  }

  // `taken` are the locks other transactions hold, `uid` a fresh identifier.
  function Advance(db: Store, clock: int, ttl: int, tx: Tx, taken: set<Lock>, uid: Id): Next
    requires Typed(tx) && !tx.pc.Done?
  {
    if tx.pc.Rows? then AdvanceRows(db, tx)
    else match tx.request
      case QuantityRequest(_, _, _, _, _) => AdvanceQuantity(db, clock, ttl, tx, uid)
      case SeatsRequest(_, _, _, _) => AdvanceSeats(db, clock, ttl, tx, uid)
      case LifecycleRequest(_, _, _) => AdvanceOwned(db, clock, tx)
      case BatchRequest(_, _, _) => AdvanceBatch(db, clock, tx, taken)
  }

  // ----- waiting -----

  datatype Want = Nothing | RowOf(lock: Lock) | SlotOf(seat: Id)

  // What the next statement must get before it can run. An UPDATE whose guard fails on the committed
  // row matches nothing and waits for nothing.
  function Wanted(db: Store, tx: Tx): Want
    requires Typed(tx)
  {
    var q := tx.request;
    match tx.pc
    case QStock => if HasStock(db, q.event, q.ticketType, q.quantity) then RowOf(TypeLock(q.ticketType)) else Nothing
    case QInsert(_) => RowOf(KeyLock(q.caller.session, q.key))
    case SLock(n) =>
      var found := FoundSeats(db, q.event, q.seats);
      if n < |found| then RowOf(SeatLock(found[n])) else Nothing
    case SParents(_, stale, n) => if n < |stale| then RowOf(ParentLock(stale[n])) else Nothing
    case SInsert(_, _) => RowOf(KeyLock(q.caller.session, q.key))
    case SSeats(_, _, _, ids) =>
      if |ids| < |q.seats| then SlotOf(Sorted(q.seats)[|ids|]) else Nothing
    case LLock =>
      if q.id in db.reservations && Owns(db.reservations[q.id], q.caller) then RowOf(ParentLock(q.id)) else Nothing
    case Rows(rows, target, _, n, todo, _, _, _) =>
      var view := Overlay(db, tx.writes);
      if n < |rows| && todo != [] && todo[0] in view.items && view.items[todo[0]].status.Reserved?
         && CanMove(view, view.items[todo[0]].ticketType, view.items[todo[0]].quantity, target)
      then RowOf(TypeLock(view.items[todo[0]].ticketType))
      else Nothing
    case _ => Nothing
  }

  // `w` holds an uncommitted entry of the active-seat index for `seat`: a row inserted, or an active one changed.
  predicate InFlightSlot(db: Store, w: Writes, seat: Id) {
    exists i :: i in w.seatRows && w.seatRows[i].seat == seat
                && (w.seatRows[i].status.Active() || (i in db.seatRows && db.seatRows[i].status.Active()))
  }

  ghost predicate WaitsFor(s: Sys, a: Id, b: Id)
    requires forall id :: id in s.txs ==> Typed(s.txs[id])
  {
    && a in s.txs && b in s.txs && a != b
    && match Wanted(s.db, s.txs[a])
       case Nothing => false
       case RowOf(lock) => lock in s.txs[b].locks
       case SlotOf(seat) => InFlightSlot(s.db, s.txs[b].writes, seat)
  }

  ghost function Taken(s: Sys, id: Id): set<Lock> {
    set u, l | u in s.txs && u != id && l in s.txs[u].locks :: l
  }

  predicate IsNew(s: Sys, uid: Id) {
    && uid !in s.db.reservations && uid !in s.db.items && uid !in s.db.seatRows
    && forall u :: u in s.txs ==> uid !in s.txs[u].writes.reservations && uid !in s.txs[u].writes.seatRows
  }

  // ----- the system -----

  datatype Action =
    | Begin(id: Id, request: Request)
    | Run(id: Id, uid: Id)
    | Abort(id: Id)
    | Tick(passed: nat)

  ghost predicate AllTyped(s: Sys) {
    forall id :: id in s.txs ==> Typed(s.txs[id])
  }

  ghost predicate Enabled(s: Sys, a: Action) {
    match a
    case Begin(id, request) => id !in s.txs && ValidRequest(request)
    case Run(id, uid) =>
      && AllTyped(s) && id in s.txs && !s.txs[id].pc.Done?
      && IsNew(s, uid) && forall u :: !WaitsFor(s, id, u)
    case Abort(id) => id in s.txs && !s.txs[id].pc.Done?
    case Tick(_) => true
  }

  function Ended(tx: Tx, outcome: Outcome): Tx {
    tx.(pc := Done(outcome), writes := NO_WRITES, locks := {})
  }

  ghost function Do(s: Sys, a: Action): Sys
    requires Enabled(s, a)
  {
    match a
    case Begin(id, request) => s.(txs := s.txs[id := Tx(request, FirstPc(request), NO_WRITES, {}, s.clock)])
    case Run(id, uid) =>
      var tx := s.txs[id];
      (match Advance(s.db, s.clock, s.ttl, tx, Taken(s, id), uid)
       case Going(tx') => s.(txs := s.txs[id := tx'])
       case Committed(w, outcome) => s.(db := Overlay(s.db, w), txs := s.txs[id := Ended(tx, outcome)])
       case Over(outcome) => s.(txs := s.txs[id := Ended(tx, outcome)]))
    case Abort(id) => s.(txs := s.txs[id := Ended(s.txs[id], Failed(Aborted))])
    case Tick(passed) => s.(clock := s.clock + passed)
  }

  // The atomic operation a transaction commits from where it stands, with the ids and times it chose.
  function OpOf(tx: Tx, uid: Id): Option<Op>
    requires Typed(tx)
  {
    var q := tx.request;
    match tx.pc
    case QItem(now, rid) => Some(QuantityOp(q.caller, q.event, q.ticketType, q.quantity, q.key, rid, uid, now))
    case SSeats(now, _, rid, ids) => Some(SeatsOp(q.caller, q.event, q.seats, q.key, rid, ids, now))
    case Rows(rows, _, now, _, _, _, _, _) =>
      if q.BatchRequest? then Some(ExpireOp(rows, now)) else Some(LifecycleOp(q.id, q.caller, q.target, now))
    case _ => None
  }

  // The operation a step of the system commits, if it commits one.
  ghost function CommitOp(s: Sys, a: Action): Option<Op>
    requires Enabled(s, a)
  {
    if a.Run? && Advance(s.db, s.clock, s.ttl, s.txs[a.id], Taken(s, a.id), a.uid).Committed?
    then OpOf(s.txs[a.id], a.uid)
    else None
  }
}
