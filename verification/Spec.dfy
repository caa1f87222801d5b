/** What every statement and every request does to the tables, as functions on stores.
    A function returning `None` stands for the guard that matched no row or the raised conflict. */
module Spec {
  import opened Tables
  import opened Ordering

  function SetOf(ids: seq<Id>): set<Id> {
    set i | i in ids
  }

  // ----- repository statements -----

  predicate HasStock(db: Store, event: Id, t: Id, quantity: int) {
    && t in db.ticketTypes
    && db.ticketTypes[t].event == event
    && db.ticketTypes[t].total - db.ticketTypes[t].sold - db.ticketTypes[t].reserved >= quantity
  }

  function Hold(row: TicketType, quantity: int): TicketType {
    row.(reserved := row.reserved + quantity)
  }

  // The guard of the confirming UPDATE, or of the releasing one for every other target.
  predicate CanMove(db: Store, t: Id, quantity: int, target: Status) {
    && t in db.ticketTypes
    && db.ticketTypes[t].reserved >= quantity
    && (target.Confirmed? ==> db.ticketTypes[t].sold + db.ticketTypes[t].reserved <= db.ticketTypes[t].total)
  }

  function Move(row: TicketType, quantity: int, target: Status): TicketType {
    row.(reserved := row.reserved - quantity,
         sold := if target.Confirmed? then row.sold + quantity else row.sold)
  }

  function MoveStock(db: Store, t: Id, quantity: int, target: Status): Option<Store> {
    if CanMove(db, t, quantity, target)
    then Some(db.(ticketTypes := db.ticketTypes[t := Move(db.ticketTypes[t], quantity, target)]))
    else None
  }

  function ItemColumn(db: Store, r: Id): map<Id, int> {
    map i | i in db.items && db.items[i].reservation == r :: db.items[i].ticketType
  }

  function ItemsOf(db: Store, r: Id): (ids: seq<Id>)
    ensures forall i :: i in ids <==> i in db.items && db.items[i].reservation == r
  {
    Ordered(ItemColumn(db, r))
  }

  function SeatRowsOf(db: Store, r: Id): (ids: seq<Id>)
    ensures forall i :: i in ids <==> i in db.seatRows && db.seatRows[i].reservation == r
  {
    Ordered(map i | i in db.seatRows && db.seatRows[i].reservation == r :: db.seatRows[i].seat)
  }

  function SeatsOfEvent(db: Store, event: Id, seats: set<Id>): set<Id> {
    set s | s in seats && s in db.seats && db.seats[s].event == event
  }

  function FoundSeats(db: Store, event: Id, seats: set<Id>): seq<Id> {
    Sorted(SeatsOfEvent(db, event, seats))
  }

  predicate StaleRow(row: SeatRow, seats: set<Id>, now: int) {
    row.seat in seats && row.status.Reserved? && row.expiresAt <= now
  }

  function StaleHolders(db: Store, seats: set<Id>, now: int): set<Id> {
    set i | i in db.seatRows && StaleRow(db.seatRows[i], seats, now) :: db.seatRows[i].reservation
  }

  // The reserved seat rows of `holders`, moved to `target`; no other row.
  function SettledRows(db: Store, holders: set<Id>, target: Status): map<Id, SeatRow> {
    map i | i in db.seatRows && db.seatRows[i].reservation in holders && db.seatRows[i].status.Reserved?
      :: db.seatRows[i].(status := target)
  }

  function SettledParents(db: Store, holders: set<Id>, target: Status): map<Id, Reservation> {
    map r | r in holders && r in db.reservations && db.reservations[r].status.Reserved?
      :: db.reservations[r].(status := target)
  }

  function Settle(db: Store, holders: set<Id>, target: Status): Store {
    db.(seatRows := db.seatRows + SettledRows(db, holders, target),
        reservations := db.reservations + SettledParents(db, holders, target))
  }

  predicate StaleReservation(row: Reservation, now: int) {
    row.status.Reserved? && row.expiresAt < now
  }

  function StaleColumn(db: Store, now: int, only: Option<set<Id>>): map<Id, int> {
    map r | r in db.reservations && StaleReservation(db.reservations[r], now)
          && (only.None? || r in only.value)
      :: db.reservations[r].expiresAt
  }

  function Take(ids: seq<Id>, n: nat): seq<Id> {
    if n <= |ids| then ids[..n] else ids
  }

  // The batch picked when no competing transaction holds a row lock.
  function StaleBatch(db: Store, size: nat, now: int, only: Option<set<Id>>): seq<Id> {
    Take(Ordered(StaleColumn(db, now, only)), size)
  }

  predicate KeyUsed(db: Store, session: Id, key: string) {
    exists r :: r in db.reservations && db.reservations[r].session == session && db.reservations[r].key == key
  }

  predicate Keyed(db: Store, r: Id, session: Id, key: string, kind: Kind) {
    && r in db.reservations
    && db.reservations[r].session == session && db.reservations[r].key == key && db.reservations[r].kind == kind
  }

  // ----- idempotency lookups -----

  datatype Lookup = Missing | Found(response: Response) | Ambiguous

  function QuantityLookup(db: Store, session: Id, key: string): Lookup {
    var rows := Ordered(map i | i in db.items && Keyed(db, db.items[i].reservation, session, key, Quantity) :: 0);
    if rows == [] then Missing
    else if |rows| > 1 then Ambiguous
    else
      var item := db.items[rows[0]];
      var parent := db.reservations[item.reservation];
      Found(QuantityResponse(item.reservation, parent.status, parent.expiresAt, item.ticketType, item.quantity))
  }

  function KeyedRows(db: Store, session: Id, key: string): (rows: seq<Id>)
    ensures forall i :: i in rows <==> i in db.seatRows && Keyed(db, db.seatRows[i].reservation, session, key, Seats)
  {
    Ordered(map i | i in db.seatRows && Keyed(db, db.seatRows[i].reservation, session, key, Seats)
              :: db.seatRows[i].seat)
  }

  function SeatsLookup(db: Store, session: Id, key: string): (found: Lookup)
    ensures !found.Ambiguous?
  {
    var rows := KeyedRows(db, session, key);
    if rows == [] then
      Missing
    else
      assert rows[0] in rows;
      var id := db.seatRows[rows[0]].reservation;
      var parent := db.reservations[id];
      Found(SeatsResponse(id, parent.status, parent.expiresAt, SeatsAt(db, rows)))
  }

  function SeatsAt(db: Store, rows: seq<Id>): seq<Id>
    requires forall i :: i in rows ==> i in db.seatRows
  {
    seq(|rows|, k requires 0 <= k < |rows| => db.seatRows[rows[k]].seat)
  }

  // ----- transitions -----

  function TransitionItems(db: Store, ids: seq<Id>, target: Status): Option<Store>
    requires forall i :: i in ids ==> i in db.items
    decreases |ids|
  {
    if ids == [] then
      Some(db)
    else
      var item := db.items[ids[0]];
      if !item.status.Reserved? then
        None
      else
        match MoveStock(db, item.ticketType, item.quantity, target)
        case None => None
        case Some(moved) =>
          TransitionItems(moved.(items := moved.items[ids[0] := item.(status := target)]), ids[1..], target)
  }

  function TransitionQuantity(db: Store, r: Id, target: Status): Option<Store> {
    var ids := ItemsOf(db, r);
    if ids == [] then None else TransitionItems(db, ids, target)
  }

  // The seat rows of `r` exist and are all still reserved.
  predicate RowsReserved(db: Store, r: Id) {
    && (exists i :: i in db.seatRows && db.seatRows[i].reservation == r)
    && (forall i :: i in db.seatRows && db.seatRows[i].reservation == r ==> db.seatRows[i].status.Reserved?)
  }

  function TransitionSeats(db: Store, r: Id, target: Status): Option<Store> {
    if RowsReserved(db, r)
    then Some(db.(seatRows := db.seatRows + SettledRows(db, {r}, target)))
    else None
  }

  function TransitionReserved(db: Store, r: Id, target: Status): Option<Store>
    requires r in db.reservations
  {
    var row := db.reservations[r];
    if !row.status.Reserved? then
      Some(db)
    else
      match (if row.kind.Quantity? then TransitionQuantity(db, r, target) else TransitionSeats(db, r, target))
      case None => None
      case Some(d) => Some(d.(reservations := d.reservations[r := row.(status := target)]))
  }

  // ----- requests -----

  predicate Owns(row: Reservation, caller: Caller) {
    row.session == caller.session || (caller.user.Some? && row.user == caller.user)
  }

  function ItemDetails(db: Store, ids: seq<Id>): seq<ItemDetail>
    requires forall i :: i in ids ==> i in db.items
  {
    seq(|ids|, k requires 0 <= k < |ids| =>
      ItemDetail(db.items[ids[k]].ticketType, db.items[ids[k]].quantity, db.items[ids[k]].status))
  }

  function SeatDetails(db: Store, ids: seq<Id>): seq<SeatDetail>
    requires forall i :: i in ids ==> i in db.seatRows
  {
    seq(|ids|, k requires 0 <= k < |ids| => SeatDetail(db.seatRows[ids[k]].seat, db.seatRows[ids[k]].status))
  }

  function DetailOf(db: Store, r: Id): Response
    requires r in db.reservations
  {
    var row := db.reservations[r];
    DetailResponse(
      r, row.event, row.status, row.kind, row.expiresAt,
      ItemDetails(db, ItemsOf(db, r)), SeatDetails(db, SeatRowsOf(db, r)))
  }

  // `cancel` is the call with target Cancelled, `confirm` the one with target Confirmed.
  function Lifecycle(db: Store, r: Id, caller: Caller, target: Status, now: int): (Store, Outcome) {
    if r !in db.reservations || !Owns(db.reservations[r], caller) then
      (db, Failed(NotFound))
    else if db.reservations[r].status == target then
      (db, Replayed(DetailOf(db, r)))
    else if !db.reservations[r].status.Reserved? then
      (db, Failed(TransitionConflict))
    else if db.reservations[r].expiresAt < now then
      match TransitionReserved(db, r, Expired)
      case None => (db, Failed(InventoryConflict))
      case Some(d) => (d, Failed(TransitionConflict))
    else
      match TransitionReserved(db, r, target)
      case None => (db, Failed(InventoryConflict))
      case Some(d) => if r in d.reservations then (d, Made(DetailOf(d, r))) else (d, Failed(NotFound))
  }

  function QuantityParent(caller: Caller, event: Id, key: string, expiresAt: int): Reservation {
    Reservation(event, caller.session, caller.user, Reserved, Quantity, key, expiresAt)
  }

  function QuantityReplay(db: Store, session: Id, key: string): Outcome {
    match QuantityLookup(db, session, key)
    case Missing => Failed(StockConflict)
    case Found(response) => Replayed(response)
    case Ambiguous => Failed(MultipleRows)
  }

  function ReserveQuantity(
      db: Store, caller: Caller, event: Id, t: Id, quantity: int, key: string,
      rid: Id, iid: Id, expiresAt: int): (Store, Outcome)
  {
    if !QuantityLookup(db, caller.session, key).Missing? || !HasStock(db, event, t, quantity)
       || KeyUsed(db, caller.session, key)
    then
      (db, QuantityReplay(db, caller.session, key))
    else
      (db.(ticketTypes := db.ticketTypes[t := Hold(db.ticketTypes[t], quantity)],
           reservations := db.reservations[rid := QuantityParent(caller, event, key, expiresAt)],
           items := db.items[iid := Item(rid, t, quantity, Reserved)]),
       Made(QuantityResponse(rid, Reserved, expiresAt, t, quantity)))
  }

  function SeatsParent(caller: Caller, event: Id, key: string, expiresAt: int): Reservation {
    Reservation(event, caller.session, caller.user, Reserved, Seats, key, expiresAt)
  }

  function ActiveRows(db: Store, seat: Id): set<Id> {
    set i | i in db.seatRows && db.seatRows[i].seat == seat && db.seatRows[i].status.Active()
  }

  predicate Occupied(db: Store, seat: Id) {
    exists i :: i in db.seatRows && db.seatRows[i].seat == seat && db.seatRows[i].status.Active()
  }

  predicate Blocked(db: Store, seats: set<Id>) {
    exists s :: s in seats && Occupied(db, s)
  }

  // One reserved row per seat, under the given row ids.
  function NewRows(rid: Id, seats: seq<Id>, ids: seq<Id>, expiresAt: int): map<Id, SeatRow>
    requires |ids| <= |seats|
  {
    if ids == [] then
      map[]
    else
      var n := |ids| - 1;
      NewRows(rid, seats, ids[..n], expiresAt)[ids[n] := SeatRow(rid, seats[n], Reserved, expiresAt)]
  }

  function SeatsReplay(db: Store, session: Id, key: string): Outcome {
    match SeatsLookup(db, session, key)
    case Missing => Failed(SeatConflict)
    case Found(response) => Replayed(response)
    case Ambiguous => Failed(MultipleRows)
  }

  function ReserveSeats(
      db: Store, caller: Caller, event: Id, seats: set<Id>, key: string,
      rid: Id, rowIds: seq<Id>, now: int, expiresAt: int): (Store, Outcome)
    requires |rowIds| == |seats|
  {
    var ordered := Sorted(seats);
    if !SeatsLookup(db, caller.session, key).Missing? then
      (db, SeatsReplay(db, caller.session, key))
    else if FoundSeats(db, event, seats) != ordered then
      (db, Failed(SeatsNotFound))
    else
      var d := Settle(db, StaleHolders(db, seats, now), Expired);
      if KeyUsed(db, caller.session, key) || Blocked(d, seats) then
        (db, SeatsReplay(db, caller.session, key))
      else
        (d.(reservations := d.reservations[rid := SeatsParent(caller, event, key, expiresAt)],
            seatRows := d.seatRows + NewRows(rid, ordered, rowIds, expiresAt)),
         Made(SeatsResponse(rid, Reserved, expiresAt, ordered)))
  }

  // A batch: each row in turn, all or nothing, counting the rows that went through.
  function ExpireRows(db: Store, rows: seq<Id>): (Store, nat)
    requires forall r :: r in rows ==> r in db.reservations
    decreases |rows|
  {
    if rows == [] then
      (db, 0)
    else
      var n := |rows| - 1;
      var (d, count) := ExpireRows(db, rows[..n]);
      if rows[n] !in d.reservations then
        (d, count)
      else
        match TransitionReserved(d, rows[n], Expired)
        case None => (d, count)
        case Some(e) => (e, count + 1)
  }
}
