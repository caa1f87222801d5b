/** The consistency audit: six queries with a row limit, each reading the store committed when it runs. */
module Audit {
  import opened Tables
  import opened Ordering
  import opened Spec
  import opened Invariant
  import opened Concurrent
  import opened Refinement

  const DETAIL_LIMIT := 100

  // Instants count microseconds.
  const SECOND := 1_000_000
  const STALE_TOLERANCE := 60 * SECOND

  datatype Check =
    | NotOversold | NotNegative | NoDuplicateActiveSeats | NoOrphanItems | NoOrphanSeats | NoStaleReservations

  datatype Detail =
    | QuantityDetail(check: Check, ticketType: Id, total: int, sold: int, reserved: int)
    | DuplicateSeatDetail(seat: Id, count: nat)
    | OrphanDetail(check: Check, record: Id, reservation: Id)
    | StaleDetail(reservation: Id, expiresAt: int, secondsOverdue: int)

  datatype Report = Report(ok: bool, passed: set<Check>, details: seq<Detail>)

  // The committed store each of the six queries reads.
  datatype Views = Views(
    negative: Store, oversold: Store, duplicates: Store, orphanItems: Store, orphanSeats: Store, stale: Store)

  predicate Selected(event: Id, only: Option<set<Id>>) {
    only.None? || event in only.value
  }

  // ----- the queries -----

  function NegativeColumn(db: Store, only: Option<set<Id>>): map<Id, int> {
    map t | t in db.ticketTypes && Selected(db.ticketTypes[t].event, only)
            && (db.ticketTypes[t].total < 0 || db.ticketTypes[t].sold < 0 || db.ticketTypes[t].reserved < 0) :: 0
  }

  function OversoldColumn(db: Store, only: Option<set<Id>>): map<Id, int> {
    map t | t in db.ticketTypes && Selected(db.ticketTypes[t].event, only)
            && db.ticketTypes[t].sold + db.ticketTypes[t].reserved > db.ticketTypes[t].total :: 0
  }

  // GROUP BY seat over the active rows, HAVING more than one.
  function DuplicateColumn(db: Store, only: Option<set<Id>>): map<Id, int> {
    map s | s in db.seats && Selected(db.seats[s].event, only) && |ActiveRows(db, s)| > 1 :: 0
  }

  function OrphanItemColumn(db: Store): map<Id, int> {
    map i | i in db.items && db.items[i].reservation !in db.reservations :: 0
  }

  function OrphanSeatColumn(db: Store): map<Id, int> {
    map i | i in db.seatRows && db.seatRows[i].reservation !in db.reservations :: 0
  }

  function OverdueColumn(db: Store, before: int, only: Option<set<Id>>): map<Id, int> {
    map r | r in db.reservations && StaleReservation(db.reservations[r], before)
            && Selected(db.reservations[r].event, only) :: db.reservations[r].expiresAt
  }

  predicate Empty(column: map<Id, int>) {
    forall i :: i !in column
  }

  lemma Nothing(column: map<Id, int>)
    ensures |column| == 0 <==> Empty(column)
  {
    assert Empty(column) ==> column.Keys == {};
  }

  // ORDER BY column, id LIMIT limit.
  function Listed(column: map<Id, int>): (ids: seq<Id>)
    ensures ids == [] <==> Empty(column)
    ensures |ids| == if |column| < DETAIL_LIMIT then |column| else DETAIL_LIMIT
    ensures forall i :: i in ids ==> i in column
  {
    var all := Ordered(column);
    Nothing(column);
    assert forall i :: i in Take(all, DETAIL_LIMIT) ==> i in all;
    Take(all, DETAIL_LIMIT)
  }

  // ----- the report -----

  function QuantityDetails(check: Check, db: Store, ids: seq<Id>): (details: seq<Detail>)
    requires forall t :: t in ids ==> t in db.ticketTypes
    ensures |details| == |ids|
  {
    seq(|ids|, k requires 0 <= k < |ids| =>
      var row := db.ticketTypes[ids[k]]; QuantityDetail(check, ids[k], row.total, row.sold, row.reserved))
  }

  function DuplicateDetails(db: Store, ids: seq<Id>): (details: seq<Detail>)
    ensures |details| == |ids|
  {
    seq(|ids|, k requires 0 <= k < |ids| => DuplicateSeatDetail(ids[k], |ActiveRows(db, ids[k])|))
  }

  function OrphanItemDetails(db: Store, ids: seq<Id>): (details: seq<Detail>)
    requires forall i :: i in ids ==> i in db.items
    ensures |details| == |ids|
  {
    seq(|ids|, k requires 0 <= k < |ids| => OrphanDetail(NoOrphanItems, ids[k], db.items[ids[k]].reservation))
  }

  function OrphanSeatDetails(db: Store, ids: seq<Id>): (details: seq<Detail>)
    requires forall i :: i in ids ==> i in db.seatRows
    ensures |details| == |ids|
  {
    seq(|ids|, k requires 0 <= k < |ids| => OrphanDetail(NoOrphanSeats, ids[k], db.seatRows[ids[k]].reservation))
  }

  function StaleDetails(db: Store, ids: seq<Id>, checkedAt: int): (details: seq<Detail>)
    requires forall r :: r in ids ==> r in db.reservations
    ensures |details| == |ids|
  {
    seq(|ids|, k requires 0 <= k < |ids| =>
      var due := db.reservations[ids[k]].expiresAt; StaleDetail(ids[k], due, (checkedAt - due) / SECOND))
  }

  function AssertConsistency(views: Views, checkedAt: int, only: Option<set<Id>>): Report {
    var negative := Listed(NegativeColumn(views.negative, only));
    var oversold := Listed(OversoldColumn(views.oversold, only));
    var duplicates := Listed(DuplicateColumn(views.duplicates, only));
    var orphanItems := Listed(OrphanItemColumn(views.orphanItems));
    var orphanSeats := Listed(OrphanSeatColumn(views.orphanSeats));
    var stale := Listed(OverdueColumn(views.stale, checkedAt - STALE_TOLERANCE, only));
    Report(
      oversold == [] && negative == [] && duplicates == [] && orphanItems == [] && orphanSeats == [] && stale == [],
      PassedChecks(oversold == [], negative == [], duplicates == [], orphanItems == [], orphanSeats == [], stale == []),
      Joined(
        QuantityDetails(NotOversold, views.oversold, oversold),
        QuantityDetails(NotNegative, views.negative, negative),
        DuplicateDetails(views.duplicates, duplicates),
        OrphanItemDetails(views.orphanItems, orphanItems),
        OrphanSeatDetails(views.orphanSeats, orphanSeats),
        StaleDetails(views.stale, stale, checkedAt)))
  }

  function PassedChecks(
      notOversold: bool, notNegative: bool, noDuplicates: bool, noOrphanItems: bool, noOrphanSeats: bool,
      noStale: bool): set<Check>
  {
    (if notOversold then {NotOversold} else {}) + (if notNegative then {NotNegative} else {})
    + (if noDuplicates then {NoDuplicateActiveSeats} else {}) + (if noOrphanItems then {NoOrphanItems} else {})
    + (if noOrphanSeats then {NoOrphanSeats} else {}) + (if noStale then {NoStaleReservations} else {})
  }

  function Joined(
      oversold: seq<Detail>, negative: seq<Detail>, duplicates: seq<Detail>, orphanItems: seq<Detail>,
      orphanSeats: seq<Detail>, stale: seq<Detail>): (details: seq<Detail>)
    ensures |details| == |oversold| + |negative| + |duplicates| + |orphanItems| + |orphanSeats| + |stale|
  {
    oversold + negative + duplicates + orphanItems + orphanSeats + stale
  }

  // ----- what the checks mean -----

  // The events the audit is asked about: all, or the ones listed.
  ghost predicate Asked(event: Id, only: Option<set<Id>>) {
    only.Some? ==> event in only.value
  }

  // The row is active on the seat: reserved or confirmed.
  ghost predicate Takes(row: SeatRow, seat: Id) {
    row.seat == seat && (row.status == Reserved || row.status == Confirmed)
  }

  // The condition each check names; a reservation may stay overdue for a minute.
  ghost predicate Holds(check: Check, views: Views, checkedAt: int, only: Option<set<Id>>) {
    match check
    case NotNegative =>
      forall t :: t in views.negative.ticketTypes && Asked(views.negative.ticketTypes[t].event, only) ==>
        var row := views.negative.ticketTypes[t]; 0 <= row.total && 0 <= row.sold && 0 <= row.reserved
    case NotOversold =>
      forall t :: t in views.oversold.ticketTypes && Asked(views.oversold.ticketTypes[t].event, only) ==>
        var row := views.oversold.ticketTypes[t]; row.sold + row.reserved <= row.total
    case NoDuplicateActiveSeats =>
      forall s, i, j | s in views.duplicates.seats && Asked(views.duplicates.seats[s].event, only)
                       && i in views.duplicates.seatRows && j in views.duplicates.seatRows
                       && Takes(views.duplicates.seatRows[i], s) && Takes(views.duplicates.seatRows[j], s) :: i == j
    case NoOrphanItems =>
      forall i :: i in views.orphanItems.items ==> views.orphanItems.items[i].reservation in views.orphanItems.reservations
    case NoOrphanSeats =>
      forall i :: i in views.orphanSeats.seatRows ==>
        views.orphanSeats.seatRows[i].reservation in views.orphanSeats.reservations
    case NoStaleReservations =>
      forall r :: r in views.stale.reservations && Asked(views.stale.reservations[r].event, only) ==>
        !(views.stale.reservations[r].status.Reserved? && views.stale.reservations[r].expiresAt + 60_000_000 < checkedAt)
  }

  lemma {:induction false} PairInside<T>(s: set<T>, a: T, b: T)
    requires a in s && b in s && a != b
    ensures |s| > 1
  {
    assert |s - {a}| == |s| - 1 && b in s - {a};
  }

  lemma TwoMembers<T>(s: set<T>) returns (a: T, b: T)
    requires |s| > 1
    ensures a in s && b in s && a != b
  {
    a :| a in s;
    assert |s - {a}| > 0;
    b :| b in s - {a};
  }

  // Grouping and counting finds exactly the seats with two active rows.
  lemma DuplicatesExact(views: Views, checkedAt: int, only: Option<set<Id>>)
    ensures Empty(DuplicateColumn(views.duplicates, only))
       <==> Holds(NoDuplicateActiveSeats, views, checkedAt, only)
  {
    var db := views.duplicates;
    if s :| s in DuplicateColumn(db, only) {
      var i, j := TwoMembers(ActiveRows(db, s));
      assert Takes(db.seatRows[i], s) && Takes(db.seatRows[j], s);
      assert !Holds(NoDuplicateActiveSeats, views, checkedAt, only);
    } else {
      forall s, i, j | s in db.seats && Asked(db.seats[s].event, only) && i in db.seatRows && j in db.seatRows
                       && Takes(db.seatRows[i], s) && Takes(db.seatRows[j], s)
        ensures i == j
      {
        assert i in ActiveRows(db, s) && j in ActiveRows(db, s);
        assert s !in DuplicateColumn(db, only);
        if i != j { PairInside(ActiveRows(db, s), i, j); }
      }
    }
  }

  predicate Clean(check: Check, views: Views, checkedAt: int, only: Option<set<Id>>) {
    match check
    case NotNegative => Empty(NegativeColumn(views.negative, only))
    case NotOversold => Empty(OversoldColumn(views.oversold, only))
    case NoDuplicateActiveSeats => Empty(DuplicateColumn(views.duplicates, only))
    case NoOrphanItems => Empty(OrphanItemColumn(views.orphanItems))
    case NoOrphanSeats => Empty(OrphanSeatColumn(views.orphanSeats))
    case NoStaleReservations => Empty(OverdueColumn(views.stale, checkedAt - STALE_TOLERANCE, only))
  }

  lemma NegativeExact(views: Views, checkedAt: int, only: Option<set<Id>>)
    ensures Clean(NotNegative, views, checkedAt, only) <==> Holds(NotNegative, views, checkedAt, only)
  {
    var db, column := views.negative, NegativeColumn(views.negative, only);
    forall t | t in db.ticketTypes && Asked(db.ticketTypes[t].event, only)
      ensures t in column <==>
        !(0 <= db.ticketTypes[t].total && 0 <= db.ticketTypes[t].sold && 0 <= db.ticketTypes[t].reserved)
    {
    }
  }

  lemma OversoldExact(views: Views, checkedAt: int, only: Option<set<Id>>)
    ensures Clean(NotOversold, views, checkedAt, only) <==> Holds(NotOversold, views, checkedAt, only)
  {
    var db, column := views.oversold, OversoldColumn(views.oversold, only);
    forall t | t in db.ticketTypes && Asked(db.ticketTypes[t].event, only)
      ensures t in column <==> !(db.ticketTypes[t].sold + db.ticketTypes[t].reserved <= db.ticketTypes[t].total)
    {
    }
  }

  lemma OverdueExact(views: Views, checkedAt: int, only: Option<set<Id>>)
    ensures Clean(NoStaleReservations, views, checkedAt, only) <==> Holds(NoStaleReservations, views, checkedAt, only)
  {
    var db, column := views.stale, OverdueColumn(views.stale, checkedAt - STALE_TOLERANCE, only);
    forall r | r in db.reservations && Asked(db.reservations[r].event, only)
      ensures r in column <==>
        db.reservations[r].status.Reserved? && db.reservations[r].expiresAt + 60_000_000 < checkedAt
    {
    }
  }

  lemma OrphansExact(views: Views, checkedAt: int, only: Option<set<Id>>)
    ensures Clean(NoOrphanItems, views, checkedAt, only) <==> Holds(NoOrphanItems, views, checkedAt, only)
    ensures Clean(NoOrphanSeats, views, checkedAt, only) <==> Holds(NoOrphanSeats, views, checkedAt, only)
  {
    var items, seats := OrphanItemColumn(views.orphanItems), OrphanSeatColumn(views.orphanSeats);
    forall i | i in views.orphanItems.items
      ensures i in items <==> views.orphanItems.items[i].reservation !in views.orphanItems.reservations
    {
    }
    forall i | i in views.orphanSeats.seatRows
      ensures i in seats <==> views.orphanSeats.seatRows[i].reservation !in views.orphanSeats.reservations
    {
    }
  }

  lemma CleanIffHolds(check: Check, views: Views, checkedAt: int, only: Option<set<Id>>)
    ensures Clean(check, views, checkedAt, only) <==> Holds(check, views, checkedAt, only)
  {
    match check
    case NotNegative => NegativeExact(views, checkedAt, only);
    case NotOversold => OversoldExact(views, checkedAt, only);
    case NoDuplicateActiveSeats => DuplicatesExact(views, checkedAt, only);
    case NoOrphanItems => OrphansExact(views, checkedAt, only);
    case NoOrphanSeats => OrphansExact(views, checkedAt, only);
    case NoStaleReservations => OverdueExact(views, checkedAt, only);
  }

  lemma PassedForm(views: Views, checkedAt: int, only: Option<set<Id>>)
    ensures AssertConsistency(views, checkedAt, only).passed
         == PassedChecks(
              Clean(NotOversold, views, checkedAt, only), Clean(NotNegative, views, checkedAt, only),
              Clean(NoDuplicateActiveSeats, views, checkedAt, only), Clean(NoOrphanItems, views, checkedAt, only),
              Clean(NoOrphanSeats, views, checkedAt, only), Clean(NoStaleReservations, views, checkedAt, only))
  {
    hide NegativeColumn, OversoldColumn, DuplicateColumn, OrphanItemColumn, OrphanSeatColumn, OverdueColumn, Listed,
         QuantityDetails, DuplicateDetails, OrphanItemDetails, OrphanSeatDetails, StaleDetails, Joined, PassedChecks;
  }

  lemma PassedIffClean(check: Check, views: Views, checkedAt: int, only: Option<set<Id>>)
    ensures check in AssertConsistency(views, checkedAt, only).passed <==> Clean(check, views, checkedAt, only)
  {
    hide AssertConsistency, Clean;
    PassedForm(views, checkedAt, only);
  }

  lemma AllClean(views: Views, checkedAt: int, only: Option<set<Id>>)
    ensures var report := AssertConsistency(views, checkedAt, only);
            && (report.ok <==> && Clean(NotNegative, views, checkedAt, only)
                               && Clean(NotOversold, views, checkedAt, only)
                               && Clean(NoDuplicateActiveSeats, views, checkedAt, only)
                               && Clean(NoOrphanItems, views, checkedAt, only)
                               && Clean(NoOrphanSeats, views, checkedAt, only)
                               && Clean(NoStaleReservations, views, checkedAt, only))
            && (report.details == [] <==> report.ok)
  {
    hide NegativeColumn, OversoldColumn, DuplicateColumn, OrphanItemColumn, OrphanSeatColumn, OverdueColumn, Listed,
         QuantityDetails, DuplicateDetails, OrphanItemDetails, OrphanSeatDetails, StaleDetails, Joined,
         PassedChecks;
  }

  lemma EveryCheck(views: Views, checkedAt: int, only: Option<set<Id>>)
    ensures (forall check :: Holds(check, views, checkedAt, only))
       <==> && Holds(NotNegative, views, checkedAt, only) && Holds(NotOversold, views, checkedAt, only)
            && Holds(NoDuplicateActiveSeats, views, checkedAt, only) && Holds(NoOrphanItems, views, checkedAt, only)
            && Holds(NoOrphanSeats, views, checkedAt, only) && Holds(NoStaleReservations, views, checkedAt, only)
  {
  }

  lemma CheckExact(check: Check, views: Views, checkedAt: int, only: Option<set<Id>>)
    ensures check in AssertConsistency(views, checkedAt, only).passed <==> Holds(check, views, checkedAt, only)
  {
    hide *;
    PassedIffClean(check, views, checkedAt, only);
    CleanIffHolds(check, views, checkedAt, only);
  }

  // Despite limits, filters and grouping the verdict is exact, and there are details exactly when it is negative.
  lemma AuditExact(views: Views, checkedAt: int, only: Option<set<Id>>)
    ensures var report := AssertConsistency(views, checkedAt, only);
            && (report.ok <==> forall check :: Holds(check, views, checkedAt, only))
            && (report.details == [] <==> report.ok)
  {
    hide *;
    AllClean(views, checkedAt, only);
    forall check ensures Clean(check, views, checkedAt, only) <==> Holds(check, views, checkedAt, only) {
      CleanIffHolds(check, views, checkedAt, only);
    }
    EveryCheck(views, checkedAt, only);
  }

  // ----- what the details say -----

  ghost function CheckOf(detail: Detail): Check {
    match detail
    case QuantityDetail(check, _, _, _, _) => check
    case DuplicateSeatDetail(_, _) => NoDuplicateActiveSeats
    case OrphanDetail(check, _, _) => check
    case StaleDetail(_, _, _) => NoStaleReservations
  }

  ghost function RecordOf(detail: Detail): Id {
    match detail
    case QuantityDetail(_, t, _, _, _) => t
    case DuplicateSeatDetail(s, _) => s
    case OrphanDetail(_, i, _) => i
    case StaleDetail(r, _, _) => r
  }

  ghost function RowsTaking(db: Store, seat: Id): set<Id> {
    set i | i in db.seatRows && Takes(db.seatRows[i], seat)
  }

  // Record `x` breaks the condition the check names.
  ghost predicate Breaks(check: Check, views: Views, checkedAt: int, only: Option<set<Id>>, x: Id) {
    match check
    case NotNegative =>
      && x in views.negative.ticketTypes && Asked(views.negative.ticketTypes[x].event, only)
      && var row := views.negative.ticketTypes[x]; (row.total < 0 || row.sold < 0 || row.reserved < 0)
    case NotOversold =>
      && x in views.oversold.ticketTypes && Asked(views.oversold.ticketTypes[x].event, only)
      && var row := views.oversold.ticketTypes[x]; row.total < row.sold + row.reserved
    case NoDuplicateActiveSeats =>
      && x in views.duplicates.seats && Asked(views.duplicates.seats[x].event, only)
      && |RowsTaking(views.duplicates, x)| > 1
    case NoOrphanItems =>
      && x in views.orphanItems.items
      && views.orphanItems.items[x].reservation !in views.orphanItems.reservations
    case NoOrphanSeats =>
      && x in views.orphanSeats.seatRows
      && views.orphanSeats.seatRows[x].reservation !in views.orphanSeats.reservations
    case NoStaleReservations =>
      && x in views.stale.reservations && Asked(views.stale.reservations[x].event, only)
      && views.stale.reservations[x].status.Reserved? && views.stale.reservations[x].expiresAt + 60_000_000 < checkedAt
  }

  // The detail carries what the row it is about says.
  ghost predicate Accurate(detail: Detail, views: Views, checkedAt: int) {
    match detail
    case QuantityDetail(check, t, total, sold, reserved) =>
      && (check == NotOversold || check == NotNegative)
      && var types := if check == NotOversold then views.oversold.ticketTypes else views.negative.ticketTypes;
      && t in types && total == types[t].total && sold == types[t].sold && reserved == types[t].reserved
    case DuplicateSeatDetail(s, count) => count == |RowsTaking(views.duplicates, s)|
    case OrphanDetail(check, i, r) =>
      || (check == NoOrphanItems && i in views.orphanItems.items && r == views.orphanItems.items[i].reservation)
      || (check == NoOrphanSeats && i in views.orphanSeats.seatRows && r == views.orphanSeats.seatRows[i].reservation)
    case StaleDetail(r, expiresAt, secondsOverdue) =>
      && r in views.stale.reservations && expiresAt == views.stale.reservations[r].expiresAt
      && secondsOverdue == (checkedAt - expiresAt) / 1_000_000
  }

  // The order of a check's details: overdue reservations by deadline and then id, all else by id.
  ghost predicate Sooner(check: Check, views: Views, a: Id, b: Id) {
    if check == NoStaleReservations then
      && a in views.stale.reservations && b in views.stale.reservations
      && var m, n := views.stale.reservations[a].expiresAt, views.stale.reservations[b].expiresAt;
      (m < n || (m == n && a < b))
    else
      a < b
  }

  ghost predicate Mentioned(details: seq<Detail>, check: Check, x: Id) {
    exists k :: 0 <= k < |details| && CheckOf(details[k]) == check && RecordOf(details[k]) == x
  }

  // A hundred records that come sooner than `x` are listed for the check.
  ghost predicate FullBefore(details: seq<Detail>, check: Check, views: Views, x: Id) {
    exists lo: nat :: lo + 100 <= |details| && AllSooner(details, lo, check, views, x)
  }

  ghost predicate AllSooner(details: seq<Detail>, lo: nat, check: Check, views: Views, x: Id)
    requires lo + 100 <= |details|
  {
    forall k :: lo <= k < lo + 100 ==> CheckOf(details[k]) == check && Sooner(check, views, RecordOf(details[k]), x)
  }

  ghost function ColumnOf(check: Check, views: Views, checkedAt: int, only: Option<set<Id>>): map<Id, int> {
    match check
    case NotNegative => NegativeColumn(views.negative, only)
    case NotOversold => OversoldColumn(views.oversold, only)
    case NoDuplicateActiveSeats => DuplicateColumn(views.duplicates, only)
    case NoOrphanItems => OrphanItemColumn(views.orphanItems)
    case NoOrphanSeats => OrphanSeatColumn(views.orphanSeats)
    case NoStaleReservations => OverdueColumn(views.stale, checkedAt - STALE_TOLERANCE, only)
  }

  ghost function PartOf(check: Check, views: Views, checkedAt: int, only: Option<set<Id>>): seq<Detail> {
    var ids := Listed(ColumnOf(check, views, checkedAt, only));
    match check
    case NotNegative => QuantityDetails(NotNegative, views.negative, ids)
    case NotOversold => QuantityDetails(NotOversold, views.oversold, ids)
    case NoDuplicateActiveSeats => DuplicateDetails(views.duplicates, ids)
    case NoOrphanItems => OrphanItemDetails(views.orphanItems, ids)
    case NoOrphanSeats => OrphanSeatDetails(views.orphanSeats, ids)
    case NoStaleReservations => StaleDetails(views.stale, ids, checkedAt)
  }

  lemma RowsTakingSeat(db: Store, seat: Id)
    ensures RowsTaking(db, seat) == ActiveRows(db, seat)
  {
  }

  lemma ColumnIsBroken(check: Check, views: Views, checkedAt: int, only: Option<set<Id>>, x: Id)
    ensures x in ColumnOf(check, views, checkedAt, only) <==> Breaks(check, views, checkedAt, only, x)
  {
    RowsTakingSeat(views.duplicates, x);
  }

  lemma PartTells(check: Check, views: Views, checkedAt: int, only: Option<set<Id>>)
    ensures var part := PartOf(check, views, checkedAt, only); var ids := Listed(ColumnOf(check, views, checkedAt, only));
            && |part| == |ids|
            && forall k :: 0 <= k < |ids| ==>
                 CheckOf(part[k]) == check && RecordOf(part[k]) == ids[k] && Accurate(part[k], views, checkedAt)
  {
    hide Listed, RowsTaking, ActiveRows;
    var ids := Listed(ColumnOf(check, views, checkedAt, only));
    forall k | 0 <= k < |ids| ensures ids[k] in ColumnOf(check, views, checkedAt, only) {
      assert ids[k] in ids;
    }
    forall s {
      RowsTakingSeat(views.duplicates, s);
    }
  }

  lemma PartSound(check: Check, views: Views, checkedAt: int, only: Option<set<Id>>)
    ensures forall d :: d in PartOf(check, views, checkedAt, only) ==>
              Breaks(CheckOf(d), views, checkedAt, only, RecordOf(d)) && Accurate(d, views, checkedAt)
  {
    PartTells(check, views, checkedAt, only);
    hide PartOf, ColumnOf, Breaks, Accurate;
    var part, ids := PartOf(check, views, checkedAt, only), Listed(ColumnOf(check, views, checkedAt, only));
    forall d | d in part ensures Breaks(CheckOf(d), views, checkedAt, only, RecordOf(d)) && Accurate(d, views, checkedAt) {
      var k :| 0 <= k < |part| && part[k] == d;
      assert ids[k] in ids;
      ColumnIsBroken(check, views, checkedAt, only, ids[k]);
    }
  }

  lemma ReportJoins(views: Views, checkedAt: int, only: Option<set<Id>>)
    ensures AssertConsistency(views, checkedAt, only).details
         == Joined(PartOf(NotOversold, views, checkedAt, only), PartOf(NotNegative, views, checkedAt, only),
                   PartOf(NoDuplicateActiveSeats, views, checkedAt, only), PartOf(NoOrphanItems, views, checkedAt, only),
                   PartOf(NoOrphanSeats, views, checkedAt, only), PartOf(NoStaleReservations, views, checkedAt, only))
  {
    hide NegativeColumn, OversoldColumn, DuplicateColumn, OrphanItemColumn, OrphanSeatColumn, OverdueColumn, Listed,
         QuantityDetails, DuplicateDetails, OrphanItemDetails, OrphanSeatDetails, StaleDetails, Joined, PassedChecks;
  }

  lemma Slices(a: seq<Detail>, b: seq<Detail>, c: seq<Detail>, d: seq<Detail>, e: seq<Detail>, f: seq<Detail>)
    ensures var all := Joined(a, b, c, d, e, f);
            && all[..|a|] == a && all[|a|..][..|b|] == b && all[|a| + |b|..][..|c|] == c
            && all[|a| + |b| + |c|..][..|d|] == d && all[|a| + |b| + |c| + |d|..][..|e|] == e
            && all[|a| + |b| + |c| + |d| + |e|..] == f
            && forall x :: x in all <==> x in a || x in b || x in c || x in d || x in e || x in f
  {
  }

  // Where the details of a check begin.
  lemma PartAt(check: Check, views: Views, checkedAt: int, only: Option<set<Id>>) returns (lo: nat)
    ensures var details := AssertConsistency(views, checkedAt, only).details;
            var part := PartOf(check, views, checkedAt, only);
            lo + |part| <= |details| && details[lo..][..|part|] == part
  {
    hide PartOf, AssertConsistency, Joined;
    ReportJoins(views, checkedAt, only);
    var a, b, c := PartOf(NotOversold, views, checkedAt, only), PartOf(NotNegative, views, checkedAt, only),
                   PartOf(NoDuplicateActiveSeats, views, checkedAt, only);
    var d, e, f := PartOf(NoOrphanItems, views, checkedAt, only), PartOf(NoOrphanSeats, views, checkedAt, only),
                   PartOf(NoStaleReservations, views, checkedAt, only);
    Slices(a, b, c, d, e, f);
    match check
    case NotOversold => lo := 0;
    case NotNegative => lo := |a|;
    case NoDuplicateActiveSeats => lo := |a| + |b|;
    case NoOrphanItems => lo := |a| + |b| + |c|;
    case NoOrphanSeats => lo := |a| + |b| + |c| + |d|;
    case NoStaleReservations => lo := |a| + |b| + |c| + |d| + |e|;
  }

  lemma LeftOut(column: map<Id, int>, x: Id)
    requires x in column && x !in Listed(column)
    ensures |Listed(column)| == 100
    ensures forall k :: 0 <= k < 100 ==>
              var a := Listed(column)[k]; a in column && a != x && Before(column, a, x)
  {
    var all := Ordered(column);
    var n :| 0 <= n < |all| && all[n] == x;
    assert forall m :: 0 <= m < |Listed(column)| ==> Listed(column)[m] == all[m] && Listed(column)[m] in Listed(column);
  }

  lemma InOrder(check: Check, views: Views, checkedAt: int, only: Option<set<Id>>, a: Id, b: Id)
    requires var column := ColumnOf(check, views, checkedAt, only);
             a in column && b in column && a != b && Before(column, a, b)
    ensures Sooner(check, views, a, b)
  {
  }

  lemma PartComplete(check: Check, views: Views, checkedAt: int, only: Option<set<Id>>, x: Id)
    requires Breaks(check, views, checkedAt, only, x)
    ensures var details := AssertConsistency(views, checkedAt, only).details;
            Mentioned(details, check, x) || FullBefore(details, check, views, x)
  {
    hide Breaks, ColumnOf, PartOf, AssertConsistency, Sooner, Accurate, Listed, Before;
    var details, part := AssertConsistency(views, checkedAt, only).details, PartOf(check, views, checkedAt, only);
    var column := ColumnOf(check, views, checkedAt, only);
    var ids := Listed(column);
    ColumnIsBroken(check, views, checkedAt, only, x);
    PartTells(check, views, checkedAt, only);
    var lo := PartAt(check, views, checkedAt, only);
    assert forall k :: 0 <= k < |part| ==> details[lo + k] == details[lo..][..|part|][k];
    if x in ids {
      var k :| 0 <= k < |ids| && ids[k] == x;
      assert CheckOf(details[lo + k]) == check && RecordOf(details[lo + k]) == x;
    } else {
      LeftOut(column, x);
      forall k | lo <= k < lo + 100
        ensures CheckOf(details[k]) == check && Sooner(check, views, RecordOf(details[k]), x)
      {
        assert details[lo + (k - lo)] == part[k - lo];
        InOrder(check, views, checkedAt, only, ids[k - lo], x);
      }
      assert AllSooner(details, lo, check, views, x);
    }
  }

  // The order of the report: check by check, and within one the sooner first.
  ghost function Place(check: Check): nat {
    match check
    case NotOversold => 0
    case NotNegative => 1
    case NoDuplicateActiveSeats => 2
    case NoOrphanItems => 3
    case NoOrphanSeats => 4
    case NoStaleReservations => 5
  }

  ghost predicate Follows(a: Detail, b: Detail, views: Views) {
    || Place(CheckOf(a)) < Place(CheckOf(b))
    || (CheckOf(a) == CheckOf(b) && Sooner(CheckOf(a), views, RecordOf(a), RecordOf(b)))
  }

  ghost predicate Lined(details: seq<Detail>, views: Views) {
    forall k, m :: 0 <= k < m < |details| ==> Follows(details[k], details[m], views)
  }

  ghost predicate Within(details: seq<Detail>, from: nat, to: nat) {
    forall d :: d in details ==> from <= Place(CheckOf(d)) < to
  }

  // No check fills more than a hundred places in a row.
  ghost predicate Capped(details: seq<Detail>) {
    forall k :: 0 <= k < |details| - 100 ==> CheckOf(details[k]) != CheckOf(details[k + 100])
  }

  lemma CappedUp(a: seq<Detail>, b: seq<Detail>, n: nat)
    requires Capped(a) && |b| <= 100 && Within(a, 0, n) && Within(b, n, n + 1)
    ensures Capped(a + b)
  {
    hide Place;
    var all := a + b;
    forall k | 0 <= k < |all| - 100 ensures CheckOf(all[k]) != CheckOf(all[k + 100]) {
      if k + 100 < |a| {
        assert CheckOf(a[k]) != CheckOf(a[k + 100]);
      } else {
        assert a[k] in a && b[k + 100 - |a|] in b;
      }
    }
  }

  lemma LinedUp(a: seq<Detail>, b: seq<Detail>, views: Views, n: nat)
    requires Lined(a, views) && Lined(b, views) && Within(a, 0, n) && Within(b, n, n + 1) && Capped(a) && |b| <= 100
    ensures Lined(a + b, views) && Within(a + b, 0, n + 1) && Capped(a + b)
  {
    CappedUp(a, b, n);
    hide Place, Sooner, Capped;
    forall k, m | 0 <= k < m < |a + b| ensures Follows((a + b)[k], (a + b)[m], views) {
      if k < |a| <= m {
        assert a[k] in a && b[m - |a|] in b;
      }
    }
  }

  lemma PartLined(check: Check, views: Views, checkedAt: int, only: Option<set<Id>>)
    ensures var part := PartOf(check, views, checkedAt, only);
            Lined(part, views) && Within(part, Place(check), Place(check) + 1) && |part| <= 100
  {
    hide PartOf, ColumnOf, Sooner, Accurate, Listed, Before, Place;
    PartTells(check, views, checkedAt, only);
    var column, part := ColumnOf(check, views, checkedAt, only), PartOf(check, views, checkedAt, only);
    ListedInOrder(column);
    forall k, m | 0 <= k < m < |part| ensures Follows(part[k], part[m], views) {
      InOrder(check, views, checkedAt, only, Listed(column)[k], Listed(column)[m]);
    }
  }

  lemma ListedInOrder(column: map<Id, int>)
    ensures |Listed(column)| <= 100
    ensures var ids := Listed(column);
            forall k, m :: 0 <= k < m < |ids| ==>
              && ids[k] in column && ids[m] in column && ids[k] != ids[m] && Before(column, ids[k], ids[m])
  {
  }

  lemma Short(details: seq<Detail>)
    requires |details| <= 100
    ensures Capped(details)
  {
  }

  lemma ReportLined(views: Views, checkedAt: int, only: Option<set<Id>>)
    ensures Lined(AssertConsistency(views, checkedAt, only).details, views)
    ensures Capped(AssertConsistency(views, checkedAt, only).details)
  {
    ReportJoins(views, checkedAt, only);
    hide Lined, Within, PartOf, AssertConsistency, Capped;
    forall check {
      PartLined(check, views, checkedAt, only);
    }
    var a, b, c := PartOf(NotOversold, views, checkedAt, only), PartOf(NotNegative, views, checkedAt, only),
                   PartOf(NoDuplicateActiveSeats, views, checkedAt, only);
    var d, e, f := PartOf(NoOrphanItems, views, checkedAt, only), PartOf(NoOrphanSeats, views, checkedAt, only),
                   PartOf(NoStaleReservations, views, checkedAt, only);
    Short(a);
    LinedUp(a, b, views, 1);
    LinedUp(a + b, c, views, 2);
    LinedUp(a + b + c, d, views, 3);
    LinedUp(a + b + c + d, e, views, 4);
    LinedUp(a + b + c + d + e, f, views, 5);
  }

  // Every detail is about a record that breaks its check and carries that record's own numbers; and every record
  // that breaks a check is listed, unless a hundred that come sooner are; the list goes check by check, sooner first, a hundred each at most.
  lemma DetailsExact(views: Views, checkedAt: int, only: Option<set<Id>>)
    ensures var details := AssertConsistency(views, checkedAt, only).details;
            && (forall d :: d in details ==>
                  Breaks(CheckOf(d), views, checkedAt, only, RecordOf(d)) && Accurate(d, views, checkedAt))
            && (forall check, x :: Breaks(check, views, checkedAt, only, x) ==>
                  Mentioned(details, check, x) || FullBefore(details, check, views, x))
            && Lined(details, views) && Capped(details)
  {
    hide *;
    ReportLined(views, checkedAt, only);
    ReportJoins(views, checkedAt, only);
    forall check {
      PartSound(check, views, checkedAt, only);
    }
    Slices(PartOf(NotOversold, views, checkedAt, only), PartOf(NotNegative, views, checkedAt, only),
           PartOf(NoDuplicateActiveSeats, views, checkedAt, only), PartOf(NoOrphanItems, views, checkedAt, only),
           PartOf(NoOrphanSeats, views, checkedAt, only), PartOf(NoStaleReservations, views, checkedAt, only));
    forall check, x | Breaks(check, views, checkedAt, only, x)
      ensures var details := AssertConsistency(views, checkedAt, only).details;
              Mentioned(details, check, x) || FullBefore(details, check, views, x)
    {
      PartComplete(check, views, checkedAt, only, x);
    }
  }

  // ----- the audit beside a running workload -----

  // The checks that do not depend on the worker keeping up.
  predicate Structural(check: Check) {
    !check.NoStaleReservations?
  }

  lemma StructuralHolds(check: Check, views: Views, checkedAt: int, only: Option<set<Id>>)
    requires Structural(check)
    requires Inv(views.negative) && Inv(views.oversold) && Inv(views.duplicates)
    requires Inv(views.orphanItems) && Inv(views.orphanSeats)
    ensures Holds(check, views, checkedAt, only)
  {
    hide Balanced, Shaped, UniqueKeys, Rooted;
    match check
    case NotNegative =>
      forall t | t in views.negative.ticketTypes
        ensures 0 <= views.negative.ticketTypes[t].total && 0 <= views.negative.ticketTypes[t].sold
                && 0 <= views.negative.ticketTypes[t].reserved
      {
        CountersWithinBounds(views.negative, t);
      }
    case NotOversold =>
      forall t | t in views.oversold.ticketTypes
        ensures views.oversold.ticketTypes[t].sold + views.oversold.ticketTypes[t].reserved
                <= views.oversold.ticketTypes[t].total
      {
        CountersWithinBounds(views.oversold, t);
      }
    case NoOrphanItems =>
      assert forall i :: i in views.orphanItems.items ==> LinkedItem(views.orphanItems, views.orphanItems.items[i]);
    case NoOrphanSeats =>
      assert forall i :: i in views.orphanSeats.seatRows ==> LinkedRow(views.orphanSeats, views.orphanSeats.seatRows[i]);
    case _ =>
  }

  lemma {:induction false} TracePrefix(s: Sys, actions: seq<Action>, n: nat)
    requires SysInv(s) && GoodTrace(s, actions) && n <= |actions|
    ensures GoodTrace(s, actions[..n]) && Inv(Trace(s, actions[..n]).db)
    decreases |actions|
  {
    hide SysInv, Enabled, Do;
    if n == |actions| {
      assert actions[..n] == actions;
      EveryInterleavingIsARun(s, actions);
      InvOf(Trace(s, actions));
    } else {
      assert actions[..|actions| - 1][..n] == actions[..n];
      TracePrefix(s, actions[..|actions| - 1], n);
    }
  }

  // The store committed after the first `n` actions.
  ghost function CommittedAt(s: Sys, actions: seq<Action>, n: nat): Store
    requires n <= |actions| && GoodTrace(s, actions[..n])
  {
    Trace(s, actions[..n]).db
  }

  ghost predicate SeenAlong(s: Sys, actions: seq<Action>, db: Store) {
    exists n :: 0 <= n <= |actions| && GoodTrace(s, actions[..n]) && db == CommittedAt(s, actions, n)
  }

  lemma SeenKeepsInv(s: Sys, actions: seq<Action>, db: Store)
    requires SysInv(s) && GoodTrace(s, actions) && SeenAlong(s, actions, db)
    ensures Inv(db)
  {
    var n :| 0 <= n <= |actions| && GoodTrace(s, actions[..n]) && db == CommittedAt(s, actions, n);
    TracePrefix(s, actions, n);
  }

  // Its queries run at any points between the steps of any workload, each on what is committed by then:
  // the five structural checks never report anything.
  lemma AuditPassesDuringWorkload(s: Sys, actions: seq<Action>, views: Views, checkedAt: int, only: Option<set<Id>>,
                                  check: Check)
    requires SysInv(s) && GoodTrace(s, actions)
    requires SeenAlong(s, actions, views.negative) && SeenAlong(s, actions, views.oversold)
    requires SeenAlong(s, actions, views.duplicates) && SeenAlong(s, actions, views.orphanItems)
    requires SeenAlong(s, actions, views.orphanSeats)
    requires Structural(check)
    ensures check in AssertConsistency(views, checkedAt, only).passed
  {
    hide SysInv, GoodTrace, SeenAlong, Inv, Holds, AssertConsistency;
    SeenKeepsInv(s, actions, views.negative);
    SeenKeepsInv(s, actions, views.oversold);
    SeenKeepsInv(s, actions, views.duplicates);
    SeenKeepsInv(s, actions, views.orphanItems);
    SeenKeepsInv(s, actions, views.orphanSeats);
    StructuralHolds(check, views, checkedAt, only);
    CheckExact(check, views, checkedAt, only);
  }
}
