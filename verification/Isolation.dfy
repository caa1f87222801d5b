/** Transaction isolation: what the locks a transaction holds protect while others commit. */
module Isolation {
  import opened Tables
  import opened Spec
  import opened Concurrent

  // ----- every uncommitted write is backed by a lock -----

  ghost predicate CoveredType(db: Store, tx: Tx, t: Id)
    requires t in tx.writes.ticketTypes
  {
    && t in db.ticketTypes && TypeLock(t) in tx.locks
    && tx.writes.ticketTypes[t].event == db.ticketTypes[t].event
    && tx.writes.ticketTypes[t].total == db.ticketTypes[t].total
  }

  ghost predicate CoveredParent(db: Store, tx: Tx, r: Id)
    requires r in tx.writes.reservations
  {
    var row := tx.writes.reservations[r];
    if r in db.reservations then
      && ParentLock(r) in tx.locks && db.reservations[r].status.Reserved?
      && row == db.reservations[r].(status := row.status)
    else
      KeyLock(row.session, row.key) in tx.locks
  }

  ghost predicate CoveredItem(db: Store, tx: Tx, i: Id)
    requires i in tx.writes.items
  {
    var row := tx.writes.items[i];
    if i in db.items then
      ParentLock(row.reservation) in tx.locks && row == db.items[i].(status := row.status)
    else
      row.reservation !in db.reservations
  }

  ghost predicate CoveredRow(db: Store, tx: Tx, i: Id)
    requires i in tx.writes.seatRows
  {
    var row := tx.writes.seatRows[i];
    if i in db.seatRows then
      && ParentLock(row.reservation) in tx.locks && db.seatRows[i].status.Reserved?
      && row == db.seatRows[i].(status := row.status)
    else
      row.reservation !in db.reservations && SeatLock(row.seat) in tx.locks
  }

  ghost predicate Covered(db: Store, tx: Tx) {
    && (forall t :: t in tx.writes.ticketTypes ==> CoveredType(db, tx, t))
    && (forall r :: r in tx.writes.reservations ==> CoveredParent(db, tx, r))
    && (forall i :: i in tx.writes.items ==> CoveredItem(db, tx, i))
    && (forall i :: i in tx.writes.seatRows ==> CoveredRow(db, tx, i))
  }

  // ----- what a commit by somebody else leaves alone -----

  ghost predicate QuietParent(db: Store, d: Store, locks: set<Lock>, r: Id)
    requires r in db.reservations
  {
    && r in d.reservations && d.reservations[r] == db.reservations[r].(status := d.reservations[r].status)
    && (ParentLock(r) in locks ==> d.reservations[r] == db.reservations[r])
  }

  ghost predicate QuietItem(db: Store, d: Store, locks: set<Lock>, i: Id)
    requires i in db.items
  {
    && i in d.items && d.items[i] == db.items[i].(status := d.items[i].status)
    && (ParentLock(db.items[i].reservation) in locks ==> d.items[i] == db.items[i])
  }

  ghost predicate QuietRow(db: Store, d: Store, locks: set<Lock>, i: Id)
    requires i in db.seatRows
  {
    && i in d.seatRows && d.seatRows[i] == db.seatRows[i].(status := d.seatRows[i].status)
    && (!db.seatRows[i].status.Reserved? || ParentLock(db.seatRows[i].reservation) in locks
        ==> d.seatRows[i] == db.seatRows[i])
  }

  // From `db` to `d` nothing changed that the holder of `locks` relies on.
  ghost predicate Quiet(db: Store, d: Store, locks: set<Lock>) {
    && d.events == db.events && d.seats == db.seats && d.ticketTypes.Keys == db.ticketTypes.Keys
    && (forall t :: t in db.ticketTypes && TypeLock(t) in locks ==> d.ticketTypes[t] == db.ticketTypes[t])
    && (forall t :: t in db.ticketTypes ==> d.ticketTypes[t].event == db.ticketTypes[t].event
                                            && d.ticketTypes[t].total == db.ticketTypes[t].total)
    && (forall r :: r in db.reservations ==> QuietParent(db, d, locks, r))
    && (forall i :: i in db.items ==> QuietItem(db, d, locks, i))
    && (forall i :: i in db.seatRows ==> QuietRow(db, d, locks, i))
    && (forall r :: r in d.reservations && r !in db.reservations
                    ==> KeyLock(d.reservations[r].session, d.reservations[r].key) !in locks)
    && (forall i :: i in d.items && i !in db.items ==> d.items[i].reservation !in db.reservations)
    && (forall i :: i in d.seatRows && i !in db.seatRows
                    ==> d.seatRows[i].reservation !in db.reservations && SeatLock(d.seatRows[i].seat) !in locks)
  }

  // The commit of one transaction is quiet for every transaction whose locks are disjoint from its own.
  lemma CommitIsQuiet(db: Store, committing: Tx, locks: set<Lock>)
    requires Covered(db, committing) && committing.locks !! locks
    ensures Quiet(db, Overlay(db, committing.writes), locks)
  {
    var w := committing.writes;
    var d := Overlay(db, w);
    assert forall t :: t in w.ticketTypes ==> CoveredType(db, committing, t);
    assert d.ticketTypes.Keys == db.ticketTypes.Keys;
    forall r | r in db.reservations ensures QuietParent(db, d, locks, r) {
      if r in w.reservations { assert CoveredParent(db, committing, r); }
    }
    forall i | i in db.items ensures QuietItem(db, d, locks, i) {
      if i in w.items { assert CoveredItem(db, committing, i); }
    }
    forall i | i in db.seatRows ensures QuietRow(db, d, locks, i) {
      if i in w.seatRows { assert CoveredRow(db, committing, i); }
    }
  }

  // ----- what the quiet relation preserves -----

  lemma QuietKey(db: Store, d: Store, locks: set<Lock>, session: Id, key: string)
    requires Quiet(db, d, locks) && KeyLock(session, key) in locks && !KeyUsed(db, session, key)
    ensures !KeyUsed(d, session, key)
  {
  }

  lemma QuietRowsOf(db: Store, d: Store, locks: set<Lock>, r: Id, i: Id)
    requires Quiet(db, d, locks) && r in db.reservations && ParentLock(r) in locks
    ensures (i in d.seatRows && d.seatRows[i].reservation == r) <==> (i in db.seatRows && db.seatRows[i].reservation == r)
    ensures i in d.seatRows && d.seatRows[i].reservation == r ==> d.seatRows[i] == db.seatRows[i]
  {
  }

  lemma QuietItemsOf(db: Store, d: Store, locks: set<Lock>, r: Id, i: Id)
    requires Quiet(db, d, locks) && r in db.reservations && ParentLock(r) in locks
    ensures (i in d.items && d.items[i].reservation == r) <==> (i in db.items && db.items[i].reservation == r)
    ensures i in d.items && d.items[i].reservation == r ==> d.items[i] == db.items[i]
  {
  }

  ghost predicate Protects(db: Store, locks: set<Lock>, holders: set<Id>) {
    forall r :: r in holders ==> r in db.reservations && ParentLock(r) in locks
  }

  lemma QuietSettledRow(db: Store, d: Store, locks: set<Lock>, holders: set<Id>, target: Status, i: Id)
    requires Quiet(db, d, locks) && Protects(db, locks, holders)
    ensures i in SettledRows(d, holders, target) <==> i in SettledRows(db, holders, target)
    ensures i in SettledRows(d, holders, target) ==> SettledRows(d, holders, target)[i] == SettledRows(db, holders, target)[i]
  {
    if i in d.seatRows && d.seatRows[i].reservation in holders {
      QuietRowsOf(db, d, locks, d.seatRows[i].reservation, i);
    }
    if i in db.seatRows && db.seatRows[i].reservation in holders {
      QuietRowsOf(db, d, locks, db.seatRows[i].reservation, i);
    }
    hide Quiet;
  }

  lemma QuietSettledParent(db: Store, d: Store, locks: set<Lock>, holders: set<Id>, target: Status)
    requires Quiet(db, d, locks) && Protects(db, locks, holders)
    ensures SettledParents(d, holders, target) == SettledParents(db, holders, target)
  {
  }

  lemma QuietSettled(db: Store, d: Store, locks: set<Lock>, holders: set<Id>, target: Status)
    requires Quiet(db, d, locks) && Protects(db, locks, holders)
    ensures SettledRows(d, holders, target) == SettledRows(db, holders, target)
    ensures SettledParents(d, holders, target) == SettledParents(db, holders, target)
  {
    QuietSettledParent(db, d, locks, holders, target);
    forall i
      ensures i in SettledRows(d, holders, target) <==> i in SettledRows(db, holders, target)
      ensures i in SettledRows(d, holders, target) ==> SettledRows(d, holders, target)[i] == SettledRows(db, holders, target)[i]
    {
      QuietSettledRow(db, d, locks, holders, target, i);
    }
    hide SettledRows, Quiet;
  }

  // ----- coverage survives the commits of others -----

  // The ids a transaction inserted are still new after the commit.
  ghost predicate StillNew(db: Store, d: Store, w: Writes) {
    && (forall r :: r in w.reservations && r !in db.reservations ==> r !in d.reservations)
    && (forall i :: i in w.seatRows && i !in db.seatRows ==> i !in d.seatRows)
    && (forall i :: i in w.items ==> i in db.items)
    && (forall i :: i in w.seatRows && i !in db.seatRows ==> w.seatRows[i].reservation in w.reservations)
  }

  lemma CoveredStays(db: Store, d: Store, tx: Tx)
    requires Covered(db, tx) && Quiet(db, d, tx.locks) && StillNew(db, d, tx.writes)
    ensures Covered(d, tx)
  {
    forall t | t in tx.writes.ticketTypes ensures CoveredType(d, tx, t) {
      assert CoveredType(db, tx, t);
    }
    forall r | r in tx.writes.reservations ensures CoveredParent(d, tx, r) {
      assert CoveredParent(db, tx, r);
      assert r in db.reservations ==> QuietParent(db, d, tx.locks, r);
    }
    forall i | i in tx.writes.items ensures CoveredItem(d, tx, i) {
      assert CoveredItem(db, tx, i);
      assert QuietItem(db, d, tx.locks, i);
    }
    forall i | i in tx.writes.seatRows ensures CoveredRow(d, tx, i) {
      assert CoveredRow(db, tx, i);
      assert i in db.seatRows ==> QuietRow(db, d, tx.locks, i);
    }
  }
}
