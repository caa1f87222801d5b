/** The uncommitted writes of a transaction that settles reservations one after the other. */
module RowWrites {
  import opened Tables
  import opened Ordering
  import opened Spec
  import opened Invariant
  import opened Transitions
  import opened Operations
  import opened Concurrent
  import opened Isolation

  // The writes `w`, extended by the settlement of `r` as seen through them.
  function WithRow(view: Store, w: Writes, r: Id, target: Status): Writes {
    if r !in view.reservations || !view.reservations[r].status.Reserved? then
      w
    else
      var parents := w.reservations[r := view.reservations[r].(status := target)];
      if view.reservations[r].kind.Seats? then
        w.(seatRows := w.seatRows + SettledRows(view, {r}, target), reservations := parents)
      else if ItemsOf(view, r) == [] || view.items[ItemsOf(view, r)[0]].ticketType !in view.ticketTypes then
        w
      else
        assert ItemsOf(view, r)[0] in ItemsOf(view, r);
        var x := ItemsOf(view, r)[0];
        var item := view.items[x];
        w.(ticketTypes := w.ticketTypes[item.ticketType := Move(view.ticketTypes[item.ticketType], item.quantity, target)],
           items := w.items[x := item.(status := target)],
           reservations := parents)
  }

  function Delta(db: Store, rows: seq<Id>, target: Status): Writes
    decreases |rows|
  {
    if rows == [] then
      NO_WRITES
    else
      var w := Delta(db, rows[..|rows| - 1], target);
      WithRow(Overlay(db, w), w, rows[|rows| - 1], target)
  }

  ghost predicate AllReserved(db: Store, rows: seq<Id>) {
    forall r :: r in rows ==> r in db.reservations && db.reservations[r].status.Reserved?
  }

  // ----- the writes amount to the transitions -----

  lemma PutLater<V>(m: map<Id, V>, w: map<Id, V>, k: Id, v: V)
    ensures m + w[k := v] == (m + w)[k := v]
  {
  }

  lemma AddLater<V>(m: map<Id, V>, w: map<Id, V>, x: map<Id, V>)
    ensures m + (w + x) == (m + w) + x
  {
  }

  lemma WithSeatsRow(db: Store, w: Writes, r: Id, target: Status)
    requires r in Overlay(db, w).reservations && Overlay(db, w).reservations[r].status.Reserved?
    requires Overlay(db, w).reservations[r].kind.Seats?
    ensures Overlay(db, WithRow(Overlay(db, w), w, r, target)) == Settle(Overlay(db, w), {r}, target)
  {
    var view := Overlay(db, w);
    SettledSole(view, r, target);
    AddLater(db.seatRows, w.seatRows, SettledRows(view, {r}, target));
    PutLater(db.reservations, w.reservations, r, view.reservations[r].(status := target));
    hide SettledRows, SettledParents, ItemsOf;
  }

  lemma WithQuantityRow(db: Store, w: Writes, r: Id, x: Id, target: Status)
    requires SoleItem(Overlay(db, w), r, x) && ItemsOf(Overlay(db, w), r) == [x]
    ensures Overlay(db, WithRow(Overlay(db, w), w, r, target)) == Moved(Overlay(db, w), r, x, target)
  {
    hide ItemsOf, SettledRows;
    var view := Overlay(db, w);
    var item := view.items[x];
    PutLater(db.ticketTypes, w.ticketTypes, item.ticketType, Move(view.ticketTypes[item.ticketType], item.quantity, target));
    PutLater(db.items, w.items, x, item.(status := target));
    PutLater(db.reservations, w.reservations, r, view.reservations[r].(status := target));
  }

  // Extending the writes by one row is the transition of that row in the view.
  lemma WithRowIsTransition(db: Store, w: Writes, r: Id, target: Status)
    requires Inv(Overlay(db, w)) && !target.Reserved?
    requires r in Overlay(db, w).reservations && Overlay(db, w).reservations[r].status.Reserved?
    ensures TransitionReserved(Overlay(db, w), r, target) == Some(Overlay(db, WithRow(Overlay(db, w), w, r, target)))
  {
    var view := Overlay(db, w);
    hide Inv, WithRow, Overlay, Moved, Settle, TransitionReserved, CanMove, RowsReserved, SoleItem;
    if view.reservations[r].kind.Quantity? {
      var x := QuantityPasses(view, r, target);
      WithQuantityRow(db, w, r, x, target);
    } else {
      SeatsPass(view, r, target);
      WithSeatsRow(db, w, r, target);
    }
  }

  lemma OverlayNothing(db: Store)
    ensures Overlay(db, NO_WRITES) == db
  {
  }

  // The view after the first rows keeps the invariant and has settled exactly them.
  lemma {:induction false} DeltaView(db: Store, rows: seq<Id>, target: Status)
    requires Inv(db) && Distinct(rows) && AllReserved(db, rows) && !target.Reserved?
    ensures var view := Overlay(db, Delta(db, rows, target));
            && Inv(view) && view.reservations.Keys == db.reservations.Keys
            && forall r :: r in db.reservations ==>
                 view.reservations[r] == if r in rows then db.reservations[r].(status := target) else db.reservations[r]
    decreases |rows|
  {
    hide Inv, WithRow, Overlay, TransitionReserved;
    if rows == [] {
      OverlayNothing(db);
    } else {
      var n := |rows| - 1;
      var init := rows[..n];
      assert rows == init + [rows[n]];
      assert rows[n] in rows && rows[n] !in init;
      DeltaView(db, init, target);
      var w := Delta(db, init, target);
      WithRowIsTransition(db, w, rows[n], target);
      TransitionParents(Overlay(db, w), rows[n], target);
      GuardsNeverFail(Overlay(db, w), rows[n], target);
    }
  }

  // Committing the writes of a batch is the atomic batch.
  lemma {:induction false} DeltaIsBatch(db: Store, rows: seq<Id>)
    requires Inv(db) && Distinct(rows) && AllReserved(db, rows)
    ensures Overlay(db, Delta(db, rows, Expired)) == ExpireRows(db, rows).0
    decreases |rows|
  {
    hide Inv, WithRow, Overlay, TransitionReserved;
    if rows == [] {
      OverlayNothing(db);
    } else {
      var n := |rows| - 1;
      var init := rows[..n];
      assert rows == init + [rows[n]];
      assert rows[n] in rows && rows[n] !in init;
      DeltaIsBatch(db, init);
      DeltaView(db, init, Expired);
      WithRowIsTransition(db, Delta(db, init, Expired), rows[n], Expired);
    }
  }

  lemma DeltaIsTransition(db: Store, r: Id, target: Status)
    requires Inv(db) && r in db.reservations && db.reservations[r].status.Reserved? && !target.Reserved?
    ensures TransitionReserved(db, r, target) == Some(Overlay(db, Delta(db, [r], target)))
  {
    hide Inv, WithRow, Overlay, TransitionReserved;
    OverlayNothing(db);
    assert [r][..0] == [];
    assert Delta(db, [], target) == NO_WRITES;
    WithRowIsTransition(db, NO_WRITES, r, target);
  }

  // ----- the writes do not depend on what others commit -----

  lemma QuietItemEntry(db: Store, d: Store, w: Writes, locks: set<Lock>, r: Id, i: Id)
    requires Quiet(db, d, locks) && r in db.reservations && ParentLock(r) in locks
    ensures i in ItemColumn(Overlay(d, w), r) <==> i in ItemColumn(Overlay(db, w), r)
    ensures i in ItemColumn(Overlay(db, w), r) ==> Overlay(d, w).items[i] == Overlay(db, w).items[i]
    ensures i in ItemColumn(Overlay(db, w), r) ==> ItemColumn(Overlay(d, w), r)[i] == ItemColumn(Overlay(db, w), r)[i]
  {
    QuietItemsOf(db, d, locks, r, i);
    hide Quiet;
  }

  lemma QuietItemColumn(db: Store, d: Store, w: Writes, locks: set<Lock>, r: Id)
    requires Quiet(db, d, locks) && r in db.reservations && ParentLock(r) in locks
    ensures ItemColumn(Overlay(d, w), r) == ItemColumn(Overlay(db, w), r)
    ensures ItemsOf(Overlay(d, w), r) == ItemsOf(Overlay(db, w), r)
    ensures forall i :: i in ItemsOf(Overlay(db, w), r) ==> Overlay(d, w).items[i] == Overlay(db, w).items[i]
  {
    hide Quiet, Overlay, ItemColumn;
    var a, b := Overlay(db, w), Overlay(d, w);
    forall i ensures i in ItemColumn(b, r) <==> i in ItemColumn(a, r)
             ensures i in ItemColumn(a, r) && i in ItemColumn(b, r) ==> ItemColumn(b, r)[i] == ItemColumn(a, r)[i]
    {
      QuietItemEntry(db, d, w, locks, r, i);
    }
    assert ItemColumn(b, r) == ItemColumn(a, r);
    hide IsOrdered;
    assert ItemsOf(b, r) == ItemsOf(a, r);
    forall i | i in ItemsOf(a, r) ensures i in b.items && b.items[i] == a.items[i] {
      ItemInColumn(a, r, i);
      ItemInColumn(b, r, i);
      QuietItemEntry(db, d, w, locks, r, i);
    }
  }

  lemma ItemInColumn(db: Store, r: Id, i: Id)
    requires i in ItemsOf(db, r)
    ensures i in ItemColumn(db, r) && i in db.items
  {
  }

  lemma QuietSeatEntry(db: Store, d: Store, w: Writes, locks: set<Lock>, r: Id, target: Status, i: Id)
    requires Quiet(db, d, locks) && r in db.reservations && ParentLock(r) in locks
    ensures i in SettledRows(Overlay(d, w), {r}, target) <==> i in SettledRows(Overlay(db, w), {r}, target)
    ensures i in SettledRows(Overlay(db, w), {r}, target) ==>
              SettledRows(Overlay(d, w), {r}, target)[i] == SettledRows(Overlay(db, w), {r}, target)[i]
  {
    hide Quiet, SettledRows;
    QuietRowsOf(db, d, locks, r, i);
    SettledEntry(Overlay(db, w), r, target, i);
    SettledEntry(Overlay(d, w), r, target, i);
    OverlaidRow(db, w, i);
    OverlaidRow(d, w, i);
    hide Overlay;
  }

  lemma SettledEntry(db: Store, r: Id, target: Status, i: Id)
    ensures i in SettledRows(db, {r}, target)
       <==> i in db.seatRows && db.seatRows[i].reservation == r && db.seatRows[i].status.Reserved?
    ensures i in SettledRows(db, {r}, target) ==> SettledRows(db, {r}, target)[i] == db.seatRows[i].(status := target)
  {
  }

  lemma OverlaidRow(db: Store, w: Writes, i: Id)
    ensures i in Overlay(db, w).seatRows <==> i in w.seatRows || i in db.seatRows
    ensures i in Overlay(db, w).seatRows ==>
              Overlay(db, w).seatRows[i] == if i in w.seatRows then w.seatRows[i] else db.seatRows[i]
  {
  }

  lemma QuietSeatColumn(db: Store, d: Store, w: Writes, locks: set<Lock>, r: Id, target: Status)
    requires Quiet(db, d, locks) && r in db.reservations && ParentLock(r) in locks
    ensures SettledRows(Overlay(d, w), {r}, target) == SettledRows(Overlay(db, w), {r}, target)
  {
    hide Quiet, Overlay, SettledRows;
    var a, b := SettledRows(Overlay(db, w), {r}, target), SettledRows(Overlay(d, w), {r}, target);
    forall i ensures (i in b <==> i in a) && (i in a && i in b ==> b[i] == a[i]) {
      QuietSeatEntry(db, d, w, locks, r, target, i);
    }
  }

  lemma QuietView(db: Store, d: Store, w: Writes, locks: set<Lock>, r: Id)
    requires Quiet(db, d, locks) && r in db.reservations && ParentLock(r) in locks
    ensures var a, b := Overlay(db, w), Overlay(d, w);
            && r in a.reservations && r in b.reservations && a.reservations[r] == b.reservations[r]
            && a.ticketTypes.Keys == b.ticketTypes.Keys
            && forall t :: t in db.ticketTypes && TypeLock(t) in locks
                 ==> t in a.ticketTypes && t in b.ticketTypes && a.ticketTypes[t] == b.ticketTypes[t]
  {
  }

  lemma QuietWithRow(db: Store, d: Store, w: Writes, locks: set<Lock>, r: Id, target: Status)
    requires Quiet(db, d, locks) && r in db.reservations && ParentLock(r) in locks
    requires forall t :: t in WithRow(Overlay(db, w), w, r, target).ticketTypes ==> TypeLock(t) in locks && t in db.ticketTypes
    ensures WithRow(Overlay(d, w), w, r, target) == WithRow(Overlay(db, w), w, r, target)
  {
    hide Quiet, Overlay, SettledRows, ItemsOf, Settle;
    QuietView(db, d, w, locks, r);
    QuietItemColumn(db, d, w, locks, r);
    QuietSeatColumn(db, d, w, locks, r, target);
    var a := Overlay(db, w);
    if ItemsOf(a, r) != [] {
      assert ItemsOf(a, r)[0] in ItemsOf(a, r);
    }
  }

  lemma WithRowGrows(view: Store, w: Writes, r: Id, target: Status)
    ensures w.ticketTypes.Keys <= WithRow(view, w, r, target).ticketTypes.Keys
  {
  }

  lemma {:induction false} QuietDelta(db: Store, d: Store, locks: set<Lock>, rows: seq<Id>, target: Status)
    requires Quiet(db, d, locks)
    requires forall r :: r in rows ==> r in db.reservations && ParentLock(r) in locks
    requires forall t :: t in Delta(db, rows, target).ticketTypes ==> TypeLock(t) in locks && t in db.ticketTypes
    ensures Delta(d, rows, target) == Delta(db, rows, target)
    decreases |rows|
  {
    hide Quiet, WithRow, Overlay;
    if rows != [] {
      var n := |rows| - 1;
      var init := rows[..n];
      var w := Delta(db, init, target);
      assert rows == init + [rows[n]];
      WithRowGrows(Overlay(db, w), w, rows[n], target);
      QuietDelta(db, d, locks, init, target);
      assert rows[n] in rows;
      QuietWithRow(db, d, w, locks, rows[n], target);
    }
  }
}
