/** Transitions of one reservation in a state that keeps the invariant: the guards never fail,
    and the general item and seat loops have a closed form. */
module Transitions {
  import opened Tables
  import opened Ordering
  import opened Spec
  import opened Totals
  import opened Invariant

  lemma SoleItemExists(db: Store, r: Id) returns (x: Id)
    requires Linked(db) && Shaped(db)
    requires r in db.reservations && db.reservations[r].kind.Quantity? && db.reservations[r].status.Reserved?
    ensures SoleItem(db, r, x) && ItemsOf(db, r) == [x]
  {
    assert HasItem(db, r);
    x :| x in db.items && db.items[x].reservation == r;
    assert LinkedItem(db, db.items[x]);
    var column := ItemColumn(db, r);
    assert column.Keys == {x};
    assert |column| == |column.Keys| == 1;
    assert ItemsOf(db, r) == Ordered(column);
    assert Ordered(column)[0] in column;
  }

  // Conservation turns a reserved item into a passing guard.
  lemma GuardPasses(db: Store, r: Id, x: Id, target: Status)
    requires Linked(db) && Balanced(db) && SoleItem(db, r, x)
    ensures CanMove(db, db.items[x].ticketType, db.items[x].quantity, target)
  {
    var t := db.items[x].ticketType;
    assert forall i :: i in db.items ==> LinkedItem(db, db.items[i]);
    assert BalancedType(db, t);
    TotalBounds(db.items, x, t, Reserved);
  }

  lemma MovedForm(db: Store, r: Id, x: Id, target: Status)
    requires SoleItem(db, r, x) && ItemsOf(db, r) == [x]
    requires CanMove(db, db.items[x].ticketType, db.items[x].quantity, target)
    ensures TransitionReserved(db, r, target) == Some(Moved(db, r, x, target))
  {
    var item := db.items[x];
    var moved := MoveStock(db, item.ticketType, item.quantity, target).value;
    var d := moved.(items := moved.items[x := item.(status := target)]);
    assert [x][1..] == [];
    assert TransitionItems(d, [], target) == Some(d);
    assert TransitionItems(db, [x], target) == TransitionItems(d, [x][1..], target);
  }

  lemma SeatsReserved(db: Store, r: Id)
    requires Linked(db) && Shaped(db)
    requires r in db.reservations && db.reservations[r].kind.Seats? && db.reservations[r].status.Reserved?
    ensures RowsReserved(db, r)
  {
  }

  lemma SettledSole(db: Store, r: Id, target: Status)
    requires r in db.reservations && db.reservations[r].status.Reserved?
    ensures Settle(db, {r}, target).reservations == db.reservations[r := db.reservations[r].(status := target)]
  {
  }

  lemma SettledForm(db: Store, r: Id, target: Status)
    requires r in db.reservations && db.reservations[r].kind.Seats? && db.reservations[r].status.Reserved?
    requires RowsReserved(db, r)
    ensures TransitionReserved(db, r, target) == Some(Settle(db, {r}, target))
    ensures Settle(db, {r}, target).reservations == db.reservations[r := db.reservations[r].(status := target)]
  {
    SettledSole(db, r, target);
  }

  lemma QuantityPasses(db: Store, r: Id, target: Status) returns (x: Id)
    requires Inv(db) && !target.Reserved?
    requires r in db.reservations && db.reservations[r].kind.Quantity? && db.reservations[r].status.Reserved?
    ensures SoleItem(db, r, x) && TransitionReserved(db, r, target) == Some(Moved(db, r, x, target))
    ensures ItemsOf(db, r) == [x] && CanMove(db, db.items[x].ticketType, db.items[x].quantity, target)
    ensures Inv(Moved(db, r, x, target))
  {
    x := SoleItemExists(db, r);
    GuardPasses(db, r, x, target);
    MovedForm(db, r, x, target);
    MovedInv(db, r, x, target);
  }

  lemma SeatsPass(db: Store, r: Id, target: Status)
    requires Inv(db)
    requires r in db.reservations && db.reservations[r].kind.Seats? && db.reservations[r].status.Reserved?
    ensures TransitionReserved(db, r, target) == Some(Settle(db, {r}, target))
    ensures Settle(db, {r}, target).reservations == db.reservations[r := db.reservations[r].(status := target)]
    ensures Inv(Settle(db, {r}, target))
  {
    SeatsReserved(db, r);
    SettledForm(db, r, target);
    SettleInv(db, {r}, target);
  }

  // No transition of a row in a reachable state raises the inventory conflict.
  lemma GuardsNeverFail(db: Store, r: Id, target: Status)
    requires Inv(db) && r in db.reservations && !target.Reserved?
    ensures TransitionReserved(db, r, target).Some?
    ensures Inv(TransitionReserved(db, r, target).value)
  {
    if db.reservations[r].status.Reserved? {
      if db.reservations[r].kind.Quantity? {
        var x := QuantityPasses(db, r, target);
      } else {
        SeatsPass(db, r, target);
      }
    }
  }

  // The parents after a transition: `r` and nothing else takes the target status.
  lemma TransitionParents(db: Store, r: Id, target: Status)
    requires Inv(db) && r in db.reservations && db.reservations[r].status.Reserved? && !target.Reserved?
    ensures TransitionReserved(db, r, target).Some?
    ensures TransitionReserved(db, r, target).value.reservations
         == db.reservations[r := db.reservations[r].(status := target)]
  {
    if db.reservations[r].kind.Quantity? {
      var x := QuantityPasses(db, r, target);
    } else {
      SeatsPass(db, r, target);
    }
  }
}
