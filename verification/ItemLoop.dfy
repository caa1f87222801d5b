/** The item loop of a quantity transition, on any item list and any store, consistent or not:
    it succeeds exactly when an aggregate test per ticket type does. */
module ItemLoop {
  import opened Tables
  import opened Spec
  import opened Operations

  // What the listed items ask of ticket type `t` together.
  function Demand(items: map<Id, Item>, ids: seq<Id>, t: Id): int
    requires forall i :: i in ids ==> i in items
  {
    if ids == [] then 0
    else (if items[ids[0]].ticketType == t then items[ids[0]].quantity else 0) + Demand(items, ids[1..], t)
  }

  lemma {:induction false} DemandElsewhere(items: map<Id, Item>, items': map<Id, Item>, ids: seq<Id>, t: Id)
    requires forall i :: i in ids ==> i in items && i in items'
                                      && items[i].ticketType == items'[i].ticketType && items[i].quantity == items'[i].quantity
    ensures Demand(items, ids, t) == Demand(items', ids, t)
  {
    if ids != [] {
      DemandElsewhere(items, items', ids[1..], t);
    }
  }

  lemma {:induction false} DemandPositive(items: map<Id, Item>, ids: seq<Id>, t: Id)
    requires forall i :: i in ids ==> i in items && items[i].quantity > 0
    ensures Demand(items, ids, t) >= 0
    ensures forall i :: i in ids && items[i].ticketType == t ==> Demand(items, ids, t) >= items[i].quantity
  {
    if ids != [] {
      DemandPositive(items, ids[1..], t);
      assert forall i :: i in ids ==> i == ids[0] || i in ids[1..];
    }
  }

  // The aggregate test for the ticket type of one listed item.
  ghost predicate FitsItem(db: Store, ids: seq<Id>, target: Status, i: Id)
    requires i in ids && forall j :: j in ids ==> j in db.items
  {
    var t := db.items[i].ticketType;
    && db.items[i].status.Reserved?
    && t in db.ticketTypes && db.ticketTypes[t].reserved >= Demand(db.items, ids, t)
    && (target.Confirmed? ==> db.ticketTypes[t].sold + db.ticketTypes[t].reserved <= db.ticketTypes[t].total)
  }

  ghost predicate Fits(db: Store, ids: seq<Id>, target: Status)
    requires forall i :: i in ids ==> i in db.items
  {
    forall i :: i in ids ==> FitsItem(db, ids, target, i)
  }

  // The store in which every counter has moved by the whole demand and every listed item is settled.
  ghost predicate MovedTogether(db: Store, ids: seq<Id>, target: Status, d: Store)
    requires forall i :: i in ids ==> i in db.items
  {
    && d == db.(ticketTypes := d.ticketTypes, items := d.items)
    && d.ticketTypes.Keys == db.ticketTypes.Keys && d.items.Keys == db.items.Keys
    && (forall t :: t in db.ticketTypes ==>
          var demand := Demand(db.items, ids, t);
          d.ticketTypes[t] == db.ticketTypes[t].(
            reserved := db.ticketTypes[t].reserved - demand,
            sold := db.ticketTypes[t].sold + if target.Confirmed? then demand else 0))
    && (forall i :: i in db.items ==>
          d.items[i] == if i in ids then db.items[i].(status := target) else db.items[i])
  }

  // The store after the first listed item went through.
  function FirstMoved(db: Store, i: Id, target: Status): Store
    requires i in db.items && db.items[i].ticketType in db.ticketTypes
  {
    var item := db.items[i];
    db.(ticketTypes := db.ticketTypes[item.ticketType := Move(db.ticketTypes[item.ticketType], item.quantity, target)],
        items := db.items[i := item.(status := target)])
  }

  lemma DemandAfterFirst(db: Store, ids: seq<Id>, target: Status, t: Id)
    requires ids != [] && Distinct(ids) && forall i :: i in ids ==> i in db.items
    requires db.items[ids[0]].ticketType in db.ticketTypes
    ensures Demand(db.items, ids, t)
         == (if db.items[ids[0]].ticketType == t then db.items[ids[0]].quantity else 0)
            + Demand(FirstMoved(db, ids[0], target).items, ids[1..], t)
  {
    DemandElsewhere(db.items, FirstMoved(db, ids[0], target).items, ids[1..], t);
  }

  lemma FitsAfterFirst(db: Store, ids: seq<Id>, target: Status)
    requires ids != [] && Distinct(ids) && !target.Reserved?
    requires forall i :: i in ids ==> i in db.items && db.items[i].quantity > 0
    requires db.items[ids[0]].status.Reserved?
    requires CanMove(db, db.items[ids[0]].ticketType, db.items[ids[0]].quantity, target)
    ensures Fits(db, ids, target) <==> Fits(FirstMoved(db, ids[0], target), ids[1..], target)
  {
    var d := FirstMoved(db, ids[0], target);
    var rest := ids[1..];
    var first := db.items[ids[0]];
    assert forall i :: i in ids <==> i == ids[0] || i in rest;
    assert ids[0] !in rest;
    forall i | i in rest ensures FitsItem(db, ids, target, i) <==> FitsItem(d, rest, target, i) {
      DemandAfterFirst(db, ids, target, db.items[i].ticketType);
    }
    DemandAfterFirst(db, ids, target, first.ticketType);
    DemandPositive(d.items, rest, first.ticketType);
    if Fits(d, rest, target) {
      if i :| i in rest && db.items[i].ticketType == first.ticketType {
        assert FitsItem(d, rest, target, i);
      } else {
        NoDemand(d.items, rest, first.ticketType);
      }
      assert FitsItem(db, ids, target, ids[0]);
    }
  }

  lemma {:induction false} NoDemand(items: map<Id, Item>, ids: seq<Id>, t: Id)
    requires forall i :: i in ids ==> i in items && items[i].ticketType != t
    ensures Demand(items, ids, t) == 0
  {
    if ids != [] {
      NoDemand(items, ids[1..], t);
    }
  }

  lemma MovedAfterFirst(db: Store, ids: seq<Id>, target: Status, d: Store)
    requires ids != [] && Distinct(ids) && forall i :: i in ids ==> i in db.items
    requires db.items[ids[0]].ticketType in db.ticketTypes
    requires MovedTogether(FirstMoved(db, ids[0], target), ids[1..], target, d)
    ensures MovedTogether(db, ids, target, d)
  {
    forall t | t in db.ticketTypes
      ensures d.ticketTypes[t] == Move(db.ticketTypes[t], Demand(db.items, ids, t), target)
    {
      DemandAfterFirst(db, ids, target, t);
    }
    assert forall i :: i in ids <==> i == ids[0] || i in ids[1..];
  }

  lemma NothingListed(db: Store, target: Status)
    ensures TransitionItems(db, [], target) == Some(db)
    ensures Fits(db, [], target) && MovedTogether(db, [], target, db)
  {
  }

  lemma FirstRefused(db: Store, ids: seq<Id>, target: Status)
    requires ids != [] && forall i :: i in ids ==> i in db.items && db.items[i].quantity > 0
    requires !(db.items[ids[0]].status.Reserved?
               && CanMove(db, db.items[ids[0]].ticketType, db.items[ids[0]].quantity, target))
    ensures TransitionItems(db, ids, target).None? && !Fits(db, ids, target)
  {
    DemandPositive(db.items, ids, db.items[ids[0]].ticketType);
    assert !FitsItem(db, ids, target, ids[0]);
    hide Fits;
  }

  lemma FirstPasses(db: Store, ids: seq<Id>, target: Status)
    requires ids != [] && forall i :: i in ids ==> i in db.items
    requires db.items[ids[0]].status.Reserved?
    requires CanMove(db, db.items[ids[0]].ticketType, db.items[ids[0]].quantity, target)
    ensures TransitionItems(db, ids, target) == TransitionItems(FirstMoved(db, ids[0], target), ids[1..], target)
  {
  }

  // The loop and the aggregate test agree, and a passing loop moves each counter by its whole demand.
  lemma {:induction false} LoopIsAggregate(db: Store, ids: seq<Id>, target: Status)
    requires Distinct(ids) && !target.Reserved?
    requires forall i :: i in ids ==> i in db.items && db.items[i].quantity > 0
    ensures TransitionItems(db, ids, target).Some? <==> Fits(db, ids, target)
    ensures Fits(db, ids, target) ==> MovedTogether(db, ids, target, TransitionItems(db, ids, target).value)
    decreases |ids|
  {
    hide Fits, MovedTogether, TransitionItems;
    if ids == [] {
      NothingListed(db, target);
    } else {
      var item := db.items[ids[0]];
      if item.status.Reserved? && CanMove(db, item.ticketType, item.quantity, target) {
        var d := FirstMoved(db, ids[0], target);
        FirstPasses(db, ids, target);
        FitsAfterFirst(db, ids, target);
        LoopIsAggregate(d, ids[1..], target);
        if Fits(db, ids, target) {
          MovedAfterFirst(db, ids, target, TransitionItems(d, ids[1..], target).value);
        }
      } else {
        FirstRefused(db, ids, target);
      }
    }
  }

  // The same for the whole quantity transition: an empty item list is refused.
  lemma QuantityTransitionIsAggregate(db: Store, r: Id, target: Status)
    requires !target.Reserved? && forall i :: i in db.items ==> db.items[i].quantity > 0
    ensures TransitionQuantity(db, r, target).Some?
       <==> ItemsOf(db, r) != [] && Fits(db, ItemsOf(db, r), target)
    ensures TransitionQuantity(db, r, target).Some?
       ==> MovedTogether(db, ItemsOf(db, r), target, TransitionQuantity(db, r, target).value)
  {
    hide Fits, MovedTogether;
    ItemsDistinct(db, r);
    LoopIsAggregate(db, ItemsOf(db, r), target);
  }

  lemma ItemsDistinct(db: Store, r: Id)
    ensures Distinct(ItemsOf(db, r))
  {
  }
}
