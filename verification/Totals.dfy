/** Quantities summed over the item rows of one ticket type and one status. */
module Totals {
  import opened Tables

  function Weight(item: Item, ticketType: Id, status: Status): int {
    if item.ticketType == ticketType && item.status == status then item.quantity else 0
  }

  ghost function Pick(items: map<Id, Item>): (i: Id)
    requires |items| != 0
    ensures i in items
    ensures |items - {i}| < |items|
  {
    assert items.Keys != {};
    var i :| i in items;
    assert (items - {i}).Keys == items.Keys - {i};
    i
  }

  ghost function Total(items: map<Id, Item>, ticketType: Id, status: Status): int
    decreases |items|
  {
    if |items| == 0 then
      0
    else
      var i := Pick(items);
      Weight(items[i], ticketType, status) + Total(items - {i}, ticketType, status)
  }

  // Any row may be split off first.
  lemma {:induction false} TotalSplit(items: map<Id, Item>, i: Id, t: Id, status: Status)
    requires i in items
    ensures Total(items, t, status) == Weight(items[i], t, status) + Total(items - {i}, t, status)
    decreases |items|
  {
    var j := Pick(items);
    if i != j {
      var rest := items - {j};
      assert rest.Keys == items.Keys - {j};
      TotalSplit(rest, i, t, status);
      var other := items - {i};
      assert other.Keys == items.Keys - {i};
      TotalSplit(other, j, t, status);
      assert rest - {i} == other - {j};
    }
  }

  lemma WithoutPut(items: map<Id, Item>, i: Id, row: Item)
    ensures items[i := row] - {i} == items - {i}
    ensures i !in items ==> items - {i} == items
  {
  }

  lemma {:induction false} TotalPut(items: map<Id, Item>, i: Id, row: Item, t: Id, status: Status)
    ensures Total(items[i := row], t, status)
         == Total(items, t, status) + Weight(row, t, status)
            - (if i in items then Weight(items[i], t, status) else 0)
  {
    TotalSplit(items[i := row], i, t, status);
    WithoutPut(items, i, row);
    if i in items {
      TotalSplit(items, i, t, status);
    }
  }

  lemma {:induction false} TotalNonNegative(items: map<Id, Item>, t: Id, status: Status)
    requires forall i :: i in items ==> items[i].quantity >= 0
    ensures Total(items, t, status) >= 0
    decreases |items|
  {
    if |items| != 0 {
      var i := Pick(items);
      TotalNonNegative(items - {i}, t, status);
    }
  }

  // One row never weighs more than the whole.
  lemma TotalBounds(items: map<Id, Item>, i: Id, t: Id, status: Status)
    requires forall j :: j in items ==> items[j].quantity >= 0
    requires i in items
    ensures Weight(items[i], t, status) <= Total(items, t, status)
  {
    TotalSplit(items, i, t, status);
    TotalNonNegative(items - {i}, t, status);
  }

}
