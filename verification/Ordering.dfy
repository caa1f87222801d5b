/** `ORDER BY column, id`: the ids of a table in ascending order of a column, ties broken by id. */
module Ordering {
  import opened Tables

  predicate Before(column: map<Id, int>, a: Id, b: Id)
    requires a in column && b in column
  {
    column[a] < column[b] || (column[a] == column[b] && a <= b)
  }

  lemma {:induction false} FirstAmong(column: map<Id, int>, ids: set<Id>) returns (a: Id)
    requires ids <= column.Keys && ids != {}
    ensures a in ids && forall b | b in ids :: Before(column, a, b)
    decreases |ids|
  {
    var y :| y in ids;
    a := y;
    if ids - {y} != {} {
      var x := FirstAmong(column, ids - {y});
      a := if Before(column, x, y) then x else y;
    }
    forall b | b in ids ensures Before(column, a, b) {
      assert b == y || b in ids - {y};
    }
  }

  function First(column: map<Id, int>): (a: Id)
    requires column != map[]
    ensures a in column && forall b | b in column :: Before(column, a, b)
  {
    assert exists a :: a in column && forall b | b in column :: Before(column, a, b) by {
      assert column.Keys != {};
      var _ := FirstAmong(column, column.Keys);
    }
    var a :| a in column && forall b | b in column :: Before(column, a, b);
    a
  }

  ghost predicate IsOrdered(column: map<Id, int>, ids: seq<Id>) {
    && (forall i :: i in ids <==> i in column)
    && (forall m, n :: 0 <= m < n < |ids| ==> ids[m] != ids[n] && Before(column, ids[m], ids[n]))
  }

  lemma PrependFirst(column: map<Id, int>, a: Id, rest: seq<Id>)
    requires a in column && forall b | b in column :: Before(column, a, b)
    requires IsOrdered(column - {a}, rest)
    ensures IsOrdered(column, [a] + rest)
  {
  }

  function Ordered(column: map<Id, int>): (ids: seq<Id>)
    ensures |ids| == |column| && IsOrdered(column, ids)
    decreases |column|
  {
    if |column| == 0 then
      []
    else
      var a := First(column);
      assert (column - {a}).Keys == column.Keys - {a};
      var rest := Ordered(column - {a});
      PrependFirst(column, a, rest);
      [a] + rest
  }

  lemma OrderedBy(column: map<Id, int>)
    ensures var ids := Ordered(column);
            && (forall i :: i in ids <==> i in column)
            && (forall m, n :: 0 <= m < n < |ids| ==>
                  && ids[m] in column && ids[n] in column
                  && (column[ids[m]] < column[ids[n]] || (column[ids[m]] == column[ids[n]] && ids[m] < ids[n])))
  {
    var ids := Ordered(column);
    assert IsOrdered(column, ids);
    assert forall m :: 0 <= m < |ids| ==> ids[m] in ids;
    hide Ordered;
  }

  // Sorting by id alone.
  function Sorted(ids: set<Id>): (s: seq<Id>)
    ensures |s| == |ids|
    ensures forall i :: i in s <==> i in ids
    ensures forall m, n :: 0 <= m < n < |s| ==> s[m] < s[n]
  {
    var column := map i | i in ids :: 0;
    assert column.Keys == ids;
    Ordered(column)
  }

  ghost predicate Ascending(ids: seq<Id>) {
    forall m, n :: 0 <= m < n < |ids| ==> ids[m] < ids[n]
  }

  lemma RestOrdered(column: map<Id, int>, ids: seq<Id>)
    requires IsOrdered(column, ids) && ids != []
    ensures ids[0] in column && |column - {ids[0]}| < |column| && IsOrdered(column - {ids[0]}, ids[1..])
    ensures forall b :: b in column ==> Before(column, ids[0], b)
  {
    assert ids[0] in ids;
    assert (column - {ids[0]}).Keys == column.Keys - {ids[0]};
    forall i ensures i in ids[1..] <==> i in column - {ids[0]} {
      assert i in ids[1..] ==> i in ids && i != ids[0];
      assert i in ids && i != ids[0] ==> i in ids[1..];
    }
    forall b | b in column ensures Before(column, ids[0], b) {
      var k :| 0 <= k < |ids| && ids[k] == b;
    }
  }

  lemma SameFirst(column: map<Id, int>, s: seq<Id>, t: seq<Id>)
    requires IsOrdered(column, s) && IsOrdered(column, t)
    ensures s == [] <==> t == []
    ensures s != [] ==> s[0] == t[0]
  {
    assert s != [] ==> s[0] in s && s[0] in t;
    assert t != [] ==> t[0] in t && t[0] in s;
  }

  // A table has only one order by a column and the id.
  lemma {:induction false} OrderedUnique(column: map<Id, int>, s: seq<Id>, t: seq<Id>)
    requires IsOrdered(column, s) && IsOrdered(column, t)
    ensures s == t
    decreases |column|
  {
    hide IsOrdered;
    SameFirst(column, s, t);
    if s != [] {
      RestOrdered(column, s);
      RestOrdered(column, t);
      OrderedUnique(column - {s[0]}, s[1..], t[1..]);
    }
  }

  lemma AscendingOrdered(column: map<Id, int>, s: seq<Id>)
    requires Ascending(s) && (forall i :: i in s <==> i in column) && forall i :: i in column ==> column[i] == 0
    ensures IsOrdered(column, s)
  {
  }

  lemma SortedIs(ids: set<Id>, s: seq<Id>)
    requires Ascending(s) && forall i :: i in s <==> i in ids
    ensures Sorted(ids) == s
  {
    hide Ordered, IsOrdered, Ascending;
    var column := map i | i in ids :: 0;
    AscendingOrdered(column, s);
    assert Sorted(ids) == Ordered(column) by {
      assert column.Keys == ids;
    }
    OrderedUnique(column, Ordered(column), s);
  }
}
