/** The fixture reset: ordered deletes under RESTRICT and CASCADE references, run alone. */
module Reset {
  import opened Tables
  import opened Totals
  import opened Invariant
  import opened Persistence

  const STRESS_EVENT_PREFIX := "__stress_seed__:"

  // ----- which events are picked -----

  // LIKE without an escape character in the pattern.
  predicate Like(pattern: string, text: string)
    decreases |pattern| + |text|
  {
    if pattern == "" then text == ""
    else if pattern[0] == '%' then Like(pattern[1..], text) || (text != "" && Like(pattern, text[1..]))
    else text != "" && (pattern[0] == '_' || pattern[0] == text[0]) && Like(pattern[1..], text[1..])
  }

  // `startswith` on a column: the prefix goes into the pattern unescaped.
  predicate StartsWith(name: string, prefix: string) {
    Like(prefix + "%", name)
  }

  function StressEvents(db: Store): set<Id> {
    set e | e in db.events && StartsWith(db.events[e].name, STRESS_EVENT_PREFIX)
  }

  ghost predicate FitsAt(name: string, prefix: string, k: nat)
    requires k < |prefix|
  {
    k < |name| && (prefix[k] == '_' || name[k] == prefix[k])
  }

  lemma {:induction false} AnythingFits(name: string)
    ensures Like("%", name)
  {
    assert "%"[1..] == "";
    if name != "" {
      AnythingFits(name[1..]);
    }
  }

  // Unescaped, an underscore of the prefix stands for any character.
  lemma {:induction false} StartsWithExact(name: string, prefix: string)
    requires '%' !in prefix
    ensures StartsWith(name, prefix) <==> forall k :: 0 <= k < |prefix| ==> FitsAt(name, prefix, k)
    decreases |prefix|
  {
    if prefix == "" {
      assert prefix + "%" == "%";
      AnythingFits(name);
    } else {
      var rest := prefix[1..];
      assert (prefix + "%")[1..] == rest + "%" && prefix[0] in prefix;
      if name == "" {
        assert !FitsAt(name, prefix, 0);
      } else {
        StartsWithExact(name[1..], rest);
        assert forall k :: 0 <= k < |rest| ==> (FitsAt(name[1..], rest, k) <==> FitsAt(name, prefix, k + 1));
        if forall k :: 0 <= k < |rest| ==> FitsAt(name[1..], rest, k) {
          assert forall k :: 0 < k < |prefix| ==> (FitsAt(name, prefix, k) <==> FitsAt(name[1..], rest, k - 1));
        }
        assert FitsAt(name, prefix, 0) <==> prefix[0] == '_' || prefix[0] == name[0];
      }
    }
  }

  predicate Seeded(name: string) {
    STRESS_EVENT_PREFIX <= name
  }

  // The name agrees with the prefix wherever that has no underscore, and differs at an underscore.
  ghost predicate LooksSeeded(name: string) {
    && |name| >= |STRESS_EVENT_PREFIX|
    && (forall k :: 0 <= k < |STRESS_EVENT_PREFIX| && STRESS_EVENT_PREFIX[k] != '_' ==> name[k] == STRESS_EVENT_PREFIX[k])
    && exists k :: 0 <= k < |STRESS_EVENT_PREFIX| && STRESS_EVENT_PREFIX[k] == '_' && name[k] != '_'
  }

  lemma FittingNames(name: string, prefix: string)
    requires prefix != ""
    ensures (forall k :: 0 <= k < |prefix| ==> FitsAt(name, prefix, k)) <==>
              |name| >= |prefix| && forall k :: 0 <= k < |prefix| && prefix[k] != '_' ==> name[k] == prefix[k]
    ensures prefix <= name <==> |name| >= |prefix| && forall k :: 0 <= k < |prefix| ==> name[k] == prefix[k]
  {
    if forall k :: 0 <= k < |prefix| ==> FitsAt(name, prefix, k) {
      assert FitsAt(name, prefix, |prefix| - 1);
      assert forall k :: 0 <= k < |prefix| && prefix[k] != '_' ==> FitsAt(name, prefix, k);
    }
    if |name| >= |prefix| && forall k :: 0 <= k < |prefix| ==> name[k] == prefix[k] {
      assert name[..|prefix|] == prefix;
    }
  }

  lemma PickedExactly(name: string)
    ensures StartsWith(name, STRESS_EVENT_PREFIX) <==> Seeded(name) || LooksSeeded(name)
    ensures !(Seeded(name) && LooksSeeded(name))
  {
    hide StartsWith;
    var prefix := STRESS_EVENT_PREFIX;
    StartsWithExact(name, prefix);
    FittingNames(name, prefix);
  }

  // The reset picks the prefixed events and the look-alikes; so it picks no other than the prefixed ones exactly
  // when no event carries a look-alike name.
  lemma PicksOnlySeededIff(db: Store)
    ensures forall e :: e in StressEvents(db) <==>
              e in db.events && (Seeded(db.events[e].name) || LooksSeeded(db.events[e].name))
    ensures StressEvents(db) == (set e | e in db.events && Seeded(db.events[e].name))
       <==> forall e :: e in db.events ==> !LooksSeeded(db.events[e].name)
  {
    hide StartsWith, Seeded, LooksSeeded;
    forall e | e in db.events
      ensures StartsWith(db.events[e].name, STRESS_EVENT_PREFIX)
         <==> Seeded(db.events[e].name) || LooksSeeded(db.events[e].name)
      ensures !(Seeded(db.events[e].name) && LooksSeeded(db.events[e].name))
    {
      PickedExactly(db.events[e].name);
    }
    if StressEvents(db) == (set e | e in db.events && Seeded(db.events[e].name)) {
      forall e | e in db.events ensures !LooksSeeded(db.events[e].name) {
        assert e in StressEvents(db) <==> Seeded(db.events[e].name);
      }
    }
  }

  // An event of this name is deleted although it was not seeded.
  lemma LookAlike()
    ensures var name := "Mystress seeded: open day";
            StartsWith(name, STRESS_EVENT_PREFIX) && !Seeded(name)
  {
    var name := "Mystress seeded: open day";
    var prefix := STRESS_EVENT_PREFIX;
    assert prefix[0] == '_' && name[0] == 'M';
    assert LooksSeeded(name);
    PickedExactly(name);
  }

  // ----- what goes with the picked events -----

  function ReservationsOf(db: Store, gone: set<Id>): set<Id> {
    set r | r in db.reservations && db.reservations[r].event in gone
  }

  function ItemsOutside(items: map<Id, Item>, parents: set<Id>): map<Id, Item> {
    map i | i in items && items[i].reservation !in parents :: items[i]
  }

  function RowsOutside(rows: map<Id, SeatRow>, parents: set<Id>): map<Id, SeatRow> {
    map i | i in rows && rows[i].reservation !in parents :: rows[i]
  }

  // The store without the events `gone` and everything that belongs to them.
  function Without(db: Store, gone: set<Id>): Store {
    var parents := ReservationsOf(db, gone);
    Store(
      db.events - gone,
      map t | t in db.ticketTypes && db.ticketTypes[t].event !in gone :: db.ticketTypes[t],
      map s | s in db.seats && db.seats[s].event !in gone :: db.seats[s],
      db.reservations - parents,
      ItemsOutside(db.items, parents),
      RowsOutside(db.seatRows, parents))
  }

  // A row of a reservation that stays names a ticket type or a seat that goes.
  predicate Entangled(db: Store, gone: set<Id>) {
    var parents := ReservationsOf(db, gone);
    || (exists i :: i in db.items && db.items[i].reservation !in parents && db.items[i].ticketType in db.ticketTypes
                    && db.ticketTypes[db.items[i].ticketType].event in gone)
    || (exists i :: i in db.seatRows && db.seatRows[i].reservation !in parents && db.seatRows[i].seat in db.seats
                    && db.seats[db.seatRows[i].seat].event in gone)
  }

  class StressAdminService {
    const session: Session

    constructor (session: Session)
      ensures this.session == session
    {
      this.session := session;
    }

    method DeleteReservationSeats(parents: set<Id>)
      modifies session`seatRows
      ensures session.View() == old(session.View()).(seatRows := RowsOutside(old(session.seatRows), parents))
    {
      session.seatRows := map i | i in session.seatRows && session.seatRows[i].reservation !in parents :: session.seatRows[i];
    }

    method DeleteReservationItems(parents: set<Id>)
      modifies session`items
      ensures session.View() == old(session.View()).(items := ItemsOutside(old(session.items), parents))
    {
      session.items := map i | i in session.items && session.items[i].reservation !in parents :: session.items[i];
    }

    // CASCADE takes the children of the deleted reservations along.
    method DeleteReservations(ids: set<Id>)
      modifies session`reservations, session`items, session`seatRows
      ensures session.View() == old(session.View()).(
                reservations := old(session.reservations) - ids,
                items := ItemsOutside(old(session.items), ids), seatRows := RowsOutside(old(session.seatRows), ids))
    {
      session.reservations := session.reservations - ids;
      DeleteReservationItems(ids);
      DeleteReservationSeats(ids);
    }

    // CASCADE takes ticket types and seats along; RESTRICT refuses while a reservation, item or seat row
    // still refers to what would go.
    method DeleteEvents(ids: set<Id>) returns (deleted: bool)
      modifies session`events, session`ticketTypes, session`seats
      ensures deleted <==> (forall r :: r in old(session.reservations) ==> old(session.reservations)[r].event !in ids)
                           && !Entangled(old(session.View()), ids)
      ensures session.View() == if deleted then Without(old(session.View()), ids) else old(session.View())
    {
      hide Entangled, Without;
      var types := set t | t in session.ticketTypes && session.ticketTypes[t].event in ids;
      var seats := set s | s in session.seats && session.seats[s].event in ids;
      ReferencesAre(session.View(), ids, types, seats);
      if (exists r :: r in session.reservations && session.reservations[r].event in ids)
         || (exists i :: i in session.items && session.items[i].ticketType in types)
         || (exists i :: i in session.seatRows && session.seatRows[i].seat in seats)
      {
        return false;
      }
      EventsGone(session.View(), ids, types, seats);
      session.events := session.events - ids;
      session.ticketTypes := session.ticketTypes - types;
      session.seats := session.seats - seats;
      return true;
    }

    // The number of events deleted; `None` when a RESTRICT reference refuses and the transaction is rolled back.
    method Reset() returns (deleted: Option<nat>)
      requires session.View() == session.committed
      modifies session
      ensures deleted.None? <==> Entangled(old(session.View()), StressEvents(old(session.View())))
      ensures deleted.None? ==> session.View() == old(session.View())
      ensures deleted.Some? ==>
                && deleted.value == |StressEvents(old(session.View()))|
                && session.View() == Without(old(session.View()), StressEvents(old(session.View())))
      ensures session.committed == session.View()
    {
      hide StressEvents, Entangled, ReservationsOf, Without, ItemsOutside, RowsOutside;
      ghost var before := session.View();
      var events := StressEvents(session.View());
      var parents := ReservationsOf(session.View(), events);
      DeleteReservationSeats(parents);
      DeleteReservationItems(parents);
      DeleteReservations(parents);
      OutsideTwice(before.items, before.seatRows, parents);
      assert session.View() == Stripped(before, events);
      StrippedIs(before, events);
      EntangledStripped(before, events);
      var done := DeleteEvents(events);
      if !done {
        session.Rollback();
        return None;
      }
      session.Commit();
      return Some(|events|);
    }
  }

  lemma ReferencesAre(db: Store, ids: set<Id>, types: set<Id>, seats: set<Id>)
    requires types == set t | t in db.ticketTypes && db.ticketTypes[t].event in ids
    requires seats == set s | s in db.seats && db.seats[s].event in ids
    ensures (forall r :: r in db.reservations ==> db.reservations[r].event !in ids) ==>
              (Entangled(db, ids) <==> (exists i :: i in db.items && db.items[i].ticketType in types)
                                       || (exists i :: i in db.seatRows && db.seatRows[i].seat in seats))
  {
  }

  lemma EventsGone(db: Store, ids: set<Id>, types: set<Id>, seats: set<Id>)
    requires types == set t | t in db.ticketTypes && db.ticketTypes[t].event in ids
    requires seats == set s | s in db.seats && db.seats[s].event in ids
    requires forall r :: r in db.reservations ==> db.reservations[r].event !in ids
    ensures Without(db, ids)
         == db.(events := db.events - ids, ticketTypes := db.ticketTypes - types, seats := db.seats - seats)
  {
  }

  // What the three deletes leave before the events go.
  function Stripped(db: Store, gone: set<Id>): Store {
    var parents := ReservationsOf(db, gone);
    db.(reservations := db.reservations - parents, items := ItemsOutside(db.items, parents),
        seatRows := RowsOutside(db.seatRows, parents))
  }

  lemma OutsideTwice(items: map<Id, Item>, rows: map<Id, SeatRow>, parents: set<Id>)
    ensures ItemsOutside(ItemsOutside(items, parents), parents) == ItemsOutside(items, parents)
    ensures RowsOutside(RowsOutside(rows, parents), parents) == RowsOutside(rows, parents)
  {
  }

  lemma StrippedIs(db: Store, gone: set<Id>)
    ensures Without(Stripped(db, gone), gone) == Without(db, gone)
    ensures forall r :: r in Stripped(db, gone).reservations ==> Stripped(db, gone).reservations[r].event !in gone
  {
  }

  lemma EntangledStripped(db: Store, gone: set<Id>)
    ensures Entangled(Stripped(db, gone), gone) <==> Entangled(db, gone)
  {
    var parents, stripped := ReservationsOf(db, gone), Stripped(db, gone);
    assert ReservationsOf(stripped, gone) == {};
    if i :| i in db.items && db.items[i].reservation !in parents && db.items[i].ticketType in db.ticketTypes
            && db.ticketTypes[db.items[i].ticketType].event in gone
    {
      assert i in stripped.items;
    }
    if i :| i in db.seatRows && db.seatRows[i].reservation !in parents && db.seatRows[i].seat in db.seats
            && db.seats[db.seatRows[i].seat].event in gone
    {
      assert i in stripped.seatRows;
    }
  }

  // ----- the invariant survives -----

  // In a reachable state every child belongs to its parent's event, so no delete is refused.
  lemma NeverEntangled(db: Store, gone: set<Id>)
    requires Linked(db)
    ensures !Entangled(db, gone)
  {
  }

  lemma {:induction false} TotalWithout(items: map<Id, Item>, gone: set<Id>, t: Id, status: Status)
    requires forall i :: i in items && i in gone ==> Weight(items[i], t, status) == 0
    ensures Total(items - gone, t, status) == Total(items, t, status)
    decreases |items|
  {
    hide Total, Weight;
    if i :| i in items && i in gone {
      TotalSplit(items, i, t, status);
      OneLess(items, gone, i);
      TotalWithout(items - {i}, gone, t, status);
    } else {
      assert items - gone == items;
    }
  }

  lemma OneLess(items: map<Id, Item>, gone: set<Id>, i: Id)
    requires i in items && i in gone
    ensures items - {i} - gone == items - gone && |items - {i}| < |items|
  {
  }

  lemma LostItems(db: Store, gone: set<Id>, lost: set<Id>)
    requires Linked(db) && lost == set i | i in db.items && db.items[i].reservation in ReservationsOf(db, gone)
    ensures forall i :: i in lost ==> i in db.items && db.items[i].ticketType in db.ticketTypes
                                      && db.ticketTypes[db.items[i].ticketType].event in gone
    ensures Without(db, gone).items == db.items - lost
  {
  }

  lemma WithoutBalanced(db: Store, gone: set<Id>)
    requires Linked(db) && Balanced(db)
    ensures Balanced(Without(db, gone))
  {
    hide Linked, ItemsOutside, RowsOutside;
    var d := Without(db, gone);
    var lost := set i | i in db.items && db.items[i].reservation in ReservationsOf(db, gone);
    LostItems(db, gone, lost);
    forall t | t in d.ticketTypes ensures BalancedType(d, t) {
      assert BalancedType(db, t);
      TotalWithout(db.items, lost, t, Reserved);
      TotalWithout(db.items, lost, t, Confirmed);
    }
  }

  lemma WithoutLinked(db: Store, gone: set<Id>)
    requires Linked(db)
    ensures Linked(Without(db, gone))
  {
  }

  lemma WithoutShaped(db: Store, gone: set<Id>)
    requires Shaped(db)
    ensures Shaped(Without(db, gone))
  {
    var d := Without(db, gone);
    forall r | r in d.reservations
      ensures if d.reservations[r].kind.Quantity? then HasItem(d, r) else HasSeat(d, r)
    {
      if d.reservations[r].kind.Quantity? {
        assert HasItem(db, r);
        var i :| i in db.items && db.items[i].reservation == r;
        assert i in d.items && d.items[i].reservation == r;
      } else {
        assert HasSeat(db, r);
        var i :| i in db.seatRows && db.seatRows[i].reservation == r;
        assert i in d.seatRows && d.seatRows[i].reservation == r;
      }
    }
  }

  // The reset is never refused and keeps conservation, agreement, shape, exclusivity and key uniqueness.
  lemma ResetKeepsInv(db: Store)
    requires Inv(db)
    ensures !Entangled(db, StressEvents(db)) && Inv(Without(db, StressEvents(db)))
  {
    hide StartsWith, Balanced, Linked, Shaped;
    var gone := StressEvents(db);
    NeverEntangled(db, gone);
    WithoutLinked(db, gone);
    WithoutShaped(db, gone);
    WithoutBalanced(db, gone);
  }

  // What belongs to other events is untouched, and nothing of the picked events remains.
  lemma ResetSparesOthers(db: Store, gone: set<Id>)
    requires Inv(db)
    ensures var d := Without(db, gone);
            && (forall i :: i in db.items ==>
                  (i in d.items <==> db.ticketTypes[db.items[i].ticketType].event !in gone) &&
                  (i in d.items ==> d.items[i] == db.items[i]))
            && (forall i :: i in db.seatRows ==>
                  (i in d.seatRows <==> db.seats[db.seatRows[i].seat].event !in gone) &&
                  (i in d.seatRows ==> d.seatRows[i] == db.seatRows[i]))
            && (forall e :: e in d.events <==> e in db.events && e !in gone)
            && (forall e :: e in d.events ==> d.events[e] == db.events[e])
            && (forall t :: t in d.ticketTypes <==> t in db.ticketTypes && db.ticketTypes[t].event !in gone)
            && (forall t :: t in d.ticketTypes ==> d.ticketTypes[t] == db.ticketTypes[t])
            && (forall s :: s in d.seats <==> s in db.seats && db.seats[s].event !in gone)
            && (forall s :: s in d.seats ==> d.seats[s] == db.seats[s])
            && (forall r :: r in d.reservations <==> r in db.reservations && db.reservations[r].event !in gone)
            && (forall r :: r in d.reservations ==> d.reservations[r] == db.reservations[r])
            && (forall i :: i in d.items ==> i in db.items) && (forall i :: i in d.seatRows ==> i in db.seatRows)
  {
  }
}
