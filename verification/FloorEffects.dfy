/**
 What the calls on the menu, on stock, on tables and on zones write: each call's answer and the rows it leaves, told
 by its arguments and the rows before it.
 */
module FloorEffects {
  import opened Basics
  import opened Store
  import opened Names
  import opened Pos
  import Decimal
  import Modifiers
  import Inventory
  import FloorPlan
  import ZoneNaming

  // ---------- Menu and stock ----------

  predicate OwnsItem(s: State, id: Id, r: Rest) {
    id in s.menu && s.menu[id].rest == r
  }

  /** A menu item is written with exactly the columns given, under a new id or the restaurant's own. */
  lemma PutsItem(s: State, r: Rest, id: Option<Id>, price: nat, available: bool, groups: seq<Modifiers.Group>)
    ensures Perform(s, OnMenu(r, PutMenuItem(id, price, available, groups)))
         == if id.None? then
              Result(s.(menu := s.menu[s.nextId := MenuItem(r, price, available, groups)], nextId := s.nextId + 1),
                     Done(s.nextId))
            else if OwnsItem(s, id.value, r) then
              Result(s.(menu := s.menu[id.value := MenuItem(r, price, available, groups)]), Done(id.value))
            else Reject(s, NotFound)
  {
  }

  predicate WasOrdered(s: State, id: Id, r: Rest) {
    exists o, line :: o in s.orders && o.rest == r && line in o.items && line.menuItemId == id
  }

  lemma OrderedMeans(s: State, id: Id, r: Rest)
    ensures FloorPlan.Ordered(s, id, r) <==> WasOrdered(s, id, r)
  {
    if o, line :| o in s.orders && o.rest == r && line in o.items && line.menuItemId == id {
      var i :| 0 <= i < |s.orders| && s.orders[i] == o;
      var k :| 0 <= k < |o.items| && o.items[k] == line;
      assert s.orders[i].items[k].menuItemId == id;
    }
  }

  /** A menu item never ordered goes, and exactly the stock linked to it loses the link. */
  lemma RemovesItem(s: State, r: Rest, id: Id)
    ensures var t := Perform(s, OnMenu(r, RemoveMenuItem(id)));
            if !OwnsItem(s, id, r) then t == Reject(s, NotFound)
            else if WasOrdered(s, id, r) then t == Reject(s, BadRequest)
            else
              && t.reply == Done(id) && t.state == s.(menu := s.menu - {id}, stock := t.state.stock)
              && t.state.stock.Keys == s.stock.Keys
              && forall k :: k in s.stock ==>
                   t.state.stock[k] == if s.stock[k].menuItemId == Some(id) then s.stock[k].(menuItemId := None)
                                       else s.stock[k]
  {
    OrderedMeans(s, id, r);
  }

  /** A stock item starts with the quantity given, unless its menu item is missing or has one already. */
  lemma CreatesStock(s: State, r: Rest, quantity: Inventory.Quantity, linkedTo: Option<Id>)
    ensures Perform(s, OnMenu(r, CreateStock(quantity, linkedTo)))
         == if linkedTo.Some? && (linkedTo.value !in s.menu ||
                                  exists id :: id in s.stock && s.stock[id].menuItemId == linkedTo)
            then Reject(s, Conflict)
            else Result(s.(stock := s.stock[s.nextId := StockItem(r, linkedTo, quantity, [], quantity)],
                           nextId := s.nextId + 1),
                        Done(s.nextId))
  {
  }

  /** The whole delta is logged, and the quantity moves by it but not below zero. */
  lemma AdjustsStock(s: State, r: Rest, id: Id, delta: real)
    ensures var t := Perform(s, OnMenu(r, AdjustStock(id, delta)));
            if id !in s.stock || s.stock[id].rest != r then t == Reject(s, NotFound)
            else
              var item := s.stock[id];
              var moved := item.quantityOnHand + delta;
              t == Result(s.(stock := s.stock[id := item.(
                log := item.log + [delta], quantityOnHand := if moved < 0.0 then 0.0 else moved)]), Done(id))
  {
  }

  // ---------- Tables ----------

  predicate OwnsTable(s: State, id: Id, r: Rest) {
    id in s.tables && s.tables[id].rest == r
  }

  /** A table of the restaurant, other than one, has these words as its name, in whatever case. */
  predicate HasNamesake(s: State, r: Rest, name: string, except: Option<Id>) {
    exists id :: id in s.tables && s.tables[id].rest == r && Some(id) != except && Key(s.tables[id].name) == Key(name)
  }

  lemma NamesakeMeans(s: State, r: Rest, name: string, except: Option<Id>)
    ensures FloorPlan.NameTaken(s.tables, name, r, except) <==> HasNamesake(s, r, name, except)
  {
    forall id | id in s.tables
      ensures NormalizeName(s.tables[id].name) == NormalizeName(name) <==> Key(s.tables[id].name) == Key(name)
    {
      SameKey(s.tables[id].name, name);
    }
  }

  /** A table starts AVAILABLE under its name, outside any zone, unless it has a namesake. */
  lemma CreatesTable(s: State, r: Rest, name: string)
    ensures Perform(s, OnFloor(r, CreateTable(name)))
         == if HasNamesake(s, r, name, None) then Reject(s, BadRequest)
            else Result(s.(tables := s.tables[s.nextId := Table(r, name, Available, None)], nextId := s.nextId + 1),
                        Done(s.nextId))
  {
    NamesakeMeans(s, r, name, None);
  }

  /** Only an AVAILABLE table is renamed, and not to another one's name. */
  lemma RenamesTable(s: State, r: Rest, id: Id, name: Option<string>)
    ensures Perform(s, OnFloor(r, UpdateTable(id, name)))
         == if !OwnsTable(s, id, r) then Reject(s, NotFound)
            else if s.tables[id].status != Available then Reject(s, BadRequest)
            else if name.None? then Result(s, Done(id))
            else if HasNamesake(s, r, name.value, Some(id)) then Reject(s, BadRequest)
            else Result(s.(tables := s.tables[id := s.tables[id].(name := name.value)]), Done(id))
  {
    if name.Some? {
      NamesakeMeans(s, r, name.value, Some(id));
    }
  }

  predicate OwnsZone(s: State, id: Id, r: Rest) {
    id in s.zones && s.zones[id].rest == r
  }

  /** A table goes to the zone named, if that is the restaurant's, or out of its zone, or stays. */
  lemma MovesTable(s: State, r: Rest, id: Id, change: FloorPlan.ZoneChange)
    ensures var t := Perform(s, OnFloor(r, UpdateLayout(id, change)));
            if !OwnsTable(s, id, r) || (change.ToZone? && !OwnsZone(s, change.zone, r)) then t == Reject(s, NotFound)
            else
              && t.reply == Done(id) && id in t.state.tables
              && var zone := match change
                             case KeepZone => s.tables[id].zoneId
                             case NoZone => None
                             case ToZone(z) => Some(z);
              t.state == s.(tables := s.tables[id := s.tables[id].(zoneId := zone)])
  {
    if id in s.tables {
      assert s.tables[id := s.tables[id]] == s.tables;
    }
  }

  /** These tables go, and exactly the references to them become null. */
  ghost predicate Forgets(s: State, t: State, gone: set<Id>) {
    && |t.orders| == |s.orders| && |t.reservations| == |s.reservations|
    && (forall i :: 0 <= i < |s.orders| ==>
          var o := s.orders[i];
          t.orders[i] == if o.tableId.Some? && o.tableId.value in gone then o.(tableId := None) else o)
    && (forall i :: 0 <= i < |s.reservations| ==>
          var b := s.reservations[i];
          t.reservations[i] == if b.tableId.Some? && b.tableId.value in gone then b.(tableId := None) else b)
  }

  /** An AVAILABLE table is deleted, and orders and reservations forget it. */
  lemma RemovesTable(s: State, r: Rest, id: Id)
    ensures var t := Perform(s, OnFloor(r, RemoveTable(id)));
            if !OwnsTable(s, id, r) then t == Reject(s, NotFound)
            else if s.tables[id].status != Available then t == Reject(s, BadRequest)
            else
              && t.reply == Done(id) && Forgets(s, t.state, {id})
              && t.state == s.(tables := s.tables - {id}, orders := t.state.orders,
                               reservations := t.state.reservations)
  {
  }

  // ---------- Zones ----------

  predicate IsPiso(name: string) {
    Key(name) != [] && Key(name)[0] == "piso"
  }

  /** A zone of the restaurant has the code, in whatever case; for a "Piso" zone only the others count. */
  predicate HasCode(s: State, r: Rest, name: string, code: string) {
    exists id :: id in s.zones && s.zones[id].rest == r && (IsPiso(name) ==> IsPiso(s.zones[id].name))
      && Key(s.zones[id].code) == Key(code)
  }

  lemma PisoMeans(name: string)
    ensures ZoneNaming.IsPiso(name) <==> IsPiso(name)
  {
    ZoneNaming.LeadingIsFirstWord(name);
  }

  lemma TakenMeans(s: State, r: Rest, name: string, n: nat)
    ensures ZoneNaming.Taken(ZoneNaming.Prefix(name), ZoneNaming.UsedCodes(name, FloorPlan.ZonesOf(s.zones, r)), n)
       <==> HasCode(s, r, name, ZoneNaming.Prefix(name) + Decimal.Print(n))
  {
    var code := ZoneNaming.Prefix(name) + Decimal.Print(n);
    var existing := FloorPlan.ZonesOf(s.zones, r);
    PisoMeans(name);
    forall id | id in s.zones
      ensures NormalizeName(s.zones[id].code) == NormalizeName(code) <==> Key(s.zones[id].code) == Key(code)
      ensures ZoneNaming.IsPiso(s.zones[id].name) <==> IsPiso(s.zones[id].name)
    {
      SameKey(s.zones[id].code, code);
      PisoMeans(s.zones[id].name);
    }
    forall id | id in s.zones && s.zones[id].rest == r
      ensures ZoneNaming.NamedCode(s.zones[id].name, s.zones[id].code) in existing
    {
    }
  }

  /** The code is what the name's codes start with and the least number from 1 on that makes it one nobody has. */
  predicate IsFirstCode(s: State, r: Rest, name: string, prefix: string, n: nat) {
    && ZoneNaming.StartsCode(name, prefix) && n >= 1
    && !HasCode(s, r, name, prefix + Decimal.Print(n))
    && forall k: nat :: 1 <= k < n ==> HasCode(s, r, name, prefix + Decimal.Print(k))
  }

  lemma FirstCode(s: State, r: Rest, name: string) returns (n: nat)
    ensures IsFirstCode(s, r, name, ZoneNaming.Prefix(name), n)
    ensures ZoneNaming.ZoneCode(name, FloorPlan.ZonesOf(s.zones, r)) == ZoneNaming.Prefix(name) + Decimal.Print(n)
  {
    var used := ZoneNaming.UsedCodes(name, FloorPlan.ZonesOf(s.zones, r));
    n := ZoneNaming.FirstFree(ZoneNaming.Prefix(name), used, 1);
    ZoneNaming.PrefixStartsCode(name);
    TakenMeans(s, r, name, n);
    forall k: nat | 1 <= k < n
      ensures HasCode(s, r, name, ZoneNaming.Prefix(name) + Decimal.Print(k))
    {
      TakenMeans(s, r, name, k);
      assert ZoneNaming.Taken(ZoneNaming.Prefix(name), used, k);
    }
  }

  lemma ZoneIsAdded(s: State, r: Rest, name: string, code: string)
    requires code == ZoneNaming.ZoneCode(name, FloorPlan.ZonesOf(s.zones, r))
    ensures Perform(s, OnFloor(r, CreateZone(name))) == FloorPlan.AddZone(s, name, code, r)
  {
  }

  lemma AddsZone(s: State, r: Rest, name: string, code: string)
    ensures FloorPlan.AddZone(s, name, code, r)
         == if exists id :: id in s.zones && s.zones[id].rest == r && s.zones[id].code == code then Reject(s, Conflict)
            else Result(s.(zones := s.zones[s.nextId := Zone(r, name, code)], nextId := s.nextId + 1), Done(s.nextId))
  {
  }

  /** A new zone gets that code, unless the code column refuses it. */
  lemma CreatesZone(s: State, r: Rest, name: string) returns (prefix: string, n: nat, code: string)
    ensures IsFirstCode(s, r, name, prefix, n) && code == prefix + Decimal.Print(n)
    ensures Perform(s, OnFloor(r, CreateZone(name)))
         == if exists id :: id in s.zones && s.zones[id].rest == r && s.zones[id].code == code then Reject(s, Conflict)
            else Result(s.(zones := s.zones[s.nextId := Zone(r, name, code)], nextId := s.nextId + 1), Done(s.nextId))
  {
    prefix := ZoneNaming.Prefix(name);
    n := FirstCode(s, r, name);
    code := prefix + Decimal.Print(n);
    ZoneIsAdded(s, r, name, code);
    AddsZone(s, r, name, code);
  }

  /** Renaming or recoding a zone writes those columns, unless another zone has the code in some case. */
  lemma RewritesZone(s: State, r: Rest, id: Id, name: Option<string>, code: Option<FloorPlan.ZoneCode>)
    ensures var t := Perform(s, OnFloor(r, UpdateZone(id, name, code)));
            if !OwnsZone(s, id, r) then t == Reject(s, NotFound)
            else if code.Some? && exists k :: k in s.zones && k != id && s.zones[k].rest == r
                                     && Key(s.zones[k].code) == Key(code.value) then t == Reject(s, BadRequest)
            else
              var z := s.zones[id];
              t == Result(s.(zones := s.zones[id := Zone(
                r, if name.Some? then name.value else z.name, if code.Some? then code.value else z.code)]), Done(id))
  {
    if code.Some? {
      forall k | k in s.zones
        ensures NormalizeName(s.zones[k].code) == NormalizeName(code.value) <==> Key(s.zones[k].code) == Key(code.value)
      {
        SameKey(s.zones[k].code, code.value);
      }
    }
  }

  predicate IsInZone(t: Table, zone: Id, r: Rest) {
    t.zoneId == Some(zone) && t.rest == r
  }

  /** A zone goes with its tables if all of them are AVAILABLE; any other table in it loses the link. */
  lemma RemovesZone(s: State, r: Rest, id: Id)
    ensures var t := Perform(s, OnFloor(r, RemoveZone(id)));
            if !OwnsZone(s, id, r) then t == Reject(s, NotFound)
            else if exists k :: k in s.tables && IsInZone(s.tables[k], id, r) && s.tables[k].status != Available
            then t == Reject(s, BadRequest)
            else
              var gone := set k | k in s.tables && IsInZone(s.tables[k], id, r);
              && t.reply == Done(id) && Forgets(s, t.state, gone)
              && t.state == s.(zones := s.zones - {id}, tables := t.state.tables, orders := t.state.orders,
                               reservations := t.state.reservations)
              && t.state.tables.Keys == s.tables.Keys - gone
              && forall k :: k in t.state.tables ==>
                   t.state.tables[k] == if s.tables[k].zoneId == Some(id) then s.tables[k].(zoneId := None)
                                        else s.tables[k]
  {
    var gone := set k | k in s.tables && IsInZone(s.tables[k], id, r);
    assert FloorPlan.TablesIn(s.tables, id, r) == gone;
  }
}
