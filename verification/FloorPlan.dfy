/**
 Tables and zones: the calls of src/tables/tables.service.ts and src/zones/zones.service.ts, and the menu
 edits of src/menu reduced to one arbitrary row write.
 */
module FloorPlan {
  import opened Basics
  import opened Store
  import opened Names
  import ZoneNaming
  import Modifiers

  /** An updated zone code: one to ten ASCII letters and digits. */
  type ZoneCode = c: string | 1 <= |c| <= 10 && forall i :: 0 <= i < |c| ==> IsAlphanumeric(c[i]) witness "1"

  predicate IsAlphanumeric(c: char) {
    'a' <= c <= 'z' || 'A' <= c <= 'Z' || '0' <= c <= '9'
  }

  // ---------- Tables ----------

  predicate OwnsTable(s: State, id: Id, rest: Rest) {
    id in s.tables && s.tables[id].rest == rest
  }

  /** assertNameUnique's finding: another table of the restaurant has the same normalized name. */
  predicate NameTaken(tables: map<Id, Table>, name: string, rest: Rest, except: Option<Id>) {
    exists id :: id in tables && tables[id].rest == rest && except != Some(id)
      && NormalizeName(tables[id].name) == NormalizeName(name)
  }

  function CreateTable(s: State, name: string, rest: Rest): Result {
    if NameTaken(s.tables, name, rest, None) then Reject(s, BadRequest)
    else Result(s.(tables := s.tables[s.nextId := Table(rest, name, Available, None)], nextId := s.nextId + 1),
                Done(s.nextId))
  }

  function UpdateTable(s: State, id: Id, name: Option<string>, rest: Rest): Result {
    if !OwnsTable(s, id, rest) then Reject(s, NotFound)
    else if s.tables[id].status != Available then Reject(s, BadRequest)
    else if name.Some? && NameTaken(s.tables, name.value, rest, Some(id)) then Reject(s, BadRequest)
    else if name.None? then Result(s, Done(id))
    else Result(s.(tables := s.tables[id := s.tables[id].(name := name.value)]), Done(id))
  }

  /** The zone field of a layout request: left out, an explicit null, or a zone. */
  datatype ZoneChange = KeepZone | NoZone | ToZone(zone: Id)

  function UpdateLayout(s: State, id: Id, change: ZoneChange, rest: Rest): Result {
    if !OwnsTable(s, id, rest) then Reject(s, NotFound)
    else match change
      case KeepZone => Result(s, Done(id))
      case NoZone => Result(s.(tables := s.tables[id := s.tables[id].(zoneId := None)]), Done(id))
      case ToZone(zone) =>
        if !OwnsZone(s, zone, rest) then Reject(s, NotFound)
        else Result(s.(tables := s.tables[id := s.tables[id].(zoneId := Some(zone))]), Done(id))
  }

  function RemoveTable(s: State, id: Id, rest: Rest): Result {
    if !OwnsTable(s, id, rest) then Reject(s, NotFound)
    else if s.tables[id].status != Available then Reject(s, BadRequest)
    else Result(DropTables(s, {id}), Done(id))
  }

  // ---------- Zones ----------

  predicate OwnsZone(s: State, id: Id, rest: Rest) {
    id in s.zones && s.zones[id].rest == rest
  }

  /** What the code computation reads of the restaurant's zones. */
  function ZonesOf(zones: map<Id, Zone>, rest: Rest): set<ZoneNaming.NamedCode> {
    set id | id in zones && zones[id].rest == rest :: ZoneNaming.NamedCode(zones[id].name, zones[id].code)
  }

  predicate RawCodeTaken(zones: map<Id, Zone>, code: string, rest: Rest) {
    exists id :: id in zones && zones[id].rest == rest && zones[id].code == code
  }

  predicate CodeTaken(zones: map<Id, Zone>, code: string, rest: Rest, except: Id) {
    exists id :: id in zones && zones[id].rest == rest && id != except
      && NormalizeName(zones[id].code) == NormalizeName(code)
  }

  /** The row insertion, which the unique code column may refuse. */
  function AddZone(s: State, name: string, code: string, rest: Rest): Result {
    if RawCodeTaken(s.zones, code, rest) then Reject(s, Conflict)
    else Result(s.(zones := s.zones[s.nextId := Zone(rest, name, code)], nextId := s.nextId + 1), Done(s.nextId))
  }

  function CreateZone(s: State, name: string, rest: Rest): Result {
    AddZone(s, name, ZoneNaming.ZoneCode(name, ZonesOf(s.zones, rest)), rest)
  }

  function UpdateZone(s: State, id: Id, name: Option<string>, code: Option<ZoneCode>, rest: Rest): Result {
    if !OwnsZone(s, id, rest) then Reject(s, NotFound)
    else if code.Some? && CodeTaken(s.zones, code.value, rest, id) then Reject(s, BadRequest)
    else
      var z := s.zones[id];
      var renamed := if name.Some? then z.(name := name.value) else z;
      var recoded := if code.Some? then renamed.(code := code.value) else renamed;
      Result(s.(zones := s.zones[id := recoded]), Done(id))
  }

  function TablesIn(tables: map<Id, Table>, zoneId: Id, rest: Rest): set<Id> {
    set t | t in tables && tables[t].zoneId == Some(zoneId) && tables[t].rest == rest
  }

  /** Deleting a zone row nulls the reference of any table still naming it. */
  function DropZone(s: State, id: Id): State {
    s.(zones := s.zones - {id},
       tables := map t | t in s.tables ::
                   s.tables[t].(zoneId := if s.tables[t].zoneId == Some(id) then None else s.tables[t].zoneId))
  }

  function RemoveZone(s: State, id: Id, rest: Rest): Result {
    if !OwnsZone(s, id, rest) then Reject(s, NotFound)
    else if exists t :: t in TablesIn(s.tables, id, rest) && s.tables[t].status != Available then Reject(s, BadRequest)
    else Result(DropZone(DropTables(s, TablesIn(s.tables, id, rest)), id), Done(id))
  }

  /** What the name suggestion reads: the names of the restaurant's tables. */
  function TableNames(tables: map<Id, Table>, rest: Rest): set<string> {
    set id | id in tables && tables[id].rest == rest :: tables[id].name
  }

  // ---------- Menu ----------

  /** Writes a menu item row, new or the restaurant's own, with any price, availability and groups. */
  function PutMenuItem(
    s: State, id: Option<Id>, priceCents: nat, available: bool, groups: seq<Modifiers.Group>, rest: Rest): Result
  {
    var row := MenuItem(rest, priceCents, available, groups);
    match id
    case None => Result(s.(menu := s.menu[s.nextId := row], nextId := s.nextId + 1), Done(s.nextId))
    case Some(m) =>
      if m !in s.menu || s.menu[m].rest != rest then Reject(s, NotFound)
      else Result(s.(menu := s.menu[m := row]), Done(m))
  }

  predicate Ordered(s: State, menuItemId: Id, rest: Rest) {
    exists i, k :: 0 <= i < |s.orders| && s.orders[i].rest == rest
      && 0 <= k < |s.orders[i].items| && s.orders[i].items[k].menuItemId == menuItemId
  }

  /** Removes a menu item that was never ordered; a linked stock item loses its link. */
  function RemoveMenuItem(s: State, id: Id, rest: Rest): Result {
    if id !in s.menu || s.menu[id].rest != rest then Reject(s, NotFound)
    else if Ordered(s, id, rest) then Reject(s, BadRequest)
    else
      Result(s.(menu := s.menu - {id},
                stock := map k | k in s.stock ::
                           s.stock[k].(menuItemId := if s.stock[k].menuItemId == Some(id) then None
                                                     else s.stock[k].menuItemId)),
             Done(id))
  }
}
