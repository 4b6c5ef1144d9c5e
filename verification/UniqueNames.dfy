/**
 Uniqueness over whole runs: within a restaurant, table names and zone codes stay pairwise distinct up to
 `NormalizeName`, and when the suggested next table name is accepted.
 */
module UniqueNames {
  import opened Basics
  import opened OrderStatus
  import opened Store
  import opened Names
  import opened Pos
  import opened Frames
  import Decimal
  import ZoneNaming
  import Tenancy
  import Payments
  import FloorPlan

  predicate SameName(a: Table, b: Table) {
    a.rest == b.rest && NormalizeName(a.name) == NormalizeName(b.name)
  }

  predicate NamesDistinct(tables: map<Id, Table>) {
    forall a, b :: a in tables && b in tables && a != b ==> !SameName(tables[a], tables[b])
  }

  predicate SameCode(a: Zone, b: Zone) {
    a.rest == b.rest && NormalizeName(a.code) == NormalizeName(b.code)
  }

  predicate CodesDistinct(zones: map<Id, Zone>) {
    forall a, b :: a in zones && b in zones && a != b ==> !SameCode(zones[a], zones[b])
  }

  /** Codes are single words, which is what the code search and the update rule produce. */
  predicate CodesAreWords(zones: map<Id, Zone>) {
    forall id :: id in zones ==> NoSpace(zones[id].code)
  }

  predicate AllDistinct(s: State) {
    NamesDistinct(s.tables) && CodesDistinct(s.zones) && CodesAreWords(s.zones)
  }

  // ---------- Calls that name nothing ----------

  lemma KeptDistinct(before: map<Id, Table>, after: map<Id, Table>)
    requires NamesDistinct(before) && NamesKept(before, after)
    ensures NamesDistinct(after)
  {
    forall a, b | a in after && b in after && a != b
      ensures !SameName(after[a], after[b])
    {
      assert !SameName(before[a], before[b]);
    }
  }

  /** No table gets a name and no zone is written. */
  predicate NothingNamed(s: State, t: State) {
    NamesKept(s.tables, t.tables) && t.zones == s.zones
  }

  lemma CheckoutNames(s: State, dto: Payments.CheckoutDto, r: Rest)
    ensures NothingNamed(s, Payments.Checkout(s, dto, r).state)
  {
  }

  // ---------- Calls that name ----------

  lemma NamedDistinct(tables: map<Id, Table>, id: Id, row: Table)
    requires NamesDistinct(tables) && !FloorPlan.NameTaken(tables, row.name, row.rest, Some(id))
    ensures NamesDistinct(tables[id := row])
  {
    var after := tables[id := row];
    forall a, b | a in after && b in after && a != b
      ensures !SameName(after[a], after[b])
    {
      assert a in tables && b in tables ==> !SameName(tables[a], tables[b]);
    }
  }

  lemma CreateTableDistinct(s: State, name: string, r: Rest)
    requires AllDistinct(s)
    ensures AllDistinct(FloorPlan.CreateTable(s, name, r).state)
  {
    if !FloorPlan.NameTaken(s.tables, name, r, None) {
      assert !FloorPlan.NameTaken(s.tables, name, r, Some(s.nextId));
      NamedDistinct(s.tables, s.nextId, Table(r, name, Available, None));
    }
  }

  lemma UpdateTableDistinct(s: State, id: Id, name: Option<string>, r: Rest)
    requires AllDistinct(s)
    ensures AllDistinct(FloorPlan.UpdateTable(s, id, name, r).state)
  {
    if FloorPlan.UpdateTable(s, id, name, r).reply.Done? && name.Some? {
      NamedDistinct(s.tables, id, s.tables[id].(name := name.value));
    }
  }

  lemma UpdateLayoutDistinct(s: State, id: Id, change: FloorPlan.ZoneChange, r: Rest)
    requires AllDistinct(s)
    ensures AllDistinct(FloorPlan.UpdateLayout(s, id, change, r).state)
  {
    KeptDistinct(s.tables, FloorPlan.UpdateLayout(s, id, change, r).state.tables);
  }

  lemma RemoveTableDistinct(s: State, id: Id, r: Rest)
    requires AllDistinct(s)
    ensures AllDistinct(FloorPlan.RemoveTable(s, id, r).state)
  {
    KeptDistinct(s.tables, FloorPlan.RemoveTable(s, id, r).state.tables);
  }

  lemma RemoveZoneNames(s: State, id: Id, r: Rest)
    ensures NamesKept(s.tables, FloorPlan.RemoveZone(s, id, r).state.tables)
  {
    var mid := DropTables(s, FloorPlan.TablesIn(s.tables, id, r));
    assert NamesKept(s.tables, mid.tables);
    assert NamesKept(mid.tables, FloorPlan.DropZone(mid, id).tables);
  }

  /** A new row for a zone whose code no other zone of the restaurant has. */
  lemma CodedDistinct(zones: map<Id, Zone>, id: Id, row: Zone)
    requires CodesDistinct(zones)
    requires forall other :: other in zones && other != id ==> !SameCode(zones[other], row)
    ensures CodesDistinct(zones[id := row])
  {
  }

  /** The code computed for a new zone clashes with none of the restaurant's. */
  lemma CreateZoneDistinct(s: State, name: string, r: Rest)
    requires AllDistinct(s) && Tenancy.FreshIds(s)
    ensures AllDistinct(PerformFloor(s, CreateZone(name), r).state)
  {
    var existing := FloorPlan.ZonesOf(s.zones, r);
    var code := ZoneNaming.ZoneCode(name, existing);
    if !FloorPlan.RawCodeTaken(s.zones, code, r) {
      CodeIsWord(name, existing);
      var row := Zone(r, name, code);
      forall id | id in s.zones
        ensures !SameCode(s.zones[id], row)
      {
        if s.zones[id].rest == r {
          var other := ZoneNaming.NamedCode(s.zones[id].name, s.zones[id].code);
          assert other in existing;
          ZoneNaming.FreshCodeIsNew(name, existing, other);
        }
      }
      CodedDistinct(s.zones, s.nextId, row);
    }
  }

  lemma CodeIsWord(name: string, existing: set<ZoneNaming.NamedCode>)
    ensures NoSpace(ZoneNaming.ZoneCode(name, existing))
  {
    var prefix, used := ZoneNaming.Prefix(name), ZoneNaming.UsedCodes(name, existing);
    ZoneNaming.DigitsLower(Decimal.Print(ZoneNaming.FirstFree(prefix, used, 1)));
  }

  lemma UpdateZoneDistinct(s: State, id: Id, name: Option<string>, code: Option<FloorPlan.ZoneCode>, r: Rest)
    requires AllDistinct(s)
    ensures AllDistinct(FloorPlan.UpdateZone(s, id, name, code, r).state)
  {
    var t := FloorPlan.UpdateZone(s, id, name, code, r);
    if t.reply.Done? {
      var row := t.state.zones[id];
      forall other | other in s.zones && other != id
        ensures !SameCode(s.zones[other], row)
      {
        assert !SameCode(s.zones[other], s.zones[id]);
      }
      CodedDistinct(s.zones, id, row);
    }
  }

  // ---------- Whole runs ----------

  lemma RemoveZoneDistinct(s: State, id: Id, r: Rest)
    requires AllDistinct(s)
    ensures AllDistinct(PerformFloor(s, RemoveZone(id), r).state)
  {
    RemoveZoneNames(s, id, r);
    KeptDistinct(s.tables, FloorPlan.RemoveZone(s, id, r).state.tables);
  }

  lemma TablesDistinct(s: State, c: FloorCall, r: Rest)
    requires AllDistinct(s) && (c.CreateTable? || c.UpdateTable? || c.UpdateLayout? || c.RemoveTable?)
    ensures AllDistinct(PerformFloor(s, c, r).state)
  {
    match c
    case CreateTable(name) => CreateTableDistinct(s, name, r);
    case UpdateTable(id, name) => UpdateTableDistinct(s, id, name, r);
    case UpdateLayout(id, change) => UpdateLayoutDistinct(s, id, change, r);
    case RemoveTable(id) => RemoveTableDistinct(s, id, r);
  }

  lemma ZoneUpdated(s: State, id: Id, name: Option<string>, code: Option<FloorPlan.ZoneCode>, r: Rest)
    requires AllDistinct(s)
    ensures AllDistinct(PerformFloor(s, UpdateZone(id, name, code), r).state)
  {
    UpdateZoneDistinct(s, id, name, code, r);
  }

  lemma FloorDistinct(s: State, c: FloorCall, r: Rest)
    requires AllDistinct(s) && Tenancy.FreshIds(s)
    ensures AllDistinct(PerformFloor(s, c, r).state)
  {
    match c
    case CreateZone(name) => CreateZoneDistinct(s, name, r);
    case UpdateZone(id, name, code) => ZoneUpdated(s, id, name, code, r);
    case RemoveZone(id) => RemoveZoneDistinct(s, id, r);
    case _ => TablesDistinct(s, c, r);
  }

  lemma MoneyNames(s: State, c: MoneyCall, r: Rest)
    ensures NothingNamed(s, PerformMoney(s, c, r).state)
  {
    match c
    case Checkout(dto) => CheckoutNames(s, dto, r);
    case CreateIntent(order, intent) => IntentShape(s, order, intent, r);
    case _ => SessionShape(s, c, r);
  }

  lemma NothingNamedDistinct(s: State, t: State)
    requires AllDistinct(s) && NothingNamed(s, t)
    ensures AllDistinct(t)
  {
    KeptDistinct(s.tables, t.tables);
  }

  lemma OtherNames(s: State, c: Call)
    requires !c.OnFloor?
    ensures NothingNamed(s, Step(s, c))
  {
    match c
    case OnMenu(r, menu) => MenuShape(s, menu, r);
    case PlaceOrder(r, kind, lines) => CreateOrderRows(s, kind, lines, r);
    case EditOrder(r, order, edit) => EditShape(s, order, edit, r);
    case OnMoney(r, money) => MoneyNames(s, money, r);
    case OnBooking(r, booking) => BookingRows(s, booking, r);
    case Webhook(event) => WebhookShape(s, event);
  }

  lemma StepDistinct(s: State, c: Call)
    requires AllDistinct(s) && Tenancy.FreshIds(s)
    ensures AllDistinct(Step(s, c))
  {
    if c.OnFloor? {
      FloorDistinct(s, c.floorCall, c.rest);
    } else {
      OtherNames(s, c);
      NothingNamedDistinct(s, Step(s, c));
    }
  }

  /** In every run, names and codes are pairwise distinct within a restaurant, up to case and spacing. */
  lemma {:induction false} AlwaysDistinct(config: Config, calls: seq<Call>)
    ensures NamesDistinct(Run(Empty(config), calls).tables)
    ensures CodesDistinct(Run(Empty(config), calls).zones) && CodesAreWords(Run(Empty(config), calls).zones)
  {
    if calls != [] {
      AlwaysDistinct(config, calls[..|calls| - 1]);
      Tenancy.AlwaysRefs(config, calls[..|calls| - 1]);
      StepDistinct(Run(Empty(config), calls[..|calls| - 1]), calls[|calls| - 1]);
    }
  }

  // ---------- Taking a suggestion ----------

  /**
   Creating a table under the n-th suggestion for a zone is refused exactly when some table of the
   restaurant has that one word as its name, in whatever case and with whatever white space around it.
   */
  lemma SuggestionRefused(s: State, zone: Id, n: nat, r: Rest)
    requires zone in s.zones && CodesAreWords(s.zones)
    ensures var code := s.zones[zone].code;
            FloorPlan.CreateTable(s, code + Decimal.Pad2(n), r).reply.Failure? <==>
              exists id :: id in s.tables && s.tables[id].rest == r
                && Key(s.tables[id].name) == [Lower(code) + Decimal.Pad2(n)]
  {
    var code := s.zones[zone].code;
    var name := code + Decimal.Pad2(n);
    forall id | id in s.tables
      ensures NormalizeName(s.tables[id].name) == NormalizeName(name)
         <==> Key(s.tables[id].name) == [Lower(code) + Decimal.Pad2(n)]
    {
      ZoneNaming.SuggestionClash(code, n, s.tables[id].name);
    }
    if id :| id in s.tables && s.tables[id].rest == r && NormalizeName(s.tables[id].name) == NormalizeName(name) {
      assert FloorPlan.NameTaken(s.tables, name, r, None);
    }
  }
}
