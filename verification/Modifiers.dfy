/**
 Modifier selection of src/menu/modifiers.service.ts: which selections an order line may carry and what
 they add to the unit price.
 */
module Modifiers {
  import opened Basics

  type Id = nat

  datatype Modifier = Modifier(id: Id, name: string, priceDeltaCents: int, available: bool)

  /** A modifier group with its modifiers in the order the database returns them. */
  datatype Group = Group(
    id: Id, name: string, required: bool, minSelect: nat, maxSelect: nat, modifiers: seq<Modifier>)

  /** One priced choice, as stored in an order line's snapshot. */
  datatype Selection = Selection(id: Id, groupId: Id, groupName: string, name: string, priceDeltaCents: int)

  datatype Resolved = Resolved(selections: seq<Selection>, deltaCentsPerUnit: int)

  datatype Refusal =
    | Repeated
    | Invalid(id: Id)
    | Unavailable(name: string)
    | GroupRequired(group: string)
    | TooFew(group: string, least: nat)
    | TooMany(group: string, most: nat)

  datatype Outcome = Accepted(resolved: Resolved) | Refused(why: Refusal)

  // ---------- Specification functions ----------

  predicate Distinct<T(==)>(s: seq<T>) {
    forall i, j :: 0 <= i < j < |s| ==> s[i] != s[j]
  }

  /** JavaScript's `new Set(s)`. */
  function Elements(s: seq<Id>): set<Id> {
    set id | id in s
  }

  /** Every modifier of every group, in group-then-modifier order, each with its group. */
  function Offers(groups: seq<Group>): seq<(Modifier, Group)> {
    if groups == [] then [] else Pair(groups[0].modifiers, groups[0]) + Offers(groups[1..])
  }

  function Pair(modifiers: seq<Modifier>, group: Group): (pairs: seq<(Modifier, Group)>)
    ensures |pairs| == |modifiers| && forall i :: 0 <= i < |pairs| ==> pairs[i] == (modifiers[i], group)
  {
    seq(|modifiers|, i requires 0 <= i < |modifiers| => (modifiers[i], group))
  }

  /** The table the source builds: on a repeated key the later entry wins. */
  function ById(offers: seq<(Modifier, Group)>): map<Id, (Modifier, Group)> {
    if offers == [] then map[] else
    ById(offers[..|offers| - 1])[offers[|offers| - 1].0.id := offers[|offers| - 1]]
  }

  /** How many of the ids were looked up in the given group. */
  function CountIn(table: map<Id, (Modifier, Group)>, ids: seq<Id>, groupId: Id): nat {
    if ids == [] then 0 else
    CountIn(table, ids[..|ids| - 1], groupId)
    + if ids[|ids| - 1] in table && table[ids[|ids| - 1]].1.id == groupId then 1 else 0
  }

  function EffectiveMin(group: Group): nat {
    if group.required then Max(group.minSelect, 1) else group.minSelect
  }

  /** The count rule of one group; an unused optional group is never too small. */
  predicate CountAllowed(group: Group, count: nat) {
    && (group.required ==> count > 0)
    && (count > 0 ==> count >= EffectiveMin(group))
    && count <= group.maxSelect
  }

  function GroupRefusal(group: Group, count: nat): Refusal {
    if group.required && count == 0 then GroupRequired(group.name)
    else if count > 0 && count < EffectiveMin(group) then TooFew(group.name, EffectiveMin(group))
    else TooMany(group.name, group.maxSelect)
  }

  function Choose(modifiers: seq<Modifier>, group: Group, ids: seq<Id>): seq<Selection> {
    if modifiers == [] then [] else
    var m := modifiers[0];
    (if m.id in ids then [Selection(m.id, group.id, group.name, m.name, m.priceDeltaCents)] else [])
    + Choose(modifiers[1..], group, ids)
  }

  function ChooseAll(groups: seq<Group>, ids: seq<Id>): seq<Selection> {
    if groups == [] then [] else
    Choose(groups[0].modifiers, groups[0], ids) + ChooseAll(groups[1..], ids)
  }

  function SumDeltas(selections: seq<Selection>): int {
    if selections == [] then 0 else
    SumDeltas(selections[..|selections| - 1]) + selections[|selections| - 1].priceDeltaCents
  }

  function FirstBadId(table: map<Id, (Modifier, Group)>, ids: seq<Id>): Option<Refusal> {
    if ids == [] then None
    else if ids[0] !in table then Some(Invalid(ids[0]))
    else if !table[ids[0]].0.available then Some(Unavailable(table[ids[0]].0.name))
    else FirstBadId(table, ids[1..])
  }

  function FirstBadGroup(groups: seq<Group>, table: map<Id, (Modifier, Group)>, ids: seq<Id>): Option<Refusal> {
    if groups == [] then None
    else
      var count := CountIn(table, ids, groups[0].id);
      if !CountAllowed(groups[0], count) then Some(GroupRefusal(groups[0], count))
      else FirstBadGroup(groups[1..], table, ids)
  }

  /** The outcome of resolveSelections, checks in the source's order. */
  function Resolve(groups: seq<Group>, ids: seq<Id>): Outcome {
    var table := ById(Offers(groups));
    if !Distinct(ids) then Refused(Repeated)
    else if FirstBadId(table, ids).Some? then Refused(FirstBadId(table, ids).value)
    else if FirstBadGroup(groups, table, ids).Some? then Refused(FirstBadGroup(groups, table, ids).value)
    else Accepted(Resolved(ChooseAll(groups, ids), SumDeltas(ChooseAll(groups, ids))))
  }

  // ---------- The method ----------

  lemma OffersPrefix(groups: seq<Group>, n: nat)
    requires n < |groups|
    ensures Offers(groups[..n + 1]) == Offers(groups[..n]) + Pair(groups[n].modifiers, groups[n])
  {
    if n == 0 {
      assert groups[..1] == [groups[0]] && groups[..0] == [];
    } else {
      assert groups[..n + 1][1..] == groups[1..][..n];
      assert groups[..n][1..] == groups[1..][..n - 1];
      OffersPrefix(groups[1..], n - 1);
    }
  }

  lemma ChooseAllPrefix(groups: seq<Group>, ids: seq<Id>, n: nat)
    requires n < |groups|
    ensures ChooseAll(groups[..n + 1], ids) == ChooseAll(groups[..n], ids) + Choose(groups[n].modifiers, groups[n], ids)
  {
    if n == 0 {
      assert groups[..1] == [groups[0]] && groups[..0] == [];
    } else {
      assert groups[..n + 1][1..] == groups[1..][..n];
      assert groups[..n][1..] == groups[1..][..n - 1];
      ChooseAllPrefix(groups[1..], ids, n - 1);
    }
  }

  lemma ByIdMore(offers: seq<(Modifier, Group)>, offer: (Modifier, Group))
    ensures ById(offers + [offer]) == ById(offers)[offer.0.id := offer]
  {
    assert (offers + [offer])[..|offers|] == offers;
  }

  /** Adds the modifiers of one group to the id table. */
  method AddGroup(group: Group, before: map<Id, (Modifier, Group)>, ghost offers: seq<(Modifier, Group)>)
    returns (byId: map<Id, (Modifier, Group)>)
    requires before == ById(offers)
    ensures byId == ById(offers + Pair(group.modifiers, group))
  {
    byId := before;
    ghost var pairs := Pair(group.modifiers, group);
    assert offers + pairs[..0] == offers;
    for m := 0 to |group.modifiers|
      invariant byId == ById(offers + pairs[..m])
    {
      assert offers + pairs[..m + 1] == (offers + pairs[..m]) + [pairs[m]];
      ByIdMore(offers + pairs[..m], pairs[m]);
      byId := byId[group.modifiers[m].id := (group.modifiers[m], group)];
    }
    assert pairs[..|pairs|] == pairs;
  }

  /** Fills the id table group by group. */
  method BuildTable(groups: seq<Group>) returns (byId: map<Id, (Modifier, Group)>)
    ensures byId == ById(Offers(groups))
  {
    byId := map[];
    for g := 0 to |groups|
      invariant byId == ById(Offers(groups[..g]))
    {
      OffersPrefix(groups, g);
      byId := AddGroup(groups[g], byId, Offers(groups[..g]));
    }
    assert groups[..|groups|] == groups;
  }

  /** Counts the ids per group; a group never hit is absent and reads as 0. */
  method CountByGroup(byId: map<Id, (Modifier, Group)>, ids: seq<Id>) returns (countByGroup: map<Id, nat>)
    requires forall i :: 0 <= i < |ids| ==> ids[i] in byId
    ensures forall g :: (if g in countByGroup then countByGroup[g] else 0) == CountIn(byId, ids, g)
  {
    countByGroup := map[];
    for i := 0 to |ids|
      invariant forall g :: (if g in countByGroup then countByGroup[g] else 0) == CountIn(byId, ids[..i], g)
    {
      assert ids[..i + 1][..i] == ids[..i];
      var groupId := byId[ids[i]].1.id;
      var count := if groupId in countByGroup then countByGroup[groupId] else 0;
      countByGroup := countByGroup[groupId := count + 1];
    }
    assert ids[..|ids|] == ids;
  }

  /** resolveSelections: table building, per-id checks, counting, per-group checks, then pricing. */
  method ResolveSelections(groups: seq<Group>, ids: seq<Id>) returns (outcome: Outcome)
    ensures outcome == Resolve(groups, ids)
  {
    if |Elements(ids)| != |ids| {
      DistinctCount(ids);
      return Refused(Repeated);
    }
    DistinctCount(ids);
    var byId := BuildTable(groups);
    for i := 0 to |ids|
      invariant FirstBadId(byId, ids) == FirstBadId(byId, ids[i..])
      invariant forall k :: 0 <= k < i ==> ids[k] in byId
    {
      if ids[i] !in byId {
        return Refused(Invalid(ids[i]));
      }
      if !byId[ids[i]].0.available {
        return Refused(Unavailable(byId[ids[i]].0.name));
      }
    }
    var countByGroup := CountByGroup(byId, ids);
    for g := 0 to |groups|
      invariant FirstBadGroup(groups, byId, ids) == FirstBadGroup(groups[g..], byId, ids)
    {
      var group := groups[g];
      var count := if group.id in countByGroup then countByGroup[group.id] else 0;
      var effectiveMin := if group.required then Max(group.minSelect, 1) else group.minSelect;
      if group.required && count == 0 {
        return Refused(GroupRequired(group.name));
      }
      if count > 0 && count < effectiveMin {
        return Refused(TooFew(group.name, effectiveMin));
      }
      if count > group.maxSelect {
        return Refused(TooMany(group.name, group.maxSelect));
      }
    }
    var selections := ChooseAll(groups, ids);
    var delta := 0;
    for i := 0 to |selections|
      invariant delta == SumDeltas(selections[..i])
    {
      assert selections[..i + 1][..i] == selections[..i];
      delta := delta + selections[i].priceDeltaCents;
    }
    assert selections[..|selections|] == selections;
    return Accepted(Resolved(selections, delta));
  }

  lemma DistinctSplit(ids: seq<Id>)
    requires ids != []
    ensures Distinct(ids) <==> Distinct(ids[..|ids| - 1]) && ids[|ids| - 1] !in ids[..|ids| - 1]
  {
    var n := |ids| - 1;
    if Distinct(ids) {
      forall i, j | 0 <= i < j < n
        ensures ids[..n][i] != ids[..n][j]
      {
        assert ids[i] != ids[j];
      }
    }
    forall i | 0 <= i < n
      ensures Distinct(ids) ==> ids[..n][i] != ids[n]
    {
    }
  }

  lemma {:induction false} DistinctCount(ids: seq<Id>)
    ensures |Elements(ids)| <= |ids|
    ensures |Elements(ids)| == |ids| <==> Distinct(ids)
  {
    var all := Elements(ids);
    if ids != [] {
      var front, last := ids[..|ids| - 1], ids[|ids| - 1];
      var before := Elements(front);
      assert ids == front + [last];
      DistinctSplit(ids);
      DistinctCount(front);
      assert all == before + {last};
      assert last in before ==> all == before;
      assert last in before <==> last in front;
    } else {
      assert all == {};
    }
  }

  // ---------- What a valid selection is ----------

  /** The database's primary keys: no two groups and no two modifiers share an id. */
  ghost predicate UniqueKeys(groups: seq<Group>) {
    && (forall i, j :: 0 <= i < j < |groups| ==> groups[i].id != groups[j].id)
    && forall i, j :: 0 <= i < j < |Offers(groups)| ==> Offers(groups)[i].0.id != Offers(groups)[j].0.id
  }

  predicate InGroup(group: Group, id: Id) {
    exists i :: 0 <= i < |group.modifiers| && group.modifiers[i].id == id
  }

  /** The chosen ids that belong to a group. */
  function ChosenIn(group: Group, ids: seq<Id>): set<Id> {
    set id | id in ids && InGroup(group, id)
  }

  ghost predicate OfferedAvailable(groups: seq<Group>, id: Id) {
    exists offer :: offer in Offers(groups) && offer.0.id == id && offer.0.available
  }

  /** At most a group's maximum; at least its minimum, unless nothing is chosen of an optional one. */
  predicate WithinRule(group: Group, n: nat) {
    && n <= group.maxSelect
    && (if n == 0 then !group.required else n >= group.minSelect)
  }

  /** Distinct ids, each an available modifier of the item, every group's count within its rule. */
  ghost predicate ValidSelection(groups: seq<Group>, ids: seq<Id>) {
    && Distinct(ids)
    && (forall id :: id in ids ==> OfferedAvailable(groups, id))
    && forall group :: group in groups ==> WithinRule(group, |ChosenIn(group, ids)|)
  }

  // ---------- Looking ids up ----------

  lemma {:induction false} OfferMembership(groups: seq<Group>, m: Modifier, g: Group)
    ensures (m, g) in Offers(groups) <==> g in groups && m in g.modifiers
  {
    if groups != [] {
      OfferMembership(groups[1..], m, g);
      var pairs := Pair(groups[0].modifiers, groups[0]);
      if g == groups[0] && m in g.modifiers {
        var i :| 0 <= i < |g.modifiers| && g.modifiers[i] == m;
        assert pairs[i] == (m, g);
      }
      assert groups == [groups[0]] + groups[1..];
    }
  }

  lemma {:induction false} TableLookup(offers: seq<(Modifier, Group)>)
    ensures forall id :: id in ById(offers) ==> ById(offers)[id] in offers && ById(offers)[id].0.id == id
    ensures forall offer :: offer in offers ==> offer.0.id in ById(offers)
  {
    if offers != [] {
      TableLookup(offers[..|offers| - 1]);
      assert offers == offers[..|offers| - 1] + [offers[|offers| - 1]];
    }
  }

  lemma OwnerIsUnique(groups: seq<Group>, a: (Modifier, Group), b: (Modifier, Group))
    requires UniqueKeys(groups) && a in Offers(groups) && b in Offers(groups) && a.0.id == b.0.id
    ensures a == b
  {
    var i :| 0 <= i < |Offers(groups)| && Offers(groups)[i] == a;
    var j :| 0 <= j < |Offers(groups)| && Offers(groups)[j] == b;
  }

  /** Under unique keys the looked-up group is the one containing the modifier. */
  lemma LookupGroup(groups: seq<Group>, group: Group, id: Id)
    requires UniqueKeys(groups) && group in groups && id in ById(Offers(groups))
    ensures ById(Offers(groups))[id].1.id == group.id <==> InGroup(group, id)
  {
    TableLookup(Offers(groups));
    var offer := ById(Offers(groups))[id];
    OfferMembership(groups, offer.0, offer.1);
    if offer.1.id == group.id {
      assert offer.1 == group;
      var i :| 0 <= i < |group.modifiers| && group.modifiers[i] == offer.0;
      assert InGroup(group, id);
    }
    if InGroup(group, id) {
      var i :| 0 <= i < |group.modifiers| && group.modifiers[i].id == id;
      OfferMembership(groups, group.modifiers[i], group);
      OwnerIsUnique(groups, offer, (group.modifiers[i], group));
    }
  }

  lemma {:induction false} CountInIsCardinality(groups: seq<Group>, group: Group, ids: seq<Id>)
    requires UniqueKeys(groups) && group in groups && Distinct(ids)
    requires forall id :: id in ids ==> id in ById(Offers(groups))
    ensures CountIn(ById(Offers(groups)), ids, group.id) == |ChosenIn(group, ids)|
  {
    if ids == [] {
      assert ChosenIn(group, ids) == {};
    } else {
      var front, last := ids[..|ids| - 1], ids[|ids| - 1];
      assert ids == front + [last];
      CountInIsCardinality(groups, group, front);
      LookupGroup(groups, group, last);
      if InGroup(group, last) {
        assert ChosenIn(group, ids) == ChosenIn(group, front) + {last};
        assert last !in front;
      } else {
        assert ChosenIn(group, ids) == ChosenIn(group, front);
      }
    }
  }

  lemma {:induction false} BadIdMeans(table: map<Id, (Modifier, Group)>, ids: seq<Id>)
    ensures FirstBadId(table, ids).None? <==> forall id :: id in ids ==> id in table && table[id].0.available
  {
    if ids != [] {
      BadIdMeans(table, ids[1..]);
      assert ids == [ids[0]] + ids[1..];
    }
  }

  lemma {:induction false} BadGroupMeans(groups: seq<Group>, table: map<Id, (Modifier, Group)>, ids: seq<Id>)
    ensures FirstBadGroup(groups, table, ids).None?
       <==> forall g :: g in groups ==> CountAllowed(g, CountIn(table, ids, g.id))
  {
    if groups != [] {
      BadGroupMeans(groups[1..], table, ids);
      assert groups == [groups[0]] + groups[1..];
    }
  }

  lemma LookupMeans(groups: seq<Group>, id: Id)
    requires UniqueKeys(groups)
    ensures id in ById(Offers(groups)) && ById(Offers(groups))[id].0.available <==> OfferedAvailable(groups, id)
  {
    var offers, table := Offers(groups), ById(Offers(groups));
    TableLookup(offers);
    if offer :| offer in offers && offer.0.id == id && offer.0.available {
      OwnerIsUnique(groups, offer, table[id]);
    }
  }

  lemma AllOnOffer(groups: seq<Group>, ids: seq<Id>)
    requires UniqueKeys(groups)
    ensures FirstBadId(ById(Offers(groups)), ids).None? <==> forall id :: id in ids ==> OfferedAvailable(groups, id)
  {
    BadIdMeans(ById(Offers(groups)), ids);
    forall id | id in ids
      ensures id in ById(Offers(groups)) && ById(Offers(groups))[id].0.available <==> OfferedAvailable(groups, id)
    {
      LookupMeans(groups, id);
    }
  }

  lemma AllWithinRule(groups: seq<Group>, ids: seq<Id>)
    requires UniqueKeys(groups) && Distinct(ids) && FirstBadId(ById(Offers(groups)), ids).None?
    ensures FirstBadGroup(groups, ById(Offers(groups)), ids).None?
       <==> forall group :: group in groups ==> WithinRule(group, |ChosenIn(group, ids)|)
  {
    var table := ById(Offers(groups));
    BadIdMeans(table, ids);
    BadGroupMeans(groups, table, ids);
    forall g | g in groups
      ensures CountIn(table, ids, g.id) == |ChosenIn(g, ids)|
    {
      CountInIsCardinality(groups, g, ids);
    }
  }

  /** resolveSelections accepts exactly the valid selections. */
  lemma AcceptsExactlyValid(groups: seq<Group>, ids: seq<Id>)
    requires UniqueKeys(groups)
    ensures Resolve(groups, ids).Accepted? <==> ValidSelection(groups, ids)
  {
    AllOnOffer(groups, ids);
    if Distinct(ids) && FirstBadId(ById(Offers(groups)), ids).None? {
      AllWithinRule(groups, ids);
    }
  }

  // ---------- Why a selection is refused ----------

  /** The id the refusal is about is the first one not on offer, or on offer but not available. */
  ghost predicate IsIdReason(groups: seq<Group>, ids: seq<Id>, why: Refusal) {
    exists i :: 0 <= i < |ids| && !OfferedAvailable(groups, ids[i])
      && (forall j :: 0 <= j < i ==> OfferedAvailable(groups, ids[j]))
      && if exists g, m :: g in groups && m in g.modifiers && m.id == ids[i]
         then exists g, m :: g in groups && m in g.modifiers && m.id == ids[i] && why == Unavailable(m.name)
         else why == Invalid(ids[i])
  }

  /** The group the refusal is about is the first one whose rule the choice breaks. */
  ghost predicate IsGroupReason(groups: seq<Group>, ids: seq<Id>, why: Refusal) {
    exists k :: 0 <= k < |groups|
      && (forall j :: 0 <= j < k ==> WithinRule(groups[j], |ChosenIn(groups[j], ids)|))
      && var group, n := groups[k], |ChosenIn(groups[k], ids)|;
      && !WithinRule(group, n)
      && why == if n == 0 then GroupRequired(group.name)
                else if n < group.minSelect then TooFew(group.name, group.minSelect)
                else TooMany(group.name, group.maxSelect)
  }

  lemma {:induction false} BadIdReason(groups: seq<Group>, ids: seq<Id>) returns (i: nat)
    requires UniqueKeys(groups) && FirstBadId(ById(Offers(groups)), ids).Some?
    ensures i < |ids| && !OfferedAvailable(groups, ids[i])
    ensures forall j :: 0 <= j < i ==> OfferedAvailable(groups, ids[j])
    ensures var table, why := ById(Offers(groups)), FirstBadId(ById(Offers(groups)), ids).value;
            if ids[i] in table then why == Unavailable(table[ids[i]].0.name) else why == Invalid(ids[i])
  {
    LookupMeans(groups, ids[0]);
    i := 0;
    if OfferedAvailable(groups, ids[0]) {
      i := BadIdReason(groups, ids[1..]);
      i := i + 1;
    }
  }

  lemma {:induction false} BadGroupReason(
    groups: seq<Group>, table: map<Id, (Modifier, Group)>, ids: seq<Id>) returns (k: nat)
    requires FirstBadGroup(groups, table, ids).Some?
    ensures k < |groups| && forall j :: 0 <= j < k ==> CountAllowed(groups[j], CountIn(table, ids, groups[j].id))
    ensures var n := CountIn(table, ids, groups[k].id);
            !CountAllowed(groups[k], n) && FirstBadGroup(groups, table, ids).value == GroupRefusal(groups[k], n)
  {
    if CountAllowed(groups[0], CountIn(table, ids, groups[0].id)) {
      k := BadGroupReason(groups[1..], table, ids);
      k := k + 1;
    } else {
      k := 0;
    }
  }

  lemma AllOffered(groups: seq<Group>, ids: seq<Id>)
    requires FirstBadId(ById(Offers(groups)), ids).None?
    ensures forall id :: id in ids ==> id in ById(Offers(groups)) && OfferedAvailable(groups, id)
  {
    TableLookup(Offers(groups));
    BadIdMeans(ById(Offers(groups)), ids);
  }

  lemma IdReason(groups: seq<Group>, ids: seq<Id>)
    requires UniqueKeys(groups) && FirstBadId(ById(Offers(groups)), ids).Some?
    ensures IsIdReason(groups, ids, FirstBadId(ById(Offers(groups)), ids).value)
    ensures exists id :: id in ids && !OfferedAvailable(groups, id)
  {
    var table := ById(Offers(groups));
    TableLookup(Offers(groups));
    forall g, m | g in groups && m in g.modifiers
      ensures m.id in table
    {
      OfferMembership(groups, m, g);
      assert (m, g).0.id in table;
    }
    var i := BadIdReason(groups, ids);
    if ids[i] in table {
      OfferMembership(groups, table[ids[i]].0, table[ids[i]].1);
    }
    assert ids[i] in ids;
  }

  lemma GroupReason(groups: seq<Group>, ids: seq<Id>)
    requires UniqueKeys(groups) && Distinct(ids) && FirstBadId(ById(Offers(groups)), ids).None?
    requires FirstBadGroup(groups, ById(Offers(groups)), ids).Some?
    ensures IsGroupReason(groups, ids, FirstBadGroup(groups, ById(Offers(groups)), ids).value)
  {
    AllOffered(groups, ids);
    var k := BadGroupReason(groups, ById(Offers(groups)), ids);
    forall j | 0 <= j < |groups|
      ensures CountIn(ById(Offers(groups)), ids, groups[j].id) == |ChosenIn(groups[j], ids)|
    {
      CountInIsCardinality(groups, groups[j], ids);
    }
  }

  /** A refusal names the first thing wrong: a repeated id, else an id, else a group. */
  lemma RefusesWithReason(groups: seq<Group>, ids: seq<Id>)
    requires UniqueKeys(groups) && Resolve(groups, ids).Refused?
    ensures var why := Resolve(groups, ids).why;
            if exists i, j :: 0 <= i < j < |ids| && ids[i] == ids[j] then why == Repeated
            else if exists id :: id in ids && !OfferedAvailable(groups, id) then IsIdReason(groups, ids, why)
            else IsGroupReason(groups, ids, why)
  {
    if Distinct(ids) {
      if FirstBadId(ById(Offers(groups)), ids).Some? {
        IdReason(groups, ids);
      } else {
        AllOffered(groups, ids);
        GroupReason(groups, ids);
      }
    }
  }

  // ---------- What an accepted selection looks like ----------

  function SelectionIds(selections: seq<Selection>): (ids: seq<Id>)
    ensures |ids| == |selections|
  {
    seq(|selections|, i requires 0 <= i < |selections| => selections[i].id)
  }

  function SelectionOf(offer: (Modifier, Group)): Selection {
    Selection(offer.0.id, offer.1.id, offer.1.name, offer.0.name, offer.0.priceDeltaCents)
  }

  /** The chosen ones among the offers, in the offers' order. */
  function Pick(offers: seq<(Modifier, Group)>, ids: seq<Id>): seq<Selection> {
    if offers == [] then [] else
    Pick(offers[..|offers| - 1], ids)
    + if offers[|offers| - 1].0.id in ids then [SelectionOf(offers[|offers| - 1])] else []
  }

  lemma {:induction false} PickConcat(a: seq<(Modifier, Group)>, b: seq<(Modifier, Group)>, ids: seq<Id>)
    ensures Pick(a + b, ids) == Pick(a, ids) + Pick(b, ids)
  {
    if b == [] {
      assert a + b == a;
    } else {
      assert (a + b)[..|a + b| - 1] == a + b[..|b| - 1];
      PickConcat(a, b[..|b| - 1], ids);
    }
  }

  lemma PickOne(offer: (Modifier, Group), ids: seq<Id>)
    ensures Pick([offer], ids) == if offer.0.id in ids then [SelectionOf(offer)] else []
  {
    assert [offer][..0] == [];
  }

  lemma {:induction false} ChooseIsPick(modifiers: seq<Modifier>, group: Group, ids: seq<Id>)
    ensures Choose(modifiers, group, ids) == Pick(Pair(modifiers, group), ids)
  {
    if modifiers != [] {
      ChooseIsPick(modifiers[1..], group, ids);
      var head := (modifiers[0], group);
      assert Pair(modifiers, group) == [head] + Pair(modifiers[1..], group);
      PickConcat([head], Pair(modifiers[1..], group), ids);
      PickOne(head, ids);
    }
  }

  lemma {:induction false} ChooseAllIsPick(groups: seq<Group>, ids: seq<Id>)
    ensures ChooseAll(groups, ids) == Pick(Offers(groups), ids)
  {
    if groups != [] {
      ChooseAllIsPick(groups[1..], ids);
      ChooseIsPick(groups[0].modifiers, groups[0], ids);
      PickConcat(Pair(groups[0].modifiers, groups[0]), Offers(groups[1..]), ids);
    }
  }

  /** Picked selections come from increasing positions of the offers. */
  lemma {:induction false} PickPositions(offers: seq<(Modifier, Group)>, ids: seq<Id>) returns (at: seq<nat>)
    ensures |at| == |Pick(offers, ids)|
    ensures forall i :: 0 <= i < |at| ==>
              at[i] < |offers| && offers[at[i]].0.id in ids && Pick(offers, ids)[i] == SelectionOf(offers[at[i]])
    ensures forall i, j :: 0 <= i < j < |at| ==> at[i] < at[j]
    ensures forall k :: 0 <= k < |offers| && offers[k].0.id in ids ==> k in at
  {
    if offers == [] {
      at := [];
    } else {
      var n := |offers| - 1;
      at := PickPositions(offers[..n], ids);
      if offers[n].0.id in ids {
        at := at + [n];
        assert Pick(offers, ids) == Pick(offers[..n], ids) + [SelectionOf(offers[n])];
      } else {
        assert Pick(offers, ids) == Pick(offers[..n], ids);
      }
      assert forall k :: 0 <= k < n ==> offers[..n][k] == offers[k];
    }
  }

  /** The deltas of the chosen modifiers, summed in the order the caller named them. */
  function SumOver(table: map<Id, (Modifier, Group)>, ids: seq<Id>): int
    requires forall id :: id in ids ==> id in table
  {
    if ids == [] then 0 else
    SumOver(table, ids[..|ids| - 1]) + table[ids[|ids| - 1]].0.priceDeltaCents
  }

  lemma SumDeltasAppend(selections: seq<Selection>, s: Selection)
    ensures SumDeltas(selections + [s]) == SumDeltas(selections) + s.priceDeltaCents
  {
    assert (selections + [s])[..|selections|] == selections;
  }

  lemma {:induction false} PickOneMore(offers: seq<(Modifier, Group)>, ids: seq<Id>, id: Id)
    requires forall i, j :: 0 <= i < j < |offers| ==> offers[i].0.id != offers[j].0.id
    requires id !in ids
    ensures SumDeltas(Pick(offers, ids + [id]))
         == SumDeltas(Pick(offers, ids)) + if id in ById(offers) then ById(offers)[id].0.priceDeltaCents else 0
  {
    if offers != [] {
      var front, last := offers[..|offers| - 1], offers[|offers| - 1];
      PickOneMore(front, ids, id);
      TableLookup(front);
      SumDeltasAppend(Pick(front, ids), SelectionOf(last));
      SumDeltasAppend(Pick(front, ids + [id]), SelectionOf(last));
      assert Pick(front, ids) + [] == Pick(front, ids);
      assert Pick(front, ids + [id]) + [] == Pick(front, ids + [id]);
      assert last.0.id in ids + [id] <==> last.0.id in ids || last.0.id == id;
      if last.0.id == id {
        assert id !in ById(front);
      }
    }
  }

  lemma {:induction false} PickSum(offers: seq<(Modifier, Group)>, ids: seq<Id>)
    requires forall i, j :: 0 <= i < j < |offers| ==> offers[i].0.id != offers[j].0.id
    requires Distinct(ids) && forall id :: id in ids ==> id in ById(offers)
    ensures SumDeltas(Pick(offers, ids)) == SumOver(ById(offers), ids)
  {
    if ids == [] {
      NothingPicked(offers);
    } else {
      var front, last := ids[..|ids| - 1], ids[|ids| - 1];
      assert ids == front + [last];
      PickSum(offers, front);
      PickOneMore(offers, front, last);
    }
  }

  lemma NothingPicked(offers: seq<(Modifier, Group)>)
    ensures Pick(offers, []) == []
  {
  }

  lemma SameElements(a: seq<Id>, b: seq<Id>)
    requires Distinct(a) && Distinct(b)
    requires forall id :: id in a <==> id in b
    ensures multiset(a) == multiset(b)
  {
    forall id
      ensures multiset(a)[id] == multiset(b)[id]
    {
      AtMostOnce(a, id);
      AtMostOnce(b, id);
    }
  }

  lemma {:induction false} AtMostOnce(s: seq<Id>, id: Id)
    requires Distinct(s)
    ensures multiset(s)[id] == if id in s then 1 else 0
  {
    if s != [] {
      var front, last := s[..|s| - 1], s[|s| - 1];
      assert s == front + [last];
      AtMostOnce(front, id);
      assert last !in front;
    }
  }

  /** Ids read off distinct keys at rising positions, and all that are wanted, are those wanted, each once. */
  lemma RisingIsPermutation(keys: seq<Id>, ids: seq<Id>, at: seq<nat>, chosen: seq<Id>)
    requires Distinct(keys) && Distinct(ids) && forall id :: id in ids ==> id in keys
    requires |at| == |chosen|
    requires forall i :: 0 <= i < |at| ==> at[i] < |keys| && chosen[i] == keys[at[i]] && chosen[i] in ids
    requires forall i, j :: 0 <= i < j < |at| ==> at[i] < at[j]
    requires forall k :: 0 <= k < |keys| && keys[k] in ids ==> k in at
    ensures multiset(chosen) == multiset(ids)
  {
    forall id | id in ids
      ensures id in chosen
    {
      var k :| 0 <= k < |keys| && keys[k] == id;
      var i :| 0 <= i < |at| && at[i] == k;
      assert chosen[i] == id;
    }
    SameElements(chosen, ids);
  }

  /** Picking gives every named offer exactly once. */
  lemma PickIsPermutation(offers: seq<(Modifier, Group)>, ids: seq<Id>, at: seq<nat>)
    requires forall i, j :: 0 <= i < j < |offers| ==> offers[i].0.id != offers[j].0.id
    requires Distinct(ids) && forall id :: id in ids ==> exists k :: 0 <= k < |offers| && offers[k].0.id == id
    requires |at| == |Pick(offers, ids)|
    requires forall i :: 0 <= i < |at| ==>
               at[i] < |offers| && offers[at[i]].0.id in ids && Pick(offers, ids)[i] == SelectionOf(offers[at[i]])
    requires forall i, j :: 0 <= i < j < |at| ==> at[i] < at[j]
    requires forall k :: 0 <= k < |offers| && offers[k].0.id in ids ==> k in at
    ensures multiset(SelectionIds(Pick(offers, ids))) == multiset(ids)
  {
    var keys := seq(|offers|, k requires 0 <= k < |offers| => offers[k].0.id);
    forall id | id in ids
      ensures id in keys
    {
      var k :| 0 <= k < |offers| && offers[k].0.id == id;
      assert keys[k] == id;
    }
    RisingIsPermutation(keys, ids, at, SelectionIds(Pick(offers, ids)));
  }

  /**
   On acceptance the selections are the named modifiers, each once, in group-then-modifier order, and the
   unit delta is the sum of their deltas whatever order they were named in.
   */
  lemma AcceptedSelections(groups: seq<Group>, ids: seq<Id>) returns (at: seq<nat>)
    requires UniqueKeys(groups) && Resolve(groups, ids).Accepted?
    ensures var r, offers := Resolve(groups, ids).resolved, Offers(groups);
            && multiset(SelectionIds(r.selections)) == multiset(ids)
            && |at| == |r.selections|
            && (forall i, j :: 0 <= i < j < |at| ==> at[i] < at[j])
            && (forall i :: 0 <= i < |at| ==> at[i] < |offers| && r.selections[i] == SelectionOf(offers[at[i]]))
            && (forall id :: id in ids ==> id in ById(offers))
            && r.deltaCentsPerUnit == SumOver(ById(offers), ids)
  {
    var offers, table := Offers(groups), ById(Offers(groups));
    TableLookup(offers);
    BadIdMeans(table, ids);
    ChooseAllIsPick(groups, ids);
    at := PickPositions(offers, ids);
    PickSum(offers, ids);
    forall id | id in ids
      ensures exists k :: 0 <= k < |offers| && offers[k].0.id == id
    {
      var k :| 0 <= k < |offers| && offers[k] == table[id];
    }
    PickIsPermutation(offers, ids, at);
  }

  lemma ChooseByMembership(modifiers: seq<Modifier>, group: Group, ids: seq<Id>, others: seq<Id>)
    requires forall id :: id in ids <==> id in others
    ensures Choose(modifiers, group, ids) == Choose(modifiers, group, others)
  {
  }

  lemma {:induction false} ChooseAllByMembership(groups: seq<Group>, ids: seq<Id>, others: seq<Id>)
    requires forall id :: id in ids <==> id in others
    ensures ChooseAll(groups, ids) == ChooseAll(groups, others)
  {
    if groups != [] {
      ChooseByMembership(groups[0].modifiers, groups[0], ids, others);
      ChooseAllByMembership(groups[1..], ids, others);
    }
  }

  lemma DistinctByMultiset(ids: seq<Id>, others: seq<Id>)
    requires multiset(ids) == multiset(others)
    ensures Distinct(ids) <==> Distinct(others)
  {
    DistinctCount(ids);
    DistinctCount(others);
    assert |multiset(ids)| == |ids| && |multiset(others)| == |others|;
    assert forall id :: id in ids <==> id in multiset(ids);
    assert forall id :: id in others <==> id in multiset(others);
    assert Elements(ids) == Elements(others);
  }

  /** Naming the same modifiers in another order is accepted alike and gives the same result. */
  lemma OrderDoesNotMatter(groups: seq<Group>, ids: seq<Id>, others: seq<Id>)
    requires UniqueKeys(groups) && multiset(ids) == multiset(others)
    ensures Resolve(groups, ids).Accepted? <==> Resolve(groups, others).Accepted?
    ensures Resolve(groups, ids).Accepted? ==> Resolve(groups, ids) == Resolve(groups, others)
  {
    assert forall id :: id in ids <==> id in multiset(ids);
    assert forall id :: id in others <==> id in multiset(others);
    DistinctByMultiset(ids, others);
    AcceptsExactlyValid(groups, ids);
    AcceptsExactlyValid(groups, others);
    ChooseAllByMembership(groups, ids, others);
    forall group | group in groups
      ensures ChosenIn(group, ids) == ChosenIn(group, others)
    {
    }
  }

  // ---------- When an item can be ordered at all ----------

  /** The ids of the available modifiers of a group, in order. */
  function AvailableIds(modifiers: seq<Modifier>): seq<Id> {
    if modifiers == [] then [] else
    AvailableIds(modifiers[..|modifiers| - 1])
    + if modifiers[|modifiers| - 1].available then [modifiers[|modifiers| - 1].id] else []
  }

  predicate HasAvailable(modifiers: seq<Modifier>, id: Id) {
    exists i :: 0 <= i < |modifiers| && modifiers[i].id == id && modifiers[i].available
  }

  /** A required group can be satisfied: enough may be taken, and enough are there to take. */
  predicate Satisfiable(group: Group) {
    group.required ==>
      Max(group.minSelect, 1) <= group.maxSelect && Max(group.minSelect, 1) <= |AvailableIds(group.modifiers)|
  }

  /** The first few available modifiers of each required group. */
  function Witness(groups: seq<Group>): seq<Id>
    requires forall g :: g in groups ==> Satisfiable(g)
  {
    if groups == [] then [] else
    Sample(groups[0]) + Witness(groups[1..])
  }

  function Sample(group: Group): seq<Id>
    requires Satisfiable(group)
  {
    if group.required then AvailableIds(group.modifiers)[..Max(group.minSelect, 1)] else []
  }

  lemma {:induction false} AvailableIdsMeans(modifiers: seq<Modifier>)
    requires forall i, j :: 0 <= i < j < |modifiers| ==> modifiers[i].id != modifiers[j].id
    ensures Distinct(AvailableIds(modifiers))
    ensures forall id :: id in AvailableIds(modifiers) <==> HasAvailable(modifiers, id)
  {
    if modifiers != [] {
      var n := |modifiers| - 1;
      var front, last := modifiers[..n], modifiers[n];
      AvailableIdsMeans(front);
      forall id
        ensures HasAvailable(modifiers, id) <==> HasAvailable(front, id) || (last.available && last.id == id)
      {
        if i :| 0 <= i < n && front[i].id == id && front[i].available {
          assert modifiers[i].id == id && modifiers[i].available;
        }
        if i :| 0 <= i <= n && modifiers[i].id == id && modifiers[i].available {
          assert i < n ==> front[i] == modifiers[i];
        }
      }
      assert !HasAvailable(front, last.id);
    }
  }

  /** The offers of the first group come first, and those of the others follow. */
  lemma OfferAt(groups: seq<Group>, k: nat)
    requires groups != [] && k < |Offers(groups)|
    ensures var n := |groups[0].modifiers|;
            if k < n then Offers(groups)[k].0 == groups[0].modifiers[k]
            else k - n < |Offers(groups[1..])| && Offers(groups)[k] == Offers(groups[1..])[k - n]
  {
  }

  lemma UniqueKeysTail(groups: seq<Group>)
    requires UniqueKeys(groups) && groups != []
    ensures UniqueKeys(groups[1..])
    ensures forall i, j :: 0 <= i < j < |groups[0].modifiers| ==> groups[0].modifiers[i].id != groups[0].modifiers[j].id
    ensures forall i, offer :: 0 <= i < |groups[0].modifiers| && offer in Offers(groups[1..]) ==>
              groups[0].modifiers[i].id != offer.0.id
  {
    var n, rest := |groups[0].modifiers|, Offers(groups[1..]);
    assert |Offers(groups)| == n + |rest|;
    forall i, j | 0 <= i < j < |rest|
      ensures rest[i].0.id != rest[j].0.id
    {
      OfferAt(groups, n + i);
      OfferAt(groups, n + j);
    }
    forall i, j | 0 <= i < j < n
      ensures groups[0].modifiers[i].id != groups[0].modifiers[j].id
    {
      OfferAt(groups, i);
      OfferAt(groups, j);
    }
    forall i, offer | 0 <= i < n && offer in rest
      ensures groups[0].modifiers[i].id != offer.0.id
    {
      var k :| 0 <= k < |rest| && rest[k] == offer;
      OfferAt(groups, i);
      OfferAt(groups, n + k);
    }
  }

  /** Modifiers of one group do not share ids. */
  lemma {:induction false} UniqueInGroup(groups: seq<Group>, group: Group)
    requires UniqueKeys(groups) && group in groups
    ensures forall i, j :: 0 <= i < j < |group.modifiers| ==> group.modifiers[i].id != group.modifiers[j].id
  {
    UniqueKeysTail(groups);
    if group != groups[0] {
      UniqueInGroup(groups[1..], group);
    }
  }

  lemma SetOfDistinct(s: seq<Id>)
    requires Distinct(s)
    ensures |Elements(s)| == |s|
  {
    DistinctCount(s);
  }

  lemma SubsetSize(a: set<Id>, b: set<Id>)
    requires a <= b
    ensures |a| <= |b|
  {
    assert b == a + (b - a);
  }

  /** An accepted selection shows every required group satisfiable. */
  lemma AcceptedNeeds(groups: seq<Group>, ids: seq<Id>, group: Group)
    requires UniqueKeys(groups) && ValidSelection(groups, ids) && group in groups
    ensures Satisfiable(group)
  {
    UniqueInGroup(groups, group);
    AvailableIdsMeans(group.modifiers);
    SetOfDistinct(AvailableIds(group.modifiers));
    var available := Elements(AvailableIds(group.modifiers));
    forall id | id in ChosenIn(group, ids)
      ensures id in available
    {
      var offer :| offer in Offers(groups) && offer.0.id == id && offer.0.available;
      var i :| 0 <= i < |group.modifiers| && group.modifiers[i].id == id;
      OfferMembership(groups, group.modifiers[i], group);
      OwnerIsUnique(groups, offer, (group.modifiers[i], group));
    }
    SubsetSize(ChosenIn(group, ids), available);
  }

  lemma {:induction false} WitnessMembers(groups: seq<Group>, id: Id)
    requires UniqueKeys(groups) && forall g :: g in groups ==> Satisfiable(g)
    requires id in Witness(groups)
    ensures exists g :: g in groups && id in Sample(g) && InGroup(g, id)
    ensures OfferedAvailable(groups, id)
  {
    UniqueKeysTail(groups);
    if id in Sample(groups[0]) {
      AvailableIdsMeans(groups[0].modifiers);
      assert HasAvailable(groups[0].modifiers, id);
      var i :| 0 <= i < |groups[0].modifiers| && groups[0].modifiers[i].id == id && groups[0].modifiers[i].available;
      assert InGroup(groups[0], id);
      OfferMembership(groups, groups[0].modifiers[i], groups[0]);
      assert (groups[0].modifiers[i], groups[0]) in Offers(groups);
    } else {
      WitnessMembers(groups[1..], id);
      var offer :| offer in Offers(groups[1..]) && offer.0.id == id && offer.0.available;
      assert offer in Offers(groups);
    }
  }

  lemma {:induction false} WitnessDistinct(groups: seq<Group>)
    requires UniqueKeys(groups) && forall g :: g in groups ==> Satisfiable(g)
    ensures Distinct(Witness(groups))
  {
    if groups != [] {
      UniqueKeysTail(groups);
      WitnessDistinct(groups[1..]);
      AvailableIdsMeans(groups[0].modifiers);
      forall id | id in Sample(groups[0])
        ensures id !in Witness(groups[1..])
      {
        assert HasAvailable(groups[0].modifiers, id);
        if id in Witness(groups[1..]) {
          WitnessMembers(groups[1..], id);
          assert false;
        }
      }
      DistinctConcat(Sample(groups[0]), Witness(groups[1..]));
    }
  }

  lemma DistinctConcat(a: seq<Id>, b: seq<Id>)
    requires Distinct(a) && Distinct(b) && forall id :: id in a ==> id !in b
    ensures Distinct(a + b)
  {
    forall i, j | 0 <= i < j < |a + b|
      ensures (a + b)[i] != (a + b)[j]
    {
      if i < |a| <= j {
        assert (a + b)[i] in a && (a + b)[j] in b;
      }
    }
  }

  lemma {:induction false} SampleInWitness(groups: seq<Group>, group: Group, id: Id)
    requires forall g :: g in groups ==> Satisfiable(g)
    requires group in groups && id in Sample(group)
    ensures id in Witness(groups)
  {
    if group != groups[0] {
      SampleInWitness(groups[1..], group, id);
    }
  }

  /** Inside one group the witness takes exactly that group's sample. */
  lemma WitnessCount(groups: seq<Group>, group: Group)
    requires UniqueKeys(groups) && group in groups && forall g :: g in groups ==> Satisfiable(g)
    ensures |ChosenIn(group, Witness(groups))| == |Sample(group)|
  {
    UniqueInGroup(groups, group);
    AvailableIdsMeans(group.modifiers);
    SetOfDistinct(Sample(group));
    forall id
      ensures id in ChosenIn(group, Witness(groups)) <==> id in Sample(group)
    {
      if id in Sample(group) {
        SampleInWitness(groups, group, id);
        assert HasAvailable(group.modifiers, id);
      }
      if id in ChosenIn(group, Witness(groups)) {
        WitnessMembers(groups, id);
        var g :| g in groups && id in Sample(g) && InGroup(g, id);
        var i :| 0 <= i < |g.modifiers| && g.modifiers[i].id == id;
        var k :| 0 <= k < |group.modifiers| && group.modifiers[k].id == id;
        OfferMembership(groups, g.modifiers[i], g);
        OfferMembership(groups, group.modifiers[k], group);
        OwnerIsUnique(groups, (g.modifiers[i], g), (group.modifiers[k], group));
      }
    }
    assert ChosenIn(group, Witness(groups)) == Elements(Sample(group));
  }

  /**
   Some list of modifiers is accepted exactly when every required group allows, and has available, at
   least max(minSelect, 1) modifiers.
   */
  lemma Orderable(groups: seq<Group>)
    requires UniqueKeys(groups)
    ensures (exists ids :: Resolve(groups, ids).Accepted?) <==> forall g :: g in groups ==> Satisfiable(g)
  {
    if ids :| Resolve(groups, ids).Accepted? {
      AcceptsExactlyValid(groups, ids);
      forall g | g in groups
        ensures Satisfiable(g)
      {
        AcceptedNeeds(groups, ids, g);
      }
    }
    if forall g :: g in groups ==> Satisfiable(g) {
      var ids := Witness(groups);
      WitnessDistinct(groups);
      forall id | id in ids
        ensures OfferedAvailable(groups, id)
      {
        WitnessMembers(groups, id);
      }
      forall g | g in groups
        ensures WithinRule(g, |ChosenIn(g, ids)|)
      {
        WitnessCount(groups, g);
      }
      AcceptsExactlyValid(groups, ids);
    }
  }
}
