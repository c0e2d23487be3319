// What phase 2 writes into the tables, field by field, for every group that is
// neither failed nor finalized, and what it leaves alone.
module RenewalWritten {
  import opened Prelude
  import opened Licenses
  import ContactPoints
  import DealLinks
  import opened RenewalImport
  import opened RenewalPlan
  import opened RenewalEffects
  import opened RenewalPhase2
  import opened RenewalAssign

  // ----- one group -----

  // A new deal is opened where the request says; a known one stays in its
  // pipeline and stage. Everything else comes from the group.
  ghost predicate DealRow(req: Request, g: Group, company: Id, source: Id, d: Db, deal: Id, row: Deal) {
    && row.company == company && row.assignee == req.assignee && row.source == source
    && row.nextPurchaseAt == g.expiresAt && row.licenses == g.licenses && !row.deleted
    && match MappedDeal(d, GroupKey(g))
       case None => deal !in d.deals && row.pipeline == req.pipeline && row.stage == req.stage && row.version == 1
       case Some(known) =>
         && deal == known && row.version == d.deals[known].version + 1
         && row.pipeline == d.deals[known].pipeline && row.stage == d.deals[known].stage
  }

  // Links are only appended, one for each missing contact; the first one is
  // primary when there was none.
  ghost predicate LinksAppended(before: seq<DealLinks.Link>, after: seq<DealLinks.Link>, contacts: seq<Id>) {
    && before <= after
    && (forall c :: DealLinks.Linked(after, c) <==> DealLinks.Linked(before, c) || c in contacts)
    && (forall i :: |before| <= i < |after| ==> (after[i].primary <==> i == |before| && !DealLinks.HasPrimary(before)))
  }

  function LicenseKey(l: License): (EntityType, string) {
    (LicenseEntity, ExternalId(l.lid, l.expiresAt))
  }

  ghost predicate LicensesMapped(licenses: seq<License>, deal: Id, e: Db) {
    forall l :: l in licenses ==> LicenseKey(l) in e.mappings && e.mappings[LicenseKey(l)] == Mapping(deal, [l])
  }

  // The call of a group is made once.
  ghost predicate CallRow(req: Request, g: Group, company: Id, deal: Id, contacts: seq<Id>, d: Db, e: Db) {
    && MappedTask(e, GroupKey(g)).Some?
    && var task := MappedTask(e, GroupKey(g)).value;
       match MappedTask(d, GroupKey(g))
       case Some(known) => task == known && e.tasks[task] == d.tasks[known]
       case None =>
         && task !in d.tasks && e.tasks[task].dueAt == req.callDueAt && e.tasks[task].assignee == req.assignee
         && e.tasks[task].deal == deal && e.tasks[task].company == company
         && e.tasks[task].contact == if contacts == [] then None else Some(contacts[0])
  }

  ghost predicate GroupWritten(req: Request, g: Group, company: Id, source: Id, contacts: seq<Id>, d: Db, e: Db) {
    && MappedDeal(e, GroupKey(g)).Some?
    && var deal := MappedDeal(e, GroupKey(g)).value;
       && DealRow(req, g, company, source, d, deal, e.deals[deal])
       && LinksAppended(LinksOf(d, deal), LinksOf(e, deal), contacts)
       && LicensesMapped(g.licenses, deal, e) && e.mappings[(RenewalGroupEntity, GroupKey(g))] == Mapping(deal, g.licenses)
       && CallRow(req, g, company, deal, contacts, d, e)
  }

  // Whether a mapping is one of the group.
  predicate OfGroup(g: Group, k: (EntityType, string)) {
    || k == (RenewalGroupEntity, GroupKey(g)) || k == (RenewalCallEntity, GroupKey(g))
    || exists l :: l in g.licenses && k == LicenseKey(l)
  }

  // Only the deal, the call and the mappings of the group are written.
  ghost predicate OnlyGroup(g: Group, d: Db, e: Db) {
    && OnlyRows(g, d, e)
    && (forall k :: !OfGroup(g, k) ==> SameEntry(d, e, k))
    && (forall key :: key != GroupKey(g) ==> MappedDeal(e, key) == MappedDeal(d, key) && MappedTask(e, key) == MappedTask(d, key))
  }

  ghost predicate OnlyRows(g: Group, d: Db, e: Db) {
    && (forall x :: x in d.deals ==> x in e.deals)
    && (forall x :: x in e.deals && MappedDeal(e, GroupKey(g)) != Some(x) ==> x in d.deals && e.deals[x] == d.deals[x])
    && (forall x: Id :: MappedDeal(e, GroupKey(g)) != Some(x) ==> LinksOf(e, x) == LinksOf(d, x))
    && (forall x :: x in d.tasks ==> x in e.tasks && e.tasks[x] == d.tasks[x])
    && (forall x :: x in e.tasks && MappedTask(e, GroupKey(g)) != Some(x) ==> x in d.tasks)
  }

  lemma DealStoredAs(req: Request, g: Group, company: Id, source: Id, d: Db)
    requires IdsBelow(d)
    ensures var (e, deal) := StoreDeal(req, g, company, source, d);
      && deal in e.deals && e == d.(nextId := e.nextId, deals := d.deals[deal := e.deals[deal]])
      && DealRow(req, g, company, source, d, deal, e.deals[deal]) && deal <= d.nextId <= e.nextId
      && (deal !in d.deals ==> deal == d.nextId)
  {
    hide GroupKey;
    NewIds(d);
  }

  // The keys of the rows tell them apart.
  ghost predicate KeysName(licenses: seq<License>) {
    forall a, b :: a in licenses && b in licenses && LicenseKey(a) == LicenseKey(b) ==> a == b
  }

  lemma RowsNamed(licenses: seq<License>)
    requires OneRowPerKey(licenses)
    ensures KeysName(licenses)
  {
    hide ExternalId;
    forall a, b | a in licenses && b in licenses && LicenseKey(a) == LicenseKey(b) ensures a == b {
      ExternalIdInjective(a.lid, a.expiresAt, b.lid, b.expiresAt);
    }
  }

  lemma {:induction false} LicensesMappedTo(d: Db, licenses: seq<License>, deal: Id)
    requires KeysName(licenses)
    ensures var e := MapLicenses(d, licenses, deal);
      && e == d.(mappings := e.mappings) && LicensesMapped(licenses, deal, e)
      && forall k :: (forall l :: l in licenses ==> k != LicenseKey(l)) ==> SameEntry(d, e, k)
  {
    hide LicenseKey, LicensesMapped, MapLicenses;
    if licenses == [] {
      MapsNone(d, deal);
      OneMoreMapped(licenses, deal, d, d);
    } else {
      var front, last := licenses[..|licenses| - 1], licenses[|licenses| - 1];
      assert licenses == front + [last];
      LicensesMappedTo(d, front, deal);
      MapsLast(d, licenses, deal);
      OneMoreMapped(licenses, deal, MapLicenses(d, front, deal), MapLicenses(d, licenses, deal));
      forall k | forall l :: l in licenses ==> k != LicenseKey(l) ensures SameEntry(d, MapLicenses(d, licenses, deal), k) {
        assert SameEntry(d, MapLicenses(d, front, deal), k);
      }
    }
  }

  lemma OneMoreMapped(licenses: seq<License>, deal: Id, d: Db, e: Db)
    requires KeysName(licenses)
    requires licenses != [] ==>
      var last := licenses[|licenses| - 1];
      LicensesMapped(licenses[..|licenses| - 1], deal, d) && e.mappings == d.mappings[LicenseKey(last) := Mapping(deal, [last])]
    ensures LicensesMapped(licenses, deal, e)
  {
    hide LicenseKey;
    if licenses != [] {
      assert licenses == licenses[..|licenses| - 1] + [licenses[|licenses| - 1]];
    }
  }

  lemma MapsNone(d: Db, deal: Id)
    ensures MapLicenses(d, [], deal) == d
  {
  }

  lemma MapsLast(d: Db, licenses: seq<License>, deal: Id)
    requires licenses != []
    ensures var last := licenses[|licenses| - 1];
      var before := MapLicenses(d, licenses[..|licenses| - 1], deal);
      MapLicenses(d, licenses, deal) == before.(mappings := before.mappings[LicenseKey(last) := Mapping(deal, [last])])
  {
    hide ExternalId;
  }

  ghost predicate SameEntry(d: Db, e: Db, k: (EntityType, string)) {
    (k in e.mappings <==> k in d.mappings) && (k in d.mappings ==> e.mappings[k] == d.mappings[k])
  }

  // The rows before the call is made.
  ghost predicate DealDone(req: Request, g: Group, company: Id, source: Id, contacts: seq<Id>, d: Db, m: Db, deal: Id) {
    && deal in m.deals && m.deals == d.deals[deal := m.deals[deal]] && DealRow(req, g, company, source, d, deal, m.deals[deal])
    && m.tasks == d.tasks && d.nextId <= m.nextId && (deal !in d.deals ==> deal == d.nextId)
    && m.links == d.links[deal := LinksOf(m, deal)] && LinksAppended(LinksOf(d, deal), LinksOf(m, deal), contacts)
  }

  // The mappings before the call is made.
  ghost predicate DealMapped(g: Group, d: Db, m: Db, deal: Id) {
    && (RenewalGroupEntity, GroupKey(g)) in m.mappings && m.mappings[(RenewalGroupEntity, GroupKey(g))] == Mapping(deal, g.licenses)
    && LicensesMapped(g.licenses, deal, m)
    && forall k :: k != (RenewalGroupEntity, GroupKey(g)) && (forall l :: l in g.licenses ==> k != LicenseKey(l)) ==> SameEntry(d, m, k)
  }

  lemma WriteDealDone(req: Request, g: Group, company: Id, source: Id, contacts: seq<Id>, d: Db)
    requires IdsBelow(d) && LinksConsistent(d) && Distinct(contacts) && OneRowPerKey(g.licenses)
    ensures var (stored, deal) := StoreDeal(req, g, company, source, d);
      var linked := stored.(links := stored.links[deal := DealLinks.Added(LinksOf(stored, deal), contacts)]);
      var mapped := MapLicenses(Upserted(linked, RenewalGroupEntity, GroupKey(g), deal, g.licenses), g.licenses, deal);
      DealDone(req, g, company, source, contacts, d, mapped, deal) && DealMapped(g, d, mapped, deal)
  {
    hide StoreDeal, DealRow, GroupKey, IdsBelow, DealLinks.Added, MapLicenses, KeysName, SameEntry, DealLinks.Linked, DealLinks.HasPrimary, DealLinks.Consistent;
    hide DealDone, DealMapped, LicensesMapped, LicenseKey, OneRowPerKey, Distinct;
    var (stored, deal) := StoreDeal(req, g, company, source, d);
    DealStoredAs(req, g, company, source, d);
    RowsNamed(g.licenses);
    var linked := stored.(links := stored.links[deal := DealLinks.Added(LinksOf(stored, deal), contacts)]);
    var named := Upserted(linked, RenewalGroupEntity, GroupKey(g), deal, g.licenses);
    LicensesMappedTo(named, g.licenses, deal);
    DealLinked(req, g, company, source, contacts, d, stored, MapLicenses(named, g.licenses, deal), deal);
    GroupMapped(g, d, named, MapLicenses(named, g.licenses, deal), deal);
  }

  lemma DealLinked(req: Request, g: Group, company: Id, source: Id, contacts: seq<Id>, d: Db, stored: Db, m: Db, deal: Id)
    requires deal in stored.deals && stored == d.(nextId := stored.nextId, deals := d.deals[deal := stored.deals[deal]])
    requires DealRow(req, g, company, source, d, deal, stored.deals[deal]) && d.nextId <= stored.nextId && (deal !in d.deals ==> deal == d.nextId)
    requires m == stored.(links := stored.links[deal := DealLinks.Added(LinksOf(stored, deal), contacts)], mappings := m.mappings)
    requires LinksConsistent(d) && Distinct(contacts)
    ensures DealDone(req, g, company, source, contacts, d, m, deal)
  {
    hide DealRow, DealLinks.Added, DealLinks.Linked, DealLinks.HasPrimary, DealLinks.Consistent, Distinct;
    assert DealLinks.Consistent([]) by { NoLinks(); }
    DealLinks.AddedConsistent(LinksOf(d, deal), contacts);
  }

  lemma NoLinks()
    ensures DealLinks.Consistent([])
  {
  }

  lemma GroupMapped(g: Group, d: Db, named: Db, m: Db, deal: Id)
    requires named.mappings == d.mappings[(RenewalGroupEntity, GroupKey(g)) := Mapping(deal, g.licenses)]
    requires LicensesMapped(g.licenses, deal, m)
    requires forall k :: (forall l :: l in g.licenses ==> k != LicenseKey(l)) ==> SameEntry(named, m, k)
    ensures DealMapped(g, d, m, deal)
  {
    hide GroupKey, LicensesMapped, ExternalId;
    assert SameEntry(named, m, (RenewalGroupEntity, GroupKey(g)));
    forall k | k != (RenewalGroupEntity, GroupKey(g)) && (forall l :: l in g.licenses ==> k != LicenseKey(l)) ensures SameEntry(d, m, k) {
      assert SameEntry(named, m, k);
    }
  }

  lemma CallStoredAs(req: Request, g: Group, company: Id, deal: Id, contacts: seq<Id>, m: Db)
    ensures StoreTask(req, g, company, deal, contacts, m) ==
      if MappedTask(m, GroupKey(g)).Some? then m
      else m.(nextId := m.nextId + 1,
              tasks := m.tasks[m.nextId := Task(req.callDueAt, req.assignee, deal, if contacts == [] then None else Some(contacts[0]), company)],
              mappings := m.mappings[(RenewalCallEntity, GroupKey(g)) := Mapping(m.nextId, g.licenses)])
  {
    hide GroupKey, MappedTask;
  }

  lemma SameCall(g: Group, d: Db, m: Db, deal: Id)
    requires DealMapped(g, d, m, deal) && m.tasks == d.tasks
    ensures MappedTask(m, GroupKey(g)) == MappedTask(d, GroupKey(g))
  {
    hide GroupKey, LicensesMapped, ExternalId;
    assert SameEntry(d, m, (RenewalCallEntity, GroupKey(g)));
  }

  lemma WriteGroupWrites(req: Request, g: Group, company: Id, source: Id, contacts: seq<Id>, d: Db)
    requires IdsBelow(d) && LinksConsistent(d) && Distinct(contacts) && OneRowPerKey(g.licenses)
    ensures var e := WriteGroup(req, g, company, source, contacts, d);
      GroupWritten(req, g, company, source, contacts, d, e) && OnlyGroup(g, d, e)
  {
    hide DealDone, DealMapped, StoreDeal, StoreTask, MapLicenses, GroupWritten, OnlyGroup, IdsBelow;
    WriteDealDone(req, g, company, source, contacts, d);
    var (stored, deal) := StoreDeal(req, g, company, source, d);
    var linked := stored.(links := stored.links[deal := DealLinks.Added(LinksOf(stored, deal), contacts)]);
    var m := MapLicenses(Upserted(linked, RenewalGroupEntity, GroupKey(g), deal, g.licenses), g.licenses, deal);
    TaskWritten(req, g, company, source, deal, contacts, d, m);
    TaskOnly(req, g, company, source, deal, contacts, d, m);
  }

  lemma TaskWritten(req: Request, g: Group, company: Id, source: Id, deal: Id, contacts: seq<Id>, d: Db, m: Db)
    requires IdsBelow(d) && DealDone(req, g, company, source, contacts, d, m, deal) && DealMapped(g, d, m, deal)
    ensures GroupWritten(req, g, company, source, contacts, d, StoreTask(req, g, company, deal, contacts, m))
  {
    hide StoreTask, GroupKey, ExternalId, LinksAppended, LicensesMapped, IdsBelow;
    var e := StoreTask(req, g, company, deal, contacts, m);
    CallStoredAs(req, g, company, deal, contacts, m);
    SameCall(g, d, m, deal);
    TaskBelow(d);
    assert MappedDeal(e, GroupKey(g)) == Some(deal);
    StillMapped(g, deal, m, e);
  }

  lemma TaskBelow(d: Db)
    requires IdsBelow(d)
    ensures forall id :: id in d.tasks ==> id < d.nextId
    ensures forall k :: k in d.mappings ==> d.mappings[k].internal < d.nextId
  {
  }

  lemma StillMapped(g: Group, deal: Id, m: Db, e: Db)
    requires LicensesMapped(g.licenses, deal, m)
    requires forall k :: k != (RenewalCallEntity, GroupKey(g)) ==> SameEntry(m, e, k)
    ensures LicensesMapped(g.licenses, deal, e)
  {
    hide GroupKey, ExternalId;
    forall l | l in g.licenses ensures LicenseKey(l) in e.mappings && e.mappings[LicenseKey(l)] == Mapping(deal, [l]) {
      assert SameEntry(m, e, LicenseKey(l));
    }
  }

  lemma TaskOnly(req: Request, g: Group, company: Id, source: Id, deal: Id, contacts: seq<Id>, d: Db, m: Db)
    requires IdsBelow(d) && DealDone(req, g, company, source, contacts, d, m, deal) && DealMapped(g, d, m, deal)
    ensures OnlyGroup(g, d, StoreTask(req, g, company, deal, contacts, m))
  {
    hide StoreTask, GroupKey, DealDone, DealMapped, IdsBelow, OfGroup, SameEntry, MappedDeal, MappedTask, OnlyRows;
    var e := StoreTask(req, g, company, deal, contacts, m);
    TaskRowsOnly(req, g, company, source, deal, contacts, d, m);
    forall k | !OfGroup(g, k) ensures SameEntry(d, e, k) {
      EntriesStay(req, g, company, deal, contacts, d, m, k);
    }
    forall key | key != GroupKey(g) ensures MappedDeal(e, key) == MappedDeal(d, key) && MappedTask(e, key) == MappedTask(d, key) {
      NotOfGroup(g, key);
      LookupsStay(req, g, company, source, contacts, d, m, deal, key);
    }
  }

  lemma NotOfGroup(g: Group, key: string)
    requires key != GroupKey(g)
    ensures !OfGroup(g, (RenewalGroupEntity, key)) && !OfGroup(g, (RenewalCallEntity, key))
  {
    hide GroupKey, ExternalId;
  }

  lemma RowIsLive(req: Request, g: Group, company: Id, source: Id, d: Db, deal: Id, row: Deal)
    requires DealRow(req, g, company, source, d, deal, row)
    ensures !row.deleted
  {
    hide GroupKey, MappedDeal;
  }

  lemma TaskRowsOnly(req: Request, g: Group, company: Id, source: Id, deal: Id, contacts: seq<Id>, d: Db, m: Db)
    requires IdsBelow(d) && DealDone(req, g, company, source, contacts, d, m, deal) && DealMapped(g, d, m, deal)
    ensures OnlyRows(g, d, StoreTask(req, g, company, deal, contacts, m))
  {
    hide StoreTask, GroupKey, ExternalId, LinksAppended, LicensesMapped, IdsBelow, SameEntry, DealRow;
    var e := StoreTask(req, g, company, deal, contacts, m);
    CallStoredAs(req, g, company, deal, contacts, m);
    TaskBelow(d);
    RowIsLive(req, g, company, source, d, deal, m.deals[deal]);
    assert MappedDeal(e, GroupKey(g)) == Some(deal);
  }

  lemma EntriesStay(req: Request, g: Group, company: Id, deal: Id, contacts: seq<Id>, d: Db, m: Db, k: (EntityType, string))
    requires DealMapped(g, d, m, deal) && !OfGroup(g, k)
    ensures SameEntry(d, StoreTask(req, g, company, deal, contacts, m), k)
  {
    hide GroupKey, ExternalId, LicensesMapped, StoreTask, MappedTask;
    CallStoredAs(req, g, company, deal, contacts, m);
    assert SameEntry(d, m, k);
  }

  lemma LookupsStay(req: Request, g: Group, company: Id, source: Id, contacts: seq<Id>, d: Db, m: Db, deal: Id, key: string)
    requires IdsBelow(d) && DealDone(req, g, company, source, contacts, d, m, deal)
    requires var e := StoreTask(req, g, company, deal, contacts, m);
      SameEntry(d, e, (RenewalGroupEntity, key)) && SameEntry(d, e, (RenewalCallEntity, key))
    ensures var e := StoreTask(req, g, company, deal, contacts, m);
      MappedDeal(e, key) == MappedDeal(d, key) && MappedTask(e, key) == MappedTask(d, key)
  {
    hide GroupKey, ExternalId, LinksAppended, IdsBelow, StoreTask;
    CallStoredAs(req, g, company, deal, contacts, m);
    TaskBelow(d);
  }

  // ----- all groups -----

  // A live deal belongs to at most one group.
  ghost predicate DealsApart(d: Db) {
    forall p, q :: MappedDeal(d, p).Some? && MappedDeal(d, p) == MappedDeal(d, q) ==> p == q
  }

  // The rows of the groups have different keys.
  ghost predicate RowsApart(groups: seq<Group>) {
    forall g, h, a, b :: g in groups && h in groups && a in g.licenses && b in h.licenses && a.lid == b.lid && a.expiresAt == b.expiresAt ==>
      GroupKey(g) == GroupKey(h) && a == b
  }

  // A group that is neither failed nor finalized.
  predicate Writes(errors: map<string, ImportError>, d: Db, g: Group) {
    g.inn !in errors && DealAction(d, GroupKey(g)) != Skip
  }

  ghost predicate OwnsDeal(groups: seq<Group>, j: nat, errors: map<string, ImportError>, d: Db, e: Db, x: Id)
    requires j <= |groups|
  {
    exists i :: 0 <= i < j && Writes(errors, d, groups[i]) && MappedDeal(e, GroupKey(groups[i])) == Some(x)
  }

  ghost predicate OwnsCall(groups: seq<Group>, j: nat, errors: map<string, ImportError>, d: Db, e: Db, x: Id)
    requires j <= |groups|
  {
    exists i :: 0 <= i < j && Writes(errors, d, groups[i]) && MappedTask(e, GroupKey(groups[i])) == Some(x)
  }

  ghost predicate OwnsEntry(groups: seq<Group>, j: nat, errors: map<string, ImportError>, d: Db, k: (EntityType, string))
    requires j <= |groups|
  {
    exists i :: 0 <= i < j && Writes(errors, d, groups[i]) && OfGroup(groups[i], k)
  }

  // Whatever belongs to none of the written groups is as it was.
  ghost predicate RestStays(groups: seq<Group>, j: nat, errors: map<string, ImportError>, d: Db, e: Db)
    requires j <= |groups|
  {
    && (forall x :: x in d.deals ==> x in e.deals)
    && (forall x :: x in e.deals && !OwnsDeal(groups, j, errors, d, e, x) ==> x in d.deals && e.deals[x] == d.deals[x])
    && (forall x: Id :: !OwnsDeal(groups, j, errors, d, e, x) ==> LinksOf(e, x) == LinksOf(d, x))
    && (forall x :: x in d.tasks ==> x in e.tasks && e.tasks[x] == d.tasks[x])
    && (forall x :: x in e.tasks && !OwnsCall(groups, j, errors, d, e, x) ==> x in d.tasks)
    && (forall k :: !OwnsEntry(groups, j, errors, d, k) ==> SameEntry(d, e, k))
  }

  // Groups that still have their turn find what they would have found.
  ghost predicate LookupsWait(groups: seq<Group>, j: nat, d: Db, e: Db)
    requires j <= |groups|
  {
    forall i :: j <= i < |groups| ==>
      MappedDeal(e, GroupKey(groups[i])) == MappedDeal(d, GroupKey(groups[i])) && MappedTask(e, GroupKey(groups[i])) == MappedTask(d, GroupKey(groups[i]))
  }

  ghost predicate AllWritten(req: Request, groups: seq<Group>, j: nat, l: Ledger, e: Db)
    requires j <= |groups|
  {
    forall i :: 0 <= i < j && Writes(l.companyErrors, l.db, groups[i]) ==>
      var g := groups[i];
      && g.inn in l.companyByInn && l.companyByInn[g.inn].Some? && l.db.source.Some?
      && GroupWritten(req, g, l.companyByInn[g.inn].value, l.db.source.value, GroupContacts(l.contactsByLicense, g.inn, g.licenses), l.db, e)
  }

  ghost predicate GroupsDone(req: Request, groups: seq<Group>, j: nat, l: Ledger, m: Ledger)
    requires j <= |groups|
  {
    && m.companyErrors == l.companyErrors && m.companyByInn == l.companyByInn && m.contactsByLicense == l.contactsByLicense
    && m.db.source == l.db.source
    && AllWritten(req, groups, j, l, m.db) && RestStays(groups, j, l.companyErrors, l.db, m.db)
    && DealsApart(m.db) && LookupsWait(groups, j, l.db, m.db)
  }

  lemma {:induction false} GroupsWrite(req: Request, groups: seq<Group>, j: nat, l: Ledger)
    requires !req.dryRun && WellFormed(req.text, l.db) && KeysDiffer(groups) && j <= |groups|
    requires forall g :: g in groups ==> Resolved(l, g)
    requires DealsApart(l.db) && RowsApart(groups)
    requires GroupSteps(req, groups, j, l).Some?
    ensures GroupsDone(req, groups, j, l, GroupSteps(req, groups, j, l).value)
  {
    hide WellFormed, GroupStep, GroupsDone, GroupsDbEffect, GroupsLedgerEffect, RefusedGroups, Resolved, DealsApart, RowsApart, KeysDiffer;
    if j == 0 {
      NoneWritten(req, groups, l);
    } else {
      GroupsWrite(req, groups, j - 1, l);
      RealGroups(req, groups, j - 1, l);
      var m := GroupSteps(req, groups, j - 1, l).value;
      StillResolved(req, groups, j - 1, l, m, groups[j - 1]);
      ViewGroupFields(l.db, groups[j - 1]);
      ViewGroupFields(m.db, groups[j - 1]);
      NextWritten(req, groups, j, l, m);
    }
  }

  lemma NoneWritten(req: Request, groups: seq<Group>, l: Ledger)
    requires DealsApart(l.db)
    ensures GroupsDone(req, groups, 0, l, l)
  {
    hide GroupKey, MappedDeal, MappedTask, GroupWritten, DealsApart;
  }

  lemma NextWritten(req: Request, groups: seq<Group>, j: nat, l: Ledger, m: Ledger)
    requires !req.dryRun && WellFormed(req.text, m.db) && KeysDiffer(groups) && 0 < j <= |groups|
    requires Resolved(m, groups[j - 1]) && RowsApart(groups)
    requires DealAction(m.db, GroupKey(groups[j - 1])) == DealAction(l.db, GroupKey(groups[j - 1]))
    requires GroupsDone(req, groups, j - 1, l, m) && GroupStep(req, groups[j - 1], m).Some?
    ensures GroupsDone(req, groups, j, l, GroupStep(req, groups[j - 1], m).value)
  {
    hide WellFormed, GroupWritten, DealsApart, RestStays, LookupsWait, AllWritten, WriteGroup, DealAction, KeysDiffer, RowsApart, GroupContacts;
    var g := groups[j - 1];
    var n := GroupStep(req, g, m).value;
    StepLedger(req, g, m);
    Sound(req.text, m.db);
    if Writes(l.companyErrors, l.db, g) {
      GroupContactsDistinct(m.contactsByLicense, g.inn, g.licenses);
      GroupRows(groups, g);
      var company, contacts := m.companyByInn[g.inn].value, GroupContacts(m.contactsByLicense, g.inn, g.licenses);
      SourceStays(req, g, company, m.db.source.value, contacts, m);
      WriteGroupWrites(req, g, company, m.db.source.value, contacts, m.db);
      ApartStill(req, g, company, m.db.source.value, contacts, m.db, n.db);
      OwnWritten(req, groups, j, l, m, n, company, contacts);
      OthersWritten(req, groups, j, l, m, n);
      LookupsSame(groups, j, m.db, n.db);
      RestStill(groups, j, l, m.db, n.db);
      WaitStill(groups, j, l, m.db, n.db);
      AllWrittenNext(req, groups, j, l, n.db);
    } else {
      NotWritten(req, groups, j, l, m, n);
    }
  }

  lemma Sound(t: ContactPoints.Text, d: Db)
    requires WellFormed(t, d)
    ensures IdsBelow(d) && LinksConsistent(d)
  {
  }

  lemma SourceStays(req: Request, g: Group, company: Id, source: Id, contacts: seq<Id>, m: Ledger)
    requires WellFormed(req.text, m.db) && Writes(m.companyErrors, m.db, g) && Distinct(contacts)
    ensures WriteGroup(req, g, company, source, contacts, m.db).source == m.db.source
  {
    hide WellFormed, WriteGroup, Distinct, ViewGroup, GroupKey, OtherGroupsSame;
    WriteGroupEffect(req.text, req, g, company, source, contacts, m.db);
  }

  lemma StepLedger(req: Request, g: Group, m: Ledger)
    requires !req.dryRun && GroupStep(req, g, m).Some?
    ensures var n := GroupStep(req, g, m).value;
      && n.companyErrors == m.companyErrors && n.companyByInn == m.companyByInn && n.contactsByLicense == m.contactsByLicense
      && (!Writes(m.companyErrors, m.db, g) ==> n.db == m.db)
      && (Writes(m.companyErrors, m.db, g) ==>
            && g.inn in m.companyByInn && m.companyByInn[g.inn].Some? && m.db.source.Some?
            && n.db == WriteGroup(req, g, m.companyByInn[g.inn].value, m.db.source.value,
                                  GroupContacts(m.contactsByLicense, g.inn, g.licenses), m.db))
  {
    hide WriteGroup, DealAction, MappedTask, GroupContacts, CountDeal, CountTask, GroupKey;
  }

  lemma NotWritten(req: Request, groups: seq<Group>, j: nat, l: Ledger, m: Ledger, n: Ledger)
    requires 0 < j <= |groups| && GroupsDone(req, groups, j - 1, l, m) && !Writes(l.companyErrors, l.db, groups[j - 1])
    requires n.companyErrors == m.companyErrors && n.companyByInn == m.companyByInn && n.contactsByLicense == m.contactsByLicense && n.db == m.db
    ensures GroupsDone(req, groups, j, l, n)
  {
    hide GroupWritten, DealsApart, Writes, GroupKey, MappedDeal, MappedTask, OfGroup, SameEntry, GroupContacts, LinksOf, OwnsDeal, OwnsCall, OwnsEntry;
    forall x: Id { DealOwners(groups, j, l, m.db, m.db, x); }
    forall x: Id { CallOwners(groups, j, l, m.db, m.db, x); }
    forall k { EntryOwners(groups, j, l, k); }
  }

  ghost predicate SameLookups(groups: seq<Group>, j: nat, d: Db, e: Db)
    requires j <= |groups|
  {
    forall i :: 0 <= i < j ==>
      MappedDeal(e, GroupKey(groups[i])) == MappedDeal(d, GroupKey(groups[i])) && MappedTask(e, GroupKey(groups[i])) == MappedTask(d, GroupKey(groups[i]))
  }

  // Writing one group adds only its own rows to those that belong to a group.
  lemma DealOwners(groups: seq<Group>, j: nat, l: Ledger, d: Db, e: Db, x: Id)
    requires 0 < j <= |groups| && SameLookups(groups, j - 1, d, e)
    ensures OwnsDeal(groups, j, l.companyErrors, l.db, e, x)
       <==> OwnsDeal(groups, j - 1, l.companyErrors, l.db, d, x)
            || (Writes(l.companyErrors, l.db, groups[j - 1]) && MappedDeal(e, GroupKey(groups[j - 1])) == Some(x))
  {
    hide Writes, GroupKey, MappedDeal, MappedTask;
  }

  lemma CallOwners(groups: seq<Group>, j: nat, l: Ledger, d: Db, e: Db, x: Id)
    requires 0 < j <= |groups| && SameLookups(groups, j - 1, d, e)
    ensures OwnsCall(groups, j, l.companyErrors, l.db, e, x)
       <==> OwnsCall(groups, j - 1, l.companyErrors, l.db, d, x)
            || (Writes(l.companyErrors, l.db, groups[j - 1]) && MappedTask(e, GroupKey(groups[j - 1])) == Some(x))
  {
    hide Writes, GroupKey, MappedDeal, MappedTask;
  }

  lemma EntryOwners(groups: seq<Group>, j: nat, l: Ledger, k: (EntityType, string))
    requires 0 < j <= |groups|
    ensures OwnsEntry(groups, j, l.companyErrors, l.db, k)
       <==> OwnsEntry(groups, j - 1, l.companyErrors, l.db, k)
            || (Writes(l.companyErrors, l.db, groups[j - 1]) && OfGroup(groups[j - 1], k))
  {
    hide Writes, GroupKey, OfGroup;
  }

  lemma GroupRows(groups: seq<Group>, g: Group)
    requires RowsApart(groups) && g in groups
    ensures OneRowPerKey(g.licenses)
  {
    hide GroupKey;
  }

  lemma ApartStill(req: Request, g: Group, company: Id, source: Id, contacts: seq<Id>, d: Db, e: Db)
    requires DealsApart(d) && GroupWritten(req, g, company, source, contacts, d, e) && OnlyGroup(g, d, e)
    ensures DealsApart(e)
  {
    hide GroupKey, OnlyRows, OfGroup, SameEntry, LinksAppended, LicensesMapped, CallRow, LinksOf;
    forall p, q | MappedDeal(e, p).Some? && MappedDeal(e, p) == MappedDeal(e, q) ensures p == q {
      if p != GroupKey(g) && q != GroupKey(g) {
        assert MappedDeal(d, p) == MappedDeal(d, q);
      }
    }
  }

  // The group that was just written, told from the start.
  lemma OwnWritten(req: Request, groups: seq<Group>, j: nat, l: Ledger, m: Ledger, n: Ledger, company: Id, contacts: seq<Id>)
    requires 0 < j <= |groups| && KeysDiffer(groups) && GroupsDone(req, groups, j - 1, l, m) && m.db.source.Some?
    requires GroupWritten(req, groups[j - 1], company, m.db.source.value, contacts, m.db, n.db)
    ensures GroupWritten(req, groups[j - 1], company, m.db.source.value, contacts, l.db, n.db)
  {
    hide GroupKey, LinksAppended, LicensesMapped, LinksOf, Writes, SameEntry, GroupsDone;
    Waited(req, groups, j, l, m);
  }

  // What the group finds is as it was at the start.
  lemma Waited(req: Request, groups: seq<Group>, j: nat, l: Ledger, m: Ledger)
    requires 0 < j <= |groups| && KeysDiffer(groups) && GroupsDone(req, groups, j - 1, l, m)
    ensures var key := GroupKey(groups[j - 1]);
      && MappedDeal(m.db, key) == MappedDeal(l.db, key) && MappedTask(m.db, key) == MappedTask(l.db, key)
      && (forall x: Id :: MappedDeal(m.db, key) == Some(x) || x !in m.db.deals ==> LinksOf(m.db, x) == LinksOf(l.db, x))
      && (MappedDeal(m.db, key).Some? ==>
            var x := MappedDeal(m.db, key).value; x in m.db.deals && x in l.db.deals && m.db.deals[x] == l.db.deals[x])
      && (forall x :: x in l.db.deals ==> x in m.db.deals) && (forall x :: x in l.db.tasks ==> x in m.db.tasks && m.db.tasks[x] == l.db.tasks[x])
  {
    hide GroupKey, LinksOf, AllWritten, Writes, SameEntry, MappedTask;
    var key := GroupKey(groups[j - 1]);
    forall x: Id | MappedDeal(m.db, key) == Some(x) || x !in m.db.deals ensures !OwnsDeal(groups, j - 1, l.companyErrors, l.db, m.db, x) {
    }
  }

  // The groups written before it.
  lemma OthersWritten(req: Request, groups: seq<Group>, j: nat, l: Ledger, m: Ledger, n: Ledger)
    requires 0 < j <= |groups| && KeysDiffer(groups) && RowsApart(groups) && GroupsDone(req, groups, j - 1, l, m)
    requires OnlyGroup(groups[j - 1], m.db, n.db) && DealsApart(n.db)
    ensures AllWritten(req, groups, j - 1, l, n.db)
  {
    hide GroupWritten, Writes, GroupKey, GroupContacts, OnlyGroup, DealsApart, RestStays, LookupsWait, RowsApart;
    forall i | 0 <= i < j - 1 && Writes(l.companyErrors, l.db, groups[i])
      ensures var g := groups[i];
        && g.inn in l.companyByInn && l.companyByInn[g.inn].Some? && l.db.source.Some?
        && GroupWritten(req, g, l.companyByInn[g.inn].value, l.db.source.value, GroupContacts(l.contactsByLicense, g.inn, g.licenses), l.db, n.db)
    {
      var g := groups[i];
      OtherWritten(req, groups, g, groups[j - 1], l.companyByInn[g.inn].value, l.db.source.value,
        GroupContacts(l.contactsByLicense, g.inn, g.licenses), l.db, m.db, n.db);
    }
  }

  lemma OtherWritten(req: Request, groups: seq<Group>, h: Group, g: Group, company: Id, source: Id, contacts: seq<Id>, d: Db, m: Db, n: Db)
    requires GroupWritten(req, h, company, source, contacts, d, m) && OnlyGroup(g, m, n) && DealsApart(n)
    requires h in groups && g in groups && GroupKey(h) != GroupKey(g) && RowsApart(groups)
    ensures GroupWritten(req, h, company, source, contacts, d, n)
  {
    hide GroupKey, LinksAppended, LinksOf, DealRow, RowsApart, OfGroup, DealsApart, LicensesMapped;
    NotOfGroup(g, GroupKey(h));
    assert SameEntry(m, n, (RenewalGroupEntity, GroupKey(h)));
    OtherLicenses(groups, h, g, MappedDeal(m, GroupKey(h)).value, m, n);
    OtherDeal(h, g, n);
  }

  lemma OtherDeal(h: Group, g: Group, n: Db)
    requires DealsApart(n) && GroupKey(h) != GroupKey(g) && MappedDeal(n, GroupKey(h)).Some?
    ensures MappedDeal(n, GroupKey(g)) != MappedDeal(n, GroupKey(h))
  {
    hide GroupKey, MappedDeal;
  }

  lemma OtherLicenses(groups: seq<Group>, h: Group, g: Group, deal: Id, m: Db, n: Db)
    requires LicensesMapped(h.licenses, deal, m) && OnlyGroup(g, m, n)
    requires h in groups && g in groups && GroupKey(h) != GroupKey(g) && RowsApart(groups)
    ensures LicensesMapped(h.licenses, deal, n)
  {
    hide GroupKey, OnlyRows, MappedDeal, MappedTask, ExternalId;
    forall a | a in h.licenses ensures SameEntry(m, n, LicenseKey(a)) {
      forall b | b in g.licenses ensures LicenseKey(a) != LicenseKey(b) {
        if LicenseKey(a) == LicenseKey(b) {
          ExternalIdInjective(a.lid, a.expiresAt, b.lid, b.expiresAt);
        }
      }
      assert !OfGroup(g, LicenseKey(a));
    }
  }

  lemma LookupsSame(groups: seq<Group>, j: nat, d: Db, e: Db)
    requires 0 < j <= |groups| && KeysDiffer(groups) && OnlyGroup(groups[j - 1], d, e)
    ensures SameLookups(groups, j - 1, d, e)
  {
    hide GroupKey, OnlyRows, MappedDeal, MappedTask, OfGroup;
  }

  lemma WaitStill(groups: seq<Group>, j: nat, l: Ledger, d: Db, e: Db)
    requires 0 < j <= |groups| && KeysDiffer(groups) && OnlyGroup(groups[j - 1], d, e) && LookupsWait(groups, j - 1, l.db, d)
    ensures LookupsWait(groups, j, l.db, e)
  {
    hide GroupKey, OnlyRows, MappedDeal, MappedTask, OfGroup;
  }

  lemma AllWrittenNext(req: Request, groups: seq<Group>, j: nat, l: Ledger, e: Db)
    requires 0 < j <= |groups| && AllWritten(req, groups, j - 1, l, e)
    requires var g := groups[j - 1];
      && g.inn in l.companyByInn && l.companyByInn[g.inn].Some? && l.db.source.Some?
      && GroupWritten(req, g, l.companyByInn[g.inn].value, l.db.source.value, GroupContacts(l.contactsByLicense, g.inn, g.licenses), l.db, e)
    ensures AllWritten(req, groups, j, l, e)
  {
    hide GroupWritten, Writes, GroupContacts;
  }

  lemma RestStill(groups: seq<Group>, j: nat, l: Ledger, d: Db, e: Db)
    requires 0 < j <= |groups| && RestStays(groups, j - 1, l.companyErrors, l.db, d)
    requires OnlyGroup(groups[j - 1], d, e) && Writes(l.companyErrors, l.db, groups[j - 1]) && SameLookups(groups, j - 1, d, e)
    ensures RestStays(groups, j, l.companyErrors, l.db, e)
  {
    hide Writes, GroupKey, MappedDeal, MappedTask, OfGroup, LinksOf, OwnsDeal, OwnsCall, OwnsEntry, SameLookups;
    forall x: Id { DealOwners(groups, j, l, d, e, x); }
    forall x: Id { CallOwners(groups, j, l, d, e, x); }
    forall k ensures !OwnsEntry(groups, j, l.companyErrors, l.db, k) ==> SameEntry(l.db, e, k) {
      EntryOwners(groups, j, l, k);
      if !OwnsEntry(groups, j, l.companyErrors, l.db, k) {
        assert SameEntry(l.db, d, k) && SameEntry(d, e, k);
      }
    }
  }
}
