// Phase 2 of a real run: one deal, one task and their mappings per group, and
// no influence on what another group reads.
module RenewalPhase2 {
  import opened Prelude
  import opened Licenses
  import ContactPoints
  import DealLinks
  import opened RenewalImport
  import opened RenewalPlan
  import opened RenewalEffects

  // The view of a group after its deal and task were written.
  function AfterGroup(view: GroupView, targetFinal: bool): GroupView {
    match view.action
    case Create => GroupView(if targetFinal then Skip else Update, true)
    case Update => GroupView(Update, true)
    case _ => view
  }

  // Nothing that phase 1 reads is written in phase 2.
  ghost predicate Phase2Frame(d: Db, e: Db) {
    && e.companies == d.companies && e.contacts == d.contacts && e.points == d.points
    && e.openStages == d.openStages && e.source == d.source && d.nextId <= e.nextId
  }

  ghost predicate OtherGroupsSame(d: Db, e: Db, key: string) {
    forall h :: GroupKey(h) != key ==> ViewGroup(e, h) == ViewGroup(d, h)
  }

  lemma {:induction false} GroupContactsDistinct(m: map<(string, string, Date), Option<Id>>, inn: string, licenses: seq<License>)
    ensures Distinct(GroupContacts(m, inn, licenses))
  {
    if licenses != [] {
      GroupContactsDistinct(m, inn, licenses[..|licenses| - 1]);
    }
  }

  // ----- the writes of one group, in order -----

  ghost predicate SameMapping(d: Db, e: Db, entity: EntityType, key: string) {
    && ((entity, key) in e.mappings <==> (entity, key) in d.mappings)
    && ((entity, key) in d.mappings ==> e.mappings[(entity, key)] == d.mappings[(entity, key)])
  }

  ghost predicate LinksConsistent(d: Db) {
    forall k :: k in d.links ==> DealLinks.Consistent(d.links[k])
  }

  // Deals and tasks stay, with their stage and deletion mark; new ones have new ids.
  ghost predicate KeepsRows(d: Db, e: Db) {
    && e.openStages == d.openStages
    && (forall x :: x in d.deals ==> x in e.deals && e.deals[x].deleted == d.deals[x].deleted && e.deals[x].stage == d.deals[x].stage)
    && (forall x :: x in e.deals && x !in d.deals ==> d.nextId <= x)
    && (forall x :: x in d.tasks ==> x in e.tasks)
    && (forall x :: x in e.tasks && x !in d.tasks ==> d.nextId <= x)
  }

  // Apart from licences, only mappings under one key change.
  ghost predicate MapsOnly(d: Db, e: Db, key: string) {
    forall entity, other :: entity != LicenseEntity && other != key ==> SameMapping(d, e, entity, other)
  }

  // The deal part of the view after the deal was stored.
  ghost predicate DealStored(req: Request, key: string, d: Db, e: Db, deal: Id) {
    && deal in e.deals && !e.deals[deal].deleted && deal < e.nextId
    && match MappedDeal(d, key)
       case None => e.deals[deal].stage == req.stage && |e.deals| == |d.deals| + 1
       case Some(known) => deal == known && |e.deals| == |d.deals|
  }

  lemma StoreDealEffect(req: Request, g: Group, company: Id, source: Id, d: Db)
    requires IdsBelow(d)
    ensures var (e, deal) := StoreDeal(req, g, company, source, d);
      && Phase2Frame(d, e) && IdsBelow(e) && KeepsRows(d, e)
      && e == d.(nextId := e.nextId, deals := e.deals)
      && DealStored(req, GroupKey(g), d, e, deal)
  {
    hide GroupKey, IdsBelow, KeepsRows, Phase2Frame, StoreDeal, MappedDeal;
    StoredRow(req, g, company, source, d);
    var (e, deal) := StoreDeal(req, g, company, source, d);
    OneDealWritten(d, e, deal, e.deals[deal]);
  }

  lemma StoredRow(req: Request, g: Group, company: Id, source: Id, d: Db)
    requires IdsBelow(d)
    ensures var (e, deal) := StoreDeal(req, g, company, source, d);
      && deal in e.deals && !e.deals[deal].deleted && e == d.(nextId := e.nextId, deals := d.deals[deal := e.deals[deal]])
      && d.nextId <= e.nextId && deal < e.nextId
      && match MappedDeal(d, GroupKey(g))
         case None => deal == d.nextId && deal !in d.deals && e.deals[deal].stage == req.stage
         case Some(known) => deal == known && deal in d.deals && !d.deals[deal].deleted && e.deals[deal].stage == d.deals[deal].stage
  {
    hide GroupKey, IdsBelow;
    NewIds(d);
  }

  lemma NewIds(d: Db)
    requires IdsBelow(d)
    ensures d.nextId !in d.deals && forall k :: k in d.deals ==> k < d.nextId
  {
  }

  lemma OneDealWritten(d: Db, e: Db, deal: Id, row: Deal)
    requires IdsBelow(d) && e == d.(nextId := e.nextId, deals := d.deals[deal := row])
    requires d.nextId <= e.nextId && deal < e.nextId
    requires if deal in d.deals then row.stage == d.deals[deal].stage && row.deleted == d.deals[deal].deleted else d.nextId <= deal
    ensures Phase2Frame(d, e) && IdsBelow(e) && KeepsRows(d, e)
    ensures |e.deals| == |d.deals| + if deal in d.deals then 0 else 1
  {
  }

  lemma {:induction false} MapLicensesEffect(d: Db, licenses: seq<License>, deal: Id)
    requires IdsBelow(d) && deal < d.nextId
    ensures var e := MapLicenses(d, licenses, deal);
      && e == d.(mappings := e.mappings) && IdsBelow(e)
      && forall entity, key :: entity != LicenseEntity ==> SameMapping(d, e, entity, key)
  {
    if licenses != [] {
      MapLicensesEffect(d, licenses[..|licenses| - 1], deal);
      var before := MapLicenses(d, licenses[..|licenses| - 1], deal);
      var e := MapLicenses(d, licenses, deal);
      forall entity, key | entity != LicenseEntity ensures SameMapping(d, e, entity, key) {
        assert SameMapping(d, before, entity, key);
      }
    }
  }

  // What other groups look up is as it was.
  lemma LookupSame(d: Db, e: Db, key: string)
    requires IdsBelow(d) && KeepsRows(d, e) && MapsOnly(d, e, key)
    ensures OtherGroupsSame(d, e, key)
  {
    forall h | GroupKey(h) != key ensures ViewGroup(e, h) == ViewGroup(d, h) {
      DealLookup(d, e, GroupKey(h));
      TaskLookup(d, e, GroupKey(h));
    }
  }

  lemma DealLookup(d: Db, e: Db, key: string)
    requires IdsBelow(d) && KeepsRows(d, e) && SameMapping(d, e, RenewalGroupEntity, key)
    ensures DealAction(e, key) == DealAction(d, key) && MappedDeal(e, key) == MappedDeal(d, key)
  {
  }

  lemma TaskLookup(d: Db, e: Db, key: string)
    requires IdsBelow(d) && KeepsRows(d, e) && SameMapping(d, e, RenewalCallEntity, key)
    ensures MappedTask(e, key) == MappedTask(d, key)
  {
  }

  ghost predicate WriteEffect(t: ContactPoints.Text, g: Group, targetFinal: bool, d: Db, e: Db) {
    && WellFormed(t, e) && Phase2Frame(d, e)
    && ViewGroup(e, g) == AfterGroup(ViewGroup(d, g), targetFinal)
    && OtherGroupsSame(d, e, GroupKey(g))
    && |e.deals| == |d.deals| + (if ViewGroup(d, g).action == Create then 1 else 0)
    && |e.tasks| == |d.tasks| + (if ViewGroup(d, g).known then 0 else 1)
  }

  // The database once the deal, its links and the deal and licence mappings are written.
  ghost predicate DealWritten(req: Request, key: string, d: Db, m: Db, deal: Id) {
    && Phase2Frame(d, m) && IdsBelow(m) && LinksConsistent(m) && KeepsRows(d, m)
    && DealStored(req, key, d, m, deal) && m.tasks == d.tasks
    && MapsOnly(d, m, key) && SameMapping(d, m, RenewalCallEntity, key)
    && (RenewalGroupEntity, key) in m.mappings && m.mappings[(RenewalGroupEntity, key)].internal == deal
  }

  lemma WriteGroupEffect(t: ContactPoints.Text, req: Request, g: Group, company: Id, source: Id, contacts: seq<Id>, d: Db)
    requires WellFormed(t, d) && Distinct(contacts) && DealAction(d, GroupKey(g)) != Skip
    ensures WriteEffect(t, g, FinalStage(d, req.stage), d, WriteGroup(req, g, company, source, contacts, d))
  {
    hide StoreDeal, StoreTask, DealStored, KeepsRows, WriteEffect, DealWritten, MapLicenses;
    var (stored, deal) := StoreDeal(req, g, company, source, d);
    StoreDealEffect(req, g, company, source, d);
    var linked := stored.(links := stored.links[deal := DealLinks.Added(LinksOf(stored, deal), contacts)]);
    DealLinks.AddedConsistent(LinksOf(stored, deal), contacts);
    assert LinksConsistent(linked);
    var m := MapLicenses(Upserted(linked, RenewalGroupEntity, GroupKey(g), deal, g.licenses), g.licenses, deal);
    MappingsWritten(req, g, d, stored, linked, deal);
    TaskEffect(t, req, g, company, deal, contacts, d, m);
  }

  lemma MappingsWritten(req: Request, g: Group, d: Db, stored: Db, linked: Db, deal: Id)
    requires Phase2Frame(d, stored) && IdsBelow(stored) && KeepsRows(d, stored)
    requires stored == d.(nextId := stored.nextId, deals := stored.deals)
    requires DealStored(req, GroupKey(g), d, stored, deal)
    requires linked == stored.(links := linked.links) && LinksConsistent(linked)
    ensures DealWritten(req, GroupKey(g), d,
      MapLicenses(Upserted(linked, RenewalGroupEntity, GroupKey(g), deal, g.licenses), g.licenses, deal), deal)
  {
    hide KeepsRows, DealStored;
    var key := GroupKey(g);
    StoredBelow(req, key, d, stored, deal);
    var renamed := Upserted(linked, RenewalGroupEntity, key, deal, g.licenses);
    MapLicensesEffect(renamed, g.licenses, deal);
    var m := MapLicenses(renamed, g.licenses, deal);
    Carried(req, key, d, stored, m, deal);
    assert SameMapping(renamed, m, RenewalGroupEntity, key) && SameMapping(renamed, m, RenewalCallEntity, key);
    forall entity, other | entity != LicenseEntity && other != key ensures SameMapping(d, m, entity, other) {
      assert SameMapping(renamed, m, entity, other);
    }
  }

  lemma StoredBelow(req: Request, key: string, d: Db, e: Db, deal: Id)
    requires DealStored(req, key, d, e, deal)
    ensures deal < e.nextId
  {
  }

  lemma Carried(req: Request, key: string, d: Db, e: Db, m: Db, deal: Id)
    requires DealStored(req, key, d, e, deal) && KeepsRows(d, e)
    requires m == e.(links := m.links, mappings := m.mappings)
    ensures DealStored(req, key, d, m, deal) && KeepsRows(d, m)
  {
  }

  lemma StoreTaskEffect(req: Request, g: Group, company: Id, deal: Id, contacts: seq<Id>, m: Db)
    requires IdsBelow(m)
    ensures var e := StoreTask(req, g, company, deal, contacts, m);
      && Phase2Frame(m, e) && IdsBelow(e) && e.links == m.links && e.deals == m.deals && KeepsRows(m, e)
      && MapsOnly(m, e, GroupKey(g)) && SameMapping(m, e, RenewalGroupEntity, GroupKey(g))
      && MappedTask(e, GroupKey(g)).Some?
  {
    hide IdsBelow, KeepsRows, MapsOnly, SameMapping, MappedTask;
    if MappedTask(m, GroupKey(g)).Some? {
      KeepsSelf(m, GroupKey(g));
    } else {
      var contact := if contacts == [] then None else Some(contacts[0]);
      TaskInserted(m, m.nextId, Task(req.callDueAt, req.assignee, deal, contact, company), GroupKey(g), g.licenses);
    }
  }

  lemma StoreTaskCount(req: Request, g: Group, company: Id, deal: Id, contacts: seq<Id>, m: Db)
    requires IdsBelow(m)
    ensures |StoreTask(req, g, company, deal, contacts, m).tasks|
         == |m.tasks| + (if MappedTask(m, GroupKey(g)).Some? then 0 else 1)
  {
    hide GroupKey, MappedTask, StoreTask;
    StoredTasks(req, g, company, deal, contacts, m);
    assert m.nextId !in m.tasks;
  }

  lemma StoredTasks(req: Request, g: Group, company: Id, deal: Id, contacts: seq<Id>, m: Db)
    ensures StoreTask(req, g, company, deal, contacts, m).tasks ==
      if MappedTask(m, GroupKey(g)).Some? then m.tasks
      else m.tasks[m.nextId := Task(req.callDueAt, req.assignee, deal, if contacts == [] then None else Some(contacts[0]), company)]
  {
    hide GroupKey, MappedTask;
  }

  lemma KeepsSelf(m: Db, key: string)
    ensures KeepsRows(m, m) && MapsOnly(m, m, key) && SameMapping(m, m, RenewalGroupEntity, key)
  {
  }

  lemma TaskInserted(m: Db, id: Id, task: Task, key: string, fingerprint: seq<License>)
    requires IdsBelow(m) && id == m.nextId
    ensures var e := Upserted(m.(nextId := id + 1, tasks := m.tasks[id := task]), RenewalCallEntity, key, id, fingerprint);
      && IdsBelow(e) && KeepsRows(m, e) && MapsOnly(m, e, key) && SameMapping(m, e, RenewalGroupEntity, key)
      && MappedTask(e, key).Some?
  {
  }

  lemma KeepsTransitive(d: Db, m: Db, e: Db, key: string)
    requires KeepsRows(d, m) && KeepsRows(m, e) && MapsOnly(d, m, key) && MapsOnly(m, e, key) && d.nextId <= m.nextId
    ensures KeepsRows(d, e) && MapsOnly(d, e, key)
  {
    forall entity, other | entity != LicenseEntity && other != key ensures SameMapping(d, e, entity, other) {
      assert SameMapping(d, m, entity, other) && SameMapping(m, e, entity, other);
    }
  }

  lemma TaskEffect(t: ContactPoints.Text, req: Request, g: Group, company: Id, deal: Id, contacts: seq<Id>, d: Db, m: Db)
    requires WellFormed(t, d) && DealAction(d, GroupKey(g)) != Skip
    requires DealWritten(req, GroupKey(g), d, m, deal)
    ensures WriteEffect(t, g, FinalStage(d, req.stage), d, StoreTask(req, g, company, deal, contacts, m))
  {
    hide IndexAgrees, StoreTask, KeepsRows, MapsOnly, IdsBelow, ViewGroup, OtherGroupsSame;
    var e := StoreTask(req, g, company, deal, contacts, m);
    StoreTaskEffect(req, g, company, deal, contacts, m);
    StoreTaskCount(req, g, company, deal, contacts, m);
    TaskLookup(d, m, GroupKey(g));
    IndexKept(t, d, e);
    KeepsTransitive(d, m, e, GroupKey(g));
    LookupSame(d, e, GroupKey(g));
    OwnView(req, g, d, m, e, deal);
    ViewGroupFields(d, g);
    DealCount(req, g, d, m, deal);
  }

  lemma DealCount(req: Request, g: Group, d: Db, m: Db, deal: Id)
    requires DealStored(req, GroupKey(g), d, m, deal)
    ensures |m.deals| == |d.deals| + (if DealAction(d, GroupKey(g)) == Create then 1 else 0)
  {
  }

  lemma IndexKept(t: ContactPoints.Text, d: Db, e: Db)
    requires IndexAgrees(t, d) && e.contacts == d.contacts && e.points == d.points
    ensures IndexAgrees(t, e)
  {
  }

  lemma OwnView(req: Request, g: Group, d: Db, m: Db, e: Db, deal: Id)
    requires DealStored(req, GroupKey(g), d, m, deal) && KeepsRows(d, m)
    requires DealAction(d, GroupKey(g)) != Skip
    requires (RenewalGroupEntity, GroupKey(g)) in m.mappings && m.mappings[(RenewalGroupEntity, GroupKey(g))].internal == deal
    requires SameMapping(m, e, RenewalGroupEntity, GroupKey(g)) && e.deals == m.deals && e.openStages == m.openStages
    requires MappedTask(e, GroupKey(g)).Some?
    ensures ViewGroup(e, g) == AfterGroup(ViewGroup(d, g), FinalStage(d, req.stage))
  {
    assert MappedDeal(e, GroupKey(g)) == Some(deal);
  }

  // ----- one group -----

  function GroupAfter(view: GroupView, failed: bool, targetFinal: bool): GroupView {
    if failed then view else AfterGroup(view, targetFinal)
  }

  ghost predicate Resolved(l: Ledger, g: Group) {
    l.db.source.Some?
    && (g.inn in l.companyErrors || (g.inn in l.companyByInn && l.companyByInn[g.inn].Some?))
  }

  ghost predicate GroupDbEffect(t: ContactPoints.Text, g: Group, failed: bool, targetFinal: bool, d: Db, e: Db) {
    && WellFormed(t, e) && Phase2Frame(d, e)
    && ViewGroup(e, g) == GroupAfter(ViewGroup(d, g), failed, targetFinal)
    && OtherGroupsSame(d, e, GroupKey(g))
  }

  ghost predicate GroupLedgerEffect(g: Group, view: GroupView, l: Ledger, m: Ledger) {
    && Seen(m) == PlanGroup(Seen(l), g, view)
    && m.companyErrors == l.companyErrors && m.companyByInn == l.companyByInn
    && RowsBalance(l.db, l.counts, m.db, m.counts)
  }

  // A group is refused when it would be written and one of its external ids
  // does not fit the column.
  predicate RefusedGroup(g: Group, errors: map<string, ImportError>, view: GroupView) {
    g.inn !in errors && view.action != Skip && !GroupFits(g)
  }

  lemma RealGroup(req: Request, g: Group, l: Ledger)
    requires !req.dryRun && WellFormed(req.text, l.db) && Resolved(l, g)
    ensures GroupStep(req, g, l).None? <==> RefusedGroup(g, l.companyErrors, ViewGroup(l.db, g))
    ensures GroupStep(req, g, l).Some? ==>
      var m := GroupStep(req, g, l).value;
      && GroupDbEffect(req.text, g, g.inn in l.companyErrors, FinalStage(l.db, req.stage), l.db, m.db)
      && GroupLedgerEffect(g, ViewGroup(l.db, g), l, m)
  {
    hide WellFormed, WriteGroup, ViewGroup, CountDeal, CountTask, GroupFits;
    GroupStepSeen(req, g, l);
    ViewGroupFields(l.db, g);
    if g.inn in l.companyErrors {
      FailedBalance(l.counts, l.companyErrors[g.inn]);
    } else if DealAction(l.db, GroupKey(g)) == Skip {
      SkippedBalance(l.counts, MappedTask(l.db, GroupKey(g)).Some?);
    } else {
      GroupContactsDistinct(l.contactsByLicense, g.inn, g.licenses);
      WriteGroupEffect(req.text, req, g, l.companyByInn[g.inn].value, l.db.source.value,
        GroupContacts(l.contactsByLicense, g.inn, g.licenses), l.db);
      WrittenBalance(l.counts, DealAction(l.db, GroupKey(g)), MappedTask(l.db, GroupKey(g)).Some?);
    }
  }

  lemma ViewGroupFields(d: Db, g: Group)
    ensures ViewGroup(d, g) == GroupView(DealAction(d, GroupKey(g)), MappedTask(d, GroupKey(g)).Some?)
    ensures !DealAction(d, GroupKey(g)).Failed?
  {
  }

  lemma FailedBalance(counts: Counts, error: ImportError)
    ensures var after := CountDeal(counts, Failed(error));
      after.companiesCreated == counts.companiesCreated && after.contactsCreated == counts.contactsCreated
      && after.dealsCreated == counts.dealsCreated && after.tasksCreated == counts.tasksCreated
  {
  }

  lemma SkippedBalance(counts: Counts, known: bool)
    ensures var after := CountTask(CountDeal(counts, Skip), true, known);
      after.companiesCreated == counts.companiesCreated && after.contactsCreated == counts.contactsCreated
      && after.dealsCreated == counts.dealsCreated && after.tasksCreated == counts.tasksCreated
  {
  }

  lemma WrittenBalance(counts: Counts, action: Action, known: bool)
    requires action == Create || action == Update
    ensures var after := CountTask(CountDeal(counts, action), false, known);
      after.companiesCreated == counts.companiesCreated && after.contactsCreated == counts.contactsCreated
      && after.dealsCreated == counts.dealsCreated + (if action == Create then 1 else 0)
      && after.tasksCreated == counts.tasksCreated + (if known then 0 else 1)
  {
  }

  // ----- all groups -----

  ghost predicate KeysDiffer(groups: seq<Group>) {
    forall i, j :: 0 <= i < |groups| && 0 <= j < |groups| && i != j ==> GroupKey(groups[i]) != GroupKey(groups[j])
  }

  ghost predicate GroupsDbEffect(t: ContactPoints.Text, groups: seq<Group>, errors: map<string, ImportError>, targetFinal: bool, j: nat, d: Db, e: Db)
    requires j <= |groups|
  {
    && WellFormed(t, e) && Phase2Frame(d, e)
    && (forall k :: j <= k < |groups| ==> ViewGroup(e, groups[k]) == ViewGroup(d, groups[k]))
    && (forall k :: 0 <= k < j ==>
          ViewGroup(e, groups[k]) == GroupAfter(ViewGroup(d, groups[k]), groups[k].inn in errors, targetFinal))
  }

  ghost predicate GroupsLedgerEffect(groups: seq<Group>, j: nat, l: Ledger, m: Ledger)
    requires j <= |groups|
  {
    && Seen(m) == PlanGroups(Seen(l), groups, ViewGroups(l.db, groups), j)
    && m.companyErrors == l.companyErrors && m.companyByInn == l.companyByInn
    && RowsBalance(l.db, l.counts, m.db, m.counts)
  }

  ghost predicate RefusedGroups(groups: seq<Group>, errors: map<string, ImportError>, db: Db, j: nat)
    requires j <= |groups|
  {
    exists k :: 0 <= k < j && RefusedGroup(groups[k], errors, ViewGroup(db, groups[k]))
  }

  lemma RefusedGroupsStep(groups: seq<Group>, errors: map<string, ImportError>, db: Db, j: nat)
    requires 0 < j <= |groups|
    ensures RefusedGroups(groups, errors, db, j)
       <==> RefusedGroups(groups, errors, db, j - 1) || RefusedGroup(groups[j - 1], errors, ViewGroup(db, groups[j - 1]))
  {
    hide RefusedGroup, ViewGroup;
  }

  lemma {:induction false} RealGroups(req: Request, groups: seq<Group>, j: nat, l: Ledger)
    requires !req.dryRun && WellFormed(req.text, l.db) && KeysDiffer(groups) && j <= |groups|
    requires forall g :: g in groups ==> Resolved(l, g)
    ensures GroupSteps(req, groups, j, l).None? <==> RefusedGroups(groups, l.companyErrors, l.db, j)
    ensures GroupSteps(req, groups, j, l).Some? ==>
      var m := GroupSteps(req, groups, j, l).value;
      && GroupsDbEffect(req.text, groups, l.companyErrors, FinalStage(l.db, req.stage), j, l.db, m.db)
      && GroupsLedgerEffect(groups, j, l, m)
  {
    hide WellFormed, ViewGroup, GroupStep, GroupAfter, PlanGroup, RowsBalance, GroupsDbEffect, GroupsLedgerEffect, RefusedGroup, RefusedGroups, Resolved;
    if j == 0 {
      NoGroups(req, groups, l);
    } else {
      RealGroups(req, groups, j - 1, l);
      RefusedGroupsStep(groups, l.companyErrors, l.db, j);
      var before := GroupSteps(req, groups, j - 1, l);
      var g := groups[j - 1];
      if before.Some? {
        var m := before.value;
        StillResolved(req, groups, j - 1, l, m, g);
        RealGroup(req, g, m);
        if GroupStep(req, g, m).Some? {
          GroupsStep(req, groups, j, l, m, GroupStep(req, g, m).value);
        }
      }
    }
  }

  lemma NoGroups(req: Request, groups: seq<Group>, l: Ledger)
    requires WellFormed(req.text, l.db)
    ensures GroupsDbEffect(req.text, groups, l.companyErrors, FinalStage(l.db, req.stage), 0, l.db, l.db)
    ensures GroupsLedgerEffect(groups, 0, l, l)
    ensures !RefusedGroups(groups, l.companyErrors, l.db, 0)
  {
    hide WellFormed, ViewGroup, RowsBalance, RefusedGroup;
    BalanceSelf(l);
  }

  lemma StillResolved(req: Request, groups: seq<Group>, j: nat, l: Ledger, m: Ledger, g: Group)
    requires j < |groups| && groups[j] == g && Resolved(l, g)
    requires GroupsDbEffect(req.text, groups, l.companyErrors, FinalStage(l.db, req.stage), j, l.db, m.db)
    requires GroupsLedgerEffect(groups, j, l, m)
    ensures WellFormed(req.text, m.db) && Resolved(m, g)
    ensures m.companyErrors == l.companyErrors && ViewGroup(m.db, g) == ViewGroup(l.db, g)
  {
    hide WellFormed, ViewGroup, GroupAfter, RowsBalance, PlanGroups;
  }

  lemma BalanceSelf(l: Ledger)
    ensures RowsBalance(l.db, l.counts, l.db, l.counts)
  {
  }

  lemma GroupsStep(req: Request, groups: seq<Group>, j: nat, l: Ledger, m: Ledger, n: Ledger)
    requires 0 < j <= |groups| && KeysDiffer(groups)
    requires GroupsDbEffect(req.text, groups, l.companyErrors, FinalStage(l.db, req.stage), j - 1, l.db, m.db)
    requires GroupsLedgerEffect(groups, j - 1, l, m)
    requires var g := groups[j - 1];
      && GroupDbEffect(req.text, g, g.inn in m.companyErrors, FinalStage(m.db, req.stage), m.db, n.db)
      && GroupLedgerEffect(g, ViewGroup(m.db, g), m, n)
    ensures GroupsDbEffect(req.text, groups, l.companyErrors, FinalStage(l.db, req.stage), j, l.db, n.db)
    ensures GroupsLedgerEffect(groups, j, l, n)
  {
    hide WellFormed, ViewGroup, GroupAfter, PlanGroup, GroupsDbEffect, GroupsLedgerEffect, GroupDbEffect, GroupLedgerEffect;
    GroupsDbStep(req, groups, j, l, m, n);
    GroupsLedgerStep(req, groups, j, l, m, n);
  }

  lemma GroupsDbStep(req: Request, groups: seq<Group>, j: nat, l: Ledger, m: Ledger, n: Ledger)
    requires 0 < j <= |groups| && KeysDiffer(groups)
    requires GroupsDbEffect(req.text, groups, l.companyErrors, FinalStage(l.db, req.stage), j - 1, l.db, m.db)
    requires GroupsLedgerEffect(groups, j - 1, l, m)
    requires GroupDbEffect(req.text, groups[j - 1], groups[j - 1].inn in m.companyErrors, FinalStage(m.db, req.stage), m.db, n.db)
    ensures GroupsDbEffect(req.text, groups, l.companyErrors, FinalStage(l.db, req.stage), j, l.db, n.db)
  {
    hide WellFormed, ViewGroup, GroupAfter, PlanGroup, PlanGroups, RowsBalance;
    assert FinalStage(m.db, req.stage) == FinalStage(l.db, req.stage);
    forall k | 0 <= k < |groups| && k != j - 1 ensures ViewGroup(n.db, groups[k]) == ViewGroup(m.db, groups[k]) {
    }
  }

  lemma GroupsLedgerStep(req: Request, groups: seq<Group>, j: nat, l: Ledger, m: Ledger, n: Ledger)
    requires 0 < j <= |groups|
    requires GroupsDbEffect(req.text, groups, l.companyErrors, FinalStage(l.db, req.stage), j - 1, l.db, m.db)
    requires GroupsLedgerEffect(groups, j - 1, l, m)
    requires GroupLedgerEffect(groups[j - 1], ViewGroup(m.db, groups[j - 1]), m, n)
    ensures GroupsLedgerEffect(groups, j, l, n)
  {
    hide WellFormed, ViewGroup, GroupAfter, PlanGroup, GroupDbEffect;
    assert ViewGroup(m.db, groups[j - 1]) == ViewGroup(l.db, groups[j - 1]);
  }
}
