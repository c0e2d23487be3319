// import_subscriptions as the program runs it: dictionaries and counters that
// are updated in loops over INNs, clusters, licences and groups.
module RenewalRun {
  import opened Prelude
  import opened Licenses
  import Clusters
  import ContactClusterObjects
  import ContactPoints
  import DealLinks
  import opened RenewalImport
  import opened RenewalPreview
  import RenewalGroups

  class ImportRun {
    var db: Db
    var counts: Counts
    var companyByInn: map<string, Option<Id>>
    var companyErrors: map<string, ImportError>
    var contactsByLicense: map<(string, string, Date), Option<Id>>
    var contactCountByInn: map<string, nat>
    var results: seq<GroupResult>

    function State(): Ledger
      reads this
    {
      Ledger(db, counts, companyByInn, companyErrors, contactsByLicense, contactCountByInn, results)
    }

    constructor (db: Db)
      ensures this.db == db
    {
      this.db := db;
      counts := Counts(0, 0, 0, 0, 0, 0, 0, 0, 0, 0, 0, 0, 0, 0, 0);
      companyByInn, companyErrors, contactsByLicense, contactCountByInn, results := map[], map[], map[], map[], [];
    }

    // Remember the contact of every licence of a cluster.
    method AssignLicenses(inn: string, cluster: seq<License>, contact: Option<Id>)
      modifies this`contactsByLicense
      ensures contactsByLicense == Assigned(old(contactsByLicense), inn, cluster, contact)
    {
      for i := 0 to |cluster|
        invariant contactsByLicense == Assigned(old(contactsByLicense), inn, cluster[..i], contact)
      {
        assert cluster[..i + 1][..i] == cluster[..i];
        contactsByLicense := contactsByLicense[(inn, cluster[i].lid, cluster[i].expiresAt) := contact];
      }
      assert cluster[..|cluster|] == cluster;
    }

    // Write a contact and rebuild its index rows; false when a value does not
    // normalize or a row does not fit its columns.
    method WriteContact(text: ContactPoints.Text, id: Id, c: ContactPoints.Contact) returns (ok: bool)
      modifies this`db
      ensures ok <==> StoreContact(text, old(db), id, c).Some?
      ensures ok ==> Some(db) == StoreContact(text, old(db), id, c)
    {
      hide ContactPoints.Synced, ContactFits;
      var rows := ContactPoints.Synced(text, c);
      ok := rows.Some? && ContactFits(ValuesOf(c), rows.value);
      if ok {
        db := db.(contacts := db.contacts[id := c], points := db.points[id := rows.value]);
      }
    }

    // The body of the loop over clusters; false is an exception.
    method ProcessCluster(req: Request, inn: string, company: Option<Id>, cluster: seq<License>) returns (ok: bool)
      modifies this
      ensures ok <==> ClusterStep(req, inn, company, cluster, old(State())).Some?
      ensures ok ==> Some(State()) == ClusterStep(req, inn, company, cluster, old(State()))
    {
      hide Assigned, StoreContact, MergedContact, NewContact, ClusterIdentities;
      var contact: Option<Id> := None;
      if company.Some? {
        var matches := Matches(db, company.value, ClusterIdentities(cluster));
        if |matches| > 1 {
          companyErrors := companyErrors[inn := SeveralContacts];
          return true;
        }
        if |matches| == 1 {
          SoleElement(matches);
          var c :| c in matches;
          contact := Some(c);
          counts := counts.(contactsReused := counts.contactsReused + 1);
          if !req.dryRun {
            ok := WriteContact(req.text, c, MergedContact(db.contacts[c], req.assignee, cluster));
            if !ok { return; }
          }
        }
      }
      if contact.None? && inn !in companyErrors {
        counts := counts.(contactsCreated := counts.contactsCreated + 1);
        if !req.dryRun && company.Some? {
          var id := db.nextId;
          ok := WriteContact(req.text, id, NewContact(company.value, req.assignee, cluster));
          if !ok { return; }
          db := db.(nextId := db.nextId + 1);
          contact := Some(id);
        }
      }
      AssignLicenses(inn, cluster, contact);
      return true;
    }

    // The body of the loop over INNs.
    method ProcessInn(req: Request, licenses: seq<License>, inn: string, rows: seq<License>) returns (ok: bool)
      requires rows == OfInn(licenses, inn)
      modifies this
      ensures ok <==> InnStep(req, licenses, inn, old(State())).Some?
      ensures ok ==> Some(State()) == InnStep(req, licenses, inn, old(State()))
    {
      hide OfInn, ClusterStep, CompaniesOf, CompanyFits, NewCompany;
      var companies := CompaniesOf(db, inn);
      if |companies| > 1 {
        companyErrors := companyErrors[inn := SeveralCompanies];
        companyByInn := companyByInn[inn := None];
        return true;
      }
      var company;
      ok, company := FindCompany(req, inn, rows);
      if ok {
        ok := ProcessClusters(req, inn, company, rows);
      }
    }

    // The one company of the INN, created in a real run if there is none; false
    // when the new row does not fit its columns.
    method FindCompany(req: Request, inn: string, rows: seq<License>) returns (ok: bool, company: Option<Id>)
      requires |CompaniesOf(db, inn)| <= 1
      modifies this
      ensures ok <==> req.dryRun || CompaniesOf(old(db), inn) != {} || CompanyFits(NewCompany(inn, rows))
      ensures ok ==> (company, State()) == ResolveCompany(req, inn, rows, old(State()))
    {
      hide CompanyFits, NewCompany;
      ok := true;
      var companies := CompaniesOf(db, inn);
      if |companies| == 1 {
        SoleElement(companies);
        var c :| c in companies;
        company := Some(c);
        counts := counts.(companiesReused := counts.companiesReused + 1);
      } else {
        counts := counts.(companiesCreated := counts.companiesCreated + 1);
        if req.dryRun {
          company := None;
        } else {
          var row := NewCompany(inn, rows);
          company := Some(db.nextId);
          if !CompanyFits(row) {
            return false, company;
          }
          db := db.(nextId := db.nextId + 1, companies := db.companies[db.nextId := row]);
        }
      }
      companyByInn := companyByInn[inn := company];
    }

    method ProcessClusters(req: Request, inn: string, company: Option<Id>, rows: seq<License>) returns (ok: bool)
      modifies this
      ensures var clusters := Clusters.ContactClusters(rows);
        var steps := ClusterSteps(req, inn, company, clusters, |clusters|,
                       old(State()).(contactCountByInn := old(contactCountByInn)[inn := |clusters|]));
        (ok <==> steps.Some?) && (ok ==> Some(State()) == steps)
    {
      hide ClusterStep;
      var clusters := ContactClusterObjects.BuildContactClusters(rows);
      ContactClusterObjects.ContentsAt(clusters);
      contactCountByInn := contactCountByInn[inn := |clusters|];
      ghost var contents := Clusters.ContactClusters(rows);
      ghost var start := State();
      for i := 0 to |clusters|
        invariant ContactClusterObjects.Contents(clusters) == contents
        invariant Some(State()) == ClusterSteps(req, inn, company, contents, i, start)
      {
        ContactClusterObjects.ContentsAt(clusters);
        ok := ProcessCluster(req, inn, company, clusters[i].licenses);
        if !ok {
          ClusterStepsStop(req, inn, company, contents, i + 1, |contents|, start);
          return;
        }
      }
      return true;
    }

    // _unique_contacts over the licences of a group
    method UniqueContacts(g: Group) returns (contacts: seq<Id>)
      ensures contacts == GroupContacts(contactsByLicense, g.inn, g.licenses)
    {
      contacts := [];
      for i := 0 to |g.licenses|
        invariant contacts == GroupContacts(contactsByLicense, g.inn, g.licenses[..i])
      {
        assert g.licenses[..i + 1][..i] == g.licenses[..i];
        var key := (g.inn, g.licenses[i].lid, g.licenses[i].expiresAt);
        if key in contactsByLicense && contactsByLicense[key].Some? && contactsByLicense[key].value !in contacts {
          contacts := contacts + [contactsByLicense[key].value];
        }
      }
      assert g.licenses[..|g.licenses|] == g.licenses;
    }

    // The writes of one group: deal, links, mappings, task; false when an
    // external id does not fit its column.
    method WriteRows(req: Request, g: Group, company: Id, source: Id, contacts: seq<Id>, existing: Option<Id>, task: Option<Id>)
      returns (ok: bool)
      requires existing == MappedDeal(db, GroupKey(g)) && task == MappedTask(db, GroupKey(g))
      modifies this`db
      ensures ok <==> GroupFits(g)
      ensures ok ==> db == WriteGroup(req, g, company, source, contacts, old(db))
    {
      hide MappedTask, MapLicenses, DealLinks.Added, KeyFits, LicensesFit;
      ghost var was := db;
      var deal := WriteDeal(req, g, company, source, existing);
      ghost var stored := db;
      AddDealContacts(deal, contacts);
      ok := MapRow(RenewalGroupEntity, GroupKey(g), deal, g.licenses);
      if !ok { return; }
      ok := MapRows(g.licenses, deal);
      if !ok { return; }
      TaskStillMapped(req, g, company, source, contacts, was);
      if task.None? {
        var contact := if contacts == [] then None else Some(contacts[0]);
        var id := db.nextId;
        db := db.(nextId := id + 1, tasks := db.tasks[id := Task(req.callDueAt, req.assignee, deal, contact, company)]);
        ok := MapRow(RenewalCallEntity, GroupKey(g), id, g.licenses);
      }
    }

    // _upsert_mapping
    method MapRow(entity: EntityType, key: string, internal: Id, fingerprint: seq<License>) returns (ok: bool)
      modifies this`db
      ensures ok <==> KeyFits(key)
      ensures db == if ok then Upserted(old(db), entity, key, internal, fingerprint) else old(db)
    {
      ok := KeyFits(key);
      if ok {
        db := db.(mappings := db.mappings[(entity, key) := Mapping(internal, fingerprint)]);
      }
    }

    method WriteDeal(req: Request, g: Group, company: Id, source: Id, existing: Option<Id>) returns (deal: Id)
      requires existing == MappedDeal(db, GroupKey(g))
      modifies this`db
      ensures (db, deal) == StoreDeal(req, g, company, source, old(db))
    {
      if existing.None? {
        deal := db.nextId;
        db := db.(nextId := deal + 1,
                  deals := db.deals[deal := Deal(req.pipeline, req.stage, company, req.assignee, source, g.expiresAt, g.licenses, 1, false)]);
      } else {
        deal := existing.value;
        var row := db.deals[deal];
        row := row.(company := company, assignee := req.assignee, source := source);
        row := row.(nextPurchaseAt := g.expiresAt, licenses := g.licenses, version := row.version + 1);
        db := db.(deals := db.deals[deal := row]);
      }
    }

    // _add_deal_contacts
    method AddDealContacts(deal: Id, contacts: seq<Id>)
      modifies this`db
      ensures db == old(db).(links := old(db).links[deal := DealLinks.Added(LinksOf(old(db), deal), contacts)])
    {
      var links := LinksOf(db, deal);
      ghost var before := links;
      var existing := set l | l in links :: l.contact;
      for i := 0 to |contacts|
        invariant links == DealLinks.Added(before, contacts[..i])
      {
        assert contacts[..i + 1][..i] == contacts[..i];
        assert contacts[i] in existing <==> DealLinks.Linked(before, contacts[i]);
        if contacts[i] !in existing {
          links := links + [DealLinks.Link(contacts[i], !DealLinks.HasPrimary(links))];
        }
      }
      assert contacts[..|contacts|] == contacts;
      db := db.(links := db.links[deal := links]);
    }

    // The mapping of every licence.
    method MapRows(licenses: seq<License>, deal: Id) returns (ok: bool)
      modifies this`db
      ensures ok <==> LicensesFit(licenses)
      ensures ok ==> db == MapLicenses(old(db), licenses, deal)
    {
      hide KeyFits, ExternalId;
      for i := 0 to |licenses|
        invariant forall k :: 0 <= k < i ==> KeyFits(ExternalId(licenses[k].lid, licenses[k].expiresAt))
        invariant db == MapLicenses(old(db), licenses[..i], deal)
      {
        assert licenses[..i + 1][..i] == licenses[..i];
        var l := licenses[i];
        ok := MapRow(LicenseEntity, ExternalId(l.lid, l.expiresAt), deal, [l]);
        if !ok {
          assert l in licenses;
          return;
        }
      }
      assert licenses[..|licenses|] == licenses;
      return true;
    }

    // What happens to deal and task of a group, and its counters.
    method CountGroup(deal: Option<Id>, task: Option<Id>, finalized: bool) returns (action: Action)
      requires finalized ==> deal.Some?
      modifies this`counts
      ensures action == if deal.None? then Create else if finalized then Skip else Update
      ensures counts == CountTask(CountDeal(old(counts), action), finalized, task.Some?)
    {
      if deal.None? {
        action := Create;
        counts := counts.(dealsCreated := counts.dealsCreated + 1);
      } else if finalized {
        action := Skip;
        counts := counts.(dealsSkipped := counts.dealsSkipped + 1);
      } else {
        action := Update;
        counts := counts.(dealsUpdated := counts.dealsUpdated + 1);
      }
      if finalized {
        if task.None? {
          counts := counts.(tasksSkipped := counts.tasksSkipped + 1);
        } else {
          counts := counts.(tasksReused := counts.tasksReused + 1);
        }
      } else if task.None? {
        counts := counts.(tasksCreated := counts.tasksCreated + 1);
      } else {
        counts := counts.(tasksReused := counts.tasksReused + 1);
      }
    }

    // The body of the loop over groups.
    method ProcessGroup(req: Request, g: Group) returns (ok: bool)
      modifies this
      ensures ok <==> GroupStep(req, g, old(State())).Some?
      ensures ok ==> Some(State()) == GroupStep(req, g, old(State()))
    {
      hide WriteGroup, MappedTask, GroupContacts, FinalStage, CountDeal, CountTask, GroupFits;
      var contactCount := if g.inn in contactCountByInn then contactCountByInn[g.inn] else 0;
      if g.inn in companyErrors {
        Refuse(g, contactCount, Failed(companyErrors[g.inn]));
        return true;
      }
      var deal, task := MappedDeal(db, GroupKey(g)), MappedTask(db, GroupKey(g));
      var finalized := deal.Some? && FinalStage(db, db.deals[deal.value].stage);
      var action := CountGroup(deal, task, finalized);
      assert action == DealAction(db, GroupKey(g)) && (finalized <==> action == Skip);
      if !req.dryRun && !finalized {
        if g.inn !in companyByInn || companyByInn[g.inn].None? || db.source.None? {
          return false;
        }
        var contacts := UniqueContacts(g);
        ok := WriteRows(req, g, companyByInn[g.inn].value, db.source.value, contacts, deal, task);
        if !ok { return; }
      }
      results := results + [GroupResult(g, contactCount, action)];
      return true;
    }

    method Refuse(g: Group, contactCount: nat, action: Action)
      requires action.Failed?
      modifies this`counts, this`results
      ensures counts == CountDeal(old(counts), action) && results == old(results) + [GroupResult(g, contactCount, action)]
    {
      counts := counts.(errors := counts.errors + 1);
      results := results + [GroupResult(g, contactCount, action)];
    }

    // The loop over INNs.
    method ProcessInns(req: Request, licenses: seq<License>, inns: seq<string>, byInn: map<string, seq<License>>) returns (ok: bool)
      requires forall inn :: inn in inns ==> inn in byInn && byInn[inn] == OfInn(licenses, inn)
      modifies this
      ensures ok <==> InnSteps(req, licenses, inns, |inns|, old(State())).Some?
      ensures ok ==> Some(State()) == InnSteps(req, licenses, inns, |inns|, old(State()))
    {
      hide InnStep, OfInn;
      ghost var start := State();
      for i := 0 to |inns|
        invariant Some(State()) == InnSteps(req, licenses, inns, i, start)
      {
        ok := ProcessInn(req, licenses, inns[i], byInn[inns[i]]);
        if !ok {
          InnStepsStop(req, licenses, inns, i + 1, |inns|, start);
          return;
        }
      }
      return true;
    }

    // The loop over groups.
    method ProcessGroups(req: Request, groups: seq<Group>) returns (ok: bool)
      modifies this
      ensures ok <==> GroupSteps(req, groups, |groups|, old(State())).Some?
      ensures ok ==> Some(State()) == GroupSteps(req, groups, |groups|, old(State()))
    {
      hide GroupStep;
      ghost var start := State();
      for i := 0 to |groups|
        invariant Some(State()) == GroupSteps(req, groups, i, start)
      {
        ok := ProcessGroup(req, groups[i]);
        if !ok {
          GroupStepsStop(req, groups, i + 1, |groups|, start);
          return;
        }
      }
      return true;
    }

    // An exception undoes everything: the caller rolls the transaction back.
    method Run(req: Request, parsed: Parsed) returns (outcome: Option<Outcome>)
      modifies this
      ensures match Import(req, parsed, old(db))
              case None => outcome == None && db == old(db)
              case Some(l) => outcome == Some(OutcomeOf(l)) && db == l.db
    {
      hide InnSteps, GroupSteps, RenewalGroups.RenewalGroups, OfInn, Inns;
      var savepoint := db;
      var groups := RenewalGroups.BuildRenewalGroups(parsed.licenses);
      var inns, byInn := GroupByInn(parsed.licenses);
      counts := Counts(|parsed.licenses| + parsed.duplicateRows, |parsed.licenses|, parsed.duplicateRows, |groups|,
                       0, 0, 0, 0, 0, 0, 0, 0, 0, 0, 0);
      companyByInn, companyErrors, contactsByLicense, contactCountByInn, results := map[], map[], map[], map[], [];
      var ok := ProcessInns(req, parsed.licenses, inns, byInn);
      if ok {
        if !req.dryRun && db.source.None? {
          db := db.(nextId := db.nextId + 1, source := Some(db.nextId));
        }
        ok := ProcessGroups(req, groups);
      }
      if !ok {
        db := savepoint;
        return None;
      }
      return Some(Outcome(counts, results));
    }
  }

  lemma DealKeepsMappings(req: Request, g: Group, company: Id, source: Id, db: Db)
    ensures var stored := StoreDeal(req, g, company, source, db).0; stored.mappings == db.mappings && stored.tasks == db.tasks
  {
    hide GroupKey;
  }

  // The writes before it do not change whether the call of a group is mapped.
  lemma TaskStillMapped(req: Request, g: Group, company: Id, source: Id, contacts: seq<Id>, db: Db)
    ensures var (stored, deal) := StoreDeal(req, g, company, source, db);
      var linked := stored.(links := stored.links[deal := DealLinks.Added(LinksOf(stored, deal), contacts)]);
      var mapped := MapLicenses(Upserted(linked, RenewalGroupEntity, GroupKey(g), deal, g.licenses), g.licenses, deal);
      MappedTask(mapped, GroupKey(g)) == MappedTask(db, GroupKey(g))
  {
    hide StoreDeal, MapLicenses, GroupKey, LinksOf, DealLinks.Added;
    var (stored, deal) := StoreDeal(req, g, company, source, db);
    var linked := stored.(links := stored.links[deal := DealLinks.Added(LinksOf(stored, deal), contacts)]);
    DealKeepsMappings(req, g, company, source, db);
    LicensesKeepCalls(Upserted(linked, RenewalGroupEntity, GroupKey(g), deal, g.licenses), g.licenses, deal, GroupKey(g));
  }

  lemma {:induction false} LicensesKeepCalls(db: Db, licenses: seq<License>, deal: Id, key: string)
    ensures var mapped := MapLicenses(db, licenses, deal);
      && mapped.tasks == db.tasks
      && ((RenewalCallEntity, key) in mapped.mappings <==> (RenewalCallEntity, key) in db.mappings)
      && ((RenewalCallEntity, key) in db.mappings ==> mapped.mappings[(RenewalCallEntity, key)] == db.mappings[(RenewalCallEntity, key)])
  {
    if licenses != [] {
      LicensesKeepCalls(db, licenses[..|licenses| - 1], deal, key);
    }
  }

  // The dictionary of rows by INN, and its keys in insertion order.
  method GroupByInn(licenses: seq<License>) returns (inns: seq<string>, byInn: map<string, seq<License>>)
    ensures inns == Inns(licenses)
    ensures forall inn :: inn in byInn <==> inn in inns
    ensures forall inn :: inn in byInn ==> byInn[inn] == OfInn(licenses, inn)
  {
    inns, byInn := [], map[];
    for i := 0 to |licenses|
      invariant inns == Inns(licenses[..i])
      invariant forall inn :: inn in byInn <==> inn in inns
      invariant forall inn :: if inn in byInn then byInn[inn] == OfInn(licenses[..i], inn) else OfInn(licenses[..i], inn) == []
    {
      assert licenses[..i + 1][..i] == licenses[..i];
      var l := licenses[i];
      if l.inn in byInn {
        byInn := byInn[l.inn := byInn[l.inn] + [l]];
      } else {
        inns := inns + [l.inn];
        byInn := byInn[l.inn := [l]];
      }
    }
    assert licenses[..|licenses|] == licenses;
  }

  // Once a step has failed, so have all later prefixes.
  lemma {:induction false} ClusterStepsStop(req: Request, inn: string, company: Option<Id>, clusters: seq<seq<License>>, i: nat, j: nat, l: Ledger)
    requires i <= j <= |clusters| && ClusterSteps(req, inn, company, clusters, i, l).None?
    ensures ClusterSteps(req, inn, company, clusters, j, l).None?
  {
    hide ClusterStep;
    if i < j {
      ClusterStepsStop(req, inn, company, clusters, i, j - 1, l);
    }
  }

  lemma {:induction false} InnStepsStop(req: Request, licenses: seq<License>, inns: seq<string>, i: nat, j: nat, l: Ledger)
    requires i <= j <= |inns| && InnSteps(req, licenses, inns, i, l).None?
    ensures InnSteps(req, licenses, inns, j, l).None?
  {
    hide InnStep;
    if i < j {
      InnStepsStop(req, licenses, inns, i, j - 1, l);
    }
  }

  lemma {:induction false} GroupStepsStop(req: Request, groups: seq<Group>, i: nat, j: nat, l: Ledger)
    requires i <= j <= |groups| && GroupSteps(req, groups, i, l).None?
    ensures GroupSteps(req, groups, j, l).None?
  {
    hide GroupStep;
    if i < j {
      GroupStepsStop(req, groups, i, j - 1, l);
    }
  }
}
