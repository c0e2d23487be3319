// import_subscriptions as a function of the database: two phases, first
// companies and contacts per INN, then deals and tasks per renewal group.
// Every step is a function from one ledger to the next; None stands for an
// exception (the caller rolls the transaction back).
module RenewalImport {
  import opened Prelude
  import opened Licenses
  import Clusters
  import ContactPoints
  import DealLinks

  type Id = nat

  // ----- tables (one workspace, one provider) -----

  datatype Company = Company(name: string, inn: string, phone: Option<string>, email: Option<string>, deleted: bool)

  datatype Deal = Deal(
    pipeline: Id, stage: Id, company: Id, assignee: Id, source: Id,
    nextPurchaseAt: Date, licenses: seq<License>, version: nat, deleted: bool)

  datatype Task = Task(dueAt: int, assignee: Id, deal: Id, contact: Option<Id>, company: Id)

  datatype EntityType = RenewalGroupEntity | RenewalCallEntity | LicenseEntity

  datatype Mapping = Mapping(internal: Id, fingerprint: seq<License>)

  datatype Db = Db(
    nextId: Id,
    companies: map<Id, Company>,
    contacts: map<Id, ContactPoints.Contact>,
    points: map<Id, seq<ContactPoints.Point>>,
    openStages: map<Id, bool>,
    deals: map<Id, Deal>,
    tasks: map<Id, Task>,
    links: map<Id, seq<DealLinks.Link>>,
    source: Option<Id>,
    mappings: map<(EntityType, string), Mapping>)

  // ----- input -----

  datatype Group = Group(inn: string, expiresAt: Date, licenses: seq<License>)

  function GroupKey(g: Group): string {
    ExternalId(g.inn, g.expiresAt)
  }

  datatype Request = Request(
    text: ContactPoints.Text, pipeline: Id, stage: Id, assignee: Id, callDueAt: int, dryRun: bool)

  datatype Parsed = Parsed(licenses: seq<License>, duplicateRows: nat)

  // ----- output -----

  datatype Action = Create | Update | Skip | Failed(error: ImportError)

  datatype ImportError = SeveralCompanies | SeveralContacts

  datatype GroupResult = GroupResult(group: Group, contactCount: nat, action: Action)

  datatype Counts = Counts(
    rows: nat, licenses: nat, duplicateRows: nat, groups: nat,
    companiesCreated: nat, companiesReused: nat,
    contactsCreated: nat, contactsReused: nat,
    dealsCreated: nat, dealsUpdated: nat, dealsSkipped: nat,
    tasksCreated: nat, tasksReused: nat, tasksSkipped: nat,
    errors: nat)

  datatype Outcome = Outcome(counts: Counts, results: seq<GroupResult>)

  // The local variables of the function together with the database.
  datatype Ledger = Ledger(
    db: Db,
    counts: Counts,
    companyByInn: map<string, Option<Id>>,
    companyErrors: map<string, ImportError>,
    contactsByLicense: map<(string, string, Date), Option<Id>>,
    contactCountByInn: map<string, nat>,
    results: seq<GroupResult>)

  // ----- grouping the rows -----

  // INNs in order of first appearance.
  function Inns(licenses: seq<License>): seq<string> {
    if licenses == [] then []
    else
      var before := Inns(licenses[..|licenses| - 1]);
      var inn := licenses[|licenses| - 1].inn;
      if inn in before then before else before + [inn]
  }

  function OfInn(licenses: seq<License>, inn: string): seq<License> {
    if licenses == [] then []
    else
      var before := OfInn(licenses[..|licenses| - 1], inn);
      if licenses[|licenses| - 1].inn == inn then before + [licenses[|licenses| - 1]] else before
  }

  // ----- reading the database -----

  function CompaniesOf(db: Db, inn: string): set<Id> {
    set id | id in db.companies && !db.companies[id].deleted && db.companies[id].inn == inn
  }

  function LicenseIdentities(l: License): set<ContactPoints.Identity> {
    (if l.normalizedPhone != "" then {(ContactPoints.Phone, l.normalizedPhone)} else {})
    + (if l.normalizedEmail != "" then {(ContactPoints.Email, l.normalizedEmail)} else {})
  }

  function ClusterIdentities(cluster: seq<License>): set<ContactPoints.Identity> {
    set l, i | l in cluster && i in LicenseIdentities(l) :: i
  }

  function PointsOfContact(db: Db, id: Id): set<ContactPoints.Identity> {
    if id in db.points then ContactPoints.PointIdentities(db.points[id]) else {}
  }

  predicate Touches(points: set<ContactPoints.Identity>, identities: set<ContactPoints.Identity>) {
    exists i :: i in points && i in identities
  }

  // _matching_company_contacts
  function Matches(db: Db, company: Id, identities: set<ContactPoints.Identity>): set<Id> {
    set id | id in db.contacts
      && !db.contacts[id].deleted
      && db.contacts[id].company == Some(company)
      && Touches(PointsOfContact(db, id), identities)
  }

  // _mapped_entity for deals and for tasks
  function MappedDeal(db: Db, key: string): Option<Id> {
    var k := (RenewalGroupEntity, key);
    if k in db.mappings && db.mappings[k].internal in db.deals && !db.deals[db.mappings[k].internal].deleted
    then Some(db.mappings[k].internal) else None
  }

  function MappedTask(db: Db, key: string): Option<Id> {
    var k := (RenewalCallEntity, key);
    if k in db.mappings && db.mappings[k].internal in db.tasks then Some(db.mappings[k].internal) else None
  }

  predicate FinalStage(db: Db, stage: Id) {
    stage in db.openStages && !db.openStages[stage]
  }

  // ----- what the columns hold; a longer text makes the database refuse the row -----

  const NAME_WIDTH: nat := 240
  const INN_WIDTH: nat := 12
  const PHONE_WIDTH: nat := 64
  const EMAIL_WIDTH: nat := 320
  const EXTERNAL_ID_WIDTH: nat := 255

  predicate TextFits(value: Option<string>, width: nat) {
    value.Some? ==> |value.value| <= width
  }

  predicate CompanyFits(c: Company) {
    |c.name| <= NAME_WIDTH && |c.inn| <= INN_WIDTH && TextFits(c.phone, PHONE_WIDTH) && TextFits(c.email, EMAIL_WIDTH)
  }

  predicate ContactFits(v: Values, rows: seq<ContactPoints.Point>) {
    TextFits(v.primaryEmail, EMAIL_WIDTH) && TextFits(v.primaryPhone, PHONE_WIDTH) && ContactPoints.PointsFit(rows)
  }

  predicate KeyFits(key: string) {
    |key| <= EXTERNAL_ID_WIDTH
  }

  predicate GroupFits(g: Group) {
    KeyFits(GroupKey(g)) && LicensesFit(g.licenses)
  }

  predicate LicensesFit(licenses: seq<License>) {
    forall l :: l in licenses ==> KeyFits(ExternalId(l.lid, l.expiresAt))
  }

  // ----- phase 1: one cluster -----

  function UniqueValues(values: seq<string>): seq<string> {
    if values == [] then []
    else
      var before := UniqueValues(values[..|values| - 1]);
      var v := values[|values| - 1];
      if v == "" || v in before then before else before + [v]
  }

  function RawPhones(cluster: seq<License>): seq<string> {
    seq(|cluster|, i requires 0 <= i < |cluster| => cluster[i].phone)
  }

  function RawEmails(cluster: seq<License>): seq<string> {
    seq(|cluster|, i requires 0 <= i < |cluster| => cluster[i].email)
  }

  function First(values: seq<string>): Option<string> {
    if values == [] then None else Some(values[0])
  }

  function OrElse(value: Option<string>, other: Option<string>): Option<string> {
    if value.Some? && value.value != "" then value else other
  }

  // The emails and phones of a contact, which its index rows are made from.
  datatype Values = Values(primaryEmail: Option<string>, primaryPhone: Option<string>, emails: seq<string>, phones: seq<string>)

  function ValuesOf(c: ContactPoints.Contact): Values {
    Values(c.primaryEmail, c.primaryPhone, c.emails, c.phones)
  }

  function NewValues(cluster: seq<License>): Values {
    var emails, phones := UniqueValues(RawEmails(cluster)), UniqueValues(RawPhones(cluster));
    Values(First(emails), First(phones), emails, phones)
  }

  // _merge_contact_points before the index is rebuilt
  function MergedValues(v: Values, cluster: seq<License>): Values {
    var emails, phones := UniqueValues(RawEmails(cluster)), UniqueValues(RawPhones(cluster));
    Values(OrElse(v.primaryEmail, First(emails)), OrElse(v.primaryPhone, First(phones)),
           UniqueValues(v.emails + emails), UniqueValues(v.phones + phones))
  }

  function WithValues(c: ContactPoints.Contact, v: Values): ContactPoints.Contact {
    c.(primaryEmail := v.primaryEmail, primaryPhone := v.primaryPhone, emails := v.emails, phones := v.phones)
  }

  function NewContact(company: Id, assignee: Id, cluster: seq<License>): ContactPoints.Contact {
    WithValues(ContactPoints.Contact(Some(company), Some(assignee), false, None, None, [], [], 1), NewValues(cluster))
  }

  function MergedContact(c: ContactPoints.Contact, assignee: Id, cluster: seq<License>): ContactPoints.Contact {
    WithValues(c, MergedValues(ValuesOf(c), cluster)).(
      assignee := if c.assignee.Some? then c.assignee else Some(assignee),
      version := c.version + 1)
  }

  // Store a contact and rebuild its index rows; None when a value does not
  // normalize or a row is refused.
  function StoreContact(text: ContactPoints.Text, db: Db, id: Id, c: ContactPoints.Contact): Option<Db> {
    match ContactPoints.Synced(text, c)
    case None => None
    case Some(rows) =>
      if ContactFits(ValuesOf(c), rows) then Some(db.(contacts := db.contacts[id := c], points := db.points[id := rows]))
      else None
  }

  // Remember the contact of every licence of the cluster.
  function Assigned(m: map<(string, string, Date), Option<Id>>, inn: string, cluster: seq<License>, contact: Option<Id>)
    : map<(string, string, Date), Option<Id>>
  {
    if cluster == [] then m
    else
      var l := cluster[|cluster| - 1];
      Assigned(m, inn, cluster[..|cluster| - 1], contact)[(inn, l.lid, l.expiresAt) := contact]
  }

  // The only element of a one-element set.
  function The(s: set<Id>): Id
    requires |s| == 1
  {
    SoleElement(s);
    var x :| x in s; x
  }

  lemma SoleElement(s: set<Id>)
    requires |s| == 1
    ensures exists x :: x in s
    ensures forall x, y :: x in s && y in s ==> x == y
  {
    var x :| x in s;
    assert |s - {x}| == 0;
    assert forall y :: y in s && y != x ==> y in s - {x};
  }

  function ReuseContact(req: Request, inn: string, cluster: seq<License>, contact: Id, l: Ledger): Option<Ledger>
    requires contact in l.db.contacts
  {
    var next := l.(
      counts := l.counts.(contactsReused := l.counts.contactsReused + 1),
      contactsByLicense := Assigned(l.contactsByLicense, inn, cluster, Some(contact)));
    if req.dryRun then Some(next)
    else
      match StoreContact(req.text, l.db, contact, MergedContact(l.db.contacts[contact], req.assignee, cluster))
      case None => None
      case Some(db) => Some(next.(db := db))
  }

  function CreateContact(req: Request, inn: string, company: Option<Id>, cluster: seq<License>, l: Ledger): Option<Ledger> {
    var next := l.(counts := l.counts.(contactsCreated := l.counts.contactsCreated + 1));
    if req.dryRun || company.None? then
      Some(next.(contactsByLicense := Assigned(l.contactsByLicense, inn, cluster, None)))
    else
      match StoreContact(req.text, l.db, l.db.nextId, NewContact(company.value, req.assignee, cluster))
      case None => None
      case Some(db) => Some(next.(
        db := db.(nextId := db.nextId + 1),
        contactsByLicense := Assigned(l.contactsByLicense, inn, cluster, Some(l.db.nextId))))
  }

  function ClusterMatches(db: Db, company: Option<Id>, cluster: seq<License>): set<Id> {
    if company.Some? then Matches(db, company.value, ClusterIdentities(cluster)) else {}
  }

  function ClusterStep(req: Request, inn: string, company: Option<Id>, cluster: seq<License>, l: Ledger): Option<Ledger> {
    var matches := ClusterMatches(l.db, company, cluster);
    if |matches| > 1 then
      Some(l.(companyErrors := l.companyErrors[inn := SeveralContacts]))
    else if |matches| == 1 then
      ReuseContact(req, inn, cluster, The(matches), l)
    else if inn !in l.companyErrors then
      CreateContact(req, inn, company, cluster, l)
    else
      Some(l.(contactsByLicense := Assigned(l.contactsByLicense, inn, cluster, None)))
  }

  function ClusterSteps(req: Request, inn: string, company: Option<Id>, clusters: seq<seq<License>>, j: nat, l: Ledger): Option<Ledger>
    requires j <= |clusters|
  {
    if j == 0 then Some(l)
    else
      match ClusterSteps(req, inn, company, clusters, j - 1, l)
      case None => None
      case Some(m) => ClusterStep(req, inn, company, clusters[j - 1], m)
  }

  // ----- phase 1: one INN -----

  const NAMELESS: string := "Клиент с ИНН "

  // The first of the longest names; none if no row has one.
  function LongestName(rows: seq<License>): string {
    if rows == [] then ""
    else
      var before, name := LongestName(rows[..|rows| - 1]), rows[|rows| - 1].customerName;
      if |name| > |before| then name else before
  }

  function FirstValue(values: seq<string>): Option<string> {
    if values == [] then None else if values[0] != "" then Some(values[0]) else FirstValue(values[1..])
  }

  function NewCompany(inn: string, rows: seq<License>): Company {
    var name := LongestName(rows);
    Company(if name != "" then name else NAMELESS + inn, inn, FirstValue(RawPhones(rows)), FirstValue(RawEmails(rows)), false)
  }

  // The company of the INN: the existing one, a new one, or (dry run) none yet.
  function ResolveCompany(req: Request, inn: string, rows: seq<License>, l: Ledger): (Option<Id>, Ledger)
    requires |CompaniesOf(l.db, inn)| <= 1
  {
    var companies := CompaniesOf(l.db, inn);
    if |companies| == 1 then
      (Some(The(companies)), l.(
        counts := l.counts.(companiesReused := l.counts.companiesReused + 1),
        companyByInn := l.companyByInn[inn := Some(The(companies))]))
    else if req.dryRun then
      (None, l.(
        counts := l.counts.(companiesCreated := l.counts.companiesCreated + 1),
        companyByInn := l.companyByInn[inn := None]))
    else
      var id := l.db.nextId;
      (Some(id), l.(
        db := l.db.(nextId := id + 1, companies := l.db.companies[id := NewCompany(inn, rows)]),
        counts := l.counts.(companiesCreated := l.counts.companiesCreated + 1),
        companyByInn := l.companyByInn[inn := Some(id)]))
  }

  function InnStep(req: Request, licenses: seq<License>, inn: string, l: Ledger): Option<Ledger> {
    if |CompaniesOf(l.db, inn)| > 1 then
      Some(l.(companyErrors := l.companyErrors[inn := SeveralCompanies],
              companyByInn := l.companyByInn[inn := None]))
    else if !req.dryRun && CompaniesOf(l.db, inn) == {} && !CompanyFits(NewCompany(inn, OfInn(licenses, inn))) then None
    else
      var (company, m) := ResolveCompany(req, inn, OfInn(licenses, inn), l);
      var clusters := Clusters.ContactClusters(OfInn(licenses, inn));
      ClusterSteps(req, inn, company, clusters, |clusters|,
        m.(contactCountByInn := m.contactCountByInn[inn := |clusters|]))
  }

  function InnSteps(req: Request, licenses: seq<License>, inns: seq<string>, j: nat, l: Ledger): Option<Ledger>
    requires j <= |inns|
  {
    if j == 0 then Some(l)
    else
      match InnSteps(req, licenses, inns, j - 1, l)
      case None => None
      case Some(m) => InnStep(req, licenses, inns[j - 1], m)
  }

  // ----- phase 2: one renewal group -----

  function CountDeal(counts: Counts, action: Action): Counts {
    match action
    case Create => counts.(dealsCreated := counts.dealsCreated + 1)
    case Update => counts.(dealsUpdated := counts.dealsUpdated + 1)
    case Skip => counts.(dealsSkipped := counts.dealsSkipped + 1)
    case Failed(_) => counts.(errors := counts.errors + 1)
  }

  function CountTask(counts: Counts, finalized: bool, known: bool): Counts {
    if known then counts.(tasksReused := counts.tasksReused + 1)
    else if finalized then counts.(tasksSkipped := counts.tasksSkipped + 1)
    else counts.(tasksCreated := counts.tasksCreated + 1)
  }

  function DealAction(db: Db, key: string): Action {
    var deal := MappedDeal(db, key);
    if deal.None? then Create
    else if FinalStage(db, db.deals[deal.value].stage) then Skip
    else Update
  }

  // _unique_contacts over the licences of a group
  function GroupContacts(m: map<(string, string, Date), Option<Id>>, inn: string, licenses: seq<License>): seq<Id> {
    if licenses == [] then []
    else
      var before := GroupContacts(m, inn, licenses[..|licenses| - 1]);
      var l := licenses[|licenses| - 1];
      var k := (inn, l.lid, l.expiresAt);
      if k in m && m[k].Some? && m[k].value !in before then before + [m[k].value] else before
  }

  function LinksOf(db: Db, deal: Id): seq<DealLinks.Link> {
    if deal in db.links then db.links[deal] else []
  }

  // Insert the deal or rewrite it; links and mapping follow.
  function StoreDeal(req: Request, g: Group, company: Id, source: Id, db: Db): (Db, Id) {
    var existing := MappedDeal(db, GroupKey(g));
    if existing.None? then
      (db.(nextId := db.nextId + 1,
           deals := db.deals[db.nextId := Deal(req.pipeline, req.stage, company, req.assignee, source,
                                               g.expiresAt, g.licenses, 1, false)]),
       db.nextId)
    else
      var d := db.deals[existing.value];
      (db.(deals := db.deals[existing.value := d.(company := company, assignee := req.assignee, source := source,
             nextPurchaseAt := g.expiresAt, licenses := g.licenses, version := d.version + 1)]),
       existing.value)
  }

  function Upserted(db: Db, entity: EntityType, key: string, internal: Id, fingerprint: seq<License>): Db {
    db.(mappings := db.mappings[(entity, key) := Mapping(internal, fingerprint)])
  }

  function MapLicenses(db: Db, licenses: seq<License>, deal: Id): Db {
    if licenses == [] then db
    else
      var l := licenses[|licenses| - 1];
      Upserted(MapLicenses(db, licenses[..|licenses| - 1], deal), LicenseEntity, ExternalId(l.lid, l.expiresAt), deal, [l])
  }

  function StoreTask(req: Request, g: Group, company: Id, deal: Id, contacts: seq<Id>, db: Db): Db {
    if MappedTask(db, GroupKey(g)).Some? then db
    else
      var contact := if contacts == [] then None else Some(contacts[0]);
      var id := db.nextId;
      Upserted(db.(nextId := id + 1, tasks := db.tasks[id := Task(req.callDueAt, req.assignee, deal, contact, company)]),
        RenewalCallEntity, GroupKey(g), id, g.licenses)
  }

  // The writes of one group that is neither failed nor finalized.
  function WriteGroup(req: Request, g: Group, company: Id, source: Id, contacts: seq<Id>, db: Db): Db {
    var (stored, deal) := StoreDeal(req, g, company, source, db);
    var linked := stored.(links := stored.links[deal := DealLinks.Added(LinksOf(stored, deal), contacts)]);
    var mapped := MapLicenses(Upserted(linked, RenewalGroupEntity, GroupKey(g), deal, g.licenses), g.licenses, deal);
    StoreTask(req, g, company, deal, contacts, mapped)
  }

  function ContactCount(l: Ledger, inn: string): nat {
    if inn in l.contactCountByInn then l.contactCountByInn[inn] else 0
  }

  function GroupStep(req: Request, g: Group, l: Ledger): Option<Ledger> {
    if g.inn in l.companyErrors then
      var action := Failed(l.companyErrors[g.inn]);
      Some(l.(counts := CountDeal(l.counts, action),
              results := l.results + [GroupResult(g, ContactCount(l, g.inn), action)]))
    else
      var action := DealAction(l.db, GroupKey(g));
      var known := MappedTask(l.db, GroupKey(g)).Some?;
      var next := l.(counts := CountTask(CountDeal(l.counts, action), action == Skip, known),
                     results := l.results + [GroupResult(g, ContactCount(l, g.inn), action)]);
      if req.dryRun || action == Skip then Some(next)
      else if g.inn !in l.companyByInn || l.companyByInn[g.inn].None? || l.db.source.None? then None
      else if !GroupFits(g) then None
      else
        Some(next.(db := WriteGroup(req, g, l.companyByInn[g.inn].value, l.db.source.value,
                                    GroupContacts(l.contactsByLicense, g.inn, g.licenses), l.db)))
  }

  function GroupSteps(req: Request, groups: seq<Group>, j: nat, l: Ledger): Option<Ledger>
    requires j <= |groups|
  {
    if j == 0 then Some(l)
    else
      match GroupSteps(req, groups, j - 1, l)
      case None => None
      case Some(m) => GroupStep(req, groups[j - 1], m)
  }

  // ----- the whole import -----

  function Opening(db: Db, parsed: Parsed, groups: seq<Group>): Ledger {
    Ledger(db,
      Counts(|parsed.licenses| + parsed.duplicateRows, |parsed.licenses|, parsed.duplicateRows, |groups|,
             0, 0, 0, 0, 0, 0, 0, 0, 0, 0, 0),
      map[], map[], map[], map[], [])
  }

  function EnsureSource(req: Request, l: Ledger): Ledger {
    if req.dryRun || l.db.source.Some? then l
    else l.(db := l.db.(nextId := l.db.nextId + 1, source := Some(l.db.nextId)))
  }

  function ImportFrom(req: Request, parsed: Parsed, groups: seq<Group>, db: Db): Option<Ledger> {
    var inns := Inns(parsed.licenses);
    match InnSteps(req, parsed.licenses, inns, |inns|, Opening(db, parsed, groups))
    case None => None
    case Some(l) => GroupSteps(req, groups, |groups|, EnsureSource(req, l))
  }

  function OutcomeOf(l: Ledger): Outcome {
    Outcome(l.counts, l.results)
  }
}
