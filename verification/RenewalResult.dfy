// What a real run of the subscription import leaves in the tables, from the
// spreadsheet rows to the last field.
module RenewalResult {
  import opened Prelude
  import opened Licenses
  import ContactPoints
  import opened RenewalImport
  import opened RenewalPlan
  import opened RenewalEffects
  import opened RenewalPhase1
  import opened RenewalPhase2
  import opened RenewalPreview
  import opened RenewalAssign
  import opened RenewalInns
  import opened RenewalWritten
  import RenewalGroups

  // ----- the contacts of a group -----

  // Contacts of the licences, each once, in the order of the licences.
  ghost predicate ContactsListed(e: Db, company: Id, licenses: seq<License>, contacts: seq<Id>) {
    && Distinct(contacts)
    && (forall l :: l in licenses ==> exists i :: 0 <= i < |contacts| && ContactOf(e, company, l, contacts[i]))
    && (forall i :: 0 <= i < |contacts| ==> FromLicense(e, company, licenses, contacts, i))
  }

  // Contact i is the one of a licence before which all licences have earlier ones.
  ghost predicate FromLicense(e: Db, company: Id, licenses: seq<License>, contacts: seq<Id>, i: int)
    requires 0 <= i < |contacts|
  {
    exists k :: 0 <= k < |licenses| && ContactOf(e, company, licenses[k], contacts[i]) && NamedBefore(e, company, licenses[..k], contacts[..i])
  }

  ghost predicate NamedBefore(e: Db, company: Id, licenses: seq<License>, contacts: seq<Id>) {
    forall l :: l in licenses ==> exists i :: 0 <= i < |contacts| && ContactOf(e, company, l, contacts[i])
  }

  lemma {:induction false} GroupContactsListed(m: Assignment, start: Db, e: Db, company: Id, inn: string, licenses: seq<License>)
    requires Found(m, start, e, company, inn, licenses)
    ensures ContactsListed(e, company, licenses, GroupContacts(m, inn, licenses))
    ensures forall c :: c in GroupContacts(m, inn, licenses) ==> Touched(start, e, c)
  {
    hide ContactOf, Touched, FromLicense, ContactsListed, FoundRow, GroupContacts;
    if licenses == [] {
      NoneListed(m, e, company, inn);
    } else {
      var n := |licenses| - 1;
      var front, last := licenses[..n], licenses[n];
      assert licenses == front + [last];
      GroupContactsListed(m, start, e, company, inn, front);
      assert FoundRow(m, start, e, company, inn, last);
      var c := NextContact(m, start, e, company, inn, licenses);
      OneMoreListed(e, company, front, last, c, GroupContacts(m, inn, front), GroupContacts(m, inn, licenses));
    }
  }

  lemma NoneListed(m: Assignment, e: Db, company: Id, inn: string)
    ensures GroupContacts(m, inn, []) == [] && ContactsListed(e, company, [], [])
  {
  }

  lemma NextContact(m: Assignment, start: Db, e: Db, company: Id, inn: string, licenses: seq<License>) returns (c: Id)
    requires licenses != [] && FoundRow(m, start, e, company, inn, licenses[|licenses| - 1])
    ensures ContactOf(e, company, licenses[|licenses| - 1], c) && Touched(start, e, c)
    ensures var before := GroupContacts(m, inn, licenses[..|licenses| - 1]);
      GroupContacts(m, inn, licenses) == if c in before then before else before + [c]
  {
    hide ContactOf, Touched;
    var last := licenses[|licenses| - 1];
    c := m[(inn, last.lid, last.expiresAt)].value;
  }

  lemma OneMoreListed(e: Db, company: Id, front: seq<License>, last: License, c: Id, before: seq<Id>, contacts: seq<Id>)
    requires ContactsListed(e, company, front, before) && ContactOf(e, company, last, c)
    requires contacts == if c in before then before else before + [c]
    ensures ContactsListed(e, company, front + [last], contacts)
  {
    hide ContactOf, FromLicense;
    assert c in contacts;
    forall l | l in front + [last] ensures exists i :: 0 <= i < |contacts| && ContactOf(e, company, l, contacts[i]) {
      if l in front {
        var i :| 0 <= i < |before| && ContactOf(e, company, l, before[i]);
        assert contacts[i] == before[i];
      } else {
        var i :| 0 <= i < |contacts| && contacts[i] == c;
      }
    }
    forall i | 0 <= i < |before| ensures FromLicense(e, company, front + [last], contacts, i) {
      StillListed(e, company, front, last, before, contacts, i);
    }
    if c !in before {
      LastListed(e, company, front, last, c, before);
    }
  }

  lemma StillListed(e: Db, company: Id, front: seq<License>, last: License, before: seq<Id>, contacts: seq<Id>, i: nat)
    requires i < |before| && before <= contacts && FromLicense(e, company, front, before, i)
    ensures FromLicense(e, company, front + [last], contacts, i)
  {
    hide ContactOf, NamedBefore;
    var k :| 0 <= k < |front| && ContactOf(e, company, front[k], before[i]) && NamedBefore(e, company, front[..k], before[..i]);
    var licenses := front + [last];
    assert licenses[..k] == front[..k] && contacts[..i] == before[..i] && licenses[k] == front[k];
  }

  lemma LastListed(e: Db, company: Id, front: seq<License>, last: License, c: Id, before: seq<Id>)
    requires ContactsListed(e, company, front, before) && ContactOf(e, company, last, c)
    ensures FromLicense(e, company, front + [last], before + [c], |before|)
  {
    hide ContactOf;
    var licenses, contacts := front + [last], before + [c];
    assert licenses[..|front|] == front && contacts[..|before|] == before && licenses[|front|] == last;
  }

  // ----- the whole run -----

  // A group that was written: its company, the contacts of its licences, its
  // deal with its links and mappings, and its call.
  ghost predicate Renewed(req: Request, rows: seq<License>, g: Group, d: Db, e: Db) {
    e.source.Some? && exists company, contacts ::
      && CompanyIs(d, e, g.inn, rows, company)
      && ContactsListed(e, company, g.licenses, contacts) && (forall c :: c in contacts ==> Touched(d, e, c))
      && GroupWritten(req, g, company, e.source.value, contacts, d, e)
  }

  ghost predicate RunWritten(req: Request, parsed: Parsed, d: Db, m: Ledger) {
    var groups := RenewalGroups.RenewalGroups(parsed.licenses);
    && (forall i :: 0 <= i < |groups| && Writes(m.companyErrors, d, groups[i]) ==>
          Renewed(req, OfInn(parsed.licenses, groups[i].inn), groups[i], d, m.db))
    && RestStays(groups, |groups|, m.companyErrors, d, m.db)
    && Kept(req.assignee, d, m.db) && CompaniesStay(d, m.db)
    && m.db.source.Some? && (d.source.Some? ==> m.db.source == d.source) && m.db.openStages == d.openStages
    && DealsApart(m.db)
  }

  lemma RunWrites(req: Request, parsed: Parsed, db: Db)
    requires !req.dryRun && ContactPoints.Lawful(req.text)
    requires ValidRows(req.text, parsed.licenses) && OneRowPerKey(parsed.licenses)
    requires WellFormed(req.text, db) && DealsApart(db)
    requires Import(req, parsed, db).Some?
    ensures RunEffect(req, parsed, db, Import(req, parsed, db).value) && RunWritten(req, parsed, db, Import(req, parsed, db).value)
  {
    hide WellFormed, BlockedInns, AfterInn, GroupAfter, InnSteps, GroupSteps, RowsBalance, RunEffect, RunWritten, InnsDbEffect, InnsLedgerEffect;
    hide ValidRows, OneRowPerKey, DealsApart, ContactPoints.Lawful, InnsDone, GroupsDone, EnsureSource, Resolved, RowsApart, KeysDiffer, Distinct, OfInn;
    hide RenewalGroups.RenewalGroups, Inns, Blocked;
    RealRun(req, parsed, db);
    var groups, inns := RenewalGroups.RenewalGroups(parsed.licenses), Inns(parsed.licenses);
    var start := Opening(db, parsed, groups);
    RenewalGroups.InnsFacts(parsed.licenses);
    InnsHaveRows(parsed.licenses);
    RealInns(req, parsed.licenses, inns, |inns|, start);
    InnsAssign(req, parsed.licenses, inns, |inns|, start);
    var l := InnSteps(req, parsed.licenses, inns, |inns|, start).value;
    var s := EnsureSource(req, l);
    ReadyForGroups(req, parsed, db, l);
    GroupsKeyed(parsed.licenses);
    GroupRowsApart(parsed.licenses);
    GroupsWrite(req, groups, |groups|, s);
    RealGroups(req, groups, |groups|, s);
    Finish(req, parsed, db, l, s, GroupSteps(req, groups, |groups|, s).value);
  }

  lemma InnsHaveRows(licenses: seq<License>)
    ensures forall i :: 0 <= i < |Inns(licenses)| ==> OfInn(licenses, Inns(licenses)[i]) != []
  {
  }

  lemma ReadyForGroups(req: Request, parsed: Parsed, db: Db, l: Ledger)
    requires !req.dryRun
    requires var groups, inns := RenewalGroups.RenewalGroups(parsed.licenses), Inns(parsed.licenses);
      && InnsDbEffect(req.text, parsed.licenses, inns, |inns|, db, l.db)
      && InnsLedgerEffect(parsed.licenses, inns, |inns|, Opening(db, parsed, groups), l)
    requires DealsApart(db)
    ensures var s := EnsureSource(req, l);
      && WellFormed(req.text, s.db) && DealsApart(s.db)
      && forall g :: g in RenewalGroups.RenewalGroups(parsed.licenses) ==> Resolved(s, g)
  {
    hide WellFormed, SameView, ViewInn, BlockedInns, AfterInn, RowsBalance, RenewalGroups.RenewalGroups, Inns, PlanInns;
    SourceEffect(req, parsed.licenses, l);
    AllResolved(req, parsed, l);
    SameLookup(db, EnsureSource(req, l).db);
  }

  lemma SameLookup(d: Db, e: Db)
    requires e.deals == d.deals && e.mappings == d.mappings && DealsApart(d)
    ensures DealsApart(e)
  {
    assert forall key :: MappedDeal(e, key) == MappedDeal(d, key);
  }

  lemma GroupRowsApart(licenses: seq<License>)
    requires OneRowPerKey(licenses)
    ensures RowsApart(RenewalGroups.RenewalGroups(licenses))
  {
    hide RenewalGroups.RenewalGroups, ExternalId;
    var groups := RenewalGroups.RenewalGroups(licenses);
    forall g, h, a: License, b: License | g in groups && h in groups && a in g.licenses && b in h.licenses && a.lid == b.lid && a.expiresAt == b.expiresAt
      ensures GroupKey(g) == GroupKey(h) && a == b
    {
      GroupOfRow(licenses, g, a);
      GroupOfRow(licenses, h, b);
    }
  }

  lemma GroupOfRow(licenses: seq<License>, g: Group, l: License)
    requires g in RenewalGroups.RenewalGroups(licenses) && l in g.licenses
    ensures l in licenses && l.inn == g.inn && l.expiresAt == g.expiresAt
  {
    hide RenewalGroups.RenewalGroups;
    RenewalGroups.RenewalGroupsFacts(licenses);
    RenewalGroups.GroupInn(licenses, g);
    assert RenewalGroups.Homogeneous(g);
  }

  lemma Finish(req: Request, parsed: Parsed, db: Db, l: Ledger, s: Ledger, m: Ledger)
    requires !req.dryRun && s == EnsureSource(req, l)
    requires var groups, inns := RenewalGroups.RenewalGroups(parsed.licenses), Inns(parsed.licenses);
      && InnsDbEffect(req.text, parsed.licenses, inns, |inns|, db, l.db)
      && InnsDone(req.assignee, db, l, parsed.licenses, inns, |inns|)
      && GroupsDone(req, groups, |groups|, s, m)
      && GroupsDbEffect(req.text, groups, s.companyErrors, FinalStage(s.db, req.stage), |groups|, s.db, m.db)
    ensures RunWritten(req, parsed, db, m)
  {
    hide InnsDbEffect, InnsDone, GroupsDbEffect, RenewalGroups.RenewalGroups, Inns, OfInn, EnsureSource, AllWritten;
    hide Kept, CompaniesStay, RestStays, DealsApart, LookupsWait, Writes, Renewed, SameStart, SameBusiness;
    var groups, inns := RenewalGroups.RenewalGroups(parsed.licenses), Inns(parsed.licenses);
    BusinessOf(req.text, parsed.licenses, inns, db, l.db);
    StartsSame(req, db, l);
    StagesOf(db, s.db);
    FrameOf(req, groups, s, m.db);
    TablesKept(req.assignee, db, l, parsed.licenses, inns, m.db);
    SameRest(groups, |groups|, m.companyErrors, db, s.db, m.db);
    forall i | 0 <= i < |groups| && Writes(m.companyErrors, db, groups[i])
      ensures Renewed(req, OfInn(parsed.licenses, groups[i].inn), groups[i], db, m.db)
    {
      FinishOne(req, parsed, db, l, s, m, i);
    }
  }

  lemma StartsSame(req: Request, db: Db, l: Ledger)
    requires !req.dryRun && SameBusiness(db, l.db)
    ensures var s := EnsureSource(req, l);
      && SameStart(db, s.db) && s.db.source.Some? && (db.source.Some? ==> s.db.source == db.source)
      && s.contactsByLicense == l.contactsByLicense && s.companyByInn == l.companyByInn && s.companyErrors == l.companyErrors
      && s.db.contacts == l.db.contacts && s.db.points == l.db.points && s.db.companies == l.db.companies
  {
    SourceOnly(req, l);
    hide EnsureSource;
  }

  lemma SourceOnly(req: Request, l: Ledger)
    requires !req.dryRun
    ensures var s := EnsureSource(req, l);
      && s == l.(db := s.db) && s.db == l.db.(nextId := s.db.nextId, source := s.db.source)
      && s.db.source.Some? && (l.db.source.Some? ==> s.db.source == l.db.source)
  {
  }

  lemma StagesOf(d: Db, s: Db)
    requires SameStart(d, s)
    ensures s.openStages == d.openStages
  {
  }

  lemma BusinessOf(t: ContactPoints.Text, licenses: seq<License>, inns: seq<string>, d: Db, e: Db)
    requires InnsDbEffect(t, licenses, inns, |inns|, d, e)
    ensures SameBusiness(d, e)
  {
    hide WellFormed, SameView, ViewInn, BlockedInns, AfterInn, SameBusiness;
  }

  lemma FrameOf(req: Request, groups: seq<Group>, s: Ledger, e: Db)
    requires GroupsDbEffect(req.text, groups, s.companyErrors, FinalStage(s.db, req.stage), |groups|, s.db, e)
    ensures e.contacts == s.db.contacts && e.points == s.db.points && e.companies == s.db.companies
    ensures e.source == s.db.source && e.openStages == s.db.openStages
  {
    hide WellFormed, ViewGroup, GroupAfter;
  }

  lemma TablesKept(assignee: Id, d: Db, l: Ledger, licenses: seq<License>, inns: seq<string>, e: Db)
    requires InnsDone(assignee, d, l, licenses, inns, |inns|) && e.contacts == l.db.contacts && e.companies == l.db.companies
    ensures Kept(assignee, d, e) && CompaniesStay(d, e)
  {
    hide InnDone;
    SameTablesKept(assignee, d, l.db, e);
  }

  lemma FinishOne(req: Request, parsed: Parsed, db: Db, l: Ledger, s: Ledger, m: Ledger, i: nat)
    requires var groups, inns := RenewalGroups.RenewalGroups(parsed.licenses), Inns(parsed.licenses);
      && InnsDone(req.assignee, db, l, parsed.licenses, inns, |inns|)
      && i < |groups| && AllWritten(req, groups, |groups|, s, m.db) && Writes(s.companyErrors, db, groups[i])
    requires SameStart(db, s.db) && s.companyErrors == l.companyErrors
    requires s.contactsByLicense == l.contactsByLicense && s.companyByInn == l.companyByInn && s.db.source.Some? && m.db.source == s.db.source
    requires m.db.contacts == l.db.contacts && m.db.points == l.db.points && m.db.companies == l.db.companies
    ensures Renewed(req, OfInn(parsed.licenses, RenewalGroups.RenewalGroups(parsed.licenses)[i].inn), RenewalGroups.RenewalGroups(parsed.licenses)[i], db, m.db)
  {
    hide RenewalGroups.RenewalGroups, Inns, OfInn, Kept, CompaniesStay, Writes, Renewed, InnDone, GroupWritten, GroupContacts, SameStart;
    var g := RenewalGroups.RenewalGroups(parsed.licenses)[i];
    SameWrites(s.companyErrors, db, s.db, g);
    RenewalGroups.GroupInn(parsed.licenses, g);
    NotFailed(s.companyErrors, db, g);
    FinishGroup(req, parsed, g, db, l, s, m.db);
  }

  lemma NotFailed(errors: map<string, ImportError>, d: Db, g: Group)
    requires Writes(errors, d, g)
    ensures g.inn !in errors
  {
    hide DealAction;
  }

  lemma SameTablesKept(assignee: Id, d: Db, e: Db, f: Db)
    requires Kept(assignee, d, e) && CompaniesStay(d, e) && f.contacts == e.contacts && f.companies == e.companies
    ensures Kept(assignee, d, f) && CompaniesStay(d, f)
  {
  }

  // What phase 2 starts from, as far as deals and calls go, is the initial database.
  ghost predicate SameStart(d: Db, s: Db) {
    s.deals == d.deals && s.tasks == d.tasks && s.links == d.links && s.mappings == d.mappings && s.openStages == d.openStages
  }

  lemma SameWrites(errors: map<string, ImportError>, d: Db, s: Db, g: Group)
    requires SameStart(d, s)
    ensures Writes(errors, s, g) <==> Writes(errors, d, g)
  {
    hide GroupKey;
  }

  lemma SameRest(groups: seq<Group>, j: nat, errors: map<string, ImportError>, d: Db, s: Db, e: Db)
    requires j <= |groups| && SameStart(d, s) && RestStays(groups, j, errors, s, e)
    ensures RestStays(groups, j, errors, d, e)
  {
    hide OwnsDeal, OwnsCall, OwnsEntry;
    SameOwners(groups, j, errors, d, s, e);
    forall k | !OwnsEntry(groups, j, errors, d, k) ensures SameEntry(d, e, k) {
      assert SameEntry(s, e, k);
    }
  }

  lemma SameOwners(groups: seq<Group>, j: nat, errors: map<string, ImportError>, d: Db, s: Db, e: Db)
    requires j <= |groups| && SameStart(d, s)
    ensures forall x: Id :: OwnsDeal(groups, j, errors, s, e, x) <==> OwnsDeal(groups, j, errors, d, e, x)
    ensures forall x: Id :: OwnsCall(groups, j, errors, s, e, x) <==> OwnsCall(groups, j, errors, d, e, x)
    ensures forall k :: OwnsEntry(groups, j, errors, s, k) <==> OwnsEntry(groups, j, errors, d, k)
  {
    hide Writes, GroupKey, MappedDeal, MappedTask, OfGroup, SameStart;
    forall i | 0 <= i < j ensures Writes(errors, s, groups[i]) <==> Writes(errors, d, groups[i]) {
      SameWrites(errors, d, s, groups[i]);
    }
  }

  lemma FinishGroup(req: Request, parsed: Parsed, g: Group, db: Db, l: Ledger, s: Ledger, e: Db)
    requires g in RenewalGroups.RenewalGroups(parsed.licenses) && InnDone(db, l, parsed.licenses, g.inn) && SameStart(db, s.db)
    requires s.contactsByLicense == l.contactsByLicense && s.companyByInn == l.companyByInn && s.db.source.Some? && e.source == s.db.source
    requires e.contacts == l.db.contacts && e.points == l.db.points && e.companies == l.db.companies
    requires g.inn in s.companyByInn && s.companyByInn[g.inn].Some?
    requires GroupWritten(req, g, s.companyByInn[g.inn].value, s.db.source.value, GroupContacts(s.contactsByLicense, g.inn, g.licenses), s.db, e)
    ensures Renewed(req, OfInn(parsed.licenses, g.inn), g, db, e)
  {
    hide RenewalGroups.RenewalGroups, OfInn, GroupContacts, GroupWritten, Found, ContactsListed, Touched, CompanyIs, SameStart;
    var company, contacts := s.companyByInn[g.inn].value, GroupContacts(s.contactsByLicense, g.inn, g.licenses);
    SameCompany(db, l.db, e, g.inn, OfInn(parsed.licenses, g.inn), company);
    FoundInGroup(parsed.licenses, g, l.contactsByLicense, db, l.db, e, company);
    GroupContactsListed(l.contactsByLicense, db, e, company, g.inn, g.licenses);
    SameWritten(req, g, company, s.db.source.value, contacts, db, s.db, e);
  }

  lemma SameCompany(d: Db, e: Db, f: Db, inn: string, rows: seq<License>, company: Id)
    requires CompanyIs(d, e, inn, rows, company) && f.companies == e.companies
    ensures CompanyIs(d, f, inn, rows, company)
  {
    hide MadeFrom;
  }

  lemma FoundInGroup(licenses: seq<License>, g: Group, m: Assignment, start: Db, d: Db, e: Db, company: Id)
    requires g in RenewalGroups.RenewalGroups(licenses) && Found(m, start, d, company, g.inn, OfInn(licenses, g.inn))
    requires e.contacts == d.contacts && e.points == d.points
    ensures Found(m, start, e, company, g.inn, g.licenses)
  {
    hide RenewalGroups.RenewalGroups, Reaches;
    RenewalGroups.OfInnFacts(licenses, g.inn);
    forall l | l in g.licenses ensures FoundRow(m, start, e, company, g.inn, l) {
      GroupOfRow(licenses, g, l);
      assert FoundRow(m, start, d, company, g.inn, l);
      forall x: Id { SameReaches(d, e, company, l, x); }
    }
  }

  lemma SameReaches(d: Db, e: Db, company: Id, l: License, c: Id)
    requires e.contacts == d.contacts && e.points == d.points
    ensures Reaches(e, company, l, c) <==> Reaches(d, company, l, c)
  {
  }

  lemma SameWritten(req: Request, g: Group, company: Id, source: Id, contacts: seq<Id>, d: Db, s: Db, e: Db)
    requires SameStart(d, s) && GroupWritten(req, g, company, source, contacts, s, e)
    ensures GroupWritten(req, g, company, source, contacts, d, e)
  {
    hide GroupKey, LinksAppended, LicensesMapped;
  }
}
