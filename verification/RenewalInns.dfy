// Phase 1 over all INNs: every INN without an error ends up with one company,
// and every one of its rows with one contact of that company.
module RenewalInns {
  import opened Prelude
  import opened Licenses
  import Clusters
  import ContactPoints
  import opened RenewalImport
  import opened RenewalPlan
  import opened RenewalEffects
  import opened RenewalPhase1
  import opened RenewalAssign
  import RenewalGroups

  // ----- the company of an INN -----

  // Row i is the first one whose name is as long as any.
  predicate LongestAt(rows: seq<License>, i: nat) {
    && i < |rows|
    && (forall j :: 0 <= j < |rows| ==> |rows[j].customerName| <= |rows[i].customerName|)
    && (forall j :: 0 <= j < i ==> |rows[j].customerName| < |rows[i].customerName|)
  }

  ghost predicate FirstOf(values: seq<string>, value: Option<string>) {
    if forall v :: v in values ==> v == "" then value == None
    else exists i :: 0 <= i < |values| && values[i] != "" && (forall j :: 0 <= j < i ==> values[j] == "") && value == Some(values[i])
  }

  // A new company has the first of the longest names of its rows, or a name made
  // from the INN, and the first phone and the first email there are.
  ghost predicate MadeFrom(c: Company, inn: string, rows: seq<License>) {
    && c.inn == inn && !c.deleted
    && (exists i: nat :: LongestAt(rows, i) && c.name == if rows[i].customerName != "" then rows[i].customerName else "Клиент с ИНН " + inn)
    && FirstOf(RawPhones(rows), c.phone) && FirstOf(RawEmails(rows), c.email)
  }

  lemma {:induction false} LongestNameAt(rows: seq<License>)
    requires rows != []
    ensures exists i: nat :: LongestAt(rows, i) && rows[i].customerName == LongestName(rows)
  {
    var front, last := rows[..|rows| - 1], rows[|rows| - 1];
    if front == [] {
      assert rows == [last] && LongestName(front) == "";
      assert |last.customerName| == 0 ==> last.customerName == "";
      assert LongestAt(rows, 0);
    } else {
      LongestNameAt(front);
      var i: nat :| LongestAt(front, i) && front[i].customerName == LongestName(front);
      assert forall j :: 0 <= j < |front| ==> rows[j] == front[j];
      if |last.customerName| > |front[i].customerName| {
        assert LongestAt(rows, |rows| - 1);
      } else {
        assert LongestAt(rows, i);
      }
    }
  }

  lemma {:induction false} FirstValueIs(values: seq<string>)
    ensures FirstOf(values, FirstValue(values))
  {
    if values != [] {
      if values[0] != "" {
        assert values[0] in values;
      } else {
        FirstValueIs(values[1..]);
        if forall v :: v in values[1..] ==> v == "" {
          assert forall v :: v in values ==> v == values[0] || v in values[1..];
        } else {
          var v :| v in values[1..] && v != "";
          assert v in values;
          var i :| 0 <= i < |values[1..]| && values[1..][i] != "" && (forall j :: 0 <= j < i ==> values[1..][j] == "") && FirstValue(values[1..]) == Some(values[1..][i]);
          assert values[i + 1] == values[1..][i] && forall j :: 0 < j < i + 1 ==> values[j] == values[1..][j - 1];
        }
      }
    }
  }

  lemma NewCompanyMade(inn: string, rows: seq<License>)
    requires rows != []
    ensures MadeFrom(NewCompany(inn, rows), inn, rows)
  {
    hide LongestName, FirstValue, FirstOf;
    LongestNameAt(rows);
    FirstValueIs(RawPhones(rows));
    FirstValueIs(RawEmails(rows));
  }

  // ----- one INN -----

  ghost predicate CompaniesStay(d: Db, e: Db) {
    forall c :: c in d.companies ==> c in e.companies && e.companies[c] == d.companies[c]
  }

  // The company of the INN is the only live one; it was there, or is made from
  // the rows.
  ghost predicate CompanyIs(d: Db, e: Db, inn: string, rows: seq<License>, company: Id) {
    && company in e.companies && !e.companies[company].deleted && e.companies[company].inn == inn
    && (forall c :: c in e.companies && !e.companies[c].deleted && e.companies[c].inn == inn ==> c == company)
    && (company in d.companies || MadeFrom(e.companies[company], inn, rows))
  }

  // What is known of an INN once it was processed without an error.
  ghost predicate InnDone(d: Db, m: Ledger, licenses: seq<License>, inn: string) {
    && inn in m.companyByInn && m.companyByInn[inn].Some?
    && CompanyIs(d, m.db, inn, OfInn(licenses, inn), m.companyByInn[inn].value)
    && Found(m.contactsByLicense, d, m.db, m.companyByInn[inn].value, inn, OfInn(licenses, inn))
  }

  // The keys of other INNs keep their contacts.
  ghost predicate OtherKeysStay(inn: string, m: Assignment, n: Assignment) {
    forall k: (string, string, Date) :: k.0 != inn ==> (k in n <==> k in m) && (k in m ==> n[k] == m[k])
  }

  lemma {:induction false} StepsKeepKeys(req: Request, inn: string, company: Option<Id>, clusters: seq<seq<License>>, j: nat, l: Ledger)
    requires j <= |clusters| && ClusterSteps(req, inn, company, clusters, j, l).Some?
    ensures OtherKeysStay(inn, l.contactsByLicense, ClusterSteps(req, inn, company, clusters, j, l).value.contactsByLicense)
  {
    hide ClusterStep;
    if j > 0 {
      StepsKeepKeys(req, inn, company, clusters, j - 1, l);
      StepKeepsKeys(req, inn, company, clusters[j - 1], ClusterSteps(req, inn, company, clusters, j - 1, l).value);
    }
  }

  lemma StepKeepsKeys(req: Request, inn: string, company: Option<Id>, cluster: seq<License>, l: Ledger)
    requires ClusterStep(req, inn, company, cluster, l).Some?
    ensures OtherKeysStay(inn, l.contactsByLicense, ClusterStep(req, inn, company, cluster, l).value.contactsByLicense)
  {
    hide Assigned, StoreContact, MergedContact, NewContact, ClusterIdentities, Matches;
    forall contact ensures OtherKeysStay(inn, l.contactsByLicense, Assigned(l.contactsByLicense, inn, cluster, contact)) {
      AssignedFacts(l.contactsByLicense, inn, cluster, contact);
    }
  }

  // Rows of different clusters have different keys.
  lemma ClustersKeyed(t: ContactPoints.Text, licenses: seq<License>, inn: string)
    requires ValidRows(t, licenses) && OneRowPerKey(licenses)
    ensures KeysApart(Clusters.ContactClusters(OfInn(licenses, inn)))
  {
    var rows := OfInn(licenses, inn);
    var clusters := Clusters.ContactClusters(rows);
    RenewalGroups.OfInnFacts(licenses, inn);
    forall i, k, a: License, b: License | 0 <= i < |clusters| && 0 <= k < |clusters| && i != k && a in clusters[i] && b in clusters[k]
      ensures (a.lid, a.expiresAt) != (b.lid, b.expiresAt)
    {
      Clusters.ShapeOf(rows, clusters[i]);
      Clusters.ShapeOf(rows, clusters[k]);
      assert ValidRow(t, a);
      if a == b {
        Clusters.ClusterCounts(rows, i, a);
      }
    }
  }

  lemma RowsClustered(licenses: seq<License>, l: License)
    requires l in licenses
    ensures exists k :: 0 <= k < |Clusters.ContactClusters(licenses)| && l in Clusters.ContactClusters(licenses)[k]
  {
    var clusters := Clusters.ContactClusters(licenses);
    Clusters.ClusterInvariant(licenses);
    assert l in multiset(Flatten(clusters));
    FlattenMembers(clusters, l);
  }

  lemma InnAssigns(req: Request, licenses: seq<License>, inn: string, l: Ledger, start: Db)
    requires !req.dryRun && ContactPoints.Lawful(req.text) && ValidRows(req.text, licenses) && OneRowPerKey(licenses)
    requires WellFormed(req.text, l.db) && inn !in l.companyErrors && Kept(req.assignee, start, l.db)
    requires CompaniesStay(start, l.db) && CompaniesOf(start, inn) == CompaniesOf(l.db, inn) && OfInn(licenses, inn) != []
    requires InnStep(req, licenses, inn, l).Some?
    ensures var m := InnStep(req, licenses, inn, l).value;
      && Kept(req.assignee, start, m.db) && Kept(req.assignee, l.db, m.db) && CompaniesStay(start, m.db) && CompaniesStay(l.db, m.db)
      && OtherKeysStay(inn, l.contactsByLicense, m.contactsByLicense)
      && (inn !in m.companyErrors ==> InnDone(start, m, licenses, inn))
  {
    hide WellFormed, ResolveCompany, CompanyReady, ClusterSteps, CompanyFits, NewCompany, Kept, CompaniesStay, OtherKeysStay, InnDone, OneRowPerKey;
    hide GoodClusters, ContactPoints.Lawful, KeysApart, CompaniesOf, Progress, NoneMany, ValidRows, CompanyIs, Found;
    KeptSelf(req.assignee, l.db);
    KeysSelf(inn, l.contactsByLicense);
    CompaniesSelf(l.db);
    if |CompaniesOf(l.db, inn)| <= 1 {
      var rows := OfInn(licenses, inn);
      var clusters := Clusters.ContactClusters(rows);
      RowsValid(req.text, licenses, inn);
      ContactClustersGood(req.text, rows);
      ClustersKeyed(req.text, licenses, inn);
      ResolveReady(req, inn, rows, l);
      var (company, m) := ResolveCompany(req, inn, rows, l);
      ReadyFacts(req.text, inn, l.db, m.db, company.value);
      Resolves(req, inn, rows, l, start);
      var s := m.(contactCountByInn := m.contactCountByInn[inn := |clusters|]);
      SameContacts(req.assignee, start, l.db, s.db);
      SameContacts(req.assignee, l.db, l.db, s.db);
      RealClusters(req, inn, company.value, clusters, |clusters|, s);
      ClustersAssign(req, inn, company.value, clusters, |clusters|, s, start);
      ClustersAssign(req, inn, company.value, clusters, |clusters|, s, l.db);
      StepsKeepKeys(req, inn, company, clusters, |clusters|, s);
      var n := ClusterSteps(req, inn, company, clusters, |clusters|, s).value;
      StayThrough(req.text, inn, company.value, clusters, start, s, n);
      StayThrough(req.text, inn, company.value, clusters, l.db, s, n);
      if inn !in n.companyErrors {
        NoneManyLeft(req.text, inn, company.value, clusters, s, n);
        Completed(licenses, inn, company.value, start, s, n);
      }
    }
  }

  lemma KeptSelf(assignee: Id, d: Db)
    ensures Kept(assignee, d, d)
  {
  }

  lemma KeysSelf(inn: string, m: Assignment)
    ensures OtherKeysStay(inn, m, m)
  {
  }

  lemma CompaniesSelf(d: Db)
    ensures CompaniesStay(d, d)
  {
  }

  lemma SameContacts(assignee: Id, start: Db, d: Db, e: Db)
    requires Kept(assignee, start, d) && e.contacts == d.contacts
    ensures Kept(assignee, start, e)
  {
  }

  lemma RowsValid(t: ContactPoints.Text, licenses: seq<License>, inn: string)
    requires ValidRows(t, licenses)
    ensures ValidRows(t, OfInn(licenses, inn))
  {
    hide ValidRow;
    RenewalGroups.OfInnFacts(licenses, inn);
  }

  lemma Resolves(req: Request, inn: string, rows: seq<License>, l: Ledger, start: Db)
    requires !req.dryRun && WellFormed(req.text, l.db) && |CompaniesOf(l.db, inn)| <= 1 && rows != []
    requires CompaniesStay(start, l.db) && CompaniesOf(start, inn) == CompaniesOf(l.db, inn)
    ensures var (company, m) := ResolveCompany(req, inn, rows, l);
      && company.Some? && m.companyByInn == l.companyByInn[inn := company] && m.companyErrors == l.companyErrors
      && m.contactsByLicense == l.contactsByLicense && m.db.contacts == l.db.contacts && CompaniesStay(start, m.db) && CompaniesStay(l.db, m.db)
      && CompanyIs(start, m.db, inn, rows, company.value)
  {
    hide NewCompany, MadeFrom;
    NewCompanyMade(inn, rows);
    NamedAfter(inn, rows);
    assert l.db.nextId !in l.db.companies;
    assert forall c :: c in l.db.companies && !l.db.companies[c].deleted && l.db.companies[c].inn == inn ==> c in CompaniesOf(l.db, inn);
    if |CompaniesOf(l.db, inn)| == 1 {
      SoleElement(CompaniesOf(l.db, inn));
      assert The(CompaniesOf(l.db, inn)) in CompaniesOf(start, inn);
    } else {
      assert CompaniesOf(l.db, inn) == {};
    }
  }

  lemma NamedAfter(inn: string, rows: seq<License>)
    ensures NewCompany(inn, rows).inn == inn && !NewCompany(inn, rows).deleted
  {
  }

  lemma StayThrough(t: ContactPoints.Text, inn: string, company: Id, clusters: seq<seq<License>>, start: Db, s: Ledger, n: Ledger)
    requires Progress(t, inn, company, clusters, |clusters|, s, n) && CompaniesStay(start, s.db)
    ensures n.db.companies == s.db.companies && CompaniesStay(start, n.db) && n.companyByInn == s.companyByInn
  {
    hide WellFormed, Matches, ClusterIdentities, PlanClusters, RowsBalance, Settled, AllGathered, Outside;
  }

  lemma NoneManyLeft(t: ContactPoints.Text, inn: string, company: Id, clusters: seq<seq<License>>, s: Ledger, n: Ledger)
    requires Progress(t, inn, company, clusters, |clusters|, s, n) && inn !in n.companyErrors
    ensures NoneMany(s.db, company, clusters, |clusters|)
  {
    hide WellFormed, Matches, ClusterIdentities, PlanClusters, RowsBalance, ProgressDb;
    var views := ClusterViews(s.db, Some(company), clusters);
    assert forall k :: 0 <= k < |clusters| ==> views[k] == Size(ClusterMatches(s.db, Some(company), clusters[k]));
  }

  lemma Completed(licenses: seq<License>, inn: string, company: Id, start: Db, s: Ledger, n: Ledger)
    requires inn in s.companyByInn && s.companyByInn[inn] == Some(company) && n.companyByInn == s.companyByInn
    requires CompanyIs(start, s.db, inn, OfInn(licenses, inn), company) && n.db.companies == s.db.companies
    requires var clusters := Clusters.ContactClusters(OfInn(licenses, inn));
      forall k :: 0 <= k < |clusters| ==> Found(n.contactsByLicense, start, n.db, company, inn, clusters[k])
    ensures InnDone(start, n, licenses, inn)
  {
    hide FoundRow, MadeFrom;
    var rows := OfInn(licenses, inn);
    forall l | l in rows ensures FoundRow(n.contactsByLicense, start, n.db, company, inn, l) {
      RowsClustered(rows, l);
    }
  }

  // ----- all INNs -----

  // After j INNs: contacts and companies only grew as far as a run may change
  // them, and every processed INN without an error is done.
  ghost predicate InnsDone(assignee: Id, d: Db, m: Ledger, licenses: seq<License>, inns: seq<string>, j: nat)
    requires j <= |inns|
  {
    && Kept(assignee, d, m.db) && CompaniesStay(d, m.db)
    && forall i :: 0 <= i < j && inns[i] !in m.companyErrors ==> InnDone(d, m, licenses, inns[i])
  }

  lemma {:induction false} InnsAssign(req: Request, licenses: seq<License>, inns: seq<string>, j: nat, l: Ledger)
    requires !req.dryRun && ContactPoints.Lawful(req.text) && ValidRows(req.text, licenses) && OneRowPerKey(licenses)
    requires WellFormed(req.text, l.db) && j <= |inns| && Distinct(inns)
    requires forall i :: 0 <= i < |inns| ==> inns[i] !in l.companyErrors && OfInn(licenses, inns[i]) != []
    requires InnSteps(req, licenses, inns, j, l).Some?
    ensures InnsDone(req.assignee, l.db, InnSteps(req, licenses, inns, j, l).value, licenses, inns, j)
  {
    hide WellFormed, InnStep, SameView, InnsDbEffect, InnsLedgerEffect, BlockedInns, BlockedInn, ValidRows, OneRowPerKey, ContactPoints.Lawful;
    hide Kept, CompaniesStay, InnDone, InnEffect, OfInn, Distinct, CompaniesOf, OtherKeysStay, InnsDone;
    if j == 0 {
      NothingDone(req.assignee, l, licenses, inns);
    } else {
      InnsAssign(req, licenses, inns, j - 1, l);
      RealInns(req, licenses, inns, j - 1, l);
      var m := InnSteps(req, licenses, inns, j - 1, l).value;
      InnsAt(req.text, licenses, inns, j, l, m);
      RealInn(req, licenses, inns[j - 1], m);
      var n := InnStep(req, licenses, inns[j - 1], m).value;
      DoneSoFar(req.assignee, l.db, m, licenses, inns, j);
      InnAssigns(req, licenses, inns[j - 1], m, l.db);
      forall i | 0 <= i < j - 1 && inns[i] !in n.companyErrors ensures InnDone(l.db, n, licenses, inns[i]) {
        DoneBefore(req.assignee, l.db, m, licenses, inns, j, i, n, req.text);
      }
      AllDone(req.assignee, l.db, n, licenses, inns, j);
    }
  }

  lemma NothingDone(assignee: Id, l: Ledger, licenses: seq<License>, inns: seq<string>)
    ensures InnsDone(assignee, l.db, l, licenses, inns, 0)
  {
    KeptSelf(assignee, l.db);
  }

  lemma DoneSoFar(assignee: Id, d: Db, m: Ledger, licenses: seq<License>, inns: seq<string>, j: nat)
    requires 0 < j <= |inns| && InnsDone(assignee, d, m, licenses, inns, j - 1) && SameView(d, m.db, inns[j - 1])
    ensures Kept(assignee, d, m.db) && CompaniesStay(d, m.db) && CompaniesOf(d, inns[j - 1]) == CompaniesOf(m.db, inns[j - 1])
  {
    hide Kept, CompaniesStay, InnDone, CompaniesOf;
  }

  lemma DoneBefore(assignee: Id, d: Db, m: Ledger, licenses: seq<License>, inns: seq<string>, j: nat, i: nat, n: Ledger, t: ContactPoints.Text)
    requires i < j - 1 < |inns| && Distinct(inns) && InnsDone(assignee, d, m, licenses, inns, j - 1)
    requires InnEffect(t, licenses, inns[j - 1], m, n) && inns[i] !in n.companyErrors
    requires Kept(assignee, m.db, n.db) && CompaniesStay(m.db, n.db) && OtherKeysStay(inns[j - 1], m.contactsByLicense, n.contactsByLicense)
    ensures InnDone(d, n, licenses, inns[i])
  {
    hide WellFormed, Kept, CompaniesStay, InnDone, OfInn, BlockedInn, ViewInn, AfterInn, OtherKeysStay, PlanInn, SameView;
    PlanInnErrors(Seen(m), inns[j - 1], ViewInn(m.db, licenses, inns[j - 1]), inns[i]);
    assert SameView(m.db, n.db, inns[i]);
    StaysDone(assignee, d, m, n, licenses, inns[i], inns[j - 1]);
  }

  // Work on another INN leaves an INN done.
  lemma StaysDone(assignee: Id, d: Db, m: Ledger, n: Ledger, licenses: seq<License>, inn: string, other: string)
    requires InnDone(d, m, licenses, inn) && SameView(m.db, n.db, inn) && other != inn
    requires Kept(assignee, m.db, n.db) && OtherKeysStay(other, m.contactsByLicense, n.contactsByLicense) && CompaniesStay(m.db, n.db)
    requires inn in m.companyByInn ==> inn in n.companyByInn && n.companyByInn[inn] == m.companyByInn[inn]
    ensures InnDone(d, n, licenses, inn)
  {
    hide Kept, MadeFrom, LicenseIdentities, FoundRow, SameValues, Matches;
    var company, rows := m.companyByInn[inn].value, OfInn(licenses, inn);
    RenewalGroups.OfInnFacts(licenses, inn);
    CompanyStays(d, m.db, n.db, inn, rows, company);
    FoundKept(assignee, m.contactsByLicense, n.contactsByLicense, d, m.db, n.db, company, inn, rows);
  }

  lemma CompanyStays(d: Db, e: Db, f: Db, inn: string, rows: seq<License>, company: Id)
    requires CompanyIs(d, e, inn, rows, company) && CompaniesStay(e, f) && CompaniesOf(f, inn) == CompaniesOf(e, inn)
    ensures CompanyIs(d, f, inn, rows, company) && company in CompaniesOf(e, inn)
  {
    hide MadeFrom;
    assert forall c :: c in f.companies && !f.companies[c].deleted && f.companies[c].inn == inn ==> c in CompaniesOf(f, inn);
  }

  lemma AllDone(assignee: Id, d: Db, n: Ledger, licenses: seq<License>, inns: seq<string>, j: nat)
    requires 0 < j <= |inns| && Kept(assignee, d, n.db) && CompaniesStay(d, n.db)
    requires inns[j - 1] !in n.companyErrors ==> InnDone(d, n, licenses, inns[j - 1])
    requires forall i :: 0 <= i < j - 1 && inns[i] !in n.companyErrors ==> InnDone(d, n, licenses, inns[i])
    ensures InnsDone(assignee, d, n, licenses, inns, j)
  {
    hide Kept, CompaniesStay, InnDone;
  }
}
