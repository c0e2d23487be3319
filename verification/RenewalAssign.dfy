// Which contact the import remembers for each licence, and what it makes of
// the contacts and companies it touches in phase 1.
module RenewalAssign {
  import opened Prelude
  import opened Licenses
  import Clusters
  import ContactPoints
  import opened RenewalImport
  import opened RenewalPlan
  import opened RenewalEffects
  import opened RenewalPhase1
  import RenewalGroups

  // ----- the contact of a licence, told from the tables -----

  // A live contact of the company whose index has the licence's phone or email.
  ghost predicate Reaches(db: Db, company: Id, l: License, c: Id) {
    && c in db.contacts && !db.contacts[c].deleted && db.contacts[c].company == Some(company) && c in db.points
    && exists p :: p in db.points[c]
         && ((p.kind == ContactPoints.Phone && l.normalizedPhone != "" && p.normalized == l.normalizedPhone)
             || (p.kind == ContactPoints.Email && l.normalizedEmail != "" && p.normalized == l.normalizedEmail))
  }

  // It is the only one.
  ghost predicate ContactOf(db: Db, company: Id, l: License, c: Id) {
    Reaches(db, company, l, c) && forall x :: Reaches(db, company, l, x) ==> x == c
  }

  lemma ReachesIsMatch(db: Db, company: Id, l: License, c: Id)
    ensures Reaches(db, company, l, c) <==> c in Matches(db, company, LicenseIdentities(l))
  {
    if c in Matches(db, company, LicenseIdentities(l)) {
      var i :| i in PointsOfContact(db, c) && i in LicenseIdentities(l);
      var p :| p in db.points[c] && (p.kind, p.normalized) == i;
    }
    if Reaches(db, company, l, c) {
      var p :| p in db.points[c]
         && ((p.kind == ContactPoints.Phone && l.normalizedPhone != "" && p.normalized == l.normalizedPhone)
             || (p.kind == ContactPoints.Email && l.normalizedEmail != "" && p.normalized == l.normalizedEmail));
      assert (p.kind, p.normalized) in PointsOfContact(db, c) && (p.kind, p.normalized) in LicenseIdentities(l);
    }
  }

  lemma ContactOfIs(db: Db, company: Id, l: License, c: Id)
    ensures ContactOf(db, company, l, c) <==> Matches(db, company, LicenseIdentities(l)) == {c}
  {
    hide Matches, Reaches;
    forall x: Id ensures Reaches(db, company, l, x) <==> x in Matches(db, company, LicenseIdentities(l)) {
      ReachesIsMatch(db, company, l, x);
    }
    if ContactOf(db, company, l, c) {
      assert Matches(db, company, LicenseIdentities(l)) == {c};
    }
  }

  type Assignment = map<(string, string, Date), Option<Id>>

  // The contact remembered for each of the rows is the one that has them; it has
  // an assignee, and a newer version than it started with.
  ghost predicate Found(m: Assignment, start: Db, db: Db, company: Id, inn: string, rows: seq<License>) {
    forall l :: l in rows ==> FoundRow(m, start, db, company, inn, l)
  }

  ghost predicate FoundRow(m: Assignment, start: Db, db: Db, company: Id, inn: string, l: License) {
    var k := (inn, l.lid, l.expiresAt);
    && k in m && m[k].Some? && ContactOf(db, company, l, m[k].value) && Touched(start, db, m[k].value)
  }

  ghost predicate Touched(start: Db, db: Db, c: Id) {
    && c in db.contacts && db.contacts[c].assignee.Some?
    && (c in start.contacts ==> db.contacts[c].version > start.contacts[c].version)
  }

  // What phase 1 leaves of the contacts that were there, and of new ones.
  ghost predicate Kept(assignee: Id, d: Db, e: Db) {
    && d.contacts.Keys <= e.contacts.Keys
    && (forall c :: c in d.contacts ==> KeptRow(assignee, d.contacts[c], e.contacts[c]))
    && (forall c :: c in e.contacts && c !in d.contacts ==> e.contacts[c].assignee == Some(assignee) && !e.contacts[c].deleted)
  }

  predicate KeptRow(assignee: Id, c: ContactPoints.Contact, after: ContactPoints.Contact) {
    && after.company == c.company && after.deleted == c.deleted && after.version >= c.version
    && (after.assignee == c.assignee || (c.assignee.None? && after.assignee == Some(assignee)))
  }

  lemma KeptTwice(assignee: Id, d: Db, e: Db, f: Db)
    requires Kept(assignee, d, e) && Kept(assignee, e, f)
    ensures Kept(assignee, d, f)
  {
    forall c | c in f.contacts && c !in d.contacts ensures f.contacts[c].assignee == Some(assignee) && !f.contacts[c].deleted {
      if c in e.contacts {
        assert KeptRow(assignee, e.contacts[c], f.contacts[c]);
      }
    }
    forall c | c in d.contacts ensures KeptRow(assignee, d.contacts[c], f.contacts[c]) {
      assert KeptRow(assignee, d.contacts[c], e.contacts[c]) && KeptRow(assignee, e.contacts[c], f.contacts[c]);
    }
  }

  lemma TouchedKept(assignee: Id, start: Db, d: Db, e: Db, c: Id)
    requires Touched(start, d, c) && Kept(assignee, d, e)
    ensures Touched(start, e, c)
  {
    assert KeptRow(assignee, d.contacts[c], e.contacts[c]);
  }

  // What the parser's dictionary guarantees: one row for each LID and expiry.
  ghost predicate OneRowPerKey(licenses: seq<License>) {
    forall a, b :: a in licenses && b in licenses && a.lid == b.lid && a.expiresAt == b.expiresAt ==> a == b
  }

  lemma {:induction false} AssignedFacts(m: Assignment, inn: string, cluster: seq<License>, contact: Option<Id>)
    ensures var after := Assigned(m, inn, cluster, contact);
      && (forall l :: l in cluster ==> (inn, l.lid, l.expiresAt) in after && after[(inn, l.lid, l.expiresAt)] == contact)
      && (forall k :: (forall l :: l in cluster ==> k != (inn, l.lid, l.expiresAt)) ==>
            (k in after <==> k in m) && (k in m ==> after[k] == m[k]))
  {
    if cluster != [] {
      var front, last := cluster[..|cluster| - 1], cluster[|cluster| - 1];
      AssignedFacts(m, inn, front, contact);
      assert cluster == front + [last];
      assert forall l :: l in cluster <==> l in front || l == last;
    }
  }

  // ----- one cluster -----

  // The cluster ended up with contact c, which is remembered for its rows.
  ghost predicate Lands(inn: string, company: Id, cluster: seq<License>, l: Ledger, m: Ledger, c: Id) {
    && m.contactsByLicense == Assigned(l.contactsByLicense, inn, cluster, Some(c))
    && Matches(m.db, company, ClusterIdentities(cluster)) == {c} && ClusterIdentities(cluster) <= PointsOfContact(m.db, c)
    && c in m.db.contacts && m.db.contacts[c].assignee.Some?
    && (c in l.db.contacts ==> m.db.contacts[c].version > l.db.contacts[c].version)
  }

  lemma ClusterAssigns(req: Request, inn: string, company: Id, cluster: seq<License>, l: Ledger) returns (c: Id)
    requires !req.dryRun && ContactPoints.Lawful(req.text)
    requires cluster != [] && ValidRows(req.text, cluster)
    requires WellFormed(req.text, l.db) && company < l.db.nextId
    requires |Matches(l.db, company, ClusterIdentities(cluster))| <= 1 && inn !in l.companyErrors
    requires ClusterStep(req, inn, Some(company), cluster, l).Some?
    ensures Lands(inn, company, cluster, l, ClusterStep(req, inn, Some(company), cluster, l).value, c)
  {
    hide WellFormed, ContactPoints.Lawful, ValidRows, ClusterIdentities, ReuseContact, CreateContact, Lands;
    var matches := Matches(l.db, company, ClusterIdentities(cluster));
    ClusterHasIdentity(req.text, cluster);
    if |matches| == 1 {
      c := The(matches);
      SoleElement(matches);
      assert matches == {c};
      ReuseAssigns(req, inn, company, cluster, c, l);
    } else {
      assert matches == {};
      c := l.db.nextId;
      CreateAssigns(req, inn, company, cluster, l);
    }
  }

  lemma ReuseAssigns(req: Request, inn: string, company: Id, cluster: seq<License>, c: Id, l: Ledger)
    requires !req.dryRun && ContactPoints.Lawful(req.text) && ValidRows(req.text, cluster) && ClusterIdentities(cluster) != {}
    requires WellFormed(req.text, l.db) && Matches(l.db, company, ClusterIdentities(cluster)) == {c}
    requires c in l.db.contacts && ReuseContact(req, inn, cluster, c, l).Some?
    ensures Lands(inn, company, cluster, l, ReuseContact(req, inn, cluster, c, l).value, c)
  {
    hide WellFormed, StoreContact, ContactPoints.Lawful, ValidRows, ClusterIdentities, Assigned, Matches, MergedContact, PointsOfContact, ContactWrite, ReuseContact;
    assert c in Matches(l.db, company, ClusterIdentities(cluster));
    var row := MergedContact(l.db.contacts[c], req.assignee, cluster);
    ReuseIs(req, inn, cluster, c, l);
    StoreMergedOf(req, company, cluster, c, l.db);
    var stored := StoreContact(req.text, l.db, c, row).value;
    WriteOwn(req.text, l.db, stored, company, cluster, c);
    StoredRow(req.text, l.db, c, row);
    MergedRow(l.db.contacts[c], req.assignee, cluster);
    Identities(req.text, l.db, stored, company, cluster, c);
  }

  lemma ReuseIs(req: Request, inn: string, cluster: seq<License>, c: Id, l: Ledger)
    requires !req.dryRun && c in l.db.contacts && ReuseContact(req, inn, cluster, c, l).Some?
    ensures var stored := StoreContact(req.text, l.db, c, MergedContact(l.db.contacts[c], req.assignee, cluster));
      var m := ReuseContact(req, inn, cluster, c, l).value;
      stored.Some? && m.db == stored.value && m.contactsByLicense == Assigned(l.contactsByLicense, inn, cluster, Some(c))
  {
    hide StoreContact, MergedContact, Assigned;
  }

  lemma MergedRow(c: ContactPoints.Contact, assignee: Id, cluster: seq<License>)
    ensures var row := MergedContact(c, assignee, cluster);
      && row.assignee == (if c.assignee.Some? then c.assignee else Some(assignee))
      && row.company == c.company && row.deleted == c.deleted && row.version == c.version + 1
  {
    hide MergedValues;
  }

  lemma StoreMergedOf(req: Request, company: Id, cluster: seq<License>, c: Id, db: Db)
    requires ContactPoints.Lawful(req.text) && ValidRows(req.text, cluster)
    requires WellFormed(req.text, db) && c in Matches(db, company, ClusterIdentities(cluster))
    requires StoreContact(req.text, db, c, MergedContact(db.contacts[c], req.assignee, cluster)).Some?
    ensures ContactWrite(req.text, db, StoreContact(req.text, db, c, MergedContact(db.contacts[c], req.assignee, cluster)).value, company, cluster, c)
  {
    hide WellFormed, StoreContact, ContactPoints.Lawful, ValidRows, ClusterIdentities, MergedValues, Storable, ContactWrite;
    StoreMerged(req.text, db, company, req.assignee, cluster, c);
  }

  lemma Identities(t: ContactPoints.Text, d: Db, e: Db, company: Id, cluster: seq<License>, c: Id)
    requires ContactWrite(t, d, e, company, cluster, c)
    ensures ClusterIdentities(cluster) <= PointsOfContact(e, c)
  {
    hide ClusterIdentities, PointsOfContact;
  }

  lemma CreateAssigns(req: Request, inn: string, company: Id, cluster: seq<License>, l: Ledger)
    requires !req.dryRun && ContactPoints.Lawful(req.text) && ValidRows(req.text, cluster) && ClusterIdentities(cluster) != {}
    requires WellFormed(req.text, l.db) && Matches(l.db, company, ClusterIdentities(cluster)) == {}
    requires CreateContact(req, inn, Some(company), cluster, l).Some?
    ensures Lands(inn, company, cluster, l, CreateContact(req, inn, Some(company), cluster, l).value, l.db.nextId)
  {
    hide WellFormed, StoreContact, ContactPoints.Lawful, ValidRows, ClusterIdentities, NewValues, Storable, Assigned, Matches, ContactWrite, PointsOfContact;
    var c, row := l.db.nextId, NewContact(company, req.assignee, cluster);
    var m := CreateContact(req, inn, Some(company), cluster, l).value;
    StoreNew(req.text, l.db, company, req.assignee, cluster);
    var stored := StoreContact(req.text, l.db, c, row).value;
    StoredRow(req.text, l.db, c, row);
    WriteOwn(req.text, l.db, stored, company, cluster, c);
    Identities(req.text, l.db, stored, company, cluster, c);
    SameMatches(stored, m.db, company, ClusterIdentities(cluster));
    SamePointsOf(stored, m.db, c);
  }

  lemma SamePointsOf(d: Db, e: Db, c: Id)
    requires d.points == e.points
    ensures PointsOfContact(d, c) == PointsOfContact(e, c)
  {
  }

  lemma StoredRow(t: ContactPoints.Text, db: Db, id: Id, c: ContactPoints.Contact)
    requires StoreContact(t, db, id, c).Some?
    ensures var stored := StoreContact(t, db, id, c).value; id in stored.contacts && stored.contacts[id] == c
  {
    hide ContactPoints.Synced, ContactFits;
  }

  // The licences of the cluster are found at that contact.
  lemma ClusterFound(t: ContactPoints.Text, db: Db, company: Id, cluster: seq<License>, c: Id, l: License)
    requires ValidRows(t, cluster) && l in cluster
    requires Matches(db, company, ClusterIdentities(cluster)) == {c} && ClusterIdentities(cluster) <= PointsOfContact(db, c)
    ensures ContactOf(db, company, l, c)
  {
    hide PointsOfContact;
    ContactOfIs(db, company, l, c);
    assert ValidRow(t, l);
    var i: ContactPoints.Identity := if l.normalizedPhone != "" then (ContactPoints.Phone, l.normalizedPhone) else (ContactPoints.Email, l.normalizedEmail);
    assert i in LicenseIdentities(l) && i in ClusterIdentities(cluster);
    assert LicenseIdentities(l) <= ClusterIdentities(cluster);
    forall x: Id ensures x in Matches(db, company, LicenseIdentities(l)) <==> x == c {
      if x in Matches(db, company, LicenseIdentities(l)) {
        assert x in Matches(db, company, ClusterIdentities(cluster));
      }
      assert c in Matches(db, company, ClusterIdentities(cluster));
    }
  }

  // ----- the clusters of an INN -----

  lemma ClusterKeeps(req: Request, inn: string, company: Id, cluster: seq<License>, l: Ledger)
    requires !req.dryRun && WellFormed(req.text, l.db)
    requires ClusterStep(req, inn, Some(company), cluster, l).Some?
    ensures Kept(req.assignee, l.db, ClusterStep(req, inn, Some(company), cluster, l).value.db)
  {
    var matches := Matches(l.db, company, ClusterIdentities(cluster));
    hide StoreContact, Assigned, MergedContact, NewContact, ClusterIdentities;
    if |matches| == 1 {
      var c := The(matches);
      SoleElement(matches);
      MergedRow(l.db.contacts[c], req.assignee, cluster);
      WroteOne(req.text, l.db, c, MergedContact(l.db.contacts[c], req.assignee, cluster));
    } else if |matches| == 0 && inn !in l.companyErrors {
      assert l.db.nextId !in l.db.contacts;
      NewRow(company, req.assignee, cluster);
      WroteOne(req.text, l.db, l.db.nextId, NewContact(company, req.assignee, cluster));
    }
  }

  lemma NewRow(company: Id, assignee: Id, cluster: seq<License>)
    ensures var row := NewContact(company, assignee, cluster);
      row.assignee == Some(assignee) && row.company == Some(company) && !row.deleted && row.version == 1
  {
    hide NewValues;
  }

  lemma WroteOne(t: ContactPoints.Text, db: Db, id: Id, c: ContactPoints.Contact)
    requires StoreContact(t, db, id, c).Some?
    ensures var stored := StoreContact(t, db, id, c).value; stored.contacts == db.contacts[id := c]
  {
    hide ContactPoints.Synced, ContactFits;
  }

  // Rows of different clusters are remembered under different keys.
  ghost predicate KeysApart(clusters: seq<seq<License>>) {
    forall i, k, a, b :: 0 <= i < |clusters| && 0 <= k < |clusters| && i != k && a in clusters[i] && b in clusters[k] ==>
      (a.lid, a.expiresAt) != (b.lid, b.expiresAt)
  }

  lemma FoundNew(t: ContactPoints.Text, m: Assignment, start: Db, e: Db, company: Id, inn: string, cluster: seq<License>, c: Id)
    requires ValidRows(t, cluster) && Touched(start, e, c)
    requires Matches(e, company, ClusterIdentities(cluster)) == {c} && ClusterIdentities(cluster) <= PointsOfContact(e, c)
    ensures Found(Assigned(m, inn, cluster, Some(c)), start, e, company, inn, cluster)
  {
    hide Assigned, Matches, ClusterIdentities, PointsOfContact, ContactOf, Touched;
    AssignedFacts(m, inn, cluster, Some(c));
    forall l | l in cluster ensures ContactOf(e, company, l, c) {
      ClusterFound(t, e, company, cluster, c, l);
    }
  }

  lemma FoundKept(assignee: Id, m: Assignment, n: Assignment, start: Db, d: Db, e: Db, company: Id, inn: string, rows: seq<License>)
    requires Found(m, start, d, company, inn, rows) && Kept(assignee, d, e)
    requires forall l :: l in rows ==> var k := (inn, l.lid, l.expiresAt); (k in n <==> k in m) && (k in m ==> n[k] == m[k])
    requires forall l :: l in rows ==> Matches(e, company, LicenseIdentities(l)) == Matches(d, company, LicenseIdentities(l))
    ensures Found(n, start, e, company, inn, rows)
  {
    hide Matches, LicenseIdentities, ContactOf, Touched, Kept;
    forall l | l in rows ensures FoundRow(n, start, e, company, inn, l) {
      assert FoundRow(m, start, d, company, inn, l);
      var c := m[(inn, l.lid, l.expiresAt)].value;
      ContactOfIs(d, company, l, c);
      ContactOfIs(e, company, l, c);
      TouchedKept(assignee, start, d, e, c);
    }
  }

  // None of the first clusters matched several contacts at the start.
  ghost predicate NoneMany(db: Db, company: Id, clusters: seq<seq<License>>, j: nat)
    requires j <= |clusters|
  {
    forall k :: 0 <= k < j ==> |Matches(db, company, ClusterIdentities(clusters[k]))| <= 1
  }

  lemma {:induction false} ClustersAssign(req: Request, inn: string, company: Id, clusters: seq<seq<License>>, j: nat, l: Ledger, start: Db)
    requires !req.dryRun && ContactPoints.Lawful(req.text) && GoodClusters(req.text, clusters) && j <= |clusters| && KeysApart(clusters)
    requires WellFormed(req.text, l.db) && company < l.db.nextId && inn !in l.companyErrors && Kept(req.assignee, start, l.db)
    requires ClusterSteps(req, inn, Some(company), clusters, j, l).Some?
    ensures var m := ClusterSteps(req, inn, Some(company), clusters, j, l).value;
      && Kept(req.assignee, start, m.db)
      && (NoneMany(l.db, company, clusters, j) ==>
            forall k :: 0 <= k < j ==> Found(m.contactsByLicense, start, m.db, company, inn, clusters[k]))
  {
    hide WellFormed, ClusterStep, Kept, Found, ContactPoints.Lawful, GoodClusters, KeysApart, NoneMany, Progress;
    if j > 0 {
      ClustersAssign(req, inn, company, clusters, j - 1, l, start);
      var m := ClusterSteps(req, inn, Some(company), clusters, j - 1, l).value;
      RealClusters(req, inn, company, clusters, j - 1, l);
      ProgressAt(req, inn, company, clusters, j, l, m);
      ClusterKeeps(req, inn, company, clusters[j - 1], m);
      var n := ClusterStep(req, inn, Some(company), clusters[j - 1], m).value;
      KeptTwice(req.assignee, start, m.db, n.db);
      if NoneMany(l.db, company, clusters, j) {
        ClusterNext(req, inn, company, clusters, j, m, start);
      }
    }
  }

  // Where the import stands when a cluster has its turn.
  lemma ProgressAt(req: Request, inn: string, company: Id, clusters: seq<seq<License>>, j: nat, l: Ledger, m: Ledger)
    requires 0 < j <= |clusters| && company < l.db.nextId
    requires Progress(req.text, inn, company, clusters, j - 1, l, m)
    ensures WellFormed(req.text, m.db) && company < m.db.nextId
    ensures NoneMany(l.db, company, clusters, j) ==>
      && NoneMany(l.db, company, clusters, j - 1)
      && inn !in m.companyErrors && |Matches(m.db, company, ClusterIdentities(clusters[j - 1]))| <= 1
  {
    hide WellFormed, Matches, ClusterIdentities, PlanClusters, RowsBalance, Settled, AllGathered, Outside;
    var views := ClusterViews(l.db, Some(company), clusters);
    assert forall k :: 0 <= k < |clusters| ==> views[k] == Size(ClusterMatches(l.db, Some(company), clusters[k]));
  }

  lemma ClusterNext(req: Request, inn: string, company: Id, clusters: seq<seq<License>>, j: nat, m: Ledger, start: Db)
    requires !req.dryRun && ContactPoints.Lawful(req.text) && GoodClusters(req.text, clusters) && 0 < j <= |clusters| && KeysApart(clusters)
    requires WellFormed(req.text, m.db) && company < m.db.nextId && inn !in m.companyErrors
    requires |Matches(m.db, company, ClusterIdentities(clusters[j - 1]))| <= 1 && Kept(req.assignee, start, m.db)
    requires forall k :: 0 <= k < j - 1 ==> Found(m.contactsByLicense, start, m.db, company, inn, clusters[k])
    requires ClusterStep(req, inn, Some(company), clusters[j - 1], m).Some?
    ensures var n := ClusterStep(req, inn, Some(company), clusters[j - 1], m).value;
      forall k :: 0 <= k < j ==> Found(n.contactsByLicense, start, n.db, company, inn, clusters[k])
  {
    hide WellFormed, ClusterStep, Kept, Found, ContactPoints.Lawful, ValidRows, Matches, ClusterIdentities, Assigned, PointsOfContact, Touched, KeysApart;
    var cluster := clusters[j - 1];
    var n := ClusterStep(req, inn, Some(company), cluster, m).value;
    ClusterKeeps(req, inn, company, cluster, m);
    StepLeaves(req, inn, company, cluster, m);
    var c := ClusterAssigns(req, inn, company, cluster, m);
    NowTouched(req.assignee, inn, company, cluster, start, m, n, c);
    FoundNew(req.text, m.contactsByLicense, start, n.db, company, inn, cluster, c);
    forall k | 0 <= k < j - 1 ensures Found(n.contactsByLicense, start, n.db, company, inn, clusters[k]) {
      OtherFound(req.assignee, inn, company, clusters, j - 1, k, c, m, n, start);
    }
  }

  // A cluster step changes no match of what shares nothing with the cluster.
  lemma StepLeaves(req: Request, inn: string, company: Id, cluster: seq<License>, m: Ledger)
    requires !req.dryRun && ContactPoints.Lawful(req.text) && cluster != [] && ValidRows(req.text, cluster)
    requires WellFormed(req.text, m.db) && company < m.db.nextId
    requires ClusterStep(req, inn, Some(company), cluster, m).Some?
    ensures Leaves(company, cluster, m.db, ClusterStep(req, inn, Some(company), cluster, m).value.db)
  {
    hide WellFormed, ClusterStep, ContactPoints.Lawful, ValidRows, Matches, ClusterIdentities, Phase1Frame, Settled, ValuesGrown, LedgerEffect;
    ClusterStepEffect(req, inn, company, cluster, m);
  }

  ghost predicate Leaves(company: Id, cluster: seq<License>, d: Db, e: Db) {
    forall x :: ClusterIdentities(cluster) !! x ==> Matches(e, company, x) == Matches(d, company, x)
  }

  lemma OtherFound(assignee: Id, inn: string, company: Id, clusters: seq<seq<License>>, j: nat, k: nat, c: Id, m: Ledger, n: Ledger, start: Db)
    requires k < |clusters| && j < |clusters| && k != j && ClusterIdentities(clusters[k]) !! ClusterIdentities(clusters[j]) && KeysApart(clusters)
    requires Found(m.contactsByLicense, start, m.db, company, inn, clusters[k])
    requires Leaves(company, clusters[j], m.db, n.db) && Kept(assignee, m.db, n.db)
    requires n.contactsByLicense == Assigned(m.contactsByLicense, inn, clusters[j], Some(c))
    ensures Found(n.contactsByLicense, start, n.db, company, inn, clusters[k])
  {
    hide Matches, ClusterIdentities, LicenseIdentities, Assigned, Kept, Found;
    AssignedFacts(m.contactsByLicense, inn, clusters[j], Some(c));
    forall l | l in clusters[k] ensures Matches(n.db, company, LicenseIdentities(l)) == Matches(m.db, company, LicenseIdentities(l)) {
      ApartFrom(clusters, k, j, l);
    }
    FoundKept(assignee, m.contactsByLicense, n.contactsByLicense, start, m.db, n.db, company, inn, clusters[k]);
  }

  lemma NowTouched(assignee: Id, inn: string, company: Id, cluster: seq<License>, start: Db, l: Ledger, m: Ledger, c: Id)
    requires Lands(inn, company, cluster, l, m, c) && Kept(assignee, start, l.db)
    ensures Touched(start, m.db, c)
  {
    hide Matches, ClusterIdentities, PointsOfContact, Assigned;
    if c in start.contacts {
      assert KeptRow(assignee, start.contacts[c], l.db.contacts[c]);
    }
  }

  lemma ApartFrom(clusters: seq<seq<License>>, i: nat, k: nat, l: License)
    requires i < |clusters| && k < |clusters| && l in clusters[i] && ClusterIdentities(clusters[i]) !! ClusterIdentities(clusters[k])
    ensures ClusterIdentities(clusters[k]) !! LicenseIdentities(l)
  {
    assert LicenseIdentities(l) <= ClusterIdentities(clusters[i]);
  }
}
