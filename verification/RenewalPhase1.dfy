// Phase 1 of a real run over all clusters and all INNs: it shows what the plan
// says, and leaves every INN with one company and one contact per cluster.
module RenewalPhase1 {
  import opened Prelude
  import opened Licenses
  import Clusters
  import ContactPoints
  import opened RenewalImport
  import opened RenewalPlan
  import opened RenewalEffects
  import RenewalGroups

  // ----- the clusters of one INN -----

  predicate AnyMany(views: seq<Few>, j: nat)
    requires j <= |views|
  {
    exists i :: 0 <= i < j && views[i] == Many
  }

  ghost predicate GoodClusters(t: ContactPoints.Text, clusters: seq<seq<License>>) {
    && (forall k :: 0 <= k < |clusters| ==> clusters[k] != [] && ValidRows(t, clusters[k]))
    && (forall i, k :: 0 <= i < |clusters| && 0 <= k < |clusters| && i != k ==>
          ClusterIdentities(clusters[i]) !! ClusterIdentities(clusters[k]))
  }

  // The clusters of valid rows share no phone and no email.
  lemma ContactClustersGood(t: ContactPoints.Text, licenses: seq<License>)
    requires ValidRows(t, licenses)
    ensures GoodClusters(t, Clusters.ContactClusters(licenses))
  {
    var clusters := Clusters.ContactClusters(licenses);
    Clusters.ClusterInvariant(licenses);
    forall k | 0 <= k < |clusters| ensures clusters[k] != [] && ValidRows(t, clusters[k]) {
      Clusters.ShapeOf(licenses, clusters[k]);
    }
    forall i, k | 0 <= i < |clusters| && 0 <= k < |clusters| && i != k
      ensures ClusterIdentities(clusters[i]) !! ClusterIdentities(clusters[k])
    {
      ClustersDisjoint(licenses, i, k);
    }
  }

  lemma ClustersDisjoint(licenses: seq<License>, i: nat, k: nat)
    requires i < |Clusters.ContactClusters(licenses)| && k < |Clusters.ContactClusters(licenses)| && i != k
    ensures ClusterIdentities(Clusters.ContactClusters(licenses)[i]) !! ClusterIdentities(Clusters.ContactClusters(licenses)[k])
  {
    var clusters := Clusters.ContactClusters(licenses);
    ClustersSeparated(licenses);
    forall x ensures !(x in ClusterIdentities(clusters[i]) && x in ClusterIdentities(clusters[k])) {
      if x in ClusterIdentities(clusters[i]) && x in ClusterIdentities(clusters[k]) {
        var a :| a in clusters[i] && x in LicenseIdentities(a);
        var b :| b in clusters[k] && x in LicenseIdentities(b);
        Clusters.SameCluster(clusters, i, k, a, b);
      }
    }
  }

  lemma ClustersSeparated(licenses: seq<License>)
    ensures Clusters.Separated(Clusters.ContactClusters(licenses))
  {
    Clusters.ClusterInvariant(licenses);
  }

  // The database after j clusters of a real run.
  ghost predicate ProgressDb(t: ContactPoints.Text, company: Id, clusters: seq<seq<License>>, j: nat, d: Db, e: Db)
    requires j <= |clusters|
  {
    var views := ClusterViews(d, Some(company), clusters);
    && Phase1Frame(d, e, company) && WellFormed(t, e) && e.companies == d.companies
    && (forall k :: j <= k < |clusters| ==>
          Matches(e, company, ClusterIdentities(clusters[k])) == Matches(d, company, ClusterIdentities(clusters[k])))
    && (forall k :: 0 <= k < j ==>
          Size(Matches(e, company, ClusterIdentities(clusters[k]))) == AfterFew(views[k], AnyMany(views, k)))
    && (forall k :: 0 <= k < j ==> Settled(t, e, company, clusters[k]))
    && AllGathered(d, e, company, clusters, j)
  }

  // The values of a contact after the clusters before k that match it alone.
  function Gathered(db: Db, company: Option<Id>, clusters: seq<seq<License>>, k: nat, c: Id): Values
    requires k <= |clusters| && c in db.contacts
  {
    if k == 0 then ValuesOf(db.contacts[c])
    else Grown(ClusterMatches(db, company, clusters[k - 1]), c, Gathered(db, company, clusters, k - 1, c), clusters[k - 1])
  }

  ghost predicate AllGathered(d: Db, e: Db, company: Id, clusters: seq<seq<License>>, j: nat)
    requires j <= |clusters|
  {
    forall c :: c in d.contacts ==> c in e.contacts && ValuesOf(e.contacts[c]) == Gathered(d, Some(company), clusters, j, c)
  }

  // The other variables after j clusters, given the match sizes at the start.
  ghost predicate ProgressLedger(inn: string, views: seq<Few>, j: nat, l: Ledger, m: Ledger)
    requires j <= |views|
  {
    && Seen(m) == PlanClusters(Seen(l), inn, views, j)
    && m.companyByInn == l.companyByInn && m.results == l.results
    && RowsBalance(l.db, l.counts, m.db, m.counts)
    && (inn in m.companyErrors <==> AnyMany(views, j))
  }

  ghost predicate Progress(t: ContactPoints.Text, inn: string, company: Id, clusters: seq<seq<License>>, j: nat, l: Ledger, m: Ledger)
    requires j <= |clusters|
  {
    && ProgressDb(t, company, clusters, j, l.db, m.db)
    && ProgressLedger(inn, ClusterViews(l.db, Some(company), clusters), j, l, m)
  }

  // A real run stops at this cluster: the contact it would be merged into, with
  // what that contact has gathered from earlier clusters, cannot be stored, or
  // the contact it would create cannot.
  ghost predicate BlockedCluster(t: ContactPoints.Text, db: Db, company: Option<Id>, clusters: seq<seq<License>>, k: nat)
    requires k < |clusters|
  {
    var matches := ClusterMatches(db, company, clusters[k]);
    || (|matches| == 1 && exists c :: (c in matches && c in db.contacts
         && !Storable(t, MergedValues(Gathered(db, company, clusters, k, c), clusters[k]))))
    || (|matches| == 0 && !AnyMany(ClusterViews(db, company, clusters), k) && !Storable(t, NewValues(clusters[k])))
  }

  ghost predicate BlockedBefore(t: ContactPoints.Text, db: Db, company: Option<Id>, clusters: seq<seq<License>>, j: nat)
    requires j <= |clusters|
  {
    exists k :: 0 <= k < j && BlockedCluster(t, db, company, clusters, k)
  }

  lemma {:induction false} RealClusters(req: Request, inn: string, company: Id, clusters: seq<seq<License>>, j: nat, l: Ledger)
    requires !req.dryRun && ContactPoints.Lawful(req.text) && GoodClusters(req.text, clusters) && j <= |clusters|
    requires WellFormed(req.text, l.db) && company < l.db.nextId && inn !in l.companyErrors
    ensures ClusterSteps(req, inn, Some(company), clusters, j, l).None?
       <==> BlockedBefore(req.text, l.db, Some(company), clusters, j)
    ensures ClusterSteps(req, inn, Some(company), clusters, j, l).Some? ==>
      Progress(req.text, inn, company, clusters, j, l, ClusterSteps(req, inn, Some(company), clusters, j, l).value)
  {
    hide WellFormed, BlockedCluster, ClusterStep, Progress, GoodClusters, ContactPoints.Lawful;
    if j == 0 {
      NoClusters(req.text, inn, company, clusters, l);
    } else {
      RealClusters(req, inn, company, clusters, j - 1, l);
      var before := ClusterSteps(req, inn, Some(company), clusters, j - 1, l);
      if before.Some? {
        RealClusterNext(req, inn, company, clusters, j, l, before.value);
      }
    }
  }

  lemma NoClusters(t: ContactPoints.Text, inn: string, company: Id, clusters: seq<seq<License>>, l: Ledger)
    requires WellFormed(t, l.db) && inn !in l.companyErrors
    ensures Progress(t, inn, company, clusters, 0, l, l)
  {
    hide WellFormed, Settled, Matches, ClusterIdentities;
  }

  // Whether a cluster is refused when its turn comes is known at the start.
  lemma RefusesIffBlocked(t: ContactPoints.Text, d: Db, e: Db, company: Id, clusters: seq<seq<License>>, k: nat, failed: bool)
    requires k < |clusters| && AllGathered(d, e, company, clusters, k)
    requires Matches(e, company, ClusterIdentities(clusters[k])) == Matches(d, company, ClusterIdentities(clusters[k]))
    requires failed <==> AnyMany(ClusterViews(d, Some(company), clusters), k)
    ensures Refuses(t, e, company, clusters[k], failed) <==> BlockedCluster(t, d, Some(company), clusters, k)
  {
    hide ClusterIdentities, AnyMany, ClusterViews, Gathered, Storable, MergedValues, NewValues;
    var matches := Matches(d, company, ClusterIdentities(clusters[k]));
    assert forall c :: c in matches ==> c in d.contacts;
    hide Matches;
  }

  lemma RealClusterNext(req: Request, inn: string, company: Id, clusters: seq<seq<License>>, j: nat, l: Ledger, m: Ledger)
    requires !req.dryRun && ContactPoints.Lawful(req.text) && GoodClusters(req.text, clusters) && 0 < j <= |clusters|
    requires company < l.db.nextId
    requires Progress(req.text, inn, company, clusters, j - 1, l, m)
    ensures ClusterStep(req, inn, Some(company), clusters[j - 1], m).None?
       <==> BlockedCluster(req.text, l.db, Some(company), clusters, j - 1)
    ensures ClusterStep(req, inn, Some(company), clusters[j - 1], m).Some? ==>
      Progress(req.text, inn, company, clusters, j, l, ClusterStep(req, inn, Some(company), clusters[j - 1], m).value)
  {
    hide WellFormed, Matches, ClusterIdentities, ClusterStep, PlanClusters, PlanCluster, BlockedCluster, Refuses, Settled, AllGathered;
    hide Outside, SameBusiness, AfterFew, RowsBalance;
    var t := req.text;
    var cluster := clusters[j - 1];
    var views := ClusterViews(l.db, Some(company), clusters);
    RefusesIffBlocked(t, l.db, m.db, company, clusters, j - 1, inn in m.companyErrors);
    StillFresh(l.db, m.db, company);
    ClusterStepEffect(req, inn, company, cluster, m);
    ClusterStepSeen(req, inn, Some(company), cluster, m);
    assert views[j - 1] == Size(Matches(m.db, company, ClusterIdentities(cluster)));
    var next := ClusterStep(req, inn, Some(company), cluster, m);
    if next.Some? {
      ProgressDbStep(t, company, clusters, j, l.db, m.db, next.value.db);
      ProgressLedgerStep(inn, views, j, l, m, next.value);
    }
  }

  lemma StillFresh(d: Db, e: Db, company: Id)
    requires Phase1Frame(d, e, company) && company < d.nextId
    ensures company < e.nextId
  {
  }

  lemma ProgressLedgerStep(inn: string, views: seq<Few>, j: nat, l: Ledger, m: Ledger, n: Ledger)
    requires 0 < j <= |views| && ProgressLedger(inn, views, j - 1, l, m)
    requires LedgerEffect(inn, views[j - 1], m, n)
    requires Seen(n) == PlanCluster(Seen(m), inn, views[j - 1])
    ensures ProgressLedger(inn, views, j, l, n)
  {
    assert AnyMany(views, j) <==> AnyMany(views, j - 1) || views[j - 1] == Many;
  }

  lemma ProgressDbStep(t: ContactPoints.Text, company: Id, clusters: seq<seq<License>>, j: nat, d: Db, e: Db, f: Db)
    requires GoodClusters(t, clusters) && 0 < j <= |clusters|
    requires ProgressDb(t, company, clusters, j - 1, d, e)
    requires var views := ClusterViews(d, Some(company), clusters);
      DbEffect(t, company, clusters[j - 1], e, f, AfterFew(views[j - 1], AnyMany(views, j - 1)))
    ensures ProgressDb(t, company, clusters, j, d, f)
  {
    hide WellFormed, Matches, ClusterIdentities, AfterFew, Size, Settled, AllGathered, Outside, SameBusiness, ValuesGrown;
    FrameTransitive(d, e, f, company);
    GatheredStep(d, e, f, company, clusters, j);
    forall k | 0 <= k < |clusters| && k != j - 1
      ensures Matches(f, company, ClusterIdentities(clusters[k])) == Matches(e, company, ClusterIdentities(clusters[k]))
    {
      assert ClusterIdentities(clusters[j - 1]) !! ClusterIdentities(clusters[k]);
    }
    forall k | 0 <= k < j ensures Settled(t, f, company, clusters[k]) {
      if k < j - 1 {
        StaysSettled(t, e, f, company, clusters[j - 1], clusters[k], AnyMany(ClusterViews(d, Some(company), clusters), j - 1));
      }
    }
  }

  lemma GatheredStep(d: Db, e: Db, f: Db, company: Id, clusters: seq<seq<License>>, j: nat)
    requires 0 < j <= |clusters| && AllGathered(d, e, company, clusters, j - 1)
    requires var matches := Matches(d, company, ClusterIdentities(clusters[j - 1]));
      ValuesGrown(e, f, matches, clusters[j - 1])
    ensures AllGathered(d, f, company, clusters, j)
  {
    hide Matches, ClusterIdentities, MergedValues;
  }

  // Gathering more leaves a settled cluster settled.
  lemma StaysSettled(t: ContactPoints.Text, e: Db, f: Db, company: Id, cluster: seq<License>, other: seq<License>, failed: bool)
    requires Settled(t, e, company, other) && Settled(t, f, company, cluster)
    requires ValuesGrown(e, f, Matches(e, company, ClusterIdentities(cluster)), cluster)
    requires Matches(f, company, ClusterIdentities(other)) == Matches(e, company, ClusterIdentities(other))
    requires Matches(e, company, ClusterIdentities(cluster)) <= Matches(f, company, ClusterIdentities(cluster))
    requires Size(Matches(f, company, ClusterIdentities(cluster))) == AfterFew(Size(Matches(e, company, ClusterIdentities(cluster))), failed)
    ensures Settled(t, f, company, other)
  {
    hide Matches, ClusterIdentities, MergedValues, Absorbs, Storable;
    var matches, own := Matches(f, company, ClusterIdentities(other)), Matches(e, company, ClusterIdentities(cluster));
    forall c | c in matches && |matches| == 1
      ensures c in f.contacts && Absorbs(ValuesOf(f.contacts[c]), other) && Storable(t, ValuesOf(f.contacts[c]))
    {
      if own == {c} {
        assert c in Matches(f, company, ClusterIdentities(cluster));
        MergeAbsorbs(ValuesOf(e.contacts[c]), cluster, other);
      }
    }
  }

  // ----- one INN -----

  // What the import reads about an INN did not change.
  ghost predicate SameView(d: Db, e: Db, inn: string) {
    && CompaniesOf(e, inn) == CompaniesOf(d, inn)
    && (forall company, x :: company in CompaniesOf(d, inn) ==> Matches(e, company, x) == Matches(d, company, x))
    && (forall company :: company in CompaniesOf(d, inn) ==> SameValues(d, e, company))
  }

  ghost predicate SameValues(d: Db, e: Db, company: Id) {
    forall c :: c in d.contacts && d.contacts[c].company == Some(company) ==>
      c in e.contacts && e.contacts[c].company == Some(company) && ValuesOf(e.contacts[c]) == ValuesOf(d.contacts[c])
  }

  lemma SameViewTransitive(d: Db, e: Db, f: Db, inn: string)
    requires SameView(d, e, inn) && SameView(e, f, inn)
    ensures SameView(d, f, inn)
  {
  }

  lemma SameViewInn(d: Db, e: Db, licenses: seq<License>, inn: string)
    requires SameView(d, e, inn)
    ensures ViewInn(e, licenses, inn) == ViewInn(d, licenses, inn)
    ensures ExistingCompany(e, inn) == ExistingCompany(d, inn)
  {
    if |CompaniesOf(d, inn)| == 1 {
      SoleElement(CompaniesOf(d, inn));
    }
  }

  // The view of an INN after it was processed.
  function AfterClusters(views: seq<Few>): seq<Few> {
    seq(|views|, k requires 0 <= k < |views| => AfterFew(views[k], AnyMany(views, k)))
  }

  function AfterInn(view: InnView): InnView {
    if view.companies == Many then view else InnView(One, AfterClusters(view.clusters))
  }

  // A real run stops at this INN: the company it would create does not fit its
  // columns, or a cluster is blocked.
  ghost predicate BlockedInn(t: ContactPoints.Text, db: Db, licenses: seq<License>, inn: string) {
    && |CompaniesOf(db, inn)| <= 1
    && var clusters := Clusters.ContactClusters(OfInn(licenses, inn));
       || (CompaniesOf(db, inn) == {} && !CompanyFits(NewCompany(inn, OfInn(licenses, inn))))
       || BlockedBefore(t, db, ExistingCompany(db, inn), clusters, |clusters|)
  }

  lemma BlockedSame(t: ContactPoints.Text, d: Db, e: Db, licenses: seq<License>, inn: string)
    requires SameView(d, e, inn)
    ensures BlockedInn(t, e, licenses, inn) <==> BlockedInn(t, d, licenses, inn)
  {
    hide Matches, CompaniesOf, BlockedCluster;
    var clusters, company := Clusters.ContactClusters(OfInn(licenses, inn)), ExistingCompany(d, inn);
    SameViewInn(d, e, licenses, inn);
    if |CompaniesOf(d, inn)| == 1 {
      SoleElement(CompaniesOf(d, inn));
    }
    forall k | 0 <= k < |clusters| ensures BlockedCluster(t, e, company, clusters, k) <==> BlockedCluster(t, d, company, clusters, k) {
      BlockedClusterSame(t, d, e, company, clusters, k);
    }
  }

  lemma BlockedClusterSame(t: ContactPoints.Text, d: Db, e: Db, company: Option<Id>, clusters: seq<seq<License>>, k: nat)
    requires k < |clusters|
    requires company.Some? ==> SameValues(d, e, company.value) && forall x :: Matches(e, company.value, x) == Matches(d, company.value, x)
    ensures BlockedCluster(t, e, company, clusters, k) <==> BlockedCluster(t, d, company, clusters, k)
  {
    hide ClusterIdentities, Storable, MergedValues, NewValues, AnyMany, Gathered;
    assert ClusterViews(e, company, clusters) == ClusterViews(d, company, clusters);
    hide ClusterViews;
    forall c | c in ClusterMatches(d, company, clusters[k])
      ensures c in d.contacts && c in e.contacts && Gathered(e, company, clusters, k, c) == Gathered(d, company, clusters, k, c)
    {
      GatheredSame(d, e, company, clusters, k, c);
    }
  }

  lemma {:induction false} GatheredSame(d: Db, e: Db, company: Option<Id>, clusters: seq<seq<License>>, k: nat, c: Id)
    requires k <= |clusters| && c in d.contacts && c in e.contacts && ValuesOf(e.contacts[c]) == ValuesOf(d.contacts[c])
    requires company.Some? ==> forall x :: Matches(e, company.value, x) == Matches(d, company.value, x)
    ensures Gathered(e, company, clusters, k, c) == Gathered(d, company, clusters, k, c)
  {
    hide Matches, ClusterIdentities;
    if k > 0 {
      GatheredSame(d, e, company, clusters, k - 1, c);
    }
  }

  // Everything a real run does with one INN.
  ghost predicate InnEffect(t: ContactPoints.Text, licenses: seq<License>, inn: string, l: Ledger, m: Ledger) {
    && Seen(m) == PlanInn(Seen(l), inn, ViewInn(l.db, licenses, inn))
    && InnDbEffect(t, licenses, inn, l.db, m.db)
    && RowsBalance(l.db, l.counts, m.db, m.counts)
    && inn in m.companyByInn && (inn !in m.companyErrors ==> m.companyByInn[inn].Some?)
    && (forall other :: other != inn && other in l.companyByInn ==>
          other in m.companyByInn && m.companyByInn[other] == l.companyByInn[other])
  }

  ghost predicate InnDbEffect(t: ContactPoints.Text, licenses: seq<License>, inn: string, d: Db, e: Db) {
    && WellFormed(t, e) && SameBusiness(d, e)
    && (forall other :: other != inn ==> SameView(d, e, other))
    && ViewInn(e, licenses, inn) == AfterInn(ViewInn(d, licenses, inn))
    && !BlockedInn(t, e, licenses, inn)
  }

  // The database once the company is there; nothing matches in a new company.
  ghost predicate CompanyReady(t: ContactPoints.Text, inn: string, d: Db, e: Db, company: Id) {
    && WellFormed(t, e) && SameBusiness(d, e) && e.contacts == d.contacts && e.points == d.points
    && company < e.nextId && CompaniesOf(e, inn) == {company}
    && (forall other :: other != inn ==> CompaniesOf(e, other) == CompaniesOf(d, other))
    && (forall other :: other != inn ==> company !in CompaniesOf(e, other))
    && (if |CompaniesOf(d, inn)| == 1 then CompaniesOf(d, inn) == {company} && e == d
        else (forall x :: Matches(e, company, x) == {}) && |e.companies| == |d.companies| + 1)
  }

  lemma ResolveReady(req: Request, inn: string, rows: seq<License>, l: Ledger)
    requires !req.dryRun && WellFormed(req.text, l.db) && |CompaniesOf(l.db, inn)| <= 1
    ensures var (company, m) := ResolveCompany(req, inn, rows, l);
      company.Some? && CompanyReady(req.text, inn, l.db, m.db, company.value)
  {
    var (company, m) := ResolveCompany(req, inn, rows, l);
    var id := company.value;
    if |CompaniesOf(l.db, inn)| == 1 {
      SoleElement(CompaniesOf(l.db, inn));
    } else {
      assert CompaniesOf(l.db, inn) == {};
      assert id !in l.db.companies;
      assert CompaniesOf(m.db, inn) == {id};
      forall other | other != inn ensures CompaniesOf(m.db, other) == CompaniesOf(l.db, other) {
        assert forall c :: c in CompaniesOf(m.db, other) <==> c in CompaniesOf(l.db, other);
      }
      forall c ensures PointsOfContact(m.db, c) == PointsOfContact(l.db, c) {}
    }
  }

  lemma ReadyViews(t: ContactPoints.Text, licenses: seq<License>, inn: string, d: Db, e: Db, company: Id)
    requires CompanyReady(t, inn, d, e, company)
    requires |CompaniesOf(d, inn)| <= 1
    ensures var clusters := Clusters.ContactClusters(OfInn(licenses, inn));
      && ClusterViews(e, Some(company), clusters) == ViewInn(d, licenses, inn).clusters
      && (BlockedBefore(t, d, ExistingCompany(d, inn), clusters, |clusters|) <==> BlockedBefore(t, e, Some(company), clusters, |clusters|))
  {
    hide WellFormed, BlockedCluster, SameBusiness, Matches;
    var clusters := Clusters.ContactClusters(OfInn(licenses, inn));
    if |CompaniesOf(d, inn)| == 1 {
      SoleElement({company});
      assert ExistingCompany(d, inn) == Some(company);
    } else {
      assert ExistingCompany(d, inn) == None;
      assert ClusterViews(e, Some(company), clusters) == ClusterViews(d, None, clusters);
      forall k | 0 <= k < |clusters|
        ensures BlockedCluster(t, d, None, clusters, k) <==> BlockedCluster(t, e, Some(company), clusters, k)
      {
        NothingMatches(t, d, e, company, clusters, k);
      }
    }
  }

  lemma NothingMatches(t: ContactPoints.Text, d: Db, e: Db, company: Id, clusters: seq<seq<License>>, k: nat)
    requires k < |clusters| && forall x :: Matches(e, company, x) == {}
    requires ClusterViews(e, Some(company), clusters) == ClusterViews(d, None, clusters)
    ensures BlockedCluster(t, d, None, clusters, k) <==> BlockedCluster(t, e, Some(company), clusters, k)
  {
    hide Matches, ClusterIdentities, ClusterViews, AnyMany, Gathered, Storable, MergedValues, NewValues;
  }

  // The processed clusters, seen as the view of the INN.
  lemma ProcessedView(t: ContactPoints.Text, licenses: seq<License>, inn: string, d: Db, e: Db, f: Db, company: Id)
    requires CompanyReady(t, inn, d, e, company) && |CompaniesOf(d, inn)| <= 1
    requires var clusters := Clusters.ContactClusters(OfInn(licenses, inn));
      ProgressDb(t, company, clusters, |clusters|, e, f)
    ensures InnDbEffect(t, licenses, inn, d, f)
  {
    hide WellFormed, ViewInn, BlockedInn, BlockedBefore, AfterInn, ClusterViews, Settled, AllGathered;
    ProcessedOwnView(t, licenses, inn, d, e, f, company);
    forall other | other != inn ensures SameView(d, f, other) {
      OtherView(t, inn, d, e, f, company, other);
    }
  }

  lemma ProcessedOwnView(t: ContactPoints.Text, licenses: seq<License>, inn: string, d: Db, e: Db, f: Db, company: Id)
    requires CompanyReady(t, inn, d, e, company) && |CompaniesOf(d, inn)| <= 1
    requires var clusters := Clusters.ContactClusters(OfInn(licenses, inn));
      ProgressDb(t, company, clusters, |clusters|, e, f)
    ensures ViewInn(f, licenses, inn) == AfterInn(ViewInn(d, licenses, inn)) && !BlockedInn(t, f, licenses, inn)
  {
    hide WellFormed, Phase1Frame, SameBusiness, Settled, AllGathered, BlockedBefore, Matches;
    var clusters := Clusters.ContactClusters(OfInn(licenses, inn));
    ReadyViews(t, licenses, inn, d, e, company);
    assert CompaniesOf(f, inn) == CompaniesOf(e, inn) == {company};
    SoleElement({company});
    assert ExistingCompany(f, inn) == Some(company);
    assert ViewInn(f, licenses, inn).clusters == AfterClusters(ViewInn(d, licenses, inn).clusters);
    NotBlockedAgain(t, f, company, clusters, ViewInn(d, licenses, inn).clusters);
  }

  // When the import comes back to an INN it finds every cluster settled.
  lemma NotBlockedAgain(t: ContactPoints.Text, f: Db, company: Id, clusters: seq<seq<License>>, views: seq<Few>)
    requires |views| == |clusters| && ClusterViews(f, Some(company), clusters) == AfterClusters(views)
    requires forall k :: 0 <= k < |clusters| ==> Settled(t, f, company, clusters[k])
    ensures !BlockedBefore(t, f, Some(company), clusters, |clusters|)
  {
    hide ClusterViews, BlockedCluster, Settled, AfterClusters;
    forall k | 0 <= k < |clusters| ensures !BlockedCluster(t, f, Some(company), clusters, k) {
      SettledNotBlocked(t, f, company, clusters, views, k);
    }
  }

  lemma SettledNotBlocked(t: ContactPoints.Text, f: Db, company: Id, clusters: seq<seq<License>>, views: seq<Few>, k: nat)
    requires |views| == |clusters| && k < |clusters| && ClusterViews(f, Some(company), clusters) == AfterClusters(views)
    requires forall k :: 0 <= k < |clusters| ==> Settled(t, f, company, clusters[k])
    ensures !BlockedCluster(t, f, Some(company), clusters, k)
  {
    hide Storable, MergedValues, NewValues, Absorbs, Matches, ClusterIdentities;
    var matches := ClusterMatches(f, Some(company), clusters[k]);
    assert ClusterViews(f, Some(company), clusters)[k] == Size(matches);
    if |matches| == 1 {
      forall c | c in matches && c in f.contacts ensures Storable(t, MergedValues(Gathered(f, Some(company), clusters, k, c), clusters[k])) {
        assert Settled(t, f, company, clusters[k]);
        MergedAgain(ValuesOf(f.contacts[c]), clusters[k]);
        GatheredAgain(t, f, company, clusters, k, c);
      }
    } else if |matches| == 0 {
      assert AfterFew(views[k], AnyMany(views, k)) == Zero;
      var i :| 0 <= i < k && views[i] == Many;
      assert AfterClusters(views)[i] == Many;
    }
  }

  lemma {:induction false} GatheredAgain(t: ContactPoints.Text, f: Db, company: Id, clusters: seq<seq<License>>, k: nat, c: Id)
    requires k <= |clusters| && c in f.contacts
    requires forall i :: 0 <= i < |clusters| ==> Settled(t, f, company, clusters[i])
    ensures Gathered(f, Some(company), clusters, k, c) == ValuesOf(f.contacts[c])
  {
    hide Storable, MergedValues, Absorbs, Matches, ClusterIdentities;
    if k > 0 {
      GatheredAgain(t, f, company, clusters, k - 1, c);
      var matches := ClusterMatches(f, Some(company), clusters[k - 1]);
      if matches == {c} {
        assert c in matches && Settled(t, f, company, clusters[k - 1]);
        MergedAgain(ValuesOf(f.contacts[c]), clusters[k - 1]);
      }
    }
  }

  lemma OtherView(t: ContactPoints.Text, inn: string, d: Db, e: Db, f: Db, company: Id, other: string)
    requires CompanyReady(t, inn, d, e, company) && Outside(e, f, company) && f.companies == e.companies
    requires other != inn
    ensures SameView(d, f, other)
  {
    assert CompaniesOf(f, other) == CompaniesOf(e, other) == CompaniesOf(d, other);
    forall id, x | id in CompaniesOf(d, other) ensures Matches(f, id, x) == Matches(d, id, x) {
      OutsideMatches(e, f, company, id, x);
      SameMatches(d, e, id, x);
    }
    forall id | id in CompaniesOf(d, other) ensures SameValues(d, f, id) {
      assert id != company;
    }
  }

  lemma RealInn(req: Request, licenses: seq<License>, inn: string, l: Ledger)
    requires !req.dryRun && ContactPoints.Lawful(req.text) && ValidRows(req.text, licenses)
    requires WellFormed(req.text, l.db) && inn !in l.companyErrors
    ensures InnStep(req, licenses, inn, l).None? <==> BlockedInn(req.text, l.db, licenses, inn)
    ensures InnStep(req, licenses, inn, l).Some? ==>
      InnEffect(req.text, licenses, inn, l, InnStep(req, licenses, inn, l).value)
  {
    hide WellFormed, ResolveCompany, CompanyReady, ClusterSteps, ClusterViews, CompanyFits, NewCompany, BlockedBefore;
    hide InnEffect, InnDbEffect, ProgressDb, ProgressLedger, GoodClusters, RowsBalance, PlanCompany, Seen, ContactPoints.Lawful, ExistingCompany, CompaniesOf;
    if |CompaniesOf(l.db, inn)| > 1 {
      RealInnAmbiguous(req, licenses, inn, l);
    } else if CompaniesOf(l.db, inn) == {} && !CompanyFits(NewCompany(inn, OfInn(licenses, inn))) {
    } else {
      var clusters := Clusters.ContactClusters(OfInn(licenses, inn));
      RenewalGroups.OfInnFacts(licenses, inn);
      assert ValidRows(req.text, OfInn(licenses, inn));
      ContactClustersGood(req.text, OfInn(licenses, inn));
      ResolveReady(req, inn, OfInn(licenses, inn), l);
      var (company, m) := ResolveCompany(req, inn, OfInn(licenses, inn), l);
      var start := m.(contactCountByInn := m.contactCountByInn[inn := |clusters|]);
      ViewSize(l.db, licenses, inn);
      ResolvedLedger(req, inn, OfInn(licenses, inn), l, ViewInn(l.db, licenses, inn));
      ReadyViews(req.text, licenses, inn, l.db, m.db, company.value);
      ReadyFacts(req.text, inn, l.db, m.db, company.value);
      RealClusters(req, inn, company.value, clusters, |clusters|, start);
      var last := ClusterSteps(req, inn, company, clusters, |clusters|, start);
      if last.Some? {
        ProcessedView(req.text, licenses, inn, l.db, m.db, last.value.db, company.value);
        FinishInn(req, licenses, inn, l, start, last.value, company.value);
      }
    }
  }

  lemma ViewSize(db: Db, licenses: seq<License>, inn: string)
    ensures |ViewInn(db, licenses, inn).clusters| == |Clusters.ContactClusters(OfInn(licenses, inn))|
    ensures ViewInn(db, licenses, inn).companies == Size(CompaniesOf(db, inn))
  {
    hide ClusterMatches, CompaniesOf;
  }

  lemma ReadyFacts(t: ContactPoints.Text, inn: string, d: Db, e: Db, company: Id)
    requires CompanyReady(t, inn, d, e, company)
    ensures WellFormed(t, e) && company < e.nextId
  {
  }

  lemma RealInnAmbiguous(req: Request, licenses: seq<License>, inn: string, l: Ledger)
    requires !req.dryRun && WellFormed(req.text, l.db) && |CompaniesOf(l.db, inn)| > 1
    ensures InnStep(req, licenses, inn, l).Some? && !BlockedInn(req.text, l.db, licenses, inn)
    ensures InnEffect(req.text, licenses, inn, l, InnStep(req, licenses, inn, l).value)
  {
  }

  lemma ResolvedLedger(req: Request, inn: string, rows: seq<License>, l: Ledger, view: InnView)
    requires !req.dryRun && |CompaniesOf(l.db, inn)| <= 1 && WellFormed(req.text, l.db)
    requires view.companies == Size(CompaniesOf(l.db, inn))
    ensures var (company, m) := ResolveCompany(req, inn, rows, l);
      && Seen(m.(contactCountByInn := m.contactCountByInn[inn := |view.clusters|])) == PlanCompany(Seen(l), inn, view)
      && m.companyByInn == l.companyByInn[inn := company] && company.Some?
      && m.companyErrors == l.companyErrors && RowsBalance(l.db, l.counts, m.db, m.counts)
  {
  }

  lemma FinishInn(req: Request, licenses: seq<License>, inn: string, l: Ledger, start: Ledger, m: Ledger, company: Id)
    requires var views := ViewInn(l.db, licenses, inn).clusters;
      ProgressLedger(inn, views, |views|, start, m)
    requires Seen(start) == PlanCompany(Seen(l), inn, ViewInn(l.db, licenses, inn))
    requires ViewInn(l.db, licenses, inn).companies != Many
    requires start.companyByInn == l.companyByInn[inn := Some(company)]
    requires RowsBalance(l.db, l.counts, start.db, start.counts)
    requires InnDbEffect(req.text, licenses, inn, l.db, m.db)
    ensures InnEffect(req.text, licenses, inn, l, m)
  {
  }

  // ----- all INNs -----

  lemma {:induction false} PlanClustersErrors(v: Visible, inn: string, views: seq<Few>, j: nat, other: string)
    requires j <= |views| && other != inn
    ensures other in PlanClusters(v, inn, views, j).errors <==> other in v.errors
  {
    if j > 0 {
      PlanClustersErrors(v, inn, views, j - 1, other);
    }
  }

  // Working on an INN never records an error for another one.
  lemma PlanInnErrors(v: Visible, inn: string, view: InnView, other: string)
    requires other != inn
    ensures other in PlanInn(v, inn, view).errors <==> other in v.errors
  {
    if view.companies != Many {
      PlanClustersErrors(PlanCompany(v, inn, view), inn, view.clusters, |view.clusters|, other);
    }
  }

  ghost predicate InnsDbEffect(t: ContactPoints.Text, licenses: seq<License>, inns: seq<string>, j: nat, d: Db, e: Db)
    requires j <= |inns|
  {
    && WellFormed(t, e) && SameBusiness(d, e)
    && (forall other :: other !in inns[..j] ==> SameView(d, e, other))
    && (forall i :: 0 <= i < j ==> ViewInn(e, licenses, inns[i]) == AfterInn(ViewInn(d, licenses, inns[i])))
    && !BlockedInns(t, e, licenses, inns, j)
  }

  ghost predicate InnsLedgerEffect(licenses: seq<License>, inns: seq<string>, j: nat, l: Ledger, m: Ledger)
    requires j <= |inns|
  {
    && Seen(m) == PlanInns(Seen(l), inns, ViewInns(l.db, licenses, inns), j)
    && RowsBalance(l.db, l.counts, m.db, m.counts)
    && (forall i :: 0 <= i < j ==>
          inns[i] in m.companyByInn && (inns[i] !in m.companyErrors ==> m.companyByInn[inns[i]].Some?))
    && (forall i :: j <= i < |inns| ==> inns[i] !in m.companyErrors)
  }

  ghost predicate BlockedInns(t: ContactPoints.Text, db: Db, licenses: seq<License>, inns: seq<string>, j: nat)
    requires j <= |inns|
  {
    exists i :: 0 <= i < j && BlockedInn(t, db, licenses, inns[i])
  }

  lemma {:induction false} RealInns(req: Request, licenses: seq<License>, inns: seq<string>, j: nat, l: Ledger)
    requires !req.dryRun && ContactPoints.Lawful(req.text) && ValidRows(req.text, licenses)
    requires WellFormed(req.text, l.db) && j <= |inns| && Distinct(inns)
    requires forall i :: 0 <= i < |inns| ==> inns[i] !in l.companyErrors
    ensures InnSteps(req, licenses, inns, j, l).None? <==> BlockedInns(req.text, l.db, licenses, inns, j)
    ensures InnSteps(req, licenses, inns, j, l).Some? ==>
      var m := InnSteps(req, licenses, inns, j, l).value;
      InnsDbEffect(req.text, licenses, inns, j, l.db, m.db) && InnsLedgerEffect(licenses, inns, j, l, m)
  {
    hide WellFormed, BlockedInn, InnStep, SameView, ViewInn, AfterInn, InnsDbEffect, InnsLedgerEffect, BlockedInns, ValidRows;
    if j == 0 {
      NoInns(req.text, licenses, inns, l);
    } else {
      RealInns(req, licenses, inns, j - 1, l);
      BlockedInnsStep(req.text, l.db, licenses, inns, j);
      var before := InnSteps(req, licenses, inns, j - 1, l);
      if before.Some? {
        var m := before.value;
        InnsAt(req.text, licenses, inns, j, l, m);
        BlockedSame(req.text, l.db, m.db, licenses, inns[j - 1]);
        RealInn(req, licenses, inns[j - 1], m);
        var next := InnStep(req, licenses, inns[j - 1], m);
        if next.Some? {
          InnsDbStep(req.text, licenses, inns, j, l.db, m.db, next.value.db);
          InnsLedgerStep(req.text, licenses, inns, j, l, m, next.value);
        }
      }
    }
  }

  lemma NoInns(t: ContactPoints.Text, licenses: seq<License>, inns: seq<string>, l: Ledger)
    requires WellFormed(t, l.db) && forall i :: 0 <= i < |inns| ==> inns[i] !in l.companyErrors
    ensures !BlockedInns(t, l.db, licenses, inns, 0)
    ensures InnsDbEffect(t, licenses, inns, 0, l.db, l.db) && InnsLedgerEffect(licenses, inns, 0, l, l)
  {
    hide WellFormed, SameView, ViewInn;
    SameViewSelf(l.db);
  }

  lemma BlockedInnsStep(t: ContactPoints.Text, db: Db, licenses: seq<License>, inns: seq<string>, j: nat)
    requires 0 < j <= |inns|
    ensures BlockedInns(t, db, licenses, inns, j)
       <==> BlockedInns(t, db, licenses, inns, j - 1) || BlockedInn(t, db, licenses, inns[j - 1])
  {
    hide BlockedInn;
  }

  // The next INN is still as it was.
  lemma InnsAt(t: ContactPoints.Text, licenses: seq<License>, inns: seq<string>, j: nat, l: Ledger, m: Ledger)
    requires 0 < j <= |inns| && Distinct(inns)
    requires InnsDbEffect(t, licenses, inns, j - 1, l.db, m.db) && InnsLedgerEffect(licenses, inns, j - 1, l, m)
    ensures WellFormed(t, m.db) && SameView(l.db, m.db, inns[j - 1]) && inns[j - 1] !in m.companyErrors
  {
    hide WellFormed, SameView, ViewInn, AfterInn, BlockedInn;
    assert inns[j - 1] !in inns[..j - 1];
  }

  lemma SameViewSelf(d: Db)
    ensures forall other :: SameView(d, d, other)
  {
  }

  lemma InnsDbStep(t: ContactPoints.Text, licenses: seq<License>, inns: seq<string>, j: nat, d: Db, e: Db, f: Db)
    requires 0 < j <= |inns| && Distinct(inns)
    requires InnsDbEffect(t, licenses, inns, j - 1, d, e) && InnDbEffect(t, licenses, inns[j - 1], e, f)
    ensures InnsDbEffect(t, licenses, inns, j, d, f)
  {
    hide WellFormed, SameView, ViewInn, AfterInn, BlockedInn;
    var inn := inns[j - 1];
    SameViewInn(d, e, licenses, inn);
    forall other | other !in inns[..j] ensures SameView(d, f, other) {
      assert inns[j - 1] in inns[..j] && forall x :: x in inns[..j - 1] ==> x in inns[..j];
      SameViewTransitive(d, e, f, other);
    }
    forall i | 0 <= i < j - 1 ensures ViewInn(f, licenses, inns[i]) == AfterInn(ViewInn(d, licenses, inns[i])) {
      SameViewInn(e, f, licenses, inns[i]);
    }
    forall i | 0 <= i < j ensures !BlockedInn(t, f, licenses, inns[i]) {
      if i < j - 1 {
        BlockedSame(t, e, f, licenses, inns[i]);
      }
    }
  }

  lemma InnsLedgerStep(t: ContactPoints.Text, licenses: seq<License>, inns: seq<string>, j: nat, l: Ledger, m: Ledger, n: Ledger)
    requires 0 < j <= |inns| && Distinct(inns)
    requires InnsLedgerEffect(licenses, inns, j - 1, l, m) && InnEffect(t, licenses, inns[j - 1], m, n)
    requires SameView(l.db, m.db, inns[j - 1])
    ensures InnsLedgerEffect(licenses, inns, j, l, n)
  {
    hide WellFormed, SameView, ViewInn, AfterInn, PlanInn, InnDbEffect;
    SameViewInn(l.db, m.db, licenses, inns[j - 1]);
    forall i | 0 <= i < |inns| && i != j - 1 ensures inns[i] in n.companyErrors <==> inns[i] in m.companyErrors {
      PlanInnErrors(Seen(m), inns[j - 1], ViewInn(m.db, licenses, inns[j - 1]), inns[i]);
    }
  }
}
