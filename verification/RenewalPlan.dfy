// What a caller sees of an import, computed from observations of the initial
// database alone. The plan reads no contact, deal or mapping that an import
// creates; that a real run reports the same is proved in RenewalPreview.
module RenewalPlan {
  import opened Prelude
  import opened Licenses
  import Clusters
  import opened RenewalImport

  datatype Few = Zero | One | Many

  function Size(s: set<Id>): Few {
    if |s| == 0 then Zero else if |s| == 1 then One else Many
  }

  // The part of a ledger that ends up in the outcome.
  datatype Visible = Visible(
    counts: Counts, errors: map<string, ImportError>, contactCount: map<string, nat>, results: seq<GroupResult>)

  function Seen(l: Ledger): Visible {
    Visible(l.counts, l.companyErrors, l.contactCountByInn, l.results)
  }

  // ----- clusters of one INN -----

  function PlanCluster(v: Visible, inn: string, few: Few): Visible {
    match few
    case Many => v.(errors := v.errors[inn := SeveralContacts])
    case One => v.(counts := v.counts.(contactsReused := v.counts.contactsReused + 1))
    case Zero => if inn in v.errors then v else v.(counts := v.counts.(contactsCreated := v.counts.contactsCreated + 1))
  }

  function PlanClusters(v: Visible, inn: string, clusters: seq<Few>, j: nat): Visible
    requires j <= |clusters|
  {
    if j == 0 then v else PlanCluster(PlanClusters(v, inn, clusters, j - 1), inn, clusters[j - 1])
  }

  // ----- one INN -----

  datatype InnView = InnView(companies: Few, clusters: seq<Few>)

  function PlanCompany(v: Visible, inn: string, view: InnView): Visible {
    v.(counts := if view.companies == One
                 then v.counts.(companiesReused := v.counts.companiesReused + 1)
                 else v.counts.(companiesCreated := v.counts.companiesCreated + 1),
       contactCount := v.contactCount[inn := |view.clusters|])
  }

  function PlanInn(v: Visible, inn: string, view: InnView): Visible {
    if view.companies == Many then v.(errors := v.errors[inn := SeveralCompanies])
    else PlanClusters(PlanCompany(v, inn, view), inn, view.clusters, |view.clusters|)
  }

  function PlanInns(v: Visible, inns: seq<string>, views: seq<InnView>, j: nat): Visible
    requires j <= |inns| == |views|
  {
    if j == 0 then v else PlanInn(PlanInns(v, inns, views, j - 1), inns[j - 1], views[j - 1])
  }

  // ----- one group -----

  datatype GroupView = GroupView(action: Action, known: bool)

  function PlanGroup(v: Visible, g: Group, view: GroupView): Visible {
    var contactCount := if g.inn in v.contactCount then v.contactCount[g.inn] else 0;
    if g.inn in v.errors then
      var action := Failed(v.errors[g.inn]);
      v.(counts := CountDeal(v.counts, action), results := v.results + [GroupResult(g, contactCount, action)])
    else
      v.(counts := CountTask(CountDeal(v.counts, view.action), view.action == Skip, view.known),
         results := v.results + [GroupResult(g, contactCount, view.action)])
  }

  function PlanGroups(v: Visible, groups: seq<Group>, views: seq<GroupView>, j: nat): Visible
    requires j <= |groups| == |views|
  {
    if j == 0 then v else PlanGroup(PlanGroups(v, groups, views, j - 1), groups[j - 1], views[j - 1])
  }

  // ----- the observations -----

  function ClusterViews(db: Db, company: Option<Id>, clusters: seq<seq<License>>): seq<Few> {
    seq(|clusters|, k requires 0 <= k < |clusters| => Size(ClusterMatches(db, company, clusters[k])))
  }

  function ExistingCompany(db: Db, inn: string): Option<Id> {
    if |CompaniesOf(db, inn)| == 1 then Some(The(CompaniesOf(db, inn))) else None
  }

  function ViewInn(db: Db, licenses: seq<License>, inn: string): InnView {
    InnView(Size(CompaniesOf(db, inn)),
            ClusterViews(db, ExistingCompany(db, inn), Clusters.ContactClusters(OfInn(licenses, inn))))
  }

  function ViewInns(db: Db, licenses: seq<License>, inns: seq<string>): seq<InnView> {
    seq(|inns|, i requires 0 <= i < |inns| => ViewInn(db, licenses, inns[i]))
  }

  function ViewGroup(db: Db, g: Group): GroupView {
    GroupView(DealAction(db, GroupKey(g)), MappedTask(db, GroupKey(g)).Some?)
  }

  function ViewGroups(db: Db, groups: seq<Group>): seq<GroupView> {
    seq(|groups|, i requires 0 <= i < |groups| => ViewGroup(db, groups[i]))
  }

  // The whole plan.
  function PlanFrom(parsed: Parsed, groups: seq<Group>, inns: seq<string>, innViews: seq<InnView>, groupViews: seq<GroupView>, db: Db): Visible
    requires |inns| == |innViews| && |groups| == |groupViews|
  {
    PlanGroups(PlanInns(Seen(Opening(db, parsed, groups)), inns, innViews, |inns|), groups, groupViews, |groups|)
  }

  function Plan(parsed: Parsed, groups: seq<Group>, db: Db): Visible {
    var inns := Inns(parsed.licenses);
    PlanFrom(parsed, groups, inns, ViewInns(db, parsed.licenses, inns), ViewGroups(db, groups), db)
  }

  // ----- one step of either mode shows what the plan says -----

  lemma ClusterStepSeen(req: Request, inn: string, company: Option<Id>, cluster: seq<License>, l: Ledger)
    ensures ClusterStep(req, inn, company, cluster, l).Some? ==>
      Seen(ClusterStep(req, inn, company, cluster, l).value)
      == PlanCluster(Seen(l), inn, Size(ClusterMatches(l.db, company, cluster)))
  {
    hide StoreContact, NewContact, MergedContact, Assigned;
  }

  lemma GroupStepSeen(req: Request, g: Group, l: Ledger)
    ensures GroupStep(req, g, l).Some? ==>
      Seen(GroupStep(req, g, l).value) == PlanGroup(Seen(l), g, ViewGroup(l.db, g))
  {
  }

  lemma ResolveCompanySeen(req: Request, inn: string, rows: seq<License>, l: Ledger, clusters: seq<Few>)
    requires |CompaniesOf(l.db, inn)| <= 1
    ensures var (_, m) := ResolveCompany(req, inn, rows, l);
      Seen(m.(contactCountByInn := m.contactCountByInn[inn := |clusters|]))
      == PlanCompany(Seen(l), inn, InnView(Size(CompaniesOf(l.db, inn)), clusters))
  {
  }

  // ----- the dry run is the plan, and writes nothing -----

  lemma DryCluster(req: Request, inn: string, company: Option<Id>, cluster: seq<License>, l: Ledger)
    requires req.dryRun
    ensures var m := ClusterStep(req, inn, company, cluster, l); m.Some? && m.value.db == l.db
  {
    hide Matches, ClusterIdentities;
  }

  lemma {:induction false} DryClusters(req: Request, inn: string, company: Option<Id>, clusters: seq<seq<License>>, j: nat, l: Ledger)
    requires req.dryRun && j <= |clusters|
    ensures ClusterSteps(req, inn, company, clusters, j, l).Some?
    ensures var m := ClusterSteps(req, inn, company, clusters, j, l).value;
      m.db == l.db && Seen(m) == PlanClusters(Seen(l), inn, ClusterViews(l.db, company, clusters), j)
  {
    hide ClusterStep, ClusterMatches, PlanCluster, Seen;
    if j > 0 {
      DryClusters(req, inn, company, clusters, j - 1, l);
      DryCluster(req, inn, company, clusters[j - 1], ClusterSteps(req, inn, company, clusters, j - 1, l).value);
      ClusterStepSeen(req, inn, company, clusters[j - 1], ClusterSteps(req, inn, company, clusters, j - 1, l).value);
    }
  }

  lemma {:induction false} DryInns(req: Request, licenses: seq<License>, inns: seq<string>, j: nat, l: Ledger)
    requires req.dryRun && j <= |inns|
    ensures InnSteps(req, licenses, inns, j, l).Some?
    ensures var m := InnSteps(req, licenses, inns, j, l).value;
      m.db == l.db && Seen(m) == PlanInns(Seen(l), inns, ViewInns(l.db, licenses, inns), j)
  {
    hide InnStep, PlanInn, ViewInn;
    if j > 0 {
      DryInns(req, licenses, inns, j - 1, l);
      DryInn(req, licenses, inns[j - 1], InnSteps(req, licenses, inns, j - 1, l).value);
    }
  }

  lemma DryInn(req: Request, licenses: seq<License>, inn: string, l: Ledger)
    requires req.dryRun
    ensures InnStep(req, licenses, inn, l).Some?
    ensures InnStep(req, licenses, inn, l).value.db == l.db
    ensures Seen(InnStep(req, licenses, inn, l).value) == PlanInn(Seen(l), inn, ViewInn(l.db, licenses, inn))
  {
    if |CompaniesOf(l.db, inn)| <= 1 {
      var clusters := Clusters.ContactClusters(OfInn(licenses, inn));
      var (company, n) := ResolveCompany(req, inn, OfInn(licenses, inn), l);
      var start := n.(contactCountByInn := n.contactCountByInn[inn := |clusters|]);
      ResolveCompanySeen(req, inn, OfInn(licenses, inn), l, ClusterViews(l.db, company, clusters));
      DryClusters(req, inn, company, clusters, |clusters|, start);
    }
  }

  lemma {:induction false} DryGroups(req: Request, groups: seq<Group>, j: nat, l: Ledger)
    requires req.dryRun && j <= |groups|
    ensures GroupSteps(req, groups, j, l).Some?
    ensures var m := GroupSteps(req, groups, j, l).value;
      m.db == l.db && Seen(m) == PlanGroups(Seen(l), groups, ViewGroups(l.db, groups), j)
  {
    hide GroupStep, PlanGroup, ViewGroup;
    if j > 0 {
      DryGroups(req, groups, j - 1, l);
      DryGroup(req, groups[j - 1], GroupSteps(req, groups, j - 1, l).value);
    }
  }

  lemma DryGroup(req: Request, g: Group, l: Ledger)
    requires req.dryRun
    ensures GroupStep(req, g, l).Some?
    ensures GroupStep(req, g, l).value.db == l.db
    ensures Seen(GroupStep(req, g, l).value) == PlanGroup(Seen(l), g, ViewGroup(l.db, g))
  {
    GroupStepSeen(req, g, l);
  }

  // A dry run never fails, changes nothing, and reports the plan.
  lemma DryRunIsPlan(req: Request, parsed: Parsed, groups: seq<Group>, db: Db)
    requires req.dryRun
    ensures ImportFrom(req, parsed, groups, db).Some?
    ensures ImportFrom(req, parsed, groups, db).value.db == db
    ensures Seen(ImportFrom(req, parsed, groups, db).value) == Plan(parsed, groups, db)
  {
    var inns := Inns(parsed.licenses);
    DryInns(req, parsed.licenses, inns, |inns|, Opening(db, parsed, groups));
    DryGroups(req, groups, |groups|, EnsureSource(req, InnSteps(req, parsed.licenses, inns, |inns|, Opening(db, parsed, groups)).value));
  }
}
