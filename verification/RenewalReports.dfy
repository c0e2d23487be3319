// What an import reports, dry or real, told from the database it starts from:
// the error of an INN, the fate of every group, and every counter.
module RenewalReports {
  import opened Prelude
  import opened Licenses
  import Clusters
  import ContactPoints
  import opened RenewalImport
  import opened RenewalPlan
  import opened RenewalEffects
  import opened RenewalPhase1
  import opened RenewalPreview
  import RenewalGroups

  // ----- the widths of the columns -----

  predicate Within(value: Option<string>, width: nat) {
    value.None? || |value.value| <= width
  }

  // What the database takes: a company, a contact with its index rows, and the
  // external ids of a group.
  lemma WidthsAre(c: Company, v: Values, rows: seq<ContactPoints.Point>, g: Group)
    ensures CompanyFits(c) <==> |c.name| <= 240 && |c.inn| <= 12 && Within(c.phone, 64) && Within(c.email, 320)
    ensures ContactFits(v, rows) <==>
      && Within(v.primaryEmail, 320) && Within(v.primaryPhone, 64)
      && forall p :: p in rows ==> |p.value| <= 512 && |p.normalized| <= 512
    ensures GroupFits(g) <==>
      |ExternalId(g.inn, g.expiresAt)| <= 255 && forall l :: l in g.licenses ==> |ExternalId(l.lid, l.expiresAt)| <= 255
  {
  }

  // ----- the error of an INN -----

  // Some cluster of the INN's rows matches several contacts of its company.
  ghost predicate ContactsClash(db: Db, licenses: seq<License>, inn: string) {
    exists company, k ::
      && CompaniesOf(db, inn) == {company} && 0 <= k < |Clusters.ContactClusters(OfInn(licenses, inn))|
      && |Matches(db, company, ClusterIdentities(Clusters.ContactClusters(OfInn(licenses, inn))[k]))| > 1
  }

  ghost function ErrorOf(db: Db, licenses: seq<License>, inn: string): Option<ImportError> {
    if |CompaniesOf(db, inn)| > 1 then Some(SeveralCompanies)
    else if ContactsClash(db, licenses, inn) then Some(SeveralContacts)
    else None
  }

  ghost predicate ErrorsAre(errors: map<string, ImportError>, db: Db, licenses: seq<License>, inns: seq<string>) {
    forall i :: 0 <= i < |inns| ==>
      match ErrorOf(db, licenses, inns[i])
      case None => inns[i] !in errors
      case Some(error) => inns[i] in errors && errors[inns[i]] == error
  }

  // ----- the fate of a group and of its call -----

  datatype Fate = Opens | Updates | Skips | Fails

  // A mapped live deal is updated unless its stage is a closed one.
  function FateOf(errors: map<string, ImportError>, db: Db, g: Group): Fate {
    if g.inn in errors then Fails
    else
      match MappedDeal(db, GroupKey(g))
      case None => Opens
      case Some(deal) =>
        var stage := db.deals[deal].stage;
        if stage in db.openStages && !db.openStages[stage] then Skips else Updates
  }

  datatype Call = Made | Known | Left | NoCall

  function CallOf(errors: map<string, ImportError>, db: Db, g: Group): Call {
    if FateOf(errors, db, g) == Fails then NoCall
    else if MappedTask(db, GroupKey(g)).Some? then Known
    else if FateOf(errors, db, g) == Skips then Left
    else Made
  }

  function CountFate(errors: map<string, ImportError>, db: Db, groups: seq<Group>, fate: Fate): nat {
    if groups == [] then 0
    else
      var last := |groups| - 1;
      CountFate(errors, db, groups[..last], fate) + if FateOf(errors, db, groups[last]) == fate then 1 else 0
  }

  function CountCall(errors: map<string, ImportError>, db: Db, groups: seq<Group>, call: Call): nat {
    if groups == [] then 0
    else
      var last := |groups| - 1;
      CountCall(errors, db, groups[..last], call) + if CallOf(errors, db, groups[last]) == call then 1 else 0
  }

  // INNs with no, one or several companies.
  function CountInns(db: Db, inns: seq<string>, companies: Few): nat {
    if inns == [] then 0
    else
      var last := |inns| - 1;
      CountInns(db, inns[..last], companies) + if Size(CompaniesOf(db, inns[last])) == companies then 1 else 0
  }

  // Clusters that match one contact of the company, and clusters that match none
  // while no cluster before them has matched several.
  function CountClusters(views: seq<Few>, one: bool): nat {
    if views == [] then 0
    else
      var last := |views| - 1;
      CountClusters(views[..last], one)
      + if one then (if views[last] == One then 1 else 0) else (if views[last] == Zero && !AnyMany(views, last) then 1 else 0)
  }

  function CountContacts(db: Db, licenses: seq<License>, inns: seq<string>, one: bool): nat {
    if inns == [] then 0
    else
      var last := |inns| - 1;
      var view := ViewInn(db, licenses, inns[last]);
      CountContacts(db, licenses, inns[..last], one) + if view.companies == Many then 0 else CountClusters(view.clusters, one)
  }

  // ----- phase 1 -----

  lemma {:induction false} ClustersPlanned(v: Visible, inn: string, views: seq<Few>, j: nat)
    requires j <= |views| && inn !in v.errors
    ensures var w := PlanClusters(v, inn, views, j);
      && w.errors == (if AnyMany(views, j) then v.errors[inn := SeveralContacts] else v.errors)
      && w.contactCount == v.contactCount && w.results == v.results
      && w.counts == v.counts.(contactsReused := v.counts.contactsReused + CountClusters(views[..j], true),
                               contactsCreated := v.counts.contactsCreated + CountClusters(views[..j], false))
  {
    if j > 0 {
      ClustersPlanned(v, inn, views, j - 1);
      assert views[..j][..j - 1] == views[..j - 1];
      assert AnyMany(views, j) <==> AnyMany(views, j - 1) || views[j - 1] == Many;
      assert AnyMany(views[..j], j - 1) <==> AnyMany(views, j - 1);
    }
  }

  // A view of an INN shows its error.
  lemma ErrorSeen(db: Db, licenses: seq<License>, inn: string)
    ensures var view := ViewInn(db, licenses, inn);
      ErrorOf(db, licenses, inn) ==
        if view.companies == Many then Some(SeveralCompanies)
        else if AnyMany(view.clusters, |view.clusters|) then Some(SeveralContacts)
        else None
  {
    hide Matches, CompaniesOf, ClusterIdentities;
    var view, clusters := ViewInn(db, licenses, inn), Clusters.ContactClusters(OfInn(licenses, inn));
    var company := ExistingCompany(db, inn);
    assert forall k :: 0 <= k < |clusters| ==> view.clusters[k] == Size(ClusterMatches(db, company, clusters[k]));
    if |CompaniesOf(db, inn)| == 1 {
      SoleElement(CompaniesOf(db, inn));
      assert CompaniesOf(db, inn) == {company.value};
      if AnyMany(view.clusters, |view.clusters|) {
        var k :| 0 <= k < |view.clusters| && view.clusters[k] == Many;
        assert |Matches(db, company.value, ClusterIdentities(clusters[k]))| > 1;
      }
    }
  }

  lemma InnPlanned(v: Visible, inn: string, view: InnView)
    requires inn !in v.errors
    ensures var w := PlanInn(v, inn, view);
      && w.results == v.results
      && w.errors == (if view.companies == Many then v.errors[inn := SeveralCompanies]
                      else if AnyMany(view.clusters, |view.clusters|) then v.errors[inn := SeveralContacts]
                      else v.errors)
      && w.contactCount == (if view.companies == Many then v.contactCount else v.contactCount[inn := |view.clusters|])
      && w.counts == v.counts.(
           companiesCreated := v.counts.companiesCreated + (if view.companies == Zero then 1 else 0),
           companiesReused := v.counts.companiesReused + (if view.companies == One then 1 else 0),
           contactsReused := v.counts.contactsReused + (if view.companies == Many then 0 else CountClusters(view.clusters, true)),
           contactsCreated := v.counts.contactsCreated + (if view.companies == Many then 0 else CountClusters(view.clusters, false)))
  {
    hide CountClusters, AnyMany;
    if view.companies != Many {
      ClustersPlanned(PlanCompany(v, inn, view), inn, view.clusters, |view.clusters|);
      assert view.clusters[..|view.clusters|] == view.clusters;
    }
  }

  // ----- all INNs -----

  ghost predicate ContactCounts(counts: map<string, nat>, db: Db, licenses: seq<License>, inns: seq<string>) {
    forall i :: 0 <= i < |inns| ==>
      if |CompaniesOf(db, inns[i])| > 1 then inns[i] !in counts
      else inns[i] in counts && counts[inns[i]] == |Clusters.ContactClusters(OfInn(licenses, inns[i]))|
  }

  ghost predicate InnCounts(before: Counts, after: Counts, db: Db, licenses: seq<License>, inns: seq<string>) {
    after == before.(
      companiesCreated := before.companiesCreated + CountInns(db, inns, Zero),
      companiesReused := before.companiesReused + CountInns(db, inns, One),
      contactsReused := before.contactsReused + CountContacts(db, licenses, inns, true),
      contactsCreated := before.contactsCreated + CountContacts(db, licenses, inns, false))
  }

  lemma {:induction false} InnsPlanned(v: Visible, db: Db, licenses: seq<License>, inns: seq<string>, j: nat)
    requires j <= |inns| && Distinct(inns) && v.errors == map[] && v.contactCount == map[]
    ensures var w := PlanInns(v, inns, ViewInns(db, licenses, inns), j);
      && w.results == v.results && w.errors.Keys <= Elements(inns[..j]) && w.contactCount.Keys <= Elements(inns[..j])
      && ErrorsAre(w.errors, db, licenses, inns[..j]) && ContactCounts(w.contactCount, db, licenses, inns[..j])
      && InnCounts(v.counts, w.counts, db, licenses, inns[..j])
  {
    hide PlanInn, ViewInn, ErrorOf, ErrorsAre, ContactCounts, InnCounts, CompaniesOf, OfInn;
    if j == 0 {
      NoneReported(v, db, licenses);
      assert inns[..0] == [];
    } else {
      InnsPlanned(v, db, licenses, inns, j - 1);
      var w := PlanInns(v, inns, ViewInns(db, licenses, inns), j - 1);
      var inn := inns[j - 1];
      assert inn !in Elements(inns[..j - 1]);
      assert inns[..j] == inns[..j - 1] + [inn];
      InnPlanned(w, inn, ViewInn(db, licenses, inn));
      ErrorSeen(db, licenses, inn);
      NextReported(v, w, db, licenses, inns[..j - 1], inn);
    }
  }

  lemma NoneReported(v: Visible, db: Db, licenses: seq<License>)
    requires v.errors == map[] && v.contactCount == map[]
    ensures ErrorsAre(v.errors, db, licenses, []) && ContactCounts(v.contactCount, db, licenses, []) && InnCounts(v.counts, v.counts, db, licenses, [])
  {
  }

  lemma NextReported(v: Visible, w: Visible, db: Db, licenses: seq<License>, inns: seq<string>, inn: string)
    requires inn !in inns && inn !in w.errors && inn !in w.contactCount
    requires ErrorsAre(w.errors, db, licenses, inns) && ContactCounts(w.contactCount, db, licenses, inns) && InnCounts(v.counts, w.counts, db, licenses, inns)
    ensures var u := PlanInn(w, inn, ViewInn(db, licenses, inn));
      ErrorsAre(u.errors, db, licenses, inns + [inn]) && ContactCounts(u.contactCount, db, licenses, inns + [inn])
      && InnCounts(v.counts, u.counts, db, licenses, inns + [inn])
  {
    hide CompaniesOf, OfInn, ErrorOf, PlanInn, AnyMany, CountClusters, ErrorsAre, ContactCounts, InnCounts, ViewInn;
    var view := ViewInn(db, licenses, inn);
    InnPlanned(w, inn, view);
    ErrorSeen(db, licenses, inn);
    ViewSize(db, licenses, inn);
    NextError(w.errors, PlanInn(w, inn, view).errors, db, licenses, inns, inn);
    NextContactCount(w.contactCount, PlanInn(w, inn, view).contactCount, db, licenses, inns, inn);
    NextCounts(v.counts, w, db, licenses, inns, inn);
  }

  lemma NextError(errors: map<string, ImportError>, after: map<string, ImportError>, db: Db, licenses: seq<License>, inns: seq<string>, inn: string)
    requires ErrorsAre(errors, db, licenses, inns) && inn !in inns && inn !in errors
    requires after == if ErrorOf(db, licenses, inn).Some? then errors[inn := ErrorOf(db, licenses, inn).value] else errors
    ensures ErrorsAre(after, db, licenses, inns + [inn])
  {
    hide ErrorOf;
  }

  lemma NextContactCount(counts: map<string, nat>, after: map<string, nat>, db: Db, licenses: seq<License>, inns: seq<string>, inn: string)
    requires ContactCounts(counts, db, licenses, inns) && inn !in inns && inn !in counts
    requires after == if |CompaniesOf(db, inn)| > 1 then counts else counts[inn := |Clusters.ContactClusters(OfInn(licenses, inn))|]
    ensures ContactCounts(after, db, licenses, inns + [inn])
  {
    hide CompaniesOf, OfInn;
  }

  lemma NextCounts(before: Counts, w: Visible, db: Db, licenses: seq<License>, inns: seq<string>, inn: string)
    requires InnCounts(before, w.counts, db, licenses, inns) && inn !in w.errors
    ensures InnCounts(before, PlanInn(w, inn, ViewInn(db, licenses, inn)).counts, db, licenses, inns + [inn])
  {
    hide CompaniesOf, OfInn, PlanInn, AnyMany, CountClusters, ViewInn;
    InnPlanned(w, inn, ViewInn(db, licenses, inn));
    ViewSize(db, licenses, inn);
    assert (inns + [inn])[..|inns|] == inns;
  }

  // ----- all groups -----

  // The line about a group.
  ghost predicate LineOf(r: GroupResult, errors: map<string, ImportError>, counts: map<string, nat>, db: Db, g: Group) {
    && r.group == g && r.contactCount == (if g.inn in counts then counts[g.inn] else 0)
    && match FateOf(errors, db, g)
       case Opens => r.action == Create
       case Updates => r.action == Update
       case Skips => r.action == Skip
       case Fails => g.inn in errors && r.action == Failed(errors[g.inn])
  }

  ghost predicate LinesAre(results: seq<GroupResult>, errors: map<string, ImportError>, counts: map<string, nat>, db: Db, groups: seq<Group>) {
    |results| == |groups| && forall i :: 0 <= i < |groups| ==> LineOf(results[i], errors, counts, db, groups[i])
  }

  ghost predicate GroupCounts(before: Counts, after: Counts, errors: map<string, ImportError>, db: Db, groups: seq<Group>) {
    after == before.(
      dealsCreated := before.dealsCreated + CountFate(errors, db, groups, Opens),
      dealsUpdated := before.dealsUpdated + CountFate(errors, db, groups, Updates),
      dealsSkipped := before.dealsSkipped + CountFate(errors, db, groups, Skips),
      errors := before.errors + CountFate(errors, db, groups, Fails),
      tasksCreated := before.tasksCreated + CountCall(errors, db, groups, Made),
      tasksReused := before.tasksReused + CountCall(errors, db, groups, Known),
      tasksSkipped := before.tasksSkipped + CountCall(errors, db, groups, Left))
  }

  lemma {:induction false} GroupsPlanned(v: Visible, db: Db, groups: seq<Group>, j: nat)
    requires j <= |groups| && v.results == []
    ensures var w := PlanGroups(v, groups, ViewGroups(db, groups), j);
      && w.errors == v.errors && w.contactCount == v.contactCount
      && LinesAre(w.results, v.errors, v.contactCount, db, groups[..j]) && GroupCounts(v.counts, w.counts, v.errors, db, groups[..j])
  {
    hide PlanGroup, ViewGroup, LinesAre, GroupCounts;
    if j == 0 {
      NoLines(v, db);
      assert groups[..0] == [];
    } else {
      GroupsPlanned(v, db, groups, j - 1);
      var w := PlanGroups(v, groups, ViewGroups(db, groups), j - 1);
      assert groups[..j] == groups[..j - 1] + [groups[j - 1]];
      NextLine(v, w, db, groups[..j - 1], groups[j - 1]);
    }
  }

  lemma NoLines(v: Visible, db: Db)
    ensures LinesAre([], v.errors, v.contactCount, db, []) && GroupCounts(v.counts, v.counts, v.errors, db, [])
  {
  }

  lemma NextLine(v: Visible, w: Visible, db: Db, groups: seq<Group>, g: Group)
    requires w.errors == v.errors && w.contactCount == v.contactCount
    requires LinesAre(w.results, v.errors, v.contactCount, db, groups) && GroupCounts(v.counts, w.counts, v.errors, db, groups)
    ensures var u := PlanGroup(w, g, ViewGroup(db, g));
      && u.errors == v.errors && u.contactCount == v.contactCount
      && LinesAre(u.results, v.errors, v.contactCount, db, groups + [g]) && GroupCounts(v.counts, u.counts, v.errors, db, groups + [g])
  {
    hide GroupKey, MappedDeal, MappedTask;
    assert (groups + [g])[..|groups|] == groups;
  }

  // ----- main result -----

  // Dry or real, an import that answers reports these errors, lines and counts.
  lemma ReportsAre(req: Request, parsed: Parsed, db: Db)
    requires ContactPoints.Lawful(req.text) && ValidRows(req.text, parsed.licenses) && WellFormed(req.text, db)
    requires Import(req, parsed, db).Some?
    ensures var m, groups, inns := Import(req, parsed, db).value, RenewalGroups.RenewalGroups(parsed.licenses), Inns(parsed.licenses);
      && ErrorsAre(m.companyErrors, db, parsed.licenses, inns)
      && ContactCounts(m.contactCountByInn, db, parsed.licenses, inns)
      && LinesAre(m.results, m.companyErrors, m.contactCountByInn, db, groups)
      && m.counts == Counts(
           |parsed.licenses| + parsed.duplicateRows, |parsed.licenses|, parsed.duplicateRows, |groups|,
           CountInns(db, inns, Zero), CountInns(db, inns, One),
           CountContacts(db, parsed.licenses, inns, false), CountContacts(db, parsed.licenses, inns, true),
           CountFate(m.companyErrors, db, groups, Opens), CountFate(m.companyErrors, db, groups, Updates),
           CountFate(m.companyErrors, db, groups, Skips),
           CountCall(m.companyErrors, db, groups, Made), CountCall(m.companyErrors, db, groups, Known),
           CountCall(m.companyErrors, db, groups, Left),
           CountFate(m.companyErrors, db, groups, Fails))
  {
    hide WellFormed, ValidRows, ContactPoints.Lawful, ImportFrom, RunEffect, Blocked, PlanInns, PlanGroups, RenewalGroups.RenewalGroups, Inns;
    hide ErrorsAre, ContactCounts, LinesAre, CountInns, CountContacts, CountFate, CountCall;
    var groups, inns := RenewalGroups.RenewalGroups(parsed.licenses), Inns(parsed.licenses);
    if req.dryRun {
      DryRunIsPlan(req, parsed, groups, db);
    } else {
      RealRun(req, parsed, db);
      RunSeen(req, parsed, db, Import(req, parsed, db).value);
    }
    RenewalGroups.InnsFacts(parsed.licenses);
    var start := Seen(Opening(db, parsed, groups));
    InnsPlanned(start, db, parsed.licenses, inns, |inns|);
    assert inns[..|inns|] == inns;
    var middle := PlanInns(start, inns, ViewInns(db, parsed.licenses, inns), |inns|);
    GroupsPlanned(middle, db, groups, |groups|);
    assert groups[..|groups|] == groups;
  }
}
