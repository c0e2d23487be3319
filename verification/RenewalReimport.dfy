// Importing the same rows a second time, and a database where the dry run and
// the real run part ways.
module RenewalReimport {
  import opened Prelude
  import opened Licenses
  import Clusters
  import ContactPoints
  import opened RenewalImport
  import opened RenewalPlan
  import opened RenewalEffects
  import opened RenewalPhase1
  import opened RenewalPhase2
  import opened RenewalPreview
  import RenewalGroups

  // ----- what the second run reports, in terms of the first -----

  // Everything created in the first run is found in the second; a deal created
  // in a stage that is not open is skipped from then on.
  function RepeatedCounts(c: Counts, targetFinal: bool): Counts {
    c.(companiesCreated := 0, companiesReused := c.companiesReused + c.companiesCreated,
       contactsCreated := 0, contactsReused := c.contactsReused + c.contactsCreated,
       dealsCreated := 0,
       dealsUpdated := c.dealsUpdated + (if targetFinal then 0 else c.dealsCreated),
       dealsSkipped := c.dealsSkipped + (if targetFinal then c.dealsCreated else 0),
       tasksCreated := 0, tasksReused := c.tasksReused + c.tasksCreated)
  }

  function RepeatedAction(a: Action, targetFinal: bool): Action {
    if a == Create then (if targetFinal then Skip else Update) else a
  }

  function RepeatedResults(results: seq<GroupResult>, targetFinal: bool): seq<GroupResult> {
    seq(|results|, i requires 0 <= i < |results| => results[i].(action := RepeatedAction(results[i].action, targetFinal)))
  }

  function Repeated(v: Visible, targetFinal: bool): Visible {
    Visible(RepeatedCounts(v.counts, targetFinal), v.errors, v.contactCount, RepeatedResults(v.results, targetFinal))
  }

  // ----- the plan over the views that a real run leaves -----

  lemma {:induction false} RepeatClusters(v: Visible, inn: string, views: seq<Few>, j: nat, targetFinal: bool)
    requires j <= |views| && inn !in v.errors
    ensures PlanClusters(Repeated(v, targetFinal), inn, AfterClusters(views), j)
         == Repeated(PlanClusters(v, inn, views, j), targetFinal)
    ensures inn in PlanClusters(v, inn, views, j).errors <==> AnyMany(views, j)
  {
    if j > 0 {
      RepeatClusters(v, inn, views, j - 1, targetFinal);
      assert AnyMany(views, j) <==> AnyMany(views, j - 1) || views[j - 1] == Many;
      RepeatCluster(PlanClusters(v, inn, views, j - 1), inn, views[j - 1], targetFinal);
    }
  }

  lemma RepeatCluster(v: Visible, inn: string, few: Few, targetFinal: bool)
    ensures PlanCluster(Repeated(v, targetFinal), inn, AfterFew(few, inn in v.errors))
         == Repeated(PlanCluster(v, inn, few), targetFinal)
  {
  }

  lemma RepeatInn(v: Visible, inn: string, view: InnView, targetFinal: bool)
    requires inn !in v.errors
    ensures PlanInn(Repeated(v, targetFinal), inn, AfterInn(view)) == Repeated(PlanInn(v, inn, view), targetFinal)
  {
    if view.companies != Many {
      var w := PlanCompany(v, inn, view);
      assert PlanCompany(Repeated(v, targetFinal), inn, AfterInn(view)) == Repeated(w, targetFinal);
      RepeatClusters(w, inn, view.clusters, |view.clusters|, targetFinal);
    }
  }

  lemma {:induction false} RepeatInns(v: Visible, inns: seq<string>, views: seq<InnView>, after: seq<InnView>, j: nat, targetFinal: bool)
    requires j <= |inns| == |views| == |after| && Distinct(inns)
    requires forall i :: 0 <= i < |inns| ==> inns[i] !in v.errors && after[i] == AfterInn(views[i])
    ensures PlanInns(Repeated(v, targetFinal), inns, after, j) == Repeated(PlanInns(v, inns, views, j), targetFinal)
    ensures forall i :: j <= i < |inns| ==> inns[i] !in PlanInns(v, inns, views, j).errors
  {
    hide PlanInn, Repeated, AfterInn;
    if j > 0 {
      RepeatInns(v, inns, views, after, j - 1, targetFinal);
      var w := PlanInns(v, inns, views, j - 1);
      RepeatInn(w, inns[j - 1], views[j - 1], targetFinal);
      forall i | j <= i < |inns| ensures inns[i] !in PlanInn(w, inns[j - 1], views[j - 1]).errors {
        PlanInnErrors(w, inns[j - 1], views[j - 1], inns[i]);
      }
    }
  }

  lemma RepeatGroup(v: Visible, g: Group, view: GroupView, targetFinal: bool)
    requires !view.action.Failed?
    ensures PlanGroup(Repeated(v, targetFinal), g, GroupAfter(view, g.inn in v.errors, targetFinal))
         == Repeated(PlanGroup(v, g, view), targetFinal)
    ensures PlanGroup(v, g, view).errors == v.errors
  {
    var once := PlanGroup(v, g, view);
    var twice := PlanGroup(Repeated(v, targetFinal), g, GroupAfter(view, g.inn in v.errors, targetFinal));
    var n := |v.results|;
    assert once.results == v.results + [once.results[n]];
    assert twice.results == RepeatedResults(v.results, targetFinal) + [twice.results[n]];
    assert twice.results[n] == once.results[n].(action := RepeatedAction(once.results[n].action, targetFinal));
    assert twice.results == RepeatedResults(once.results, targetFinal);
  }

  lemma {:induction false} RepeatGroups(v: Visible, groups: seq<Group>, views: seq<GroupView>, after: seq<GroupView>, j: nat, targetFinal: bool)
    requires j <= |groups| == |views| == |after|
    requires forall k :: 0 <= k < |groups| ==>
      !views[k].action.Failed? && after[k] == GroupAfter(views[k], groups[k].inn in v.errors, targetFinal)
    ensures PlanGroups(Repeated(v, targetFinal), groups, after, j) == Repeated(PlanGroups(v, groups, views, j), targetFinal)
    ensures PlanGroups(v, groups, views, j).errors == v.errors
  {
    hide PlanGroup, Repeated, GroupAfter;
    if j > 0 {
      RepeatGroups(v, groups, views, after, j - 1, targetFinal);
      RepeatGroup(PlanGroups(v, groups, views, j - 1), groups[j - 1], views[j - 1], targetFinal);
    }
  }

  // ----- main result 3 -----

  // Running the import again on the database it left: the run goes through and
  // reports the first run's outcome with everything created turned into found.
  lemma ReimportReports(req: Request, parsed: Parsed, db: Db)
    requires !req.dryRun && ContactPoints.Lawful(req.text)
    requires ValidRows(req.text, parsed.licenses) && WellFormed(req.text, db)
    requires Import(req, parsed, db).Some?
    ensures var first := Import(req, parsed, db).value;
      && Import(req, parsed, first.db).Some?
      && Seen(Import(req, parsed, first.db).value) == Repeated(Seen(first), FinalStage(db, req.stage))
  {
    hide ImportFrom, WellFormed, Blocked, ViewInn, ViewGroup, AfterInn, GroupAfter, RowsBalance, PlanGroups, PlanInns, Repeated;
    hide RenewalGroups.RenewalGroups, Inns;
    var groups, inns := RenewalGroups.RenewalGroups(parsed.licenses), Inns(parsed.licenses);
    RealRun(req, parsed, db);
    var first := Import(req, parsed, db).value;
    NotBlockedAgain(req, parsed, db);
    RealRun(req, parsed, first.db);
    var tf := FinalStage(db, req.stage);
    var start := Seen(Opening(db, parsed, groups));
    RenewalGroups.InnsFacts(parsed.licenses);
    OpeningRepeats(db, first.db, parsed, groups, tf);
    RepeatInns(start, inns, ViewInns(db, parsed.licenses, inns), ViewInns(first.db, parsed.licenses, inns), |inns|, tf);
    var middle := PlanInns(start, inns, ViewInns(db, parsed.licenses, inns), |inns|);
    ErrorsFixed(middle, groups, ViewGroups(db, groups), |groups|);
    forall k | 0 <= k < |groups| ensures !ViewGroups(db, groups)[k].action.Failed? {
      ViewGroupFields(db, groups[k]);
    }
    RepeatGroups(middle, groups, ViewGroups(db, groups), ViewGroups(first.db, groups), |groups|, tf);
  }

  // The second run is not refused where the first was not.
  lemma NotBlockedAgain(req: Request, parsed: Parsed, db: Db)
    requires !req.dryRun && ContactPoints.Lawful(req.text)
    requires ValidRows(req.text, parsed.licenses) && WellFormed(req.text, db)
    requires Import(req, parsed, db).Some?
    ensures !Blocked(req.text, parsed, Import(req, parsed, db).value.db)
  {
    hide ImportFrom, WellFormed, BlockedInns, ViewInn, ViewGroup, AfterInn, GroupAfter, RowsBalance, PlanGroups, PlanInns, Repeated;
    hide RenewalGroups.RenewalGroups, Inns, RefusedGroup;
    var groups, inns := RenewalGroups.RenewalGroups(parsed.licenses), Inns(parsed.licenses);
    RealRun(req, parsed, db);
    var first := Import(req, parsed, db).value;
    var tf := FinalStage(db, req.stage);
    SameErrors(req, parsed, db);
    forall k | 0 <= k < |groups| ensures !RefusedGroup(groups[k], PlannedErrors(parsed, first.db), ViewGroup(first.db, groups[k])) {
      assert !RefusedGroup(groups[k], PlannedErrors(parsed, db), ViewGroup(db, groups[k]));
      StaysUnrefused(groups[k], PlannedErrors(parsed, db), ViewGroup(db, groups[k]), groups[k].inn in first.companyErrors, tf);
    }
  }

  lemma StaysUnrefused(g: Group, errors: map<string, ImportError>, view: GroupView, failed: bool, targetFinal: bool)
    requires !RefusedGroup(g, errors, view)
    ensures !RefusedGroup(g, errors, GroupAfter(view, failed, targetFinal))
  {
    hide GroupFits;
  }

  // Both runs record the same errors.
  lemma SameErrors(req: Request, parsed: Parsed, db: Db)
    requires !req.dryRun && ContactPoints.Lawful(req.text)
    requires ValidRows(req.text, parsed.licenses) && WellFormed(req.text, db)
    requires Import(req, parsed, db).Some?
    ensures PlannedErrors(parsed, Import(req, parsed, db).value.db) == PlannedErrors(parsed, db)
  {
    hide ImportFrom, WellFormed, Blocked, ViewInn, ViewGroup, AfterInn, GroupAfter, RowsBalance, PlanGroups, PlanInns;
    hide RenewalGroups.RenewalGroups, Inns;
    var groups, inns := RenewalGroups.RenewalGroups(parsed.licenses), Inns(parsed.licenses);
    RealRun(req, parsed, db);
    var first := Import(req, parsed, db).value;
    var tf := FinalStage(db, req.stage);
    var start := Seen(Opening(db, parsed, groups));
    RenewalGroups.InnsFacts(parsed.licenses);
    OpeningRepeats(db, first.db, parsed, groups, tf);
    RepeatInns(start, inns, ViewInns(db, parsed.licenses, inns), ViewInns(first.db, parsed.licenses, inns), |inns|, tf);
  }

  lemma OpeningRepeats(d: Db, e: Db, parsed: Parsed, groups: seq<Group>, targetFinal: bool)
    ensures Seen(Opening(e, parsed, groups)) == Repeated(Seen(Opening(d, parsed, groups)), targetFinal)
    ensures Seen(Opening(d, parsed, groups)).errors == map[]
  {
    assert RepeatedResults([], targetFinal) == [];
  }

  lemma {:induction false} ErrorsFixed(v: Visible, groups: seq<Group>, views: seq<GroupView>, j: nat)
    requires j <= |groups| == |views|
    ensures PlanGroups(v, groups, views, j).errors == v.errors
  {
    if j > 0 {
      ErrorsFixed(v, groups, views, j - 1);
    }
  }

  // In particular, with an open target stage the second run creates nothing:
  // no row is added, every "create" becomes "update", "skip" and errors stay.
  lemma ReimportCreatesNothing(req: Request, parsed: Parsed, db: Db)
    requires !req.dryRun && ContactPoints.Lawful(req.text)
    requires ValidRows(req.text, parsed.licenses) && WellFormed(req.text, db)
    requires Import(req, parsed, db).Some? && !FinalStage(db, req.stage)
    ensures var first := Import(req, parsed, db).value;
      && Import(req, parsed, first.db).Some?
      && var second := Import(req, parsed, first.db).value;
         && |second.db.companies| == |first.db.companies| && |second.db.contacts| == |first.db.contacts|
         && |second.db.deals| == |first.db.deals| && |second.db.tasks| == |first.db.tasks|
         && |second.results| == |first.results|
         && forall i :: 0 <= i < |first.results| ==>
              second.results[i] == first.results[i].(action :=
                if first.results[i].action == Create then Update else first.results[i].action)
  {
    hide ImportFrom, WellFormed;
    ReimportReports(req, parsed, db);
    CountsAreRows(req, parsed, db);
    CountsAreRows(req, parsed, Import(req, parsed, db).value.db);
  }

  // ----- where the preview is not faithful -----

  // A contact whose email was stored although it does not normalize (the
  // amoCRM import keeps such values) and that shares its phone with a row.
  lemma PreviewCanMislead() returns (req: Request, parsed: Parsed, db: Db)
    ensures ContactPoints.Lawful(req.text) && ValidRows(req.text, parsed.licenses) && WellFormed(req.text, db)
    ensures Import(req.(dryRun := true), parsed, db).Some?
    ensures Import(req.(dryRun := false), parsed, db).None?
  {
    var text := ContactPoints.Text((v: string) => v,
      (k: ContactPoints.Kind, v: string) => if v == "" || v == "bad" then None else Some(v));
    var day := DateFields(2026, 10, 15);
    var row := License(1, "L", day, day, "", "7700000000", "9", "9", "", "", "P");
    var contact := ContactPoints.Contact(Some(0), None, false, None, None, ["bad"], ["9"], 1);
    req := Request(text, 0, 0, 0, 0, false);
    parsed := Parsed([row], 0);
    db := Db(2, map[0 := Company("", "7700000000", None, None, false)], map[1 := contact],
             map[1 := [ContactPoints.Point(ContactPoints.Phone, "9", "9", true)]], map[], map[], map[], map[], None, map[]);
    MisleadingWellFormed(text, contact, db);
    assert ValidRow(text, row);
    MisleadingBlocked(text, row, contact, db);
    hide WellFormed, Blocked, Import;
    PreviewIsFaithful(req, parsed, db);
  }

  // A customer name that is too long for the name of a company, and an INN that
  // is new: the dry run announces a company, the real run cannot insert it.
  lemma LongNameMisleads() returns (req: Request, parsed: Parsed, db: Db)
    ensures ContactPoints.Lawful(req.text) && ValidRows(req.text, parsed.licenses) && WellFormed(req.text, db)
    ensures db.companies == map[] && db.contacts == map[] && |parsed.licenses| == 1 && |parsed.licenses[0].customerName| == 241
    ensures Import(req.(dryRun := true), parsed, db).Some?
    ensures Import(req.(dryRun := false), parsed, db).None?
  {
    var text := ContactPoints.Text((v: string) => v, (k: ContactPoints.Kind, v: string) => if v == "" then None else Some(v));
    var day, name := DateFields(2026, 10, 15), seq(NAME_WIDTH + 1, _ => 'x');
    var row := License(1, "L", day, day, name, "7700000000", "9", "9", "", "", "P");
    req := Request(text, 0, 0, 0, 0, false);
    parsed := Parsed([row], 0);
    db := Db(0, map[], map[], map[], map[], map[], map[], map[], None, map[]);
    assert ValidRow(text, row);
    LongNameBlocked(text, row, db);
    hide WellFormed, Blocked, Import;
    PreviewIsFaithful(req, parsed, db);
  }

  lemma LongNameBlocked(t: ContactPoints.Text, row: License, db: Db)
    requires |row.customerName| > NAME_WIDTH && db.companies == map[]
    ensures Blocked(t, Parsed([row], 0), db)
  {
    hide BlockedBefore, RefusedGroups, Clusters.ContactClusters;
    var inn := row.inn;
    assert [row][..0] == [];
    assert OfInn([row], inn) == [row];
    assert Inns([row]) == [inn];
    assert LongestName([row]) == row.customerName;
    assert CompaniesOf(db, inn) == {};
    assert Inns([row])[0] == inn && BlockedInn(t, db, [row], Inns([row])[0]);
  }

  lemma MisleadingWellFormed(t: ContactPoints.Text, c: ContactPoints.Contact, db: Db)
    requires c == ContactPoints.Contact(Some(0), None, false, None, None, ["bad"], ["9"], 1)
    requires db == Db(2, map[0 := Company("", "7700000000", None, None, false)], map[1 := c],
                      map[1 := [ContactPoints.Point(ContactPoints.Phone, "9", "9", true)]], map[], map[], map[], map[], None, map[])
    requires t.normalize(ContactPoints.Email, "bad").None? && t.normalize(ContactPoints.Phone, "9") == Some("9")
    ensures WellFormed(t, db)
  {
    MisleadingIndex(t, c, db.points[1]);
    hide ContactPoints.Agrees;
  }

  lemma MisleadingIndex(t: ContactPoints.Text, c: ContactPoints.Contact, rows: seq<ContactPoints.Point>)
    requires c == ContactPoints.Contact(Some(0), None, false, None, None, ["bad"], ["9"], 1)
    requires rows == [ContactPoints.Point(ContactPoints.Phone, "9", "9", true)]
    requires t.normalize(ContactPoints.Email, "bad").None? && t.normalize(ContactPoints.Phone, "9") == Some("9")
    ensures ContactPoints.Agrees(t, c, rows)
  {
    assert ContactPoints.RawValues(c, ContactPoints.Phone) == ["9"];
    assert ContactPoints.RawValues(c, ContactPoints.Email) == ["bad"];
    assert rows[0] in rows;
    assert ContactPoints.PointIdentities(rows) == {(ContactPoints.Phone, "9")};
    assert "9" in ContactPoints.RawValues(c, ContactPoints.Phone);
    assert ContactPoints.Identities(t, c) == {(ContactPoints.Phone, "9")};
    assert ContactPoints.SolePrimary(rows, ContactPoints.Phone, 0);
  }

  lemma MisleadingBlocked(t: ContactPoints.Text, row: License, contact: ContactPoints.Contact, db: Db)
    requires row.inn == "7700000000" && row.normalizedPhone == "9" && row.normalizedEmail == ""
    requires contact == ContactPoints.Contact(Some(0), None, false, None, None, ["bad"], ["9"], 1)
    requires db.companies == map[0 := Company("", "7700000000", None, None, false)] && db.contacts == map[1 := contact]
    requires db.points == map[1 := [ContactPoints.Point(ContactPoints.Phone, "9", "9", true)]]
    requires t.strip("bad") == "bad" && t.normalize(ContactPoints.Email, "bad").None?
    requires ContactPoints.Lawful(t) && ValidRows(t, [row])
    ensures Blocked(t, Parsed([row], 0), db)
  {
    var inn := "7700000000";
    assert [row][..0] == [];
    assert OfInn([row], inn) == [row];
    assert Inns([row]) == [inn];
    assert Clusters.ContactClusters([row]) == Clusters.Absorb(Clusters.ContactClusters([]), row) == [[row]];
    assert CompaniesOf(db, inn) == {0};
    SoleElement({0});
    var points := db.points[1];
    assert points[0] in points;
    assert (ContactPoints.Phone, "9") in PointsOfContact(db, 1);
    assert (ContactPoints.Phone, "9") in LicenseIdentities(row);
    assert (ContactPoints.Phone, "9") in ClusterIdentities([row]);
    assert Matches(db, 0, ClusterIdentities([row])) == {1};
    assert "bad" in ContactPoints.RawValues(contact, ContactPoints.Email);
    assert !ContactPoints.AllValid(t, contact);
    MergeNormalizesIff(t, contact, [row]);
    var clusters := Clusters.ContactClusters(OfInn([row], inn));
    assert clusters[0] == [row] && |clusters| == 1;
    assert ExistingCompany(db, inn) == Some(0);
    assert 1 in ClusterMatches(db, Some(0), clusters[0]) && Gathered(db, Some(0), clusters, 0, 1) == ValuesOf(contact);
    assert BlockedCluster(t, db, Some(0), clusters, 0);
    assert Inns([row])[0] == inn && BlockedInn(t, db, [row], Inns([row])[0]);
  }
}
