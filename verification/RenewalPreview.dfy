// The promises of the subscription import about whole runs: a dry run is a
// faithful preview, what a run reports is what it writes, and importing the
// same rows again creates nothing.
module RenewalPreview {
  import opened Prelude
  import opened Licenses
  import Clusters
  import ContactPoints
  import opened RenewalImport
  import opened RenewalPlan
  import opened RenewalEffects
  import opened RenewalPhase1
  import opened RenewalPhase2
  import RenewalGroups

  function Import(req: Request, parsed: Parsed, db: Db): Option<Ledger> {
    ImportFrom(req, parsed, RenewalGroups.RenewalGroups(parsed.licenses), db)
  }

  // Which INNs end up with an error, as far as the initial database tells.
  function PlannedErrors(parsed: Parsed, db: Db): map<string, ImportError> {
    var inns := Inns(parsed.licenses);
    PlanInns(Seen(Opening(db, parsed, RenewalGroups.RenewalGroups(parsed.licenses))), inns, ViewInns(db, parsed.licenses, inns), |inns|).errors
  }

  // Known before the call: a company or a contact that the import would write
  // cannot be stored, because a value does not normalize or a text is too long
  // for its column, or an external id of a group it would write is too long.
  ghost predicate Blocked(t: ContactPoints.Text, parsed: Parsed, db: Db) {
    var groups := RenewalGroups.RenewalGroups(parsed.licenses);
    || BlockedInns(t, db, parsed.licenses, Inns(parsed.licenses), |Inns(parsed.licenses)|)
    || RefusedGroups(groups, PlannedErrors(parsed, db), db, |groups|)
  }

  // What a real run leaves behind, in terms of the database it started from.
  ghost predicate RunEffect(req: Request, parsed: Parsed, db: Db, m: Ledger) {
    var groups, inns := RenewalGroups.RenewalGroups(parsed.licenses), Inns(parsed.licenses);
    && Seen(m) == Plan(parsed, groups, db)
    && WellFormed(req.text, m.db)
    && RowsBalance(db, Opening(db, parsed, groups).counts, m.db, m.counts)
    && (forall i :: 0 <= i < |inns| ==>
          ViewInn(m.db, parsed.licenses, inns[i]) == AfterInn(ViewInn(db, parsed.licenses, inns[i])))
    && (forall k :: 0 <= k < |groups| ==>
          ViewGroup(m.db, groups[k])
          == GroupAfter(ViewGroup(db, groups[k]), groups[k].inn in m.companyErrors, FinalStage(db, req.stage)))
    && !BlockedInns(req.text, m.db, parsed.licenses, inns, |inns|)
    && m.db.openStages == db.openStages
  }

  lemma RealRun(req: Request, parsed: Parsed, db: Db)
    requires !req.dryRun && ContactPoints.Lawful(req.text)
    requires ValidRows(req.text, parsed.licenses) && WellFormed(req.text, db)
    ensures Import(req, parsed, db).None? <==> Blocked(req.text, parsed, db)
    ensures Import(req, parsed, db).Some? ==> RunEffect(req, parsed, db, Import(req, parsed, db).value)
  {
    hide WellFormed, SameView, ViewInn, ViewGroup, BlockedInns, AfterInn, GroupAfter, InnSteps, GroupSteps, RowsBalance;
    var groups, inns := RenewalGroups.RenewalGroups(parsed.licenses), Inns(parsed.licenses);
    var start := Opening(db, parsed, groups);
    RenewalGroups.InnsFacts(parsed.licenses);
    RealInns(req, parsed.licenses, inns, |inns|, start);
    var phase1 := InnSteps(req, parsed.licenses, inns, |inns|, start);
    if phase1.Some? {
      var l := phase1.value;
      var s := EnsureSource(req, l);
      SourceEffect(req, parsed.licenses, l);
      GroupsKeyed(parsed.licenses);
      AllResolved(req, parsed, l);
      assert forall g :: g in groups ==> Resolved(s, g);
      RealGroups(req, groups, |groups|, s);
      SameRefusals(parsed, db, l, s);
      var last := GroupSteps(req, groups, |groups|, s);
      if last.Some? {
        Assemble(req, parsed, db, l, s, last.value);
      }
    }
  }

  // Phase 1 and the source do not change which groups are refused.
  lemma SameRefusals(parsed: Parsed, db: Db, l: Ledger, s: Ledger)
    requires var groups, inns := RenewalGroups.RenewalGroups(parsed.licenses), Inns(parsed.licenses);
      && Seen(l) == PlanInns(Seen(Opening(db, parsed, groups)), inns, ViewInns(db, parsed.licenses, inns), |inns|)
    requires SameBusiness(db, l.db) && Seen(s) == Seen(l)
    requires s.db == l.db.(nextId := s.db.nextId, source := s.db.source) && l.db.nextId <= s.db.nextId
    ensures var groups := RenewalGroups.RenewalGroups(parsed.licenses);
      RefusedGroups(groups, s.companyErrors, s.db, |groups|) <==> RefusedGroups(groups, PlannedErrors(parsed, db), db, |groups|)
  {
    hide ViewGroup, PlanInns, ViewInns, SameBusiness, RefusedGroup;
    SameGroupViews(db, l.db, s.db);
  }

  lemma SourceEffect(req: Request, licenses: seq<License>, l: Ledger)
    requires WellFormed(req.text, l.db) && !req.dryRun
    ensures var s := EnsureSource(req, l);
      && WellFormed(req.text, s.db) && s.db.source.Some? && Seen(s) == Seen(l)
      && s == l.(db := s.db) && s.db == l.db.(nextId := s.db.nextId, source := s.db.source)
      && l.db.nextId <= s.db.nextId
  {
    var s := EnsureSource(req, l);
    forall c ensures PointsOfContact(s.db, c) == PointsOfContact(l.db, c) {}
  }

  lemma GroupsKeyed(licenses: seq<License>)
    ensures KeysDiffer(RenewalGroups.RenewalGroups(licenses))
  {
    var groups := RenewalGroups.RenewalGroups(licenses);
    RenewalGroups.RenewalGroupsFacts(licenses);
    forall i, j | 0 <= i < |groups| && 0 <= j < |groups| && i != j ensures GroupKey(groups[i]) != GroupKey(groups[j]) {
      RenewalGroups.GroupKeysDiffer(groups, if i < j then i else j, if i < j then j else i);
    }
  }

  // After phase 1 every group has a company or an error.
  lemma AllResolved(req: Request, parsed: Parsed, l: Ledger)
    requires var inns := Inns(parsed.licenses);
      forall i :: 0 <= i < |inns| ==>
        inns[i] in l.companyByInn && (inns[i] !in l.companyErrors ==> l.companyByInn[inns[i]].Some?)
    ensures forall g :: g in RenewalGroups.RenewalGroups(parsed.licenses) ==>
      g.inn in l.companyErrors || (g.inn in l.companyByInn && l.companyByInn[g.inn].Some?)
  {
    forall g | g in RenewalGroups.RenewalGroups(parsed.licenses)
      ensures g.inn in l.companyErrors || (g.inn in l.companyByInn && l.companyByInn[g.inn].Some?)
    {
      RenewalGroups.GroupInn(parsed.licenses, g);
    }
  }

  lemma Assemble(req: Request, parsed: Parsed, db: Db, l: Ledger, s: Ledger, m: Ledger)
    requires var groups, inns := RenewalGroups.RenewalGroups(parsed.licenses), Inns(parsed.licenses);
      && InnsDbEffect(req.text, parsed.licenses, inns, |inns|, db, l.db)
      && InnsLedgerEffect(parsed.licenses, inns, |inns|, Opening(db, parsed, groups), l)
      && Seen(s) == Seen(l) && s == l.(db := s.db) && s.db == l.db.(nextId := s.db.nextId, source := s.db.source)
      && l.db.nextId <= s.db.nextId
      && GroupsDbEffect(req.text, groups, s.companyErrors, FinalStage(s.db, req.stage), |groups|, s.db, m.db)
      && GroupsLedgerEffect(groups, |groups|, s, m)
    ensures RunEffect(req, parsed, db, m)
  {
    hide WellFormed, SameView, ViewInn, ViewGroup, BlockedInns, AfterInn, GroupAfter, SameBusiness;
    hide RenewalGroups.RenewalGroups, Inns, PlanInns, PlanGroups;
    var groups, inns := RenewalGroups.RenewalGroups(parsed.licenses), Inns(parsed.licenses);
    SameGroupViews(db, l.db, s.db);
    assert ViewGroups(s.db, groups) == ViewGroups(db, groups);
    SameInnViews(l.db, m.db, parsed.licenses);
    StillUnblocked(req.text, l.db, m.db, parsed.licenses, inns);
    SameStages(db, l.db);
    assert FinalStage(s.db, req.stage) == FinalStage(db, req.stage);
    AddBalances(db, Opening(db, parsed, groups), l, s, m);
    hide RowsBalance;
    assert Seen(m) == Plan(parsed, groups, db);
  }

  lemma AddBalances(db: Db, start: Ledger, l: Ledger, s: Ledger, m: Ledger)
    requires start.db == db && RowsBalance(start.db, start.counts, l.db, l.counts)
    requires s == l.(db := s.db) && s.db == l.db.(nextId := s.db.nextId, source := s.db.source)
    requires RowsBalance(s.db, s.counts, m.db, m.counts)
    ensures RowsBalance(db, start.counts, m.db, m.counts)
  {
  }

  lemma SameStages(d: Db, e: Db)
    requires SameBusiness(d, e)
    ensures e.openStages == d.openStages
  {
  }

  lemma SameGroupViews(d: Db, l: Db, s: Db)
    requires SameBusiness(d, l) && s == l.(nextId := s.nextId, source := s.source) && l.nextId <= s.nextId
    ensures forall g :: ViewGroup(s, g) == ViewGroup(d, g)
  {
    forall g ensures ViewGroup(s, g) == ViewGroup(d, g) {
      SameGroupView(d, s, g);
    }
  }

  lemma SameInnViews(d: Db, e: Db, licenses: seq<License>)
    requires e.companies == d.companies && e.contacts == d.contacts && e.points == d.points
    ensures forall inn :: ViewInn(e, licenses, inn) == ViewInn(d, licenses, inn)
  {
    forall inn ensures ViewInn(e, licenses, inn) == ViewInn(d, licenses, inn) {
      SameTables(d, e, inn);
      SameViewInn(d, e, licenses, inn);
    }
  }

  lemma SameGroupView(d: Db, e: Db, g: Group)
    requires SameBusiness(d, e.(source := d.source))
    ensures ViewGroup(e, g) == ViewGroup(d, g)
  {
  }

  lemma SameTables(d: Db, e: Db, inn: string)
    requires e.companies == d.companies && e.contacts == d.contacts && e.points == d.points
    ensures SameView(d, e, inn)
  {
    assert CompaniesOf(e, inn) == CompaniesOf(d, inn);
    forall company, x | company in CompaniesOf(d, inn) ensures Matches(e, company, x) == Matches(d, company, x) {
      SameMatches(d, e, company, x);
    }
  }

  lemma StillUnblocked(t: ContactPoints.Text, d: Db, e: Db, licenses: seq<License>, inns: seq<string>)
    requires e.companies == d.companies && e.contacts == d.contacts && e.points == d.points
    requires !BlockedInns(t, d, licenses, inns, |inns|)
    ensures !BlockedInns(t, e, licenses, inns, |inns|)
  {
    forall i | 0 <= i < |inns| ensures !BlockedInn(t, e, licenses, inns[i]) {
      SameTables(d, e, inns[i]);
      BlockedSame(t, d, e, licenses, inns[i]);
    }
  }

  // ----- main result 1: the dry run is a faithful preview -----

  // A dry run always answers and writes nothing. The real run from the same
  // database gives the same counts and the same result for every group exactly
  // when it is not blocked; when it is blocked it raises instead.
  lemma PreviewIsFaithful(req: Request, parsed: Parsed, db: Db)
    requires ContactPoints.Lawful(req.text)
    requires ValidRows(req.text, parsed.licenses) && WellFormed(req.text, db)
    ensures var dry, run := Import(req.(dryRun := true), parsed, db), Import(req.(dryRun := false), parsed, db);
      && dry.Some? && dry.value.db == db
      && (run.Some? && OutcomeOf(run.value) == OutcomeOf(dry.value) <==> !Blocked(req.text, parsed, db))
      && (run.None? <==> Blocked(req.text, parsed, db))
  {
    hide WellFormed, Blocked, RunEffect, Plan, ImportFrom;
    DryRunIsPlan(req.(dryRun := true), parsed, RenewalGroups.RenewalGroups(parsed.licenses), db);
    RealRun(req.(dryRun := false), parsed, db);
    var run := Import(req.(dryRun := false), parsed, db);
    if run.Some? {
      RunSeen(req.(dryRun := false), parsed, db, run.value);
    }
  }

  lemma RunSeen(req: Request, parsed: Parsed, db: Db, m: Ledger)
    requires RunEffect(req, parsed, db, m)
    ensures Seen(m) == Plan(parsed, RenewalGroups.RenewalGroups(parsed.licenses), db)
  {
  }

  // ----- main result 2: the counts are the rows -----

  // A real run keeps the database well formed and adds exactly as many
  // companies, contacts, deals and tasks as it reports created.
  lemma CountsAreRows(req: Request, parsed: Parsed, db: Db)
    requires !req.dryRun && ContactPoints.Lawful(req.text)
    requires ValidRows(req.text, parsed.licenses) && WellFormed(req.text, db)
    requires Import(req, parsed, db).Some?
    ensures var m := Import(req, parsed, db).value;
      && WellFormed(req.text, m.db)
      && |m.db.companies| == |db.companies| + m.counts.companiesCreated
      && |m.db.contacts| == |db.contacts| + m.counts.contactsCreated
      && |m.db.deals| == |db.deals| + m.counts.dealsCreated
      && |m.db.tasks| == |db.tasks| + m.counts.tasksCreated
  {
    hide ImportFrom, WellFormed, Blocked, Plan, ViewInn, ViewGroup;
    RealRun(req, parsed, db);
  }
}
