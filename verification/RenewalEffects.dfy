// What a real run writes in phase 1, one cluster at a time, and what every
// later query is entitled to see.
module RenewalEffects {
  import opened Prelude
  import opened Licenses
  import Clusters
  import ContactPoints
  import DealLinks
  import opened RenewalImport
  import opened RenewalPlan

  // ----- the rows and the database an import may assume -----

  // What the parser guarantees for every accepted row.
  ghost predicate ValidRow(t: ContactPoints.Text, l: License) {
    && Identified(l)
    && (if l.phone == "" then l.normalizedPhone == ""
        else l.normalizedPhone != "" && t.normalize(ContactPoints.Phone, l.phone) == Some(l.normalizedPhone))
    && (if l.email == "" then l.normalizedEmail == ""
        else l.normalizedEmail != "" && t.normalize(ContactPoints.Email, l.email) == Some(l.normalizedEmail))
  }

  ghost predicate ValidRows(t: ContactPoints.Text, licenses: seq<License>) {
    forall l :: l in licenses ==> ValidRow(t, l)
  }

  // The index agrees with every live contact, links are consistent, and ids
  // in use (also dangling ones in mappings) are below the next fresh one.
  ghost predicate WellFormed(t: ContactPoints.Text, db: Db) {
    && IndexAgrees(t, db)
    && (forall d :: d in db.links ==> DealLinks.Consistent(db.links[d]))
    && IdsBelow(db)
  }

  ghost predicate IndexAgrees(t: ContactPoints.Text, db: Db) {
    forall c :: c in db.contacts && !db.contacts[c].deleted ==>
      c in db.points && ContactPoints.Agrees(t, db.contacts[c], db.points[c])
  }

  ghost predicate IdsBelow(db: Db) {
    && (forall id :: id in db.companies || id in db.contacts || id in db.deals || id in db.tasks ==> id < db.nextId)
    && (forall c :: c in db.contacts && db.contacts[c].company.Some? ==> db.contacts[c].company.value < db.nextId)
    && (forall k :: k in db.mappings ==> db.mappings[k].internal < db.nextId)
  }

  // ----- raw values of new and merged contacts -----

  lemma {:induction false} UniqueValuesFacts(values: seq<string>)
    ensures forall v :: v in UniqueValues(values) <==> v in values && v != ""
  {
    if values != [] {
      var front := values[..|values| - 1];
      UniqueValuesFacts(front);
      assert values == front + [values[|values| - 1]];
    }
  }

  function RawOf(cluster: seq<License>, k: ContactPoints.Kind): seq<string> {
    if k == ContactPoints.Email then RawEmails(cluster) else RawPhones(cluster)
  }

  // The identities of a cluster are the normalizations of its raw values.
  lemma ClusterKind(t: ContactPoints.Text, cluster: seq<License>, k: ContactPoints.Kind, i: ContactPoints.Identity)
    requires ContactPoints.Lawful(t) && ValidRows(t, cluster) && i.0 == k
    ensures i in ClusterIdentities(cluster) <==> exists v :: v in RawOf(cluster, k) && t.normalize(k, v) == Some(i.1)
  {
    var raw := RawOf(cluster, k);
    if i in ClusterIdentities(cluster) {
      var l :| l in cluster && i in LicenseIdentities(l);
      var j :| 0 <= j < |cluster| && cluster[j] == l;
      assert ValidRow(t, l);
      assert raw[j] in raw && t.normalize(k, raw[j]) == Some(i.1);
    }
    if exists v :: v in raw && t.normalize(k, v) == Some(i.1) {
      var v :| v in raw && t.normalize(k, v) == Some(i.1);
      var j :| 0 <= j < |raw| && raw[j] == v;
      assert ValidRow(t, cluster[j]);
      assert v != "";
      assert i in LicenseIdentities(cluster[j]);
    }
  }

  // A contact whose raw values of each kind are those of an earlier contact
  // (if any) plus those of the cluster.
  ghost predicate RawExtends(c: Option<ContactPoints.Contact>, cluster: seq<License>, after: ContactPoints.Contact) {
    forall k, v :: v != "" ==>
      (v in ContactPoints.RawValues(after, k) <==>
         v in RawOf(cluster, k) || (c.Some? && v in ContactPoints.RawValues(c.value, k)))
  }

  lemma NewContactRaw(company: Id, assignee: Id, cluster: seq<License>)
    ensures RawExtends(None, cluster, NewContact(company, assignee, cluster))
  {
    UniqueValuesFacts(RawEmails(cluster));
    UniqueValuesFacts(RawPhones(cluster));
  }

  lemma MergedContactRaw(c: ContactPoints.Contact, assignee: Id, cluster: seq<License>)
    ensures RawExtends(Some(c), cluster, MergedContact(c, assignee, cluster))
  {
    var emails, phones := UniqueValues(RawEmails(cluster)), UniqueValues(RawPhones(cluster));
    UniqueValuesFacts(RawEmails(cluster));
    UniqueValuesFacts(RawPhones(cluster));
    UniqueValuesFacts(c.emails + emails);
    UniqueValuesFacts(c.phones + phones);
  }

  lemma ExtendedIdentities(t: ContactPoints.Text, c: Option<ContactPoints.Contact>, cluster: seq<License>, after: ContactPoints.Contact)
    requires ContactPoints.Lawful(t) && ValidRows(t, cluster) && RawExtends(c, cluster, after)
    ensures ContactPoints.Identities(t, after)
         == ClusterIdentities(cluster) + if c.Some? then ContactPoints.Identities(t, c.value) else {}
    ensures ContactPoints.AllValid(t, after) <==> (c.Some? ==> ContactPoints.AllValid(t, c.value))
  {
    forall i: ContactPoints.Identity
      ensures i in ContactPoints.Identities(t, after) <==>
        i in ClusterIdentities(cluster) || (c.Some? && i in ContactPoints.Identities(t, c.value))
    {
      ClusterKind(t, cluster, i.0, i);
      IdentityRaw(t, after, i);
      if c.Some? { IdentityRaw(t, c.value, i); }
    }
    forall k, v | v in RawOf(cluster, k) && t.strip(v) != "" ensures t.normalize(k, v).Some? {
      var j :| 0 <= j < |cluster| && RawOf(cluster, k)[j] == v;
      assert ValidRow(t, cluster[j]);
    }
    if c.Some? && ContactPoints.AllValid(t, after) {
      forall k, v | v in ContactPoints.RawValues(c.value, k) && t.strip(v) != "" ensures t.normalize(k, v).Some? {
        assert v in ContactPoints.RawValues(after, k);
      }
    }
  }

  lemma IdentityRaw(t: ContactPoints.Text, c: ContactPoints.Contact, i: ContactPoints.Identity)
    requires ContactPoints.Lawful(t)
    ensures i in ContactPoints.Identities(t, c) <==>
      exists v :: v in ContactPoints.RawValues(c, i.0) && v != "" && t.normalize(i.0, v) == Some(i.1)
  {
  }

  // ----- which contacts can be stored -----

  const BLANK: ContactPoints.Contact := ContactPoints.Contact(None, None, false, None, None, [], [], 0)

  function SyncedValues(t: ContactPoints.Text, v: Values): Option<seq<ContactPoints.Point>> {
    ContactPoints.Synced(t, WithValues(BLANK, v))
  }

  // Every value normalizes, and the contact and its index rows fit their columns.
  ghost predicate Storable(t: ContactPoints.Text, v: Values) {
    SyncedValues(t, v).Some? && ContactFits(v, SyncedValues(t, v).value)
  }

  lemma SyncedByValues(t: ContactPoints.Text, c: ContactPoints.Contact)
    ensures ContactPoints.Synced(t, c) == SyncedValues(t, ValuesOf(c))
  {
    var blank := WithValues(BLANK, ValuesOf(c));
    assert ContactPoints.RawValues(blank, ContactPoints.Email) == ContactPoints.RawValues(c, ContactPoints.Email);
    assert ContactPoints.RawValues(blank, ContactPoints.Phone) == ContactPoints.RawValues(c, ContactPoints.Phone);
    hide ContactPoints.PointsOf, ContactPoints.OrderedValues, ContactPoints.RawValues;
  }

  lemma StoredIff(t: ContactPoints.Text, db: Db, id: Id, c: ContactPoints.Contact)
    ensures StoreContact(t, db, id, c).Some? <==> Storable(t, ValuesOf(c))
  {
    hide ContactPoints.Synced, SyncedValues, ContactFits;
    SyncedByValues(t, c);
  }

  // The values of valid rows normalize, so a merge fails for a value that the
  // contact already stores, or for a width.
  lemma MergeNormalizesIff(t: ContactPoints.Text, c: ContactPoints.Contact, cluster: seq<License>)
    requires ContactPoints.Lawful(t) && ValidRows(t, cluster)
    ensures SyncedValues(t, MergedValues(ValuesOf(c), cluster)).Some? <==> ContactPoints.AllValid(t, c)
    ensures SyncedValues(t, NewValues(cluster)).Some?
  {
    hide ContactPoints.AllValid, ContactPoints.Identities, ContactPoints.Synced, SyncedValues, RawExtends, ValidRows, ContactPoints.Lawful;
    hide MergedValues, NewValues;
    var merged, made := MergedContact(c, 0, cluster), NewContact(0, 0, cluster);
    MergedContactRaw(c, 0, cluster);
    NewContactRaw(0, 0, cluster);
    ExtendedIdentities(t, Some(c), cluster, merged);
    ExtendedIdentities(t, None, cluster, made);
    ContactPoints.SyncedAgrees(t, merged);
    ContactPoints.SyncedAgrees(t, made);
    SyncedByValues(t, merged);
    SyncedByValues(t, made);
  }

  // ----- what a contact has taken in, merging again does not change -----

  ghost predicate Contains(primary: Option<string>, values: seq<string>, raw: seq<string>) {
    && values == UniqueValues(values) && primary != Some("")
    && (forall v :: v in raw && v != "" ==> v in values)
    && (UniqueValues(raw) != [] ==> primary.Some?)
  }

  ghost predicate Absorbs(v: Values, cluster: seq<License>) {
    Contains(v.primaryEmail, v.emails, RawEmails(cluster)) && Contains(v.primaryPhone, v.phones, RawPhones(cluster))
  }

  lemma {:induction false} UniqueTwice(values: seq<string>)
    ensures UniqueValues(UniqueValues(values)) == UniqueValues(values)
  {
    if values != [] {
      var before, v := UniqueValues(values[..|values| - 1]), values[|values| - 1];
      UniqueTwice(values[..|values| - 1]);
      if v != "" && v !in before {
        assert (before + [v])[..|before|] == before;
      }
    }
  }

  lemma {:induction false} NothingNew(values: seq<string>, more: seq<string>)
    requires forall v :: v in more && v != "" ==> v in UniqueValues(values)
    ensures UniqueValues(values + more) == UniqueValues(values)
  {
    if more == [] {
      assert values + more == values;
    } else {
      var front := more[..|more| - 1];
      assert (values + more)[..|values + more| - 1] == values + front;
      assert forall v :: v in front ==> v in more;
      NothingNew(values, front);
      assert more[|more| - 1] in more;
    }
  }

  lemma ContainedAgain(primary: Option<string>, values: seq<string>, raw: seq<string>)
    requires Contains(primary, values, raw)
    ensures OrElse(primary, First(UniqueValues(raw))) == primary
    ensures UniqueValues(values + UniqueValues(raw)) == values
  {
    UniqueValuesFacts(raw);
    NothingNew(values, UniqueValues(raw));
  }

  // A merge takes in the values of its rows, and keeps what was taken in.
  lemma ContainedMerged(primary: Option<string>, values: seq<string>, raw: seq<string>, other: seq<string>)
    ensures Contains(First(UniqueValues(raw)), UniqueValues(raw), raw)
    ensures Contains(OrElse(primary, First(UniqueValues(raw))), UniqueValues(values + UniqueValues(raw)), raw)
    ensures Contains(primary, values, other) ==>
      Contains(OrElse(primary, First(UniqueValues(raw))), UniqueValues(values + UniqueValues(raw)), other)
  {
    UniqueTwice(raw);
    UniqueTwice(values + UniqueValues(raw));
    UniqueValuesFacts(raw);
    UniqueValuesFacts(values);
    UniqueValuesFacts(values + UniqueValues(raw));
    hide UniqueValues;
    assert UniqueValues(raw) != [] ==> UniqueValues(raw)[0] in UniqueValues(raw);
  }

  lemma MergedAgain(v: Values, cluster: seq<License>)
    requires Absorbs(v, cluster)
    ensures MergedValues(v, cluster) == v
  {
    hide UniqueValues, RawEmails, RawPhones, OrElse, First, Contains;
    ContainedAgain(v.primaryEmail, v.emails, RawEmails(cluster));
    ContainedAgain(v.primaryPhone, v.phones, RawPhones(cluster));
  }

  lemma MergeAbsorbs(v: Values, cluster: seq<License>, other: seq<License>)
    ensures Absorbs(NewValues(cluster), cluster) && Absorbs(MergedValues(v, cluster), cluster)
    ensures Absorbs(v, other) ==> Absorbs(MergedValues(v, cluster), other)
  {
    hide UniqueValues, RawEmails, RawPhones, OrElse, First, Contains;
    ContainedMerged(v.primaryEmail, v.emails, RawEmails(cluster), RawEmails(other));
    ContainedMerged(v.primaryPhone, v.phones, RawPhones(cluster), RawPhones(other));
  }

  // ----- storing a contact -----

  // Of the database only one contact and its rows changed (or appeared), and
  // that contact belongs to the company; its identities grew by the cluster's.
  ghost predicate ContactWrite(t: ContactPoints.Text, d: Db, e: Db, company: Id, cluster: seq<License>, c: Id) {
    && e == d.(contacts := e.contacts, points := e.points)
    && c in e.contacts && c in e.points
    && e.contacts == d.contacts[c := e.contacts[c]]
    && e.points == d.points[c := e.points[c]]
    && e.contacts[c].company == Some(company) && !e.contacts[c].deleted
    && ContactPoints.Agrees(t, e.contacts[c], e.points[c])
    && Storable(t, ValuesOf(e.contacts[c]))
    && ValuesOf(e.contacts[c]) == (if c in d.contacts then MergedValues(ValuesOf(d.contacts[c]), cluster) else NewValues(cluster))
    && PointsOfContact(e, c)
       == ClusterIdentities(cluster) + (if c in d.contacts then PointsOfContact(d, c) else {})
    && (c in d.contacts ==> d.contacts[c].company == Some(company) && !d.contacts[c].deleted)
  }

  lemma StoreMerged(t: ContactPoints.Text, d: Db, company: Id, assignee: Id, cluster: seq<License>, c: Id)
    requires ContactPoints.Lawful(t) && ValidRows(t, cluster) && WellFormed(t, d)
    requires c in d.contacts && d.contacts[c].company == Some(company) && !d.contacts[c].deleted
    ensures var stored := StoreContact(t, d, c, MergedContact(d.contacts[c], assignee, cluster));
      && (stored.Some? <==> Storable(t, MergedValues(ValuesOf(d.contacts[c]), cluster)))
      && (stored.Some? ==> ContactWrite(t, d, stored.value, company, cluster, c))
  {
    var after := MergedContact(d.contacts[c], assignee, cluster);
    MergedContactRaw(d.contacts[c], assignee, cluster);
    ExtendedIdentities(t, Some(d.contacts[c]), cluster, after);
    ContactPoints.SyncedAgrees(t, after);
    StoredIff(t, d, c, after);
    assert ContactPoints.Agrees(t, d.contacts[c], d.points[c]);
  }

  lemma StoreNew(t: ContactPoints.Text, d: Db, company: Id, assignee: Id, cluster: seq<License>)
    requires ContactPoints.Lawful(t) && ValidRows(t, cluster) && WellFormed(t, d)
    ensures var stored := StoreContact(t, d, d.nextId, NewContact(company, assignee, cluster));
      && d.nextId !in d.contacts
      && (stored.Some? <==> Storable(t, NewValues(cluster)))
      && (stored.Some? ==> ContactWrite(t, d, stored.value, company, cluster, d.nextId))
  {
    var after := NewContact(company, assignee, cluster);
    NewContactRaw(company, assignee, cluster);
    ExtendedIdentities(t, None, cluster, after);
    ContactPoints.SyncedAgrees(t, after);
    StoredIff(t, d, d.nextId, after);
  }

  // ----- what a write to one company leaves as it was -----

  // Contacts of other companies, and everything phase 2 reads, are untouched.
  ghost predicate Outside(d: Db, e: Db, company: Id) {
    && d.contacts.Keys <= e.contacts.Keys
    && (forall c :: c in e.contacts && e.contacts[c].company != Some(company) ==>
          c in d.contacts && e.contacts[c] == d.contacts[c] && PointsOfContact(e, c) == PointsOfContact(d, c))
    && (forall c :: c in d.contacts ==> e.contacts[c].company == d.contacts[c].company)
  }

  ghost predicate SameBusiness(d: Db, e: Db) {
    && d.openStages == e.openStages && d.deals == e.deals && d.tasks == e.tasks
    && d.links == e.links && d.mappings == e.mappings && d.source == e.source
    && d.nextId <= e.nextId
  }

  ghost predicate Phase1Frame(d: Db, e: Db, company: Id) {
    Outside(d, e, company) && SameBusiness(d, e)
  }

  lemma FrameTransitive(d: Db, e: Db, f: Db, company: Id)
    requires Phase1Frame(d, e, company) && Phase1Frame(e, f, company)
    ensures Phase1Frame(d, f, company)
  {
  }

  lemma OutsideMatches(d: Db, e: Db, company: Id, other: Id, identities: set<ContactPoints.Identity>)
    requires Outside(d, e, company) && other != company
    ensures Matches(e, other, identities) == Matches(d, other, identities)
  {
    forall c ensures c in Matches(e, other, identities) <==> c in Matches(d, other, identities) {
      if c in d.contacts {
        assert e.contacts[c].company == d.contacts[c].company;
      }
    }
  }

  lemma WriteFrame(t: ContactPoints.Text, d: Db, e: Db, company: Id, cluster: seq<License>, c: Id)
    requires WellFormed(t, d) && ContactWrite(t, d, e, company, cluster, c) && company < d.nextId
    requires c < d.nextId
    ensures Phase1Frame(d, e, company) && WellFormed(t, e)
  {
    forall x | x in e.contacts && x != c ensures x in d.contacts && e.contacts[x] == d.contacts[x] && PointsOfContact(e, x) == PointsOfContact(d, x) {
    }
  }

  // A cluster that shares nothing with the written one matches what it did.
  lemma WriteDisjoint(t: ContactPoints.Text, d: Db, e: Db, company: Id, cluster: seq<License>, c: Id, identities: set<ContactPoints.Identity>)
    requires ContactWrite(t, d, e, company, cluster, c)
    requires ClusterIdentities(cluster) !! identities
    ensures Matches(e, company, identities) == Matches(d, company, identities)
  {
    forall x ensures x in Matches(e, company, identities) <==> x in Matches(d, company, identities) {
      if x == c {
        forall i | i in identities ensures i in PointsOfContact(e, c) <==> c in d.contacts && i in PointsOfContact(d, c) {
          assert i !in ClusterIdentities(cluster);
        }
      } else if x in d.contacts {
        assert PointsOfContact(e, x) == PointsOfContact(d, x);
      }
    }
  }

  // The written cluster now matches the written contact and what it matched before.
  lemma SamePoints(t: ContactPoints.Text, d: Db, e: Db, company: Id, cluster: seq<License>, c: Id)
    requires ContactWrite(t, d, e, company, cluster, c)
    ensures forall x :: x != c ==> PointsOfContact(e, x) == PointsOfContact(d, x)
  {
  }

  lemma WriteOwn(t: ContactPoints.Text, d: Db, e: Db, company: Id, cluster: seq<License>, c: Id)
    requires ContactWrite(t, d, e, company, cluster, c)
    requires ClusterIdentities(cluster) != {}
    ensures Matches(e, company, ClusterIdentities(cluster)) == Matches(d, company, ClusterIdentities(cluster)) + {c}
  {
    hide ClusterIdentities, PointsOfContact, ContactPoints.Agrees, ContactPoints.AllValid;
    SamePoints(t, d, e, company, cluster, c);
    var identities := ClusterIdentities(cluster);
    var i :| i in identities;
    assert i in PointsOfContact(e, c);
    forall x | x != c ensures x in Matches(e, company, identities) <==> x in Matches(d, company, identities) {
    }
  }

  // ----- one cluster of a real run -----

  // The size of a cluster's match set after the cluster was processed.
  function AfterFew(few: Few, blocked: bool): Few {
    if few == Zero && !blocked then One else few
  }

  // The one contact that a cluster matches cannot be stored with its values, or
  // the contact to be created cannot; nothing is created after an error.
  ghost predicate Refuses(t: ContactPoints.Text, db: Db, company: Id, cluster: seq<License>, failed: bool) {
    var matches := Matches(db, company, ClusterIdentities(cluster));
    || (|matches| == 1 && exists c :: c in matches && !Storable(t, MergedValues(ValuesOf(db.contacts[c]), cluster)))
    || (|matches| == 0 && !failed && !Storable(t, NewValues(cluster)))
  }

  // The only matching contact holds the values of the cluster and can be stored.
  ghost predicate Settled(t: ContactPoints.Text, db: Db, company: Id, cluster: seq<License>) {
    var matches := Matches(db, company, ClusterIdentities(cluster));
    forall c :: c in matches && |matches| == 1 ==>
      c in db.contacts && Absorbs(ValuesOf(db.contacts[c]), cluster) && Storable(t, ValuesOf(db.contacts[c]))
  }

  // A contact gathers the values of a cluster that matches it alone.
  function Grown(matches: set<Id>, c: Id, v: Values, cluster: seq<License>): Values {
    if matches == {c} then MergedValues(v, cluster) else v
  }

  ghost predicate ValuesGrown(d: Db, e: Db, matches: set<Id>, cluster: seq<License>) {
    forall c :: c in d.contacts ==>
      c in e.contacts && ValuesOf(e.contacts[c]) == Grown(matches, c, ValuesOf(d.contacts[c]), cluster)
  }

  ghost predicate RowsBalance(d: Db, before: Counts, e: Db, after: Counts) {
    && |e.companies| - |d.companies| == after.companiesCreated - before.companiesCreated
    && |e.contacts| - |d.contacts| == after.contactsCreated - before.contactsCreated
    && |e.deals| - |d.deals| == after.dealsCreated - before.dealsCreated
    && |e.tasks| - |d.tasks| == after.tasksCreated - before.tasksCreated
  }

  // What a cluster step does to the database, for the company it works on.
  ghost predicate DbEffect(t: ContactPoints.Text, company: Id, cluster: seq<License>, d: Db, e: Db, own: Few) {
    && Phase1Frame(d, e, company) && WellFormed(t, e)
    && e.companies == d.companies
    && (forall x :: ClusterIdentities(cluster) !! x ==> Matches(e, company, x) == Matches(d, company, x))
    && Matches(d, company, ClusterIdentities(cluster)) <= Matches(e, company, ClusterIdentities(cluster))
    && Size(Matches(e, company, ClusterIdentities(cluster))) == own
    && Settled(t, e, company, cluster)
    && ValuesGrown(d, e, Matches(d, company, ClusterIdentities(cluster)), cluster)
  }

  // The rest of the ledger.
  ghost predicate LedgerEffect(inn: string, few: Few, l: Ledger, m: Ledger) {
    && m.companyByInn == l.companyByInn && m.results == l.results
    && RowsBalance(l.db, l.counts, m.db, m.counts)
    && m.companyErrors == if few == Many then l.companyErrors[inn := SeveralContacts] else l.companyErrors
  }

  ghost predicate ClusterEffect(t: ContactPoints.Text, inn: string, company: Id, cluster: seq<License>, l: Ledger, m: Ledger) {
    var few := Size(Matches(l.db, company, ClusterIdentities(cluster)));
    && DbEffect(t, company, cluster, l.db, m.db, AfterFew(few, inn in l.companyErrors))
    && LedgerEffect(inn, few, l, m)
  }

  lemma ClusterHasIdentity(t: ContactPoints.Text, cluster: seq<License>)
    requires cluster != [] && ValidRows(t, cluster)
    ensures ClusterIdentities(cluster) != {}
  {
    assert ValidRow(t, cluster[0]);
    var i: ContactPoints.Identity :=
      if cluster[0].normalizedPhone != "" then (ContactPoints.Phone, cluster[0].normalizedPhone)
      else (ContactPoints.Email, cluster[0].normalizedEmail);
    assert i in LicenseIdentities(cluster[0]) && i in ClusterIdentities(cluster);
  }

  lemma NoEffect(t: ContactPoints.Text, company: Id, cluster: seq<License>, d: Db)
    requires WellFormed(t, d) && |Matches(d, company, ClusterIdentities(cluster))| != 1
    ensures DbEffect(t, company, cluster, d, d, Size(Matches(d, company, ClusterIdentities(cluster))))
  {
  }

  lemma MatchBelow(t: ContactPoints.Text, d: Db, company: Id, identities: set<ContactPoints.Identity>, c: Id)
    requires WellFormed(t, d) && c in Matches(d, company, identities)
    ensures c < d.nextId
  {
  }

  lemma WrittenSettled(t: ContactPoints.Text, d: Db, e: Db, company: Id, cluster: seq<License>, c: Id)
    requires ContactWrite(t, d, e, company, cluster, c) && Matches(e, company, ClusterIdentities(cluster)) == {c}
    ensures Settled(t, e, company, cluster)
  {
    hide Matches, ClusterIdentities, Absorbs, Storable, MergedValues, NewValues;
    MergeAbsorbs(if c in d.contacts then ValuesOf(d.contacts[c]) else ValuesOf(BLANK), cluster, []);
  }

  lemma WrittenGrown(t: ContactPoints.Text, d: Db, e: Db, company: Id, cluster: seq<License>, c: Id, matches: set<Id>)
    requires ContactWrite(t, d, e, company, cluster, c)
    requires if c in d.contacts then matches == {c} else matches == {}
    ensures ValuesGrown(d, e, matches, cluster)
  {
    hide ClusterIdentities, Storable, MergedValues, NewValues;
  }

  lemma MergeEffect(t: ContactPoints.Text, company: Id, cluster: seq<License>, d: Db, e: Db, c: Id)
    requires WellFormed(t, d) && company < d.nextId && ClusterIdentities(cluster) != {}
    requires ContactWrite(t, d, e, company, cluster, c)
    requires Matches(d, company, ClusterIdentities(cluster)) == {c} && c in d.contacts
    ensures DbEffect(t, company, cluster, d, e, One)
  {
    hide Matches, ClusterIdentities, Phase1Frame, Settled, ValuesGrown, WellFormed;
    MatchBelow(t, d, company, ClusterIdentities(cluster), c);
    WriteFrame(t, d, e, company, cluster, c);
    WriteOwn(t, d, e, company, cluster, c);
    assert Matches(e, company, ClusterIdentities(cluster)) == {c};
    WrittenSettled(t, d, e, company, cluster, c);
    WrittenGrown(t, d, e, company, cluster, c, {c});
    forall x | ClusterIdentities(cluster) !! x ensures Matches(e, company, x) == Matches(d, company, x) {
      WriteDisjoint(t, d, e, company, cluster, c, x);
    }
  }

  lemma NewEffect(t: ContactPoints.Text, company: Id, cluster: seq<License>, d: Db, f: Db, e: Db)
    requires WellFormed(t, d) && company < d.nextId && ClusterIdentities(cluster) != {}
    requires f == d.(nextId := d.nextId + 1)
    requires ContactWrite(t, f, e, company, cluster, d.nextId) && d.nextId !in d.contacts
    requires Matches(d, company, ClusterIdentities(cluster)) == {}
    ensures DbEffect(t, company, cluster, d, e, One)
  {
    hide Matches, ClusterIdentities, Settled, ValuesGrown, WellFormed, Phase1Frame;
    var c := d.nextId;
    SameWellFormed(t, d, f);
    WriteFrame(t, f, e, company, cluster, c);
    WriteOwn(t, f, e, company, cluster, c);
    SameMatches(d, f, company, ClusterIdentities(cluster));
    assert Matches(e, company, ClusterIdentities(cluster)) == {c};
    WrittenSettled(t, f, e, company, cluster, c);
    WrittenGrown(t, f, e, company, cluster, c, {});
    GrownFrom(d, f, e, cluster);
    forall x | ClusterIdentities(cluster) !! x ensures Matches(e, company, x) == Matches(d, company, x) {
      WriteDisjoint(t, f, e, company, cluster, c, x);
      SameMatches(d, f, company, x);
    }
    FrameFromRenumbered(d, f, e, company);
  }

  lemma SameWellFormed(t: ContactPoints.Text, d: Db, f: Db)
    requires f == d.(nextId := d.nextId + 1) && WellFormed(t, d)
    ensures WellFormed(t, f)
  {
  }

  lemma GrownFrom(d: Db, f: Db, e: Db, cluster: seq<License>)
    requires f.contacts == d.contacts && ValuesGrown(f, e, {}, cluster)
    ensures ValuesGrown(d, e, {}, cluster)
  {
  }

  lemma FrameFromRenumbered(d: Db, f: Db, e: Db, company: Id)
    requires f == d.(nextId := d.nextId + 1) && Phase1Frame(f, e, company)
    ensures Phase1Frame(d, e, company)
  {
    forall x ensures PointsOfContact(d, x) == PointsOfContact(f, x) {}
  }

  lemma ClusterStepEffect(req: Request, inn: string, company: Id, cluster: seq<License>, l: Ledger)
    requires !req.dryRun && ContactPoints.Lawful(req.text)
    requires cluster != [] && ValidRows(req.text, cluster)
    requires WellFormed(req.text, l.db) && company < l.db.nextId
    ensures ClusterStep(req, inn, Some(company), cluster, l).None?
       <==> Refuses(req.text, l.db, company, cluster, inn in l.companyErrors)
    ensures ClusterStep(req, inn, Some(company), cluster, l).Some? ==>
      ClusterEffect(req.text, inn, company, cluster, l, ClusterStep(req, inn, Some(company), cluster, l).value)
  {
    hide WellFormed, DbEffect, ReuseContact, CreateContact, StoreContact, ValidRows, ContactPoints.Lawful, ClusterIdentities;
    hide Storable, MergedValues, NewValues;
    var matches := Matches(l.db, company, ClusterIdentities(cluster));
    ClusterHasIdentity(req.text, cluster);
    if |matches| == 1 {
      var c := The(matches);
      SoleElement(matches);
      assert matches == {c};
      ReuseStepEffect(req, inn, company, cluster, c, l);
    } else if |matches| == 0 && inn !in l.companyErrors {
      assert matches == {};
      CreateStepEffect(req, inn, company, cluster, l);
    } else {
      NoEffect(req.text, company, cluster, l.db);
    }
  }

  lemma ReuseStepEffect(req: Request, inn: string, company: Id, cluster: seq<License>, c: Id, l: Ledger)
    requires !req.dryRun && ContactPoints.Lawful(req.text)
    requires ValidRows(req.text, cluster) && ClusterIdentities(cluster) != {}
    requires WellFormed(req.text, l.db) && company < l.db.nextId
    requires c in l.db.contacts && l.db.contacts[c].company == Some(company) && !l.db.contacts[c].deleted
    requires Matches(l.db, company, ClusterIdentities(cluster)) == {c}
    ensures ReuseContact(req, inn, cluster, c, l).Some? <==> Storable(req.text, MergedValues(ValuesOf(l.db.contacts[c]), cluster))
    ensures ReuseContact(req, inn, cluster, c, l).Some? ==>
      var m := ReuseContact(req, inn, cluster, c, l).value;
      DbEffect(req.text, company, cluster, l.db, m.db, One) && LedgerEffect(inn, One, l, m)
  {
    hide WellFormed, DbEffect, Matches, StoreContact, MergedContact, ClusterIdentities, ReuseContact, LedgerEffect, ContactWrite, Storable, MergedValues;
    StoreMerged(req.text, l.db, company, req.assignee, cluster, c);
    ReuseLedger(req, inn, cluster, c, l);
    var stored := StoreContact(req.text, l.db, c, MergedContact(l.db.contacts[c], req.assignee, cluster));
    if stored.Some? {
      WriteCounts(req.text, l.db, stored.value, company, cluster, c);
      MergeEffect(req.text, company, cluster, l.db, stored.value, c);
    }
  }

  lemma ReuseLedger(req: Request, inn: string, cluster: seq<License>, c: Id, l: Ledger)
    requires !req.dryRun && c in l.db.contacts
    ensures var stored := StoreContact(req.text, l.db, c, MergedContact(l.db.contacts[c], req.assignee, cluster));
      var r := ReuseContact(req, inn, cluster, c, l);
      && r.Some? == stored.Some?
      && (r.Some? ==> r.value.db == stored.value)
      && (r.Some? && SameCounts(l.db, stored.value) ==> LedgerEffect(inn, One, l, r.value))
  {
    hide StoreContact, MergedContact, Assigned;
  }

  lemma WriteCounts(t: ContactPoints.Text, d: Db, e: Db, company: Id, cluster: seq<License>, c: Id)
    requires ContactWrite(t, d, e, company, cluster, c) && c in d.contacts
    ensures SameCounts(d, e)
  {
    hide ClusterIdentities, PointsOfContact;
    assert e.contacts.Keys == d.contacts.Keys;
    assert |e.contacts| == |e.contacts.Keys| && |d.contacts| == |d.contacts.Keys|;
  }

  // The rows an import counts.
  ghost predicate SameCounts(d: Db, e: Db) {
    |e.companies| == |d.companies| && |e.contacts| == |d.contacts| && |e.deals| == |d.deals| && |e.tasks| == |d.tasks|
  }

  lemma CreateStepEffect(req: Request, inn: string, company: Id, cluster: seq<License>, l: Ledger)
    requires !req.dryRun && ContactPoints.Lawful(req.text)
    requires ValidRows(req.text, cluster) && ClusterIdentities(cluster) != {}
    requires WellFormed(req.text, l.db) && company < l.db.nextId
    requires Matches(l.db, company, ClusterIdentities(cluster)) == {}
    ensures CreateContact(req, inn, Some(company), cluster, l).Some? <==> Storable(req.text, NewValues(cluster))
    ensures CreateContact(req, inn, Some(company), cluster, l).Some? ==>
      var m := CreateContact(req, inn, Some(company), cluster, l).value;
      DbEffect(req.text, company, cluster, l.db, m.db, One) && LedgerEffect(inn, Zero, l, m)
  {
    hide WellFormed, DbEffect, Matches, StoreContact, NewContact, ClusterIdentities, ContactWrite, CreateContact, LedgerEffect, ValidRows, ContactPoints.Lawful;
    hide Storable, NewValues;
    StoreNew(req.text, l.db, company, req.assignee, cluster);
    CreatedIff(req, inn, company, cluster, l);
    var stored := StoreContact(req.text, l.db, l.db.nextId, NewContact(company, req.assignee, cluster));
    if stored.Some? {
      var e := stored.value.(nextId := l.db.nextId + 1);
      NewStoredEffect(req.text, company, cluster, l.db, stored.value, e);
      CreateLedger(req, inn, company, cluster, l, stored.value, e);
    }
  }

  lemma CreatedIff(req: Request, inn: string, company: Id, cluster: seq<License>, l: Ledger)
    requires !req.dryRun
    ensures CreateContact(req, inn, Some(company), cluster, l).Some?
       <==> StoreContact(req.text, l.db, l.db.nextId, NewContact(company, req.assignee, cluster)).Some?
  {
    hide StoreContact, NewContact, Assigned;
  }

  lemma NewStoredEffect(t: ContactPoints.Text, company: Id, cluster: seq<License>, d: Db, stored: Db, e: Db)
    requires WellFormed(t, d) && company < d.nextId && ClusterIdentities(cluster) != {}
    requires ContactWrite(t, d, stored, company, cluster, d.nextId) && d.nextId !in d.contacts
    requires Matches(d, company, ClusterIdentities(cluster)) == {}
    requires e == stored.(nextId := d.nextId + 1)
    ensures DbEffect(t, company, cluster, d, e, One)
    ensures stored.nextId == d.nextId && |stored.contacts| == |d.contacts| + 1
    ensures |stored.companies| == |d.companies| && |stored.deals| == |d.deals| && |stored.tasks| == |d.tasks|
  {
    hide WellFormed, DbEffect, Matches, ClusterIdentities, ContactWrite;
    var f := d.(nextId := d.nextId + 1);
    RenumberedWrite(t, d, stored, f, e, company, cluster);
    NewEffect(t, company, cluster, d, f, e);
  }

  lemma CreateLedger(req: Request, inn: string, company: Id, cluster: seq<License>, l: Ledger, stored: Db, e: Db)
    requires !req.dryRun
    requires StoreContact(req.text, l.db, l.db.nextId, NewContact(company, req.assignee, cluster)) == Some(stored)
    requires e == stored.(nextId := l.db.nextId + 1)
    requires stored.nextId == l.db.nextId && |stored.contacts| == |l.db.contacts| + 1
    requires |stored.companies| == |l.db.companies| && |stored.deals| == |l.db.deals| && |stored.tasks| == |l.db.tasks|
    ensures var r := CreateContact(req, inn, Some(company), cluster, l);
      r.Some? && r.value.db == e && LedgerEffect(inn, Zero, l, r.value)
  {
    hide StoreContact, NewContact, Assigned;
  }

  lemma RenumberedWrite(t: ContactPoints.Text, d: Db, s: Db, f: Db, e: Db, company: Id, cluster: seq<License>)
    requires ContactWrite(t, d, s, company, cluster, d.nextId) && d.nextId !in d.contacts
    requires f == d.(nextId := d.nextId + 1) && e == s.(nextId := d.nextId + 1)
    ensures ContactWrite(t, f, e, company, cluster, d.nextId)
    ensures s.nextId == d.nextId && |e.contacts| == |d.contacts| + 1 && e.companies == d.companies
    ensures |e.deals| == |d.deals| && |e.tasks| == |d.tasks|
  {
  }

  lemma SameMatches(d: Db, e: Db, company: Id, identities: set<ContactPoints.Identity>)
    requires d.contacts == e.contacts && d.points == e.points
    ensures Matches(d, company, identities) == Matches(e, company, identities)
  {
    forall c ensures PointsOfContact(d, c) == PointsOfContact(e, c) {}
  }
}
