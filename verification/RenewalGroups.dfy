// Renewal groups: the licences of one INN that expire on one day
// (backend/app/integrations/subscription_import.py, renewal_groups).
module RenewalGroups {
  import opened Prelude
  import opened Licenses
  import opened RenewalImport

  // ----- the orders Python sorts by -----

  predicate StringLess(a: string, b: string) {
    b != "" && (a == "" || a[0] < b[0] || (a[0] == b[0] && StringLess(a[1..], b[1..])))
  }

  lemma {:induction false} StringLessTransitive(a: string, b: string, c: string)
    requires StringLess(a, b) && StringLess(b, c)
    ensures StringLess(a, c)
  {
    if a != "" && a[0] == b[0] == c[0] {
      StringLessTransitive(a[1..], b[1..], c[1..]);
    }
  }

  lemma {:induction false} StringLessTotal(a: string, b: string)
    ensures StringLess(a, b) || a == b || StringLess(b, a)
    ensures !(StringLess(a, b) && StringLess(b, a)) && (a == b ==> !StringLess(a, b))
  {
    if a != "" && b != "" && a[0] == b[0] {
      StringLessTotal(a[1..], b[1..]);
      assert a == [a[0]] + a[1..] && b == [b[0]] + b[1..];
    }
  }

  predicate DateLess(d: Date, e: Date) {
    d.year < e.year || (d.year == e.year && (d.month < e.month || (d.month == e.month && d.day < e.day)))
  }

  predicate GroupLess(g: Group, h: Group) {
    StringLess(g.inn, h.inn) || (g.inn == h.inn && DateLess(g.expiresAt, h.expiresAt))
  }

  lemma GroupLessTransitive(g: Group, h: Group, k: Group)
    requires GroupLess(g, h) && GroupLess(h, k)
    ensures GroupLess(g, k)
  {
    if StringLess(g.inn, h.inn) && StringLess(h.inn, k.inn) {
      StringLessTransitive(g.inn, h.inn, k.inn);
    }
  }

  // ----- grouping and sorting -----

  predicate Belongs(g: Group, l: License) {
    g.inn == l.inn && g.expiresAt == l.expiresAt
  }

  // One round of the grouping loop; dictionary order is the order of first appearance.
  function Collected(groups: seq<Group>, l: License): seq<Group> {
    if groups == [] then [Group(l.inn, l.expiresAt, [l])]
    else if Belongs(groups[0], l) then [groups[0].(licenses := groups[0].licenses + [l])] + groups[1..]
    else [groups[0]] + Collected(groups[1..], l)
  }

  function Grouped(licenses: seq<License>): seq<Group> {
    if licenses == [] then []
    else Collected(Grouped(licenses[..|licenses| - 1]), licenses[|licenses| - 1])
  }

  // Stable insertion by LID.
  function InsertByLid(sorted: seq<License>, l: License): seq<License> {
    if sorted == [] then [l]
    else if StringLess(l.lid, sorted[|sorted| - 1].lid) then
      InsertByLid(sorted[..|sorted| - 1], l) + [sorted[|sorted| - 1]]
    else sorted + [l]
  }

  function SortedByLid(licenses: seq<License>): seq<License> {
    if licenses == [] then []
    else InsertByLid(SortedByLid(licenses[..|licenses| - 1]), licenses[|licenses| - 1])
  }

  function InsertGroup(sorted: seq<Group>, g: Group): seq<Group> {
    if sorted == [] then [g]
    else if GroupLess(g, sorted[0]) then [g] + sorted
    else [sorted[0]] + InsertGroup(sorted[1..], g)
  }

  function SortedGroups(groups: seq<Group>): seq<Group> {
    if groups == [] then []
    else InsertGroup(SortedGroups(groups[1..]), groups[0].(licenses := SortedByLid(groups[0].licenses)))
  }

  function RenewalGroups(licenses: seq<License>): seq<Group> {
    SortedGroups(Grouped(licenses))
  }

  // ----- what the result is -----

  function AllLicenses(groups: seq<Group>): multiset<License> {
    if groups == [] then multiset{} else multiset(groups[0].licenses) + AllLicenses(groups[1..])
  }

  ghost predicate Homogeneous(g: Group) {
    g.licenses != [] && forall l :: l in g.licenses ==> Belongs(g, l)
  }

  ghost predicate AllHomogeneous(groups: seq<Group>) {
    forall g :: g in groups ==> Homogeneous(g)
  }

  predicate SameKey(g: Group, h: Group) {
    g.inn == h.inn && g.expiresAt == h.expiresAt
  }

  ghost predicate DistinctKeys(groups: seq<Group>) {
    groups == []
    || ((forall h :: h in groups[1..] ==> !SameKey(groups[0], h)) && DistinctKeys(groups[1..]))
  }

  ghost predicate Increasing(groups: seq<Group>) {
    groups == []
    || ((forall h :: h in groups[1..] ==> GroupLess(groups[0], h)) && Increasing(groups[1..]))
  }

  // No licence is followed by one with a smaller LID.
  ghost predicate LidsOrdered(licenses: seq<License>) {
    licenses == []
    || var last := |licenses| - 1;
       (forall l :: l in licenses[..last] ==> !StringLess(licenses[last].lid, l.lid)) && LidsOrdered(licenses[..last])
  }

  lemma {:induction false} CollectedMember(groups: seq<Group>, l: License, h: Group)
    requires h in Collected(groups, l)
    ensures h in groups || Belongs(h, l)
    ensures AllHomogeneous(groups) ==> Homogeneous(h)
  {
    if groups != [] {
      assert groups[0] in groups;
      if Belongs(groups[0], l) {
        assert AllHomogeneous(groups) ==> Homogeneous(groups[0]);
        assert h in groups[1..] || h == groups[0].(licenses := groups[0].licenses + [l]);
      } else if h != groups[0] {
        CollectedMember(groups[1..], l, h);
      }
    }
  }

  lemma {:induction false} CollectedFacts(groups: seq<Group>, l: License)
    requires DistinctKeys(groups)
    ensures DistinctKeys(Collected(groups, l))
    ensures AllLicenses(Collected(groups, l)) == AllLicenses(groups) + multiset{l}
  {
    if groups == [] {
      assert Collected(groups, l)[1..] == [];
    } else if Belongs(groups[0], l) {
      assert Collected(groups, l)[1..] == groups[1..];
    } else {
      CollectedFacts(groups[1..], l);
      assert Collected(groups, l)[1..] == Collected(groups[1..], l);
      forall h | h in Collected(groups[1..], l) ensures !SameKey(groups[0], h) {
        CollectedMember(groups[1..], l, h);
      }
    }
  }

  lemma {:induction false} GroupedHomogeneous(licenses: seq<License>)
    ensures AllHomogeneous(Grouped(licenses))
  {
    if licenses != [] {
      var before, l := Grouped(licenses[..|licenses| - 1]), licenses[|licenses| - 1];
      GroupedHomogeneous(licenses[..|licenses| - 1]);
      forall h | h in Collected(before, l) ensures Homogeneous(h) {
        CollectedMember(before, l, h);
      }
    }
  }

  lemma {:induction false} GroupedFacts(licenses: seq<License>)
    ensures DistinctKeys(Grouped(licenses))
    ensures AllLicenses(Grouped(licenses)) == multiset(licenses)
  {
    if licenses != [] {
      GroupedFacts(licenses[..|licenses| - 1]);
      CollectedFacts(Grouped(licenses[..|licenses| - 1]), licenses[|licenses| - 1]);
      MultisetSnoc(licenses);
    }
  }

  lemma MultisetSnoc<T>(s: seq<T>)
    requires s != []
    ensures multiset(s) == multiset(s[..|s| - 1]) + multiset{s[|s| - 1]}
  {
    assert s == s[..|s| - 1] + [s[|s| - 1]];
  }

  lemma {:induction false} InsertByLidFacts(sorted: seq<License>, l: License)
    requires LidsOrdered(sorted)
    ensures LidsOrdered(InsertByLid(sorted, l))
    ensures multiset(InsertByLid(sorted, l)) == multiset(sorted) + multiset{l}
    ensures forall x :: x in InsertByLid(sorted, l) <==> x == l || x in sorted
  {
    if sorted != [] {
      var front, last := sorted[..|sorted| - 1], sorted[|sorted| - 1];
      assert sorted == front + [last];
      var result := InsertByLid(sorted, l);
      if StringLess(l.lid, last.lid) {
        InsertByLidFacts(front, l);
        StringLessTotal(l.lid, last.lid);
        assert result[..|result| - 1] == InsertByLid(front, l);
      } else {
        assert result[..|result| - 1] == sorted;
        forall x | x in sorted ensures !StringLess(l.lid, x.lid) {
          NotAfter(l.lid, last.lid, x.lid);
        }
      }
    }
  }

  lemma NotAfter(a: string, b: string, c: string)
    requires !StringLess(a, b) && (c == b || !StringLess(b, c))
    ensures !StringLess(a, c)
  {
    StringLessTotal(b, c);
    if StringLess(a, c) && StringLess(c, b) {
      StringLessTransitive(a, c, b);
    }
  }

  lemma NothingOrdered()
    ensures LidsOrdered([])
  {
  }

  lemma {:induction false} SortedByLidFacts(licenses: seq<License>)
    ensures LidsOrdered(SortedByLid(licenses))
    ensures multiset(SortedByLid(licenses)) == multiset(licenses)
    ensures forall l :: l in SortedByLid(licenses) <==> l in licenses
  {
    hide StringLess, LidsOrdered, InsertByLid;
    if licenses == [] {
      NothingOrdered();
    } else {
      var front := licenses[..|licenses| - 1];
      SortedByLidFacts(front);
      InsertByLidFacts(SortedByLid(front), licenses[|licenses| - 1]);
      assert licenses == front + [licenses[|licenses| - 1]];
    }
  }

  lemma {:induction false} InsertGroupFacts(sorted: seq<Group>, g: Group)
    requires Increasing(sorted)
    requires forall h :: h in sorted ==> !SameKey(g, h)
    ensures Increasing(InsertGroup(sorted, g))
    ensures forall h :: h in InsertGroup(sorted, g) <==> h == g || h in sorted
    ensures AllLicenses(InsertGroup(sorted, g)) == AllLicenses(sorted) + multiset(g.licenses)
  {
    if sorted == [] {
      assert InsertGroup(sorted, g)[1..] == [];
    } else if GroupLess(g, sorted[0]) {
      assert InsertGroup(sorted, g)[1..] == sorted;
      forall h | h in sorted[1..] ensures GroupLess(g, h) {
        GroupLessTransitive(g, sorted[0], h);
      }
    } else {
      InsertGroupFacts(sorted[1..], g);
      assert InsertGroup(sorted, g)[1..] == InsertGroup(sorted[1..], g);
      StringLessTotal(g.inn, sorted[0].inn);
      assert sorted[0] in sorted;
    }
  }

  lemma {:induction false} SortedGroupsFacts(groups: seq<Group>)
    requires DistinctKeys(groups)
    ensures Increasing(SortedGroups(groups))
    ensures AllLicenses(SortedGroups(groups)) == AllLicenses(groups)
    ensures forall h :: h in SortedGroups(groups) ==> SortedFrom(groups, h)
  {
    if groups != [] {
      var rest := groups[1..];
      SortedGroupsFacts(rest);
      SortedByLidFacts(groups[0].licenses);
      var first := groups[0].(licenses := SortedByLid(groups[0].licenses));
      forall h | h in SortedGroups(rest) ensures !SameKey(first, h) && SortedFrom(groups, h) {
        assert SortedFrom(rest, h);
        var g :| g in rest && SortedVersion(g, h);
        assert g in groups;
      }
      assert groups[0] in groups && SortedVersion(groups[0], first);
      InsertGroupFacts(SortedGroups(rest), first);
    }
  }

  ghost predicate SortedVersion(g: Group, h: Group) {
    SameKey(g, h) && LidsOrdered(h.licenses) && multiset(h.licenses) == multiset(g.licenses)
  }

  ghost predicate SortedFrom(groups: seq<Group>, h: Group) {
    exists g :: g in groups && SortedVersion(g, h)
  }

  // The groups are a partition of the rows by (INN, expiry), in strictly
  // increasing key order, each ordered by LID.
  lemma RenewalGroupsFacts(licenses: seq<License>)
    ensures AllLicenses(RenewalGroups(licenses)) == multiset(licenses)
    ensures AllHomogeneous(RenewalGroups(licenses))
    ensures Increasing(RenewalGroups(licenses))
    ensures forall g :: g in RenewalGroups(licenses) ==> LidsOrdered(g.licenses)
  {
    GroupedFacts(licenses);
    GroupedHomogeneous(licenses);
    SortedGroupsFacts(Grouped(licenses));
    forall h | h in RenewalGroups(licenses) ensures Homogeneous(h) && LidsOrdered(h.licenses) {
      SortedHomogeneous(Grouped(licenses), h);
    }
  }

  lemma SortedHomogeneous(groups: seq<Group>, h: Group)
    requires SortedFrom(groups, h) && AllHomogeneous(groups)
    ensures Homogeneous(h) && LidsOrdered(h.licenses)
  {
    var g :| g in groups && SortedVersion(g, h);
    assert Homogeneous(g);
    assert |multiset(h.licenses)| == |h.licenses| && |multiset(g.licenses)| == |g.licenses|;
    forall l | l in h.licenses ensures Belongs(h, l) {
      assert l in multiset(h.licenses) && l in multiset(g.licenses);
      assert l in g.licenses && Belongs(g, l);
    }
  }

  // Two groups never share an external id, so neither do their mappings.
  lemma {:induction false} GroupKeysDiffer(groups: seq<Group>, i: nat, j: nat)
    requires Increasing(groups) && i < j < |groups|
    ensures GroupKey(groups[i]) != GroupKey(groups[j])
  {
    if i > 0 {
      GroupKeysDiffer(groups[1..], i - 1, j - 1);
    } else {
      assert groups[j] in groups[1..];
      StringLessTotal(groups[0].inn, groups[j].inn);
      if GroupKey(groups[0]) == GroupKey(groups[j]) {
        ExternalIdInjective(groups[0].inn, groups[0].expiresAt, groups[j].inn, groups[j].expiresAt);
      }
    }
  }

  lemma {:induction false} GroupMember(groups: seq<Group>, g: Group, l: License)
    requires g in groups && l in g.licenses
    ensures l in AllLicenses(groups)
  {
    assert l in multiset(g.licenses);
    if g != groups[0] {
      GroupMember(groups[1..], g, l);
    }
  }

  // Every group comes from rows of the input.
  lemma GroupInn(licenses: seq<License>, g: Group)
    requires g in RenewalGroups(licenses)
    ensures g.inn in Inns(licenses)
    ensures forall l :: l in g.licenses ==> l in licenses
  {
    RenewalGroupsFacts(licenses);
    forall l | l in g.licenses ensures l in licenses {
      GroupMember(RenewalGroups(licenses), g, l);
    }
    assert g.licenses[0] in g.licenses;
    InnsFacts(licenses);
  }

  lemma {:induction false} InnsFacts(licenses: seq<License>)
    ensures Distinct(Inns(licenses))
    ensures forall l :: l in licenses ==> l.inn in Inns(licenses)
  {
    if licenses != [] {
      var front := licenses[..|licenses| - 1];
      InnsFacts(front);
      assert licenses == front + [licenses[|licenses| - 1]];
    }
  }

  lemma {:induction false} OfInnFacts(licenses: seq<License>, inn: string)
    ensures forall l :: l in OfInn(licenses, inn) <==> l in licenses && l.inn == inn
  {
    if licenses != [] {
      var front := licenses[..|licenses| - 1];
      OfInnFacts(front, inn);
      assert licenses == front + [licenses[|licenses| - 1]];
    }
  }

  // ----- the loops of renewal_groups -----

  type Key = (string, Date)

  function KeyOf(l: License): Key {
    (l.inn, l.expiresAt)
  }

  // The entries of the dictionary, in the order in which its keys were added.
  function Entries(keys: seq<Key>, rows: map<Key, seq<License>>): seq<Group>
    requires forall k :: k in keys ==> k in rows
  {
    if keys == [] then [] else [Group(keys[0].0, keys[0].1, rows[keys[0]])] + Entries(keys[1..], rows)
  }

  // sorted(..., key=...): by key only
  function SortedByKey(groups: seq<Group>): seq<Group> {
    if groups == [] then [] else InsertGroup(SortedByKey(groups[1..]), groups[0])
  }

  function WithSortedRows(groups: seq<Group>): seq<Group> {
    seq(|groups|, i requires 0 <= i < |groups| => groups[i].(licenses := SortedByLid(groups[i].licenses)))
  }

  method BuildRenewalGroups(licenses: seq<License>) returns (groups: seq<Group>)
    ensures groups == RenewalGroups(licenses)
    ensures AllLicenses(groups) == multiset(licenses)
    ensures AllHomogeneous(groups) && Increasing(groups)
    ensures forall g :: g in groups ==> LidsOrdered(g.licenses)
  {
    hide SortedByLid, SortedByKey, SortedGroups, InsertGroup, Collected, AllLicenses, Increasing, LidsOrdered;
    var keys: seq<Key>, rows: map<Key, seq<License>> := [], map[];
    for i := 0 to |licenses|
      invariant Distinct(keys) && forall k :: k in keys <==> k in rows
      invariant Entries(keys, rows) == Grouped(licenses[..i])
    {
      assert licenses[..i + 1][..i] == licenses[..i];
      var l := licenses[i];
      CollectedEntries(keys, rows, l);
      ghost var before := rows;
      if KeyOf(l) !in rows {
        keys, rows := keys + [KeyOf(l)], rows[KeyOf(l) := []];
        assert rows[KeyOf(l)] + [l] == [l];
      }
      rows := rows[KeyOf(l) := rows[KeyOf(l)] + [l]];
      if KeyOf(l) in before {
        assert rows == before[KeyOf(l) := before[KeyOf(l)] + [l]];
      } else {
        assert rows == before[KeyOf(l) := [l]];
      }
    }
    assert licenses[..|licenses|] == licenses;
    var items := SortedByKey(Entries(keys, rows));
    groups := [];
    for i := 0 to |items|
      invariant groups == WithSortedRows(items)[..i]
    {
      groups := groups + [items[i].(licenses := SortedByLid(items[i].licenses))];
    }
    SortThenRows(Entries(keys, rows));
    RenewalGroupsFacts(licenses);
  }

  lemma {:induction false} EntriesKeep(keys: seq<Key>, rows: map<Key, seq<License>>, key: Key, more: seq<License>)
    requires key !in keys && forall k :: k in keys ==> k in rows
    ensures Entries(keys, rows[key := more]) == Entries(keys, rows)
  {
    if keys != [] {
      EntriesKeep(keys[1..], rows, key, more);
    }
  }

  // One more row in the dictionary is one more row in the list of groups.
  lemma {:induction false} CollectedEntries(keys: seq<Key>, rows: map<Key, seq<License>>, l: License)
    requires Distinct(keys) && forall k :: k in keys ==> k in rows
    ensures Collected(Entries(keys, rows), l) ==
      if KeyOf(l) in keys then Entries(keys, rows[KeyOf(l) := rows[KeyOf(l)] + [l]])
      else Entries(keys + [KeyOf(l)], rows[KeyOf(l) := [l]])
  {
    var key := KeyOf(l);
    if keys == [] {
      assert Entries([key], rows[key := [l]]) == [Group(key.0, key.1, [l])];
    } else if keys[0] == key {
      assert forall i :: 0 < i < |keys| ==> keys[i] != key;
      EntriesKeep(keys[1..], rows, key, rows[key] + [l]);
    } else {
      CollectedEntries(keys[1..], rows, l);
      assert (keys + [key])[1..] == keys[1..] + [key];
      assert key in keys <==> key in keys[1..];
    }
  }

  lemma InsertThenRows(sorted: seq<Group>, g: Group)
    ensures WithSortedRows(InsertGroup(sorted, g))
         == InsertGroup(WithSortedRows(sorted), g.(licenses := SortedByLid(g.licenses)))
  {
    hide SortedByLid;
    if sorted != [] && !GroupLess(g, sorted[0]) {
      InsertThenRows(sorted[1..], g);
      assert WithSortedRows(sorted)[1..] == WithSortedRows(sorted[1..]);
    }
  }

  lemma {:induction false} SortThenRows(groups: seq<Group>)
    ensures WithSortedRows(SortedByKey(groups)) == SortedGroups(groups)
  {
    if groups != [] {
      SortThenRows(groups[1..]);
      InsertThenRows(SortedByKey(groups[1..]), groups[0]);
      hide InsertGroup, SortedByLid;
    }
  }
}
