// The clustering as the program runs it: cluster objects that are extended and
// merged in place, in a list from which merged objects are removed.
module ContactClusterObjects {
  import opened Prelude
  import opened Licenses
  import Clusters

  function Phones(licenses: seq<License>): set<string> {
    set l | l in licenses && l.normalizedPhone != "" :: l.normalizedPhone
  }

  function Emails(licenses: seq<License>): set<string> {
    set l | l in licenses && l.normalizedEmail != "" :: l.normalizedEmail
  }

  class ContactCluster {
    var licenses: seq<License>
    var phones: set<string>
    var emails: set<string>

    ghost predicate Valid()
      reads this
    {
      phones == Phones(licenses) && emails == Emails(licenses)
    }

    constructor ()
      ensures Valid() && licenses == []
    {
      licenses, phones, emails := [], {}, {};
    }

    method Overlaps(l: License) returns (overlaps: bool)
      requires Valid()
      ensures overlaps == Clusters.Overlaps(licenses, l)
    {
      overlaps := (l.normalizedPhone != "" && l.normalizedPhone in phones)
               || (l.normalizedEmail != "" && l.normalizedEmail in emails);
    }

    method Add(l: License)
      requires Valid()
      modifies this
      ensures Valid() && licenses == old(licenses) + [l]
    {
      licenses := licenses + [l];
      if l.normalizedPhone != "" {
        phones := phones + {l.normalizedPhone};
      }
      if l.normalizedEmail != "" {
        emails := emails + {l.normalizedEmail};
      }
      assert phones == Phones(licenses) && emails == Emails(licenses);
    }

    method Merge(other: ContactCluster)
      requires Valid() && other != this
      modifies this
      ensures Valid() && licenses == old(licenses) + other.licenses
    {
      for i := 0 to |other.licenses|
        invariant Valid() && licenses == old(licenses) + other.licenses[..i]
        invariant other.licenses == old(other.licenses)
      {
        Add(other.licenses[i]);
      }
    }

    // Equality of cluster objects compares their fields, not their identity.
    predicate SameFields(other: ContactCluster)
      reads this, other
    {
      licenses == other.licenses && phones == other.phones && emails == other.emails
    }
  }

  ghost predicate Sound(clusters: seq<ContactCluster>)
    reads clusters
  {
    Distinct(clusters) && forall c :: c in clusters ==> c.Valid()
  }

  ghost function Contents(clusters: seq<ContactCluster>): seq<seq<License>>
    reads clusters
  {
    if clusters == [] then [] else [clusters[0].licenses] + Contents(clusters[1..])
  }

  lemma {:induction false} ContentsAt(clusters: seq<ContactCluster>)
    ensures |Contents(clusters)| == |clusters|
    ensures forall i :: 0 <= i < |clusters| ==> Contents(clusters)[i] == clusters[i].licenses
  {
    if clusters != [] {
      ContentsAt(clusters[1..]);
    }
  }

  // ----- removing the first m flagged elements of a sequence -----

  ghost function Selected<T>(s: seq<T>, flags: seq<bool>): seq<T>
    requires |s| == |flags|
  {
    if s == [] then []
    else if flags[0] then [s[0]] + Selected(s[1..], flags[1..])
    else Selected(s[1..], flags[1..])
  }

  ghost function Dropped<T>(s: seq<T>, flags: seq<bool>, m: nat): seq<T>
    requires |s| == |flags|
  {
    if m == 0 || s == [] then s
    else if flags[0] then Dropped(s[1..], flags[1..], m - 1)
    else [s[0]] + Dropped(s[1..], flags[1..], m)
  }

  function Without<T>(s: seq<T>, at: nat): seq<T>
    requires at < |s|
  {
    s[..at] + s[at + 1..]
  }

  lemma WithoutCons<T>(x: T, s: seq<T>, at: nat)
    requires at < |s|
    ensures Without([x] + s, at + 1) == [x] + Without(s, at)
  {
  }

  // The next flagged element is still there, and dropping it is one removal.
  lemma {:induction false} DropNext<T>(s: seq<T>, flags: seq<bool>, m: nat) returns (at: nat)
    requires |s| == |flags| && m < |Selected(s, flags)|
    ensures at < |Dropped(s, flags, m)| && Dropped(s, flags, m)[at] == Selected(s, flags)[m]
    ensures Dropped(s, flags, m + 1) == Without(Dropped(s, flags, m), at)
  {
    if flags[0] && m == 0 {
      at := 0;
      assert Dropped(s, flags, 1) == Dropped(s[1..], flags[1..], 0) == s[1..];
    } else if flags[0] {
      at := DropNext(s[1..], flags[1..], m - 1);
    } else {
      var k := DropNext(s[1..], flags[1..], m);
      at := k + 1;
      var rest := Dropped(s[1..], flags[1..], m);
      assert m == 0 ==> rest == s[1..];
      assert Dropped(s, flags, m) == [s[0]] + rest;
      WithoutCons(s[0], rest, k);
    }
  }

  lemma {:induction false} DroppedMembers<T>(s: seq<T>, flags: seq<bool>, m: nat, x: T)
    requires |s| == |flags| && x in Dropped(s, flags, m)
    ensures x in s
  {
    if m == 0 || s == [] {
    } else if flags[0] {
      DroppedMembers(s[1..], flags[1..], m - 1, x);
    } else if x != s[0] {
      DroppedMembers(s[1..], flags[1..], m, x);
    }
  }

  lemma {:induction false} SelectedMembers<T>(s: seq<T>, flags: seq<bool>, m: nat)
    requires |s| == |flags| && m < |Selected(s, flags)|
    ensures exists i :: 0 <= i < |s| && flags[i] && s[i] == Selected(s, flags)[m]
  {
    if flags[0] && m == 0 {
    } else {
      var n := if flags[0] then m - 1 else m;
      SelectedMembers(s[1..], flags[1..], n);
      var i :| 0 <= i < |s[1..]| && flags[1..][i] && s[1..][i] == Selected(s[1..], flags[1..])[n];
      assert flags[i + 1] && s[i + 1] == Selected(s, flags)[m];
    }
  }

  lemma {:induction false} DroppedDistinct<T>(s: seq<T>, flags: seq<bool>, m: nat)
    requires |s| == |flags| && Distinct(s)
    ensures Distinct(Dropped(s, flags, m))
  {
    if m == 0 || s == [] {
    } else if flags[0] {
      DroppedDistinct(s[1..], flags[1..], m - 1);
    } else {
      DroppedDistinct(s[1..], flags[1..], m);
      var rest := Dropped(s[1..], flags[1..], m);
      forall i | 0 <= i < |rest| ensures rest[i] != s[0] {
        DroppedMembers(s[1..], flags[1..], m, rest[i]);
      }
    }
  }

  // ----- flags of a licence over the clusters, and the specification in those terms -----

  ghost function Flags(clusters: seq<seq<License>>, l: License): seq<bool> {
    seq(|clusters|, i requires 0 <= i < |clusters| => Clusters.Overlaps(clusters[i], l))
  }

  lemma {:induction false} FlagsMatch(clusters: seq<seq<License>>, l: License)
    ensures Selected(clusters, Flags(clusters, l)) == Clusters.Matching(clusters, l)
    ensures Dropped(clusters, Flags(clusters, l), |Clusters.Matching(clusters, l)|)
         == Clusters.Unmatched(clusters, l)
  {
    if clusters != [] {
      assert Flags(clusters, l)[1..] == Flags(clusters[1..], l);
      FlagsMatch(clusters[1..], l);
      if Clusters.Matching(clusters, l) == [] {
        AllUnmatched(clusters, l);
      }
    }
  }

  lemma {:induction false} AllUnmatched(clusters: seq<seq<License>>, l: License)
    requires Clusters.Matching(clusters, l) == []
    ensures Clusters.Unmatched(clusters, l) == clusters
    ensures Clusters.Absorb(clusters, l) == clusters + [[l]]
  {
    if clusters != [] {
      AllUnmatched(clusters[1..], l);
    }
  }

  // The round in terms of the position of the first match.
  lemma {:induction false} AbsorbAt(clusters: seq<seq<License>>, l: License, k: nat)
    requires k < |clusters| && Clusters.Overlaps(clusters[k], l)
    requires forall i :: 0 <= i < k ==> !Clusters.Overlaps(clusters[i], l)
    ensures Clusters.Matching(clusters, l)
         == [clusters[k]] + Clusters.Matching(clusters[k + 1..], l)
    ensures Clusters.Absorb(clusters, l)
         == clusters[..k]
          + [clusters[k] + [l] + Flatten(Clusters.Matching(clusters[k + 1..], l))]
          + Clusters.Unmatched(clusters[k + 1..], l)
  {
    if k == 0 {
      assert clusters[..0] == [];
    } else {
      AbsorbAt(clusters[1..], l, k - 1);
      assert clusters[1..][k..] == clusters[k + 1..];
      assert clusters[..k] == [clusters[0]] + clusters[1..][..k - 1];
    }
  }

  lemma {:induction false} SelectedContents(clusters: seq<ContactCluster>, contents: seq<seq<License>>, flags: seq<bool>)
    requires |clusters| == |contents| == |flags|
    requires forall i :: 0 <= i < |clusters| ==> clusters[i].licenses == contents[i]
    ensures |Selected(clusters, flags)| == |Selected(contents, flags)|
    ensures forall m :: 0 <= m < |Selected(clusters, flags)|
              ==> Selected(clusters, flags)[m].licenses == Selected(contents, flags)[m]
  {
    if clusters != [] {
      SelectedContents(clusters[1..], contents[1..], flags[1..]);
    }
  }

  lemma {:induction false} DroppedContents(clusters: seq<ContactCluster>, contents: seq<seq<License>>, flags: seq<bool>, m: nat)
    requires |clusters| == |contents| == |flags|
    requires forall i :: 0 <= i < |clusters| ==> clusters[i].licenses == contents[i]
    ensures Contents(Dropped(clusters, flags, m)) == Dropped(contents, flags, m)
  {
    if m == 0 || clusters == [] {
      ContentsAt(clusters);
    } else {
      DroppedContents(clusters[1..], contents[1..], flags[1..], if flags[0] then m - 1 else m);
      assert !flags[0] ==> Dropped(clusters, flags, m)[1..] == Dropped(clusters[1..], flags[1..], m);
    }
  }

  // ----- the program -----

  // list.remove: drops the first element whose fields equal those of the argument.
  method RemoveEqual(clusters: seq<ContactCluster>, duplicate: ContactCluster) returns (rest: seq<ContactCluster>, ghost at: nat)
    requires duplicate in clusters
    ensures at < |clusters| && clusters[at].SameFields(duplicate)
    ensures forall i :: 0 <= i < at ==> !clusters[i].SameFields(duplicate)
    ensures rest == Without(clusters, at)
  {
    var i := 0;
    while !clusters[i].SameFields(duplicate)
      invariant i < |clusters|
      invariant forall j :: 0 <= j < i ==> !clusters[j].SameFields(duplicate)
      decreases |clusters| - i
    {
      if i + 1 == |clusters| {
        assert false;
      }
      i := i + 1;
    }
    rest, at := clusters[..i] + clusters[i + 1..], i;
  }

  method FindMatches(clusters: seq<ContactCluster>, l: License, ghost flags: seq<bool>) returns (matches: seq<ContactCluster>)
    requires forall c :: c in clusters ==> c.Valid()
    requires |flags| == |clusters|
    requires forall i :: 0 <= i < |clusters| ==> flags[i] == Clusters.Overlaps(clusters[i].licenses, l)
    ensures matches == Selected(clusters, flags)
  {
    matches := [];
    for i := 0 to |clusters|
      invariant matches + Selected(clusters[i..], flags[i..]) == Selected(clusters, flags)
    {
      var overlaps := clusters[i].Overlaps(l);
      assert clusters[i..][0] == clusters[i] && clusters[i..][1..] == clusters[i + 1..];
      assert flags[i..][0] == flags[i] && flags[i..][1..] == flags[i + 1..];
      if overlaps {
        matches := matches + [clusters[i]];
      }
    }
  }

  lemma {:induction false} SelectedFrom<T>(s: seq<T>, flags: seq<bool>, k: nat)
    requires |s| == |flags| && k < |s| && flags[k]
    requires forall i :: 0 <= i < k ==> !flags[i]
    ensures Selected(s, flags) == [s[k]] + Selected(s[k + 1..], flags[k + 1..])
  {
    if k > 0 {
      SelectedFrom(s[1..], flags[1..], k - 1);
      assert s[1..][k..] == s[k + 1..] && flags[1..][k..] == flags[k + 1..];
    }
  }

  lemma {:induction false} FirstFlag<T>(s: seq<T>, flags: seq<bool>) returns (k: nat)
    requires |s| == |flags| && Selected(s, flags) != []
    ensures k < |s| && flags[k] && forall i :: 0 <= i < k ==> !flags[i]
  {
    if flags[0] {
      k := 0;
    } else {
      k := FirstFlag(s[1..], flags[1..]);
      assert forall i :: 0 <= i < k ==> flags[1..][i] == flags[i + 1];
      k := k + 1;
    }
  }

  // A cluster that overlaps the licence is the only one with its contents.
  lemma ContentsIdentify(clusters: seq<seq<License>>, l: License, i: nat, j: nat)
    requires Clusters.Separated(clusters) && i < |clusters| && j < |clusters|
    requires Clusters.Overlaps(clusters[i], l) && clusters[i] == clusters[j]
    ensures i == j
  {
    var x :| x in clusters[i] && Linked(x, l);
    assert Linked(x, x);
    Clusters.SameCluster(clusters, i, j, x, x);
  }

  lemma FlattenSnoc(parts: seq<seq<License>>, m: nat)
    requires m < |parts|
    ensures Flatten(parts[..m + 1]) == Flatten(parts[..m]) + parts[m]
  {
    assert parts[..m + 1] == parts[..m] + [parts[m]];
    FlattenAppend(parts[..m], [parts[m]]);
    assert Flatten([parts[m]]) == parts[m] + Flatten([]);
  }

  // The list holds, at an intermediate point, the clusters up to the target and
  // what is left of the ones behind it.
  lemma RemainderDistinct<T>(s: seq<T>, flags: seq<bool>, k: nat, m: nat)
    requires |s| == |flags| && k < |s| && Distinct(s)
    ensures Distinct(s[..k + 1] + Dropped(s[k + 1..], flags[k + 1..], m))
    ensures forall x :: x in Dropped(s[k + 1..], flags[k + 1..], m) ==> x in s && x != s[k]
  {
    var tail := Dropped(s[k + 1..], flags[k + 1..], m);
    DroppedDistinct(s[k + 1..], flags[k + 1..], m);
    forall i | 0 <= i < |tail| ensures tail[i] in s[k + 1..] && tail[i] !in s[..k + 1] {
      DroppedMembers(s[k + 1..], flags[k + 1..], m, tail[i]);
      var j :| 0 <= j < |s[k + 1..]| && s[k + 1..][j] == tail[i];
      assert s[k + 1 + j] == tail[i];
    }
  }

  // The state after m of the later matches were merged into the cluster at k
  // and removed from the list.
  ghost predicate Merged(clusters: seq<ContactCluster>, contents: seq<seq<License>>, l: License, k: nat,
                         m: nat, list: seq<ContactCluster>)
    requires |contents| == |clusters| && k < |clusters|
    requires m <= |Clusters.Matching(contents[k + 1..], l)|
    reads clusters
  {
    && list == clusters[..k + 1] + Dropped(clusters[k + 1..], Flags(contents, l)[k + 1..], m)
    && clusters[k].licenses
       == contents[k] + [l] + Flatten(Clusters.Matching(contents[k + 1..], l)[..m])
    && (forall i :: 0 <= i < |clusters| && i != k ==> clusters[i].licenses == contents[i])
    && (forall i :: 0 <= i < |clusters| ==> clusters[i].Valid())
  }

  // The m-th later match: which object it is and where it stands.
  lemma LocateMatch(clusters: seq<ContactCluster>, contents: seq<seq<License>>, l: License, k: nat, m: nat)
    returns (i: nat, at: nat)
    requires |contents| == |clusters| && k < |clusters|
    requires m < |Selected(clusters[k + 1..], Flags(contents, l)[k + 1..])|
    requires forall i :: 0 <= i < |clusters| && i != k ==> clusters[i].licenses == contents[i]
    ensures m < |Clusters.Matching(contents[k + 1..], l)|
    ensures k < i < |clusters| && Clusters.Overlaps(contents[i], l)
    ensures clusters[i] == Selected(clusters[k + 1..], Flags(contents, l)[k + 1..])[m]
    ensures contents[i] == Clusters.Matching(contents[k + 1..], l)[m]
    ensures var objects, tail := clusters[k + 1..], Flags(contents, l)[k + 1..];
      at < |Dropped(objects, tail, m)| && Dropped(objects, tail, m)[at] == clusters[i]
      && Dropped(objects, tail, m + 1) == Without(Dropped(objects, tail, m), at)
  {
    var objects, values, tail := clusters[k + 1..], contents[k + 1..], Flags(contents, l)[k + 1..];
    assert tail == Flags(values, l);
    FlagsMatch(values, l);
    SelectedContents(objects, values, tail);
    SelectedMembers(objects, tail, m);
    var d :| 0 <= d < |objects| && tail[d] && objects[d] == Selected(objects, tail)[m];
    i := k + 1 + d;
    assert contents[i] == clusters[i].licenses;
    at := DropNext(objects, tail, m);
  }

  method MergeOne(clusters: seq<ContactCluster>, list: seq<ContactCluster>, duplicate: ContactCluster,
                  l: License, ghost contents: seq<seq<License>>, ghost k: nat, ghost m: nat, target: ContactCluster)
      returns (result: seq<ContactCluster>)
    requires Distinct(clusters) && |contents| == |clusters| && Clusters.Separated(contents)
    requires k < |clusters| && clusters[k] == target
    requires m < |Clusters.Matching(contents[k + 1..], l)|
    requires Merged(clusters, contents, l, k, m, list)
    requires m < |Selected(clusters[k + 1..], Flags(contents, l)[k + 1..])|
    requires duplicate == Selected(clusters[k + 1..], Flags(contents, l)[k + 1..])[m]
    modifies target
    ensures Merged(clusters, contents, l, k, m + 1, result)
  {
    hide Clusters.Matching, Clusters.Separated, Clusters.Overlaps, Selected, Dropped, Linked;
    ghost var i, next := LocateMatch(clusters, contents, l, k, m);
    FlattenSnoc(Clusters.Matching(contents[k + 1..], l), m);
    target.Merge(duplicate);
    RemainderDistinct(clusters, Flags(contents, l), k, m);
    assert list[k + 1 + next] == duplicate;
    ghost var at;
    result, at := RemoveEqual(list, duplicate);
    assert list[at] in clusters;
    OnlyDuplicate(clusters, contents, l, k, i, target, list[at]);
    assert at == k + 1 + next;
    WithoutBehind(clusters[..k + 1], Dropped(clusters[k + 1..], Flags(contents, l)[k + 1..], m), next);
  }

  lemma WithoutBehind<T>(front: seq<T>, s: seq<T>, at: nat)
    requires at < |s|
    ensures Without(front + s, |front| + at) == front + Without(s, at)
  {
  }

  // Merging every later match into the first and removing it from the list.
  method MergeMatches(clusters: seq<ContactCluster>, matches: seq<ContactCluster>, target: ContactCluster,
                      l: License, ghost contents: seq<seq<License>>, ghost k: nat)
      returns (result: seq<ContactCluster>)
    requires Sound(clusters) && |contents| == |clusters| && Clusters.Separated(contents)
    requires matches == Selected(clusters, Flags(contents, l))
    requires k < |clusters| && clusters[k] == target && Clusters.Overlaps(contents[k], l)
    requires forall i :: 0 <= i < k ==> !Clusters.Overlaps(contents[i], l)
    requires target.licenses == contents[k] + [l]
    requires forall i :: 0 <= i < |clusters| && i != k ==> clusters[i].licenses == contents[i]
    modifies target
    ensures Sound(result) && forall c :: c in result ==> c in clusters
    ensures Contents(result) == Clusters.Absorb(contents, l)
  {
    ghost var merged := Clusters.Matching(contents[k + 1..], l);
    SelectedFrom(clusters, Flags(contents, l), k);
    MatchCount(clusters, contents, l, k);
    result := clusters;
    for m := 0 to |matches| - 1
      invariant Merged(clusters, contents, l, k, m, result)
    {
      result := MergeOne(clusters, result, matches[m + 1], l, contents, k, m, target);
    }
    assert merged[..|merged|] == merged;
    MergedAll(clusters, contents, l, k, result);
  }

  lemma MatchCount(clusters: seq<ContactCluster>, contents: seq<seq<License>>, l: License, k: nat)
    requires |contents| == |clusters| && k < |clusters|
    requires forall i :: 0 <= i < |clusters| && i != k ==> clusters[i].licenses == contents[i]
    ensures |Selected(clusters[k + 1..], Flags(contents, l)[k + 1..])|
         == |Clusters.Matching(contents[k + 1..], l)|
  {
    assert Flags(contents, l)[k + 1..] == Flags(contents[k + 1..], l);
    FlagsMatch(contents[k + 1..], l);
    SelectedContents(clusters[k + 1..], contents[k + 1..], Flags(contents, l)[k + 1..]);
  }

  // Once every later match is merged, the list holds what the specification says.
  lemma MergedAll(clusters: seq<ContactCluster>, contents: seq<seq<License>>, l: License, k: nat,
                  list: seq<ContactCluster>)
    requires Distinct(clusters) && |contents| == |clusters| && k < |clusters|
    requires Clusters.Overlaps(contents[k], l)
    requires forall i :: 0 <= i < k ==> !Clusters.Overlaps(contents[i], l)
    requires Merged(clusters, contents, l, k, |Clusters.Matching(contents[k + 1..], l)|, list)
    ensures Sound(list) && forall c :: c in list ==> c in clusters
    ensures Contents(list) == Clusters.Absorb(contents, l)
  {
    MergedSound(clusters, contents, l, k, |Clusters.Matching(contents[k + 1..], l)|, list);
    MergedContents(clusters, contents, l, k, list);
  }

  lemma MergedSound(clusters: seq<ContactCluster>, contents: seq<seq<License>>, l: License, k: nat, m: nat,
                    list: seq<ContactCluster>)
    requires Distinct(clusters) && |contents| == |clusters| && k < |clusters| && m <= |Clusters.Matching(contents[k + 1..], l)|
    requires Merged(clusters, contents, l, k, m, list)
    ensures Sound(list) && forall c :: c in list ==> c in clusters
  {
    hide Clusters.Matching, Dropped;
    RemainderDistinct(clusters, Flags(contents, l), k, m);
    forall c | c in list ensures c in clusters && c.Valid() {
      if c in clusters[..k + 1] {
        assert c in clusters;
      }
      assert c in clusters;
      var i :| 0 <= i < |clusters| && clusters[i] == c;
    }
  }

  lemma MergedContents(clusters: seq<ContactCluster>, contents: seq<seq<License>>, l: License, k: nat,
                       list: seq<ContactCluster>)
    requires |contents| == |clusters| && k < |clusters|
    requires Clusters.Overlaps(contents[k], l)
    requires forall i :: 0 <= i < k ==> !Clusters.Overlaps(contents[i], l)
    requires Merged(clusters, contents, l, k, |Clusters.Matching(contents[k + 1..], l)|, list)
    ensures Contents(list) == Clusters.Absorb(contents, l)
  {
    hide Clusters.Matching, Clusters.Absorb, Dropped;
    var merged := Clusters.Matching(contents[k + 1..], l);
    var objects, values, tail := clusters[k + 1..], contents[k + 1..], Flags(contents, l)[k + 1..];
    assert merged[..|merged|] == merged;
    assert tail == Flags(values, l);
    FlagsMatch(values, l);
    DroppedContents(objects, values, tail, |merged|);
    AbsorbAt(contents, l, k);
    ContentsAt(Dropped(objects, tail, |merged|));
    ContentsAt(list);
    assert Contents(list) == contents[..k] + [clusters[k].licenses] + Contents(Dropped(objects, tail, |merged|));
  }

  // Whatever object of the list has the fields of a duplicate is the duplicate.
  lemma OnlyDuplicate(clusters: seq<ContactCluster>, contents: seq<seq<License>>, l: License,
                      k: nat, i: nat, target: ContactCluster, found: ContactCluster)
    requires |contents| == |clusters| && Clusters.Separated(contents)
    requires k < |clusters| && i < |clusters| && i != k && clusters[k] == target
    requires forall j :: 0 <= j < |clusters| && j != k ==> clusters[j].licenses == contents[j]
    requires Clusters.Overlaps(contents[i], l)
    requires |target.licenses| > |contents[i]|
    requires found in clusters && found.SameFields(clusters[i])
    ensures found == clusters[i]
  {
    var j :| 0 <= j < |clusters| && clusters[j] == found;
    if j != k {
      ContentsIdentify(contents, l, i, j);
    }
  }

  // One round of the loop of contact_clusters.
  method StartCluster(clusters: seq<ContactCluster>, l: License) returns (result: seq<ContactCluster>)
    requires Sound(clusters)
    ensures Sound(result) && forall c :: c in result ==> c in clusters || fresh(c)
    ensures Contents(result) == Contents(clusters) + [[l]]
  {
    ghost var contents := Contents(clusters);
    ContentsAt(clusters);
    var cluster := new ContactCluster();
    cluster.Add(l);
    result := clusters + [cluster];
    ContentsAt(result);
    assert cluster.licenses == [l];
    assert forall i :: 0 <= i < |clusters| ==> result[i].licenses == contents[i];
    assert Contents(result) == contents + [[l]];
  }

  method AbsorbLicense(clusters: seq<ContactCluster>, l: License) returns (result: seq<ContactCluster>)
    requires Sound(clusters) && Clusters.Separated(Contents(clusters))
    modifies clusters
    ensures Sound(result) && forall c :: c in result ==> c in clusters || fresh(c)
    ensures Contents(result) == Clusters.Absorb(old(Contents(clusters)), l)
  {
    hide Clusters.Absorb, Clusters.Matching, Clusters.Separated, Clusters.Overlaps, Linked, Selected;
    ghost var contents := Contents(clusters);
    ghost var flags := Flags(contents, l);
    ContentsAt(clusters);
    FlagsMatch(contents, l);
    SelectedContents(clusters, contents, flags);
    var matches := FindMatches(clusters, l, flags);
    if matches == [] {
      AllUnmatched(contents, l);
      result := StartCluster(clusters, l);
      return;
    }
    ghost var k := FirstFlag(clusters, flags);
    SelectedFrom(clusters, flags, k);
    var target := matches[0];
    target.Add(l);
    result := MergeMatches(clusters, matches, target, l, contents, k);
  }

  // contact_clusters: the returned objects hold exactly the clusters of the
  // specification, hence the connected components (Clusters.ClustersAreComponents).
  method BuildContactClusters(licenses: seq<License>) returns (clusters: seq<ContactCluster>)
    ensures Sound(clusters) && fresh(clusters)
    ensures Contents(clusters) == Clusters.ContactClusters(licenses)
  {
    clusters := [];
    for i := 0 to |licenses|
      invariant Sound(clusters) && fresh(clusters)
      invariant Contents(clusters) == Clusters.ContactClusters(licenses[..i])
    {
      assert licenses[..i + 1][..i] == licenses[..i];
      Clusters.ClusterInvariant(licenses[..i]);
      var next := AbsorbLicense(clusters, licenses[i]);
      assert forall j :: 0 <= j < |next| ==> next[j] in next && fresh(next[j]);
      clusters := next;
    }
    assert licenses[..|licenses|] == licenses;
  }
}
