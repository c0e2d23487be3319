// Clustering of licences into contacts by shared phone or email
// (backend/app/integrations/subscription_import.py, contact_clusters).
// A cluster is determined by the licences it holds, in the order they were
// added, so the specification works on sequences of licences.
module Clusters {
  import opened Prelude
  import opened Licenses

  // ----- specification of the online algorithm -----

  predicate Overlaps(cluster: seq<License>, l: License) {
    exists x :: x in cluster && Linked(x, l)
  }

  function Matching(clusters: seq<seq<License>>, l: License): seq<seq<License>> {
    if clusters == [] then []
    else if Overlaps(clusters[0], l) then [clusters[0]] + Matching(clusters[1..], l)
    else Matching(clusters[1..], l)
  }

  function Unmatched(clusters: seq<seq<License>>, l: License): seq<seq<License>> {
    if clusters == [] then []
    else if Overlaps(clusters[0], l) then Unmatched(clusters[1..], l)
    else [clusters[0]] + Unmatched(clusters[1..], l)
  }

  // One round of the loop: the first overlapping cluster takes the licence and
  // then every later overlapping cluster; without a match a cluster is opened.
  function Absorb(clusters: seq<seq<License>>, l: License): seq<seq<License>> {
    if clusters == [] then [[l]]
    else if Overlaps(clusters[0], l) then
      [clusters[0] + [l] + Flatten(Matching(clusters[1..], l))] + Unmatched(clusters[1..], l)
    else [clusters[0]] + Absorb(clusters[1..], l)
  }

  function ContactClusters(licenses: seq<License>): seq<seq<License>> {
    if licenses == [] then []
    else Absorb(ContactClusters(licenses[..|licenses| - 1]), licenses[|licenses| - 1])
  }

  // ----- the reference notion: connected components -----

  ghost predicate IsChain(s: set<License>, path: seq<License>) {
    && path != []
    && (forall i :: 0 <= i < |path| ==> path[i] in s)
    && (forall i :: 0 <= i < |path| - 1 ==> Linked(path[i], path[i + 1]))
  }

  ghost predicate Joins(s: set<License>, path: seq<License>, a: License, b: License) {
    IsChain(s, path) && path[0] == a && path[|path| - 1] == b
  }

  ghost predicate Connected(s: set<License>, a: License, b: License) {
    exists path :: Joins(s, path, a, b)
  }

  ghost predicate Together(clusters: seq<seq<License>>, a: License, b: License) {
    exists c :: c in clusters && a in c && b in c
  }

  lemma ConnectedStep(s: set<License>, a: License, b: License)
    requires a in s && b in s && Linked(a, b)
    ensures Connected(s, a, b)
  {
    assert Joins(s, [a, b], a, b);
  }

  lemma ConnectedSelf(s: set<License>, a: License)
    requires a in s
    ensures Connected(s, a, a)
  {
    assert Joins(s, [a], a, a);
  }

  lemma ConnectedTransitive(s: set<License>, a: License, b: License, c: License)
    requires Connected(s, a, b) && Connected(s, b, c)
    ensures Connected(s, a, c)
  {
    var p :| Joins(s, p, a, b);
    var q :| Joins(s, q, b, c);
    var path := p + q[1..];
    forall i | 0 <= i < |path| - 1 ensures Linked(path[i], path[i + 1]) {
      if i < |p| - 1 {
      } else {
        assert path[i] == q[i - (|p| - 1)];
      }
    }
    assert Joins(s, path, a, c);
  }

  lemma ConnectedSymmetric(s: set<License>, a: License, b: License)
    requires Connected(s, a, b)
    ensures Connected(s, b, a)
  {
    var p :| Joins(s, p, a, b);
    var back := seq(|p|, i requires 0 <= i < |p| => p[|p| - 1 - i]);
    forall i | 0 <= i < |back| - 1 ensures Linked(back[i], back[i + 1]) {
      assert Linked(p[|p| - 2 - i], p[|p| - 1 - i]);
    }
    assert Joins(s, back, b, a);
  }

  lemma ConnectedGrows(s: set<License>, t: set<License>, a: License, b: License)
    requires s <= t && Connected(s, a, b)
    ensures Connected(t, a, b)
  {
    var p :| Joins(s, p, a, b);
    assert Joins(t, p, a, b);
  }

  // ----- what every round keeps -----

  ghost predicate Apart(c: seq<License>, others: seq<seq<License>>) {
    forall d, x, y :: d in others && x in c && y in d ==> !Linked(x, y)
  }

  // No two clusters share a phone or an email.
  ghost predicate Separated(clusters: seq<seq<License>>) {
    clusters == [] || (Apart(clusters[0], clusters[1..]) && Separated(clusters[1..]))
  }

  // Inside a cluster everybody is linked to everybody through licences of s.
  ghost predicate Cohesive(s: set<License>, clusters: seq<seq<License>>) {
    forall c, a, b :: c in clusters && a in c && b in c ==> Connected(s, a, b)
  }

  // A cluster is never empty, and one with a licence that has neither phone
  // nor email holds nothing else.
  ghost predicate Solid(clusters: seq<seq<License>>) {
    forall c :: c in clusters ==> |c| == 1 || (c != [] && forall x :: x in c ==> Identified(x))
  }

  lemma {:induction false} MatchingFacts(clusters: seq<seq<License>>, l: License)
    ensures forall c :: c in Matching(clusters, l) <==> c in clusters && Overlaps(c, l)
    ensures forall c :: c in Unmatched(clusters, l) <==> c in clusters && !Overlaps(c, l)
    ensures multiset(Flatten(Matching(clusters, l))) + multiset(Flatten(Unmatched(clusters, l)))
         == multiset(Flatten(clusters))
  {
    if clusters != [] {
      MatchingFacts(clusters[1..], l);
      assert clusters == [clusters[0]] + clusters[1..];
      if Overlaps(clusters[0], l) {
        assert Matching(clusters, l)[1..] == Matching(clusters[1..], l);
      } else {
        assert Unmatched(clusters, l)[1..] == Unmatched(clusters[1..], l);
      }
    }
  }

  lemma {:induction false} UnmatchedSeparated(clusters: seq<seq<License>>, l: License)
    requires Separated(clusters)
    ensures Separated(Unmatched(clusters, l))
  {
    if clusters != [] {
      UnmatchedSeparated(clusters[1..], l);
      MatchingFacts(clusters[1..], l);
      if !Overlaps(clusters[0], l) {
        assert Unmatched(clusters, l)[1..] == Unmatched(clusters[1..], l);
      }
    }
  }

  // Every cluster after a round is an untouched old one that does not overlap
  // the licence, or the one that took the licence.
  lemma {:induction false} AbsorbMembers(clusters: seq<seq<License>>, l: License, c: seq<License>)
    requires c in Absorb(clusters, l)
    ensures (c in clusters && !Overlaps(c, l))
         || (l in c && forall x :: x in c ==> x == l || exists d :: d in clusters && Overlaps(d, l) && x in d)
  {
    if clusters == [] {
    } else if Overlaps(clusters[0], l) {
      MatchingFacts(clusters[1..], l);
      forall x { FlattenMembers(Matching(clusters[1..], l), x); }
    } else if c != clusters[0] {
      AbsorbMembers(clusters[1..], l, c);
    }
  }

  lemma {:induction false} AbsorbSeparated(clusters: seq<seq<License>>, l: License)
    requires Separated(clusters)
    ensures Separated(Absorb(clusters, l))
  {
    if clusters == [] {
    } else if Overlaps(clusters[0], l) {
      var tail := clusters[1..];
      UnmatchedSeparated(tail, l);
      MatchingFacts(tail, l);
      forall x { FlattenMembers(Matching(tail, l), x); }
      var target := clusters[0] + [l] + Flatten(Matching(tail, l));
      forall d, x, y | d in Unmatched(tail, l) && x in target && y in d ensures !Linked(x, y) {
        if x in clusters[0] {
        } else if x == l {
          assert Linked(x, y) ==> Linked(y, l);
        } else {
          var m :| m in Matching(tail, l) && x in m;
          MembersApart(tail, m, d, l, x, y);
        }
      }
      assert Absorb(clusters, l)[1..] == Unmatched(tail, l);
    } else {
      AbsorbSeparated(clusters[1..], l);
      forall d, x, y | d in Absorb(clusters[1..], l) && x in clusters[0] && y in d ensures !Linked(x, y) {
        AbsorbMembers(clusters[1..], l, d);
      }
      assert Absorb(clusters, l)[1..] == Absorb(clusters[1..], l);
    }
  }

  lemma {:induction false} MembersApart(clusters: seq<seq<License>>, c: seq<License>, d: seq<License>,
                                        l: License, x: License, y: License)
    requires Separated(clusters) && c in clusters && d in clusters
    requires Overlaps(c, l) && !Overlaps(d, l)
    requires x in c && y in d
    ensures !Linked(x, y)
  {
    if c == clusters[0] {
      assert d in clusters[1..];
    } else if d == clusters[0] {
      assert c in clusters[1..];
      assert !Linked(y, x);
    } else {
      MembersApart(clusters[1..], c, d, l, x, y);
    }
  }

  lemma {:induction false} AbsorbConserves(clusters: seq<seq<License>>, l: License)
    ensures multiset(Flatten(Absorb(clusters, l))) == multiset(Flatten(clusters)) + multiset{l}
  {
    if clusters == [] {
      assert Flatten([[l]]) == [l] + Flatten([]);
    } else if Overlaps(clusters[0], l) {
      MatchingFacts(clusters[1..], l);
      assert Absorb(clusters, l)[1..] == Unmatched(clusters[1..], l);
    } else {
      AbsorbConserves(clusters[1..], l);
      assert Absorb(clusters, l)[1..] == Absorb(clusters[1..], l);
    }
  }

  lemma AbsorbCohesive(s: set<License>, clusters: seq<seq<License>>, l: License)
    requires Cohesive(s, clusters)
    requires forall c, x :: c in clusters && x in c ==> x in s
    ensures Cohesive(s + {l}, Absorb(clusters, l))
  {
    var t := s + {l};
    forall c, a, b | c in Absorb(clusters, l) && a in c && b in c ensures Connected(t, a, b) {
      AbsorbMembers(clusters, l, c);
      if c in clusters && !Overlaps(c, l) {
        ConnectedGrows(s, t, a, b);
      } else {
        ReachesNew(s, clusters, l, a);
        ReachesNew(s, clusters, l, b);
        ConnectedSymmetric(t, b, l);
        ConnectedTransitive(t, a, l, b);
      }
    }
  }

  lemma ReachesNew(s: set<License>, clusters: seq<seq<License>>, l: License, a: License)
    requires Cohesive(s, clusters)
    requires forall c, x :: c in clusters && x in c ==> x in s
    requires a == l || exists d :: d in clusters && Overlaps(d, l) && a in d
    ensures Connected(s + {l}, a, l)
  {
    if a == l {
      ConnectedSelf(s + {l}, l);
    } else {
      var d :| d in clusters && Overlaps(d, l) && a in d;
      var x :| x in d && Linked(x, l);
      ConnectedGrows(s, s + {l}, a, x);
      ConnectedStep(s + {l}, x, l);
      ConnectedTransitive(s + {l}, a, x, l);
    }
  }

  lemma AbsorbSolid(clusters: seq<seq<License>>, l: License)
    requires Solid(clusters)
    ensures Solid(Absorb(clusters, l))
  {
    forall c | c in Absorb(clusters, l)
      ensures |c| == 1 || (c != [] && forall x :: x in c ==> Identified(x))
    {
      AbsorbShape(clusters, l, c);
    }
  }

  lemma MergedSolid(clusters: seq<seq<License>>, l: License)
    requires Solid(clusters) && clusters != [] && Overlaps(clusters[0], l)
    ensures forall x :: x in Absorb(clusters, l)[0] ==> Identified(x)
  {
    hide Linked, Identified, Overlaps;
    LinkIdentifies(clusters[0], l);
    forall x | x in Absorb(clusters, l)[0] && x != l ensures Identified(x) {
      var d := MergedMember(clusters, l, x);
      AllIdentified(d, l);
    }
  }

  // Where the members of the merged cluster come from.
  lemma MergedMember(clusters: seq<seq<License>>, l: License, x: License) returns (d: seq<License>)
    requires clusters != [] && Overlaps(clusters[0], l) && x in Absorb(clusters, l)[0] && x != l
    ensures d in clusters && Overlaps(d, l) && x in d
  {
    hide Linked, Overlaps;
    if x in clusters[0] {
      d := clusters[0];
    } else {
      FlattenMembers(Matching(clusters[1..], l), x);
      d :| d in Matching(clusters[1..], l) && x in d;
      MatchingFacts(clusters[1..], l);
    }
  }

  lemma LinkIdentifies(d: seq<License>, l: License)
    requires Overlaps(d, l)
    ensures Identified(l) && exists y :: y in d && Identified(y)
  {
    var y :| y in d && Linked(y, l);
    assert Identified(y);
  }

  lemma AllIdentified(d: seq<License>, l: License)
    requires Overlaps(d, l) && (|d| == 1 || forall x :: x in d ==> Identified(x))
    ensures forall x :: x in d ==> Identified(x)
  {
    LinkIdentifies(d, l);
    hide Identified, Overlaps;
    if |d| == 1 {
      assert d == [d[0]];
    }
  }

  lemma {:induction false} AbsorbShape(clusters: seq<seq<License>>, l: License, c: seq<License>)
    requires Solid(clusters) && c in Absorb(clusters, l)
    ensures |c| == 1 || (c != [] && forall x :: x in c ==> Identified(x))
  {
    if clusters == [] {
    } else if Overlaps(clusters[0], l) && c == Absorb(clusters, l)[0] {
      MergedSolid(clusters, l);
    } else if Overlaps(clusters[0], l) {
      MatchingFacts(clusters[1..], l);
    } else if c != clusters[0] {
      AbsorbShape(clusters[1..], l, c);
    }
  }

  // All of it over the whole loop.
  lemma {:induction false} ClusterInvariant(licenses: seq<License>)
    ensures multiset(Flatten(ContactClusters(licenses))) == multiset(licenses)
    ensures Separated(ContactClusters(licenses))
    ensures Cohesive(Elements(licenses), ContactClusters(licenses))
    ensures Solid(ContactClusters(licenses))
  {
    if licenses != [] {
      var before, l := licenses[..|licenses| - 1], licenses[|licenses| - 1];
      assert licenses == before + [l];
      ClusterInvariant(before);
      var clusters := ContactClusters(before);
      AbsorbConserves(clusters, l);
      AbsorbSeparated(clusters, l);
      forall c, x | c in clusters && x in c ensures x in Elements(before) {
        FlattenMembers(clusters, x);
        assert x in multiset(Flatten(clusters));
      }
      AbsorbCohesive(Elements(before), clusters, l);
      assert Elements(licenses) == Elements(before) + {l};
      AbsorbSolid(clusters, l);
    }
  }

  lemma ClusterMembers(licenses: seq<License>, x: License)
    ensures x in licenses <==> exists c :: c in ContactClusters(licenses) && x in c
  {
    ClusterInvariant(licenses);
    FlattenMembers(ContactClusters(licenses), x);
    assert x in licenses <==> x in multiset(licenses);
    assert x in Flatten(ContactClusters(licenses)) <==> x in multiset(Flatten(ContactClusters(licenses)));
  }

  // ----- main results -----

  lemma {:induction false} DifferentClusters(clusters: seq<seq<License>>, i: nat, j: nat, x: License, y: License)
    requires Separated(clusters) && i < j < |clusters|
    requires x in clusters[i] && y in clusters[j]
    ensures !Linked(x, y)
  {
    assert clusters[j] == clusters[1..][j - 1];
    if i > 0 {
      DifferentClusters(clusters[1..], i - 1, j - 1, x, y);
    }
  }

  lemma SameCluster(clusters: seq<seq<License>>, i: nat, j: nat, x: License, y: License)
    requires Separated(clusters) && i < |clusters| && j < |clusters|
    requires x in clusters[i] && y in clusters[j] && Linked(x, y)
    ensures i == j
  {
    assert Linked(y, x);
    if i < j {
      DifferentClusters(clusters, i, j, x, y);
    }
    if j < i {
      DifferentClusters(clusters, j, i, y, x);
    }
  }

  lemma {:induction false} ChainStaysInside(licenses: seq<License>, path: seq<License>, i: nat)
    requires IsChain(Elements(licenses), path)
    requires i < |ContactClusters(licenses)| && path[0] in ContactClusters(licenses)[i]
    ensures path[|path| - 1] in ContactClusters(licenses)[i]
    decreases |path|
  {
    if |path| > 1 {
      var clusters := ContactClusters(licenses);
      ClusterInvariant(licenses);
      ClusterMembers(licenses, path[1]);
      var c :| c in clusters && path[1] in c;
      var j :| 0 <= j < |clusters| && clusters[j] == c;
      assert Linked(path[0], path[1]);
      SameCluster(clusters, i, j, path[0], path[1]);
      var rest := path[1..];
      forall k | 0 <= k < |rest| - 1 ensures Linked(rest[k], rest[k + 1]) {
        assert Linked(path[k + 1], path[k + 2]);
      }
      ChainStaysInside(licenses, rest, i);
    }
  }

  // The clusters are exactly the connected components: two licences are in one
  // cluster if and only if a chain of shared phones and emails joins them.
  lemma ClustersAreComponents(licenses: seq<License>, a: License, b: License)
    requires a in licenses && b in licenses
    ensures Together(ContactClusters(licenses), a, b) <==> Connected(Elements(licenses), a, b)
  {
    var clusters := ContactClusters(licenses);
    ClusterInvariant(licenses);
    if Connected(Elements(licenses), a, b) {
      var path :| Joins(Elements(licenses), path, a, b);
      ClusterMembers(licenses, a);
      var c :| c in clusters && a in c;
      var i :| 0 <= i < |clusters| && clusters[i] == c;
      ChainStaysInside(licenses, path, i);
    }
  }

  // Each licence with a phone or an email is in exactly one cluster, as many
  // times as it occurs in the input.
  lemma ClusterCounts(licenses: seq<License>, i: nat, x: License)
    requires i < |ContactClusters(licenses)| && x in ContactClusters(licenses)[i]
    requires Identified(x)
    ensures multiset(ContactClusters(licenses)[i])[x] == multiset(licenses)[x]
    ensures forall j :: 0 <= j < |ContactClusters(licenses)| && x in ContactClusters(licenses)[j] ==> j == i
  {
    var clusters := ContactClusters(licenses);
    ClusterInvariant(licenses);
    assert Linked(x, x);
    forall j | 0 <= j < |clusters| && x in clusters[j] ensures j == i {
      SameCluster(clusters, i, j, x, x);
    }
    CountIn(clusters, i, x);
  }

  lemma {:induction false} CountIn(clusters: seq<seq<License>>, i: nat, x: License)
    requires i < |clusters|
    requires forall j :: 0 <= j < |clusters| && j != i ==> x !in clusters[j]
    ensures multiset(Flatten(clusters))[x] == multiset(clusters[i])[x]
  {
    if i == 0 {
      FlattenMembers(clusters[1..], x);
      forall c | c in clusters[1..] ensures x !in c {
        var j :| 0 <= j < |clusters[1..]| && clusters[1..][j] == c;
        assert c == clusters[j + 1];
      }
      assert x !in multiset(Flatten(clusters[1..]));
    } else {
      assert x !in multiset(clusters[0]);
      CountIn(clusters[1..], i - 1, x);
    }
  }

  // The partition does not depend on the order of the rows: reordering the
  // input yields clusters with the same contents.
  lemma ClustersOrderIndependent(licenses: seq<License>, reordered: seq<License>, c: seq<License>)
    requires multiset(licenses) == multiset(reordered)
    requires c in ContactClusters(licenses)
    ensures exists d :: d in ContactClusters(reordered) && multiset(d) == multiset(c)
  {
    hide ContactClusters, Identified;
    SameElements(licenses, reordered);
    ShapeOf(licenses, c);
    var a := c[0];
    ClusterMembers(licenses, a);
    ClusterMembers(reordered, a);
    var d :| d in ContactClusters(reordered) && a in d;
    ShapeOf(reordered, d);
    if Identified(a) {
      SameContents(licenses, reordered, c, d, a);
    } else {
      assert c == [a];
      assert d == [a];
    }
  }

  lemma SameContents(licenses: seq<License>, reordered: seq<License>, c: seq<License>, d: seq<License>, a: License)
    requires multiset(licenses) == multiset(reordered)
    requires c in ContactClusters(licenses) && d in ContactClusters(reordered)
    requires a in c && a in d && Identified(a)
    ensures multiset(c) == multiset(d)
  {
    SameElements(licenses, reordered);
    forall x ensures multiset(c)[x] == multiset(d)[x] {
      ClusterContents(licenses, c, a, x);
      ClusterContents(reordered, d, a, x);
    }
  }

  lemma SameElements(s: seq<License>, t: seq<License>)
    requires multiset(s) == multiset(t)
    ensures Elements(s) == Elements(t)
    ensures forall x :: x in s <==> x in t
  {
    forall x ensures x in s <==> x in t {
      assert x in multiset(s) <==> x in multiset(t);
    }
  }

  lemma ShapeOf(licenses: seq<License>, c: seq<License>)
    requires c in ContactClusters(licenses)
    ensures |c| == 1 || (c != [] && forall x :: x in c ==> Identified(x))
    ensures forall x :: x in c ==> x in licenses
  {
    ClusterInvariant(licenses);
    forall x | x in c ensures x in licenses {
      ClusterMembers(licenses, x);
    }
  }

  lemma IndexOf(clusters: seq<seq<License>>, c: seq<License>) returns (i: nat)
    requires c in clusters
    ensures i < |clusters| && clusters[i] == c
  {
    i :| 0 <= i < |clusters| && clusters[i] == c;
  }

  lemma ClusterContents(licenses: seq<License>, c: seq<License>, a: License, x: License)
    requires c in ContactClusters(licenses) && a in c && Identified(a)
    ensures multiset(c)[x] ==
      if x in licenses && Connected(Elements(licenses), a, x) then multiset(licenses)[x] else 0
  {
    var i := IndexOf(ContactClusters(licenses), c);
    ShapeOf(licenses, c);
    if x in c {
      assert |c| == 1 ==> c == [a];
      ClusterCounts(licenses, i, x);
      ClustersAreComponents(licenses, a, x);
    } else {
      if x in licenses && Connected(Elements(licenses), a, x) {
        ClustersAreComponents(licenses, a, x);
        var d :| d in ContactClusters(licenses) && a in d && x in d;
        var j := IndexOf(ContactClusters(licenses), d);
        ClusterCounts(licenses, i, a);
      }
      assert x !in multiset(c);
    }
  }
}
