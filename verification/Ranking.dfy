// Sets in the order of a query: lists sorted by a strict total order.
module Ranking {
  import opened Prelude

  ghost predicate StrictOrder<T(!new)>(s: set<T>, before: (T, T) -> bool) {
    && (forall x :: x in s ==> !before(x, x))
    && (forall x, y :: x in s && y in s && x != y ==> before(x, y) || before(y, x))
    && (forall x, y, z :: x in s && y in s && z in s && before(x, y) && before(y, z) ==> before(x, z))
  }

  predicate Best<T(==)>(s: set<T>, before: (T, T) -> bool, x: T) {
    x in s && forall y :: y in s && y != x ==> before(x, y)
  }

  lemma {:induction false} BestExists<T(!new)>(s: set<T>, before: (T, T) -> bool)
    requires StrictOrder(s, before) && s != {}
    ensures exists x :: Best(s, before, x)
    decreases |s|
  {
    var x :| x in s;
    if s == {x} {
      assert Best(s, before, x);
    } else {
      BestExists(s - {x}, before);
      var y :| Best(s - {x}, before, y);
      if before(x, y) {
        forall z | z in s && z != x ensures before(x, z) {
          assert z != y ==> before(y, z);
        }
        assert Best(s, before, x);
      } else {
        assert Best(s, before, y);
      }
    }
  }

  lemma BestUnique<T(!new)>(s: set<T>, before: (T, T) -> bool, x: T, y: T)
    requires StrictOrder(s, before) && Best(s, before, x) && Best(s, before, y)
    ensures x == y
  {
  }

  // ORDER BY
  function Ranked<T(!new, ==)>(s: set<T>, before: (T, T) -> bool): seq<T>
    requires StrictOrder(s, before)
    decreases |s|
  {
    if s == {} then []
    else
      BestExists(s, before);
      assert forall x, y :: Best(s, before, x) && Best(s, before, y) ==> x == y by {
        forall x, y | Best(s, before, x) && Best(s, before, y) ensures x == y {
          BestUnique(s, before, x, y);
        }
      }
      var x :| Best(s, before, x);
      [x] + Ranked(s - {x}, before)
  }

  ghost predicate Sorted<T>(order: seq<T>, before: (T, T) -> bool) {
    forall i, j :: 0 <= i < j < |order| ==> before(order[i], order[j])
  }

  // The list has exactly the given members, each once, best first.
  lemma {:induction false} RankedSorts<T(!new)>(s: set<T>, before: (T, T) -> bool)
    requires StrictOrder(s, before)
    ensures var order := Ranked(s, before);
      |order| == |s| && Elements(order) == s && Distinct(order) && Sorted(order, before)
    decreases |s|
  {
    if s != {} {
      var x, rest := RankedUnfolds(s, before);
      RankedSorts(s - {x}, before);
      hide Ranked, StrictOrder;
      forall i | 0 <= i < |rest| ensures rest[i] in s && rest[i] != x && before(x, rest[i]) {
        assert rest[i] in Elements(rest);
      }
      Cons(x, rest, before);
      assert {x} + (s - {x}) == s;
    }
  }

  lemma RankedUnfolds<T(!new)>(s: set<T>, before: (T, T) -> bool) returns (x: T, rest: seq<T>)
    requires StrictOrder(s, before) && s != {}
    ensures Best(s, before, x) && rest == Ranked(s - {x}, before) && Ranked(s, before) == [x] + rest
  {
    hide Best, StrictOrder;
    var order := Ranked(s, before);
    x, rest := order[0], order[1..];
  }

  lemma Cons<T>(x: T, rest: seq<T>, before: (T, T) -> bool)
    requires Distinct(rest) && Sorted(rest, before)
    requires forall i :: 0 <= i < |rest| ==> rest[i] != x && before(x, rest[i])
    ensures Distinct([x] + rest) && Elements([x] + rest) == {x} + Elements(rest) && Sorted([x] + rest, before)
  {
    var order := [x] + rest;
    forall i, j | 0 <= i < j < |order| ensures order[i] != order[j] && before(order[i], order[j]) {
      assert order[j] == rest[j - 1];
      assert i > 0 ==> order[i] == rest[i - 1];
    }
  }

  lemma {:induction false} DistinctSize<T>(s: seq<T>)
    requires Distinct(s)
    ensures |Elements(s)| == |s|
  {
    if s == [] {
      assert Elements(s) == {};
    } else {
      DistinctSize(s[1..]);
      assert s == [s[0]] + s[1..];
      assert s[0] !in s[1..] by {
        assert forall i :: 0 < i < |s| ==> s[i] != s[0];
      }
      assert Elements(s) == {s[0]} + Elements(s[1..]);
    }
  }

  // Cutting a list after its first n members.
  lemma CutList<T>(order: seq<T>, n: nat)
    requires Distinct(order) && n <= |order|
    ensures Elements(order[..n]) + Elements(order[n..]) == Elements(order)
    ensures Elements(order[..n]) !! Elements(order[n..])
    ensures |Elements(order[..n])| == n
  {
    forall x | x in order ensures x in order[..n] || x in order[n..] {
      assert order == order[..n] + order[n..];
    }
    forall i, j | 0 <= i < n <= j < |order| ensures order[i] != order[j] {
    }
    DistinctSize(order[..n]);
  }

  // Dropping all but the first n members drops only what comes after them.
  lemma DropAfter<T(!new)>(s: set<T>, before: (T, T) -> bool, n: nat)
    requires StrictOrder(s, before) && n < |s|
    ensures |Ranked(s, before)| == |s|
    ensures var stale := Elements(Ranked(s, before)[n..]);
      && stale <= s && |s - stale| == n
      && forall x, y :: x in s - stale && y in stale ==> before(x, y)
  {
    RankedSorts(s, before);
    var order := Ranked(s, before);
    hide Ranked, StrictOrder;
    CutList(order, n);
    var front, stale := Elements(order[..n]), Elements(order[n..]);
    assert s - stale == front;
    forall x, y | x in front && y in stale ensures before(x, y) {
      var i :| 0 <= i < n && order[i] == x;
      var j :| n <= j < |order| && order[j] == y;
    }
  }
}
