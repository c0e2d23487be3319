// Small vocabulary shared by the models: optional values and facts about
// sequences that several of them need.
module Prelude {

  datatype Option<+T> = None | Some(value: T)

  // All elements of a sequence of sequences, in order.
  function Flatten<T>(parts: seq<seq<T>>): seq<T> {
    if parts == [] then [] else parts[0] + Flatten(parts[1..])
  }

  lemma {:induction false} FlattenMembers<T>(parts: seq<seq<T>>, x: T)
    ensures x in Flatten(parts) <==> exists part :: part in parts && x in part
  {
    if parts != [] {
      FlattenMembers(parts[1..], x);
      assert parts == [parts[0]] + parts[1..];
    }
  }

  lemma {:induction false} FlattenAppend<T>(left: seq<seq<T>>, right: seq<seq<T>>)
    ensures Flatten(left + right) == Flatten(left) + Flatten(right)
  {
    if left == [] {
      assert left + right == right;
    } else {
      assert (left + right)[1..] == left[1..] + right;
      FlattenAppend(left[1..], right);
    }
  }

  // The elements of a sequence as a set.
  function Elements<T>(s: seq<T>): set<T> {
    set x | x in s
  }

  // No value occurs twice.
  ghost predicate Distinct<T>(s: seq<T>) {
    forall i, j :: 0 <= i < j < |s| ==> s[i] != s[j]
  }

  lemma SubsetSize<T>(small: set<T>, large: set<T>)
    requires small <= large
    ensures |small| <= |large|
  {
    assert large == small + (large - small);
  }
}
