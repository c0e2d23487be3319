// Keyset pagination, newest first (backend/app/api/crm.py).
module Keyset {
  import opened Prelude
  import opened Ranking

  // What a list is ordered and paged by; neither part of it ever changes.
  datatype Key = Key(createdAt: int, id: nat)

  predicate Newer(a: Key, b: Key) {
    a.createdAt > b.createdAt || (a.createdAt == b.createdAt && a.id > b.id)
  }

  lemma NewerIsStrict(s: set<Key>)
    ensures StrictOrder(s, Newer)
  {
  }

  // _cursor_condition
  predicate Beyond(cursor: Option<Key>, k: Key) {
    cursor.None? || k.createdAt < cursor.value.createdAt || (k.createdAt == cursor.value.createdAt && k.id < cursor.value.id)
  }

  function Remaining(rows: set<Key>, cursor: Option<Key>): set<Key> {
    set k | k in rows && Beyond(cursor, k)
  }

  // ORDER BY created_at DESC, id DESC LIMIT limit + 1
  function Query(rows: set<Key>, cursor: Option<Key>, limit: nat): seq<Key> {
    NewerIsStrict(Remaining(rows, cursor));
    var order := Ranked(Remaining(rows, cursor), Newer);
    if |order| <= limit + 1 then order else order[..limit + 1]
  }

  // _next_cursor
  function Visible(items: seq<Key>, limit: nat): (seq<Key>, Option<Key>) {
    var visible := if |items| > limit then items[..limit] else items;
    (visible, if |items| > limit && visible != [] then Some(visible[|visible| - 1]) else None)
  }

  function Page(rows: set<Key>, cursor: Option<Key>, limit: nat): (seq<Key>, Option<Key>) {
    Visible(Query(rows, cursor, limit), limit)
  }

  // Made earlier, or at the same time with a smaller id.
  predicate Older(a: Key, b: Key) {
    a.createdAt < b.createdAt || (a.createdAt == b.createdAt && a.id < b.id)
  }

  // Newest first.
  ghost predicate Descending(items: seq<Key>) {
    forall i, j :: 0 <= i < j < |items| ==> Older(items[j], items[i])
  }

  lemma NewestFirst(items: seq<Key>)
    ensures Sorted(items, Newer) <==> Descending(items)
  {
    forall i, j | 0 <= i < j < |items| ensures Newer(items[i], items[j]) <==> Older(items[j], items[i]) {
    }
  }

  lemma RemainingAre(rows: set<Key>, cursor: Option<Key>)
    ensures forall k :: k in Remaining(rows, cursor) <==> k in rows && (cursor.None? || Older(k, cursor.value))
  {
  }

  lemma NewerIsOlder()
    ensures forall a, b :: Newer(a, b) <==> Older(b, a)
  {
  }

  // What one page shows: the newest rows beyond the cursor; and it ends the
  // list exactly if there are no more than these.
  lemma PageFacts(rows: set<Key>, cursor: Option<Key>, limit: nat)
    requires limit >= 1
    ensures var (items, next) := Page(rows, cursor, limit);
      && Descending(items)
      && (forall k :: k in items ==> k in rows && (cursor.None? || Older(k, cursor.value)))
      && (next.None? <==> |Remaining(rows, cursor)| <= limit)
      && (next.None? ==> forall k :: k in rows && (cursor.None? || Older(k, cursor.value)) ==> k in items)
      && (next.Some? ==> |items| == limit && next.value == items[limit - 1])
      && (next.Some? ==> forall k :: k in rows && (cursor.None? || Older(k, cursor.value)) ==> k in items || Older(k, next.value))
  {
    hide Remaining, Newer, Older, Page, Descending;
    PageCut(rows, cursor, limit);
    NewestFirst(Page(rows, cursor, limit).0);
    RemainingAre(rows, cursor);
    NewerIsOlder();
  }

  lemma PageCut(rows: set<Key>, cursor: Option<Key>, limit: nat)
    requires limit >= 1
    ensures var (items, next) := Page(rows, cursor, limit);
      && Sorted(items, Newer)
      && (forall k :: k in items ==> k in Remaining(rows, cursor))
      && (next.None? <==> |Remaining(rows, cursor)| <= limit)
      && (next.None? ==> Elements(items) == Remaining(rows, cursor))
      && (next.Some? ==> |items| == limit && next.value == items[limit - 1])
      && (next.Some? ==> forall k :: k in Remaining(rows, cursor) ==> k in items || Newer(next.value, k))
  {
    var rest := Remaining(rows, cursor);
    NewerIsStrict(rest);
    var order := Ranked(rest, Newer);
    RankedSorts(rest, Newer);
    assert Query(rows, cursor, limit) == if |order| <= limit + 1 then order else order[..limit + 1];
    hide Ranked, StrictOrder, Newer, Remaining, Query, Visible;
    CutPage(order, limit);
    forall k | k in rest ensures k in order {
      assert k in Elements(order);
    }
    forall i | 0 <= i < |order| ensures order[i] in rest {
      assert order[i] in Elements(order);
    }
  }

  // Cutting a sorted list to one page.
  lemma CutPage(order: seq<Key>, limit: nat)
    requires Sorted(order, Newer) && limit >= 1
    ensures var items, next := PageOf(order, limit).0, PageOf(order, limit).1;
      && Sorted(items, Newer) && (forall i :: 0 <= i < |items| ==> i < |order| && items[i] == order[i])
      && (next.None? <==> |order| <= limit)
      && (next.None? ==> items == order)
      && (next.Some? ==> |items| == limit && next.value == items[limit - 1])
      && (next.Some? ==> forall k :: k in order ==> k in items || Newer(next.value, k))
  {
    var (items, next) := PageOf(order, limit);
    hide Newer;
    if |order| > limit {
      assert items == order[..limit];
      forall k | k in order ensures k in items || Newer(next.value, k) {
        var i :| 0 <= i < |order| && order[i] == k;
        if i < limit {
          assert items[i] == k;
        }
      }
    }
  }

  function PageOf(order: seq<Key>, limit: nat): (seq<Key>, Option<Key>) {
    Visible(if |order| <= limit + 1 then order else order[..limit + 1], limit)
  }

  // ----- following the cursors -----

  // One snapshot of the table for every request. Stops at the end of the list
  // or of the snapshots; the flag says that the list has ended.
  function Follow(tables: seq<set<Key>>, cursor: Option<Key>, limit: nat): (seq<Key>, bool) {
    if tables == [] then ([], false)
    else
      var (items, next) := Page(tables[0], cursor, limit);
      if next.None? then (items, true)
      else
        var (more, ended) := Follow(tables[1..], next, limit);
        (items + more, ended)
  }

  // How many requests it takes.
  function Requests(tables: seq<set<Key>>, cursor: Option<Key>, limit: nat): (n: nat)
    ensures n <= |tables|
  {
    if tables == [] then 0
    else if Page(tables[0], cursor, limit).1.None? then 1
    else 1 + Requests(tables[1..], Page(tables[0], cursor, limit).1, limit)
  }

  lemma BeyondNext(cursor: Option<Key>, next: Key, k: Key)
    requires Beyond(cursor, next) && Beyond(Some(next), k)
    ensures Beyond(cursor, k) && Newer(next, k) && k != next
  {
  }

  // Everything shown lies beyond the cursor, newest first: so nothing twice.
  lemma {:induction false} FollowDescends(tables: seq<set<Key>>, cursor: Option<Key>, limit: nat)
    requires limit >= 1
    ensures var shown := Follow(tables, cursor, limit).0;
      && Sorted(shown, Newer)
      && forall i :: 0 <= i < |shown| ==> Beyond(cursor, shown[i])
  {
    if tables != [] {
      var (items, next) := Page(tables[0], cursor, limit);
      PageCut(tables[0], cursor, limit);
      hide Page;
      forall i | 0 <= i < |items| ensures Beyond(cursor, items[i]) {
        assert items[i] in items;
      }
      if next.Some? {
        FollowDescends(tables[1..], next, limit);
        var more := Follow(tables[1..], next, limit).0;
        hide Follow;
        Join(cursor, items, next.value, more);
      }
    }
  }

  lemma Join(cursor: Option<Key>, items: seq<Key>, next: Key, more: seq<Key>)
    requires items != [] && next == items[|items| - 1] && Sorted(items, Newer) && Sorted(more, Newer)
    requires forall i :: 0 <= i < |items| ==> Beyond(cursor, items[i])
    requires forall i :: 0 <= i < |more| ==> Beyond(Some(next), more[i])
    ensures Sorted(items + more, Newer)
    ensures forall i :: 0 <= i < |items + more| ==> Beyond(cursor, (items + more)[i])
  {
    var all := items + more;
    forall i | |items| <= i < |all| ensures Beyond(cursor, all[i]) && Newer(next, all[i]) {
      assert all[i] == more[i - |items|];
      BeyondNext(cursor, next, all[i]);
    }
    forall i, j | 0 <= i < j < |all| ensures Newer(all[i], all[j]) {
      if i < |items| <= j {
        assert i < |items| - 1 ==> Newer(items[i], next);
      } else if i >= |items| {
        assert all[i] == more[i - |items|] && all[j] == more[j - |items|];
      }
    }
  }

  // Nothing that is there at every request is missed.
  lemma {:induction false} FollowMissesNothing(tables: seq<set<Key>>, cursor: Option<Key>, limit: nat, k: Key)
    requires limit >= 1 && Follow(tables, cursor, limit).1
    requires Beyond(cursor, k) && forall i :: 0 <= i < Requests(tables, cursor, limit) ==> k in tables[i]
    ensures k in Follow(tables, cursor, limit).0
  {
    var (items, next) := Page(tables[0], cursor, limit);
    PageCut(tables[0], cursor, limit);
    hide Page;
    assert k in tables[0] && k in Remaining(tables[0], cursor);
    if next.None? {
      assert k in Elements(items);
    } else if k !in items {
      forall i | 0 <= i < Requests(tables[1..], next, limit) ensures k in tables[1..][i] {
        assert tables[1..][i] == tables[i + 1];
      }
      assert Beyond(next, k);
      FollowMissesNothing(tables[1..], next, limit, k);
    }
  }

  // Nothing is shown that was not there when its page was asked for.
  lemma {:induction false} FollowShowsRows(tables: seq<set<Key>>, cursor: Option<Key>, limit: nat, k: Key)
    requires limit >= 1 && k in Follow(tables, cursor, limit).0
    ensures exists i :: 0 <= i < Requests(tables, cursor, limit) && k in tables[i]
  {
    var (items, next) := Page(tables[0], cursor, limit);
    PageCut(tables[0], cursor, limit);
    hide Page;
    if k in items {
      assert k in tables[0];
    } else {
      FollowShowsRows(tables[1..], next, limit, k);
      var i :| 0 <= i < Requests(tables[1..], next, limit) && k in tables[1..][i];
      assert k in tables[i + 1];
    }
  }

  // With rows inserted and deleted at will between the requests: following the
  // cursor to its end shows rows in strictly descending order, none twice, none
  // that is not there, and every row that was there throughout.
  lemma TraversalIsComplete(tables: seq<set<Key>>, limit: nat)
    requires limit >= 1 && Follow(tables, None, limit).1
    ensures var shown := Follow(tables, None, limit).0; var n := Requests(tables, None, limit);
      && Descending(shown) && Distinct(shown)
      && (forall k :: (forall i :: 0 <= i < n ==> k in tables[i]) ==> k in shown)
      && (forall k :: k in shown ==> exists i :: 0 <= i < n && k in tables[i])
  {
    var shown, n := Follow(tables, None, limit).0, Requests(tables, None, limit);
    FollowDescends(tables, None, limit);
    NewestFirst(shown);
    hide Follow, Requests;
    forall k | (forall i :: 0 <= i < n ==> k in tables[i]) ensures k in shown {
      FollowMissesNothing(tables, None, limit, k);
    }
    forall k | k in shown ensures exists i :: 0 <= i < n && k in tables[i] {
      FollowShowsRows(tables, None, limit, k);
    }
  }

  // The list ends: as long as rows are only deleted, no more requests are
  // needed than there were rows, and one.
  lemma {:induction false} TraversalEnds(tables: seq<set<Key>>, cursor: Option<Key>, limit: nat)
    requires limit >= 1 && tables != [] && |tables| > |Remaining(tables[0], cursor)|
    requires forall i, j :: 0 <= i < j < |tables| ==> tables[j] <= tables[i]
    ensures Follow(tables, cursor, limit).1
    decreases |tables|
  {
    var (items, next) := Page(tables[0], cursor, limit);
    PageCut(tables[0], cursor, limit);
    hide Page;
    if next.Some? {
      var before, after := Remaining(tables[0], cursor), Remaining(tables[1], next);
      assert next.value in items && next.value in before;
      forall k | k in after ensures k in before - {next.value} {
        BeyondNext(cursor, next.value, k);
      }
      SubsetSize(after, before - {next.value});
      assert |tables| > 1;
      TraversalEnds(tables[1..], next, limit);
    }
  }
}
