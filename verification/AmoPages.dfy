// Paging through amoCRM: what one fetch returns, how the cursor moves, and
// what following the cursor to its end adds up to.
module AmoPages {
  import opened Prelude

  datatype EntityType =
    | Pipelines | Stages | Users | CustomFields | Companies | Contacts | Deals | Tasks | Notes

  // AMO_IMPORT_SEQUENCE
  const SEQUENCE: seq<EntityType> :=
    [Pipelines, Stages, Users, CustomFields, Companies, Contacts, Deals, Tasks, Notes]

  function Index(t: EntityType): (i: nat)
    ensures i < |SEQUENCE| && SEQUENCE[i] == t
  {
    match t
    case Pipelines => 0
    case Stages => 1
    case Users => 2
    case CustomFields => 3
    case Companies => 4
    case Contacts => 5
    case Deals => 6
    case Tasks => 7
    case Notes => 8
  }

  // A job imports one entity type or all of them.
  datatype Scope = All | Only(entity: EntityType)

  // ----- the remote account: for every query a fixed list of pages -----

  datatype Item = Item(id: string, data: string, completed: bool, ordinary: bool)

  datatype Pipeline = Pipeline(item: Item, statuses: seq<Item>)

  // Pages may have any length, also none; each but the last links to the next.
  datatype Remote = Remote(
    lists: map<EntityType, seq<seq<Item>>>,
    pipelines: seq<seq<Pipeline>>,
    partitions: map<(EntityType, nat), seq<seq<Item>>>)

  const PARTITIONS: seq<string> := ["leads", "contacts", "companies"]

  // _field_parent_key for custom fields; notes keep the partition name
  const PARENTS: seq<string> := ["deal", "contact", "company"]

  // The number of entities a worker asks for, and the most it accepts.
  const PAGE_LIMIT: nat := 250

  function Min(a: nat, b: nat): (m: nat)
    ensures m <= a && m <= b
  {
    if a < b then a else b
  }

  // The rows of the page with a number; pages are numbered from 1.
  function PageAt<T>(pages: seq<seq<T>>, page: nat): seq<T> {
    if 1 <= page <= |pages| then pages[page - 1] else []
  }

  // _has_next
  predicate HasNext<T>(pages: seq<seq<T>>, page: nat) {
    page < |pages|
  }

  // The rows of a page and of all that follow it.
  function RowsFrom<T>(pages: seq<seq<T>>, page: nat): seq<T> {
    if page == 0 then Flatten(pages) else if page <= |pages| then Flatten(pages[page - 1..]) else []
  }

  function ListOf(remote: Remote, t: EntityType): seq<seq<Item>> {
    if t in remote.lists then remote.lists[t] else []
  }

  function PartitionOf(remote: Remote, t: EntityType, partition: nat): seq<seq<Item>> {
    if (t, partition) in remote.partitions then remote.partitions[(t, partition)] else []
  }

  // ----- entities -----

  datatype Entity = Entity(entityType: EntityType, externalId: string, data: string)

  predicate Kept(t: EntityType, item: Item) {
    (t == Tasks ==> !item.completed) && (t == Notes ==> item.ordinary)
  }

  function EntitiesFrom(t: EntityType, prefix: string, items: seq<Item>): seq<Entity> {
    if items == [] then []
    else
      (if Kept(t, items[0]) then [Entity(t, prefix + items[0].id, items[0].data)] else [])
      + EntitiesFrom(t, prefix, items[1..])
  }

  // Statuses of a page of pipelines, each with the id of its pipeline.
  function Flattened(pipelines: seq<Pipeline>): seq<Entity> {
    if pipelines == [] then []
    else EntitiesFrom(Stages, pipelines[0].item.id + ":", pipelines[0].statuses) + Flattened(pipelines[1..])
  }

  function PartitionPrefix(t: EntityType, partition: nat): string
    requires partition < |PARTITIONS|
  {
    (if t == CustomFields then PARENTS[partition] else PARTITIONS[partition]) + ":"
  }

  // ----- one fetch -----

  datatype PageCursor = PageCursor(page: Option<nat>, offset: Option<nat>, partition: Option<nat>)

  const START := PageCursor(None, None, None)

  function Or(value: Option<nat>, default: nat): nat {
    if value.Some? then value.value else default
  }

  datatype Page = Page(entities: seq<Entity>, next: Option<PageCursor>)

  function FetchList(remote: Remote, t: EntityType, at: PageCursor): Page {
    var page, pages := Or(at.page, 1), ListOf(remote, t);
    Page(EntitiesFrom(t, "", PageAt(pages, page)),
         if HasNext(pages, page) then Some(PageCursor(Some(page + 1), None, None)) else None)
  }

  function FetchStages(remote: Remote, at: PageCursor): Page {
    var page, offset := Or(at.page, 1), Or(at.offset, 0);
    var flattened := Flattened(PageAt(remote.pipelines, page));
    Page(flattened[Min(offset, |flattened|)..Min(offset + PAGE_LIMIT, |flattened|)],
         if offset + PAGE_LIMIT < |flattened| then Some(PageCursor(Some(page), Some(offset + PAGE_LIMIT), None))
         else if HasNext(remote.pipelines, page) then Some(PageCursor(Some(page + 1), Some(0), None))
         else None)
  }

  function FetchPartitioned(remote: Remote, t: EntityType, at: PageCursor): Page {
    var partition, page := Or(at.partition, 0), Or(at.page, 1);
    if partition >= |PARTITIONS| then Page([], None)
    else
      var pages := PartitionOf(remote, t, partition);
      Page(EntitiesFrom(t, PartitionPrefix(t, partition), PageAt(pages, page)),
           if HasNext(pages, page) then Some(PageCursor(Some(page + 1), None, Some(partition)))
           else if partition + 1 < |PARTITIONS| then Some(PageCursor(Some(1), None, Some(partition + 1)))
           else None)
  }

  function FetchPage(remote: Remote, t: EntityType, at: PageCursor): Page {
    if t == Stages then FetchStages(remote, at)
    else if t == CustomFields || t == Notes then FetchPartitioned(remote, t, at)
    else FetchList(remote, t, at)
  }

  // ----- the cursor of a job -----

  datatype JobCursor = JobCursor(entity: Option<EntityType>, at: PageCursor)

  const FIRST := JobCursor(None, START)

  // _active_entity
  function Active(scope: Scope, cursor: JobCursor): EntityType {
    match scope
    case Only(t) => t
    case All => if cursor.entity.Some? then cursor.entity.value else SEQUENCE[0]
  }

  // _advance_page
  function Advance(scope: Scope, t: EntityType, next: Option<PageCursor>): Option<JobCursor> {
    match scope
    case Only(_) => if next.Some? then Some(JobCursor(None, next.value)) else None
    case All =>
      if next.Some? then Some(JobCursor(Some(t), next.value))
      else if Index(t) + 1 < |SEQUENCE| then Some(JobCursor(Some(SEQUENCE[Index(t) + 1]), START))
      else None
  }

  datatype JobPage = JobPage(entityType: EntityType, entities: seq<Entity>, next: Option<JobCursor>)

  // What a worker has in hand after a fetch at the job's cursor.
  function FetchJobPage(remote: Remote, scope: Scope, cursor: JobCursor): JobPage {
    var t := Active(scope, cursor);
    var page := FetchPage(remote, t, cursor.at);
    JobPage(t, page.entities, Advance(scope, t, page.next))
  }

  // ----- termination: the four-part measure every step makes smaller -----

  datatype Rank = Rank(entities: nat, partitions: nat, pages: nat, offsets: nat)

  predicate Below(a: Rank, b: Rank) {
    || a.entities < b.entities
    || (a.entities == b.entities && a.partitions < b.partitions)
    || (a.entities == b.entities && a.partitions == b.partitions && a.pages < b.pages)
    || (a.entities == b.entities && a.partitions == b.partitions && a.pages == b.pages && a.offsets < b.offsets)
  }

  function Left(total: nat, done: nat): nat {
    if done < total then total - done else 0
  }

  function PageRank(remote: Remote, t: EntityType, at: PageCursor): (nat, nat, nat) {
    var page := Or(at.page, 1);
    if t == Stages then
      (0, Left(|remote.pipelines|, page),
       Left(|Flattened(PageAt(remote.pipelines, page))|, Or(at.offset, 0)))
    else if t == CustomFields || t == Notes then
      (Left(|PARTITIONS|, Or(at.partition, 0)), Left(|PartitionOf(remote, t, Or(at.partition, 0))|, page), 0)
    else
      (0, Left(|ListOf(remote, t)|, page), 0)
  }

  function CursorRank(remote: Remote, scope: Scope, cursor: JobCursor): Rank {
    var t := Active(scope, cursor);
    var (partitions, pages, offsets) := PageRank(remote, t, cursor.at);
    Rank(if scope.All? then |SEQUENCE| - Index(t) else 0, partitions, pages, offsets)
  }

  // Following a cursor inside one entity type.
  lemma PageRankDecreases(remote: Remote, t: EntityType, at: PageCursor)
    requires FetchPage(remote, t, at).next.Some?
    ensures var (p, r, o) := PageRank(remote, t, FetchPage(remote, t, at).next.value);
      var (p0, r0, o0) := PageRank(remote, t, at);
      p < p0 || (p == p0 && (r < r0 || (r == r0 && o < o0)))
  {
  }

  lemma StepDecreases(remote: Remote, scope: Scope, cursor: JobCursor)
    requires FetchJobPage(remote, scope, cursor).next.Some?
    ensures Below(CursorRank(remote, scope, FetchJobPage(remote, scope, cursor).next.value), CursorRank(remote, scope, cursor))
  {
    var t := Active(scope, cursor);
    if FetchPage(remote, t, cursor.at).next.Some? {
      PageRankDecreases(remote, t, cursor.at);
    }
  }

  // ----- following the cursor to the end -----

  function FollowPages(remote: Remote, t: EntityType, at: PageCursor): seq<Entity>
    decreases PageRank(remote, t, at).0, PageRank(remote, t, at).1, PageRank(remote, t, at).2
  {
    var page := FetchPage(remote, t, at);
    if page.next.None? then page.entities
    else
      PageRankDecreases(remote, t, at);
      page.entities + FollowPages(remote, t, page.next.value)
  }

  function Follow(remote: Remote, scope: Scope, cursor: JobCursor): seq<Entity>
    decreases CursorRank(remote, scope, cursor).entities, CursorRank(remote, scope, cursor).partitions,
              CursorRank(remote, scope, cursor).pages, CursorRank(remote, scope, cursor).offsets
  {
    var page := FetchJobPage(remote, scope, cursor);
    if page.next.None? then page.entities
    else
      StepDecreases(remote, scope, cursor);
      page.entities + Follow(remote, scope, page.next.value)
  }

  // ----- the reference: everything the account holds, in order -----

  function EntitiesOf(remote: Remote, t: EntityType): seq<Entity> {
    if t == Stages then Flattened(Flatten(remote.pipelines))
    else if t == CustomFields || t == Notes then PartitionsFrom(remote, t, 0)
    else EntitiesFrom(t, "", Flatten(ListOf(remote, t)))
  }

  function PartitionsFrom(remote: Remote, t: EntityType, partition: nat): seq<Entity>
    decreases |PARTITIONS| - partition
  {
    if partition >= |PARTITIONS| then []
    else EntitiesFrom(t, PartitionPrefix(t, partition), Flatten(PartitionOf(remote, t, partition)))
         + PartitionsFrom(remote, t, partition + 1)
  }

  function EntitiesFromIndex(remote: Remote, i: nat): seq<Entity>
    decreases |SEQUENCE| - i
  {
    if i >= |SEQUENCE| then [] else EntitiesOf(remote, SEQUENCE[i]) + EntitiesFromIndex(remote, i + 1)
  }

  function Everything(remote: Remote, scope: Scope): seq<Entity> {
    match scope
    case Only(t) => EntitiesOf(remote, t)
    case All => EntitiesFromIndex(remote, 0)
  }

  // ----- pages add up -----

  lemma {:induction false} EntitiesAppend(t: EntityType, prefix: string, left: seq<Item>, right: seq<Item>)
    ensures EntitiesFrom(t, prefix, left + right) == EntitiesFrom(t, prefix, left) + EntitiesFrom(t, prefix, right)
  {
    if left == [] {
      assert left + right == right;
    } else {
      assert (left + right)[1..] == left[1..] + right && (left + right)[0] == left[0];
      EntitiesAppend(t, prefix, left[1..], right);
    }
  }

  lemma {:induction false} FlattenedAppend(left: seq<Pipeline>, right: seq<Pipeline>)
    ensures Flattened(left + right) == Flattened(left) + Flattened(right)
  {
    if left == [] {
      assert left + right == right;
    } else {
      assert (left + right)[1..] == left[1..] + right;
      FlattenedAppend(left[1..], right);
    }
  }

  // A page and what follows it make up what starts there.
  lemma PageThenRest<T>(pages: seq<seq<T>>, page: nat)
    ensures RowsFrom(pages, page) == PageAt(pages, page) + RowsFrom(pages, page + 1)
    ensures !HasNext(pages, page) ==> RowsFrom(pages, page + 1) == []
    ensures RowsFrom(pages, 1) == Flatten(pages)
  {
    if |pages| >= 1 {
      assert pages[0..] == pages;
    }
    if page == 0 {
      assert RowsFrom(pages, 1) == Flatten(pages);
    } else if page <= |pages| {
      var rest := pages[page - 1..];
      assert rest[1..] == pages[page..] && rest[0] == pages[page - 1];
      assert Flatten(rest) == rest[0] + Flatten(rest[1..]);
      assert page == |pages| ==> Flatten(pages[page..]) == [];
    }
  }

  lemma {:induction false} FollowList(remote: Remote, t: EntityType, at: PageCursor)
    requires t != Stages && t != CustomFields && t != Notes
    ensures FollowPages(remote, t, at) == EntitiesFrom(t, "", RowsFrom(ListOf(remote, t), Or(at.page, 1)))
    decreases PageRank(remote, t, at).0, PageRank(remote, t, at).1, PageRank(remote, t, at).2
  {
    hide EntitiesFrom, PageAt, RowsFrom, FollowPages, PageRank, HasNext, FetchPage, ListOf;
    var pages, page := ListOf(remote, t), Or(at.page, 1);
    EntitiesPage(t, "", pages, page);
    FollowUnfolds(remote, t, at);
    FetchListPage(remote, t, at);
    if HasNext(pages, page) {
      PageRankDecreases(remote, t, at);
      FollowList(remote, t, PageCursor(Some(page + 1), None, None));
    }
  }

  lemma FetchListPage(remote: Remote, t: EntityType, at: PageCursor)
    requires t != Stages && t != CustomFields && t != Notes
    ensures var pages, page := ListOf(remote, t), Or(at.page, 1);
      FetchPage(remote, t, at) == Page(
        EntitiesFrom(t, "", PageAt(pages, page)),
        if HasNext(pages, page) then Some(PageCursor(Some(page + 1), None, None)) else None)
  {
    hide EntitiesFrom, PageAt, HasNext, ListOf;
  }

  // The entities from a page on are those of that page and those from the next.
  lemma EntitiesPage(t: EntityType, prefix: string, pages: seq<seq<Item>>, page: nat)
    ensures EntitiesFrom(t, prefix, RowsFrom(pages, page))
         == EntitiesFrom(t, prefix, PageAt(pages, page)) + EntitiesFrom(t, prefix, RowsFrom(pages, page + 1))
    ensures !HasNext(pages, page) ==> EntitiesFrom(t, prefix, RowsFrom(pages, page + 1)) == []
    ensures RowsFrom(pages, 1) == Flatten(pages)
  {
    hide PageAt, RowsFrom, HasNext;
    PageThenRest(pages, page);
    EntitiesAppend(t, prefix, PageAt(pages, page), RowsFrom(pages, page + 1));
  }

  function PartitionTail(remote: Remote, t: EntityType, partition: nat, page: nat): seq<Entity>
    requires partition < |PARTITIONS|
  {
    EntitiesFrom(t, PartitionPrefix(t, partition), RowsFrom(PartitionOf(remote, t, partition), page))
  }

  lemma FollowUnfolds(remote: Remote, t: EntityType, at: PageCursor)
    ensures var page := FetchPage(remote, t, at);
      FollowPages(remote, t, at) == if page.next.None? then page.entities else page.entities + FollowPages(remote, t, page.next.value)
  {
    hide FetchPage, PageRank;
  }

  lemma FetchPartition(remote: Remote, t: EntityType, at: PageCursor)
    requires t == CustomFields || t == Notes
    ensures FetchPage(remote, t, at) == FetchPartitioned(remote, t, at)
  {
    hide FetchPartitioned;
  }

  lemma {:induction false} FollowPartitions(remote: Remote, t: EntityType, at: PageCursor)
    requires t == CustomFields || t == Notes
    requires Or(at.partition, 0) < |PARTITIONS|
    ensures var partition := Or(at.partition, 0);
      FollowPages(remote, t, at)
      == PartitionTail(remote, t, partition, Or(at.page, 1)) + PartitionsFrom(remote, t, partition + 1)
    decreases PageRank(remote, t, at).0, PageRank(remote, t, at).1, PageRank(remote, t, at).2
  {
    hide EntitiesFrom, PageAt, RowsFrom, PartitionOf, PartitionPrefix, FollowPages, PageRank, HasNext, FetchPage, PartitionTail, PartitionsFrom;
    var partition, page := Or(at.partition, 0), Or(at.page, 1);
    TailPage(remote, t, partition, page);
    FollowUnfolds(remote, t, at);
    FetchPartition(remote, t, at);
    PartitionsUnfold(remote, t, partition + 1);
    if FetchPage(remote, t, at).next.Some? {
      PageRankDecreases(remote, t, at);
      FollowPartitions(remote, t, FetchPage(remote, t, at).next.value);
      if !HasNext(PartitionOf(remote, t, partition), page) {
        TailPage(remote, t, partition + 1, 1);
      }
    }
  }

  lemma TailPage(remote: Remote, t: EntityType, partition: nat, page: nat)
    requires partition < |PARTITIONS|
    ensures var pages := PartitionOf(remote, t, partition);
      && PartitionTail(remote, t, partition, page)
         == EntitiesFrom(t, PartitionPrefix(t, partition), PageAt(pages, page)) + PartitionTail(remote, t, partition, page + 1)
      && (!HasNext(pages, page) ==> PartitionTail(remote, t, partition, page + 1) == [])
      && PartitionTail(remote, t, partition, 1) == EntitiesFrom(t, PartitionPrefix(t, partition), Flatten(pages))
  {
    hide EntitiesFrom, PageAt, RowsFrom, PartitionOf, PartitionPrefix, HasNext;
    EntitiesPage(t, PartitionPrefix(t, partition), PartitionOf(remote, t, partition), page);
  }

  lemma PartitionsUnfold(remote: Remote, t: EntityType, partition: nat)
    ensures PartitionsFrom(remote, t, partition) ==
      if partition >= |PARTITIONS| then []
      else EntitiesFrom(t, PartitionPrefix(t, partition), Flatten(PartitionOf(remote, t, partition))) + PartitionsFrom(remote, t, partition + 1)
  {
    hide EntitiesFrom, PartitionOf, PartitionPrefix;
  }

  function StagesServed(remote: Remote, page: nat): seq<Entity> {
    Flattened(PageAt(remote.pipelines, page))
  }

  function StagesTail(remote: Remote, page: nat): seq<Entity> {
    Flattened(RowsFrom(remote.pipelines, page))
  }

  lemma StagesPage(remote: Remote, page: nat)
    ensures StagesTail(remote, page) == StagesServed(remote, page) + StagesTail(remote, page + 1)
    ensures !HasNext(remote.pipelines, page) ==> StagesTail(remote, page + 1) == []
    ensures StagesTail(remote, 1) == Flattened(Flatten(remote.pipelines))
  {
    hide PageAt, RowsFrom, HasNext;
    PageThenRest(remote.pipelines, page);
    FlattenedAppend(PageAt(remote.pipelines, page), RowsFrom(remote.pipelines, page + 1));
  }

  // What a page cursor has still to deliver: its page from the offset on, and
  // all later pages.
  function StagesLeft(remote: Remote, at: PageCursor): seq<Entity> {
    var here := StagesServed(remote, Or(at.page, 1));
    here[Min(Or(at.offset, 0), |here|)..] + StagesTail(remote, Or(at.page, 1) + 1)
  }

  lemma {:induction false} FollowStages(remote: Remote, at: PageCursor)
    ensures FollowPages(remote, Stages, at) == StagesLeft(remote, at)
    decreases PageRank(remote, Stages, at).0, PageRank(remote, Stages, at).1, PageRank(remote, Stages, at).2
  {
    hide FollowPages, PageRank, FetchPage, StagesLeft;
    FollowUnfolds(remote, Stages, at);
    StagesStep(remote, at);
    if FetchPage(remote, Stages, at).next.Some? {
      PageRankDecreases(remote, Stages, at);
      FollowStages(remote, FetchPage(remote, Stages, at).next.value);
    }
  }

  lemma StagesStep(remote: Remote, at: PageCursor)
    ensures var page := FetchPage(remote, Stages, at);
      StagesLeft(remote, at) == page.entities + if page.next.None? then [] else StagesLeft(remote, page.next.value)
  {
    hide StagesTail, StagesServed, FetchPage, Min, Flattened, Flatten, HasNext;
    var page, offset, here := Or(at.page, 1), Or(at.offset, 0), StagesServed(remote, Or(at.page, 1));
    FetchStagesPage(remote, at);
    if offset + PAGE_LIMIT < |here| {
      SliceThenRest(here, offset, StagesTail(remote, page + 1));
    } else {
      hide StagesLeft;
      LastOfPage(remote, at);
      if HasNext(remote.pipelines, page) {
        NextPageLeft(remote, page + 1);
      } else {
        StagesPage(remote, page);
      }
    }
  }

  lemma LastOfPage(remote: Remote, at: PageCursor)
    ensures var here := StagesServed(remote, Or(at.page, 1));
      Or(at.offset, 0) + PAGE_LIMIT >= |here| ==>
        StagesLeft(remote, at) == here[Min(Or(at.offset, 0), |here|)..Min(Or(at.offset, 0) + PAGE_LIMIT, |here|)]
                                  + StagesTail(remote, Or(at.page, 1) + 1)
  {
    hide StagesTail, StagesServed, Min;
    LastSlice(StagesServed(remote, Or(at.page, 1)), Or(at.offset, 0));
  }

  lemma NextPageLeft(remote: Remote, page: nat)
    ensures StagesLeft(remote, PageCursor(Some(page), Some(0), None)) == StagesTail(remote, page)
  {
    hide StagesTail, StagesServed, Min, Flattened, Flatten, HasNext;
    StagesPage(remote, page);
    FromTheStart(StagesServed(remote, page));
  }

  lemma SliceThenRest<T>(here: seq<T>, offset: nat, tail: seq<T>)
    requires offset + PAGE_LIMIT < |here|
    ensures here[Min(offset, |here|)..Min(offset + PAGE_LIMIT, |here|)] + (here[Min(offset + PAGE_LIMIT, |here|)..] + tail)
         == here[Min(offset, |here|)..] + tail
  {
    assert here[offset..] == here[offset..offset + PAGE_LIMIT] + here[offset + PAGE_LIMIT..];
  }

  lemma LastSlice<T>(here: seq<T>, offset: nat)
    ensures offset + PAGE_LIMIT >= |here| ==>
      here[Min(offset, |here|)..Min(offset + PAGE_LIMIT, |here|)] == here[Min(offset, |here|)..]
  {
  }

  lemma FromTheStart<T>(s: seq<T>)
    ensures s[Min(0, |s|)..] == s
  {
  }

  lemma FetchStagesPage(remote: Remote, at: PageCursor)
    ensures var page, offset, here := Or(at.page, 1), Or(at.offset, 0), StagesServed(remote, Or(at.page, 1));
      FetchPage(remote, Stages, at) == Page(
        here[Min(offset, |here|)..Min(offset + PAGE_LIMIT, |here|)],
        if offset + PAGE_LIMIT < |here| then Some(PageCursor(Some(page), Some(offset + PAGE_LIMIT), None))
        else if HasNext(remote.pipelines, page) then Some(PageCursor(Some(page + 1), Some(0), None))
        else None)
  {
    hide Flattened, PageAt, HasNext;
  }

  // One entity type, followed from its start, yields exactly its kept rows.
  lemma FollowEntity(remote: Remote, t: EntityType)
    ensures FollowPages(remote, t, START) == EntitiesOf(remote, t)
  {
    if t == Stages {
      FollowStagesWhole(remote);
    } else if t == CustomFields || t == Notes {
      FollowPartitionsWhole(remote, t);
    } else {
      FollowListWhole(remote, t);
    }
    hide FollowPages, Flattened, PartitionsFrom, EntitiesFrom;
  }

  lemma FollowStagesWhole(remote: Remote)
    ensures FollowPages(remote, Stages, START) == Flattened(Flatten(remote.pipelines))
  {
    hide FollowPages, FetchPage, PageRank, HasNext, PageAt, StagesServed, StagesTail, Flattened;
    FollowStages(remote, START);
    StagesPage(remote, 1);
    var here := StagesServed(remote, 1);
    assert here[0..] == here;
  }

  lemma FollowPartitionsWhole(remote: Remote, t: EntityType)
    requires t == CustomFields || t == Notes
    ensures FollowPages(remote, t, START) == PartitionsFrom(remote, t, 0)
  {
    hide FollowPages, FetchPage, PageRank, HasNext, PageAt, EntitiesFrom, PartitionOf, PartitionPrefix, PartitionTail, PartitionsFrom;
    FollowPartitions(remote, t, START);
    TailPage(remote, t, 0, 1);
    PartitionsUnfold(remote, t, 0);
  }

  lemma FollowListWhole(remote: Remote, t: EntityType)
    requires t != Stages && t != CustomFields && t != Notes
    ensures FollowPages(remote, t, START) == EntitiesFrom(t, "", Flatten(ListOf(remote, t)))
  {
    hide FollowPages, FetchPage, PageRank, HasNext, PageAt, RowsFrom, EntitiesFrom;
    FollowList(remote, t, START);
    PageThenRest(ListOf(remote, t), 1);
  }

  // Where an "all" import goes after an entity type.
  function AfterEntity(remote: Remote, scope: Scope, t: EntityType): seq<Entity> {
    if scope.All? && Index(t) + 1 < |SEQUENCE|
    then Follow(remote, scope, JobCursor(Some(SEQUENCE[Index(t) + 1]), START)) else []
  }

  lemma {:induction false} FollowSplits(remote: Remote, scope: Scope, cursor: JobCursor)
    ensures var t := Active(scope, cursor);
      Follow(remote, scope, cursor) == FollowPages(remote, t, cursor.at) + AfterEntity(remote, scope, t)
    decreases PageRank(remote, Active(scope, cursor), cursor.at).0,
              PageRank(remote, Active(scope, cursor), cursor.at).1,
              PageRank(remote, Active(scope, cursor), cursor.at).2
  {
    var t := Active(scope, cursor);
    var next := FetchPage(remote, t, cursor.at).next;
    if next.Some? {
      PageRankDecreases(remote, t, cursor.at);
      FollowSplits(remote, scope, JobCursor(if scope.All? then Some(t) else None, next.value));
    }
  }

  lemma {:induction false} FollowFromIndex(remote: Remote, i: nat)
    requires i < |SEQUENCE|
    ensures Follow(remote, All, JobCursor(Some(SEQUENCE[i]), START)) == EntitiesFromIndex(remote, i)
    decreases |SEQUENCE| - i
  {
    FollowSplits(remote, All, JobCursor(Some(SEQUENCE[i]), START));
    FollowEntity(remote, SEQUENCE[i]);
    IndexOfSequence(i);
    if i + 1 < |SEQUENCE| {
      FollowFromIndex(remote, i + 1);
    }
  }

  lemma IndexOfSequence(i: nat)
    requires i < |SEQUENCE|
    ensures Index(SEQUENCE[i]) == i
  {
    assert SEQUENCE[0] == Pipelines && SEQUENCE[1] == Stages && SEQUENCE[2] == Users;
    assert SEQUENCE[3] == CustomFields && SEQUENCE[4] == Companies && SEQUENCE[5] == Contacts;
    assert SEQUENCE[6] == Deals && SEQUENCE[7] == Tasks && SEQUENCE[8] == Notes;
  }

  // ----- main result -----

  // Following next_cursor from the first page terminates (Follow is a total
  // function) and yields exactly the kept rows of the account, each once, in
  // order: entity types in sequence order, partitions and pages in order.
  lemma FollowIsEverything(remote: Remote, scope: Scope)
    ensures Follow(remote, scope, FIRST) == Everything(remote, scope)
  {
    FollowSplits(remote, scope, FIRST);
    match scope
    case Only(t) => FollowEntity(remote, t);
    case All =>
      FollowSplits(remote, scope, JobCursor(Some(SEQUENCE[0]), START));
      FollowFromIndex(remote, 0);
  }
}
