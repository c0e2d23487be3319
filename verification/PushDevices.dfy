// The browsers an employee receives notifications on: registration, removal
// and the recording of delivery results (backend/app/integrations/web_push.py).
module PushDevices {
  import opened Prelude
  import opened Ranking

  const MAX_DEVICES: nat := 10

  type Id = nat

  datatype Owner = Owner(workspace: nat, user: nat)

  // An endpoint stands for its digest, keys for the encrypted subscription.
  datatype Row = Row(
    owner: Owner, endpoint: string, keys: string, expires: Option<int>, active: bool,
    disabledAt: Option<int>, lastSuccess: Option<int>, lastError: Option<string>, created: int, updated: int)

  type Table = map<Id, Row>

  datatype Error = AlreadyExpired | UnknownUser | IdTaken

  // What a browser sends.
  datatype Browser = Browser(endpoint: string, keys: string, expires: Option<int>)

  datatype Outcome = Outcome(id: Id, owner: Owner, succeeded: bool, retryable: bool, error: Option<string>)

  ghost predicate UniqueEndpoints(t: Table) {
    forall j, k :: j in t && k in t && t[j].endpoint == t[k].endpoint ==> j == k
  }

  function Owned(t: Table, owner: Owner): set<Id> {
    set k | k in t && t[k].owner == owner
  }

  // Active or not, nobody has more rows than the cap.
  ghost predicate Capped(t: Table) {
    forall owner :: |Owned(t, owner)| <= MAX_DEVICES
  }

  ghost predicate Valid(t: Table) {
    UniqueEndpoints(t) && Capped(t)
  }

  // ----- the order of the query -----

  // The stored row first, then the most recently updated, then the larger id.
  predicate Before(t: Table, stored: Id, x: Id, y: Id) {
    && x in t && y in t
    && if x == stored || y == stored then x == stored && y != stored
       else t[x].updated > t[y].updated || (t[x].updated == t[y].updated && x > y)
  }

  function Order(t: Table, stored: Id): (Id, Id) -> bool {
    (x: Id, y: Id) => Before(t, stored, x, y)
  }

  lemma OrderIsStrict(t: Table, stored: Id, ids: set<Id>)
    requires ids <= t.Keys
    ensures StrictOrder(ids, Order(t, stored))
  {
  }

  // ----- registration -----

  ghost predicate Holds(t: Table, k: Id, endpoint: string) {
    k in t && t[k].endpoint == endpoint
  }

  function NewRow(owner: Owner, b: Browser, now: int): Row {
    Row(owner, b.endpoint, b.keys, b.expires, true, None, None, None, now, now)
  }

  // The upsert: the row that is stored and its id.
  ghost function Upserted(t: Table, id: Id, owner: Owner, b: Browser, now: int): (Table, Id)
  {
    if exists k :: Holds(t, k, b.endpoint) then
      var k :| Holds(t, k, b.endpoint);
      (t[k := NewRow(owner, b, now).(created := t[k].created)], k)
    else (t[id := NewRow(owner, b, now)], id)
  }

  predicate Useless(row: Row, now: int) {
    !row.active || (row.expires.Some? && row.expires.value <= now)
  }

  function Pruned(t: Table, stored: Id, owner: Owner, now: int): Table {
    map k | k in t && !(t[k].owner == owner && k != stored && Useless(t[k], now)) :: t[k]
  }

  function Active(t: Table, owner: Owner): set<Id> {
    set k | k in t && t[k].owner == owner && t[k].active
  }

  function Stale(t: Table, stored: Id, owner: Owner): set<Id> {
    OrderIsStrict(t, stored, Active(t, owner));
    var order := Ranked(Active(t, owner), Order(t, stored));
    if |order| <= MAX_DEVICES then {} else Elements(order[MAX_DEVICES..])
  }

  function RegisterError(t: Table, endpointKnown: bool, id: Id, userExists: bool, b: Browser, now: int): Option<Error> {
    if b.expires.Some? && b.expires.value <= now then Some(AlreadyExpired)
    else if !userExists then Some(UnknownUser)
    else if !endpointKnown && id in t then Some(IdTaken)
    else None
  }

  ghost function Registered(t: Table, id: Id, owner: Owner, b: Browser, now: int): Table {
    var (upserted, stored) := Upserted(t, id, owner, b, now);
    var pruned := Pruned(upserted, stored, owner, now);
    pruned - Stale(pruned, stored, owner)
  }

  // ----- the other operations -----

  function Deleted(t: Table, owner: Owner, endpoint: string): Table {
    map k | k in t && !(t[k].owner == owner && t[k].endpoint == endpoint) :: t[k]
  }

  // A result only reaches the row when it still belongs to the same employee.
  function RecordedOne(t: Table, o: Outcome, now: int): Table {
    if o.id in t && t[o.id].owner == o.owner then
      var active := o.succeeded || o.retryable;
      t[o.id := t[o.id].(active := active, disabledAt := if active then None else Some(now), lastError := o.error,
                         updated := now, lastSuccess := if o.succeeded then Some(now) else t[o.id].lastSuccess)]
    else t
  }

  function Recorded(t: Table, outcomes: seq<Outcome>, now: int): Table {
    if outcomes == [] then t
    else RecordedOne(Recorded(t, outcomes[..|outcomes| - 1], now), outcomes[|outcomes| - 1], now)
  }

  // ----- the table -----

  class Subscriptions {
    var rows: Table

    constructor ()
      ensures rows == map[]
    {
      rows := map[];
    }

    // register_subscription
    method Register(id: Id, owner: Owner, b: Browser, userExists: bool, now: int) returns (stored: Id, error: Option<Error>)
      requires UniqueEndpoints(rows)
      modifies this
      ensures error == RegisterError(old(rows), exists k :: Holds(old(rows), k, b.endpoint), id, userExists, b, now)
      ensures error == Some(AlreadyExpired) <==> b.expires.Some? && b.expires.value <= now
      ensures error == Some(UnknownUser) <==> !userExists && (b.expires.Some? ==> b.expires.value > now)
      ensures error.Some? ==> rows == old(rows)
      ensures error.None? ==> rows == Registered(old(rows), id, owner, b, now) && stored == Upserted(old(rows), id, owner, b, now).1
    {
      stored := id;
      if b.expires.Some? && b.expires.value <= now {
        return stored, Some(AlreadyExpired);
      }
      if !userExists {
        return stored, Some(UnknownUser);
      }
      if exists k :: k in rows && rows[k].endpoint == b.endpoint {
        stored :| stored in rows && rows[stored].endpoint == b.endpoint;
        assert Holds(rows, stored, b.endpoint);
        rows := rows[stored := NewRow(owner, b, now).(created := rows[stored].created)];
      } else {
        if id in rows {
          return stored, Some(IdTaken);
        }
        rows := rows[id := NewRow(owner, b, now)];
      }
      assert (rows, stored) == Upserted(old(rows), id, owner, b, now);
      hide Upserted, Pruned, Ranked, Holds, NewRow, StrictOrder;
      rows := Pruned(rows, stored, owner, now);
      OrderIsStrict(rows, stored, Active(rows, owner));
      var order := Ranked(Active(rows, owner), Order(rows, stored));
      if |order| > MAX_DEVICES {
        rows := rows - Elements(order[MAX_DEVICES..]);
      } else {
        assert rows - {} == rows;
      }
      error := None;
    }

    // delete_subscription; whether a row was removed
    method Delete(owner: Owner, endpoint: string) returns (removed: bool)
      modifies this
      ensures rows == Deleted(old(rows), owner, endpoint)
      ensures forall k :: k in rows <==> k in old(rows) && !(old(rows)[k].owner == owner && old(rows)[k].endpoint == endpoint)
      ensures forall k :: k in rows ==> rows[k] == old(rows)[k]
      ensures removed <==> exists k :: k in old(rows) && old(rows)[k].owner == owner && old(rows)[k].endpoint == endpoint
    {
      removed := exists k :: k in rows && rows[k].owner == owner && rows[k].endpoint == endpoint;
      rows := map k | k in rows && !(rows[k].owner == owner && rows[k].endpoint == endpoint) :: rows[k];
    }

    // _record_subscription_results
    method Record(outcomes: seq<Outcome>, now: int)
      modifies this
      ensures rows == Recorded(old(rows), outcomes, now)
    {
      for i := 0 to |outcomes|
        invariant rows == Recorded(old(rows), outcomes[..i], now)
      {
        var o := outcomes[i];
        assert outcomes[..i + 1][..i] == outcomes[..i];
        var active := o.succeeded || o.retryable;
        if o.id in rows && rows[o.id].owner == o.owner {
          var row := rows[o.id].(active := active, disabledAt := if active then None else Some(now), lastError := o.error, updated := now);
          if o.succeeded {
            row := row.(lastSuccess := Some(now));
          }
          rows := rows[o.id := row];
        }
      }
      assert outcomes[..|outcomes|] == outcomes;
    }
  }

  // ----- what registration does -----

  lemma UpsertedFacts(t: Table, id: Id, owner: Owner, b: Browser, now: int)
    requires UniqueEndpoints(t)
    requires RegisterError(t, exists k :: Holds(t, k, b.endpoint), id, true, b, now).None?
    ensures var (after, stored) := Upserted(t, id, owner, b, now);
      && UniqueEndpoints(after) && stored in after && after.Keys == t.Keys + {stored}
      && (stored in t ==> t[stored].endpoint == b.endpoint)
      && after[stored] == NewRow(owner, b, now).(created := if stored in t then t[stored].created else now)
      && (forall k :: k in t && k != stored ==> after[k] == t[k])
  {
    if k :| Holds(t, k, b.endpoint) {
    } else {
      assert forall k :: k in t ==> !Holds(t, k, b.endpoint);
    }
  }

  lemma OwnActive(t: Table, stored: Id, owner: Owner, now: int)
    requires stored in t && t[stored].owner == owner && t[stored].active
    ensures var pruned := Pruned(t, stored, owner, now); Owned(pruned, owner) == Active(pruned, owner)
  {
  }

  // Cutting the ranked list keeps the stored row and the best of the others.
  lemma StaleFacts(t: Table, stored: Id, owner: Owner)
    requires stored in Active(t, owner)
    ensures var stale := Stale(t, stored, owner); var kept := Active(t, owner) - stale;
      && stale <= Active(t, owner) && stored in kept && |kept| <= MAX_DEVICES
      && (stale != {} ==> |kept| == MAX_DEVICES)
      && forall x, y :: x in kept && y in stale ==> x in t && y in t && Before(t, stored, x, y)
  {
    var ids := Active(t, owner);
    OrderIsStrict(t, stored, ids);
    var order := Ranked(ids, Order(t, stored));
    if |ids| > MAX_DEVICES {
      DropAfter(ids, Order(t, stored), MAX_DEVICES);
    } else {
      RankedSorts(ids, Order(t, stored));
      assert ids - {} == ids;
    }
    hide Ranked, StrictOrder, Active, Sorted;
    assert forall x :: !Order(t, stored)(x, stored);
  }

  // The row of a browser that was just registered.
  predicate StoredAs(row: Row, owner: Owner, b: Browser, now: int) {
    && row.owner == owner && row.endpoint == b.endpoint && row.keys == b.keys && row.expires == b.expires
    && row.active && row.disabledAt == None && row.lastSuccess == None && row.lastError == None && row.updated == now
  }

  predicate Expired(row: Row, now: int) {
    row.expires.Some? && row.expires.value <= now
  }

  // A registration stores its row, leaves every row of other owners alone
  // (save the one it took over), changes no row it keeps, and drops an own row
  // only when that row is useless or ten better ones are kept.
  lemma RegisterKeepsNewest(t: Table, id: Id, owner: Owner, b: Browser, now: int)
    requires UniqueEndpoints(t)
    requires RegisterError(t, exists k :: Holds(t, k, b.endpoint), id, true, b, now).None?
    ensures var stored := Upserted(t, id, owner, b, now).1; var after := Registered(t, id, owner, b, now);
      && stored in after && (stored in t ==> t[stored].endpoint == b.endpoint)
      && StoredAs(after[stored], owner, b, now) && after[stored].created == (if stored in t then t[stored].created else now)
      && UniqueEndpoints(after) && after.Keys <= t.Keys + {stored}
      && (forall k :: k in after && k != stored ==> k in t && after[k] == t[k])
      && (forall k :: k in after && k != stored && after[k].owner == owner ==> after[k].active && !Expired(after[k], now))
      && (forall k :: k in t && k != stored && k !in after ==> DroppedRightly(t, after, stored, owner, now, k))
      && |Owned(after, owner)| <= MAX_DEVICES
  {
    UpsertedFacts(t, id, owner, b, now);
    var (upserted, stored) := Upserted(t, id, owner, b, now);
    assert upserted[stored].owner == owner && upserted[stored].active;
    hide Upserted, Holds, RegisterError, Stale, Before, NewRow;
    var pruned := Pruned(upserted, stored, owner, now);
    CutFacts(upserted, stored, owner, now);
    var after := Registered(t, id, owner, b, now);
    assert after == pruned - Stale(pruned, stored, owner);
    hide Registered, Pruned;
    forall k | k in t && k != stored && k !in after ensures DroppedRightly(t, after, stored, owner, now, k) {
      assert DroppedRightly(upserted, after, stored, owner, now, k);
      SameDrop(t, upserted, after, stored, owner, now, k);
    }
  }

  // Row k went because it is an own row that is useless or worse than ten others.
  ghost predicate DroppedRightly(t: Table, after: Table, stored: Id, owner: Owner, now: int, k: Id)
    requires k in t
  {
    && t[k].owner == owner
    && (!t[k].active || Expired(t[k], now) || (|Owned(after, owner)| == 10 && AllBetter(t, after, stored, owner, k)))
  }

  ghost predicate AllBetter(t: Table, after: Table, stored: Id, owner: Owner, k: Id)
    requires k in t
  {
    forall x :: x in Owned(after, owner) && x != stored ==>
      x in t && (t[x].updated > t[k].updated || (t[x].updated == t[k].updated && x > k))
  }

  lemma SameDrop(t: Table, upserted: Table, after: Table, stored: Id, owner: Owner, now: int, k: Id)
    requires k in t && k in upserted && k != stored && upserted.Keys == t.Keys + {stored}
    requires forall x :: x in t && x != stored ==> upserted[x] == t[x]
    requires DroppedRightly(upserted, after, stored, owner, now, k)
    ensures DroppedRightly(t, after, stored, owner, now, k)
  {
    hide Owned, Expired;
    if t[k].active && !Expired(t[k], now) {
      assert AllBetter(upserted, after, stored, owner, k);
    }
  }

  lemma SameRank(t: Table, u: Table, stored: Id, x: Id, y: Id)
    requires x in t && y in t && x in u && y in u && t[x] == u[x] && t[y] == u[y]
    ensures Before(t, stored, x, y) == Before(u, stored, x, y)
  {
  }

  // The two deletions of a registration.
  lemma CutFacts(t: Table, stored: Id, owner: Owner, now: int)
    requires stored in t && t[stored].owner == owner && t[stored].active
    ensures var pruned := Pruned(t, stored, owner, now); var after := pruned - Stale(pruned, stored, owner);
      && stored in after && |Owned(after, owner)| <= MAX_DEVICES
      && (forall k :: k in after ==> k in t && after[k] == t[k])
      && (forall k :: k in t && k !in after ==> DroppedRightly(t, after, stored, owner, now, k))
  {
    hide Stale, Before;
    var pruned := Pruned(t, stored, owner, now);
    OwnActive(t, stored, owner, now);
    StaleFacts(pruned, stored, owner);
    var stale := Stale(pruned, stored, owner);
    var after := pruned - stale;
    assert Owned(after, owner) == Active(pruned, owner) - stale;
    forall k | k in t && k !in after ensures DroppedRightly(t, after, stored, owner, now, k) {
      if k in pruned {
        assert k in stale && k in Active(pruned, owner);
        WorseThanKept(t, pruned, after, stored, owner, k);
      }
    }
  }

  lemma WorseThanKept(t: Table, pruned: Table, after: Table, stored: Id, owner: Owner, k: Id)
    requires k in pruned && (forall x :: x in pruned ==> x in t && pruned[x] == t[x]) && (forall x :: x in after ==> x in pruned)
    requires forall x :: x in Owned(after, owner) ==> Before(pruned, stored, x, k)
    ensures AllBetter(t, after, stored, owner, k)
  {
    hide Before;
    forall x | x in Owned(after, owner) ensures x in t && Before(t, stored, x, k) {
      SameRank(pruned, t, stored, x, k);
    }
    forall x | x in Owned(after, owner) && x != stored
      ensures t[x].updated > t[k].updated || (t[x].updated == t[k].updated && x > k)
    {
      NewerThan(t, stored, x, k);
    }
  }

  lemma NewerThan(t: Table, stored: Id, x: Id, k: Id)
    requires Before(t, stored, x, k) && x != stored
    ensures x in t && k in t && (t[x].updated > t[k].updated || (t[x].updated == t[k].updated && x > k))
  {
  }

  // ----- the invariant over every run -----

  datatype Op =
    | Register(id: Id, owner: Owner, browser: Browser, userExists: bool, now: int)
    | Delete(owner: Owner, endpoint: string)
    | Record(outcomes: seq<Outcome>, now: int)

  ghost function Step(t: Table, op: Op): Table {
    match op
    case Register(id, owner, b, userExists, now) =>
      if RegisterError(t, exists k :: Holds(t, k, b.endpoint), id, userExists, b, now).Some? then t
      else Registered(t, id, owner, b, now)
    case Delete(owner, endpoint) => Deleted(t, owner, endpoint)
    case Record(outcomes, now) => Recorded(t, outcomes, now)
  }

  ghost function Run(ops: seq<Op>): Table {
    if ops == [] then map[] else Step(Run(ops[..|ops| - 1]), ops[|ops| - 1])
  }

  lemma {:induction false} RecordedOwners(t: Table, outcomes: seq<Outcome>, now: int)
    ensures var after := Recorded(t, outcomes, now);
      after.Keys == t.Keys && forall k :: k in t ==> after[k].owner == t[k].owner && after[k].endpoint == t[k].endpoint
  {
    if outcomes != [] {
      RecordedOwners(t, outcomes[..|outcomes| - 1], now);
    }
  }

  // The outcome concerns the row and still its owner.
  predicate Concerns(t: Table, o: Outcome, k: Id) {
    k in t && o.id == k && t[k].owner == o.owner
  }

  // After recording, a row is as its last outcome says: active if the delivery
  // succeeded or may be retried, otherwise disabled now. Other rows are as before.
  lemma {:induction false} RecordedByLastOutcome(t: Table, outcomes: seq<Outcome>, now: int, k: Id)
    requires k in t
    ensures var after := Recorded(t, outcomes, now);
      && k in after && SameSubscription(after[k], t[k])
      && ((forall i :: 0 <= i < |outcomes| ==> !Concerns(t, outcomes[i], k)) ==> after[k] == t[k])
      && forall i: nat :: LastFor(t, outcomes, k, i) ==> Reports(after[k], outcomes[i], now)
  {
    if outcomes != [] {
      var front, o := outcomes[..|outcomes| - 1], outcomes[|outcomes| - 1];
      RecordedByLastOutcome(t, front, now, k);
      var before := Recorded(t, front, now);
      assert Concerns(t, o, k) <==> o.id in before && o.id == k && before[k].owner == o.owner;
      forall i: nat | LastFor(t, outcomes, k, i) ensures Reports(Recorded(t, outcomes, now)[k], outcomes[i], now) {
        if i < |front| {
          assert !Concerns(t, outcomes[|front|], k);
          assert LastFor(t, front, k, i);
        }
      }
    }
  }

  // The last success is now if any outcome that concerns the row succeeded.
  lemma {:induction false} RecordedSuccess(t: Table, outcomes: seq<Outcome>, now: int, k: Id)
    requires k in t
    ensures var after := Recorded(t, outcomes, now);
      && k in after && after[k].owner == t[k].owner
      && after[k].lastSuccess == if SomeSuccess(t, outcomes, k) then Some(now) else t[k].lastSuccess
  {
    if outcomes != [] {
      var front, o := outcomes[..|outcomes| - 1], outcomes[|outcomes| - 1];
      RecordedSuccess(t, front, now, k);
      assert outcomes[|front|] == o && forall i :: 0 <= i < |front| ==> outcomes[i] == front[i];
      assert SomeSuccess(t, outcomes, k) <==> SomeSuccess(t, front, k) || (Concerns(t, o, k) && o.succeeded);
    }
  }

  ghost predicate SomeSuccess(t: Table, outcomes: seq<Outcome>, k: Id) {
    exists i :: 0 <= i < |outcomes| && Concerns(t, outcomes[i], k) && outcomes[i].succeeded
  }

  ghost predicate LastFor(t: Table, outcomes: seq<Outcome>, k: Id, i: nat) {
    i < |outcomes| && Concerns(t, outcomes[i], k) && forall j :: i < j < |outcomes| ==> !Concerns(t, outcomes[j], k)
  }

  ghost predicate Reports(after: Row, o: Outcome, now: int) {
    && (after.active <==> o.succeeded || o.retryable) && (after.disabledAt == if after.active then None else Some(now))
    && after.lastError == o.error && after.updated == now && (o.succeeded ==> after.lastSuccess == Some(now))
  }

  ghost predicate SameSubscription(a: Row, b: Row) {
    a.owner == b.owner && a.endpoint == b.endpoint && a.keys == b.keys && a.expires == b.expires && a.created == b.created
  }

  lemma StepKeepsValid(t: Table, op: Op)
    requires Valid(t)
    ensures Valid(Step(t, op))
  {
    hide Registered, Recorded, RegisterError, Holds;
    var after := Step(t, op);
    match op {
      case Register(id, owner, b, userExists, now) =>
        if after != t {
          RegisterAllowed(t, id, owner, b, userExists, now);
          RegisterKeepsNewest(t, id, owner, b, now);
          forall other ensures |Owned(after, other)| <= MAX_DEVICES {
            if other != owner {
              SubsetSize(Owned(after, other), Owned(t, other));
            }
          }
        }
      case Delete(owner, endpoint) =>
        forall other ensures |Owned(after, other)| <= MAX_DEVICES {
          SubsetSize(Owned(after, other), Owned(t, other));
        }
      case Record(outcomes, now) =>
        RecordedOwners(t, outcomes, now);
        forall other ensures |Owned(after, other)| <= MAX_DEVICES {
          assert Owned(after, other) == Owned(t, other);
        }
    }
  }

  lemma RegisterAllowed(t: Table, id: Id, owner: Owner, b: Browser, userExists: bool, now: int)
    requires Step(t, Op.Register(id, owner, b, userExists, now)) != t
    ensures RegisterError(t, exists k :: Holds(t, k, b.endpoint), id, true, b, now).None?
    ensures Step(t, Op.Register(id, owner, b, userExists, now)) == Registered(t, id, owner, b, now)
  {
    hide Registered, Holds;
  }

  // Over every run of registrations, removals and results - an endpoint may
  // change hands and a late result may revive a row - nobody has more than ten.
  lemma {:induction false} DeviceCap(ops: seq<Op>)
    ensures Valid(Run(ops)) && forall owner :: |Owned(Run(ops), owner)| <= 10
  {
    if ops == [] {
      forall owner ensures Owned(Run(ops), owner) == {} {
      }
    } else {
      DeviceCap(ops[..|ops| - 1]);
      StepKeepsValid(Run(ops[..|ops| - 1]), ops[|ops| - 1]);
    }
  }
}
