// Which realtime events an employee may see: the batched authorization
// (backend/app/api/events.py) against a rule for one event.
module EventVisibility {
  import opened Prelude

  type Id = nat

  // Values as text; absent and null are the same. A payload that is not an
  // object counts as empty.
  datatype Event = Event(id: int, eventType: string, payload: map<string, string>)

  datatype Context = Context(workspace: Id, user: Id, userText: string, employee: bool)

  datatype Deal = Deal(workspace: Id, assignee: Option<Id>, company: Option<Id>, deleted: bool)
  datatype Contact = Contact(workspace: Id, assignee: Option<Id>, company: Option<Id>, deleted: bool)
  datatype Task = Task(workspace: Id, assignee: Id)
  datatype Company = Company(workspace: Id, deleted: bool)
  datatype Message = Message(workspace: Id, conversation: Id)
  datatype Conversation = Conversation(deal: Option<Id>)
  datatype Delivery = Delivery(workspace: Id, recipient: Option<Id>, targetType: Option<string>, targetId: Option<Id>)

  datatype Db = Db(
    deals: map<Id, Deal>, contacts: map<Id, Contact>, tasks: map<Id, Task>, companies: map<Id, Company>,
    messages: map<Id, Message>, conversations: map<Id, Conversation>, deliveries: map<Id, Delivery>)

  // uuid.UUID(str(value))
  type IdReader = string -> Option<Id>

  const ENTITY_TYPES: set<string> := {"deal", "contact", "task", "company", "message"}

  function Get(e: Event, key: string): Option<string> {
    if key in e.payload then Some(e.payload[key]) else None
  }

  function ReadId(read: IdReader, text: Option<string>): Option<Id> {
    if text.None? then None else read(text.value)
  }

  // ----- access to rows (backend/app/services/access.py) -----

  predicate Assigned(c: Context, assignee: Option<Id>) {
    !c.employee || assignee == Some(c.user)
  }

  predicate ThroughDeal(db: Db, c: Context, company: Id) {
    exists d :: d in db.deals && db.deals[d].workspace == c.workspace && db.deals[d].company == Some(company)
      && !db.deals[d].deleted && db.deals[d].assignee == Some(c.user)
  }

  predicate ThroughContact(db: Db, c: Context, company: Id) {
    exists k :: k in db.contacts && db.contacts[k].workspace == c.workspace && db.contacts[k].company == Some(company)
      && !db.contacts[k].deleted && Assigned(c, db.contacts[k].assignee)
  }

  predicate DealRow(db: Db, c: Context, d: Id) {
    d in db.deals && db.deals[d].workspace == c.workspace && Assigned(c, db.deals[d].assignee) && !db.deals[d].deleted
  }

  // ----- the grouped queries -----

  // _employee_visible_entity_ids
  function VisibleIds(db: Db, c: Context, entityType: string, ids: set<Id>): set<Id> {
    if ids == {} then {}
    else if entityType == "message" then
      set m | m in ids && m in db.messages && db.messages[m].workspace == c.workspace
        && db.messages[m].conversation in db.conversations
        && db.conversations[db.messages[m].conversation].deal.Some?
        && DealRow(db, c, db.conversations[db.messages[m].conversation].deal.value)
    else if entityType == "deal" then set d | d in ids && DealRow(db, c, d)
    else if entityType == "contact" then
      set k | k in ids && k in db.contacts && db.contacts[k].workspace == c.workspace
        && Assigned(c, db.contacts[k].assignee) && !db.contacts[k].deleted
    else if entityType == "task" then
      set t | t in ids && t in db.tasks && db.tasks[t].workspace == c.workspace && Assigned(c, Some(db.tasks[t].assignee))
    else if entityType == "company" then
      set k | k in ids && k in db.companies && db.companies[k].workspace == c.workspace
        && (!c.employee || ThroughDeal(db, c, k) || ThroughContact(db, c, k)) && !db.companies[k].deleted
    else {}
  }

  // ----- the rule for one event -----

  // May the user see this one entity? Only what is in the workspace and not
  // deleted; an employee only what is assigned to them, or a company through a
  // deal or contact of theirs, or a message through the deal of its conversation.
  predicate CanSee(db: Db, c: Context, entityType: string, id: Id) {
    match entityType
    case "deal" => SeesDeal(db, c, id)
    case "contact" =>
      && id in db.contacts && db.contacts[id].workspace == c.workspace && !db.contacts[id].deleted
      && (c.employee ==> db.contacts[id].assignee == Some(c.user))
    case "task" =>
      && id in db.tasks && db.tasks[id].workspace == c.workspace
      && (c.employee ==> db.tasks[id].assignee == c.user)
    case "company" =>
      && id in db.companies && db.companies[id].workspace == c.workspace && !db.companies[id].deleted
      && (c.employee ==>
            || (exists d :: d in db.deals && db.deals[d] == Deal(c.workspace, Some(c.user), Some(id), false))
            || (exists k :: k in db.contacts && db.contacts[k] == Contact(c.workspace, Some(c.user), Some(id), false)))
    case "message" =>
      && id in db.messages && db.messages[id].workspace == c.workspace && db.messages[id].conversation in db.conversations
      && db.conversations[db.messages[id].conversation].deal.Some?
      && SeesDeal(db, c, db.conversations[db.messages[id].conversation].deal.value)
    case _ => false
  }

  predicate SeesDeal(db: Db, c: Context, id: Id) {
    && id in db.deals && db.deals[id].workspace == c.workspace && !db.deals[id].deleted
    && (c.employee ==> db.deals[id].assignee == Some(c.user))
  }

  predicate ForUser(c: Context, e: Event) {
    Get(e, "recipient_id") == Some(c.userText)
  }

  // The user's own notification about a deal or task that the user can see.
  predicate NotificationVisible(db: Db, c: Context, id: Id) {
    && id in db.deliveries && db.deliveries[id].workspace == c.workspace && db.deliveries[id].recipient == Some(c.user)
    && db.deliveries[id].targetId.Some?
    && (db.deliveries[id].targetType == Some("deal") || db.deliveries[id].targetType == Some("task"))
    && CanSee(db, c, db.deliveries[id].targetType.value, db.deliveries[id].targetId.value)
  }

  predicate Allowed(db: Db, c: Context, read: IdReader, e: Event) {
    if e.eventType == "access.changed" then ForUser(c, e)
    else if e.eventType == "notification.delivered" then
      ForUser(c, e) && ReadId(read, Get(e, "delivery_id")).Some? && NotificationVisible(db, c, ReadId(read, Get(e, "delivery_id")).value)
    else
      && Get(e, "entity_type").Some? && ReadId(read, Get(e, "entity_id")).Some?
      && CanSee(db, c, Get(e, "entity_type").value, ReadId(read, Get(e, "entity_id")).value)
  }

  lemma GroupedQuery(db: Db, c: Context, entityType: string, ids: set<Id>, id: Id)
    ensures id in VisibleIds(db, c, entityType, ids) <==> id in ids && CanSee(db, c, entityType, id)
  {
    if c.employee {
      CompanyAccess(db, c, id);
    }
    hide ThroughDeal, ThroughContact;
  }

  lemma CompanyAccess(db: Db, c: Context, company: Id)
    requires c.employee
    ensures ThroughDeal(db, c, company) <==> exists d :: d in db.deals && db.deals[d] == Deal(c.workspace, Some(c.user), Some(company), false)
    ensures ThroughContact(db, c, company) <==> exists k :: k in db.contacts && db.contacts[k] == Contact(c.workspace, Some(c.user), Some(company), false)
  {
  }

  // The three kinds of events: a change of access and a notification only reach
  // the user they name, the notification only with a deal or task that the user
  // can see and only if it was sent to the user in this workspace; any other
  // event needs an entity that the user can see.
  lemma AllowedIs(db: Db, c: Context, read: IdReader, e: Event)
    ensures Allowed(db, c, read, e) <==>
      var mine := "recipient_id" in e.payload && e.payload["recipient_id"] == c.userText;
      if e.eventType == "access.changed" then mine
      else if e.eventType == "notification.delivered" then
        mine && exists d: Id, t: Id ::
          && "delivery_id" in e.payload && read(e.payload["delivery_id"]) == Some(d) && d in db.deliveries
          && ((db.deliveries[d] == Delivery(c.workspace, Some(c.user), Some("deal"), Some(t)) && CanSee(db, c, "deal", t))
              || (db.deliveries[d] == Delivery(c.workspace, Some(c.user), Some("task"), Some(t)) && CanSee(db, c, "task", t)))
      else
        "entity_type" in e.payload && "entity_id" in e.payload
        && exists id: Id :: read(e.payload["entity_id"]) == Some(id) && CanSee(db, c, e.payload["entity_type"], id)
  {
    hide CanSee;
    if e.eventType == "notification.delivered" && Allowed(db, c, read, e) {
      var d := ReadId(read, Get(e, "delivery_id")).value;
      var t := db.deliveries[d].targetId.value;
      assert db.deliveries[d] == Delivery(c.workspace, Some(c.user), db.deliveries[d].targetType, Some(t));
    }
  }

  // ----- sorting events into groups -----

  datatype Group = Nothing | Own | OfEntity(entityType: string, entity: Id) | OfDelivery(delivery: Id)

  function GroupOf(c: Context, read: IdReader, e: Event): Group {
    if e.eventType == "access.changed" then if ForUser(c, e) then Own else Nothing
    else if e.eventType == "notification.delivered" then
      if !ForUser(c, e) || ReadId(read, Get(e, "delivery_id")).None? then Nothing
      else OfDelivery(ReadId(read, Get(e, "delivery_id")).value)
    else if Get(e, "entity_type").None? || Get(e, "entity_type").value !in ENTITY_TYPES || ReadId(read, Get(e, "entity_id")).None? then Nothing
    else OfEntity(Get(e, "entity_type").value, ReadId(read, Get(e, "entity_id")).value)
  }

  lemma AllowedByGroup(db: Db, c: Context, read: IdReader, e: Event)
    ensures Allowed(db, c, read, e) <==>
      match GroupOf(c, read, e)
      case Nothing => false
      case Own => true
      case OfEntity(t, id) => CanSee(db, c, t, id)
      case OfDelivery(id) => NotificationVisible(db, c, id)
  {
  }

  ghost predicate DistinctEvents(events: seq<Event>) {
    forall i, j :: 0 <= i < j < |events| ==> events[i].id != events[j].id
  }

  type Pairs = seq<(int, Id)>

  // What the first loop has collected from a prefix of the events.
  ghost predicate Collected(c: Context, read: IdReader, events: seq<Event>, own: set<int>, entities: map<string, Pairs>, deliveries: map<int, Id>) {
    && (forall e :: e in events ==> (e.id in own <==> GroupOf(c, read, e) == Own))
    && (forall e, t, id: Id :: e in events && GroupOf(c, read, e) == OfEntity(t, id) ==> t in entities && (e.id, id) in entities[t])
    && (forall e, id: Id :: e in events && GroupOf(c, read, e) == OfDelivery(id) ==> e.id in deliveries && deliveries[e.id] == id)
    && (forall x :: x in own ==> HasEvent(c, read, events, x, Own))
    && (forall t, p :: t in entities && p in entities[t] ==> HasEvent(c, read, events, p.0, OfEntity(t, p.1)))
    && (forall x :: x in deliveries ==> HasEvent(c, read, events, x, OfDelivery(deliveries[x])))
  }

  ghost predicate HasEvent(c: Context, read: IdReader, events: seq<Event>, x: int, g: Group) {
    exists e :: e in events && e.id == x && GroupOf(c, read, e) == g
  }

  // ----- the batch -----

  // _employee_visible_event_ids
  method VisibleEventIds(db: Db, events: seq<Event>, c: Context, read: IdReader) returns (visible: set<int>)
    requires DistinctEvents(events)
    ensures forall e :: e in events ==> (e.id in visible <==> Allowed(db, c, read, e))
    ensures forall x :: x in visible ==> exists e :: e in events && e.id == x
  {
    var own, entities, deliveries := Collect(events, c, read);
    var entityIds := AuthorizeEntities(db, c, entities);
    var deliveryIds := AuthorizeDeliveries(db, c, deliveries);
    visible := own + entityIds + deliveryIds;
    forall e | e in events ensures e.id in visible <==> Allowed(db, c, read, e) {
      AllowedByGroup(db, c, read, e);
      OnlyItsGroup(c, read, events, e, own, entities, deliveries);
    }
    hide GroupOf, Allowed, CanSee;
    forall x | x in visible ensures exists e :: e in events && e.id == x {
      if x in entityIds {
        var t, p: (int, Id) :| t in entities && p in entities[t] && p.0 == x && CanSee(db, c, t, p.1);
        assert HasEvent(c, read, events, p.0, OfEntity(t, p.1));
      }
    }
  }

  // An event's id occurs in no other group than its own.
  lemma OnlyItsGroup(c: Context, read: IdReader, events: seq<Event>, e: Event, own: set<int>, entities: map<string, Pairs>, deliveries: map<int, Id>)
    requires DistinctEvents(events) && e in events && Collected(c, read, events, own, entities, deliveries)
    ensures e.id in own <==> GroupOf(c, read, e) == Own
    ensures forall t, id: Id :: t in entities && (e.id, id) in entities[t] <==> GroupOf(c, read, e) == OfEntity(t, id)
    ensures forall id: Id :: e.id in deliveries && deliveries[e.id] == id <==> GroupOf(c, read, e) == OfDelivery(id)
  {
    hide GroupOf;
    forall g | HasEvent(c, read, events, e.id, g) ensures GroupOf(c, read, e) == g {
      var f :| f in events && f.id == e.id && GroupOf(c, read, f) == g;
      SameEvent(events, e, f);
    }
    forall t, id: Id ensures t in entities && (e.id, id) in entities[t] <==> GroupOf(c, read, e) == OfEntity(t, id) {
      if t in entities && (e.id, id) in entities[t] {
        assert HasEvent(c, read, events, (e.id, id).0, OfEntity(t, (e.id, id).1));
      }
    }
  }

  lemma SameEvent(events: seq<Event>, e: Event, f: Event)
    requires DistinctEvents(events) && e in events && f in events && e.id == f.id
    ensures e == f
  {
    var i :| 0 <= i < |events| && events[i] == e;
    var j :| 0 <= j < |events| && events[j] == f;
  }

  method Collect(events: seq<Event>, c: Context, read: IdReader)
    returns (own: set<int>, entities: map<string, Pairs>, deliveries: map<int, Id>)
    requires DistinctEvents(events)
    ensures Collected(c, read, events, own, entities, deliveries)
  {
    own, entities, deliveries := {}, map[], map[];
    for i := 0 to |events|
      invariant Collected(c, read, events[..i], own, entities, deliveries)
    {
      var e := events[i];
      ghost var own', entities', deliveries' := own, entities, deliveries;
      if e.eventType == "access.changed" {
        if Get(e, "recipient_id") == Some(c.userText) {
          own := own + {e.id};
        }
      } else if e.eventType == "notification.delivered" {
        if Get(e, "recipient_id") == Some(c.userText) {
          var id := ReadId(read, Get(e, "delivery_id"));
          if id.Some? {
            deliveries := deliveries[e.id := id.value];
          }
        }
      } else {
        var t := if Get(e, "entity_type").Some? then Get(e, "entity_type").value else "";
        if t in ENTITY_TYPES {
          var id := ReadId(read, Get(e, "entity_id"));
          if id.Some? {
            entities := entities[t := (if t in entities then entities[t] else []) + [(e.id, id.value)]];
          }
        }
      }
      assert events[..i + 1] == events[..i] + [e];
      assert Added(c, read, e, own', own, entities', entities, deliveries', deliveries);
      hide GroupOf, Added;
      CollectedStep(c, read, events[..i], e, own', own, entities', entities, deliveries', deliveries);
    }
    assert events[..|events|] == events;
  }

  // How one event changes what is collected.
  ghost predicate Added(c: Context, read: IdReader, e: Event, own: set<int>, own': set<int>, entities: map<string, Pairs>, entities': map<string, Pairs>,
                        deliveries: map<int, Id>, deliveries': map<int, Id>) {
    match GroupOf(c, read, e)
    case Nothing => own' == own && entities' == entities && deliveries' == deliveries
    case Own => own' == own + {e.id} && entities' == entities && deliveries' == deliveries
    case OfEntity(t, id) =>
      && own' == own && deliveries' == deliveries
      && entities' == entities[t := (if t in entities then entities[t] else []) + [(e.id, id)]]
    case OfDelivery(id) => own' == own && entities' == entities && deliveries' == deliveries[e.id := id]
  }

  lemma CollectedStep(c: Context, read: IdReader, front: seq<Event>, e: Event, own: set<int>, own': set<int>,
                      entities: map<string, Pairs>, entities': map<string, Pairs>, deliveries: map<int, Id>, deliveries': map<int, Id>)
    requires Collected(c, read, front, own, entities, deliveries)
    requires Added(c, read, e, own, own', entities, entities', deliveries, deliveries')
    requires DistinctEvents(front + [e])
    ensures Collected(c, read, front + [e], own', entities', deliveries')
  {
    hide GroupOf, HasEvent;
    NewEventId(front, e);
    StillHas(c, read, front, e);
    NewIdUnused(c, read, front, e, own, deliveries);
  }

  lemma StillHas(c: Context, read: IdReader, front: seq<Event>, e: Event)
    ensures forall x, g :: HasEvent(c, read, front, x, g) ==> HasEvent(c, read, front + [e], x, g)
    ensures HasEvent(c, read, front + [e], e.id, GroupOf(c, read, e))
    ensures forall f :: f in front + [e] <==> f in front || f == e
  {
    hide GroupOf;
    var events := front + [e];
    forall x, g | HasEvent(c, read, front, x, g) ensures HasEvent(c, read, events, x, g) {
      var f :| f in front && f.id == x && GroupOf(c, read, f) == g;
      assert f in events;
    }
    assert e in events;
  }

  lemma NewIdUnused(c: Context, read: IdReader, front: seq<Event>, e: Event, own: set<int>, deliveries: map<int, Id>)
    requires forall f :: f in front ==> f.id != e.id
    requires forall x :: x in own ==> HasEvent(c, read, front, x, Own)
    requires forall x :: x in deliveries ==> HasEvent(c, read, front, x, OfDelivery(deliveries[x]))
    ensures e.id !in own && e.id !in deliveries
  {
    hide GroupOf;
  }

  lemma NewEventId(front: seq<Event>, e: Event)
    requires DistinctEvents(front + [e])
    ensures forall f :: f in front ==> f.id != e.id
  {
    forall f | f in front ensures f.id != e.id {
      var i :| 0 <= i < |front| && front[i] == f;
      assert (front + [e])[i] == f && (front + [e])[|front|] == e;
    }
  }

  // One query for each entity type.
  method AuthorizeEntities(db: Db, c: Context, entities: map<string, Pairs>) returns (visible: set<int>)
    ensures forall x :: x in visible <==> exists t, p :: t in entities && p in entities[t] && p.0 == x && CanSee(db, c, t, p.1)
  {
    hide CanSee;
    visible := {};
    var types := entities.Keys;
    ghost var done: set<string> := {};
    while types != {}
      invariant done + types == entities.Keys && done !! types
      invariant forall x :: x in visible <==> exists t, p :: t in done && p in entities[t] && p.0 == x && CanSee(db, c, t, p.1)
      decreases |types|
    {
      var t :| t in types;
      var seen := AuthorizePairs(db, c, t, entities[t]);
      visible := visible + seen;
      types, done := types - {t}, done + {t};
    }
  }

  method AuthorizePairs(db: Db, c: Context, t: string, pairs: Pairs) returns (visible: set<int>)
    ensures forall x :: x in visible <==> exists p :: p in pairs && p.0 == x && CanSee(db, c, t, p.1)
  {
    hide VisibleIds, CanSee;
    var ids := set p | p in pairs :: p.1;
    var seen := VisibleIds(db, c, t, ids);
    forall p | p in pairs ensures p.1 in seen <==> CanSee(db, c, t, p.1) {
      GroupedQuery(db, c, t, ids, p.1);
    }
    visible := set p | p in pairs && p.1 in seen :: p.0;
  }

  // The deliveries in one query, their targets in one query for each type.
  method AuthorizeDeliveries(db: Db, c: Context, events: map<int, Id>) returns (visible: set<int>)
    ensures forall x :: x in visible <==> x in events && NotificationVisible(db, c, events[x])
  {
    hide CanSee, VisibleIds;
    var mine := map d | d in db.deliveries && d in events.Values
      && db.deliveries[d].workspace == c.workspace && db.deliveries[d].recipient == Some(c.user) :: db.deliveries[d];
    var deals := set d | d in mine && mine[d].targetType == Some("deal") && mine[d].targetId.Some? :: mine[d].targetId.value;
    var tasks := set d | d in mine && mine[d].targetType == Some("task") && mine[d].targetId.Some? :: mine[d].targetId.value;
    var seenDeals, seenTasks := VisibleIds(db, c, "deal", deals), VisibleIds(db, c, "task", tasks);
    visible := set x | x in events && events[x] in mine && mine[events[x]].targetId.Some?
      && ((mine[events[x]].targetType == Some("deal") && mine[events[x]].targetId.value in seenDeals)
          || (mine[events[x]].targetType == Some("task") && mine[events[x]].targetId.value in seenTasks));
    forall x | x in events ensures x in visible <==> NotificationVisible(db, c, events[x]) {
      var d := events[x];
      assert d in events.Values;
      if d in mine && mine[d].targetId.Some? {
        GroupedQuery(db, c, "deal", deals, mine[d].targetId.value);
        GroupedQuery(db, c, "task", tasks, mine[d].targetId.value);
      }
    }
  }
}
