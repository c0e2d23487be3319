// What a delivery from a channel writes: who the sender is, which deal the
// thread joins, and the rows of conversation, deal and message
// (backend/app/integrations/inbound.py).
module InboundEffects {
  import opened Prelude
  import opened Ranking
  import opened Inbound

  // ----- where a connection sends new deals -----

  // The first thing that is wrong with a connection, if any.
  ghost predicate RefusedFor(db: Db, connection: Id, error: Error) {
    var known := connection in db.connections;
    var complete := known && db.connections[connection].pipeline.Some? && db.connections[connection].stage.Some?;
    var matching := complete && exists s :: db.connections[connection].stage == Some(s) && s in db.stages
                                  && Some(db.stages[s].pipeline) == db.connections[connection].pipeline;
    match error
    case NoConnection => !known
    case NoDefaultStage => known && !complete
    case WrongStage => complete && !matching
    case InactiveAssignee => matching && !db.connections[connection].assigneeActive
    case _ => false
  }

  // A route is the default pipeline with a default stage of that pipeline.
  lemma RouteIs(db: Db, connection: Id)
    ensures var r := RouteOf(db, connection);
      && (forall error :: r == Err(error) <==> RefusedFor(db, connection, error))
      && (r.Ok? ==>
            && connection in db.connections && db.connections[connection].assigneeActive
            && db.connections[connection].pipeline == Some(r.value.pipeline) && db.connections[connection].stage == Some(r.value.stage)
            && r.value.stage in db.stages && db.stages[r.value.stage].pipeline == r.value.pipeline)
  {
  }

  // The message is refused for its route, or because an unknown e-mail sender
  // whose address does not normalize starts a thread; never for a clash.
  lemma RefusedIff(text: Text, db: Db, d: Delivery)
    requires Inv(db)
    ensures forall error :: Routed(text, db, d) == Err(error) <==>
      || RefusedFor(db, d.connection, error)
      || (error == InvalidAddress && RouteOf(db, d.connection).Ok? && (forall k :: !OfThread(db, k, d.connection, d.thread))
          && d.provider == "email" && text.normalize(d.sender).None? && forall c: Id :: SenderRow(d, c) !in db.identities)
  {
    RouteIs(db, d.connection);
    hide RouteOf, RefusedFor, Stored, Reopened, HasMessage, FindOpenDeal, OfThread;
    if RouteOf(db, d.connection).Ok? {
      if k :| OfThread(db, k, d.connection, d.thread) {
        ThreadFound(db, k, d.connection, d.thread);
      } else {
        ThreadMissing(db, d.connection, d.thread);
        hide FindThread, WithSender;
        SenderRefused(text, db, d);
      }
    }
  }

  lemma SenderRefused(text: Text, db: Db, d: Delivery)
    requires IdentitiesOk(db)
    ensures forall error :: WithSender(text, db, d) == Err(error) <==>
      error == InvalidAddress && d.provider == "email" && text.normalize(d.sender).None? && forall c: Id :: SenderRow(d, c) !in db.identities
  {
    hide WithSender, HasAddress;
    SenderResolved(text, db, d);
    if c: Id :| SenderRow(d, c) in db.identities {
    } else {
      SomeHolder(text, db, d);
    }
  }

  // Nobody, exactly one contact or several have the address.
  lemma SomeHolder(text: Text, db: Db, d: Delivery)
    ensures || (forall x: Id :: !HasAddress(text, db, d, x)) || (exists c: Id :: OnlyHolder(text, db, d, c))
            || exists x: Id, y: Id :: x != y && HasAddress(text, db, d, x) && HasAddress(text, db, d, y)
    ensures text.normalize(d.sender).None? ==> forall x: Id :: !HasAddress(text, db, d, x)
  {
    if c: Id :| HasAddress(text, db, d, c) {
      if forall x: Id :: HasAddress(text, db, d, x) ==> x == c {
        assert OnlyHolder(text, db, d, c);
      }
    }
  }

  // ----- deleting a contact -----

  // The contact is marked; its addresses and identities go, all others stay.
  lemma DeletionWrites(db: Db, contact: Id)
    requires contact in db.contacts && IdentitiesOk(db)
    ensures var t := WithoutContact(db, contact);
      && t == db.(contacts := t.contacts, points := t.points, identities := t.identities)
      && t.contacts == db.contacts[contact := Contact(db.contacts[contact].email, true)]
      && (forall p :: p in t.points <==> p in db.points && p.0 != contact)
      && (forall i :: i in t.identities <==> i in db.identities && i.contact != contact)
  {
    WithoutFacts(db.identities, contact);
    hide Without;
  }

  // ----- which deal a new thread joins -----

  // An open live deal of the contact in the pipeline.
  predicate Joinable(db: Db, x: Id, contact: Id, pipeline: Id) {
    && x in db.deals && !db.deals[x].deleted && db.deals[x].pipeline == pipeline
    && db.deals[x].stage in db.stages && db.stages[db.deals[x].stage].isOpen
    && (x, contact) in db.links
  }

  // No joinable deal was active later, or at the same time but is younger.
  ghost predicate Freshest(db: Db, x: Id, contact: Id, pipeline: Id) {
    && Joinable(db, x, contact, pipeline)
    && forall y :: Joinable(db, y, contact, pipeline) ==>
         || db.deals[y].lastActivity < db.deals[x].lastActivity
         || (db.deals[y].lastActivity == db.deals[x].lastActivity && db.deals[y].createdAt <= db.deals[x].createdAt)
  }

  lemma FoundIsFreshest(db: Db, contact: Option<Id>, pipeline: Id)
    ensures var found := FindOpenDeal(db, contact, pipeline);
      && (found.Some? ==> contact.Some? && Freshest(db, found.value, contact.value, pipeline))
      && (found.None? <==> contact.None? || forall y :: !Joinable(db, y, contact.value, pipeline))
  {
    if contact.Some? {
      var ids := OpenDeals(db, contact.value, pipeline);
      assert forall y :: Joinable(db, y, contact.value, pipeline) <==> y in ids;
      ActivityIsStrict(db, ids);
      RankedSorts(ids, ByActivity(db));
      hide StrictOrder;
      if ids != {} {
        BestOfAll(db, ids);
      }
    }
  }

  lemma BestOfAll(db: Db, ids: set<Id>)
    requires ids != {} && ids <= db.deals.Keys && StrictOrder(ids, ByActivity(db))
    ensures var order := Ranked(ids, ByActivity(db));
      |order| == |ids| > 0 && order[0] in ids && forall y :: y in ids && y != order[0] ==> Fresher(db, order[0], y)
  {
    RankedSorts(ids, ByActivity(db));
    var order := Ranked(ids, ByActivity(db));
    hide StrictOrder, Ranked;
    assert order[0] in Elements(order);
    forall y | y in ids && y != order[0] ensures Fresher(db, order[0], y) {
      assert y in Elements(order);
      var i :| 0 <= i < |order| && order[i] == y;
      assert ByActivity(db)(order[0], order[i]);
    }
  }

  // ----- who the sender is -----

  // A live contact that has the address of an e-mail sender, in the index or as
  // its primary address.
  predicate HasAddress(text: Text, db: Db, d: Delivery, c: Id) {
    && d.provider == "email" && text.normalize(d.sender).Some?
    && c in db.contacts && !db.contacts[c].deleted
    && ((c, text.normalize(d.sender).value) in db.points
        || (db.contacts[c].email.Some? && text.lower(db.contacts[c].email.value) == text.normalize(d.sender).value))
  }

  ghost predicate OnlyHolder(text: Text, db: Db, d: Delivery, c: Id) {
    HasAddress(text, db, d, c) && forall x: Id :: HasAddress(text, db, d, x) ==> x == c
  }

  // The row that remembers the sender.
  function SenderRow(d: Delivery, c: Id): Identity {
    Identity(IdentityKey(d.provider, d.connection, d.sender), c)
  }

  // A known sender is the contact remembered. Otherwise an e-mail sender is the
  // one contact with that address; several make it ambiguous, and nothing is
  // written; none makes a new contact, with the address if it is an e-mail sender.
  lemma SenderResolved(text: Text, db: Db, d: Delivery)
    requires IdentitiesOk(db)
    ensures forall c: Id :: SenderRow(d, c) in db.identities ==> WithSender(text, db, d) == Ok((db, Match(Some(c), false)))
    ensures (forall c: Id :: SenderRow(d, c) !in db.identities) ==>
      && (forall c: Id :: OnlyHolder(text, db, d, c) ==>
            WithSender(text, db, d) == Ok((db.(identities := db.identities + [SenderRow(d, c)]), Match(Some(c), false))))
      && ((exists x: Id, y: Id :: x != y && HasAddress(text, db, d, x) && HasAddress(text, db, d, y)) ==>
            WithSender(text, db, d) == Ok((db, Match(None, true))))
      && ((forall x: Id :: !HasAddress(text, db, d, x)) ==>
            WithSender(text, db, d) ==
              if d.provider == "email" && text.normalize(d.sender).None? then Err(InvalidAddress)
              else Ok((Newcomer(text, db, d), Match(Some(db.next), false))))
  {
    forall c: Id | SenderRow(d, c) in db.identities ensures WithSender(text, db, d) == Ok((db, Match(Some(c), false))) {
      KnownContact(db, KeyOf(d), c);
    }
    if forall c: Id :: SenderRow(d, c) !in db.identities {
      UnknownSender(text, db, d);
    }
  }

  function Newcomer(text: Text, db: Db, d: Delivery): Db {
    var email := d.provider == "email" && text.normalize(d.sender).Some?;
    db.(contacts := db.contacts[db.next := Contact(if d.provider == "email" then Some(d.sender) else None, false)],
        identities := db.identities + [SenderRow(d, db.next)],
        points := if email then db.points + {(db.next, text.normalize(d.sender).value)} else db.points,
        next := db.next + 1)
  }

  lemma UnknownSender(text: Text, db: Db, d: Delivery)
    requires forall c: Id :: SenderRow(d, c) !in db.identities
    ensures forall c: Id :: OnlyHolder(text, db, d, c) ==>
      WithSender(text, db, d) == Ok((db.(identities := db.identities + [SenderRow(d, c)]), Match(Some(c), false)))
    ensures (exists x: Id, y: Id :: x != y && HasAddress(text, db, d, x) && HasAddress(text, db, d, y)) ==>
      WithSender(text, db, d) == Ok((db, Match(None, true)))
    ensures (forall x: Id :: !HasAddress(text, db, d, x)) ==>
      WithSender(text, db, d) ==
        if d.provider == "email" && text.normalize(d.sender).None? then Err(InvalidAddress)
        else Ok((Newcomer(text, db, d), Match(Some(db.next), false)))
  {
    NobodyKnown(db, d);
    Addressed(text, db, d);
    hide AddressFallback, IdentityMatch, HasAddress;
  }

  lemma NobodyKnown(db: Db, d: Delivery)
    requires forall c: Id :: SenderRow(d, c) !in db.identities
    ensures One(IdentityMatch(db, KeyOf(d))) == Match(None, false)
    ensures forall i :: i in db.identities ==> i.key != KeyOf(d)
  {
    forall i | i in db.identities ensures i.key != KeyOf(d) {
      assert SenderRow(d, i.contact) !in db.identities;
    }
    assert IdentityMatch(db, KeyOf(d)) == {};
  }

  lemma Addressed(text: Text, db: Db, d: Delivery)
    ensures forall c: Id :: OnlyHolder(text, db, d, c) ==> AddressFallback(text, db, d) == Match(Some(c), false)
    ensures (exists x: Id, y: Id :: x != y && HasAddress(text, db, d, x) && HasAddress(text, db, d, y)) ==>
      AddressFallback(text, db, d) == Match(None, true)
    ensures (forall x: Id :: !HasAddress(text, db, d, x)) ==> AddressFallback(text, db, d) == Match(None, false)
  {
    if d.provider == "email" && text.normalize(d.sender).Some? {
      var ids := AddressMatch(text, db, text.normalize(d.sender).value);
      assert forall x: Id :: HasAddress(text, db, d, x) <==> x in ids;
      hide AddressMatch, HasAddress;
      forall c: Id | OnlyHolder(text, db, d, c) ensures AddressFallback(text, db, d) == Match(Some(c), false) {
        OneIs(ids, c);
      }
      if x: Id, y: Id :| x != y && HasAddress(text, db, d, x) && HasAddress(text, db, d, y) {
        SubsetSize({x, y}, ids);
      }
      if forall x: Id :: !HasAddress(text, db, d, x) {
        assert ids == {};
      }
    }
  }

  lemma OneIs(ids: set<Id>, c: Id)
    requires forall x: Id :: x in ids <==> x == c
    ensures One(ids) == Match(Some(c), false)
  {
    assert ids == {c};
  }

  // ----- the rows of a message -----

  // The deal that a message opens: in the default pipeline and stage, linked to
  // the contact.
  predicate Opened(t: Db, x: Id, route: Route, contact: Option<Id>, d: Delivery) {
    && x in t.deals && t.deals[x].pipeline == route.pipeline && t.deals[x].stage == route.stage && !t.deals[x].deleted
    && t.deals[x].createdAt == d.now && (contact.Some? ==> (x, contact.value) in t.links)
  }

  // A new message in a thread that is known: nobody is looked up; a closed
  // conversation is reopened, for review if it has no contact; a deal is opened
  // only if the conversation's is not open any more.
  lemma KnownThreadWrites(text: Text, db: Db, d: Delivery, k: Id)
    requires Inv(db) && OfThread(db, k, d.connection, d.thread) && !HasMessage(db, k, d.message) && RouteOf(db, d.connection).Ok?
    ensures Routed(text, db, d).Ok?
    ensures var t, route, c := Routed(text, db, d).value, RouteOf(db, d.connection).value, db.conversations[k];
      var kept := OpenLive(db, c.deal);
      var deal := if kept then c.deal else db.next;
      && t.contacts == db.contacts && t.points == db.points && t.identities == db.identities
      && t.conversations == db.conversations[k := Conversation(
           c.connection, c.thread, c.contact, deal,
           if c.status != Closed then c.status else if c.contact.Some? then Active else ReviewNeeded,
           d.occurredAt, c.version + 1 + (if c.status == Closed then 1 else 0) + (if kept then 0 else 1))]
      && t.deals.Keys == db.deals.Keys + {deal}
      && (forall other :: other in db.deals && other != deal ==> t.deals[other] == db.deals[other])
      && (kept ==> t.links == db.links && t.deals[deal] == db.deals[deal].(lastActivity := d.occurredAt, version := db.deals[deal].version + 1))
      && (!kept ==> Opened(t, deal, route, c.contact, d) && t.deals[deal].lastActivity == d.occurredAt
                    && t.links == if c.contact.Some? then db.links + {(deal, c.contact.value)} else db.links)
      && t.messages == db.messages + [Message(k, d.message, if d.replyTo.Some? && HasMessage(db, k, d.replyTo.value) then d.replyTo else None, d.occurredAt)]
  {
    hide RouteOf, FindThread, HasMessage, WithThread, OpenLive, Opened, Stored, OneThread, OneMessage, IdentitiesOk, IdsOk, Reopened;
    ThreadFound(db, k, d.connection, d.thread);
    ReopenKept(db, k);
    ReopenedIs(db, k);
    var reopened := Reopened(db, k);
    DealThere(db, k);
    StoredIs(reopened, k, d, RouteOf(db, d.connection).value);
    SameOpen(db, reopened, db.conversations[k].deal);
    SameMessagesIn(db, reopened, k);
  }

  lemma DealThere(db: Db, k: Id)
    requires Inv(db) && k in db.conversations
    ensures db.conversations[k].deal in db.deals && db.next !in db.deals
  {
  }

  lemma SameOpen(s: Db, t: Db, deal: Id)
    requires t.deals == s.deals && t.stages == s.stages
    ensures OpenLive(t, deal) <==> OpenLive(s, deal)
  {
  }

  lemma ReopenedIs(db: Db, k: Id)
    requires k in db.conversations
    ensures var c := db.conversations[k];
      Reopened(db, k) == db.(conversations := db.conversations[k :=
        if c.status != Closed then c
        else c.(status := if c.contact.Some? then Active else ReviewNeeded, version := c.version + 1)])
  {
  }

  lemma StoredIs(db: Db, k: Id, d: Delivery, route: Route)
    requires k in db.conversations && db.conversations[k].deal in db.deals && db.next !in db.deals
    ensures var t, c := Stored(db, k, d, route), db.conversations[k];
      var kept := OpenLive(db, c.deal);
      var deal := if kept then c.deal else db.next;
      && t.contacts == db.contacts && t.points == db.points && t.identities == db.identities
      && t.conversations == db.conversations[k := c.(deal := deal, lastMessageAt := d.occurredAt, version := c.version + 1 + if kept then 0 else 1)]
      && t.deals.Keys == db.deals.Keys + {deal}
      && (forall other :: other in db.deals && other != deal ==> t.deals[other] == db.deals[other])
      && (kept ==> t.links == db.links && t.deals[deal] == db.deals[deal].(lastActivity := d.occurredAt, version := db.deals[deal].version + 1))
      && (!kept ==> Opened(t, deal, route, c.contact, d) && t.deals[deal].lastActivity == d.occurredAt
                    && t.links == if c.contact.Some? then db.links + {(deal, c.contact.value)} else db.links)
      && t.messages == db.messages + [Message(k, d.message, if d.replyTo.Some? && HasMessage(db, k, d.replyTo.value) then d.replyTo else None, d.occurredAt)]
  {
    hide OpenLive;
    var middle := WithOpenDeal(db, k, route, d.now);
    SameMessagesIn(db, middle, k);
    hide HasMessage;
  }

  lemma SameMessagesIn(s: Db, t: Db, k: Id)
    requires t.messages == s.messages
    ensures forall message :: HasMessage(t, k, message) <==> HasMessage(s, k, message)
  {
  }

  // The first message of a thread: the conversation belongs to the sender as
  // resolved, for review if that was ambiguous; its deal is the freshest the
  // sender can join, and is opened if there is none.
  lemma FirstMessageWrites(text: Text, db: Db, d: Delivery) returns (k: Id)
    requires Inv(db) && (forall j :: !OfThread(db, j, d.connection, d.thread)) && Routed(text, db, d).Ok?
    ensures RouteOf(db, d.connection).Ok? && WithSender(text, db, d).Ok?
    ensures var t, route, (known, who) := Routed(text, db, d).value, RouteOf(db, d.connection).value, WithSender(text, db, d).value;
      && OfThread(t, k, d.connection, d.thread) && k !in db.conversations
      && t.conversations.Keys == db.conversations.Keys + {k}
      && (forall j :: j in db.conversations ==> t.conversations[j] == db.conversations[j])
      && t.conversations[k].contact == who.contact
      && t.conversations[k].status == (if who.ambiguous then ReviewNeeded else Active)
      && t.conversations[k].lastMessageAt == d.occurredAt
      && t.messages == db.messages + [Message(k, d.message, None, d.occurredAt)]
      && t.contacts == known.contacts && t.points == known.points && t.identities == known.identities
    ensures var t, route, (known, who) := Routed(text, db, d).value, RouteOf(db, d.connection).value, WithSender(text, db, d).value;
      var deal := t.conversations[k].deal;
      && deal in t.deals && t.deals[deal].lastActivity == d.occurredAt
      && (forall other :: other in db.deals && other != deal ==> other in t.deals && t.deals[other] == db.deals[other])
      && (if who.contact.Some? && exists x :: Joinable(known, x, who.contact.value, route.pipeline)
          then deal in db.deals && Freshest(known, deal, who.contact.value, route.pipeline)
               && t.deals[deal] == db.deals[deal].(lastActivity := d.occurredAt, version := db.deals[deal].version + 1)
               && t.deals.Keys == db.deals.Keys && t.links == db.links
          else deal !in db.deals && Opened(t, deal, route, who.contact, d))
  {
    hide RouteOf, WithSender, FindOpenDeal, HasMessage, Stored, Joinable, Freshest, WithThread, OpenLive, Opened;
    hide OneThread, OneMessage, IdentitiesOk;
    ThreadMissing(db, d.connection, d.thread);
    hide FindThread;
    var route := RouteOf(db, d.connection).value;
    SenderKept(text, db, d);
    ThreadIs(text, db, d, route);
    var (known, who) := WithSender(text, db, d).value;
    var (started, key) := WithThread(text, db, d, route).value;
    k := key;
    FoundIsFreshest(known, who.contact, route.pipeline);
    NoMessages(started, k);
    if FindOpenDeal(known, who.contact, route.pipeline).Some? {
      JoinableIsOpen(known, FindOpenDeal(known, who.contact, route.pipeline).value, who.contact.value, route.pipeline);
      SameOpen(known, started, started.conversations[k].deal);
    }
    StoredIs(started, k, d, route);
    OpenedIs(known, started, started.conversations[k].deal, Stored(started, k, d, route), route, who.contact, d);
  }

  // The conversation before its first message is stored.
  lemma ThreadIs(text: Text, db: Db, d: Delivery, route: Route)
    requires WithThread(text, db, d, route).Ok?
    ensures WithSender(text, db, d).Ok?
    ensures var (t, k), (known, who) := WithThread(text, db, d, route).value, WithSender(text, db, d).value;
      var found := FindOpenDeal(known, who.contact, route.pipeline);
      var deal := if found.Some? then found.value else known.next;
      && known.next <= k && t.next == k + 1 && (found.None? ==> known.next < k)
      && t.conversations == known.conversations[k := Conversation(d.connection, d.thread, who.contact, deal,
           if who.ambiguous then ReviewNeeded else Active, d.occurredAt, 1)]
      && t.contacts == known.contacts && t.points == known.points && t.identities == known.identities
      && t.messages == known.messages && t.stages == known.stages
      && (found.Some? ==> t.deals == known.deals && t.links == known.links)
      && (found.None? ==>
            && t.deals == known.deals[deal := Deal(route.pipeline, route.stage, false, d.now, d.now, 1)]
            && t.links == if who.contact.Some? then known.links + {(deal, who.contact.value)} else known.links)
  {
    hide WithSender, FindOpenDeal;
  }

  lemma NoMessages(db: Db, k: Id)
    requires forall m :: m in db.messages ==> m.conversation != k
    ensures forall message :: !HasMessage(db, k, message)
  {
  }

  lemma JoinableIsOpen(db: Db, x: Id, contact: Id, pipeline: Id)
    requires Freshest(db, x, contact, pipeline)
    ensures OpenLive(db, x) && x in db.deals
  {
  }

  // Whether the deal made first is kept or another one is opened, the
  // conversation ends on a deal of the default stage.
  lemma OpenedIs(known: Db, started: Db, first: Id, t: Db, route: Route, contact: Option<Id>, d: Delivery)
    ensures started.deals == known.deals[first := Deal(route.pipeline, route.stage, false, d.now, d.now, 1)]
      && started.links == (if contact.Some? then known.links + {(first, contact.value)} else known.links)
      && t.links == started.links && first in t.deals
      && t.deals[first] == started.deals[first].(lastActivity := d.occurredAt, version := started.deals[first].version + 1)
      ==> Opened(t, first, route, contact, d)
  {
  }
}
